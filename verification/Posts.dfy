// What a step of the broker hands to which session, in order. The outbound
// halves of all sessions and the counter of drops after a step are exactly what
// these posts make of them.

module Posts {
  import opened Types
  import opened Delivery
  import opened SessionRuns
  import opened Router
  import B = Broker
  import R = BrokerRuns
  import InboundQos2
  import Projection = SessionProjection

  /** One event of one session's own machine. */
  datatype Post = Post(client: string, t: Timed)

  /** The outbound half of every session. */
  type Board = map<string, Outbound>

  ghost function Lines(sessions: map<string, Session>): Board {
    map c | c in sessions :: sessions[c].d
  }

  datatype Outcome = Outcome(board: Board, dropped: nat)

  ghost function PostOne(env: Env, o: Outcome, p: Post): Outcome {
    if p.client !in o.board then o
    else
      var r := Next(env, o.board[p.client], p.t);
      Outcome(o.board[p.client := r.d], o.dropped + r.dropped)
  }

  ghost function PostAll(env: Env, o: Outcome, posts: seq<Post>): Outcome {
    if posts == [] then o else PostOne(env, PostAll(env, o, posts[..|posts| - 1]), posts[|posts| - 1])
  }

  lemma {:induction false} PostSnoc(env: Env, o: Outcome, posts: seq<Post>, p: Post)
    ensures PostAll(env, o, posts + [p]) == PostOne(env, PostAll(env, o, posts), p)
  {
    assert (posts + [p])[..|posts|] == posts;
  }

  lemma {:induction false} PostSingle(env: Env, o: Outcome, p: Post)
    ensures PostAll(env, o, [p]) == PostOne(env, o, p)
  {
    assert [p][..0] == [];
    assert PostAll(env, o, []) == o;
  }

  lemma {:induction false} PostConcat(env: Env, o: Outcome, a: seq<Post>, b: seq<Post>)
    ensures PostAll(env, o, a + b) == PostAll(env, PostAll(env, o, a), b)
  {
    if b == [] {
      assert a + b == a;
    } else {
      var n := |b| - 1;
      PostConcat(env, o, a, b[..n]);
      assert (a + b)[..|a + b| - 1] == a + b[..n];
    }
  }

  // -------------------------------------------------------------------------
  // The routing a step performs
  // -------------------------------------------------------------------------

  /** A call of the router: the state it runs in, and what it routes. */
  datatype Routing = Routing(st: B.State, now: nat, pub: Publication, order: RouteOrder)

  // An authorised PUBLISH is routed unless it repeats a pending identifier.
  ghost function PublishRouting(env: Env, now: nat, st: B.State, client: string, p: B.InPublish,
                                o: RouteOrder): Option<Routing>
    requires client in st.sessions
  {
    if !R.Taken(env, st, client, p) || B.Duplicate(st, client, p) then None
    else
      var m := B.FromPublish(p.(topic := B.ResolveAlias(env, st.sessions[client].aliases, p).name), now);
      Some(Routing(B.Hold(B.Retain(R.Aliased(env, st, client, p), m), client, p), now, Publication(m, Some(client)), o))
  }

  ghost function RouteOf(env: Env, n: R.Node, t: R.TimedEvent): Option<Routing> {
    match t.ev
    case Packet(client, epoch, i) =>
      if i.InPublish? && B.Current(n.st, client, epoch)
      then PublishRouting(env, t.now, n.st, client, i.p, i.order) else None
    case Work(task, order) =>
      if R.Fires(env, n.st, t.ev)
      then Some(Routing(B.Retain(n.st, task.will.message), t.now, Publication(task.will.message, None), order))
      else None
    case InjectMessage(client, m, order) =>
      Some(Routing(B.Retain(n.st, m), t.now, Publication(m, Some(client)), order))
    case Sys(topic, payload, order) =>
      var m := B.SysMessage(topic, payload);
      Some(Routing(n.st.(retained := n.st.retained[topic := m]), t.now, Publication(m, None), order))
    case _ => None
  }

  ghost predicate Routable(env: Env, g: Routing) {
    B.ValidFor(env, g.st, g.pub, g.order)
  }

  ghost function PlanOf(env: Env, g: Routing): seq<Target>
    requires Routable(env, g)
  {
    if IsExpired(g.pub.message, g.now) then [] else Plan(env, g.pub, g.st.sessions, g.st.rr, g.order)
  }

  ghost function GivePosts(now: nat, pub: Publication, plan: seq<Target>): seq<Post> {
    seq(|plan|, i requires 0 <= i < |plan| => Post(plan[i].client, At(now, Give(PendingFor(pub, plan[i])))))
  }

  ghost function RoutePosts(env: Env, g: Routing): seq<Post>
    requires Routable(env, g)
  {
    GivePosts(g.now, g.pub, PlanOf(env, g))
  }

  // -------------------------------------------------------------------------
  // The posts of a step
  // -------------------------------------------------------------------------

  function Tells(client: string, now: nat, x: Outgoing): seq<Post> {
    [Post(client, At(now, Tell(x)))]
  }

  function AnswerPosts(client: string, now: nat, p: B.InPublish, rc: ReasonCode): seq<Post> {
    match p.qos
    case AtMostOnce => []
    case AtLeastOnce => Tells(client, now, Control(Puback(B.PacketId(p), rc)))
    case ExactlyOnce => Tells(client, now, Control(Pubrec(B.PacketId(p), rc)))
  }

  // Everything about the PUBLISH is in order except that it is not allowed.
  ghost predicate Barred(env: Env, st: B.State, client: string, p: B.InPublish)
    requires client in st.sessions
  {
    && Rank(p.qos) <= Rank(env.maximumQos) && (p.retain ==> env.retainAvailable)
    && B.ResolveAlias(env, st.sessions[client].aliases, p).Topic?
    && var name := B.ResolveAlias(env, st.sessions[client].aliases, p).name;
    env.validTopic(name) && !("$SYS/" <= name) && !B.CanPublish(env, st.acl, B.Who(st.sessions[client].identity), name)
  }

  ghost function PublishPosts(env: Env, now: nat, st: B.State, client: string, p: B.InPublish, o: RouteOrder): seq<Post>
    requires client in st.sessions
  {
    if !R.Taken(env, st, client, p) then
      if Barred(env, st, client, p) && B.Refusal(p).Some? then Tells(client, now, B.Refusal(p).value) else []
    else
      match PublishRouting(env, now, st, client, p, o)
      case None => AnswerPosts(client, now, p, Success)
      case Some(g) =>
        if !Routable(env, g) then []
        else
          RoutePosts(env, g)
          + AnswerPosts(client, now, p,
                        if B.Matched(env, now, g.st, g.pub, o) then Success else NoMatchingSubscribers)
  }

  function Gives(client: string, now: nat, ps: seq<Pending>): seq<Post> {
    seq(|ps|, i requires 0 <= i < |ps| => Post(client, At(now, Give(ps[i]))))
  }

  ghost function SubscribePosts(env: Env, now: nat, st: B.State, client: string, i: R.Inbound): seq<Post>
    requires client in st.sessions && i.InSubscribe?
  {
    var acc := B.SubscribeAll(env, now, B.ContextOf(st, client, i.subId, i.topics),
                              B.SubAcc(st.sessions[client].subs, [], [], []), i.filters);
    Tells(client, now, Control(Suback(i.packetId, acc.codes))) + Gives(client, now, acc.sends)
  }

  ghost function UnsubscribePosts(env: Env, now: nat, st: B.State, client: string, i: R.Inbound): seq<Post>
    requires client in st.sessions && i.InUnsubscribe?
  {
    var acc := B.UnsubscribeAll(env, B.ContextOf(st, client, None, []), B.SubAcc(st.sessions[client].subs, [], [], []),
                                i.names);
    Tells(client, now, Control(Unsuback(i.packetId, acc.codes)))
  }

  ghost function InboundPosts(env: Env, now: nat, st: B.State, client: string, i: R.Inbound): seq<Post>
    requires client in st.sessions
  {
    match i
    case InPublish(p, o) => PublishPosts(env, now, st, client, p, o)
    case InPuback(id) => [Post(client, At(now, AckPuback(id)))]
    case InPubrec(id, rc) => [Post(client, At(now, AckPubrec(id, rc)))]
    case InPubcomp(id) => [Post(client, At(now, AckPubcomp(id)))]
    case InPubrel(id) =>
      var rc := if id in st.sessions[client].inboundQos2 then Success else PacketIdentifierNotFound;
      Tells(client, now, Control(Pubcomp(id, rc)))
    case InSubscribe(_, _, _, _) => SubscribePosts(env, now, st, client, i)
    case InUnsubscribe(_, _) => UnsubscribePosts(env, now, st, client, i)
    case InDisconnect(_) => []
  }

  // A revoke pass shuts down whoever loses a subscription.
  ghost function ShutdownPosts(env: Env, now: nat, acl: B.Acl, sessions: map<string, Session>,
                               order: seq<string>): seq<Post> {
    if order == [] then []
    else
      var c := order[|order| - 1];
      ShutdownPosts(env, now, acl, sessions, order[..|order| - 1])
      + if c in sessions && B.Denied(env, acl, B.Who(sessions[c].identity), sessions[c].subs) != []
        then Tells(c, now, Shutdown(NotAuthorized)) else []
  }

  function Welcome(out: Channel): SessionRuns.Event {
    Reconnect(false, out, MAX_ID, None, ResumeOrder([], [], []))
  }

  ghost function PostsOf(env: Env, n: R.Node, t: R.TimedEvent): seq<Post>
    requires R.Enabled(env, n, t)
  {
    match t.ev
    case Connect(q) =>
      if B.Acceptable(env, n.st, q) then [Post(q.client, At(t.now, Projection.ReconnectOf(env, n.st, q)))] else []
    case Packet(client, epoch, i) =>
      if B.Current(n.st, client, epoch) then InboundPosts(env, t.now, n.st, client, i) else []
    case Close(client, epoch, _) =>
      if B.Current(n.st, client, epoch) then [Post(client, At(t.now, GoOffline))] else []
    case RevokePass(acl, clients) => if acl.enforced then ShutdownPosts(env, t.now, acl, n.st.sessions, clients) else []
    case Register(client, out) => [Post(client, At(t.now, Welcome(out)))]
    case Wire(client, ev) => [Post(client, At(t.now, ev))]
    case _ =>
      var g := RouteOf(env, n, t);
      if g.Some? && Routable(env, g.value) then RoutePosts(env, g.value) else []
  }

  // The client whose session the step ends, and the one whose session it begins.
  ghost function Ends(env: Env, st: B.State, ev: R.Event): Option<string> {
    match ev
    case Work(task, _) =>
      if task.Remove? && B.Current(st, task.client, task.epoch) && !Online(st.sessions[task.client].d)
      then Some(task.client) else None
    case Deregister(client, epoch) => if B.Current(st, client, epoch) then Some(client) else None
    case _ =>
      var b := Begins(env, st, ev);
      if b.Some? && b.value in st.sessions then b else None
  }

  ghost function Begins(env: Env, st: B.State, ev: R.Event): Option<string> {
    if ev.Connect? && B.Acceptable(env, st, ev.c) && !B.Present(st, ev.c) then Some(ev.c.client)
    else if ev.Register? then Some(ev.client)
    else None
  }

  // The outbound halves before the posts: an ended session is gone, a new one
  // is fresh.
  ghost function Opened(env: Env, st: B.State, ev: R.Event): Board {
    var ended, begun := Ends(env, st, ev), Begins(env, st, ev);
    var board := if ended.Some? then Lines(st.sessions) - {ended.value} else Lines(st.sessions);
    if begun.Some? then board[begun.value := FRESH] else board
  }

  // -------------------------------------------------------------------------
  // Handlers
  // -------------------------------------------------------------------------

  // The state `st'` is `st` after these posts, as far as outbound halves and
  // the counter go.
  ghost predicate Delivers(env: Env, board: Board, dropped: nat, posts: seq<Post>, st': B.State) {
    PostAll(env, Outcome(board, dropped), posts) == Outcome(Lines(st'.sessions), st'.dropped)
  }

  lemma {:induction false} LinesPut(sessions: map<string, Session>, c: string, s: Session)
    ensures Lines(sessions[c := s]) == Lines(sessions)[c := s.d]
  {
  }

  lemma {:induction false} LinesPutTwice(sessions: map<string, Session>, c: string, s: Session, s': Session)
    ensures Lines(sessions[c := s']) == Lines(sessions[c := s])[c := s'.d]
  {
  }

  lemma {:induction false} LinesSame(a: map<string, Session>, b: map<string, Session>)
    requires a.Keys == b.Keys && forall c :: c in a ==> b[c].d == a[c].d
    ensures Lines(a) == Lines(b)
  {
  }

  lemma {:induction false} NoPosts(env: Env, st: B.State, st': B.State)
    requires Lines(st'.sessions) == Lines(st.sessions) && st'.dropped == st.dropped
    ensures Delivers(env, Lines(st.sessions), st.dropped, [], st')
  {
  }

  lemma {:induction false} FanoutPosts(env: Env, now: nat, pub: Publication, f: Fanout, base: nat, plan: seq<Target>)
    ensures var f' := DeliverAll(env, now, pub, f, plan);
      PostAll(env, Outcome(Lines(f.sessions), base + f.dropped), GivePosts(now, pub, plan))
      == Outcome(Lines(f'.sessions), base + f'.dropped)
  {
    if plan != [] {
      var n := |plan| - 1;
      var posts := GivePosts(now, pub, plan);
      FanoutPosts(env, now, pub, f, base, plan[..n]);
      assert posts[..n] == GivePosts(now, pub, plan[..n]);
      GivePost(env, now, pub, DeliverAll(env, now, pub, f, plan[..n]), base, plan[n]);
    }
  }

  lemma {:induction false} GivePost(env: Env, now: nat, pub: Publication, f: Fanout, base: nat, t: Target)
    ensures var f' := DeliverTo(env, now, pub, f, t);
      PostOne(env, Outcome(Lines(f.sessions), base + f.dropped), Post(t.client, At(now, Give(PendingFor(pub, t)))))
      == Outcome(Lines(f'.sessions), base + f'.dropped)
  {
    if t.client in f.sessions {
      var s := f.sessions[t.client];
      LinesPut(f.sessions, t.client, s.(d := Deliver(env, now, s.d, PendingFor(pub, t)).d));
    }
  }

  lemma {:induction false} RouteDelivers(env: Env, g: Routing)
    requires Routable(env, g)
    ensures Delivers(env, Lines(g.st.sessions), g.st.dropped, RoutePosts(env, g),
                     B.RouteIn(env, g.now, g.st, g.pub, g.order))
  {
    if !IsExpired(g.pub.message, g.now) {
      FanoutPosts(env, g.now, g.pub, Fanout(g.st.sessions, 0), g.st.dropped, PlanOf(env, g));
    }
  }

  lemma {:induction false} TellDelivers(env: Env, now: nat, st: B.State, client: string, x: Outgoing)
    requires client in st.sessions && (Projection.Reply(x) || x.Shutdown?)
    ensures Delivers(env, Lines(st.sessions), st.dropped, Tells(client, now, x), B.Tell(st, client, x))
  {
    var s := st.sessions[client];
    PostSingle(env, Outcome(Lines(st.sessions), st.dropped), Post(client, At(now, Tell(x))));
    LinesPut(st.sessions, client, s.(d := Notify(s.d, x)));
  }

  lemma {:induction false} AnswerDelivers(env: Env, now: nat, st: B.State, client: string, p: B.InPublish,
                                          rc: ReasonCode)
    requires client in st.sessions
    ensures Delivers(env, Lines(st.sessions), st.dropped, AnswerPosts(client, now, p, rc), B.Answer(st, client, p, rc))
  {
    match p.qos
    case AtMostOnce =>
    case AtLeastOnce => TellDelivers(env, now, st, client, Control(Puback(B.PacketId(p), rc)));
    case ExactlyOnce => TellDelivers(env, now, st, client, Control(Pubrec(B.PacketId(p), rc)));
  }

  lemma {:induction false} DeliversThen(env: Env, board: Board, dropped: nat, a: seq<Post>, mid: B.State, b: seq<Post>,
                                        st': B.State)
    requires Delivers(env, board, dropped, a, mid) && Delivers(env, Lines(mid.sessions), mid.dropped, b, st')
    ensures Delivers(env, board, dropped, a + b, st')
  {
    PostConcat(env, Outcome(board, dropped), a, b);
  }

  lemma {:induction false} PutDelivers(env: Env, st: B.State, client: string, t: Timed, s': Session, st': B.State)
    requires client in st.sessions && st'.sessions == st.sessions[client := s']
    requires st'.dropped >= st.dropped && Next(env, st.sessions[client].d, t) == Flushed(s'.d, st'.dropped - st.dropped)
    ensures Delivers(env, Lines(st.sessions), st.dropped, [Post(client, t)], st')
  {
    PostSingle(env, Outcome(Lines(st.sessions), st.dropped), Post(client, t));
    LinesPut(st.sessions, client, s');
  }

  // -------------------------------------------------------------------------
  // PUBLISH
  // -------------------------------------------------------------------------

  lemma {:induction false} LinesAliased(env: Env, st: B.State, client: string, p: B.InPublish)
    requires client in st.sessions
    ensures var st1 := R.Aliased(env, st, client, p);
      Lines(st1.sessions) == Lines(st.sessions) && st1.dropped == st.dropped && client in st1.sessions
      && st1.sessions[client].inboundQos2 == st.sessions[client].inboundQos2
  {
    LinesSame(st.sessions, R.Aliased(env, st, client, p).sessions);
  }

  lemma {:induction false} LinesHeld(st: B.State, m: Message, client: string, p: B.InPublish)
    requires client in st.sessions
    ensures var st' := B.Hold(B.Retain(st, m), client, p);
      Lines(st'.sessions) == Lines(st.sessions) && st'.dropped == st.dropped && client in st'.sessions
  {
    LinesSame(st.sessions, B.Hold(B.Retain(st, m), client, p).sessions);
  }

  lemma {:induction false} RefusedOutcome(env: Env, now: nat, st: B.State, client: string, epoch: nat, p: B.InPublish,
                                          o: RouteOrder)
    requires B.Current(st, client, epoch) && !R.Taken(env, st, client, p)
    ensures var st1, st' := R.Aliased(env, st, client, p), B.HandlePublish(env, now, st, client, epoch, p, o).st;
      if Barred(env, st, client, p) && B.Refusal(p).Some? then st' == B.Tell(st1, client, B.Refusal(p).value)
      else st' == st || st' == st1
  {
  }

  lemma {:induction false} RefusedDelivers(env: Env, now: nat, st: B.State, client: string, epoch: nat, p: B.InPublish,
                                           o: RouteOrder)
    requires B.Current(st, client, epoch) && !R.Taken(env, st, client, p)
    ensures Delivers(env, Lines(st.sessions), st.dropped, PublishPosts(env, now, st, client, p, o),
                     B.HandlePublish(env, now, st, client, epoch, p, o).st)
  {
    RefusedOutcome(env, now, st, client, epoch, p, o);
    LinesAliased(env, st, client, p);
    if Barred(env, st, client, p) && B.Refusal(p).Some? {
      TellDelivers(env, now, R.Aliased(env, st, client, p), client, B.Refusal(p).value);
    } else {
      NoPosts(env, st, B.HandlePublish(env, now, st, client, epoch, p, o).st);
    }
  }

  // A routed PUBLISH: its deliveries, then its answer.
  lemma {:induction false} RoutedDelivers(env: Env, g: Routing, client: string, p: B.InPublish)
    requires Routable(env, g) && client in g.st.sessions
    ensures var rc := if B.Matched(env, g.now, g.st, g.pub, g.order) then Success else NoMatchingSubscribers;
      Delivers(env, Lines(g.st.sessions), g.st.dropped, RoutePosts(env, g) + AnswerPosts(client, g.now, p, rc),
               B.Answer(B.RouteIn(env, g.now, g.st, g.pub, g.order), client, p, rc))
  {
    var rc := if B.Matched(env, g.now, g.st, g.pub, g.order) then Success else NoMatchingSubscribers;
    var mid := B.RouteIn(env, g.now, g.st, g.pub, g.order);
    RouteDelivers(env, g);
    R.QuietRoute(env, g.now, g.st, g.pub, g.order);
    AnswerDelivers(env, g.now, mid, client, p, rc);
    DeliversThen(env, Lines(g.st.sessions), g.st.dropped, RoutePosts(env, g), mid, AnswerPosts(client, g.now, p, rc),
                 B.Answer(mid, client, p, rc));
  }

  lemma {:induction false} TakenOutcome(env: Env, now: nat, st: B.State, client: string, epoch: nat, p: B.InPublish,
                                        o: RouteOrder)
    requires B.Current(st, client, epoch) && R.Taken(env, st, client, p) && R.PublishReady(env, now, st, client, p, o)
    ensures var st' := B.HandlePublish(env, now, st, client, epoch, p, o).st;
      var g := PublishRouting(env, now, st, client, p, o);
      if g.None? then
        exists m :: st' == B.Answer(B.Retain(R.Aliased(env, st, client, p), m), client, p, Success)
      else
        Routable(env, g.value)
        && st' == B.Answer(B.RouteIn(env, now, g.value.st, g.value.pub, o), client, p,
                           if B.Matched(env, now, g.value.st, g.value.pub, o) then Success else NoMatchingSubscribers)
  {
    var st1 := R.Aliased(env, st, client, p);
    var p1 := p.(topic := B.ResolveAlias(env, st.sessions[client].aliases, p).name);
    var m := B.FromPublish(p1, now);
    R.PublishOutcome(env, now, st, client, epoch, p, o);
    InboundQos2.RouteStaysValid(env, Publication(m, Some(client)), st.sessions, st1.sessions, o);
    InboundQos2.PublishParts(env, now, st1, client, p1, o);
    InboundQos2.RenamedHolds(B.Retain(st1, m), client, p, p1.topic);
    LinesAliased(env, st, client, p);
  }

  lemma {:induction false} TakenDelivers(env: Env, now: nat, st: B.State, client: string, epoch: nat, p: B.InPublish,
                                         o: RouteOrder)
    requires B.Current(st, client, epoch) && R.Taken(env, st, client, p) && R.PublishReady(env, now, st, client, p, o)
    ensures Delivers(env, Lines(st.sessions), st.dropped, PublishPosts(env, now, st, client, p, o),
                     B.HandlePublish(env, now, st, client, epoch, p, o).st)
  {
    TakenOutcome(env, now, st, client, epoch, p, o);
    LinesAliased(env, st, client, p);
    var st1, g := R.Aliased(env, st, client, p), PublishRouting(env, now, st, client, p, o);
    if g.None? {
      var m :| B.HandlePublish(env, now, st, client, epoch, p, o).st == B.Answer(B.Retain(st1, m), client, p, Success);
      AnswerDelivers(env, now, B.Retain(st1, m), client, p, Success);
    } else {
      LinesHeld(st1, g.value.pub.message, client, p);
      RoutedDelivers(env, g.value, client, p);
    }
  }

  // -------------------------------------------------------------------------
  // Other packets
  // -------------------------------------------------------------------------

  lemma {:induction false} AckDelivers(env: Env, now: nat, st: B.State, client: string, epoch: nat, i: R.Inbound)
    requires B.Current(st, client, epoch) && R.IsAck(i)
    ensures Delivers(env, Lines(st.sessions), st.dropped, InboundPosts(env, now, st, client, i),
                     R.HandleInbound(env, now, st, client, epoch, i))
  {
    var s := st.sessions[client];
    var st' := R.HandleInbound(env, now, st, client, epoch, i);
    var post := InboundPosts(env, now, st, client, i)[0];
    assert InboundPosts(env, now, st, client, i) == [post];
    match i
    case InPuback(id) => PutDelivers(env, st, client, post.t, s.(d := HandlePuback(env, now, s.d, id).d), st');
    case InPubrec(id, rc) => PutDelivers(env, st, client, post.t, s.(d := HandlePubrec(s.d, id, rc)), st');
    case InPubcomp(id) => PutDelivers(env, st, client, post.t, s.(d := HandlePubcomp(env, now, s.d, id).d), st');
    case InPubrel(id) => PutDelivers(env, st, client, post.t, st'.sessions[client], st');
  }

  lemma {:induction false} GivesDeliver(env: Env, now: nat, board: Board, dropped: nat, c: string, ps: seq<Pending>)
    requires c in board
    ensures var r := GiveAll(env, now, board[c], ps);
      PostAll(env, Outcome(board, dropped), Gives(c, now, ps)) == Outcome(board[c := r.d], dropped + r.dropped)
    decreases |ps|
  {
    if ps == [] {
      assert board[c := board[c]] == board;
    } else {
      var p := Post(c, At(now, Give(ps[0])));
      var o := PostOne(env, Outcome(board, dropped), p);
      assert Gives(c, now, ps) == [p] + Gives(c, now, ps[1..]);
      PostConcat(env, Outcome(board, dropped), [p], Gives(c, now, ps[1..]));
      PostSingle(env, Outcome(board, dropped), p);
      GivesDeliver(env, now, o.board, o.dropped, c, ps[1..]);
      var r := GiveAll(env, now, board[c], ps);
      assert o.board[c := r.d] == board[c := r.d];
    }
  }

  lemma {:induction false} SubscribeDelivers(env: Env, now: nat, st: B.State, client: string, epoch: nat, i: R.Inbound)
    requires B.Current(st, client, epoch) && i.InSubscribe?
    ensures Delivers(env, Lines(st.sessions), st.dropped, SubscribePosts(env, now, st, client, i),
                     R.HandleInbound(env, now, st, client, epoch, i))
  {
    var s := st.sessions[client];
    var acc := B.SubscribeAll(env, now, B.ContextOf(st, client, i.subId, i.topics), B.SubAcc(s.subs, [], [], []),
                              i.filters);
    var x := Control(Suback(i.packetId, acc.codes));
    var told := B.Tell(st, client, x);
    TellDelivers(env, now, st, client, x);
    GivesDeliver(env, now, Lines(told.sessions), told.dropped, client, acc.sends);
    var r := GiveAll(env, now, Notify(s.d, x), acc.sends);
    var st' := R.HandleInbound(env, now, st, client, epoch, i);
    LinesPutTwice(st.sessions, client, s.(d := Notify(s.d, x)), s.(subs := acc.subs, d := r.d));
    DeliversThen(env, Lines(st.sessions), st.dropped, Tells(client, now, x), told, Gives(client, now, acc.sends), st');
  }

  lemma {:induction false} UnsubscribeDelivers(env: Env, now: nat, st: B.State, client: string, epoch: nat,
                                               i: R.Inbound)
    requires B.Current(st, client, epoch) && i.InUnsubscribe?
    ensures Delivers(env, Lines(st.sessions), st.dropped, UnsubscribePosts(env, now, st, client, i),
                     R.HandleInbound(env, now, st, client, epoch, i))
  {
    var s := st.sessions[client];
    var acc := B.UnsubscribeAll(env, B.ContextOf(st, client, None, []), B.SubAcc(s.subs, [], [], []), i.names);
    var x := Control(Unsuback(i.packetId, acc.codes));
    PutDelivers(env, st, client, At(now, Tell(x)), s.(subs := acc.subs, d := Notify(s.d, x)),
                R.HandleInbound(env, now, st, client, epoch, i));
  }

  lemma {:induction false} PacketDelivers(env: Env, n: R.Node, t: R.TimedEvent)
    requires R.Enabled(env, n, t) && t.ev.Packet?
    ensures Delivers(env, Lines(n.st.sessions), n.st.dropped, PostsOf(env, n, t), R.NextState(env, n, t))
  {
    var client, epoch, i := t.ev.client, t.ev.epoch, t.ev.inbound;
    if B.Current(n.st, client, epoch) {
      if i.InPublish? {
        if R.Taken(env, n.st, client, i.p) { TakenDelivers(env, t.now, n.st, client, epoch, i.p, i.order); }
        else { RefusedDelivers(env, t.now, n.st, client, epoch, i.p, i.order); }
      } else if R.IsAck(i) { AckDelivers(env, t.now, n.st, client, epoch, i); }
      else if i.InSubscribe? { SubscribeDelivers(env, t.now, n.st, client, epoch, i); }
      else if i.InUnsubscribe? { UnsubscribeDelivers(env, t.now, n.st, client, epoch, i); }
      else { NoPosts(env, n.st, R.NextState(env, n, t)); }
    } else {
      NoPosts(env, n.st, R.NextState(env, n, t));
    }
  }

  // -------------------------------------------------------------------------
  // Opening, closing, revoking
  // -------------------------------------------------------------------------

  lemma {:induction false} ConnectDelivers(env: Env, now: nat, st: B.State, q: B.ConnectRequest)
    requires B.ConnectReady(env, st, q) && B.Acceptable(env, st, q)
    ensures Delivers(env, Opened(env, st, R.Connect(q)), st.dropped,
                     [Post(q.client, At(now, Projection.ReconnectOf(env, st, q)))], B.HandleConnect(env, now, st, q))
  {
    var t := Projection.ConnectFollows(env, now, st, q);
    var r := B.Opening(env, now, st, q);
    OpenedPost(env, st, q.client, B.Present(st, q), t, r, B.HandleConnect(env, now, st, q));
  }

  // One event on a session that was kept or has just begun.
  lemma {:induction false} OpenedPost(env: Env, st: B.State, c: string, present: bool, t: Timed, r: Flushed,
                                      st': B.State)
    requires (present ==> c in st.sessions) && c in st'.sessions
    requires r == Next(env, if present then st.sessions[c].d else FRESH, t) && st'.sessions[c].d == r.d
    requires st'.sessions == st.sessions[c := st'.sessions[c]] && st'.dropped == st.dropped + r.dropped
    ensures var board := if present then Lines(st.sessions)
                         else if c in st.sessions then (Lines(st.sessions) - {c})[c := FRESH]
                         else Lines(st.sessions)[c := FRESH];
      Delivers(env, board, st.dropped, [Post(c, t)], st')
  {
    var board := if present then Lines(st.sessions)
                 else if c in st.sessions then (Lines(st.sessions) - {c})[c := FRESH]
                 else Lines(st.sessions)[c := FRESH];
    PostSingle(env, Outcome(board, st.dropped), Post(c, t));
    LinesPut(st.sessions, c, st'.sessions[c]);
    assert board[c := r.d] == Lines(st.sessions)[c := r.d];
  }

  lemma {:induction false} RegisterDelivers(env: Env, now: nat, st: B.State, client: string, out: Channel)
    requires out.items == []
    ensures Delivers(env, Opened(env, st, R.Register(client, out)), st.dropped, [Post(client, At(now, Welcome(out)))],
                     B.RegisterBridge(st, client, out))
  {
    var st' := B.RegisterBridge(st, client, out);
    WelcomeOpens(env, now, out);
    OpenedPost(env, st, client, false, At(now, Welcome(out)), Flushed(st'.sessions[client].d, 0), st');
  }

  lemma {:induction false} WelcomeOpens(env: Env, now: nat, out: Channel)
    requires out.items == []
    ensures Next(env, FRESH, At(now, Welcome(out))) == Flushed(FRESH.(out := Some(out)), 0)
  {
    var ev := Welcome(out);
    var d := Resumed(FRESH, ev);
    assert d == FRESH.(out := Some(out));
    Projection.FreshResume(env, now, d, ev.order);
    assert Next(env, FRESH, At(now, ev)) == Resume(env, now, d, ev.order);
  }

  lemma {:induction false} CloseDelivers(env: Env, now: nat, st: B.State, client: string, epoch: nat)
    requires B.Current(st, client, epoch)
    ensures Delivers(env, Lines(st.sessions), st.dropped, [Post(client, At(now, GoOffline))],
                     B.CloseSession(st, client, epoch))
  {
    var st' := B.CloseSession(st, client, epoch);
    PutDelivers(env, st, client, At(now, GoOffline), st'.sessions[client], st');
  }

  lemma {:induction false} ShutdownsDeliver(env: Env, now: nat, acl: B.Acl, first: map<string, Session>, dropped: nat,
                                            done: seq<string>)
    requires Distinct(done) && forall c :: c in done ==> c in first
    ensures PostAll(env, Outcome(Lines(first), dropped), ShutdownPosts(env, now, acl, first, done))
            == Outcome(Lines(B.PrunedIn(env, acl, first, done)), dropped)
  {
    if done == [] {
      assert B.PrunedIn(env, acl, first, []) == first;
    } else {
      var n := |done| - 1;
      var less, c := done[..n], done[n];
      assert done == less + [c] && c !in less;
      ShutdownsDeliver(env, now, acl, first, dropped, less);
      B.PrunedNext(env, acl, first, less, c);
      ShutdownOne(env, now, acl, B.PrunedIn(env, acl, first, less), dropped, c);
      var last := if B.Denied(env, acl, B.Who(first[c].identity), first[c].subs) != []
                  then Tells(c, now, Shutdown(NotAuthorized)) else [];
      PostConcat(env, Outcome(Lines(first), dropped), ShutdownPosts(env, now, acl, first, less), last);
    }
  }

  lemma {:induction false} ShutdownOne(env: Env, now: nat, acl: B.Acl, sessions: map<string, Session>, dropped: nat,
                                       c: string)
    requires c in sessions
    ensures var s := sessions[c];
      var posts := if B.Denied(env, acl, B.Who(s.identity), s.subs) != []
                   then Tells(c, now, Shutdown(NotAuthorized)) else [];
      PostAll(env, Outcome(Lines(sessions), dropped), posts)
      == Outcome(Lines(sessions[c := B.Pruned(env, acl, s)]), dropped)
  {
    var s := sessions[c];
    LinesPut(sessions, c, B.Pruned(env, acl, s));
    if B.Denied(env, acl, B.Who(s.identity), s.subs) != [] {
      PostSingle(env, Outcome(Lines(sessions), dropped), Post(c, At(now, Tell(Shutdown(NotAuthorized)))));
    } else {
      assert Lines(sessions)[c := s.d] == Lines(sessions);
    }
  }

  lemma {:induction false} RevokeDelivers(env: Env, now: nat, st: B.State, acl: B.Acl, order: seq<string>)
    requires Enumerates(order, st.sessions.Keys) && acl.enforced
    ensures Delivers(env, Lines(st.sessions), st.dropped, ShutdownPosts(env, now, acl, st.sessions, order),
                     B.Revoke(env, st, acl, order))
  {
    ShutdownsDeliver(env, now, acl, st.sessions, st.dropped, order);
    B.PrunedAll(env, acl, st.sessions, order);
  }

  lemma {:induction false} EndDelivers(env: Env, st: B.State, st': B.State, c: string)
    requires st'.sessions == st.sessions - {c} && st'.dropped == st.dropped
    ensures Delivers(env, Lines(st.sessions) - {c}, st.dropped, [], st')
  {
    assert Lines(st.sessions - {c}) == Lines(st.sessions) - {c};
  }

  // -------------------------------------------------------------------------
  // One step of the broker
  // -------------------------------------------------------------------------

  // A step that routes and is no packet is that routing.
  lemma {:induction false} RoutingStep(env: Env, n: R.Node, t: R.TimedEvent)
    requires R.Enabled(env, n, t) && RouteOf(env, n, t).Some? && !t.ev.Packet?
    ensures var g := RouteOf(env, n, t).value;
      && Routable(env, g) && g.st.sessions == n.st.sessions && g.st.dropped == n.st.dropped && g.st.rr == n.st.rr
      && R.NextState(env, n, t) == B.RouteIn(env, g.now, g.st, g.pub, g.order)
  {
  }

  lemma {:induction false} RouteStep(env: Env, n: R.Node, t: R.TimedEvent)
    requires R.Enabled(env, n, t) && RouteOf(env, n, t).Some? && !t.ev.Packet?
    ensures Delivers(env, Lines(n.st.sessions), n.st.dropped, PostsOf(env, n, t), R.NextState(env, n, t))
  {
    RoutingStep(env, n, t);
    RouteDelivers(env, RouteOf(env, n, t).value);
  }

  lemma {:induction false} WorkStep(env: Env, n: R.Node, t: R.TimedEvent)
    requires R.Enabled(env, n, t) && t.ev.Work? && RouteOf(env, n, t).None?
    ensures Delivers(env, Opened(env, n.st, t.ev), n.st.dropped, PostsOf(env, n, t), R.NextState(env, n, t))
  {
    var st' := R.NextState(env, n, t);
    match t.ev.task
    case Fire(_, _, _, _, _) => NoPosts(env, n.st, st');
    case Remove(client, epoch) =>
      if Ends(env, n.st, t.ev).Some? { EndDelivers(env, n.st, st', client); } else { NoPosts(env, n.st, st'); }
    case Update(client, _, wanted) =>
      LinesSame(n.st.sessions, B.UpdateExpiry(env, n.st, client, wanted).sessions);
      NoPosts(env, n.st, st');
  }

  lemma {:induction false} SideStep(env: Env, n: R.Node, t: R.TimedEvent)
    requires R.Enabled(env, n, t) && (t.ev.SwapAcl? || t.ev.BridgeSub? || t.ev.Deregister? || t.ev.PurgeRetained?)
    ensures Delivers(env, Opened(env, n.st, t.ev), n.st.dropped, PostsOf(env, n, t), R.NextState(env, n, t))
  {
    var st' := R.NextState(env, n, t);
    match t.ev
    case Deregister(client, epoch) =>
      if B.Current(n.st, client, epoch) { EndDelivers(env, n.st, st', client); } else { NoPosts(env, n.st, st'); }
    case BridgeSub(client, filter) =>
      LinesSame(n.st.sessions, B.BridgeSubscribe(n.st, client, filter, true).sessions);
      NoPosts(env, n.st, st');
    case _ => NoPosts(env, n.st, st');
  }

  lemma {:induction false} ConnectionStep(env: Env, n: R.Node, t: R.TimedEvent)
    requires R.Enabled(env, n, t) && (t.ev.Connect? || t.ev.Close? || t.ev.Register? || t.ev.Wire? || t.ev.RevokePass?)
    ensures Delivers(env, Opened(env, n.st, t.ev), n.st.dropped, PostsOf(env, n, t), R.NextState(env, n, t))
  {
    var st' := R.NextState(env, n, t);
    match t.ev
    case Connect(q) =>
      if B.Acceptable(env, n.st, q) { ConnectDelivers(env, t.now, n.st, q); } else { NoPosts(env, n.st, st'); }
    case Close(client, epoch, _) =>
      if B.Current(n.st, client, epoch) { CloseDelivers(env, t.now, n.st, client, epoch); }
          else { NoPosts(env, n.st, st'); }
    case Register(client, out) => RegisterDelivers(env, t.now, n.st, client, out);
    case RevokePass(acl, clients) =>
      if acl.enforced { RevokeDelivers(env, t.now, n.st, acl, clients); } else { NoPosts(env, n.st, st'); }
    case Wire(client, ev) =>
      var s := n.st.sessions[client];
      PutDelivers(env, n.st, client, At(t.now, ev), s.(d := Step(env, t.now, s.d, ev).d), st');
  }

  // Every step, whatever it is: the outbound halves of all sessions and the
  // counter of drops afterwards are exactly what the step's posts make of them,
  // in order, once the session it ends is gone and the one it begins is fresh.
  lemma {:induction false} StepPosts(env: Env, n: R.Node, t: R.TimedEvent)
    requires R.Enabled(env, n, t)
    ensures Delivers(env, Opened(env, n.st, t.ev), n.st.dropped, PostsOf(env, n, t), R.NextState(env, n, t))
  {
    if t.ev.Packet? { PacketDelivers(env, n, t); }
    else if t.ev.Work? && RouteOf(env, n, t).None? { WorkStep(env, n, t); }
    else if RouteOf(env, n, t).Some? { RouteStep(env, n, t); }
    else if t.ev.SwapAcl? || t.ev.BridgeSub? || t.ev.Deregister? || t.ev.PurgeRetained? { SideStep(env, n, t); }
    else { ConnectionStep(env, n, t); }
  }
}
