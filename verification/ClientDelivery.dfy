// At most once and exactly once in the whole broker: any run of the broker, with
// any other clients doing whatever they like, composed with one client that
// follows the protocol on its side of the link.

module ClientDelivery {
  import opened Types
  import opened Delivery
  import opened SessionRuns
  import opened Erasure
  import opened EndToEnd
  import opened ExactlyOnce
  import opened Content
  import opened Router
  import opened Posts
  import B = Broker
  import R = BrokerRuns

  /** The link to one client as seen from both ends, and what it carried. */
  datatype Link = Link(x: Watched, ps: Parcels)

  datatype System = System(n: R.Node, link: Link)

  const NEWLINK := Link(Watched(START, {}), NOTHING)

  ghost function NextLink(env: Env, l: Link, t: TimedAct): Link {
    Link(NextWatched(env, l.x, t), NextParcels(env, l.x.w, l.ps, t))
  }

  datatype Move =
    | Do(t: R.TimedEvent)      // a step of the broker
    | Take(refuse: bool)       // the client takes one packet
    | Break                    // everything on the wire is lost

  predicate IsAck(ev: SessionRuns.Event) {
    ev.AckPuback? || ev.AckPubrec? || ev.AckPubcomp?
  }

  // What a post means on the link.
  function ActOf(ev: SessionRuns.Event): Act {
    match ev
    case Drain => Transmit
    case Reconnect(_, _, _, _, _) => Redial(ev)
    case AckPuback(_) => Acknowledge
    case AckPubrec(_, _) => Acknowledge
    case AckPubcomp(_) => Acknowledge
    case _ => Broker(ev)
  }

  function AckIn(i: R.Inbound): Option<SessionRuns.Event> {
    match i
    case InPuback(id) => Some(AckPuback(id))
    case InPubrec(id, rc) => Some(AckPubrec(id, rc))
    case InPubcomp(id) => Some(AckPubcomp(id))
    case _ => None
  }

  // The client acknowledges what it received, in order, and nothing else. Its
  // other packets, and everybody else's, are unrestricted.
  ghost predicate Conforms(c: string, st: B.State, w: World, ev: R.Event) {
    ev.Packet? && ev.client == c && B.Current(st, c, ev.epoch) && AckIn(ev.inbound).Some? ==>
      w.up != [] && AckEvent(w.up[0]) == AckIn(ev.inbound)
  }

  ghost function Follow(env: Env, c: string, l: Link, posts: seq<Post>): Link {
    if posts == [] then l
    else
      var m, p := Follow(env, c, l, posts[..|posts| - 1]), posts[|posts| - 1];
      if p.client == c then NextLink(env, m, On(p.t.now, ActOf(p.t.ev))) else m
  }

  // A client told that there is no session present starts afresh too.
  ghost function NextSystem(env: Env, c: string, s: System, mv: Move): System {
    match mv
    case Take(refuse) => s.(link := NextLink(env, s.link, On(s.n.clock, Receive(refuse))))
    case Break => s.(link := NextLink(env, s.link, On(s.n.clock, Lose)))
    case Do(t) =>
      if R.Enabled(env, s.n, t) && Conforms(c, s.n.st, s.link.x.w, t.ev) then
        var l := if Begins(env, s.n.st, t.ev) == Some(c) then NEWLINK else s.link;
        System(R.NextNode(env, s.n, t), Follow(env, c, l, PostsOf(env, s.n, t)))
      else s
  }

  ghost function PlaySystem(env: Env, c: string, s: System, run: seq<Move>): System
    decreases |run|
  {
    if run == [] then s else PlaySystem(env, c, NextSystem(env, c, s, run[0]), run[1..])
  }

  // At start-up the restored session is empty, but the client may still hold
  // identifiers from before; that is as if its session had been wiped.
  ghost function Booting(n: R.Node, held: set<nat>): System {
    System(n, Link(Watched(START.(held := held, wiped := held != {}), {}), NOTHING))
  }

  // -------------------------------------------------------------------------
  // Which posts are acknowledgements
  // -------------------------------------------------------------------------

  ghost predicate AckFree(posts: seq<Post>) {
    forall k :: 0 <= k < |posts| ==> !IsAck(posts[k].t.ev)
  }

  lemma {:induction false} ShutdownsAckFree(env: Env, now: nat, acl: B.Acl, sessions: map<string, Session>,
                                            order: seq<string>)
    ensures AckFree(ShutdownPosts(env, now, acl, sessions, order))
  {
    if order != [] { ShutdownsAckFree(env, now, acl, sessions, order[..|order| - 1]); }
  }

  lemma {:induction false} InboundAckFree(env: Env, now: nat, st: B.State, client: string, i: R.Inbound)
    requires client in st.sessions && AckIn(i).None?
    ensures AckFree(InboundPosts(env, now, st, client, i))
  {
  }

  // A step posts an acknowledgement only when it is one, and then nothing else.
  lemma {:induction false} AcksAlone(env: Env, n: R.Node, t: R.TimedEvent)
    requires R.Enabled(env, n, t)
    ensures var posts := PostsOf(env, n, t);
      || AckFree(posts)
      || (t.ev.Packet? && B.Current(n.st, t.ev.client, t.ev.epoch) && AckIn(t.ev.inbound).Some?
          && posts == [Post(t.ev.client, SessionRuns.At(t.now, AckIn(t.ev.inbound).value))])
  {
    match t.ev
    case Packet(client, epoch, i) =>
      if B.Current(n.st, client, epoch) && AckIn(i).None? { InboundAckFree(env, t.now, n.st, client, i); }
    case RevokePass(acl, clients) => ShutdownsAckFree(env, t.now, acl, n.st.sessions, clients);
    case _ =>
  }

  // -------------------------------------------------------------------------
  // The link follows the session
  // -------------------------------------------------------------------------

  lemma {:induction false} BareItemsOf(a: Outbound, b: Outbound)
    requires Bare(a) == Bare(b)
    ensures a.out.Some? == b.out.Some? && |Items(a)| == |Items(b)|
  {
    assert |BareItems(Items(a))| == |Items(a)| && |BareItems(Items(b))| == |Items(b)|;
  }

  lemma {:induction false} DrainFollows(env: Env, now: nat, w: World, d: Outbound)
    requires Bare(w.b.d) == Bare(d)
    ensures Bare(NextWorld(env, w, On(now, Transmit)).b.d) == Bare(Next(env, d, At(now, Drain)).d)
  {
    LedgerFollows(env, w.b, d, At(now, Drain));
    BareItemsOf(w.b.d, d);
  }

  lemma {:induction false} RedialFollows(env: Env, now: nat, w: World, d: Outbound, ev: SessionRuns.Event)
    requires Bare(w.b.d) == Bare(d) && ev.Reconnect?
    ensures Bare(NextWorld(env, w, On(now, Redial(ev))).b.d) == Bare(Next(env, d, At(now, ev)).d)
  {
    LedgerFollows(env, w.b, d, At(now, ev));
    BareEnabled(w.b.d, ev);
    BareEnabled(d, ev);
  }

  lemma {:induction false} AckFollows(env: Env, now: nat, w: World, d: Outbound, ev: SessionRuns.Event)
    requires Bare(w.b.d) == Bare(d) && w.up != [] && AckEvent(w.up[0]) == Some(ev)
    ensures Bare(NextWorld(env, w, On(now, Acknowledge)).b.d) == Bare(Next(env, d, At(now, ev)).d)
  {
    LedgerFollows(env, w.b, d, At(now, ev));
  }

  lemma {:induction false} PostFollows(env: Env, w: World, d: Outbound, t: Timed)
    requires Bare(w.b.d) == Bare(d)
    requires IsAck(t.ev) ==> w.up != [] && AckEvent(w.up[0]) == Some(t.ev)
    ensures Bare(NextWorld(env, w, On(t.now, ActOf(t.ev))).b.d) == Bare(Next(env, d, t).d)
  {
    if t.ev.Drain? { DrainFollows(env, t.now, w, d); }
    else if t.ev.Reconnect? { RedialFollows(env, t.now, w, d, t.ev); }
    else if IsAck(t.ev) { AckFollows(env, t.now, w, d, t.ev); }
    else { LedgerFollows(env, w.b, d, t); }
  }

  ghost predicate LinkInv(l: Link) {
    WatchInv(l.x) && ParcelInv(l.x.w, l.ps)
  }

  /** The link is a link of this outbound half, and keeps what every link
      keeps. */
  ghost predicate LinkedTo(l: Link, board: Board, c: string) {
    LinkInv(l) && (c in board ==> Bare(l.x.w.b.d) == Bare(board[c]))
  }

  lemma {:induction false} ActKeepsLink(env: Env, l: Link, t: TimedAct)
    requires LinkInv(l)
    ensures LinkInv(NextLink(env, l, t))
  {
    ActWatched(env, l.x, t);
    ActKeepsParcels(env, l.x.w, l.ps, t);
  }

  lemma {:induction false} OneFollows(env: Env, c: string, l: Link, o: Outcome, p: Post)
    requires LinkedTo(l, o.board, c)
    requires p.client == c && IsAck(p.t.ev) ==> l.x.w.up != [] && AckEvent(l.x.w.up[0]) == Some(p.t.ev)
    ensures var m := if p.client == c then NextLink(env, l, On(p.t.now, ActOf(p.t.ev))) else l;
      LinkedTo(m, PostOne(env, o, p).board, c)
  {
    if p.client == c {
      ActKeepsLink(env, l, On(p.t.now, ActOf(p.t.ev)));
      if c in o.board { PostFollows(env, l.x.w, o.board[c], p.t); }
    }
  }

  lemma {:induction false} AllFollow(env: Env, c: string, l: Link, o: Outcome, posts: seq<Post>)
    requires LinkedTo(l, o.board, c) && AckFree(posts)
    ensures LinkedTo(Follow(env, c, l, posts), PostAll(env, o, posts).board, c)
  {
    if posts != [] {
      var n := |posts| - 1;
      AllFollow(env, c, l, o, posts[..n]);
      OneFollows(env, c, Follow(env, c, l, posts[..n]), PostAll(env, o, posts[..n]), posts[n]);
    }
  }

  lemma {:induction false} FollowSingle(env: Env, c: string, l: Link, p: Post)
    ensures Follow(env, c, l, [p]) == if p.client == c then NextLink(env, l, On(p.t.now, ActOf(p.t.ev))) else l
  {
    assert [p][..0] == [] && Follow(env, c, l, []) == l;
  }

  lemma {:induction false} PostsFollow(env: Env, c: string, n: R.Node, t: R.TimedEvent, l: Link, o: Outcome)
    requires R.Enabled(env, n, t) && LinkedTo(l, o.board, c) && Conforms(c, n.st, l.x.w, t.ev)
    ensures LinkedTo(Follow(env, c, l, PostsOf(env, n, t)), PostAll(env, o, PostsOf(env, n, t)).board, c)
  {
    var posts := PostsOf(env, n, t);
    AcksAlone(env, n, t);
    if AckFree(posts) {
      AllFollow(env, c, l, o, posts);
    } else {
      OneFollows(env, c, l, o, posts[0]);
      FollowSingle(env, c, l, posts[0]);
      PostSingle(env, o, posts[0]);
    }
  }

  lemma {:induction false} StartWatched(held: set<nat>)
    ensures LinkInv(Link(Watched(START.(held := held, wiped := held != {}), {}), NOTHING))
  {
    StartInv();
    var w := START.(held := held, wiped := held != {});
    assert Passed(w) == {} && Passed(START) == {} && Pipe(w) == [];
    EmptyParcels(w);
  }

  lemma {:induction false} FreshLink(board: Board, c: string)
    requires c in board && board[c] == FRESH
    ensures LinkedTo(NEWLINK, board, c)
  {
    StartWatched({});
    assert START.(held := {}, wiped := false) == START;
  }

  // The session a step begins is fresh; any other that is still there is as it
  // was before the posts.
  lemma {:induction false} OpenedAt(env: Env, st: B.State, ev: R.Event, c: string)
    ensures var board := Opened(env, st, ev);
      if Begins(env, st, ev) == Some(c) then c in board && board[c] == FRESH
      else c in board ==> c in st.sessions && board[c] == st.sessions[c].d
  {
  }

  lemma {:induction false} OpenedLink(env: Env, c: string, st: B.State, ev: R.Event, l: Link)
    requires LinkedTo(l, Lines(st.sessions), c)
    ensures LinkedTo(if Begins(env, st, ev) == Some(c) then NEWLINK else l, Opened(env, st, ev), c)
  {
    OpenedAt(env, st, ev, c);
    if Begins(env, st, ev) == Some(c) { FreshLink(Opened(env, st, ev), c); }
  }

  ghost predicate SystemInv(s: System, c: string) {
    LinkedTo(s.link, Lines(s.n.st.sessions), c)
  }

  lemma {:induction false} DoKeepsInv(env: Env, c: string, s: System, t: R.TimedEvent)
    requires SystemInv(s, c) && R.Enabled(env, s.n, t) && Conforms(c, s.n.st, s.link.x.w, t.ev)
    ensures SystemInv(NextSystem(env, c, s, Do(t)), c)
  {
    var l := if Begins(env, s.n.st, t.ev) == Some(c) then NEWLINK else s.link;
    OpenedLink(env, c, s.n.st, t.ev, s.link);
    assert Conforms(c, s.n.st, l.x.w, t.ev);
    PostsFollow(env, c, s.n, t, l, Outcome(Opened(env, s.n.st, t.ev), s.n.st.dropped));
    StepPosts(env, s.n, t);
  }

  // The client and the wire leave the session alone.
  lemma {:induction false} LinkMove(env: Env, now: nat, l: Link, act: Act)
    requires act.Receive? || act.Lose?
    ensures NextLink(env, l, On(now, act)).x.w.b == l.x.w.b
  {
    if act.Receive? && l.x.w.down != [] { ReceiveFrame(l.x.w, act.refuse); }
  }

  lemma {:induction false} LinkKeepsInv(env: Env, now: nat, l: Link, board: Board, c: string, act: Act)
    requires LinkedTo(l, board, c) && (act.Receive? || act.Lose?)
    ensures LinkedTo(NextLink(env, l, On(now, act)), board, c)
  {
    ActKeepsLink(env, l, On(now, act));
    LinkMove(env, now, l, act);
  }

  lemma {:induction false} MoveKeepsInv(env: Env, c: string, s: System, mv: Move)
    requires SystemInv(s, c)
    ensures SystemInv(NextSystem(env, c, s, mv), c)
  {
    match mv
    case Take(refuse) => LinkKeepsInv(env, s.n.clock, s.link, Lines(s.n.st.sessions), c, Receive(refuse));
    case Break => LinkKeepsInv(env, s.n.clock, s.link, Lines(s.n.st.sessions), c, Lose);
    case Do(t) =>
      if R.Enabled(env, s.n, t) && Conforms(c, s.n.st, s.link.x.w, t.ev) { DoKeepsInv(env, c, s, t); }
  }

  lemma {:induction false} RunKeepsSystem(env: Env, c: string, s: System, run: seq<Move>)
    requires SystemInv(s, c)
    ensures SystemInv(PlaySystem(env, c, s, run), c)
    decreases |run|
  {
    if run != [] {
      MoveKeepsInv(env, c, s, run[0]);
      RunKeepsSystem(env, c, NextSystem(env, c, s, run[0]), run[1..]);
    }
  }

  lemma {:induction false} BootingInv(n: R.Node, held: set<nat>, c: string)
    requires R.Booted(n)
    ensures SystemInv(Booting(n, held), c)
  {
    StartWatched(held);
    if c in n.st.sessions { assert R.RestoredSession(n.st.sessions[c]); }
  }

  // -------------------------------------------------------------------------
  // The theorem
  // -------------------------------------------------------------------------

  /** What the broker and a conforming client have made of the deliveries of
      the client's session: none reached the application twice; a rejected one
      never did; an accepted one did exactly if it was never sent under an
      identifier the client still held from an earlier one, and is not on its way
      again; and there is no such collision unless the client's identity changed
      or it held identifiers when the broker started. */
  ghost predicate DeliveredOnce(x: Watched) {
    && NoRepeat(x.w.app) && x.w.rejected !! Passed(x.w)
    && (forall s :: s in x.w.accepted ==> (s in Passed(x.w) <==> s !in x.collided))
    && NothingResent(x.w)
    && (!x.w.wiped ==> x.collided == {})
  }

  lemma {:induction false} InvDelivers(x: Watched)
    requires WatchInv(x)
    ensures DeliveredOnce(x)
  {
    InvResends(x.w);
  }

  // In every run of the broker, whatever other clients, timers, bridges and
  // policies do, for every client that keeps to the protocol: the client's
  // session is the one on the link, but for labels; it delivers once; and what
  // the link carries is what was given.
  lemma {:induction false} EveryClientOnce(env: Env, n: R.Node, c: string, held: set<nat>, run: seq<Move>)
    requires R.Booted(n)
    ensures var s := PlaySystem(env, c, Booting(n, held), run);
      && (c in s.n.st.sessions ==> Bare(s.link.x.w.b.d) == Bare(s.n.st.sessions[c].d))
      && DeliveredOnce(s.link.x) && ContentKept(s.link.x.w, s.link.ps)
  {
    BootingInv(n, held, c);
    RunKeepsSystem(env, c, Booting(n, held), run);
    var s := PlaySystem(env, c, Booting(n, held), run);
    InvDelivers(s.link.x);
    InvKeepsContent(s.link.x.w, s.link.ps);
  }
}
