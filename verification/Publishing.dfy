// What a PUBLISH does, said without the functions that compute it: when it is
// refused and how, what is retained and answered, and what every delivery that
// follows from it carries, to whom.

module Publishing {
  import opened Types
  import opened SessionRuns
  import opened Router
  import opened Broker
  import opened Posts
  import R = BrokerRuns
  import InboundQos2
  import SubscribeRules

  // -------------------------------------------------------------------------
  // The message
  // -------------------------------------------------------------------------

  /** `m` is what the client published on `topic` at `now`: its expiry interval,
      if it has one, has become a deadline, which stops at the last second. */
  ghost predicate IsMessageOf(p: InPublish, topic: string, now: nat, m: Message) {
    && m.topic == topic && m.payload == p.payload && m.props == p.props && m.qos == p.qos && m.retain == p.retain
    && match p.expiry
       case None => m.expiresAt == None
       case Some(secs) =>
         m.expiresAt.Some? && m.expiresAt.value < 0x1_0000_0000_0000_0000
         && (m.expiresAt.value == now + secs
             || (m.expiresAt.value == 0xFFFF_FFFF_FFFF_FFFF && now + secs > m.expiresAt.value))
  }

  lemma {:induction false} MessageIs(p: InPublish, now: nat)
    ensures IsMessageOf(p, p.topic, now, FromPublish(p, now))
  {
  }

  // -------------------------------------------------------------------------
  // Topic aliases
  // -------------------------------------------------------------------------

  // The PUBLISH names no topic, or an alias out of bounds.
  ghost predicate Nameless(env: Env, aliases: map<nat, string>, p: InPublish) {
    p.alias.Some? && (p.alias.value > env.topicAliasMaximum || (p.topic == "" && p.alias.value !in aliases))
  }

  // A topic sent with an alias is what the alias stands for from then on, a topic
  // sent without one is taken as it is, and no other alias is touched.
  lemma {:induction false} AliasesStand(env: Env, aliases: map<nat, string>, p: InPublish, q: InPublish)
    ensures ResolveAlias(env, aliases, p) == BadAlias <==> Nameless(env, aliases, p)
    ensures var r := ResolveAlias(env, aliases, p);
      r.Topic? ==>
        && (p.topic != "" || p.alias.None? ==> r.name == p.topic)
        && (p.topic == "" && p.alias.Some? ==> r.aliases == aliases)
        && (p.alias.Some? && q.alias == p.alias && q.topic == "" ==>
              ResolveAlias(env, r.aliases, q) == Topic(r.name, r.aliases))
        && (q.alias.Some? && q.alias != p.alias ==>
              (q.alias.value in r.aliases <==> q.alias.value in aliases)
              && (q.alias.value in aliases ==> r.aliases[q.alias.value] == aliases[q.alias.value]))
        && (p.alias.None? ==> r.aliases == aliases)
  {
  }

  // -------------------------------------------------------------------------
  // Refusals
  // -------------------------------------------------------------------------

  ghost predicate TooHigh(env: Env, p: InPublish) {
    Rank(p.qos) > Rank(env.maximumQos)
  }

  ghost predicate NotRetainable(env: Env, p: InPublish) {
    p.retain && !env.retainAvailable
  }

  ghost predicate Stale(st: State, client: string, epoch: nat) {
    client !in st.sessions || st.sessions[client].epoch != epoch
  }

  ghost predicate BadName(env: Env, name: string) {
    !env.validTopic(name) || "$SYS/" <= name
  }

  // What is wrong with the PUBLISH, the first of these that applies, decides the
  // DISCONNECT; a client that only lacks permission stays connected.
  lemma {:induction false} PublishVerdict(env: Env, now: nat, st: State, client: string, epoch: nat, p: InPublish,
                                          o: RouteOrder)
    ensures var h := HandlePublish(env, now, st, client, epoch, p, o);
      if TooHigh(env, p) then h == Handled(st, ServerDisconnect(QoSNotSupported))
      else if NotRetainable(env, p) then h == Handled(st, ServerDisconnect(RetainNotSupported))
      else if Stale(st, client, epoch) then h == Handled(st, ServerDisconnect(UnspecifiedError))
      else if Nameless(env, st.sessions[client].aliases, p) then h == Handled(st, ServerDisconnect(TopicAliasInvalid))
      else if BadName(env, ResolveAlias(env, st.sessions[client].aliases, p).name)
      then h.action == ServerDisconnect(TopicNameInvalid) && Untouched(st, h.st, client)
      else h.action == Continue
  {
    if !Stale(st, client, epoch) { AliasesStand(env, st.sessions[client].aliases, p, p); }
  }

  // At most the client's aliases changed.
  ghost predicate Untouched(st: State, st': State, client: string) {
    && client in st.sessions && client in st'.sessions
    && st' == st.(sessions := st'.sessions)
    && st'.sessions == st.sessions[client := st.sessions[client].(aliases := st'.sessions[client].aliases)]
  }

  // The number of the PUBLISH; 0 stands in for a missing one.
  function NumberOf(p: InPublish): nat {
    match p.packetId case None => 0 case Some(id) => id
  }

  // The acknowledgement a PUBLISH of this level gets.
  ghost function AckPosts(client: string, now: nat, p: InPublish, rc: ReasonCode): seq<Post> {
    match p.qos
    case AtMostOnce => []
    case AtLeastOnce => [Post(client, SessionRuns.At(now, SessionRuns.Tell(Control(Puback(NumberOf(p), rc)))))]
    case ExactlyOnce => [Post(client, SessionRuns.At(now, SessionRuns.Tell(Control(Pubrec(NumberOf(p), rc)))))]
  }

  // A PUBLISH that only lacks permission is acknowledged with Not authorized, at
  // QoS 0 not at all, and is neither routed nor retained.
  lemma {:induction false} UnpermittedIsRefused(env: Env, now: nat, st: State, client: string, epoch: nat, p: InPublish,
                                                o: RouteOrder)
    requires Current(st, client, epoch) && !TooHigh(env, p) && !NotRetainable(env, p)
    requires !Nameless(env, st.sessions[client].aliases, p)
    requires var name := ResolveAlias(env, st.sessions[client].aliases, p).name;
      !BadName(env, name) && !CanPublish(env, st.acl, Who(st.sessions[client].identity), name)
    ensures InboundPosts(env, now, st, client, R.InPublish(p, o)) == AckPosts(client, now, p, NotAuthorized)
    ensures var st' := HandlePublish(env, now, st, client, epoch, p, o).st;
      && st'.retained == st.retained && st'.rr == st.rr && st'.log == st.log && st'.dropped == st.dropped
      && forall c :: c in st.sessions && c != client ==> c in st'.sessions && st'.sessions[c] == st.sessions[c]
  {
    AliasesStand(env, st.sessions[client].aliases, p, p);
  }

  // -------------------------------------------------------------------------
  // Retaining and answering
  // -------------------------------------------------------------------------

  // The retained messages after this PUBLISH on `topic`.
  ghost predicate RetainedAfter(p: InPublish, topic: string, now: nat, a: map<string, Message>,
                                b: map<string, Message>) {
    && (forall t :: t != topic ==> (t in b <==> t in a) && (t in a ==> b[t] == a[t]))
    && (if !p.retain then topic in b <==> topic in a else topic in b <==> p.payload != [])
    && (topic in b ==> if p.retain then IsMessageOf(p, topic, now, b[topic]) else b[topic] == a[topic])
  }

  lemma {:induction false} RetainIs(st: State, p: InPublish, now: nat)
    ensures RetainedAfter(p, p.topic, now, st.retained, Retain(st, FromPublish(p, now)).retained)
  {
    MessageIs(p, now);
  }

  lemma {:induction false} AnswerRetains(st: State, client: string, p: InPublish, rc: ReasonCode)
    ensures Answer(st, client, p, rc).retained == st.retained
  {
  }

  lemma {:induction false} RoutedRetains(env: Env, now: nat, st: State, client: string, p: InPublish, pub: Publication,
                                         o: RouteOrder, rc: ReasonCode)
    requires ValidFor(env, st, pub, o)
    ensures Answer(RouteIn(env, now, st, pub, o), client, p, rc).retained == st.retained
  {
    AnswerRetains(RouteIn(env, now, st, pub, o), client, p, rc);
  }

  lemma {:induction false} Publish1Retains(env: Env, now: nat, st: State, client: string, p: InPublish, o: RouteOrder)
    requires client in st.sessions
    requires ValidFor(env, st, Publication(FromPublish(p, now), Some(client)), o)
    ensures Publish1(env, now, st, client, p, o).retained == Retain(st, FromPublish(p, now)).retained
  {
    var m := FromPublish(p, now);
    var st1, pub := Retain(st, m), Publication(m, Some(client));
    if Duplicate(st1, client, p) {
      AnswerRetains(st1, client, p, Success);
    } else {
      var st2 := Hold(st1, client, p);
      InboundQos2.RouteStaysValid(env, pub, st.sessions, st2.sessions, o);
      RoutedRetains(env, now, st2, client, p, pub, o,
                    if Matched(env, now, st2, pub, o) then Success else NoMatchingSubscribers);
    }
  }

  // Whatever its level, and even if it repeats an identifier, an authorised
  // PUBLISH with RETAIN replaces the message on its topic, or clears it if it is
  // empty; one without RETAIN changes no retained message.
  lemma {:induction false} PublishRetains(env: Env, now: nat, st: State, client: string, epoch: nat, p: InPublish,
                                          o: RouteOrder)
    requires Current(st, client, epoch) && R.Taken(env, st, client, p) && R.PublishReady(env, now, st, client, p, o)
    ensures var topic := ResolveAlias(env, st.sessions[client].aliases, p).name;
      RetainedAfter(p, topic, now, st.retained, HandlePublish(env, now, st, client, epoch, p, o).st.retained)
  {
    var topic, st1 := ResolveAlias(env, st.sessions[client].aliases, p).name, R.Aliased(env, st, client, p);
    var p1 := p.(topic := topic);
    R.PublishOutcome(env, now, st, client, epoch, p, o);
    InboundQos2.RouteStaysValid(env, Publication(FromPublish(p1, now), Some(client)), st.sessions, st1.sessions, o);
    Publish1Retains(env, now, st1, client, p1, o);
    RetainIs(st1, p1, now);
  }

  // Only the outbound halves, aliases and pending identifiers of sessions differ.
  ghost predicate SameSubscriptions(a: map<string, Session>, b: map<string, Session>) {
    a.Keys == b.Keys && forall c :: c in a ==> b[c].subs == a[c].subs
  }

  lemma {:induction false} SameEligible(env: Env, pub: Publication, a: map<string, Session>, b: map<string, Session>)
    requires SameSubscriptions(a, b)
    ensures AnyEligible(env, pub, a) <==> AnyEligible(env, pub, b)
  {
    if AnyEligible(env, pub, a) {
      var c, i :| c in a && 0 <= i < |a[c].subs| && Wants(env, pub, c, a[c].subs[i]);
      assert c in b && Wants(env, pub, c, b[c].subs[i]);
    }
    if AnyEligible(env, pub, b) {
      var c, i :| c in b && 0 <= i < |b[c].subs| && Wants(env, pub, c, b[c].subs[i]);
      assert c in a && Wants(env, pub, c, a[c].subs[i]);
    }
  }

  // The routing a PUBLISH asks for: what it published, on behalf of its client,
  // to the subscriptions there are.
  ghost predicate RoutesIt(st: State, client: string, p: InPublish, topic: string, now: nat, g: Routing) {
    && IsMessageOf(p, topic, now, g.pub.message) && g.pub.publisher == Some(client) && g.now == now
    && SameSubscriptions(st.sessions, g.st.sessions)
  }

  lemma {:induction false} RoutingIs(env: Env, now: nat, st: State, client: string, p: InPublish, o: RouteOrder)
    requires client in st.sessions && PublishRouting(env, now, st, client, p, o).Some?
    ensures RoutesIt(st, client, p, ResolveAlias(env, st.sessions[client].aliases, p).name, now,
                     PublishRouting(env, now, st, client, p, o).value)
  {
    MessageIs(p.(topic := ResolveAlias(env, st.sessions[client].aliases, p).name), now);
  }

  // The routed message found somebody.
  ghost predicate Found(env: Env, g: Routing) {
    SubscribeRules.Alive(g.pub.message, g.now) && AnyEligible(env, g.pub, g.st.sessions)
  }

  lemma {:induction false} MatchedIsFound(env: Env, g: Routing)
    requires Routable(env, g)
    ensures Matched(env, g.now, g.st, g.pub, g.order) <==> Found(env, g)
  {
    if !IsExpired(g.pub.message, g.now) { PlanEmpty(env, g.pub, g.st.sessions, g.st.rr, g.order); }
  }

  // `posts` are deliveries followed by the acknowledgement.
  ghost predicate DeliversThenAnswers(client: string, now: nat, p: InPublish, posts: seq<Post>, gives: seq<Post>,
                                      rc: ReasonCode) {
    && posts == gives + AckPosts(client, now, p, rc)
    && forall k :: 0 <= k < |gives| ==> gives[k].t.ev.Give?
  }

  // An authorised PUBLISH is acknowledged after its deliveries: with Success if
  // some subscription wanted it or if it repeats a pending identifier, which is
  // not delivered again, and with No matching subscribers otherwise.
  lemma {:induction false} PublishAnswered(env: Env, now: nat, st: State, client: string, p: InPublish, o: RouteOrder)
    requires client in st.sessions && R.Taken(env, st, client, p) && R.PublishReady(env, now, st, client, p, o)
    ensures var posts := InboundPosts(env, now, st, client, R.InPublish(p, o));
      if p.qos == ExactlyOnce && NumberOf(p) in st.sessions[client].inboundQos2
      then DeliversThenAnswers(client, now, p, posts, [], Success)
      else
        var g := PublishRouting(env, now, st, client, p, o);
        && g.Some? && Routable(env, g.value)
        && DeliversThenAnswers(client, now, p, posts, RoutePosts(env, g.value),
                               if Found(env, g.value) then Success else NoMatchingSubscribers)
  {
    TakenOutcome(env, now, st, client, st.sessions[client].epoch, p, o);
    var g := PublishRouting(env, now, st, client, p, o);
    if g.Some? {
      MatchedIsFound(env, g.value);
      RoutedAnswer(env, now, client, p, g.value, if Found(env, g.value) then Success else NoMatchingSubscribers);
    } else {
      AnswerIs(client, now, p, Success);
      assert [] + AckPosts(client, now, p, Success) == AckPosts(client, now, p, Success);
    }
  }

  lemma {:induction false} AnswerIs(client: string, now: nat, p: InPublish, rc: ReasonCode)
    ensures AnswerPosts(client, now, p, rc) == AckPosts(client, now, p, rc)
  {
  }

  lemma {:induction false} RoutedAnswer(env: Env, now: nat, client: string, p: InPublish, g: Routing, rc: ReasonCode)
    requires Routable(env, g)
    ensures var gives := RoutePosts(env, g);
      DeliversThenAnswers(client, now, p, gives + AnswerPosts(client, now, p, rc), gives, rc)
  {
    AnswerIs(client, now, p, rc);
  }

  // -------------------------------------------------------------------------
  // What is delivered, and to whom
  // -------------------------------------------------------------------------

  /** The delivery `p` to `client` is due by this routing: it carries the message,
      for a subscription of the client that wants it, at the level, with the
      identifiers and the RETAIN flag that this subscription, or all its matching
      ones, call for. */
  ghost predicate DueTo(env: Env, g: Routing, client: string, p: Pending) {
    && p.message == g.pub.message && p.lbl.origin == g.pub.publisher && SubscribeRules.Alive(p.message, g.now)
    && client in g.st.sessions
    && var t := Target(client, p.qos, p.retain, p.subIds);
    && (IsDue(env, g.pub, g.st.sessions[client].subs, t)
        || exists i :: 0 <= i < |g.st.sessions[client].subs|
             && Wants(env, g.pub, client, g.st.sessions[client].subs[i])
             && g.st.sessions[client].subs[i].share.Some?
             && IsShare(g.pub, g.st.sessions[client].subs[i], t))
  }

  lemma {:induction false} PlannedIsDue(env: Env, g: Routing, k: nat)
    requires Routable(env, g) && k < |PlanOf(env, g)|
    ensures DueTo(env, g, PlanOf(env, g)[k].client, PendingFor(g.pub, PlanOf(env, g)[k]))
  {
    var t := PlanOf(env, g)[k];
    var ordinary := OrdinaryPlan(env, g.pub, g.st.sessions, g.order.clients);
    assert t == Target(t.client, t.qos, t.retain, t.subIds);
    if k < |ordinary| {
      OrdinaryPlanCovers(env, g.pub, g.st.sessions, g.order.clients);
      assert t in ordinary;
      assert IsDueIn(env, g.pub, g.st.sessions, t);
    } else {
      var j := k - |ordinary|;
      SharedPlanAt(env, g.pub, g.st.sessions, g.order.clients, g.st.rr, g.order.groups, j);
      CandidatesExact(env, g.pub, g.st.sessions, g.order.clients, g.order.groups[j], t);
    }
  }

  // Every delivery of a routing is due by it.
  lemma {:induction false} RoutedIsDue(env: Env, g: Routing, k: nat)
    requires Routable(env, g) && k < |RoutePosts(env, g)|
    ensures var post := RoutePosts(env, g)[k]; post.t.ev.Give? && DueTo(env, g, post.client, post.t.ev.p)
  {
    PlannedIsDue(env, g, k);
  }

  /** The delivery is a retained message on a topic that some filter of the
      SUBSCRIBE matches. */
  ghost predicate RetainedFor(env: Env, now: nat, st: State, i: R.Inbound, p: Pending)
    requires i.InSubscribe?
  {
    exists f, topic ::
      && f in i.filters && env.parseFilter(f.raw).Some?
      && topic in SubscribeRules.DueTopics(env, now, st.retained, env.parseFilter(f.raw).value.filter)
      && p.message == st.retained[topic] && p.retain
      && Rank(p.qos) <= Rank(p.message.qos) && Rank(p.qos) <= Rank(f.qos) && Rank(p.qos) <= Rank(env.maximumQos)
  }

  lemma {:induction false} RetainedSendFrom(env: Env, now: nat, cx: SubContext, order: seq<string>, filter: string,
                                            granted: QoS, k: nat) returns (topic: string)
    requires k < |RetainedSends(env, now, cx, order, filter, granted)|
    ensures topic in SubscribeRules.DueTopics(env, now, cx.retained, filter)
    ensures var p := RetainedSends(env, now, cx, order, filter, granted)[k];
      p.message == cx.retained[topic] && p.retain && IsLower(p.message.qos, granted, p.qos)
  {
    var n := |order| - 1;
    var less := RetainedSends(env, now, cx, order[..n], filter, granted);
    if k < |less| { topic := RetainedSendFrom(env, now, cx, order[..n], filter, granted, k); }
    else { topic := order[n]; }
  }

  lemma {:induction false} SendFrom(env: Env, now: nat, st: State, cx: SubContext, subs: seq<Subscription>,
                                    i: R.Inbound, n: nat, k: nat)
    requires i.InSubscribe? && cx.retained == st.retained && n <= |i.filters|
    requires k < |SubscribeAll(env, now, cx, SubAcc(subs, [], [], []), i.filters[..n]).sends|
    ensures RetainedFor(env, now, st, i, SubscribeAll(env, now, cx, SubAcc(subs, [], [], []), i.filters[..n]).sends[k])
  {
    var f := i.filters[n - 1];
    assert i.filters[..n][..n - 1] == i.filters[..n - 1];
    var less := SubscribeAll(env, now, cx, SubAcc(subs, [], [], []), i.filters[..n - 1]);
    if k < |less.sends| {
      SendFrom(env, now, st, cx, subs, i, n - 1, k);
    } else {
      var parsed := env.parseFilter(f.raw).value;
      var level := MinQoS(f.qos, env.maximumQos);
      var topic := RetainedSendFrom(env, now, cx, cx.order, parsed.filter, level, k - |less.sends|);
      assert f in i.filters;
    }
  }

  /** Every delivery a step posts is due: by the routing the step performs, or by a
      filter of the SUBSCRIBE it handles. */
  ghost predicate GiveDue(env: Env, n: R.Node, t: R.TimedEvent, post: Post)
    requires post.t.ev.Give?
  {
    || (RouteOf(env, n, t).Some? && DueTo(env, RouteOf(env, n, t).value, post.client, post.t.ev.p))
    || (t.ev.Packet? && t.ev.inbound.InSubscribe? && post.client == t.ev.client
        && RetainedFor(env, t.now, n.st, t.ev.inbound, post.t.ev.p))
  }

  lemma {:induction false} SubscribeGives(env: Env, n: R.Node, t: R.TimedEvent, k: nat)
    requires R.Enabled(env, n, t) && t.ev.Packet? && Current(n.st, t.ev.client, t.ev.epoch) && t.ev.inbound.InSubscribe?
    requires k < |PostsOf(env, n, t)| && PostsOf(env, n, t)[k].t.ev.Give?
    ensures GiveDue(env, n, t, PostsOf(env, n, t)[k])
  {
    var client, i := t.ev.client, t.ev.inbound;
    var cx := ContextOf(n.st, client, i.subId, i.topics);
    assert i.filters[..|i.filters|] == i.filters;
    SendFrom(env, t.now, n.st, cx, n.st.sessions[client].subs, i, |i.filters|, k - 1);
  }

  lemma {:induction false} PublishGives(env: Env, n: R.Node, t: R.TimedEvent, k: nat)
    requires R.Enabled(env, n, t) && t.ev.Packet? && Current(n.st, t.ev.client, t.ev.epoch) && t.ev.inbound.InPublish?
    requires k < |PostsOf(env, n, t)| && PostsOf(env, n, t)[k].t.ev.Give?
    ensures GiveDue(env, n, t, PostsOf(env, n, t)[k])
  {
    var g := RouteOf(env, n, t);
    assert g.Some? && Routable(env, g.value);
    assert k < |RoutePosts(env, g.value)| && PostsOf(env, n, t)[k] == RoutePosts(env, g.value)[k];
    RoutedIsDue(env, g.value, k);
  }

  lemma {:induction false} ShutdownsGiveNothing(env: Env, now: nat, acl: Acl, sessions: map<string, Session>,
                                                order: seq<string>)
    ensures forall k :: 0 <= k < |ShutdownPosts(env, now, acl, sessions, order)| ==>
              !ShutdownPosts(env, now, acl, sessions, order)[k].t.ev.Give?
  {
    if order != [] { ShutdownsGiveNothing(env, now, acl, sessions, order[..|order| - 1]); }
  }

  // In every step of the broker, whatever it is, nobody is given a message that
  // is not due to them.
  lemma {:induction false} GivesAreDue(env: Env, n: R.Node, t: R.TimedEvent, k: nat)
    requires R.Enabled(env, n, t) && k < |PostsOf(env, n, t)| && PostsOf(env, n, t)[k].t.ev.Give?
    ensures GiveDue(env, n, t, PostsOf(env, n, t)[k])
  {
    if t.ev.Packet? {
      if t.ev.inbound.InSubscribe? { SubscribeGives(env, n, t, k); }
      else if t.ev.inbound.InPublish? { PublishGives(env, n, t, k); }
    } else if t.ev.RevokePass? {
      ShutdownsGiveNothing(env, t.now, t.ev.acl, n.st.sessions, t.ev.clients);
    } else if RouteOf(env, n, t).Some? {
      RoutedIsDue(env, RouteOf(env, n, t).value, k);
    }
  }

  // What a step routes: what a client published, the message of a Will, what a
  // bridge received, or a status line.
  lemma {:induction false} RouteIs(env: Env, n: R.Node, t: R.TimedEvent)
    requires RouteOf(env, n, t).Some?
    ensures var g := RouteOf(env, n, t).value; var m := g.pub.message;
      && g.now == t.now && SameSubscriptions(n.st.sessions, g.st.sessions)
      && match t.ev
         case Packet(client, epoch, i) =>
           && i.InPublish? && Current(n.st, client, epoch) && g.pub.publisher == Some(client)
           && IsMessageOf(i.p, ResolveAlias(env, n.st.sessions[client].aliases, i.p).name, t.now, m)
         case Work(task, _) => task.Fire? && g.pub == Publication(task.will.message, None)
         case InjectMessage(client, message, _) => g.pub == Publication(message, Some(client))
         case Sys(topic, payload, _) =>
           && g.pub.publisher == None && m.topic == topic && m.payload == payload && m.retain
           && m.qos == AtMostOnce && m.expiresAt == None
         case _ => false
  {
    if t.ev.Packet? { RoutingIs(env, t.now, n.st, t.ev.client, t.ev.inbound.p, t.ev.inbound.order); }
  }
}
