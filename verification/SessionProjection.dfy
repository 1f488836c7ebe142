// From the broker to one session: what a step of the broker does to a session is
// a run of the session's own machine, so what holds in every state such runs
// reach from a fresh session holds of every session in every reachable broker
// state. The projection also tells on whose behalf each delivery was routed.

module SessionProjection {
  import opened Types
  import opened Delivery
  import opened SessionRuns
  import opened Router
  import B = Broker
  import R = BrokerRuns
  import FlowControl

  ghost predicate NoLocalOnly(subs: seq<Subscription>) {
    forall i :: 0 <= i < |subs| ==> subs[i].noLocal
  }

  // No delivery of the run carries a message routed on behalf of `client`.
  ghost predicate Foreign(run: seq<Timed>, client: string) {
    forall k :: 0 <= k < |run| && run[k].ev.Give? ==> run[k].ev.p.lbl.origin != Some(client)
  }

  // The run stays within one connection.
  ghost predicate SameConnection(run: seq<Timed>) {
    forall k :: 0 <= k < |run| ==> !run[k].ev.Reconnect?
  }

  /** `run` takes the outbound state of `client`'s session from `d` to `d'`
      without a reconnect, and contains nothing of the client's own if it holds
      only No Local subscriptions. */
  ghost predicate Follows(env: Env, client: string, s: Session, run: seq<Timed>, d': Outbound) {
    && Exec(env, s.d, run) == d'
    && SameConnection(run)
    && (NoLocalOnly(s.subs) ==> Foreign(run, client))
  }

  lemma {:induction false} ExecConcat(env: Env, d: Outbound, a: seq<Timed>, b: seq<Timed>)
    ensures Exec(env, d, a + b) == Exec(env, Exec(env, d, a), b)
    decreases |a|
  {
    if a == [] {
      assert a + b == b;
    } else {
      ExecConcat(env, Next(env, d, a[0]).d, a[1..], b);
      assert (a + b)[1..] == a[1..] + b;
    }
  }

  lemma {:induction false} ExecOne(env: Env, d: Outbound, t: Timed)
    ensures Exec(env, d, [t]) == Next(env, d, t).d
  {
    assert [t][1..] == [];
  }

  // A run, then one more event that is not a delivery of the client's own.
  lemma {:induction false} FollowsThen(env: Env, client: string, s: Session, run: seq<Timed>, mid: Outbound, t: Timed)
    requires Follows(env, client, s, run, mid) && !t.ev.Reconnect?
    requires NoLocalOnly(s.subs) && t.ev.Give? ==> t.ev.p.lbl.origin != Some(client)
    ensures Follows(env, client, s, run + [t], Next(env, mid, t).d)
  {
    ExecConcat(env, s.d, run, [t]);
    ExecOne(env, mid, t);
  }

  lemma {:induction false} FollowsOne(env: Env, client: string, s: Session, t: Timed)
    requires !t.ev.Reconnect?
    requires NoLocalOnly(s.subs) && t.ev.Give? ==> t.ev.p.lbl.origin != Some(client)
    ensures Follows(env, client, s, [t], Next(env, s.d, t).d)
  {
    ExecOne(env, s.d, t);
  }

  // -------------------------------------------------------------------------
  // Routing
  // -------------------------------------------------------------------------

  // The router never targets the publisher of a message through a No Local
  // subscription.
  lemma {:induction false} NotTargeted(env: Env, pub: Publication, sessions: map<string, Session>, rr: map<Group, nat>,
                                       o: RouteOrder, t: Target)
    requires ValidRoute(env, pub, sessions, o) && t in Plan(env, pub, sessions, rr, o)
    ensures t.client in sessions && !(NoLocalOnly(sessions[t.client].subs) && pub.publisher == Some(t.client))
  {
    var ordinary := OrdinaryPlan(env, pub, sessions, o.clients);
    var shared := SharedPlan(env, pub, sessions, o.clients, rr, o.groups);
    if t in ordinary {
      OrdinaryPlanCovers(env, pub, sessions, o.clients);
      assert IsDueIn(env, pub, sessions, t);
    } else {
      SharedPlanAt(env, pub, sessions, o.clients, rr, o.groups, 0);
      var k :| 0 <= k < |shared| && shared[k] == t;
      SharedPlanAt(env, pub, sessions, o.clients, rr, o.groups, k);
      CandidatesExact(env, pub, sessions, o.clients, o.groups[k], t);
    }
  }

  lemma {:induction false} FanoutFollows(env: Env, now: nat, pub: Publication, sessions: map<string, Session>,
                                         plan: seq<Target>, client: string)
    returns (run: seq<Timed>)
    requires client in sessions
    requires forall t :: t in plan && t.client == client ==>
      !(NoLocalOnly(sessions[client].subs) && pub.publisher == Some(client))
    ensures var f := DeliverAll(env, now, pub, Fanout(sessions, 0), plan);
      client in f.sessions && Follows(env, client, sessions[client], run, f.sessions[client].d)
  {
    run := [];
    if plan != [] {
      var n := |plan| - 1;
      assert plan == plan[..n] + [plan[n]];
      run := FanoutFollows(env, now, pub, sessions, plan[..n], client);
      var mid := DeliverAll(env, now, pub, Fanout(sessions, 0), plan[..n]);
      if plan[n].client == client {
        var t := At(now, Give(PendingFor(pub, plan[n])));
        FollowsThen(env, client, sessions[client], run, mid.sessions[client].d, t);
        run := run + [t];
      }
    }
  }

  lemma {:induction false} RouteFollows(env: Env, now: nat, st: B.State, pub: Publication, o: RouteOrder,
                                        client: string)
    returns (run: seq<Timed>)
    requires B.ValidFor(env, st, pub, o) && client in st.sessions
    ensures var st' := B.RouteIn(env, now, st, pub, o);
      client in st'.sessions && Follows(env, client, st.sessions[client], run, st'.sessions[client].d)
  {
    if IsExpired(pub.message, now) {
      run := [];
    } else {
      var plan := Plan(env, pub, st.sessions, st.rr, o);
      forall t | t in plan && t.client == client
        ensures !(NoLocalOnly(st.sessions[client].subs) && pub.publisher == Some(client))
      {
        NotTargeted(env, pub, st.sessions, st.rr, o, t);
      }
      run := FanoutFollows(env, now, pub, st.sessions, plan, client);
    }
  }

  // -------------------------------------------------------------------------
  // Handlers
  // -------------------------------------------------------------------------

  predicate Reply(x: Outgoing) {
    x.Control? && !x.packet.Pubrel?
  }

  lemma {:induction false} TellFollows(env: Env, now: nat, st: B.State, to: string, x: Outgoing, client: string,
                                       s: Session, run: seq<Timed>)
    returns (run': seq<Timed>)
    requires client in st.sessions && Reply(x) && Follows(env, client, s, run, st.sessions[client].d)
    ensures var st' := B.Tell(st, to, x);
      client in st'.sessions && Follows(env, client, s, run', st'.sessions[client].d)
  {
    run' := run;
    if to == client {
      FollowsThen(env, client, s, run, st.sessions[client].d, At(now, Tell(x)));
      run' := run + [At(now, Tell(x))];
    }
  }

  lemma {:induction false} AnswerFollows(env: Env, now: nat, st: B.State, to: string, p: B.InPublish, rc: ReasonCode,
                                         client: string, s: Session, run: seq<Timed>)
    returns (run': seq<Timed>)
    requires client in st.sessions && Follows(env, client, s, run, st.sessions[client].d)
    ensures var st' := B.Answer(st, to, p, rc);
      client in st'.sessions && Follows(env, client, s, run', st'.sessions[client].d)
  {
    match p.qos
    case AtMostOnce => run' := run;
    case AtLeastOnce => run' := TellFollows(env, now, st, to, Control(Puback(B.PacketId(p), rc)), client, s, run);
    case ExactlyOnce => run' := TellFollows(env, now, st, to, Control(Pubrec(B.PacketId(p), rc)), client, s, run);
  }

  // Bookkeeping that leaves the outbound state and the subscriptions alone.
  ghost predicate SameDelivery(st: B.State, st': B.State, client: string) {
    && client in st.sessions && client in st'.sessions
    && st'.sessions[client].d == st.sessions[client].d && st'.sessions[client].subs == st.sessions[client].subs
  }

  lemma {:induction false} Publish1Follows(env: Env, now: nat, st: B.State, from: string, p: B.InPublish,
                                           o: RouteOrder, client: string)
    returns (run: seq<Timed>)
    requires from in st.sessions && client in st.sessions
    ensures var st' := B.Publish1(env, now, st, from, p, o);
      client in st'.sessions && Follows(env, client, st.sessions[client], run, st'.sessions[client].d)
  {
    run := [];
    var s := st.sessions[client];
    var m := B.FromPublish(p, now);
    var st1 := B.Retain(st, m);
    assert SameDelivery(st, st1, client);
    if B.Duplicate(st1, from, p) {
      run := AnswerFollows(env, now, st1, from, p, Success, client, s, []);
    } else {
      var st2 := B.Hold(st1, from, p);
      assert SameDelivery(st, st2, client);
      var pub := Publication(m, Some(from));
      if B.ValidFor(env, st2, pub, o) {
        run := RouteFollows(env, now, st2, pub, o, client);
        run := AnswerFollows(env, now, B.RouteIn(env, now, st2, pub, o), from, p,
                             if B.Matched(env, now, st2, pub, o) then Success else NoMatchingSubscribers,
                             client, s, run);
      }
    }
  }

  lemma {:induction false} PublishFollows(env: Env, now: nat, st: B.State, from: string, epoch: nat, p: B.InPublish,
                                          o: RouteOrder, client: string)
    returns (run: seq<Timed>)
    requires client in st.sessions
    ensures var st' := B.HandlePublish(env, now, st, from, epoch, p, o).st;
      client in st'.sessions && Follows(env, client, st.sessions[client], run, st'.sessions[client].d)
  {
    run := [];
    if B.Current(st, from, epoch) && B.ResolveAlias(env, st.sessions[from].aliases, p).Topic? {
      var r := B.ResolveAlias(env, st.sessions[from].aliases, p);
      var st1 := B.PutSession(st, from, st.sessions[from].(aliases := r.aliases));
      assert SameDelivery(st, st1, client);
      var st' := B.HandlePublish(env, now, st, from, epoch, p, o).st;
      if st' == st || st' == st1 {
      } else if !B.CanPublish(env, st.acl, B.Who(st.sessions[from].identity), r.name) {
        run := TellFollows(env, now, st1, from, B.Refusal(p).value, client, st.sessions[client], []);
      } else {
        run := Publish1Follows(env, now, st1, from, p.(topic := r.name), o, client);
      }
    }
  }

  lemma {:induction false} AckFollows(env: Env, now: nat, st: B.State, from: string, epoch: nat, i: R.Inbound,
                                      client: string)
    returns (run: seq<Timed>)
    requires client in st.sessions && R.IsAck(i)
    ensures var st' := R.HandleInbound(env, now, st, from, epoch, i);
      client in st'.sessions && Follows(env, client, st.sessions[client], run, st'.sessions[client].d)
  {
    run := [];
    if B.Current(st, from, epoch) && from == client {
      var ev := match i
        case InPuback(id) => AckPuback(id)
        case InPubrec(id, rc) => AckPubrec(id, rc)
        case InPubcomp(id) => AckPubcomp(id)
        case InPubrel(id) =>
          Tell(Control(Pubcomp(id, if id in st.sessions[from].inboundQos2 then Success else PacketIdentifierNotFound)));
      FollowsOne(env, client, st.sessions[client], At(now, ev));
      run := [At(now, ev)];
    }
  }

  lemma {:induction false} GiveAllFollows(env: Env, now: nat, d: Outbound, ps: seq<Pending>, client: string)
    returns (run: seq<Timed>)
    requires forall k :: 0 <= k < |ps| ==> ps[k].lbl.origin.None?
    ensures Exec(env, d, run) == GiveAll(env, now, d, ps).d && Foreign(run, client) && SameConnection(run)
    decreases |ps|
  {
    run := [];
    if ps != [] {
      var t := At(now, Give(ps[0]));
      var rest := GiveAllFollows(env, now, Next(env, d, t).d, ps[1..], client);
      run := [t] + rest;
      assert run[1..] == rest;
    }
  }

  ghost predicate Unattributed(ps: seq<Pending>) {
    forall k :: 0 <= k < |ps| ==> ps[k].lbl.origin.None?
  }

  lemma {:induction false} RetainedUnattributed(env: Env, now: nat, cx: B.SubContext, order: seq<string>,
                                                filter: string, granted: QoS)
    ensures Unattributed(B.RetainedSends(env, now, cx, order, filter, granted))
  {
    if order != [] { RetainedUnattributed(env, now, cx, order[..|order| - 1], filter, granted); }
  }

  lemma {:induction false} SendsUnattributed(env: Env, now: nat, cx: B.SubContext, acc: B.SubAcc,
                                             filters: seq<B.SubFilter>)
    requires Unattributed(acc.sends)
    ensures Unattributed(B.SubscribeAll(env, now, cx, acc, filters).sends)
  {
    if filters != [] {
      var n := |filters| - 1;
      SendsUnattributed(env, now, cx, acc, filters[..n]);
      var f := filters[n];
      var j := B.Judge(env, cx, f.raw);
      if j.Good? {
        RetainedUnattributed(env, now, cx, cx.order, j.parsed.filter, B.NewSubscription(env, cx, f, j.parsed).qos);
      }
    }
  }

  lemma {:induction false} SubscribeFollows(env: Env, now: nat, st: B.State, from: string, epoch: nat, i: R.Inbound,
                                            client: string)
    returns (run: seq<Timed>)
    requires client in st.sessions && i.InSubscribe?
    ensures var st' := R.HandleInbound(env, now, st, from, epoch, i);
      client in st'.sessions && Follows(env, client, st.sessions[client], run, st'.sessions[client].d)
  {
    run := [];
    if B.Current(st, from, epoch) && from == client {
      var s := st.sessions[client];
      var cx := B.ContextOf(st, client, i.subId, i.topics);
      var acc := B.SubscribeAll(env, now, cx, B.SubAcc(s.subs, [], [], []), i.filters);
      SendsUnattributed(env, now, cx, B.SubAcc(s.subs, [], [], []), i.filters);
      var t := At(now, Tell(Control(Suback(i.packetId, acc.codes))));
      FollowsOne(env, client, s, t);
      var rest := GiveAllFollows(env, now, Next(env, s.d, t).d, acc.sends, client);
      ExecConcat(env, s.d, [t], rest);
      run := [t] + rest;
    }
  }

  lemma {:induction false} UnsubscribeFollows(env: Env, now: nat, st: B.State, from: string, epoch: nat, i: R.Inbound,
                                              client: string)
    returns (run: seq<Timed>)
    requires client in st.sessions && i.InUnsubscribe?
    ensures var st' := R.HandleInbound(env, now, st, from, epoch, i);
      client in st'.sessions && Follows(env, client, st.sessions[client], run, st'.sessions[client].d)
  {
    run := [];
    if B.Current(st, from, epoch) && from == client {
      var s := st.sessions[client];
      var acc := B.UnsubscribeAll(env, B.ContextOf(st, client, None, []), B.SubAcc(s.subs, [], [], []), i.names);
      var t := At(now, Tell(Control(Unsuback(i.packetId, acc.codes))));
      FollowsOne(env, client, s, t);
      run := [t];
    }
  }

  // -------------------------------------------------------------------------
  // CONNECT
  // -------------------------------------------------------------------------

  ghost function ReconnectOf(env: Env, st: B.State, c: B.ConnectRequest): Event {
    Reconnect(B.Present(st, c) && B.IdentityChanged(st.sessions[c.client].identity, c.identity),
              c.out, if c.receiveMax.Some? then c.receiveMax.value else MAX_ID, c.maxPacketSize, c.order)
  }

  lemma {:induction false} FreshResume(env: Env, now: nat, d: Outbound, o: ResumeOrder)
    requires ValidOrder(d, o) && Online(d) && d.queue == [] && d.puback == map[] && d.pubrec == map[] && d.pubcomp == {}
    ensures Resume(env, now, d, o).d == d
  {
    EnumerationSize(o.puback, d.puback.Keys);
    EnumerationSize(o.pubrec, d.pubrec.Keys);
    EnumerationSize(o.pubcomp, d.pubcomp);
    assert Backlog(d, o) == [];
    assert d.(out := Some(TrySendAll(d.out.value, []))) == d;
  }

  // A CONNECT is the Reconnect event of the session it resumes, or of a fresh one.
  lemma {:induction false} ConnectFollows(env: Env, now: nat, st: B.State, c: B.ConnectRequest) returns (t: Timed)
    requires B.ConnectReady(env, st, c) && B.Acceptable(env, st, c)
    ensures t == At(now, ReconnectOf(env, st, c))
    ensures var d := if B.Present(st, c) then st.sessions[c.client].d else FRESH;
      && Enabled(d, t.ev)
      && Resumed(d, t.ev) == B.ConnectedSession(env, st, c).d
      && Next(env, d, t) == B.Opening(env, now, st, c)
    ensures var d := if B.Present(st, c) then st.sessions[c.client].d else FRESH;
      Exec(env, d, [t]) == B.HandleConnect(env, now, st, c).sessions[c.client].d
  {
    var ev := ReconnectOf(env, st, c);
    t := At(now, ev);
    var d := if B.Present(st, c) then st.sessions[c.client].d else FRESH;
    var s := B.ConnectedSession(env, st, c);
    assert s.d == Resumed(d, ev);
    if !B.Present(st, c) { FreshResume(env, now, s.d, c.order); }
    ExecOne(env, d, t);
  }

  // -------------------------------------------------------------------------
  // One step of the broker
  // -------------------------------------------------------------------------

  lemma {:induction false} RevokeFollows(env: Env, now: nat, st: B.State, acl: B.Acl, order: seq<string>,
                                         client: string)
    returns (run: seq<Timed>)
    requires client in st.sessions
    ensures Follows(env, client, st.sessions[client], run, B.Revoke(env, st, acl, order).sessions[client].d)
  {
    run := [];
    var s := st.sessions[client];
    if acl.enforced && B.Denied(env, acl, B.Who(s.identity), s.subs) != [] {
      var t := At(now, Tell(Shutdown(NotAuthorized)));
      FollowsOne(env, client, s, t);
      run := [t];
    }
  }

  lemma {:induction false} RetainAndRouteFollows(env: Env, now: nat, st: B.State, m: Message,
                                                 publisher: Option<string>, o: RouteOrder, client: string)
    returns (run: seq<Timed>)
    requires B.ValidFor(env, B.Retain(st, m), Publication(m, publisher), o) && client in st.sessions
    ensures var st' := B.RouteIn(env, now, B.Retain(st, m), Publication(m, publisher), o);
      client in st'.sessions && Follows(env, client, st.sessions[client], run, st'.sessions[client].d)
  {
    assert SameDelivery(st, B.Retain(st, m), client);
    run := RouteFollows(env, now, B.Retain(st, m), Publication(m, publisher), o, client);
  }

  lemma {:induction false} PacketFollows(env: Env, n: R.Node, t: R.TimedEvent, client: string) returns (run: seq<Timed>)
    requires R.Enabled(env, n, t) && client in n.st.sessions && t.ev.Packet?
    ensures var st' := R.NextState(env, n, t);
      client in st'.sessions && Follows(env, client, n.st.sessions[client], run, st'.sessions[client].d)
  {
    var st, from, epoch, i := n.st, t.ev.client, t.ev.epoch, t.ev.inbound;
    if i.InPublish? { run := PublishFollows(env, t.now, st, from, epoch, i.p, i.order, client); }
    else if R.IsAck(i) { run := AckFollows(env, t.now, st, from, epoch, i, client); }
    else if i.InSubscribe? { run := SubscribeFollows(env, t.now, st, from, epoch, i, client); }
    else if i.InUnsubscribe? { run := UnsubscribeFollows(env, t.now, st, from, epoch, i, client); }
    else { run := []; }
  }

  lemma {:induction false} WorkFollows(env: Env, n: R.Node, t: R.TimedEvent, client: string) returns (run: seq<Timed>)
    requires R.Enabled(env, n, t) && client in n.st.sessions && t.ev.Work?
    ensures var st' := R.NextState(env, n, t);
      client in st'.sessions ==> Follows(env, client, n.st.sessions[client], run, st'.sessions[client].d)
  {
    run := [];
    if R.Fires(env, n.st, t.ev) {
      run := RetainAndRouteFollows(env, t.now, n.st, t.ev.task.will.message, None, t.ev.order, client);
    }
  }

  lemma {:induction false} CloseFollows(env: Env, now: nat, st: B.State, from: string, epoch: nat,
                                        client: string) returns (run: seq<Timed>)
    requires client in st.sessions
    ensures var st' := B.CloseSession(st, from, epoch);
      client in st'.sessions && Follows(env, client, st.sessions[client], run, st'.sessions[client].d)
  {
    run := [];
    if B.Current(st, from, epoch) && from == client {
      FollowsOne(env, client, st.sessions[client], At(now, GoOffline));
      run := [At(now, GoOffline)];
    }
  }

  // The client whose session the step starts or rebinds.
  ghost function Reopened(env: Env, st: B.State, ev: R.Event): Option<string> {
    if ev.Connect? && B.Acceptable(env, st, ev.c) then Some(ev.c.client)
    else if ev.Register? then Some(ev.client)
    else None
  }

  // Whatever the step, the session of a client it does not reopen moves by a
  // run of its own machine.
  lemma {:induction false} StepFollows(env: Env, n: R.Node, t: R.TimedEvent, client: string) returns (run: seq<Timed>)
    requires R.Enabled(env, n, t) && client in R.NextState(env, n, t).sessions
    requires Reopened(env, n.st, t.ev) != Some(client)
    ensures client in n.st.sessions
    ensures Follows(env, client, n.st.sessions[client], run, R.NextState(env, n, t).sessions[client].d)
  {
    run := [];
    if t.ev.Packet? && R.Moves(t.ev) { R.MovesAreQuiet(env, n, t); }
    if t.ev.Packet? && client in n.st.sessions { run := PacketFollows(env, n, t, client); }
    else if t.ev.Work? { OldClient(env, n, t, client); run := WorkFollows(env, n, t, client); }
    else if t.ev.Close? { run := CloseFollows(env, t.now, n.st, t.ev.client, t.ev.epoch, client); }
    else { OldClient(env, n, t, client); run := OtherFollows(env, n, t, client); }
  }

  lemma {:induction false} OldClient(env: Env, n: R.Node, t: R.TimedEvent, client: string)
    requires R.Enabled(env, n, t) && client in R.NextState(env, n, t).sessions
    requires Reopened(env, n.st, t.ev) != Some(client)
    ensures client in n.st.sessions
  {
    if R.Moves(t.ev) { R.MovesAreQuiet(env, n, t); }
  }

  lemma {:induction false} OtherFollows(env: Env, n: R.Node, t: R.TimedEvent, client: string) returns (run: seq<Timed>)
    requires R.Enabled(env, n, t) && client in R.NextState(env, n, t).sessions && client in n.st.sessions
    requires Reopened(env, n.st, t.ev) != Some(client) && !t.ev.Packet? && !t.ev.Work? && !t.ev.Close?
    ensures Follows(env, client, n.st.sessions[client], run, R.NextState(env, n, t).sessions[client].d)
  {
    run := [];
    match t.ev
    case RevokePass(acl, clients) => run := RevokeFollows(env, t.now, n.st, acl, clients, client);
    case InjectMessage(from, m, order) => run := RetainAndRouteFollows(env, t.now, n.st, m, Some(from), order, client);
    case Sys(topic, payload, order) =>
      var m := B.SysMessage(topic, payload);
      run := RouteFollows(env, t.now, n.st.(retained := n.st.retained[topic := m]), Publication(m, None), order,
                          client);
    case Wire(from, ev) =>
      if from == client {
        FollowsOne(env, client, n.st.sessions[client], At(t.now, ev));
        run := [At(t.now, ev)];
      }
    case _ =>
  }

  // -------------------------------------------------------------------------
  // Runs of the broker
  // -------------------------------------------------------------------------

  // The session machine can get from a fresh session to `d`.
  ghost predicate Reachable(env: Env, d: Outbound) {
    exists run :: Exec(env, FRESH, run) == d
  }

  ghost predicate AllReachable(env: Env, st: B.State) {
    forall c :: c in st.sessions ==> Reachable(env, st.sessions[c].d)
  }

  lemma {:induction false} ReachableThen(env: Env, d: Outbound, run: seq<Timed>)
    requires Reachable(env, d)
    ensures Reachable(env, Exec(env, d, run))
  {
    var first :| Exec(env, FRESH, first) == d;
    ExecConcat(env, FRESH, first, run);
  }

  lemma {:induction false} FreshReachable(env: Env)
    ensures Reachable(env, FRESH)
  {
    assert Exec(env, FRESH, []) == FRESH;
  }

  lemma {:induction false} ConnectReachable(env: Env, now: nat, st: B.State, c: B.ConnectRequest)
    requires AllReachable(env, st) && B.ConnectReady(env, st, c) && B.Acceptable(env, st, c)
    ensures Reachable(env, B.HandleConnect(env, now, st, c).sessions[c.client].d)
  {
    var t := ConnectFollows(env, now, st, c);
    FreshReachable(env);
    ReachableThen(env, if B.Present(st, c) then st.sessions[c.client].d else FRESH, [t]);
  }

  lemma {:induction false} RegisterReachable(env: Env, now: nat, st: B.State, client: string, out: Channel)
    requires out.items == []
    ensures Reachable(env, B.RegisterBridge(st, client, out).sessions[client].d)
  {
    var ev := Reconnect(false, out, MAX_ID, None, ResumeOrder([], [], []));
    var d := Resumed(FRESH, ev);
    FreshResume(env, now, d, ev.order);
    ExecOne(env, FRESH, At(now, ev));
    FreshReachable(env);
    ReachableThen(env, FRESH, [At(now, ev)]);
  }

  lemma {:induction false} StepKeepsReachable(env: Env, n: R.Node, t: R.TimedEvent)
    requires AllReachable(env, n.st) && R.Enabled(env, n, t)
    ensures AllReachable(env, R.NextState(env, n, t))
  {
    var st' := R.NextState(env, n, t);
    forall c | c in st'.sessions ensures Reachable(env, st'.sessions[c].d) {
      if Reopened(env, n.st, t.ev) == Some(c) {
        if t.ev.Connect? { ConnectReachable(env, t.now, n.st, t.ev.c); }
        else { RegisterReachable(env, t.now, n.st, c, t.ev.out); }
      } else {
        var run := StepFollows(env, n, t, c);
        ReachableThen(env, n.st.sessions[c].d, run);
      }
    }
  }

  lemma {:induction false} PlayKeepsReachable(env: Env, n: R.Node, run: seq<R.TimedEvent>)
    requires AllReachable(env, n.st)
    ensures AllReachable(env, R.Play(env, n, run).st)
    decreases |run|
  {
    if run != [] {
      if R.Enabled(env, n, run[0]) { StepKeepsReachable(env, n, run[0]); }
      PlayKeepsReachable(env, R.Step(env, n, run[0]), run[1..]);
    }
  }

  lemma {:induction false} FreshWellFormed()
    ensures WellFormed(FRESH)
  {
  }

  // In every run of the broker the outbound state of every session is one the
  // session machine reaches from a fresh session. In particular identifiers
  // are disjoint and in range, an open window always finds a free one, and no
  // queue exceeds its bound.
  lemma {:induction false} EverySessionIsARun(env: Env, n: R.Node, run: seq<R.TimedEvent>, client: string)
    requires R.Booted(n) && client in R.Play(env, n, run).st.sessions
    ensures var d := R.Play(env, n, run).st.sessions[client].d;
      && Reachable(env, d)
      && WellFormed(d)
      && (WindowOpen(d) ==> NextId(d).id.Some?)
      && (0 < env.maxQueued ==> |d.queue| <= env.maxQueued)
  {
    FreshReachable(env);
    forall c | c in n.st.sessions ensures Reachable(env,
                                                    n.st.sessions[c].d) { assert R.RestoredSession(n.st.sessions[c]); }
    PlayKeepsReachable(env, n, run);
    var d := R.Play(env, n, run).st.sessions[client].d;
    var own :| Exec(env, FRESH, own) == d;
    FreshWellFormed();
    RunKeepsWellFormed(env, FRESH, own);
    if WindowOpen(d) { OpenWindowHasId(d); }
    if 0 < env.maxQueued { FlowControl.QueueBounded(env, FRESH, own); }
  }

  // -------------------------------------------------------------------------
  // Receive Maximum in the broker
  // -------------------------------------------------------------------------

  // No step of the run opens a connection for `client`.
  ghost predicate NotReopened(env: Env, n: R.Node, run: seq<R.TimedEvent>, client: string)
    decreases |run|
  {
    run != [] ==>
      && (R.Enabled(env, n, run[0]) ==> Reopened(env, n.st, run[0].ev) != Some(client))
      && NotReopened(env, R.Step(env, n, run[0]), run[1..], client)
  }

  // The session of a client that opens no connection moves by one run of its
  // machine within the connection, over any number of broker steps.
  lemma {:induction false} PlayFollows(env: Env, n: R.Node, run: seq<R.TimedEvent>,
                                       client: string) returns (own: seq<Timed>)
    requires NotReopened(env, n, run, client) && client in R.Play(env, n, run).st.sessions
    ensures client in n.st.sessions && SameConnection(own)
    ensures Exec(env, n.st.sessions[client].d, own) == R.Play(env, n, run).st.sessions[client].d
    decreases |run|
  {
    own := [];
    if run != [] {
      var n1 := R.Step(env, n, run[0]);
      var rest := PlayFollows(env, n1, run[1..], client);
      own := rest;
      if R.Enabled(env, n, run[0]) {
        var first := StepFollows(env, n, run[0], client);
        ExecConcat(env, n.st.sessions[client].d, first, rest);
        own := first + rest;
      }
    }
  }

  function ReceiveMaximum(c: B.ConnectRequest): nat {
    if c.receiveMax.Some? then c.receiveMax.value else MAX_ID
  }

  // In every run of the broker, from an accepted CONNECT until the client's
  // next one, its in-flight count never exceeds the larger of the count it
  // resumed with and its Receive Maximum.
  lemma {:induction false} BrokerRespectsReceiveMaximum(env: Env, boot: R.Node, before: seq<R.TimedEvent>,
                                                        t: R.TimedEvent,
                                                        after: seq<R.TimedEvent>)
    requires R.Booted(boot) && t.ev.Connect?
    requires var n := R.Play(env, boot, before);
      && R.Enabled(env, n, t) && B.Acceptable(env, n.st, t.ev.c)
      && NotReopened(env, R.Step(env, n, t), after, t.ev.c.client)
      && t.ev.c.client in R.Play(env, R.Step(env, n, t), after).st.sessions
    ensures var n, c := R.Play(env, boot, before), t.ev.c;
      InflightCount(R.Play(env, R.Step(env, n, t), after).st.sessions[c.client].d)
      <= FlowControl.Max(InflightCount(B.ConnectedSession(env, n.st, c).d), ReceiveMaximum(c))
  {
    var n, c := R.Play(env, boot, before), t.ev.c;
    var own := PlayFollows(env, R.Step(env, n, t), after, c.client);
    BaseWellFormed(env, boot, before, c);
    OpenedFlow(env, t.now, n.st, c, own);
  }

  lemma {:induction false} BaseWellFormed(env: Env, boot: R.Node, before: seq<R.TimedEvent>, c: B.ConnectRequest)
    requires R.Booted(boot)
    ensures var st := R.Play(env, boot, before).st;
      WellFormed(if B.Present(st, c) then st.sessions[c.client].d else FRESH)
  {
    FreshWellFormed();
    if B.Present(R.Play(env, boot, before).st, c) { EverySessionIsARun(env, boot, before, c.client); }
  }

  lemma {:induction false} OpenedFlow(env: Env, now: nat, st: B.State, c: B.ConnectRequest, own: seq<Timed>)
    requires B.ConnectReady(env, st, c) && B.Acceptable(env, st, c) && SameConnection(own)
    requires WellFormed(if B.Present(st, c) then st.sessions[c.client].d else FRESH)
    ensures InflightCount(Exec(env, B.HandleConnect(env, now, st, c).sessions[c.client].d, own))
            <= FlowControl.Max(InflightCount(B.ConnectedSession(env, st, c).d), ReceiveMaximum(c))
  {
    var d, ev := if B.Present(st, c) then st.sessions[c.client].d else FRESH, ReconnectOf(env, st, c);
    var t := ConnectFollows(env, now, st, c);
    ExecOne(env, d, t);
    FlowControl.ReceiveMaximumRespected(env, now, d, ev, own);
  }
}
