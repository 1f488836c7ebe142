// Runs of the whole broker: any interleaving of connections, handlers, timers,
// policy reloads, bridges and status publications, one critical section at a
// time.

module BrokerRuns {
  import opened Types
  import opened Delivery
  import opened Router
  import opened Broker
  import SessionRuns

  datatype Inbound =
    | InPublish(p: Broker.InPublish, order: RouteOrder)
    | InPuback(id: nat)
    | InPubrec(id: nat, rc: ReasonCode)
    | InPubrel(id: nat)
    | InPubcomp(id: nat)
    | InSubscribe(packetId: nat, subId: Option<nat>, filters: seq<SubFilter>, topics: seq<string>)
    | InUnsubscribe(packetId: nat, names: seq<string>)
    | InDisconnect(wanted: nat)

  /** Work a handler left behind for a later critical section: a Will to fire
      (`waiting` while its delay runs), a session to remove once idle, an expiry
      to update. */
  datatype Task =
    | Fire(client: string, epoch: nat, will: Will, owner: string, waiting: bool)
    | Remove(client: string, epoch: nat)
    | Update(client: string, epoch: nat, wanted: nat)

  datatype Event =
    | Connect(c: ConnectRequest)
    | Packet(client: string, epoch: nat, inbound: Inbound)
    | Close(client: string, epoch: nat, publishWill: bool)
    | Work(task: Task, order: RouteOrder)
    | SwapAcl(acl: Acl)
    | RevokePass(acl: Acl, clients: seq<string>)
    | Register(client: string, out: Channel)
    | BridgeSub(client: string, filter: string)
    | InjectMessage(client: string, m: Message, order: RouteOrder)
    | Deregister(client: string, epoch: nat)
    | Sys(topic: string, payload: seq<byte>, order: RouteOrder)
    | PurgeRetained
    | Wire(client: string, ev: SessionRuns.Event)

  // What became of a client's inbound QoS 2 identifiers.
  datatype Mark = Entered(client: string, id: nat) | Left(client: string, id: nat) | Ended(client: string)

  /** The state with its pending work and history: the connections accepted,
      the policies whose revoke pass is outstanding, the epochs of the Wills
      fired and of the closes that took one, the inbound marks, the topics the
      status publisher wrote, and the clients whose session switched between
      persistent and not across a resume. */
  datatype Node = Node(
    clock: nat,
    st: State,
    tasks: set<Task>,
    conns: set<(string, nat)>,
    outstanding: multiset<Acl>,
    fired: seq<nat>,
    taken: set<nat>,
    marks: seq<Mark>,
    sysTopics: set<string>,
    switched: set<string>)

  datatype TimedEvent = At(now: nat, ev: Event)

  // -------------------------------------------------------------------------
  // Steps
  // -------------------------------------------------------------------------

  ghost predicate PublishReady(env: Env, now: nat, st: State, client: string, p: Broker.InPublish, o: RouteOrder) {
    client in st.sessions && ResolveAlias(env, st.sessions[client].aliases, p).Topic? ==>
      var name := ResolveAlias(env, st.sessions[client].aliases, p).name;
      ValidRoute(env, Publication(FromPublish(p.(topic := name), now), Some(client)), st.sessions, o)
  }

  ghost predicate InboundReady(env: Env, now: nat, st: State, client: string, i: Inbound) {
    match i
    case InPublish(p, order) => PublishReady(env, now, st, client, p, order)
    case InSubscribe(_, _, _, topics) => Enumerates(topics, st.retained.Keys)
    case _ => true
  }

  ghost predicate TaskReady(env: Env, st: State, t: Task, o: RouteOrder) {
    t.Fire? && !t.waiting ==> ValidRoute(env, Publication(t.will.message, None), st.sessions, o)
  }

  // The clock never runs backwards.
  ghost predicate Enabled(env: Env, n: Node, t: TimedEvent) {
    n.clock <= t.now &&
    match t.ev
    case Connect(c) => ConnectReady(env, n.st, c)
    case Packet(client, epoch, i) => (client, epoch) in n.conns && InboundReady(env, t.now, n.st, client, i)
    case Close(client, epoch, _) => (client, epoch) in n.conns
    case Work(task, order) => task in n.tasks && TaskReady(env, n.st, task, order)
    case SwapAcl(_) => true
    case RevokePass(acl, clients) => acl in n.outstanding && Enumerates(clients, n.st.sessions.Keys)
    case Register(client, out) => "$bridge/" <= client && out.items == []
    case BridgeSub(client, _) => "$bridge/" <= client
    case InjectMessage(client, m, order) =>
      "$bridge/" <= client && ValidRoute(env, Publication(m, Some(client)), n.st.sessions, order)
    case Deregister(client, _) => "$bridge/" <= client
    case Sys(topic, payload, order) =>
      ValidRoute(env, Publication(SysMessage(topic, payload), None), n.st.sessions, order)
    case PurgeRetained => true
    case Wire(client, ev) =>
      client in n.st.sessions && (ev.Drain? || ev.ReceiverGone?) && SessionRuns.Enabled(n.st.sessions[client].d, ev)
  }

  ghost function HandleInbound(env: Env, now: nat, st: State, client: string, epoch: nat, i: Inbound): State {
    match i
    case InPublish(p, order) => HandlePublish(env, now, st, client, epoch, p, order).st
    case InPuback(id) => PubackIn(env, now, st, client, epoch, id).st
    case InPubrec(id, rc) => PubrecIn(env, now, st, client, epoch, id, rc).st
    case InPubrel(id) => PubrelIn(st, client, epoch, id).st
    case InPubcomp(id) => PubcompIn(env, now, st, client, epoch, id).st
    case InSubscribe(packetId, subId, filters, topics) =>
      HandleSubscribe(env, now, st, client, epoch, packetId, subId, filters, topics).st
    case InUnsubscribe(packetId, names) => HandleUnsubscribe(env, st, client, epoch, packetId, names).st
    case InDisconnect(_) => st
  }

  ghost function WorkOn(env: Env, now: nat, st: State, t: Task, o: RouteOrder): State
    requires TaskReady(env, st, t, o)
  {
    match t
    case Fire(_, _, will, owner, waiting) =>
      if waiting || !CanPublish(env, st.acl, owner, will.message.topic) then st
      else FireWill(env, now, st, will.message, o)
    case Remove(client, epoch) => RemoveIfIdle(st, client, epoch)
    case Update(client, _, wanted) => UpdateExpiry(env, st, client, wanted)
  }

  // The shared state after one critical section.
  ghost function NextState(env: Env, n: Node, t: TimedEvent): State
    requires Enabled(env, n, t)
  {
    match t.ev
    case Connect(c) => HandleConnect(env, t.now, n.st, c)
    case Packet(client, epoch, i) => HandleInbound(env, t.now, n.st, client, epoch, i)
    case Close(client, epoch, _) => CloseSession(n.st, client, epoch)
    case Work(task, order) => WorkOn(env, t.now, n.st, task, order)
    case SwapAcl(acl) => n.st.(acl := acl)
    case RevokePass(acl, clients) => Revoke(env, n.st, acl, clients)
    case Register(client, out) => RegisterBridge(n.st, client, out)
    case BridgeSub(client, filter) => BridgeSubscribe(n.st, client, filter, true)
    case InjectMessage(client, m, order) => Inject(env, t.now, n.st, client, m, order)
    case Deregister(client, epoch) => DeregisterBridge(n.st, client, epoch)
    case Sys(topic, payload, order) => PublishSys(env, t.now, n.st, topic, payload, order)
    case PurgeRetained => Purge(n.st, t.now)
    case Wire(client, ev) =>
      OnOutbound(n.st, client, SessionRuns.Step(env, t.now, n.st.sessions[client].d, ev))
  }

  predicate AcceptedFor(env: Env, st: State, ev: Event, client: string) {
    (ev.Connect? && ev.c.client == client && Acceptable(env, st, ev.c)) || (ev.Register? && ev.client == client)
  }

  // The tasks a close leaves: the Will it took, and the removal.
  function CloseTasks(st: State, client: string, epoch: nat, publishWill: bool): set<Task> {
    if !Current(st, client, epoch) then {}
    else
      var s := st.sessions[client];
      {Remove(client, epoch)}
      + if publishWill && s.will.Some?
        then {Fire(client, epoch, s.will.value, Who(s.identity), s.will.value.delay > 0)} else {}
  }

  ghost function NextTasks(n: Node, ev: Event): set<Task> {
    match ev
    case Close(client, epoch, publishWill) => n.tasks + CloseTasks(n.st, client, epoch, publishWill)
    case Packet(client, epoch, i) =>
      if i.InDisconnect? && Current(n.st, client, epoch) then n.tasks + {Update(client, epoch, i.wanted)} else n.tasks
    case Work(task, _) =>
      n.tasks - {task}
      + if task.Fire? && task.waiting && !WillCancelled(n.st, task.client, task.epoch)
        then {task.(waiting := false)} else {}
    case _ => n.tasks
  }

  predicate Fires(env: Env, st: State, ev: Event) {
    ev.Work? && ev.task.Fire? && !ev.task.waiting && CanPublish(env, st.acl, ev.task.owner, ev.task.will.message.topic)
  }

  predicate TakesWill(st: State, ev: Event) {
    ev.Close? && ev.publishWill && Current(st, ev.client, ev.epoch) && st.sessions[ev.client].will.Some?
  }

  ghost function NextNode(env: Env, n: Node, t: TimedEvent): Node
    requires Enabled(env, n, t)
  {
    var st' := NextState(env, n, t);
    Node(t.now,
         st',
         NextTasks(n, t.ev),
         if t.ev.Connect? && Acceptable(env, n.st, t.ev.c) then n.conns + {(t.ev.c.client, n.st.nextEpoch)}
             else n.conns,
         if t.ev.SwapAcl? then n.outstanding + multiset{t.ev.acl}
         else if t.ev.RevokePass? then n.outstanding - multiset{t.ev.acl} else n.outstanding,
         if Fires(env, n.st, t.ev) then n.fired + [t.ev.task.epoch] else n.fired,
         if TakesWill(n.st, t.ev) then n.taken + {t.ev.epoch} else n.taken,
         n.marks + NewMarks(env, n.st, st', t.ev),
         if t.ev.Sys? then n.sysTopics + {t.ev.topic} else n.sysTopics,
         NextSwitched(env, n, st', t.ev))
  }

  // A publication is routed exactly when its identifier was not pending.
  ghost predicate RoutesInbound(env: Env, st: State, ev: Event) {
    && ev.Packet? && ev.inbound.InPublish? && Current(st, ev.client, ev.epoch)
    && var p := ev.inbound.p; var s := st.sessions[ev.client];
    && p.qos == ExactlyOnce && Rank(p.qos) <= Rank(env.maximumQos) && (p.retain ==> env.retainAvailable)
    && ResolveAlias(env, s.aliases, p).Topic?
    && var name := ResolveAlias(env, s.aliases, p).name;
    && env.validTopic(name) && !("$SYS/" <= name)
    && CanPublish(env, st.acl, Who(s.identity), name)
    && PacketId(p) !in s.inboundQos2
  }

  ghost function NewMarks(env: Env, st: State, st': State, ev: Event): seq<Mark> {
    if RoutesInbound(env, st, ev) then [Entered(ev.client, PacketId(ev.inbound.p))]
    else if ev.Packet? && ev.inbound.InPubrel? && Current(st, ev.client, ev.epoch)
    then [Left(ev.client, ev.inbound.id)]
    else if ev.Connect? && AcceptedFor(env, st, ev, ev.c.client) && !Present(st, ev.c) then [Ended(ev.c.client)]
    else if ev.Register? then [Ended(ev.client)]
    else []
  }

  ghost function NextSwitched(env: Env, n: Node, st': State, ev: Event): set<string> {
    if ev.Connect? && Acceptable(env, n.st, ev.c) then
      var c := ev.c.client;
      if !Present(n.st, ev.c) then n.switched - {c}
      else if n.st.sessions[c].persistent != (RequestedExpiry(env, ev.c) > 0 && !ev.c.autoId) then n.switched + {c}
      else n.switched
    else n.switched
  }

  ghost function Step(env: Env, n: Node, t: TimedEvent): Node {
    if Enabled(env, n, t) then NextNode(env, n, t) else n
  }

  ghost function Play(env: Env, n: Node, run: seq<TimedEvent>): Node
    decreases |run|
  {
    if run == [] then n else Play(env, Step(env, n, run[0]), run[1..])
  }

  // A broker that has just started: sessions restored from disk are offline
  // and empty, and nothing is pending.
  ghost predicate Booted(n: Node) {
    && (forall c :: c in n.st.sessions ==> !Reserved(c) && RestoredSession(n.st.sessions[c]))
    && n.st.nextEpoch == 1 && n.st.dropped == 0
    && n.tasks == {} && n.conns == {} && n.outstanding == multiset{}
    && n.fired == [] && n.taken == {} && n.marks == [] && n.sysTopics == {} && n.switched == {}
  }

  ghost predicate RestoredSession(s: Session) {
    s.epoch == 0 && s.will.None? && s.inboundQos2 == {} && s.aliases == map[] && s.d == FRESH && s.persistent
  }

  lemma {:induction false} PlayConcat(env: Env, n: Node, a: seq<TimedEvent>, b: seq<TimedEvent>)
    ensures Play(env, n, a + b) == Play(env, Play(env, n, a), b)
    decreases |a|
  {
    if a == [] {
      assert a + b == b;
    } else {
      PlayConcat(env, Step(env, n, a[0]), a[1..], b);
      assert (a + b)[1..] == a[1..] + b;
    }
  }

  lemma {:induction false} PlaySplit(env: Env, n: Node, run: seq<TimedEvent>, k: nat)
    requires k < |run|
    ensures Play(env, n, run) == Play(env, Step(env, Play(env, n, run[..k]), run[k]), run[k + 1..])
  {
    assert run[..k] + run[k..] == run;
    assert run[k..][0] == run[k] && run[k..][1..] == run[k + 1..];
    PlayConcat(env, n, run[..k], run[k..]);
  }

  // -------------------------------------------------------------------------
  // What a step leaves alone
  // -------------------------------------------------------------------------

  // Two views of a session that differ at most in what handlers of packets in
  // flight may touch.
  ghost predicate SameControl(a: Session, b: Session) {
    b == a.(d := b.d, aliases := b.aliases, inboundQos2 := b.inboundQos2) && Online(b.d) == Online(a.d)
  }

  ghost predicate Quiet(st: State, st': State) {
    && st'.sessions.Keys == st.sessions.Keys
    && (forall c :: c in st.sessions ==> SameControl(st.sessions[c], st'.sessions[c]))
    && st'.nextEpoch == st.nextEpoch && st'.acl == st.acl
  }

  lemma {:induction false} QuietPut(st: State, client: string, s: Session)
    requires client in st.sessions && SameControl(st.sessions[client], s)
    ensures Quiet(st, PutSession(st, client, s))
  {
  }

  lemma {:induction false} QuietTrans(a: State, b: State, c: State)
    requires Quiet(a, b) && Quiet(b, c)
    ensures Quiet(a, c)
  {
    forall x | x in a.sessions ensures SameControl(a.sessions[x], c.sessions[x]) {
      assert SameControl(a.sessions[x], b.sessions[x]) && SameControl(b.sessions[x], c.sessions[x]);
    }
  }

  lemma {:induction false} FlushKeepsLink(env: Env, now: nat, d: Outbound)
    ensures Online(Flush(env, now, d).d) == Online(d)
    decreases |d.queue|
  {
    var it := FlushOne(env, now, d);
    if it.go { FlushKeepsLink(env, now, it.d); }
  }

  lemma {:induction false} QuietTell(st: State, client: string, x: Outgoing)
    ensures Quiet(st, Tell(st, client, x))
  {
  }

  lemma {:induction false} QuietRoute(env: Env, now: nat, st: State, pub: Publication, o: RouteOrder)
    requires ValidFor(env, st, pub, o)
    ensures Quiet(st, RouteIn(env, now, st, pub, o))
    ensures RouteIn(env, now, st, pub, o).retained == st.retained && RouteIn(env, now, st, pub, o).log == st.log
    ensures OnlyOutboundChanged(st.sessions, RouteIn(env, now, st, pub, o).sessions)
  {
    if !IsExpired(pub.message, now) {
      FanoutFrame(env, now, pub, Fanout(st.sessions, 0), Plan(env, pub, st.sessions, st.rr, o));
    }
  }

  lemma {:induction false} QuietAnswer(st: State, client: string, p: Broker.InPublish, rc: ReasonCode)
    ensures Quiet(st, Answer(st, client, p, rc))
  {
  }

  // Every check of a PUBLISH before its identifier is looked at passes.
  ghost predicate Taken(env: Env, st: State, client: string, p: Broker.InPublish)
    requires client in st.sessions
  {
    && Rank(p.qos) <= Rank(env.maximumQos) && (p.retain ==> env.retainAvailable)
    && ResolveAlias(env, st.sessions[client].aliases, p).Topic?
    && var name := ResolveAlias(env, st.sessions[client].aliases, p).name;
    env.validTopic(name) && !("$SYS/" <= name) && CanPublish(env, st.acl, Who(st.sessions[client].identity), name)
  }

  // The state with the PUBLISH's topic alias recorded.
  ghost function Aliased(env: Env, st: State, client: string, p: Broker.InPublish): State
    requires client in st.sessions
  {
    var s := st.sessions[client];
    var r := ResolveAlias(env, s.aliases, p);
    if r.Topic? then PutSession(st, client, s.(aliases := r.aliases)) else st
  }

  ghost predicate OnlyRefused(st: State, client: string, p: Broker.InPublish, st1: State, st': State) {
    st' == st || st' == st1 || (Refusal(p).Some? && st' == Tell(st1, client, Refusal(p).value))
  }

  lemma {:induction false} PublishOutcome(env: Env, now: nat, st: State, client: string, epoch: nat,
                                          p: Broker.InPublish, o: RouteOrder)
    requires Current(st, client, epoch)
    ensures var st1, st' := Aliased(env, st, client, p), HandlePublish(env, now, st, client, epoch, p, o).st;
      if Taken(env, st, client, p)
      then st' == Publish1(env, now, st1, client, p.(topic := ResolveAlias(env, st.sessions[client].aliases, p).name),
                           o)
      else OnlyRefused(st, client, p, st1, st')
  {
  }

  lemma {:induction false} QuietRetain(st: State, m: Message)
    ensures Quiet(st, Retain(st, m)) && Retain(st, m).sessions == st.sessions
  {
  }

  lemma {:induction false} QuietHold(st: State, client: string, p: Broker.InPublish)
    requires client in st.sessions
    ensures Quiet(st, Hold(st, client, p)) && client in Hold(st, client, p).sessions
  {
    var s := st.sessions[client];
    QuietPut(st, client, s.(inboundQos2 := s.inboundQos2 + {PacketId(p)}));
  }

  lemma {:induction false} QuietPublish1(env: Env, now: nat, st: State, client: string, p: Broker.InPublish,
                                         o: RouteOrder)
    requires client in st.sessions
    ensures Quiet(st, Publish1(env, now, st, client, p, o))
  {
    var m := FromPublish(p, now);
    var st1 := Retain(st, m);
    QuietRetain(st, m);
    if Duplicate(st1, client, p) {
      QuietAnswer(st1, client, p, Success);
      QuietTrans(st, st1, Answer(st1, client, p, Success));
    } else {
      QuietHold(st1, client, p);
      QuietTrans(st, st1, Hold(st1, client, p));
      QuietRouted(env, now, st, Hold(st1, client, p), client, p, Publication(m, Some(client)), o);
    }
  }

  lemma {:induction false} QuietRouted(env: Env, now: nat, st: State, st2: State, client: string, p: Broker.InPublish,
                                       pub: Publication, o: RouteOrder)
    requires Quiet(st, st2)
    ensures ValidFor(env, st2, pub, o) ==>
      Quiet(st, Answer(RouteIn(env, now, st2, pub, o), client, p,
                       if Matched(env, now, st2, pub, o) then Success else NoMatchingSubscribers))
  {
    if ValidFor(env, st2, pub, o) {
      var rc := if Matched(env, now, st2, pub, o) then Success else NoMatchingSubscribers;
      QuietRouteAnswer(env, now, st2, client, p, pub, o, rc);
      QuietTrans(st, st2, Answer(RouteIn(env, now, st2, pub, o), client, p, rc));
    }
  }

  lemma {:induction false} QuietRouteAnswer(env: Env, now: nat, st: State, client: string, p: Broker.InPublish,
                                            pub: Publication, o: RouteOrder, rc: ReasonCode)
    requires ValidFor(env, st, pub, o)
    ensures Quiet(st, Answer(RouteIn(env, now, st, pub, o), client, p, rc))
  {
    var st1 := RouteIn(env, now, st, pub, o);
    QuietRoute(env, now, st, pub, o);
    QuietAnswer(st1, client, p, rc);
    QuietTrans(st, st1, Answer(st1, client, p, rc));
  }

  lemma {:induction false} QuietPublish(env: Env, now: nat, st: State, client: string, epoch: nat, p: Broker.InPublish,
                                        o: RouteOrder)
    ensures Quiet(st, HandlePublish(env, now, st, client, epoch, p, o).st)
  {
    if Current(st, client, epoch) {
      PublishOutcome(env, now, st, client, epoch, p, o);
      var st1 := Aliased(env, st, client, p);
      QuietAliased(env, st, client, p);
      if Taken(env, st, client, p) {
        var p1 := p.(topic := ResolveAlias(env, st.sessions[client].aliases, p).name);
        QuietPublish1(env, now, st1, client, p1, o);
        QuietTrans(st, st1, Publish1(env, now, st1, client, p1, o));
      } else {
        QuietRefused(st, st1, client, p, HandlePublish(env, now, st, client, epoch, p, o).st);
      }
    }
  }

  lemma {:induction false} QuietAliased(env: Env, st: State, client: string, p: Broker.InPublish)
    requires client in st.sessions
    ensures Quiet(st, Aliased(env, st, client, p)) && client in Aliased(env, st, client, p).sessions
  {
    var r := ResolveAlias(env, st.sessions[client].aliases, p);
    if r.Topic? { QuietPut(st, client, st.sessions[client].(aliases := r.aliases)); }
  }

  lemma {:induction false} QuietRefused(st: State, st1: State, client: string, p: Broker.InPublish, st': State)
    requires Quiet(st, st1) && OnlyRefused(st, client, p, st1, st')
    ensures Quiet(st, st')
  {
    if Refusal(p).Some? {
      QuietTell(st1, client, Refusal(p).value);
      QuietTrans(st, st1, Tell(st1, client, Refusal(p).value));
    }
  }

  predicate IsAck(i: Inbound) {
    i.InPuback? || i.InPubrec? || i.InPubrel? || i.InPubcomp?
  }

  lemma {:induction false} QuietOutbound(st: State, client: string, r: Flushed)
    requires client in st.sessions && Online(r.d) == Online(st.sessions[client].d)
    ensures Quiet(st, OnOutbound(st, client, r))
  {
    QuietPut(st, client, st.sessions[client].(d := r.d));
  }

  lemma {:induction false} PubrecKeepsLink(d: Outbound, id: nat, rc: ReasonCode)
    ensures Online(HandlePubrec(d, id, rc)) == Online(d)
  {
  }

  lemma {:induction false} QuietAck(env: Env, now: nat, st: State, client: string, epoch: nat, i: Inbound)
    requires IsAck(i)
    ensures Quiet(st, HandleInbound(env, now, st, client, epoch, i))
  {
    if Current(st, client, epoch) {
      var d := st.sessions[client].d;
      match i
      case InPuback(id) =>
        FlushKeepsLink(env, now, d.(puback := d.puback - {id}));
        QuietOutbound(st, client, HandlePuback(env, now, d, id));
      case InPubcomp(id) =>
        FlushKeepsLink(env, now, d.(pubcomp := d.pubcomp - {id}));
        QuietOutbound(st, client, HandlePubcomp(env, now, d, id));
      case InPubrec(id, rc) =>
        PubrecKeepsLink(d, id, rc);
        QuietOutbound(st, client, Flushed(HandlePubrec(d, id, rc), 0));
      case InPubrel(id) =>
    }
  }

  // Steps that only move messages.
  predicate Moves(ev: Event) {
    match ev
    case Packet(_, _, i) => IsAck(i) || i.InPublish? || i.InDisconnect?
    case Work(task, _) => task.Fire?
    case InjectMessage(_, _, _) => true
    case Sys(_, _, _) => true
    case PurgeRetained => true
    case Wire(_, _) => true
    case _ => false
  }

  lemma {:induction false} QuietFire(env: Env, now: nat, st: State, m: Message, publisher: Option<string>,
                                     o: RouteOrder)
    requires ValidFor(env, Retain(st, m), Publication(m, publisher), o)
    ensures Quiet(st, RouteIn(env, now, Retain(st, m), Publication(m, publisher), o))
  {
    QuietRetain(st, m);
    QuietRoute(env, now, Retain(st, m), Publication(m, publisher), o);
    QuietTrans(st, Retain(st, m), RouteIn(env, now, Retain(st, m), Publication(m, publisher), o));
  }

  lemma {:induction false} MovesAreQuiet(env: Env, n: Node, t: TimedEvent)
    requires Enabled(env, n, t) && Moves(t.ev)
    ensures Quiet(n.st, NextState(env, n, t))
  {
    match t.ev
    case Packet(client, epoch, i) =>
      match i {
        case InPublish(p, order) => QuietPublish(env, t.now, n.st, client, epoch, p, order);
        case InDisconnect(_) =>
        case _ => QuietAck(env, t.now, n.st, client, epoch, i);
      }
    case Work(task, order) =>
      if Fires(env, n.st, t.ev) { QuietFire(env, t.now, n.st, task.will.message, None, order); }
    case InjectMessage(client, m, order) => QuietFire(env, t.now, n.st, m, Some(client), order);
    case Sys(topic, payload, order) =>
      var st1 := n.st.(retained := n.st.retained[topic := SysMessage(topic, payload)]);
      QuietRoute(env, t.now, st1, Publication(SysMessage(topic, payload), None), order);
      QuietTrans(n.st, st1, NextState(env, n, t));
    case PurgeRetained =>
    case Wire(client, ev) => QuietWire(env, t.now, n.st, client, ev);
  }

  lemma {:induction false} QuietWire(env: Env, now: nat, st: State, client: string, ev: SessionRuns.Event)
    requires client in st.sessions && (ev.Drain? || ev.ReceiverGone?) && SessionRuns.Enabled(st.sessions[client].d, ev)
    ensures Quiet(st, OnOutbound(st, client, SessionRuns.Step(env, now, st.sessions[client].d, ev)))
  {
  }
}
