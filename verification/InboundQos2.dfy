// Inbound QoS 2: over any run of duplicates, reconnects and takeovers, a
// packet identifier is routed exactly as often as it enters the pending set,
// so at most once between two PUBRELs for it. The inbound half of a bridge
// keeps the same property within one remote connection.

module InboundQos2 {
  import opened Types
  import opened Delivery
  import opened Router
  import opened Broker
  import opened BrokerRuns

  // -------------------------------------------------------------------------
  // Histories of identifiers
  // -------------------------------------------------------------------------

  predicate Concerns(m: Mark, client: string, id: nat) {
    m == Entered(client, id) || m == Left(client, id) || m == Ended(client)
  }

  // The latest mark concerning the identifier is its entry.
  predicate Holds(marks: seq<Mark>, client: string, id: nat) {
    if marks == [] then false
    else if Concerns(marks[|marks| - 1], client, id) then marks[|marks| - 1] == Entered(client, id)
    else Holds(marks[..|marks| - 1], client, id)
  }

  // Every entry found the identifier free.
  ghost predicate Alternates(marks: seq<Mark>) {
    forall i :: 0 <= i < |marks| && marks[i].Entered? ==> !Holds(marks[..i], marks[i].client, marks[i].id)
  }

  // Between two entries of one identifier it left, or the session ended.
  ghost predicate Separated(marks: seq<Mark>, client: string, id: nat) {
    forall i, j :: 0 <= i < j < |marks| && marks[i] == Entered(client, id) && marks[j] == Entered(client, id) ==>
      exists k :: i < k < j && (marks[k] == Left(client, id) || marks[k] == Ended(client))
  }

  lemma {:induction false} HeldUntilReleased(marks: seq<Mark>, client: string, id: nat, i: nat)
    requires i < |marks| && marks[i] == Entered(client, id)
    requires forall k :: i < k < |marks| ==> marks[k] != Left(client, id) && marks[k] != Ended(client)
    ensures Holds(marks, client, id)
  {
    var n := |marks| - 1;
    if !Concerns(marks[n], client, id) { HeldUntilReleased(marks[..n], client, id, i); }
  }

  lemma {:induction false} AlternationSeparates(marks: seq<Mark>, client: string, id: nat)
    requires Alternates(marks)
    ensures Separated(marks, client, id)
  {
    forall i, j | 0 <= i < j < |marks| && marks[i] == Entered(client, id) && marks[j] == Entered(client, id)
      ensures exists k :: i < k < j && (marks[k] == Left(client, id) || marks[k] == Ended(client))
    {
      if forall k :: i < k < j ==> marks[k] != Left(client, id) && marks[k] != Ended(client) {
        HeldUntilReleased(marks[..j], client, id, i);
      }
    }
  }

  lemma {:induction false} HoldsSnoc(marks: seq<Mark>, m: Mark, client: string, id: nat)
    ensures Holds(marks + [m], client, id) == if Concerns(m, client, id) then m == Entered(client, id)
            else Holds(marks, client, id)
  {
    assert (marks + [m])[..|marks|] == marks;
  }

  lemma {:induction false} AlternatesSnoc(marks: seq<Mark>, m: Mark)
    requires Alternates(marks) && (m.Entered? ==> !Holds(marks, m.client, m.id))
    ensures Alternates(marks + [m])
  {
    var marks' := marks + [m];
    forall i | 0 <= i < |marks'| && marks'[i].Entered? ensures !Holds(marks'[..i], marks'[i].client, marks'[i].id) {
      assert marks'[..i] == marks[..i];
      if i == |marks| { assert marks'[..i] == marks; }
    }
  }

  // -------------------------------------------------------------------------
  // What each step does to the pending sets
  // -------------------------------------------------------------------------

  // The pending set of `c` gains `add` and loses `gone`.
  ghost predicate Shifts(st: State, st': State, c: string, add: set<nat>, gone: set<nat>) {
    c in st.sessions && c in st'.sessions && st'.sessions[c].inboundQos2 == st.sessions[c].inboundQos2 + add - gone
  }

  // The groups a message reaches depend only on the subscriptions.
  lemma {:induction false} RouteStaysValid(env: Env, pub: Publication, a: map<string, Session>, b: map<string,
                                           Session>, o: RouteOrder)
    requires ValidRoute(env, pub, a, o) && a.Keys == b.Keys && forall c :: c in a ==> b[c].subs == a[c].subs
    ensures ValidRoute(env, pub, b, o)
  {
    assert Groups(env, pub, a) == Groups(env, pub, b);
  }

  // The two ways an authorised PUBLISH ends.
  lemma {:induction false} PublishParts(env: Env, now: nat, st: State, client: string, p: Broker.InPublish,
                                        o: RouteOrder)
    requires client in st.sessions
    requires ValidRoute(env, Publication(FromPublish(p, now), Some(client)), st.sessions, o)
    ensures var m := FromPublish(p, now);
      var st1, pub := Retain(st, m), Publication(m, Some(client));
      if Duplicate(st1, client, p) then Publish1(env, now, st, client, p, o) == Answer(st1, client, p, Success)
      else
        var st2 := Hold(st1, client, p);
        ValidFor(env, st2, pub, o)
        && Publish1(env, now, st, client, p, o)
           == Answer(RouteIn(env, now, st2, pub, o), client, p,
                     if Matched(env, now, st2, pub, o) then Success else NoMatchingSubscribers)
  {
    var m := FromPublish(p, now);
    var st1 := Retain(st, m);
    if !Duplicate(st1, client, p) {
      RouteStaysValid(env, Publication(m, Some(client)), st.sessions, Hold(st1, client, p).sessions, o);
    }
  }

  lemma {:induction false} AnswerShift(st: State, client: string, p: Broker.InPublish, rc: ReasonCode, c: string)
    requires c in st.sessions
    ensures Shifts(st, Answer(st, client, p, rc), c, {}, {})
  {
  }

  lemma {:induction false} RouteShift(env: Env, now: nat, st: State, pub: Publication, o: RouteOrder, c: string)
    requires ValidFor(env, st, pub, o) && c in st.sessions
    ensures Shifts(st, RouteIn(env, now, st, pub, o), c, {}, {})
  {
    QuietRoute(env, now, st, pub, o);
  }

  lemma {:induction false} Publish1Shift(env: Env, now: nat, st: State, client: string, p: Broker.InPublish,
                                         o: RouteOrder, c: string)
    requires client in st.sessions && c in st.sessions
    requires ValidRoute(env, Publication(FromPublish(p, now), Some(client)), st.sessions, o)
    ensures Shifts(st, Publish1(env, now, st, client, p, o), c,
                   if c == client && p.qos == ExactlyOnce then {PacketId(p)} else {}, {})
  {
    var m := FromPublish(p, now);
    var st1 := Retain(st, m);
    if Duplicate(st1, client, p) {
      AnswerShift(st1, client, p, Success, c);
    } else {
      var st2 := Hold(st1, client, p);
      var pub := Publication(m, Some(client));
      RouteStaysValid(env, pub, st.sessions, st2.sessions, o);
      HoldShift(st1, client, p, c);
      RouteShift(env, now, st2, pub, o, c);
      AnswerShift(RouteIn(env, now, st2, pub, o), client, p,
                  if Matched(env, now, st2, pub, o) then Success else NoMatchingSubscribers, c);
    }
  }

  lemma {:induction false} HoldShift(st: State, client: string, p: Broker.InPublish, c: string)
    requires client in st.sessions && c in st.sessions
    ensures Shifts(st, Hold(st, client, p), c, if c == client && p.qos == ExactlyOnce then {PacketId(p)} else {}, {})
  {
  }

  lemma {:induction false} RefusedShift(st: State, client: string, p: Broker.InPublish, st1: State, st': State,
                                        c: string)
    requires OnlyRefused(st, client, p, st1, st') && Shifts(st, st1, c, {}, {})
    ensures Shifts(st, st', c, {}, {})
  {
  }

  lemma {:induction false} PublishShift(env: Env, now: nat, st: State, client: string, epoch: nat, p: Broker.InPublish,
                                        o: RouteOrder, c: string)
    requires c in st.sessions && Current(st, client, epoch) && PublishReady(env, now, st, client, p, o)
    ensures Shifts(st, HandlePublish(env, now, st, client, epoch, p, o).st, c,
                   if Taken(env, st, client, p) && p.qos == ExactlyOnce && c == client then {PacketId(p)} else {}, {})
  {
    PublishOutcome(env, now, st, client, epoch, p, o);
    var st1 := Aliased(env, st, client, p);
    if Taken(env, st, client, p) {
      var p1 := p.(topic := ResolveAlias(env, st.sessions[client].aliases, p).name);
      RouteStaysValid(env, Publication(FromPublish(p1, now), Some(client)), st.sessions, st1.sessions, o);
      Publish1Shift(env, now, st1, client, p1, o, c);
    } else {
      RefusedShift(st, client, p, st1, HandlePublish(env, now, st, client, epoch, p, o).st, c);
    }
  }

  lemma {:induction false} EntersExactly(env: Env, n: Node, t: TimedEvent, c: string)
    requires Enabled(env, n, t) && t.ev.Packet? && t.ev.inbound.InPublish? && c in n.st.sessions
    ensures Shifts(n.st, NextState(env, n, t), c,
                   if RoutesInbound(env, n.st, t.ev) && c == t.ev.client then {PacketId(t.ev.inbound.p)} else {}, {})
  {
    if Current(n.st, t.ev.client, t.ev.epoch) {
      PublishShift(env, t.now, n.st, t.ev.client, t.ev.epoch, t.ev.inbound.p, t.ev.inbound.order, c);
    }
  }

  ghost predicate ReleasedBy(st: State, ev: Event, c: string) {
    ev.Packet? && ev.inbound.InPubrel? && Current(st, ev.client, ev.epoch) && ev.client == c
  }

  lemma {:induction false} PacketShift(env: Env, n: Node, t: TimedEvent, c: string)
    requires Enabled(env, n, t) && t.ev.Packet? && !t.ev.inbound.InPublish? && c in n.st.sessions
    ensures Shifts(n.st, NextState(env, n, t), c, {}, if ReleasedBy(n.st, t.ev, c) then {t.ev.inbound.id} else {})
  {
    InboundShift(env, t.now, n.st, t.ev.client, t.ev.epoch, t.ev.inbound, c);
  }

  // Of the other packets only a PUBREL touches a pending set, and only its own
  // client's.
  lemma {:induction false} InboundShift(env: Env, now: nat, st: State, client: string, epoch: nat, i: Inbound,
                                        c: string)
    requires !i.InPublish? && c in st.sessions
    ensures Shifts(st, HandleInbound(env, now, st, client, epoch, i), c, {},
                   if i.InPubrel? && Current(st, client, epoch) && c == client then {i.id} else {})
  {
    if Current(st, client, epoch) {
      match i
      case InPuback(id) => OutboundShift(st, client, HandlePuback(env, now, st.sessions[client].d, id), c);
      case InPubrec(id, rc) => OutboundShift(st, client, Flushed(HandlePubrec(st.sessions[client].d, id, rc), 0), c);
      case InPubcomp(id) => OutboundShift(st, client, HandlePubcomp(env, now, st.sessions[client].d, id), c);
      case InPubrel(_) =>
      case InSubscribe(_, _, _, _) =>
      case InUnsubscribe(_, _) =>
      case InDisconnect(_) =>
    }
  }

  lemma {:induction false} OutboundShift(st: State, client: string, r: Flushed, c: string)
    requires client in st.sessions && c in st.sessions
    ensures Shifts(st, OnOutbound(st, client, r), c, {}, {})
  {
  }

  lemma {:induction false} RouteWorkShift(env: Env, now: nat, st: State, m: Message, publisher: Option<string>,
                                          o: RouteOrder, c: string)
    requires ValidFor(env, Retain(st, m), Publication(m, publisher), o) && c in st.sessions
    ensures Shifts(st, RouteIn(env, now, Retain(st, m), Publication(m, publisher), o), c, {}, {})
  {
    RouteShift(env, now, Retain(st, m), Publication(m, publisher), o, c);
  }

  // The client whose session the step starts afresh.
  ghost function Fresh(env: Env, st: State, ev: Event): Option<string> {
    if ev.Connect? && Acceptable(env, st, ev.c) && !Present(st, ev.c) then Some(ev.c.client)
    else if ev.Register? then Some(ev.client)
    else None
  }

  lemma {:induction false} FreshIsEmpty(env: Env, n: Node, t: TimedEvent, c: string)
    requires Enabled(env, n, t) && Fresh(env, n.st, t.ev) == Some(c)
    ensures c in NextState(env, n, t).sessions && NextState(env, n, t).sessions[c].inboundQos2 == {}
  {
    match t.ev
    case Connect(q) => NewIsEmpty(env, t.now, n.st, q);
    case Register(client, out) =>
  }

  lemma {:induction false} NewIsEmpty(env: Env, now: nat, st: State, q: ConnectRequest)
    requires ConnectReady(env, st, q) && Acceptable(env, st, q) && !Present(st, q)
    ensures var st' := HandleConnect(env, now, st, q);
      q.client in st'.sessions && st'.sessions[q.client].inboundQos2 == {}
  {
  }

  lemma {:induction false} MovesShift(env: Env, n: Node, t: TimedEvent, c: string)
    requires Enabled(env, n, t) && !t.ev.Packet? && Moves(t.ev) && c in n.st.sessions
    ensures Shifts(n.st, NextState(env, n, t), c, {}, {})
  {
    match t.ev
    case Work(task, order) =>
      if Fires(env, n.st, t.ev) { RouteWorkShift(env, t.now, n.st, task.will.message, None, order, c); }
    case InjectMessage(client, m, order) => RouteWorkShift(env, t.now, n.st, m, Some(client), order, c);
    case Sys(topic, payload, order) =>
      var m := SysMessage(topic, payload);
      RouteShift(env, t.now, n.st.(retained := n.st.retained[topic := m]), Publication(m, None), order, c);
    case _ =>
  }

  lemma {:induction false} OtherShift(env: Env, n: Node, t: TimedEvent, c: string)
    requires Enabled(env, n, t) && !t.ev.Packet? && c in NextState(env, n, t).sessions
    requires Fresh(env, n.st, t.ev) != Some(c)
    ensures Shifts(n.st, NextState(env, n, t), c, {}, {})
  {
    if Moves(t.ev) {
      MovesAreQuiet(env, n, t);
      MovesShift(env, n, t, c);
    } else {
      match t.ev
      case Connect(q) => if Acceptable(env, n.st, q) { ConnectShift(env, t.now, n.st, q, c); }
      case RevokePass(acl, clients) => RevokeShift(env, n.st, acl, clients, c);
      case _ =>
    }
  }

  lemma {:induction false} ConnectShift(env: Env, now: nat, st: State, q: ConnectRequest, c: string)
    requires ConnectReady(env, st, q) && Acceptable(env, st, q) && c in HandleConnect(env, now, st, q).sessions
    requires c == q.client ==> Present(st, q)
    ensures Shifts(st, HandleConnect(env, now, st, q), c, {}, {})
  {
  }

  lemma {:induction false} RevokeShift(env: Env, st: State, acl: Acl, order: seq<string>, c: string)
    requires c in st.sessions
    ensures Shifts(st, Revoke(env, st, acl, order), c, {}, {})
  {
  }

  // -------------------------------------------------------------------------
  // Runs
  // -------------------------------------------------------------------------

  // The pending sets are exactly what the history of marks says.
  ghost predicate Matches(st: State, marks: seq<Mark>) {
    forall c, id :: c in st.sessions ==> (id in st.sessions[c].inboundQos2 <==> Holds(marks, c, id))
  }

  ghost predicate MarkInv(n: Node) {
    Matches(n.st, n.marks) && Alternates(n.marks)
  }

  lemma {:induction false} Unmarked(st: State, st': State, marks: seq<Mark>)
    requires Matches(st, marks) && forall c :: c in st'.sessions ==> Shifts(st, st', c, {}, {})
    ensures Matches(st', marks)
  {
    forall c, id | c in st'.sessions ensures id in st'.sessions[c].inboundQos2 <==> Holds(marks, c, id) {
      assert Shifts(st, st', c, {}, {});
    }
  }

  lemma {:induction false} EnteredStep(st: State, st': State, marks: seq<Mark>, client: string, id: nat)
    requires Matches(st, marks)
    requires forall c :: c in st'.sessions ==> Shifts(st, st', c, if c == client then {id} else {}, {})
    ensures Matches(st', marks + [Entered(client, id)])
  {
    forall c, i | c in st'.sessions
      ensures i in st'.sessions[c].inboundQos2 <==> Holds(marks + [Entered(client, id)], c, i)
    {
      assert Shifts(st, st', c, if c == client then {id} else {}, {});
      HoldsSnoc(marks, Entered(client, id), c, i);
    }
  }

  lemma {:induction false} LeftStep(st: State, st': State, marks: seq<Mark>, client: string, id: nat)
    requires Matches(st, marks)
    requires forall c :: c in st'.sessions ==> Shifts(st, st', c, {}, if c == client then {id} else {})
    ensures Matches(st', marks + [Left(client, id)])
  {
    forall c, i | c in st'.sessions
      ensures i in st'.sessions[c].inboundQos2 <==> Holds(marks + [Left(client, id)], c, i)
    {
      assert Shifts(st, st', c, {}, if c == client then {id} else {});
      HoldsSnoc(marks, Left(client, id), c, i);
    }
  }

  lemma {:induction false} EndedStep(st: State, st': State, marks: seq<Mark>, client: string)
    requires Matches(st, marks) && client in st'.sessions && st'.sessions[client].inboundQos2 == {}
    requires forall c :: c in st'.sessions && c != client ==> Shifts(st, st', c, {}, {})
    ensures Matches(st', marks + [Ended(client)])
  {
    forall c, i | c in st'.sessions ensures i in st'.sessions[c].inboundQos2 <==> Holds(marks + [Ended(client)], c, i) {
      HoldsSnoc(marks, Ended(client), c, i);
      if c != client { assert Shifts(st, st', c, {}, {}); }
    }
  }

  lemma {:induction false} PacketKeepsMarks(env: Env, n: Node, t: TimedEvent)
    requires MarkInv(n) && Enabled(env, n, t) && t.ev.Packet?
    ensures Matches(NextState(env, n, t), n.marks + NewMarks(env, n.st, NextState(env, n, t), t.ev))
  {
    var st' := NextState(env, n, t);
    SamePeople(env, n, t);
    if t.ev.inbound.InPublish? {
      forall c | c in st'.sessions { EntersExactly(env, n, t, c); }
    } else {
      forall c | c in st'.sessions { PacketShift(env, n, t, c); }
    }
    if RoutesInbound(env, n.st, t.ev) {
      EnteredStep(n.st, st', n.marks, t.ev.client, PacketId(t.ev.inbound.p));
    } else if ReleasedBy(n.st, t.ev, t.ev.client) {
      LeftStep(n.st, st', n.marks, t.ev.client, t.ev.inbound.id);
    } else {
      Unmarked(n.st, st', n.marks);
      assert n.marks + [] == n.marks;
    }
  }

  lemma {:induction false} SamePeople(env: Env, n: Node, t: TimedEvent)
    requires Enabled(env, n, t) && t.ev.Packet?
    ensures NextState(env, n, t).sessions.Keys == n.st.sessions.Keys
  {
    if Moves(t.ev) { MovesAreQuiet(env, n, t); }
  }

  lemma {:induction false} OtherKeepsMarks(env: Env, n: Node, t: TimedEvent)
    requires MarkInv(n) && Enabled(env, n, t) && !t.ev.Packet?
    ensures Matches(NextState(env, n, t), n.marks + NewMarks(env, n.st, NextState(env, n, t), t.ev))
  {
    var st' := NextState(env, n, t);
    var started := Fresh(env, n.st, t.ev);
    forall c | c in st'.sessions && started != Some(c)
        ensures Shifts(n.st, st', c, {}, {}) { OtherShift(env, n, t, c); }
    if started.Some? {
      FreshIsEmpty(env, n, t, started.value);
      EndedStep(n.st, st', n.marks, started.value);
    } else {
      Unmarked(n.st, st', n.marks);
      assert n.marks + [] == n.marks;
    }
  }

  lemma {:induction false} StepKeepsMarkInv(env: Env, n: Node, t: TimedEvent)
    requires MarkInv(n) && Enabled(env, n, t)
    ensures MarkInv(NextNode(env, n, t))
  {
    if t.ev.Packet? { PacketKeepsMarks(env, n, t); } else { OtherKeepsMarks(env, n, t); }
    var more := NewMarks(env, n.st, NextState(env, n, t), t.ev);
    if more == [] { assert n.marks + more == n.marks; } else { AlternatesSnoc(n.marks, more[0]); }
  }

  lemma {:induction false} PlayKeepsMarkInv(env: Env, n: Node, run: seq<TimedEvent>)
    requires MarkInv(n)
    ensures MarkInv(Play(env, n, run))
    decreases |run|
  {
    if run != [] {
      if Enabled(env, n, run[0]) { StepKeepsMarkInv(env, n, run[0]); }
      PlayKeepsMarkInv(env, Step(env, n, run[0]), run[1..]);
    }
  }

  // Over every run, whatever duplicates, reconnects and takeovers it contains:
  // between two routings of one client's identifier there is a PUBREL for it or
  // the end of the session, and the pending set is exactly the identifiers
  // whose last routing has seen neither.
  lemma {:induction false} RoutedOncePerRelease(env: Env, n: Node, run: seq<TimedEvent>, client: string, id: nat)
    requires Booted(n)
    ensures var m := Play(env, n, run);
      && Separated(m.marks, client, id)
      && (client in m.st.sessions ==> (id in m.st.sessions[client].inboundQos2 <==> Holds(m.marks, client, id)))
  {
    forall c | c in n.st.sessions ensures n.st.sessions[c].inboundQos2
        == {} { assert RestoredSession(n.st.sessions[c]); }
    PlayKeepsMarkInv(env, n, run);
    AlternationSeparates(Play(env, n, run).marks, client, id);
  }

  // What a PUBLISH is routed as, and the state it is routed in: alias, retained
  // message and pending identifier recorded.
  ghost function Routing(env: Env, now: nat, st: State, client: string, p: Broker.InPublish): (State, Publication)
    requires client in st.sessions && Taken(env, st, client, p)
  {
    var m := FromPublish(p.(topic := ResolveAlias(env, st.sessions[client].aliases, p).name), now);
    (Hold(Retain(Aliased(env, st, client, p), m), client, p), Publication(m, Some(client)))
  }

  // A QoS 2 PUBLISH is routed, once, exactly when its identifier enters the
  // pending set: otherwise no other session and no cursor changes. Its retained
  // message is stored either way.
  lemma {:induction false} RoutedExactlyWhenEntered(env: Env, now: nat, st: State, client: string, epoch: nat,
                                                    p: Broker.InPublish, o: RouteOrder)
    requires Current(st, client, epoch) && p.qos == ExactlyOnce && PublishReady(env, now, st, client, p, o)
    ensures var st' := HandlePublish(env, now, st, client, epoch, p, o).st;
      if Taken(env, st, client, p) && PacketId(p) !in st.sessions[client].inboundQos2 then
        var (before, pub) := Routing(env, now, st, client, p);
        && ValidFor(env, before, pub, o)
        && st' == Answer(RouteIn(env, now, before, pub, o), client, p,
                         if Matched(env, now, before, pub, o) then Success else NoMatchingSubscribers)
      else st'.sessions - {client} == st.sessions - {client} && st'.rr == st.rr
  {
    PublishOutcome(env, now, st, client, epoch, p, o);
    if Taken(env, st, client, p) {
      var st1 := Aliased(env, st, client, p);
      var p1 := p.(topic := ResolveAlias(env, st.sessions[client].aliases, p).name);
      RouteStaysValid(env, Publication(FromPublish(p1, now), Some(client)), st.sessions, st1.sessions, o);
      PublishParts(env, now, st1, client, p1, o);
      RenamedHolds(Retain(st1, FromPublish(p1, now)), client, p, p1.topic);
      if PacketId(p) in st.sessions[client].inboundQos2 {
        DuplicateStaysHome(st, st1, client, p1, FromPublish(p1, now));
      }
    } else {
      RefusalStaysHome(env, st, client, p, HandlePublish(env, now, st, client, epoch, p, o).st);
    }
  }

  // Neither the pending set nor the answer depends on the topic.
  lemma {:induction false} RenamedHolds(st: State, client: string, p: Broker.InPublish, name: string)
    requires client in st.sessions
    ensures Hold(st, client, p.(topic := name)) == Hold(st, client, p)
    ensures Duplicate(st, client, p.(topic := name)) == Duplicate(st, client, p)
    ensures forall st', rc :: Answer(st', client, p.(topic := name), rc) == Answer(st', client, p, rc)
  {
  }

  lemma {:induction false} DuplicateStaysHome(st: State, st1: State, client: string, p: Broker.InPublish, m: Message)
    requires st1.sessions - {client} == st.sessions - {client} && st1.rr == st.rr
    ensures var st' := Answer(Retain(st1, m), client, p, Success);
      st'.sessions - {client} == st.sessions - {client} && st'.rr == st.rr
  {
  }

  lemma {:induction false} RefusalStaysHome(env: Env, st: State, client: string, p: Broker.InPublish, st': State)
    requires client in st.sessions && OnlyRefused(st, client, p, Aliased(env, st, client, p), st')
    ensures st'.sessions - {client} == st.sessions - {client} && st'.rr == st.rr
  {
  }
}
