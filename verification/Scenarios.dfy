// Runs of a broker that has just started on an empty database, showing that
// the exceptions to what one would expect really occur.

module Scenarios {
  import opened Types
  import opened Delivery
  import opened Router
  import opened Storage
  import opened Broker
  import opened BrokerRuns
  import opened DiskRows
  import opened Persistence
  import Reload
  import Projection = SessionProjection

  // Filters match themselves and have no share; every packet is ten bytes.
  const DEMO := Env((f, t) => f == t, raw => Some(ParsedFilter(None, raw)), raw => true, name => true, p => Some(10),
                    0, ExactlyOnce, true, 10, 100)

  const PERMISSIVE := Acl(false, true, [])

  const BOOT := Node(0, State(map[], map[], map[], 1, [], PERMISSIVE, 0), {}, {}, multiset{}, [], {}, [], {}, {})

  // A CONNECT of client "c" that keeps its session and asks for this expiry.
  function Request(expiry: nat): ConnectRequest {
    ConnectRequest("c", false, false, true, Some(expiry), None, None, None, None, Channel(16, [], true),
                   ResumeOrder([], [], []))
  }

  function Dial(expiry: nat): TimedEvent {
    At(0, Connect(Request(expiry)))
  }

  // Nothing is queued or in flight.
  ghost predicate Idle(d: Outbound) {
    d.queue == [] && d.puback == map[] && d.pubrec == map[] && d.pubcomp == {}
  }

  // The node knows client "c", if at all, as an anonymous idle one.
  ghost predicate Calm(n: Node) {
    && n.clock == 0 && n.st.acl == PERMISSIVE
    && n.st.sessions.Keys <= {"c"} && n.st.retained == map[]
    && ("c" in n.st.sessions ==> n.st.sessions["c"].identity == None && Idle(n.st.sessions["c"].d))
  }

  ghost function SessionBefore(n: Node): Session {
    if "c" in n.st.sessions then n.st.sessions["c"] else NewSession(0)
  }

  lemma {:induction false} NotReserved()
    ensures !Reserved("c")
  {
    assert |"$bridge/"| > |"c"| && |"$SYS/"| > |"c"|;
  }

  lemma {:induction false} DialReady(n: Node, expiry: nat)
    requires Calm(n) && expiry <= 100
    ensures ConnectReady(DEMO, n.st, Request(expiry)) && Acceptable(DEMO, n.st, Request(expiry))
    ensures var s := ConnectedSession(DEMO, n.st, Request(expiry));
      && Idle(s.d) && Online(s.d)
      && s.epoch == n.st.nextEpoch && s.identity == None && s.expiry == expiry && s.persistent == (expiry > 0)
      && s.subs == SessionBefore(n).subs && s.aliases == SessionBefore(n).aliases
  {
    NotReserved();
  }

  // What dialling does to an idle client.
  lemma {:induction false} Dialled(n: Node, expiry: nat)
    requires Calm(n) && expiry <= 100
    ensures Enabled(DEMO, n, Dial(expiry))
    ensures var n' := Step(DEMO, n, Dial(expiry));
      && Calm(n') && "c" in n'.st.sessions
      && n'.st.nextEpoch == n.st.nextEpoch + 1 && ("c", n.st.nextEpoch) in n'.conns && n'.tasks == n.tasks
      && n'.st == HandleConnect(DEMO, 0, n.st, Request(expiry))
      && ("c" !in n.st.sessions && n.switched == {} ==> n'.switched == {})
      && var s := n'.st.sessions["c"];
      && s.epoch == n.st.nextEpoch && s.expiry == expiry && s.persistent == (expiry > 0) && Online(s.d)
      && s.subs == SessionBefore(n).subs && s.aliases == SessionBefore(n).aliases
  {
    DialReady(n, expiry);
    var q := Request(expiry);
    var s := ConnectedSession(DEMO, n.st, q);
    Projection.FreshResume(DEMO, 0, s.d, q.order);
    assert Opening(DEMO, 0, n.st, q).d == s.d;
    assert HandleConnect(DEMO, 0, n.st, q).sessions == n.st.sessions["c" := s];
  }

  lemma {:induction false} PlayCons(n: Node, a: TimedEvent, rest: seq<TimedEvent>)
    ensures Play(DEMO, n, [a] + rest) == Play(DEMO, Step(DEMO, n, a), rest)
  {
    assert ([a] + rest)[1..] == rest;
  }

  // -------------------------------------------------------------------------
  // A superseded DISCONNECT sets the expiry of the connection that replaced it
  // -------------------------------------------------------------------------

  const LATE := Update("c", 1, 50)

  const BYE := At(0, Event.Packet("c", 1, InDisconnect(50)))
  const UPDATE := At(0, Work(LATE, RouteOrder([], [])))

  function StaleDisconnect(): seq<TimedEvent> {
    [Dial(10)] + ([BYE] + ([Dial(20)] + ([UPDATE] + [])))
  }

  lemma {:induction false} Disconnecting(n: Node)
    requires Calm(n) && ("c", 1) in n.conns && Current(n.st, "c", 1)
    ensures var n' := Step(DEMO, n, BYE);
      n'.st == n.st && n'.clock == 0 && n'.tasks == n.tasks + {LATE}
  {
  }

  lemma {:induction false} Updating(n: Node)
    requires Calm(n) && LATE in n.tasks && "c" in n.st.sessions
    ensures var n' := Step(DEMO, n, UPDATE);
      "c" in n'.st.sessions && n'.st.sessions["c"] == n.st.sessions["c"].(expiry := 50)
  {
    assert NextState(DEMO, n, UPDATE) == UpdateExpiry(DEMO, n.st, "c", 50);
  }

  ghost predicate Overruled(n: Node) {
    "c" in n.st.sessions && n.st.sessions["c"].epoch == 2 && n.st.sessions["c"].expiry == 50
  }

  lemma {:induction false} AfterTakeover(n: Node)
    requires Calm(n) && LATE in n.tasks && "c" in n.st.sessions && n.st.sessions["c"].epoch == 2
    ensures Overruled(Play(DEMO, n, [UPDATE] + []))
  {
    PlayCons(n, UPDATE, []);
    Updating(n);
  }

  lemma {:induction false} AfterDisconnect(n: Node)
    requires Calm(n) && LATE in n.tasks && n.st.nextEpoch == 2
    ensures Overruled(Play(DEMO, n, [Dial(20)] + ([UPDATE] + [])))
  {
    PlayCons(n, Dial(20), [UPDATE] + []);
    Dialled(n, 20);
    AfterTakeover(Step(DEMO, n, Dial(20)));
  }

  lemma {:induction false} AfterConnect(n: Node)
    requires Calm(n) && ("c", 1) in n.conns && Current(n.st, "c", 1) && n.st.nextEpoch == 2
    ensures Overruled(Play(DEMO, n, [BYE] + ([Dial(20)] + ([UPDATE] + []))))
  {
    PlayCons(n, BYE, [Dial(20)] + ([UPDATE] + []));
    Disconnecting(n);
    AfterDisconnect(Step(DEMO, n, BYE));
  }

  // The second connection asked for 20 and ends up with the 50 of the first.
  lemma {:induction false} StaleDisconnectHappens()
    ensures Booted(BOOT) && Overruled(Play(DEMO, BOOT, StaleDisconnect()))
  {
    PlayCons(BOOT, Dial(10), [BYE] + ([Dial(20)] + ([UPDATE] + [])));
    Dialled(BOOT, 10);
    AfterConnect(Step(DEMO, BOOT, Dial(10)));
  }

  // -------------------------------------------------------------------------
  // A takeover keeps the topic aliases of the connection it replaces
  // -------------------------------------------------------------------------

  const ALIASED := InPublish.InPublish(AtMostOnce, false, "t", None, Some(1), [], "", None)

  const ALIAS := At(0, Event.Packet("c", 1, Inbound.InPublish(ALIASED, RouteOrder(["c"], []))))

  function AliasTakeover(): seq<TimedEvent> {
    [Dial(10)] + ([ALIAS] + ([Dial(10)] + []))
  }

  // Without subscriptions a message goes nowhere.
  lemma {:induction false} NobodyListens(sessions: map<string, Session>, rr: map<Group, nat>, pub: Publication)
    requires sessions.Keys == {"c"} && sessions["c"].subs == []
    ensures ValidRoute(DEMO, pub, sessions, RouteOrder(["c"], []))
    ensures Route(DEMO, 0, pub, sessions, rr, RouteOrder(["c"], [])).sessions == sessions
  {
    assert Groups(DEMO, pub, sessions) == {};
    assert ["c"][..0] == [];
    assert OrdinaryPlan(DEMO, pub, sessions, ["c"]) == [];
    assert Plan(DEMO, pub, sessions, rr, RouteOrder(["c"], [])) == [];
  }

  lemma {:induction false} Aliasing(n: Node)
    requires Calm(n) && ("c", 1) in n.conns && Current(n.st, "c", 1) && n.st.sessions["c"].subs == []
    ensures var n' := Step(DEMO, n, ALIAS);
      Calm(n') && n'.st.nextEpoch == n.st.nextEpoch
      && "c" in n'.st.sessions && n'.st.sessions["c"].aliases == n.st.sessions["c"].aliases[1 := "t"]
  {
    var s, o := n.st.sessions["c"], RouteOrder(["c"], []);
    var s1 := s.(aliases := s.aliases[1 := "t"]);
    var st1 := PutSession(n.st, "c", s1);
    var m := FromPublish(ALIASED, 0);
    var pub := Publication(m, Some("c"));
    NobodyListens(n.st.sessions, n.st.rr, pub);
    NobodyListens(st1.sessions, n.st.rr, pub);
    assert !("$SYS/" <= "t") by { assert |"$SYS/"| > |"t"|; }
    assert Publish1(DEMO, 0, st1, "c", ALIASED, o) == RouteIn(DEMO, 0, st1, pub, o);
    assert HandlePublish(DEMO, 0, n.st, "c", 1, ALIASED, o).st == RouteIn(DEMO, 0, st1, pub, o);
  }

  ghost predicate KeepsAlias(n: Node) {
    "c" in n.st.sessions && n.st.sessions["c"].epoch == 2 && n.st.sessions["c"].aliases == map[1 := "t"]
  }

  lemma {:induction false} AfterAlias(n: Node)
    requires Calm(n) && n.st.nextEpoch == 2 && "c" in n.st.sessions && n.st.sessions["c"].aliases == map[1 := "t"]
    ensures KeepsAlias(Play(DEMO, n, [Dial(10)] + []))
  {
    PlayCons(n, Dial(10), []);
    Dialled(n, 10);
  }

  lemma {:induction false} BeforeAlias(n: Node)
    requires Calm(n) && ("c", 1) in n.conns && Current(n.st, "c", 1) && n.st.nextEpoch == 2
    requires n.st.sessions["c"].subs == [] && n.st.sessions["c"].aliases == map[]
    ensures KeepsAlias(Play(DEMO, n, [ALIAS] + ([Dial(10)] + [])))
  {
    PlayCons(n, ALIAS, [Dial(10)] + []);
    Aliasing(n);
    AfterAlias(Step(DEMO, n, ALIAS));
  }

  // The second connection still resolves alias 1 to the first one's topic.
  lemma {:induction false} AliasTakeoverHappens()
    ensures Booted(BOOT) && KeepsAlias(Play(DEMO, BOOT, AliasTakeover()))
  {
    PlayCons(BOOT, Dial(10), [ALIAS] + ([Dial(10)] + []));
    Dialled(BOOT, 10);
    BeforeAlias(Step(DEMO, BOOT, Dial(10)));
  }

  // -------------------------------------------------------------------------
  // Switching between persistent and not across a resume
  // -------------------------------------------------------------------------

  const FILTER := SubFilter("t", AtLeastOnce, false, false, DoNotSend)
  const SUB := Subscription("t", None, AtLeastOnce, false, false, None)

  const SUBSCRIBE := At(0, Event.Packet("c", 1, InSubscribe(7, None, [FILTER], [])))

  function SwitchOn(): seq<TimedEvent> {
    [Dial(0)] + ([SUBSCRIBE] + ([Dial(10)] + []))
  }

  lemma {:induction false} Subscribing(n: Node)
    requires Calm(n) && ("c", 1) in n.conns && Current(n.st, "c", 1)
    requires n.st.sessions["c"].subs == [] && !n.st.sessions["c"].persistent
    ensures var n' := Step(DEMO, n, SUBSCRIBE);
      && Enabled(DEMO, n, SUBSCRIBE)
      && Calm(n') && n'.st.nextEpoch == n.st.nextEpoch && n'.switched == n.switched
      && "c" in n'.st.sessions && n'.st.sessions["c"].subs == [SUB] && !n'.st.sessions["c"].persistent
  {
    var s := n.st.sessions["c"];
    var cx, acc0 := ContextOf(n.st, "c", None, []), SubAcc(s.subs, [], [], []);
    assert [FILTER][..0] == [];
    assert SubscribeAll(DEMO, 0, cx, acc0, []) == acc0;
    var acc := SubscribeOne(DEMO, 0, cx, acc0, FILTER);
    assert SubscribeAll(DEMO, 0, cx, acc0, [FILTER]) == acc;
    assert acc.subs == [SUB] && acc.cmds == [] && acc.sends == [];
  }

  ghost predicate Disagree(st: State) {
    !Agree(DEMO, "c", DiskAt(EMPTY, st, "c"), SessionOf(st, "c"), false)
  }

  // The session is persistent and holds a subscription the database lacks.
  ghost predicate Forgotten(st: State) {
    && "c" in st.sessions && st.sessions["c"].persistent && st.sessions["c"].subs == [SUB]
    && DiskAt(EMPTY, st, "c") == Disk(Some(Row(10, None)), map[])
    && Disagree(st)
  }

  lemma {:induction false} AfterSubscribe(n: Node)
    requires Calm(n) && "c" in n.st.sessions && n.st.sessions["c"].subs == [SUB] && !n.st.sessions["c"].persistent
    requires SessionsAgree(DEMO, EMPTY, n) && n.switched == {}
    ensures Forgotten(Play(DEMO, n, [Dial(10)] + []).st)
  {
    PlayCons(n, Dial(10), []);
    Dialled(n, 10);
    assert Agree(DEMO, "c", DiskAt(EMPTY, n.st, "c"), SessionOf(n.st, "c"), "c" in n.switched);
    SwitchedOn(n);
  }

  lemma {:induction false} BeforeSubscribe(n: Node)
    requires Calm(n) && ("c", 1) in n.conns && Current(n.st, "c", 1)
    requires n.st.sessions["c"].subs == [] && !n.st.sessions["c"].persistent
    requires SessionsAgree(DEMO, EMPTY, n) && n.switched == {}
    ensures Forgotten(Play(DEMO, n, [SUBSCRIBE] + ([Dial(10)] + [])).st)
  {
    PlayCons(n, SUBSCRIBE, [Dial(10)] + []);
    Subscribing(n);
    CanonicalDemo();
    Reload.StepKeepsSessions(DEMO, EMPTY, n, SUBSCRIBE);
    AfterSubscribe(Step(DEMO, n, SUBSCRIBE));
  }

  lemma {:induction false} SwitchOnHappens()
    ensures Booted(BOOT) && Forgotten(Play(DEMO, BOOT, SwitchOn()).st)
  {
    PlayCons(BOOT, Dial(0), [SUBSCRIBE] + ([Dial(10)] + []));
    Dialled(BOOT, 0);
    BootAgrees();
    CanonicalDemo();
    Reload.StepKeepsSessions(DEMO, EMPTY, BOOT, Dial(0));
    BeforeSubscribe(Step(DEMO, BOOT, Dial(0)));
  }

  lemma {:induction false} CanonicalDemo()
    ensures ParseCanonical(DEMO)
  {
  }

  lemma {:induction false} BootAgrees()
    ensures SessionsAgree(DEMO, EMPTY, BOOT)
  {
    assert AppliedAll(EMPTY, []) == EMPTY;
    forall c ensures Agree(DEMO, c, DiskAt(EMPTY, BOOT.st, c), SessionOf(BOOT.st, c), false) {
      assert DiskOf(EMPTY, c) == Disk(None, map[]);
    }
  }

  lemma {:induction false} SwitchedOn(n: Node)
    requires Calm(n) && "c" in n.st.sessions && n.st.sessions["c"].subs == [SUB] && !n.st.sessions["c"].persistent
    requires Agree(DEMO, "c", DiskAt(EMPTY, n.st, "c"), SessionOf(n.st, "c"), false)
    ensures var st := HandleConnect(DEMO, 0, n.st, Request(10));
      && DiskAt(EMPTY, st, "c") == Disk(Some(Row(10, None)), map[])
      && !Agree(DEMO, "c", DiskAt(EMPTY, st, "c"), SessionOf(st, "c"), false)
  {
    CanonicalDemo();
    DialReady(n, 10);
    Reload.SwitchOnForgetsSubscriptions(DEMO, EMPTY, 0, n.st, Request(10));
    Reload.ConnectAgreesExactly(DEMO, EMPTY, 0, n.st, Request(10));
  }

  function SwitchOff(): seq<TimedEvent> {
    [Dial(10)] + ([Dial(0)] + [])
  }

  // The session is not persistent, yet its old row is still there.
  ghost predicate LeftBehind(st: State) {
    && "c" in st.sessions && !st.sessions["c"].persistent
    && DiskAt(EMPTY, st, "c").row == Some(Row(10, None))
    && Disagree(st)
  }

  lemma {:induction false} AfterPersistent(n: Node)
    requires Calm(n) && "c" in n.st.sessions && n.st.sessions["c"].persistent && n.st.sessions["c"].expiry == 10
    requires SessionsAgree(DEMO, EMPTY, n) && n.switched == {}
    ensures LeftBehind(Play(DEMO, n, [Dial(0)] + []).st)
  {
    PlayCons(n, Dial(0), []);
    Dialled(n, 0);
    assert Agree(DEMO, "c", DiskAt(EMPTY, n.st, "c"), SessionOf(n.st, "c"), "c" in n.switched);
    SwitchedOff(n);
  }

  lemma {:induction false} SwitchOffHappens()
    ensures Booted(BOOT) && LeftBehind(Play(DEMO, BOOT, SwitchOff()).st)
  {
    PlayCons(BOOT, Dial(10), [Dial(0)] + []);
    Dialled(BOOT, 10);
    BootAgrees();
    CanonicalDemo();
    Reload.StepKeepsSessions(DEMO, EMPTY, BOOT, Dial(10));
    AfterPersistent(Step(DEMO, BOOT, Dial(10)));
  }

  lemma {:induction false} SwitchedOff(n: Node)
    requires Calm(n) && "c" in n.st.sessions && n.st.sessions["c"].persistent && n.st.sessions["c"].expiry == 10
    requires Agree(DEMO, "c", DiskAt(EMPTY, n.st, "c"), SessionOf(n.st, "c"), false)
    ensures var st := HandleConnect(DEMO, 0, n.st, Request(0));
      && DiskAt(EMPTY, st, "c").row == Some(Row(10, None))
      && !Agree(DEMO, "c", DiskAt(EMPTY, st, "c"), SessionOf(st, "c"), false)
  {
    CanonicalDemo();
    DialReady(n, 0);
    Reload.SwitchOffKeepsRow(DEMO, EMPTY, 0, n.st, Request(0));
    Reload.ConnectAgreesExactly(DEMO, EMPTY, 0, n.st, Request(0));
  }
}
