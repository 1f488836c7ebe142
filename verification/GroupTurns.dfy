// Round-robin over whole runs of the broker: whatever happens between them, the
// messages a shared group receives go round its members in turn.

module GroupTurns {
  import opened Types
  import opened Router
  import opened Fairness
  import opened Posts
  import B = Broker
  import R = BrokerRuns

  // The routing has a delivery for the group.
  ghost predicate Serves(env: Env, r: Routing, g: Group) {
    Routable(env, r) && !IsExpired(r.pub.message, r.now) && g in r.order.groups
  }

  // The eligible members of the group, in the order the router finds them.
  ghost function MembersOf(env: Env, r: Routing, g: Group): seq<string>
    requires Routable(env, r)
  {
    var cands := Candidates(env, r.pub, r.st.sessions, r.order.clients, g);
    seq(|cands|, i requires 0 <= i < |cands| => cands[i].client)
  }

  ghost function SharedOf(env: Env, r: Routing): seq<Target>
    requires Routable(env, r)
  {
    SharedPlan(env, r.pub, r.st.sessions, r.order.clients, r.st.rr, r.order.groups)
  }

  // The client that gets the group's delivery.
  ghost function ServedBy(env: Env, r: Routing, g: Group): string
    requires Serves(env, r, g)
  {
    var k :| 0 <= k < |r.order.groups| && r.order.groups[k] == g;
    SharedPlanAt(env, r.pub, r.st.sessions, r.order.clients, r.st.rr, r.order.groups, k);
    SharedOf(env, r)[k].client
  }

  // -------------------------------------------------------------------------
  // One routing
  // -------------------------------------------------------------------------

  lemma {:induction false} TurnServesAt(env: Env, r: Routing, k: nat)
    requires Routable(env, r) && !IsExpired(r.pub.message, r.now) && k < |r.order.groups|
    ensures var g := r.order.groups[k]; var members := MembersOf(env, r, g);
      && |SharedOf(env, r)| == |r.order.groups| && SharedOf(env, r)[k] in PlanOf(env, r)
      && members != [] && SharedOf(env, r)[k].client == members[Picked(r.st.rr, g, |members|, 0)]
  {
    SharedPlanAt(env, r.pub, r.st.sessions, r.order.clients, r.st.rr, r.order.groups, k);
  }

  // It is the member at the cursor's position, and the delivery is in the plan.
  lemma {:induction false} TurnServes(env: Env, r: Routing, g: Group)
    requires Serves(env, r, g)
    ensures var members := MembersOf(env, r, g);
      && members != [] && ServedBy(env, r, g) == members[Picked(r.st.rr, g, |members|, 0)]
      && exists t :: t in PlanOf(env, r) && t.client == ServedBy(env, r, g)
  {
    forall k | 0 <= k < |r.order.groups| && r.order.groups[k] == g
      ensures |SharedOf(env, r)| == |r.order.groups| && SharedOf(env, r)[k] in PlanOf(env, r)
      ensures var members := MembersOf(env, r, g);
        members != [] && SharedOf(env, r)[k].client == members[Picked(r.st.rr, g, |members|, 0)]
    {
      TurnServesAt(env, r, k);
    }
  }

  lemma {:induction false} RouteCursor(env: Env, r: Routing, g: Group)
    requires Routable(env, r)
    ensures var st' := B.RouteIn(env, r.now, r.st, r.pub, r.order);
      Cursor(st'.rr, g) == if Serves(env, r, g) then (Cursor(r.st.rr, g) + 1) % WORD else Cursor(r.st.rr, g)
  {
    if !IsExpired(r.pub.message, r.now) { BumpAllAt(r.st.rr, r.order.groups, g); }
  }

  // -------------------------------------------------------------------------
  // One step of the broker
  // -------------------------------------------------------------------------

  // The routing this step performs, if any.
  ghost function RoutingOf(env: Env, n: R.Node, t: R.TimedEvent): Option<Routing> {
    if R.Enabled(env, n, t) then RouteOf(env, n, t) else None
  }

  ghost predicate HasTurn(env: Env, r: Option<Routing>, g: Group) {
    r.Some? && Serves(env, r.value, g)
  }

  // The cursor moves on by one if the routing has a delivery for the group.
  ghost predicate Moves(env: Env, r: Option<Routing>, g: Group, rr: map<Group, nat>, rr': map<Group, nat>) {
    Cursor(rr', g) == if HasTurn(env, r, g) then (Cursor(rr, g) + 1) % WORD else Cursor(rr, g)
  }

  lemma {:induction false} AnswerCursors(st: B.State, client: string, p: B.InPublish, rc: ReasonCode)
    ensures B.Answer(st, client, p, rc).rr == st.rr
  {
  }

  lemma {:induction false} DuplicateCursors(env: Env, st: B.State, client: string, p: B.InPublish, m: Message)
    requires client in st.sessions
    ensures B.Answer(B.Retain(R.Aliased(env, st, client, p), m), client, p, Success).rr == st.rr
  {
    AnswerCursors(B.Retain(R.Aliased(env, st, client, p), m), client, p, Success);
  }

  lemma {:induction false} RoutedMoves(env: Env, r: Routing, g: Group, client: string, p: B.InPublish, rc: ReasonCode)
    requires Routable(env, r)
    ensures Moves(env, Some(r), g, r.st.rr, B.Answer(B.RouteIn(env, r.now, r.st, r.pub, r.order), client, p, rc).rr)
  {
    RouteCursor(env, r, g);
    AnswerCursors(B.RouteIn(env, r.now, r.st, r.pub, r.order), client, p, rc);
  }

  lemma {:induction false} TakenMoves(env: Env, now: nat, st: B.State, client: string, epoch: nat, p: B.InPublish,
                                      o: RouteOrder, g: Group)
    requires B.Current(st, client, epoch) && R.Taken(env, st, client, p) && R.PublishReady(env, now, st, client, p, o)
    ensures Moves(env, PublishRouting(env, now, st, client, p, o), g, st.rr,
                  B.HandlePublish(env, now, st, client, epoch, p, o).st.rr)
  {
    var r, st' := PublishRouting(env, now, st, client, p, o), B.HandlePublish(env, now, st, client, epoch, p, o).st;
    TakenOutcome(env, now, st, client, epoch, p, o);
    if r.Some? {
      PublishCursors(env, now, st, client, p, o);
      RoutedMoves(env, r.value, g, client, p,
                  if B.Matched(env, now, r.value.st, r.value.pub, o) then Success else NoMatchingSubscribers);
    } else {
      var m :| st' == B.Answer(B.Retain(R.Aliased(env, st, client, p), m), client, p, Success);
      DuplicateCursors(env, st, client, p, m);
    }
  }

  lemma {:induction false} PublishCursors(env: Env, now: nat, st: B.State, client: string, p: B.InPublish,
                                          o: RouteOrder)
    requires client in st.sessions && PublishRouting(env, now, st, client, p, o).Some?
    ensures var r := PublishRouting(env, now, st, client, p, o).value; r.st.rr == st.rr && r.now == now && r.order == o
  {
  }

  lemma {:induction false} RefusedMoves(env: Env, now: nat, st: B.State, client: string, epoch: nat, p: B.InPublish,
                                        o: RouteOrder, g: Group)
    requires B.Current(st, client, epoch) && !R.Taken(env, st, client, p)
    ensures Moves(env, PublishRouting(env, now, st, client, p, o), g, st.rr,
                  B.HandlePublish(env, now, st, client, epoch, p, o).st.rr)
  {
    RefusedOutcome(env, now, st, client, epoch, p, o);
  }

  lemma {:induction false} PublishStep(env: Env, n: R.Node, t: R.TimedEvent)
    requires R.Enabled(env, n, t) && t.ev.Packet? && t.ev.inbound.InPublish?
    requires B.Current(n.st, t.ev.client, t.ev.epoch)
    ensures var client, p, o := t.ev.client, t.ev.inbound.p, t.ev.inbound.order;
      && R.PublishReady(env, t.now, n.st, client, p, o)
      && RouteOf(env, n, t) == PublishRouting(env, t.now, n.st, client, p, o)
      && R.NextState(env, n, t) == B.HandlePublish(env, t.now, n.st, client, t.ev.epoch, p, o).st
  {
  }

  lemma {:induction false} PublishMoves(env: Env, n: R.Node, t: R.TimedEvent, g: Group)
    requires R.Enabled(env, n, t) && t.ev.Packet? && t.ev.inbound.InPublish?
    requires B.Current(n.st, t.ev.client, t.ev.epoch)
    ensures Moves(env, RouteOf(env, n, t), g, n.st.rr, R.NextState(env, n, t).rr)
  {
    var client, epoch, p, o := t.ev.client, t.ev.epoch, t.ev.inbound.p, t.ev.inbound.order;
    PublishStep(env, n, t);
    if R.Taken(env, n.st, client, p) { TakenMoves(env, t.now, n.st, client, epoch, p, o, g); }
    else { RefusedMoves(env, t.now, n.st, client, epoch, p, o, g); }
  }

  lemma {:induction false} RoutingMoves(env: Env, n: R.Node, t: R.TimedEvent, g: Group)
    requires R.Enabled(env, n, t) && RouteOf(env, n, t).Some? && !t.ev.Packet?
    ensures Moves(env, RouteOf(env, n, t), g, n.st.rr, R.NextState(env, n, t).rr)
  {
    RoutingStep(env, n, t);
    RouteCursor(env, RouteOf(env, n, t).value, g);
  }

  // The cursor of a group moves, by one, exactly at the steps that have a
  // delivery for it.
  lemma {:induction false} StepMoves(env: Env, n: R.Node, t: R.TimedEvent, g: Group)
    ensures Moves(env, RoutingOf(env, n, t), g, n.st.rr, R.Step(env, n, t).st.rr)
  {
    if R.Enabled(env, n, t) {
      if t.ev.Packet? {
        if t.ev.inbound.InPublish? && B.Current(n.st, t.ev.client, t.ev.epoch) { PublishMoves(env, n, t, g); }
      } else if RouteOf(env, n, t).Some? { RoutingMoves(env, n, t, g); }
    }
  }

  // The state a routing runs in has the broker's cursors.
  lemma {:induction false} RoutingCursors(env: Env, n: R.Node, t: R.TimedEvent)
    requires RoutingOf(env, n, t).Some?
    ensures RoutingOf(env, n, t).value.st.rr == n.st.rr
  {
  }

  // -------------------------------------------------------------------------
  // Runs
  // -------------------------------------------------------------------------

  ghost function ServedAt(env: Env, r: Option<Routing>, g: Group): seq<string> {
    if HasTurn(env, r, g) then [ServedBy(env, r.value, g)] else []
  }

  ghost predicate SteadyAt(env: Env, r: Option<Routing>, g: Group, members: seq<string>) {
    HasTurn(env, r, g) ==> MembersOf(env, r.value, g) == members
  }

  // Whenever the group has its turn along the run, it has these members in this
  // order. What happens otherwise is unrestricted.
  ghost predicate Steady(env: Env, n: R.Node, run: seq<R.TimedEvent>, g: Group, members: seq<string>)
    decreases |run|
  {
    run != [] ==>
      && SteadyAt(env, RoutingOf(env, n, run[0]), g, members)
      && Steady(env, R.Step(env, n, run[0]), run[1..], g, members)
  }

  // The clients that get the group's deliveries, in order.
  ghost function ServedAlong(env: Env, n: R.Node, run: seq<R.TimedEvent>, g: Group): seq<string>
    decreases |run|
  {
    if run == [] then []
    else ServedAt(env, RoutingOf(env, n, run[0]), g) + ServedAlong(env, R.Step(env, n, run[0]), run[1..], g)
  }

  lemma {:induction false} NextInTurn(env: Env, r: Option<Routing>, g: Group, rr: map<Group, nat>, rr1: map<Group, nat>,
                                      members: seq<string>, served: seq<string>)
    requires members != [] && SteadyAt(env, r, g, members) && (r.Some? ==> r.value.st.rr == rr)
    requires Moves(env, r, g, rr, rr1) && InTurn(rr1, g, members, served)
    ensures InTurn(rr, g, members, ServedAt(env, r, g) + served)
  {
    if HasTurn(env, r, g) {
      TurnServes(env, r.value, g);
      InTurnCons(rr, rr1, g, members, served);
    } else {
      assert ServedAt(env, r, g) + served == served;
      InTurnSame(rr, rr1, g, members, served);
    }
  }

  // The deliveries go round the members, starting at the cursor.
  lemma {:induction false} ServedInTurn(env: Env, n: R.Node, run: seq<R.TimedEvent>, g: Group, members: seq<string>)
    requires members != [] && Steady(env, n, run, g, members)
    ensures InTurn(n.st.rr, g, members, ServedAlong(env, n, run, g))
    decreases |run|
  {
    if run != [] {
      var r, n1 := RoutingOf(env, n, run[0]), R.Step(env, n, run[0]);
      ServedInTurn(env, n1, run[1..], g, members);
      StepMoves(env, n, run[0], g);
      if r.Some? { RoutingCursors(env, n, run[0]); }
      NextInTurn(env, r, g, n.st.rr, n1.st.rr, members, ServedAlong(env, n1, run[1..], g));
    }
  }

  // In any run of the broker in which the group has the same n members whenever
  // a message comes for it: a client listed m times among them gets between
  // m * floor(k/n) and m * ceil(k/n) of its k deliveries, as long as the group's
  // counter does not wrap.
  lemma {:induction false} TurnsAreFair(env: Env, n: R.Node, run: seq<R.TimedEvent>, g: Group, members: seq<string>,
                                        who: string)
    requires members != [] && Steady(env, n, run, g, members)
    requires Cursor(n.st.rr, g) + |ServedAlong(env, n, run, g)| <= WORD
    ensures var served, m, size := ServedAlong(env, n, run, g), Listed(members, who, |members|), |members|;
      m * (|served| / size) <= multiset(served)[who] <= m * Ceiling(|served|, size)
  {
    ServedInTurn(env, n, run, g, members);
    FairInTurn(n.st.rr, g, members, ServedAlong(env, n, run, g), who);
  }
}
