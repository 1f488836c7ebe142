// Nothing gets stuck for good: from every reachable state a reconnect whose
// channel takes the backlog, followed by an exchange in which nothing is lost,
// settles everything the session owes.

module Progress {
  import opened Types
  import opened Delivery
  import opened SessionRuns
  import opened FlowControl
  import opened Conservation
  import opened EndToEnd
  import opened Tokens
  import opened Outcomes

  // A connection that can be sent to, with a window.
  ghost predicate LineOk(d: Outbound) {
    Online(d) && d.out.value.open && d.out.value.capacity > 0 && d.receiveMax > 0
  }

  /** One packet in transit for every identifier in use, and messages waiting
      only behind some of these. */
  ghost predicate Flowing(d: Outbound, pipe: seq<Outgoing>, up: seq<Packet>) {
    Tracked(d, pipe, up) && LineOk(d) && (d.queue == [] || InUse(d) != {})
  }

  ghost predicate Flows(w: World) {
    Flowing(w.b.d, Pipe(w), w.up)
  }

  // Nothing in transit.
  ghost predicate Silent(w: World) {
    Pipe(w) == [] && w.up == []
  }

  // What the exchange still has to do.
  ghost function Work(d: Outbound): nat {
    10 * |d.queue| + 6 * |d.pubrec| + 2 * |d.puback| + 2 * |d.pubcomp| + 3 * |Items(d)|
  }

  ghost function WorkLeft(w: World): nat {
    Work(w.b.d) + 2 * |w.down| + |w.up|
  }

  // The step that can be taken next.
  function NextAct(w: World): Act {
    if Items(w.b.d) != [] then Transmit else if w.down != [] then Receive(false) else Acknowledge
  }

  // -------------------------------------------------------------------------
  // Flushes
  // -------------------------------------------------------------------------

  lemma {:induction false} RecordWork(d: Outbound, id: nat, p: Publish)
    requires Shippable(d, id, p)
    ensures Work(Record(d, id, p)) <= Work(d) + 9
  {
    assert |d.puback[id := p]| == |d.puback| + 1 by { AddSize(d.puback, id, p); }
    assert |d.pubrec[id := p]| == |d.pubrec| + 1 by { AddSize(d.pubrec, id, p); }
  }

  lemma {:induction false} AddSize(m: map<nat, Publish>, id: nat, p: Publish)
    requires id !in m
    ensures |m[id := p]| == |m| + 1
  {
    assert m[id := p].Keys == m.Keys + {id};
    assert |m.Keys + {id}| == |m.Keys| + 1;
  }

  lemma {:induction false} FlushWork(env: Env, now: nat, d: Outbound)
    requires WellFormed(d)
    ensures Work(Flush(env, now, d).d) <= Work(d)
    decreases |d.queue|
  {
    var mv := FlushMove(env, now, d);
    if !mv.Stay? {
      if mv.Ship? { RecordWork(Popped(d, mv.next), mv.id, mv.pub); }
      MoveKeepsWellFormed(d, mv);
      FlushWork(env, now, Moved(d, mv));
    }
  }

  lemma {:induction false} FlushLine(env: Env, now: nat, d: Outbound)
    requires WellFormed(d) && LineOk(d)
    ensures LineOk(Flush(env, now, d).d) && Stuck(Flush(env, now, d).d)
  {
    var moves := FlushSplitsQueue(env, now, d);
    FlushFlow(env, now, d);
  }

  // After a flush messages wait only behind others.
  lemma {:induction false} WaitsForSome(d: Outbound, pipe: seq<Outgoing>, up: seq<Packet>)
    requires WellFormed(d) && LineOk(d) && Stuck(d) && Tracked(d, pipe + Items(d), up)
    ensures d.queue == [] || InUse(d) != {}
  {
    InflightIsInUse(d);
    if d.queue != [] && WindowOpen(d) {
      var all := pipe + Items(d);
      assert all[|pipe|] == Items(d)[0];
      assert DownToken(d, all[|pipe|]);
      assert TokenId(Items(d)[0]) in InUse(d);
    }
  }

  lemma {:induction false} FlushGoes(env: Env, now: nat, d: Outbound, down: seq<Outgoing>, up: seq<Packet>)
    requires WellFormed(d) && LineOk(d) && Tracked(d, down + Items(d), up)
    ensures var d' := Flush(env, now, d).d; Flowing(d', down + Items(d'), up)
  {
    FlushLine(env, now, d);
    FlushTracked(env, now, d, down, up);
    FlushKeepsWellFormed(env, now, d);
    WaitsForSome(Flush(env, now, d).d, down, up);
  }

  // -------------------------------------------------------------------------
  // The acts of the exchange
  // -------------------------------------------------------------------------

  lemma {:induction false} TransmitFlows(env: Env, now: nat, w: World)
    requires Flows(w) && Items(w.b.d) != []
    ensures var w' := NextWorld(env, w, On(now, Transmit)); Flows(w') && WorkLeft(w') < WorkLeft(w)
  {
    var items := Items(w.b.d);
    Handover(w.down, items);
    var w' := NextWorld(env, w, On(now, Transmit));
    assert w'.b.d == w.b.d.(out := Some(w.b.d.out.value.(items := items[1..])));
    assert Pipe(w') == Pipe(w);
    SameTracked(w.b.d, w'.b.d, Pipe(w), w.up);
  }

  // The receiver answers every token by the token of the same identifier.
  lemma {:induction false} Answers(w: World, x: Outgoing)
    requires DownToken(w.b.d, x)
    ensures var w' := Received(w, x, false);
      && w'.b == w.b && w'.down == w.down
      && exists p :: w'.up == w.up + [p] && UpToken(w.b.d, p) && p.id == TokenId(x)
  {
    var w' := Received(w, x, false);
    var p := w'.up[|w'.up| - 1];
    assert w'.up == w.up + [p];
  }

  lemma {:induction false} TurnFlows(d: Outbound, pipe: seq<Outgoing>, up: seq<Packet>, p: Packet)
    requires Flowing(d, pipe, up) && pipe != [] && UpToken(d, p) && p.id == TokenId(pipe[0])
    ensures Flowing(d, pipe[1..], up + [p])
  {
    IdsTurn(pipe, up, p);
    assert forall k :: 0 <= k < |pipe[1..]| ==> pipe[1..][k] == pipe[k + 1];
  }

  lemma {:induction false} ReceiveFlows(env: Env, now: nat, w: World)
    requires Flows(w) && w.down != []
    ensures var w' := NextWorld(env, w, On(now, Receive(false))); Flows(w') && WorkLeft(w') < WorkLeft(w)
  {
    var x, w0, pipe := w.down[0], w.(down := w.down[1..]), Pipe(w);
    assert pipe[0] == x && DownToken(w.b.d, x);
    Answers(w0, x);
    var w' := Received(w0, x, false);
    var p :| w'.up == w.up + [p] && UpToken(w.b.d, p) && p.id == TokenId(x);
    assert Pipe(w') == pipe[1..];
    TurnFlows(w.b.d, pipe, w.up, p);
  }

  lemma {:induction false} RemoveSize(m: map<nat, Publish>, id: nat)
    requires id in m
    ensures |m - {id}| == |m| - 1
  {
    assert (m - {id}).Keys == m.Keys - {id};
    assert |m.Keys - {id}| == |m.Keys| - 1;
  }

  // PUBACK and PUBCOMP free an identifier and flush.
  lemma {:induction false} FreedFlows(env: Env, now: nat, d: Outbound, d0: Outbound, down: seq<Outgoing>,
                                      up: seq<Packet>)
    requires WellFormed(d) && Flowing(d, down + Items(d), up) && up != [] && (up[0].Puback? || up[0].Pubcomp?)
    requires d0 == if up[0].Puback? then d.(puback := d.puback - {up[0].id}) else d.(pubcomp := d.pubcomp - {up[0].id})
    ensures var d' := Flush(env, now, d0).d; Flowing(d', down + Items(d'), up[1..]) && Work(d') < Work(d)
  {
    assert UpToken(d, up[0]);
    FreedTracked(d, down + Items(d), up);
    if up[0].Puback? { RemoveSize(d.puback, up[0].id); }
    FlushGoes(env, now, d0, down, up[1..]);
    FlushWork(env, now, d0);
  }

  // PUBREC turns an entry into a release, which the idle channel takes.
  lemma {:induction false} ReleasedFlows(d: Outbound, down: seq<Outgoing>, up: seq<Packet>)
    requires WellFormed(d) && Flowing(d, down + Items(d), up) && Items(d) == [] && up != [] && up[0].Pubrec?
    ensures var d' := HandlePubrec(d, up[0].id, up[0].rc);
      Flowing(d', down + Items(d'), up[1..]) && Work(d') < Work(d)
  {
    var id, rel := up[0].id, Control(Pubrel(up[0].id, Success));
    assert UpToken(d, up[0]);
    var d' := HandlePubrec(d, id, up[0].rc);
    var d2 := d.(pubrec := d.pubrec - {id}, pubcomp := d.pubcomp + {id});
    assert d' == d2.(out := Some(Push(d.out.value, rel)));
    assert down + Items(d') == (down + Items(d)) + [rel];
    ReleasedTracked(d, down + Items(d), up);
    SameTracked(d2, d', down + Items(d'), up[1..]);
    RemoveSize(d.pubrec, id);
    assert id in InUse(d');
  }

  // What the broker makes of an acknowledgement.
  lemma {:induction false} AcknowledgeShape(env: Env, now: nat, w: World)
    requires w.up != [] && AckEvent(w.up[0]).Some?
    ensures var w' := NextWorld(env, w, On(now, Acknowledge));
      && w'.b == NextBooks(env, w.b, At(now, AckEvent(w.up[0]).value))
      && w'.down == w.down && w'.up == w.up[1..]
  {
    ExactlyOnce.AckEffect(env, now, w);
  }

  lemma {:induction false} AckBooks(env: Env, now: nat, b: Books, p: Packet)
    requires AckEvent(p).Some?
    ensures NextBooks(env, b, At(now, AckEvent(p).value)).d == AckStep(env, now, b.d, p)
  {
  }

  ghost function AckStep(env: Env, now: nat, d: Outbound, p: Packet): Outbound {
    match p
    case Puback(id, _) => Flush(env, now, d.(puback := d.puback - {id})).d
    case Pubcomp(id, _) => Flush(env, now, d.(pubcomp := d.pubcomp - {id})).d
    case Pubrec(id, rc) => HandlePubrec(d, id, rc)
    case _ => d
  }

  lemma {:induction false} AckStepFlows(env: Env, now: nat, d: Outbound, down: seq<Outgoing>, up: seq<Packet>)
    requires WellFormed(d) && Flowing(d, down + Items(d), up) && Items(d) == [] && up != []
    ensures var d' := AckStep(env, now, d, up[0]); Flowing(d', down + Items(d'), up[1..]) && Work(d') < Work(d)
  {
    assert UpToken(d, up[0]);
    if up[0].Puback? { FreedFlows(env, now, d, d.(puback := d.puback - {up[0].id}), down, up); }
    else if up[0].Pubcomp? { FreedFlows(env, now, d, d.(pubcomp := d.pubcomp - {up[0].id}), down, up); }
    else { ReleasedFlows(d, down, up); }
  }

  lemma {:induction false} AcknowledgeFlows(env: Env, now: nat, w: World)
    requires WellFormed(w.b.d) && Flows(w) && Items(w.b.d) == [] && w.up != []
    ensures var w' := NextWorld(env, w, On(now, Acknowledge)); Flows(w') && WorkLeft(w') < WorkLeft(w)
  {
    assert UpToken(w.b.d, w.up[0]);
    AcknowledgeShape(env, now, w);
    AckBooks(env, now, w.b, w.up[0]);
    AckStepFlows(env, now, w.b.d, w.down, w.up);
  }

  // As long as something is in transit there is a step, and it brings the end
  // nearer.
  lemma {:induction false} ActFlows(env: Env, now: nat, w: World)
    requires WellFormed(w.b.d) && Flows(w) && !Silent(w)
    ensures var w' := NextWorld(env, w, On(now, NextAct(w))); Flows(w') && WorkLeft(w') < WorkLeft(w)
  {
    match NextAct(w)
    case Transmit => TransmitFlows(env, now, w);
    case Receive(_) => ReceiveFlows(env, now, w);
    case Acknowledge => AcknowledgeFlows(env, now, w);
  }

  // With nothing in transit nothing is outstanding.
  lemma {:induction false} SilentIsDone(w: World)
    requires WellFormed(w.b.d) && Flows(w) && Silent(w)
    ensures var d := w.b.d; d.queue == [] && d.puback == map[] && d.pubrec == map[] && d.pubcomp == {}
  {
    var d := w.b.d;
    assert Ids(Pipe(w), w.up) == [];
    assert InUse(d) == {};
    assert d.puback.Keys == {} && d.pubrec.Keys == {};
  }

  // -------------------------------------------------------------------------
  // The exchange
  // -------------------------------------------------------------------------

  // Nothing is lost, refused or added.
  predicate Lossless(run: seq<TimedAct>) {
    forall k :: 0 <= k < |run| ==> run[k].act.Transmit? || run[k].act == Receive(false) || run[k].act.Acknowledge?
  }

  lemma {:induction false} ActAdvances(env: Env, now: nat, w: World)
    requires Inv(w) && Flows(w) && !Silent(w)
    ensures Advances(w, NextWorld(env, w, On(now, NextAct(w))))
  {
    match NextAct(w)
    case Transmit => TransmitAdvances(env, now, w);
    case Receive(_) => ReceiveAdvances(env, now, w, false);
    case Acknowledge =>
      assert UpToken(w.b.d, w.up[0]);
      AcknowledgeAdvances(env, now, w);
  }

  lemma {:induction false} OneAct(env: Env, now: nat, w: World)
    requires Inv(w) && Flows(w) && !Silent(w)
    ensures var w' := NextWorld(env, w, On(now, NextAct(w)));
      Inv(w') && Flows(w') && Advances(w, w') && WorkLeft(w') < WorkLeft(w)
  {
    ActFlows(env, now, w);
    ActAdvances(env, now, w);
    ActKeepsInv(env, w, On(now, NextAct(w)));
  }

  lemma {:induction false} PlayCons(env: Env, w: World, t: TimedAct, rest: seq<TimedAct>)
    ensures Play(env, w, [t] + rest) == Play(env, NextWorld(env, w, t), rest)
  {
    assert ([t] + rest)[1..] == rest;
  }

  // An exchange that ends with nothing in transit.
  ghost predicate Completes(env: Env, w: World, run: seq<TimedAct>) {
    var w' := Play(env, w, run);
    Lossless(run) && Inv(w') && Flows(w') && Silent(w') && Advances(w, w')
  }

  lemma {:induction false} CompletesNone(env: Env, w: World)
    requires Inv(w) && Flows(w) && Silent(w)
    ensures Completes(env, w, [])
  {
    AdvancesSame(w, w);
  }

  lemma {:induction false} CompletesCons(env: Env, w: World, t: TimedAct, rest: seq<TimedAct>)
    requires t.act == NextAct(w) && Advances(w, NextWorld(env, w, t)) && Completes(env, NextWorld(env, w, t), rest)
    ensures Completes(env, w, [t] + rest)
  {
    PlayCons(env, w, t, rest);
    AdvancesTrans(w, NextWorld(env, w, t), Play(env, NextWorld(env, w, t), rest));
  }

  // The exchange comes to an end.
  lemma {:induction false} Exchange(env: Env, now: nat, w: World) returns (run: seq<TimedAct>)
    requires Inv(w) && Flows(w)
    ensures Completes(env, w, run)
    decreases WorkLeft(w)
  {
    if Silent(w) {
      run := [];
      CompletesNone(env, w);
    } else {
      var t := On(now, NextAct(w));
      OneAct(env, now, w);
      var rest := Exchange(env, now, NextWorld(env, w, t));
      run := [t] + rest;
      CompletesCons(env, w, t, rest);
    }
  }

  // -------------------------------------------------------------------------
  // The reconnect
  // -------------------------------------------------------------------------

  // A reconnect of the same owner whose channel takes what is in flight.
  ghost predicate Reaches(d: Outbound, ev: Event) {
    && ev.Reconnect? && !ev.changed && Enabled(d, ev)
    && ev.out.open && 0 < ev.out.capacity && InflightCount(d) <= ev.out.capacity && ev.receiveMax > 0
  }

  lemma {:induction false} ResumeFlows(env: Env, now: nat, d: Outbound, ev: Event)
    requires WellFormed(d) && Reaches(d, ev)
    ensures var d' := Step(env, now, d, ev).d; Flowing(d', Items(d'), [])
  {
    var r := Resumed(d, ev);
    var r1 := r.(out := Some(TrySendAll(r.out.value, Backlog(r, ev.order))));
    BacklogSize(r, ev.order);
    RoomForAll(r.out.value, Backlog(r, ev.order));
    ResumeTracked(env, now, r, ev.order);
    ResumedGoes(env, now, r1);
  }

  lemma {:induction false} ResumedGoes(env: Env, now: nat, d: Outbound)
    requires WellFormed(d) && LineOk(d) && Tracked(Flush(env, now, d).d, Items(Flush(env, now, d).d), [])
    ensures var d' := Flush(env, now, d).d; Flowing(d', Items(d'), [])
  {
    FlushLine(env, now, d);
    FlushKeepsWellFormed(env, now, d);
    var d' := Flush(env, now, d).d;
    assert [] + Items(d') == Items(d');
    WaitsForSome(d', [], []);
  }

  lemma {:induction false} RedialFlows(env: Env, now: nat, w: World, ev: Event)
    requires WellFormed(w.b.d) && Reaches(w.b.d, ev)
    ensures Flows(NextWorld(env, w, On(now, Redial(ev))))
  {
    ResumeFlows(env, now, w.b.d, ev);
    RedialShape(env, now, w, ev);
    var w' := NextWorld(env, w, On(now, Redial(ev)));
    assert Pipe(w') == Items(w'.b.d);
  }

  lemma {:induction false} RedialShape(env: Env, now: nat, w: World, ev: Event)
    requires ev.Reconnect? && Enabled(w.b.d, ev)
    ensures var w' := NextWorld(env, w, On(now, Redial(ev)));
      w'.b.d == Step(env, now, w.b.d, ev).d && w'.down == [] && w'.up == []
  {
  }

  // -------------------------------------------------------------------------
  // The theorem
  // -------------------------------------------------------------------------

  /** Everything the session owed in `w` is settled in `w'`: nothing waits, is in
      flight or in transit; every delivery that was alive ended acknowledged, or
      expired or too big if it was still waiting; and each QoS 2 delivery that
      ended acknowledged had its PUBREC accepted. */
  ghost predicate AllSettled(w: World, w': World) {
    && var d := w'.b.d;
    && d.queue == [] && d.puback == map[] && d.pubrec == map[] && d.pubcomp == {} && Silent(w')
    && (forall s :: s in Live(PlacesOf(w.b.d, w.b.rel)) ==>
          s in w'.b.fate && EndsWell(w'.b.fate[s], s in InQueue(w.b.d.queue)))
    && (forall s :: s in StillOwed(w.b.d) ==> s in w'.accepted || w'.b.fate[s] != Acknowledged)
  }

  lemma {:induction false} NothingOwing(d: Outbound)
    requires d.queue == [] && d.pubrec == map[]
    ensures StillOwed(d) == {}
  {
  }

  lemma {:induction false} NothingLive(b: Books)
    requires Balanced(b) && b.d.queue == [] && b.d.puback == map[] && b.d.pubrec == map[] && b.d.pubcomp == {}
    ensures Live(PlacesOf(b.d, b.rel)) == {}
  {
    assert b.rel.Keys == {};
    assert b.rel == map[];
  }

  lemma {:induction false} SilenceSettles(w: World, w': World)
    requires Inv(w) && Inv(w') && Flows(w') && Silent(w') && Advances(w, w')
    ensures AllSettled(w, w')
  {
    SilentIsDone(w');
    NothingOwing(w'.b.d);
    NothingLive(w'.b);
    forall s | s in Live(PlacesOf(w.b.d, w.b.rel))
      ensures s in w'.b.fate && EndsWell(w'.b.fate[s], s in InQueue(w.b.d.queue))
    {
      assert s < w.b.next && s !in w.b.fate;
    }
    forall s | s in StillOwed(w.b.d) ensures s in w'.accepted || w'.b.fate[s] != Acknowledged {
    }
  }

  // A receiver that remembered only what is in flight remembers nothing now.
  lemma {:induction false} NothingHeld(w': World)
    requires Inv(w') && !w'.wiped && w'.b.d.pubrec == map[] && w'.b.d.pubcomp == {}
    ensures w'.held == {} && w'.accepted <= Passed(w')
  {
  }

  // From every reachable state: after a reconnect of the same owner whose channel
  // takes the backlog, an exchange in which nothing is lost settles everything
  // the session owes; and as long as the owner never changed, every QoS 2 message
  // it owed has then been passed to the application, but for those that expired
  // or did not fit, and the client holds no identifier any more.
  lemma {:induction false} EverythingSettles(env: Env, before: seq<TimedAct>, now: nat, ev: Event)
    returns (run: seq<TimedAct>)
    requires Reaches(Play(env, START, before).b.d, ev)
    ensures Lossless(run)
    ensures var w := Play(env, START, before); var w' := Play(env, w, [On(now, Redial(ev))] + run);
      && AllSettled(w, w')
      && (!w.wiped ==> w'.held == {}
                       && forall s :: s in StillOwed(w.b.d) ==> s in Passed(w') || w'.b.fate[s] != Acknowledged)
  {
    var w := Play(env, START, before);
    StartInv();
    PlayKeepsInv(env, START, before);
    var w1 := NextWorld(env, w, On(now, Redial(ev)));
    RedialFlows(env, now, w, ev);
    RedialAdvances(env, now, w, ev);
    ActKeepsInv(env, w, On(now, Redial(ev)));
    run := Exchange(env, now, w1);
    var w' := Play(env, w1, run);
    PlayCons(env, w, On(now, Redial(ev)), run);
    AdvancesTrans(w, w1, w');
    SilenceSettles(w, w');
    if !w.wiped { NothingHeld(w'); }
  }
}
