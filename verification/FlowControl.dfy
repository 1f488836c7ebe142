// Flow control (section 4.9 of MQTT 5.0), the shape of a queue flush, and the
// bounded queue as a sliding window.

module FlowControl {
  import opened Types
  import opened Delivery
  import opened SessionRuns

  // -------------------------------------------------------------------------
  // Receive Maximum
  // -------------------------------------------------------------------------

  function Max(a: nat, b: nat): nat {
    if a >= b then a else b
  }

  lemma {:induction false} RecordTakesOneSlot(d: Outbound, id: nat, p: Publish)
    requires Online(d) && Free(d, id) && p.qos != AtMostOnce
    ensures InflightCount(Record(d, id, p)) == InflightCount(d) + 1
  {
  }

  lemma {:induction false} FlushFlow(env: Env, now: nat, d: Outbound)
    requires WellFormed(d)
    ensures var d' := Flush(env, now, d).d;
            d'.receiveMax == d.receiveMax
            && InflightCount(d) <= InflightCount(d') <= Max(InflightCount(d), d.receiveMax)
    decreases |d.queue|
  {
    var mv := FlushMove(env, now, d);
    MoveKeepsWellFormed(d, mv);
    if mv.Ship? { RecordTakesOneSlot(Popped(d, mv.next), mv.id, mv.pub); }
    if !mv.Stay? { FlushFlow(env, now, Moved(d, mv)); }
  }

  // A PUBLISH at QoS 1 or 2 enters flight only while the count is below
  // Receive Maximum, and takes exactly one slot.
  lemma {:induction false} DeliverFlow(env: Env, now: nat, d: Outbound, p: Pending)
    requires WellFormed(d)
    ensures var d' := Deliver(env, now, d, p).d;
      && d'.receiveMax == d.receiveMax
      && (InflightCount(d') == InflightCount(d)
          || (InflightCount(d) < d.receiveMax && InflightCount(d') == InflightCount(d) + 1))
  {
    var ef := DeliverEffect(env, now, d, p);
    if ef.Shipped? { RecordTakesOneSlot(d.(nextId := ef.next), ef.id, ef.pub); }
  }

  lemma {:induction false} PubrecFlow(d: Outbound, id: nat, rc: ReasonCode)
    requires WellFormed(d)
    ensures var d' := HandlePubrec(d, id, rc);
            d'.receiveMax == d.receiveMax && InflightCount(d') <= InflightCount(d)
  {
    if id in d.pubrec { assert |d.pubrec - {id}| == |d.pubrec| - 1; }
  }

  lemma {:induction false} PubackFlow(env: Env, now: nat, d: Outbound, id: nat)
    requires WellFormed(d)
    ensures var d' := HandlePuback(env, now, d, id).d;
      d'.receiveMax == d.receiveMax && InflightCount(d') <= Max(InflightCount(d), d.receiveMax)
  {
    SubsetSize((d.puback - {id}).Keys, d.puback.Keys);
    FlushFlow(env, now, d.(puback := d.puback - {id}));
  }

  lemma {:induction false} PubcompFlow(env: Env, now: nat, d: Outbound, id: nat)
    requires WellFormed(d)
    ensures var d' := HandlePubcomp(env, now, d, id).d;
      d'.receiveMax == d.receiveMax && InflightCount(d') <= Max(InflightCount(d), d.receiveMax)
  {
    SubsetSize(d.pubcomp - {id}, d.pubcomp);
    FlushFlow(env, now, d.(pubcomp := d.pubcomp - {id}));
  }

  lemma {:induction false} StepFlow(env: Env, now: nat, d: Outbound, ev: Event)
    requires WellFormed(d) && Enabled(d, ev) && !ev.Reconnect?
    ensures var d' := Step(env, now, d, ev).d;
      d'.receiveMax == d.receiveMax && InflightCount(d') <= Max(InflightCount(d), d.receiveMax)
  {
    match ev
    case Give(p) => DeliverFlow(env, now, d, p);
    case AckPuback(id) => PubackFlow(env, now, d, id);
    case AckPubrec(id, rc) => PubrecFlow(d, id, rc);
    case AckPubcomp(id) => PubcompFlow(env, now, d, id);
    case _ =>
  }

  lemma {:induction false} RunFlow(env: Env, d: Outbound, run: seq<Timed>)
    requires WellFormed(d) && forall k :: 0 <= k < |run| ==> !run[k].ev.Reconnect?
    ensures var d' := Exec(env, d, run);
      d'.receiveMax == d.receiveMax && InflightCount(d') <= Max(InflightCount(d), d.receiveMax)
    decreases |run|
  {
    if run != [] {
      if Enabled(d, run[0].ev) {
        StepKeepsWellFormed(env, run[0].now, d, run[0].ev);
        StepFlow(env, run[0].now, d, run[0].ev);
      }
      RunFlow(env, Next(env, d, run[0]).d, run[1..]);
    }
  }

  // Throughout one connection the in-flight count never exceeds the larger of
  // its value when CONNECT was accepted and the client's Receive Maximum.
  lemma {:induction false} ReceiveMaximumRespected(env: Env, now: nat, d: Outbound, ev: Event, run: seq<Timed>)
    requires WellFormed(d) && ev.Reconnect? && Enabled(d, ev)
    requires forall k :: 0 <= k < |run| ==> !run[k].ev.Reconnect?
    ensures InflightCount(Exec(env, Step(env, now, d, ev).d, run))
            <= Max(InflightCount(Resumed(d, ev)), ev.receiveMax)
  {
    StepKeepsWellFormed(env, now, d, ev);
    ResumeFlow(env, now, Resumed(d, ev), ev.order);
    RunFlow(env, Step(env, now, d, ev).d, run);
  }

  lemma {:induction false} ResumeFlow(env: Env, now: nat, d: Outbound, o: ResumeOrder)
    requires WellFormed(d) && Online(d) && ValidOrder(d, o)
    ensures var d' := Resume(env, now, d, o).d;
      InflightCount(d') <= Max(InflightCount(d), d.receiveMax) && d'.receiveMax == d.receiveMax
  {
    FlushFlow(env, now, d.(out := Some(TrySendAll(d.out.value, Backlog(d, o)))));
  }

  // -------------------------------------------------------------------------
  // What a flush consumes
  // -------------------------------------------------------------------------

  ghost function SentBy(moves: seq<Move>): seq<Outgoing> {
    if moves == [] then []
    else (if moves[0].Ship? then [Send(moves[0].pub)] else []) + SentBy(moves[1..])
  }

  // Entries discarded without having expired: by `Justified`, for their size.
  ghost function OversizedIn(moves: seq<Move>, q: seq<Pending>, now: nat): nat
    requires |moves| <= |q|
  {
    if moves == [] then 0
    else (if moves[0].Skip? && !IsExpired(q[0].message, now) then 1 else 0)
         + OversizedIn(moves[1..], q[1..], now)
  }

  // Why an entry left the queue: sent as it was and fitting, or discarded
  // because it expired or because it does not fit.
  ghost predicate Justified(env: Env, d: Outbound, mv: Move, p: Pending, now: nat) {
    match mv
    case Stay(_) => false
    case Skip(_) => IsExpired(p.message, now) || Oversize(env, d, p, now)
    case Ship(_, id, pub) =>
      !IsExpired(p.message, now) && pub == AsPublish(p, now, Some(id)) && Carries(pub, p, now) && !TooBig(env, d, pub)
  }

  ghost predicate Explains(env: Env, d: Outbound, moves: seq<Move>, q: seq<Pending>, now: nat) {
    |moves| <= |q| && forall j :: 0 <= j < |moves| ==> Justified(env, d, moves[j], q[j], now)
  }

  ghost predicate Stuck(d: Outbound) {
    !Online(d) || !WindowOpen(d) || d.queue == [] || !CanSend(d.out.value)
  }

  // flush_queue splits the old queue into a consumed prefix and an untouched
  // suffix. The prefix is the messages sent, in queue order and all fitting, the
  // expired ones and those that do not fit, the last being what it reports; and it stops only
  // when the session is offline, the window closed, the queue empty or the
  // channel unwilling.
  lemma {:induction false} FlushSplitsQueue(env: Env, now: nat, d: Outbound) returns (moves: seq<Move>)
    requires WellFormed(d)
    ensures Explains(env, d, moves, d.queue, now)
    ensures var r := Flush(env, now, d);
      && r.d.queue == d.queue[|moves|..]
      && Extends(d.out, r.d.out, SentBy(moves))
      && r.dropped == OversizedIn(moves, d.queue, now)
      && Stuck(r.d)
    decreases |d.queue|
  {
    var mv := FlushMove(env, now, d);
    MoveExtends(d, mv);
    if mv.Stay? {
      moves := [];
    } else {
      var d1 := Moved(d, mv);
      MoveKeepsWellFormed(d, mv);
      var rest := FlushSplitsQueue(env, now, d1);
      moves := [mv] + rest;
      assert Justified(env, d, mv, d.queue[0], now);
      ExplainsCons(env, d, d1, mv, rest, d.queue, now);
      ExtendsCons(d.out, d1.out, Flush(env, now, d1).d.out, mv, rest);
    }
  }

  lemma {:induction false} FlushLeavesNoStall(env: Env, now: nat, d: Outbound)
    requires WellFormed(d)
    ensures Stuck(Flush(env, now, d).d)
  {
    var moves := FlushSplitsQueue(env, now, d);
  }

  // A PUBACK and a PUBCOMP leave no session waiting for nothing: whatever still
  // waits does so behind the window or the channel, or for a connection.
  lemma {:induction false} AcksLeaveNoStall(env: Env, now: nat, d: Outbound, id: nat)
    requires WellFormed(d)
    ensures Stuck(HandlePuback(env, now, d, id).d) && Stuck(HandlePubcomp(env, now, d, id).d)
  {
    FlushLeavesNoStall(env, now, d.(puback := d.puback - {id}));
    FlushLeavesNoStall(env, now, d.(pubcomp := d.pubcomp - {id}));
  }

  // Nor does a resume.
  lemma {:induction false} ResumeLeavesNoStall(env: Env, now: nat, d: Outbound, o: ResumeOrder)
    requires WellFormed(d) && ValidOrder(d, o)
    ensures Stuck(Resume(env, now, d, o).d)
  {
    if Online(d) { FlushLeavesNoStall(env, now, d.(out := Some(TrySendAll(d.out.value, Backlog(d, o))))); }
  }

  // A PUBREC with an error frees an identifier but does not flush: a stuck
  // session stays stuck exactly if that was not what it waited for.
  lemma {:induction false} ErrorPubrecMayStall(d: Outbound, id: nat, rc: ReasonCode)
    requires WellFormed(d) && Stuck(d) && rc.IsError()
    ensures Stuck(HandlePubrec(d, id, rc)) <==>
      || !Online(d) || d.queue == [] || !CanSend(d.out.value)
      || InflightCount(d) - (if id in d.pubrec then 1 else 0) >= d.receiveMax
  {
    var d' := HandlePubrec(d, id, rc);
    if id in d.pubrec {
      assert d'.pubrec.Keys == d.pubrec.Keys - {id};
      assert |d'.pubrec.Keys| == |d.pubrec.Keys| - 1;
    } else {
      assert d'.pubrec == d.pubrec;
    }
  }

  // The first identifier a session gives out is 1.
  lemma {:induction false} FirstId(d: Outbound)
    requires d.nextId == 1 && InUse(d) == {}
    ensures NextId(d) == Scan(Some(1), 2)
  {
    assert FirstFree(1, {}, 0);
    FirstFreeUnique(1, {}, 0);
  }

  // A new client with a window of one and room in its channel.
  const NEWCOMER := FRESH.(out := Some(Channel(2, [], true)), receiveMax := 1)

  lemma {:induction false} Arrives(env: Env)
    ensures var ev := Reconnect(false, Channel(2, [], true), 1, None, ResumeOrder([], [], []));
      Enabled(FRESH, ev) && Next(env, FRESH, At(0, ev)).d == NEWCOMER
  {
    var o := ResumeOrder([], [], []);
    assert Backlog(NEWCOMER, o) == [];
    assert NEWCOMER.(out := Some(TrySendAll(NEWCOMER.out.value, []))) == NEWCOMER;
  }

  // A QoS 2 message that never expires.
  ghost predicate Lasting(p: Pending) {
    p.qos == ExactlyOnce && p.message.expiresAt.None?
  }

  lemma {:induction false} FillsWindow(env: Env, p: Pending, q: Pending)
    requires Lasting(p) && Lasting(q)
    ensures var d := Next(env, Next(env, NEWCOMER, At(0, Give(p))).d, At(0, Give(q))).d;
      && d.queue == [q] && d.pubrec.Keys == {1} && d.puback == map[] && d.pubcomp == {} && d.receiveMax == 1
      && Online(d) && CanSend(d.out.value)
  {
    assert InUse(NEWCOMER) == {};
    FirstId(NEWCOMER);
    var d := Next(env, NEWCOMER, At(0, Give(p))).d;
    assert d == Record(NEWCOMER.(nextId := 2), 1, AsPublish(p, 0, Some(1)));
    assert |d.pubrec| == 1;
  }

  // A run of a fresh session that stalls: the client connects with a window of
  // one, is given two messages, rejects the first, and is not sent the second
  // although nothing is in its way.
  function Stalling(p: Pending, q: Pending): seq<Timed> {
    [At(0, Reconnect(false, Channel(2, [], true), 1, None, ResumeOrder([], [], []))),
     At(0, Give(p)), At(0, Give(q)), At(0, AckPubrec(1, UnspecifiedError))]
  }

  lemma {:induction false} ErrorPubrecStalls(env: Env, p: Pending, q: Pending)
    requires Lasting(p) && Lasting(q)
    ensures var d := Exec(env, FRESH, Stalling(p, q));
      && d.queue == [q] && !Stuck(d)
      && Stuck(Exec(env, FRESH, Stalling(p, q)[..3]))
  {
    var run := Stalling(p, q);
    Arrives(env);
    FillsWindow(env, p, q);
    Unroll3(env, FRESH, run[0], run[1], run[2]);
    assert run[..3] == [run[0], run[1], run[2]] && run == run[..3] + [run[3]];
    var d := Exec(env, FRESH, run[..3]);
    ExecSnoc(env, FRESH, run[..3], run[3]);
    Rejects(env, d);
  }

  lemma {:induction false} Rejects(env: Env, d: Outbound)
    requires d.queue != [] && d.pubrec.Keys == {1} && d.puback == map[] && d.pubcomp == {} && d.receiveMax == 1
    requires Online(d) && CanSend(d.out.value)
    ensures Stuck(d)
    ensures var d' := Next(env, d, At(0, AckPubrec(1, UnspecifiedError))).d; d'.queue == d.queue && !Stuck(d')
  {
    assert |d.pubrec.Keys| == 1;
    assert (d.pubrec - {1}).Keys == {};
  }

  lemma {:induction false} Unroll3(env: Env, d: Outbound, a: Timed, b: Timed, c: Timed)
    ensures Exec(env, d, [a, b, c]) == Next(env, Next(env, Next(env, d, a).d, b).d, c).d
  {
    assert [a, b, c][1..] == [b, c] && [b, c][1..] == [c] && [c][1..] == [];
    assert Exec(env, Next(env, Next(env, d, a).d, b).d, [c]) == Next(env, Next(env, Next(env, d, a).d, b).d, c).d;
    assert Exec(env, Next(env, d, a).d, [b, c]) == Exec(env, Next(env, Next(env, d, a).d, b).d, [c]);
  }

  lemma {:induction false} ExecSnoc(env: Env, d: Outbound, run: seq<Timed>, t: Timed)
    ensures Exec(env, d, run + [t]) == Next(env, Exec(env, d, run), t).d
    decreases |run|
  {
    if run == [] {
      assert (run + [t])[1..] == [];
    } else {
      assert (run + [t])[1..] == run[1..] + [t];
      ExecSnoc(env, Next(env, d, run[0]).d, run[1..], t);
    }
  }

  ghost predicate Extends(before: Option<Channel>, after: Option<Channel>, sent: seq<Outgoing>) {
    if before.None? then after.None?
    else after == Some(before.value.(items := before.value.items + sent))
  }

  lemma {:induction false} MoveExtends(d: Outbound, mv: Move)
    requires Legal(d, mv)
    ensures Extends(d.out, Moved(d, mv).out, if mv.Ship? then [Send(mv.pub)] else [])
  {
    if Online(d) && !mv.Ship? { assert d.out.value.items + [] == d.out.value.items; }
  }

  lemma {:induction false} ExtendsCons(o0: Option<Channel>, o1: Option<Channel>, o2: Option<Channel>, mv: Move,
                                       rest: seq<Move>)
    requires Extends(o0, o1, if mv.Ship? then [Send(mv.pub)] else [])
    requires Extends(o1, o2, SentBy(rest))
    ensures Extends(o0, o2, SentBy([mv] + rest))
  {
    assert ([mv] + rest)[1..] == rest;
    if o0.Some? {
      var one := if mv.Ship? then [Send(mv.pub)] else [];
      assert (o0.value.items + one) + SentBy(rest) == o0.value.items + (one + SentBy(rest));
    }
  }

  lemma {:induction false} SameCap(env: Env, d: Outbound, d1: Outbound, mv: Move, p: Pending, now: nat)
    requires d1.maxPacketSize == d.maxPacketSize && Justified(env, d1, mv, p, now)
    ensures Justified(env, d, mv, p, now)
  {
    if mv.Skip? && !IsExpired(p.message, now) {
      var id: nat :| TooBig(env, d1, AsPublish(p, now, Some(id)));
      assert TooBig(env, d, AsPublish(p, now, Some(id)));
    }
  }

  lemma {:induction false} ExplainsCons(env: Env, d: Outbound, d1: Outbound, mv: Move, rest: seq<Move>,
                                        q: seq<Pending>, now: nat)
    requires q != [] && Justified(env, d, mv, q[0], now)
    requires d1.maxPacketSize == d.maxPacketSize && Explains(env, d1, rest, q[1..], now)
    ensures Explains(env, d, [mv] + rest, q, now)
    ensures q[1..][|rest|..] == q[|[mv] + rest|..]
    ensures OversizedIn([mv] + rest, q, now)
      == (if mv.Skip? && !IsExpired(q[0].message, now) then 1 else 0) + OversizedIn(rest, q[1..], now)
  {
    var all := [mv] + rest;
    assert all[1..] == rest;
    forall j | 0 <= j < |all| ensures Justified(env, d, all[j], q[j], now) {
      if j > 0 {
        assert q[j] == q[1..][j - 1] && all[j] == rest[j - 1];
        SameCap(env, d, d1, rest[j - 1], q[1..][j - 1], now);
      }
    }
  }

  // -------------------------------------------------------------------------
  // The bounded queue
  // -------------------------------------------------------------------------

  lemma {:induction false} FlushShortens(env: Env, now: nat, d: Outbound)
    ensures |Flush(env, now, d).d.queue| <= |d.queue|
    decreases |d.queue|
  {
    var it := FlushOne(env, now, d);
    if it.go { FlushShortens(env, now, it.d); }
  }

  lemma {:induction false} StepKeepsBound(env: Env, now: nat, d: Outbound, ev: Event)
    requires WellFormed(d) && Enabled(d, ev) && 0 < env.maxQueued && |d.queue| <= env.maxQueued
    ensures |Step(env, now, d, ev).d.queue| <= env.maxQueued
  {
    match ev
    case Give(p) => var ef := DeliverEffect(env, now, d, p);
    case AckPuback(id) => FlushShortens(env, now, d.(puback := d.puback - {id}));
    case AckPubcomp(id) => FlushShortens(env, now, d.(pubcomp := d.pubcomp - {id}));
    case Reconnect(_, _, _, _, order) =>
      var r := Resumed(d, ev);
      FlushShortens(env, now, r.(out := Some(TrySendAll(r.out.value, Backlog(r, order)))));
    case _ =>
  }

  // With a non-zero bound the queue never exceeds it, in any run.
  lemma {:induction false} QueueBounded(env: Env, d: Outbound, run: seq<Timed>)
    requires WellFormed(d) && 0 < env.maxQueued && |d.queue| <= env.maxQueued
    ensures |Exec(env, d, run).queue| <= env.maxQueued
    decreases |run|
  {
    if run != [] {
      if Enabled(d, run[0].ev) {
        StepKeepsWellFormed(env, run[0].now, d, run[0].ev);
        StepKeepsBound(env, run[0].now, d, run[0].ev);
      }
      QueueBounded(env, Next(env, d, run[0]).d, run[1..]);
    }
  }

  ghost predicate Accepted(env: Env, now: nat, d: Outbound, p: Pending) {
    p.qos != AtMostOnce && !IsExpired(p.message, now) && !TooBig(env, d, AsPublish(p, now, Some(0)))
  }

  function LastOf<T>(s: seq<T>, n: nat): seq<T> {
    if |s| <= n then s else s[|s| - n..]
  }

  // An offline session keeps exactly the newest messages: the last `maxQueued`
  // of the old queue followed by the new ones; what fell out is what is
  // reported dropped.
  lemma {:induction false} OfflineSlidingWindow(env: Env, now: nat, d: Outbound, ps: seq<Pending>)
    requires !Online(d) && 0 < env.maxQueued && |d.queue| <= env.maxQueued
    requires forall k :: 0 <= k < |ps| ==> Accepted(env, now, d, ps[k])
    ensures var r := GiveAll(env, now, d, ps);
      && r.d == d.(queue := LastOf(d.queue + ps, env.maxQueued))
      && r.dropped == |d.queue + ps| - |r.d.queue|
    decreases |ps|
  {
    if ps == [] {
      assert d.queue + ps == d.queue;
    } else {
      assert Accepted(env, now, d, ps[0]);
      var r := Deliver(env, now, d, ps[0]);
      OfflineSlidingWindow(env, now, r.d, ps[1..]);
      var all := d.queue + ps;
      if |d.queue| < env.maxQueued {
        assert r.d.queue + ps[1..] == all;
      } else {
        assert r.d.queue + ps[1..] == all[1..];
      }
    }
  }
}
