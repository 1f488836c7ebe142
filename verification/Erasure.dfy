// Labels are history only: erasing them commutes with every event, so a session
// and the ledger that numbers its deliveries go through the same states.

module Erasure {
  import opened Types
  import opened Delivery
  import opened SessionRuns
  import opened Conservation

  function BarePublish(p: Publish): Publish {
    p.(lbl := UNLABELLED)
  }

  function BarePending(p: Pending): Pending {
    p.(lbl := UNLABELLED)
  }

  function BareOutgoing(x: Outgoing): Outgoing {
    if x.Send? then Send(BarePublish(x.publish)) else x
  }

  function BareItems(xs: seq<Outgoing>): seq<Outgoing> {
    seq(|xs|, i requires 0 <= i < |xs| => BareOutgoing(xs[i]))
  }

  function BareQueue(q: seq<Pending>): seq<Pending> {
    seq(|q|, i requires 0 <= i < |q| => BarePending(q[i]))
  }

  function BareTable(m: map<nat, Publish>): map<nat, Publish> {
    map id | id in m :: BarePublish(m[id])
  }

  function BareChannel(c: Channel): Channel {
    c.(items := BareItems(c.items))
  }

  /** The outbound state without its labels. */
  function Bare(d: Outbound): Outbound {
    d.(out := if d.out.Some? then Some(BareChannel(d.out.value)) else None,
       puback := BareTable(d.puback), pubrec := BareTable(d.pubrec), queue := BareQueue(d.queue))
  }

  function BareEvent(ev: Event): Event {
    if ev.Give? then Give(BarePending(ev.p)) else ev
  }

  ghost function BareResult(r: Flushed): Flushed {
    Flushed(Bare(r.d), r.dropped)
  }

  // -------------------------------------------------------------------------
  // Parts
  // -------------------------------------------------------------------------

  lemma {:induction false} BareSnoc(xs: seq<Outgoing>, x: Outgoing)
    ensures BareItems(xs + [x]) == BareItems(xs) + [BareOutgoing(x)]
  {
  }

  lemma {:induction false} BareTrySend(c: Channel, x: Outgoing)
    ensures CanSend(BareChannel(c)) == CanSend(c)
    ensures Push(BareChannel(c), BareOutgoing(x)) == BareChannel(Push(c, x))
    ensures TrySend(BareChannel(c), BareOutgoing(x)) == BareChannel(TrySend(c, x))
  {
    BareSnoc(c.items, x);
  }

  lemma {:induction false} BareAdd(m: map<nat, Publish>, id: nat, p: Publish)
    ensures BareTable(m[id := p]) == BareTable(m)[id := BarePublish(p)]
  {
  }

  lemma {:induction false} BareRemove(m: map<nat, Publish>, id: nat)
    ensures BareTable(m - {id}) == BareTable(m) - {id}
  {
  }

  lemma {:induction false} BareKeys(m: map<nat, Publish>)
    ensures BareTable(m).Keys == m.Keys && |BareTable(m)| == |m|
  {
    assert BareTable(m).Keys == m.Keys;
  }

  // The window, the size check and the choice of an identifier read no label.
  lemma {:induction false} BareReads(env: Env, d: Outbound, p: Publish)
    ensures Online(Bare(d)) == Online(d)
    ensures InUse(Bare(d)) == InUse(d) && WindowOpen(Bare(d)) == WindowOpen(d)
    ensures TooBig(env, Bare(d), BarePublish(p)) == TooBig(env, d, p)
  {
    BareKeys(d.puback);
    BareKeys(d.pubrec);
  }

  lemma {:induction false} BareNextId(d: Outbound)
    ensures NextId(Bare(d)) == NextId(d)
  {
    BareKeys(d.puback);
    BareKeys(d.pubrec);
    assert InUse(Bare(d)) == InUse(d);
    SameScan(Bare(d), d);
  }

  lemma {:induction false} BareRecord(d: Outbound, id: nat, p: Publish)
    requires Online(d)
    ensures Record(Bare(d), id, BarePublish(p)) == Bare(Record(d, id, p))
  {
    BareTrySend(d.out.value, Send(p));
    BareAdd(d.puback, id, p);
    BareAdd(d.pubrec, id, p);
  }

  lemma {:induction false} BareNotify(d: Outbound, x: Outgoing)
    ensures Notify(Bare(d), BareOutgoing(x)) == Bare(Notify(d, x))
  {
    if Online(d) { BareTrySend(d.out.value, x); }
  }

  lemma {:induction false} BareEnqueue(d: Outbound, p: Pending, maxQueued: nat)
    ensures Enqueue(Bare(d), BarePending(p), maxQueued)
            == Delivered(Bare(Enqueue(d, p, maxQueued).d), Enqueue(d, p, maxQueued).dropped)
  {
    assert BareQueue(d.queue + [p]) == BareQueue(d.queue) + [BarePending(p)];
    if d.queue != [] {
      assert BareQueue(d.queue[1..] + [p]) == BareQueue(d.queue)[1..] + [BarePending(p)];
    }
  }

  // -------------------------------------------------------------------------
  // Deliveries and flushes
  // -------------------------------------------------------------------------

  lemma {:induction false} BareDeliver0(env: Env, now: nat, d: Outbound, p: Pending)
    ensures DeliverQos0(env, now, Bare(d), BarePending(p))
            == Delivered(Bare(DeliverQos0(env, now, d, p).d), DeliverQos0(env, now, d, p).dropped)
  {
    var pub := AsPublish(p, now, None);
    assert AsPublish(BarePending(p), now, None) == BarePublish(pub);
    BareReads(env, d, pub);
    if Online(d) { BareTrySend(d.out.value, Send(pub)); }
  }

  lemma {:induction false} BareDeliver12(env: Env, now: nat, d: Outbound, p: Pending)
    ensures DeliverQos12(env, now, Bare(d), BarePending(p))
            == Delivered(Bare(DeliverQos12(env, now, d, p).d), DeliverQos12(env, now, d, p).dropped)
  {
    var scan := NextId(d);
    BareNextId(d);
    var pub, d1 := AsPublish(p, now, scan.id), d.(nextId := scan.next);
    assert AsPublish(BarePending(p), now, Some(0)) == BarePublish(AsPublish(p, now, Some(0)));
    assert AsPublish(BarePending(p), now, scan.id) == BarePublish(pub);
    BareReads(env, d, AsPublish(p, now, Some(0)));
    assert Bare(d).(nextId := scan.next) == Bare(d1);
    BareEnqueue(d, p, env.maxQueued);
    BareEnqueue(d1, p, env.maxQueued);
    if Online(d) {
      BareTrySend(d.out.value, Send(pub));
      if scan.id.Some? { BareRecord(d1, scan.id.value, pub); }
    }
  }

  lemma {:induction false} BareDeliver(env: Env, now: nat, d: Outbound, p: Pending)
    ensures Deliver(env, now, Bare(d), BarePending(p))
            == Delivered(Bare(Deliver(env, now, d, p).d), Deliver(env, now, d, p).dropped)
  {
    if p.qos == AtMostOnce { BareDeliver0(env, now, d, p); } else { BareDeliver12(env, now, d, p); }
  }

  lemma {:induction false} BareFlushOne(env: Env, now: nat, d: Outbound)
    ensures var it := FlushOne(env, now, d);
      FlushOne(env, now, Bare(d)) == Iteration(Bare(it.d), it.go, it.dropped)
  {
    BareReads(env, d, Publish(false, AtMostOnce, false, "", None, [], "", None, [], UNLABELLED));
    if Online(d) && WindowOpen(d) && d.queue != [] {
      BareHead(env, now, d);
    }
  }

  lemma {:induction false} BareHead(env: Env, now: nat, d: Outbound)
    requires Online(d) && WindowOpen(d) && d.queue != []
    ensures var it := FlushOne(env, now, d);
      FlushOne(env, now, Bare(d)) == Iteration(Bare(it.d), it.go, it.dropped)
  {
    var p, scan := d.queue[0], NextId(d);
    BareNextId(d);
    BarePop(d, scan.next);
    var pub := AsPublish(p, now, scan.id);
    BareReads(env, d, pub);
    if !IsExpired(p.message, now) && scan.id.Some? {
      BareShip(env, now, d, p, scan);
    }
  }

  lemma {:induction false} BareShip(env: Env, now: nat, d: Outbound, p: Pending, scan: Scan)
    requires Online(d) && d.queue != [] && scan.id.Some?
    ensures var pub := AsPublish(p, now, scan.id);
      && AsPublish(BarePending(p), now, scan.id) == BarePublish(pub)
      && TooBig(env, Bare(d), BarePublish(pub)) == TooBig(env, d, pub)
      && CanSend(Bare(d).out.value) == CanSend(d.out.value)
      && Record(Bare(Popped(d, scan.next)), scan.id.value, BarePublish(pub))
         == Bare(Record(Popped(d, scan.next), scan.id.value, pub))
  {
    var pub := AsPublish(p, now, scan.id);
    BareReads(env, d, pub);
    BareTrySend(d.out.value, Send(pub));
    BareRecord(Popped(d, scan.next), scan.id.value, pub);
  }

  lemma {:induction false} BarePop(d: Outbound, next: nat)
    requires d.queue != []
    ensures Bare(d).queue != [] && Bare(d).queue[0] == BarePending(d.queue[0])
    ensures Bare(d).(queue := Bare(d).queue[1..]) == Bare(d.(queue := d.queue[1..]))
    ensures Popped(Bare(d), next) == Bare(Popped(d, next))
    ensures Bare(d).(nextId := next) == Bare(d.(nextId := next))
  {
    assert BareQueue(d.queue)[1..] == BareQueue(d.queue[1..]);
  }

  lemma {:induction false} BareFlush(env: Env, now: nat, d: Outbound)
    ensures Flush(env, now, Bare(d)) == BareResult(Flush(env, now, d))
    decreases |d.queue|
  {
    BareFlushOne(env, now, d);
    var it := FlushOne(env, now, d);
    if it.go { BareFlush(env, now, it.d); }
  }

  // -------------------------------------------------------------------------
  // Resume
  // -------------------------------------------------------------------------

  lemma {:induction false} BareConcat(a: seq<Outgoing>, b: seq<Outgoing>)
    ensures BareItems(a + b) == BareItems(a) + BareItems(b)
  {
  }

  lemma {:induction false} BareResends(m: map<nat, Publish>, order: seq<nat>)
    requires forall id :: id in order ==> id in m
    ensures Resends(BareTable(m), order) == BareItems(Resends(m, order))
  {
    if order != [] {
      BareResends(m, order[1..]);
      BareConcat([Again(m[order[0]])], Resends(m, order[1..]));
    }
  }

  lemma {:induction false} BareReleases(order: seq<nat>)
    ensures BareItems(Releases(order)) == Releases(order)
  {
    if order != [] {
      BareReleases(order[1..]);
      BareConcat([Control(Pubrel(order[0], Success))], Releases(order[1..]));
    }
  }

  lemma {:induction false} BareSendAll(c: Channel, xs: seq<Outgoing>)
    ensures TrySendAll(BareChannel(c), BareItems(xs)) == BareChannel(TrySendAll(c, xs))
    decreases |xs|
  {
    if xs != [] {
      assert BareItems(xs)[1..] == BareItems(xs[1..]) && BareItems(xs)[0] == BareOutgoing(xs[0]);
      BareTrySend(c, xs[0]);
      BareSendAll(TrySend(c, xs[0]), xs[1..]);
    }
  }

  lemma {:induction false} BareOrder(d: Outbound, o: ResumeOrder)
    ensures ValidOrder(Bare(d), o) == ValidOrder(d, o)
  {
    BareKeys(d.puback);
    BareKeys(d.pubrec);
  }

  lemma {:induction false} BareBacklog(d: Outbound, o: ResumeOrder)
    requires ValidOrder(d, o) && ValidOrder(Bare(d), o)
    ensures Backlog(Bare(d), o) == BareItems(Backlog(d, o))
  {
    BareResends(d.puback, o.puback);
    BareResends(d.pubrec, o.pubrec);
    BareReleases(o.pubcomp);
    BareConcat(Resends(d.puback, o.puback) + Resends(d.pubrec, o.pubrec), Releases(o.pubcomp));
    BareConcat(Resends(d.puback, o.puback), Resends(d.pubrec, o.pubrec));
  }

  lemma {:induction false} BareResume(env: Env, now: nat, d: Outbound, o: ResumeOrder)
    requires ValidOrder(d, o) && ValidOrder(Bare(d), o)
    ensures Resume(env, now, Bare(d), o) == BareResult(Resume(env, now, d, o))
  {
    if Online(d) {
      BareBacklog(d, o);
      BareSendAll(d.out.value, Backlog(d, o));
      var sent := d.(out := Some(TrySendAll(d.out.value, Backlog(d, o))));
      assert Bare(d).(out := Some(TrySendAll(Bare(d).out.value, Backlog(Bare(d), o)))) == Bare(sent);
      BareFlush(env, now, sent);
    }
  }

  // -------------------------------------------------------------------------
  // Events
  // -------------------------------------------------------------------------

  lemma {:induction false} BareResumed(d: Outbound, ev: Event)
    requires ev.Reconnect? && ev.out.items == []
    ensures Resumed(Bare(d), ev) == Bare(Resumed(d, ev))
  {
    assert BareItems([]) == [] && BareQueue([]) == [] && BareTable(map[]) == map[];
    assert BareChannel(ev.out) == ev.out;
  }

  lemma {:induction false} BareEnabled(d: Outbound, ev: Event)
    ensures Enabled(Bare(d), BareEvent(ev)) == Enabled(d, ev)
  {
    if ev.Reconnect? && ev.out.items == [] {
      BareResumed(d, ev);
      BareOrder(Resumed(d, ev), ev.order);
    }
  }

  lemma {:induction false} BareAck(env: Env, now: nat, d: Outbound, ev: Event)
    requires ev.AckPuback? || ev.AckPubrec? || ev.AckPubcomp?
    ensures Step(env, now, Bare(d), ev) == BareResult(Step(env, now, d, ev))
  {
    match ev
    case AckPuback(id) =>
      BareRemove(d.puback, id);
      assert Bare(d).(puback := Bare(d).puback - {id}) == Bare(d.(puback := d.puback - {id}));
      BareFlush(env, now, d.(puback := d.puback - {id}));
    case AckPubcomp(id) =>
      assert Bare(d).(pubcomp := Bare(d).pubcomp - {id}) == Bare(d.(pubcomp := d.pubcomp - {id}));
      BareFlush(env, now, d.(pubcomp := d.pubcomp - {id}));
    case AckPubrec(id, rc) => BarePubrec(d, id, rc);
  }

  lemma {:induction false} BarePubrec(d: Outbound, id: nat, rc: ReasonCode)
    ensures HandlePubrec(Bare(d), id, rc) == Bare(HandlePubrec(d, id, rc))
  {
    BareRemove(d.pubrec, id);
    var d1 := d.(pubrec := d.pubrec - {id});
    var d2 := d1.(pubcomp := d1.pubcomp + {id});
    assert Bare(d).(pubrec := Bare(d).pubrec - {id}) == Bare(d1);
    assert Bare(d1).(pubcomp := Bare(d1).pubcomp + {id}) == Bare(d2);
    BareNotify(d2, Control(Pubrel(id, Success)));
    BareNotify(d1, Control(Pubrel(id, PacketIdentifierNotFound)));
  }

  lemma {:induction false} BareWire(env: Env, now: nat, d: Outbound, ev: Event)
    requires Enabled(d, ev) && Enabled(Bare(d), ev) && (ev.Tell? || ev.Drain? || ev.ReceiverGone? || ev.GoOffline?)
    ensures Step(env, now, Bare(d), ev) == BareResult(Step(env, now, d, ev))
  {
    match ev
    case Tell(x) => BareNotify(d, x);
    case Drain => assert BareItems(d.out.value.items)[1..] == BareItems(d.out.value.items[1..]);
    case _ =>
  }

  // Erasing labels commutes with every event.
  lemma {:induction false} BareStep(env: Env, now: nat, d: Outbound, ev: Event)
    requires Enabled(d, ev)
    ensures Enabled(Bare(d), BareEvent(ev))
    ensures Step(env, now, Bare(d), BareEvent(ev)) == BareResult(Step(env, now, d, ev))
  {
    BareEnabled(d, ev);
    match ev
    case Give(p) => BareDeliver(env, now, d, p);
    case Reconnect(_, _, _, _, order) =>
      BareResumed(d, ev);
      BareOrder(Resumed(d, ev), order);
      BareResume(env, now, Resumed(d, ev), order);
    case AckPuback(_) => BareAck(env, now, d, ev);
    case AckPubrec(_, _) => BareAck(env, now, d, ev);
    case AckPubcomp(_) => BareAck(env, now, d, ev);
    case _ => BareWire(env, now, d, ev);
  }

  lemma {:induction false} BareNext(env: Env, d: Outbound, t: Timed)
    ensures Next(env, Bare(d), At(t.now, BareEvent(t.ev))) == BareResult(Next(env, d, t))
  {
    BareEnabled(d, t.ev);
    if Enabled(d, t.ev) { BareStep(env, t.now, d, t.ev); }
  }

  // A ledger follows its session: it is in the same state but for labels, and
  // counts the same drops, event by event.
  lemma {:induction false} LedgerFollows(env: Env, b: Books, d: Outbound, t: Timed)
    requires Bare(b.d) == Bare(d)
    ensures Bare(NextBooks(env, b, t).d) == Bare(Next(env, d, t).d)
    ensures NextBooks(env, b, t).dropped == b.dropped + Next(env, d, t).dropped
  {
    var u := At(t.now, Stamped(t.ev, b.next));
    assert BareEvent(u.ev) == BareEvent(t.ev);
    BareNext(env, b.d, u);
    BareNext(env, d, t);
  }

  // Over a whole run, the ledger's session is the session itself but for labels.
  lemma {:induction false} LedgerIsTheRun(env: Env, b: Books, d: Outbound, run: seq<Timed>)
    requires Bare(b.d) == Bare(d)
    ensures Bare(Ledger(env, b, run).d) == Bare(Exec(env, d, run))
    decreases |run|
  {
    if run != [] {
      LedgerFollows(env, b, d, run[0]);
      LedgerIsTheRun(env, NextBooks(env, b, run[0]), Next(env, d, run[0]).d, run[1..]);
    }
  }
}
