// Runs of one session: every event that can reach its outbound state, in any
// order, and what each of them keeps.

module SessionRuns {
  import opened Types
  import opened Delivery

  datatype Event =
    | Give(p: Pending)
    | AckPuback(id: nat)
    | AckPubrec(id: nat, rc: ReasonCode)
    | AckPubcomp(id: nat)
    | Tell(x: Outgoing)
    | Drain
    | ReceiverGone
    | GoOffline
    | Reconnect(changed: bool, out: Channel, receiveMax: nat, maxPacketSize: Option<nat>, order: ResumeOrder)

  // A resumed session before its backlog is sent.
  function Resumed(d: Outbound, ev: Event): Outbound
    requires ev.Reconnect?
  {
    Rebind(if ev.changed then Wiped(d) else d, ev.out, ev.receiveMax, ev.maxPacketSize)
  }

  predicate Enabled(d: Outbound, ev: Event) {
    match ev
    case Tell(x) => !x.Send? && !(x.Control? && x.packet.Pubrel?)
    case Drain => Online(d) && d.out.value.items != []
    case ReceiverGone => Online(d)
    case Reconnect(_, out, receiveMax, _, order) =>
      out.items == [] && receiveMax <= MAX_ID && ValidOrder(Resumed(d, ev), order)
    case _ => true
  }

  ghost function Step(env: Env, now: nat, d: Outbound, ev: Event): Flushed
    requires Enabled(d, ev)
  {
    match ev
    case Give(p) =>
      var r := Deliver(env, now, d, p);
      Flushed(r.d, if r.dropped then 1 else 0)
    case AckPuback(id) => HandlePuback(env, now, d, id)
    case AckPubrec(id, rc) => Flushed(HandlePubrec(d, id, rc), 0)
    case AckPubcomp(id) => HandlePubcomp(env, now, d, id)
    case Tell(x) => Flushed(Notify(d, x), 0)
    case Drain => Flushed(d.(out := Some(d.out.value.(items := d.out.value.items[1..]))), 0)
    case ReceiverGone => Flushed(d.(out := Some(d.out.value.(open := false))), 0)
    case GoOffline => Flushed(d.(out := None), 0)
    case Reconnect(_, _, _, _, order) => Resume(env, now, Resumed(d, ev), order)
  }

  // Several deliveries in a row.
  ghost function GiveAll(env: Env, now: nat, d: Outbound, ps: seq<Pending>): Flushed
    decreases |ps|
  {
    if ps == [] then Flushed(d, 0)
    else
      var r := Deliver(env, now, d, ps[0]);
      var rest := GiveAll(env, now, r.d, ps[1..]);
      Flushed(rest.d, (if r.dropped then 1 else 0) + rest.dropped)
  }

  // -------------------------------------------------------------------------
  // The elementary moves every event is made of
  // -------------------------------------------------------------------------

  datatype Move =
    | Stay(next: nat)                          // only the id cursor may move
    | Skip(next: nat)                          // the queue's head is discarded
    | Ship(next: nat, id: nat, pub: Publish)   // the queue's head goes in flight

  ghost function Popped(d: Outbound, next: nat): Outbound
    requires d.queue != []
  {
    d.(queue := d.queue[1..], nextId := next)
  }

  ghost predicate Shippable(d: Outbound, id: nat, pub: Publish) {
    Online(d) && WindowOpen(d) && CanSend(d.out.value)
    && IsId(id) && Free(d, id) && pub.packetId == Some(id) && pub.qos != AtMostOnce && !pub.dup
  }

  ghost predicate Legal(d: Outbound, mv: Move) {
    && IsId(mv.next)
    && (!mv.Stay? ==> d.queue != [])
    && (mv.Ship? ==> Shippable(d, mv.id, mv.pub)
                     && mv.pub.lbl == d.queue[0].lbl && mv.pub.qos == d.queue[0].qos)
  }

  ghost function Moved(d: Outbound, mv: Move): Outbound
    requires Legal(d, mv)
  {
    match mv
    case Stay(next) => d.(nextId := next)
    case Skip(next) => Popped(d, next)
    case Ship(next, id, pub) => Record(Popped(d, next), id, pub)
  }

  // The message does not fit the client's Maximum Packet Size.
  ghost predicate Oversize(env: Env, d: Outbound, p: Pending, now: nat) {
    exists id: nat :: TooBig(env, d, AsPublish(p, now, Some(id)))
  }

  // Each iteration of flush_queue is one legal move; an entry is discarded
  // because it expired, uncounted, or because it is too big, counted.
  lemma {:induction false} FlushMove(env: Env, now: nat, d: Outbound) returns (mv: Move)
    requires WellFormed(d)
    ensures Legal(d, mv)
    ensures var it := FlushOne(env, now, d);
      && it.d == Moved(d, mv)
      && it.go == !mv.Stay?
      && it.dropped == (if mv.Skip? && !IsExpired(d.queue[0].message, now) then 1 else 0)
      && (mv.Ship? ==> mv.pub == AsPublish(d.queue[0], now, Some(mv.id)) && Carries(mv.pub, d.queue[0], now)
                       && !IsExpired(d.queue[0].message, now) && !TooBig(env, d, mv.pub))
      && (mv.Skip? && !IsExpired(d.queue[0].message, now) ==>
            exists id :: TooBig(env, d, AsPublish(d.queue[0], now, Some(id))))
    ensures mv.Stay? ==> !Online(d) || !WindowOpen(d) || d.queue == [] || !CanSend(d.out.value)
  {
    if !Online(d) || !WindowOpen(d) || d.queue == [] {
      mv := Stay(d.nextId);
    } else if IsExpired(d.queue[0].message, now) {
      mv := Skip(d.nextId);
      assert d.(queue := d.queue[1..]) == Popped(d, d.nextId);
    } else {
      OpenWindowHasId(d);
      var scan := NextId(d);
      var pub := AsPublish(d.queue[0], now, scan.id);
      assert d.queue[0].qos != AtMostOnce;
      if TooBig(env, d, pub) {
        mv := Skip(scan.next);
      } else if !CanSend(d.out.value) {
        mv := Stay(scan.next);
      } else {
        mv := Ship(scan.next, scan.id.value, pub);
        ToPublishCarries(d.queue[0], now, scan.id);
      }
    }
  }

  lemma {:induction false} ToPublishCarriesAny(p: Pending, now: nat)
    requires !IsExpired(p.message, now)
    ensures forall id: Option<nat> {:trigger AsPublish(p, now, id)} ::
      (p.qos != AtMostOnce ==> id.Some?) ==> Carries(AsPublish(p, now, id), p, now)
  {
    forall id: Option<nat> | p.qos != AtMostOnce ==> id.Some? ensures Carries(AsPublish(p, now, id), p, now) {
      ToPublishCarries(p, now, id);
    }
  }

  // What one delivery does to the session.
  datatype Effect =
    | Ignored                                  // expired, or QoS 0 while offline
    | Refused                                  // too big, or QoS 0 into a full channel
    | Pushed(pub: Publish)                     // QoS 0, sent
    | Shipped(next: nat, id: nat, pub: Publish)
    | Queued(next: nat, evicting: bool)

  ghost predicate Fits(env: Env, d: Outbound, p: Pending, ef: Effect) {
    match ef
    case Ignored => true
    case Refused => true
    case Pushed(pub) => p.qos == AtMostOnce && Online(d) && pub.qos == AtMostOnce && pub.lbl == p.lbl
    case Shipped(next, id, pub) =>
      p.qos != AtMostOnce && IsId(next) && Shippable(d, id, pub) && pub.lbl == p.lbl && pub.qos == p.qos
    case Queued(next, evicting) =>
      p.qos != AtMostOnce && IsId(next) && evicting == (env.maxQueued > 0 && |d.queue| >= env.maxQueued)
  }

  ghost function Affected(d: Outbound, p: Pending, ef: Effect): Outbound
    requires ef.Pushed? || ef.Shipped? ==> Online(d)
    requires ef.Queued? && ef.evicting ==> d.queue != []
  {
    match ef
    case Ignored => d
    case Refused => d
    case Pushed(pub) => d.(out := Some(Push(d.out.value, Send(pub))))
    case Shipped(next, id, pub) => Record(d.(nextId := next), id, pub)
    case Queued(next, evicting) =>
      d.(nextId := next, queue := (if evicting then d.queue[1..] else d.queue) + [p])
  }

  // The message does not fit the client, or at QoS 0 there is no room for it.
  ghost predicate Refuses(env: Env, now: nat, d: Outbound, p: Pending) {
    if p.qos == AtMostOnce
    then Online(d) && (TooBig(env, d, AsPublish(p, now, None)) || !CanSend(d.out.value))
    else TooBig(env, d, AsPublish(p, now, Some(0)))
  }

  // The client can be sent a message that needs an acknowledgement.
  ghost predicate Ready(d: Outbound) {
    Online(d) && WindowOpen(d) && CanSend(d.out.value)
  }

  lemma {:induction false} DeliverEffect(env: Env, now: nat, d: Outbound, p: Pending) returns (ef: Effect)
    requires WellFormed(d)
    ensures Fits(env, d, p, ef)
    ensures Deliver(env, now, d, p) == Delivered(Affected(d, p, ef), ef.Refused? || (ef.Queued? && ef.evicting))
    ensures ef.Ignored? <==> IsExpired(p.message, now) || (p.qos == AtMostOnce && !Online(d))
    ensures ef.Refused? <==> !ef.Ignored? && Refuses(env, now, d, p)
    ensures ef.Pushed? <==> !ef.Ignored? && !Refuses(env, now, d, p) && p.qos == AtMostOnce
    ensures ef.Shipped? <==> !ef.Ignored? && !Refuses(env, now, d, p) && p.qos != AtMostOnce && Ready(d)
    ensures ef.Queued? <==> !ef.Ignored? && !Refuses(env, now, d, p) && p.qos != AtMostOnce && !Ready(d)
    ensures ef.Pushed? || ef.Shipped? ==> Carries(ef.pub, p, now) && !ef.pub.dup
  {
    if !IsExpired(p.message, now) { ToPublishCarriesAny(p, now); }
    if IsExpired(p.message, now) {
      ef := Ignored;
    } else if p.qos == AtMostOnce {
      var pub := AsPublish(p, now, None);
      ef := if !Online(d) then Ignored
            else if TooBig(env, d, pub) || !CanSend(d.out.value) then Refused
            else Pushed(pub);
    } else if TooBig(env, d, AsPublish(p, now, Some(0))) {
      ef := Refused;
    } else {
      var evicting := env.maxQueued > 0 && |d.queue| >= env.maxQueued;
      if Online(d) && WindowOpen(d) {
        OpenWindowHasId(d);
        var scan := NextId(d);
        ef := if CanSend(d.out.value) then Shipped(scan.next, scan.id.value, AsPublish(p, now, scan.id))
              else Queued(scan.next, evicting);
      } else {
        ef := Queued(d.nextId, evicting);
      }
    }
  }

  // -------------------------------------------------------------------------
  // Identifiers stay disjoint and in range
  // -------------------------------------------------------------------------

  lemma {:induction false} RecordKeepsWellFormed(d: Outbound, id: nat, p: Publish)
    requires WellFormed(d) && Shippable(d, id, p)
    ensures WellFormed(Record(d, id, p))
  {
  }

  lemma {:induction false} PoppedKeepsWellFormed(d: Outbound, next: nat)
    requires WellFormed(d) && d.queue != [] && IsId(next)
    ensures WellFormed(Popped(d, next))
  {
  }

  lemma {:induction false} MoveKeepsWellFormed(d: Outbound, mv: Move)
    requires WellFormed(d) && Legal(d, mv)
    ensures WellFormed(Moved(d, mv))
  {
    if !mv.Stay? {
      PoppedKeepsWellFormed(d, mv.next);
      if mv.Ship? { RecordKeepsWellFormed(Popped(d, mv.next), mv.id, mv.pub); }
    }
  }

  lemma {:induction false} EffectKeepsWellFormed(env: Env, d: Outbound, p: Pending, ef: Effect)
    requires WellFormed(d) && Fits(env, d, p, ef)
    ensures WellFormed(Affected(d, p, ef))
  {
    if ef.Shipped? { RecordKeepsWellFormed(d.(nextId := ef.next), ef.id, ef.pub); }
  }

  lemma {:induction false} DeliverKeepsWellFormed(env: Env, now: nat, d: Outbound, p: Pending)
    requires WellFormed(d)
    ensures WellFormed(Deliver(env, now, d, p).d)
  {
    var ef := DeliverEffect(env, now, d, p);
    EffectKeepsWellFormed(env, d, p, ef);
  }

  lemma {:induction false} FlushKeepsWellFormed(env: Env, now: nat, d: Outbound)
    requires WellFormed(d)
    ensures WellFormed(Flush(env, now, d).d)
    decreases |d.queue|
  {
    var mv := FlushMove(env, now, d);
    MoveKeepsWellFormed(d, mv);
    if !mv.Stay? { FlushKeepsWellFormed(env, now, Moved(d, mv)); }
  }

  lemma {:induction false} PubrecKeepsWellFormed(d: Outbound, id: nat, rc: ReasonCode)
    requires WellFormed(d)
    ensures WellFormed(HandlePubrec(d, id, rc))
  {
  }

  // The in-flight tables stay pairwise disjoint sets of identifiers in
  // 1..65535 under every event.
  lemma {:induction false} StepKeepsWellFormed(env: Env, now: nat, d: Outbound, ev: Event)
    requires WellFormed(d) && Enabled(d, ev)
    ensures WellFormed(Step(env, now, d, ev).d)
  {
    match ev
    case Give(p) => DeliverKeepsWellFormed(env, now, d, p);
    case AckPuback(id) => FlushKeepsWellFormed(env, now, d.(puback := d.puback - {id}));
    case AckPubrec(id, rc) => PubrecKeepsWellFormed(d, id, rc);
    case AckPubcomp(id) => FlushKeepsWellFormed(env, now, d.(pubcomp := d.pubcomp - {id}));
    case Reconnect(_, _, _, _, order) =>
      var r := Resumed(d, ev);
      FlushKeepsWellFormed(env, now, r.(out := Some(TrySendAll(r.out.value, Backlog(r, order)))));
    case _ =>
  }

  // -------------------------------------------------------------------------
  // In-flight entries stay until they are acknowledged
  // -------------------------------------------------------------------------

  // Every entry of the in-flight tables is still there, as it was.
  ghost predicate KeepsEntries(d: Outbound, d': Outbound) {
    && (forall id :: id in d.puback ==> id in d'.puback && d'.puback[id] == d.puback[id])
    && (forall id :: id in d.pubrec ==> id in d'.pubrec && d'.pubrec[id] == d.pubrec[id])
    && d.pubcomp <= d'.pubcomp
  }

  lemma {:induction false} RecordKeepsEntries(d: Outbound, id: nat, p: Publish)
    requires Shippable(d, id, p)
    ensures KeepsEntries(d, Record(d, id, p))
  {
  }

  lemma {:induction false} FlushKeepsEntries(env: Env, now: nat, d: Outbound)
    requires WellFormed(d)
    ensures KeepsEntries(d, Flush(env, now, d).d)
    decreases |d.queue|
  {
    var mv := FlushMove(env, now, d);
    if mv.Ship? { RecordKeepsEntries(Popped(d, mv.next), mv.id, mv.pub); }
    if !mv.Stay? {
      MoveKeepsWellFormed(d, mv);
      FlushKeepsEntries(env, now, Moved(d, mv));
    }
  }

  lemma {:induction false} DeliverKeepsEntries(env: Env, now: nat, d: Outbound, p: Pending)
    requires WellFormed(d)
    ensures KeepsEntries(d, Deliver(env, now, d, p).d)
  {
    var ef := DeliverEffect(env, now, d, p);
    if ef.Shipped? { RecordKeepsEntries(d.(nextId := ef.next), ef.id, ef.pub); }
  }

  // What an event may remove from the tables: the entry it acknowledges, or
  // everything when the session changes hands.
  ghost function Settled(d: Outbound, ev: Event): Outbound {
    match ev
    case AckPuback(id) => d.(puback := d.puback - {id})
    case AckPubrec(id, _) => d.(pubrec := d.pubrec - {id})
    case AckPubcomp(id) => d.(pubcomp := d.pubcomp - {id})
    case Reconnect(changed, _, _, _, _) => if changed then Wiped(d) else d
    case _ => d
  }

  lemma {:induction false} ResumeKeepsEntries(env: Env, now: nat, d: Outbound, o: ResumeOrder)
    requires WellFormed(d) && Online(d) && ValidOrder(d, o)
    ensures KeepsEntries(d, Resume(env, now, d, o).d)
  {
    FlushKeepsEntries(env, now, d.(out := Some(TrySendAll(d.out.value, Backlog(d, o)))));
  }

  lemma {:induction false} PubrecKeepsEntries(d: Outbound, id: nat, rc: ReasonCode)
    ensures KeepsEntries(d.(pubrec := d.pubrec - {id}), HandlePubrec(d, id, rc))
  {
  }

  // No in-flight entry is ever overwritten: whatever the event, every entry it
  // does not itself settle is afterwards exactly what it was.
  lemma {:induction false} EntriesStay(env: Env, now: nat, d: Outbound, ev: Event)
    requires WellFormed(d) && Enabled(d, ev)
    ensures KeepsEntries(Settled(d, ev), Step(env, now, d, ev).d)
  {
    match ev
    case Give(p) => DeliverKeepsEntries(env, now, d, p);
    case AckPuback(id) => FlushKeepsEntries(env, now, d.(puback := d.puback - {id}));
    case AckPubrec(id, rc) => PubrecKeepsEntries(d, id, rc);
    case AckPubcomp(id) => FlushKeepsEntries(env, now, d.(pubcomp := d.pubcomp - {id}));
    case Reconnect(_, _, _, _, order) => ResumeKeepsEntries(env, now, Resumed(d, ev), order);
    case _ =>
  }

  // -------------------------------------------------------------------------
  // Runs
  // -------------------------------------------------------------------------

  datatype Timed = At(now: nat, ev: Event)

  // One event, or nothing when the event cannot happen in this state.
  ghost function Next(env: Env, d: Outbound, t: Timed): Flushed {
    if Enabled(d, t.ev) then Step(env, t.now, d, t.ev) else Flushed(d, 0)
  }

  ghost function Exec(env: Env, d: Outbound, run: seq<Timed>): Outbound
    decreases |run|
  {
    if run == [] then d else Exec(env, Next(env, d, run[0]).d, run[1..])
  }

  // Identifier discipline in every reachable state: in particular every run
  // from a fresh session.
  lemma {:induction false} RunKeepsWellFormed(env: Env, d: Outbound, run: seq<Timed>)
    requires WellFormed(d)
    ensures WellFormed(Exec(env, d, run))
    decreases |run|
  {
    if run != [] {
      if Enabled(d, run[0].ev) { StepKeepsWellFormed(env, run[0].now, d, run[0].ev); }
      RunKeepsWellFormed(env, Next(env, d, run[0]).d, run[1..]);
    }
  }
}
