// The outbound half of a session: packet identifiers, the in-flight maps, the
// window, the bounded queue, acknowledgements and resume.

module Delivery {
  import opened Types

  /** A bounded FIFO towards the connection task; `open` is false once the
      receiving side is gone. */
  datatype Channel = Channel(capacity: nat, items: seq<Outgoing>, open: bool)

  predicate CanSend(c: Channel) {
    c.open && |c.items| < c.capacity
  }

  function Push(c: Channel, x: Outgoing): Channel {
    c.(items := c.items + [x])
  }

  // A send whose failure the caller ignores.
  function TrySend(c: Channel, x: Outgoing): Channel {
    if CanSend(c) then Push(c, x) else c
  }

  datatype Outbound = Outbound(
    out: Option<Channel>,
    receiveMax: nat,
    maxPacketSize: Option<nat>,
    nextId: nat,
    puback: map<nat, Publish>,
    pubrec: map<nat, Publish>,
    pubcomp: set<nat>,
    queue: seq<Pending>)

  const FRESH := Outbound(None, MAX_ID, None, 1, map[], map[], {}, [])

  predicate Online(d: Outbound) {
    d.out.Some?
  }

  function InUse(d: Outbound): set<nat> {
    d.puback.Keys + d.pubrec.Keys + d.pubcomp
  }

  function InflightCount(d: Outbound): nat {
    |d.puback| + |d.pubrec| + |d.pubcomp|
  }

  predicate WindowOpen(d: Outbound) {
    InflightCount(d) < d.receiveMax
  }

  function SuccId(id: nat): nat {
    if id == MAX_ID then 1 else id + 1
  }

  datatype Scan = Scan(id: Option<nat>, next: nat)

  // The identifier `k` positions after `start` in cyclic order.
  function Ahead(start: nat, k: nat): nat {
    if start + k <= MAX_ID then start + k else start + k - MAX_ID
  }

  ghost predicate FirstFree(start: nat, used: set<nat>, k: nat) {
    && k < MAX_ID
    && Ahead(start, k) !in used
    && (forall j :: 0 <= j < k ==> Ahead(start, j) in used)
  }

  // next_id: the first identifier not in use, in cyclic order from the cursor,
  // which is left just behind it. A failed search probes one identifier more
  // than there are, so it leaves the cursor one further.
  ghost function NextId(d: Outbound): Scan {
    if exists k :: FirstFree(d.nextId, InUse(d), k) then
      var k :| FirstFree(d.nextId, InUse(d), k);
      Scan(Some(Ahead(d.nextId, k)), SuccId(Ahead(d.nextId, k)))
    else Scan(None, SuccId(d.nextId))
  }

  // The label is not on the wire.
  function Exceeds(env: Env, p: Publish, cap: nat): bool {
    match env.wireSize(p.(lbl := UNLABELLED))
    case None => false
    case Some(n) => n % 0x1_0000_0000 > cap
  }

  predicate TooBig(env: Env, d: Outbound, p: Publish) {
    d.maxPacketSize.Some? && Exceeds(env, p, d.maxPacketSize.value)
  }

  // A PUBLISH that entered the channel is remembered until it is acknowledged.
  function Record(d: Outbound, id: nat, p: Publish): Outbound
    requires Online(d)
  {
    var sent := d.(out := Some(Push(d.out.value, Send(p))));
    match p.qos
    case AtLeastOnce => sent.(puback := d.puback[id := p])
    case ExactlyOnce => sent.(pubrec := d.pubrec[id := p])
    case AtMostOnce => sent
  }

  datatype Delivered = Delivered(d: Outbound, dropped: bool)

  // Queue `p`, pushing out the oldest entry when the bound is reached.
  function Enqueue(d: Outbound, p: Pending, maxQueued: nat): Delivered {
    if maxQueued > 0 && |d.queue| >= maxQueued
    then Delivered(d.(queue := d.queue[1..] + [p]), true)
    else Delivered(d.(queue := d.queue + [p]), false)
  }

  function AsPublish(p: Pending, now: nat, id: Option<nat>): Publish {
    ToPublish(p.message, now, p.qos, id, p.retain, p.subIds, p.lbl)
  }

  // deliver_to_session at QoS 0: sent at once or not at all.
  function DeliverQos0(env: Env, now: nat, d: Outbound, p: Pending): Delivered {
    var pub := AsPublish(p, now, None);
    if !Online(d) then Delivered(d, false)
    else if TooBig(env, d, pub) || !CanSend(d.out.value) then Delivered(d, true)
    else Delivered(d.(out := Some(Push(d.out.value, Send(pub)))), false)
  }

  // deliver_to_session at QoS 1 and 2: sent when online with an open window
  // and a willing channel, queued otherwise.
  ghost function DeliverQos12(env: Env, now: nat, d: Outbound, p: Pending): Delivered {
    if TooBig(env, d, AsPublish(p, now, Some(0))) then Delivered(d, true)
    else if Online(d) && WindowOpen(d) then
      var scan := NextId(d);
      var d1 := d.(nextId := scan.next);
      if scan.id.Some? && CanSend(d.out.value)
      then Delivered(Record(d1, scan.id.value, AsPublish(p, now, scan.id)), false)
      else Enqueue(d1, p, env.maxQueued)
    else Enqueue(d, p, env.maxQueued)
  }

  ghost function Deliver(env: Env, now: nat, d: Outbound, p: Pending): Delivered {
    if IsExpired(p.message, now) then Delivered(d, false)
    else if p.qos == AtMostOnce then DeliverQos0(env, now, d, p)
    else DeliverQos12(env, now, d, p)
  }

  // One iteration of flush_queue; `go` is false when the loop stops here.
  datatype Iteration = Iteration(d: Outbound, go: bool, dropped: nat)

  ghost function FlushOne(env: Env, now: nat, d: Outbound): (it: Iteration)
    ensures |it.d.queue| <= |d.queue| && Online(it.d) == Online(d)
    ensures it.go ==> |it.d.queue| < |d.queue|
  {
    if !Online(d) || !WindowOpen(d) || d.queue == [] then Iteration(d, false, 0)
    else
      var p := d.queue[0];
      var rest := d.(queue := d.queue[1..]);
      if IsExpired(p.message, now) then Iteration(rest, true, 0)
      else
        var scan := NextId(d);
        if scan.id.None? then Iteration(d.(nextId := scan.next), false, 0)
        else
          var pub := AsPublish(p, now, scan.id);
          var popped := rest.(nextId := scan.next);
          if TooBig(env, d, pub) then Iteration(popped, true, 1)
          else if !CanSend(d.out.value) then Iteration(d.(nextId := scan.next), false, 0)
          else Iteration(Record(popped, scan.id.value, pub), true, 0)
  }

  datatype Flushed = Flushed(d: Outbound, dropped: nat)

  ghost function Flush(env: Env, now: nat, d: Outbound): Flushed
    decreases |d.queue|
  {
    var it := FlushOne(env, now, d);
    if !it.go then Flushed(it.d, it.dropped)
    else
      var rest := Flush(env, now, it.d);
      Flushed(rest.d, it.dropped + rest.dropped)
  }

  /** Iteration orders of the three in-flight tables on resume. */
  datatype ResumeOrder = ResumeOrder(puback: seq<nat>, pubrec: seq<nat>, pubcomp: seq<nat>)

  predicate ValidOrder(d: Outbound, o: ResumeOrder) {
    && Enumerates(o.puback, d.puback.Keys)
    && Enumerates(o.pubrec, d.pubrec.Keys)
    && Enumerates(o.pubcomp, d.pubcomp)
  }

  function Again(p: Publish): Outgoing {
    Send(p.(dup := true))
  }

  function Resends(m: map<nat, Publish>, order: seq<nat>): seq<Outgoing>
    requires forall id :: id in order ==> id in m
  {
    if order == [] then []
    else [Again(m[order[0]])] + Resends(m, order[1..])
  }

  function Releases(order: seq<nat>): seq<Outgoing> {
    if order == [] then []
    else [Control(Pubrel(order[0], Success))] + Releases(order[1..])
  }

  function TrySendAll(c: Channel, items: seq<Outgoing>): Channel
    decreases |items|
  {
    if items == [] then c else TrySendAll(TrySend(c, items[0]), items[1..])
  }

  function Backlog(d: Outbound, o: ResumeOrder): seq<Outgoing>
    requires ValidOrder(d, o)
  {
    Resends(d.puback, o.puback) + Resends(d.pubrec, o.pubrec) + Releases(o.pubcomp)
  }

  // resume_delivery: unacknowledged packets first, then the queue.
  ghost function Resume(env: Env, now: nat, d: Outbound, o: ResumeOrder): Flushed
    requires ValidOrder(d, o)
  {
    if !Online(d) then Flushed(d, 0)
    else Flush(env, now, d.(out := Some(TrySendAll(d.out.value, Backlog(d, o)))))
  }

  ghost function HandlePuback(env: Env, now: nat, d: Outbound, id: nat): Flushed {
    Flush(env, now, d.(puback := d.puback - {id}))
  }

  // PUBREC: an error frees the identifier, success turns it into a release.
  function HandlePubrec(d: Outbound, id: nat, rc: ReasonCode): Outbound {
    var known := id in d.pubrec;
    var d1 := d.(pubrec := d.pubrec - {id});
    if rc.IsError() then d1
    else if known then
      Notify(d1.(pubcomp := d1.pubcomp + {id}), Control(Pubrel(id, Success)))
    else
      Notify(d1, Control(Pubrel(id, PacketIdentifierNotFound)))
  }

  ghost function HandlePubcomp(env: Env, now: nat, d: Outbound, id: nat): Flushed {
    Flush(env, now, d.(pubcomp := d.pubcomp - {id}))
  }

  // A best-effort control packet to the client, if it is online.
  function Notify(d: Outbound, x: Outgoing): Outbound {
    if Online(d) then d.(out := Some(TrySend(d.out.value, x))) else d
  }

  // What a change of identity leaves of the outbound state.
  function Wiped(d: Outbound): Outbound {
    d.(queue := [], puback := map[], pubrec := map[], pubcomp := {})
  }

  // The part of CONNECT that rebinds a kept session to a new connection.
  function Rebind(d: Outbound, out: Channel, receiveMax: nat, maxPacketSize: Option<nat>): Outbound {
    d.(out := Some(out), receiveMax := receiveMax, maxPacketSize := maxPacketSize)
  }

  // -------------------------------------------------------------------------
  // Packet identifiers
  // -------------------------------------------------------------------------

  ghost predicate IsId(id: nat) {
    1 <= id <= MAX_ID
  }

  /** The state every reachable session satisfies: identifiers in range, the
      three in-flight tables disjoint, each entry filed under its own
      identifier and QoS, and only QoS 1 and 2 messages queued. */
  ghost predicate WellFormed(d: Outbound) {
    && IsId(d.nextId)
    && d.receiveMax <= MAX_ID
    && (forall id :: id in d.puback ==> IsId(id) && Filed(d.puback[id], id, AtLeastOnce))
    && (forall id :: id in d.pubrec ==> IsId(id) && Filed(d.pubrec[id], id, ExactlyOnce))
    && (forall id :: id in d.pubcomp ==> IsId(id))
    && (forall id :: id in d.puback ==> id !in d.pubrec && id !in d.pubcomp)
    && (forall id :: id in d.pubrec ==> id !in d.pubcomp)
    && (forall k :: 0 <= k < |d.queue| ==> d.queue[k].qos != AtMostOnce)
  }

  ghost predicate Filed(p: Publish, id: nat, qos: QoS) {
    p.packetId == Some(id) && p.qos == qos
  }

  // Probing finds the first free identifier or shows all probed ones in use.
  lemma {:induction false} ProbeFindsFirst(start: nat, used: set<nat>, tries: nat) returns (k: nat)
    requires IsId(start) && tries <= MAX_ID
    ensures forall j :: 0 <= j < k ==> Ahead(start, j) in used
    ensures FirstFree(start, used, k) || k == tries
  {
    k := 0;
    while k < tries && Ahead(start, k) in used
      invariant k <= tries
      invariant forall j :: 0 <= j < k ==> Ahead(start, j) in used
    {
      k := k + 1;
    }
  }

  ghost function IdsUpTo(n: nat): set<nat> {
    set i: nat | i <= n && 0 < Ahead(i, 0)
  }

  lemma {:induction false} IdsUpToSize(n: nat)
    ensures |IdsUpTo(n)| == n
  {
    if n == 0 {
      assert IdsUpTo(0) == {};
    } else {
      IdsUpToSize(n - 1);
      assert IdsUpTo(n) == IdsUpTo(n - 1) + {n};
    }
  }

  lemma {:induction false} SubsetSize<T>(a: set<T>, b: set<T>)
    requires a <= b
    ensures |a| <= |b|
  {
    if a != {} {
      var x :| x in a;
      SubsetSize(a - {x}, b - {x});
    }
  }

  lemma {:induction false} InflightIsInUse(d: Outbound)
    requires WellFormed(d)
    ensures |InUse(d)| == InflightCount(d)
  {
    assert |d.puback.Keys + d.pubrec.Keys| == |d.puback| + |d.pubrec|;
  }

  // next_id fails exactly when all 65535 identifiers are in use; otherwise it
  // returns one in range that no in-flight entry holds.
  lemma {:induction false} NextIdExact(d: Outbound)
    requires WellFormed(d)
    ensures NextId(d).id.None? <==> forall id :: IsId(id) ==> id in InUse(d)
    ensures NextId(d).id.Some? ==> IsId(NextId(d).id.value) && NextId(d).id.value !in InUse(d)
    ensures IsId(NextId(d).next)
  {
    var k := ProbeFindsFirst(d.nextId, InUse(d), MAX_ID);
    if NextId(d).id.None? {
      assert k == MAX_ID;
      forall id: nat | IsId(id) ensures id in InUse(d) {
        var j := if id >= d.nextId then id - d.nextId else id + MAX_ID - d.nextId;
        assert Ahead(d.nextId, j) == id;
      }
    }
  }

  // There is only one first free identifier.
  lemma {:induction false} FirstFreeUnique(start: nat, used: set<nat>, k: nat)
    requires FirstFree(start, used, k)
    ensures forall other :: FirstFree(start, used, other) ==> other == k
  {
    forall other: nat | FirstFree(start, used, other) ensures other == k {
      assert other < k ==> Ahead(start, other) in used;
      assert k < other ==> Ahead(start, k) in used;
    }
  }

  // The choice of an identifier depends on the cursor and the ids in use only.
  lemma {:induction false} SameScan(a: Outbound, b: Outbound)
    requires a.nextId == b.nextId && InUse(a) == InUse(b)
    ensures NextId(a) == NextId(b)
  {
    if k :| FirstFree(a.nextId, InUse(a), k) { FirstFreeUnique(a.nextId, InUse(a), k); }
  }

  ghost predicate Free(d: Outbound, id: nat) {
    id !in d.puback && id !in d.pubrec && id !in d.pubcomp
  }

  // By pigeonhole an open window always has a free identifier, so the branches
  // for an exhausted identifier space are unreachable.
  lemma {:induction false} OpenWindowHasId(d: Outbound)
    requires WellFormed(d) && WindowOpen(d)
    ensures NextId(d).id.Some?
    ensures IsId(NextId(d).id.value) && Free(d, NextId(d).id.value)
    ensures IsId(NextId(d).next)
  {
    NextIdExact(d);
    if NextId(d).id.None? {
      IdsUpToSize(MAX_ID);
      SubsetSize(IdsUpTo(MAX_ID), InUse(d));
      InflightIsInUse(d);
      assert false;
    }
  }
}
