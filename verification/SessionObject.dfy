// A session as the broker holds it: an object whose methods update it in
// place, each proved against the functions of the delivery machine.

module SessionObject {
  import opened Types
  import opened Delivery
  import R = Router
  import B = Broker
  import Lists

  type PacketId = x: nat | 1 <= x <= MAX_ID witness 1

  class Session {
    var identity: Option<string>
    var epoch: nat
    var out: Option<Channel>
    var subscriptions: seq<R.Subscription>
    var persistent: bool
    var expiry: nat
    var will: Option<R.Will>
    var receiveMax: nat
    var maxPacketSize: Option<nat>
    var nextPacketId: PacketId
    var awaitingPuback: map<nat, Publish>
    var awaitingPubrec: map<nat, Publish>
    var awaitingPubcomp: set<nat>
    var queue: seq<Pending>
    var inboundQos2: set<nat>
    var inboundAliases: map<nat, string>

    /** The outbound half, as a value. */
    ghost function Out(): Outbound
      reads this
    {
      Outbound(out, receiveMax, maxPacketSize, nextPacketId, awaitingPuback, awaitingPubrec, awaitingPubcomp, queue)
    }

    /** The whole session, as a value. */
    ghost function View(): R.Session
      reads this
    {
      R.Session(identity, epoch, subscriptions, persistent, expiry, will, inboundQos2, inboundAliases, Out())
    }

    constructor (expiry: nat)
      ensures View() == B.NewSession(expiry)
    {
      identity, epoch, out, subscriptions, persistent := None, 0, None, [], false;
      this.expiry := expiry;
      will, receiveMax, maxPacketSize, nextPacketId := None, MAX_ID, None, 1;
      awaitingPuback, awaitingPubrec, awaitingPubcomp, queue := map[], map[], {}, [];
      inboundQos2, inboundAliases := {}, map[];
    }

    constructor ForBridge(epoch: nat, out: Channel)
      ensures View() == B.NewSession(0).(epoch := epoch, identity := Some("$bridge"), d := FRESH.(out := Some(out)))
    {
      identity, this.epoch, this.out := Some("$bridge"), epoch, Some(out);
      subscriptions, persistent, expiry := [], false, 0;
      will, receiveMax, maxPacketSize, nextPacketId := None, MAX_ID, None, 1;
      awaitingPuback, awaitingPubrec, awaitingPubcomp, queue := map[], map[], {}, [];
      inboundQos2, inboundAliases := {}, map[];
    }

    predicate IsOnline()
      reads this
    {
      out.Some?
    }

    function InflightCount(): nat
      reads this
    {
      |awaitingPuback| + |awaitingPubrec| + |awaitingPubcomp|
    }

    predicate WindowOpen()
      reads this
    {
      InflightCount() < receiveMax
    }

    predicate IdInUse(id: nat)
      reads this
    {
      id in awaitingPuback || id in awaitingPubrec || id in awaitingPubcomp
    }

    method NextId() returns (id: Option<nat>)
      modifies this`nextPacketId
      ensures Scan(id, nextPacketId) == Delivery.NextId(old(Out()))
      ensures id.Some? ==> IsId(id.value)
    {
      ghost var start, used := nextPacketId, InUse(Out());
      for k := 0 to MAX_ID + 1
        invariant nextPacketId == if k <= MAX_ID then Ahead(start, k) else SuccId(start)
        invariant forall j :: 0 <= j < k && j < MAX_ID ==> Ahead(start, j) in used
      {
        var probe := nextPacketId;
        nextPacketId := if probe == MAX_ID then 1 else probe + 1;
        if !IdInUse(probe) {
          assert FirstFree(start, used, k);
          FirstFreeUnique(start, used, k);
          return Some(probe);
        }
      }
      return None;
    }

    // Replace the subscription with the same filter and share, or add one.
    method UpsertSubscription(sub: R.Subscription) returns (existed: bool)
      modifies this`subscriptions
      ensures existed == B.HasSub(old(subscriptions), sub.filter, sub.share)
      ensures subscriptions == B.Upsert(old(subscriptions), sub)
    {
      var i := 0;
      while i < |subscriptions| && !B.SameKey(subscriptions[i], sub.filter, sub.share)
        invariant i <= |subscriptions| && subscriptions == old(subscriptions)
        invariant forall j :: 0 <= j < i ==> !B.SameKey(subscriptions[j], sub.filter, sub.share)
      {
        i := i + 1;
      }
      Lists.UpsertAt(subscriptions, sub, i);
      existed := i < |subscriptions|;
      subscriptions := if existed then subscriptions[i := sub] else subscriptions + [sub];
    }

    method RemoveSubscription(filter: string, share: Option<string>) returns (removed: bool)
      modifies this`subscriptions
      ensures removed == B.HasSub(old(subscriptions), filter, share)
      ensures subscriptions == B.Without(old(subscriptions), filter, share)
    {
      var all, kept := subscriptions, [];
      for i := 0 to |all|
        invariant kept == B.Without(all[..i], filter, share)
      {
        WithoutSnoc(all[..i + 1], filter, share);
        assert all[..i + 1][..i] == all[..i];
        if !B.SameKey(all[i], filter, share) { kept := kept + [all[i]]; }
      }
      assert all[..|all|] == all;
      WithoutShorter(all, filter, share);
      removed := |kept| != |all|;
      subscriptions := kept;
    }

    method GoOffline()
      modifies this`out
      ensures View() == old(View()).(d := old(Out()).(out := None))
    {
      out := None;
    }

    // Forget what was meant for a previous owner.
    method Strip()
      modifies this`subscriptions, this`queue, this`awaitingPuback, this`awaitingPubrec, this`awaitingPubcomp
      ensures View() == old(View()).(subs := [], d := Wiped(old(Out())))
    {
      subscriptions, queue := [], [];
      awaitingPuback, awaitingPubrec, awaitingPubcomp := map[], map[], {};
    }

    // Bind the session to a new owner and connection.
    method BindOwner(epoch: nat, identity: Option<string>, expiry: nat, persistent: bool, will: Option<R.Will>)
      modifies this`epoch, this`identity, this`expiry, this`persistent, this`will
      ensures View() == old(View()).(epoch := epoch, identity := identity, expiry := expiry, persistent := persistent,
                                     will := will)
    {
      this.epoch, this.identity, this.expiry, this.persistent, this.will := epoch, identity, expiry, persistent, will;
      assert Out() == old(Out());
    }

    method BindLink(out: Channel, receiveMax: nat, maxPacketSize: Option<nat>)
      modifies this`out, this`receiveMax, this`maxPacketSize
      ensures View() == old(View()).(d := Rebind(old(Out()), out, receiveMax, maxPacketSize))
    {
      this.out, this.receiveMax, this.maxPacketSize := Some(out), receiveMax, maxPacketSize;
    }

    // Offer `x` to the connection task; false when its channel is full or gone.
    method TrySend(x: Outgoing) returns (sent: bool)
      modifies this`out
      ensures sent == (old(out).Some? && CanSend(old(out).value))
      ensures out == if sent then Some(Push(old(out).value, x)) else old(out)
    {
      sent := out.Some? && CanSend(out.value);
      if sent { out := Some(Push(out.value, x)); }
    }

    method Notify(x: Outgoing)
      modifies this`out
      ensures View() == old(View()).(d := Delivery.Notify(old(Out()), x))
    {
      var _ := TrySend(x);
    }

    // Send a PUBLISH and, only if that worked, remember it until acknowledged.
    method SendAndRecord(id: nat, publish: Publish) returns (sent: bool)
      requires IsOnline()
      modifies this`out, this`awaitingPuback, this`awaitingPubrec
      ensures sent == CanSend(old(out).value)
      ensures Out() == if sent then Record(old(Out()), id, publish) else old(Out())
    {
      sent := TrySend(Send(publish));
      if sent {
        match publish.qos
        case AtLeastOnce => awaitingPuback := awaitingPuback[id := publish];
        case ExactlyOnce => awaitingPubrec := awaitingPubrec[id := publish];
        case AtMostOnce =>
      }
    }

    method Enqueue(p: Pending, maxQueued: nat) returns (dropped: bool)
      modifies this`queue
      ensures Delivered(Out(), dropped) == Delivery.Enqueue(old(Out()), p, maxQueued)
    {
      dropped := maxQueued > 0 && |queue| >= maxQueued;
      if dropped { queue := queue[1..]; }
      queue := queue + [p];
    }

    // At QoS 0: sent at once or not at all.
    method DeliverQos0(env: Env, now: nat, p: Pending) returns (dropped: bool)
      modifies this`out
      ensures Delivered(Out(), dropped) == Delivery.DeliverQos0(env, now, old(Out()), p)
    {
      if out.None? { return false; }
      var publish := AsPublish(p, now, None);
      if maxPacketSize.Some? && Exceeds(env, publish, maxPacketSize.value) { return true; }
      var sent := TrySend(Send(publish));
      return !sent;
    }

    // At QoS 1 and 2: sent if online, the window open and the channel willing,
    // queued otherwise.
    method DeliverQos12(env: Env, now: nat, p: Pending) returns (dropped: bool)
      modifies this`out, this`nextPacketId, this`awaitingPuback, this`awaitingPubrec, this`queue
      ensures Delivered(Out(), dropped) == Delivery.DeliverQos12(env, now, old(Out()), p)
    {
      if maxPacketSize.Some? && Exceeds(env, AsPublish(p, now, Some(0)), maxPacketSize.value) { return true; }
      if IsOnline() && WindowOpen() {
        var id := NextId();
        if id.Some? {
          var sent := SendAndRecord(id.value, AsPublish(p, now, id));
          if sent { return false; }
        }
      }
      dropped := Enqueue(p, env.maxQueued);
    }

    // deliver_to_session: true when a message was dropped.
    method Deliver(env: Env, now: nat, p: Pending) returns (dropped: bool)
      modifies this`out, this`nextPacketId, this`awaitingPuback, this`awaitingPubrec, this`queue
      ensures View() == old(View()).(d := Delivery.Deliver(env, now, old(Out()), p).d)
      ensures dropped == Delivery.Deliver(env, now, old(Out()), p).dropped
    {
      if IsExpired(p.message, now) { return false; }
      match p.qos
      case AtMostOnce => dropped := DeliverQos0(env, now, p);
      case _ => dropped := DeliverQos12(env, now, p);
    }

    // One message off the queue: `go` is false if it had to be put back.
    method FlushHead(env: Env, now: nat) returns (go: bool, dropped: nat)
      requires IsOnline() && WindowOpen() && queue != []
      modifies this`out, this`nextPacketId, this`awaitingPuback, this`awaitingPubrec, this`queue
      ensures Iteration(Out(), go, dropped) == FlushOne(env, now, old(Out()))
    {
      ghost var before := Out();
      var pending := queue[0];
      queue := queue[1..];
      if IsExpired(pending.message, now) { return true, 0; }
      NextIdIgnoresQueue(before, Out());
      var id := NextId();
      ghost var popped := Out();
      assert popped == before.(queue := before.queue[1..], nextId := nextPacketId);
      if id.None? {
        queue := [pending] + queue;
        assert queue == before.queue;
        return false, 0;
      }
      var publish := AsPublish(pending, now, id);
      if maxPacketSize.Some? && Exceeds(env, publish, maxPacketSize.value) { return true, 1; }
      dropped := 0;
      go := SendAndRecord(id.value, publish);
      if !go {
        queue := [pending] + queue;
        assert queue == before.queue;
        assert Out() == before.(nextId := popped.nextId);
      }
    }

    // flush_queue: how many queued messages were dropped as too big.
    method FlushQueue(env: Env, now: nat) returns (dropped: nat)
      modifies this`out, this`nextPacketId, this`awaitingPuback, this`awaitingPubrec, this`queue
      ensures View() == old(View()).(d := Flush(env, now, old(Out())).d)
      ensures dropped == Flush(env, now, old(Out())).dropped
    {
      dropped := 0;
      while IsOnline() && WindowOpen()
        invariant Remaining(env, now, old(Out()), Out(), dropped)
        decreases |queue|
      {
        if queue == [] { break; }
        var go, lost := FlushHead(env, now);
        dropped := dropped + lost;
        if !go { break; }
      }
    }

    // Offer packets one after another, ignoring refusals.
    method ResendTable(table: map<nat, Publish>, order: seq<nat>)
      requires forall id :: id in order ==> id in table
      requires out.Some?
      modifies this`out
      ensures out == Some(TrySendAll(old(out).value, Resends(table, order)))
    {
      for i := 0 to |order|
        invariant out.Some?
        invariant TrySendAll(out.value, Resends(table, order[i..])) == TrySendAll(old(out).value, Resends(table, order))
      {
        assert order[i..][1..] == order[i + 1..];
        var _ := TrySend(Again(table[order[i]]));
      }
    }

    method ResendReleases(order: seq<nat>)
      requires out.Some?
      modifies this`out
      ensures out == Some(TrySendAll(old(out).value, Releases(order)))
    {
      for i := 0 to |order|
        invariant out.Some?
        invariant TrySendAll(out.value, Releases(order[i..])) == TrySendAll(old(out).value, Releases(order))
      {
        assert order[i..][1..] == order[i + 1..];
        var _ := TrySend(Control(Pubrel(order[i], Success)));
      }
    }

    // resume_delivery: unacknowledged packets first, then the queue.
    method ResumeDelivery(env: Env, now: nat, order: ResumeOrder) returns (dropped: nat)
      requires ValidOrder(Out(), order)
      modifies this`out, this`nextPacketId, this`awaitingPuback, this`awaitingPubrec, this`queue
      ensures Flushed(Out(), dropped) == Resume(env, now, old(Out()), order)
    {
      if out.None? { return 0; }
      ghost var first := out.value;
      ResendTable(awaitingPuback, order.puback);
      ResendTable(awaitingPubrec, order.pubrec);
      ResendReleases(order.pubcomp);
      SendThree(first, Resends(awaitingPuback, order.puback), Resends(awaitingPubrec, order.pubrec),
                Releases(order.pubcomp));
      dropped := FlushQueue(env, now);
    }

    method HandlePuback(env: Env, now: nat, id: nat) returns (dropped: nat)
      modifies this`out, this`nextPacketId, this`awaitingPuback, this`awaitingPubrec, this`queue
      ensures View() == old(View()).(d := Delivery.HandlePuback(env, now, old(Out()), id).d)
      ensures dropped == Delivery.HandlePuback(env, now, old(Out()), id).dropped
    {
      awaitingPuback := awaitingPuback - {id};
      assert View() == old(View()).(d := old(Out()).(puback := old(Out()).puback - {id}));
      dropped := FlushQueue(env, now);
    }

    method HandlePubrec(id: nat, rc: ReasonCode)
      modifies this`out, this`awaitingPubrec, this`awaitingPubcomp
      ensures View() == old(View()).(d := Delivery.HandlePubrec(old(Out()), id, rc))
    {
      var known := id in awaitingPubrec;
      awaitingPubrec := awaitingPubrec - {id};
      assert Out() == old(Out()).(pubrec := old(Out()).pubrec - {id});
      if known && rc.IsError() { return; }
      var answer := Success;
      if known {
        awaitingPubcomp := awaitingPubcomp + {id};
      } else if rc.IsError() {
        return;
      } else {
        answer := PacketIdentifierNotFound;
      }
      Notify(Control(Pubrel(id, answer)));
    }

    method HandlePubcomp(env: Env, now: nat, id: nat) returns (dropped: nat)
      modifies this`out, this`nextPacketId, this`awaitingPuback, this`awaitingPubrec, this`awaitingPubcomp, this`queue
      ensures View() == old(View()).(d := Delivery.HandlePubcomp(env, now, old(Out()), id).d)
      ensures dropped == Delivery.HandlePubcomp(env, now, old(Out()), id).dropped
    {
      awaitingPubcomp := awaitingPubcomp - {id};
      assert View() == old(View()).(d := old(Out()).(pubcomp := old(Out()).pubcomp - {id}));
      dropped := FlushQueue(env, now);
    }

    method HandlePubrel(id: nat)
      modifies this`out, this`inboundQos2
      ensures var rc := if id in old(inboundQos2) then Success else PacketIdentifierNotFound;
        View() == old(View()).(inboundQos2 := old(inboundQos2) - {id},
                               d := Delivery.Notify(old(Out()), Control(Pubcomp(id, rc))))
    {
      var existed := id in inboundQos2;
      inboundQos2 := inboundQos2 - {id};
      Notify(Control(Pubcomp(id, if existed then Success else PacketIdentifierNotFound)));
    }
  }

  // -------------------------------------------------------------------------
  // About the specifications
  // -------------------------------------------------------------------------

  // What is left to flush, on top of what was dropped already, is the whole.
  ghost predicate Remaining(env: Env, now: nat, first: Outbound, d: Outbound, dropped: nat) {
    Flush(env, now, first) == Flushed(Flush(env, now, d).d, dropped + Flush(env, now, d).dropped)
  }

  lemma {:induction false} NextIdIgnoresQueue(a: Outbound, b: Outbound)
    requires b == a.(queue := b.queue)
    ensures Delivery.NextId(a) == Delivery.NextId(b)
  {
    assert InUse(a) == InUse(b);
    SameScan(a, b);
  }

  lemma {:induction false} WithoutSnoc(subs: seq<R.Subscription>, filter: string, share: Option<string>)
    requires subs != []
    ensures var n := |subs| - 1;
      B.Without(subs, filter, share)
      == B.Without(subs[..n], filter, share) + if B.SameKey(subs[n], filter, share) then [] else [subs[n]]
  {
    var n := |subs| - 1;
    if n > 0 {
      WithoutSnoc(subs[1..], filter, share);
      assert subs[1..][..n - 1] == subs[..n][1..];
    }
  }

  // Something was removed exactly when the list got shorter.
  lemma {:induction false} WithoutShorter(subs: seq<R.Subscription>, filter: string, share: Option<string>)
    ensures |B.Without(subs, filter, share)| <= |subs|
    ensures B.HasSub(subs, filter, share) <==> |B.Without(subs, filter, share)| != |subs|
  {
    if subs != [] {
      WithoutShorter(subs[1..], filter, share);
      if B.HasSub(subs[1..], filter, share) {
        var i :| 0 <= i < |subs[1..]| && B.SameKey(subs[1..][i], filter, share);
        assert B.SameKey(subs[i + 1], filter, share);
      }
      if B.HasSub(subs, filter, share) && !B.SameKey(subs[0], filter, share) {
        var i :| 0 <= i < |subs| && B.SameKey(subs[i], filter, share);
        assert subs[1..][i - 1] == subs[i];
      }
    }
  }

  lemma {:induction false} SendConcat(c: Channel, a: seq<Outgoing>, b: seq<Outgoing>)
    ensures TrySendAll(c, a + b) == TrySendAll(TrySendAll(c, a), b)
    decreases |a|
  {
    if a == [] {
      assert a + b == b;
    } else {
      SendConcat(TrySend(c, a[0]), a[1..], b);
      assert (a + b)[1..] == a[1..] + b;
    }
  }

  lemma {:induction false} SendThree(c: Channel, x: seq<Outgoing>, y: seq<Outgoing>, z: seq<Outgoing>)
    ensures TrySendAll(c, x + y + z) == TrySendAll(TrySendAll(TrySendAll(c, x), y), z)
  {
    SendConcat(c, x + y, z);
    SendConcat(c, x, y);
  }
}
