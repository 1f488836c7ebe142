// What reaches the client's channel: at most what it holds, nothing once it is
// closed, every fresh PUBLISH within the client's Maximum Packet Size, and in
// each case exactly the packets that are due.

module Sending {
  import opened Types
  import opened Delivery
  import opened SessionRuns
  import opened EndToEnd
  import Tokens

  // `x` was offered: it is the channel's last item if there is an open channel
  // with room, and nothing changed otherwise.
  ghost predicate Gets(d: Outbound, d': Outbound, x: Outgoing) {
    d'.out == if d.out.Some? && d.out.value.open && |d.out.value.items| < d.out.value.capacity
              then Some(Channel(d.out.value.capacity, d.out.value.items + [x], true)) else d.out
  }

  lemma {:induction false} NotifyGets(d: Outbound, x: Outgoing)
    ensures Gets(d, Notify(d, x), x) && Notify(d, x) == d.(out := Notify(d, x).out)
  {
  }

  // A PUBREC for an identifier that awaits one: a success parks it and is
  // answered by PUBREL, an error frees it and is not answered. For any other
  // identifier a success is answered by PUBREL with Packet Identifier not found.
  lemma {:induction false} PubrecAnswered(d: Outbound, id: nat, rc: ReasonCode)
    ensures var d' := HandlePubrec(d, id, rc);
      && id !in d'.pubrec && (forall i :: i != id ==> (i in d'.pubrec <==> i in d.pubrec))
      && d' == d.(out := d'.out, pubrec := d'.pubrec, pubcomp := d'.pubcomp)
      && (rc.IsError() ==> d'.out == d.out && d'.pubcomp == d.pubcomp)
      && (!rc.IsError() && id in d.pubrec ==>
            Gets(d, d', Control(Pubrel(id, Success))) && d'.pubcomp == d.pubcomp + {id})
      && (!rc.IsError() && id !in d.pubrec ==>
            Gets(d, d', Control(Pubrel(id, PacketIdentifierNotFound))) && d'.pubcomp == d.pubcomp)
  {
  }

  // -------------------------------------------------------------------------
  // The channel
  // -------------------------------------------------------------------------

  ghost predicate Within(out: Option<Channel>) {
    out.Some? ==> |out.value.items| <= out.value.capacity
  }

  // Items were only added, and only to an open channel.
  ghost predicate Grew(a: Option<Channel>, b: Option<Channel>) {
    && a.Some? == b.Some?
    && (a.Some? ==>
          && b.value.capacity == a.value.capacity && b.value.open == a.value.open
          && a.value.items <= b.value.items && (!a.value.open ==> b == a))
  }

  lemma {:induction false} TrySendGrew(c: Channel, x: Outgoing)
    ensures Grew(Some(c), Some(TrySend(c, x))) && (Within(Some(c)) ==> Within(Some(TrySend(c, x))))
  {
  }

  lemma {:induction false} SendAllGrew(c: Channel, xs: seq<Outgoing>)
    ensures Grew(Some(c), Some(TrySendAll(c, xs))) && (Within(Some(c)) ==> Within(Some(TrySendAll(c, xs))))
    decreases |xs|
  {
    if xs != [] {
      TrySendGrew(c, xs[0]);
      SendAllGrew(TrySend(c, xs[0]), xs[1..]);
    }
  }

  ghost predicate GrewWithin(a: Option<Channel>, b: Option<Channel>) {
    Grew(a, b) && (Within(a) ==> Within(b))
  }

  lemma {:induction false} GrewTrans(a: Option<Channel>, b: Option<Channel>, c: Option<Channel>)
    requires GrewWithin(a, b) && GrewWithin(b, c)
    ensures GrewWithin(a, c)
  {
  }

  lemma {:induction false} MoveGrew(d: Outbound, mv: Move)
    requires Legal(d, mv)
    ensures GrewWithin(d.out, Moved(d, mv).out)
  {
  }

  lemma {:induction false} FlushGrew(env: Env, now: nat, d: Outbound)
    requires WellFormed(d)
    ensures GrewWithin(d.out, Flush(env, now, d).d.out)
    decreases |d.queue|
  {
    var mv := FlushMove(env, now, d);
    MoveGrew(d, mv);
    if !mv.Stay? {
      MoveKeepsWellFormed(d, mv);
      FlushGrew(env, now, Moved(d, mv));
      GrewTrans(d.out, Moved(d, mv).out, Flush(env, now, Moved(d, mv)).d.out);
    }
  }

  lemma {:induction false} ResumeGrew(env: Env, now: nat, d: Outbound, o: ResumeOrder)
    requires WellFormed(d) && Online(d) && ValidOrder(d, o)
    ensures GrewWithin(d.out, Resume(env, now, d, o).d.out)
  {
    var c := TrySendAll(d.out.value, Backlog(d, o));
    SendAllGrew(d.out.value, Backlog(d, o));
    FlushGrew(env, now, d.(out := Some(c)));
    GrewTrans(d.out, Some(c), Resume(env, now, d, o).d.out);
  }

  lemma {:induction false} GiveGrew(env: Env, now: nat, d: Outbound, p: Pending)
    requires WellFormed(d)
    ensures GrewWithin(d.out, Deliver(env, now, d, p).d.out)
  {
    var ef := DeliverEffect(env, now, d, p);
  }

  // The channel never holds more than its capacity, and a closed one gets
  // nothing: over every event but the reconnect that replaces it, it keeps its
  // size, and what it holds is what it held, less the item taken, plus new items
  // if it is open.
  lemma {:induction false} ChannelKeepsBounds(env: Env, now: nat, d: Outbound, ev: Event)
    requires WellFormed(d) && Enabled(d, ev)
    ensures var d' := Step(env, now, d, ev).d;
      match ev
      case Drain => d'.out == Some(d.out.value.(items := d.out.value.items[1..]))
      case ReceiverGone => d'.out == Some(d.out.value.(open := false))
      case GoOffline => d'.out == None
      case Reconnect(_, out, _, _, _) => GrewWithin(Some(out), d'.out)
      case _ => GrewWithin(d.out, d'.out)
  {
    match ev
    case Give(p) => GiveGrew(env, now, d, p);
    case AckPuback(id) => FlushGrew(env, now, d.(puback := d.puback - {id}));
    case AckPubcomp(id) => FlushGrew(env, now, d.(pubcomp := d.pubcomp - {id}));
    case Reconnect(_, _, _, _, order) => ResumeGrew(env, now, Resumed(d, ev), order);
    case _ =>
  }

  // -------------------------------------------------------------------------
  // Maximum Packet Size
  // -------------------------------------------------------------------------

  // The packet as encoded is no longer than the client accepts; only the low 32
  // bits of the length count, and a packet that cannot be encoded is not held
  // back.
  ghost predicate FitsClient(env: Env, d: Outbound, p: Publish) {
    match d.maxPacketSize
    case None => true
    case Some(cap) =>
      match env.wireSize(p.(lbl := UNLABELLED))
      case None => true
      case Some(n) => n % 0x1_0000_0000 <= cap
  }

  lemma {:induction false} NotTooBigFits(env: Env, d: Outbound, p: Publish)
    ensures TooBig(env, d, p) <==> !FitsClient(env, d, p)
  {
  }

  // Everything sent since fits the client of `d`.
  ghost predicate SentFit(env: Env, d: Outbound, a: seq<Outgoing>, b: seq<Outgoing>) {
    |a| <= |b| && forall k :: |a| <= k < |b| ==> b[k].Send? && FitsClient(env, d, b[k].publish)
  }

  lemma {:induction false} SentFitCons(env: Env, d: Outbound, d1: Outbound, a: seq<Outgoing>, b: seq<Outgoing>,
                                       c: seq<Outgoing>)
    requires d1.maxPacketSize == d.maxPacketSize && b <= c
    requires SentFit(env, d, a, b) && SentFit(env, d1, b, c)
    ensures SentFit(env, d, a, c)
  {
    forall k | |a| <= k < |c| ensures c[k].Send? && FitsClient(env, d, c[k].publish) {
      if k < |b| { assert c[k] == b[k]; }
    }
  }

  lemma {:induction false} MoveFits(env: Env, d: Outbound, mv: Move)
    requires Legal(d, mv) && (mv.Ship? ==> !TooBig(env, d, mv.pub))
    ensures SentFit(env, d, Items(d), Items(Moved(d, mv))) && Moved(d, mv).maxPacketSize == d.maxPacketSize
  {
    if mv.Ship? { NotTooBigFits(env, d, mv.pub); }
  }

  // The packets a flush sends fit.
  lemma {:induction false} FlushedFit(env: Env, now: nat, d: Outbound)
    requires WellFormed(d)
    ensures SentFit(env, d, Items(d), Items(Flush(env, now, d).d))
    decreases |d.queue|
  {
    var mv := FlushMove(env, now, d);
    MoveFits(env, d, mv);
    if !mv.Stay? {
      var d1 := Moved(d, mv);
      MoveKeepsWellFormed(d, mv);
      FlushedFit(env, now, d1);
      FlushGrew(env, now, d1);
      SentFitCons(env, d, d1, Items(d), Items(d1), Items(Flush(env, now, d1).d));
    }
  }

  // A delivery is sent or queued only if it fits, measured at QoS 1 and 2 with
  // identifier 0 in place of the one it will get.
  lemma {:induction false} DeliveredFits(env: Env, now: nat, d: Outbound, p: Pending) returns (ef: Effect)
    requires WellFormed(d)
    ensures Fits(env, d, p, ef)
      && Deliver(env, now, d, p) == Delivered(Affected(d, p, ef), ef.Refused? || (ef.Queued? && ef.evicting))
    ensures ef.Pushed? ==> FitsClient(env, d, ef.pub)
    ensures ef.Shipped? ==> FitsClient(env, d, ef.pub.(packetId := Some(0)))
  {
    ef := DeliverEffect(env, now, d, p);
    NotTooBigFits(env, d, AsPublish(p, now, None));
    NotTooBigFits(env, d, AsPublish(p, now, Some(0)));
  }

  // -------------------------------------------------------------------------
  // The backlog
  // -------------------------------------------------------------------------

  // The resends, in the order given: every entry as it was first sent but for
  // DUP, then a PUBREL for every release.
  lemma {:induction false} BacklogIs(d: Outbound, o: ResumeOrder, k: nat)
    requires ValidOrder(d, o)
    ensures var a, r := |o.puback|, |o.pubrec|;
      && |Backlog(d, o)| == a + r + |o.pubcomp|
      && (k < a ==> Backlog(d, o)[k] == Send(d.puback[o.puback[k]].(dup := true)))
      && (a <= k < a + r ==> Backlog(d, o)[k] == Send(d.pubrec[o.pubrec[k - a]].(dup := true)))
      && (a + r <= k < |Backlog(d, o)| ==> Backlog(d, o)[k] == Control(Pubrel(o.pubcomp[k - a - r], Success)))
  {
    var a, r := |o.puback|, |o.pubrec|;
    var acks, recs, rels := Resends(d.puback, o.puback), Resends(d.pubrec, o.pubrec), Releases(o.pubcomp);
    ResendAt(d.puback, o.puback, k);
    ResendAt(d.pubrec, o.pubrec, if k < a then 0 else k - a);
    ReleaseAt(o.pubcomp, if k < a + r then 0 else k - a - r);
    assert Backlog(d, o) == acks + recs + rels;
    if k < a {
      assert Backlog(d, o)[k] == acks[k];
    } else if k < a + r {
      assert Backlog(d, o)[k] == recs[k - a];
    } else if k < |Backlog(d, o)| {
      assert Backlog(d, o)[k] == rels[k - a - r];
    }
  }

  ghost predicate AllFit(env: Env, d: Outbound, xs: seq<Outgoing>) {
    forall k :: 0 <= k < |xs| && xs[k].Send? ==> FitsClient(env, d, xs[k].publish)
  }

  // The resends are not measured again. After a resume over a channel that takes
  // them, every PUBLISH in the channel fits exactly if every in-flight entry
  // does, as a resend, under the Maximum Packet Size of the new connection.
  lemma {:induction false} ResumeFitsExactly(env: Env, now: nat, d: Outbound, o: ResumeOrder)
    requires WellFormed(d) && Online(d) && ValidOrder(d, o) && d.out.value.items == []
    requires d.out.value.open && |Backlog(d, o)| <= d.out.value.capacity
    ensures AllFit(env, d, Items(Resume(env, now, d, o).d)) <==>
      && (forall id :: id in d.puback ==> FitsClient(env, d, d.puback[id].(dup := true)))
      && (forall id :: id in d.pubrec ==> FitsClient(env, d, d.pubrec[id].(dup := true)))
  {
    var c := TrySendAll(d.out.value, Backlog(d, o));
    Tokens.RoomForAll(d.out.value, Backlog(d, o));
    assert c.items == Backlog(d, o);
    var d0 := d.(out := Some(c));
    FlushedFit(env, now, d0);
    FlushGrew(env, now, d0);
    BacklogFitsExactly(env, d, o);
    FitPrefix(env, d, Backlog(d, o), Items(Flush(env, now, d0).d));
  }

  lemma {:induction false} FitPrefix(env: Env, d: Outbound, a: seq<Outgoing>, b: seq<Outgoing>)
    requires a <= b && SentFit(env, d, a, b)
    ensures AllFit(env, d, b) <==> AllFit(env, d, a)
  {
    assert forall k :: 0 <= k < |a| ==> b[k] == a[k];
  }

  lemma {:induction false} BacklogFitsExactly(env: Env, d: Outbound, o: ResumeOrder)
    requires ValidOrder(d, o)
    ensures AllFit(env, d, Backlog(d, o)) <==>
      && (forall id :: id in d.puback ==> FitsClient(env, d, d.puback[id].(dup := true)))
      && (forall id :: id in d.pubrec ==> FitsClient(env, d, d.pubrec[id].(dup := true)))
  {
    var a, xs := |o.puback|, Backlog(d, o);
    BacklogIs(d, o, 0);
    if AllFit(env, d, xs) {
      forall id | id in d.puback ensures FitsClient(env, d, d.puback[id].(dup := true)) {
        var k :| 0 <= k < a && o.puback[k] == id;
        BacklogIs(d, o, k);
        assert xs[k].Send?;
      }
      forall id | id in d.pubrec ensures FitsClient(env, d, d.pubrec[id].(dup := true)) {
        var k :| 0 <= k < |o.pubrec| && o.pubrec[k] == id;
        BacklogIs(d, o, a + k);
        assert xs[a + k].Send?;
      }
    }
    if (forall id :: id in d.puback ==> FitsClient(env, d, d.puback[id].(dup := true)))
       && (forall id :: id in d.pubrec ==> FitsClient(env, d, d.pubrec[id].(dup := true)))
    {
      forall k | 0 <= k < |xs| && xs[k].Send? ensures FitsClient(env, d, xs[k].publish) {
        BacklogIs(d, o, k);
        if k < a { assert o.puback[k] in d.puback; }
        else if k < a + |o.pubrec| { assert o.pubrec[k - a] in d.pubrec; }
      }
    }
  }

  // An input: one message in flight, and a client that now accepts less than its
  // length.
  lemma {:induction false} ResendTooBig(env: Env, now: nat, p: Publish)
    requires p.packetId == Some(1) && p.qos == AtLeastOnce && !p.dup
    requires env.wireSize(p.(dup := true, lbl := UNLABELLED)) == Some(10)
    ensures var d := FRESH.(out := Some(Channel(1, [], true)), maxPacketSize := Some(9), puback := map[1 := p]);
      var o := ResumeOrder([1], [], []);
      WellFormed(d) && ValidOrder(d, o) && !AllFit(env, d, Items(Resume(env, now, d, o).d))
  {
    var d := FRESH.(out := Some(Channel(1, [], true)), maxPacketSize := Some(9), puback := map[1 := p]);
    var o := ResumeOrder([1], [], []);
    BacklogIs(d, o, 0);
    ResumeFitsExactly(env, now, d, o);
    assert 1 in d.puback && !FitsClient(env, d, d.puback[1].(dup := true));
  }
}
