// One packet in transit for every identifier in use: what a resume establishes
// when the channel takes its backlog, and what the exchange then keeps until
// everything is acknowledged.

module Tokens {
  import opened Types
  import opened Delivery
  import opened SessionRuns
  import opened EndToEnd
  import Router

  // On its way to the client, on behalf of an identifier in use.
  ghost predicate DownToken(d: Outbound, x: Outgoing) {
    match x
    case Send(p) =>
      && p.packetId.Some?
      && var id := p.packetId.value;
      (p.qos == AtLeastOnce && id in d.puback) || (p.qos == ExactlyOnce && id in d.pubrec)
    case Control(packet) => packet.Pubrel? && packet.id in d.pubcomp
    case Shutdown(_) => false
  }

  // On its way back.
  ghost predicate UpToken(d: Outbound, p: Packet) {
    || (p.Puback? && p.id in d.puback)
    || (p.Pubrec? && p.id in d.pubrec && !p.rc.IsError())
    || (p.Pubcomp? && p.id in d.pubcomp)
  }

  function TokenId(x: Outgoing): nat {
    match x
    case Send(p) => if p.packetId.Some? then p.packetId.value else 0
    case Control(packet) => packet.id
    case Shutdown(_) => 0
  }

  function IdAt(pipe: seq<Outgoing>, up: seq<Packet>, k: nat): nat
    requires k < |up| + |pipe|
  {
    if k < |up| then up[k].id else TokenId(pipe[k - |up|])
  }

  // The identifiers in transit, those coming back first.
  function Ids(pipe: seq<Outgoing>, up: seq<Packet>): seq<nat> {
    seq(|up| + |pipe|, k requires 0 <= k < |up| + |pipe| => IdAt(pipe, up, k))
  }

  ghost predicate Tracked(d: Outbound, pipe: seq<Outgoing>, up: seq<Packet>) {
    && (forall k :: 0 <= k < |pipe| ==> DownToken(d, pipe[k]))
    && (forall k :: 0 <= k < |up| ==> UpToken(d, up[k]))
    && Enumerates(Ids(pipe, up), InUse(d))
  }

  // -------------------------------------------------------------------------
  // Enumerations
  // -------------------------------------------------------------------------

  lemma {:induction false} EnumSnoc(order: seq<nat>, s: set<nat>, id: nat)
    requires Enumerates(order, s) && id !in s
    ensures Enumerates(order + [id], s + {id})
  {
  }

  lemma {:induction false} EnumTail(order: seq<nat>, s: set<nat>)
    requires Enumerates(order, s) && order != []
    ensures Enumerates(order[1..], s - {order[0]})
  {
    forall x | x in s - {order[0]} ensures x in order[1..] {
      var k :| 0 <= k < |order| && order[k] == x;
      assert order[1..][k - 1] == x;
    }
  }

  lemma {:induction false} EnumConcat(a: seq<nat>, s: set<nat>, b: seq<nat>, t: set<nat>)
    requires Enumerates(a, s) && Enumerates(b, t) && s !! t
    ensures Enumerates(a + b, s + t)
  {
    var c := a + b;
    forall i, j | 0 <= i < j < |c| ensures c[i] != c[j] {
      assert c[i] in if i < |a| then a else b;
      assert c[j] in if j < |a| then a else b;
    }
    forall x | x in s + t ensures x in c {
      if x in s {
        var k :| 0 <= k < |a| && a[k] == x;
        assert c[k] == x;
      } else {
        var k :| 0 <= k < |b| && b[k] == x;
        assert c[|a| + k] == x;
      }
    }
  }

  // -------------------------------------------------------------------------
  // The session's moves
  // -------------------------------------------------------------------------

  lemma {:induction false} IdsPush(pipe: seq<Outgoing>, up: seq<Packet>, x: Outgoing)
    ensures Ids(pipe + [x], up) == Ids(pipe, up) + [TokenId(x)]
  {
  }

  lemma {:induction false} IdsPop(pipe: seq<Outgoing>, up: seq<Packet>)
    requires up != []
    ensures Ids(pipe, up[1..]) == Ids(pipe, up)[1..] && Ids(pipe, up)[0] == up[0].id
  {
  }

  lemma {:induction false} IdsTurn(pipe: seq<Outgoing>, up: seq<Packet>, p: Packet)
    requires pipe != [] && p.id == TokenId(pipe[0])
    ensures Ids(pipe[1..], up + [p]) == Ids(pipe, up)
  {
  }

  lemma {:induction false} InUseRecord(d: Outbound, id: nat, p: Publish)
    requires Shippable(d, id, p)
    ensures InUse(Record(d, id, p)) == InUse(d) + {id}
  {
  }

  // Tokens stay tokens when entries are added.
  lemma {:induction false} GrownTokens(d: Outbound, d': Outbound, pipe: seq<Outgoing>, up: seq<Packet>)
    requires KeepsEntries(d, d')
    requires (forall k :: 0 <= k < |pipe| ==> DownToken(d, pipe[k])) && forall k :: 0 <= k < |up| ==> UpToken(d, up[k])
    ensures (forall k :: 0 <= k < |pipe| ==> DownToken(d', pipe[k])) && forall k :: 0 <= k < |up| ==> UpToken(d', up[k])
  {
    forall k | 0 <= k < |pipe| ensures DownToken(d', pipe[k]) { assert DownToken(d, pipe[k]); }
    forall k | 0 <= k < |up| ensures UpToken(d', up[k]) { assert UpToken(d, up[k]); }
  }

  lemma {:induction false} PushTracked(d: Outbound, d': Outbound, pipe: seq<Outgoing>, up: seq<Packet>, x: Outgoing)
    requires Tracked(d, pipe, up) && KeepsEntries(d, d') && DownToken(d', x)
    requires TokenId(x) !in InUse(d) && InUse(d') == InUse(d) + {TokenId(x)}
    ensures Tracked(d', pipe + [x], up)
  {
    GrownTokens(d, d', pipe, up);
    IdsPush(pipe, up, x);
    EnumSnoc(Ids(pipe, up), InUse(d), TokenId(x));
  }

  lemma {:induction false} RecordTracked(d: Outbound, id: nat, p: Publish, down: seq<Outgoing>, up: seq<Packet>)
    requires Tracked(d, down + Items(d), up) && Shippable(d, id, p)
    ensures Tracked(Record(d, id, p), down + Items(Record(d, id, p)), up)
  {
    var r := Record(d, id, p);
    assert down + Items(r) == (down + Items(d)) + [Send(p)];
    RecordKeepsEntries(d, id, p);
    InUseRecord(d, id, p);
    PushTracked(d, r, down + Items(d), up, Send(p));
  }

  lemma {:induction false} MoveTracked(d: Outbound, mv: Move, down: seq<Outgoing>, up: seq<Packet>)
    requires Tracked(d, down + Items(d), up) && Legal(d, mv)
    ensures Tracked(Moved(d, mv), down + Items(Moved(d, mv)), up)
  {
    if mv.Ship? {
      var d1 := Popped(d, mv.next);
      SameTracked(d, d1, down + Items(d), up);
      RecordTracked(d1, mv.id, mv.pub, down, up);
    } else {
      SameTracked(d, Moved(d, mv), down + Items(d), up);
    }
  }

  // Only the tables matter.
  lemma {:induction false} SameTracked(d: Outbound, d': Outbound, pipe: seq<Outgoing>, up: seq<Packet>)
    requires Tracked(d, pipe, up) && d'.puback == d.puback && d'.pubrec == d.pubrec && d'.pubcomp == d.pubcomp
    ensures Tracked(d', pipe, up)
  {
    GrownTokens(d, d', pipe, up);
  }

  lemma {:induction false} FlushTracked(env: Env, now: nat, d: Outbound, down: seq<Outgoing>, up: seq<Packet>)
    requires WellFormed(d) && Tracked(d, down + Items(d), up)
    ensures var d' := Flush(env, now, d).d; Tracked(d', down + Items(d'), up)
    decreases |d.queue|
  {
    var mv := FlushMove(env, now, d);
    MoveTracked(d, mv, down, up);
    if !mv.Stay? {
      MoveKeepsWellFormed(d, mv);
      FlushTracked(env, now, Moved(d, mv), down, up);
    }
  }

  // -------------------------------------------------------------------------
  // Acknowledgements
  // -------------------------------------------------------------------------

  // Tokens of other identifiers do not care.
  lemma {:induction false} OtherToken(d: Outbound, d': Outbound, id: nat)
    requires d'.puback - {id} == d.puback - {id} && d'.pubrec - {id} == d.pubrec - {id}
    requires d'.pubcomp - {id} == d.pubcomp - {id}
    ensures forall x :: DownToken(d, x) && TokenId(x) != id ==> DownToken(d', x)
    ensures forall p :: UpToken(d, p) && p.id != id ==> UpToken(d', p)
  {
    forall i: nat | i != id
      ensures i in d.puback ==> i in d'.puback
      ensures i in d.pubrec ==> i in d'.pubrec
      ensures i in d.pubcomp ==> i in d'.pubcomp
    {
      assert i in d.puback <==> i in d.puback - {id};
      assert i in d'.puback <==> i in d'.puback - {id};
      assert i in d.pubrec <==> i in d.pubrec - {id};
      assert i in d'.pubrec <==> i in d'.pubrec - {id};
      assert i in d.pubcomp <==> i in d.pubcomp - {id};
      assert i in d'.pubcomp <==> i in d'.pubcomp - {id};
    }
  }

  // Taking the head of the returning link: the rest is about other identifiers.
  lemma {:induction false} TakenTracked(d: Outbound, d': Outbound, pipe: seq<Outgoing>, up: seq<Packet>)
    requires Tracked(d, pipe, up) && up != []
    requires var id := up[0].id;
      && d'.puback - {id} == d.puback - {id} && d'.pubrec - {id} == d.pubrec - {id}
      && d'.pubcomp - {id} == d.pubcomp - {id}
    ensures forall k :: 0 <= k < |pipe| ==> DownToken(d', pipe[k])
    ensures forall k :: 0 <= k < |up[1..]| ==> UpToken(d', up[1..][k])
    ensures Enumerates(Ids(pipe, up[1..]), InUse(d) - {up[0].id})
  {
    var ids := Ids(pipe, up);
    OtherToken(d, d', up[0].id);
    forall k | 0 <= k < |pipe| ensures DownToken(d', pipe[k]) {
      assert DownToken(d, pipe[k]) && ids[|up| + k] == TokenId(pipe[k]) && ids[0] == up[0].id;
    }
    forall k | 0 <= k < |up[1..]| ensures UpToken(d', up[1..][k]) {
      assert UpToken(d, up[k + 1]) && ids[k + 1] == up[k + 1].id && ids[0] == up[0].id;
    }
    IdsPop(pipe, up);
    EnumTail(ids, InUse(d));
  }

  // PUBACK and PUBCOMP free their identifier.
  lemma {:induction false} FreedTracked(d: Outbound, pipe: seq<Outgoing>, up: seq<Packet>)
    requires WellFormed(d) && Tracked(d, pipe, up) && up != []
    ensures up[0].Puback? ==> Tracked(d.(puback := d.puback - {up[0].id}), pipe, up[1..])
    ensures up[0].Pubcomp? ==> Tracked(d.(pubcomp := d.pubcomp - {up[0].id}), pipe, up[1..])
  {
    var id := up[0].id;
    assert UpToken(d, up[0]);
    if up[0].Puback? {
      var d' := d.(puback := d.puback - {id});
      TakenTracked(d, d', pipe, up);
      assert InUse(d') == InUse(d) - {id};
    } else if up[0].Pubcomp? {
      var d' := d.(pubcomp := d.pubcomp - {id});
      TakenTracked(d, d', pipe, up);
      assert InUse(d') == InUse(d) - {id};
    }
  }

  // PUBREC answered by PUBREL: the identifier turns round.
  lemma {:induction false} ReleasedTracked(d: Outbound, pipe: seq<Outgoing>, up: seq<Packet>)
    requires WellFormed(d) && Tracked(d, pipe, up) && up != [] && up[0].Pubrec?
    ensures var id := up[0].id;
      Tracked(d.(pubrec := d.pubrec - {id}, pubcomp := d.pubcomp + {id}),
              pipe + [Control(Pubrel(id, Success))], up[1..])
  {
    var id := up[0].id;
    assert UpToken(d, up[0]);
    var d' := d.(pubrec := d.pubrec - {id}, pubcomp := d.pubcomp + {id});
    TakenTracked(d, d', pipe, up);
    IdsPush(pipe, up[1..], Control(Pubrel(id, Success)));
    EnumSnoc(Ids(pipe, up[1..]), InUse(d) - {id}, id);
    assert InUse(d') == (InUse(d) - {id}) + {id};
  }

  // -------------------------------------------------------------------------
  // The backlog
  // -------------------------------------------------------------------------

  lemma {:induction false} ResendToken(d: Outbound, m: map<nat, Publish>, order: seq<nat>, k: nat)
    requires WellFormed(d) && (m == d.puback || m == d.pubrec) && Enumerates(order, m.Keys)
    ensures |Resends(m, order)| == |order|
    ensures k < |order| ==> DownToken(d, Resends(m, order)[k]) && TokenId(Resends(m, order)[k]) == order[k]
  {
    ResendAt(m, order, k);
    if k < |order| { assert order[k] in order && order[k] in m; }
  }

  lemma {:induction false} BacklogToken(d: Outbound, o: ResumeOrder, k: nat)
    requires WellFormed(d) && ValidOrder(d, o)
    ensures var ids := o.puback + o.pubrec + o.pubcomp;
      && |Backlog(d, o)| == |ids|
      && (k < |ids| ==> DownToken(d, Backlog(d, o)[k]) && TokenId(Backlog(d, o)[k]) == ids[k])
  {
    var a, r := |o.puback|, |o.pubrec|;
    var acks, recs, rels := Resends(d.puback, o.puback), Resends(d.pubrec, o.pubrec), Releases(o.pubcomp);
    ResendToken(d, d.puback, o.puback, k);
    ResendToken(d, d.pubrec, o.pubrec, if k < a then 0 else k - a);
    ReleaseAt(o.pubcomp, if k < a + r then 0 else k - a - r);
    assert Backlog(d, o) == acks + recs + rels;
    if k < a {
      assert Backlog(d, o)[k] == acks[k];
    } else if k < a + r {
      assert Backlog(d, o)[k] == recs[k - a];
    } else if k < |Backlog(d, o)| {
      assert Backlog(d, o)[k] == rels[k - a - r] && o.pubcomp[k - a - r] in d.pubcomp;
    }
  }

  lemma {:induction false} BacklogTracked(d: Outbound, o: ResumeOrder)
    requires WellFormed(d) && ValidOrder(d, o)
    ensures Tracked(d, Backlog(d, o), [])
  {
    var ids, items := o.puback + o.pubrec + o.pubcomp, Backlog(d, o);
    BacklogToken(d, o, 0);
    forall k | 0 <= k < |items| ensures DownToken(d, items[k]) && Ids(items, [])[k] == ids[k] { BacklogToken(d, o, k); }
    assert Ids(items, []) == ids;
    EnumConcat(o.puback, d.puback.Keys, o.pubrec, d.pubrec.Keys);
    EnumConcat(o.puback + o.pubrec, d.puback.Keys + d.pubrec.Keys, o.pubcomp, d.pubcomp);
  }

  // A channel with room takes everything.
  lemma {:induction false} RoomForAll(c: Channel, xs: seq<Outgoing>)
    requires c.open && |c.items| + |xs| <= c.capacity
    ensures TrySendAll(c, xs) == c.(items := c.items + xs)
    decreases |xs|
  {
    if xs != [] {
      RoomForAll(Push(c, xs[0]), xs[1..]);
      assert (c.items + [xs[0]]) + xs[1..] == c.items + xs;
    } else {
      assert c.items + xs == c.items;
    }
  }

  lemma {:induction false} BacklogSize(d: Outbound, o: ResumeOrder)
    requires WellFormed(d) && ValidOrder(d, o)
    ensures |Backlog(d, o)| == InflightCount(d)
  {
    BacklogToken(d, o, 0);
    Router.EnumerationSize(o.puback, d.puback.Keys);
    Router.EnumerationSize(o.pubrec, d.pubrec.Keys);
    Router.EnumerationSize(o.pubcomp, d.pubcomp);
  }

  // Resuming over a channel that takes the backlog leaves one packet in transit
  // for every identifier in use.
  lemma {:induction false} ResumeTracked(env: Env, now: nat, d: Outbound, o: ResumeOrder)
    requires WellFormed(d) && ValidOrder(d, o) && Online(d) && d.out.value.items == []
    requires d.out.value.open && InflightCount(d) <= d.out.value.capacity
    ensures var d' := Resume(env, now, d, o).d; Tracked(d', Items(d'), [])
  {
    var d0 := d.(out := Some(TrySendAll(d.out.value, Backlog(d, o))));
    BacklogSize(d, o);
    RoomForAll(d.out.value, Backlog(d, o));
    assert [] + Backlog(d, o) == Backlog(d, o) && [] + Items(d0) == Items(d0);
    BacklogTracked(d, o);
    SameTracked(d, d0, Items(d0), []);
    FlushTracked(env, now, d0, [], []);
    var d' := Flush(env, now, d0).d;
    assert [] + Items(d') == Items(d');
  }
}
