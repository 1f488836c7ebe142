// What the packets carry: every PUBLISH of a delivery, in the tables, in the
// channel, on the wire or handed to the application, has the content of the
// message that was given for it, and a resend differs from the first sending in
// DUP only.

module Content {
  import opened Types
  import opened Delivery
  import opened SessionRuns
  import opened Conservation
  import opened EndToEnd

  /** The deliveries given to the session, and the PUBLISH packets of QoS 1 and 2
      ever put in flight, as they were first sent. */
  datatype Archive = Archive(given: set<Pending>, sent: set<Publish>)

  ghost function Entries(d: Outbound): set<Publish> {
    d.puback.Values + d.pubrec.Values
  }

  ghost function First(p: Publish): Publish {
    p.(dup := false)
  }

  // The packet is a delivery of something given.
  ghost predicate Known(a: Archive, p: Publish) {
    exists g, t {:trigger Carries(p, g, t)} :: g in a.given && Carries(p, g, t)
  }

  ghost predicate ItemOk(a: Archive, x: Outgoing) {
    x.Send? ==> if x.publish.qos == AtMostOnce then Known(a, x.publish) else First(x.publish) in a.sent
  }

  ghost predicate ItemsOk(a: Archive, xs: seq<Outgoing>) {
    forall k :: 0 <= k < |xs| ==> ItemOk(a, xs[k])
  }

  ghost predicate Unsent(a: Archive, s: nat) {
    forall p :: p in a.sent ==> p.lbl.serial != s
  }

  // One packet per delivery, and each is one.
  ghost predicate Filed3(a: Archive) {
    && (forall p :: p in a.sent ==> !p.dup && p.qos != AtMostOnce && Known(a, p))
    && (forall p, q :: p in a.sent && q in a.sent && p.lbl.serial == q.lbl.serial ==> p == q)
  }

  ghost predicate QueueOk(a: Archive, q: seq<Pending>) {
    && DistinctQueue(q)
    && forall k :: 0 <= k < |q| ==> q[k] in a.given && q[k].qos != AtMostOnce && Unsent(a, q[k].lbl.serial)
  }

  ghost predicate Carried(a: Archive, d: Outbound) {
    Filed3(a) && Entries(d) <= a.sent && QueueOk(a, d.queue) && ItemsOk(a, Items(d))
  }

  ghost function With(a: Archive, p: Publish): Archive {
    a.(sent := a.sent + {p})
  }

  // -------------------------------------------------------------------------
  // Moves of the session
  // -------------------------------------------------------------------------

  // A later archive knows what an earlier one knew.
  ghost predicate Later(a: Archive, b: Archive) {
    a.given <= b.given && a.sent <= b.sent
  }

  lemma {:induction false} ItemsLater(a: Archive, b: Archive, xs: seq<Outgoing>)
    requires Later(a, b) && ItemsOk(a, xs)
    ensures ItemsOk(b, xs)
  {
    forall k | 0 <= k < |xs| ensures ItemOk(b, xs[k]) {
      assert ItemOk(a, xs[k]);
      if xs[k].Send? && xs[k].publish.qos == AtMostOnce { KnownLater(a, b, xs[k].publish); }
    }
  }

  lemma {:induction false} KnownLater(a: Archive, b: Archive, p: Publish)
    requires Later(a, b) && Known(a, p)
    ensures Known(b, p)
  {
    var g, t :| g in a.given && Carries(p, g, t);
    assert g in b.given && Carries(p, g, t);
  }

  lemma {:induction false} FiledWith(a: Archive, p: Publish, g: Pending, now: nat)
    requires Filed3(a) && g in a.given && Carries(p, g, now) && !p.dup && p.qos != AtMostOnce && Unsent(a, p.lbl.serial)
    ensures Filed3(With(a, p))
  {
    var b := With(a, p);
    assert Known(a, p);
    forall q | q in b.sent ensures Known(b, q) { KnownLater(a, b, q); }
  }

  lemma {:induction false} QueueWith(a: Archive, q: seq<Pending>, p: Publish)
    requires QueueOk(a, q) && forall k :: 0 <= k < |q| ==> q[k].lbl.serial != p.lbl.serial
    ensures QueueOk(With(a, p), q)
  {
  }

  lemma {:induction false} QueueRest(a: Archive, q: seq<Pending>)
    requires QueueOk(a, q) && q != []
    ensures QueueOk(a, q[1..]) && forall k :: 0 <= k < |q[1..]| ==> q[1..][k].lbl.serial != q[0].lbl.serial
  {
  }

  lemma {:induction false} SnocOk(a: Archive, xs: seq<Outgoing>, x: Outgoing)
    requires ItemsOk(a, xs) && ItemOk(a, x)
    ensures ItemsOk(a, xs + [x])
  {
  }

  // Putting a packet of `g` in flight.
  lemma {:induction false} RecordCarried(a: Archive, d: Outbound, id: nat, p: Publish, g: Pending, now: nat)
    requires Carried(a, d) && Shippable(d, id, p) && g in a.given && Carries(p, g, now) && Unsent(a, p.lbl.serial)
    requires forall k :: 0 <= k < |d.queue| ==> d.queue[k].lbl.serial != p.lbl.serial
    ensures Carried(With(a, p), Record(d, id, p))
  {
    var b, d' := With(a, p), Record(d, id, p);
    FiledWith(a, p, g, now);
    QueueWith(a, d.queue, p);
    ItemsLater(a, b, Items(d));
    SnocOk(b, Items(d), Send(p));
    EntriesRecord(d, id, p);
  }

  lemma {:induction false} EntriesRecord(d: Outbound, id: nat, p: Publish)
    requires Shippable(d, id, p)
    ensures Entries(Record(d, id, p)) == Entries(d) + {p}
  {
    ValuesAdd(d.puback, id, p);
    ValuesAdd(d.pubrec, id, p);
    OneMore(d.puback.Values, d.pubrec.Values, p);
  }

  lemma {:induction false} OneMore(a: set<Publish>, b: set<Publish>, p: Publish)
    ensures (a + {p}) + b == (a + b) + {p} && a + (b + {p}) == (a + b) + {p}
  {
  }

  lemma {:induction false} ValuesAdd(m: map<nat, Publish>, id: nat, p: Publish)
    requires id !in m
    ensures m[id := p].Values == m.Values + {p}
  {
    var m' := m[id := p];
    assert m'[id] == p;
    forall v | v in m.Values ensures v in m'.Values {
      var k :| k in m && m[k] == v;
      assert m'[k] == v;
    }
  }

  lemma {:induction false} PoppedCarried(a: Archive, d: Outbound, next: nat)
    requires Carried(a, d) && d.queue != []
    ensures Carried(a, Popped(d, next))
  {
    QueueRest(a, d.queue);
  }

  ghost function Moved1(a: Archive, mv: Move): Archive {
    if mv.Ship? then With(a, mv.pub) else a
  }

  lemma {:induction false} MoveCarried(a: Archive, now: nat, d: Outbound, mv: Move)
    requires Carried(a, d) && Legal(d, mv) && (mv.Ship? ==> Carries(mv.pub, d.queue[0], now))
    ensures Carried(Moved1(a, mv), Moved(d, mv))
    ensures Moved1(a, mv).sent <= a.sent + Entries(Moved(d, mv))
  {
    if !mv.Stay? { PoppedCarried(a, d, mv.next); }
    if mv.Ship? {
      QueueRest(a, d.queue);
      RecordCarried(a, Popped(d, mv.next), mv.id, mv.pub, d.queue[0], now);
      EntriesRecord(Popped(d, mv.next), mv.id, mv.pub);
    }
  }

  // The archive after putting in flight what `d` has in flight.
  ghost function And(a: Archive, d: Outbound): Archive {
    a.(sent := a.sent + Entries(d))
  }

  lemma {:induction false} NothingNew(a: Archive, d: Outbound)
    requires Entries(d) <= a.sent
    ensures And(a, d) == a
  {
    assert a.sent + Entries(d) == a.sent;
  }

  // Entries only grow, so the archive after a flush is the one before and what
  // is in the tables then.
  lemma {:induction false} FlushCarried(env: Env, now: nat, a: Archive, d: Outbound)
    requires WellFormed(d) && Carried(a, d)
    ensures var d' := Flush(env, now, d).d; Carried(And(a, d'), d')
    decreases |d.queue|
  {
    var mv := FlushMove(env, now, d);
    MoveCarried(a, now, d, mv);
    var d1, b := Moved(d, mv), Moved1(a, mv);
    FlushUnrolls(env, now, d, mv);
    if mv.Stay? {
      NothingNew(a, d1);
    } else {
      MoveKeepsWellFormed(d, mv);
      FlushCarried(env, now, b, d1);
      FlushArchive(env, now, a, b, d1);
    }
  }

  lemma {:induction false} FlushUnrolls(env: Env, now: nat, d: Outbound, mv: Move)
    requires Legal(d, mv) && FlushOne(env, now, d).d == Moved(d, mv) && FlushOne(env, now, d).go == !mv.Stay?
    ensures Flush(env, now, d).d == if mv.Stay? then Moved(d, mv) else Flush(env, now, Moved(d, mv)).d
  {
  }

  lemma {:induction false} FlushArchive(env: Env, now: nat, a: Archive, b: Archive, d: Outbound)
    requires WellFormed(d) && Later(a, b) && b.given == a.given && b.sent <= a.sent + Entries(d)
    ensures var d' := Flush(env, now, d).d; And(a, d') == And(b, d')
  {
    FlushKeepsEntries(env, now, d);
    EntriesGrow(d, Flush(env, now, d).d);
    SameArchive(a, b, Entries(d), Entries(Flush(env, now, d).d));
  }

  lemma {:induction false} SameArchive(a: Archive, b: Archive, mid: set<Publish>, all: set<Publish>)
    requires Later(a, b) && b.given == a.given && b.sent <= a.sent + mid && mid <= all
    ensures a.(sent := a.sent + all) == b.(sent := b.sent + all)
  {
    assert b.sent + all == a.sent + all;
  }

  lemma {:induction false} EntriesGrow(d: Outbound, d': Outbound)
    requires KeepsEntries(d, d')
    ensures Entries(d) <= Entries(d')
  {
    forall v | v in d.puback.Values ensures v in d'.puback.Values {
      var k :| k in d.puback && d.puback[k] == v;
      assert d'.puback[k] == v;
    }
    forall v | v in d.pubrec.Values ensures v in d'.pubrec.Values {
      var k :| k in d.pubrec && d.pubrec[k] == v;
      assert d'.pubrec[k] == v;
    }
  }

  // -------------------------------------------------------------------------
  // Events
  // -------------------------------------------------------------------------

  // Fewer entries, the same queue, and items that are in order.
  lemma {:induction false} FewerCarried(a: Archive, d: Outbound, d': Outbound)
    requires Carried(a, d) && Entries(d') <= Entries(d) && d'.queue == d.queue && ItemsOk(a, Items(d'))
    ensures Carried(a, d') && And(a, d') == a
  {
    NothingNew(a, d');
  }

  lemma {:induction false} ValuesRemove(m: map<nat, Publish>, id: nat)
    ensures (m - {id}).Values <= m.Values
  {
    forall v | v in (m - {id}).Values ensures v in m.Values {
      var k :| k in m - {id} && (m - {id})[k] == v;
      assert m[k] == v;
    }
  }

  lemma {:induction false} EnqueueCarried(a: Archive, d: Outbound, p: Pending, next: nat, evicting: bool)
    requires Carried(a, d) && p in a.given && p.qos != AtMostOnce && Unsent(a, p.lbl.serial)
    requires forall k :: 0 <= k < |d.queue| ==> d.queue[k].lbl.serial != p.lbl.serial
    requires evicting ==> d.queue != []
    ensures var d' := d.(nextId := next, queue := (if evicting then d.queue[1..] else d.queue) + [p]);
      Carried(a, d') && And(a, d') == a
  {
    var d' := d.(nextId := next, queue := (if evicting then d.queue[1..] else d.queue) + [p]);
    if evicting { QueueRest(a, d.queue); }
    assert Entries(d') == Entries(d);
    NothingNew(a, d');
  }

  // A new delivery: nothing in the archive or the queue has its serial.
  ghost predicate New(a: Archive, q: seq<Pending>, p: Pending) {
    p in a.given
    && (p.qos != AtMostOnce ==>
          Unsent(a, p.lbl.serial) && forall k :: 0 <= k < |q| ==> q[k].lbl.serial != p.lbl.serial)
  }

  lemma {:induction false} ShipCarried(a: Archive, d: Outbound, p: Pending, next: nat, id: nat, pub: Publish, now: nat)
    requires Carried(a, d) && New(a, d.queue, p) && Shippable(d, id, pub) && Carries(pub, p, now)
    ensures var d' := Record(d.(nextId := next), id, pub); Carried(And(a, d'), d')
  {
    var d1 := d.(nextId := next);
    assert Entries(d1) == Entries(d);
    RecordCarried(a, d1, id, pub, p, now);
    AndRecord(a, d1, id, pub);
  }

  lemma {:induction false} AndRecord(a: Archive, d: Outbound, id: nat, p: Publish)
    requires Entries(d) <= a.sent && Shippable(d, id, p)
    ensures And(a, Record(d, id, p)) == With(a, p)
  {
    EntriesRecord(d, id, p);
    Absorbed(a.sent, Entries(d), {p});
  }

  lemma {:induction false} Absorbed(all: set<Publish>, some: set<Publish>, more: set<Publish>)
    requires some <= all
    ensures all + (some + more) == all + more
  {
  }

  lemma {:induction false} PushCarried(a: Archive, d: Outbound, p: Pending, pub: Publish, now: nat)
    requires Carried(a, d) && p in a.given && Online(d) && Carries(pub, p, now) && pub.qos == AtMostOnce
    ensures var d' := d.(out := Some(Push(d.out.value, Send(pub)))); Carried(a, d') && And(a, d') == a
  {
    assert Known(a, pub);
    SnocOk(a, Items(d), Send(pub));
    FewerCarried(a, d, d.(out := Some(Push(d.out.value, Send(pub)))));
  }

  lemma {:induction false} GiveCarried(env: Env, now: nat, a: Archive, d: Outbound, p: Pending)
    requires WellFormed(d) && Carried(a, d) && New(a, d.queue, p)
    ensures var d' := Deliver(env, now, d, p).d; Carried(And(a, d'), d')
  {
    var ef := DeliverEffect(env, now, d, p);
    match ef
    case Shipped(next, id, pub) => ShipCarried(a, d, p, next, id, pub, now);
    case Queued(next, evicting) => EnqueueCarried(a, d, p, next, evicting);
    case Pushed(pub) => PushCarried(a, d, p, pub, now);
    case _ => NothingNew(a, d);
  }

  lemma {:induction false} NotifyCarried(a: Archive, d: Outbound, x: Outgoing)
    requires Carried(a, d) && !x.Send?
    ensures Carried(a, Notify(d, x)) && And(a, Notify(d, x)) == a
  {
    SnocOk(a, Items(d), x);
    FewerCarried(a, d, Notify(d, x));
  }

  lemma {:induction false} PubrecCarried(a: Archive, d: Outbound, id: nat, rc: ReasonCode)
    requires Carried(a, d)
    ensures var d' := HandlePubrec(d, id, rc); Carried(a, d') && And(a, d') == a
  {
    var d' := HandlePubrec(d, id, rc);
    ValuesRemove(d.pubrec, id);
    SnocOk(a, Items(d), Control(Pubrel(id, Success)));
    SnocOk(a, Items(d), Control(Pubrel(id, PacketIdentifierNotFound)));
    assert Items(d') == Items(d) || exists rc :: Items(d') == Items(d) + [Control(Pubrel(id, rc))];
    FewerCarried(a, d, d');
  }

  lemma {:induction false} ResendsOk(a: Archive, m: map<nat, Publish>, order: seq<nat>)
    requires Filed3(a) && (forall id :: id in order ==> id in m) && m.Values <= a.sent
    ensures ItemsOk(a, Resends(m, order))
    decreases |order|
  {
    if order != [] {
      ResendsOk(a, m, order[1..]);
      var p := m[order[0]];
      assert p in m.Values && First(Again(p).publish) == p;
    }
  }

  lemma {:induction false} ReleasesOk(a: Archive, order: seq<nat>)
    ensures ItemsOk(a, Releases(order))
    decreases |order|
  {
    if order != [] { ReleasesOk(a, order[1..]); }
  }

  lemma {:induction false} SendAllOk(a: Archive, c: Channel, xs: seq<Outgoing>)
    requires ItemsOk(a, c.items) && ItemsOk(a, xs)
    ensures ItemsOk(a, TrySendAll(c, xs).items)
    decreases |xs|
  {
    if xs != [] {
      SnocOk(a, c.items, xs[0]);
      SendAllOk(a, TrySend(c, xs[0]), xs[1..]);
    }
  }

  lemma {:induction false} BacklogOk(a: Archive, d: Outbound, o: ResumeOrder)
    requires Carried(a, d) && ValidOrder(d, o)
    ensures ItemsOk(a, Backlog(d, o))
  {
    ResendsOk(a, d.puback, o.puback);
    ResendsOk(a, d.pubrec, o.pubrec);
    ReleasesOk(a, o.pubcomp);
  }

  lemma {:induction false} ResumedCarried(a: Archive, d: Outbound, ev: Event)
    requires Carried(a, d) && ev.Reconnect? && ev.out.items == []
    ensures Carried(a, Resumed(d, ev))
  {
    if ev.changed {
      assert Entries(Resumed(d, ev)) == {};
    } else {
      assert Entries(Resumed(d, ev)) == Entries(d);
    }
  }

  lemma {:induction false} ReconnectCarried(env: Env, now: nat, a: Archive, d: Outbound, ev: Event)
    requires WellFormed(d) && Carried(a, d) && ev.Reconnect? && Enabled(d, ev)
    ensures var d' := Step(env, now, d, ev).d; Carried(And(a, d'), d')
  {
    var r := Resumed(d, ev);
    ResumedCarried(a, d, ev);
    BacklogOk(a, r, ev.order);
    SendAllOk(a, r.out.value, Backlog(r, ev.order));
    var r1 := r.(out := Some(TrySendAll(r.out.value, Backlog(r, ev.order))));
    assert Entries(r1) == Entries(r);
    FewerCarried(a, r, r1);
    FlushCarried(env, now, a, r1);
  }

  lemma {:induction false} AckCarried(env: Env, now: nat, a: Archive, d: Outbound, ev: Event)
    requires WellFormed(d) && Carried(a, d) && (ev.AckPuback? || ev.AckPubcomp?)
    ensures var d' := Step(env, now, d, ev).d; Carried(And(a, d'), d')
  {
    var d1 := if ev.AckPuback? then d.(puback := d.puback - {ev.id}) else d.(pubcomp := d.pubcomp - {ev.id});
    ValuesRemove(d.puback, ev.id);
    FewerCarried(a, d, d1);
    FlushCarried(env, now, a, d1);
  }

  lemma {:induction false} StepCarried(env: Env, now: nat, a: Archive, d: Outbound, ev: Event)
    requires WellFormed(d) && Enabled(d, ev) && Carried(a, d)
    requires ev.Give? ==> New(a, d.queue, ev.p)
    ensures var d' := Step(env, now, d, ev).d; Carried(And(a, d'), d')
  {
    match ev
    case Give(p) => GiveCarried(env, now, a, d, p);
    case AckPuback(_) => AckCarried(env, now, a, d, ev);
    case AckPubrec(id, rc) => PubrecCarried(a, d, id, rc);
    case AckPubcomp(_) => AckCarried(env, now, a, d, ev);
    case Tell(x) => NotifyCarried(a, d, x);
    case Reconnect(_, _, _, _, _) => ReconnectCarried(env, now, a, d, ev);
    case _ => FewerCarried(a, d, Step(env, now, d, ev).d);
  }

  // -------------------------------------------------------------------------
  // Runs
  // -------------------------------------------------------------------------

  /** A world with the archive of its broker's end, and the packets handed to
      the application. */
  datatype Parcels = Parcels(a: Archive, inbox: seq<Publish>)

  const NOTHING := Parcels(Archive({}, {}), [])

  function GivenBy(w: World, act: Act): set<Pending> {
    if act.Broker? && act.ev.Give? then {Stamped(act.ev, w.b.next).p} else {}
  }

  // What this act hands to the application.
  function PassedBy(w: World, act: Act): seq<Publish> {
    if act.Receive? && w.down != [] && Received(w.(down := w.down[1..]), w.down[0], act.refuse).app != w.app
       && w.down[0].Send?
    then [w.down[0].publish] else []
  }

  ghost function NextParcels(env: Env, w: World, ps: Parcels, t: TimedAct): Parcels {
    Parcels(And(Archive(ps.a.given + GivenBy(w, t.act), ps.a.sent), NextWorld(env, w, t).b.d),
            ps.inbox + PassedBy(w, t.act))
  }

  ghost function Parcelled(env: Env, w: World, ps: Parcels, run: seq<TimedAct>): Parcels
    decreases |run|
  {
    if run == [] then ps else Parcelled(env, NextWorld(env, w, run[0]), NextParcels(env, w, ps, run[0]), run[1..])
  }

  predicate Same(g: Pending, h: Pending) {
    g.qos != AtMostOnce && h.qos != AtMostOnce && g.lbl.serial == h.lbl.serial
  }

  // Serials count the QoS 1 and 2 deliveries, so none is given twice.
  ghost predicate Numbered(given: set<Pending>, next: nat) {
    && (forall g :: g in given && g.qos != AtMostOnce ==> g.lbl.serial < next)
    && forall g, h :: g in given && h in given && Same(g, h) ==> g == h
  }

  ghost predicate SentBefore(sent: set<Publish>, next: nat) {
    forall p :: p in sent ==> p.lbl.serial < next
  }

  // The inbox is what the application was passed, packet by packet.
  ghost predicate InboxOk(a: Archive, inbox: seq<Publish>, app: seq<nat>) {
    |inbox| == |app|
    && forall k :: 0 <= k < |app| ==>
         inbox[k].lbl.serial == app[k] && inbox[k].qos == ExactlyOnce && First(inbox[k]) in a.sent
  }

  ghost predicate ParcelInv(w: World, ps: Parcels) {
    && Carried(ps.a, w.b.d) && ItemsOk(ps.a, w.down)
    && Numbered(ps.a.given, w.b.next) && SentBefore(ps.a.sent, w.b.next)
    && InboxOk(ps.a, ps.inbox, w.app)
  }

  lemma {:induction false} GivenLater(a: Archive, d: Outbound, more: set<Pending>)
    requires Carried(a, d)
    ensures Carried(a.(given := a.given + more), d)
  {
    var b := a.(given := a.given + more);
    forall p | p in b.sent ensures Known(b, p) { KnownLater(a, b, p); }
    ItemsLater(a, b, Items(d));
  }

  lemma {:induction false} NextIsNew(b: Books, a: Archive, p: Pending)
    requires Balanced(b) && SentBefore(a.sent, b.next) && p.lbl.serial == b.next && p in a.given
    ensures New(a, b.d.queue, p)
  {
    forall k | 0 <= k < |b.d.queue| ensures b.d.queue[k].lbl.serial != b.next {
      assert b.d.queue[k].lbl.serial in InQueue(b.d.queue);
      assert b.d.queue[k].lbl.serial in Live(PlacesOf(b.d, b.rel));
    }
  }

  lemma {:induction false} EntriesBefore(b: Books)
    requires Balanced(b)
    ensures SentBefore(Entries(b.d), b.next)
  {
    forall p | p in Entries(b.d) ensures p.lbl.serial < b.next {
      var places := PlacesOf(b.d, b.rel);
      assert p.lbl.serial in places.acks + places.recs;
      assert p.lbl.serial in Live(places);
    }
  }

  // Whatever the broker does by itself.
  lemma {:induction false} BooksCarried(env: Env, b: Books, a: Archive, t: Timed)
    requires Balanced(b) && Carried(a, b.d) && SentBefore(a.sent, b.next)
    requires t.ev.Give? ==> Stamped(t.ev, b.next).p in a.given
    ensures var b' := NextBooks(env, b, t); Carried(And(a, b'.d), b'.d) && SentBefore(And(a, b'.d).sent, b'.next)
  {
    var ev := Stamped(t.ev, b.next);
    StepBalances(env, b, t);
    EntriesBefore(NextBooks(env, b, t));
    if Enabled(b.d, ev) {
      if ev.Give? { NextIsNew(b, a, ev.p); }
      StepCarried(env, t.now, a, b.d, ev);
    } else {
      NothingNew(a, b.d);
    }
  }

  lemma {:induction false} NumberedNext(given: set<Pending>, next: nat, ev: Event)
    requires Numbered(given, next)
    ensures Numbered(given, if Counted(ev) then next + 1 else next)
    ensures ev.Give? ==> Numbered(given + {Stamped(ev, next).p}, if Counted(ev) then next + 1 else next)
  {
  }

  lemma {:induction false} NextSerial(env: Env, b: Books, t: Timed)
    ensures NextBooks(env, b, t).next == if Counted(t.ev) then b.next + 1 else b.next
  {
  }

  // The archive only grew; inbox and wire stand still.
  lemma {:induction false} RestLater(a: Archive, b: Archive, down: seq<Outgoing>, inbox: seq<Publish>, app: seq<nat>)
    requires Later(a, b) && ItemsOk(a, down) && InboxOk(a, inbox, app)
    ensures ItemsOk(b, down) && InboxOk(b, inbox, app)
  {
    ItemsLater(a, b, down);
  }

  // The broker's books moved, and the wire carries part of what it and the
  // channel carried.
  lemma {:induction false} BooksParcels(env: Env, w: World, ps: Parcels, t: Timed, w': World, more: set<Pending>)
    requires Inv(w) && ParcelInv(w, ps) && w'.b == NextBooks(env, w.b, t) && w'.app == w.app
    requires more == if t.ev.Give? then {Stamped(t.ev, w.b.next).p} else {}
    requires ItemsOk(ps.a, w'.down)
    ensures ParcelInv(w', Parcels(And(ps.a.(given := ps.a.given + more), w'.b.d), ps.inbox))
  {
    var a := ps.a.(given := ps.a.given + more);
    GivenLater(ps.a, w.b.d, more);
    BooksCarried(env, w.b, a, t);
    NumberedBooks(env, w.b, ps.a.given, t, more);
    RestLater(ps.a, And(a, w'.b.d), w'.down, ps.inbox, w.app);
  }

  lemma {:induction false} NumberedBooks(env: Env, b: Books, given: set<Pending>, t: Timed, more: set<Pending>)
    requires Numbered(given, b.next) && more == if t.ev.Give? then {Stamped(t.ev, b.next).p} else {}
    ensures Numbered(given + more, NextBooks(env, b, t).next)
  {
    NumberedNext(given, b.next, t.ev);
    NextSerial(env, b, t);
    if !t.ev.Give? { assert given + more == given; }
  }

  // An act that moves the broker's books.
  lemma {:induction false} MovedParcels(env: Env, w: World, ps: Parcels, act: TimedAct, t: Timed)
    requires Inv(w) && ParcelInv(w, ps) && !act.act.Receive?
    requires var w' := NextWorld(env, w, act);
      w'.b == NextBooks(env, w.b, t) && w'.app == w.app && ItemsOk(ps.a, w'.down)
    requires GivenBy(w, act.act) == if t.ev.Give? then {Stamped(t.ev, w.b.next).p} else {}
    ensures ParcelInv(NextWorld(env, w, act), NextParcels(env, w, ps, act))
  {
    assert ps.inbox + [] == ps.inbox;
    BooksParcels(env, w, ps, t, NextWorld(env, w, act), GivenBy(w, act.act));
  }

  // One that leaves them alone.
  lemma {:induction false} StillParcels(env: Env, w: World, ps: Parcels, act: TimedAct)
    requires ParcelInv(w, ps) && GivenBy(w, act.act) == {}
    requires var w' := NextWorld(env, w, act);
      w'.b == w.b && ItemsOk(ps.a, w'.down) && InboxOk(ps.a, ps.inbox + PassedBy(w, act.act), w'.app)
    ensures ParcelInv(NextWorld(env, w, act), NextParcels(env, w, ps, act))
  {
    assert ps.a.given + {} == ps.a.given;
    NothingNew(ps.a, w.b.d);
  }

  // Nothing happens.
  lemma {:induction false} IdleParcels(env: Env, w: World, ps: Parcels, act: TimedAct)
    requires ParcelInv(w, ps) && NextWorld(env, w, act) == w && GivenBy(w, act.act) == {} && PassedBy(w, act.act) == []
    ensures ParcelInv(NextWorld(env, w, act), NextParcels(env, w, ps, act))
  {
    assert ps.inbox + [] == ps.inbox;
    StillParcels(env, w, ps, act);
  }

  lemma {:induction false} TransmitParcels(env: Env, now: nat, w: World, ps: Parcels)
    requires Inv(w) && ParcelInv(w, ps)
    ensures ParcelInv(NextWorld(env, w, On(now, Transmit)), NextParcels(env, w, ps, On(now, Transmit)))
  {
    var items := Items(w.b.d);
    if items == [] {
      IdleParcels(env, w, ps, On(now, Transmit));
    } else {
      assert ItemOk(ps.a, items[0]);
      SnocOk(ps.a, w.down, items[0]);
      MovedParcels(env, w, ps, On(now, Transmit), At(now, Drain));
    }
  }

  // What the receiver passes on is the packet it took, of QoS 2.
  lemma {:induction false} ReceivedPasses(w: World, x: Outgoing, refuse: bool)
    ensures var w' := Received(w, x, refuse);
      && w'.b == w.b && w'.down == w.down
      && (w'.app == w.app || (x.Send? && x.publish.qos == ExactlyOnce && w'.app == w.app + [x.publish.lbl.serial]))
  {
  }

  lemma {:induction false} ReceiveParcels(env: Env, now: nat, w: World, ps: Parcels, refuse: bool)
    requires ParcelInv(w, ps)
    ensures ParcelInv(NextWorld(env, w, On(now, Receive(refuse))), NextParcels(env, w, ps, On(now, Receive(refuse))))
  {
    if w.down != [] {
      ReceivedPasses(w.(down := w.down[1..]), w.down[0], refuse);
      assert ItemOk(ps.a, w.down[0]);
    }
    StillParcels(env, w, ps, On(now, Receive(refuse)));
  }

  lemma {:induction false} AcknowledgeShape(env: Env, now: nat, w: World)
    requires w.up != [] && AckEvent(w.up[0]).Some?
    ensures var w' := NextWorld(env, w, On(now, Acknowledge));
      w'.b == NextBooks(env, w.b, At(now, AckEvent(w.up[0]).value)) && w'.app == w.app && w'.down == w.down
  {
  }

  lemma {:induction false} AcknowledgeParcels(env: Env, now: nat, w: World, ps: Parcels)
    requires Inv(w) && ParcelInv(w, ps)
    ensures ParcelInv(NextWorld(env, w, On(now, Acknowledge)), NextParcels(env, w, ps, On(now, Acknowledge)))
  {
    if w.up != [] && AckEvent(w.up[0]).Some? {
      AcknowledgeShape(env, now, w);
      MovedParcels(env, w, ps, On(now, Acknowledge), At(now, AckEvent(w.up[0]).value));
    } else {
      assert ps.inbox + [] == ps.inbox;
      StillParcels(env, w, ps, On(now, Acknowledge));
    }
  }

  lemma {:induction false} RedialShape(env: Env, now: nat, w: World, ev: Event)
    requires ev.Reconnect? && Enabled(w.b.d, ev)
    ensures var w' := NextWorld(env, w, On(now, Redial(ev)));
      w'.b == NextBooks(env, w.b, At(now, ev)) && w'.app == w.app && w'.down == []
  {
  }

  lemma {:induction false} RedialParcels(env: Env, now: nat, w: World, ps: Parcels, ev: Event)
    requires Inv(w) && ParcelInv(w, ps)
    ensures ParcelInv(NextWorld(env, w, On(now, Redial(ev))), NextParcels(env, w, ps, On(now, Redial(ev))))
  {
    if ev.Reconnect? && Enabled(w.b.d, ev) {
      RedialShape(env, now, w, ev);
      MovedParcels(env, w, ps, On(now, Redial(ev)), At(now, ev));
    } else {
      IdleParcels(env, w, ps, On(now, Redial(ev)));
    }
  }

  lemma {:induction false} BrokerParcels(env: Env, now: nat, w: World, ps: Parcels, ev: Event)
    requires Inv(w) && ParcelInv(w, ps)
    ensures ParcelInv(NextWorld(env, w, On(now, Broker(ev))), NextParcels(env, w, ps, On(now, Broker(ev))))
  {
    if ev.Give? || ev.Tell? || ev.ReceiverGone? || ev.GoOffline? {
      MovedParcels(env, w, ps, On(now, Broker(ev)), At(now, ev));
    } else {
      IdleParcels(env, w, ps, On(now, Broker(ev)));
    }
  }

  lemma {:induction false} ActKeepsParcels(env: Env, w: World, ps: Parcels, t: TimedAct)
    requires Inv(w) && ParcelInv(w, ps)
    ensures ParcelInv(NextWorld(env, w, t), NextParcels(env, w, ps, t))
  {
    match t.act
    case Broker(ev) => BrokerParcels(env, t.now, w, ps, ev);
    case Transmit => TransmitParcels(env, t.now, w, ps);
    case Receive(refuse) => ReceiveParcels(env, t.now, w, ps, refuse);
    case Acknowledge => AcknowledgeParcels(env, t.now, w, ps);
    case Lose =>
      assert ps.inbox + [] == ps.inbox;
      StillParcels(env, w, ps, t);
    case Redial(ev) => RedialParcels(env, t.now, w, ps, ev);
  }

  lemma {:induction false} RunKeepsParcels(env: Env, w: World, ps: Parcels, run: seq<TimedAct>)
    requires Inv(w) && ParcelInv(w, ps)
    ensures ParcelInv(Play(env, w, run), Parcelled(env, w, ps, run))
    decreases |run|
  {
    if run != [] {
      ActKeepsInv(env, w, run[0]);
      ActKeepsParcels(env, w, ps, run[0]);
      RunKeepsParcels(env, NextWorld(env, w, run[0]), NextParcels(env, w, ps, run[0]), run[1..]);
    }
  }

  lemma {:induction false} EmptyParcels(w: World)
    requires w.b == OPENING && w.down == [] && w.app == []
    ensures ParcelInv(w, NOTHING)
  {
    assert Entries(FRESH) == {};
  }

  // -------------------------------------------------------------------------
  // The theorem
  // -------------------------------------------------------------------------

  predicate SameSerial(h: Pending, p: Publish) {
    p.qos != AtMostOnce && h.qos != AtMostOnce && h.lbl.serial == p.lbl.serial
  }

  /** `p` is a PUBLISH of the one delivery given under its serial: topic, payload,
      properties, flags, level and identifiers are those of that delivery, and the
      expiry is what was left of its message's life at some moment. */
  ghost predicate Genuine(a: Archive, p: Publish) {
    exists g, t {:trigger Carries(First(p), g, t)} ::
      && g in a.given && Carries(First(p), g, t)
      && forall h :: h in a.given && SameSerial(h, p) ==> h == g
  }

  // A PUBLISH that is waiting to be acknowledged, in the channel or on the wire,
  // or was handed to the application.
  ghost predicate About(w: World, ps: Parcels, p: Publish) {
    || p in Entries(w.b.d) || p in ps.inbox
    || exists k :: 0 <= k < |Pipe(w)| && Pipe(w)[k] == Send(p)
  }

  ghost predicate ContentKept(w: World, ps: Parcels) {
    && (forall p :: About(w, ps, p) ==> Genuine(ps.a, p))
    && (forall p :: About(w, ps, p) && p.qos != AtMostOnce ==> First(p) in ps.a.sent)
    && (forall p, q :: p in ps.a.sent && q in ps.a.sent && p.lbl.serial == q.lbl.serial ==> p == q)
    && (forall k :: 0 <= k < |w.b.d.queue| ==> w.b.d.queue[k] in ps.a.given)
    && |ps.inbox| == |w.app| && forall k :: 0 <= k < |w.app| ==> ps.inbox[k].lbl.serial == w.app[k]
  }

  lemma {:induction false} KnownIsGenuine(a: Archive, next: nat, p: Publish)
    requires Known(a, First(p)) && Numbered(a.given, next)
    ensures Genuine(a, p)
  {
    var g, t :| g in a.given && Carries(First(p), g, t);
    forall h | h in a.given && SameSerial(h, p) ensures h == g {
      assert Same(g, h);
    }
  }

  // Only a PUBLISH of QoS 1 or 2 is ever sent twice.
  lemma {:induction false} AboutIsSent(w: World, ps: Parcels, p: Publish)
    requires ParcelInv(w, ps) && About(w, ps, p)
    ensures if p.qos == AtMostOnce then Known(ps.a, p) else First(p) in ps.a.sent
  {
    if p in Entries(w.b.d) {
      assert p in ps.a.sent && First(p) == p;
    } else if p in ps.inbox {
      var k :| 0 <= k < |ps.inbox| && ps.inbox[k] == p;
    } else {
      var k :| 0 <= k < |Pipe(w)| && Pipe(w)[k] == Send(p);
      assert k < |w.down| ==> ItemOk(ps.a, w.down[k]);
      assert k >= |w.down| ==> ItemOk(ps.a, Items(w.b.d)[k - |w.down|]);
    }
  }

  lemma {:induction false} AboutIsGenuine(w: World, ps: Parcels, p: Publish)
    requires ParcelInv(w, ps) && About(w, ps, p)
    ensures Genuine(ps.a, p) && (p.qos != AtMostOnce ==> First(p) in ps.a.sent)
  {
    AboutIsSent(w, ps, p);
    if p.qos == AtMostOnce {
      var g, t :| g in ps.a.given && Carries(p, g, t);
      assert Carries(First(p), g, t);
    } else {
      assert First(First(p)) == First(p);
    }
    KnownIsGenuine(ps.a, w.b.next, p);
  }

  lemma {:induction false} InvKeepsContent(w: World, ps: Parcels)
    requires ParcelInv(w, ps)
    ensures ContentKept(w, ps)
  {
    forall p | About(w, ps, p) ensures Genuine(ps.a, p) && (p.qos != AtMostOnce ==> First(p) in ps.a.sent) {
      AboutIsGenuine(w, ps, p);
    }
  }

  // In every run, whatever is lost, resumed or wiped: each PUBLISH in a table, in
  // the channel, on the wire or handed to the application carries the message
  // that was given under its serial; two of one serial differ in DUP only; and
  // the queue holds deliveries as they were given.
  lemma {:induction false} ContentIsKept(env: Env, run: seq<TimedAct>)
    ensures ContentKept(Play(env, START, run), Parcelled(env, START, NOTHING, run))
  {
    StartInv();
    EmptyParcels(START);
    RunKeepsParcels(env, START, NOTHING, run);
    InvKeepsContent(Play(env, START, run), Parcelled(env, START, NOTHING, run));
  }
}
