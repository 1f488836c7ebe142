// Conservation: no delivery is lost or duplicated without a recorded cause.
//
// The ledger is kept by observation. Each QoS 1 or 2 delivery given to the
// session gets the next serial number; after every event the serials that have
// left the session's queue and in-flight tables are entered with a cause that
// is read off the event and the state before it.

module Conservation {
  import opened Types
  import opened Delivery
  import opened SessionRuns

  datatype Fate = Acknowledged | Rejected | Evicted | Oversized | Expired | WipedOut

  // -------------------------------------------------------------------------
  // Serial numbers held by the parts of a session
  // -------------------------------------------------------------------------

  ghost function InQueue(q: seq<Pending>): set<nat> {
    set k | 0 <= k < |q| :: q[k].lbl.serial
  }

  ghost function InTable(m: map<nat, Publish>): set<nat> {
    set id | id in m :: m[id].lbl.serial
  }

  ghost function ExpiredIn(q: seq<Pending>, now: nat): set<nat> {
    set k | 0 <= k < |q| && IsExpired(q[k].message, now) :: q[k].lbl.serial
  }

  ghost predicate DistinctQueue(q: seq<Pending>) {
    forall j, k :: 0 <= j < k < |q| ==> q[j].lbl.serial != q[k].lbl.serial
  }

  ghost predicate DistinctTable(m: map<nat, Publish>) {
    forall i, j :: i in m && j in m && i != j ==> m[i].lbl.serial != m[j].lbl.serial
  }

  ghost predicate DistinctReleased(rel: map<nat, nat>) {
    forall i, j :: i in rel && j in rel && i != j ==> rel[i] != rel[j]
  }

  lemma {:induction false} QueueTail(q: seq<Pending>)
    requires q != [] && DistinctQueue(q)
    ensures DistinctQueue(q[1..])
    ensures q[0].lbl.serial !in InQueue(q[1..])
    ensures InQueue(q) == {q[0].lbl.serial} + InQueue(q[1..])
  {
    var t := q[1..];
    forall i | i in InQueue(q) ensures i in {q[0].lbl.serial} + InQueue(t) {
      var k :| 0 <= k < |q| && q[k].lbl.serial == i;
      if k > 0 { assert t[k - 1] == q[k]; }
    }
    forall i | i in InQueue(t) ensures i in InQueue(q) {
      var k :| 0 <= k < |t| && t[k].lbl.serial == i;
      assert q[k + 1] == t[k];
    }
  }

  lemma {:induction false} QueueSnoc(q: seq<Pending>, p: Pending)
    requires DistinctQueue(q) && p.lbl.serial !in InQueue(q)
    ensures DistinctQueue(q + [p])
    ensures InQueue(q + [p]) == InQueue(q) + {p.lbl.serial}
  {
    var s := q + [p];
    forall i | i in InQueue(q) + {p.lbl.serial} ensures i in InQueue(s) {
      if i == p.lbl.serial { assert s[|q|] == p; }
      else {
        var k :| 0 <= k < |q| && q[k].lbl.serial == i;
        assert s[k] == q[k];
      }
    }
    forall j, k | 0 <= j < k < |s| ensures s[j].lbl.serial != s[k].lbl.serial {
      assert s[j].lbl.serial in InQueue(q);
    }
  }

  lemma {:induction false} TableAdd(m: map<nat, Publish>, id: nat, p: Publish)
    requires DistinctTable(m) && id !in m && p.lbl.serial !in InTable(m)
    ensures DistinctTable(m[id := p])
    ensures InTable(m[id := p]) == InTable(m) + {p.lbl.serial}
  {
    var m' := m[id := p];
    forall i | i in InTable(m) + {p.lbl.serial} ensures i in InTable(m') {
      if i == p.lbl.serial { assert m'[id] == p; }
      else {
        var j :| j in m && m[j].lbl.serial == i;
        assert j in m' && m'[j] == m[j];
      }
    }
    forall i, j | i in m' && j in m' && i != j ensures m'[i].lbl.serial != m'[j].lbl.serial {
      assert i in m ==> m[i].lbl.serial in InTable(m);
      assert j in m ==> m[j].lbl.serial in InTable(m);
    }
  }

  lemma {:induction false} TableRemove(m: map<nat, Publish>, id: nat)
    requires DistinctTable(m)
    ensures DistinctTable(m - {id})
    ensures InTable(m - {id}) == if id in m then InTable(m) - {m[id].lbl.serial} else InTable(m)
  {
    var m' := m - {id};
    forall i | i in InTable(m) && !(id in m && i == m[id].lbl.serial) ensures i in InTable(m') {
      var j :| j in m && m[j].lbl.serial == i;
      assert j in m' && m'[j] == m[j];
    }
  }

  // -------------------------------------------------------------------------
  // Where serials are
  // -------------------------------------------------------------------------

  /** The serials queued, awaiting PUBACK, awaiting PUBREC, and released. */
  datatype Places = Places(queued: set<nat>, acks: set<nat>, recs: set<nat>, released: set<nat>)

  ghost function PlacesOf(d: Outbound, rel: map<nat, nat>): Places {
    Places(InQueue(d.queue), InTable(d.puback), InTable(d.pubrec), rel.Values)
  }

  ghost function Live(w: Places): set<nat> {
    w.queued + w.acks + w.recs + w.released
  }

  ghost predicate Apart(w: Places) {
    && w.queued !! w.acks && w.queued !! w.recs && w.queued !! w.released
    && w.acks !! w.recs && w.acks !! w.released && w.recs !! w.released
  }

  ghost predicate Distinct(d: Outbound, rel: map<nat, nat>) {
    && DistinctQueue(d.queue) && DistinctTable(d.puback) && DistinctTable(d.pubrec)
    && DistinctReleased(rel) && rel.Keys == d.pubcomp
  }

  ghost predicate Sound(d: Outbound, rel: map<nat, nat>) {
    Distinct(d, rel) && Apart(PlacesOf(d, rel))
  }

  lemma {:induction false} PoppedPlaces(d: Outbound, rel: map<nat, nat>, next: nat)
    requires Sound(d, rel) && d.queue != []
    ensures Sound(Popped(d, next), rel)
    ensures d.queue[0].lbl.serial in PlacesOf(d, rel).queued
    ensures PlacesOf(Popped(d, next), rel)
            == PlacesOf(d, rel).(queued := PlacesOf(d, rel).queued - {d.queue[0].lbl.serial})
  {
    QueueTail(d.queue);
  }

  lemma {:induction false} ApartAdd(w: Places, x: nat)
    requires Apart(w) && x !in Live(w)
    ensures Apart(w.(acks := w.acks + {x})) && Apart(w.(recs := w.recs + {x}))
  {
  }

  // Recording a PUBLISH puts its serial in the table of its QoS.
  lemma {:induction false} RecordPlaces(d: Outbound, rel: map<nat, nat>, id: nat, p: Publish)
    requires Sound(d, rel) && Shippable(d, id, p) && p.lbl.serial !in Live(PlacesOf(d, rel))
    ensures Sound(Record(d, id, p), rel)
    ensures PlacesOf(Record(d, id, p), rel)
            == (var w := PlacesOf(d, rel);
                if p.qos == AtLeastOnce then w.(acks := w.acks + {p.lbl.serial})
                else w.(recs := w.recs + {p.lbl.serial}))
  {
    var d', w, x := Record(d, id, p), PlacesOf(d, rel), p.lbl.serial;
    ApartAdd(w, x);
    if p.qos == AtLeastOnce {
      TableAdd(d.puback, id, p);
      assert PlacesOf(d', rel) == w.(acks := w.acks + {x});
    } else {
      TableAdd(d.pubrec, id, p);
      assert PlacesOf(d', rel) == w.(recs := w.recs + {x});
    }
  }

  // How the places change along a flush: serials only leave the queue, for a
  // table or for good.
  ghost predicate Flushes(w: Places, w': Places) {
    && w'.released == w.released
    && w.acks <= w'.acks && w.recs <= w'.recs
    && w'.queued <= w.queued
    && Live(w') <= Live(w)
  }

  ghost function Vanished(w: Places, w': Places): set<nat> {
    w.queued - Live(w')
  }

  ghost function MovedPlaces(w: Places, mv: Move, x: nat): Places {
    var popped := w.(queued := w.queued - {x});
    match mv
    case Stay(_) => w
    case Skip(_) => popped
    case Ship(_, _, pub) =>
      if pub.qos == AtLeastOnce then popped.(acks := popped.acks + {x})
      else popped.(recs := popped.recs + {x})
  }

  lemma {:induction false} MovePlaces(d: Outbound, rel: map<nat, nat>, mv: Move)
    requires Sound(d, rel) && Legal(d, mv) && !mv.Stay?
    ensures Sound(Moved(d, mv), rel)
    ensures d.queue[0].lbl.serial in PlacesOf(d, rel).queued
    ensures PlacesOf(Moved(d, mv), rel) == MovedPlaces(PlacesOf(d, rel), mv, d.queue[0].lbl.serial)
  {
    PoppedPlaces(d, rel, mv.next);
    if mv.Ship? { RecordPlaces(Popped(d, mv.next), rel, mv.id, mv.pub); }
  }

  lemma {:induction false} FlushPlaces(env: Env, now: nat, d: Outbound, rel: map<nat, nat>)
    requires WellFormed(d) && Sound(d, rel)
    ensures var r := Flush(env, now, d);
      Sound(r.d, rel) && Flushes(PlacesOf(d, rel), PlacesOf(r.d, rel))
    decreases |d.queue|
  {
    var mv := FlushMove(env, now, d);
    if !mv.Stay? {
      MovePlaces(d, rel, mv);
      MoveKeepsWellFormed(d, mv);
      FlushPlaces(env, now, Moved(d, mv), rel);
      FlushesCons(PlacesOf(d, rel), PlacesOf(Flush(env, now, Moved(d, mv)).d, rel), mv, d.queue[0].lbl.serial);
    }
  }

  lemma {:induction false} FlushesCons(w: Places, w2: Places, mv: Move, x: nat)
    requires Apart(w) && x in w.queued && !mv.Stay?
    requires Flushes(MovedPlaces(w, mv, x), w2)
    ensures Flushes(w, w2)
    ensures var rest := Vanished(MovedPlaces(w, mv, x), w2);
            x !in rest && Vanished(w, w2) == if mv.Skip? then rest + {x} else rest
  {
  }

  // How many vanished serials are not among the expired ones.
  ghost function LossCount(w: Places, w': Places, stale: set<nat>): nat {
    |Vanished(w, w') - stale|
  }

  // A flush reports exactly the messages that vanished without having expired.
  lemma {:induction false} FlushLoss(env: Env, now: nat, d: Outbound, rel: map<nat, nat>)
    requires WellFormed(d) && Sound(d, rel)
    ensures var r := Flush(env, now, d);
      r.dropped == LossCount(PlacesOf(d, rel), PlacesOf(r.d, rel), ExpiredIn(d.queue, now))
    decreases |d.queue|
  {
    var mv := FlushMove(env, now, d);
    if mv.Stay? {
      assert Vanished(PlacesOf(d, rel), PlacesOf(Flush(env, now, d).d, rel)) == {};
    } else {
      var d1 := Moved(d, mv);
      MoveKeepsSound(d, rel, mv);
      MoveKeepsWellFormed(d, mv);
      FlushPlaces(env, now, d1, rel);
      FlushLoss(env, now, d1, rel);
      FlushLossCons(d, now, rel, mv, PlacesOf(Flush(env, now, d1).d, rel));
    }
  }

  lemma {:induction false} MoveKeepsSound(d: Outbound, rel: map<nat, nat>, mv: Move)
    requires Sound(d, rel) && Legal(d, mv) && !mv.Stay?
    ensures Sound(Moved(d, mv), rel)
  {
    MovePlaces(d, rel, mv);
  }

  lemma {:induction false} FlushLossCons(d: Outbound, now: nat, rel: map<nat, nat>, mv: Move, w2: Places)
    requires Sound(d, rel) && Legal(d, mv) && !mv.Stay?
    requires Flushes(PlacesOf(Moved(d, mv), rel), w2)
    ensures LossCount(PlacesOf(d, rel), w2, ExpiredIn(d.queue, now))
      == LossCount(PlacesOf(Moved(d, mv), rel), w2, ExpiredIn(Moved(d, mv).queue, now))
         + (if mv.Skip? && !IsExpired(d.queue[0].message, now) then 1 else 0)
  {
    assert Moved(d, mv).queue == d.queue[1..];
    MovePlaces(d, rel, mv);
    ExpiredTail(d.queue, now);
    LossCons(PlacesOf(d, rel), w2, mv, d.queue[0].lbl.serial,
             ExpiredIn(d.queue[1..], now), IsExpired(d.queue[0].message, now));
  }

  lemma {:induction false} ExpiredTail(q: seq<Pending>, now: nat)
    requires q != [] && DistinctQueue(q)
    ensures q[0].lbl.serial !in ExpiredIn(q[1..], now)
    ensures ExpiredIn(q, now) ==
            (if IsExpired(q[0].message, now) then {q[0].lbl.serial} else {}) + ExpiredIn(q[1..], now)
  {
    var t := q[1..];
    forall i | i in ExpiredIn(q, now) && !(i == q[0].lbl.serial && IsExpired(q[0].message, now))
      ensures i in ExpiredIn(t, now)
    {
      var k :| 0 <= k < |q| && IsExpired(q[k].message, now) && q[k].lbl.serial == i;
      assert t[k - 1] == q[k];
    }
    forall i | i in ExpiredIn(t, now) ensures i in ExpiredIn(q, now) {
      var k :| 0 <= k < |t| && IsExpired(t[k].message, now) && t[k].lbl.serial == i;
      assert q[k + 1] == t[k];
    }
  }

  lemma {:induction false} LossCons(w: Places, w2: Places, mv: Move, x: nat, stale: set<nat>, expired: bool)
    requires Apart(w) && x in w.queued && !mv.Stay? && x !in stale
    requires Flushes(MovedPlaces(w, mv, x), w2)
    ensures LossCount(w, w2, (if expired then {x} else {}) + stale)
      == LossCount(MovedPlaces(w, mv, x), w2, stale) + (if mv.Skip? && !expired then 1 else 0)
  {
    FlushesCons(w, w2, mv, x);
    CountCons(Vanished(MovedPlaces(w, mv, x), w2), Vanished(w, w2), x, stale, expired, mv.Skip?);
  }

  lemma {:induction false} CountCons(rest: set<nat>, all: set<nat>, x: nat, stale: set<nat>, expired: bool, skip: bool)
    requires x !in stale && x !in rest && all == if skip then rest + {x} else rest
    ensures |all - ((if expired then {x} else {}) + stale)| == |rest - stale| + if skip && !expired then 1 else 0
  {
    if skip && !expired {
      assert all - ({} + stale) == (rest - stale) + {x};
    } else {
      assert all - ((if expired then {x} else {}) + stale) == rest - stale;
    }
  }

  // -------------------------------------------------------------------------
  // The ledger
  // -------------------------------------------------------------------------

  /** A session with its ledger. `rel` remembers which serial each identifier
      awaiting PUBCOMP stands for, `next` counts the QoS 1 and 2 deliveries
      given so far, `fate` the ones that ended, `dropped` what the events
      reported, and `refused` the QoS 0 messages among those. */
  datatype Books = Books(
    d: Outbound,
    rel: map<nat, nat>,
    next: nat,
    fate: map<nat, Fate>,
    dropped: nat,
    refused: nat)

  const OPENING := Books(FRESH, map[], 0, map[], 0, 0)

  predicate Counted(ev: Event) {
    ev.Give? && ev.p.qos != AtMostOnce
  }

  // Each delivery is given the next serial number.
  function Stamped(ev: Event, next: nat): Event {
    if ev.Give? then Give(ev.p.(lbl := ev.p.lbl.(serial := next))) else ev
  }

  function NextReleased(d: Outbound, rel: map<nat, nat>, ev: Event): map<nat, nat> {
    match ev
    case AckPubrec(id, rc) =>
      if id in d.pubrec && !rc.IsError() then rel[id := d.pubrec[id].lbl.serial] else rel
    case AckPubcomp(id) => rel - {id}
    case Reconnect(changed, _, _, _, _) => if changed then map[] else rel
    case _ => rel
  }

  ghost function QueueLoss(d: Outbound, now: nat, i: nat): Fate {
    if i in ExpiredIn(d.queue, now) then Expired else Oversized
  }

  // Why serial `i` left the session at this event.
  ghost function Cause(d: Outbound, now: nat, ev: Event, dropped: nat, i: nat): Fate {
    match ev
    case Give(p) =>
      if i != p.lbl.serial then Evicted else if dropped > 0 then Oversized else Expired
    case AckPuback(_) => if i in InQueue(d.queue) then QueueLoss(d, now, i) else Acknowledged
    case AckPubcomp(_) => if i in InQueue(d.queue) then QueueLoss(d, now, i) else Acknowledged
    case Reconnect(changed, _, _, _, _) => if changed then WipedOut else QueueLoss(d, now, i)
    case _ => Rejected
  }

  ghost function Owed(b: Books, ev: Event): set<nat> {
    Live(PlacesOf(b.d, b.rel)) + (if Counted(ev) then {b.next} else {})
  }

  // The serials that left the session at this event, with their causes.
  ghost function Departures(b: Books, now: nat, ev: Event, r: Flushed): map<nat, Fate> {
    map i | i in Owed(b, ev) - Live(PlacesOf(r.d, NextReleased(b.d, b.rel, ev)))
      :: Cause(b.d, now, ev, r.dropped, i)
  }

  ghost function Record1(b: Books, now: nat, ev: Event, r: Flushed): Books {
    Books(r.d, NextReleased(b.d, b.rel, ev),
          if Counted(ev) then b.next + 1 else b.next,
          b.fate + Departures(b, now, ev, r),
          b.dropped + r.dropped,
          if ev.Give? && !Counted(ev) then b.refused + r.dropped else b.refused)
  }

  ghost function NextBooks(env: Env, b: Books, t: Timed): Books {
    var ev := Stamped(t.ev, b.next);
    if Enabled(b.d, ev) then Record1(b, t.now, ev, Step(env, t.now, b.d, ev)) else b
  }

  ghost function Ledger(env: Env, b: Books, run: seq<Timed>): Books
    decreases |run|
  {
    if run == [] then b else Ledger(env, NextBooks(env, b, run[0]), run[1..])
  }

  ghost function Lost(fate: map<nat, Fate>): set<nat> {
    set i | i in fate && (fate[i] == Evicted || fate[i] == Oversized)
  }

  ghost predicate Tally(live: set<nat>, fate: map<nat, Fate>, next: nat, dropped: nat, refused: nat) {
    && live !! fate.Keys
    && (forall i :: i in live || i in fate <==> 0 <= i < next)
    && dropped == |Lost(fate)| + refused
  }

  /** Every serial given so far is in exactly one place: queued, awaiting
      PUBACK, awaiting PUBREC, released, or ended with one fate; and what was
      reported dropped is exactly the evicted, the oversized and the refused. */
  ghost predicate Balanced(b: Books) {
    && WellFormed(b.d) && Sound(b.d, b.rel)
    && Tally(Live(PlacesOf(b.d, b.rel)), b.fate, b.next, b.dropped, b.refused)
  }

  lemma {:induction false} TallyStep(live: set<nat>, fate: map<nat, Fate>, next: nat, dropped: nat, refused: nat,
                                     counted: bool, live': set<nat>, leaving: map<nat, Fate>, refusedNow: nat)
    requires Tally(live, fate, next, dropped, refused)
    requires var owed := live + (if counted then {next} else {});
             live' <= owed && leaving.Keys == owed - live'
    ensures Tally(live', fate + leaving, if counted then next + 1 else next,
                  dropped + |Lost(leaving)| + refusedNow, refused + refusedNow)
  {
    var owed, next' := live + (if counted then {next} else {}), if counted then next + 1 else next;
    Owing(live, fate.Keys, next, counted);
    LostSum(fate, leaving);
    assert (fate + leaving).Keys == fate.Keys + leaving.Keys;
    forall i ensures i in live' || i in fate + leaving <==> 0 <= i < next' {
      assert i in owed || i in fate <==> 0 <= i < next';
    }
  }

  lemma {:induction false} Owing(live: set<nat>, ended: set<nat>, next: nat, counted: bool)
    requires live !! ended && forall i :: i in live || i in ended <==> 0 <= i < next
    ensures var owed := live + (if counted then {next} else {});
      owed !! ended && forall i :: i in owed || i in ended <==> 0 <= i < if counted then next + 1 else next
  {
  }

  lemma {:induction false} LostSum(fate: map<nat, Fate>, leaving: map<nat, Fate>)
    requires leaving.Keys !! fate.Keys
    ensures |Lost(fate + leaving)| == |Lost(fate)| + |Lost(leaving)|
  {
    assert Lost(fate + leaving) == Lost(fate) + Lost(leaving);
    assert Lost(fate) !! Lost(leaving);
  }

  // Closing the books on one event: enough that nothing appears from nowhere
  // and that the event reports exactly what was lost.
  lemma {:induction false} Settle(b: Books, now: nat, ev: Event, r: Flushed)
    requires Balanced(b)
    requires var rel' := NextReleased(b.d, b.rel, ev);
      && WellFormed(r.d) && Sound(r.d, rel')
      && Live(PlacesOf(r.d, rel')) <= Owed(b, ev)
    requires ev.Give? && !Counted(ev) ==> Lost(Departures(b, now, ev, r)) == {}
    requires !(ev.Give? && !Counted(ev)) ==> r.dropped == |Lost(Departures(b, now, ev, r))|
    ensures Balanced(Record1(b, now, ev, r))
  {
    TallyStep(Live(PlacesOf(b.d, b.rel)), b.fate, b.next, b.dropped, b.refused, Counted(ev),
              Live(PlacesOf(r.d, NextReleased(b.d, b.rel, ev))), Departures(b, now, ev, r),
              if ev.Give? && !Counted(ev) then r.dropped else 0);
  }

  lemma {:induction false} EnqueuePlaces(d: Outbound, rel: map<nat, nat>, p: Pending, next: nat, evicting: bool)
    requires Sound(d, rel) && p.lbl.serial !in Live(PlacesOf(d, rel)) && (evicting ==> d.queue != [])
    ensures var d' := d.(nextId := next, queue := (if evicting then d.queue[1..] else d.queue) + [p]);
      && Sound(d', rel)
      && PlacesOf(d', rel) == (var w := PlacesOf(d, rel);
           w.(queued := (if evicting then w.queued - {d.queue[0].lbl.serial} else w.queued) + {p.lbl.serial}))
      && (evicting ==> d.queue[0].lbl.serial in PlacesOf(d, rel).queued)
  {
    if evicting {
      QueueTail(d.queue);
      QueueSnoc(d.queue[1..], p);
    } else {
      QueueSnoc(d.queue, p);
    }
  }

  ghost function GivenPlaces(w: Places, ef: Effect, x: nat, oldest: nat): Places {
    match ef
    case Shipped(_, _, pub) =>
      if pub.qos == AtLeastOnce then w.(acks := w.acks + {x}) else w.(recs := w.recs + {x})
    case Queued(_, evicting) =>
      w.(queued := (if evicting then w.queued - {oldest} else w.queued) + {x})
    case _ => w
  }

  ghost function Oldest(d: Outbound): nat {
    if d.queue == [] then 0 else d.queue[0].lbl.serial
  }

  // Where a delivery leaves its serial, and which serial it pushes out.
  lemma {:induction false} GivePlaces(env: Env, d: Outbound, rel: map<nat, nat>, p: Pending, ef: Effect)
    requires Sound(d, rel) && Fits(env, d, p, ef) && p.lbl.serial !in Live(PlacesOf(d, rel))
    ensures Sound(Affected(d, p, ef), rel)
    ensures PlacesOf(Affected(d, p, ef), rel) == GivenPlaces(PlacesOf(d, rel), ef, p.lbl.serial, Oldest(d))
    ensures ef.Queued? && ef.evicting ==> Oldest(d) in PlacesOf(d, rel).queued
  {
    if ef.Shipped? {
      SamePlaces(d, d.(nextId := ef.next), rel);
      RecordPlaces(d.(nextId := ef.next), rel, ef.id, ef.pub);
    } else if ef.Queued? {
      EnqueuePlaces(d, rel, p, ef.next, ef.evicting);
    } else {
      SamePlaces(d, Affected(d, p, ef), rel);
    }
  }

  lemma {:induction false} SamePlaces(d: Outbound, d': Outbound, rel: map<nat, nat>)
    requires Sound(d, rel)
    requires d'.queue == d.queue && d'.puback == d.puback && d'.pubrec == d.pubrec && d'.pubcomp == d.pubcomp
    ensures Sound(d', rel) && PlacesOf(d', rel) == PlacesOf(d, rel)
  {
  }

  lemma {:induction false} GiveLive(w: Places, ef: Effect, x: nat, oldest: nat)
    requires Apart(w) && x !in Live(w) && (ef.Queued? && ef.evicting ==> oldest in w.queued)
    ensures Live(GivenPlaces(w, ef, x, oldest)) ==
      (if ef.Queued? && ef.evicting then Live(w) - {oldest} + {x}
       else if ef.Shipped? || ef.Queued? then Live(w) + {x}
       else Live(w))
  {
  }

  lemma {:induction false} GiveSettles(env: Env, now: nat, b: Books, ev: Event)
    requires Balanced(b) && ev.Give? && ev.p.lbl.serial == b.next
    ensures Balanced(Record1(b, now, ev, Step(env, now, b.d, ev)))
  {
    var ef := DeliverEffect(env, now, b.d, ev.p);
    DeliverKeepsWellFormed(env, now, b.d, ev.p);
    GivePlaces(env, b.d, b.rel, ev.p, ef);
    GiveLive(PlacesOf(b.d, b.rel), ef, b.next, Oldest(b.d));
    var r := Step(env, now, b.d, ev);
    var live, live' := Live(PlacesOf(b.d, b.rel)), Live(PlacesOf(r.d, b.rel));
    if ef.Queued? && ef.evicting {
      EvictionDeparture(b, now, ev, r, live, Oldest(b.d));
    } else if ef.Shipped? || ef.Queued? || !Counted(ev) {
      NoDeparture(b, now, ev, r, live, live');
    } else {
      OwnDeparture(b, now, ev, r, live);
    }
    Settle(b, now, ev, r);
  }

  lemma {:induction false} NoDeparture(b: Books, now: nat, ev: Event, r: Flushed, live: set<nat>, live': set<nat>)
    requires live == Live(PlacesOf(b.d, b.rel)) && live' == Live(PlacesOf(r.d, NextReleased(b.d, b.rel, ev)))
    requires live' == if Counted(ev) then live + {b.next} else live
    ensures live' <= Owed(b, ev)
    ensures Lost(Departures(b, now, ev, r)) == {}
  {
  }

  lemma {:induction false} OwnDeparture(b: Books, now: nat, ev: Event, r: Flushed, live: set<nat>)
    requires ev.Give? && Counted(ev) && ev.p.lbl.serial == b.next && b.next !in live && r.dropped <= 1
    requires live == Live(PlacesOf(b.d, b.rel)) == Live(PlacesOf(r.d, b.rel))
    ensures live <= Owed(b, ev)
    ensures r.dropped == |Lost(Departures(b, now, ev, r))|
  {
    assert Lost(Departures(b, now, ev, r)) == if r.dropped > 0 then {b.next} else {};
  }

  lemma {:induction false} EvictionDeparture(b: Books, now: nat, ev: Event, r: Flushed, live: set<nat>, y: nat)
    requires ev.Give? && Counted(ev) && ev.p.lbl.serial == b.next && y in live && y != b.next
    requires live == Live(PlacesOf(b.d, b.rel)) && Live(PlacesOf(r.d, b.rel)) == live - {y} + {b.next}
    ensures Live(PlacesOf(r.d, b.rel)) <= Owed(b, ev)
    ensures |Lost(Departures(b, now, ev, r))| == 1
  {
    assert Lost(Departures(b, now, ev, r)) == {y};
  }

  // -------------------------------------------------------------------------
  // Acknowledgements and resume
  // -------------------------------------------------------------------------

  // An event that first takes `w - w0` out of the tables and then flushes.
  lemma {:induction false} FlushSettles(env: Env, now: nat, b: Books, ev: Event, d0: Outbound)
    requires Balanced(b) && (ev.AckPuback? || ev.AckPubcomp? || (ev.Reconnect? && !ev.changed))
    requires var rel' := NextReleased(b.d, b.rel, ev);
      && d0.queue == b.d.queue && WellFormed(d0) && Sound(d0, rel')
      && Live(PlacesOf(d0, rel')) <= Live(PlacesOf(b.d, b.rel))
      && (ev.Reconnect? ==> Live(PlacesOf(d0, rel')) == Live(PlacesOf(b.d, b.rel)))
    ensures Balanced(Record1(b, now, ev, Flush(env, now, d0)))
  {
    var rel' := NextReleased(b.d, b.rel, ev);
    var r := Flush(env, now, d0);
    FlushKeepsWellFormed(env, now, d0);
    FlushPlaces(env, now, d0, rel');
    FlushLoss(env, now, d0, rel');
    FlushDepartures(b, now, ev, r, PlacesOf(d0, rel'));
    Settle(b, now, ev, r);
  }

  lemma {:induction false} FlushDepartures(b: Books, now: nat, ev: Event, r: Flushed, w0: Places)
    requires ev.AckPuback? || ev.AckPubcomp? || (ev.Reconnect? && !ev.changed)
    requires w0.queued == InQueue(b.d.queue)
    requires var rel' := NextReleased(b.d, b.rel, ev);
      && Flushes(w0, PlacesOf(r.d, rel'))
      && Live(w0) <= Live(PlacesOf(b.d, b.rel))
      && (ev.Reconnect? ==> Live(w0) == Live(PlacesOf(b.d, b.rel)))
    ensures var rel' := NextReleased(b.d, b.rel, ev);
      && Live(PlacesOf(r.d, rel')) <= Owed(b, ev)
      && Lost(Departures(b, now, ev, r)) == Vanished(w0, PlacesOf(r.d, rel')) - ExpiredIn(b.d.queue, now)
  {
    var rel' := NextReleased(b.d, b.rel, ev);
    var w, w', ds := PlacesOf(b.d, b.rel), PlacesOf(r.d, rel'), Departures(b, now, ev, r);
    forall i ensures i in Lost(ds) <==> i in Vanished(w0, w') - ExpiredIn(b.d.queue, now) {
      Leaves(w, w0, w', i, ev.Reconnect?);
      assert i in ds <==> i in Live(w) && i !in Live(w');
      assert i in ds ==> ds[i] == Cause(b.d, now, ev, r.dropped, i);
    }
  }

  // Who leaves the queue, and that on a resume nobody else leaves.
  lemma {:induction false} Leaves(w: Places, w0: Places, w': Places, i: nat, resume: bool)
    requires Flushes(w0, w') && w0.queued == w.queued && Live(w0) <= Live(w) && (resume ==> Live(w0) == Live(w))
    ensures i in Vanished(w0, w') <==> i in w.queued && i !in Live(w')
    ensures resume && i in Live(w) && i !in Live(w') ==> i in w.queued
  {
  }

  lemma {:induction false} PubackSettles(env: Env, now: nat, b: Books, ev: Event)
    requires Balanced(b) && ev.AckPuback?
    ensures Balanced(Record1(b, now, ev, Step(env, now, b.d, ev)))
  {
    TableRemove(b.d.puback, ev.id);
    FlushSettles(env, now, b, ev, b.d.(puback := b.d.puback - {ev.id}));
  }

  lemma {:induction false} ReleasedRemove(rel: map<nat, nat>, id: nat)
    requires DistinctReleased(rel)
    ensures DistinctReleased(rel - {id})
    ensures (rel - {id}).Values == if id in rel then rel.Values - {rel[id]} else rel.Values
  {
    var rel' := rel - {id};
    forall v | v in rel.Values && !(id in rel && v == rel[id]) ensures v in rel'.Values {
      var i :| i in rel && rel[i] == v;
      assert i in rel' && rel'[i] == v;
    }
  }

  lemma {:induction false} PubcompSettles(env: Env, now: nat, b: Books, ev: Event)
    requires Balanced(b) && ev.AckPubcomp?
    ensures Balanced(Record1(b, now, ev, Step(env, now, b.d, ev)))
  {
    ReleasedRemove(b.rel, ev.id);
    FlushSettles(env, now, b, ev, b.d.(pubcomp := b.d.pubcomp - {ev.id}));
  }

  lemma {:induction false} ReleasedAdd(rel: map<nat, nat>, id: nat, x: nat)
    requires DistinctReleased(rel) && id !in rel && x !in rel.Values
    ensures DistinctReleased(rel[id := x])
    ensures rel[id := x].Values == rel.Values + {x}
  {
    var rel' := rel[id := x];
    assert rel'[id] == x;
    forall v | v in rel.Values ensures v in rel'.Values {
      var i :| i in rel && rel[i] == v;
      assert i in rel' && rel'[i] == v;
    }
    forall i, j | i in rel' && j in rel' && i != j ensures rel'[i] != rel'[j] {
      assert i in rel ==> rel[i] in rel.Values;
      assert j in rel ==> rel[j] in rel.Values;
    }
  }

  lemma {:induction false} PubrecPlaces(d: Outbound, rel: map<nat, nat>, ev: Event)
    requires WellFormed(d) && Sound(d, rel) && ev.AckPubrec? && ev.id in d.pubrec
    ensures var x := d.pubrec[ev.id].lbl.serial; var w := PlacesOf(d, rel);
      var d' := HandlePubrec(d, ev.id, ev.rc); var rel' := NextReleased(d, rel, ev);
      && x in w.recs
      && Sound(d', rel')
      && PlacesOf(d', rel') ==
         (if ev.rc.IsError() then w.(recs := w.recs - {x})
          else w.(recs := w.recs - {x}, released := w.released + {x}))
  {
    TableRemove(d.pubrec, ev.id);
    if !ev.rc.IsError() { ReleasedAdd(rel, ev.id, d.pubrec[ev.id].lbl.serial); }
  }

  lemma {:induction false} PubrecSettles(env: Env, now: nat, b: Books, ev: Event)
    requires Balanced(b) && ev.AckPubrec?
    ensures Balanced(Record1(b, now, ev, Step(env, now, b.d, ev)))
  {
    var r := Step(env, now, b.d, ev);
    PubrecKeepsWellFormed(b.d, ev.id, ev.rc);
    if ev.id in b.d.pubrec {
      PubrecPlaces(b.d, b.rel, ev);
      PubrecOwes(PlacesOf(b.d, b.rel), b.d.pubrec[ev.id].lbl.serial);
    } else {
      assert b.d.pubrec - {ev.id} == b.d.pubrec;
      SamePlaces(b.d, r.d, b.rel);
    }
    assert Lost(Departures(b, now, ev, r)) == {};
    Settle(b, now, ev, r);
  }

  lemma {:induction false} PubrecOwes(w: Places, x: nat)
    requires x in w.recs
    ensures Live(w.(recs := w.recs - {x})) <= Live(w)
    ensures Live(w.(recs := w.recs - {x}, released := w.released + {x})) <= Live(w)
  {
  }

  lemma {:induction false} ReconnectSettles(env: Env, now: nat, b: Books, ev: Event)
    requires Balanced(b) && ev.Reconnect? && Enabled(b.d, ev)
    ensures Balanced(Record1(b, now, ev, Step(env, now, b.d, ev)))
  {
    var d1 := Resumed(b.d, ev);
    var d0 := d1.(out := Some(TrySendAll(d1.out.value, Backlog(d1, ev.order))));
    if ev.changed {
      assert Step(env, now, b.d, ev) == Flushed(d0, 0);
      WipeSettles(now, b, ev, d0);
    } else {
      FlushSettles(env, now, b, ev, d0);
    }
  }

  lemma {:induction false} WipeSettles(now: nat, b: Books, ev: Event, d0: Outbound)
    requires Balanced(b) && ev.Reconnect? && ev.changed
    requires WellFormed(d0) && d0.queue == [] && d0.puback == map[] && d0.pubrec == map[] && d0.pubcomp == {}
    ensures Balanced(Record1(b, now, ev, Flushed(d0, 0)))
  {
    EmptyPlaces(d0);
    NothingLost(now, b, ev, Flushed(d0, 0));
    Settle(b, now, ev, Flushed(d0, 0));
  }

  lemma {:induction false} EmptyPlaces(d: Outbound)
    requires d.queue == [] && d.puback == map[] && d.pubrec == map[] && d.pubcomp == {}
    ensures Sound(d, map[]) && Live(PlacesOf(d, map[])) == {}
  {
    assert PlacesOf(d, map[]) == Places({}, {}, {}, {});
  }

  lemma {:induction false} NothingLost(now: nat, b: Books, ev: Event, r: Flushed)
    requires ev.Reconnect? && ev.changed
    ensures Lost(Departures(b, now, ev, r)) == {}
  {
  }

  lemma {:induction false} QuietSettles(env: Env, now: nat, b: Books, ev: Event)
    requires Balanced(b) && Enabled(b.d, ev)
    requires ev.Tell? || ev.Drain? || ev.ReceiverGone? || ev.GoOffline?
    ensures Balanced(Record1(b, now, ev, Step(env, now, b.d, ev)))
  {
    var r := Step(env, now, b.d, ev);
    NoDeparture(b, now, ev, r, Live(PlacesOf(b.d, b.rel)), Live(PlacesOf(r.d, b.rel)));
    Settle(b, now, ev, r);
  }

  // -------------------------------------------------------------------------
  // The causes are true
  // -------------------------------------------------------------------------

  // The state a flushing event starts its flush from.
  ghost function BeforeFlush(d: Outbound, ev: Event): Outbound
    requires ev.AckPuback? || ev.AckPubcomp? || (ev.Reconnect? && Enabled(d, ev))
  {
    match ev
    case AckPuback(id) => d.(puback := d.puback - {id})
    case AckPubcomp(id) => d.(pubcomp := d.pubcomp - {id})
    case Reconnect(_, _, _, _, order) =>
      var r := Resumed(d, ev);
      r.(out := Some(TrySendAll(r.out.value, Backlog(r, order))))
  }

  lemma {:induction false} BeforeFlushSound(b: Books, ev: Event)
    requires Balanced(b) && (ev.AckPuback? || ev.AckPubcomp? || (ev.Reconnect? && Enabled(b.d, ev)))
    ensures WellFormed(BeforeFlush(b.d, ev))
    ensures Sound(BeforeFlush(b.d, ev), NextReleased(b.d, b.rel, ev))
    ensures InQueue(BeforeFlush(b.d, ev).queue) <= InQueue(b.d.queue)
  {
    match ev
    case AckPuback(id) => TableRemove(b.d.puback, id);
    case AckPubcomp(id) => ReleasedRemove(b.rel, id);
    case Reconnect(_, _, _, _, _) =>
  }

  ghost predicate QueuedAs(q: seq<Pending>, k: nat, i: nat) {
    k < |q| && q[k].lbl.serial == i
  }

  // Why the entry at position `k` may be gone: it had expired or does not fit.
  ghost predicate Excused(env: Env, d: Outbound, now: nat, k: nat, i: nat) {
    QueuedAs(d.queue, k, i) && (IsExpired(d.queue[k].message, now) || Oversize(env, d, d.queue[k], now))
  }

  lemma {:induction false} StayLoses(env: Env, now: nat, d: Outbound, rel: map<nat, nat>, mv: Move, i: nat)
    requires Legal(d, mv) && mv.Stay? && i in InQueue(d.queue)
    ensures i in Live(PlacesOf(Moved(d, mv), rel))
  {
    assert i in PlacesOf(Moved(d, mv), rel).queued;
  }

  lemma {:induction false} HeadLoses(env: Env, now: nat, d: Outbound, mv: Move, w: Places, w2: Places)
    requires Legal(d, mv) && !mv.Stay? && Flushes(MovedPlaces(w, mv, d.queue[0].lbl.serial), w2)
    requires mv.Skip? ==> IsExpired(d.queue[0].message, now) || Oversize(env, d, d.queue[0], now)
    ensures var i := d.queue[0].lbl.serial; i in Live(w2) || Excused(env, d, now, 0, i)
  {
    ShippedStays(w, w2, mv, d.queue[0].lbl.serial);
  }

  lemma {:induction false} TailLoses(env: Env, now: nat, d: Outbound, mv: Move, k: nat, i: nat)
    requires Legal(d, mv) && !mv.Stay? && Excused(env, Moved(d, mv), now, k, i)
    ensures Excused(env, d, now, k + 1, i)
  {
    var d1 := Moved(d, mv);
    assert d1.queue == d.queue[1..] && d1.queue[k] == d.queue[k + 1];
    SameOversize(env, d1, d, d1.queue[k], now);
  }

  lemma {:induction false} HeadStays(env: Env, now: nat, d: Outbound, rel: map<nat, nat>, mv: Move)
    requires WellFormed(d) && Sound(d, rel) && Legal(d, mv) && !mv.Stay? && WellFormed(Moved(d, mv))
    requires mv.Skip? ==> IsExpired(d.queue[0].message, now) || Oversize(env, d, d.queue[0], now)
    ensures var i := d.queue[0].lbl.serial;
      i in Live(PlacesOf(Flush(env, now, Moved(d, mv)).d, rel)) || Excused(env, d, now, 0, i)
  {
    MovePlaces(d, rel, mv);
    FlushPlaces(env, now, Moved(d, mv), rel);
    HeadLoses(env, now, d, mv, PlacesOf(d, rel), PlacesOf(Flush(env, now, Moved(d, mv)).d, rel));
  }

  lemma {:induction false} TailStays(d: Outbound, rel: map<nat, nat>, mv: Move, i: nat)
    requires Sound(d, rel) && Legal(d, mv) && !mv.Stay? && i in InQueue(d.queue) && i != d.queue[0].lbl.serial
    ensures Sound(Moved(d, mv), rel) && i in InQueue(Moved(d, mv).queue)
  {
    MovePlaces(d, rel, mv);
    QueueTail(d.queue);
  }

  // An entry a flush loses had expired or does not fit.
  lemma {:induction false} FlushReasons(env: Env, now: nat, d: Outbound, rel: map<nat, nat>, i: nat) returns (k: nat)
    requires WellFormed(d) && Sound(d, rel) && i in InQueue(d.queue)
    ensures i in Live(PlacesOf(Flush(env, now, d).d, rel)) || Excused(env, d, now, k, i)
    decreases |d.queue|
  {
    var mv := FlushMove(env, now, d);
    k := 0;
    if mv.Stay? {
      StayLoses(env, now, d, rel, mv, i);
    } else {
      var d1 := Moved(d, mv);
      assert Flush(env, now, d).d == Flush(env, now, d1).d;
      MoveKeepsWellFormed(d, mv);
      if i == d.queue[0].lbl.serial {
        HeadStays(env, now, d, rel, mv);
      } else {
        TailStays(d, rel, mv, i);
        var k1 := FlushReasons(env, now, d1, rel, i);
        if Excused(env, d1, now, k1, i) { TailLoses(env, now, d, mv, k1, i); }
        k := k1 + 1;
      }
    }
  }

  lemma {:induction false} ShippedStays(w: Places, w2: Places, mv: Move, x: nat)
    requires Flushes(MovedPlaces(w, mv, x), w2)
    ensures mv.Ship? ==> x in Live(w2)
  {
  }

  lemma {:induction false} SameOversize(env: Env, a: Outbound, b: Outbound, p: Pending, now: nat)
    requires a.maxPacketSize == b.maxPacketSize
    ensures Oversize(env, a, p, now) ==> Oversize(env, b, p, now)
  {
    if id: nat :| TooBig(env, a, AsPublish(p, now, Some(id))) {
      assert TooBig(env, b, AsPublish(p, now, Some(id)));
    }
  }

  predicate Flushing(ev: Event) {
    ev.AckPuback? || ev.AckPubcomp? || (ev.Reconnect? && !ev.changed)
  }

  /** The fate recorded for serial `i` is what happened to it at this event. */
  ghost predicate Truthful(env: Env, b: Books, now: nat, ev: Event, i: nat, fate: Fate)
    requires Enabled(b.d, ev)
  {
    match fate
    case Acknowledged =>
      || (ev.AckPuback? && ev.id in b.d.puback && b.d.puback[ev.id].lbl.serial == i)
      || (ev.AckPubcomp? && ev.id in b.rel && b.rel[ev.id] == i)
    case Rejected => ev.AckPubrec? && ev.rc.IsError() && ev.id in b.d.pubrec && b.d.pubrec[ev.id].lbl.serial == i
    case Evicted => ev.Give? && 0 < env.maxQueued <= |b.d.queue| && b.d.queue[0].lbl.serial == i
    case Oversized =>
      if ev.Give? then ev.p.lbl.serial == i && TooBig(env, b.d, AsPublish(ev.p, now, Some(0)))
      else Flushing(ev) && exists k: nat ::
        QueuedAs(b.d.queue, k, i) && !IsExpired(b.d.queue[k].message, now)
        && Oversize(env, BeforeFlush(b.d, ev), b.d.queue[k], now)
    case Expired =>
      if ev.Give? then ev.p.lbl.serial == i && IsExpired(ev.p.message, now)
      else Flushing(ev) && exists k: nat :: QueuedAs(b.d.queue, k, i) && IsExpired(b.d.queue[k].message, now)
    case WipedOut => ev.Reconnect? && ev.changed
  }

  // Whatever left the session at an event left it for the recorded cause.
  ghost predicate AllTruthful(env: Env, b: Books, now: nat, ev: Event, r: Flushed)
    requires Enabled(b.d, ev)
  {
    forall i :: i in Departures(b, now, ev, r) ==> Truthful(env, b, now, ev, i, Departures(b, now, ev, r)[i])
  }

  lemma {:induction false} GiveTruthful(env: Env, now: nat, b: Books, ev: Event)
    requires Balanced(b) && ev.Give? && ev.p.lbl.serial == b.next
    ensures AllTruthful(env, b, now, ev, Step(env, now, b.d, ev))
  {
    var ef := DeliverEffect(env, now, b.d, ev.p);
    var r := Step(env, now, b.d, ev);
    assert r.d == Affected(b.d, ev.p, ef) && (r.dropped > 0 <==> ef.Refused? || (ef.Queued? && ef.evicting));
    GiveDeparts(env, now, b, ev, r, ef);
    forall i | i in Departures(b, now, ev, r) ensures Truthful(env, b, now, ev, i, Departures(b, now, ev, r)[i]) {
      if ef.Queued? { EvictionTruthful(env, now, b, ev, r.dropped, i); }
      else { RefusalTruthful(env, now, b, ev, r.dropped, i); }
    }
  }

  lemma {:induction false} EvictionTruthful(env: Env, now: nat, b: Books, ev: Event, dropped: nat, i: nat)
    requires ev.Give? && i != ev.p.lbl.serial && 0 < env.maxQueued <= |b.d.queue| && i == Oldest(b.d)
    ensures Truthful(env, b, now, ev, i, Cause(b.d, now, ev, dropped, i))
  {
  }

  lemma {:induction false} RefusalTruthful(env: Env, now: nat, b: Books, ev: Event, dropped: nat, i: nat)
    requires ev.Give? && i == ev.p.lbl.serial
    requires if dropped > 0 then TooBig(env, b.d, AsPublish(ev.p, now, Some(0))) else IsExpired(ev.p.message, now)
    ensures Truthful(env, b, now, ev, i, Cause(b.d, now, ev, dropped, i))
  {
  }

  // Who departs at a delivery: the head of a full queue, or the new one itself.
  lemma {:induction false} GiveDeparts(env: Env, now: nat, b: Books, ev: Event, r: Flushed, ef: Effect)
    requires Balanced(b) && ev.Give? && ev.p.lbl.serial == b.next && Fits(env, b.d, ev.p, ef)
    requires r.d == Affected(b.d, ev.p, ef)
    ensures var ds := Departures(b, now, ev, r);
      if ef.Queued? && ef.evicting then forall i :: i in ds ==> i == Oldest(b.d) && i != b.next
      else if ef.Shipped? || ef.Queued? || !Counted(ev) then ds == map[]
      else forall i :: i in ds ==> i == b.next
  {
    GivePlaces(env, b.d, b.rel, ev.p, ef);
    GiveLive(PlacesOf(b.d, b.rel), ef, b.next, Oldest(b.d));
    if ef.Queued? && ef.evicting {
      OnlyDeparts(b, now, ev, r, Oldest(b.d));
    } else {
      OnlyDeparts(b, now, ev, r, b.next);
      if ef.Shipped? || ef.Queued? || !Counted(ev) { NoneDeparts(b, now, ev, r); }
    }
  }

  // If everything owed is still live but `y`, then nothing but `y` departed.
  lemma {:induction false} OnlyDeparts(b: Books, now: nat, ev: Event, r: Flushed, y: nat)
    requires Owed(b, ev) - {y} <= Live(PlacesOf(r.d, NextReleased(b.d, b.rel, ev)))
    ensures forall i :: i in Departures(b, now, ev, r) ==> i == y
  {
  }

  lemma {:induction false} NoneDeparts(b: Books, now: nat, ev: Event, r: Flushed)
    requires Owed(b, ev) <= Live(PlacesOf(r.d, NextReleased(b.d, b.rel, ev)))
    ensures Departures(b, now, ev, r) == map[]
  {
  }

  // What the flush of a flushing event lost from the queue.
  lemma {:induction false} QueueTruthful(env: Env, now: nat, b: Books, ev: Event, i: nat)
    requires Balanced(b) && Enabled(b.d, ev) && Flushing(ev) && i in InQueue(b.d.queue)
    requires var d0 := BeforeFlush(b.d, ev);
      i !in Live(PlacesOf(Flush(env, now, d0).d, NextReleased(b.d, b.rel, ev)))
    ensures Truthful(env, b, now, ev, i, QueueLoss(b.d, now, i))
  {
    var d0 := BeforeFlush(b.d, ev);
    BeforeFlushSound(b, ev);
    assert d0.queue == b.d.queue;
    var k := FlushReasons(env, now, d0, NextReleased(b.d, b.rel, ev), i);
    assert QueuedAs(b.d.queue, k, i);
    if i in ExpiredIn(b.d.queue, now) {
      var e :| 0 <= e < |b.d.queue| && IsExpired(b.d.queue[e].message, now) && b.d.queue[e].lbl.serial == i;
      assert QueuedAs(b.d.queue, e, i);
    }
  }

  // A serial outside the queue leaves a flushing event's tables only as the one
  // acknowledged.
  lemma {:induction false} TableTruthful(env: Env, now: nat, b: Books, ev: Event, i: nat)
    requires Balanced(b) && Enabled(b.d, ev) && Flushing(ev)
    requires i in Live(PlacesOf(b.d, b.rel)) && i !in InQueue(b.d.queue)
    requires var d0 := BeforeFlush(b.d, ev);
      i !in Live(PlacesOf(Flush(env, now, d0).d, NextReleased(b.d, b.rel, ev)))
    ensures Truthful(env, b, now, ev, i, Acknowledged)
  {
    var d0, rel' := BeforeFlush(b.d, ev), NextReleased(b.d, b.rel, ev);
    BeforeFlushSound(b, ev);
    FlushPlaces(env, now, d0, rel');
    match ev
    case AckPuback(id) => TableRemove(b.d.puback, id);
    case AckPubcomp(id) => ReleasedRemove(b.rel, id);
    case Reconnect(_, _, _, _, _) =>
  }

  lemma {:induction false} FlushTruthful(env: Env, now: nat, b: Books, ev: Event)
    requires Balanced(b) && Enabled(b.d, ev) && Flushing(ev)
    ensures AllTruthful(env, b, now, ev, Step(env, now, b.d, ev))
  {
    var r := Step(env, now, b.d, ev);
    assert r == Flush(env, now, BeforeFlush(b.d, ev));
    forall i | i in Departures(b, now, ev, r) ensures Truthful(env, b, now, ev, i, Departures(b, now, ev, r)[i]) {
      if i in InQueue(b.d.queue) { QueueTruthful(env, now, b, ev, i); } else { TableTruthful(env, now, b, ev, i); }
    }
  }

  lemma {:induction false} PubrecTruthful(env: Env, now: nat, b: Books, ev: Event)
    requires Balanced(b) && ev.AckPubrec?
    ensures AllTruthful(env, b, now, ev, Step(env, now, b.d, ev))
  {
    var r := Step(env, now, b.d, ev);
    if ev.id in b.d.pubrec {
      PubrecPlaces(b.d, b.rel, ev);
      PubrecLive(b, now, ev, r, b.d.pubrec[ev.id].lbl.serial);
    } else {
      assert b.d.pubrec - {ev.id} == b.d.pubrec;
      SamePlaces(b.d, r.d, b.rel);
      NoneDeparts(b, now, ev, r);
    }
  }

  lemma {:induction false} PubrecLive(b: Books, now: nat, ev: Event, r: Flushed, x: nat)
    requires ev.AckPubrec? && x in PlacesOf(b.d, b.rel).recs
    requires var w := PlacesOf(b.d, b.rel);
      PlacesOf(r.d, NextReleased(b.d, b.rel, ev)) ==
      (if ev.rc.IsError() then w.(recs := w.recs - {x}) else w.(recs := w.recs - {x}, released := w.released + {x}))
    ensures forall i :: i in Departures(b, now, ev, r) ==> i == x
    ensures !ev.rc.IsError() ==> Departures(b, now, ev, r) == map[]
  {
    OnlyDeparts(b, now, ev, r, x);
    if !ev.rc.IsError() { NoneDeparts(b, now, ev, r); }
  }

  // Sending control packets, draining and losing the connection lose nothing.
  lemma {:induction false} QuietTruthful(env: Env, now: nat, b: Books, ev: Event)
    requires Balanced(b) && Enabled(b.d, ev)
    requires ev.Tell? || ev.Drain? || ev.ReceiverGone? || ev.GoOffline?
    ensures Departures(b, now, ev, Step(env, now, b.d, ev)) == map[]
  {
    SamePlaces(b.d, Step(env, now, b.d, ev).d, b.rel);
  }

  lemma {:induction false} StepTruthful(env: Env, now: nat, b: Books, ev: Event)
    requires Balanced(b) && Enabled(b.d, ev) && (ev.Give? ==> ev.p.lbl.serial == b.next)
    ensures AllTruthful(env, b, now, ev, Step(env, now, b.d, ev))
  {
    match ev
    case Give(_) => GiveTruthful(env, now, b, ev);
    case AckPubrec(_, _) => PubrecTruthful(env, now, b, ev);
    case AckPuback(_) => FlushTruthful(env, now, b, ev);
    case AckPubcomp(_) => FlushTruthful(env, now, b, ev);
    case Reconnect(changed, _, _, _, _) => if !changed { FlushTruthful(env, now, b, ev); }
    case _ => QuietTruthful(env, now, b, ev);
  }

  // -------------------------------------------------------------------------
  // Conservation over whole runs
  // -------------------------------------------------------------------------

  lemma {:induction false} StepBalances(env: Env, b: Books, t: Timed)
    requires Balanced(b)
    ensures Balanced(NextBooks(env, b, t))
  {
    var ev := Stamped(t.ev, b.next);
    if Enabled(b.d, ev) {
      match ev
      case Give(_) => GiveSettles(env, t.now, b, ev);
      case AckPuback(_) => PubackSettles(env, t.now, b, ev);
      case AckPubrec(_, _) => PubrecSettles(env, t.now, b, ev);
      case AckPubcomp(_) => PubcompSettles(env, t.now, b, ev);
      case Reconnect(_, _, _, _, _) => ReconnectSettles(env, t.now, b, ev);
      case _ => QuietSettles(env, t.now, b, ev);
    }
  }

  lemma {:induction false} RunBalances(env: Env, b: Books, run: seq<Timed>)
    requires Balanced(b)
    ensures Balanced(Ledger(env, b, run))
    decreases |run|
  {
    if run != [] {
      StepBalances(env, b, run[0]);
      RunBalances(env, NextBooks(env, b, run[0]), run[1..]);
    }
  }

  // In every run of a fresh session the books balance.
  lemma {:induction false} Conserved(env: Env, run: seq<Timed>)
    ensures Balanced(Ledger(env, OPENING, run))
  {
    assert PlacesOf(FRESH, map[]) == Places({}, {}, {}, {});
    assert Lost(OPENING.fate) == {};
    RunBalances(env, OPENING, run);
  }

  lemma {:induction false} LedgerSnoc(env: Env, b: Books, run: seq<Timed>, t: Timed)
    ensures Ledger(env, b, run + [t]) == NextBooks(env, Ledger(env, b, run), t)
    decreases |run|
  {
    if run == [] {
      assert (run + [t])[1..] == [];
    } else {
      assert (run + [t])[1..] == run[1..] + [t];
      LedgerSnoc(env, NextBooks(env, b, run[0]), run[1..], t);
    }
  }

  // At the k-th event of a run, serial `i` left the session with this fate, and
  // the fate is what the event did to it.
  ghost predicate EndedAt(env: Env, run: seq<Timed>, k: nat, i: nat, fate: Fate) {
    && k < |run|
    && var b := Ledger(env, OPENING, run[..k]);
    && var ev := Stamped(run[k].ev, b.next);
    && Enabled(b.d, ev)
    && i in Departures(b, run[k].now, ev, Step(env, run[k].now, b.d, ev))
    && fate == Departures(b, run[k].now, ev, Step(env, run[k].now, b.d, ev))[i]
    && Truthful(env, b, run[k].now, ev, i, fate)
  }

  // In every run, every fate in the books was entered by an event that really
  // did that to the delivery: an acknowledgement of its own identifier, a
  // rejection of its own identifier, an eviction as head of a full queue, a
  // packet too big, a deadline passed, or a change of identity.
  lemma {:induction false} FatesAreTrue(env: Env, run: seq<Timed>, i: nat) returns (k: nat)
    requires i in Ledger(env, OPENING, run).fate
    ensures EndedAt(env, run, k, i, Ledger(env, OPENING, run).fate[i])
    decreases |run|
  {
    var n := |run| - 1;
    var less, t := run[..n], run[n];
    assert run == less + [t];
    LedgerSnoc(env, OPENING, less, t);
    if i in Leaving(env, Ledger(env, OPENING, less), t) {
      EndedNow(env, less, t, i);
      k := n;
    } else {
      FateOlder(env, Ledger(env, OPENING, less), t, i);
      k := FatesAreTrue(env, less, i);
      EndedEarlier(env, less, t, k, i, Ledger(env, OPENING, less).fate[i]);
    }
  }

  // What leaves the session at the next event.
  ghost function Leaving(env: Env, b: Books, t: Timed): map<nat, Fate> {
    var ev := Stamped(t.ev, b.next);
    if Enabled(b.d, ev) then Departures(b, t.now, ev, Step(env, t.now, b.d, ev)) else map[]
  }

  lemma {:induction false} FateOlder(env: Env, b: Books, t: Timed, i: nat)
    requires i in NextBooks(env, b, t).fate && i !in Leaving(env, b, t)
    ensures i in b.fate && NextBooks(env, b, t).fate[i] == b.fate[i]
  {
  }

  lemma {:induction false} EndedNow(env: Env, less: seq<Timed>, t: Timed, i: nat)
    requires i in Leaving(env, Ledger(env, OPENING, less), t)
    ensures var b := Ledger(env, OPENING, less);
      var fate := NextBooks(env, b, t).fate;
      i in fate && EndedAt(env, less + [t], |less|, i, fate[i])
  {
    var b := Ledger(env, OPENING, less);
    Conserved(env, less);
    StepTruthful(env, t.now, b, Stamped(t.ev, b.next));
    assert (less + [t])[..|less|] == less;
  }

  lemma {:induction false} EndedEarlier(env: Env, less: seq<Timed>, t: Timed, k: nat, i: nat, fate: Fate)
    requires EndedAt(env, less, k, i, fate)
    ensures EndedAt(env, less + [t], k, i, fate)
  {
    assert (less + [t])[..k] == less[..k];
  }

  // A fate is final.
  lemma {:induction false} FateIsFinal(env: Env, b: Books, run: seq<Timed>, i: nat)
    requires Balanced(b) && i in b.fate
    ensures i in Ledger(env, b, run).fate && Ledger(env, b, run).fate[i] == b.fate[i]
    decreases |run|
  {
    if run != [] {
      StepBalances(env, b, run[0]);
      FateKept(env, b, run[0], i);
      FateIsFinal(env, NextBooks(env, b, run[0]), run[1..], i);
    }
  }

  lemma {:induction false} FateKept(env: Env, b: Books, t: Timed, i: nat)
    requires Balanced(b) && i in b.fate
    ensures i in NextBooks(env, b, t).fate && NextBooks(env, b, t).fate[i] == b.fate[i]
  {
    var ev := Stamped(t.ev, b.next);
    assert i !in Owed(b, ev);
  }

  // Only a new delivery enters the queue.
  lemma {:induction false} QueueMotion(env: Env, b: Books, t: Timed)
    requires Balanced(b)
    ensures InQueue(NextBooks(env, b, t).d.queue) <= InQueue(b.d.queue) + {b.next}
  {
    var ev := Stamped(t.ev, b.next);
    if Enabled(b.d, ev) { EventMotion(env, b, t.now, ev); }
  }

  lemma {:induction false} EventMotion(env: Env, b: Books, now: nat, ev: Event)
    requires Balanced(b) && Enabled(b.d, ev) && (ev.Give? ==> ev.p.lbl.serial == b.next)
    ensures InQueue(Step(env, now, b.d, ev).d.queue) <= InQueue(b.d.queue) + {b.next}
  {
    match ev
    case Give(p) => GiveMotion(env, b, now, p);
    case AckPuback(_) => FlushMotion(env, b, now, ev);
    case AckPubcomp(_) => FlushMotion(env, b, now, ev);
    case Reconnect(_, _, _, _, _) => FlushMotion(env, b, now, ev);
    case _ => assert Step(env, now, b.d, ev).d.queue == b.d.queue;
  }

  lemma {:induction false} GiveMotion(env: Env, b: Books, now: nat, p: Pending)
    requires Balanced(b) && p.lbl.serial == b.next
    ensures InQueue(Deliver(env, now, b.d, p).d.queue) <= InQueue(b.d.queue) + {b.next}
  {
    var ef := DeliverEffect(env, now, b.d, p);
    GivePlaces(env, b.d, b.rel, p, ef);
  }

  lemma {:induction false} FlushMotion(env: Env, b: Books, now: nat, ev: Event)
    requires Balanced(b) && (ev.AckPuback? || ev.AckPubcomp? || (ev.Reconnect? && Enabled(b.d, ev)))
    ensures var d' := Flush(env, now, BeforeFlush(b.d, ev)).d;
      && InQueue(d'.queue) <= InQueue(b.d.queue)
      && Live(PlacesOf(d', NextReleased(b.d, b.rel, ev)))
         <= Live(PlacesOf(BeforeFlush(b.d, ev), NextReleased(b.d, b.rel, ev)))
  {
    BeforeFlushSound(b, ev);
    FlushPlaces(env, now, BeforeFlush(b.d, ev), NextReleased(b.d, b.rel, ev));
  }

  // A released serial stays released until it ends for good.
  lemma {:induction false} ReleasedMotion(env: Env, b: Books, t: Timed)
    requires Balanced(b)
    ensures b.rel.Values <= NextBooks(env, b, t).rel.Values + NextBooks(env, b, t).fate.Keys
  {
    var ev := Stamped(t.ev, b.next);
    if Enabled(b.d, ev) {
      if ev.AckPubrec? && ev.id in b.d.pubrec && !ev.rc.IsError() {
        PubrecPlaces(b.d, b.rel, ev);
        ReleasedAdd(b.rel, ev.id, b.d.pubrec[ev.id].lbl.serial);
      } else if ev.AckPubcomp? && ev.id in b.rel {
        FlushMotion(env, b, t.now, ev);
        CompletedEnds(b, t.now, ev, Step(env, t.now, b.d, ev));
      } else if ev.AckPubcomp? {
        assert b.rel - {ev.id} == b.rel;
      } else if ev.Reconnect? && ev.changed {
        FlushMotion(env, b, t.now, ev);
        WipedEnd(b, t.now, ev, Step(env, t.now, b.d, ev));
      }
    }
  }

  lemma {:induction false} CompletedEnds(b: Books, now: nat, ev: Event, r: Flushed)
    requires Balanced(b) && ev.AckPubcomp? && ev.id in b.rel
    requires var rel' := NextReleased(b.d, b.rel, ev);
      Live(PlacesOf(r.d, rel')) <= Live(PlacesOf(BeforeFlush(b.d, ev), rel'))
    ensures b.rel.Values <= Record1(b, now, ev, r).rel.Values + Record1(b, now, ev, r).fate.Keys
  {
    var x := b.rel[ev.id];
    ReleasedRemove(b.rel, ev.id);
    assert x in PlacesOf(b.d, b.rel).released;
    assert x !in Live(PlacesOf(r.d, b.rel - {ev.id}));
    assert x in Departures(b, now, ev, r);
  }

  lemma {:induction false} WipedEnd(b: Books, now: nat, ev: Event, r: Flushed)
    requires Balanced(b) && ev.Reconnect? && ev.changed && Enabled(b.d, ev)
    requires Live(PlacesOf(r.d, map[])) <= Live(PlacesOf(BeforeFlush(b.d, ev), map[]))
    ensures b.rel.Values <= Record1(b, now, ev, r).fate.Keys
  {
    assert PlacesOf(BeforeFlush(b.d, ev), map[]) == Places({}, {}, {}, {});
    forall x | x in b.rel.Values ensures x in Departures(b, now, ev, r) {
      assert x in PlacesOf(b.d, b.rel).released;
    }
  }
}
