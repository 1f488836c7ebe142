// What the steps of a loss-free exchange do to the books: deliveries end
// acknowledged, or expired or too big while still waiting, and QoS 2 deliveries
// end acknowledged only by way of an accepted PUBREC.

module Outcomes {
  import opened Types
  import opened Delivery
  import opened SessionRuns
  import opened Conservation
  import opened EndToEnd
  import ExactlyOnce

  // The QoS 2 deliveries still to be passed on, as far as the broker knows.
  ghost function StillOwed(d: Outbound): set<nat> {
    InTable(d.pubrec) + set k | 0 <= k < |d.queue| && d.queue[k].qos == ExactlyOnce :: d.queue[k].lbl.serial
  }

  // How a delivery may end: one that was no longer waiting only acknowledged.
  predicate EndsWell(fate: Fate, waiting: bool) {
    fate == Acknowledged || (waiting && (fate == Expired || fate == Oversized))
  }

  ghost predicate FatesAdvance(b: Books, b': Books) {
    && (forall s :: s in b.fate ==> s in b'.fate && b'.fate[s] == b.fate[s])
    && (forall s :: s in b'.fate ==> s in b.fate || EndsWell(b'.fate[s], s in InQueue(b.d.queue)))
  }

  // `done` are the deliveries whose PUBREC was accepted.
  ghost predicate Passing(b: Books, b': Books, done: set<nat>) {
    forall s :: s in StillOwed(b.d) ==>
      s in StillOwed(b'.d) || s in done || (s in b'.fate && b'.fate[s] != Acknowledged)
  }

  ghost predicate BooksAdvance(b: Books, b': Books, done: set<nat>) {
    && b'.next == b.next && InQueue(b'.d.queue) <= InQueue(b.d.queue)
    && FatesAdvance(b, b') && Passing(b, b', done)
  }

  // An exchange of `w` led to `w'`.
  ghost predicate Advances(w: World, w': World) {
    BooksAdvance(w.b, w'.b, w'.accepted) && w.accepted <= w'.accepted && w'.wiped == w.wiped
  }

  lemma {:induction false} AdvancesSame(w: World, w': World)
    requires w'.b == w.b && w'.accepted == w.accepted && w'.wiped == w.wiped
    ensures Advances(w, w')
  {
  }

  lemma {:induction false} FatesTrans(a: Books, b: Books, c: Books)
    requires FatesAdvance(a, b) && FatesAdvance(b, c) && InQueue(b.d.queue) <= InQueue(a.d.queue)
    ensures FatesAdvance(a, c)
  {
    forall s | s in c.fate && s !in a.fate ensures EndsWell(c.fate[s], s in InQueue(a.d.queue)) {
      if s in b.fate { assert c.fate[s] == b.fate[s]; }
    }
  }

  lemma {:induction false} PassingTrans(a: Books, b: Books, c: Books, done: set<nat>, more: set<nat>)
    requires Passing(a, b, done) && Passing(b, c, more) && done <= more && FatesAdvance(b, c)
    ensures Passing(a, c, more)
  {
  }

  lemma {:induction false} AdvancesTrans(a: World, b: World, c: World)
    requires Advances(a, b) && Advances(b, c)
    ensures Advances(a, c)
  {
    FatesTrans(a.b, b.b, c.b);
    PassingTrans(a.b, b.b, c.b, b.accepted, c.accepted);
  }

  // -------------------------------------------------------------------------
  // One event
  // -------------------------------------------------------------------------

  // An event of a loss-free exchange.
  predicate Gentle(ev: Event) {
    || ev.AckPuback? || ev.AckPubcomp? || ev.Drain?
    || (ev.AckPubrec? && !ev.rc.IsError()) || (ev.Reconnect? && !ev.changed)
  }

  lemma {:induction false} GentleFate(env: Env, b: Books, now: nat, ev: Event, s: nat, fate: Fate)
    requires Gentle(ev) && Enabled(b.d, ev) && Truthful(env, b, now, ev, s, fate)
    ensures EndsWell(fate, s in InQueue(b.d.queue))
  {
    if fate == Oversized {
      var k: nat :| QueuedAs(b.d.queue, k, s);
    } else if fate == Expired {
      var k: nat :| QueuedAs(b.d.queue, k, s);
    }
  }

  lemma {:induction false} GentleFates(env: Env, b: Books, t: Timed)
    requires Balanced(b) && Gentle(t.ev)
    ensures FatesAdvance(b, NextBooks(env, b, t))
  {
    var b' := NextBooks(env, b, t);
    forall s | s in b.fate ensures s in b'.fate && b'.fate[s] == b.fate[s] { FateKept(env, b, t, s); }
    forall s | s in b'.fate && s !in b.fate ensures EndsWell(b'.fate[s], s in InQueue(b.d.queue)) {
      NewFate(env, b, t, s);
    }
  }

  lemma {:induction false} NewFate(env: Env, b: Books, t: Timed, s: nat)
    requires Balanced(b) && Gentle(t.ev) && s in NextBooks(env, b, t).fate && s !in b.fate
    ensures Enabled(b.d, t.ev) && Truthful(env, b, t.now, t.ev, s, NextBooks(env, b, t).fate[s])
    ensures EndsWell(NextBooks(env, b, t).fate[s], s in InQueue(b.d.queue))
  {
    StepTruthful(env, t.now, b, t.ev);
    assert s in Departures(b, t.now, t.ev, Step(env, t.now, b.d, t.ev));
    GentleFate(env, b, t.now, t.ev, s, NextBooks(env, b, t).fate[s]);
  }

  // A flush keeps a QoS 2 delivery that is alive where it can still be passed on.
  lemma {:induction false} FlushOwing(env: Env, now: nat, d: Outbound, rel: map<nat, nat>, k: nat)
    requires WellFormed(d) && Sound(d, rel) && k < |d.queue| && d.queue[k].qos == ExactlyOnce
    ensures var d', s := Flush(env, now, d).d, d.queue[k].lbl.serial;
      s in StillOwed(d') || s !in Live(PlacesOf(d', rel))
    decreases |d.queue|
  {
    var mv := FlushMove(env, now, d);
    if !mv.Stay? {
      var d1, s := Moved(d, mv), d.queue[k].lbl.serial;
      MovePlaces(d, rel, mv);
      MoveKeepsWellFormed(d, mv);
      assert d1.queue == d.queue[1..];
      if k > 0 {
        assert d1.queue[k - 1] == d.queue[k];
        FlushOwing(env, now, d1, rel, k - 1);
      } else {
        FlushPlaces(env, now, d1, rel);
        if mv.Ship? {
          assert d1.pubrec[mv.id].lbl.serial == s;
          FlushKeepsEntries(env, now, d1);
          assert Flush(env, now, d1).d.pubrec[mv.id].lbl.serial == s;
        } else {
          SkippedIsGone(d, rel, mv, s);
        }
      }
    }
  }

  lemma {:induction false} SkippedIsGone(d: Outbound, rel: map<nat, nat>, mv: Move, s: nat)
    requires Sound(d, rel) && Legal(d, mv) && mv.Skip? && s == d.queue[0].lbl.serial
    requires PlacesOf(Moved(d, mv), rel) == MovedPlaces(PlacesOf(d, rel), mv, s)
    ensures s !in Live(PlacesOf(Moved(d, mv), rel))
  {
    assert s in PlacesOf(d, rel).queued by { assert d.queue[0].lbl.serial in InQueue(d.queue); }
  }

  // -------------------------------------------------------------------------
  // QoS 2 deliveries
  // -------------------------------------------------------------------------

  // A delivery that awaits its PUBREC, or waits for an identifier, does not end
  // acknowledged.
  lemma {:induction false} OwingNotDone(env: Env, b: Books, t: Timed, s: nat)
    requires Balanced(b) && Gentle(t.ev) && s in StillOwed(b.d) && s in NextBooks(env, b, t).fate
    ensures NextBooks(env, b, t).fate[s] != Acknowledged
  {
    var places := PlacesOf(b.d, b.rel);
    OwingPlaces(b, s);
    assert s in Live(places);
    NewFate(env, b, t, s);
    if t.ev.AckPuback? && t.ev.id in b.d.puback { assert b.d.puback[t.ev.id].lbl.serial in places.acks; }
    if t.ev.AckPubcomp? && t.ev.id in b.rel { assert b.rel[t.ev.id] in places.released; }
  }

  lemma {:induction false} OwingPlaces(b: Books, s: nat)
    requires s in StillOwed(b.d)
    ensures s in PlacesOf(b.d, b.rel).recs + PlacesOf(b.d, b.rel).queued
  {
  }

  // Not ended means still somewhere.
  lemma {:induction false} LiveOrEnded(env: Env, b: Books, t: Timed, s: nat)
    requires Balanced(b) && !t.ev.Give? && s in Live(PlacesOf(b.d, b.rel))
    ensures var b' := NextBooks(env, b, t); s in Live(PlacesOf(b'.d, b'.rel)) || s in b'.fate
  {
    StepBalances(env, b, t);
    assert s < b.next && NextBooks(env, b, t).next == b.next;
  }

  lemma {:induction false} RecPassing(env: Env, b: Books, t: Timed, id: nat, done: set<nat>)
    requires Balanced(b) && Gentle(t.ev) && id in b.d.pubrec
    requires t.ev.AckPubrec? && t.ev.id in b.d.pubrec ==> b.d.pubrec[t.ev.id].lbl.serial in done
    ensures b.d.pubrec[id].lbl.serial in StillOwed(NextBooks(env, b, t).d) + done
  {
    if Enabled(b.d, t.ev) {
      EntriesStay(env, t.now, b.d, t.ev);
      var d' := Step(env, t.now, b.d, t.ev).d;
      if !(t.ev.AckPubrec? && t.ev.id == id) { assert d'.pubrec[id] == b.d.pubrec[id]; }
    }
  }

  predicate Flushes1(ev: Event) {
    ev.AckPuback? || ev.AckPubcomp? || ev.Reconnect?
  }

  // What a flushing event leaves is what the flush leaves.
  lemma {:induction false} FlushedBooks(env: Env, b: Books, t: Timed)
    requires Flushes1(t.ev) && Enabled(b.d, t.ev)
    ensures var b' := NextBooks(env, b, t);
      b'.d == Flush(env, t.now, BeforeFlush(b.d, t.ev)).d && b'.rel == NextReleased(b.d, b.rel, t.ev)
  {
    assert Stamped(t.ev, b.next) == t.ev;
    assert Step(env, t.now, b.d, t.ev) == Flush(env, t.now, BeforeFlush(b.d, t.ev)) by {
      FlushedStep(env, t.now, b.d, t.ev);
    }
  }

  lemma {:induction false} FlushedStep(env: Env, now: nat, d: Outbound, ev: Event)
    requires Flushes1(ev) && Enabled(d, ev)
    ensures Step(env, now, d, ev) == Flush(env, now, BeforeFlush(d, ev))
  {
  }

  lemma {:induction false} SameQueue(env: Env, b: Books, t: Timed)
    requires Gentle(t.ev) && (!Flushes1(t.ev) || !Enabled(b.d, t.ev))
    ensures NextBooks(env, b, t).d.queue == b.d.queue
  {
  }

  lemma {:induction false} QueuePassing(env: Env, b: Books, t: Timed, k: nat)
    requires Balanced(b) && Gentle(t.ev) && k < |b.d.queue| && b.d.queue[k].qos == ExactlyOnce
    ensures var b', s := NextBooks(env, b, t), b.d.queue[k].lbl.serial;
      s in StillOwed(b'.d) || s !in Live(PlacesOf(b'.d, b'.rel))
  {
    var ev := t.ev;
    if Flushes1(ev) && Enabled(b.d, ev) {
      var d0 := BeforeFlush(b.d, ev);
      BeforeFlushSound(b, ev);
      assert d0.queue == b.d.queue;
      FlushedBooks(env, b, t);
      FlushOwing(env, t.now, d0, NextReleased(b.d, b.rel, ev), k);
    } else {
      SameQueue(env, b, t);
    }
  }

  lemma {:induction false} GentlePassing(env: Env, b: Books, t: Timed, done: set<nat>)
    requires Balanced(b) && Gentle(t.ev)
    requires t.ev.AckPubrec? && t.ev.id in b.d.pubrec ==> b.d.pubrec[t.ev.id].lbl.serial in done
    ensures Passing(b, NextBooks(env, b, t), done)
  {
    var b' := NextBooks(env, b, t);
    forall s | s in StillOwed(b.d)
      ensures s in StillOwed(b'.d) || s in done || (s in b'.fate && b'.fate[s] != Acknowledged)
    {
      OwingPlaces(b, s);
      LiveOrEnded(env, b, t, s);
      if s in b'.fate { OwingNotDone(env, b, t, s); }
      if id :| id in b.d.pubrec && b.d.pubrec[id].lbl.serial == s {
        RecPassing(env, b, t, id, done);
      } else {
        var k :| 0 <= k < |b.d.queue| && b.d.queue[k].qos == ExactlyOnce && b.d.queue[k].lbl.serial == s;
        QueuePassing(env, b, t, k);
      }
    }
  }

  lemma {:induction false} GentleQueue(env: Env, b: Books, t: Timed)
    requires Balanced(b) && Gentle(t.ev)
    ensures InQueue(NextBooks(env, b, t).d.queue) <= InQueue(b.d.queue)
  {
    if Flushes1(t.ev) && Enabled(b.d, t.ev) {
      FlushedBooks(env, b, t);
      FlushMotion(env, b, t.now, t.ev);
    } else {
      SameQueue(env, b, t);
    }
  }

  lemma {:induction false} GentleAdvance(env: Env, b: Books, t: Timed, done: set<nat>)
    requires Balanced(b) && Gentle(t.ev)
    requires t.ev.AckPubrec? && t.ev.id in b.d.pubrec ==> b.d.pubrec[t.ev.id].lbl.serial in done
    ensures BooksAdvance(b, NextBooks(env, b, t), done)
  {
    GentleFates(env, b, t);
    GentlePassing(env, b, t, done);
    GentleQueue(env, b, t);
  }

  // -------------------------------------------------------------------------
  // One act
  // -------------------------------------------------------------------------

  lemma {:induction false} TransmitAdvances(env: Env, now: nat, w: World)
    requires Inv(w)
    ensures Advances(w, NextWorld(env, w, On(now, Transmit)))
  {
    var w' := NextWorld(env, w, On(now, Transmit));
    if Items(w.b.d) == [] { AdvancesSame(w, w'); } else { GentleAdvance(env, w.b, At(now, Drain), w.accepted); }
  }

  lemma {:induction false} ReceiveAdvances(env: Env, now: nat, w: World, refuse: bool)
    ensures Advances(w, NextWorld(env, w, On(now, Receive(refuse))))
  {
    var w' := NextWorld(env, w, On(now, Receive(refuse)));
    if w.down != [] { ExactlyOnce.ReceiveFrame(w, refuse); }
    AdvancesSame(w, w');
  }

  lemma {:induction false} AcknowledgeAdvances(env: Env, now: nat, w: World)
    requires Inv(w) && (w.up != [] && w.up[0].Pubrec? ==> !w.up[0].rc.IsError())
    ensures Advances(w, NextWorld(env, w, On(now, Acknowledge)))
  {
    if w.up == [] {
      AdvancesSame(w, w);
    } else {
      ExactlyOnce.AckEffect(env, now, w);
      var w' := Acknowledged1(env, now, w);
      if AckEvent(w.up[0]).None? { AdvancesSame(w, w'); }
      else { GentleAdvance(env, w.b, At(now, AckEvent(w.up[0]).value), w'.accepted); }
    }
  }

  lemma {:induction false} RedialAdvances(env: Env, now: nat, w: World, ev: Event)
    requires Inv(w) && ev.Reconnect? && !ev.changed && Enabled(w.b.d, ev)
    ensures Advances(w, NextWorld(env, w, On(now, Redial(ev))))
  {
    GentleAdvance(env, w.b, At(now, ev), w.accepted);
    RedialFrame(env, now, w, ev);
  }

  lemma {:induction false} RedialFrame(env: Env, now: nat, w: World, ev: Event)
    requires ev.Reconnect? && !ev.changed && Enabled(w.b.d, ev)
    ensures var w' := NextWorld(env, w, On(now, Redial(ev)));
      w'.b == NextBooks(env, w.b, At(now, ev)) && w'.accepted == w.accepted && w'.wiped == w.wiped
  {
  }
}
