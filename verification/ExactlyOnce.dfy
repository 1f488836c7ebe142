// Exactly once, whatever happens: what becomes of an accepted delivery when a
// change of identity wiped the session while the receiver still held one of
// its identifiers.

module ExactlyOnce {
  import opened Types
  import opened Delivery
  import opened SessionRuns
  import opened Conservation
  import opened EndToEnd

  // Serials of the entries of `d'` awaiting PUBREC that are new and were given
  // an identifier the receiver still holds.
  ghost function Collisions(d: Outbound, d': Outbound, held: set<nat>): set<nat> {
    set id | id in d'.pubrec && id !in d.pubrec && id in held :: d'.pubrec[id].lbl.serial
  }

  /** A world, and the deliveries ever sent under an identifier that the
      receiver still held from an earlier one. */
  datatype Watched = Watched(w: World, collided: set<nat>)

  ghost function NextWatched(env: Env, x: Watched, t: TimedAct): Watched {
    var w' := NextWorld(env, x.w, t);
    Watched(w', x.collided + Collisions(x.w.b.d, w'.b.d, x.w.held))
  }

  ghost function Watch(env: Env, x: Watched, run: seq<TimedAct>): Watched
    decreases |run|
  {
    if run == [] then x else Watch(env, NextWatched(env, x, run[0]), run[1..])
  }

  lemma {:induction false} WatchPlays(env: Env, x: Watched, run: seq<TimedAct>)
    ensures Watch(env, x, run).w == Play(env, x.w, run)
    decreases |run|
  {
    if run != [] { WatchPlays(env, NextWatched(env, x, run[0]), run[1..]); }
  }

  // -------------------------------------------------------------------------
  // Where entries awaiting PUBREC come from
  // -------------------------------------------------------------------------

  // Every entry is an old one, or new under a free identifier with a serial
  // from `from`.
  ghost predicate Grows(d: Outbound, d': Outbound, from: set<nat>) {
    forall id :: id in d'.pubrec ==>
      if id in d.pubrec then d'.pubrec[id] == d.pubrec[id] else d'.pubrec[id].lbl.serial in from
  }

  lemma {:induction false} MoveGrows(d: Outbound, mv: Move)
    requires Legal(d, mv)
    ensures Grows(d, Moved(d, mv), InQueue(d.queue))
  {
    if mv.Ship? { assert mv.pub.lbl.serial in InQueue(d.queue); }
  }

  lemma {:induction false} GrowsThen(a: Outbound, b: Outbound, c: Outbound, from: set<nat>, more: set<nat>)
    requires Grows(a, b, from) && Grows(b, c, more) && more <= from
    requires forall id :: id in a.pubrec && id in c.pubrec ==> id in b.pubrec
    ensures Grows(a, c, from)
  {
  }

  lemma {:induction false} TailInQueue(q: seq<Pending>)
    requires q != []
    ensures InQueue(q[1..]) <= InQueue(q)
  {
    forall i | i in InQueue(q[1..]) ensures i in InQueue(q) {
      var k :| 0 <= k < |q[1..]| && q[1..][k].lbl.serial == i;
      assert q[k + 1].lbl.serial == i;
    }
  }

  lemma {:induction false} FlushGrows(env: Env, now: nat, d: Outbound)
    requires WellFormed(d)
    ensures Grows(d, Flush(env, now, d).d, InQueue(d.queue))
    decreases |d.queue|
  {
    var mv := FlushMove(env, now, d);
    MoveGrows(d, mv);
    if !mv.Stay? {
      var d1 := Moved(d, mv);
      MoveKeepsWellFormed(d, mv);
      FlushGrows(env, now, d1);
      TailInQueue(d.queue);
      GrowsThen(d, d1, Flush(env, now, d1).d, InQueue(d.queue), InQueue(d1.queue));
    }
  }

  lemma {:induction false} GiveGrows(env: Env, now: nat, d: Outbound, p: Pending)
    requires WellFormed(d)
    ensures Grows(d, Deliver(env, now, d, p).d, {p.lbl.serial})
  {
    var ef := DeliverEffect(env, now, d, p);
  }

  lemma {:induction false} ResumeGrows(env: Env, now: nat, d: Outbound, ev: Event)
    requires WellFormed(d) && ev.Reconnect? && Enabled(d, ev)
    ensures Grows(d, Step(env, now, d, ev).d, InQueue(d.queue))
  {
    var r := Resumed(d, ev);
    FlushGrows(env, now, r.(out := Some(TrySendAll(r.out.value, Backlog(r, ev.order)))));
    if ev.changed { assert InQueue([]) == {}; }
  }

  lemma {:induction false} StepGrows(env: Env, now: nat, d: Outbound, ev: Event)
    requires WellFormed(d) && Enabled(d, ev)
    ensures Grows(d, Step(env, now, d, ev).d, InQueue(d.queue) + if ev.Give? then {ev.p.lbl.serial} else {})
  {
    match ev
    case Give(p) => GiveGrows(env, now, d, p);
    case AckPuback(id) => FlushGrows(env, now, d.(puback := d.puback - {id}));
    case AckPubcomp(id) => FlushGrows(env, now, d.(pubcomp := d.pubcomp - {id}));
    case Reconnect(_, _, _, _, _) => ResumeGrows(env, now, d, ev);
    case _ =>
  }

  lemma {:induction false} BooksGrow(env: Env, b: Books, t: Timed)
    requires Balanced(b)
    ensures Grows(b.d, NextBooks(env, b, t).d, InQueue(b.d.queue) + {b.next})
  {
    var ev := Stamped(t.ev, b.next);
    if Enabled(b.d, ev) { StepGrows(env, t.now, b.d, ev); }
  }

  // -------------------------------------------------------------------------
  // The invariant
  // -------------------------------------------------------------------------

  // A collided entry sits under a held identifier; an entry under a held
  // identifier has been passed on or has collided; and never both.
  ghost predicate Told(d: Outbound, held: set<nat>, app: set<nat>, collided: set<nat>) {
    && (forall id :: id in d.pubrec && d.pubrec[id].lbl.serial in collided ==> id in held)
    && (forall id :: id in d.pubrec && id in held ==> d.pubrec[id].lbl.serial in app + collided)
  }

  ghost predicate Apart2(b: Books, app: set<nat>, collided: set<nat>) {
    && collided !! app && collided !! InQueue(b.d.queue)
    && (forall s :: s in collided ==> s < b.next)
  }

  ghost predicate WatchInv(x: Watched) {
    && Inv(x.w)
    && Told(x.w.b.d, x.w.held, Passed(x.w), x.collided)
    && Apart2(x.w.b, Passed(x.w), x.collided)
    && x.w.accepted <= Passed(x.w) + x.collided
    && (!x.w.wiped ==> x.collided == {})
  }

  // The tables grow, the receiver stands still.
  lemma {:induction false} GrowthTold(d: Outbound, d': Outbound, held: set<nat>, app: set<nat>, collided: set<nat>,
                                      from: set<nat>)
    requires Told(d, held, app, collided) && Grows(d, d', from) && collided !! from && DistinctTable(d'.pubrec)
    ensures Told(d', held, app, collided + Collisions(d, d', held))
    ensures Collisions(d, d', held) <= from && Collisions(d, d', held) <= InTable(d'.pubrec)
  {
    var c := Collisions(d, d', held);
    forall id | id in d'.pubrec && d'.pubrec[id].lbl.serial in c ensures id in held {
      var other :| other in d'.pubrec && other in held && d'.pubrec[other].lbl.serial == d'.pubrec[id].lbl.serial;
      assert other == id;
    }
    forall id | id in d'.pubrec && id in held ensures d'.pubrec[id].lbl.serial in app + (collided + c) {
      if id !in d.pubrec { assert d'.pubrec[id].lbl.serial in c; }
    }
  }

  lemma {:induction false} NewIsApart(b: Books, b': Books, app: set<nat>, collided: set<nat>, fresh': set<nat>)
    requires Balanced(b') && Apart2(b, app, collided) && b.next <= b'.next
    requires InQueue(b'.d.queue) <= InQueue(b.d.queue) + {b.next}
    requires fresh' <= InTable(b'.d.pubrec) && fresh' !! app
    ensures Apart2(b', app, collided + fresh')
  {
    var w := PlacesOf(b'.d, b'.rel);
    assert fresh' <= w.recs <= Live(w);
  }

  lemma {:induction false} NoCollisionWhileTight(d: Outbound, d': Outbound, held: set<nat>, app: set<nat>,
                                                 from: set<nat>)
    requires Tight(d', held, app) && Grows(d, d', from) && app !! from
    ensures Collisions(d, d', held) == {}
  {
  }

  // Any act of the broker while the receiver stands still.
  lemma {:induction false} BooksWatched(env: Env, x: Watched, t: Timed, w': World)
    requires WatchInv(x) && Inv(w') && w'.b == NextBooks(env, x.w.b, t)
    requires w'.held == x.w.held && w'.app == x.w.app && (x.w.wiped ==> w'.wiped)
    requires w'.accepted <= Passed(x.w) + x.collided
    ensures WatchInv(Watched(w', x.collided + Collisions(x.w.b.d, w'.b.d, x.w.held)))
  {
    var b, b', app, from := x.w.b, w'.b, Passed(x.w), InQueue(x.w.b.d.queue) + {x.w.b.next};
    assert Passed(w') == app;
    BooksGrow(env, b, t);
    QueueMotion(env, b, t);
    GrowthTold(b.d, b'.d, x.w.held, app, x.collided, from);
    NewIsApart(b, b', app, x.collided, Collisions(b.d, b'.d, x.w.held));
    if !w'.wiped { NoCollisionWhileTight(b.d, b'.d, x.w.held, app, from); }
  }

  // -------------------------------------------------------------------------
  // Acts
  // -------------------------------------------------------------------------

  lemma {:induction false} SameBooks(x: Watched, w': World)
    requires WatchInv(x) && Inv(w') && w'.b == x.w.b && w'.accepted == x.w.accepted && w'.wiped == x.w.wiped
    requires Told(w'.b.d, w'.held, Passed(w'), x.collided) && x.collided !! Passed(w') && Passed(x.w) <= Passed(w')
    ensures WatchInv(Watched(w', x.collided + Collisions(x.w.b.d, w'.b.d, x.w.held)))
  {
    assert Collisions(x.w.b.d, x.w.b.d, x.w.held) == {};
    assert x.collided + {} == x.collided;
  }

  lemma {:induction false} ReceiveTold(w: World, refuse: bool, collided: set<nat>)
    requires Inv(w) && w.down != [] && Told(w.b.d, w.held, Passed(w), collided) && collided !! Passed(w)
    ensures var w' := Received(w.(down := w.down[1..]), w.down[0], refuse);
      Told(w.b.d, w'.held, Passed(w'), collided) && collided !! Passed(w') && Passed(w) <= Passed(w')
  {
    var x, w' := w.down[0], Received(w.(down := w.down[1..]), w.down[0], refuse);
    assert Pipe(w)[0] == x && DownOk(w.b.d, x);
    if w'.app != w.app {
      PassedSnoc(w, x.publish.lbl.serial);
      assert w.b.d.pubrec[x.publish.packetId.value].lbl == x.publish.lbl;
      ToldAccept(w.b.d, w.held, Passed(w), collided, x.publish.packetId.value);
      assert Passed(w') == Passed(w) + {x.publish.lbl.serial};
    } else {
      assert Passed(w') == Passed(w);
    }
  }

  lemma {:induction false} ToldAccept(d: Outbound, held: set<nat>, app: set<nat>, collided: set<nat>, id: nat)
    requires Told(d, held, app, collided) && collided !! app && id in d.pubrec && id !in held
    ensures var s := d.pubrec[id].lbl.serial; Told(d, held + {id}, app + {s}, collided) && collided !! app + {s}
  {
  }

  lemma {:induction false} ReceiveWatched(env: Env, now: nat, x: Watched, refuse: bool)
    requires WatchInv(x) && x.w.down != []
    ensures WatchInv(NextWatched(env, x, On(now, Receive(refuse))))
  {
    ReceiveAct(env, now, x.w, refuse);
    var w' := Received(x.w.(down := x.w.down[1..]), x.w.down[0], refuse);
    assert NextWorld(env, x.w, On(now, Receive(refuse))) == w';
    ReceiveFrame(x.w, refuse);
    ReceiveTold(x.w, refuse, x.collided);
    SameBooks(x, w');
  }

  // The receiver touches nothing of the broker's.
  lemma {:induction false} ReceiveFrame(w: World, refuse: bool)
    requires w.down != []
    ensures var w' := Received(w.(down := w.down[1..]), w.down[0], refuse);
      w'.b == w.b && w'.accepted == w.accepted && w'.rejected == w.rejected && w'.wiped == w.wiped
  {
  }

  // A PUBREC taken as a success is for an entry passed on or collided.
  lemma {:induction false} AcceptedTold(x: Watched)
    requires WatchInv(x) && x.w.up != []
    ensures var p := x.w.up[0];
      p.Pubrec? && !p.rc.IsError() ==>
        p.id in x.w.b.d.pubrec && x.w.b.d.pubrec[p.id].lbl.serial in Passed(x.w) + x.collided
  {
    assert UpOk(x.w.b.d, x.w.held, x.w.up[0]);
  }

  lemma {:induction false} AcknowledgeWatched(env: Env, now: nat, x: Watched)
    requires WatchInv(x) && x.w.up != []
    ensures WatchInv(NextWatched(env, x, On(now, Acknowledge)))
  {
    var w' := Acknowledged1(env, now, x.w);
    assert NextWatched(env, x, On(now, Acknowledge))
           == Watched(w', x.collided + Collisions(x.w.b.d, w'.b.d, x.w.held));
    AcknowledgedWatched(env, now, x, w');
  }

  lemma {:induction false} AcknowledgedWatched(env: Env, now: nat, x: Watched, w': World)
    requires WatchInv(x) && x.w.up != [] && w' == Acknowledged1(env, now, x.w)
    ensures WatchInv(Watched(w', x.collided + Collisions(x.w.b.d, w'.b.d, x.w.held)))
  {
    AcknowledgeAct(env, now, x.w);
    AckAccepts(env, now, x);
    AckEffect(env, now, x.w);
    TakenWatched(env, now, x, x.w.up[0], w');
  }

  lemma {:induction false} AckAccepts(env: Env, now: nat, x: Watched)
    requires WatchInv(x) && x.w.up != []
    ensures Acknowledged1(env, now, x.w).accepted <= Passed(x.w) + x.collided
  {
    AckEffect(env, now, x.w);
    AcceptedTold(x);
  }

  lemma {:induction false} TakenWatched(env: Env, now: nat, x: Watched, p: Packet, w': World)
    requires WatchInv(x) && Inv(w')
    requires w'.held == x.w.held && w'.app == x.w.app && w'.wiped == x.w.wiped
    requires w'.b == (if AckEvent(p).None? then x.w.b else NextBooks(env, x.w.b, At(now, AckEvent(p).value)))
    requires w'.accepted <= Passed(x.w) + x.collided && (AckEvent(p).None? ==> w'.accepted == x.w.accepted)
    ensures WatchInv(Watched(w', x.collided + Collisions(x.w.b.d, w'.b.d, x.w.held)))
  {
    if AckEvent(p).None? { SameBooks(x, w'); } else { BooksWatched(env, x, At(now, AckEvent(p).value), w'); }
  }

  // What taking an acknowledgement leaves alone.
  lemma {:induction false} AckEffect(env: Env, now: nat, w: World)
    requires w.up != []
    ensures var w', p := Acknowledged1(env, now, w), w.up[0];
      && w'.held == w.held && w'.app == w.app && w'.wiped == w.wiped
      && w'.b == (if AckEvent(p).None? then w.b else NextBooks(env, w.b, At(now, AckEvent(p).value)))
      && w'.accepted == w.accepted + if p.Pubrec? && !p.rc.IsError() && p.id in w.b.d.pubrec
                                     then {w.b.d.pubrec[p.id].lbl.serial} else {}
  {
  }

  lemma {:induction false} ActWatched(env: Env, x: Watched, t: TimedAct)
    requires WatchInv(x)
    ensures WatchInv(NextWatched(env, x, t))
  {
    var w' := NextWorld(env, x.w, t);
    ActKeepsInv(env, x.w, t);
    match t.act
    case Broker(ev) =>
      if w'.b != x.w.b { BooksWatched(env, x, At(t.now, ev), w'); } else { SameBooks(x, w'); }
    case Transmit =>
      if Items(x.w.b.d) != [] { BooksWatched(env, x, At(t.now, Drain), w'); } else { SameBooks(x, w'); }
    case Receive(refuse) =>
      if x.w.down != [] { ReceiveWatched(env, t.now, x, refuse); } else { SameBooks(x, w'); }
    case Acknowledge =>
      if x.w.up != [] { AcknowledgeWatched(env, t.now, x); } else { SameBooks(x, w'); }
    case Lose => SameBooks(x, w');
    case Redial(ev) =>
      if ev.Reconnect? && Enabled(x.w.b.d, ev) { BooksWatched(env, x, At(t.now, ev), w'); } else { SameBooks(x, w'); }
  }

  lemma {:induction false} WatchKeepsInv(env: Env, x: Watched, run: seq<TimedAct>)
    requires WatchInv(x)
    ensures WatchInv(Watch(env, x, run))
    decreases |run|
  {
    if run != [] {
      ActWatched(env, x, run[0]);
      WatchKeepsInv(env, NextWatched(env, x, run[0]), run[1..]);
    }
  }

  // In every run, wiped or not: a delivery whose PUBREC the broker accepted was
  // passed to the application, and once, exactly if it was never sent under an
  // identifier the receiver still held from an earlier delivery; and as long as
  // the client's identity does not change there is no such delivery.
  lemma {:induction false} ExactlyOnceUnlessCollided(env: Env, run: seq<TimedAct>)
    ensures var x := Watch(env, Watched(START, {}), run);
      && x.w == Play(env, START, run)
      && NoRepeat(x.w.app)
      && (forall s :: s in x.w.accepted ==> (s in Passed(x.w) <==> s !in x.collided))
      && (!x.w.wiped ==> x.collided == {})
  {
    StartInv();
    assert Passed(START) == {};
    WatchPlays(env, Watched(START, {}), run);
    WatchKeepsInv(env, Watched(START, {}), run);
  }
}
