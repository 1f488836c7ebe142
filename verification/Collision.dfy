// How exactly-once delivery can fail after a change of identity: the identifier
// cursor survives the wipe, so it comes round to an identifier that the receiver
// still holds.

module Collision {
  import opened Types
  import opened Delivery
  import opened SessionRuns
  import opened FlowControl
  import opened Conservation
  import opened EndToEnd
  import opened ExactlyOnce

  // A connection with a window of one and a channel of the given capacity.
  function Line(changed: bool, capacity: nat): Act {
    Redial(Reconnect(changed, Channel(capacity, [], true), 1, None, ResumeOrder([], [], [])))
  }

  // A connection, a message sent under identifier 1, and the receiver's PUBREC.
  function Exchange(p: Pending): seq<TimedAct> {
    [On(0, Line(false, 1)), On(0, Broker(Give(p))), On(0, Transmit), On(0, Receive(false))]
  }

  // The PUBREC is lost with the connection, and the session resumes under
  // another identity.
  function Opening(p: Pending): seq<TimedAct> {
    Exchange(p) + [On(0, Line(true, 0))]
  }

  // Deliveries that find the channel full take an identifier each and are queued.
  function Walk(p: Pending, k: nat): seq<TimedAct> {
    if k == 0 then [] else Walk(p, k - 1) + [On(0, Broker(Give(p)))]
  }

  // The next connection sends the oldest queued message, under identifier 1.
  function Closing(): seq<TimedAct> {
    [On(0, Line(false, 1)), On(0, Transmit), On(0, Receive(false)), On(0, Acknowledge)]
  }

  function Colliding(p: Pending): seq<TimedAct> {
    Opening(p) + (Walk(p, MAX_ID - 1) + Closing())
  }

  lemma {:induction false} PlayConcat(env: Env, w: World, a: seq<TimedAct>, b: seq<TimedAct>)
    ensures Play(env, w, a + b) == Play(env, Play(env, w, a), b)
    decreases |a|
  {
    if a == [] {
      assert a + b == b;
    } else {
      assert (a + b)[1..] == a[1..] + b;
      PlayConcat(env, NextWorld(env, w, a[0]), a[1..], b);
    }
  }

  lemma {:induction false} PlayFour(env: Env, w: World, a: TimedAct, b: TimedAct, c: TimedAct, d: TimedAct)
    ensures Play(env, w, [a, b, c, d])
            == NextWorld(env, NextWorld(env, NextWorld(env, NextWorld(env, w, a), b), c), d)
  {
    PlayOne(env, w, a, [b, c, d]);
    PlayOne(env, NextWorld(env, w, a), b, [c, d]);
    PlayOne(env, NextWorld(env, NextWorld(env, w, a), b), c, [d]);
    PlayOne(env, NextWorld(env, NextWorld(env, NextWorld(env, w, a), b), c), d, []);
  }

  lemma {:induction false} PlayOne(env: Env, w: World, t: TimedAct, rest: seq<TimedAct>)
    ensures Play(env, w, [t] + rest) == Play(env, NextWorld(env, w, t), rest)
  {
    assert ([t] + rest)[1..] == rest;
  }

  lemma {:induction false} PlaySnoc(env: Env, w: World, run: seq<TimedAct>, t: TimedAct)
    ensures Play(env, w, run + [t]) == NextWorld(env, Play(env, w, run), t)
  {
    PlayConcat(env, w, run, [t]);
    PlayOne(env, Play(env, w, run), t, []);
  }

  // -------------------------------------------------------------------------
  // The stages of the run
  // -------------------------------------------------------------------------

  ghost predicate Bound(d: Outbound, capacity: nat) {
    && d.out.Some? && d.out.value.capacity == capacity && d.out.value.open
    && d.receiveMax == 1 && d.maxPacketSize.None?
  }

  ghost predicate NothingInFlight(d: Outbound) {
    d.puback == map[] && d.pubrec == map[] && d.pubcomp == {}
  }

  ghost predicate OneInFlight(d: Outbound, s: nat) {
    && d.puback == map[] && d.pubrec.Keys == {1} && d.pubcomp == {}
    && d.pubrec[1].lbl.serial == s && d.pubrec[1].packetId == Some(1) && d.pubrec[1].qos == ExactlyOnce
  }

  // The receiver has passed on serial 0 and still holds its identifier.
  ghost predicate Holding(w: World) {
    w.held == {1} && w.app == [0]
  }

  ghost predicate Later(q: seq<Pending>) {
    forall k :: 0 <= k < |q| ==> Lasting(q[k]) && q[k].lbl.serial > 0
  }

  // Wiped, the channel full, the cursor at `next`.
  ghost predicate Walking(w: World, next: nat) {
    && Holding(w) && w.down == [] && w.up == []
    && Bound(w.b.d, 0) && w.b.d.out.value.items == [] && NothingInFlight(w.b.d)
    && w.b.d.nextId == next && w.b.next > 0 && Later(w.b.d.queue)
  }

  // -------------------------------------------------------------------------
  // The session
  // -------------------------------------------------------------------------

  lemma {:induction false} IdAtCursor(d: Outbound)
    requires NothingInFlight(d) && IsId(d.nextId)
    ensures NextId(d) == Scan(Some(d.nextId), SuccId(d.nextId))
  {
    assert InUse(d) == {};
    assert FirstFree(d.nextId, {}, 0);
    FirstFreeUnique(d.nextId, {}, 0);
  }

  // Sent under identifier 1, into an empty channel.
  ghost predicate SentAsOne(d: Outbound, s: nat) {
    OneInFlight(d, s) && Bound(d, 1) && d.out.value.items == [Send(d.pubrec[1])]
  }

  lemma {:induction false} GiveSends(env: Env, d: Outbound, p: Pending)
    requires NothingInFlight(d) && Bound(d, 1) && d.out.value.items == [] && d.nextId == 1 && Lasting(p)
    ensures var d' := Deliver(env, 0, d, p).d;
      SentAsOne(d', p.lbl.serial) && d'.nextId == 2 && d'.queue == d.queue
  {
    IdAtCursor(d);
    var pub := AsPublish(p, 0, Some(1));
    assert Deliver(env, 0, d, p).d == Record(d.(nextId := 2), 1, pub);
  }

  lemma {:induction false} GiveWalks(env: Env, d: Outbound, p: Pending)
    requires NothingInFlight(d) && Bound(d, 0) && IsId(d.nextId) && Later(d.queue) && Lasting(p) && p.lbl.serial > 0
    ensures var d' := Deliver(env, 0, d, p).d;
      d' == d.(nextId := SuccId(d.nextId), queue := d'.queue) && d'.queue != [] && Later(d'.queue)
  {
    IdAtCursor(d);
    assert Deliver(env, 0, d, p) == Enqueue(d.(nextId := SuccId(d.nextId)), p, env.maxQueued);
  }

  lemma {:induction false} FlushSends(env: Env, d: Outbound)
    requires NothingInFlight(d) && Bound(d, 1) && d.out.value.items == [] && d.nextId == 1
    requires d.queue != [] && Lasting(d.queue[0])
    ensures SentAsOne(Flush(env, 0, d).d, d.queue[0].lbl.serial)
  {
    IdAtCursor(d);
    var pub := AsPublish(d.queue[0], 0, Some(1));
    var d1 := Record(Popped(d, 2), 1, pub);
    assert FlushOne(env, 0, d) == Iteration(d1, true, 0);
    assert |d1.pubrec| == 1;
    assert Flush(env, 0, d1) == Flushed(d1, 0);
  }

  // Resuming with nothing in flight only flushes the queue.
  lemma {:induction false} LineResumes(env: Env, d: Outbound, changed: bool, capacity: nat)
    requires changed || NothingInFlight(d)
    ensures var ev := Line(changed, capacity).ev;
      Enabled(d, ev) && Step(env, 0, d, ev) == Flush(env, 0, Resumed(d, ev))
  {
    var ev := Line(changed, capacity).ev;
    var r := Resumed(d, ev);
    assert Backlog(r, ev.order) == [];
    assert r.(out := Some(TrySendAll(r.out.value, []))) == r;
  }

  // -------------------------------------------------------------------------
  // The world
  // -------------------------------------------------------------------------

  // The first connection of a fresh session, and its first message.
  ghost function Greeted(env: Env, w: World, p: Pending): World {
    NextWorld(env, NextWorld(env, w, On(0, Line(false, 1))), On(0, Broker(Give(p))))
  }

  ghost predicate Unused(b: Books) {
    NothingInFlight(b.d) && b.d.queue == [] && b.d.nextId == 1 && b.next == 0
  }

  lemma {:induction false} Connects(env: Env, w: World)
    requires Unused(w.b)
    ensures var w' := NextWorld(env, w, On(0, Line(false, 1)));
      && NothingInFlight(w'.b.d) && Bound(w'.b.d, 1) && w'.b.d.out.value.items == [] && w'.b.d.nextId == 1
      && w'.b.next == 0 && w'.down == [] && w'.up == [] && w'.held == w.held && w'.app == w.app
  {
    LineResumes(env, w.b.d, false, 1);
    assert Flush(env, 0, Resumed(w.b.d, Line(false, 1).ev)).d == Resumed(w.b.d, Line(false, 1).ev);
  }

  lemma {:induction false} FirstSent(env: Env, w: World, p: Pending)
    requires Lasting(p) && Unused(w.b)
    ensures var w' := Greeted(env, w, p);
      && SentAsOne(w'.b.d, 0) && w'.b.d.nextId == 2 && w'.b.next == 1
      && w'.down == [] && w'.up == [] && w'.held == w.held && w'.app == w.app
  {
    Connects(env, w);
    GiveSends(env, NextWorld(env, w, On(0, Line(false, 1))).b.d, Stamped(Give(p), 0).p);
  }

  lemma {:induction false} ExchangePlays(env: Env, w: World, p: Pending, t: TimedAct)
    ensures var w' := NextWorld(env, NextWorld(env, Greeted(env, w, p), On(0, Transmit)), On(0, Receive(false)));
      Play(env, w, Exchange(p) + [t]) == NextWorld(env, w', t)
  {
    PlaySnoc(env, w, Exchange(p), t);
    PlayFour(env, w, Exchange(p)[0], Exchange(p)[1], Exchange(p)[2], Exchange(p)[3]);
  }

  // Serial 0 is passed on, and the session changes hands.
  lemma {:induction false} OpeningPlays(env: Env, p: Pending)
    requires Lasting(p)
    ensures Walking(Play(env, START, Opening(p)), 2)
  {
    FirstSent(env, START, p);
    var w2 := Greeted(env, START, p);
    PassedOn(env, w2);
    Wipes(env, NextWorld(env, NextWorld(env, w2, On(0, Transmit)), On(0, Receive(false))));
    ExchangePlays(env, START, p, On(0, Line(true, 0)));
  }

  lemma {:induction false} PassedOn(env: Env, w: World)
    requires SentAsOne(w.b.d, 0) && w.down == [] && w.held == {} && w.app == [] && w.up == []
    ensures var w' := NextWorld(env, NextWorld(env, w, On(0, Transmit)), On(0, Receive(false)));
      Holding(w') && w'.b.d.nextId == w.b.d.nextId && w'.b.next == w.b.next && w'.wiped == w.wiped
  {
  }

  lemma {:induction false} Wipes(env: Env, w: World)
    requires Holding(w) && w.b.next > 0
    ensures Walking(NextWorld(env, w, On(0, Line(true, 0))), w.b.d.nextId)
  {
    LineResumes(env, w.b.d, true, 0);
    assert Flush(env, 0, Resumed(w.b.d, Line(true, 0).ev)).d == Resumed(w.b.d, Line(true, 0).ev);
  }

  lemma {:induction false} WalkOn(env: Env, w: World, p: Pending, next: nat)
    requires Walking(w, next) && IsId(next) && Lasting(p)
    ensures var w' := NextWorld(env, w, On(0, Broker(Give(p))));
      Walking(w', SuccId(next)) && w'.b.d.queue != []
  {
    GiveWalks(env, w.b.d, Stamped(Give(p), w.b.next).p);
  }

  ghost function Walked(env: Env, w: World, p: Pending, k: nat): World {
    Play(env, w, Walk(p, k))
  }

  lemma {:induction false} WalkedNext(env: Env, w: World, p: Pending, k: nat)
    requires k > 0
    ensures Walked(env, w, p, k) == NextWorld(env, Walked(env, w, p, k - 1), On(0, Broker(Give(p))))
  {
    PlaySnoc(env, w, Walk(p, k - 1), On(0, Broker(Give(p))));
  }

  ghost predicate Underway(env: Env, w: World, p: Pending, k: nat) {
    Walking(Walked(env, w, p, k), Ahead(2, k)) && (k > 0 ==> Walked(env, w, p, k).b.d.queue != [])
  }

  lemma {:induction false} UnderwayFirst(env: Env, w: World, p: Pending)
    requires Walking(w, 2)
    ensures Underway(env, w, p, 0)
  {
    assert Walked(env, w, p, 0) == w;
  }

  lemma {:induction false} UnderwayNext(env: Env, w: World, p: Pending, k: nat)
    requires 0 < k <= MAX_ID - 1 && Lasting(p) && Underway(env, w, p, k - 1)
    ensures Underway(env, w, p, k)
  {
    WalkedNext(env, w, p, k);
    WalkOn(env, Walked(env, w, p, k - 1), p, Ahead(2, k - 1));
  }

  lemma {:induction false} WalkPlays(env: Env, w: World, p: Pending, k: nat)
    requires Walking(w, 2) && Lasting(p) && k <= MAX_ID - 1
    ensures Underway(env, w, p, k)
  {
    if k > 0 {
      WalkPlays(env, w, p, k - 1);
      UnderwayNext(env, w, p, k);
    } else {
      UnderwayFirst(env, w, p);
    }
  }

  // The receiver still holds identifier 1: it answers and passes nothing on.
  lemma {:induction false} Swallowed(env: Env, w: World, s: nat)
    requires SentAsOne(w.b.d, s) && w.held == {1} && w.down == [] && w.up == []
    ensures var w' := NextWorld(env, NextWorld(env, w, On(0, Transmit)), On(0, Receive(false)));
      w'.up == [Pubrec(1, Success)] && w'.app == w.app && w'.b.d.pubrec == w.b.d.pubrec
  {
  }

  lemma {:induction false} Resent(env: Env, w: World)
    requires Walking(w, 1) && w.b.d.queue != []
    ensures var w' := NextWorld(env, w, On(0, Line(false, 1)));
      SentAsOne(w'.b.d, w.b.d.queue[0].lbl.serial) && Holding(w') && w'.down == [] && w'.up == []
  {
    LineResumes(env, w.b.d, false, 1);
    FlushSends(env, Resumed(w.b.d, Line(false, 1).ev));
  }

  lemma {:induction false} Credited(env: Env, w: World)
    requires w.up == [Pubrec(1, Success)] && 1 in w.b.d.pubrec
    ensures var w' := NextWorld(env, w, On(0, Acknowledge));
      w.b.d.pubrec[1].lbl.serial in w'.accepted && w'.app == w.app
  {
  }

  lemma {:induction false} ClosingPlays(env: Env, w: World)
    requires Walking(w, 1) && w.b.d.queue != []
    ensures var w', s := Play(env, w, Closing()), w.b.d.queue[0].lbl.serial;
      s > 0 && s in w'.accepted && w'.app == [0]
  {
    var s, w1 := w.b.d.queue[0].lbl.serial, NextWorld(env, w, On(0, Line(false, 1)));
    Resent(env, w);
    Swallowed(env, w1, s);
    Credited(env, NextWorld(env, NextWorld(env, w1, On(0, Transmit)), On(0, Receive(false))));
    PlayFour(env, w, On(0, Line(false, 1)), On(0, Transmit), On(0, Receive(false)), On(0, Acknowledge));
  }

  // In every configuration there is a run in which the broker accepts the
  // PUBREC of a delivery that never reaches the application: it was sent under
  // an identifier the receiver still held.
  lemma {:induction false} CollisionHappens(env: Env, p: Pending) returns (s: nat)
    requires Lasting(p)
    ensures var x := Watch(env, Watched(START, {}), Colliding(p));
      s in x.w.accepted && s !in Passed(x.w) && s in x.collided
  {
    OpeningPlays(env, p);
    var w1 := Play(env, START, Opening(p));
    WalkPlays(env, w1, p, MAX_ID - 1);
    var w2 := Walked(env, w1, p, MAX_ID - 1);
    ClosingPlays(env, w2);
    s := w2.b.d.queue[0].lbl.serial;
    PlayConcat(env, w1, Walk(p, MAX_ID - 1), Closing());
    PlayConcat(env, START, Opening(p), Walk(p, MAX_ID - 1) + Closing());
    ExactlyOnceUnlessCollided(env, Colliding(p));
  }

  // The same after a restart: the restored session counts identifiers from 1
  // again, and a client still holding 1 never sees the next message.
  lemma {:induction false} RestartCollides(env: Env, p: Pending)
    requires Lasting(p)
    ensures var w := Play(env, START.(held := {1}, wiped := true), Exchange(p) + [On(0, Acknowledge)]);
      0 in w.accepted && w.app == []
  {
    var w0 := START.(held := {1}, wiped := true);
    FirstSent(env, w0, p);
    Swallowed(env, Greeted(env, w0, p), 0);
    var w := NextWorld(env, NextWorld(env, Greeted(env, w0, p), On(0, Transmit)), On(0, Receive(false)));
    Credited(env, w);
    ExchangePlays(env, w0, p, On(0, Acknowledge));
  }
}
