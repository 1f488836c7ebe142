// Exactly-once delivery end to end (section 4.3.3 of MQTT 5.0).
//
// The session is composed with a conforming receiver, which holds a QoS 2
// identifier from its PUBLISH to its PUBREL, over two FIFO links that may lose
// everything in transit at any step and are replaced at every reconnect.

module EndToEnd {
  import opened Types
  import opened Delivery
  import opened SessionRuns
  import opened Conservation

  /** `held` are the identifiers the receiver remembers, `app` the serials it
      passed to the application, `accepted` those whose PUBREC the broker took
      as a success and `rejected` those it took as an error. `wiped` records
      whether the session was ever cleared by a change of identity. */
  datatype World = World(
    b: Books,
    down: seq<Outgoing>,
    up: seq<Packet>,
    held: set<nat>,
    app: seq<nat>,
    accepted: set<nat>,
    rejected: set<nat>,
    wiped: bool)

  const START := World(OPENING, [], [], {}, [], {}, {}, false)

  datatype Act =
    | Broker(ev: Event)          // anything the broker does on its own
    | Transmit                   // channel to wire
    | Receive(refuse: bool)      // the receiver takes one packet
    | Acknowledge                // the broker takes one packet
    | Lose                       // everything on the wire is lost
    | Redial(ev: Event)          // a new connection resumes the session

  datatype TimedAct = On(now: nat, act: Act)

  function Items(d: Outbound): seq<Outgoing> {
    if d.out.Some? then d.out.value.items else []
  }

  // What a conforming receiver does with one packet.
  function Received(w: World, x: Outgoing, refuse: bool): World {
    match x
    case Send(p) =>
      if p.qos == ExactlyOnce && p.packetId.Some? then
        var id := p.packetId.value;
        if id in w.held then w.(up := w.up + [Pubrec(id, Success)])
        else if refuse then w.(up := w.up + [Pubrec(id, UnspecifiedError)])
        else w.(held := w.held + {id}, app := w.app + [p.lbl.serial], up := w.up + [Pubrec(id, Success)])
      else if p.qos == AtLeastOnce && p.packetId.Some? then
        w.(up := w.up + [Puback(p.packetId.value, Success)])
      else w
    case Control(packet) =>
      if packet.Pubrel? then w.(held := w.held - {packet.id}, up := w.up + [Pubcomp(packet.id, Success)])
      else w
    case Shutdown(_) => w
  }

  // The event the broker's dispatch makes of an acknowledgement.
  function AckEvent(p: Packet): Option<Event> {
    match p
    case Puback(id, _) => Some(AckPuback(id))
    case Pubrec(id, rc) => Some(AckPubrec(id, rc))
    case Pubcomp(id, _) => Some(AckPubcomp(id))
    case _ => None
  }

  ghost function Acknowledged1(env: Env, now: nat, w: World): World
    requires w.up != []
  {
    var p := w.up[0];
    var w1 := w.(up := w.up[1..]);
    if AckEvent(p).None? then w1
    else
      var known := p.Pubrec? && p.id in w.b.d.pubrec;
      var x := if known then {w.b.d.pubrec[p.id].lbl.serial} else {};
      w1.(b := NextBooks(env, w.b, At(now, AckEvent(p).value)),
          accepted := if p.Pubrec? && !p.rc.IsError() then w.accepted + x else w.accepted,
          rejected := if p.Pubrec? && p.rc.IsError() then w.rejected + x else w.rejected)
  }

  ghost function NextWorld(env: Env, w: World, t: TimedAct): World {
    match t.act
    case Broker(ev) =>
      if ev.Give? || ev.Tell? || ev.ReceiverGone? || ev.GoOffline?
      then w.(b := NextBooks(env, w.b, At(t.now, ev))) else w
    case Transmit =>
      if Items(w.b.d) == [] then w
      else w.(down := w.down + [Items(w.b.d)[0]], b := NextBooks(env, w.b, At(t.now, Drain)))
    case Receive(refuse) =>
      if w.down == [] then w else Received(w.(down := w.down[1..]), w.down[0], refuse)
    case Acknowledge => if w.up == [] then w else Acknowledged1(env, t.now, w)
    case Lose => w.(down := [], up := [])
    case Redial(ev) =>
      if ev.Reconnect? && Enabled(w.b.d, ev) then
        w.(down := [], up := [], b := NextBooks(env, w.b, At(t.now, ev)), wiped := w.wiped || ev.changed)
      else w
  }

  ghost function Play(env: Env, w: World, run: seq<TimedAct>): World
    decreases |run|
  {
    if run == [] then w else Play(env, NextWorld(env, w, run[0]), run[1..])
  }

  // -------------------------------------------------------------------------
  // The invariant: for each identifier at most one packet is in transit
  // -------------------------------------------------------------------------

  ghost function DownId(x: Outgoing): Option<nat> {
    match x
    case Send(p) => if p.qos == ExactlyOnce then p.packetId else None
    case Control(packet) => if packet.Pubrel? then Some(packet.id) else None
    case Shutdown(_) => None
  }

  ghost function UpId(p: Packet): Option<nat> {
    if p.Pubrec? || p.Pubcomp? then Some(p.id) else None
  }

  ghost predicate DownOk(d: Outbound, x: Outgoing) {
    match x
    case Send(p) =>
      p.qos == ExactlyOnce ==>
        p.packetId.Some? && p.packetId.value in d.pubrec && d.pubrec[p.packetId.value].lbl == p.lbl
    case Control(packet) => packet.Pubrel? ==> packet.id in d.pubcomp
    case Shutdown(_) => true
  }

  ghost predicate UpOk(d: Outbound, held: set<nat>, p: Packet) {
    && (p.Pubrec? ==> p.id in d.pubrec)
    && (p.Pubrec? && !p.rc.IsError() ==> p.id in held)
    && (p.Pubrec? && p.rc.IsError() ==> p.id !in held)
    && (p.Pubcomp? ==> p.id in d.pubcomp && p.id !in held)
  }

  ghost predicate OneToken(pipe: seq<Outgoing>, up: seq<Packet>) {
    && (forall j, k :: 0 <= j < k < |pipe| && DownId(pipe[j]).Some? ==> DownId(pipe[j]) != DownId(pipe[k]))
    && (forall j, k :: 0 <= j < k < |up| && UpId(up[j]).Some? ==> UpId(up[j]) != UpId(up[k]))
    && (forall j, k :: 0 <= j < |pipe| && 0 <= k < |up| && DownId(pipe[j]).Some? ==> DownId(pipe[j]) != UpId(up[k]))
  }

  ghost predicate Linked(d: Outbound, pipe: seq<Outgoing>, up: seq<Packet>, held: set<nat>, app: set<nat>) {
    && (forall k :: 0 <= k < |pipe| ==> DownOk(d, pipe[k]))
    && (forall k :: 0 <= k < |up| ==> UpOk(d, held, up[k]))
    && OneToken(pipe, up)
    && (forall id :: id in d.pubrec && d.pubrec[id].lbl.serial in app ==> id in held)
  }

  // What holds as long as the session was never wiped: the receiver holds only
  // identifiers in flight, and holding one means its message was passed on.
  ghost predicate Tight(d: Outbound, held: set<nat>, app: set<nat>) {
    && (forall id :: id in held ==> id in d.pubrec || id in d.pubcomp)
    && (forall id :: id in d.pubrec && id in held ==> d.pubrec[id].lbl.serial in app)
  }

  ghost function Passed(w: World): set<nat> {
    set k | 0 <= k < |w.app| :: w.app[k]
  }

  ghost function Pipe(w: World): seq<Outgoing> {
    w.down + Items(w.b.d)
  }

  // Where the serials of past packets can still be.
  ghost predicate Filed2(b: Books, app: set<nat>, accepted: set<nat>, rejected: set<nat>) {
    && app !! InQueue(b.d.queue)
    && (forall s :: s in app ==> s < b.next)
    && accepted <= b.rel.Values + b.fate.Keys
    && rejected <= b.fate.Keys && rejected !! app
  }

  ghost predicate Inv(w: World) {
    && Balanced(w.b)
    && Linked(w.b.d, Pipe(w), w.up, w.held, Passed(w))
    && Filed2(w.b, Passed(w), w.accepted, w.rejected)
    && NoRepeat(w.app)
    && (!w.wiped ==> Tight(w.b.d, w.held, Passed(w)) && w.accepted <= Passed(w))
  }

  // -------------------------------------------------------------------------
  // Broker moves
  // -------------------------------------------------------------------------

  // A packet with no identifier of its own, or with one that is in nobody's
  // hands, may join the pipe.
  lemma {:induction false} PushLinked(d: Outbound, pipe: seq<Outgoing>, up: seq<Packet>, held: set<nat>, app: set<nat>,
                                      x: Outgoing)
    requires Linked(d, pipe, up, held, app) && DownOk(d, x)
    requires DownId(x).Some? ==>
      && (forall k :: 0 <= k < |pipe| ==> DownId(pipe[k]) != DownId(x))
      && (forall k :: 0 <= k < |up| ==> UpId(up[k]) != DownId(x))
    ensures Linked(d, pipe + [x], up, held, app)
  {
    var p' := pipe + [x];
    assert forall k :: 0 <= k < |pipe| ==> p'[k] == pipe[k];
  }

  // Nothing in transit carries a free identifier.
  lemma {:induction false} FreeIsAbsent(d: Outbound, pipe: seq<Outgoing>, up: seq<Packet>, held: set<nat>,
                                        app: set<nat>, id: nat)
    requires Linked(d, pipe, up, held, app) && Free(d, id)
    ensures forall k :: 0 <= k < |pipe| ==> DownId(pipe[k]) != Some(id)
    ensures forall k :: 0 <= k < |up| ==> UpId(up[k]) != Some(id)
  {
    forall k | 0 <= k < |pipe| ensures DownId(pipe[k]) != Some(id) { assert DownOk(d, pipe[k]); }
    forall k | 0 <= k < |up| ensures UpId(up[k]) != Some(id) { assert UpOk(d, held, up[k]); }
  }

  // Adding an in-flight entry under a free identifier disturbs no token.
  lemma {:induction false} GrowLinked(d: Outbound, pipe: seq<Outgoing>, up: seq<Packet>, held: set<nat>, app: set<nat>,
                                      id: nat, p: Publish)
    requires Linked(d, pipe, up, held, app) && Free(d, id) && p.lbl.serial !in app
    ensures Linked(d.(pubrec := d.pubrec[id := p]), pipe, up, held, app)
  {
    var d' := d.(pubrec := d.pubrec[id := p]);
    FreeIsAbsent(d, pipe, up, held, app, id);
    forall k | 0 <= k < |pipe| ensures DownOk(d', pipe[k]) { assert DownOk(d, pipe[k]); }
    forall k | 0 <= k < |up| ensures UpOk(d', held, up[k]) { assert UpOk(d, held, up[k]); }
  }

  // Only the three tables matter to the links.
  lemma {:induction false} SameTables(d: Outbound, d': Outbound, pipe: seq<Outgoing>, up: seq<Packet>, held: set<nat>,
                                      app: set<nat>)
    requires Linked(d, pipe, up, held, app) && d'.pubrec == d.pubrec && d'.pubcomp == d.pubcomp
    ensures Linked(d', pipe, up, held, app)
  {
    forall k | 0 <= k < |pipe| ensures DownOk(d', pipe[k]) { assert DownOk(d, pipe[k]); }
    forall k | 0 <= k < |up| ensures UpOk(d', held, up[k]) { assert UpOk(d, held, up[k]); }
  }

  // Putting a message in flight.
  lemma {:induction false} RecordLinked(d: Outbound, down: seq<Outgoing>, up: seq<Packet>, held: set<nat>,
                                        app: set<nat>, id: nat, p: Publish)
    requires Linked(d, down + Items(d), up, held, app) && Shippable(d, id, p) && p.lbl.serial !in app
    ensures Linked(Record(d, id, p), down + Items(Record(d, id, p)), up, held, app)
  {
    var pipe := down + Items(d);
    var r := Record(d, id, p);
    assert down + Items(r) == pipe + [Send(p)];
    FreeIsAbsent(d, pipe, up, held, app, id);
    if p.qos == ExactlyOnce {
      GrowLinked(d, pipe, up, held, app, id, p);
      SameTables(d.(pubrec := d.pubrec[id := p]), r, pipe, up, held, app);
    } else {
      SameTables(d, r, pipe, up, held, app);
    }
    PushLinked(r, pipe, up, held, app, Send(p));
  }

  lemma {:induction false} MoveLinked(d: Outbound, mv: Move, down: seq<Outgoing>, up: seq<Packet>, held: set<nat>,
                                      app: set<nat>)
    requires Linked(d, down + Items(d), up, held, app) && Legal(d, mv) && app !! InQueue(d.queue)
    ensures Linked(Moved(d, mv), down + Items(Moved(d, mv)), up, held, app)
    ensures Tight(d, held, app) ==> Tight(Moved(d, mv), held, app)
    ensures Moved(d, mv).pubcomp == d.pubcomp
  {
    if mv.Ship? {
      assert d.queue[0].lbl.serial in InQueue(d.queue);
      SameTables(d, Popped(d, mv.next), down + Items(d), up, held, app);
      RecordLinked(Popped(d, mv.next), down, up, held, app, mv.id, mv.pub);
    } else {
      SameTables(d, Moved(d, mv), down + Items(d), up, held, app);
    }
  }

  lemma {:induction false} PoppedQueue(q: seq<Pending>)
    requires q != []
    ensures InQueue(q[1..]) <= InQueue(q)
  {
    forall i | i in InQueue(q[1..]) ensures i in InQueue(q) {
      var k :| 0 <= k < |q[1..]| && q[1..][k].lbl.serial == i;
      assert q[k + 1] == q[1..][k];
    }
  }

  lemma {:induction false} FlushLinked(env: Env, now: nat, d: Outbound, down: seq<Outgoing>, up: seq<Packet>,
                                       held: set<nat>, app: set<nat>)
    requires WellFormed(d) && Linked(d, down + Items(d), up, held, app) && app !! InQueue(d.queue)
    ensures var d' := Flush(env, now, d).d;
      && Linked(d', down + Items(d'), up, held, app)
      && (Tight(d, held, app) ==> Tight(d', held, app))
    decreases |d.queue|
  {
    var mv := FlushMove(env, now, d);
    MoveLinked(d, mv, down, up, held, app);
    if !mv.Stay? {
      PoppedQueue(d.queue);
      MoveKeepsWellFormed(d, mv);
      FlushLinked(env, now, Moved(d, mv), down, up, held, app);
    }
  }

  // -------------------------------------------------------------------------
  // Tokens leaving and changing hands
  // -------------------------------------------------------------------------

  lemma {:induction false} SubLinked(d: Outbound, pipe: seq<Outgoing>, up: seq<Packet>, held: set<nat>, app: set<nat>,
                                     lo: nat, hi: nat, from: nat)
    requires Linked(d, pipe, up, held, app) && lo <= hi <= |pipe| && from <= |up|
    ensures Linked(d, pipe[lo..hi], up[from..], held, app)
  {
    assert forall k :: 0 <= k < hi - lo ==> pipe[lo..hi][k] == pipe[lo + k];
    assert forall k :: 0 <= k < |up| - from ==> up[from..][k] == up[from + k];
  }

  // The receiver answers the packet at the head of the pipe.
  lemma {:induction false} AnswerLinked(d: Outbound, pipe: seq<Outgoing>, up: seq<Packet>, held: set<nat>,
                                        app: set<nat>, p: Packet)
    requires Linked(d, pipe, up, held, app) && pipe != []
    requires UpOk(d, held, p) && (UpId(p).Some? ==> UpId(p) == DownId(pipe[0]))
    ensures Linked(d, pipe[1..], up + [p], held, app)
  {
    var rest, up' := pipe[1..], up + [p];
    assert forall k :: 0 <= k < |rest| ==> rest[k] == pipe[k + 1];
    assert forall k :: 0 <= k < |up| ==> up'[k] == up[k];
  }

  // No packet with identifier `id` is in transit.
  ghost predicate Absent(pipe: seq<Outgoing>, up: seq<Packet>, id: nat) {
    && (forall k :: 0 <= k < |pipe| ==> DownId(pipe[k]) != Some(id))
    && (forall k :: 0 <= k < |up| ==> UpId(up[k]) != Some(id))
  }

  lemma {:induction false} HeadAbsent(pipe: seq<Outgoing>, up: seq<Packet>)
    requires OneToken(pipe, up) && up != [] && UpId(up[0]).Some?
    ensures Absent(pipe, up[1..], UpId(up[0]).value)
  {
    forall k | 0 <= k < |up[1..]| ensures UpId(up[1..][k]) != UpId(up[0]) { assert up[1..][k] == up[k + 1]; }
  }

  lemma {:induction false} DropRec(d: Outbound, pipe: seq<Outgoing>, up: seq<Packet>, held: set<nat>, app: set<nat>,
                                   id: nat)
    requires Linked(d, pipe, up, held, app) && Absent(pipe, up, id)
    ensures Linked(d.(pubrec := d.pubrec - {id}), pipe, up, held, app)
  {
    var d' := d.(pubrec := d.pubrec - {id});
    forall k | 0 <= k < |pipe| ensures DownOk(d', pipe[k]) { assert DownOk(d, pipe[k]); }
    forall k | 0 <= k < |up| ensures UpOk(d', held, up[k]) { assert UpOk(d, held, up[k]); }
  }

  lemma {:induction false} DropComp(d: Outbound, pipe: seq<Outgoing>, up: seq<Packet>, held: set<nat>, app: set<nat>,
                                    id: nat)
    requires Linked(d, pipe, up, held, app) && Absent(pipe, up, id)
    ensures Linked(d.(pubcomp := d.pubcomp - {id}), pipe, up, held, app)
  {
    var d' := d.(pubcomp := d.pubcomp - {id});
    forall k | 0 <= k < |pipe| ensures DownOk(d', pipe[k]) { assert DownOk(d, pipe[k]); }
    forall k | 0 <= k < |up| ensures UpOk(d', held, up[k]) { assert UpOk(d, held, up[k]); }
  }

  lemma {:induction false} AddComp(d: Outbound, pipe: seq<Outgoing>, up: seq<Packet>, held: set<nat>, app: set<nat>,
                                   id: nat)
    requires Linked(d, pipe, up, held, app)
    ensures Linked(d.(pubcomp := d.pubcomp + {id}), pipe, up, held, app)
  {
    var d' := d.(pubcomp := d.pubcomp + {id});
    forall k | 0 <= k < |pipe| ensures DownOk(d', pipe[k]) { assert DownOk(d, pipe[k]); }
    forall k | 0 <= k < |up| ensures UpOk(d', held, up[k]) { assert UpOk(d, held, up[k]); }
  }

  lemma {:induction false} NotifyLinked(d: Outbound, down: seq<Outgoing>, up: seq<Packet>, held: set<nat>,
                                        app: set<nat>, x: Outgoing)
    requires Linked(d, down + Items(d), up, held, app) && DownOk(d, x)
    requires DownId(x).Some? ==> Absent(down + Items(d), up, DownId(x).value)
    ensures Linked(Notify(d, x), down + Items(Notify(d, x)), up, held, app)
  {
    var d' := Notify(d, x);
    SameTables(d, d', down + Items(d), up, held, app);
    if d' != d {
      assert down + Items(d') == (down + Items(d)) + [x];
      PushLinked(d', down + Items(d), up, held, app, x);
    }
  }

  // -------------------------------------------------------------------------
  // Resume
  // -------------------------------------------------------------------------

  lemma {:induction false} ResendAt(m: map<nat, Publish>, order: seq<nat>, k: nat)
    requires forall id :: id in order ==> id in m
    ensures |Resends(m, order)| == |order|
    ensures k < |order| ==> Resends(m, order)[k] == Again(m[order[k]])
  {
    if order != [] { ResendAt(m, order[1..], if k == 0 then 0 else k - 1); }
  }

  lemma {:induction false} ReleaseAt(order: seq<nat>, k: nat)
    ensures |Releases(order)| == |order|
    ensures k < |order| ==> Releases(order)[k] == Control(Pubrel(order[k], Success))
  {
    if order != [] { ReleaseAt(order[1..], if k == 0 then 0 else k - 1); }
  }

  ghost predicate Sendable(d: Outbound, items: seq<Outgoing>) {
    && (forall k :: 0 <= k < |items| ==> DownOk(d, items[k]))
    && OneToken(items, [])
  }

  // The QoS 2 identifier of the k-th packet of the backlog.
  ghost function BacklogId(o: ResumeOrder, k: nat): Option<nat>
    requires k < |o.puback| + |o.pubrec| + |o.pubcomp|
  {
    if k < |o.puback| then None
    else if k < |o.puback| + |o.pubrec| then Some(o.pubrec[k - |o.puback|])
    else Some(o.pubcomp[k - |o.puback| - |o.pubrec|])
  }

  lemma {:induction false} ResendOk(d: Outbound, m: map<nat, Publish>, order: seq<nat>, k: nat)
    requires WellFormed(d) && (m == d.puback || m == d.pubrec) && Enumerates(order, m.Keys)
    ensures |Resends(m, order)| == |order|
    ensures k < |order| ==> order[k] in m && DownOk(d, Resends(m, order)[k])
    ensures k < |order| && m == d.pubrec ==> DownId(Resends(m, order)[k]) == Some(order[k])
    ensures k < |order| && m == d.puback ==> DownId(Resends(m, order)[k]) == None
  {
    ResendAt(m, order, k);
    if k < |order| { assert order[k] in order; }
  }

  lemma {:induction false} BacklogAt(d: Outbound, o: ResumeOrder, k: nat)
    requires WellFormed(d) && ValidOrder(d, o)
    ensures |Backlog(d, o)| == |o.puback| + |o.pubrec| + |o.pubcomp|
    ensures k < |Backlog(d, o)| ==> DownOk(d, Backlog(d, o)[k]) && DownId(Backlog(d, o)[k]) == BacklogId(o, k)
  {
    var a, r := |o.puback|, |o.pubrec|;
    var acks, recs, rels := Resends(d.puback, o.puback), Resends(d.pubrec, o.pubrec), Releases(o.pubcomp);
    ResendOk(d, d.puback, o.puback, k);
    ResendOk(d, d.pubrec, o.pubrec, if k < a then 0 else k - a);
    ReleaseAt(o.pubcomp, if k < a + r then 0 else k - a - r);
    assert Backlog(d, o) == acks + recs + rels;
    if k < a {
      assert Backlog(d, o)[k] == acks[k];
    } else if k < a + r {
      assert Backlog(d, o)[k] == recs[k - a];
    } else if k < |Backlog(d, o)| {
      assert Backlog(d, o)[k] == rels[k - a - r] && o.pubcomp[k - a - r] in d.pubcomp;
    }
  }

  lemma {:induction false} BacklogSendable(d: Outbound, o: ResumeOrder)
    requires WellFormed(d) && ValidOrder(d, o)
    ensures Sendable(d, Backlog(d, o))
  {
    var items := Backlog(d, o);
    forall k | 0 <= k < |items| ensures DownOk(d, items[k]) { BacklogAt(d, o, k); }
    forall j, k | 0 <= j < k < |items| && DownId(items[j]).Some? ensures DownId(items[j]) != DownId(items[k]) {
      BacklogAt(d, o, j);
      BacklogAt(d, o, k);
      var a, r := |o.puback|, |o.pubrec|;
      if j < a + r <= k { assert o.pubrec[j - a] in d.pubrec && o.pubcomp[k - a - r] in d.pubcomp; }
    }
  }

  lemma {:induction false} SendAllLinked(d: Outbound, c: Channel, items: seq<Outgoing>, held: set<nat>, app: set<nat>)
    requires Linked(d, c.items, [], held, app) && Sendable(d, c.items + items)
    ensures Linked(d, TrySendAll(c, items).items, [], held, app)
    decreases |items|
  {
    if items != [] {
      var x, rest, all := items[0], items[1..], c.items + items;
      assert all[|c.items|] == x;
      if CanSend(c) {
        assert Push(c, x).items + rest == all;
        forall k | 0 <= k < |c.items| && DownId(x).Some? ensures DownId(c.items[k]) != DownId(x) {
          assert all[k] == c.items[k];
        }
        PushLinked(d, c.items, [], held, app, x);
        SendAllLinked(d, Push(c, x), rest, held, app);
      } else {
        SkipSendable(d, c.items, items);
        SendAllLinked(d, c, rest, held, app);
      }
    }
  }

  lemma {:induction false} SkipSendable(d: Outbound, a: seq<Outgoing>, items: seq<Outgoing>)
    requires items != [] && Sendable(d, a + items)
    ensures Sendable(d, a + items[1..])
  {
    var all, less := a + items, a + items[1..];
    forall k | 0 <= k < |less| ensures DownOk(d, less[k]) {
      assert less[k] == all[if k < |a| then k else k + 1];
    }
    forall j, k | 0 <= j < k < |less| && DownId(less[j]).Some? ensures DownId(less[j]) != DownId(less[k]) {
      assert less[j] == all[if j < |a| then j else j + 1];
      assert less[k] == all[if k < |a| then k else k + 1];
    }
  }

  // -------------------------------------------------------------------------
  // Every act keeps the invariant
  // -------------------------------------------------------------------------

  lemma {:induction false} FiledStep(env: Env, b: Books, t: Timed, app: set<nat>, accepted: set<nat>,
                                     rejected: set<nat>)
    requires Balanced(b) && Filed2(b, app, accepted, rejected)
    ensures Filed2(NextBooks(env, b, t), app, accepted, rejected)
  {
    QueueMotion(env, b, t);
    ReleasedMotion(env, b, t);
    assert b.fate.Keys <= NextBooks(env, b, t).fate.Keys;
    assert b.next !in app;
  }

  // An act that changes only the books keeps the invariant if it keeps the links.
  lemma {:induction false} BooksAct(env: Env, w: World, t: Timed, w': World)
    requires Inv(w) && w' == w.(b := NextBooks(env, w.b, t), down := w'.down, up := w'.up)
    requires Linked(w'.b.d, Pipe(w'), w'.up, w'.held, Passed(w'))
    requires !w.wiped ==> Tight(w'.b.d, w.held, Passed(w))
    ensures Inv(w')
  {
    StepBalances(env, w.b, t);
    FiledStep(env, w.b, t, Passed(w), w.accepted, w.rejected);
  }

  lemma {:induction false} GiveLinked(env: Env, now: nat, d: Outbound, p: Pending, down: seq<Outgoing>,
                                      up: seq<Packet>, held: set<nat>, app: set<nat>)
    requires WellFormed(d) && Linked(d, down + Items(d), up, held, app) && p.lbl.serial !in app
    ensures var d' := Deliver(env, now, d, p).d;
      && Linked(d', down + Items(d'), up, held, app)
      && (Tight(d, held, app) ==> Tight(d', held, app))
  {
    var ef := DeliverEffect(env, now, d, p);
    var d' := Affected(d, p, ef);
    var pipe := down + Items(d);
    if ef.Shipped? {
      SameTables(d, d.(nextId := ef.next), pipe, up, held, app);
      RecordLinked(d.(nextId := ef.next), down, up, held, app, ef.id, ef.pub);
    } else {
      SameTables(d, d', pipe, up, held, app);
      if ef.Pushed? {
        assert down + Items(d') == pipe + [Send(ef.pub)];
        PushLinked(d', pipe, up, held, app, Send(ef.pub));
      }
    }
  }

  lemma {:induction false} BrokerAct(env: Env, now: nat, w: World, ev: Event)
    requires Inv(w) && (ev.Give? || ev.Tell? || ev.ReceiverGone? || ev.GoOffline?)
    ensures Inv(NextWorld(env, w, On(now, Broker(ev))))
  {
    var w' := NextWorld(env, w, On(now, Broker(ev)));
    var d, app, st := w.b.d, Passed(w), Stamped(ev, w.b.next);
    if Enabled(d, st) {
      match st
      case Give(p) => GiveLinked(env, now, d, p, w.down, w.up, w.held, app);
      case Tell(x) => NotifyLinked(d, w.down, w.up, w.held, app, x);
      case ReceiverGone => SameTables(d, w'.b.d, Pipe(w), w.up, w.held, app);
      case GoOffline =>
        SubLinked(d, Pipe(w), w.up, w.held, app, 0, |w.down|, 0);
        assert Pipe(w)[0..|w.down|] == Pipe(w') && w.up[0..] == w.up;
        SameTables(d, w'.b.d, Pipe(w'), w.up, w.held, app);
    }
    BooksAct(env, w, At(now, ev), w');
  }

  lemma {:induction false} Handover(down: seq<Outgoing>, items: seq<Outgoing>)
    requires items != []
    ensures (down + [items[0]]) + items[1..] == down + items
  {
  }

  lemma {:induction false} TransmitAct(env: Env, now: nat, w: World)
    requires Inv(w)
    ensures Inv(NextWorld(env, w, On(now, Transmit)))
  {
    var items := Items(w.b.d);
    if items != [] {
      var d' := Step(env, now, w.b.d, Drain).d;
      Handover(w.down, items);
      SameTables(w.b.d, d', w.down + items, w.up, w.held, Passed(w));
      assert Items(d') == items[1..];
      assert NextBooks(env, w.b, At(now, Drain)).d == d';
      BooksAct(env, w, At(now, Drain), NextWorld(env, w, On(now, Transmit)));
    }
  }

  lemma {:induction false} LoseAct(env: Env, now: nat, w: World)
    requires Inv(w)
    ensures Inv(NextWorld(env, w, On(now, Lose)))
  {
    var w' := NextWorld(env, w, On(now, Lose));
    SubLinked(w.b.d, Pipe(w), w.up, w.held, Passed(w), |w.down|, |Pipe(w)|, |w.up|);
    assert Pipe(w)[|w.down|..|Pipe(w)|] == Pipe(w') && w.up[|w.up|..] == w'.up;
  }

  // Passing a new message on.
  lemma {:induction false} AcceptLinked(d: Outbound, pipe: seq<Outgoing>, up: seq<Packet>, held: set<nat>,
                                        app: set<nat>, id: nat)
    requires WellFormed(d) && DistinctTable(d.pubrec) && Linked(d, pipe, up, held, app)
    requires id in d.pubrec && id !in held && forall k :: 0 <= k < |up| ==> UpId(up[k]) != Some(id)
    ensures d.pubrec[id].lbl.serial !in app
    ensures Linked(d, pipe, up, held + {id}, app + {d.pubrec[id].lbl.serial})
    ensures Tight(d, held, app) ==> Tight(d, held + {id}, app + {d.pubrec[id].lbl.serial})
  {
    forall k | 0 <= k < |up| ensures UpOk(d, held + {id}, up[k]) { assert UpOk(d, held, up[k]); }
  }

  // Forgetting a released identifier.
  lemma {:induction false} ReleaseLinked(d: Outbound, pipe: seq<Outgoing>, up: seq<Packet>, held: set<nat>,
                                         app: set<nat>, id: nat)
    requires WellFormed(d) && Linked(d, pipe, up, held, app) && id in d.pubcomp
    ensures Linked(d, pipe, up, held - {id}, app)
    ensures Tight(d, held, app) ==> Tight(d, held - {id}, app)
  {
    forall k | 0 <= k < |up| ensures UpOk(d, held - {id}, up[k]) { assert UpOk(d, held, up[k]); }
  }

  lemma {:induction false} PassedSnoc(w: World, s: nat)
    ensures Passed(w.(app := w.app + [s])) == Passed(w) + {s}
  {
    var w' := w.(app := w.app + [s]);
    assert w'.app[|w.app|] == s;
    forall x | x in Passed(w) ensures x in Passed(w') {
      var k :| 0 <= k < |w.app| && w.app[k] == x;
      assert w'.app[k] == x;
    }
  }

  lemma {:induction false} AcceptAct(w: World, id: nat)
    requires Inv(w) && id in w.b.d.pubrec && id !in w.held
    requires w.down != [] && DownId(w.down[0]) == Some(id)
    ensures var s := w.b.d.pubrec[id].lbl.serial;
      Inv(w.(down := w.down[1..], held := w.held + {id}, app := w.app + [s], up := w.up + [Pubrec(id, Success)]))
  {
    var d, pipe, app, s := w.b.d, Pipe(w), Passed(w), w.b.d.pubrec[id].lbl.serial;
    assert pipe[0] == w.down[0];
    AcceptLinked(d, pipe, w.up, w.held, app, id);
    AnswerLinked(d, pipe, w.up, w.held + {id}, app + {s}, Pubrec(id, Success));
    assert pipe[1..] == w.down[1..] + Items(d);
    PassedSnoc(w, s);
    assert s in PlacesOf(w.b.d, w.b.rel).recs;
    FiledAccept(w.b, app, w.accepted, w.rejected, s);
  }

  lemma {:induction false} FiledAccept(b: Books, app: set<nat>, accepted: set<nat>, rejected: set<nat>, s: nat)
    requires Balanced(b) && Filed2(b, app, accepted, rejected) && s in PlacesOf(b.d, b.rel).recs
    ensures Filed2(b, app + {s}, accepted, rejected)
  {
    assert s in Live(PlacesOf(b.d, b.rel));
  }

  lemma {:induction false} AnswerAct(w: World, p: Packet, held: set<nat>)
    requires Inv(w) && w.down != []
    requires Linked(w.b.d, Pipe(w), w.up, held,
                    Passed(w)) && (Tight(w.b.d, w.held, Passed(w)) ==> Tight(w.b.d, held, Passed(w)))
    requires UpOk(w.b.d, held, p) && (UpId(p).Some? ==> UpId(p) == DownId(w.down[0]))
    ensures Inv(w.(down := w.down[1..], held := held, up := w.up + [p]))
  {
    assert Pipe(w)[0] == w.down[0];
    AnswerLinked(w.b.d, Pipe(w), w.up, held, Passed(w), p);
    assert Pipe(w)[1..] == w.down[1..] + Items(w.b.d);
  }

  lemma {:induction false} IgnoreAct(w: World)
    requires Inv(w) && w.down != []
    ensures Inv(w.(down := w.down[1..]))
  {
    SubLinked(w.b.d, Pipe(w), w.up, w.held, Passed(w), 1, |Pipe(w)|, 0);
    assert Pipe(w)[1..|Pipe(w)|] == w.down[1..] + Items(w.b.d) && w.up[0..] == w.up;
  }

  lemma {:induction false} ReceiveAct(env: Env, now: nat, w: World, refuse: bool)
    requires Inv(w)
    ensures Inv(NextWorld(env, w, On(now, Receive(refuse))))
  {
    if w.down != [] {
      var x := w.down[0];
      assert Pipe(w)[0] == x && DownOk(w.b.d, x);
      match x
      case Send(p) =>
        if p.qos == ExactlyOnce {
          var id := p.packetId.value;
          if id in w.held { AnswerAct(w, Pubrec(id, Success), w.held); }
          else if refuse { AnswerAct(w, Pubrec(id, UnspecifiedError), w.held); }
          else { AcceptAct(w, id); }
        } else if p.qos == AtLeastOnce && p.packetId.Some? {
          AnswerAct(w, Puback(p.packetId.value, Success), w.held);
        } else {
          IgnoreAct(w);
        }
      case Control(packet) =>
        if packet.Pubrel? {
          ReleaseLinked(w.b.d, Pipe(w), w.up, w.held, Passed(w), packet.id);
          AnswerAct(w, Pubcomp(packet.id, Success), w.held - {packet.id});
        } else {
          IgnoreAct(w);
        }
      case Shutdown(_) => IgnoreAct(w);
    }
  }

  lemma {:induction false} PubrecLinked(d: Outbound, id: nat, rc: ReasonCode, down: seq<Outgoing>, up: seq<Packet>,
                                        held: set<nat>, app: set<nat>)
    requires WellFormed(d) && id in d.pubrec
    requires Linked(d, down + Items(d), up, held, app) && Absent(down + Items(d), up, id)
    requires rc.IsError() ==> id !in held
    ensures var d' := HandlePubrec(d, id, rc);
      && Linked(d', down + Items(d'), up, held, app)
      && (Tight(d, held, app) ==> Tight(d', held, app))
  {
    var pipe := down + Items(d);
    var d1 := d.(pubrec := d.pubrec - {id});
    DropRec(d, pipe, up, held, app, id);
    if !rc.IsError() {
      var d2 := d1.(pubcomp := d1.pubcomp + {id});
      AddComp(d1, pipe, up, held, app, id);
      NotifyLinked(d2, down, up, held, app, Control(Pubrel(id, Success)));
    }
  }

  // Taking the head of the upstream link leaves its identifier nowhere in transit.
  lemma {:induction false} TakeHead(w: World)
    requires Inv(w) && w.up != []
    ensures Linked(w.b.d, w.down + Items(w.b.d), w.up[1..], w.held, Passed(w))
    ensures UpOk(w.b.d, w.held, w.up[0])
    ensures UpId(w.up[0]).Some? ==> Absent(w.down + Items(w.b.d), w.up[1..], UpId(w.up[0]).value)
  {
    SubLinked(w.b.d, Pipe(w), w.up, w.held, Passed(w), 0, |Pipe(w)|, 1);
    assert Pipe(w)[0..|Pipe(w)|] == Pipe(w);
    if UpId(w.up[0]).Some? { HeadAbsent(Pipe(w), w.up); }
  }

  // The broker takes the PUBREC at the head of the upstream link.
  lemma {:induction false} PubrecAct(env: Env, now: nat, w: World)
    requires Inv(w) && w.up != [] && w.up[0].Pubrec?
    ensures Inv(Acknowledged1(env, now, w))
  {
    var d, id, rc, app := w.b.d, w.up[0].id, w.up[0].rc, Passed(w);
    TakeHead(w);
    PubrecLinked(d, id, rc, w.down, w.up[1..], w.held, app);
    var w1 := w.(b := NextBooks(env, w.b, At(now, AckPubrec(id, rc))), up := w.up[1..]);
    BooksAct(env, w, At(now, AckPubrec(id, rc)), w1);
    PubrecFiled(env, now, w.b, id, rc);
    CreditInv(w1, d.pubrec[id].lbl.serial, rc.IsError());
  }

  // Noting one more accepted or rejected serial.
  lemma {:induction false} CreditInv(w: World, s: nat, refused: bool)
    requires Inv(w)
    requires if refused then s in w.b.fate && s !in Passed(w)
             else s in w.b.rel.Values && (!w.wiped ==> s in Passed(w))
    ensures Inv(if refused then w.(rejected := w.rejected + {s}) else w.(accepted := w.accepted + {s}))
  {
  }

  // An accepted serial is released, a rejected one has ended.
  lemma {:induction false} PubrecFiled(env: Env, now: nat, b: Books, id: nat, rc: ReasonCode)
    requires Balanced(b) && id in b.d.pubrec
    ensures var b' := NextBooks(env, b, At(now, AckPubrec(id, rc))); var s := b.d.pubrec[id].lbl.serial;
      if rc.IsError() then s in b'.fate else s in b'.rel.Values
  {
    var ev := AckPubrec(id, rc);
    PubrecPlaces(b.d, b.rel, ev);
    var s := b.d.pubrec[id].lbl.serial;
    if rc.IsError() {
      assert s in Departures(b, now, ev, Step(env, now, b.d, ev));
    } else {
      assert b.rel[id := s][id] == s;
    }
  }

  lemma {:induction false} PubackLinked(env: Env, now: nat, d: Outbound, id: nat, down: seq<Outgoing>, up: seq<Packet>,
                                        held: set<nat>, app: set<nat>)
    requires WellFormed(d.(puback := d.puback - {id}))
    requires Linked(d, down + Items(d), up, held, app) && app !! InQueue(d.queue)
    ensures var d' := HandlePuback(env, now, d, id).d;
      && Linked(d', down + Items(d'), up, held, app)
      && (Tight(d, held, app) ==> Tight(d', held, app))
  {
    var d0 := d.(puback := d.puback - {id});
    SameTables(d, d0, down + Items(d), up, held, app);
    FlushLinked(env, now, d0, down, up, held, app);
  }

  lemma {:induction false} PubcompLinked(env: Env, now: nat, d: Outbound, id: nat, down: seq<Outgoing>,
                                         up: seq<Packet>, held: set<nat>, app: set<nat>)
    requires WellFormed(d.(pubcomp := d.pubcomp - {id})) && id !in held
    requires Linked(d, down + Items(d), up, held, app) && app !! InQueue(d.queue) && Absent(down + Items(d), up, id)
    ensures var d' := HandlePubcomp(env, now, d, id).d;
      && Linked(d', down + Items(d'), up, held, app)
      && (Tight(d, held, app) ==> Tight(d', held, app))
  {
    var d0 := d.(pubcomp := d.pubcomp - {id});
    DropComp(d, down + Items(d), up, held, app, id);
    FlushLinked(env, now, d0, down, up, held, app);
  }

  lemma {:induction false} PubackAct(env: Env, now: nat, w: World)
    requires Inv(w) && w.up != [] && w.up[0].Puback?
    ensures Inv(Acknowledged1(env, now, w))
  {
    var d, ev, app := w.b.d, AckPuback(w.up[0].id), Passed(w);
    TakeHead(w);
    BeforeFlushSound(w.b, ev);
    PubackLinked(env, now, d, ev.id, w.down, w.up[1..], w.held, app);
    var w' := w.(b := NextBooks(env, w.b, At(now, ev)), up := w.up[1..]);
    BooksAct(env, w, At(now, ev), w');
  }

  lemma {:induction false} PubcompBooks(env: Env, now: nat, w: World, id: nat, d': Outbound)
    requires Inv(w) && w.up != [] && d' == HandlePubcomp(env, now, w.b.d, id).d
    requires Linked(d', w.down + Items(d'), w.up[1..], w.held, Passed(w))
    requires !w.wiped ==> Tight(d', w.held, Passed(w))
    ensures Inv(w.(b := NextBooks(env, w.b, At(now, AckPubcomp(id))), up := w.up[1..]))
  {
    BooksAct(env, w, At(now, AckPubcomp(id)),
             w.(b := NextBooks(env, w.b, At(now, AckPubcomp(id))), up := w.up[1..]));
  }

  lemma {:induction false} PubcompAct(env: Env, now: nat, w: World)
    requires Inv(w) && w.up != [] && w.up[0].Pubcomp?
    ensures Inv(Acknowledged1(env, now, w))
  {
    var id := w.up[0].id;
    TakeHead(w);
    BeforeFlushSound(w.b, AckPubcomp(id));
    PubcompLinked(env, now, w.b.d, id, w.down, w.up[1..], w.held, Passed(w));
    PubcompBooks(env, now, w, id, HandlePubcomp(env, now, w.b.d, id).d);
    assert AckEvent(w.up[0]) == Some(AckPubcomp(id));
    assert Acknowledged1(env, now, w) == w.(b := NextBooks(env, w.b, At(now, AckPubcomp(id))), up := w.up[1..]);
  }

  lemma {:induction false} AcknowledgeAct(env: Env, now: nat, w: World)
    requires Inv(w) && w.up != []
    ensures Inv(Acknowledged1(env, now, w))
  {
    match w.up[0]
    case Puback(_, _) => PubackAct(env, now, w);
    case Pubrec(_, _) => PubrecAct(env, now, w);
    case Pubcomp(_, _) => PubcompAct(env, now, w);
    case _ => TakeHead(w);
  }

  lemma {:induction false} BacklogLinked(d: Outbound, o: ResumeOrder, held: set<nat>, app: set<nat>)
    requires WellFormed(d) && ValidOrder(d, o) && Online(d) && d.out.value.items == []
    requires Linked(d, [], [], held, app)
    ensures Linked(d, TrySendAll(d.out.value, Backlog(d, o)).items, [], held, app)
  {
    BacklogSendable(d, o);
    assert [] + Backlog(d, o) == Backlog(d, o);
    SendAllLinked(d, d.out.value, Backlog(d, o), held, app);
  }

  lemma {:induction false} ResumeLinked(env: Env, now: nat, d: Outbound, o: ResumeOrder, held: set<nat>, app: set<nat>)
    requires WellFormed(d) && ValidOrder(d, o) && Online(d) && d.out.value.items == []
    requires Linked(d, [], [], held, app) && app !! InQueue(d.queue)
    ensures var d' := Resume(env, now, d, o).d;
      && Linked(d', Items(d'), [], held, app)
      && (Tight(d, held, app) ==> Tight(d', held, app))
  {
    var d0 := d.(out := Some(TrySendAll(d.out.value, Backlog(d, o))));
    BacklogLinked(d, o, held, app);
    SameTables(d, d0, Items(d0), [], held, app);
    assert [] + Items(d0) == Items(d0);
    FlushLinked(env, now, d0, [], [], held, app);
    var d' := Flush(env, now, d0).d;
    assert [] + Items(d') == Items(d');
  }

  lemma {:induction false} ResumedLinked(d: Outbound, ev: Event, pipe: seq<Outgoing>, up: seq<Packet>, held: set<nat>,
                                         app: set<nat>)
    requires WellFormed(d) && Linked(d, pipe, up, held, app) && ev.Reconnect? && Enabled(d, ev)
    ensures WellFormed(Resumed(d, ev)) && Linked(Resumed(d, ev), [], [], held, app)
    ensures !ev.changed && Tight(d, held, app) ==> Tight(Resumed(d, ev), held, app)
    ensures InQueue(Resumed(d, ev).queue) <= InQueue(d.queue)
  {
  }

  lemma {:induction false} RedialLinked(env: Env, now: nat, w: World, ev: Event)
    requires Inv(w) && ev.Reconnect? && Enabled(w.b.d, ev)
    ensures var d' := Step(env, now, w.b.d, ev).d;
      && Linked(d', Items(d'), [], w.held, Passed(w))
      && (!ev.changed && Tight(w.b.d, w.held, Passed(w)) ==> Tight(d', w.held, Passed(w)))
  {
    var d1 := Resumed(w.b.d, ev);
    ResumedLinked(w.b.d, ev, Pipe(w), w.up, w.held, Passed(w));
    ResumeLinked(env, now, d1, ev.order, w.held, Passed(w));
  }

  lemma {:induction false} RedialAct(env: Env, now: nat, w: World, ev: Event)
    requires Inv(w)
    ensures Inv(NextWorld(env, w, On(now, Redial(ev))))
  {
    if ev.Reconnect? && Enabled(w.b.d, ev) {
      RedialLinked(env, now, w, ev);
      RedialBooks(env, now, w, ev, Step(env, now, w.b.d, ev).d);
      assert NextBooks(env, w.b, At(now, ev)).d == Step(env, now, w.b.d, ev).d;
    }
  }

  lemma {:induction false} RedialBooks(env: Env, now: nat, w: World, ev: Event, d': Outbound)
    requires Inv(w) && ev.Reconnect? && Enabled(w.b.d, ev) && d' == NextBooks(env, w.b, At(now, ev)).d
    requires Linked(d', Items(d'), [], w.held, Passed(w))
    requires !ev.changed && Tight(w.b.d, w.held, Passed(w)) ==> Tight(d', w.held, Passed(w))
    ensures Inv(w.(down := [], up := [], b := NextBooks(env, w.b, At(now, ev)), wiped := w.wiped || ev.changed))
  {
    StepBalances(env, w.b, At(now, ev));
    FiledStep(env, w.b, At(now, ev), Passed(w), w.accepted, w.rejected);
    var w' := w.(down := [], up := [], b := NextBooks(env, w.b, At(now, ev)), wiped := w.wiped || ev.changed);
    assert Pipe(w') == Items(d') && Passed(w') == Passed(w);
  }

  lemma {:induction false} ActKeepsInv(env: Env, w: World, t: TimedAct)
    requires Inv(w)
    ensures Inv(NextWorld(env, w, t))
  {
    match t.act
    case Broker(ev) =>
      if ev.Give? || ev.Tell? || ev.ReceiverGone? || ev.GoOffline? { BrokerAct(env, t.now, w, ev); }
    case Transmit => TransmitAct(env, t.now, w);
    case Receive(refuse) => ReceiveAct(env, t.now, w, refuse);
    case Acknowledge => if w.up != [] { AcknowledgeAct(env, t.now, w); }
    case Lose => LoseAct(env, t.now, w);
    case Redial(ev) => RedialAct(env, t.now, w, ev);
  }

  lemma {:induction false} PlayKeepsInv(env: Env, w: World, run: seq<TimedAct>)
    requires Inv(w)
    ensures Inv(Play(env, w, run))
    decreases |run|
  {
    if run != [] {
      ActKeepsInv(env, w, run[0]);
      PlayKeepsInv(env, NextWorld(env, w, run[0]), run[1..]);
    }
  }

  lemma {:induction false} StartInv()
    ensures Inv(START)
  {
    assert PlacesOf(FRESH, map[]) == Places({}, {}, {}, {});
    assert Lost(OPENING.fate) == {};
    assert Pipe(START) == [];
    assert Passed(START) == {};
  }

  // -------------------------------------------------------------------------
  // The theorems
  // -------------------------------------------------------------------------

  // At most once, whatever is lost, resumed, refused or wiped: no delivery
  // reaches the application twice, and a rejected one never does.
  lemma {:induction false} AtMostOnce(env: Env, run: seq<TimedAct>)
    ensures var w := Play(env, START, run);
      NoRepeat(w.app) && w.rejected !! Passed(w)
  {
    StartInv();
    PlayKeepsInv(env, START, run);
  }

  // Exactly once while the client's identity does not change: everything the
  // broker counts as accepted was passed on, once.
  lemma {:induction false} ExactlyOnceUnlessWiped(env: Env, run: seq<TimedAct>)
    ensures var w := Play(env, START, run);
      !w.wiped ==> w.accepted <= Passed(w) && NoRepeat(w.app)
  {
    StartInv();
    PlayKeepsInv(env, START, run);
  }

  // No PUBLISH of an accepted delivery is in the session's queue, table or
  // channel, or on the wire.
  ghost predicate NothingResent(w: World) {
    && (forall k :: 0 <= k < |Pipe(w)| && Pipe(w)[k].Send? && Pipe(w)[k].publish.qos == ExactlyOnce
          ==> Pipe(w)[k].publish.lbl.serial !in w.accepted)
    && w.accepted !! InQueue(w.b.d.queue)
    && w.accepted !! InTable(w.b.d.pubrec)
  }

  lemma {:induction false} InvResends(w: World)
    requires Inv(w)
    ensures NothingResent(w)
  {
    forall k | 0 <= k < |Pipe(w)| && Pipe(w)[k].Send? && Pipe(w)[k].publish.qos == ExactlyOnce
      ensures Pipe(w)[k].publish.lbl.serial !in w.accepted
    {
      var p := Pipe(w)[k].publish;
      assert DownOk(w.b.d, Pipe(w)[k]);
      assert w.b.d.pubrec[p.packetId.value].lbl.serial in InTable(w.b.d.pubrec);
    }
  }

  // Once its PUBREC was accepted, a delivery is never put on its way again.
  lemma {:induction false} NeverResentAfterPubrec(env: Env, run: seq<TimedAct>)
    ensures NothingResent(Play(env, START, run))
  {
    StartInv();
    PlayKeepsInv(env, START, run);
    InvResends(Play(env, START, run));
  }
}
