// A batch of broker status messages, published under one lock: the same as one
// status step after another.

module StatusBatch {
  import opened Types
  import opened Router
  import opened Broker
  import R = BrokerRuns
  import InboundQos2

  datatype Entry = Entry(topic: string, payload: seq<byte>)

  function StatusOf(e: Entry): Publication {
    Publication(SysMessage(e.topic, e.payload), None)
  }

  // Every entry comes with an iteration order for its route.
  ghost predicate Routable(env: Env, sessions: map<string, Session>, entries: seq<Entry>, orders: seq<RouteOrder>) {
    |orders| == |entries|
    && forall i :: 0 <= i < |entries| ==> ValidRoute(env, StatusOf(entries[i]), sessions, orders[i])
  }

  ghost function PublishAll(env: Env, now: nat, st: State, entries: seq<Entry>, orders: seq<RouteOrder>): State
    requires |orders| == |entries|
  {
    if entries == [] then st
    else
      var n := |entries| - 1;
      var mid := PublishAll(env, now, st, entries[..n], orders[..n]);
      if ValidFor(env, mid, StatusOf(entries[n]), orders[n])
      then PublishSys(env, now, mid, entries[n].topic, entries[n].payload, orders[n]) else mid
  }

  // Publishing changes no subscription, so the orders stay valid.
  lemma {:induction false} StaysRoutable(env: Env, now: nat, st: State, entries: seq<Entry>, orders: seq<RouteOrder>,
                                         pub: Publication, o: RouteOrder)
    requires |orders| == |entries| && ValidRoute(env, pub, st.sessions, o)
    ensures ValidRoute(env, pub, PublishAll(env, now, st, entries, orders).sessions, o)
  {
    if entries != [] {
      var n := |entries| - 1;
      var mid := PublishAll(env, now, st, entries[..n], orders[..n]);
      StaysRoutable(env, now, st, entries[..n], orders[..n], pub, o);
      if ValidFor(env, mid, StatusOf(entries[n]), orders[n]) {
        var e := entries[n];
        var m := SysMessage(e.topic, e.payload);
        R.QuietRoute(env, now, mid.(retained := mid.retained[e.topic := m]), Publication(m, None), orders[n]);
        InboundQos2.RouteStaysValid(env, pub, mid.sessions,
                                    PublishSys(env, now, mid, e.topic, e.payload, orders[n]).sessions, o);
      }
    }
  }

  lemma {:induction false} NextIsRoutable(env: Env, now: nat, st: State, entries: seq<Entry>, orders: seq<RouteOrder>,
                                          i: nat)
    requires Routable(env, st.sessions, entries, orders) && i < |entries|
    ensures ValidFor(env, PublishAll(env, now, st, entries[..i], orders[..i]), StatusOf(entries[i]), orders[i])
  {
    StaysRoutable(env, now, st, entries[..i], orders[..i], StatusOf(entries[i]), orders[i]);
  }

  lemma {:induction false} PublishNext(env: Env, now: nat, st: State, entries: seq<Entry>, orders: seq<RouteOrder>,
                                       i: nat)
    requires Routable(env, st.sessions, entries, orders) && i < |entries|
    ensures var mid := PublishAll(env, now, st, entries[..i], orders[..i]);
      && ValidFor(env, mid, StatusOf(entries[i]), orders[i])
      && PublishAll(env, now, st, entries[..i + 1], orders[..i + 1])
         == PublishSys(env, now, mid, entries[i].topic, entries[i].payload, orders[i])
  {
    NextIsRoutable(env, now, st, entries, orders, i);
    assert entries[..i + 1][..i] == entries[..i] && orders[..i + 1][..i] == orders[..i];
  }

  ghost function StepsOf(now: nat, entries: seq<Entry>, orders: seq<RouteOrder>): seq<R.TimedEvent>
    requires |orders| == |entries|
  {
    seq(|entries|, i requires 0 <= i < |entries| => R.At(now, R.Sys(entries[i].topic, entries[i].payload, orders[i])))
  }

  lemma {:induction false} SysStep(env: Env, now: nat, n: R.Node, e: Entry, o: RouteOrder)
    requires n.clock <= now && ValidFor(env, n.st, StatusOf(e), o)
    ensures var n' := R.Step(env, n, R.At(now, R.Sys(e.topic, e.payload, o)));
      n'.clock == now && n'.st == PublishSys(env, now, n.st, e.topic, e.payload, o)
  {
  }

  lemma {:induction false} PlaySnoc(env: Env, n: R.Node, steps: seq<R.TimedEvent>, k: nat)
    requires k < |steps|
    ensures R.Play(env, n, steps[..k + 1]) == R.Step(env, R.Play(env, n, steps[..k]), steps[k])
  {
    var t := [steps[k]];
    assert steps[..k + 1] == steps[..k] + t && t[1..] == [];
    R.PlayConcat(env, n, steps[..k], t);
  }

  // The state and clock after the first `k` entries.
  ghost predicate Published(env: Env, now: nat, n: R.Node, entries: seq<Entry>, orders: seq<RouteOrder>, k: nat,
                            n': R.Node)
    requires |orders| == |entries| && k <= |entries|
  {
    n'.st == PublishAll(env, now, n.st, entries[..k], orders[..k]) && n'.clock <= now
  }

  lemma {:induction false} PublishedNext(env: Env, now: nat, n: R.Node, entries: seq<Entry>, orders: seq<RouteOrder>,
                                         k: nat, mid: R.Node)
    requires Routable(env, n.st.sessions, entries, orders) && k < |entries|
    requires Published(env, now, n, entries, orders, k, mid)
    ensures Published(env, now, n, entries, orders, k + 1,
                      R.Step(env, mid, R.At(now, R.Sys(entries[k].topic, entries[k].payload, orders[k]))))
  {
    PublishNext(env, now, n.st, entries, orders, k);
    SysStep(env, now, mid, entries[k], orders[k]);
  }

  lemma {:induction false} BatchPrefix(env: Env, now: nat, n: R.Node, entries: seq<Entry>, orders: seq<RouteOrder>,
                                       k: nat)
    requires n.clock <= now && Routable(env, n.st.sessions, entries, orders) && k <= |entries|
    ensures Published(env, now, n, entries, orders, k, R.Play(env, n, StepsOf(now, entries, orders)[..k]))
  {
    if k > 0 {
      BatchPrefix(env, now, n, entries, orders, k - 1);
      var steps := StepsOf(now, entries, orders);
      PlaySnoc(env, n, steps, k - 1);
      PublishedNext(env, now, n, entries, orders, k - 1, R.Play(env, n, steps[..k - 1]));
    }
  }

  // The batch is a run of the broker, one status step per entry, so what holds
  // over all runs holds across batches too.
  lemma {:induction false} BatchIsARun(env: Env, now: nat, n: R.Node, entries: seq<Entry>, orders: seq<RouteOrder>)
    requires n.clock <= now && Routable(env, n.st.sessions, entries, orders)
    ensures R.Play(env, n, StepsOf(now, entries, orders)).st == PublishAll(env, now, n.st, entries, orders)
  {
    var k, steps := |entries|, StepsOf(now, entries, orders);
    BatchPrefix(env, now, n, entries, orders, k);
    assert steps[..k] == steps && entries[..k] == entries && orders[..k] == orders;
  }
}
