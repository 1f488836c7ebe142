// The broker as the program holds it: a table of session objects, the retained
// messages, the round-robin cursors and the policy behind one lock. Every
// method is one critical section, proved against its handler function.

module BrokerObject {
  import opened Types
  import opened Delivery
  import opened SessionObject
  import opened Storage
  import R = Router
  import B = Broker
  import BrokerRuns
  import InboundQos2
  import SessionRuns
  import StatusBatch
  import Loader
  import Reload

  function At<K(==), V>(m: map<K, seq<V>>, k: K): seq<V> {
    if k in m then m[k] else []
  }

  // The candidates of every group, gathered from the sessions in `order`.
  ghost predicate Gathered(env: Env, pub: R.Publication, sessions: map<string, R.Session>, order: seq<string>,
                           shared: map<R.Group, seq<R.Target>>)
    requires forall c :: c in order ==> c in sessions
  {
    && (forall g :: At(shared, g) == R.Candidates(env, pub, sessions, order, g))
    && (forall g :: g in shared ==> shared[g] != [])
  }

  ghost predicate Appended(env: Env, pub: R.Publication, client: string, subs: seq<R.Subscription>,
                           before: map<R.Group, seq<R.Target>>, after: map<R.Group, seq<R.Target>>)
  {
    && (forall g :: At(after, g) == At(before, g) + R.CandidatesOf(env, pub, client, subs, g))
    && (forall g :: g in after ==> after[g] != [])
  }

  lemma {:induction false} AppendSkip(env: Env, pub: R.Publication, client: string, subs: seq<R.Subscription>,
                                      before: map<R.Group, seq<R.Target>>, after: map<R.Group, seq<R.Target>>)
    requires subs != [] && Appended(env, pub, client, subs[..|subs| - 1], before, after)
    requires var sub := subs[|subs| - 1]; !R.Eligible(env, pub, client, sub) || sub.share.None?
    ensures Appended(env, pub, client, subs, before, after)
  {
    forall g ensures At(after, g) == At(before, g) + R.CandidatesOf(env, pub, client, subs, g) {
      assert R.CandidatesOf(env, pub, client, subs, g) == R.CandidatesOf(env, pub, client, subs[..|subs| - 1], g);
    }
  }

  lemma {:induction false} AppendOne(env: Env, pub: R.Publication, client: string, subs: seq<R.Subscription>,
                                     before: map<R.Group, seq<R.Target>>, after: map<R.Group, seq<R.Target>>)
    requires subs != [] && Appended(env, pub, client, subs[..|subs| - 1], before, after)
    requires var sub := subs[|subs| - 1]; R.Eligible(env, pub, client, sub) && sub.share.Some?
    ensures var sub := subs[|subs| - 1];
      var g := (sub.share.value, sub.filter);
      Appended(env, pub, client, subs, before, after[g := At(after, g) + [R.SharedTarget(pub, client, sub)]])
  {
    var less, sub := subs[..|subs| - 1], subs[|subs| - 1];
    var g0 := (sub.share.value, sub.filter);
    var after' := after[g0 := At(after, g0) + [R.SharedTarget(pub, client, sub)]];
    forall g ensures At(after', g) == At(before, g) + R.CandidatesOf(env, pub, client, subs, g) {
      assert R.InGroup(env, pub, client, sub, g) <==> g == g0;
      assert At(after, g) == At(before, g) + R.CandidatesOf(env, pub, client, less, g);
    }
  }

  // One session's subscriptions: the best ordinary grant, and its candidates
  // added to their groups.
  method ScanSubscriptions(env: Env, pub: R.Publication, client: string, subs: seq<R.Subscription>,
                           groups: map<R.Group, seq<R.Target>>)
    returns (best: Option<QoS>, subIds: seq<nat>, retain: bool, shared: map<R.Group, seq<R.Target>>)
    requires forall g :: g in groups ==> groups[g] != []
    ensures R.Best(best, subIds, retain) == R.BestOf(env, pub, client, subs)
    ensures Appended(env, pub, client, subs, groups, shared)
  {
    best, subIds, retain, shared := None, [], false, groups;
    for i := 0 to |subs|
      invariant R.Best(best, subIds, retain) == R.BestOf(env, pub, client, subs[..i])
      invariant Appended(env, pub, client, subs[..i], groups, shared)
    {
      var sub := subs[i];
      assert subs[..i + 1][..i] == subs[..i];
      if R.Eligible(env, pub, client, sub) && sub.share.Some? {
        AppendOne(env, pub, client, subs[..i + 1], groups, shared);
      } else {
        AppendSkip(env, pub, client, subs[..i + 1], groups, shared);
      }
      if !env.matches(sub.filter, pub.message.topic) { continue; }
      if sub.noLocal && pub.publisher == Some(client) { continue; }
      var eff := MinQoS(pub.message.qos, sub.qos);
      if sub.share.Some? {
        var g := (sub.share.value, sub.filter);
        shared := shared[g := At(shared, g) + [R.SharedTarget(pub, client, sub)]];
        continue;
      }
      best := Some(if best.Some? && Rank(best.value) >= Rank(eff) then best.value else eff);
      subIds := subIds + R.IdsOf(sub);
      retain := retain || sub.retainAsPublished;
    }
    assert subs[..|subs|] == subs;
  }

  // One more session scanned.
  lemma {:induction false} GatheredNext(env: Env, pub: R.Publication, sessions: map<string, R.Session>,
                                        order: seq<string>,
                                        before: map<R.Group, seq<R.Target>>, after: map<R.Group, seq<R.Target>>)
    requires order != [] && (forall c :: c in order ==> c in sessions)
    requires Gathered(env, pub, sessions, order[..|order| - 1], before)
    requires Appended(env, pub, order[|order| - 1], sessions[order[|order| - 1]].subs, before, after)
    ensures Gathered(env, pub, sessions, order, after)
  {
    forall g ensures At(after, g) == R.Candidates(env, pub, sessions, order, g) {
      assert At(before, g) == R.Candidates(env, pub, sessions, order[..|order| - 1], g);
    }
  }

  // What the ordinary pass has done after the sessions in `order`.
  ghost predicate Passed(env: Env, now: nat, pub: R.Publication, first: map<string, R.Session>, order: seq<string>,
                         sessions: map<string, R.Session>, delivered: nat, dropped: nat)
    requires forall c :: c in order ==> c in first
  {
    var plan := R.OrdinaryPlan(env, pub, first, order);
    R.Fanout(sessions, dropped) == R.DeliverAll(env, now, pub, R.Fanout(first, 0), plan) && delivered == |plan|
  }

  lemma {:induction false} SubsStay(env: Env, now: nat, pub: R.Publication, first: map<string, R.Session>,
                                    order: seq<string>,
                                    sessions: map<string, R.Session>, delivered: nat, dropped: nat, c: string)
    requires (forall c :: c in order ==> c in first) && c in first
    requires Passed(env, now, pub, first, order, sessions, delivered, dropped)
    ensures c in sessions && sessions[c].subs == first[c].subs
  {
    R.FanoutFrame(env, now, pub, R.Fanout(first, 0), R.OrdinaryPlan(env, pub, first, order));
  }

  lemma {:induction false} PassedNext(env: Env, now: nat, pub: R.Publication, first: map<string, R.Session>,
                                      order: seq<string>,
                                      mid: map<string, R.Session>, delivered: nat, dropped: nat,
                                      sessions: map<string, R.Session>, dropped': nat)
    requires order != [] && (forall c :: c in order ==> c in first)
    requires Passed(env, now, pub, first, order[..|order| - 1], mid, delivered, dropped)
    requires var due := R.OrdinaryTarget(env, pub, order[|order| - 1], first[order[|order| - 1]].subs);
      R.Fanout(sessions, dropped') == R.DeliverAll(env, now, pub, R.Fanout(mid, dropped), due)
    ensures var due := R.OrdinaryTarget(env, pub, order[|order| - 1], first[order[|order| - 1]].subs);
      Passed(env, now, pub, first, order, sessions, delivered + |due|, dropped')
  {
    var less, last := order[..|order| - 1], order[|order| - 1];
    R.DeliverAllConcat(env, now, pub, R.Fanout(first, 0), R.OrdinaryPlan(env, pub, first, less),
                       R.OrdinaryTarget(env, pub, last, first[last].subs));
  }

  // A route is its two passes, one after the other.
  lemma {:induction false} RouteParts(env: Env, now: nat, pub: R.Publication, sessions: map<string, R.Session>,
                                      rr: map<R.Group, nat>, o: R.RouteOrder)
    requires R.ValidRoute(env, pub, sessions, o) && !IsExpired(pub.message, now)
    ensures var ordinary, shared :=
        R.OrdinaryPlan(env, pub, sessions, o.clients), R.SharedPlan(env, pub, sessions, o.clients, rr, o.groups);
      var f := R.DeliverAll(env, now, pub, R.DeliverAll(env, now, pub, R.Fanout(sessions, 0), ordinary), shared);
      R.Route(env, now, pub, sessions, rr, o) == R.Routed(f.sessions, R.BumpAll(rr, o.groups), |ordinary| + |shared|,
                                                          f.dropped)
  {
    R.DeliverAllConcat(env, now, pub, R.Fanout(sessions, 0), R.OrdinaryPlan(env, pub, sessions, o.clients),
                       R.SharedPlan(env, pub, sessions, o.clients, rr, o.groups));
  }

  lemma {:induction false} DeliverAllSnoc(env: Env, now: nat, pub: R.Publication, f: R.Fanout, plan: seq<R.Target>,
                                          t: R.Target)
    ensures R.DeliverAll(env, now, pub, f, plan + [t])
            == R.DeliverTo(env, now, pub, R.DeliverAll(env, now, pub, f, plan), t)
  {
    assert (plan + [t])[..|plan|] == plan;
  }

  // The shared plan and the cursors with one more group.
  lemma {:induction false} ChosenNext(env: Env, pub: R.Publication, sessions: map<string, R.Session>,
                                      order: seq<string>,
                                      shared: map<R.Group, seq<R.Target>>, rr: map<R.Group, nat>,
                                      groups: seq<R.Group>, i: nat)
    requires i < |groups| && (forall c :: c in order ==> c in sessions)
    requires Enumerates(groups, shared.Keys) && Gathered(env, pub, sessions, order, shared)
    ensures groups[i] in shared && shared[groups[i]] != []
    ensures R.SharedPlan(env, pub, sessions, order, rr, groups[..i + 1])
            == R.SharedPlan(env, pub, sessions, order, rr, groups[..i])
               + [R.Pick(shared[groups[i]], R.Cursor(rr, groups[i]))]
    ensures R.Cursor(R.BumpAll(rr, groups[..i]), groups[i]) == R.Cursor(rr, groups[i])
    ensures R.BumpAll(rr, groups[..i + 1]) == R.Bump(R.BumpAll(rr, groups[..i]), groups[i])
  {
    var less, g := groups[..i], groups[i];
    assert g in groups;
    assert At(shared, g) == R.Candidates(env, pub, sessions, order, g);
    assert groups[..i + 1] == less + [g];
    PickNext(env, pub, sessions, order, rr, less, g);
    R.BumpAllAt(rr, less, g);
    assert g !in less;
    BumpNext(rr, less, g);
  }

  lemma {:induction false} PickNext(env: Env, pub: R.Publication, sessions: map<string, R.Session>, order: seq<string>,
                                    rr: map<R.Group, nat>, less: seq<R.Group>, g: R.Group)
    requires (forall c :: c in order ==> c in sessions) && R.Candidates(env, pub, sessions, order, g) != []
    ensures R.SharedPlan(env, pub, sessions, order, rr, less + [g])
            == R.SharedPlan(env, pub, sessions, order, rr, less)
               + [R.Pick(R.Candidates(env, pub, sessions, order, g), R.Cursor(rr, g))]
  {
    assert (less + [g])[..|less|] == less;
  }

  lemma {:induction false} BumpNext(rr: map<R.Group, nat>, less: seq<R.Group>, g: R.Group)
    ensures R.BumpAll(rr, less + [g]) == R.Bump(R.BumpAll(rr, less), g)
  {
    assert (less + [g])[..|less|] == less;
  }

  // The groups gathered are exactly those with an eligible member.
  lemma {:induction false} GatheredGroups(env: Env, pub: R.Publication, sessions: map<string, R.Session>,
                                          order: seq<string>, shared: map<R.Group, seq<R.Target>>)
    requires Enumerates(order, sessions.Keys) && Gathered(env, pub, sessions, order, shared)
    ensures shared.Keys == R.Groups(env, pub, sessions)
  {
    forall g ensures g in shared <==> g in R.Groups(env, pub, sessions) {
      R.GroupHasCandidate(env, pub, sessions, order, g);
      assert At(shared, g) == R.Candidates(env, pub, sessions, order, g);
    }
  }

  // One member of every group, each group's cursor moved on.
  method ChooseMembers(env: Env, pub: R.Publication, ghost first: map<string, R.Session>, ghost order: seq<string>,
                       shared: map<R.Group, seq<R.Target>>, rr: map<R.Group, nat>, groups: seq<R.Group>)
    returns (chosen: seq<R.Target>, cursors: map<R.Group, nat>)
    requires (forall c :: c in order ==> c in first) && Enumerates(groups, shared.Keys)
    requires Gathered(env, pub, first, order, shared)
    ensures chosen == R.SharedPlan(env, pub, first, order, rr, groups)
    ensures cursors == R.BumpAll(rr, groups)
  {
    chosen, cursors := [], rr;
    for i := 0 to |groups|
      invariant chosen == R.SharedPlan(env, pub, first, order, rr, groups[..i])
      invariant cursors == R.BumpAll(rr, groups[..i])
    {
      var g := groups[i];
      ChosenNext(env, pub, first, order, shared, rr, groups, i);
      chosen := chosen + [R.Pick(shared[g], R.Cursor(cursors, g))];
      cursors := R.Bump(cursors, g);
    }
    assert groups[..|groups|] == groups;
  }

  // The retained messages a new subscription is sent, in the order given.
  method MatchingRetained(env: Env, now: nat, cx: B.SubContext, filter: string,
                          granted: QoS) returns (sends: seq<Pending>)
    ensures sends == B.RetainedSends(env, now, cx, cx.order, filter, granted)
  {
    sends := [];
    for i := 0 to |cx.order|
      invariant sends == B.RetainedSends(env, now, cx, cx.order[..i], filter, granted)
    {
      var topic := cx.order[i];
      assert cx.order[..i + 1][..i] == cx.order[..i];
      if topic in cx.retained && !IsExpired(cx.retained[topic], now) && env.matches(filter, topic) {
        var m := cx.retained[topic];
        var ids := if cx.subId.Some? then [cx.subId.value] else [];
        sends := sends + [Pending(m, MinQoS(m.qos, granted), true, ids, Label(0, None))];
      }
    }
    assert cx.order[..|cx.order|] == cx.order;
  }

  // Deliver several messages to one session.
  method DeliverPending(env: Env, now: nat, s: Session, ps: seq<Pending>) returns (dropped: nat)
    modifies s`out, s`nextPacketId, s`awaitingPuback, s`awaitingPubrec, s`queue
    ensures Flushed(s.Out(), dropped) == SessionRuns.GiveAll(env, now, old(s.Out()), ps)
  {
    dropped := 0;
    for i := 0 to |ps|
      invariant var rest := SessionRuns.GiveAll(env, now, s.Out(), ps[i..]);
        SessionRuns.GiveAll(env, now, old(s.Out()), ps) == Flushed(rest.d, dropped + rest.dropped)
    {
      assert ps[i..][1..] == ps[i + 1..];
      var lost := s.Deliver(env, now, ps[i]);
      if lost { dropped := dropped + 1; }
    }
  }

  lemma {:induction false} SplitSnoc(env: Env, acl: B.Acl, who: string, subs: seq<R.Subscription>)
    requires subs != []
    ensures var n := |subs| - 1;
      var ok := B.CanSubscribe(env, acl, who, subs[n].filter);
      && B.Allowed(env, acl, who, subs) == B.Allowed(env, acl, who, subs[..n]) + (if ok then [subs[n]] else [])
      && B.Denied(env, acl, who, subs) == B.Denied(env, acl, who, subs[..n]) + (if ok then [] else [subs[n]])
  {
    var n := |subs| - 1;
    if n > 0 {
      var rest := subs[1..];
      SplitSnoc(env, acl, who, rest);
      assert rest[..n - 1] == subs[..n][1..] && rest[n - 1] == subs[n] && subs[..n][0] == subs[0];
    }
  }

  // The subscriptions a policy keeps, and those it revokes.
  method SplitAllowed(env: Env, acl: B.Acl, who: string, subs: seq<R.Subscription>)
    returns (kept: seq<R.Subscription>, gone: seq<R.Subscription>)
    ensures kept == B.Allowed(env, acl, who, subs) && gone == B.Denied(env, acl, who, subs)
  {
    kept, gone := [], [];
    for i := 0 to |subs|
      invariant kept == B.Allowed(env, acl, who, subs[..i]) && gone == B.Denied(env, acl, who, subs[..i])
    {
      SplitSnoc(env, acl, who, subs[..i + 1]);
      assert subs[..i + 1][..i] == subs[..i];
      if B.CanSubscribe(env, acl, who, subs[i].filter) { kept := kept + [subs[i]]; } else { gone := gone + [subs[i]]; }
    }
    assert subs[..|subs|] == subs;
  }

  // A CONNECT in terms of what it does to its session and three pieces of log.
  lemma {:induction false} ConnectParts(env: Env, now: nat, st: B.State, c: B.ConnectRequest)
    requires B.ConnectReady(env, st, c) && B.Acceptable(env, st, c)
    ensures var r := B.Opening(env, now, st, c);
      B.HandleConnect(env, now, st, c)
      == st.(sessions := st.sessions[c.client := B.ConnectedSession(env, st, c).(d := r.d)],
             nextEpoch := st.nextEpoch + 1,
             log := st.log + B.TakeoverCommands(st, c) + B.ReauthoriseCommands(env, st, c)
                 + B.PersistCommands(env, st, c),
             dropped := st.dropped + r.dropped)
  {
    Joined(st.log, B.TakeoverCommands(st, c), B.ReauthoriseCommands(env, st, c), B.PersistCommands(env, st, c));
  }

  lemma {:induction false} Overridden(sessions: map<string, R.Session>, c: string, a: R.Session, b: R.Session)
    ensures sessions[c := a][c := b] == sessions[c := b]
  {
  }

  lemma {:induction false} Joined(log: seq<Command>, a: seq<Command>, b: seq<Command>, c: seq<Command>)
    ensures log + a + b + c == log + (a + b + c)
  {
  }

  // -------------------------------------------------------------------------
  // The revoke pass, session by session
  // -------------------------------------------------------------------------

  ghost function RevokedCommands(env: Env, acl: B.Acl, sessions: map<string, R.Session>, c: string): seq<Command>
    requires c in sessions
  {
    if sessions[c].persistent then B.Deletions(c, B.Denied(env, acl, B.Who(sessions[c].identity), sessions[c].subs))
        else []
  }

  // What the pass has done after the sessions in `done`.
  ghost predicate Revoked(env: Env, acl: B.Acl, first: map<string, R.Session>, firstLog: seq<Command>,
                          done: seq<string>,
                          sessions: map<string, R.Session>, log: seq<Command>)
  {
    sessions == B.PrunedIn(env, acl, first, done) && log == firstLog + B.RevokeCommands(env, acl, first, done)
  }

  lemma {:induction false} RevokedNext(env: Env, acl: B.Acl, first: map<string, R.Session>, firstLog: seq<Command>,
                                       order: seq<string>, i: nat,
                                       mid: map<string, R.Session>, midLog: seq<Command>, sessions: map<string,
                                       R.Session>, log: seq<Command>)
    requires i < |order| && Enumerates(order, first.Keys) && Revoked(env, acl, first, firstLog, order[..i], mid, midLog)
    requires order[i] in mid && sessions == mid[order[i] := B.Pruned(env, acl, mid[order[i]])]
    requires log == midLog + RevokedCommands(env, acl, mid, order[i])
    ensures Revoked(env, acl, first, firstLog, order[..i + 1], sessions, log)
  {
    var c, less := order[i], order[..i];
    assert order[..i + 1] == less + [c];
    assert c !in less;
    B.PrunedNext(env, acl, first, less, c);
    RevokeCommandsNext(env, acl, first, firstLog, less, c);
    SameCommands(env, acl, mid, first, c);
  }

  lemma {:induction false} SameCommands(env: Env, acl: B.Acl, a: map<string, R.Session>, b: map<string, R.Session>,
                                        c: string)
    requires c in a && c in b && a[c] == b[c]
    ensures RevokedCommands(env, acl, a, c) == RevokedCommands(env, acl, b, c)
  {
  }

  lemma {:induction false} RevokeCommandsNext(env: Env, acl: B.Acl, first: map<string, R.Session>, log: seq<Command>,
                                              less: seq<string>, c: string)
    requires c in first
    ensures log + B.RevokeCommands(env, acl, first, less + [c])
            == log + B.RevokeCommands(env, acl, first, less) + RevokedCommands(env, acl, first, c)
  {
    assert (less + [c])[..|less|] == less;
    var done, more := B.RevokeCommands(env, acl, first, less), RevokedCommands(env, acl, first, c);
    assert B.RevokeCommands(env, acl, first, less + [c]) == done + more;
  }

  // The groups gathered are the ones to choose from.
  lemma {:induction false} OrderListsClients(env: Env, pub: R.Publication, sessions: map<string, R.Session>,
                                             order: R.RouteOrder)
    requires R.ValidRoute(env, pub, sessions, order)
    ensures forall c :: c in order.clients ==> c in sessions
  {
  }

  method ChooseGathered(env: Env, pub: R.Publication, ghost first: map<string, R.Session>, order: R.RouteOrder,
                        shared: map<R.Group, seq<R.Target>>, rr: map<R.Group, nat>)
    returns (chosen: seq<R.Target>, cursors: map<R.Group, nat>)
    requires R.ValidRoute(env, pub, first, order) && Gathered(env, pub, first, order.clients, shared)
    ensures chosen == R.SharedPlan(env, pub, first, order.clients, rr, order.groups)
    ensures cursors == R.BumpAll(rr, order.groups)
  {
    GatheredGroups(env, pub, first, order.clients, shared);
    chosen, cursors := ChooseMembers(env, pub, first, order.clients, shared, rr, order.groups);
  }

  class Broker {
    const env: Env
    var sessions: map<string, Session>
    var retained: map<string, Message>
    var rr: map<R.Group, nat>
    var nextEpoch: nat
    var log: seq<Command>
    var acl: B.Acl
    var publishDropped: nat

    // No two clients share a session object.
    ghost predicate Valid()
      reads this`sessions
    {
      forall a, b :: a in sessions && b in sessions && a != b ==> sessions[a] != sessions[b]
    }

    ghost function Sessions(): map<string, R.Session>
      reads this`sessions, sessions.Values
    {
      map c | c in sessions :: sessions[c].View()
    }

    ghost function View(): B.State
      reads this, sessions.Values
    {
      B.State(Sessions(), retained, rr, nextEpoch, log, acl, publishDropped)
    }

    // Start from what was on disk: reserved clients are not restored.
    constructor (env: Env, acl: B.Acl, rows: seq<(string, Message)>, records: seq<Loader.SessionRecord>)
      ensures this.env == env && Valid() && fresh(sessions.Values)
      ensures View() == Loader.Restored(env, acl, rows, records)
    {
      this.env, this.acl := env, acl;
      sessions, retained, rr, nextEpoch, log, publishDropped := map[], map[], map[], 1, [], 0;
      new;
      for i := 0 to |records|
        invariant Valid() && fresh(sessions.Values) && this.env == env
        invariant Sessions() == Loader.RestoreSessions(env, records[..i])
        invariant this.acl == acl && retained == map[] && rr == map[] && nextEpoch == 1 && log == []
        invariant publishDropped == 0
      {
        assert records[..i + 1][..i] == records[..i];
        if B.Reserved(records[i].client) { continue; }
        Restore(records[i]);
      }
      assert records[..|records|] == records;
      retained := Loader.RetainedMap(rows);
    }

    method Restore(rec: Loader.SessionRecord)
      requires Valid()
      modifies this`sessions
      ensures Valid() && fresh(sessions.Values - old(sessions.Values))
      ensures Sessions() == old(Sessions())[rec.client := Loader.RestoreOne(env, rec)]
    {
      ghost var before := sessions.Values;
      var s := RestoreOne(rec);
      Insert(rec.client, s);
      assert forall x :: x in sessions.Values ==> x in before || x == s;
    }

    method RestoreOne(rec: Loader.SessionRecord) returns (s: Session)
      ensures fresh(s) && s.View() == Loader.RestoreOne(env, rec)
    {
      s := new Session(rec.expiry);
      s.persistent := true;
      s.identity := rec.owner;
      for i := 0 to |rec.subs|
        invariant s.View() == Loader.RestoreOne(env, rec).(subs := Loader.LoadList(env, rec.subs[..i]))
      {
        assert rec.subs[..i + 1][..i] == rec.subs[..i];
        var sub := rec.subs[i];
        var parsed := env.parseFilter(sub.filter);
        var share := if parsed.Some? then parsed.value.share else None;
        var filter := if parsed.Some? then parsed.value.filter else sub.filter;
        s.subscriptions := s.subscriptions + [R.Subscription(filter, share, sub.qos, sub.noLocal,
                                                             sub.retainAsPublished, sub.subId)];
      }
      assert rec.subs[..|rec.subs|] == rec.subs;
    }

    // Only the session of `client` changed.
    twostate lemma {:induction false} OneChanged(client: string)
      requires old(Valid()) && client in sessions && sessions == old(sessions)
      requires forall c :: c in sessions && c != client ==> unchanged(sessions[c])
      ensures Sessions() == old(Sessions())[client := sessions[client].View()]
    {
    }

    // No session changed.
    twostate lemma {:induction false} NoneChanged()
      requires sessions == old(sessions) && forall c :: c in sessions ==> unchanged(sessions[c])
      ensures Sessions() == old(Sessions())
    {
    }

    // Add to the counter of dropped messages.
    method Count(dropped: nat)
      modifies this`publishDropped
      ensures View() == old(View()).(dropped := old(View()).dropped + dropped)
    {
      publishDropped := publishDropped + dropped;
      NoneChanged();
    }

    // -----------------------------------------------------------------------
    // Routing
    // -----------------------------------------------------------------------

    method DeliverOne(now: nat, client: string, p: Pending) returns (dropped: bool)
      requires Valid() && client in sessions
      modifies sessions.Values
      ensures var s := old(Sessions())[client]; var r := Deliver(env, now, s.d, p);
        Sessions() == old(Sessions())[client := s.(d := r.d)] && dropped == r.dropped
    {
      dropped := sessions[client].Deliver(env, now, p);
      OneChanged(client);
    }

    // One delivery; `already` counts the drops so far.
    method DeliverTo(now: nat, pub: R.Publication, t: R.Target, already: nat) returns (dropped: nat)
      requires Valid()
      modifies sessions.Values
      ensures R.Fanout(Sessions(), dropped) == R.DeliverTo(env, now, pub, R.Fanout(old(Sessions()), already), t)
    {
      dropped := already;
      if t.client in sessions {
        var lost := DeliverOne(now, t.client, R.PendingFor(pub, t));
        if lost { dropped := dropped + 1; }
      }
    }

    // One session of the ordinary pass: its best grant is delivered, its
    // candidates are set aside.
    method ServeSession(now: nat, pub: R.Publication, c: string, already: nat, groups: map<R.Group, seq<R.Target>>)
      returns (served: nat, dropped: nat, shared: map<R.Group, seq<R.Target>>)
      requires Valid() && c in sessions && (forall g :: g in groups ==> groups[g] != [])
      modifies sessions.Values
      ensures var due := R.OrdinaryTarget(env, pub, c, old(Sessions())[c].subs);
        served == |due|
        && R.Fanout(Sessions(), dropped) == R.DeliverAll(env, now, pub, R.Fanout(old(Sessions()), already), due)
      ensures Appended(env, pub, c, old(Sessions())[c].subs, groups, shared)
    {
      var best, subIds, retain, more := ScanSubscriptions(env, pub, c, sessions[c].subscriptions, groups);
      served, dropped, shared := 0, already, more;
      if best.Some? {
        var t := R.Target(c, best.value, retain && pub.message.retain, subIds);
        served := 1;
        R.DeliverOne(env, now, pub, R.Fanout(Sessions(), already), [t]);
        dropped := DeliverTo(now, pub, t, already);
      }
    }

    // The ordinary pass over all sessions.
    method RouteOrdinary(now: nat, pub: R.Publication, order: seq<string>)
      returns (delivered: nat, dropped: nat, shared: map<R.Group, seq<R.Target>>)
      requires Valid() && (forall c :: c in order ==> c in sessions)
      modifies sessions.Values
      ensures var plan := R.OrdinaryPlan(env, pub, old(Sessions()), order);
        && R.Fanout(Sessions(), dropped) == R.DeliverAll(env, now, pub, R.Fanout(old(Sessions()), 0), plan)
        && delivered == |plan|
      ensures Gathered(env, pub, old(Sessions()), order, shared)
    {
      delivered, dropped, shared := 0, 0, map[];
      ghost var first := Sessions();
      for i := 0 to |order|
        invariant Passed(env, now, pub, first, order[..i], Sessions(), delivered, dropped)
        invariant Gathered(env, pub, first, order[..i], shared)
      {
        var c := order[i];
        ghost var mid, before, count := Sessions(), dropped, delivered;
        SubsStay(env, now, pub, first, order[..i], mid, delivered, dropped, c);
        var served, lost, more := ServeSession(now, pub, c, dropped, shared);
        assert order[..i + 1][..i] == order[..i];
        GatheredNext(env, pub, first, order[..i + 1], shared, more);
        PassedNext(env, now, pub, first, order[..i + 1], mid, count, before, Sessions(), lost);
        delivered, dropped, shared := delivered + served, lost, more;
      }
      assert order[..|order|] == order;
    }

    method DeliverChosen(now: nat, pub: R.Publication, chosen: seq<R.Target>, already: nat) returns (dropped: nat)
      requires Valid()
      modifies sessions.Values
      ensures R.Fanout(Sessions(), dropped) == R.DeliverAll(env, now, pub, R.Fanout(old(Sessions()), already), chosen)
    {
      dropped := already;
      ghost var first := R.Fanout(Sessions(), already);
      for i := 0 to |chosen|
        invariant R.Fanout(Sessions(), dropped) == R.DeliverAll(env, now, pub, first, chosen[..i])
      {
        assert chosen[..i + 1] == chosen[..i] + [chosen[i]];
        DeliverAllSnoc(env, now, pub, first, chosen[..i], chosen[i]);
        dropped := DeliverTo(now, pub, chosen[i], dropped);
      }
      assert chosen[..|chosen|] == chosen;
    }

    // The first phase: ordinary deliveries made, one member per group chosen.
    method RouteFirst(now: nat, pub: R.Publication, order: R.RouteOrder)
      returns (served: nat, dropped: nat, chosen: seq<R.Target>, cursors: map<R.Group, nat>)
      requires Valid() && R.ValidRoute(env, pub, Sessions(), order)
      modifies sessions.Values
      ensures var ordinary := R.OrdinaryPlan(env, pub, old(Sessions()), order.clients);
        served == |ordinary|
        && R.Fanout(Sessions(), dropped) == R.DeliverAll(env, now, pub, R.Fanout(old(Sessions()), 0), ordinary)
      ensures chosen == R.SharedPlan(env, pub, old(Sessions()), order.clients, rr, order.groups)
      ensures cursors == R.BumpAll(rr, order.groups)
    {
      ghost var first := Sessions();
      OrderListsClients(env, pub, first, order);
      var shared;
      served, dropped, shared := RouteOrdinary(now, pub, order.clients);
      chosen, cursors := ChooseGathered(env, pub, first, order, shared, rr);
    }

    // Both phases over a message that has not expired.
    method RouteLive(now: nat, pub: R.Publication, order: R.RouteOrder) returns (delivered: nat, dropped: nat)
      requires Valid() && R.ValidRoute(env, pub, Sessions(), order)
      modifies this`rr, sessions.Values
      ensures var ordinary, shared :=
          R.OrdinaryPlan(env, pub, old(Sessions()), order.clients),
          R.SharedPlan(env, pub, old(Sessions()), order.clients, old(rr), order.groups);
        && R.Fanout(Sessions(), dropped)
           == R.DeliverAll(env, now, pub, R.DeliverAll(env, now, pub, R.Fanout(old(Sessions()), 0), ordinary), shared)
        && rr == R.BumpAll(old(rr), order.groups)
        && delivered == |ordinary| + |shared|
    {
      var served, lost, chosen, cursors := RouteFirst(now, pub, order);
      delivered := served + |chosen|;
      dropped := DeliverChosen(now, pub, chosen, lost);
      label Delivered:
      rr := cursors;
      NoneChanged@Delivered();
    }

    // route: whether anybody matched; what was dropped is counted.
    method Route(now: nat, pub: R.Publication, order: R.RouteOrder) returns (matched: bool)
      requires Valid() && R.ValidRoute(env, pub, Sessions(), order)
      modifies this`rr, this`publishDropped, sessions.Values
      ensures View() == B.RouteIn(env, now, old(View()), pub, order)
      ensures matched == B.Matched(env, now, old(View()), pub, order)
    {
      if IsExpired(pub.message, now) { return false; }
      RouteParts(env, now, pub, Sessions(), rr, order);
      var delivered, dropped := RouteLive(now, pub, order);
      matched := delivered > 0;
      Count(dropped);
    }

    // -----------------------------------------------------------------------
    // PUBLISH
    // -----------------------------------------------------------------------

    // send_to: a best-effort packet to a client.
    method Tell(client: string, x: Outgoing)
      requires Valid()
      modifies sessions.Values
      ensures View() == B.Tell(old(View()), client, x)
    {
      if client in sessions {
        sessions[client].Notify(x);
        OneChanged(client);
      }
    }

    method Retain(m: Message)
      modifies this`retained, this`log
      ensures View() == B.Retain(old(View()), m)
    {
      if !m.retain { return; }
      if m.payload == [] {
        retained := retained - {m.topic};
        log := log + [DeleteRetained(m.topic)];
      } else {
        retained := retained[m.topic := m];
        log := log + [UpsertRetained(m.topic, m)];
      }
      NoneChanged();
    }

    method Answer(client: string, p: B.InPublish, rc: ReasonCode)
      requires Valid()
      modifies sessions.Values
      ensures View() == B.Answer(old(View()), client, p, rc)
    {
      match p.qos
      case AtMostOnce =>
      case AtLeastOnce => Tell(client, Control(Puback(B.PacketId(p), rc)));
      case ExactlyOnce => Tell(client, Control(Pubrec(B.PacketId(p), rc)));
    }

    // Note a QoS 2 identifier; true if it was pending already.
    method HoldId(client: string, p: B.InPublish) returns (duplicate: bool)
      requires Valid() && client in sessions && p.qos == ExactlyOnce
      modifies sessions.Values
      ensures duplicate == B.Duplicate(old(View()), client, p)
      ensures View() == if duplicate then old(View()) else B.Hold(old(View()), client, p)
    {
      var s := sessions[client];
      duplicate := B.PacketId(p) in s.inboundQos2;
      if !duplicate {
        s.inboundQos2 := s.inboundQos2 + {B.PacketId(p)};
        OneChanged(client);
      }
    }

    method RouteAndAnswer(now: nat, client: string, p: B.InPublish, pub: R.Publication, order: R.RouteOrder)
      requires Valid() && R.ValidRoute(env, pub, Sessions(), order)
      modifies this`rr, this`publishDropped, sessions.Values
      ensures View() == B.Answer(B.RouteIn(env, now, old(View()), pub, order), client, p,
                                 if B.Matched(env, now, old(View()), pub, order) then Success
                                     else NoMatchingSubscribers)
    {
      var matched := Route(now, pub, order);
      Answer(client, p, if matched then Success else NoMatchingSubscribers);
    }

    // The part of a PUBLISH after its authorisation.
    method PublishAuthorised(now: nat, client: string, p: B.InPublish, order: R.RouteOrder)
      requires Valid() && client in sessions
      requires R.ValidRoute(env, R.Publication(B.FromPublish(p, now), Some(client)), Sessions(), order)
      modifies this`rr, this`retained, this`log, this`publishDropped, sessions.Values
      ensures View() == B.Publish1(env, now, old(View()), client, p, order)
    {
      var m := B.FromPublish(p, now);
      Retain(m);
      var pub := R.Publication(m, Some(client));
      InboundQos2.PublishParts(env, now, old(View()), client, p, order);
      if p.qos == ExactlyOnce {
        var duplicate := HoldId(client, p);
        if duplicate {
          Answer(client, p, Success);
          return;
        }
      }
      RouteAndAnswer(now, client, p, pub, order);
    }

    // Resolve or register a topic alias.
    method ResolveAlias(client: string, p: B.InPublish) returns (topic: Option<string>)
      requires Valid() && client in sessions
      modifies sessions.Values
      ensures topic.Some? <==> B.ResolveAlias(env, old(Sessions())[client].aliases, p).Topic?
      ensures topic.Some? ==> topic.value == B.ResolveAlias(env, old(Sessions())[client].aliases, p).name
      ensures View() == BrokerRuns.Aliased(env, old(View()), client, p)
    {
      var s := sessions[client];
      topic := Some(p.topic);
      if p.alias.Some? {
        var alias := p.alias.value;
        if alias > env.topicAliasMaximum { return None; }
        if p.topic == "" {
          topic := if alias in s.inboundAliases then Some(s.inboundAliases[alias]) else None;
        } else {
          s.inboundAliases := s.inboundAliases[alias := p.topic];
        }
      }
      OneChanged(client);
    }

    method HandlePublish(now: nat, client: string, epoch: nat, p: B.InPublish,
                         order: R.RouteOrder) returns (action: B.Action)
      requires Valid() && BrokerRuns.PublishReady(env, now, View(), client, p, order)
      modifies this`rr, this`retained, this`log, this`publishDropped, sessions.Values
      ensures B.Handled(View(), action) == B.HandlePublish(env, now, old(View()), client, epoch, p, order)
    {
      if Rank(p.qos) > Rank(env.maximumQos) { return B.ServerDisconnect(QoSNotSupported); }
      if p.retain && !env.retainAvailable { return B.ServerDisconnect(RetainNotSupported); }
      if client !in sessions || sessions[client].epoch != epoch { return B.ServerDisconnect(UnspecifiedError); }
      ghost var first := View();
      var topic := ResolveAlias(client, p);
      if topic.None? { return B.ServerDisconnect(TopicAliasInvalid); }
      var name := topic.value;
      if !env.validTopic(name) || "$SYS/" <= name { return B.ServerDisconnect(TopicNameInvalid); }
      if !B.CanPublish(env, acl, B.Who(sessions[client].identity), name) {
        var refusal := B.Refusal(p);
        if refusal.Some? { Tell(client, refusal.value); }
        return B.Continue;
      }
      InboundQos2.RouteStaysValid(env, R.Publication(B.FromPublish(p.(topic := name), now), Some(client)),
                                  first.sessions, Sessions(), order);
      PublishAuthorised(now, client, p.(topic := name), order);
      return B.Continue;
    }

    // -----------------------------------------------------------------------
    // Acknowledgements
    // -----------------------------------------------------------------------

    method Acknowledged(now: nat, client: string, id: nat)
      requires Valid() && client in sessions
      modifies this`publishDropped, sessions.Values
      ensures View() == B.OnOutbound(old(View()), client,
                                     Delivery.HandlePuback(env, now, old(Sessions())[client].d, id))
    {
      var lost := sessions[client].HandlePuback(env, now, id);
      OneChanged(client);
      Count(lost);
    }

    method HandlePuback(now: nat, client: string, epoch: nat, id: nat) returns (action: B.Action)
      requires Valid()
      modifies this`publishDropped, sessions.Values
      ensures B.Handled(View(), action) == B.PubackIn(env, now, old(View()), client, epoch, id)
    {
      if client in sessions {
        if sessions[client].epoch != epoch { return B.ServerDisconnect(UnspecifiedError); }
        Acknowledged(now, client, id);
      }
      return B.Continue;
    }

    method HandlePubrec(client: string, epoch: nat, id: nat, rc: ReasonCode) returns (action: B.Action)
      requires Valid()
      modifies sessions.Values
      ensures forall now :: B.Handled(View(), action) == B.PubrecIn(env, now, old(View()), client, epoch, id, rc)
    {
      if client in sessions {
        var s := sessions[client];
        if s.epoch != epoch { return B.ServerDisconnect(UnspecifiedError); }
        s.HandlePubrec(id, rc);
        OneChanged(client);
      }
      return B.Continue;
    }

    method HandlePubrel(client: string, epoch: nat, id: nat) returns (action: B.Action)
      requires Valid()
      modifies sessions.Values
      ensures B.Handled(View(), action) == B.PubrelIn(old(View()), client, epoch, id)
    {
      if client in sessions {
        var s := sessions[client];
        if s.epoch != epoch { return B.ServerDisconnect(UnspecifiedError); }
        s.HandlePubrel(id);
        OneChanged(client);
      }
      return B.Continue;
    }

    method Completed(now: nat, client: string, id: nat)
      requires Valid() && client in sessions
      modifies this`publishDropped, sessions.Values
      ensures View() == B.OnOutbound(old(View()), client,
                                     Delivery.HandlePubcomp(env, now, old(Sessions())[client].d, id))
    {
      var lost := sessions[client].HandlePubcomp(env, now, id);
      OneChanged(client);
      Count(lost);
    }

    method HandlePubcomp(now: nat, client: string, epoch: nat, id: nat) returns (action: B.Action)
      requires Valid()
      modifies this`publishDropped, sessions.Values
      ensures B.Handled(View(), action) == B.PubcompIn(env, now, old(View()), client, epoch, id)
    {
      if client in sessions {
        if sessions[client].epoch != epoch { return B.ServerDisconnect(UnspecifiedError); }
        Completed(now, client, id);
      }
      return B.Continue;
    }

    // -----------------------------------------------------------------------
    // SUBSCRIBE and UNSUBSCRIBE
    // -----------------------------------------------------------------------

    method AddFilters(s: Session, now: nat, cx: B.SubContext, filters: seq<B.SubFilter>)
      returns (codes: seq<ReasonCode>, sends: seq<Pending>)
      modifies s`subscriptions, this`log
      ensures var acc := B.SubscribeAll(env, now, cx, B.SubAcc(old(s.subscriptions), [], [], []), filters);
        s.subscriptions == acc.subs && codes == acc.codes && sends == acc.sends && log == old(log) + acc.cmds
    {
      codes, sends := [], [];
      ghost var acc0 := B.SubAcc(s.subscriptions, [], [], []);
      ghost var acc := acc0;
      for i := 0 to |filters|
        invariant acc == B.SubscribeAll(env, now, cx, acc0, filters[..i])
        invariant s.subscriptions == acc.subs && codes == acc.codes && sends == acc.sends && log == old(log) + acc.cmds
      {
        var f := filters[i];
        assert filters[..i + 1][..i] == filters[..i];
        acc := B.SubscribeOne(env, now, cx, acc, f);
        var j := B.Judge(env, cx, f.raw);
        if j.Bad? {
          codes := codes + [j.rc];
          continue;
        }
        var sub := B.NewSubscription(env, cx, f, j.parsed);
        var existed := s.UpsertSubscription(sub);
        if cx.persistent { log := log + [UpsertSubscription(cx.client, B.NewRecord(env, cx, f))]; }
        if B.SendsRetained(f, j.parsed.share, existed) {
          var more := MatchingRetained(env, now, cx, j.parsed.filter, sub.qos);
          sends := sends + more;
        }
        codes := codes + [B.GrantCode(sub.qos)];
      }
      assert filters[..|filters|] == filters;
    }

    // List, acknowledgement and retained messages, in this order.
    method SubscribeSession(s: Session, now: nat, cx: B.SubContext, packetId: nat, filters: seq<B.SubFilter>)
      returns (dropped: nat)
      modifies s, this`log
      ensures var acc := B.SubscribeAll(env, now, cx, B.SubAcc(old(s.subscriptions), [], [], []), filters);
        var told := Delivery.Notify(old(s.Out()), Control(Suback(packetId, acc.codes)));
        && s.View() == old(s.View()).(subs := acc.subs, d := s.Out())
        && Flushed(s.Out(), dropped) == SessionRuns.GiveAll(env, now, told, acc.sends)
        && log == old(log) + acc.cmds
    {
      var codes, sends := AddFilters(s, now, cx, filters);
      s.Notify(Control(Suback(packetId, codes)));
      dropped := DeliverPending(env, now, s, sends);
    }

    method Subscribed(now: nat, cx: B.SubContext, packetId: nat, filters: seq<B.SubFilter>)
      requires Valid() && cx.client in sessions
      modifies this`log, this`publishDropped, sessions.Values
      ensures var s := old(Sessions())[cx.client];
        var acc := B.SubscribeAll(env, now, cx, B.SubAcc(s.subs, [], [], []), filters);
        var r := SessionRuns.GiveAll(env, now, Delivery.Notify(s.d, Control(Suback(packetId, acc.codes))), acc.sends);
        View() == B.PutSession(old(View()), cx.client, s.(subs := acc.subs, d := r.d))
                    .(log := old(log) + acc.cmds, dropped := old(publishDropped) + r.dropped)
    {
      var lost := SubscribeSession(sessions[cx.client], now, cx, packetId, filters);
      OneChanged(cx.client);
      Count(lost);
    }

    method HandleSubscribe(now: nat, client: string, epoch: nat, packetId: nat, subId: Option<nat>,
                           filters: seq<B.SubFilter>, topics: seq<string>) returns (action: B.Action)
      requires Valid() && Enumerates(topics, retained.Keys)
      modifies this`log, this`publishDropped, sessions.Values
      ensures B.Handled(View(), action)
        == B.HandleSubscribe(env, now, old(View()), client, epoch, packetId, subId, filters, topics)
    {
      if client !in sessions || sessions[client].epoch != epoch { return B.ServerDisconnect(UnspecifiedError); }
      var s := sessions[client];
      var cx := B.SubContext(client, B.Who(s.identity), s.persistent, acl, retained, topics, subId);
      assert cx == B.ContextOf(View(), client, subId, topics);
      Subscribed(now, cx, packetId, filters);
      return B.Continue;
    }

    method DropFilters(s: Session, cx: B.SubContext, filters: seq<string>) returns (codes: seq<ReasonCode>)
      modifies s`subscriptions, this`log
      ensures var acc := B.UnsubscribeAll(env, cx, B.SubAcc(old(s.subscriptions), [], [], []), filters);
        s.subscriptions == acc.subs && codes == acc.codes && log == old(log) + acc.cmds
    {
      codes := [];
      ghost var acc0 := B.SubAcc(s.subscriptions, [], [], []);
      ghost var acc := acc0;
      for i := 0 to |filters|
        invariant acc == B.UnsubscribeAll(env, cx, acc0, filters[..i])
        invariant s.subscriptions == acc.subs && codes == acc.codes && log == old(log) + acc.cmds
      {
        var raw := filters[i];
        assert filters[..i + 1][..i] == filters[..i];
        acc := B.UnsubscribeOne(env, cx, acc, raw);
        var parsed := env.parseFilter(raw);
        var removed := s.RemoveSubscription(if parsed.Some? then parsed.value.filter else raw,
                                            if parsed.Some? then parsed.value.share else None);
        if removed && cx.persistent { log := log + [DeleteSubscription(cx.client, raw)]; }
        codes := codes + [if removed then Success else NoSubscriptionExisted];
      }
      assert filters[..|filters|] == filters;
    }

    method HandleUnsubscribe(client: string, epoch: nat, packetId: nat, filters: seq<string>) returns (action: B.Action)
      requires Valid()
      modifies this`log, sessions.Values
      ensures B.Handled(View(), action) == B.HandleUnsubscribe(env, old(View()), client, epoch, packetId, filters)
    {
      if client !in sessions || sessions[client].epoch != epoch { return B.ServerDisconnect(UnspecifiedError); }
      var s := sessions[client];
      var cx := B.SubContext(client, B.Who(s.identity), s.persistent, acl, retained, [], None);
      var codes := DropFilters(s, cx, filters);
      s.Notify(Control(Unsuback(packetId, codes)));
      OneChanged(client);
      return B.Continue;
    }

    // -----------------------------------------------------------------------
    // CONNECT
    // -----------------------------------------------------------------------

    method Insert(client: string, s: Session)
      requires Valid() && s !in sessions.Values
      modifies this`sessions
      ensures sessions == old(sessions)[client := s] && Valid()
      ensures Sessions() == old(Sessions())[client := s.View()]
    {
      sessions := sessions[client := s];
    }

    // A new session in the place of whatever the client had.
    method CreateSession(client: string, expiry: nat) returns (s: Session)
      requires Valid()
      modifies this`sessions
      ensures fresh(s) && sessions == old(sessions)[client := s] && Valid()
      ensures s.View() == B.NewSession(expiry) && Sessions() == old(Sessions())[client := s.View()]
    {
      s := new Session(expiry);
      Insert(client, s);
    }

    // The client's own session, stripped if its owner changed.
    method KeepSession(c: B.ConnectRequest) returns (s: Session)
      requires Valid() && B.Present(View(), c) && c.client in sessions
      modifies this`log, sessions[c.client]
      ensures s == sessions[c.client] && s.View() == B.BaseSession(env, old(View()), c)
      ensures log == old(log) + B.TakeoverCommands(old(View()), c)
    {
      s := sessions[c.client];
      if B.IdentityChanged(s.identity, c.identity) {
        s.Strip();
        if s.persistent { log := log + [ClearSubscriptions(c.client)]; }
      }
    }

    method LogDeletions(client: string, gone: seq<R.Subscription>)
      modifies this`log
      ensures log == old(log) + B.Deletions(client, gone)
    {
      for i := 0 to |gone|
        invariant log + B.Deletions(client, gone[i..]) == old(log) + B.Deletions(client, gone)
      {
        assert gone[i..][1..] == gone[i + 1..];
        log := log + [DeleteSubscription(client, B.KeyOf(gone[i].share, gone[i].filter))];
      }
    }

    // Drop the subscriptions the policy does not allow, from disk as well.
    method PruneSession(s: Session, policy: B.Acl, client: string) returns (gone: seq<R.Subscription>)
      modifies s`subscriptions, this`log
      ensures gone == B.Denied(env, policy, B.Who(s.identity), old(s.subscriptions))
      ensures s.subscriptions == B.Allowed(env, policy, B.Who(s.identity), old(s.subscriptions))
      ensures log == old(log) + if s.persistent then B.Deletions(client, gone) else []
    {
      var kept;
      kept, gone := SplitAllowed(env, policy, B.Who(s.identity), s.subscriptions);
      s.subscriptions := kept;
      if s.persistent { LogDeletions(client, gone); }
    }

    method BindSession(s: Session, c: B.ConnectRequest, epoch: nat, ghost st: B.State)
      requires st.nextEpoch == epoch && s.View() == B.BaseSession(env, st, c)
      modifies s
      ensures s.View() == B.BoundSession(env, st, c)
    {
      var expiry := B.RequestedExpiry(env, c);
      s.BindOwner(epoch, c.identity, expiry, expiry > 0 && !c.autoId, c.will);
      s.BindLink(c.out, if c.receiveMax.Some? then c.receiveMax.value else MAX_ID, c.maxPacketSize);
    }

    // Everything CONNECT does to its session before the backlog is resent.
    method OpenSession(s: Session, c: B.ConnectRequest, epoch: nat, present: bool, ghost st: B.State)
      requires st.nextEpoch == epoch && st.acl == acl && present == B.Present(st, c)
      requires s.View() == B.BaseSession(env, st, c)
      modifies s, this`log
      ensures s.View() == B.ConnectedSession(env, st, c)
      ensures log == old(log) + B.ReauthoriseCommands(env, st, c) + B.PersistCommands(env, st, c)
    {
      BindSession(s, c, epoch, st);
      if present && acl.enforced {
        var _ := PruneSession(s, acl, c.client);
      }
      if s.persistent { log := log + [UpsertSession(c.client, s.expiry, s.identity)]; }
    }

    // The session CONNECT starts from, in the table.
    method PrepareSession(c: B.ConnectRequest) returns (epoch: nat, present: bool, s: Session)
      requires Valid()
      modifies this`sessions, this`log, this`nextEpoch, sessions.Values
      ensures epoch == old(nextEpoch) && nextEpoch == epoch + 1
      ensures Valid() && c.client in sessions && s == sessions[c.client]
      ensures s in old(sessions.Values) || fresh(s)
      ensures sessions == old(sessions)[c.client := s]
      ensures present == B.Present(old(View()), c)
      ensures s.View() == B.BaseSession(env, old(View()), c)
      ensures Sessions() == old(Sessions())[c.client := s.View()]
      ensures log == old(log) + B.TakeoverCommands(old(View()), c)
    {
      epoch := nextEpoch;
      present := !c.cleanStart && c.client in sessions;
      if present {
        s := KeepSession(c);
        OneChanged(c.client);
      } else {
        s := CreateSession(c.client, B.RequestedExpiry(env, c));
        if c.cleanStart { log := log + [DeleteSession(c.client)]; }
      }
      label Opened:
      nextEpoch := epoch + 1;
      NoneChanged@Opened();
    }

    // Bind, authorise again, persist, and resend what is outstanding.
    method ResumeSession(s: Session, now: nat, c: B.ConnectRequest, epoch: nat, present: bool, ghost st: B.State)
      returns (dropped: nat)
      requires st.nextEpoch == epoch && st.acl == acl && present == B.Present(st, c) && B.ConnectReady(env, st, c)
      requires s.View() == B.BaseSession(env, st, c)
      modifies s, this`log
      ensures s.View() == B.ConnectedSession(env, st, c).(d := s.Out())
      ensures Flushed(s.Out(), dropped) == B.Opening(env, now, st, c)
      ensures log == old(log) + B.ReauthoriseCommands(env, st, c) + B.PersistCommands(env, st, c)
    {
      OpenSession(s, c, epoch, present, st);
      dropped := 0;
      if present { dropped := s.ResumeDelivery(env, now, c.order); }
    }

    method ResumePrepared(now: nat, c: B.ConnectRequest, epoch: nat, present: bool,
                          ghost st: B.State) returns (dropped: nat)
      requires Valid() && c.client in sessions && Sessions()[c.client] == B.BaseSession(env, st, c)
      requires st.nextEpoch == epoch && st.acl == acl && present == B.Present(st, c) && B.ConnectReady(env, st, c)
      modifies this`log, sessions.Values
      ensures var s := Sessions()[c.client];
        && Sessions() == old(Sessions())[c.client := s]
        && s == B.ConnectedSession(env, st, c).(d := s.d) && Flushed(s.d, dropped) == B.Opening(env, now, st, c)
      ensures log == old(log) + B.ReauthoriseCommands(env, st, c) + B.PersistCommands(env, st, c)
    {
      dropped := ResumeSession(sessions[c.client], now, c, epoch, present, st);
      OneChanged(c.client);
    }

    // The new connection in place, its drops yet to be counted.
    method Reopen(now: nat, c: B.ConnectRequest) returns (lost: nat)
      requires Valid() && B.ConnectReady(env, View(), c)
      modifies this`sessions, this`log, this`nextEpoch, sessions.Values
      ensures Valid() && nextEpoch == old(nextEpoch) + 1
      ensures log == old(log) + B.TakeoverCommands(old(View()), c)
                     + B.ReauthoriseCommands(env, old(View()), c) + B.PersistCommands(env, old(View()), c)
      ensures var r := B.Opening(env, now, old(View()), c);
        && lost == r.dropped
        && Sessions() == old(Sessions())[c.client := B.ConnectedSession(env, old(View()), c).(d := r.d)]
    {
      ghost var st := View();
      var epoch, present, s := PrepareSession(c);
      ghost var base := s.View();
      lost := ResumePrepared(now, c, epoch, present, st);
      Overridden(st.sessions, c.client, base, Sessions()[c.client]);
    }

    method Accept(now: nat, c: B.ConnectRequest)
      requires Valid() && B.ConnectReady(env, View(), c) && B.Acceptable(env, View(), c)
      modifies this`sessions, this`log, this`nextEpoch, this`publishDropped, sessions.Values
      ensures Valid()
      ensures View() == B.HandleConnect(env, now, old(View()), c)
    {
      ConnectParts(env, now, View(), c);
      var lost := Reopen(now, c);
      Count(lost);
    }

    method HandleConnect(now: nat, c: B.ConnectRequest) returns (answer: B.Connack)
      requires Valid() && B.ConnectReady(env, View(), c)
      modifies this`sessions, this`log, this`nextEpoch, this`publishDropped, sessions.Values
      ensures Valid() && answer == B.ConnackFor(env, old(View()), c)
      ensures View() == B.HandleConnect(env, now, old(View()), c)
    {
      if c.will.Some? && !B.CanPublish(env, acl, B.Who(c.identity), c.will.value.message.topic) {
        return B.Rejected(NotAuthorized);
      }
      if B.Reserved(c.client) { return B.Rejected(ClientIdentifierNotValid); }
      var expiry := B.RequestedExpiry(env, c);
      answer := B.Accepted(nextEpoch, !c.cleanStart && c.client in sessions,
                           if expiry != B.AskedExpiry(c) then Some(expiry) else None);
      Accept(now, c);
    }

    // -----------------------------------------------------------------------
    // Disconnection, expiry and Wills
    // -----------------------------------------------------------------------

    // The expiry update of a DISCONNECT; no epoch is looked at.
    method UpdateExpiry(client: string, wanted: nat)
      requires Valid()
      modifies this`log, sessions.Values
      ensures View() == B.UpdateExpiry(env, old(View()), client, wanted)
    {
      if client in sessions {
        var s := sessions[client];
        s.expiry := if wanted <= env.maxSessionExpiry then wanted else env.maxSessionExpiry;
        if s.persistent { log := log + [UpsertSession(client, s.expiry, s.identity)]; }
        OneChanged(client);
      }
    }

    // The teardown of a connection: the Will it takes along, if any, and how long
    // the session is to be kept, unless the connection was superseded.
    method CloseSession(client: string, epoch: nat) returns (will: Option<R.Will>, keep: Option<nat>)
      requires Valid()
      modifies sessions.Values
      ensures View() == B.CloseSession(old(View()), client, epoch)
      ensures will == if B.Current(old(View()), client, epoch) then old(Sessions())[client].will else None
      ensures keep == if B.Current(old(View()), client, epoch) then Some(old(Sessions())[client].expiry) else None
    {
      will, keep := None, None;
      if client in sessions && sessions[client].epoch == epoch {
        var s := sessions[client];
        keep := Some(s.expiry);
        s.inboundAliases := map[];
        will := s.will;
        s.will := None;
        s.GoOffline();
        OneChanged(client);
      }
    }

    method RemoveIfIdle(client: string, epoch: nat)
      requires Valid()
      modifies this`sessions, this`log
      ensures Valid() && View() == B.RemoveIfIdle(old(View()), client, epoch)
    {
      if client in sessions && sessions[client].epoch == epoch && !sessions[client].IsOnline() {
        sessions := sessions - {client};
        log := log + [DeleteSession(client)];
      }
    }

    // Store, if retained, and route: a fired Will, or a bridge's message.
    method RetainAndRoute(now: nat, m: Message, publisher: Option<string>, order: R.RouteOrder)
      requires Valid() && R.ValidRoute(env, R.Publication(m, publisher), Sessions(), order)
      modifies this`rr, this`retained, this`log, this`publishDropped, sessions.Values
      ensures View() == B.RouteIn(env, now, B.Retain(old(View()), m), R.Publication(m, publisher), order)
    {
      Retain(m);
      var _ := Route(now, R.Publication(m, publisher), order);
    }

    // -----------------------------------------------------------------------
    // Policy reload
    // -----------------------------------------------------------------------

    method RevokeOne(policy: B.Acl, c: string)
      requires Valid() && c in sessions
      modifies this`log, sessions.Values
      ensures Sessions() == old(Sessions())[c := B.Pruned(env, policy, old(Sessions())[c])]
      ensures log == old(log) + RevokedCommands(env, policy, old(Sessions()), c)
    {
      var s := sessions[c];
      var gone := PruneSession(s, policy, c);
      if gone != [] { s.Notify(Shutdown(NotAuthorized)); }
      OneChanged(c);
    }

    method RevokeAll(policy: B.Acl, order: seq<string>)
      requires Valid() && Enumerates(order, sessions.Keys)
      modifies this`log, sessions.Values
      ensures Revoked(env, policy, old(Sessions()), old(log), order, Sessions(), log)
    {
      ghost var first, firstLog := Sessions(), log;
      for i := 0 to |order|
        invariant Revoked(env, policy, first, firstLog, order[..i], Sessions(), log)
      {
        ghost var mid, midLog := Sessions(), log;
        assert order[i] in sessions;
        RevokeOne(policy, order[i]);
        RevokedNext(env, policy, first, firstLog, order, i, mid, midLog, Sessions(), log);
      }
      assert order[..|order|] == order;
    }

    method Revoke(policy: B.Acl, order: seq<string>)
      requires Valid() && Enumerates(order, sessions.Keys)
      modifies this`log, sessions.Values
      ensures View() == B.Revoke(env, old(View()), policy, order)
    {
      if policy.enforced {
        B.PrunedAll(env, policy, Sessions(), order);
        RevokeAll(policy, order);
      }
    }

    // -----------------------------------------------------------------------
    // Bridges and broker status
    // -----------------------------------------------------------------------

    method RegisterBridge(client: string, out: Channel) returns (epoch: nat)
      requires Valid()
      modifies this`sessions, this`nextEpoch
      ensures Valid() && epoch == old(nextEpoch) && View() == B.RegisterBridge(old(View()), client, out)
    {
      epoch := nextEpoch;
      nextEpoch := nextEpoch + 1;
      var s := new Session.ForBridge(epoch, out);
      Insert(client, s);
    }

    method BridgeSubscribe(client: string, filter: string, noLocal: bool)
      requires Valid()
      modifies sessions.Values
      ensures View() == B.BridgeSubscribe(old(View()), client, filter, noLocal)
    {
      if client in sessions {
        var s := sessions[client];
        s.subscriptions := s.subscriptions + [R.Subscription(filter, None, AtMostOnce, noLocal, true, None)];
        OneChanged(client);
      }
    }

    method DeregisterBridge(client: string, epoch: nat)
      requires Valid()
      modifies this`sessions
      ensures Valid() && View() == B.DeregisterBridge(old(View()), client, epoch)
    {
      if client in sessions && sessions[client].epoch == epoch { sessions := sessions - {client}; }
    }

    method PublishSys(now: nat, topic: string, payload: seq<byte>, order: R.RouteOrder)
      requires Valid() && R.ValidRoute(env, R.Publication(B.SysMessage(topic, payload), None), Sessions(), order)
      modifies this`rr, this`retained, this`publishDropped, sessions.Values
      ensures View() == B.PublishSys(env, now, old(View()), topic, payload, order)
    {
      var m := B.SysMessage(topic, payload);
      retained := retained[topic := m];
      NoneChanged();
      var _ := Route(now, R.Publication(m, None), order);
    }

    // A batch of status messages under one lock.
    method PublishSysAll(now: nat, entries: seq<StatusBatch.Entry>, orders: seq<R.RouteOrder>)
      requires Valid() && StatusBatch.Routable(env, Sessions(), entries, orders)
      modifies this`rr, this`retained, this`publishDropped, sessions.Values
      ensures View() == StatusBatch.PublishAll(env, now, old(View()), entries, orders)
    {
      ghost var st := View();
      for i := 0 to |entries|
        invariant View() == StatusBatch.PublishAll(env, now, st, entries[..i], orders[..i])
      {
        StatusBatch.NextIsRoutable(env, now, st, entries, orders, i);
        PublishSys(now, entries[i].topic, entries[i].payload, orders[i]);
        StatusBatch.PublishNext(env, now, st, entries, orders, i);
      }
      assert entries[..|entries|] == entries && orders[..|entries|] == orders;
    }

    // Exactly the expired messages leave memory, which nobody can tell: at any
    // later time the unexpired message on every topic is what it was. Nothing is
    // logged and no session is touched.
    method PurgeRetained(now: nat)
      modifies this`retained
      ensures View() == B.Purge(old(View()), now)
      ensures forall t :: t in retained ==>
        t in old(retained) && retained[t] == old(retained)[t] && !IsExpired(retained[t], now)
      ensures forall t :: t in old(retained) && t !in retained ==> IsExpired(old(retained)[t], now)
      ensures forall t, later :: now <= later ==>
        Reload.LiveIn(retained, t, later) == Reload.LiveIn(old(retained), t, later)
      ensures log == old(log) && Sessions() == old(Sessions())
    {
      retained := map t | t in retained && !IsExpired(retained[t], now) :: retained[t];
      forall t, later | now <= later
        ensures Reload.LiveIn(retained, t, later) == Reload.LiveIn(old(retained), t, later)
      {
        if t in old(retained) { ExpiryIsFinal(old(retained)[t], now, later); }
      }
      NoneChanged();
    }
  }

  // Start-up: read the database and build the broker on it.
  method Boot(store: Loader.Store, env: Env, acl: B.Acl, now: nat, topics: seq<string>, clients: seq<string>,
              orders: string -> seq<string>) returns (b: Broker)
    requires Enumerates(topics, store.retained.Keys) && Enumerates(clients, store.sessions.Keys)
    requires Reload.Orders(store.View(), orders)
    ensures fresh(b) && b.Valid() && b.View() == Reload.Load(env, now, store.View(), orders, acl)
  {
    Loader.OrdersAreReadable(store.View(), orders);
    Loader.RestoredIsLoaded(env, now, store.View(), topics, clients, orders, acl);
    var rows, records := store.LoadAll(now, topics, clients, orders);
    b := new Broker(env, acl, rows, records);
  }
}
