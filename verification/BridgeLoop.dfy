// Bridges: a message injected on behalf of a bridge never enters that bridge's
// own channel.

module BridgeLoop {
  import opened Types
  import opened Delivery
  import opened SessionRuns
  import opened Router
  import opened SessionProjection
  import B = Broker
  import R = BrokerRuns

  // -------------------------------------------------------------------------
  // Nothing of the client's own anywhere in its outbound state
  // -------------------------------------------------------------------------

  predicate Own(lbl: Label, client: string) {
    lbl.origin == Some(client)
  }

  ghost predicate CleanItem(x: Outgoing, client: string) {
    x.Send? ==> !Own(x.publish.lbl, client)
  }

  ghost predicate CleanItems(xs: seq<Outgoing>, client: string) {
    forall k :: 0 <= k < |xs| ==> CleanItem(xs[k], client)
  }

  ghost predicate CleanTable(m: map<nat, Publish>, client: string) {
    forall id :: id in m ==> !Own(m[id].lbl, client)
  }

  ghost predicate Clean(d: Outbound, client: string) {
    && (Online(d) ==> CleanItems(d.out.value.items, client))
    && CleanTable(d.puback, client) && CleanTable(d.pubrec, client)
    && (forall k :: 0 <= k < |d.queue| ==> !Own(d.queue[k].lbl, client))
  }

  lemma {:induction false} MoveClean(d: Outbound, mv: Move, client: string)
    requires Clean(d, client) && Legal(d, mv)
    ensures Clean(Moved(d, mv), client)
  {
  }

  lemma {:induction false} FlushClean(env: Env, now: nat, d: Outbound, client: string)
    requires WellFormed(d) && Clean(d, client)
    ensures Clean(Flush(env, now, d).d, client)
    decreases |d.queue|
  {
    var mv := FlushMove(env, now, d);
    MoveClean(d, mv, client);
    if !mv.Stay? {
      MoveKeepsWellFormed(d, mv);
      FlushClean(env, now, Moved(d, mv), client);
    }
  }

  lemma {:induction false} ResendsClean(m: map<nat, Publish>, order: seq<nat>, client: string)
    requires CleanTable(m, client) && forall id :: id in order ==> id in m
    ensures CleanItems(Resends(m, order), client)
  {
    if order != [] { ResendsClean(m, order[1..], client); }
  }

  lemma {:induction false} ReleasesClean(order: seq<nat>, client: string)
    ensures CleanItems(Releases(order), client)
  {
    if order != [] { ReleasesClean(order[1..], client); }
  }

  lemma {:induction false} SendAllClean(c: Channel, xs: seq<Outgoing>, client: string)
    requires CleanItems(c.items, client) && CleanItems(xs, client)
    ensures CleanItems(TrySendAll(c, xs).items, client)
    decreases |xs|
  {
    if xs != [] { SendAllClean(TrySend(c, xs[0]), xs[1..], client); }
  }

  lemma {:induction false} BacklogClean(d: Outbound, o: ResumeOrder, client: string)
    requires ValidOrder(d, o) && Clean(d, client)
    ensures CleanItems(Backlog(d, o), client)
  {
    ResendsClean(d.puback, o.puback, client);
    ResendsClean(d.pubrec, o.pubrec, client);
    ReleasesClean(o.pubcomp, client);
  }

  lemma {:induction false} EffectClean(env: Env, d: Outbound, p: Pending, ef: Effect, client: string)
    requires Clean(d, client) && !Own(p.lbl, client) && Fits(env, d, p, ef)
    ensures Clean(Affected(d, p, ef), client)
  {
    match ef
    case Pushed(pub) => assert CleanItem(Send(pub), client);
    case Shipped(next, id, pub) => assert CleanItem(Send(pub), client);
    case Queued(next, evicting) =>
      var q := if evicting then d.queue[1..] else d.queue;
      assert forall k :: 0 <= k < |q| ==> !Own(q[k].lbl, client);
    case _ =>
  }

  lemma {:induction false} GiveClean(env: Env, now: nat, d: Outbound, p: Pending, client: string)
    requires WellFormed(d) && Clean(d, client) && !Own(p.lbl, client)
    ensures Clean(Deliver(env, now, d, p).d, client)
  {
    var ef := DeliverEffect(env, now, d, p);
    EffectClean(env, d, p, ef, client);
  }

  lemma {:induction false} PubrecClean(d: Outbound, id: nat, rc: ReasonCode, client: string)
    requires Clean(d, client)
    ensures Clean(HandlePubrec(d, id, rc), client)
  {
  }

  lemma {:induction false} ReconnectClean(env: Env, now: nat, d: Outbound, ev: Event, client: string)
    requires WellFormed(d) && Clean(d, client) && ev.Reconnect? && Enabled(d, ev)
    ensures Clean(Step(env, now, d, ev).d, client)
  {
    var r := Resumed(d, ev);
    BacklogClean(r, ev.order, client);
    SendAllClean(r.out.value, Backlog(r, ev.order), client);
    FlushClean(env, now, r.(out := Some(TrySendAll(r.out.value, Backlog(r, ev.order)))), client);
  }

  lemma {:induction false} StepClean(env: Env, now: nat, d: Outbound, ev: Event, client: string)
    requires WellFormed(d) && Clean(d, client) && Enabled(d, ev)
    requires ev.Give? ==> !Own(ev.p.lbl, client)
    ensures Clean(Step(env, now, d, ev).d, client)
  {
    match ev
    case Give(p) => GiveClean(env, now, d, p, client);
    case AckPuback(id) => FlushClean(env, now, d.(puback := d.puback - {id}), client);
    case AckPubrec(id, rc) => PubrecClean(d, id, rc, client);
    case AckPubcomp(id) => FlushClean(env, now, d.(pubcomp := d.pubcomp - {id}), client);
    case Reconnect(_, _, _, _, _) => ReconnectClean(env, now, d, ev, client);
    case _ =>
  }

  lemma {:induction false} RunClean(env: Env, d: Outbound, run: seq<Timed>, client: string)
    requires WellFormed(d) && Clean(d, client) && Foreign(run, client)
    ensures Clean(Exec(env, d, run), client)
    decreases |run|
  {
    if run != [] {
      if Enabled(d, run[0].ev) {
        StepClean(env, run[0].now, d, run[0].ev, client);
        StepKeepsWellFormed(env, run[0].now, d, run[0].ev);
      }
      RunClean(env, Next(env, d, run[0]).d, run[1..], client);
    }
  }

  // -------------------------------------------------------------------------
  // Runs of the broker
  // -------------------------------------------------------------------------

  // A session nobody but the broker itself can own.
  ghost predicate LoopFree(c: string, s: Session) {
    B.Reserved(c) ==> NoLocalOnly(s.subs) && Clean(s.d, c)
  }

  ghost predicate LoopInv(env: Env, n: R.Node) {
    && (forall c :: c in n.st.sessions ==> WellFormed(n.st.sessions[c].d) && LoopFree(c, n.st.sessions[c]))
    && (forall k :: k in n.conns ==> !B.Reserved(k.0))
  }

  lemma {:induction false} AllowedNoLocal(env: Env, acl: B.Acl, who: string, subs: seq<Subscription>)
    requires NoLocalOnly(subs)
    ensures NoLocalOnly(B.Allowed(env, acl, who, subs))
  {
    if subs != [] {
      assert forall i :: 0 <= i < |subs[1..]| ==> subs[1..][i] == subs[i + 1];
      AllowedNoLocal(env, acl, who, subs[1..]);
    }
  }

  lemma {:induction false} OthersUntouched(env: Env, now: nat, st: B.State, from: string, epoch: nat, i: R.Inbound,
                                           c: string)
    requires (i.InSubscribe? || i.InUnsubscribe?) && c in st.sessions && c != from
    ensures var st' := R.HandleInbound(env, now, st, from, epoch, i);
      c in st'.sessions && st'.sessions[c] == st.sessions[c]
  {
  }

  lemma {:induction false} RevokeNoLocal(env: Env, st: B.State, acl: B.Acl, order: seq<string>, c: string)
    requires c in st.sessions && NoLocalOnly(st.sessions[c].subs)
    ensures NoLocalOnly(B.Revoke(env, st, acl, order).sessions[c].subs)
  {
    AllowedNoLocal(env, acl, B.Who(st.sessions[c].identity), st.sessions[c].subs);
  }

  lemma {:induction false} BridgeSubNoLocal(st: B.State, client: string, filter: string, c: string)
    requires c in st.sessions && NoLocalOnly(st.sessions[c].subs)
    ensures NoLocalOnly(B.BridgeSubscribe(st, client, filter, true).sessions[c].subs)
  {
  }

  lemma {:induction false} OtherSubs(env: Env, n: R.Node, t: R.TimedEvent, c: string)
    requires R.Enabled(env, n, t) && !R.Moves(t.ev) && !t.ev.Packet?
    requires c in n.st.sessions && NoLocalOnly(n.st.sessions[c].subs)
    requires c in R.NextState(env, n, t).sessions && Reopened(env, n.st, t.ev) != Some(c)
    ensures NoLocalOnly(R.NextState(env, n, t).sessions[c].subs)
  {
    match t.ev
    case RevokePass(acl, clients) => RevokeNoLocal(env, n.st, acl, clients, c);
    case BridgeSub(client, filter) => BridgeSubNoLocal(n.st, client, filter, c);
    case _ =>
  }

  // The subscriptions of a reserved client stay No Local.
  lemma {:induction false} StepSubs(env: Env, n: R.Node, t: R.TimedEvent, c: string)
    requires LoopInv(env, n) && R.Enabled(env, n, t) && B.Reserved(c)
    requires c in n.st.sessions && c in R.NextState(env, n, t).sessions && Reopened(env, n.st, t.ev) != Some(c)
    ensures NoLocalOnly(R.NextState(env, n, t).sessions[c].subs)
  {
    assert LoopFree(c, n.st.sessions[c]);
    if R.Moves(t.ev) {
      R.MovesAreQuiet(env, n, t);
      assert R.SameControl(n.st.sessions[c], R.NextState(env, n, t).sessions[c]);
    } else if t.ev.Packet? {
      OthersUntouched(env, t.now, n.st, t.ev.client, t.ev.epoch, t.ev.inbound, c);
    } else {
      OtherSubs(env, n, t, c);
    }
  }

  lemma {:induction false} StepFree(env: Env, n: R.Node, t: R.TimedEvent, c: string)
    requires LoopInv(env, n) && R.Enabled(env, n, t) && c in R.NextState(env, n, t).sessions
    requires Reopened(env, n.st, t.ev) != Some(c)
    ensures var s := R.NextState(env, n, t).sessions[c];
      WellFormed(s.d) && LoopFree(c, s)
  {
    var run := StepFollows(env, n, t, c);
    RunKeepsWellFormed(env, n.st.sessions[c].d, run);
    if B.Reserved(c) {
      StepSubs(env, n, t, c);
      assert LoopFree(c, n.st.sessions[c]);
      RunClean(env, n.st.sessions[c].d, run, c);
    }
  }

  // CONNECT refuses reserved identifiers; a registration starts afresh.
  lemma {:induction false} OpenedFree(env: Env, n: R.Node, t: R.TimedEvent, c: string)
    requires LoopInv(env, n) && R.Enabled(env, n, t) && Reopened(env, n.st, t.ev) == Some(c)
    ensures var st' := R.NextState(env, n, t);
      c in st'.sessions && WellFormed(st'.sessions[c].d) && LoopFree(c, st'.sessions[c])
  {
    if t.ev.Connect? {
      var u := ConnectFollows(env, t.now, n.st, t.ev.c);
      FreshWellFormed();
      RunKeepsWellFormed(env, if B.Present(n.st, t.ev.c) then n.st.sessions[c].d else FRESH, [u]);
    }
  }

  lemma {:induction false} StepKeepsLoopInv(env: Env, n: R.Node, t: R.TimedEvent)
    requires LoopInv(env, n) && R.Enabled(env, n, t)
    ensures LoopInv(env, R.NextNode(env, n, t))
  {
    var st' := R.NextState(env, n, t);
    forall c | c in st'.sessions ensures WellFormed(st'.sessions[c].d) && LoopFree(c, st'.sessions[c]) {
      if Reopened(env, n.st, t.ev) == Some(c) { OpenedFree(env, n, t, c); } else { StepFree(env, n, t, c); }
    }
  }

  lemma {:induction false} PlayKeepsLoopInv(env: Env, n: R.Node, run: seq<R.TimedEvent>)
    requires LoopInv(env, n)
    ensures LoopInv(env, R.Play(env, n, run))
    decreases |run|
  {
    if run != [] {
      if R.Enabled(env, n, run[0]) { StepKeepsLoopInv(env, n, run[0]); }
      PlayKeepsLoopInv(env, R.Step(env, n, run[0]), run[1..]);
    }
  }

  lemma {:induction false} BootedLoopInv(env: Env, n: R.Node)
    requires R.Booted(n)
    ensures LoopInv(env, n)
  {
    FreshWellFormed();
    forall c | c in n.st.sessions ensures n.st.sessions[c].d
        == FRESH && !B.Reserved(c) { assert R.RestoredSession(n.st.sessions[c]); }
  }

  // In every run, nothing routed on behalf of a bridge is in that bridge's own
  // channel, queue or in-flight tables; its session is never a client's.
  lemma {:induction false} BridgeNeverHearsItself(env: Env, n: R.Node, run: seq<R.TimedEvent>, bridge: string)
    requires R.Booted(n) && B.Reserved(bridge) && bridge in R.Play(env, n, run).st.sessions
    ensures var m := R.Play(env, n, run);
      && NoLocalOnly(m.st.sessions[bridge].subs)
      && Clean(m.st.sessions[bridge].d, bridge)
      && (forall epoch :: (bridge, epoch) !in m.conns)
  {
    BootedLoopInv(env, n);
    PlayKeepsLoopInv(env, n, run);
    var m := R.Play(env, n, run);
    assert LoopFree(bridge, m.st.sessions[bridge]);
  }

  lemma {:induction false} Unreached(env: Env, now: nat, pub: Publication, f: Fanout, plan: seq<Target>, c: string)
    requires c in f.sessions && forall t :: t in plan ==> t.client != c
    ensures var f' := DeliverAll(env, now, pub, f, plan);
      c in f'.sessions && f'.sessions[c] == f.sessions[c]
  {
    if plan != [] {
      assert plan == plan[..|plan| - 1] + [plan[|plan| - 1]];
      Unreached(env, now, pub, f, plan[..|plan| - 1], c);
    }
  }

  // The injection step itself leaves the injecting bridge's session as it was.
  lemma {:induction false} InjectionSkipsItsBridge(env: Env, n: R.Node, run: seq<R.TimedEvent>, t: R.TimedEvent)
    requires R.Booted(n) && t.ev.InjectMessage? && t.ev.client in R.Play(env, n, run).st.sessions
    ensures var m := R.Play(env, n, run);
      t.ev.client in R.Step(env, m, t).st.sessions
      && R.Step(env, m, t).st.sessions[t.ev.client] == m.st.sessions[t.ev.client]
  {
    var m, b := R.Play(env, n, run), t.ev.client;
    if R.Enabled(env, m, t) {
      BridgeNeverHearsItself(env, n, run, b);
      RouteSkips(env, t.now, B.Retain(m.st, t.ev.m), Publication(t.ev.m, Some(b)), t.ev.order, b);
    }
  }

  lemma {:induction false} RouteSkips(env: Env, now: nat, st: B.State, pub: Publication, o: RouteOrder, b: string)
    requires B.ValidFor(env, st, pub, o) && b in st.sessions && pub.publisher == Some(b)
    requires NoLocalOnly(st.sessions[b].subs)
    ensures var st' := B.RouteIn(env, now, st, pub, o); b in st'.sessions && st'.sessions[b] == st.sessions[b]
  {
    var plan := Plan(env, pub, st.sessions, st.rr, o);
    forall x | x in plan ensures x.client != b { NotTargeted(env, pub, st.sessions, st.rr, o, x); }
    Unreached(env, now, pub, Fanout(st.sessions, 0), plan, b);
  }
}
