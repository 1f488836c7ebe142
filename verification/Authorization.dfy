// Authorisation across policy reloads: the swap of the policy and the pass
// that revokes subscriptions are two steps, and CONNECT, SUBSCRIBE and
// everything else may run between them.

module Authorization {
  import opened Types
  import opened Delivery
  import opened Router
  import opened Broker
  import opened BrokerRuns
  import SessionRuns

  ghost predicate AllAllowed(env: Env, acl: Acl, who: string, subs: seq<Subscription>) {
    forall i :: 0 <= i < |subs| ==> CanSubscribe(env, acl, who, subs[i].filter)
  }

  ghost predicate Authorised(env: Env, acl: Acl, s: Session) {
    AllAllowed(env, acl, Who(s.identity), s.subs)
  }

  // -------------------------------------------------------------------------
  // Lists of subscriptions
  // -------------------------------------------------------------------------

  lemma {:induction false} AllowedIsAllowed(env: Env, acl: Acl, who: string, subs: seq<Subscription>)
    ensures AllAllowed(env, acl, who, Allowed(env, acl, who, subs))
    ensures forall other :: AllAllowed(env, other, who, subs) ==> AllAllowed(env, other, who,
          Allowed(env, acl, who, subs))
  {
    if subs != [] {
      AllowedIsAllowed(env, acl, who, subs[1..]);
      forall other | AllAllowed(env, other, who, subs)
        ensures AllAllowed(env, other, who, Allowed(env, acl, who, subs))
      {
        assert forall i :: 0 <= i < |subs[1..]| ==> subs[1..][i] == subs[i + 1];
        assert AllAllowed(env, other, who, subs[1..]);
      }
    }
  }

  lemma {:induction false} UpsertAllowed(env: Env, acl: Acl, who: string, subs: seq<Subscription>, sub: Subscription)
    requires AllAllowed(env, acl, who, subs) && CanSubscribe(env, acl, who, sub.filter)
    ensures AllAllowed(env, acl, who, Upsert(subs, sub))
  {
    if subs != [] && !SameKey(subs[0], sub.filter, sub.share) {
      assert forall i :: 0 <= i < |subs[1..]| ==> subs[1..][i] == subs[i + 1];
      UpsertAllowed(env, acl, who, subs[1..], sub);
    }
  }

  lemma {:induction false} WithoutAllowed(env: Env, acl: Acl, who: string, subs: seq<Subscription>, filter: string,
                                          share: Option<string>)
    requires AllAllowed(env, acl, who, subs)
    ensures AllAllowed(env, acl, who, Without(subs, filter, share))
  {
    if subs != [] {
      assert forall i :: 0 <= i < |subs[1..]| ==> subs[1..][i] == subs[i + 1];
      WithoutAllowed(env, acl, who, subs[1..], filter, share);
    }
  }

  lemma {:induction false} SubscribeAllowed(env: Env, now: nat, cx: SubContext, acc: SubAcc, filters: seq<SubFilter>)
    requires AllAllowed(env, cx.acl, cx.who, acc.subs)
    ensures AllAllowed(env, cx.acl, cx.who, SubscribeAll(env, now, cx, acc, filters).subs)
  {
    if filters != [] {
      var n := |filters| - 1;
      SubscribeAllowed(env, now, cx, acc, filters[..n]);
      var mid, f := SubscribeAll(env, now, cx, acc, filters[..n]), filters[n];
      if Judge(env, cx, f.raw).Good? {
        UpsertAllowed(env, cx.acl, cx.who, mid.subs, NewSubscription(env, cx, f, Judge(env, cx, f.raw).parsed));
      }
    }
  }

  lemma {:induction false} UnsubscribeAllowed(env: Env, acl: Acl, cx: SubContext, acc: SubAcc, filters: seq<string>)
    requires AllAllowed(env, acl, cx.who, acc.subs)
    ensures AllAllowed(env, acl, cx.who, UnsubscribeAll(env, cx, acc, filters).subs)
  {
    if filters != [] {
      var n := |filters| - 1;
      UnsubscribeAllowed(env, acl, cx, acc, filters[..n]);
      var mid, raw := UnsubscribeAll(env, cx, acc, filters[..n]), filters[n];
      var parsed := env.parseFilter(raw);
      WithoutAllowed(env, acl, cx.who, mid.subs,
                     if parsed.Some? then parsed.value.filter else raw,
                     if parsed.Some? then parsed.value.share else None);
    }
  }

  // -------------------------------------------------------------------------
  // One step
  // -------------------------------------------------------------------------

  // A session of the step's outcome is authorised if it was before, or the
  // step itself authorised it. `connected` is the client a CONNECT bound.
  ghost predicate KeepsAuthorised(env: Env, acl: Acl, st: State, st': State, connected: Option<string>) {
    forall c :: c in st'.sessions && !Reserved(c) ==>
      if connected == Some(c) then Authorised(env, acl, st'.sessions[c])
      else c in st.sessions
           && (Online(st'.sessions[c].d) ==> Online(st.sessions[c].d))
           && (Authorised(env, acl, st.sessions[c]) ==> Authorised(env, acl, st'.sessions[c]))
  }

  ghost function Bound(env: Env, st: State, ev: Event): Option<string> {
    if ev.Connect? && Acceptable(env, st, ev.c) then Some(ev.c.client) else None
  }

  lemma {:induction false} ConnectAuthorises(env: Env, now: nat, st: State, c: ConnectRequest)
    requires ConnectReady(env, st, c) && Acceptable(env, st, c)
    ensures Authorised(env, st.acl, HandleConnect(env, now, st, c).sessions[c.client])
  {
    AllowedIsAllowed(env, st.acl, Who(c.identity), BoundSession(env, st, c).subs);
  }

  lemma {:induction false} QuietAuthorised(env: Env, acl: Acl, st: State, st': State)
    requires Quiet(st, st')
    ensures KeepsAuthorised(env, acl, st, st', None)
  {
    forall c | c in st'.sessions ensures c in st.sessions && SameControl(st.sessions[c], st'.sessions[c]) {}
  }

  lemma {:induction false} PruneAuthorised(env: Env, acl: Acl, s: Session)
    ensures Authorised(env, acl, Pruned(env, acl, s))
    ensures forall other :: Authorised(env, other, s) ==> Authorised(env, other, Pruned(env, acl, s))
    ensures Online(Pruned(env, acl, s).d) == Online(s.d)
  {
    AllowedIsAllowed(env, acl, Who(s.identity), s.subs);
  }

  lemma {:induction false} RevokeAuthorised(env: Env, st: State, acl: Acl, order: seq<string>)
    ensures KeepsAuthorised(env, st.acl, st, Revoke(env, st, acl, order), None)
    ensures forall c :: c in Revoke(env, st, acl, order).sessions ==> Authorised(env, acl,
          Revoke(env, st, acl, order).sessions[c])
  {
    forall c | c in st.sessions
      ensures acl.enforced ==> Authorised(env, acl, Pruned(env, acl, st.sessions[c]))
      ensures Authorised(env, st.acl, st.sessions[c]) ==> Authorised(env, st.acl, Pruned(env, acl, st.sessions[c]))
      ensures Online(Pruned(env, acl, st.sessions[c]).d) == Online(st.sessions[c].d)
    {
      PruneAuthorised(env, acl, st.sessions[c]);
    }
  }

  lemma {:induction false} GiveAllKeepsLink(env: Env, now: nat, d: Outbound, ps: seq<Pending>)
    ensures Online(SessionRuns.GiveAll(env, now, d, ps).d) == Online(d)
    decreases |ps|
  {
    if ps != [] {
      DeliverKeepsLink(env, now, d, ps[0]);
      GiveAllKeepsLink(env, now, Deliver(env, now, d, ps[0]).d, ps[1..]);
    }
  }

  lemma {:induction false} SubscribeAuthorises(env: Env, now: nat, st: State, client: string, epoch: nat, i: Inbound)
    requires i.InSubscribe?
    ensures KeepsAuthorised(env, st.acl, st, HandleInbound(env, now, st, client, epoch, i), None)
  {
    if Current(st, client, epoch) {
      var s := st.sessions[client];
      var cx := ContextOf(st, client, i.subId, i.topics);
      var acc := SubscribeAll(env, now, cx, SubAcc(s.subs, [], [], []), i.filters);
      if Authorised(env, st.acl, s) { SubscribeAllowed(env, now, cx, SubAcc(s.subs, [], [], []), i.filters); }
      GiveAllKeepsLink(env, now, Notify(s.d, Control(Suback(i.packetId, acc.codes))), acc.sends);
    }
  }

  lemma {:induction false} UnsubscribeAuthorises(env: Env, now: nat, st: State, client: string, epoch: nat, i: Inbound)
    requires i.InUnsubscribe?
    ensures KeepsAuthorised(env, st.acl, st, HandleInbound(env, now, st, client, epoch, i), None)
  {
    if Current(st, client, epoch) {
      var s := st.sessions[client];
      if Authorised(env, st.acl, s) {
        UnsubscribeAllowed(env, st.acl, ContextOf(st, client, None, []), SubAcc(s.subs, [], [], []), i.names);
      }
    }
  }

  lemma {:induction false} StepAuthorises(env: Env, n: Node, t: TimedEvent)
    requires Enabled(env, n, t)
    ensures KeepsAuthorised(env, n.st.acl, n.st, NextState(env, n, t), Bound(env, n.st, t.ev))
  {
    if Moves(t.ev) {
      MovesAreQuiet(env, n, t);
      QuietAuthorised(env, n.st.acl, n.st, NextState(env, n, t));
    } else {
      match t.ev
      case Connect(c) => if Acceptable(env, n.st, c) { ConnectAuthorises(env, t.now, n.st, c); }
      case Packet(client, epoch, i) =>
        if i.InSubscribe? { SubscribeAuthorises(env, t.now, n.st, client, epoch, i); }
        else { UnsubscribeAuthorises(env, t.now, n.st, client, epoch, i); }
      case RevokePass(acl, clients) => RevokeAuthorised(env, n.st, acl, clients);
      case _ =>
    }
  }

  // -------------------------------------------------------------------------
  // Runs
  // -------------------------------------------------------------------------

  ghost predicate OnlineAuthorised(env: Env, st: State) {
    forall c :: c in st.sessions && !Reserved(c) && Online(st.sessions[c].d) ==> Authorised(env, st.acl, st.sessions[c])
  }

  ghost predicate AllAuthorised(env: Env, st: State) {
    forall c :: c in st.sessions && !Reserved(c) ==> Authorised(env, st.acl, st.sessions[c])
  }

  ghost predicate AuthInv(env: Env, n: Node) {
    n.st.acl in n.outstanding || OnlineAuthorised(env, n.st)
  }

  lemma {:induction false} StepKeepsPolicy(env: Env, n: Node, t: TimedEvent)
    requires Enabled(env, n, t) && !t.ev.SwapAcl?
    ensures NextState(env, n, t).acl == n.st.acl
  {
    if Moves(t.ev) { MovesAreQuiet(env, n, t); }
  }

  lemma {:induction false} StepKeepsAuthInv(env: Env, n: Node, t: TimedEvent)
    requires AuthInv(env, n) && Enabled(env, n, t)
    ensures AuthInv(env, NextNode(env, n, t))
  {
    if !t.ev.SwapAcl? {
      StepKeepsPolicy(env, n, t);
      StepAuthorises(env, n, t);
      if t.ev.RevokePass? { RevokeAuthorised(env, n.st, t.ev.acl, t.ev.clients); }
    }
  }

  lemma {:induction false} PlayKeepsAuthInv(env: Env, n: Node, run: seq<TimedEvent>)
    requires AuthInv(env, n)
    ensures AuthInv(env, Play(env, n, run))
    decreases |run|
  {
    if run != [] {
      if Enabled(env, n, run[0]) { StepKeepsAuthInv(env, n, run[0]); }
      PlayKeepsAuthInv(env, Step(env, n, run[0]), run[1..]);
    }
  }

  // In every run from a start, every subscription of an online client is
  // allowed by the current policy, or that policy's revoke pass is pending.
  lemma {:induction false} OnlineAlwaysAuthorised(env: Env, n: Node, run: seq<TimedEvent>)
    requires Booted(n)
    ensures var m := Play(env, n, run);
      m.st.acl in m.outstanding || OnlineAuthorised(env, m.st)
  {
    forall c | c in n.st.sessions ensures !Online(n.st.sessions[c].d) { assert RestoredSession(n.st.sessions[c]); }
    PlayKeepsAuthInv(env, n, run);
  }

  lemma {:induction false} PlayKeepsAllAuthorised(env: Env, n: Node, run: seq<TimedEvent>)
    requires AllAuthorised(env, n.st) && forall k :: 0 <= k < |run| ==> !run[k].ev.SwapAcl?
    ensures AllAuthorised(env, Play(env, n, run).st)
    decreases |run|
  {
    if run != [] {
      if Enabled(env, n, run[0]) {
        StepKeepsPolicy(env, n, run[0]);
        StepAuthorises(env, n, run[0]);
      }
      PlayKeepsAllAuthorised(env, Step(env, n, run[0]), run[1..]);
    }
  }

  // Once the pass of the current policy has run, offline sessions comply too,
  // until the policy is swapped again.
  lemma {:induction false} PassSettlesEveryone(env: Env, n: Node, pass: TimedEvent, run: seq<TimedEvent>)
    requires Enabled(env, n, pass) && pass.ev.RevokePass? && pass.ev.acl == n.st.acl
    requires forall k :: 0 <= k < |run| ==> !run[k].ev.SwapAcl?
    ensures AllAuthorised(env, Play(env, Step(env, n, pass), run).st)
  {
    RevokeAuthorised(env, n.st, pass.ev.acl, pass.ev.clients);
    PlayKeepsAllAuthorised(env, Step(env, n, pass), run);
  }
}
