// Routing: which sessions a message goes to, and how one member of each
// shared group is chosen.

module Router {
  import opened Types
  import opened Delivery

  datatype Subscription = Subscription(
    filter: string,
    share: Option<string>,
    qos: QoS,
    noLocal: bool,
    retainAsPublished: bool,
    subId: Option<nat>)

  datatype Will = Will(message: Message, delay: nat)

  datatype Session = Session(
    identity: Option<string>,
    epoch: nat,
    subs: seq<Subscription>,
    persistent: bool,
    expiry: nat,
    will: Option<Will>,
    inboundQos2: set<nat>,
    aliases: map<nat, string>,
    d: Outbound)

  type Group = (string, string)

  /** One delivery the router decided on. */
  datatype Target = Target(client: string, qos: QoS, retain: bool, subIds: seq<nat>)

  /** A publication being routed: the message and the client it comes from. */
  datatype Publication = Publication(message: Message, publisher: Option<string>)

  predicate Eligible(env: Env, pub: Publication, client: string, sub: Subscription) {
    env.matches(sub.filter, pub.message.topic) && !(sub.noLocal && pub.publisher == Some(client))
  }

  function IdsOf(sub: Subscription): seq<nat> {
    if sub.subId.Some? then [sub.subId.value] else []
  }

  // The best grant among the ordinary subscriptions scanned so far.
  datatype Best = Best(qos: Option<QoS>, subIds: seq<nat>, retain: bool)

  function Improve(env: Env, pub: Publication, client: string, sub: Subscription, b: Best): Best {
    if !Eligible(env, pub, client, sub) || sub.share.Some? then b
    else
      var eff := MinQoS(pub.message.qos, sub.qos);
      Best(Some(if b.qos.Some? && Rank(b.qos.value) >= Rank(eff) then b.qos.value else eff),
           b.subIds + IdsOf(sub),
           b.retain || sub.retainAsPublished)
  }

  function BestOf(env: Env, pub: Publication, client: string, subs: seq<Subscription>): Best
  {
    if subs == [] then Best(None, [], false)
    else Improve(env, pub, client, subs[|subs| - 1], BestOf(env, pub, client, subs[..|subs| - 1]))
  }

  function OrdinaryTarget(env: Env, pub: Publication, client: string, subs: seq<Subscription>): seq<Target> {
    var b := BestOf(env, pub, client, subs);
    if b.qos.None? then []
    else [Target(client, b.qos.value, b.retain && pub.message.retain, b.subIds)]
  }

  function OrdinaryPlan(env: Env, pub: Publication, sessions: map<string, Session>, order: seq<string>): seq<Target>
    requires forall c :: c in order ==> c in sessions
  {
    if order == [] then []
    else
      var last := order[|order| - 1];
      OrdinaryPlan(env, pub, sessions, order[..|order| - 1])
      + OrdinaryTarget(env, pub, last, sessions[last].subs)
  }

  predicate InGroup(env: Env, pub: Publication, client: string, sub: Subscription, g: Group) {
    Eligible(env, pub, client, sub) && sub.share == Some(g.0) && sub.filter == g.1
  }

  function SharedTarget(pub: Publication, client: string, sub: Subscription): Target {
    Target(client, MinQoS(pub.message.qos, sub.qos),
           sub.retainAsPublished && pub.message.retain, IdsOf(sub))
  }

  // The candidates of group `g` among one session's subscriptions.
  function CandidatesOf(env: Env, pub: Publication, client: string, subs: seq<Subscription>, g: Group): seq<Target> {
    if subs == [] then []
    else
      var last := subs[|subs| - 1];
      CandidatesOf(env, pub, client, subs[..|subs| - 1], g)
      + if InGroup(env, pub, client, last, g) then [SharedTarget(pub, client, last)] else []
  }

  function Candidates(env: Env, pub: Publication, sessions: map<string, Session>, order: seq<string>,
                      g: Group): seq<Target>
    requires forall c :: c in order ==> c in sessions
  {
    if order == [] then []
    else
      var last := order[|order| - 1];
      Candidates(env, pub, sessions, order[..|order| - 1], g)
      + CandidatesOf(env, pub, last, sessions[last].subs, g)
  }

  // The shared groups with an eligible member.
  ghost function Groups(env: Env, pub: Publication, sessions: map<string, Session>): set<Group> {
    set c, i | c in sessions && 0 <= i < |sessions[c].subs|
               && Wants(env, pub, c, sessions[c].subs[i]) && sessions[c].subs[i].share.Some?
      :: (sessions[c].subs[i].share.value, sessions[c].subs[i].filter)
  }

  const WORD: nat := 0x1_0000_0000_0000_0000

  function Cursor(rr: map<Group, nat>, g: Group): nat {
    if g in rr then rr[g] else 0
  }

  function Pick(cands: seq<Target>, cursor: nat): Target
    requires cands != []
  {
    cands[cursor % |cands|]
  }

  function Bump(rr: map<Group, nat>, g: Group): map<Group, nat> {
    rr[g := (Cursor(rr, g) + 1) % WORD]
  }

  /** Iteration orders of the session table and of the table of groups. */
  datatype RouteOrder = RouteOrder(clients: seq<string>, groups: seq<Group>)

  ghost predicate ValidRoute(env: Env, pub: Publication, sessions: map<string, Session>, o: RouteOrder) {
    Enumerates(o.clients, sessions.Keys) && Enumerates(o.groups, Groups(env, pub, sessions))
  }

  // One member of every listed group, each group with its own cursor.
  function SharedPlan(env: Env, pub: Publication, sessions: map<string, Session>, order: seq<string>,
                      rr: map<Group, nat>, groups: seq<Group>): seq<Target>
    requires forall c :: c in order ==> c in sessions
  {
    if groups == [] then []
    else
      var g := groups[|groups| - 1];
      var cands := Candidates(env, pub, sessions, order, g);
      SharedPlan(env, pub, sessions, order, rr, groups[..|groups| - 1])
      + if cands == [] then [] else [Pick(cands, Cursor(rr, g))]
  }

  function BumpAll(rr: map<Group, nat>, groups: seq<Group>): map<Group, nat> {
    if groups == [] then rr else Bump(BumpAll(rr, groups[..|groups| - 1]), groups[|groups| - 1])
  }

  function PendingFor(pub: Publication, t: Target): Pending {
    Pending(pub.message, t.qos, t.retain, t.subIds, Label(0, pub.publisher))
  }

  datatype Fanout = Fanout(sessions: map<string, Session>, dropped: nat)

  ghost function DeliverTo(env: Env, now: nat, pub: Publication, f: Fanout, t: Target): Fanout {
    if t.client !in f.sessions then f
    else
      var s := f.sessions[t.client];
      var r := Deliver(env, now, s.d, PendingFor(pub, t));
      Fanout(f.sessions[t.client := s.(d := r.d)], f.dropped + if r.dropped then 1 else 0)
  }

  ghost function DeliverAll(env: Env, now: nat, pub: Publication, f: Fanout, plan: seq<Target>): Fanout {
    if plan == [] then f
    else DeliverTo(env, now, pub, DeliverAll(env, now, pub, f, plan[..|plan| - 1]), plan[|plan| - 1])
  }

  function Plan(env: Env, pub: Publication, sessions: map<string, Session>, rr: map<Group, nat>,
                o: RouteOrder): seq<Target>
    requires forall c :: c in o.clients ==> c in sessions
  {
    OrdinaryPlan(env, pub, sessions, o.clients) + SharedPlan(env, pub, sessions, o.clients, rr, o.groups)
  }

  datatype Routed = Routed(sessions: map<string, Session>, rr: map<Group, nat>, delivered: nat, dropped: nat)

  ghost function Route(env: Env, now: nat, pub: Publication, sessions: map<string, Session>, rr: map<Group, nat>,
                       o: RouteOrder): Routed
    requires ValidRoute(env, pub, sessions, o)
  {
    if IsExpired(pub.message, now) then Routed(sessions, rr, 0, 0)
    else
      var plan := Plan(env, pub, sessions, rr, o);
      var f := DeliverAll(env, now, pub, Fanout(sessions, 0), plan);
      Routed(f.sessions, BumpAll(rr, o.groups), |plan|, f.dropped)
  }

  // -------------------------------------------------------------------------
  // What the plan is, without reference to how it is computed
  // -------------------------------------------------------------------------

  // The subscription wants the message: it matches, and No Local keeps away only
  // the client's own messages.
  ghost predicate Wants(env: Env, pub: Publication, client: string, sub: Subscription) {
    env.matches(sub.filter, pub.message.topic) && (sub.noLocal ==> pub.publisher != Some(client))
  }

  ghost predicate Grants(env: Env, pub: Publication, client: string, sub: Subscription) {
    Wants(env, pub, client, sub) && sub.share.None?
  }

  ghost predicate WantsFor(env: Env, pub: Publication, client: string, sub: Subscription, g: Group) {
    Wants(env, pub, client, sub) && sub.share == Some(g.0) && sub.filter == g.1
  }

  // The identifiers of the granting subscriptions, in list order.
  function GrantIds(env: Env, pub: Publication, client: string, subs: seq<Subscription>): seq<nat>
  {
    if subs == [] then []
    else (if env.matches(subs[0].filter, pub.message.topic) && !(subs[0].noLocal && pub.publisher == Some(client))
             && subs[0].share.None? && subs[0].subId.Some? then [subs[0].subId.value] else [])
         + GrantIds(env, pub, client, subs[1..])
  }

  /** The level is no more than the message's and than some matching
      subscription's, and no matching subscription could be given more. */
  ghost predicate BestLevel(env: Env, pub: Publication, client: string, subs: seq<Subscription>, q: QoS) {
    && Rank(q) <= Rank(pub.message.qos)
    && (exists i :: 0 <= i < |subs| && Grants(env, pub, client, subs[i]) && Rank(q) <= Rank(subs[i].qos))
    && (forall i :: 0 <= i < |subs| && Grants(env, pub, client, subs[i])
                    ==> Rank(pub.message.qos) <= Rank(q) || Rank(subs[i].qos) <= Rank(q))
  }

  /** `t` is the one ordinary delivery a session with these subscriptions is
      due: at the best level, with every matching identifier, RETAIN only as
      published. */
  ghost predicate IsDue(env: Env, pub: Publication, subs: seq<Subscription>, t: Target) {
    && BestLevel(env, pub, t.client, subs, t.qos)
    && t.subIds == GrantIds(env, pub, t.client, subs)
    && t.retain == (pub.message.retain
                    && exists i :: 0 <= i < |subs| && Grants(env, pub, t.client, subs[i]) && subs[i].retainAsPublished)
  }

  lemma {:induction false} GrantIdsSnoc(env: Env, pub: Publication, client: string, subs: seq<Subscription>)
    requires subs != []
    ensures var n := |subs| - 1;
      GrantIds(env, pub, client, subs) == GrantIds(env, pub, client, subs[..n])
        + if Grants(env, pub, client, subs[n]) && subs[n].subId.Some? then [subs[n].subId.value] else []
  {
    var n := |subs| - 1;
    if n > 0 {
      GrantIdsSnoc(env, pub, client, subs[1..]);
      assert subs[1..][..n - 1] == subs[..n][1..];
      assert subs[..n][0] == subs[0];
    }
  }

  lemma {:induction false} BestIsDue(env: Env, pub: Publication, client: string, subs: seq<Subscription>)
    ensures var b := BestOf(env, pub, client, subs);
      && (b.qos.None? <==> forall i :: 0 <= i < |subs| ==> !Grants(env, pub, client, subs[i]))
      && b.subIds == GrantIds(env, pub, client, subs)
      && (b.qos.Some? ==> BestLevel(env, pub, client, subs, b.qos.value))
      && (b.retain <==> exists i :: 0 <= i < |subs| && Grants(env, pub, client, subs[i]) && subs[i].retainAsPublished)
  {
    BestQoS(env, pub, client, subs);
    BestIds(env, pub, client, subs);
    BestRetain(env, pub, client, subs);
  }

  lemma {:induction false} BestQoS(env: Env, pub: Publication, client: string, subs: seq<Subscription>)
    ensures var b := BestOf(env, pub, client, subs);
      && (b.qos.None? <==> forall i :: 0 <= i < |subs| ==> !Grants(env, pub, client, subs[i]))
      && (b.qos.Some? ==> BestLevel(env, pub, client, subs, b.qos.value))
  {
    if subs != [] {
      var n := |subs| - 1;
      BestQoS(env, pub, client, subs[..n]);
      assert forall i :: 0 <= i < n ==> subs[..n][i] == subs[i];
      assert Grants(env, pub, client, subs[n]) || !Grants(env, pub, client, subs[n]);
    }
  }

  lemma {:induction false} BestIds(env: Env, pub: Publication, client: string, subs: seq<Subscription>)
    ensures BestOf(env, pub, client, subs).subIds == GrantIds(env, pub, client, subs)
  {
    if subs != [] {
      BestIds(env, pub, client, subs[..|subs| - 1]);
      GrantIdsSnoc(env, pub, client, subs);
    }
  }

  lemma {:induction false} BestRetain(env: Env, pub: Publication, client: string, subs: seq<Subscription>)
    ensures BestOf(env, pub, client, subs).retain
      <==> exists i :: 0 <= i < |subs| && Grants(env, pub, client, subs[i]) && subs[i].retainAsPublished
  {
    if subs != [] {
      var n := |subs| - 1;
      BestRetain(env, pub, client, subs[..n]);
      assert forall i :: 0 <= i < n ==> subs[..n][i] == subs[i];
      assert Grants(env, pub, client, subs[n]) || !Grants(env, pub, client, subs[n]);
    }
  }

  ghost predicate HasGrant(env: Env, pub: Publication, client: string, subs: seq<Subscription>) {
    exists i :: 0 <= i < |subs| && Grants(env, pub, client, subs[i])
  }

  lemma {:induction false} TargetIsDue(env: Env, pub: Publication, client: string, subs: seq<Subscription>)
    ensures var ts := OrdinaryTarget(env, pub, client, subs);
      && |ts| == (if HasGrant(env, pub, client, subs) then 1 else 0)
      && (ts != [] ==> ts[0].client == client && IsDue(env, pub, subs, ts[0]))
  {
    BestIsDue(env, pub, client, subs);
  }

  ghost predicate IsDueIn(env: Env, pub: Publication, sessions: map<string, Session>, t: Target) {
    t.client in sessions && IsDue(env, pub, sessions[t.client].subs, t)
  }

  ghost predicate OnePerClient(order: seq<string>, plan: seq<Target>) {
    && (forall j, k :: 0 <= j < k < |plan| ==> plan[j].client != plan[k].client)
    && (forall j :: 0 <= j < |plan| ==> plan[j].client in order)
  }

  ghost predicate PlanCovers(env: Env, pub: Publication, sessions: map<string, Session>, order: seq<string>,
                             plan: seq<Target>) {
    && OnePerClient(order, plan)
    && (forall t :: t in plan ==> IsDueIn(env, pub, sessions, t))
    && (forall c :: c in order && c in sessions && HasGrant(env, pub, c, sessions[c].subs) ==>
          exists t :: t in plan && t.client == c)
  }

  ghost predicate Distinct(order: seq<string>) {
    forall i, j :: 0 <= i < j < |order| ==> order[i] != order[j]
  }

  // Exactly one ordinary delivery per session with a match, and the right one.
  lemma {:induction false} OrdinaryPlanCovers(env: Env, pub: Publication, sessions: map<string, Session>,
                                              order: seq<string>)
    requires Distinct(order) && forall c :: c in order ==> c in sessions
    ensures PlanCovers(env, pub, sessions, order, OrdinaryPlan(env, pub, sessions, order))
  {
    if order != [] {
      var n := |order| - 1;
      var less, last := order[..n], order[n];
      OrdinaryPlanCovers(env, pub, sessions, less);
      TargetIsDue(env, pub, last, sessions[last].subs);
      CoversSnoc(env, pub, sessions, order, OrdinaryPlan(env, pub, sessions, less),
                 OrdinaryTarget(env, pub, last, sessions[last].subs));
    }
  }

  lemma {:induction false} CoversSnoc(env: Env, pub: Publication, sessions: map<string, Session>, order: seq<string>,
                                      plan: seq<Target>, ts: seq<Target>)
    requires order != [] && Distinct(order) && forall c :: c in order ==> c in sessions
    requires PlanCovers(env, pub, sessions, order[..|order| - 1], plan)
    requires var last := order[|order| - 1];
      && |ts| == (if HasGrant(env, pub, last, sessions[last].subs) then 1 else 0)
      && (ts != [] ==> ts[0].client == last && IsDueIn(env, pub, sessions, ts[0]))
    ensures PlanCovers(env, pub, sessions, order, plan + ts)
  {
    var n := |order| - 1;
    OnePerClientSnoc(order, plan, ts);
    assert order == order[..n] + [order[n]];
    forall t | t in plan + ts ensures IsDueIn(env, pub, sessions, t) {
      if t !in plan { assert t == ts[0]; }
    }
    forall c | c in order && HasGrant(env, pub, c, sessions[c].subs)
      ensures exists t :: t in plan + ts && t.client == c
    {
      if c == order[n] {
        assert ts[0] in plan + ts;
      } else {
        CoveredBefore(env, pub, sessions, order[..n], plan, c);
        var t :| t in plan && t.client == c;
        assert t in plan + ts;
      }
    }
  }

  lemma {:induction false} CoveredBefore(env: Env, pub: Publication, sessions: map<string, Session>,
                                         order: seq<string>, plan: seq<Target>, c: string)
    requires PlanCovers(env, pub, sessions, order, plan) && c in order && c in sessions
    requires HasGrant(env, pub, c, sessions[c].subs)
    ensures exists t :: t in plan && t.client == c
  {
  }

  lemma {:induction false} OnePerClientSnoc(order: seq<string>, plan: seq<Target>, ts: seq<Target>)
    requires order != [] && Distinct(order) && OnePerClient(order[..|order| - 1], plan)
    requires |ts| <= 1 && (ts != [] ==> ts[0].client == order[|order| - 1])
    ensures OnePerClient(order, plan + ts)
  {
    var n := |order| - 1;
    var all := plan + ts;
    assert order == order[..n] + [order[n]];
    forall j, k | 0 <= j < k < |all| ensures all[j].client != all[k].client {
      assert all[j] == plan[j] && plan[j].client in order[..n];
    }
  }

  // -------------------------------------------------------------------------
  // The outcome of the ordinary pass does not depend on the iteration order
  // -------------------------------------------------------------------------

  ghost function Due(env: Env, pub: Publication, client: string, s: Session): Pending
    requires HasGrant(env, pub, client, s.subs)
  {
    TargetIsDue(env, pub, client, s.subs);
    PendingFor(pub, OrdinaryTarget(env, pub, client, s.subs)[0])
  }

  // What the ordinary pass does to one session, wherever it stands in the order.
  ghost function AfterOrdinary(env: Env, now: nat, pub: Publication, client: string, s: Session): Session {
    if HasGrant(env, pub, client, s.subs)
    then s.(d := Deliver(env, now, s.d, Due(env, pub, client, s)).d) else s
  }

  ghost predicate DropsFor(env: Env, now: nat, pub: Publication, client: string, s: Session) {
    HasGrant(env, pub, client, s.subs) && Deliver(env, now, s.d, Due(env, pub, client, s)).dropped
  }

  ghost function Droppers(env: Env, now: nat, pub: Publication, sessions: map<string, Session>): set<string> {
    set c | c in sessions && DropsFor(env, now, pub, c, sessions[c])
  }

  ghost function Grantees(env: Env, pub: Publication, sessions: map<string, Session>): set<string> {
    set c | c in sessions && HasGrant(env, pub, c, sessions[c].subs)
  }

  ghost function Among(order: seq<string>, s: set<string>): set<string> {
    set c | c in order && c in s
  }

  lemma {:induction false} AmongSnoc(order: seq<string>, s: set<string>)
    requires order != [] && Distinct(order)
    ensures var n := |order| - 1;
      |Among(order, s)| == |Among(order[..n], s)| + if order[n] in s then 1 else 0
  {
    var n := |order| - 1;
    assert order == order[..n] + [order[n]];
    assert Among(order, s) == Among(order[..n], s) + if order[n] in s then {order[n]} else {};
  }

  lemma {:induction false} DeliverAllConcat(env: Env, now: nat, pub: Publication, f: Fanout, a: seq<Target>,
                                            b: seq<Target>)
    ensures DeliverAll(env, now, pub, f, a + b) == DeliverAll(env, now, pub, DeliverAll(env, now, pub, f, a), b)
  {
    if b == [] {
      assert a + b == a;
    } else {
      var n := |b| - 1;
      DeliverAllConcat(env, now, pub, f, a, b[..n]);
      assert (a + b)[..|a + b| - 1] == a + b[..n];
      assert (a + b)[|a + b| - 1] == b[n];
    }
  }

  ghost predicate OrdinaryOutcome(env: Env, now: nat, pub: Publication, sessions: map<string, Session>,
                                  order: seq<string>, f: Fanout, planned: nat) {
    && f.sessions.Keys == sessions.Keys
    && (forall c :: c in sessions && c in order ==> f.sessions[c] == AfterOrdinary(env, now, pub, c, sessions[c]))
    && (forall c :: c in sessions && c !in order ==> f.sessions[c] == sessions[c])
    && f.dropped == |Among(order, Droppers(env, now, pub, sessions))|
    && planned == |Among(order, Grantees(env, pub, sessions))|
  }

  lemma {:induction false} OrdinaryPass(env: Env, now: nat, pub: Publication, sessions: map<string, Session>,
                                        order: seq<string>)
    requires Distinct(order) && forall c :: c in order ==> c in sessions
    ensures var plan := OrdinaryPlan(env, pub, sessions, order);
      OrdinaryOutcome(env, now, pub, sessions, order, DeliverAll(env, now, pub, Fanout(sessions, 0), plan), |plan|)
  {
    if order == [] {
      assert Among(order, Droppers(env, now, pub, sessions)) == {};
      assert Among(order, Grantees(env, pub, sessions)) == {};
    } else {
      var n := |order| - 1;
      var less, last := order[..n], order[n];
      var plan, ts := OrdinaryPlan(env, pub, sessions, less), OrdinaryTarget(env, pub, last, sessions[last].subs);
      OrdinaryPass(env, now, pub, sessions, less);
      DeliverAllConcat(env, now, pub, Fanout(sessions, 0), plan, ts);
      TargetIsDue(env, pub, last, sessions[last].subs);
      OrdinarySnoc(env, now, pub, sessions, order, DeliverAll(env, now, pub, Fanout(sessions, 0), plan), |plan|);
    }
  }

  lemma {:induction false} OrdinarySnoc(env: Env, now: nat, pub: Publication, sessions: map<string, Session>,
                                        order: seq<string>, f: Fanout, planned: nat)
    requires order != [] && Distinct(order) && forall c :: c in order ==> c in sessions
    requires OrdinaryOutcome(env, now, pub, sessions, order[..|order| - 1], f, planned)
    ensures var ts := OrdinaryTarget(env, pub, order[|order| - 1], sessions[order[|order| - 1]].subs);
      OrdinaryOutcome(env, now, pub, sessions, order, DeliverAll(env, now, pub, f, ts), planned + |ts|)
  {
    var n := |order| - 1;
    var less, last := order[..n], order[n];
    assert order == less + [last];
    assert last !in less;
    LastSession(env, now, pub, last, sessions, f);
    AmongSnoc(order, Droppers(env, now, pub, sessions));
    AmongSnoc(order, Grantees(env, pub, sessions));
  }

  // Visiting one more session.
  lemma {:induction false} LastSession(env: Env, now: nat, pub: Publication, last: string, sessions: map<string,
                                       Session>, f: Fanout)
    requires last in sessions && last in f.sessions && f.sessions[last] == sessions[last]
    ensures var ts := OrdinaryTarget(env, pub, last, sessions[last].subs);
      var f' := DeliverAll(env, now, pub, f, ts);
      && f'.sessions == f.sessions[last := AfterOrdinary(env, now, pub, last, sessions[last])]
      && f'.dropped == f.dropped + (if DropsFor(env, now, pub, last, sessions[last]) then 1 else 0)
      && |ts| == if HasGrant(env, pub, last, sessions[last].subs) then 1 else 0
  {
    var ts := OrdinaryTarget(env, pub, last, sessions[last].subs);
    TargetIsDue(env, pub, last, sessions[last].subs);
    if ts != [] { DeliverOne(env, now, pub, f, ts); }
  }

  lemma {:induction false} DeliverOne(env: Env, now: nat, pub: Publication, f: Fanout, ts: seq<Target>)
    requires |ts| == 1
    ensures DeliverAll(env, now, pub, f, ts) == DeliverTo(env, now, pub, f, ts[0])
  {
    assert ts[..|ts| - 1] == [] && DeliverAll(env, now, pub, f, []) == f;
  }

  // Two iteration orders of the session table leave every session the same,
  // and report the same number of deliveries and drops.
  lemma {:induction false} OrdinaryOrderIrrelevant(env: Env, now: nat, pub: Publication, sessions: map<string,
                                                   Session>, o1: seq<string>, o2: seq<string>)
    requires Enumerates(o1, sessions.Keys) && Enumerates(o2, sessions.Keys)
    ensures var p1, p2 := OrdinaryPlan(env, pub, sessions, o1), OrdinaryPlan(env, pub, sessions, o2);
      && |p1| == |p2|
      && DeliverAll(env, now, pub, Fanout(sessions, 0), p1) == DeliverAll(env, now, pub, Fanout(sessions, 0), p2)
  {
    var p1, p2 := OrdinaryPlan(env, pub, sessions, o1), OrdinaryPlan(env, pub, sessions, o2);
    OrdinaryPass(env, now, pub, sessions, o1);
    OrdinaryPass(env, now, pub, sessions, o2);
    SameOutcome(env, now, pub, sessions, o1, o2,
                DeliverAll(env, now, pub, Fanout(sessions, 0), p1), |p1|,
                DeliverAll(env, now, pub, Fanout(sessions, 0), p2), |p2|);
  }

  lemma {:induction false} SameOutcome(env: Env, now: nat, pub: Publication, sessions: map<string, Session>,
                                       o1: seq<string>, o2: seq<string>, f1: Fanout, n1: nat, f2: Fanout, n2: nat)
    requires Enumerates(o1, sessions.Keys) && Enumerates(o2, sessions.Keys)
    requires OrdinaryOutcome(env, now, pub, sessions, o1, f1, n1)
    requires OrdinaryOutcome(env, now, pub, sessions, o2, f2, n2)
    ensures f1 == f2 && n1 == n2
  {
    forall s: set<string> ensures Among(o1, s) == Among(o2, s) {}
    forall c | c in sessions ensures f1.sessions[c] == f2.sessions[c] { assert c in o1 && c in o2; }
    assert f1.sessions == f2.sessions;
  }

  // -------------------------------------------------------------------------
  // Shared groups
  // -------------------------------------------------------------------------

  /** `t` is what a shared subscription is owed: the lower of the two levels, its
      own identifier, RETAIN only as published. */
  ghost predicate IsShare(pub: Publication, sub: Subscription, t: Target) {
    && IsLower(pub.message.qos, sub.qos, t.qos)
    && t.retain == (pub.message.retain && sub.retainAsPublished)
    && t.subIds == (match sub.subId case None => [] case Some(id) => [id])
  }

  // `t` is what group `g` owes through some subscription of a session in `order`.
  ghost predicate IsCandidate(env: Env, pub: Publication, sessions: map<string, Session>, order: seq<string>, g: Group,
                              t: Target) {
    && t.client in order && t.client in sessions
    && exists i :: 0 <= i < |sessions[t.client].subs|
         && WantsFor(env, pub, t.client, sessions[t.client].subs[i], g)
         && IsShare(pub, sessions[t.client].subs[i], t)
  }

  lemma {:induction false} ShareExact(pub: Publication, client: string, sub: Subscription, t: Target)
    ensures t == SharedTarget(pub, client, sub) <==> t.client == client && IsShare(pub, sub, t)
  {
  }

  lemma {:induction false} CandidatesOfExact(env: Env, pub: Publication, client: string, subs: seq<Subscription>,
                                             g: Group, t: Target)
    ensures t in CandidatesOf(env, pub, client, subs, g) <==>
      t.client == client
      && exists i :: 0 <= i < |subs| && WantsFor(env, pub, client, subs[i], g) && IsShare(pub, subs[i], t)
  {
    if subs != [] {
      var n := |subs| - 1;
      CandidatesOfExact(env, pub, client, subs[..n], g, t);
      assert forall i :: 0 <= i < n ==> subs[..n][i] == subs[i];
      ShareExact(pub, client, subs[n], t);
      assert WantsFor(env, pub, client, subs[n], g) <==> InGroup(env, pub, client, subs[n], g);
    }
  }

  // The candidates are exactly the eligible members of the group.
  lemma {:induction false} CandidatesExact(env: Env, pub: Publication, sessions: map<string, Session>,
                                           order: seq<string>, g: Group, t: Target)
    requires forall c :: c in order ==> c in sessions
    ensures t in Candidates(env, pub, sessions, order, g) <==> IsCandidate(env, pub, sessions, order, g, t)
  {
    if order != [] {
      var n := |order| - 1;
      var last := order[n];
      assert order == order[..n] + [last];
      CandidatesExact(env, pub, sessions, order[..n], g, t);
      CandidatesOfExact(env, pub, last, sessions[last].subs, g, t);
    }
  }

  lemma {:induction false} GroupHasCandidate(env: Env, pub: Publication, sessions: map<string, Session>,
                                             order: seq<string>, g: Group)
    requires Enumerates(order, sessions.Keys)
    ensures Candidates(env, pub, sessions, order, g) != [] <==> g in Groups(env, pub, sessions)
  {
    var cands := Candidates(env, pub, sessions, order, g);
    if cands != [] {
      CandidatesExact(env, pub, sessions, order, g, cands[0]);
    }
    if g in Groups(env, pub, sessions) {
      var c, i :| c in sessions && 0 <= i < |sessions[c].subs|
        && Wants(env, pub, c, sessions[c].subs[i]) && sessions[c].subs[i].share.Some?
        && g == (sessions[c].subs[i].share.value, sessions[c].subs[i].filter);
      var t := SharedTarget(pub, c, sessions[c].subs[i]);
      assert c in order;
      CandidatesExact(env, pub, sessions, order, g, t);
    }
  }

  // One delivery per listed group, chosen by that group's own cursor.
  lemma {:induction false} SharedPlanAt(env: Env, pub: Publication, sessions: map<string, Session>, order: seq<string>,
                                        rr: map<Group, nat>, groups: seq<Group>, k: nat)
    requires Enumerates(order, sessions.Keys) && forall g :: g in groups ==> g in Groups(env, pub, sessions)
    ensures |SharedPlan(env, pub, sessions, order, rr, groups)| == |groups|
    ensures k < |groups| ==>
      var cands := Candidates(env, pub, sessions, order, groups[k]);
      cands != [] && SharedPlan(env, pub, sessions, order, rr, groups)[k] == Pick(cands, Cursor(rr, groups[k]))
  {
    if groups != [] {
      var n := |groups| - 1;
      var less, last := groups[..n], groups[n];
      assert last in groups && groups == less + [last];
      GroupHasCandidate(env, pub, sessions, order, last);
      SharedPlanAt(env, pub, sessions, order, rr, less, k);
      var pick := Pick(Candidates(env, pub, sessions, order, last), Cursor(rr, last));
      assert SharedPlan(env, pub, sessions, order, rr, groups) == SharedPlan(env, pub, sessions, order, rr, less)
          + [pick];
      assert k < n ==> groups[k] == less[k];
    }
  }

  // Each listed group's cursor moves by one, no other cursor moves.
  lemma {:induction false} BumpAllAt(rr: map<Group, nat>, groups: seq<Group>, g: Group)
    requires forall i, j :: 0 <= i < j < |groups| ==> groups[i] != groups[j]
    ensures Cursor(BumpAll(rr, groups), g) == if g in groups then (Cursor(rr, g) + 1) % WORD else Cursor(rr, g)
  {
    if groups != [] {
      var n := |groups| - 1;
      assert groups == groups[..n] + [groups[n]];
      BumpAllAt(rr, groups[..n], g);
    }
  }

  ghost predicate AnyEligible(env: Env, pub: Publication, sessions: map<string, Session>) {
    exists c, i :: c in sessions && 0 <= i < |sessions[c].subs| && Wants(env, pub, c, sessions[c].subs[i])
  }

  lemma {:induction false} PlanEmpty(env: Env, pub: Publication, sessions: map<string, Session>, rr: map<Group, nat>,
                                     o: RouteOrder)
    requires ValidRoute(env, pub, sessions, o)
    ensures Plan(env, pub, sessions, rr, o) != [] <==> AnyEligible(env, pub, sessions)
  {
    SharedPlanAt(env, pub, sessions, o.clients, rr, o.groups, 0);
    if OrdinaryPlan(env, pub, sessions, o.clients) != [] { OrdinaryIsEligible(env, pub, sessions, o.clients); }
    if o.groups != [] { assert o.groups[0] in Groups(env, pub, sessions); }
    if AnyEligible(env, pub, sessions) {
      var c, i :| c in sessions && 0 <= i < |sessions[c].subs| && Wants(env, pub, c, sessions[c].subs[i]);
      if sessions[c].subs[i].share.None? {
        GrantIsPlanned(env, pub, sessions, o.clients, c, i);
      } else {
        assert (sessions[c].subs[i].share.value, sessions[c].subs[i].filter) in Groups(env, pub, sessions);
      }
    }
  }

  lemma {:induction false} OrdinaryIsEligible(env: Env, pub: Publication, sessions: map<string, Session>,
                                              order: seq<string>)
    requires Enumerates(order, sessions.Keys) && OrdinaryPlan(env, pub, sessions, order) != []
    ensures AnyEligible(env, pub, sessions)
  {
    OrdinaryPlanCovers(env, pub, sessions, order);
    assert IsDueIn(env, pub, sessions, OrdinaryPlan(env, pub, sessions, order)[0]);
  }

  lemma {:induction false} GrantIsPlanned(env: Env, pub: Publication, sessions: map<string, Session>,
                                          order: seq<string>, c: string, i: nat)
    requires Enumerates(order, sessions.Keys) && c in sessions && i < |sessions[c].subs|
    requires Grants(env, pub, c, sessions[c].subs[i])
    ensures OrdinaryPlan(env, pub, sessions, order) != []
  {
    OrdinaryPlanCovers(env, pub, sessions, order);
    CoveredBefore(env, pub, sessions, order, OrdinaryPlan(env, pub, sessions, order), c);
  }

  // The router, for every message that has not expired and every iteration
  // order: the ordinary deliveries cover the sessions with a match, once each
  // and as due; each shared group with an eligible member gets exactly one
  // delivery, to one of its members; the result is true exactly when some
  // subscription was eligible; and the deliveries are applied, ordinary first.
  lemma {:induction false} RouteRefines(env: Env, now: nat, pub: Publication, sessions: map<string, Session>,
                                        rr: map<Group, nat>, o: RouteOrder)
    requires ValidRoute(env, pub, sessions, o) && !IsExpired(pub.message, now)
    ensures var r := Route(env, now, pub, sessions, rr, o);
      var ordinary := OrdinaryPlan(env, pub, sessions, o.clients);
      var shared := SharedPlan(env, pub, sessions, o.clients, rr, o.groups);
      && PlanCovers(env, pub, sessions, o.clients, ordinary)
      && |shared| == |o.groups| == |Groups(env, pub, sessions)|
      && (forall k :: 0 <= k < |shared| ==> IsCandidate(env, pub, sessions, o.clients, o.groups[k], shared[k]))
      && r.delivered == |ordinary| + |shared|
      && (r.delivered > 0 <==> AnyEligible(env, pub, sessions))
      && r.sessions == DeliverAll(env, now, pub, DeliverAll(env, now, pub, Fanout(sessions, 0), ordinary),
                                  shared).sessions
  {
    var ordinary := OrdinaryPlan(env, pub, sessions, o.clients);
    var shared := SharedPlan(env, pub, sessions, o.clients, rr, o.groups);
    OrdinaryPlanCovers(env, pub, sessions, o.clients);
    DeliverAllConcat(env, now, pub, Fanout(sessions, 0), ordinary, shared);
    PlanEmpty(env, pub, sessions, rr, o);
    SharedPlanAt(env, pub, sessions, o.clients, rr, o.groups, 0);
    EnumerationSize(o.groups, Groups(env, pub, sessions));
    forall k | 0 <= k < |shared|
      ensures IsCandidate(env, pub, sessions, o.clients, o.groups[k], shared[k])
    {
      SharedPlanAt(env, pub, sessions, o.clients, rr, o.groups, k);
      CandidatesExact(env, pub, sessions, o.clients, o.groups[k], shared[k]);
    }
  }

  lemma {:induction false} EnumerationSize<T>(order: seq<T>, s: set<T>)
    requires Enumerates(order, s)
    ensures |order| == |s|
  {
    if order == [] {
      assert s == {};
    } else {
      var n := |order| - 1;
      assert order == order[..n] + [order[n]];
      EnumerationSize(order[..n], s - {order[n]});
    }
  }

  // -------------------------------------------------------------------------
  // What a fan-out leaves alone
  // -------------------------------------------------------------------------

  ghost predicate OnlyOutboundChanged(a: map<string, Session>, b: map<string, Session>) {
    a.Keys == b.Keys && forall c :: c in a ==> b[c] == a[c].(d := b[c].d) && Online(b[c].d) == Online(a[c].d)
  }

  lemma {:induction false} DeliverKeepsLink(env: Env, now: nat, d: Outbound, p: Pending)
    ensures Online(Deliver(env, now, d, p).d) == Online(d)
  {
  }

  // Routing changes nothing of a session but its outbound state, and does not
  // connect or disconnect anyone.
  lemma {:induction false} FanoutFrame(env: Env, now: nat, pub: Publication, f: Fanout, plan: seq<Target>)
    ensures OnlyOutboundChanged(f.sessions, DeliverAll(env, now, pub, f, plan).sessions)
  {
    if plan != [] {
      var n := |plan| - 1;
      FanoutFrame(env, now, pub, f, plan[..n]);
      var mid := DeliverAll(env, now, pub, f, plan[..n]);
      if plan[n].client in mid.sessions {
        DeliverKeepsLink(env, now, mid.sessions[plan[n].client].d, PendingFor(pub, plan[n]));
      }
    }
  }
}
