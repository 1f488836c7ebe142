// What a CONNECT makes of its session, said without the functions that compute
// it: expiry and persistence by protocol version, what a change of owner leaves,
// which subscriptions survive, and what is written to disk.

module ConnectRules {
  import opened Types
  import opened Delivery
  import opened SessionRuns
  import opened Router
  import opened Broker
  import opened Storage
  import opened Lists
  import Policy
  import SessionProjection

  // The request is refused for its Will, or for its client id.
  ghost predicate WillBarred(env: Env, st: State, c: ConnectRequest) {
    c.will.Some? && st.acl.enforced && !st.acl.defaultAllow
    && !Policy.Listed(env, st.acl.rules, Policy.PUBLISHING, c.identity, c.will.value.message.topic)
  }

  ghost predicate IdBarred(c: ConnectRequest) {
    "$bridge/" <= c.client || "$SYS/" <= c.client
  }

  // A refusal names its reason and changes nothing; everything else is accepted.
  lemma {:induction false} Refusals(env: Env, now: nat, st: State, c: ConnectRequest)
    requires ConnectReady(env, st, c)
    ensures var answer, st' := ConnackFor(env, st, c), HandleConnect(env, now, st, c);
      && (answer == Rejected(NotAuthorized) <==> WillBarred(env, st, c))
      && (answer == Rejected(ClientIdentifierNotValid) <==> !WillBarred(env, st, c) && IdBarred(c))
      && (answer.Accepted? <==> !WillBarred(env, st, c) && !IdBarred(c))
      && (!answer.Accepted? ==> st' == st)
  {
    if c.will.Some? { Policy.PublishPermitted(env, st.acl, c.identity, c.will.value.message.topic); }
  }

  // -------------------------------------------------------------------------
  // Expiry and persistence
  // -------------------------------------------------------------------------

  /** The session's expiry and persistence are those the client's protocol
      version, its flags and the configured cap call for. */
  ghost predicate LastsAsAsked(env: Env, c: ConnectRequest, s: Session) {
    var cap := env.maxSessionExpiry;
    && (!c.v5 && c.cleanStart ==> s.expiry == 0)
    && (!c.v5 && !c.cleanStart ==> s.expiry == cap)
    && (c.v5 ==>
          var asked := match c.sessionExpiry case None => 0 case Some(secs) => secs;
          s.expiry <= asked && s.expiry <= cap && (s.expiry == asked || s.expiry == cap))
    && (s.persistent <==> s.expiry != 0 && !c.autoId)
  }

  // The session is written exactly if it is persistent, as it is.
  ghost predicate WrittenIf(before: seq<Command>, after: seq<Command>, client: string, s: Session) {
    && before <= after
    && forall k :: |before| <= k < |after| && after[k].UpsertSession? ==>
         s.persistent && after[k] == UpsertSession(client, s.expiry, s.identity)
  }

  ghost predicate WrittenLast(after: seq<Command>, client: string, s: Session) {
    s.persistent ==> after != [] && after[|after| - 1] == UpsertSession(client, s.expiry, s.identity)
  }

  lemma {:induction false} DeletionsOnly(client: string, subs: seq<Subscription>)
    ensures forall k :: 0 <= k < |Deletions(client, subs)| ==> Deletions(client, subs)[k].DeleteSubscription?
    decreases |subs|
  {
    if subs != [] { DeletionsOnly(client, subs[1..]); }
  }

  lemma {:induction false} ConnectResult(env: Env, now: nat, st: State, c: ConnectRequest)
    requires ConnectReady(env, st, c) && Acceptable(env, st, c)
    ensures var st', s := HandleConnect(env, now, st, c), BoundSession(env, st, c);
      && c.client in st'.sessions && st'.log == st.log + ConnectCommands(env, st, c)
      && var s' := st'.sessions[c.client];
      && s'.expiry == s.expiry && s'.persistent == s.persistent && s'.identity == s.identity
  {
  }

  lemma {:induction false} BoundLasts(env: Env, st: State, c: ConnectRequest)
    ensures LastsAsAsked(env, c, BoundSession(env, st, c))
  {
  }

  lemma {:induction false} Appended(before: seq<Command>, cmds: seq<Command>, client: string, s: Session)
    requires forall k :: 0 <= k < |cmds| && cmds[k].UpsertSession? ==>
               s.persistent && cmds[k] == UpsertSession(client, s.expiry, s.identity)
    requires s.persistent ==> cmds != [] && cmds[|cmds| - 1] == UpsertSession(client, s.expiry, s.identity)
    ensures WrittenIf(before, before + cmds, client, s) && WrittenLast(before + cmds, client, s)
  {
    var after := before + cmds;
    assert forall k :: |before| <= k < |after| ==> after[k] == cmds[k - |before|];
  }

  // A v3.1.1 session lasts the cap if it is not clean and ends with its
  // connection if it is; a v5 session lasts as asked, up to the cap. It is kept on
  // disk exactly if it outlives its connection and its id was not made up for it.
  lemma {:induction false} ConnectLasts(env: Env, now: nat, st: State, c: ConnectRequest)
    requires ConnectReady(env, st, c) && Acceptable(env, st, c)
    ensures var st' := HandleConnect(env, now, st, c);
      && c.client in st'.sessions && LastsAsAsked(env, c, st'.sessions[c.client])
      && WrittenIf(st.log, st'.log, c.client, st'.sessions[c.client])
      && WrittenLast(st'.log, c.client, st'.sessions[c.client])
  {
    ConnectResult(env, now, st, c);
    BoundLasts(env, st, c);
    NoOtherUpsert(env, st, c);
    Appended(st.log, ConnectCommands(env, st, c), c.client, BoundSession(env, st, c));
  }

  lemma {:induction false} NoOtherUpsert(env: Env, st: State, c: ConnectRequest)
    ensures var cmds, s := ConnectCommands(env, st, c), BoundSession(env, st, c);
      && (forall k :: 0 <= k < |cmds| && cmds[k].UpsertSession? ==>
            s.persistent && cmds[k] == UpsertSession(c.client, s.expiry, s.identity))
      && (s.persistent ==> cmds != [] && cmds[|cmds| - 1] == UpsertSession(c.client, s.expiry, s.identity))
  {
    DeletionsOnly(c.client, Denied(env, st.acl, Who(c.identity), BoundSession(env, st, c).subs));
  }

  // -------------------------------------------------------------------------
  // The connection and its owner
  // -------------------------------------------------------------------------

  // The session is bound to this connection.
  lemma {:induction false} ConnectBinds(env: Env, now: nat, st: State, c: ConnectRequest)
    requires ConnectReady(env, st, c) && Acceptable(env, st, c)
    ensures var st' := HandleConnect(env, now, st, c); var s := st'.sessions[c.client];
      && s.epoch == st.nextEpoch && st'.nextEpoch == st.nextEpoch + 1
      && s.identity == c.identity && s.will == c.will
      && s.d.receiveMax == (match c.receiveMax case None => 65535 case Some(max) => max)
      && s.d.maxPacketSize == c.maxPacketSize && Online(s.d)
      && (forall other :: other in st.sessions && other != c.client ==>
            other in st'.sessions && st'.sessions[other] == st.sessions[other])
      && (forall other :: other in st'.sessions && other != c.client ==> other in st.sessions)
      && st'.retained == st.retained && st'.rr == st.rr && st'.acl == st.acl
  {
    if Present(st, c) { ResumeFrame(env, now, ConnectedSession(env, st, c).d, c.order); }
  }

  ghost predicate SameTerms(d: Outbound, d': Outbound) {
    d'.receiveMax == d.receiveMax && d'.maxPacketSize == d.maxPacketSize && Online(d') == Online(d)
  }

  lemma {:induction false} RecordFrame(d: Outbound, next: nat, id: nat, p: Publish)
    requires Online(d) && d.queue != []
    ensures SameTerms(d, Record(Popped(d, next), id, p)) && SameTerms(d, Popped(d, next))
  {
  }

  lemma {:induction false} FlushOneFrame(env: Env, now: nat, d: Outbound)
    ensures SameTerms(d, FlushOne(env, now, d).d)
  {
    if Online(d) && WindowOpen(d) && d.queue != [] && !IsExpired(d.queue[0].message, now) {
      var scan := NextId(d);
      if scan.id.Some? { RecordFrame(d, scan.next, scan.id.value, AsPublish(d.queue[0], now, scan.id)); }
    }
  }

  lemma {:induction false} FlushFrame(env: Env, now: nat, d: Outbound)
    ensures SameTerms(d, Flush(env, now, d).d)
    decreases |d.queue|
  {
    var it := FlushOne(env, now, d);
    FlushOneFrame(env, now, d);
    if it.go { FlushFrame(env, now, it.d); }
  }

  lemma {:induction false} ResumeFrame(env: Env, now: nat, d: Outbound, o: ResumeOrder)
    requires ValidOrder(d, o)
    ensures SameTerms(d, Resume(env, now, d, o).d)
  {
    if Online(d) { FlushFrame(env, now, d.(out := Some(TrySendAll(d.out.value, Backlog(d, o))))); }
  }

  // A kept session whose authenticated owner is not this client's identity.
  ghost predicate ChangesHands(st: State, c: ConnectRequest) {
    && !c.cleanStart && c.client in st.sessions
    && st.sessions[c.client].identity.Some? && st.sessions[c.client].identity != c.identity
  }

  // Nothing meant for the previous owner is left: no subscription, no message
  // waiting or in flight, and nothing in the new connection's channel.
  lemma {:induction false} NewOwnerInheritsNothing(env: Env, now: nat, st: State, c: ConnectRequest)
    requires ConnectReady(env, st, c) && Acceptable(env, st, c) && ChangesHands(st, c)
    ensures var s := HandleConnect(env, now, st, c).sessions[c.client];
      && s.subs == [] && s.d.queue == [] && s.d.puback == map[] && s.d.pubrec == map[] && s.d.pubcomp == {}
      && s.d.out == Some(c.out)
  {
    var d := ConnectedSession(env, st, c).d;
    SessionProjection.FreshResume(env, now, d, c.order);
  }

  lemma {:induction false} KeptSubs(env: Env, st: State, c: ConnectRequest)
    requires !c.cleanStart && c.client in st.sessions && !ChangesHands(st, c)
    ensures Keeps(Permitted(env, st.acl, Who(c.identity)), st.sessions[c.client].subs,
                  ConnectedSession(env, st, c).subs)
  {
    PolicySplits(env, st.acl, Who(c.identity), st.sessions[c.client].subs);
  }

  lemma {:induction false} KeptRest(env: Env, st: State, c: ConnectRequest)
    requires !c.cleanStart && c.client in st.sessions && !ChangesHands(st, c)
    requires c.receiveMax.Some? ==> c.receiveMax.value <= MAX_ID
    ensures var s, s0 := ConnectedSession(env, st, c), st.sessions[c.client];
      && s.inboundQos2 == s0.inboundQos2 && s.aliases == s0.aliases && KeepsEntries(s0.d, s.d) && Online(s.d)
      && (WellFormed(s0.d) ==> WellFormed(s.d))
  {
  }

  // The same owner, or one that had none, keeps every subscription the policy
  // permits it, every message in flight, and its inbound identifiers.
  lemma {:induction false} SameOwnerKeeps(env: Env, now: nat, st: State, c: ConnectRequest)
    requires ConnectReady(env, st, c) && Acceptable(env, st, c) && !c.cleanStart && c.client in st.sessions
    requires !ChangesHands(st, c) && WellFormed(st.sessions[c.client].d)
    ensures var s, s0 := HandleConnect(env, now, st, c).sessions[c.client], st.sessions[c.client];
      && Keeps(Permitted(env, st.acl, Who(c.identity)), s0.subs, s.subs)
      && KeepsEntries(s0.d, s.d) && s.inboundQos2 == s0.inboundQos2 && s.aliases == s0.aliases
  {
    KeptSubs(env, st, c);
    KeptRest(env, st, c);
    var d := ConnectedSession(env, st, c).d;
    ResumeKeepsEntries(env, now, d, c.order);
    EntriesTrans(st.sessions[c.client].d, d, Resume(env, now, d, c.order).d);
  }

  lemma {:induction false} EntriesTrans(a: Outbound, b: Outbound, c: Outbound)
    requires KeepsEntries(a, b) && KeepsEntries(b, c)
    ensures KeepsEntries(a, c)
  {
  }

  // A clean start, or an unknown client, starts from nothing.
  lemma {:induction false} NewSessionIsFresh(env: Env, now: nat, st: State, c: ConnectRequest)
    requires ConnectReady(env, st, c) && Acceptable(env, st, c) && (c.cleanStart || c.client !in st.sessions)
    ensures var s := HandleConnect(env, now, st, c).sessions[c.client];
      && s.subs == [] && s.inboundQos2 == {} && s.aliases == map[]
      && s.d.queue == [] && InUse(s.d) == {} && s.d.nextId == 1 && s.d.out == Some(c.out)
  {
  }
}
