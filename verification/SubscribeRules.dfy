// What SUBSCRIBE and UNSUBSCRIBE do, filter by filter, said without the functions
// that compute it: verdict and granted level, the list, the record on disk, and
// which retained messages are sent.

module SubscribeRules {
  import opened Types
  import opened SessionRuns
  import opened Router
  import opened Broker
  import opened Storage
  import opened Lists
  import opened Posts
  import R = BrokerRuns

  // -------------------------------------------------------------------------
  // Retained messages
  // -------------------------------------------------------------------------

  ghost predicate Alive(m: Message, now: nat) {
    match m.expiresAt
    case None => true
    case Some(deadline) => now < deadline
  }

  // The topics with a retained message that the filter matches.
  ghost function DueTopics(env: Env, now: nat, retained: map<string, Message>, filter: string): set<string> {
    set t | t in retained && Alive(retained[t], now) && env.matches(filter, t)
  }

  // `p` is the retained message `m`, sent as such to a subscription.
  ghost predicate IsRetainedSend(m: Message, granted: QoS, subId: Option<nat>, p: Pending) {
    && p.message == m && p.retain && IsLower(m.qos, granted, p.qos)
    && p.subIds == (match subId case None => [] case Some(id) => [id])
    && p.lbl == UNLABELLED
  }

  // `sends` are one message for each of these topics, and no others.
  ghost predicate OnePerTopic(cx: SubContext, topics: seq<string>, granted: QoS, sends: seq<Pending>) {
    && |sends| == |topics|
    && forall k :: 0 <= k < |topics| ==>
         topics[k] in cx.retained && IsRetainedSend(cx.retained[topics[k]], granted, cx.subId, sends[k])
  }

  lemma {:induction false} RetainedIn(env: Env, now: nat, cx: SubContext, order: seq<string>, filter: string,
                                      granted: QoS)
    returns (topics: seq<string>)
    requires forall i, j :: 0 <= i < j < |order| ==> order[i] != order[j]
    ensures Enumerates(topics, set t | t in order && t in DueTopics(env, now, cx.retained, filter))
    ensures OnePerTopic(cx, topics, granted, RetainedSends(env, now, cx, order, filter, granted))
  {
    topics := [];
    if order != [] {
      var n := |order| - 1;
      var less, last := order[..n], order[n];
      assert order == less + [last] && last !in less;
      topics := RetainedIn(env, now, cx, less, filter, granted);
      if last in DueTopics(env, now, cx.retained, filter) {
        TopicsSnoc(topics, less, last, DueTopics(env, now, cx.retained, filter));
        topics := topics + [last];
      } else {
        assert (set t | t in order && t in DueTopics(env, now, cx.retained, filter))
            == set t | t in less && t in DueTopics(env, now, cx.retained, filter);
      }
    }
  }

  lemma {:induction false} TopicsSnoc(topics: seq<string>, less: seq<string>, last: string, due: set<string>)
    requires Enumerates(topics, set t | t in less && t in due) && last !in less && last in due
    ensures Enumerates(topics + [last], set t | t in less + [last] && t in due)
  {
    assert last !in topics;
    forall t | t in less + [last] && t in due ensures t in topics + [last] {
      if t != last { assert t in less; }
    }
  }

  // Whatever order the retained topics come in, a new subscription is due exactly
  // the unexpired messages on the topics its filter matches, one each.
  lemma {:induction false} RetainedExactly(env: Env, now: nat, cx: SubContext, filter: string, granted: QoS)
    returns (topics: seq<string>)
    requires Enumerates(cx.order, cx.retained.Keys)
    ensures Enumerates(topics, DueTopics(env, now, cx.retained, filter))
    ensures OnePerTopic(cx, topics, granted, RetainedSends(env, now, cx, cx.order, filter, granted))
  {
    topics := RetainedIn(env, now, cx, cx.order, filter, granted);
    assert (set t | t in cx.order && t in DueTopics(env, now, cx.retained, filter))
        == DueTopics(env, now, cx.retained, filter);
  }

  // -------------------------------------------------------------------------
  // One filter of a SUBSCRIBE
  // -------------------------------------------------------------------------

  // `rest` is what a share prefix leaves of a filter; one without such a prefix is
  // looked at whole.
  ghost predicate Shares(raw: string, name: string, rest: string) {
    raw == "$share/" + name + "/" + rest && '/' !in name
  }

  lemma {:induction false} AfterSlashExact(s: string, name: string, rest: string)
    requires s == name + "/" + rest && '/' !in name
    ensures AfterSlash(s) == Some(rest)
    decreases |name|
  {
    if name == [] {
      assert s[0] == '/' && s[1..] == rest;
    } else {
      assert s[0] == name[0] && name[0] in name;
      assert s[1..] == name[1..] + "/" + rest;
      assert forall c :: c in name[1..] ==> c in name;
      AfterSlashExact(s[1..], name[1..], rest);
    }
  }

  // Validity is judged on what follows the share name, if there is one.
  lemma {:induction false} StripsShare(raw: string)
    ensures forall name, rest :: Shares(raw, name, rest) ==> StripShare(raw) == rest
    ensures (forall name, rest :: !Shares(raw, name, rest)) ==> StripShare(raw) == raw
  {
    forall name, rest | Shares(raw, name, rest) ensures StripShare(raw) == rest {
      assert raw[..7] == "$share/" && raw[7..] == name + "/" + rest;
      AfterSlashExact(raw[7..], name, rest);
    }
    if "$share/" <= raw && AfterSlash(raw[7..]).Some? {
      var name, rest := SlashSplits(raw[7..]);
      assert raw == "$share/" + raw[7..];
      assert raw == "$share/" + name + "/" + rest;
      assert Shares(raw, name, rest);
    }
  }

  lemma {:induction false} SlashSplits(s: string) returns (name: string, rest: string)
    requires AfterSlash(s).Some?
    ensures s == name + "/" + rest && '/' !in name
  {
    if s[0] == '/' {
      name, rest := [], s[1..];
    } else {
      var more;
      more, rest := SlashSplits(s[1..]);
      name := [s[0]] + more;
      assert s == [s[0]] + s[1..];
    }
  }

  ghost predicate Shared(raw: string) {
    exists name, rest :: Shares(raw, name, rest)
  }

  ghost predicate ValidPart(env: Env, raw: string) {
    if Shared(raw) then forall name, rest :: Shares(raw, name, rest) ==> env.validFilter(rest) else env.validFilter(raw)
  }

  lemma {:induction false} ValidPartIs(env: Env, raw: string)
    ensures ValidPart(env, raw) <==> env.validFilter(StripShare(raw))
  {
    StripsShare(raw);
  }

  // The retained messages are sent: at every subscribe, at a new one, or never;
  // and never to a share.
  ghost predicate AsksRetained(f: SubFilter, share: Option<string>, subs: seq<Subscription>, filter: string) {
    && share.None?
    && match f.retainHandling
       case SendAtSubscribe => true
       case SendIfNewSubscription => forall i :: 0 <= i < |subs| ==> !IsKey(subs[i], filter, share)
       case DoNotSend => false
  }

  // `after` is `before` with `sub` in place of the first entry of its filter and
  // share, or at the end.
  ghost predicate Added(before: seq<Subscription>, after: seq<Subscription>, sub: Subscription) {
    exists i :: AddedAt(before, after, sub, i)
  }

  ghost predicate AddedAt(before: seq<Subscription>, after: seq<Subscription>, sub: Subscription, i: nat) {
    && i <= |before|
    && (forall j :: 0 <= j < i ==> !IsKey(before[j], sub.filter, sub.share))
    && (i < |before| ==> IsKey(before[i], sub.filter, sub.share))
    && after == if i < |before| then before[i := sub] else before + [sub]
  }

  /** The filter was granted at `level`, the lower of the level asked for and the
      server's: it is on the list, on disk if the session is, acknowledged with the
      level's own code, and the retained messages it asks for are due. */
  ghost predicate Grants1(env: Env, now: nat, cx: SubContext, f: SubFilter, parsed: ParsedFilter, a: SubAcc, b: SubAcc,
                          level: QoS) {
    && IsLower(f.qos, env.maximumQos, level)
    && Added(a.subs, b.subs,
             Subscription(parsed.filter, parsed.share, level, f.noLocal, f.retainAsPublished, cx.subId))
    && b.cmds == a.cmds
                 + (if !cx.persistent then []
                    else [UpsertSubscription(cx.client, SubRecord(f.raw, level, f.noLocal, f.retainAsPublished,
                                                                  f.retainHandling, cx.subId))])
    && |b.codes| == |a.codes| + 1 && a.codes <= b.codes && b.codes[|a.codes|].Code() == Rank(level)
    && a.sends <= b.sends
    && if !AsksRetained(f, parsed.share, a.subs, parsed.filter) then b.sends == a.sends
       else exists topics :: Enumerates(topics, DueTopics(env, now, cx.retained, parsed.filter))
                             && OnePerTopic(cx, topics, level, b.sends[|a.sends|..])
  }

  ghost predicate Rejects1(a: SubAcc, b: SubAcc, rc: ReasonCode) {
    b == a.(codes := a.codes + [rc])
  }

  // The filter is malformed, not permitted, or granted.
  ghost predicate Handles(env: Env, now: nat, cx: SubContext, f: SubFilter, a: SubAcc, b: SubAcc) {
    if env.parseFilter(f.raw).None? || !ValidPart(env, f.raw) then Rejects1(a, b, TopicFilterInvalid)
    else
      var parsed := env.parseFilter(f.raw).value;
      if !CanSubscribe(env, cx.acl, cx.who, parsed.filter) then Rejects1(a, b, NotAuthorized)
      else exists level :: Grants1(env, now, cx, f, parsed, a, b, level)
  }

  lemma {:induction false} FirstKey(subs: seq<Subscription>, filter: string, share: Option<string>) returns (i: nat)
    ensures i <= |subs| && forall j :: 0 <= j < i ==> !IsKey(subs[j], filter, share)
    ensures i < |subs| ==> IsKey(subs[i], filter, share)
  {
    i := 0;
    while i < |subs| && !IsKey(subs[i], filter, share)
      invariant i <= |subs| && forall j :: 0 <= j < i ==> !IsKey(subs[j], filter, share)
    {
      i := i + 1;
    }
  }

  lemma {:induction false} UpsertAdds(subs: seq<Subscription>, sub: Subscription)
    ensures Added(subs, Upsert(subs, sub), sub)
    ensures HasSub(subs, sub.filter, sub.share) <==>
      exists i :: 0 <= i < |subs| && IsKey(subs[i], sub.filter, sub.share)
  {
    var i := FirstKey(subs, sub.filter, sub.share);
    UpsertAt(subs, sub, i);
    assert AddedAt(subs, Upsert(subs, sub), sub, i);
    if HasSub(subs, sub.filter, sub.share) {
      var k :| 0 <= k < |subs| && SameKey(subs[k], sub.filter, sub.share);
      assert IsKey(subs[k], sub.filter, sub.share);
    }
    if k :| 0 <= k < |subs| && IsKey(subs[k], sub.filter, sub.share) {
      assert SameKey(subs[k], sub.filter, sub.share);
    }
  }

  lemma {:induction false} SendsDue(env: Env, now: nat, cx: SubContext, f: SubFilter, parsed: ParsedFilter, a: SubAcc,
                                    level: QoS)
    requires Enumerates(cx.order, cx.retained.Keys)
    requires HasSub(a.subs, parsed.filter, parsed.share) <==>
               exists i :: 0 <= i < |a.subs| && IsKey(a.subs[i], parsed.filter, parsed.share)
    ensures var more := if SendsRetained(f, parsed.share, HasSub(a.subs, parsed.filter, parsed.share))
                        then RetainedSends(env, now, cx, cx.order, parsed.filter, level) else [];
      if !AsksRetained(f, parsed.share, a.subs, parsed.filter) then more == []
      else exists topics :: Enumerates(topics, DueTopics(env, now, cx.retained, parsed.filter))
                            && OnePerTopic(cx, topics, level, more)
  {
    var topics := RetainedExactly(env, now, cx, parsed.filter, level);
  }

  lemma {:induction false} GrantIs(env: Env, now: nat, cx: SubContext, acc: SubAcc, f: SubFilter)
    requires Enumerates(cx.order, cx.retained.Keys) && Judge(env, cx, f.raw).Good?
    ensures Grants1(env, now, cx, f, env.parseFilter(f.raw).value, acc, SubscribeOne(env, now, cx, acc, f),
                    MinQoS(f.qos, env.maximumQos))
  {
    var parsed := env.parseFilter(f.raw).value;
    var sub := NewSubscription(env, cx, f, parsed);
    UpsertAdds(acc.subs, sub);
    SendsDue(env, now, cx, f, parsed, acc, sub.qos);
    var b := SubscribeOne(env, now, cx, acc, f);
    assert b.sends[|acc.sends|..] == if SendsRetained(f, parsed.share, HasSub(acc.subs, parsed.filter, parsed.share))
                                     then RetainedSends(env, now, cx, cx.order, parsed.filter, sub.qos) else [];
  }

  // Every filter of a SUBSCRIBE is handled as the rules say.
  lemma {:induction false} FilterHandled(env: Env, now: nat, cx: SubContext, acc: SubAcc, f: SubFilter)
    requires Enumerates(cx.order, cx.retained.Keys)
    ensures Handles(env, now, cx, f, acc, SubscribeOne(env, now, cx, acc, f))
  {
    ValidPartIs(env, f.raw);
    if Judge(env, cx, f.raw).Good? { GrantIs(env, now, cx, acc, f); }
  }

  // -------------------------------------------------------------------------
  // The whole SUBSCRIBE
  // -------------------------------------------------------------------------

  // The list, the records, the codes and the messages due, filter by filter.
  ghost predicate Stages(env: Env, now: nat, cx: SubContext, filters: seq<SubFilter>, subs: seq<Subscription>,
                         accs: seq<SubAcc>) {
    && |accs| == |filters| + 1 && accs[0] == SubAcc(subs, [], [], [])
    && forall k :: 0 <= k < |filters| ==> Handles(env, now, cx, filters[k], accs[k], accs[k + 1])
  }

  lemma {:induction false} AllHandled(env: Env, now: nat, cx: SubContext, filters: seq<SubFilter>,
                                      subs: seq<Subscription>) returns (accs: seq<SubAcc>)
    requires Enumerates(cx.order, cx.retained.Keys)
    ensures Stages(env, now, cx, filters, subs, accs)
    ensures accs[|filters|] == SubscribeAll(env, now, cx, SubAcc(subs, [], [], []), filters)
  {
    if filters == [] {
      accs := [SubAcc(subs, [], [], [])];
    } else {
      var n := |filters| - 1;
      var less := AllHandled(env, now, cx, filters[..n], subs);
      var last := SubscribeOne(env, now, cx, less[n], filters[n]);
      FilterHandled(env, now, cx, less[n], filters[n]);
      accs := less + [last];
      forall k | 0 <= k < |filters| ensures Handles(env, now, cx, filters[k], accs[k], accs[k + 1]) {
        if k < n { assert filters[..n][k] == filters[k]; }
      }
    }
  }

  /** The outcome of a SUBSCRIBE: the session has the new list, the records are in
      the log, and the client is told the codes and then given the retained
      messages, in this order. */
  ghost predicate Subscribed(st: State, st': State, client: string, packetId: nat, now: nat, acc: SubAcc,
                             posts: seq<Post>)
    requires client in st.sessions
  {
    && client in st'.sessions && st'.sessions[client].subs == acc.subs && st'.log == st.log + acc.cmds
    && |posts| == |acc.sends| + 1
    && posts[0] == Post(client, SessionRuns.At(now, SessionRuns.Tell(Control(Suback(packetId, acc.codes)))))
    && forall k :: 0 <= k < |acc.sends| ==> posts[k + 1] == Post(client, SessionRuns.At(now, Give(acc.sends[k])))
  }

  // What a SUBSCRIBE of a current connection does: every filter is handled as the
  // rules say, the list and the records are the outcome of the last, and the
  // session is posted the SUBACK with one code per filter, then the retained
  // messages due to the filters, in order.
  lemma {:induction false} SubscribeFollowsRules(env: Env, now: nat, st: State, client: string, epoch: nat,
                                                 i: R.Inbound)
    returns (accs: seq<SubAcc>)
    requires Current(st, client, epoch) && i.InSubscribe? && Enumerates(i.topics, st.retained.Keys)
    ensures var st' := R.HandleInbound(env, now, st, client, epoch, i);
      && Stages(env, now, ContextOf(st, client, i.subId, i.topics), i.filters, st.sessions[client].subs, accs)
      && Subscribed(st, st', client, i.packetId, now, accs[|i.filters|], InboundPosts(env, now, st, client, i))
  {
    var s, cx := st.sessions[client], ContextOf(st, client, i.subId, i.topics);
    accs := AllHandled(env, now, cx, i.filters, s.subs);
    var posts := InboundPosts(env, now, st, client, i);
    assert posts == Tells(client, now, Control(Suback(i.packetId, accs[|i.filters|].codes)))
                    + Gives(client, now, accs[|i.filters|].sends);
  }

  // -------------------------------------------------------------------------
  // UNSUBSCRIBE
  // -------------------------------------------------------------------------

  // The filter's subscription is gone and was there, or was not there.
  ghost predicate Unhandles(env: Env, cx: SubContext, raw: string, a: SubAcc, b: SubAcc) {
    var share := match env.parseFilter(raw) case None => None case Some(p) => p.share;
    var filter := match env.parseFilter(raw) case None => raw case Some(p) => p.filter;
    var existed := exists i :: 0 <= i < |a.subs| && IsKey(a.subs[i], filter, share);
    && Keeps(Other(filter, share), a.subs, b.subs) && (!existed ==> b.subs == a.subs)
    && b.codes == a.codes + [if existed then Success else NoSubscriptionExisted]
    && b.cmds == a.cmds + (if existed && cx.persistent then [DeleteSubscription(cx.client, raw)] else [])
    && b.sends == a.sends
  }

  lemma {:induction false} RemovesNothing(subs: seq<Subscription>, filter: string, share: Option<string>)
    requires forall i :: 0 <= i < |subs| ==> !IsKey(subs[i], filter, share)
    ensures Without(subs, filter, share) == subs
  {
    if subs != [] {
      RemovesNothing(subs[1..], filter, share);
      assert subs == [subs[0]] + subs[1..];
    }
  }

  lemma {:induction false} FilterUnhandled(env: Env, cx: SubContext, acc: SubAcc, raw: string)
    ensures Unhandles(env, cx, raw, acc, UnsubscribeOne(env, cx, acc, raw))
  {
    var parsed := env.parseFilter(raw);
    var share := if parsed.Some? then parsed.value.share else None;
    var filter := if parsed.Some? then parsed.value.filter else raw;
    RemovalKeeps(acc.subs, filter, share);
    if HasSub(acc.subs, filter, share) {
      var k :| 0 <= k < |acc.subs| && SameKey(acc.subs[k], filter, share);
      assert IsKey(acc.subs[k], filter, share);
    } else {
      forall k | 0 <= k < |acc.subs| ensures !IsKey(acc.subs[k], filter, share) {
        assert !SameKey(acc.subs[k], filter, share);
      }
      RemovesNothing(acc.subs, filter, share);
    }
  }

  ghost predicate Unstages(env: Env, cx: SubContext, names: seq<string>, subs: seq<Subscription>, accs: seq<SubAcc>) {
    && |accs| == |names| + 1 && accs[0] == SubAcc(subs, [], [], [])
    && forall k :: 0 <= k < |names| ==> Unhandles(env, cx, names[k], accs[k], accs[k + 1])
  }

  lemma {:induction false} AllUnhandled(env: Env, cx: SubContext, names: seq<string>, subs: seq<Subscription>)
    returns (accs: seq<SubAcc>)
    ensures Unstages(env, cx, names, subs, accs)
    ensures accs[|names|] == UnsubscribeAll(env, cx, SubAcc(subs, [], [], []), names)
  {
    if names == [] {
      accs := [SubAcc(subs, [], [], [])];
    } else {
      var n := |names| - 1;
      var less := AllUnhandled(env, cx, names[..n], subs);
      FilterUnhandled(env, cx, less[n], names[n]);
      accs := less + [UnsubscribeOne(env, cx, less[n], names[n])];
      forall k | 0 <= k < |names| ensures Unhandles(env, cx, names[k], accs[k], accs[k + 1]) {
        if k < n { assert names[..n][k] == names[k]; }
      }
    }
  }

  // What an UNSUBSCRIBE of a current connection does, likewise.
  lemma {:induction false} UnsubscribeFollowsRules(env: Env, now: nat, st: State, client: string, epoch: nat,
                                                   i: R.Inbound) returns (accs: seq<SubAcc>)
    requires Current(st, client, epoch) && i.InUnsubscribe?
    ensures var st' := R.HandleInbound(env, now, st, client, epoch, i); var n := |i.names|;
      && Unstages(env, ContextOf(st, client, None, []), i.names, st.sessions[client].subs, accs)
      && client in st'.sessions && st'.sessions[client].subs == accs[n].subs && st'.log == st.log + accs[n].cmds
      && InboundPosts(env, now, st, client, i)
         == [Post(client, SessionRuns.At(now, SessionRuns.Tell(Control(Unsuback(i.packetId, accs[n].codes)))))]
  {
    accs := AllUnhandled(env, ContextOf(st, client, None, []), i.names, st.sessions[client].subs);
  }
}
