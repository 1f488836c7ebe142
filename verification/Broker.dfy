// The broker's handlers: each is one critical section over the shared state.

module Broker {
  import opened Types
  import opened Delivery
  import opened SessionRuns
  import opened Router
  import opened Storage

  // -------------------------------------------------------------------------
  // Authorisation policy
  // -------------------------------------------------------------------------

  datatype Rule = Rule(identity: string, publish: seq<string>, subscribe: seq<string>)

  datatype Acl = Acl(enforced: bool, defaultAllow: bool, rules: seq<Rule>)

  predicate Covers(env: Env, filters: seq<string>, name: string) {
    exists i :: 0 <= i < |filters| && env.matches(filters[i], name)
  }

  predicate Applicable(rule: Rule, who: string) {
    rule.identity == who || rule.identity == "*"
  }

  predicate CanPublish(env: Env, acl: Acl, who: string, topic: string) {
    !acl.enforced || acl.defaultAllow
    || exists i :: 0 <= i < |acl.rules| && Applicable(acl.rules[i], who) && Covers(env, acl.rules[i].publish, topic)
  }

  predicate CanSubscribe(env: Env, acl: Acl, who: string, filter: string) {
    !acl.enforced || acl.defaultAllow
    || exists i :: 0 <= i < |acl.rules| && Applicable(acl.rules[i], who) && Covers(env, acl.rules[i].subscribe, filter)
  }

  function Who(identity: Option<string>): string {
    if identity.Some? then identity.value else "anonymous"
  }

  // -------------------------------------------------------------------------
  // State
  // -------------------------------------------------------------------------

  /** The shared state; `dropped` is the broker-wide publish_dropped counter. */
  datatype State = State(
    sessions: map<string, Session>,
    retained: map<string, Message>,
    rr: map<Group, nat>,
    nextEpoch: nat,
    log: seq<Command>,
    acl: Acl,
    dropped: nat)

  datatype Action =
    | Continue
    | ServerDisconnect(rc: ReasonCode)
    | ClientDisconnect(publishWill: bool)

  datatype Handled = Handled(st: State, action: Action)

  predicate Reserved(client: string) {
    "$bridge/" <= client || "$SYS/" <= client
  }

  function NewSession(expiry: nat): Session {
    Session(None, 0, [], false, expiry, None, {}, map[], FRESH)
  }

  // The connection that sent a packet still owns the session.
  predicate Current(st: State, client: string, epoch: nat) {
    client in st.sessions && st.sessions[client].epoch == epoch
  }

  function PutSession(st: State, client: string, s: Session): State {
    st.(sessions := st.sessions[client := s])
  }

  // send_to: a best-effort packet to a client.
  function Tell(st: State, client: string, x: Outgoing): State {
    if client in st.sessions
    then PutSession(st, client, st.sessions[client].(d := Notify(st.sessions[client].d, x)))
    else st
  }

  // -------------------------------------------------------------------------
  // Subscriptions of one session
  // -------------------------------------------------------------------------

  predicate SameKey(a: Subscription, filter: string, share: Option<string>) {
    a.filter == filter && a.share == share
  }

  predicate HasSub(subs: seq<Subscription>, filter: string, share: Option<string>) {
    exists i :: 0 <= i < |subs| && SameKey(subs[i], filter, share)
  }

  // Replace the first subscription with the same filter and share, or append.
  function Upsert(subs: seq<Subscription>, sub: Subscription): seq<Subscription> {
    if subs == [] then [sub]
    else if SameKey(subs[0], sub.filter, sub.share) then [sub] + subs[1..]
    else [subs[0]] + Upsert(subs[1..], sub)
  }

  function Without(subs: seq<Subscription>, filter: string, share: Option<string>): seq<Subscription> {
    if subs == [] then []
    else (if SameKey(subs[0], filter, share) then [] else [subs[0]]) + Without(subs[1..], filter, share)
  }

  function Allowed(env: Env, acl: Acl, who: string, subs: seq<Subscription>): seq<Subscription> {
    if subs == [] then []
    else (if CanSubscribe(env, acl, who, subs[0].filter) then [subs[0]] else []) + Allowed(env, acl, who, subs[1..])
  }

  function Denied(env: Env, acl: Acl, who: string, subs: seq<Subscription>): seq<Subscription> {
    if subs == [] then []
    else (if CanSubscribe(env, acl, who, subs[0].filter) then [] else [subs[0]]) + Denied(env, acl, who, subs[1..])
  }

  // The filter a stored subscription was written with.
  function KeyOf(share: Option<string>, filter: string): string {
    match share
    case None => filter
    case Some(name) => "$share/" + name + "/" + filter
  }

  function Deletions(client: string, subs: seq<Subscription>): seq<Command> {
    if subs == [] then []
    else [DeleteSubscription(client, KeyOf(subs[0].share, subs[0].filter))] + Deletions(client, subs[1..])
  }

  // -------------------------------------------------------------------------
  // CONNECT
  // -------------------------------------------------------------------------

  datatype ConnectRequest = ConnectRequest(
    client: string,
    autoId: bool,
    cleanStart: bool,
    v5: bool,
    sessionExpiry: Option<nat>,
    identity: Option<string>,
    receiveMax: Option<nat>,
    maxPacketSize: Option<nat>,
    will: Option<Will>,
    out: Channel,
    order: ResumeOrder)

  function RequestedExpiry(env: Env, c: ConnectRequest): nat {
    if c.v5 then
      var wanted := if c.sessionExpiry.Some? then c.sessionExpiry.value else 0;
      if wanted <= env.maxSessionExpiry then wanted else env.maxSessionExpiry
    else if c.cleanStart then 0
    else env.maxSessionExpiry
  }

  predicate Acceptable(env: Env, st: State, c: ConnectRequest) {
    && (c.will.Some? ==> CanPublish(env, st.acl, Who(c.identity), c.will.value.message.topic))
    && !Reserved(c.client)
  }

  predicate Present(st: State, c: ConnectRequest) {
    !c.cleanStart && c.client in st.sessions
  }

  // An authenticated owner was replaced by someone else, or by nobody.
  predicate IdentityChanged(before: Option<string>, after: Option<string>) {
    before.Some? && before != after
  }

  // The session CONNECT starts from: the kept one, stripped if its owner
  // changed, or a new one.
  function BaseSession(env: Env, st: State, c: ConnectRequest): Session {
    if !Present(st, c) then NewSession(RequestedExpiry(env, c))
    else
      var s := st.sessions[c.client];
      if IdentityChanged(s.identity, c.identity) then s.(subs := [], d := Wiped(s.d)) else s
  }

  function BoundSession(env: Env, st: State, c: ConnectRequest): Session {
    var s := BaseSession(env, st, c);
    s.(epoch := st.nextEpoch,
       identity := c.identity,
       expiry := RequestedExpiry(env, c),
       persistent := RequestedExpiry(env, c) > 0 && !c.autoId,
       will := c.will,
       d := Rebind(s.d, c.out, if c.receiveMax.Some? then c.receiveMax.value else MAX_ID, c.maxPacketSize))
  }

  // Only kept subscriptions are authorised again.
  predicate Reauthorise(st: State, c: ConnectRequest) {
    Present(st, c) && st.acl.enforced
  }

  function ConnectedSession(env: Env, st: State, c: ConnectRequest): Session {
    var s := BoundSession(env, st, c);
    if Reauthorise(st, c) then s.(subs := Allowed(env, st.acl, Who(c.identity), s.subs)) else s
  }

  // The storage commands of a CONNECT, in the order they are sent.
  function TakeoverCommands(st: State, c: ConnectRequest): seq<Command> {
    if c.cleanStart then [DeleteSession(c.client)]
    else if Present(st, c) && IdentityChanged(st.sessions[c.client].identity, c.identity)
            && st.sessions[c.client].persistent
    then [ClearSubscriptions(c.client)]
    else []
  }

  function ReauthoriseCommands(env: Env, st: State, c: ConnectRequest): seq<Command> {
    var s := BoundSession(env, st, c);
    if Reauthorise(st, c) && s.persistent
    then Deletions(c.client, Denied(env, st.acl, Who(c.identity), s.subs)) else []
  }

  function PersistCommands(env: Env, st: State, c: ConnectRequest): seq<Command> {
    if RequestedExpiry(env, c) > 0 && !c.autoId
    then [UpsertSession(c.client, RequestedExpiry(env, c), c.identity)] else []
  }

  function ConnectCommands(env: Env, st: State, c: ConnectRequest): seq<Command> {
    TakeoverCommands(st, c) + ReauthoriseCommands(env, st, c) + PersistCommands(env, st, c)
  }

  // What the environment owes a CONNECT: a fresh channel, a 16-bit Receive
  // Maximum, and an iteration order of the in-flight tables.
  predicate ConnectReady(env: Env, st: State, c: ConnectRequest) {
    && c.out.items == []
    && (c.receiveMax.Some? ==> c.receiveMax.value <= MAX_ID)
    && ValidOrder(ConnectedSession(env, st, c).d, c.order)
  }

  ghost function HandleConnect(env: Env, now: nat, st: State, c: ConnectRequest): State
    requires ConnectReady(env, st, c)
  {
    if !Acceptable(env, st, c) then st
    else
      var s := ConnectedSession(env, st, c);
      var r := Opening(env, now, st, c);
      st.(sessions := st.sessions[c.client := s.(d := r.d)],
          nextEpoch := st.nextEpoch + 1,
          log := st.log + ConnectCommands(env, st, c),
          dropped := st.dropped + r.dropped)
  }

  /** The part of the CONNACK that says something about the session: its epoch,
      whether it was kept, and its expiry where that is not the one asked for; or
      the refusal. */
  datatype Connack =
    | Accepted(epoch: nat, sessionPresent: bool, expiry: Option<nat>)
    | Rejected(rc: ReasonCode)

  function AskedExpiry(c: ConnectRequest): nat {
    if c.sessionExpiry.Some? then c.sessionExpiry.value else 0
  }

  function ConnackFor(env: Env, st: State, c: ConnectRequest): Connack {
    if c.will.Some? && !CanPublish(env, st.acl, Who(c.identity), c.will.value.message.topic)
    then Rejected(NotAuthorized)
    else if Reserved(c.client) then Rejected(ClientIdentifierNotValid)
    else
      var expiry := RequestedExpiry(env, c);
      Accepted(st.nextEpoch, Present(st, c), if expiry != AskedExpiry(c) then Some(expiry) else None)
  }

  // What resuming does to the outbound half, and what it drops.
  ghost function Opening(env: Env, now: nat, st: State, c: ConnectRequest): Flushed
    requires ConnectReady(env, st, c)
  {
    var d := ConnectedSession(env, st, c).d;
    if Present(st, c) then Resume(env, now, d, c.order) else Flushed(d, 0)
  }

  // -------------------------------------------------------------------------
  // PUBLISH
  // -------------------------------------------------------------------------

  datatype InPublish = InPublish(
    qos: QoS,
    retain: bool,
    topic: string,
    packetId: Option<nat>,
    alias: Option<nat>,
    payload: seq<byte>,
    props: string,
    expiry: Option<nat>)

  const LAST_SECOND: nat := 0xFFFF_FFFF_FFFF_FFFF

  function FromPublish(p: InPublish, now: nat): Message {
    var deadline :=
      if p.expiry.None? then None
      else if now + p.expiry.value <= LAST_SECOND then Some(now + p.expiry.value)
      else Some(LAST_SECOND);
    Message(p.topic, p.payload, p.qos, p.retain, p.props, deadline)
  }

  datatype Resolved = BadAlias | Topic(name: string, aliases: map<nat, string>)

  function ResolveAlias(env: Env, aliases: map<nat, string>, p: InPublish): Resolved {
    match p.alias
    case None => Topic(p.topic, aliases)
    case Some(a) =>
      if a > env.topicAliasMaximum then BadAlias
      else if p.topic != "" then Topic(p.topic, aliases[a := p.topic])
      else if a in aliases then Topic(aliases[a], aliases)
      else BadAlias
  }

  // A retained message replaces or, when empty, clears the one on its topic.
  function Retain(st: State, m: Message): State {
    if !m.retain then st
    else if m.payload == [] then
      st.(retained := st.retained - {m.topic}, log := st.log + [DeleteRetained(m.topic)])
    else
      st.(retained := st.retained[m.topic := m], log := st.log + [UpsertRetained(m.topic, m)])
  }

  ghost predicate ValidFor(env: Env, st: State, pub: Publication, o: RouteOrder) {
    ValidRoute(env, pub, st.sessions, o)
  }

  ghost function RouteIn(env: Env, now: nat, st: State, pub: Publication, o: RouteOrder): State
    requires ValidFor(env, st, pub, o)
  {
    var r := Route(env, now, pub, st.sessions, st.rr, o);
    st.(sessions := r.sessions, rr := r.rr, dropped := st.dropped + r.dropped)
  }

  ghost predicate Matched(env: Env, now: nat, st: State, pub: Publication, o: RouteOrder)
    requires ValidFor(env, st, pub, o)
  {
    Route(env, now, pub, st.sessions, st.rr, o).delivered > 0
  }

  function PacketId(p: InPublish): nat {
    if p.packetId.Some? then p.packetId.value else 0
  }

  function Refusal(p: InPublish): Option<Outgoing> {
    match p.qos
    case AtMostOnce => None
    case AtLeastOnce => Some(Control(Puback(PacketId(p), NotAuthorized)))
    case ExactlyOnce => Some(Control(Pubrec(PacketId(p), NotAuthorized)))
  }

  predicate Duplicate(st: State, client: string, p: InPublish)
    requires client in st.sessions
  {
    p.qos == ExactlyOnce && PacketId(p) in st.sessions[client].inboundQos2
  }

  // The identifier of a QoS 2 PUBLISH is held until its PUBREL.
  function Hold(st: State, client: string, p: InPublish): State
    requires client in st.sessions
  {
    var s := st.sessions[client];
    if p.qos == ExactlyOnce
    then PutSession(st, client, s.(inboundQos2 := s.inboundQos2 + {PacketId(p)})) else st
  }

  ghost function Answer(st: State, client: string, p: InPublish, rc: ReasonCode): State {
    match p.qos
    case AtMostOnce => st
    case AtLeastOnce => Tell(st, client, Control(Puback(PacketId(p), rc)))
    case ExactlyOnce => Tell(st, client, Control(Pubrec(PacketId(p), rc)))
  }

  // An authorised PUBLISH: retained first, then routed unless it is a duplicate.
  ghost function Publish1(env: Env, now: nat, st: State, client: string, p: InPublish, o: RouteOrder): State
    requires client in st.sessions
  {
    var m := FromPublish(p, now);
    var st1 := Retain(st, m);
    if Duplicate(st1, client, p) then Answer(st1, client, p, Success)
    else
      var st2 := Hold(st1, client, p);
      var pub := Publication(m, Some(client));
      if !ValidFor(env, st2, pub, o) then st
      else
        Answer(RouteIn(env, now, st2, pub, o), client, p,
               if Matched(env, now, st2, pub, o) then Success else NoMatchingSubscribers)
  }

  ghost function HandlePublish(env: Env, now: nat, st: State, client: string, epoch: nat, p: InPublish,
                               o: RouteOrder): Handled {
    if Rank(p.qos) > Rank(env.maximumQos) then Handled(st, ServerDisconnect(QoSNotSupported))
    else if p.retain && !env.retainAvailable then Handled(st, ServerDisconnect(RetainNotSupported))
    else if !Current(st, client, epoch) then Handled(st, ServerDisconnect(UnspecifiedError))
    else
      var s := st.sessions[client];
      match ResolveAlias(env, s.aliases, p)
      case BadAlias => Handled(st, ServerDisconnect(TopicAliasInvalid))
      case Topic(name, aliases) =>
        var st1 := PutSession(st, client, s.(aliases := aliases));
        var p1 := p.(topic := name);
        if !env.validTopic(name) || "$SYS/" <= name then Handled(st1, ServerDisconnect(TopicNameInvalid))
        else if !CanPublish(env, st.acl, Who(s.identity), name) then
          Handled(if Refusal(p).Some? then Tell(st1, client, Refusal(p).value) else st1, Continue)
        else Handled(Publish1(env, now, st1, client, p1, o), Continue)
  }

  // -------------------------------------------------------------------------
  // Acknowledgements
  // -------------------------------------------------------------------------

  // An acknowledgement from a superseded connection is rejected, one for a
  // vanished session ignored.
  function AckAction(st: State, client: string, epoch: nat): Action {
    if client in st.sessions && st.sessions[client].epoch != epoch then ServerDisconnect(UnspecifiedError) else Continue
  }

  // The outbound half of one session changed, and the drops are counted.
  ghost function OnOutbound(st: State, client: string, r: Flushed): State
    requires client in st.sessions
  {
    PutSession(st, client, st.sessions[client].(d := r.d)).(dropped := st.dropped + r.dropped)
  }

  ghost function PubackIn(env: Env, now: nat, st: State, client: string, epoch: nat, id: nat): Handled {
    Handled(if Current(st, client, epoch)
            then OnOutbound(st, client, HandlePuback(env, now, st.sessions[client].d, id)) else st,
            AckAction(st, client, epoch))
  }

  ghost function PubrecIn(env: Env, now: nat, st: State, client: string, epoch: nat, id: nat, rc: ReasonCode): Handled {
    Handled(if Current(st, client, epoch)
            then OnOutbound(st, client, Flushed(HandlePubrec(st.sessions[client].d, id, rc), 0)) else st,
            AckAction(st, client, epoch))
  }

  ghost function PubcompIn(env: Env, now: nat, st: State, client: string, epoch: nat, id: nat): Handled {
    Handled(if Current(st, client, epoch)
            then OnOutbound(st, client, HandlePubcomp(env, now, st.sessions[client].d, id)) else st,
            AckAction(st, client, epoch))
  }

  ghost function PubrelIn(st: State, client: string, epoch: nat, id: nat): Handled {
    if !Current(st, client, epoch) then Handled(st, AckAction(st, client, epoch))
    else
      var s := st.sessions[client];
      var rc := if id in s.inboundQos2 then Success else PacketIdentifierNotFound;
      var s1 := s.(inboundQos2 := s.inboundQos2 - {id}, d := Notify(s.d, Control(Pubcomp(id, rc))));
      Handled(PutSession(st, client, s1), Continue)
  }

  // -------------------------------------------------------------------------
  // SUBSCRIBE and UNSUBSCRIBE
  // -------------------------------------------------------------------------

  datatype SubFilter = SubFilter(
    raw: string,
    qos: QoS,
    noLocal: bool,
    retainAsPublished: bool,
    retainHandling: RetainHandling)

  function AfterSlash(s: string): Option<string> {
    if s == [] then None else if s[0] == '/' then Some(s[1..]) else AfterSlash(s[1..])
  }

  // The part of a filter that validation looks at.
  function StripShare(raw: string): string {
    if "$share/" <= raw && AfterSlash(raw[7..]).Some? then AfterSlash(raw[7..]).value else raw
  }

  datatype SubAcc = SubAcc(subs: seq<Subscription>, cmds: seq<Command>, codes: seq<ReasonCode>, sends: seq<Pending>)

  function GrantCode(q: QoS): ReasonCode {
    match q
    case AtMostOnce => Success
    case AtLeastOnce => GrantedQoS1
    case ExactlyOnce => GrantedQoS2
  }

  /** What one SUBSCRIBE is processed against. */
  datatype SubContext = SubContext(
    client: string,
    who: string,
    persistent: bool,
    acl: Acl,
    retained: map<string, Message>,
    order: seq<string>,
    subId: Option<nat>)

  function RetainedSends(env: Env, now: nat, cx: SubContext, order: seq<string>, filter: string,
                         granted: QoS): seq<Pending> {
    if order == [] then []
    else
      var last := order[|order| - 1];
      RetainedSends(env, now, cx, order[..|order| - 1], filter, granted)
      + if last in cx.retained && !IsExpired(cx.retained[last], now) && env.matches(filter, last)
        then [Pending(cx.retained[last], MinQoS(cx.retained[last].qos, granted), true,
                      if cx.subId.Some? then [cx.subId.value] else [], Label(0, None))]
        else []
  }

  function SendsRetained(f: SubFilter, share: Option<string>, existed: bool): bool {
    share.None? && (f.retainHandling == SendAtSubscribe || (f.retainHandling == SendIfNewSubscription && !existed))
  }

  // The reason a filter is refused, or the parsed filter.
  datatype Judged = Bad(rc: ReasonCode) | Good(parsed: ParsedFilter)

  function Judge(env: Env, cx: SubContext, raw: string): Judged {
    if !env.validFilter(StripShare(raw)) || env.parseFilter(raw).None? then Bad(TopicFilterInvalid)
    else
      var parsed := env.parseFilter(raw).value;
      if !CanSubscribe(env, cx.acl, cx.who, parsed.filter) then Bad(NotAuthorized) else Good(parsed)
  }

  function NewSubscription(env: Env, cx: SubContext, f: SubFilter, parsed: ParsedFilter): Subscription {
    Subscription(parsed.filter, parsed.share, MinQoS(f.qos, env.maximumQos), f.noLocal, f.retainAsPublished, cx.subId)
  }

  function NewRecord(env: Env, cx: SubContext, f: SubFilter): SubRecord {
    SubRecord(f.raw, MinQoS(f.qos, env.maximumQos), f.noLocal, f.retainAsPublished, f.retainHandling, cx.subId)
  }

  function SubscribeOne(env: Env, now: nat, cx: SubContext, acc: SubAcc, f: SubFilter): SubAcc {
    match Judge(env, cx, f.raw)
    case Bad(rc) => acc.(codes := acc.codes + [rc])
    case Good(parsed) =>
      var sub := NewSubscription(env, cx, f, parsed);
      SubAcc(Upsert(acc.subs, sub),
             acc.cmds + (if cx.persistent then [UpsertSubscription(cx.client, NewRecord(env, cx, f))] else []),
             acc.codes + [GrantCode(sub.qos)],
             acc.sends + (if SendsRetained(f, parsed.share, HasSub(acc.subs, parsed.filter, parsed.share))
                          then RetainedSends(env, now, cx, cx.order, parsed.filter, sub.qos) else []))
  }

  function SubscribeAll(env: Env, now: nat, cx: SubContext, acc: SubAcc, filters: seq<SubFilter>): SubAcc {
    if filters == [] then acc
    else SubscribeOne(env, now, cx, SubscribeAll(env, now, cx, acc, filters[..|filters| - 1]), filters[|filters| - 1])
  }

  function ContextOf(st: State, client: string, subId: Option<nat>, order: seq<string>): SubContext
    requires client in st.sessions
  {
    var s := st.sessions[client];
    SubContext(client, Who(s.identity), s.persistent, st.acl, st.retained, order, subId)
  }

  ghost function HandleSubscribe(env: Env, now: nat, st: State, client: string, epoch: nat, packetId: nat,
                                 subId: Option<nat>, filters: seq<SubFilter>, order: seq<string>): Handled
  {
    if !Current(st, client, epoch) then Handled(st, ServerDisconnect(UnspecifiedError))
    else
      var s := st.sessions[client];
      var acc := SubscribeAll(env, now, ContextOf(st, client, subId, order), SubAcc(s.subs, [], [], []), filters);
      var r := GiveAll(env, now, Notify(s.d, Control(Suback(packetId, acc.codes))), acc.sends);
      Handled(PutSession(st, client, s.(subs := acc.subs, d := r.d))
                .(log := st.log + acc.cmds, dropped := st.dropped + r.dropped),
              Continue)
  }

  function UnsubscribeOne(env: Env, cx: SubContext, acc: SubAcc, raw: string): SubAcc {
    var parsed := env.parseFilter(raw);
    var share := if parsed.Some? then parsed.value.share else None;
    var filter := if parsed.Some? then parsed.value.filter else raw;
    var removed := HasSub(acc.subs, filter, share);
    SubAcc(Without(acc.subs, filter, share),
           acc.cmds + (if removed && cx.persistent then [DeleteSubscription(cx.client, raw)] else []),
           acc.codes + [if removed then Success else NoSubscriptionExisted],
           acc.sends)
  }

  function UnsubscribeAll(env: Env, cx: SubContext, acc: SubAcc, filters: seq<string>): SubAcc {
    if filters == [] then acc
    else UnsubscribeOne(env, cx, UnsubscribeAll(env, cx, acc, filters[..|filters| - 1]), filters[|filters| - 1])
  }

  ghost function HandleUnsubscribe(env: Env, st: State, client: string, epoch: nat, packetId: nat,
                                   filters: seq<string>): Handled {
    if !Current(st, client, epoch) then Handled(st, ServerDisconnect(UnspecifiedError))
    else
      var s := st.sessions[client];
      var acc := UnsubscribeAll(env, ContextOf(st, client, None, []), SubAcc(s.subs, [], [], []), filters);
      var d := Notify(s.d, Control(Unsuback(packetId, acc.codes)));
      Handled(PutSession(st, client, s.(subs := acc.subs, d := d)).(log := st.log + acc.cmds), Continue)
  }

  // -------------------------------------------------------------------------
  // Disconnection, expiry and Wills
  // -------------------------------------------------------------------------

  // The second critical section of a DISCONNECT that changes the expiry.
  function UpdateExpiry(env: Env, st: State, client: string, wanted: nat): State {
    if client !in st.sessions then st
    else
      var s := st.sessions[client].(expiry := if wanted <= env.maxSessionExpiry then wanted else env.maxSessionExpiry);
      PutSession(st, client, s).(log := st.log + if s.persistent then [UpsertSession(client, s.expiry, s.identity)]
          else [])
  }

  // The first critical section of a connection's teardown.
  function CloseSession(st: State, client: string, epoch: nat): State {
    if !Current(st, client, epoch) then st
    else
      var s := st.sessions[client];
      PutSession(st, client, s.(aliases := map[], will := None, d := s.d.(out := None)))
  }

  // The removal at the end of a teardown, or when an expiry timer fires.
  function RemoveIfIdle(st: State, client: string, epoch: nat): State {
    if Current(st, client, epoch) && !Online(st.sessions[client].d)
    then st.(sessions := st.sessions - {client}, log := st.log + [DeleteSession(client)])
    else st
  }

  // A delayed Will is cancelled if its client came back.
  predicate WillCancelled(st: State, client: string, epoch: nat) {
    client in st.sessions && (st.sessions[client].epoch != epoch || Online(st.sessions[client].d))
  }

  ghost function FireWill(env: Env, now: nat, st: State, m: Message, o: RouteOrder): State
    requires ValidFor(env, Retain(st, m), Publication(m, None), o)
  {
    RouteIn(env, now, Retain(st, m), Publication(m, None), o)
  }

  // -------------------------------------------------------------------------
  // Policy reload
  // -------------------------------------------------------------------------

  function Pruned(env: Env, acl: Acl, s: Session): Session {
    var kept := Allowed(env, acl, Who(s.identity), s.subs);
    if Denied(env, acl, Who(s.identity), s.subs) == [] then s.(subs := kept)
    else s.(subs := kept, d := Notify(s.d, Shutdown(NotAuthorized)))
  }

  function RevokeCommands(env: Env, acl: Acl, sessions: map<string, Session>, order: seq<string>): seq<Command> {
    if order == [] then []
    else
      var c := order[|order| - 1];
      RevokeCommands(env, acl, sessions, order[..|order| - 1])
      + if c in sessions && sessions[c].persistent
        then Deletions(c, Denied(env, acl, Who(sessions[c].identity), sessions[c].subs)) else []
  }

  function Revoke(env: Env, st: State, acl: Acl, order: seq<string>): State {
    if !acl.enforced then st
    else
      st.(sessions := map c | c in st.sessions :: Pruned(env, acl, st.sessions[c]),
          log := st.log + RevokeCommands(env, acl, st.sessions, order))
  }

  // The pass one session at a time: those in `done` pruned, the others not.
  ghost function PrunedIn(env: Env, acl: Acl, sessions: map<string, Session>, done: seq<string>): map<string, Session> {
    map c | c in sessions :: if c in done then Pruned(env, acl, sessions[c]) else sessions[c]
  }

  lemma {:induction false} PrunedNext(env: Env, acl: Acl, first: map<string, Session>, less: seq<string>, c: string)
    requires c in first && c !in less
    ensures var mid := PrunedIn(env, acl, first, less);
      c in mid && mid[c] == first[c]
      && PrunedIn(env, acl, first, less + [c]) == mid[c := Pruned(env, acl, first[c])]
  {
  }

  lemma {:induction false} PrunedAll(env: Env, acl: Acl, sessions: map<string, Session>, order: seq<string>)
    requires Enumerates(order, sessions.Keys)
    ensures PrunedIn(env, acl, sessions, order) == map c | c in sessions :: Pruned(env, acl, sessions[c])
  {
    forall c | c in sessions ensures c in order {}
  }

  // -------------------------------------------------------------------------
  // Bridges and broker status
  // -------------------------------------------------------------------------

  function RegisterBridge(st: State, client: string, out: Channel): State {
    var s := NewSession(0).(epoch := st.nextEpoch, identity := Some("$bridge"), d := FRESH.(out := Some(out)));
    PutSession(st, client, s).(nextEpoch := st.nextEpoch + 1)
  }

  function BridgeSubscribe(st: State, client: string, filter: string, noLocal: bool): State {
    if client !in st.sessions then st
    else
      var s := st.sessions[client];
      PutSession(st, client, s.(subs := s.subs + [Subscription(filter, None, AtMostOnce, noLocal, true, None)]))
  }

  ghost function Inject(env: Env, now: nat, st: State, from: string, m: Message, o: RouteOrder): State
    requires ValidFor(env, Retain(st, m), Publication(m, Some(from)), o)
  {
    RouteIn(env, now, Retain(st, m), Publication(m, Some(from)), o)
  }

  function DeregisterBridge(st: State, client: string, epoch: nat): State {
    if Current(st, client, epoch) then st.(sessions := st.sessions - {client}) else st
  }

  function SysMessage(topic: string, payload: seq<byte>): Message {
    Message(topic, payload, AtMostOnce, true, "utf-8", None)
  }

  // Status is retained in memory only.
  ghost function PublishSys(env: Env, now: nat, st: State, topic: string, payload: seq<byte>, o: RouteOrder): State
    requires ValidFor(env, st, Publication(SysMessage(topic, payload), None), o)
  {
    var m := SysMessage(topic, payload);
    RouteIn(env, now, st.(retained := st.retained[topic := m]), Publication(m, None), o)
  }

  // The purge of expired retained messages, in memory only.
  function Purge(st: State, now: nat): State {
    st.(retained := map t | t in st.retained && !IsExpired(st.retained[t], now) :: st.retained[t])
  }
}
