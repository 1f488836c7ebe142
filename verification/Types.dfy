// The values that flow through the broker: messages, packets, and the
// external functions and settings it is configured with.

module Types {

  const MAX_ID: nat := 65535

  datatype Option<+T> = None | Some(value: T)

  newtype byte = x: int | 0 <= x < 256

  datatype QoS = AtMostOnce | AtLeastOnce | ExactlyOnce

  function Rank(q: QoS): nat {
    match q
    case AtMostOnce => 0
    case AtLeastOnce => 1
    case ExactlyOnce => 2
  }

  function MinQoS(a: QoS, b: QoS): QoS {
    if Rank(a) <= Rank(b) then a else b
  }

  // QoS levels are ordered as the protocol orders them.
  lemma {:induction false} RankOrders(a: QoS, b: QoS)
    ensures Rank(a) <= Rank(b) <==> a == b || a == AtMostOnce || b == ExactlyOnce
  {
  }

  /** `q` is the lower of two levels: it exceeds neither and is one of them. */
  ghost predicate IsLower(a: QoS, b: QoS, q: QoS) {
    Rank(q) <= Rank(a) && Rank(q) <= Rank(b) && (q == a || q == b)
  }

  datatype ReasonCode =
    | Success
    | GrantedQoS1
    | GrantedQoS2
    | DisconnectWithWillMessage
    | NoMatchingSubscribers
    | NoSubscriptionExisted
    | UnspecifiedError
    | NotAuthorized
    | TopicFilterInvalid
    | TopicNameInvalid
    | TopicAliasInvalid
    | QoSNotSupported
    | RetainNotSupported
    | ClientIdentifierNotValid
    | PacketIdentifierNotFound
    | SessionTakenOver
  {
    // The code on the wire (section 2.4 of MQTT 5.0).
    function Code(): nat {
      match this
      case Success => 0x00
      case GrantedQoS1 => 0x01
      case GrantedQoS2 => 0x02
      case DisconnectWithWillMessage => 0x04
      case NoMatchingSubscribers => 0x10
      case NoSubscriptionExisted => 0x11
      case UnspecifiedError => 0x80
      case ClientIdentifierNotValid => 0x85
      case NotAuthorized => 0x87
      case SessionTakenOver => 0x8E
      case TopicFilterInvalid => 0x8F
      case TopicNameInvalid => 0x90
      case PacketIdentifierNotFound => 0x92
      case TopicAliasInvalid => 0x94
      case RetainNotSupported => 0x9A
      case QoSNotSupported => 0x9B
    }

    predicate IsError() {
      !(Success? || GrantedQoS1? || GrantedQoS2? || DisconnectWithWillMessage?
        || NoMatchingSubscribers? || NoSubscriptionExisted?)
    }
  }

  // The codes are told apart on the wire, and the errors are those of 0x80 and
  // above.
  lemma {:induction false} CodesAreDistinct(a: ReasonCode, b: ReasonCode)
    ensures a.Code() == b.Code() <==> a == b
    ensures a.IsError() <==> a.Code() >= 0x80
  {
  }

  /** An application message. `props` stands for the forwarded properties
      (payload format, content type, response topic, correlation data, user
      properties), which no decision reads. `expiresAt` is an absolute time. */
  datatype Message = Message(
    topic: string,
    payload: seq<byte>,
    qos: QoS,
    retain: bool,
    props: string,
    expiresAt: Option<nat>)

  /** A history label carried beside a delivery. No branch of the model reads
      it; theorems use it to name one delivery (`serial`) and the client the
      message was routed on behalf of (`origin`). */
  datatype Label = Label(serial: nat, origin: Option<string>)

  const UNLABELLED := Label(0, None)

  /** A message waiting in a session's queue. */
  datatype Pending = Pending(
    message: Message,
    qos: QoS,
    retain: bool,
    subIds: seq<nat>,
    lbl: Label)

  datatype Publish = Publish(
    dup: bool,
    qos: QoS,
    retain: bool,
    topic: string,
    packetId: Option<nat>,
    payload: seq<byte>,
    props: string,
    expiry: Option<nat>,
    subIds: seq<nat>,
    lbl: Label)

  datatype Packet =
    | Puback(id: nat, rc: ReasonCode)
    | Pubrec(id: nat, rc: ReasonCode)
    | Pubrel(id: nat, rc: ReasonCode)
    | Pubcomp(id: nat, rc: ReasonCode)
    | Suback(id: nat, codes: seq<ReasonCode>)
    | Unsuback(id: nat, codes: seq<ReasonCode>)

  datatype Outgoing =
    | Send(publish: Publish)
    | Control(packet: Packet)
    | Shutdown(reason: ReasonCode)

  /** What a filter string parses into: an optional share name and the filter
      that topics are matched against. */
  datatype ParsedFilter = ParsedFilter(share: Option<string>, filter: string)

  /** The functions of the protocol crate the broker calls, and the settings of
      its configuration that decide branches. */
  datatype Env = Env(
    matches: (string, string) -> bool,
    parseFilter: string -> Option<ParsedFilter>,
    validFilter: string -> bool,
    validTopic: string -> bool,
    wireSize: Publish -> Option<nat>,
    maxQueued: nat,
    maximumQos: QoS,
    retainAvailable: bool,
    topicAliasMaximum: nat,
    maxSessionExpiry: nat)

  function RemainingExpiry(m: Message, now: nat): Option<nat> {
    match m.expiresAt
    case None => None
    case Some(deadline) =>
      if deadline <= now then Some(0)
      else Some(if deadline - now < 0xFFFF_FFFF then deadline - now else 0xFFFF_FFFF)
  }

  predicate IsExpired(m: Message, now: nat) {
    RemainingExpiry(m, now) == Some(0)
  }

  // Expiry is final: a clock that only moves forward never revives a message.
  lemma {:induction false} ExpiryIsFinal(m: Message, now: nat, later: nat)
    requires now <= later
    ensures IsExpired(m, now) <==> m.expiresAt.Some? && m.expiresAt.value <= now
    ensures IsExpired(m, now) ==> IsExpired(m, later)
  {
  }

  function ToPublish(m: Message, now: nat, qos: QoS, id: Option<nat>, retain: bool,
                     subIds: seq<nat>, lbl: Label): Publish
  {
    Publish(false, qos, retain, m.topic, if qos == AtMostOnce then None else id,
            m.payload, m.props, RemainingExpiry(m, now), subIds, lbl)
  }

  /** What is left of a message's life at `sent`: nothing to say if it has no
      deadline, else the seconds until then, as many as 32 bits hold. */
  ghost predicate IsRest(deadline: Option<nat>, sent: nat, rest: Option<nat>) {
    match deadline
    case None => rest == None
    case Some(t) =>
      rest.Some? && sent < t && rest.value <= 0xFFFF_FFFF
      && (sent + rest.value == t || (rest.value == 0xFFFF_FFFF && sent + rest.value < t))
  }

  /** The PUBLISH `p`, written at `sent`, is a delivery of `g`: its content is the
      message's, and flags, level and identifiers are those of the delivery. */
  ghost predicate Carries(p: Publish, g: Pending, sent: nat) {
    && p.topic == g.message.topic && p.payload == g.message.payload && p.props == g.message.props
    && IsRest(g.message.expiresAt, sent, p.expiry)
    && p.qos == g.qos && p.retain == g.retain && p.subIds == g.subIds && p.lbl == g.lbl
    && (p.packetId.Some? <==> p.qos != AtMostOnce)
  }

  lemma {:induction false} ToPublishCarries(g: Pending, now: nat, id: Option<nat>)
    requires !IsExpired(g.message, now) && (g.qos != AtMostOnce ==> id.Some?)
    ensures Carries(ToPublish(g.message, now, g.qos, id, g.retain, g.subIds, g.lbl), g, now)
  {
  }

  ghost predicate NoRepeat(s: seq<nat>) {
    forall j, k :: 0 <= j < k < |s| ==> s[j] != s[k]
  }

  /** `order` lists every element of `s` exactly once: one possible iteration
      order of a hash table. */
  predicate Enumerates<T(==)>(order: seq<T>, s: set<T>) {
    && (forall i, j :: 0 <= i < j < |order| ==> order[i] != order[j])
    && (forall x :: x in order ==> x in s)
    && (forall x :: x in s ==> x in order)
  }
}
