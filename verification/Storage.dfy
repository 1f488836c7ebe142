// The persistence log: commands sent under the broker's lock, applied in order
// to the database, and read back at start-up.

module Storage {
  import opened Types

  datatype RetainHandling = SendAtSubscribe | SendIfNewSubscription | DoNotSend

  /** A persisted subscription; `filter` is the filter as the client wrote it. */
  datatype SubRecord = SubRecord(
    filter: string,
    qos: QoS,
    noLocal: bool,
    retainAsPublished: bool,
    retainHandling: RetainHandling,
    subId: Option<nat>)

  datatype Command =
    | UpsertRetained(topic: string, message: Message)
    | DeleteRetained(topic: string)
    | UpsertSession(client: string, expiry: nat, owner: Option<string>)
    | DeleteSession(client: string)
    | UpsertSubscription(client: string, sub: SubRecord)
    | DeleteSubscription(client: string, filter: string)
    | ClearSubscriptions(client: string)

  datatype Row = Row(expiry: nat, owner: Option<string>)

  type Key = (string, string)

  datatype Database = Database(
    retained: map<string, Message>,
    sessions: map<string, Row>,
    subs: map<Key, SubRecord>)

  const EMPTY := Database(map[], map[], map[])

  function WithoutClient(subs: map<Key, SubRecord>, client: string): map<Key, SubRecord> {
    map k | k in subs && k.0 != client :: subs[k]
  }

  // One command. A subscription row needs its session row: without it the
  // insert violates the foreign key and changes nothing.
  function Applied(db: Database, cmd: Command): Database {
    match cmd
    case UpsertRetained(topic, message) => db.(retained := db.retained[topic := message])
    case DeleteRetained(topic) => db.(retained := db.retained - {topic})
    case UpsertSession(client, expiry, owner) => db.(sessions := db.sessions[client := Row(expiry, owner)])
    case DeleteSession(client) =>
      db.(subs := WithoutClient(db.subs, client), sessions := db.sessions - {client})
    case UpsertSubscription(client, sub) =>
      if client in db.sessions then db.(subs := db.subs[(client, sub.filter) := sub]) else db
    case DeleteSubscription(client, filter) => db.(subs := db.subs - {(client, filter)})
    case ClearSubscriptions(client) => db.(subs := WithoutClient(db.subs, client))
  }

  // The database after a log of commands, in order.
  function AppliedAll(db: Database, cmds: seq<Command>): Database {
    if cmds == [] then db else Applied(AppliedAll(db, cmds[..|cmds| - 1]), cmds[|cmds| - 1])
  }
}
