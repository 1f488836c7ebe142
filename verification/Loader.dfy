// The database as the writer thread and the start-up code see it: commands
// applied in place, and the lists read back when the broker starts.

module Loader {
  import opened Types
  import opened Storage
  import R = Router
  import B = Broker
  import opened DiskRows
  import Reload

  /** One session as it is read from disk. */
  datatype SessionRecord = SessionRecord(client: string, expiry: nat, owner: Option<string>, subs: seq<SubRecord>)

  // -------------------------------------------------------------------------
  // What is read
  // -------------------------------------------------------------------------

  // The unexpired retained rows, as messages.
  function RetainedRows(db: Database, now: nat, topics: seq<string>): seq<(string, Message)>
    requires forall t :: t in topics ==> t in db.retained
  {
    if topics == [] then []
    else
      var t := topics[|topics| - 1];
      RetainedRows(db, now, topics[..|topics| - 1])
      + if IsExpired(db.retained[t], now) then [] else [(t, Reload.LoadMessage(t, db.retained[t]))]
  }

  function SubRows(db: Database, client: string, order: seq<string>): seq<SubRecord>
    requires forall raw :: raw in order ==> (client, raw) in db.subs
  {
    if order == [] then []
    else SubRows(db, client, order[..|order| - 1]) + [db.subs[(client, order[|order| - 1])]]
  }

  ghost predicate Readable(db: Database, orders: string -> seq<string>) {
    forall c, raw :: raw in orders(c) ==> (c, raw) in db.subs
  }

  function Records(db: Database, clients: seq<string>, orders: string -> seq<string>): seq<SessionRecord>
    requires (forall c :: c in clients ==> c in db.sessions) && Readable(db, orders)
  {
    if clients == [] then []
    else
      var c := clients[|clients| - 1];
      Records(db, clients[..|clients| - 1], orders)
      + [SessionRecord(c, db.sessions[c].expiry, db.sessions[c].owner, SubRows(db, c, orders(c)))]
  }

  // -------------------------------------------------------------------------
  // What is made of it
  // -------------------------------------------------------------------------

  function LoadList(env: Env, subs: seq<SubRecord>): seq<R.Subscription> {
    if subs == [] then [] else LoadList(env, subs[..|subs| - 1]) + [LoadSub(env, subs[|subs| - 1])]
  }

  function RestoreOne(env: Env, rec: SessionRecord): R.Session {
    B.NewSession(rec.expiry).(identity := rec.owner, persistent := true, subs := LoadList(env, rec.subs))
  }

  function RestoreSessions(env: Env, records: seq<SessionRecord>): map<string, R.Session> {
    if records == [] then map[]
    else
      var rec, less := records[|records| - 1], RestoreSessions(env, records[..|records| - 1]);
      if B.Reserved(rec.client) then less else less[rec.client := RestoreOne(env, rec)]
  }

  function RetainedMap(rows: seq<(string, Message)>): map<string, Message> {
    if rows == [] then map[] else RetainedMap(rows[..|rows| - 1])[rows[|rows| - 1].0 := rows[|rows| - 1].1]
  }

  function Restored(env: Env, acl: B.Acl, rows: seq<(string, Message)>, records: seq<SessionRecord>): B.State {
    B.State(RestoreSessions(env, records), RetainedMap(rows), map[], 1, [], acl, 0)
  }

  class Store {
    var retained: map<string, Message>
    var sessions: map<string, Row>
    var subs: map<Key, SubRecord>

    ghost function View(): Database
      reads this
    {
      Database(retained, sessions, subs)
    }

    method Apply(cmd: Command)
      modifies this
      ensures View() == Applied(old(View()), cmd)
    {
      match cmd
      case UpsertRetained(topic, message) => retained := retained[topic := message];
      case DeleteRetained(topic) => retained := retained - {topic};
      case UpsertSession(client, expiry, owner) => sessions := sessions[client := Row(expiry, owner)];
      case DeleteSession(client) =>
        subs := map k | k in subs && k.0 != client :: subs[k];
        sessions := sessions - {client};
      case UpsertSubscription(client, sub) => if client in sessions { subs := subs[(client, sub.filter) := sub]; }
      case DeleteSubscription(client, filter) => subs := subs - {(client, filter)};
      case ClearSubscriptions(client) => subs := map k | k in subs && k.0 != client :: subs[k];
    }

    // The writer: commands in the order they were sent.
    method ApplyAll(cmds: seq<Command>)
      modifies this
      ensures View() == AppliedAll(old(View()), cmds)
    {
      for i := 0 to |cmds|
        invariant View() == AppliedAll(old(View()), cmds[..i])
      {
        assert cmds[..i + 1][..i] == cmds[..i];
        Apply(cmds[i]);
      }
      assert cmds[..|cmds|] == cmds;
    }

    method LoadSubRows(client: string, order: seq<string>) returns (list: seq<SubRecord>)
      requires forall raw :: raw in order ==> (client, raw) in subs
      ensures list == SubRows(View(), client, order)
    {
      list := [];
      for i := 0 to |order|
        invariant list == SubRows(View(), client, order[..i])
      {
        assert order[..i + 1][..i] == order[..i];
        list := list + [subs[(client, order[i])]];
      }
      assert order[..|order|] == order;
    }

    method LoadAll(now: nat, topics: seq<string>, clients: seq<string>, orders: string -> seq<string>)
      returns (rows: seq<(string, Message)>, records: seq<SessionRecord>)
      requires (forall t :: t in topics ==> t in retained) && (forall c :: c in clients ==> c in sessions)
      requires Readable(View(), orders)
      ensures rows == RetainedRows(View(), now, topics) && records == Records(View(), clients, orders)
    {
      rows, records := [], [];
      for i := 0 to |topics|
        invariant rows == RetainedRows(View(), now, topics[..i])
      {
        assert topics[..i + 1][..i] == topics[..i];
        var m := retained[topics[i]].(topic := topics[i], retain := true);
        if !IsExpired(m, now) { rows := rows + [(topics[i], m)]; }
      }
      assert topics[..|topics|] == topics;
      for i := 0 to |clients|
        invariant records == Records(View(), clients[..i], orders)
      {
        var c := clients[i];
        assert clients[..i + 1][..i] == clients[..i];
        var list := LoadSubRows(c, orders(c));
        records := records + [SessionRecord(c, sessions[c].expiry, sessions[c].owner, list)];
      }
      assert clients[..|clients|] == clients;
    }
  }

  // -------------------------------------------------------------------------
  // Reading and restoring is loading
  // -------------------------------------------------------------------------

  lemma {:induction false} ListIsLoaded(env: Env, db: Database, c: string, order: seq<string>)
    requires forall raw :: raw in order ==> (c, raw) in db.subs && raw in DiskOf(db, c).subs
    ensures LoadList(env, SubRows(db, c, order)) == LoadSubs(env, DiskOf(db, c).subs, order)
  {
    if order != [] {
      var n := |order| - 1;
      ListIsLoaded(env, db, c, order[..n]);
      RowAt(db, c, order[n]);
      assert SubRows(db, c, order)[..n] == SubRows(db, c, order[..n]) by { RowsCount(db, c, order[..n]); }
    }
  }

  lemma {:induction false} RowsCount(db: Database, c: string, order: seq<string>)
    requires forall raw :: raw in order ==> (c, raw) in db.subs
    ensures |SubRows(db, c, order)| == |order|
  {
    if order != [] { RowsCount(db, c, order[..|order| - 1]); }
  }

  lemma {:induction false} SessionsAreLoaded(env: Env, db: Database, clients: seq<string>,
                                             orders: string -> seq<string>, c: string)
    requires (forall k :: k in clients ==> k in db.sessions) && Readable(db, orders) && Reload.Orders(db, orders)
    ensures var restored := RestoreSessions(env, Records(db, clients, orders));
      && (c in restored <==> c in clients && !B.Reserved(c))
      && (c in restored ==> restored[c] == Reload.LoadSession(env, db, c, orders(c)))
  {
    if clients != [] {
      var n := |clients| - 1;
      assert clients == clients[..n] + [clients[n]];
      var last := Records(db, clients, orders);
      RecordsCount(db, clients[..n], orders);
      assert last[..n] == Records(db, clients[..n], orders);
      SessionsAreLoaded(env, db, clients[..n], orders, c);
      if clients[n] == c { ListIsLoaded(env, db, c, orders(c)); }
    }
  }

  lemma {:induction false} RecordsCount(db: Database, clients: seq<string>, orders: string -> seq<string>)
    requires (forall k :: k in clients ==> k in db.sessions) && Readable(db, orders)
    ensures |Records(db, clients, orders)| == |clients|
  {
    if clients != [] { RecordsCount(db, clients[..|clients| - 1], orders); }
  }

  lemma {:induction false} RetainedAreLoaded(db: Database, now: nat, topics: seq<string>, t: string)
    requires forall k :: k in topics ==> k in db.retained
    ensures var restored := RetainedMap(RetainedRows(db, now, topics));
      && (t in restored <==> t in topics && !IsExpired(db.retained[t], now))
      && (t in restored ==> restored[t] == Reload.LoadMessage(t, db.retained[t]))
  {
    if topics != [] {
      var n := |topics| - 1;
      assert topics == topics[..n] + [topics[n]];
      RetainedAreLoaded(db, now, topics[..n], t);
      var rows, less := RetainedRows(db, now, topics), RetainedRows(db, now, topics[..n]);
      if IsExpired(db.retained[topics[n]], now) { assert rows == less; } else { assert rows[..|rows| - 1] == less; }
    }
  }

  lemma {:induction false} OrdersAreReadable(db: Database, orders: string -> seq<string>)
    requires Reload.Orders(db, orders)
    ensures Readable(db, orders)
  {
    forall c, raw | raw in orders(c) ensures (c, raw) in db.subs { RowAt(db, c, raw); }
  }

  // Whatever order the tables are read in, restoring the lists read from a
  // database gives the state a broker on that database starts in.
  lemma {:induction false} RestoredIsLoaded(env: Env, now: nat, db: Database, topics: seq<string>,
                                            clients: seq<string>, orders: string -> seq<string>, acl: B.Acl)
    requires Enumerates(topics, db.retained.Keys) && Enumerates(clients, db.sessions.Keys)
    requires Reload.Orders(db, orders) && Readable(db, orders)
    ensures Restored(env, acl, RetainedRows(db, now, topics), Records(db, clients, orders))
            == Reload.Load(env, now, db, orders, acl)
  {
    AllSessionsLoaded(env, db, clients, orders);
    AllRetainedLoaded(db, now, topics);
  }

  lemma {:induction false} AllSessionsLoaded(env: Env, db: Database, clients: seq<string>,
                                             orders: string -> seq<string>)
    requires Enumerates(clients, db.sessions.Keys) && Reload.Orders(db, orders) && Readable(db, orders)
    ensures RestoreSessions(env, Records(db, clients, orders))
            == map c | c in db.sessions && !B.Reserved(c) :: Reload.LoadSession(env, db, c, orders(c))
  {
    var sessions := RestoreSessions(env, Records(db, clients, orders));
    forall c ensures c in sessions <==> c in db.sessions && !B.Reserved(c)
             ensures c in sessions ==> sessions[c] == Reload.LoadSession(env, db, c, orders(c))
    {
      SessionsAreLoaded(env, db, clients, orders, c);
    }
  }

  lemma {:induction false} AllRetainedLoaded(db: Database, now: nat, topics: seq<string>)
    requires Enumerates(topics, db.retained.Keys)
    ensures RetainedMap(RetainedRows(db, now, topics)) == Reload.LoadRetained(db, now)
  {
    var retained := RetainedMap(RetainedRows(db, now, topics));
    forall t ensures t in retained <==> t in Reload.LoadRetained(db, now)
             ensures t in retained ==> retained[t] == Reload.LoadRetained(db, now)[t]
    {
      RetainedAreLoaded(db, now, topics, t);
    }
  }
}
