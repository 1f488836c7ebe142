// What the database holds about one client, how commands change it, and when
// it mirrors the subscriptions of a session in memory.

module DiskRows {
  import opened Types
  import opened Router
  import opened Storage
  import opened Broker

  /** One client's rows. */
  datatype Disk = Disk(row: Option<Row>, subs: map<string, SubRecord>)

  function DiskOf(db: Database, c: string): Disk {
    Disk(if c in db.sessions then Some(db.sessions[c]) else None,
         map k | k in db.subs && k.0 == c :: k.1 := db.subs[k])
  }

  // What a command does to the rows of client `c`.
  function OnDisk(disk: Disk, c: string, cmd: Command): Disk {
    match cmd
    case UpsertSession(client, expiry, owner) => if client == c then disk.(row := Some(Row(expiry, owner))) else disk
    case DeleteSession(client) => if client == c then Disk(None, map[]) else disk
    case UpsertSubscription(client, sub) =>
      if client == c && disk.row.Some? then disk.(subs := disk.subs[sub.filter := sub]) else disk
    case DeleteSubscription(client, filter) => if client == c then disk.(subs := disk.subs - {filter}) else disk
    case ClearSubscriptions(client) => if client == c then disk.(subs := map[]) else disk
    case _ => disk
  }

  function OnDiskAll(disk: Disk, c: string, cmds: seq<Command>): Disk {
    if cmds == [] then disk else OnDisk(OnDiskAll(disk, c, cmds[..|cmds| - 1]), c, cmds[|cmds| - 1])
  }

  // Commands act on each client's rows separately.
  lemma {:induction false} DiskFollows(db: Database, c: string, cmd: Command)
    ensures DiskOf(Applied(db, cmd), c) == OnDisk(DiskOf(db, c), c, cmd)
  {
    SubsFollow(db, c, cmd);
  }

  lemma {:induction false} SubsFollow(db: Database, c: string, cmd: Command)
    ensures DiskOf(Applied(db, cmd), c).subs == OnDisk(DiskOf(db, c), c, cmd).subs
  {
    var have, want := DiskOf(Applied(db, cmd), c).subs, OnDisk(DiskOf(db, c), c, cmd).subs;
    forall raw ensures raw in have <==> raw in want
               ensures raw in want ==> have[raw] == want[raw]
    {
      RowFollows(db, c, cmd, raw);
    }
  }

  lemma {:induction false} RowFollows(db: Database, c: string, cmd: Command, raw: string)
    ensures var have, want := DiskOf(Applied(db, cmd), c).subs, OnDisk(DiskOf(db, c), c, cmd).subs;
      (raw in have <==> raw in want) && (raw in want ==> have[raw] == want[raw])
  {
    RowAt(Applied(db, cmd), c, raw);
    RowAt(db, c, raw);
  }

  lemma {:induction false} RowAt(db: Database, c: string, raw: string)
    ensures raw in DiskOf(db, c).subs <==> (c, raw) in db.subs
    ensures raw in DiskOf(db, c).subs ==> DiskOf(db, c).subs[raw] == db.subs[(c, raw)]
  {
    if raw in DiskOf(db, c).subs {
      var k :| k in db.subs && k.0 == c && k.1 == raw;
      assert k == (c, raw);
    }
    if (c, raw) in db.subs {
      assert (c, raw).0 == c && (c, raw).1 == raw;
    }
  }

  lemma {:induction false} DiskFollowsAll(db: Database, c: string, cmds: seq<Command>)
    ensures DiskOf(AppliedAll(db, cmds), c) == OnDiskAll(DiskOf(db, c), c, cmds)
  {
    if cmds != [] {
      var n := |cmds| - 1;
      DiskFollowsAll(db, c, cmds[..n]);
      DiskFollows(AppliedAll(db, cmds[..n]), c, cmds[n]);
    }
  }

  lemma {:induction false} AppliedConcat(db: Database, a: seq<Command>, b: seq<Command>)
    ensures AppliedAll(db, a + b) == AppliedAll(AppliedAll(db, a), b)
  {
    if b == [] {
      assert a + b == a;
    } else {
      var n := |b| - 1;
      AppliedConcat(db, a, b[..n]);
      assert (a + b)[..|a + b| - 1] == a + b[..n];
    }
  }

  lemma {:induction false} OnDiskConcat(disk: Disk, c: string, a: seq<Command>, b: seq<Command>)
    ensures OnDiskAll(disk, c, a + b) == OnDiskAll(OnDiskAll(disk, c, a), c, b)
  {
    if b == [] {
      assert a + b == a;
    } else {
      var n := |b| - 1;
      OnDiskConcat(disk, c, a, b[..n]);
      assert (a + b)[..|a + b| - 1] == a + b[..n];
    }
  }

  lemma {:induction false} OnDiskOne(disk: Disk, c: string, cmd: Command)
    ensures OnDiskAll(disk, c, [cmd]) == OnDisk(disk, c, cmd)
  {
    assert [cmd][..0] == [];
  }

  // -------------------------------------------------------------------------
  // Stored and loaded subscriptions
  // -------------------------------------------------------------------------

  /** What is assumed of the protocol crate's parser: it loses nothing, so the
      filter as written is the one rebuilt from its parts. */
  ghost predicate ParseCanonical(env: Env) {
    forall raw :: env.parseFilter(raw).Some? ==> Splits(raw, env.parseFilter(raw).value)
  }

  ghost predicate Splits(raw: string, p: ParsedFilter) {
    raw == match p.share case None => p.filter case Some(name) => "$share/" + name + "/" + p.filter
  }

  function Resolve(env: Env, raw: string): ParsedFilter {
    if env.parseFilter(raw).Some? then env.parseFilter(raw).value else ParsedFilter(None, raw)
  }

  // A row read back into memory.
  function LoadSub(env: Env, rec: SubRecord): Subscription {
    var p := Resolve(env, rec.filter);
    Subscription(p.filter, p.share, rec.qos, rec.noLocal, rec.retainAsPublished, rec.subId)
  }

  function Key(s: Subscription): string {
    KeyOf(s.share, s.filter)
  }

  ghost predicate FiledRows(rows: map<string, SubRecord>) {
    forall raw :: raw in rows ==> rows[raw].filter == raw
  }

  ghost predicate DistinctSubs(subs: seq<Subscription>) {
    forall i, j :: 0 <= i < j < |subs| ==> !SameKey(subs[i], subs[j].filter, subs[j].share)
  }

  ghost predicate InRows(env: Env, rows: map<string, SubRecord>, s: Subscription) {
    Key(s) in rows && LoadSub(env, rows[Key(s)]) == s
  }

  /** The rows are exactly the subscriptions: each once, nothing else. */
  ghost predicate Mirrors(env: Env, subs: seq<Subscription>, rows: map<string, SubRecord>) {
    && DistinctSubs(subs) && FiledRows(rows)
    && (forall s :: s in subs <==> InRows(env, rows, s))
  }

  lemma {:induction false} LoadSubKey(env: Env, rec: SubRecord)
    requires ParseCanonical(env)
    ensures Key(LoadSub(env, rec)) == rec.filter
  {
  }

  // Among mirrored subscriptions, the stored key and the pair of share and
  // filter identify the same one.
  lemma {:induction false} KeyIdentifies(env: Env, subs: seq<Subscription>, rows: map<string, SubRecord>,
                                         s: Subscription, raw: string)
    requires Mirrors(env, subs, rows) && s in subs && ParseCanonical(env)
    ensures Key(s) == raw <==> SameKey(s, Resolve(env, raw).filter, Resolve(env, raw).share)
  {
    assert InRows(env, rows, s);
  }

  // -------------------------------------------------------------------------
  // Upsert, removal and pruning keep the mirror
  // -------------------------------------------------------------------------

  lemma {:induction false} UpsertMembers(subs: seq<Subscription>, sub: Subscription)
    requires DistinctSubs(subs)
    ensures forall s :: s in Upsert(subs, sub) <==> s == sub || (s in subs && !SameKey(s, sub.filter, sub.share))
    ensures DistinctSubs(Upsert(subs, sub))
  {
    if subs != [] {
      var rest := subs[1..];
      DistinctTail(subs);
      if SameKey(subs[0], sub.filter, sub.share) {
        DistinctCons(sub, rest);
      } else {
        UpsertMembers(rest, sub);
        DistinctCons(subs[0], Upsert(rest, sub));
      }
    }
  }

  lemma {:induction false} DistinctCons(x: Subscription, rest: seq<Subscription>)
    requires DistinctSubs(rest) && forall s :: s in rest ==> !SameKey(x, s.filter, s.share)
    ensures DistinctSubs([x] + rest)
  {
    var all := [x] + rest;
    forall i, j | 0 <= i < j < |all| ensures !SameKey(all[i], all[j].filter, all[j].share) {
      assert all[j] == rest[j - 1] && all[j] in rest;
      if i > 0 { assert all[i] == rest[i - 1]; }
    }
  }

  lemma {:induction false} DistinctTail(subs: seq<Subscription>)
    requires DistinctSubs(subs) && subs != []
    ensures DistinctSubs(subs[1..]) && forall s :: s in subs[1..] ==> !SameKey(subs[0], s.filter, s.share)
    ensures forall s :: s in subs <==> s == subs[0] || s in subs[1..]
  {
    var rest := subs[1..];
    assert subs == [subs[0]] + rest;
    forall s | s in rest ensures !SameKey(subs[0], s.filter, s.share) {
      var j :| 0 <= j < |rest| && rest[j] == s;
      assert subs[j + 1] == s;
    }
    forall i, j | 0 <= i < j < |rest| ensures !SameKey(rest[i], rest[j].filter, rest[j].share) {
      assert rest[i] == subs[i + 1] && rest[j] == subs[j + 1];
    }
  }

  lemma {:induction false} WithoutMembers(subs: seq<Subscription>, filter: string, share: Option<string>)
    requires DistinctSubs(subs)
    ensures forall s :: s in Without(subs, filter, share) <==> s in subs && !SameKey(s, filter, share)
    ensures DistinctSubs(Without(subs, filter, share))
  {
    if subs != [] {
      DistinctTail(subs);
      WithoutMembers(subs[1..], filter, share);
      if SameKey(subs[0], filter, share) {
        assert Without(subs, filter, share) == Without(subs[1..], filter, share);
      } else {
        DistinctCons(subs[0], Without(subs[1..], filter, share));
      }
    }
  }

  lemma {:induction false} AllowedMembers(env: Env, acl: Acl, who: string, subs: seq<Subscription>)
    requires DistinctSubs(subs)
    ensures forall s :: s in Allowed(env, acl, who, subs) <==> s in subs && CanSubscribe(env, acl, who, s.filter)
    ensures forall s :: s in Denied(env, acl, who, subs) <==> s in subs && !CanSubscribe(env, acl, who, s.filter)
    ensures DistinctSubs(Allowed(env, acl, who, subs))
  {
    if subs != [] {
      DistinctTail(subs);
      AllowedMembers(env, acl, who, subs[1..]);
      if CanSubscribe(env, acl, who, subs[0].filter) {
        DistinctCons(subs[0], Allowed(env, acl, who, subs[1..]));
        assert Denied(env, acl, who, subs) == Denied(env, acl, who, subs[1..]);
      } else {
        assert Allowed(env, acl, who, subs) == Allowed(env, acl, who, subs[1..]);
      }
    }
  }

  lemma {:induction false} UpsertMirrors(env: Env, subs: seq<Subscription>, rows: map<string, SubRecord>,
                                         rec: SubRecord)
    requires Mirrors(env, subs, rows) && ParseCanonical(env)
    ensures Mirrors(env, Upsert(subs, LoadSub(env, rec)), rows[rec.filter := rec])
  {
    var sub, rows' := LoadSub(env, rec), rows[rec.filter := rec];
    UpsertMembers(subs, sub);
    LoadSubKey(env, rec);
    forall s ensures s in Upsert(subs, sub) <==> InRows(env, rows', s) {
      if s in subs { KeyIdentifies(env, subs, rows, s, rec.filter); }
      assert s in subs <==> InRows(env, rows, s);
    }
  }

  lemma {:induction false} WithoutMirrors(env: Env, subs: seq<Subscription>, rows: map<string, SubRecord>, raw: string)
    requires Mirrors(env, subs, rows) && ParseCanonical(env)
    ensures Mirrors(env, Without(subs, Resolve(env, raw).filter, Resolve(env, raw).share), rows - {raw})
  {
    var p := Resolve(env, raw);
    WithoutMembers(subs, p.filter, p.share);
    forall s ensures s in Without(subs, p.filter, p.share) <==> InRows(env, rows - {raw}, s) {
      if s in subs { KeyIdentifies(env, subs, rows, s, raw); }
      assert s in subs <==> InRows(env, rows, s);
    }
  }

  lemma {:induction false} AbsentKey(env: Env, subs: seq<Subscription>, rows: map<string, SubRecord>, raw: string)
    requires Mirrors(env, subs, rows) && ParseCanonical(env)
    ensures HasSub(subs, Resolve(env, raw).filter, Resolve(env, raw).share) <==> raw in rows
  {
    var p := Resolve(env, raw);
    if raw in rows {
      var s := LoadSub(env, rows[raw]);
      LoadSubKey(env, rows[raw]);
      assert InRows(env, rows, s) && s in subs;
    }
    if HasSub(subs, p.filter, p.share) {
      var i :| 0 <= i < |subs| && SameKey(subs[i], p.filter, p.share);
      assert subs[i] in subs;
      KeyIdentifies(env, subs, rows, subs[i], raw);
      assert InRows(env, rows, subs[i]);
    }
  }

  // Deleting the rows of `gone` one by one.
  lemma {:induction false} DeletionsOnDisk(disk: Disk, c: string, gone: seq<Subscription>)
    ensures var d' := OnDiskAll(disk, c, Deletions(c, gone));
      && d'.row == disk.row
      && (forall raw :: raw in d'.subs <==> raw in disk.subs && forall s :: s in gone ==> Key(s) != raw)
      && (forall raw :: raw in d'.subs ==> d'.subs[raw] == disk.subs[raw])
    decreases |gone|
  {
    if gone != [] {
      var cmd := DeleteSubscription(c, Key(gone[0]));
      var rest := gone[1..];
      assert gone == [gone[0]] + rest;
      OnDiskConcat(disk, c, [cmd], Deletions(c, rest));
      OnDiskOne(disk, c, cmd);
      DeletionsOnDisk(OnDisk(disk, c, cmd), c, rest);
      assert forall s :: s in gone <==> s == gone[0] || s in rest;
    }
  }

  lemma {:induction false} DeletionsElsewhere(disk: Disk, c: string, other: string, gone: seq<Subscription>)
    requires c != other
    ensures OnDiskAll(disk, c, Deletions(other, gone)) == disk
  {
    if gone != [] {
      var cmd := DeleteSubscription(other, Key(gone[0]));
      OnDiskConcat(disk, c, [cmd], Deletions(other, gone[1..]));
      OnDiskOne(disk, c, cmd);
      DeletionsElsewhere(disk, c, other, gone[1..]);
    }
  }

  lemma {:induction false} PruneMirrors(env: Env, acl: Acl, who: string, subs: seq<Subscription>, disk: Disk, c: string)
    requires Mirrors(env, subs, disk.subs) && ParseCanonical(env)
    ensures var d' := OnDiskAll(disk, c, Deletions(c, Denied(env, acl, who, subs)));
      d'.row == disk.row && Mirrors(env, Allowed(env, acl, who, subs), d'.subs)
  {
    var gone, kept := Denied(env, acl, who, subs), Allowed(env, acl, who, subs);
    AllowedMembers(env, acl, who, subs);
    DeletionsOnDisk(disk, c, gone);
    var rows' := OnDiskAll(disk, c, Deletions(c, gone)).subs;
    forall s ensures s in kept <==> InRows(env, rows', s) {
      assert s in subs <==> InRows(env, disk.subs, s);
      if s in kept {
        forall g | g in gone ensures Key(g) != Key(s) { KeyUnique(env, subs, disk.subs, g, s); }
      }
    }
  }

  lemma {:induction false} KeyUnique(env: Env, subs: seq<Subscription>, rows: map<string, SubRecord>, a: Subscription,
                                     b: Subscription)
    requires Mirrors(env, subs, rows) && a in subs && b in subs && a != b
    ensures Key(a) != Key(b)
  {
    assert InRows(env, rows, a) && InRows(env, rows, b);
  }

  // -------------------------------------------------------------------------
  // Reading the rows back
  // -------------------------------------------------------------------------

  function LoadSubs(env: Env, rows: map<string, SubRecord>, order: seq<string>): seq<Subscription>
    requires forall raw :: raw in order ==> raw in rows
  {
    if order == [] then []
    else LoadSubs(env, rows, order[..|order| - 1]) + [LoadSub(env, rows[order[|order| - 1]])]
  }

  lemma {:induction false} LoadSubsAt(env: Env, rows: map<string, SubRecord>, order: seq<string>)
    requires forall raw :: raw in order ==> raw in rows
    ensures |LoadSubs(env, rows, order)| == |order|
    ensures forall i :: 0 <= i < |order| ==> LoadSubs(env, rows, order)[i] == LoadSub(env, rows[order[i]])
  {
    if order != [] { LoadSubsAt(env, rows, order[..|order| - 1]); }
  }

  // Whatever order the rows come back in, the loaded list mirrors them.
  lemma {:induction false} LoadMirrors(env: Env, rows: map<string, SubRecord>, order: seq<string>)
    requires ParseCanonical(env) && FiledRows(rows) && Enumerates(order, rows.Keys)
    ensures Mirrors(env, LoadSubs(env, rows, order), rows)
  {
    var subs := LoadSubs(env, rows, order);
    LoadSubsAt(env, rows, order);
    forall i, j | 0 <= i < j < |subs| ensures !SameKey(subs[i], subs[j].filter, subs[j].share) {
      LoadSubKey(env, rows[order[i]]);
      LoadSubKey(env, rows[order[j]]);
    }
    forall s ensures s in subs <==> InRows(env, rows, s) {
      if s in subs {
        var i :| 0 <= i < |subs| && subs[i] == s;
        LoadSubKey(env, rows[order[i]]);
      }
      if InRows(env, rows, s) {
        var i :| 0 <= i < |order| && order[i] == Key(s);
        assert subs[i] == s;
      }
    }
  }

  // Two lists that mirror the same rows are permutations of each other.
  lemma {:induction false} MirrorsAgree(env: Env, a: seq<Subscription>, b: seq<Subscription>, rows: map<string,
                                        SubRecord>)
    requires Mirrors(env, a, rows) && Mirrors(env, b, rows)
    ensures multiset(a) == multiset(b)
  {
    forall s ensures multiset(a)[s] == multiset(b)[s] {
      assert s in a <==> InRows(env, rows, s);
      assert s in b <==> InRows(env, rows, s);
      CountOnce(a, s);
      CountOnce(b, s);
    }
  }

  lemma {:induction false} CountOnce(subs: seq<Subscription>, s: Subscription)
    requires DistinctSubs(subs)
    ensures multiset(subs)[s] == if s in subs then 1 else 0
  {
    if subs != [] {
      DistinctTail(subs);
      CountOnce(subs[1..], s);
      assert subs == [subs[0]] + subs[1..];
    }
  }
}
