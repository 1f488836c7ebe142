// Memory and disk: in every reachable state the database that the log folds
// into agrees with the sessions and retained messages in memory, and starting
// again from it restores them.

module Persistence {
  import opened Types
  import opened Delivery
  import opened Router
  import opened Storage
  import opened Broker
  import opened BrokerRuns
  import opened DiskRows

  // -------------------------------------------------------------------------
  // Agreement about one client
  // -------------------------------------------------------------------------

  // Subscription rows need a session row and are filed under their filter.
  ghost predicate DiskOk(disk: Disk) {
    (disk.row.None? ==> disk.subs == map[]) && FiledRows(disk.subs)
  }

  ghost predicate Stored(disk: Disk, s: Session) {
    disk.row == Some(Row(s.expiry, s.identity))
  }

  /** Memory and disk agree about client `c`: a persistent session has a row
      with its expiry and owner; a client without a session has no row; and
      unless its session switched between persistent and not across a resume,
      a session that is not persistent has no row either, and one that is has
      exactly its subscriptions on disk. Reserved clients are never persistent. */
  ghost predicate Agree(env: Env, c: string, disk: Disk, s: Option<Session>, switched: bool) {
    && DiskOk(disk)
    && (s.None? && !Reserved(c) ==> disk.row.None?)
    && (s.Some? && s.value.persistent ==> !Reserved(c) && Stored(disk, s.value))
    && (s.Some? && !Reserved(c) && !switched ==>
          if s.value.persistent then Mirrors(env, s.value.subs, disk.subs) else disk.row.None?)
  }

  ghost function SessionOf(st: State, c: string): Option<Session> {
    if c in st.sessions then Some(st.sessions[c]) else None
  }

  ghost function DiskAt(db0: Database, st: State, c: string): Disk {
    DiskOf(AppliedAll(db0, st.log), c)
  }

  ghost predicate SessionsAgree(env: Env, db0: Database, n: Node) {
    forall c :: Agree(env, c, DiskAt(db0, n.st, c), SessionOf(n.st, c), c in n.switched)
  }

  lemma {:induction false} DiskStaysOk(disk: Disk, c: string, cmds: seq<Command>)
    requires DiskOk(disk)
    ensures DiskOk(OnDiskAll(disk, c, cmds))
  {
    if cmds != [] { DiskStaysOk(disk, c, cmds[..|cmds| - 1]); }
  }

  // The log grew by `cmds`.
  lemma {:induction false} DiskAfter(db0: Database, st: State, st': State, c: string, cmds: seq<Command>)
    requires st'.log == st.log + cmds
    ensures DiskAt(db0, st', c) == OnDiskAll(DiskAt(db0, st, c), c, cmds)
  {
    AppliedConcat(db0, st.log, cmds);
    DiskFollowsAll(AppliedAll(db0, st.log), c, cmds);
  }

  // -------------------------------------------------------------------------
  // Whose commands
  // -------------------------------------------------------------------------

  function ClientOf(cmd: Command): Option<string> {
    match cmd
    case UpsertRetained(_, _) => None
    case DeleteRetained(_) => None
    case _ => Some(cmd.client)
  }

  ghost predicate About(cmds: seq<Command>, client: string) {
    forall k :: 0 <= k < |cmds| ==> ClientOf(cmds[k]) == Some(client)
  }

  predicate OfSubscription(cmd: Command) {
    cmd.UpsertSubscription? || cmd.DeleteSubscription?
  }

  ghost predicate SubsOnly(cmds: seq<Command>) {
    forall k :: 0 <= k < |cmds| ==> OfSubscription(cmds[k])
  }

  lemma {:induction false} Elsewhere(disk: Disk, c: string, client: string, cmds: seq<Command>)
    requires About(cmds, client) && c != client
    ensures OnDiskAll(disk, c, cmds) == disk
  {
    if cmds != [] { Elsewhere(disk, c, client, cmds[..|cmds| - 1]); }
  }

  lemma {:induction false} RowKept(disk: Disk, c: string, cmds: seq<Command>)
    requires SubsOnly(cmds)
    ensures OnDiskAll(disk, c, cmds).row == disk.row
  {
    if cmds != [] { RowKept(disk, c, cmds[..|cmds| - 1]); }
  }

  lemma {:induction false} DeletionsAbout(client: string, gone: seq<Subscription>)
    ensures About(Deletions(client, gone), client) && SubsOnly(Deletions(client, gone))
  {
    if gone != [] { DeletionsAbout(client, gone[1..]); }
  }

  lemma {:induction false} ConnectAbout(env: Env, st: State, c: ConnectRequest)
    ensures About(ConnectCommands(env, st, c), c.client)
  {
    var s := BoundSession(env, st, c);
    DeletionsAbout(c.client, Denied(env, st.acl, Who(c.identity), s.subs));
  }

  // -------------------------------------------------------------------------
  // CONNECT
  // -------------------------------------------------------------------------

  // After the takeover commands the rows mirror what CONNECT starts from.
  lemma {:induction false} TakeoverAgrees(env: Env, st: State, c: ConnectRequest, disk: Disk, switched: bool)
    requires Agree(env, c.client, disk, SessionOf(st, c.client), switched) && !Reserved(c.client)
    ensures var d1 := OnDiskAll(disk, c.client, TakeoverCommands(st, c));
      if !Present(st, c) then d1 == Disk(None, map[])
      else
        && d1.row == disk.row
        && (!switched && st.sessions[c.client].persistent ==> Mirrors(env, BaseSession(env, st, c).subs, d1.subs))
  {
    var cmds := TakeoverCommands(st, c);
    if cmds != [] {
      assert cmds == [cmds[0]];
      OnDiskOne(disk, c.client, cmds[0]);
    }
  }

  lemma {:induction false} ReauthoriseAgrees(env: Env, st: State, c: ConnectRequest, d1: Disk)
    requires ParseCanonical(env)
    ensures var d2 := OnDiskAll(d1, c.client, ReauthoriseCommands(env, st, c));
      && d2.row == d1.row
      && (ConnectedSession(env, st, c).persistent && Mirrors(env, BaseSession(env, st, c).subs, d1.subs) ==>
            Mirrors(env, ConnectedSession(env, st, c).subs, d2.subs))
  {
    var s := BoundSession(env, st, c);
    if Reauthorise(st, c) && s.persistent {
      DeletionsAbout(c.client, Denied(env, st.acl, Who(c.identity), s.subs));
      RowKept(d1, c.client, ReauthoriseCommands(env, st, c));
      if Mirrors(env, s.subs, d1.subs) { PruneMirrors(env, st.acl, Who(c.identity), s.subs, d1, c.client); }
    }
  }

  lemma {:induction false} FreshMirrors(env: Env)
    ensures Mirrors(env, [], map[])
  {
  }

  // Whether CONNECT leaves the client among the switched.
  ghost predicate Switches(env: Env, st: State, c: ConnectRequest, switched: bool) {
    Present(st, c) && (switched || st.sessions[c.client].persistent != ConnectedSession(env, st, c).persistent)
  }

  lemma {:induction false} ConnectDisk(env: Env, st: State, c: ConnectRequest, disk: Disk) returns (d1: Disk, d2: Disk)
    ensures d1 == OnDiskAll(disk, c.client, TakeoverCommands(st, c))
    ensures d2 == OnDiskAll(d1, c.client, ReauthoriseCommands(env, st, c))
    ensures var s := ConnectedSession(env, st, c);
      OnDiskAll(disk, c.client, ConnectCommands(env, st, c))
      == if s.persistent then d2.(row := Some(Row(s.expiry, s.identity))) else d2
  {
    var a, b, p := TakeoverCommands(st, c), ReauthoriseCommands(env, st, c), PersistCommands(env, st, c);
    d1 := OnDiskAll(disk, c.client, a);
    d2 := OnDiskAll(d1, c.client, b);
    OnDiskConcat(disk, c.client, a + b, p);
    OnDiskConcat(disk, c.client, a, b);
    assert OnDiskAll(disk, c.client, ConnectCommands(env, st, c)) == OnDiskAll(d2, c.client, p);
    var s := ConnectedSession(env, st, c);
    if s.persistent {
      assert p == [UpsertSession(c.client, s.expiry, s.identity)];
      OnDiskOne(d2, c.client, UpsertSession(c.client, s.expiry, s.identity));
    } else {
      assert p == [];
    }
  }

  lemma {:induction false} ConnectAgrees(env: Env, st: State, c: ConnectRequest, disk: Disk, switched: bool)
    requires ParseCanonical(env) && Agree(env, c.client, disk, SessionOf(st, c.client), switched) && !Reserved(c.client)
    ensures Agree(env, c.client, OnDiskAll(disk, c.client, ConnectCommands(env, st, c)),
                  Some(ConnectedSession(env, st, c)), Switches(env, st, c, switched))
  {
    var d1, d2 := ConnectDisk(env, st, c, disk);
    TakeoverAgrees(env, st, c, disk, switched);
    ReauthoriseAgrees(env, st, c, d1);
    DiskStaysOk(disk, c.client, ConnectCommands(env, st, c));
    FreshMirrors(env);
  }

  // -------------------------------------------------------------------------
  // SUBSCRIBE and UNSUBSCRIBE
  // -------------------------------------------------------------------------

  // The commands so far are about this client's subscriptions, if any.
  ghost predicate InStep(cx: SubContext, acc: SubAcc) {
    && About(acc.cmds, cx.client) && SubsOnly(acc.cmds)
    && (!cx.persistent ==> acc.cmds == [])
  }

  lemma {:induction false} LoadedAsNew(env: Env, cx: SubContext, f: SubFilter)
    requires Judge(env, cx, f.raw).Good?
    ensures LoadSub(env, NewRecord(env, cx, f)) == NewSubscription(env, cx, f, Judge(env, cx, f.raw).parsed)
  {
  }

  lemma {:induction false} SnocOnDisk(disk: Disk, c: string, cmds: seq<Command>, cmd: Command)
    ensures OnDiskAll(disk, c, cmds + [cmd]) == OnDisk(OnDiskAll(disk, c, cmds), c, cmd)
  {
    assert (cmds + [cmd])[..|cmds|] == cmds;
  }

  lemma {:induction false} SubscribeInStep(env: Env, now: nat, cx: SubContext, acc: SubAcc, filters: seq<SubFilter>)
    requires InStep(cx, acc)
    ensures InStep(cx, SubscribeAll(env, now, cx, acc, filters))
  {
    if filters != [] { SubscribeInStep(env, now, cx, acc, filters[..|filters| - 1]); }
  }

  lemma {:induction false} SubscribeMirrors(env: Env, now: nat, cx: SubContext, disk: Disk, acc: SubAcc,
                                            filters: seq<SubFilter>)
    requires ParseCanonical(env) && cx.persistent && disk.row.Some? && InStep(cx, acc)
    requires Mirrors(env, acc.subs, OnDiskAll(disk, cx.client, acc.cmds).subs)
    ensures var acc' := SubscribeAll(env, now, cx, acc, filters);
      Mirrors(env, acc'.subs, OnDiskAll(disk, cx.client, acc'.cmds).subs)
  {
    if filters != [] {
      var n := |filters| - 1;
      SubscribeMirrors(env, now, cx, disk, acc, filters[..n]);
      SubscribeInStep(env, now, cx, acc, filters[..n]);
      var mid, f := SubscribeAll(env, now, cx, acc, filters[..n]), filters[n];
      if Judge(env, cx, f.raw).Good? {
        SubscribedOne(env, cx, disk, mid, f);
      }
    }
  }

  lemma {:induction false} SubscribedOne(env: Env, cx: SubContext, disk: Disk, mid: SubAcc, f: SubFilter)
    requires ParseCanonical(env) && cx.persistent && disk.row.Some? && InStep(cx, mid)
    requires Mirrors(env, mid.subs, OnDiskAll(disk, cx.client, mid.cmds).subs) && Judge(env, cx, f.raw).Good?
    ensures Mirrors(env, Upsert(mid.subs, NewSubscription(env, cx, f, Judge(env, cx, f.raw).parsed)),
                    OnDiskAll(disk, cx.client, mid.cmds + [UpsertSubscription(cx.client, NewRecord(env, cx, f))]).subs)
  {
    var rec := NewRecord(env, cx, f);
    LoadedAsNew(env, cx, f);
    RowKept(disk, cx.client, mid.cmds);
    SnocOnDisk(disk, cx.client, mid.cmds, UpsertSubscription(cx.client, rec));
    UpsertMirrors(env, mid.subs, OnDiskAll(disk, cx.client, mid.cmds).subs, rec);
  }

  lemma {:induction false} UnsubscribeInStep(env: Env, cx: SubContext, acc: SubAcc, filters: seq<string>)
    requires InStep(cx, acc)
    ensures InStep(cx, UnsubscribeAll(env, cx, acc, filters))
  {
    if filters != [] { UnsubscribeInStep(env, cx, acc, filters[..|filters| - 1]); }
  }

  lemma {:induction false} UnsubscribeMirrors(env: Env, cx: SubContext, disk: Disk, acc: SubAcc, filters: seq<string>)
    requires ParseCanonical(env) && cx.persistent && InStep(cx, acc)
    requires Mirrors(env, acc.subs, OnDiskAll(disk, cx.client, acc.cmds).subs)
    ensures var acc' := UnsubscribeAll(env, cx, acc, filters);
      Mirrors(env, acc'.subs, OnDiskAll(disk, cx.client, acc'.cmds).subs)
  {
    if filters != [] {
      var n := |filters| - 1;
      UnsubscribeMirrors(env, cx, disk, acc, filters[..n]);
      UnsubscribeInStep(env, cx, acc, filters[..n]);
      var mid, raw := UnsubscribeAll(env, cx, acc, filters[..n]), filters[n];
      UnsubscribedOne(env, cx, disk, mid, raw);
    }
  }

  lemma {:induction false} UnsubscribedOne(env: Env, cx: SubContext, disk: Disk, mid: SubAcc, raw: string)
    requires ParseCanonical(env) && cx.persistent && InStep(cx, mid)
    requires Mirrors(env, mid.subs, OnDiskAll(disk, cx.client, mid.cmds).subs)
    ensures var acc' := UnsubscribeOne(env, cx, mid, raw);
      Mirrors(env, acc'.subs, OnDiskAll(disk, cx.client, acc'.cmds).subs)
  {
    var rows, p := OnDiskAll(disk, cx.client, mid.cmds).subs, Resolve(env, raw);
    WithoutMirrors(env, mid.subs, rows, raw);
    AbsentKey(env, mid.subs, rows, raw);
    if HasSub(mid.subs, p.filter, p.share) {
      SnocOnDisk(disk, cx.client, mid.cmds, DeleteSubscription(cx.client, raw));
    } else {
      assert rows - {raw} == rows;
      assert mid.cmds + [] == mid.cmds;
    }
  }

  lemma {:induction false} ListAgrees(env: Env, cx: SubContext, disk: Disk, s: Session, acc: SubAcc, d: Outbound,
                                      switched: bool)
    requires Agree(env, cx.client, disk, Some(s), switched) && cx.persistent == s.persistent && InStep(cx, acc)
    requires !switched && s.persistent ==> Mirrors(env, acc.subs, OnDiskAll(disk, cx.client, acc.cmds).subs)
    ensures Agree(env, cx.client, OnDiskAll(disk, cx.client, acc.cmds), Some(s.(subs := acc.subs, d := d)), switched)
  {
    RowKept(disk, cx.client, acc.cmds);
    DiskStaysOk(disk, cx.client, acc.cmds);
  }

  // -------------------------------------------------------------------------
  // Revoke pass
  // -------------------------------------------------------------------------

  lemma {:induction false} RevokeOnDisk(env: Env, acl: Acl, sessions: map<string, Session>, order: seq<string>,
                                        c: string, disk: Disk)
    requires c in sessions && forall i, j :: 0 <= i < j < |order| ==> order[i] != order[j]
    ensures OnDiskAll(disk, c, RevokeCommands(env, acl, sessions, order))
      == if c in order && sessions[c].persistent
         then OnDiskAll(disk, c, Deletions(c, Denied(env, acl, Who(sessions[c].identity), sessions[c].subs))) else disk
  {
    if order != [] {
      var n := |order| - 1;
      var less, k := order[..n], order[n];
      assert order == less + [k] && k !in less;
      RevokeOnDisk(env, acl, sessions, less, c, disk);
      if k in sessions && sessions[k].persistent {
        var gone := Denied(env, acl, Who(sessions[k].identity), sessions[k].subs);
        OnDiskConcat(disk, c, RevokeCommands(env, acl, sessions, less), Deletions(k, gone));
        if k != c { DeletionsElsewhere(OnDiskAll(disk, c, RevokeCommands(env, acl, sessions, less)), c, k, gone); }
      } else {
        assert RevokeCommands(env, acl, sessions, less) + [] == RevokeCommands(env, acl, sessions, less);
      }
    }
  }

  lemma {:induction false} RevokeAbsent(env: Env, acl: Acl, sessions: map<string, Session>, order: seq<string>,
                                        c: string, disk: Disk)
    requires c !in sessions
    ensures OnDiskAll(disk, c, RevokeCommands(env, acl, sessions, order)) == disk
  {
    if order != [] {
      var n := |order| - 1;
      var less, k := order[..n], order[n];
      RevokeAbsent(env, acl, sessions, less, c, disk);
      if k in sessions && sessions[k].persistent {
        var gone := Denied(env, acl, Who(sessions[k].identity), sessions[k].subs);
        OnDiskConcat(disk, c, RevokeCommands(env, acl, sessions, less), Deletions(k, gone));
        DeletionsElsewhere(OnDiskAll(disk, c, RevokeCommands(env, acl, sessions, less)), c, k, gone);
      } else {
        assert RevokeCommands(env, acl, sessions, less) + [] == RevokeCommands(env, acl, sessions, less);
      }
    }
  }

  lemma {:induction false} RevokeAgrees(env: Env, st: State, acl: Acl, order: seq<string>, c: string, disk: Disk,
                                        switched: bool)
    requires ParseCanonical(env) && acl.enforced && Enumerates(order, st.sessions.Keys)
    requires Agree(env, c, disk, SessionOf(st, c), switched)
    ensures Agree(env, c, OnDiskAll(disk, c, RevokeCommands(env, acl, st.sessions, order)),
                  SessionOf(Revoke(env, st, acl, order), c), switched)
  {
    if c !in st.sessions {
      RevokeAbsent(env, acl, st.sessions, order, c, disk);
    } else {
      var s := st.sessions[c];
      RevokeOnDisk(env, acl, st.sessions, order, c, disk);
      assert c in order;
      if s.persistent {
        var gone := Denied(env, acl, Who(s.identity), s.subs);
        DeletionsAbout(c, gone);
        RowKept(disk, c, Deletions(c, gone));
        DiskStaysOk(disk, c, Deletions(c, gone));
        if !switched { PruneMirrors(env, acl, Who(s.identity), s.subs, disk, c); }
      }
    }
  }
}
