// Persistence over whole runs, and what a restart brings back.

module Reload {
  import opened Types
  import opened Delivery
  import opened Router
  import opened Storage
  import opened Broker
  import opened BrokerRuns
  import opened DiskRows
  import opened Persistence

  // -------------------------------------------------------------------------
  // Steps that only move messages touch no client's rows
  // -------------------------------------------------------------------------

  // What a step stored: nothing, or one retained message.
  ghost predicate StoreMove(st: State, st': State, m: Option<Message>) {
    if m.None? then st'.log == st.log && st'.retained == st.retained
    else m.value.retain && st'.log == Retain(st, m.value).log && st'.retained == Retain(st, m.value).retained
  }

  ghost function AsRetained(m: Message): Option<Message> {
    if m.retain then Some(m) else None
  }

  lemma {:induction false} AnswerStores(st: State, client: string, p: Broker.InPublish, rc: ReasonCode)
    ensures StoreMove(st, Answer(st, client, p, rc), None)
  {
  }

  lemma {:induction false} Publish1Stores(env: Env, now: nat, st: State, client: string, p: Broker.InPublish,
                                          o: RouteOrder) returns (m: Option<Message>)
    requires client in st.sessions
    ensures StoreMove(st, Publish1(env, now, st, client, p, o), m)
  {
    var msg := FromPublish(p, now);
    var st1 := Retain(st, msg);
    m := AsRetained(msg);
    if Duplicate(st1, client, p) {
      AnswerStores(st1, client, p, Success);
    } else {
      var st2, pub := Hold(st1, client, p), Publication(msg, Some(client));
      if ValidFor(env, st2, pub, o) {
        AnswerStores(RouteIn(env, now, st2, pub, o), client, p,
                     if Matched(env, now, st2, pub, o) then Success else NoMatchingSubscribers);
      } else {
        m := None;
      }
    }
  }

  lemma {:induction false} PublishStores(env: Env, now: nat, st: State, client: string, epoch: nat,
                                         p: Broker.InPublish, o: RouteOrder) returns (m: Option<Message>)
    ensures StoreMove(st, HandlePublish(env, now, st, client, epoch, p, o).st, m)
  {
    m := None;
    if Current(st, client, epoch) {
      PublishOutcome(env, now, st, client, epoch, p, o);
      if Taken(env, st, client, p) {
        m := Publish1Stores(env, now, Aliased(env, st, client, p), client,
                            p.(topic := ResolveAlias(env, st.sessions[client].aliases, p).name), o);
      }
    }
  }

  lemma {:induction false} AckStores(env: Env, now: nat, st: State, client: string, epoch: nat, i: Inbound)
    requires IsAck(i)
    ensures StoreMove(st, HandleInbound(env, now, st, client, epoch, i), None)
  {
  }

  lemma {:induction false} RouteStores(env: Env, now: nat, st: State, m: Message, publisher: Option<string>,
                                       o: RouteOrder)
    requires ValidFor(env, Retain(st, m), Publication(m, publisher), o)
    ensures StoreMove(st, RouteIn(env, now, Retain(st, m), Publication(m, publisher), o), AsRetained(m))
  {
  }

  lemma {:induction false} MovesStore(env: Env, n: Node, t: TimedEvent) returns (m: Option<Message>)
    requires Enabled(env, n, t) && Moves(t.ev) && !t.ev.Sys? && !t.ev.PurgeRetained?
    ensures StoreMove(n.st, NextState(env, n, t), m)
  {
    m := None;
    match t.ev
    case Packet(client, epoch, i) =>
      if i.InPublish? { m := PublishStores(env, t.now, n.st, client, epoch, i.p, i.order); }
      else if IsAck(i) { AckStores(env, t.now, n.st, client, epoch, i); }
    case Work(task, order) =>
      if Fires(env, n.st, t.ev) {
        m := AsRetained(task.will.message);
        RouteStores(env, t.now, n.st, task.will.message, None, order);
      }
    case InjectMessage(client, msg, order) =>
      m := AsRetained(msg);
      RouteStores(env, t.now, n.st, msg, Some(client), order);
    case Wire(_, _) =>
  }

  ghost function RetainedCommand(m: Message): Command {
    if m.payload == [] then DeleteRetained(m.topic) else UpsertRetained(m.topic, m)
  }

  lemma {:induction false} StoredLog(st: State, st': State, m: Option<Message>)
    requires StoreMove(st, st', m)
    ensures st'.log == st.log + if m.None? then [] else [RetainedCommand(m.value)]
  {
  }

  // -------------------------------------------------------------------------
  // Sessions agree with disk after every step
  // -------------------------------------------------------------------------

  // Agreement looks only at what a session keeps across message moves.
  lemma {:induction false} SameControlAgrees(env: Env, c: string, disk: Disk, a: Session, b: Session, switched: bool)
    requires Agree(env, c, disk, Some(a), switched) && SameControl(a, b)
    ensures Agree(env, c, disk, Some(b), switched)
  {
  }

  lemma {:induction false} QuietAgrees(env: Env, st: State, st': State, c: string, disk: Disk, switched: bool)
    requires Agree(env, c, disk, SessionOf(st, c), switched) && Quiet(st, st')
    ensures Agree(env, c, disk, SessionOf(st', c), switched)
  {
    if c in st.sessions { SameControlAgrees(env, c, disk, st.sessions[c], st'.sessions[c], switched); }
  }

  lemma {:induction false} MovesAgree(env: Env, db0: Database, n: Node, t: TimedEvent, c: string)
    requires SessionsAgree(env, db0, n) && Enabled(env, n, t) && Moves(t.ev)
    ensures var st' := NextState(env, n, t);
      Agree(env, c, DiskAt(db0, st', c), SessionOf(st', c), c in n.switched)
  {
    var st' := NextState(env, n, t);
    MovesAreQuiet(env, n, t);
    if !t.ev.Sys? && !t.ev.PurgeRetained? {
      var m := MovesStore(env, n, t);
      StoredLog(n.st, st', m);
      if m.Some? {
        DiskAfter(db0, n.st, st', c, [RetainedCommand(m.value)]);
        OnDiskOne(DiskAt(db0, n.st, c), c, RetainedCommand(m.value));
      }
    }
    assert DiskAt(db0, st', c) == DiskAt(db0, n.st, c);
    QuietAgrees(env, n.st, st', c, DiskAt(db0, n.st, c), c in n.switched);
  }

  lemma {:induction false} ConnectStep(env: Env, db0: Database, now: nat, st: State, q: ConnectRequest, c: string,
                                       switched: bool)
    requires ParseCanonical(env) && ConnectReady(env, st, q) && Acceptable(env, st, q)
    requires Agree(env, c, DiskAt(db0, st, c), SessionOf(st, c), switched)
    ensures var st' := HandleConnect(env, now, st, q);
      Agree(env, c, DiskAt(db0, st', c), SessionOf(st', c),
            if c == q.client then Switches(env, st, q, switched) else switched)
  {
    var st', cmds, disk := HandleConnect(env, now, st, q), ConnectCommands(env, st, q), DiskAt(db0, st, c);
    DiskAfter(db0, st, st', c, cmds);
    if c == q.client {
      ConnectAgrees(env, st, q, disk, switched);
    } else {
      ConnectAbout(env, st, q);
      Elsewhere(disk, c, q.client, cmds);
    }
  }

  lemma {:induction false} SubscribeStep(env: Env, db0: Database, now: nat, st: State, client: string, epoch: nat,
                                         i: Inbound, c: string, switched: bool)
    requires ParseCanonical(env) && i.InSubscribe? && Agree(env, c, DiskAt(db0, st, c), SessionOf(st, c), switched)
    ensures var st' := HandleInbound(env, now, st, client, epoch, i);
      Agree(env, c, DiskAt(db0, st', c), SessionOf(st', c), switched)
  {
    if Current(st, client, epoch) {
      var s, st', disk := st.sessions[client], HandleInbound(env, now, st, client, epoch, i), DiskAt(db0, st, c);
      var cx, acc0 := ContextOf(st, client, i.subId, i.topics), SubAcc(s.subs, [], [], []);
      var acc := SubscribeAll(env, now, cx, acc0, i.filters);
      SubscribeInStep(env, now, cx, acc0, i.filters);
      SubscribedState(env, now, st, client, epoch, i, c);
      DiskAfter(db0, st, st', c, acc.cmds);
      if c == client {
        SubscribeOwn(env, now, cx, disk, s, i.filters, st'.sessions[c].d, switched);
      } else {
        Elsewhere(disk, c, client, acc.cmds);
      }
    }
  }

  // What a SUBSCRIBE leaves of the log and of client `c`.
  lemma {:induction false} SubscribedState(env: Env, now: nat, st: State, client: string, epoch: nat, i: Inbound,
                                           c: string)
    requires Current(st, client, epoch) && i.InSubscribe?
    ensures var s, st' := st.sessions[client], HandleInbound(env, now, st, client, epoch, i);
      var cx := ContextOf(st, client, i.subId, i.topics);
      var acc := SubscribeAll(env, now, cx, SubAcc(s.subs, [], [], []), i.filters);
      && st'.log == st.log + acc.cmds
      && (if c == client then c in st'.sessions && st'.sessions[c] == s.(subs := acc.subs, d := st'.sessions[c].d)
          else SessionOf(st', c) == SessionOf(st, c))
  {
  }

  lemma {:induction false} SubscribeOwn(env: Env, now: nat, cx: SubContext, disk: Disk, s: Session,
                                        filters: seq<SubFilter>, d: Outbound, switched: bool)
    requires ParseCanonical(env) && Agree(env, cx.client, disk, Some(s), switched) && cx.persistent == s.persistent
    ensures var acc := SubscribeAll(env, now, cx, SubAcc(s.subs, [], [], []), filters);
      Agree(env, cx.client, OnDiskAll(disk, cx.client, acc.cmds), Some(s.(subs := acc.subs, d := d)), switched)
  {
    var acc0 := SubAcc(s.subs, [], [], []);
    SubscribeInStep(env, now, cx, acc0, filters);
    if s.persistent && !switched { SubscribeMirrors(env, now, cx, disk, acc0, filters); }
    ListAgrees(env, cx, disk, s, SubscribeAll(env, now, cx, acc0, filters), d, switched);
  }

  lemma {:induction false} UnsubscribeStep(env: Env, db0: Database, now: nat, st: State, client: string, epoch: nat,
                                           i: Inbound, c: string, switched: bool)
    requires ParseCanonical(env) && i.InUnsubscribe? && Agree(env, c, DiskAt(db0, st, c), SessionOf(st, c), switched)
    ensures var st' := HandleInbound(env, now, st, client, epoch, i);
      Agree(env, c, DiskAt(db0, st', c), SessionOf(st', c), switched)
  {
    if Current(st, client, epoch) {
      var s, st', disk := st.sessions[client], HandleInbound(env, now, st, client, epoch, i), DiskAt(db0, st, c);
      var cx, acc0 := ContextOf(st, client, None, []), SubAcc(s.subs, [], [], []);
      var acc := UnsubscribeAll(env, cx, acc0, i.names);
      UnsubscribeInStep(env, cx, acc0, i.names);
      DiskAfter(db0, st, st', c, acc.cmds);
      if c == client {
        UnsubscribeOwn(env, cx, disk, s, i.names, st'.sessions[c].d, switched);
        assert st'.sessions[c] == s.(subs := acc.subs, d := st'.sessions[c].d);
      } else {
        Elsewhere(disk, c, client, acc.cmds);
        assert SessionOf(st', c) == SessionOf(st, c);
      }
    }
  }

  lemma {:induction false} UnsubscribeOwn(env: Env, cx: SubContext, disk: Disk, s: Session, names: seq<string>,
                                          d: Outbound, switched: bool)
    requires ParseCanonical(env) && Agree(env, cx.client, disk, Some(s), switched) && cx.persistent == s.persistent
    ensures var acc := UnsubscribeAll(env, cx, SubAcc(s.subs, [], [], []), names);
      Agree(env, cx.client, OnDiskAll(disk, cx.client, acc.cmds), Some(s.(subs := acc.subs, d := d)), switched)
  {
    var acc0 := SubAcc(s.subs, [], [], []);
    UnsubscribeInStep(env, cx, acc0, names);
    if s.persistent && !switched { UnsubscribeMirrors(env, cx, disk, acc0, names); }
    ListAgrees(env, cx, disk, s, UnsubscribeAll(env, cx, acc0, names), d, switched);
  }

  lemma {:induction false} GoneAgrees(env: Env, c: string, switched: bool)
    ensures Agree(env, c, Disk(None, map[]), None, switched)
  {
  }

  lemma {:induction false} RemoveStep(env: Env, db0: Database, st: State, client: string, epoch: nat, c: string,
                                      switched: bool)
    requires Agree(env, c, DiskAt(db0, st, c), SessionOf(st, c), switched)
    ensures var st' := RemoveIfIdle(st, client, epoch);
      Agree(env, c, DiskAt(db0, st', c), SessionOf(st', c), switched)
  {
    if Current(st, client, epoch) && !Online(st.sessions[client].d) {
      var st' := RemoveIfIdle(st, client, epoch);
      DiskAfter(db0, st, st', c, [DeleteSession(client)]);
      OnDiskOne(DiskAt(db0, st, c), c, DeleteSession(client));
      if c == client {
        GoneAgrees(env, c, switched);
        assert SessionOf(st', c) == None && DiskAt(db0, st', c) == Disk(None, map[]);
      } else {
        assert SessionOf(st', c) == SessionOf(st, c) && DiskAt(db0, st', c) == DiskAt(db0, st, c);
      }
    }
  }

  lemma {:induction false} UpdateStep(env: Env, db0: Database, st: State, client: string, wanted: nat, c: string,
                                      switched: bool)
    requires Agree(env, c, DiskAt(db0, st, c), SessionOf(st, c), switched)
    ensures var st' := UpdateExpiry(env, st, client, wanted);
      Agree(env, c, DiskAt(db0, st', c), SessionOf(st', c), switched)
  {
    var st' := UpdateExpiry(env, st, client, wanted);
    if client in st.sessions {
      var s, s' := st.sessions[client], st'.sessions[client];
      assert s' == s.(expiry := s'.expiry);
      if s.persistent {
        var cmd := UpsertSession(client, s'.expiry, s'.identity);
        DiskAfter(db0, st, st', c, [cmd]);
        OnDiskOne(DiskAt(db0, st, c), c, cmd);
        if c == client { StoredAgain(env, c, DiskAt(db0, st, c), s, s'.expiry, switched); }
      } else {
        assert st'.log == st.log;
      }
    }
  }

  lemma {:induction false} StoredAgain(env: Env, c: string, disk: Disk, s: Session, expiry: nat, switched: bool)
    requires Agree(env, c, disk, Some(s), switched) && s.persistent
    ensures Agree(env, c, disk.(row := Some(Row(expiry, s.identity))), Some(s.(expiry := expiry)), switched)
  {
  }

  lemma {:induction false} RevokeStep(env: Env, db0: Database, st: State, acl: Acl, order: seq<string>, c: string,
                                      switched: bool)
    requires ParseCanonical(env) && Enumerates(order, st.sessions.Keys)
    requires Agree(env, c, DiskAt(db0, st, c), SessionOf(st, c), switched)
    ensures var st' := Revoke(env, st, acl, order);
      Agree(env, c, DiskAt(db0, st', c), SessionOf(st', c), switched)
  {
    if acl.enforced {
      DiskAfter(db0, st, Revoke(env, st, acl, order), c, RevokeCommands(env, acl, st.sessions, order));
      RevokeAgrees(env, st, acl, order, c, DiskAt(db0, st, c), switched);
    }
  }

  // Steps about bridges and connections that store nothing.
  predicate Unlogged(ev: Event) {
    ev.Close? || ev.SwapAcl? || ev.Register? || ev.BridgeSub? || ev.Deregister?
  }

  lemma {:induction false} UnloggedStep(env: Env, db0: Database, n: Node, t: TimedEvent, c: string)
    requires SessionsAgree(env, db0, n) && Enabled(env, n, t) && Unlogged(t.ev)
    ensures var st' := NextState(env, n, t);
      Agree(env, c, DiskAt(db0, st', c), SessionOf(st', c), c in n.switched)
  {
    assert Agree(env, c, DiskAt(db0, n.st, c), SessionOf(n.st, c), c in n.switched);
    UnloggedEffect(env, n, t, c);
  }

  // Nothing is logged, and a client that is not reserved keeps what agreement
  // looks at.
  ghost predicate RecordsKept(st: State, st': State, c: string) {
    && st'.log == st.log
    && (!Reserved(c) ==>
          && (c in st'.sessions <==> c in st.sessions)
          && (c in st'.sessions ==> SameRecord(st.sessions[c], st'.sessions[c])))
    && (c in st'.sessions && st'.sessions[c].persistent ==> c in st.sessions && st.sessions[c].persistent)
  }

  lemma {:induction false} UnloggedEffect(env: Env, n: Node, t: TimedEvent, c: string)
    requires Enabled(env, n, t) && Unlogged(t.ev)
    ensures RecordsKept(n.st, NextState(env, n, t), c)
  {
    match t.ev
    case Close(client, epoch, _) => CloseKeeps(n.st, client, epoch, c);
    case SwapAcl(_) =>
    case _ => BridgesKeep(n.st, t.ev, c);
  }

  lemma {:induction false} CloseKeeps(st: State, client: string, epoch: nat, c: string)
    ensures RecordsKept(st, CloseSession(st, client, epoch), c)
  {
  }

  lemma {:induction false} BridgesKeep(st: State, ev: Event, c: string)
    requires ev.Register? || ev.BridgeSub? || ev.Deregister?
    requires "$bridge/" <= ev.client
    ensures ev.Register? ==> RecordsKept(st, RegisterBridge(st, ev.client, ev.out), c)
    ensures ev.BridgeSub? ==> RecordsKept(st, BridgeSubscribe(st, ev.client, ev.filter, true), c)
    ensures ev.Deregister? ==> RecordsKept(st, DeregisterBridge(st, ev.client, ev.epoch), c)
  {
  }

  ghost predicate SameRecord(a: Session, b: Session) {
    b.persistent == a.persistent && b.expiry == a.expiry && b.identity == a.identity && b.subs == a.subs
  }

  lemma {:induction false} WorkStep(env: Env, db0: Database, n: Node, t: TimedEvent, c: string)
    requires SessionsAgree(env, db0, n) && Enabled(env, n, t) && t.ev.Work? && !t.ev.task.Fire?
    ensures var st' := NextState(env, n, t);
      Agree(env, c, DiskAt(db0, st', c), SessionOf(st', c), c in n.switched)
  {
    assert Agree(env, c, DiskAt(db0, n.st, c), SessionOf(n.st, c), c in n.switched);
    match t.ev.task
    case Remove(client, epoch) => RemoveStep(env, db0, n.st, client, epoch, c, c in n.switched);
    case Update(client, _, wanted) => UpdateStep(env, db0, n.st, client, wanted, c, c in n.switched);
  }

  lemma {:induction false} SwitchedAfter(env: Env, n: Node, t: TimedEvent, c: string)
    requires t.ev.Connect? && Acceptable(env, n.st, t.ev.c)
    ensures c in NextSwitched(env, n, n.st, t.ev) <==>
      if c == t.ev.c.client then Switches(env, n.st, t.ev.c, c in n.switched) else c in n.switched
  {
  }

  lemma {:induction false} OtherStep(env: Env, db0: Database, n: Node, t: TimedEvent, c: string)
    requires ParseCanonical(env) && SessionsAgree(env, db0, n) && Enabled(env, n, t)
    requires !Moves(t.ev) && !Unlogged(t.ev) && !t.ev.Work?
    ensures var st' := NextState(env, n, t);
      Agree(env, c, DiskAt(db0, st', c), SessionOf(st', c), c in NextSwitched(env, n, st', t.ev))
  {
    assert Agree(env, c, DiskAt(db0, n.st, c), SessionOf(n.st, c), c in n.switched);
    match t.ev
    case Connect(q) =>
      if Acceptable(env, n.st, q) {
        ConnectStep(env, db0, t.now, n.st, q, c, c in n.switched);
        SwitchedAfter(env, n, t, c);
      }
    case Packet(client, epoch, i) =>
      if i.InSubscribe? { SubscribeStep(env, db0, t.now, n.st, client, epoch, i, c, c in n.switched); }
      else { UnsubscribeStep(env, db0, t.now, n.st, client, epoch, i, c, c in n.switched); }
    case RevokePass(acl, clients) => RevokeStep(env, db0, n.st, acl, clients, c, c in n.switched);
  }

  lemma {:induction false} StepKeepsSessions(env: Env, db0: Database, n: Node, t: TimedEvent)
    requires ParseCanonical(env) && SessionsAgree(env, db0, n) && Enabled(env, n, t)
    ensures SessionsAgree(env, db0, NextNode(env, n, t))
  {
    var n' := NextNode(env, n, t);
    forall c ensures Agree(env, c, DiskAt(db0, n'.st, c), SessionOf(n'.st, c), c in n'.switched) {
      if Moves(t.ev) { MovesAgree(env, db0, n, t, c); }
      else if Unlogged(t.ev) { UnloggedStep(env, db0, n, t, c); }
      else if t.ev.Work? { WorkStep(env, db0, n, t, c); }
      else { OtherStep(env, db0, n, t, c); }
    }
  }

  // -------------------------------------------------------------------------
  // Retained messages
  // -------------------------------------------------------------------------

  // A retained row read back into memory.
  function LoadMessage(topic: string, m: Message): Message {
    m.(topic := topic, retain := true)
  }

  // The unexpired message on a topic, in memory and on disk.
  function LiveIn(retained: map<string, Message>, topic: string, now: nat): Option<Message> {
    if topic in retained && !IsExpired(retained[topic], now) then Some(retained[topic]) else None
  }

  function LiveOn(rows: map<string, Message>, topic: string, now: nat): Option<Message> {
    if topic in rows && !IsExpired(rows[topic], now) then Some(LoadMessage(topic, rows[topic])) else None
  }

  ghost predicate RetainedAgree(db0: Database, n: Node) {
    forall topic :: topic !in n.sysTopics ==>
      LiveIn(n.st.retained, topic, n.clock) == LiveOn(AppliedAll(db0, n.st.log).retained, topic, n.clock)
  }

  ghost predicate ClientCommands(cmds: seq<Command>) {
    forall k :: 0 <= k < |cmds| ==> ClientOf(cmds[k]).Some?
  }

  lemma {:induction false} ClientCommandsKeepRetained(db: Database, cmds: seq<Command>)
    requires ClientCommands(cmds)
    ensures AppliedAll(db, cmds).retained == db.retained
  {
    if cmds != [] { ClientCommandsKeepRetained(db, cmds[..|cmds| - 1]); }
  }

  lemma {:induction false} RevokeClientCommands(env: Env, acl: Acl, sessions: map<string, Session>, order: seq<string>)
    ensures ClientCommands(RevokeCommands(env, acl, sessions, order))
  {
    if order != [] {
      RevokeClientCommands(env, acl, sessions, order[..|order| - 1]);
      var c := order[|order| - 1];
      if c in sessions { DeletionsAbout(c, Denied(env, acl, Who(sessions[c].identity), sessions[c].subs)); }
    }
  }

  // A step that moves no messages logs only commands about clients.
  lemma {:induction false} SubscribeLogs(env: Env, now: nat, st: State, client: string, epoch: nat,
                                         i: Inbound) returns (cmds: seq<Command>)
    requires i.InSubscribe? || i.InUnsubscribe?
    ensures var st' := HandleInbound(env, now, st, client, epoch, i);
      ClientCommands(cmds) && st'.log == st.log + cmds && st'.retained == st.retained
  {
    cmds := [];
    if Current(st, client, epoch) {
      var acc0 := SubAcc(st.sessions[client].subs, [], [], []);
      if i.InSubscribe? {
        var cx := ContextOf(st, client, i.subId, i.topics);
        SubscribeInStep(env, now, cx, acc0, i.filters);
        cmds := SubscribeAll(env, now, cx, acc0, i.filters).cmds;
      } else {
        var cx := ContextOf(st, client, None, []);
        UnsubscribeInStep(env, cx, acc0, i.names);
        cmds := UnsubscribeAll(env, cx, acc0, i.names).cmds;
      }
    }
  }

  lemma {:induction false} WorkLogs(env: Env, now: nat, st: State, task: Task,
                                    o: RouteOrder) returns (cmds: seq<Command>)
    requires TaskReady(env, st, task, o) && !task.Fire?
    ensures var st' := WorkOn(env, now, st, task, o);
      ClientCommands(cmds) && st'.log == st.log + cmds && st'.retained == st.retained
  {
    var st' := WorkOn(env, now, st, task, o);
    if st'.log == st.log {
      cmds := [];
    } else if task.Remove? {
      cmds := [DeleteSession(task.client)];
    } else {
      cmds := [UpsertSession(task.client, st'.sessions[task.client].expiry, st'.sessions[task.client].identity)];
    }
  }

  lemma {:induction false} ClientStepLogs(env: Env, n: Node, t: TimedEvent) returns (cmds: seq<Command>)
    requires Enabled(env, n, t) && !Moves(t.ev)
    ensures var st' := NextState(env, n, t);
      ClientCommands(cmds) && st'.log == n.st.log + cmds && st'.retained == n.st.retained
  {
    cmds := [];
    match t.ev
    case Connect(q) =>
      if Acceptable(env, n.st, q) {
        ConnectAbout(env, n.st, q);
        cmds := ConnectCommands(env, n.st, q);
      }
    case Packet(client, epoch, i) => cmds := SubscribeLogs(env, t.now, n.st, client, epoch, i);
    case Work(task, order) => cmds := WorkLogs(env, t.now, n.st, task, order);
    case RevokePass(acl, clients) =>
      if acl.enforced {
        RevokeClientCommands(env, acl, n.st.sessions, clients);
        cmds := RevokeCommands(env, acl, n.st.sessions, clients);
      }
    case _ =>
  }

  // Messages only expire as time passes, in memory and on disk alike.
  lemma {:induction false} LiveLater(mem: map<string, Message>, rows: map<string, Message>, topic: string, now: nat,
                                     later: nat)
    requires now <= later && LiveIn(mem, topic, now) == LiveOn(rows, topic, now)
    ensures LiveIn(mem, topic, later) == LiveOn(rows, topic, later)
  {
    if topic in mem { ExpiryIsFinal(mem[topic], now, later); }
    if topic in rows {
      ExpiryIsFinal(rows[topic], now, later);
      assert IsExpired(LoadMessage(topic, rows[topic]), later) == IsExpired(rows[topic], later);
    }
  }

  lemma {:induction false} StoredRetained(db0: Database, st: State, st': State, m: Option<Message>, topic: string,
                                          now: nat)
    requires StoreMove(st, st', m)
    requires LiveIn(st.retained, topic, now) == LiveOn(AppliedAll(db0, st.log).retained, topic, now)
    ensures LiveIn(st'.retained, topic, now) == LiveOn(AppliedAll(db0, st'.log).retained, topic, now)
  {
    StoredLog(st, st', m);
    if m.Some? {
      var cmd := RetainedCommand(m.value);
      assert (st.log + [cmd])[..|st.log|] == st.log;
      assert AppliedAll(db0, st'.log) == Applied(AppliedAll(db0, st.log), cmd);
      LiveAfter(st, AppliedAll(db0, st.log), m.value, topic, now);
    }
  }

  lemma {:induction false} LiveAfter(st: State, db: Database, m: Message, topic: string, now: nat)
    requires m.retain && LiveIn(st.retained, topic, now) == LiveOn(db.retained, topic, now)
    ensures LiveIn(Retain(st, m).retained, topic, now) == LiveOn(Applied(db, RetainedCommand(m)).retained, topic, now)
  {
    var mem, rows := Retain(st, m).retained, Applied(db, RetainedCommand(m)).retained;
    if topic == m.topic {
      assert LoadMessage(topic, m) == m;
    } else {
      assert topic in mem <==> topic in st.retained;
      assert topic in rows <==> topic in db.retained;
    }
  }

  lemma {:induction false} StepRetained(env: Env, db0: Database, n: Node, t: TimedEvent, topic: string)
    requires Enabled(env, n, t) && topic !in NextNode(env, n, t).sysTopics
    requires LiveIn(n.st.retained, topic, t.now) == LiveOn(AppliedAll(db0, n.st.log).retained, topic, t.now)
    ensures var st' := NextState(env, n, t);
      LiveIn(st'.retained, topic, t.now) == LiveOn(AppliedAll(db0, st'.log).retained, topic, t.now)
  {
    if !Moves(t.ev) {
      var cmds := ClientStepLogs(env, n, t);
      AppliedConcat(db0, n.st.log, cmds);
      ClientCommandsKeepRetained(AppliedAll(db0, n.st.log), cmds);
    } else if !t.ev.Sys? && !t.ev.PurgeRetained? {
      var m := MovesStore(env, n, t);
      StoredRetained(db0, n.st, NextState(env, n, t), m, topic, t.now);
    }
  }

  lemma {:induction false} StepKeepsRetained(env: Env, db0: Database, n: Node, t: TimedEvent)
    requires RetainedAgree(db0, n) && Enabled(env, n, t)
    ensures RetainedAgree(db0, NextNode(env, n, t))
  {
    var n' := NextNode(env, n, t);
    forall topic | topic !in n'.sysTopics
      ensures LiveIn(n'.st.retained, topic, n'.clock) == LiveOn(AppliedAll(db0, n'.st.log).retained, topic, n'.clock)
    {
      LiveLater(n.st.retained, AppliedAll(db0, n.st.log).retained, topic, n.clock, t.now);
      StepRetained(env, db0, n, t, topic);
    }
  }

  // -------------------------------------------------------------------------
  // Starting from a database
  // -------------------------------------------------------------------------

  // The order in which each client's subscription rows are read.
  ghost predicate Orders(db: Database, orders: string -> seq<string>) {
    forall c :: Enumerates(orders(c), DiskOf(db, c).subs.Keys)
  }

  // The schema's keys: a subscription row has a session row and its own filter.
  ghost predicate SchemaOk(db: Database) {
    forall c :: DiskOk(DiskOf(db, c))
  }

  function LoadSession(env: Env, db: Database, c: string, order: seq<string>): Session
    requires c in db.sessions && forall raw :: raw in order ==> raw in DiskOf(db, c).subs
  {
    NewSession(db.sessions[c].expiry).(
      identity := db.sessions[c].owner,
      persistent := true,
      subs := LoadSubs(env, DiskOf(db, c).subs, order))
  }

  function LoadRetained(db: Database, now: nat): map<string, Message> {
    map topic | topic in db.retained && !IsExpired(db.retained[topic], now) :: LoadMessage(topic, db.retained[topic])
  }

  // The state the broker starts in: reserved clients are not restored, and
  // expired messages are not loaded.
  ghost function Load(env: Env, now: nat, db: Database, orders: string -> seq<string>, acl: Acl): State
    requires Orders(db, orders)
  {
    State(map c | c in db.sessions && !Reserved(c) :: LoadSession(env, db, c, orders(c)),
          LoadRetained(db, now), map[], 1, [], acl, 0)
  }

  ghost function Start(env: Env, now: nat, db: Database, orders: string -> seq<string>, acl: Acl): Node
    requires Orders(db, orders)
  {
    Node(now, Load(env, now, db, orders, acl), {}, {}, multiset{}, [], {}, [], {}, {})
  }

  lemma {:induction false} StartAgrees(env: Env, now: nat, db: Database, orders: string -> seq<string>, acl: Acl)
    requires ParseCanonical(env) && Orders(db, orders) && SchemaOk(db)
    ensures var n := Start(env, now, db, orders, acl);
      Booted(n) && SessionsAgree(env, db, n) && RetainedAgree(db, n)
  {
    var n := Start(env, now, db, orders, acl);
    assert AppliedAll(db, []) == db;
    forall c ensures Agree(env, c, DiskAt(db, n.st, c), SessionOf(n.st, c), c in n.switched) {
      LoadAgrees(env, now, db, orders, acl, c);
    }
    forall topic ensures LiveIn(n.st.retained, topic, now) == LiveOn(db.retained, topic, now) {
      LoadedLive(db, topic, now);
    }
  }

  lemma {:induction false} LoadAgrees(env: Env, now: nat, db: Database, orders: string -> seq<string>, acl: Acl,
                                      c: string)
    requires ParseCanonical(env) && Orders(db, orders) && SchemaOk(db)
    ensures Agree(env, c, DiskOf(db, c), SessionOf(Load(env, now, db, orders, acl), c), false)
  {
    assert DiskOk(DiskOf(db, c));
    LoadMirrors(env, DiskOf(db, c).subs, orders(c));
  }

  lemma {:induction false} PlayAgrees(env: Env, db0: Database, n: Node, run: seq<TimedEvent>)
    requires ParseCanonical(env) && SessionsAgree(env, db0, n) && RetainedAgree(db0, n)
    ensures var m := Play(env, n, run); SessionsAgree(env, db0, m) && RetainedAgree(db0, m)
    decreases |run|
  {
    if run != [] {
      if Enabled(env, n, run[0]) {
        StepKeepsSessions(env, db0, n, run[0]);
        StepKeepsRetained(env, db0, n, run[0]);
      }
      PlayAgrees(env, db0, Step(env, n, run[0]), run[1..]);
    }
  }

  // In every run of a broker started from a database, the database that the
  // log turns it into has, for every persistent session, a row with its expiry
  // and owner; none for a client that is gone; exactly the subscriptions of
  // every session that never switched; and the same unexpired messages on every
  // topic the status publisher never wrote.
  lemma {:induction false} DiskTracksMemory(env: Env, now: nat, db0: Database, orders: string -> seq<string>, acl: Acl,
                                            run: seq<TimedEvent>, c: string, topic: string)
    requires ParseCanonical(env) && Orders(db0, orders) && SchemaOk(db0)
    ensures var m := Play(env, Start(env, now, db0, orders, acl), run);
      var db := AppliedAll(db0, m.st.log);
      && (c in m.st.sessions && m.st.sessions[c].persistent ==>
            c in db.sessions && db.sessions[c] == Row(m.st.sessions[c].expiry, m.st.sessions[c].identity))
      && (c !in m.st.sessions && !Reserved(c) ==> c !in db.sessions && forall raw :: (c, raw) !in db.subs)
      && (c in m.st.sessions && m.st.sessions[c].persistent && c !in m.switched ==>
            Mirrors(env, m.st.sessions[c].subs, DiskOf(db, c).subs))
      && (topic !in m.sysTopics ==> LiveIn(m.st.retained, topic, m.clock) == LiveOn(db.retained, topic, m.clock))
  {
    StartAgrees(env, now, db0, orders, acl);
    PlayAgrees(env, db0, Start(env, now, db0, orders, acl), run);
    var m := Play(env, Start(env, now, db0, orders, acl), run);
    var db := AppliedAll(db0, m.st.log);
    assert Agree(env, c, DiskAt(db0, m.st, c), SessionOf(m.st, c), c in m.switched);
    forall raw ensures raw !in DiskOf(db, c).subs ==> (c, raw) !in db.subs { RowAt(db, c, raw); }
  }

  // What a restart makes of one client: back, with its expiry, owner and
  // subscriptions, exactly if it had a persistent session.
  ghost predicate Restored(before: Option<Session>, after: Option<Session>) {
    && (after.Some? <==> before.Some? && before.value.persistent)
    && (after.Some? ==>
          && after.value.expiry == before.value.expiry && after.value.identity == before.value.identity
          && after.value.persistent && multiset(after.value.subs) == multiset(before.value.subs))
  }

  // Starting again from the database at any later time, in whatever order it
  // reads its rows: every client whose session never switched is restored
  // exactly, no vanished client comes back, every persistent session keeps its
  // expiry and owner, and the unexpired messages are those of memory.
  lemma {:induction false} RestartRestores(env: Env, now: nat, db0: Database, orders: string -> seq<string>, acl: Acl,
                                           run: seq<TimedEvent>,
                                           later: nat, orders2: string -> seq<string>, acl2: Acl, c: string,
                                           topic: string)
    requires ParseCanonical(env) && Orders(db0, orders) && SchemaOk(db0)
    requires var m := Play(env, Start(env, now, db0, orders, acl), run);
      m.clock <= later && Orders(AppliedAll(db0, m.st.log), orders2)
    ensures var m := Play(env, Start(env, now, db0, orders, acl), run);
      var st2 := Load(env, later, AppliedAll(db0, m.st.log), orders2, acl2);
      && (c !in m.switched && !Reserved(c) ==> Restored(SessionOf(m.st, c), SessionOf(st2, c)))
      && (c !in m.st.sessions ==> c !in st2.sessions)
      && (c in m.st.sessions && m.st.sessions[c].persistent ==>
            c in st2.sessions && st2.sessions[c].expiry == m.st.sessions[c].expiry
            && st2.sessions[c].identity == m.st.sessions[c].identity)
      && (topic !in m.sysTopics ==> LiveIn(st2.retained, topic, later) == LiveIn(m.st.retained, topic, later))
  {
    var m := Play(env, Start(env, now, db0, orders, acl), run);
    StartAgrees(env, now, db0, orders, acl);
    PlayAgrees(env, db0, Start(env, now, db0, orders, acl), run);
    RestoresClient(env, db0, m, later, orders2, acl2, c);
    if topic !in m.sysTopics { RestoresTopic(env, db0, m, later, orders2, acl2, topic); }
  }

  lemma {:induction false} RestoresTopic(env: Env, db0: Database, m: Node, later: nat, orders: string -> seq<string>,
                                         acl: Acl, topic: string)
    requires RetainedAgree(db0, m) && m.clock <= later && topic !in m.sysTopics
    requires Orders(AppliedAll(db0, m.st.log), orders)
    ensures LiveIn(Load(env, later, AppliedAll(db0, m.st.log), orders, acl).retained, topic, later)
            == LiveIn(m.st.retained, topic, later)
  {
    var db := AppliedAll(db0, m.st.log);
    LiveLater(m.st.retained, db.retained, topic, m.clock, later);
    LoadedLive(db, topic, later);
  }

  lemma {:induction false} LoadedLive(db: Database, topic: string, now: nat)
    ensures LiveIn(LoadRetained(db, now), topic, now) == LiveOn(db.retained, topic, now)
  {
    if topic in db.retained {
      assert IsExpired(LoadMessage(topic, db.retained[topic]), now) == IsExpired(db.retained[topic], now);
    }
  }

  lemma {:induction false} RestoresClient(env: Env, db0: Database, m: Node, later: nat, orders: string -> seq<string>,
                                          acl: Acl, c: string)
    requires ParseCanonical(env) && SessionsAgree(env, db0, m) && Orders(AppliedAll(db0, m.st.log), orders)
    ensures var st2 := Load(env, later, AppliedAll(db0, m.st.log), orders, acl);
      && (c !in m.switched && !Reserved(c) ==> Restored(SessionOf(m.st, c), SessionOf(st2, c)))
      && (c !in m.st.sessions ==> c !in st2.sessions)
      && (c in m.st.sessions && m.st.sessions[c].persistent ==>
            c in st2.sessions && st2.sessions[c].expiry == m.st.sessions[c].expiry
            && st2.sessions[c].identity == m.st.sessions[c].identity)
  {
    var disk := DiskAt(db0, m.st, c);
    assert Agree(env, c, disk, SessionOf(m.st, c), c in m.switched);
    LoadMirrors(env, disk.subs, orders(c));
    if c in m.st.sessions && m.st.sessions[c].persistent && c !in m.switched {
      MirrorsAgree(env, m.st.sessions[c].subs, LoadSubs(env, disk.subs, orders(c)), disk.subs);
    }
  }

  // -------------------------------------------------------------------------
  // Why sessions that switch are set apart
  // -------------------------------------------------------------------------

  // A resume that makes a session persistent does not store the subscriptions
  // it already had.
  lemma {:induction false} SwitchOnForgetsSubscriptions(env: Env, db0: Database, now: nat, st: State, q: ConnectRequest)
    requires ParseCanonical(env) && ConnectReady(env, st, q) && Acceptable(env, st, q) && Present(st, q)
    requires Agree(env, q.client, DiskAt(db0, st, q.client), SessionOf(st, q.client), false)
    requires !st.sessions[q.client].persistent && ConnectedSession(env, st, q).persistent
    ensures var disk := DiskAt(db0, HandleConnect(env, now, st, q), q.client);
      disk.row == Some(Row(RequestedExpiry(env, q), q.identity)) && disk.subs == map[]
  {
    var c, disk, st' := q.client, DiskAt(db0, st, q.client), HandleConnect(env, now, st, q);
    DiskAfter(db0, st, st', c, ConnectCommands(env, st, q));
    var d1, d2 := ConnectDisk(env, st, q, disk);
    assert TakeoverCommands(st, q) == [] && d1 == disk;
    DeletionsOnDisk(d1, c, Denied(env, st.acl, Who(q.identity), BoundSession(env, st, q).subs));
    assert d2.subs == map[];
  }

  // A resume that makes a session not persistent leaves its old row behind, so
  // a restart would bring it back with the expiry and owner it had before.
  lemma {:induction false} SwitchOffKeepsRow(env: Env, db0: Database, now: nat, st: State, q: ConnectRequest)
    requires ConnectReady(env, st, q) && Acceptable(env, st, q) && Present(st, q)
    requires Agree(env, q.client, DiskAt(db0, st, q.client), SessionOf(st, q.client), false)
    requires st.sessions[q.client].persistent && !ConnectedSession(env, st, q).persistent
    ensures Stored(DiskAt(db0, HandleConnect(env, now, st, q), q.client), st.sessions[q.client])
  {
    var c, disk := q.client, DiskAt(db0, st, q.client);
    DiskAfter(db0, st, HandleConnect(env, now, st, q), c, ConnectCommands(env, st, q));
    var d1, d2 := ConnectDisk(env, st, q, disk);
    TakeoverAgrees(env, st, q, disk, false);
  }

  // Whether the session is or becomes persistent, before and after a resume.
  predicate Switched(env: Env, st: State, q: ConnectRequest) {
    Present(st, q) && st.sessions[q.client].persistent != ConnectedSession(env, st, q).persistent
  }

  // An accepted CONNECT keeps memory and disk in agreement about its client
  // exactly if the session does not switch, or becomes persistent without
  // keeping a subscription.
  lemma {:induction false} ConnectAgreesExactly(env: Env, db0: Database, now: nat, st: State, q: ConnectRequest)
    requires ParseCanonical(env) && ConnectReady(env, st, q) && Acceptable(env, st, q)
    requires Agree(env, q.client, DiskAt(db0, st, q.client), SessionOf(st, q.client), false)
    ensures var st' := HandleConnect(env, now, st, q);
      Agree(env, q.client, DiskAt(db0, st', q.client), SessionOf(st', q.client), false)
      <==> (Switched(env, st, q) ==> !st.sessions[q.client].persistent && ConnectedSession(env, st, q).subs == [])
  {
    var c, disk, st' := q.client, DiskAt(db0, st, q.client), HandleConnect(env, now, st, q);
    ConnectStep(env, db0, now, st, q, c, false);
    if Switched(env, st, q) {
      if st.sessions[c].persistent {
        SwitchOffKeepsRow(env, db0, now, st, q);
      } else {
        SwitchOnForgetsSubscriptions(env, db0, now, st, q);
        EmptyMirrors(env, st'.sessions[c].subs);
      }
    }
  }

  // Empty rows mirror the empty list only.
  lemma {:induction false} EmptyMirrors(env: Env, subs: seq<Subscription>)
    ensures Mirrors(env, subs, map[]) <==> subs == []
  {
    FreshMirrors(env);
    if subs != [] { assert subs[0] in subs && !InRows(env, map[], subs[0]); }
  }
}
