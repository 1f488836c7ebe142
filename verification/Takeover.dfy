// Takeover, expiry and Wills under every interleaving: a superseded connection
// and the timers it left behind can no longer touch the client's session.

module Takeover {
  import opened Types
  import Delivery
  import opened Broker
  import opened BrokerRuns

  // -------------------------------------------------------------------------
  // Epochs
  // -------------------------------------------------------------------------

  // Every session keeps its epoch, except that a newly accepted connection
  // takes the next unused one.
  ghost predicate EpochMove(st: State, st': State, client: Option<string>) {
    && st.nextEpoch <= st'.nextEpoch
    && (client.Some? ==> st'.nextEpoch == st.nextEpoch + 1 && client.value in st'.sessions)
    && (forall c :: c in st'.sessions ==>
          if client == Some(c) then st'.sessions[c].epoch == st.nextEpoch
          else c in st.sessions && st'.sessions[c].epoch == st.sessions[c].epoch)
  }

  ghost function AcceptedClient(env: Env, st: State, ev: Event): Option<string> {
    if ev.Connect? && Acceptable(env, st, ev.c) then Some(ev.c.client)
    else if ev.Register? then Some(ev.client)
    else None
  }

  lemma {:induction false} ConnectEpoch(env: Env, now: nat, st: State, c: ConnectRequest)
    requires ConnectReady(env, st, c) && Acceptable(env, st, c)
    ensures EpochMove(st, HandleConnect(env, now, st, c), Some(c.client))
  {
  }

  lemma {:induction false} PacketEpoch(env: Env, n: Node, t: TimedEvent)
    requires Enabled(env, n, t) && t.ev.Packet?
    ensures EpochMove(n.st, NextState(env, n, t), None)
  {
    if Moves(t.ev) { MovesAreQuiet(env, n, t); }
  }

  lemma {:induction false} StepEpoch(env: Env, n: Node, t: TimedEvent)
    requires Enabled(env, n, t)
    ensures EpochMove(n.st, NextState(env, n, t), AcceptedClient(env, n.st, t.ev))
  {
    if Moves(t.ev) {
      MovesAreQuiet(env, n, t);
    } else {
      match t.ev
      case Connect(c) => if Acceptable(env, n.st, c) { ConnectEpoch(env, t.now, n.st, c); }
      case Packet(_, _, _) => PacketEpoch(env, n, t);
      case _ =>
    }
  }

  // -------------------------------------------------------------------------
  // The epoch fence
  // -------------------------------------------------------------------------

  // The connection with this epoch is no longer, and never will be again, the
  // client's current one.
  ghost predicate Superseded(st: State, client: string, epoch: nat) {
    epoch < st.nextEpoch && (client in st.sessions ==> st.sessions[client].epoch > epoch)
  }

  lemma {:induction false} StepSuperseded(env: Env, n: Node, t: TimedEvent, client: string, epoch: nat)
    requires Superseded(n.st, client, epoch)
    ensures Superseded(Step(env, n, t).st, client, epoch)
  {
    if Enabled(env, n, t) { StepEpoch(env, n, t); }
  }

  lemma {:induction false} PlaySuperseded(env: Env, n: Node, run: seq<TimedEvent>, client: string, epoch: nat)
    requires Superseded(n.st, client, epoch)
    ensures Superseded(Play(env, n, run).st, client, epoch)
    decreases |run|
  {
    if run != [] {
      StepSuperseded(env, n, run[0], client, epoch);
      PlaySuperseded(env, Step(env, n, run[0]), run[1..], client, epoch);
    }
  }

  // A connection accepted for a client supersedes all earlier ones.
  lemma {:induction false} AcceptSupersedes(env: Env, n: Node, t: TimedEvent, client: string, epoch: nat)
    requires Enabled(env, n, t) && AcceptedClient(env, n.st, t.ev) == Some(client) && epoch < n.st.nextEpoch
    ensures Superseded(Step(env, n, t).st, client, epoch)
  {
    StepEpoch(env, n, t);
  }

  // A packet or close of a superseded connection changes nothing.
  lemma {:induction false} StaleIsIgnored(env: Env, n: Node, t: TimedEvent)
    requires Enabled(env, n, t) && (t.ev.Packet? || t.ev.Close?) && !Current(n.st, t.ev.client, t.ev.epoch)
    ensures Step(env, n, t) == n.(clock := t.now)
  {
    assert NextState(env, n, t) == n.st;
    assert NewMarks(env, n.st, n.st, t.ev) == [];
    assert n.marks + [] == n.marks;
  }

  // The fence: after a takeover, and after any further run, every PUBLISH,
  // acknowledgement, SUBSCRIBE, UNSUBSCRIBE, DISCONNECT or close of an earlier
  // connection of that client leaves the broker as it was, even if its dispatch
  // check passed before the takeover.
  lemma {:induction false} EpochFence(env: Env, n: Node, takeover: TimedEvent, run: seq<TimedEvent>, late: TimedEvent)
    requires Enabled(env, n, takeover) && (late.ev.Packet? || late.ev.Close?)
    requires AcceptedClient(env, n.st, takeover.ev) == Some(late.ev.client) && late.ev.epoch < n.st.nextEpoch
    requires Enabled(env, Play(env, Step(env, n, takeover), run), late)
    ensures var m := Play(env, Step(env, n, takeover), run);
      Step(env, m, late) == m.(clock := late.now)
  {
    AcceptSupersedes(env, n, takeover, late.ev.client, late.ev.epoch);
    PlaySuperseded(env, Step(env, n, takeover), run, late.ev.client, late.ev.epoch);
    StaleIsIgnored(env, Play(env, Step(env, n, takeover), run), late);
  }

  // The expiry update of a DISCONNECT runs in a second critical section that
  // does not look at the epoch: whichever connection is current by then, it is
  // harmless exactly when the session is gone, or is not persistent and has the
  // same expiry already.
  lemma {:induction false} ExpiryUpdateUnfenced(env: Env, st: State, client: string, wanted: nat)
    ensures UpdateExpiry(env, st, client, wanted) == st <==>
      client in st.sessions ==>
        !st.sessions[client].persistent
        && st.sessions[client].expiry == if wanted <= env.maxSessionExpiry then wanted else env.maxSessionExpiry
  {
    if client in st.sessions {
      var s := st.sessions[client];
      var st' := UpdateExpiry(env, st, client, wanted);
      assert st'.sessions[client].expiry == if wanted <= env.maxSessionExpiry then wanted else env.maxSessionExpiry;
      if s.persistent { assert |st'.log| == |st.log| + 1; }
      else { assert st'.log == st.log; }
      if st'.sessions[client] == s { assert st'.sessions == st.sessions; }
    }
  }

  // So a DISCONNECT whose first section ran before a takeover still sets the
  // expiry of the connection that replaced it.
  lemma {:induction false} StaleUpdateLands(env: Env, n: Node, t: TimedEvent)
    requires Enabled(env, n, t) && t.ev.Work? && t.ev.task.Update?
    requires Superseded(n.st, t.ev.task.client, t.ev.task.epoch) && t.ev.task.client in n.st.sessions
    ensures var c := t.ev.task.client; var st' := Step(env, n, t).st;
      && c in st'.sessions && st'.sessions[c].epoch == n.st.sessions[c].epoch > t.ev.task.epoch
      && st'.sessions[c].expiry == if t.ev.task.wanted <= env.maxSessionExpiry then t.ev.task.wanted
         else env.maxSessionExpiry
  {
    assert NextState(env, n, t) == UpdateExpiry(env, n.st, t.ev.task.client, t.ev.task.wanted);
  }

  // A CONNECT that resumes a session keeps the old connection's topic aliases:
  // they are empty afterwards exactly when the session is new or they were
  // empty before, which a completed close guarantees and a takeover does not.
  lemma {:induction false} AliasesAfterConnect(env: Env, now: nat, st: State, c: ConnectRequest)
    requires ConnectReady(env, st, c) && Acceptable(env, st, c)
    ensures HandleConnect(env, now, st, c).sessions[c.client].aliases == map[] <==>
      Present(st, c) ==> st.sessions[c.client].aliases == map[]
  {
  }

  // -------------------------------------------------------------------------
  // Removal
  // -------------------------------------------------------------------------

  ghost predicate EpochsBounded(st: State) {
    forall c :: c in st.sessions ==> st.sessions[c].epoch < st.nextEpoch
  }

  lemma {:induction false} PlayEpochsBounded(env: Env, n: Node, run: seq<TimedEvent>)
    requires EpochsBounded(n.st)
    ensures EpochsBounded(Play(env, n, run).st)
    decreases |run|
  {
    if run != [] {
      if Enabled(env, n, run[0]) { StepEpoch(env, n, run[0]); }
      PlayEpochsBounded(env, Step(env, n, run[0]), run[1..]);
    }
  }

  // A teardown or expiry timer of connection `epoch` removes the session only
  // if no connection for that client was accepted since the state in which
  // that connection was still the current one.
  lemma {:induction false} RemovalMeansNoReconnect(env: Env, n: Node, run: seq<TimedEvent>, client: string, epoch: nat,
                                                   k: nat)
    requires EpochsBounded(n.st) && Current(n.st, client, epoch) && k < |run|
    requires RemoveIfIdle(Play(env, n, run).st, client, epoch) != Play(env, n, run).st
    ensures var before := Play(env, n, run[..k]);
      Enabled(env, before, run[k]) ==> AcceptedClient(env, before.st, run[k].ev) != Some(client)
  {
    var before := Play(env, n, run[..k]);
    if Enabled(env, before, run[k]) && AcceptedClient(env, before.st, run[k].ev) == Some(client) {
      NextEpochGrows(env, n, run[..k]);
      AcceptSupersedes(env, before, run[k], client, epoch);
      PlaySuperseded(env, Step(env, before, run[k]), run[k + 1..], client, epoch);
      PlaySplit(env, n, run, k);
    }
  }

  lemma {:induction false} NextEpochGrows(env: Env, n: Node, run: seq<TimedEvent>)
    ensures n.st.nextEpoch <= Play(env, n, run).st.nextEpoch
    decreases |run|
  {
    if run != [] {
      if Enabled(env, n, run[0]) { StepEpoch(env, n, run[0]); }
      NextEpochGrows(env, Step(env, n, run[0]), run[1..]);
    }
  }

  // -------------------------------------------------------------------------
  // Wills
  // -------------------------------------------------------------------------

  // A Will still stored belongs to its session's own epoch, which no other
  // session shares and which no close has taken a Will for.
  ghost predicate StoredWills(st: State, taken: set<nat>) {
    && EpochsBounded(st)
    && (forall c :: c in st.sessions && st.sessions[c].will.Some? ==> st.sessions[c].epoch !in taken)
    && (forall c, e :: c in st.sessions && e in st.sessions && c != e && st.sessions[c].will.Some?
          ==> st.sessions[c].epoch != st.sessions[e].epoch)
    && (forall e :: e in taken ==> e < st.nextEpoch)
  }

  // A Will on its way was taken by its own epoch's close, and is the only one
  // of that epoch; a fired one is not on its way any more.
  ghost predicate MovingWills(tasks: set<Task>, fired: seq<nat>, taken: set<nat>) {
    && (forall t :: t in tasks && t.Fire? ==> t.epoch in taken && t.epoch !in fired)
    && (forall t, u :: t in tasks && u in tasks && t.Fire? && u.Fire? && t.epoch == u.epoch ==> t == u)
    && (forall e :: e in fired ==> e in taken)
    && NoRepeat(fired)
  }

  ghost predicate WillInv(n: Node) {
    StoredWills(n.st, n.taken) && MovingWills(n.tasks, n.fired, n.taken)
  }

  // A step that leaves epochs and stored Wills of other clients alone.
  ghost predicate WillMove(st: State, st': State, client: Option<string>) {
    && EpochMove(st, st', client)
    && (forall c :: c in st'.sessions && client != Some(c) ==>
          c in st.sessions && (st'.sessions[c].will.Some? ==> st.sessions[c].will.Some?))
  }

  lemma {:induction false} StepWills(env: Env, n: Node, t: TimedEvent)
    requires Enabled(env, n, t)
    ensures WillMove(n.st, NextState(env, n, t), AcceptedClient(env, n.st, t.ev))
    ensures t.ev.Close? && Current(n.st, t.ev.client, t.ev.epoch) ==>
      NextState(env, n, t).sessions[t.ev.client].will.None?
  {
    StepEpoch(env, n, t);
    if Moves(t.ev) {
      MovesAreQuiet(env, n, t);
      QuietWills(n.st, NextState(env, n, t));
    } else if t.ev.Packet? {
      PacketWills(env, n, t);
    } else {
      OtherWills(env, n, t);
    }
  }

  lemma {:induction false} OtherWills(env: Env, n: Node, t: TimedEvent)
    requires Enabled(env, n, t) && !Moves(t.ev) && !t.ev.Packet?
    ensures forall c :: c in NextState(env, n, t).sessions && AcceptedClient(env, n.st, t.ev) != Some(c) ==>
      c in n.st.sessions && (NextState(env, n, t).sessions[c].will.Some? ==> n.st.sessions[c].will.Some?)
  {
  }

  lemma {:induction false} PacketWills(env: Env, n: Node, t: TimedEvent)
    requires Enabled(env, n, t) && t.ev.Packet? && (t.ev.inbound.InSubscribe? || t.ev.inbound.InUnsubscribe?)
    ensures forall c :: c in NextState(env, n, t).sessions ==>
      c in n.st.sessions && NextState(env, n, t).sessions[c].will == n.st.sessions[c].will
  {
  }

  lemma {:induction false} QuietWills(st: State, st': State)
    requires Quiet(st, st')
    ensures forall c :: c in st'.sessions ==> c in st.sessions && st'.sessions[c].will == st.sessions[c].will
  {
    forall c | c in st'.sessions ensures c in st.sessions && st'.sessions[c].will == st.sessions[c].will {
      assert SameControl(st.sessions[c], st'.sessions[c]);
    }
  }

  lemma {:induction false} StoredStep(st: State, st': State, client: Option<string>, taken: set<nat>)
    requires StoredWills(st, taken) && WillMove(st, st', client)
    ensures StoredWills(st', taken)
  {
  }

  // A close hands its Will over.
  lemma {:induction false} StoredTake(st: State, client: string, epoch: nat, taken: set<nat>)
    requires StoredWills(st, taken) && Current(st, client, epoch) && st.sessions[client].will.Some?
    ensures StoredWills(CloseSession(st, client, epoch), taken + {epoch})
  {
  }

  lemma {:induction false} MovingWork(tasks: set<Task>, fired: seq<nat>, taken: set<nat>, task: Task, again: bool,
                                      fires: bool)
    requires MovingWills(tasks, fired, taken) && task in tasks
    requires again ==> task.Fire? && !fires
    requires fires ==> task.Fire?
    ensures MovingWills(tasks - {task} + (if again then {task.(waiting := false)} else {}),
                        if fires then fired + [task.epoch] else fired, taken)
  {
  }

  lemma {:induction false} StepKeepsWillInv(env: Env, n: Node, t: TimedEvent)
    requires WillInv(n) && Enabled(env, n, t)
    ensures WillInv(NextNode(env, n, t))
  {
    StepKeepsStored(env, n, t);
    StepKeepsMoving(env, n, t.ev);
  }

  lemma {:induction false} StepKeepsStored(env: Env, n: Node, t: TimedEvent)
    requires WillInv(n) && Enabled(env, n, t)
    ensures StoredWills(NextState(env, n, t), if TakesWill(n.st, t.ev) then n.taken + {t.ev.epoch} else n.taken)
  {
    if TakesWill(n.st, t.ev) {
      StoredTake(n.st, t.ev.client, t.ev.epoch, n.taken);
    } else {
      StepWills(env, n, t);
      StoredStep(n.st, NextState(env, n, t), AcceptedClient(env, n.st, t.ev), n.taken);
    }
  }

  lemma {:induction false} StepKeepsMoving(env: Env, n: Node, ev: Event)
    requires WillInv(n) && (ev.Work? ==> ev.task in n.tasks)
    ensures MovingWills(NextTasks(n, ev),
                        if Fires(env, n.st, ev) then n.fired + [ev.task.epoch] else n.fired,
                        if TakesWill(n.st, ev) then n.taken + {ev.epoch} else n.taken)
  {
    if ev.Work? {
      var again := ev.task.Fire? && ev.task.waiting && !WillCancelled(n.st, ev.task.client, ev.task.epoch);
      MovingWork(n.tasks, n.fired, n.taken, ev.task, again, Fires(env, n.st, ev));
    }
  }

  lemma {:induction false} PlayKeepsWillInv(env: Env, n: Node, run: seq<TimedEvent>)
    requires WillInv(n)
    ensures WillInv(Play(env, n, run))
    decreases |run|
  {
    if run != [] {
      if Enabled(env, n, run[0]) { StepKeepsWillInv(env, n, run[0]); }
      PlayKeepsWillInv(env, Step(env, n, run[0]), run[1..]);
    }
  }

  // In every run each stored Will is fired at most once, and only if the close
  // of its own connection took it with the request to publish it.
  lemma {:induction false} WillsFireAtMostOnce(env: Env, n: Node, run: seq<TimedEvent>)
    requires Booted(n)
    ensures var m := Play(env, n, run);
      NoRepeat(m.fired) && forall e :: e in m.fired ==> e in m.taken
  {
    forall c | c in n.st.sessions ensures n.st.sessions[c].will.None? && n.st.sessions[c].epoch == 0 {
      assert RestoredSession(n.st.sessions[c]);
    }
    PlayKeepsWillInv(env, n, run);
  }

  // -------------------------------------------------------------------------
  // What the client is told
  // -------------------------------------------------------------------------

  // The CONNACK is true of the session: its epoch, its expiry, and, if it says
  // that no session was kept, that nothing of an earlier one is left.
  lemma {:induction false} ConnackIsTrue(env: Env, now: nat, st: State, c: ConnectRequest)
    requires ConnectReady(env, st, c)
    ensures var answer, st' := ConnackFor(env, st, c), HandleConnect(env, now, st, c);
      && (answer.Accepted? <==> Acceptable(env, st, c))
      && (answer.Rejected? ==> answer.rc.IsError() && st' == st)
      && (answer.Accepted? ==>
            && c.client in st'.sessions
            && var s := st'.sessions[c.client];
            && s.epoch == answer.epoch
            && s.expiry == (if answer.expiry.Some? then answer.expiry.value else AskedExpiry(c))
            && (answer.sessionPresent ==> c.client in st.sessions && s.inboundQos2 == st.sessions[c.client].inboundQos2)
            && (!answer.sessionPresent ==>
                  s.subs == [] && s.inboundQos2 == {} && s.aliases == map[]
                  && s.d.queue == [] && Delivery.InUse(s.d) == {} && s.d.nextId == 1))
  {
  }
}
