// The broker-wide counter of dropped messages, accounted for. The audit of a
// run lists, for every session the broker has and for every one it ever had,
// the events that were posted to it; the counter is exactly what the ledgers of
// these histories dropped.

module Accounting {
  import opened Types
  import opened Delivery
  import opened SessionRuns
  import opened Conservation
  import opened Erasure
  import opened Posts
  import B = Broker
  import R = BrokerRuns

  /** A session's history and the drops its ledger reports. */
  datatype Account = Account(run: seq<Timed>, dropped: nat)

  const NEW := Account([], 0)

  /** The accounts of the living sessions, and of those that ended, latest
      first. */
  datatype Audit = Audit(live: map<string, Account>, past: seq<Account>)

  ghost function BooksOf(env: Env, run: seq<Timed>): Books {
    Ledger(env, OPENING, run)
  }

  // -------------------------------------------------------------------------
  // The audit of a run
  // -------------------------------------------------------------------------

  // A post extends its client's history by that event.
  ghost function Entered(env: Env, a: Audit, p: Post): Audit {
    if p.client !in a.live then a
    else
      var run := a.live[p.client].run + [p.t];
      a.(live := a.live[p.client := Account(run, BooksOf(env, run).dropped)])
  }

  ghost function EnteredAll(env: Env, a: Audit, posts: seq<Post>): Audit {
    if posts == [] then a else Entered(env, EnteredAll(env, a, posts[..|posts| - 1]), posts[|posts| - 1])
  }

  ghost function Closed(a: Audit, c: Option<string>): Audit {
    if c.Some? && c.value in a.live then Audit(a.live - {c.value}, [a.live[c.value]] + a.past) else a
  }

  ghost function Begun(a: Audit, c: Option<string>): Audit {
    if c.Some? then a.(live := a.live[c.value := NEW]) else a
  }

  ghost function NextAudit(env: Env, n: R.Node, a: Audit, t: R.TimedEvent): Audit {
    if R.Enabled(env, n, t)
    then EnteredAll(env, Begun(Closed(a, Ends(env, n.st, t.ev)), Begins(env, n.st, t.ev)), PostsOf(env, n, t))
    else a
  }

  ghost function AuditRun(env: Env, n: R.Node, a: Audit, run: seq<R.TimedEvent>): Audit
    decreases |run|
  {
    if run == [] then a else AuditRun(env, R.Step(env, n, run[0]), NextAudit(env, n, a, run[0]), run[1..])
  }

  // The audit of a run from start-up, where every restored session is new.
  ghost function AuditOf(env: Env, n: R.Node, run: seq<R.TimedEvent>): Audit {
    AuditRun(env, n, Audit(map c | c in n.st.sessions :: NEW, []), run)
  }

  // -------------------------------------------------------------------------
  // Sums
  // -------------------------------------------------------------------------

  ghost function PastDrops(past: seq<Account>): nat {
    if past == [] then 0 else past[0].dropped + PastDrops(past[1..])
  }

  ghost function LiveDrops(live: map<string, Account>): nat
    decreases |live|
  {
    if live == map[] then 0
    else
      var c :| c in live;
      live[c].dropped + LiveDrops(live - {c})
  }

  // The order of summation does not matter.
  lemma {:induction false} LiveWithout(live: map<string, Account>, c: string)
    requires c in live
    ensures LiveDrops(live) == live[c].dropped + LiveDrops(live - {c})
    decreases |live|
  {
    var x :| x in live && LiveDrops(live) == live[x].dropped + LiveDrops(live - {x});
    if x != c {
      LiveWithout(live - {x}, c);
      LiveWithout(live - {c}, x);
      assert live - {x} - {c} == live - {c} - {x};
    }
  }

  lemma {:induction false} LiveWith(live: map<string, Account>, c: string, acc: Account)
    ensures LiveDrops(live[c := acc]) == acc.dropped + LiveDrops(live - {c})
  {
    LiveWithout(live[c := acc], c);
    assert live[c := acc] - {c} == live - {c};
  }

  // -------------------------------------------------------------------------
  // The invariant
  // -------------------------------------------------------------------------

  // The account is what the ledger of its history says.
  ghost predicate True(env: Env, acc: Account) {
    acc.dropped == BooksOf(env, acc.run).dropped
  }

  // The history made the session what it is, but for labels.
  ghost predicate Tracks(env: Env, acc: Account, d: Outbound) {
    True(env, acc) && Bare(BooksOf(env, acc.run).d) == Bare(d)
  }

  ghost predicate AllTracked(env: Env, board: Board, live: map<string, Account>)
    requires live.Keys == board.Keys
  {
    forall c {:trigger Tracks(env, live[c], board[c])} :: c in board ==> Tracks(env, live[c], board[c])
  }

  ghost predicate AllTrue(env: Env, past: seq<Account>) {
    forall k {:trigger True(env, past[k])} :: 0 <= k < |past| ==> True(env, past[k])
  }

  /** Every account is true, each session is what its history made it, and the
      counter is the sum of all accounts. */
  ghost predicate AuditOk(env: Env, o: Outcome, a: Audit) {
    && a.live.Keys == o.board.Keys
    && AllTracked(env, o.board, a.live) && AllTrue(env, a.past)
    && o.dropped == LiveDrops(a.live) + PastDrops(a.past)
  }

  lemma {:induction false} TracksNext(env: Env, acc: Account, d: Outbound, t: Timed)
    requires Tracks(env, acc, d)
    ensures var next := Account(acc.run + [t], BooksOf(env, acc.run + [t]).dropped);
      Tracks(env, next, Next(env, d, t).d) && next.dropped == acc.dropped + Next(env, d, t).dropped
  {
    LedgerSnoc(env, OPENING, acc.run, t);
    LedgerFollows(env, BooksOf(env, acc.run), d, t);
  }

  lemma {:induction false} TrackedWith(env: Env, board: Board, live: map<string, Account>, c: string, d: Outbound,
                                       acc: Account)
    requires live.Keys == board.Keys && AllTracked(env, board, live) && Tracks(env, acc, d)
    ensures live[c := acc].Keys == board[c := d].Keys && AllTracked(env, board[c := d], live[c := acc])
  {
    var board', live' := board[c := d], live[c := acc];
    forall x | x in board' ensures Tracks(env, live'[x], board'[x]) {
      if x != c { assert Tracks(env, live[x], board[x]); }
    }
  }

  lemma {:induction false} TrackedWithout(env: Env, board: Board, live: map<string, Account>, c: string)
    requires live.Keys == board.Keys && AllTracked(env, board, live)
    ensures (live - {c}).Keys == (board - {c}).Keys && AllTracked(env, board - {c}, live - {c})
  {
    forall x | x in board - {c} ensures Tracks(env, (live - {c})[x], (board - {c})[x]) {
      assert Tracks(env, live[x], board[x]);
    }
  }

  // One post.
  lemma {:induction false} EnteredOk(env: Env, o: Outcome, a: Audit, p: Post)
    requires AuditOk(env, o, a)
    ensures AuditOk(env, PostOne(env, o, p), Entered(env, a, p))
  {
    if p.client in o.board {
      var c, acc, d := p.client, a.live[p.client], o.board[p.client];
      var next := Account(acc.run + [p.t], BooksOf(env, acc.run + [p.t]).dropped);
      assert Tracks(env, acc, d);
      TracksNext(env, acc, d, p.t);
      Replaced(env, o, a, c, Next(env, d, p.t), next);
    }
  }

  lemma {:induction false} Replaced(env: Env, o: Outcome, a: Audit, c: string, r: Flushed, acc: Account)
    requires AuditOk(env, o, a) && c in o.board
    requires Tracks(env, acc, r.d) && acc.dropped == a.live[c].dropped + r.dropped
    ensures AuditOk(env, Outcome(o.board[c := r.d], o.dropped + r.dropped), a.(live := a.live[c := acc]))
  {
    LiveWithout(a.live, c);
    LiveWith(a.live, c, acc);
    TrackedWith(env, o.board, a.live, c, r.d, acc);
  }

  lemma {:induction false} EnteredAllOk(env: Env, o: Outcome, a: Audit, posts: seq<Post>)
    requires AuditOk(env, o, a)
    ensures AuditOk(env, PostAll(env, o, posts), EnteredAll(env, a, posts))
  {
    if posts != [] {
      var n := |posts| - 1;
      EnteredAllOk(env, o, a, posts[..n]);
      EnteredOk(env, PostAll(env, o, posts[..n]), EnteredAll(env, a, posts[..n]), posts[n]);
    }
  }

  lemma {:induction false} ClosedOk(env: Env, o: Outcome, a: Audit, c: string)
    requires AuditOk(env, o, a) && c in o.board
    ensures AuditOk(env, o.(board := o.board - {c}), Closed(a, Some(c)))
  {
    LiveWithout(a.live, c);
    TrackedWithout(env, o.board, a.live, c);
    assert Tracks(env, a.live[c], o.board[c]);
    PastWith(env, a.past, a.live[c]);
  }

  lemma {:induction false} PastWith(env: Env, past: seq<Account>, acc: Account)
    requires AllTrue(env, past) && True(env, acc)
    ensures AllTrue(env, [acc] + past) && PastDrops([acc] + past) == acc.dropped + PastDrops(past)
  {
    var all := [acc] + past;
    assert all[1..] == past;
    forall k | 0 <= k < |all| ensures True(env, all[k]) {
      if k > 0 { assert True(env, past[k - 1]); }
    }
  }

  lemma {:induction false} FreshTracks(env: Env)
    ensures Tracks(env, NEW, FRESH)
  {
    assert BooksOf(env, []) == OPENING;
  }

  lemma {:induction false} BegunOk(env: Env, o: Outcome, a: Audit, c: string)
    requires AuditOk(env, o, a) && c !in o.board
    ensures AuditOk(env, o.(board := o.board[c := FRESH]), Begun(a, Some(c)))
  {
    FreshTracks(env);
    assert a.live - {c} == a.live;
    LiveWith(a.live, c, NEW);
    TrackedWith(env, o.board, a.live, c, FRESH, NEW);
  }

  lemma {:induction false} OpenedOk(env: Env, st: B.State, ev: R.Event, a: Audit)
    requires AuditOk(env, Outcome(Lines(st.sessions), st.dropped), a)
    ensures AuditOk(env, Outcome(Opened(env, st, ev), st.dropped),
                    Begun(Closed(a, Ends(env, st, ev)), Begins(env, st, ev)))
  {
    var ended, begun := Ends(env, st, ev), Begins(env, st, ev);
    var o := Outcome(Lines(st.sessions), st.dropped);
    var o1 := if ended.Some? then o.(board := o.board - {ended.value}) else o;
    if ended.Some? { ClosedOk(env, o, a, ended.value); }
    if begun.Some? { BegunOk(env, o1, Closed(a, ended), begun.value); }
  }

  ghost predicate StateOk(env: Env, st: B.State, a: Audit) {
    AuditOk(env, Outcome(Lines(st.sessions), st.dropped), a)
  }

  lemma {:induction false} StepOk(env: Env, n: R.Node, a: Audit, t: R.TimedEvent)
    requires StateOk(env, n.st, a)
    ensures StateOk(env, R.Step(env, n, t).st, NextAudit(env, n, a, t))
  {
    if R.Enabled(env, n, t) {
      var board, a1 := Opened(env, n.st, t.ev), Begun(Closed(a, Ends(env, n.st, t.ev)), Begins(env, n.st, t.ev));
      OpenedOk(env, n.st, t.ev, a);
      StepPosts(env, n, t);
      EnteredAllOk(env, Outcome(board, n.st.dropped), a1, PostsOf(env, n, t));
    }
  }

  lemma {:induction false} RunOk(env: Env, n: R.Node, a: Audit, run: seq<R.TimedEvent>)
    requires StateOk(env, n.st, a)
    ensures StateOk(env, R.Play(env, n, run).st, AuditRun(env, n, a, run))
    decreases |run|
  {
    if run != [] {
      StepOk(env, n, a, run[0]);
      RunOk(env, R.Step(env, n, run[0]), NextAudit(env, n, a, run[0]), run[1..]);
    }
  }

  lemma {:induction false} NoDrops(live: map<string, Account>)
    requires forall c :: c in live ==> live[c].dropped == 0
    ensures LiveDrops(live) == 0
    decreases |live|
  {
    if live != map[] {
      var c :| c in live;
      LiveWithout(live, c);
      NoDrops(live - {c});
    }
  }

  lemma {:induction false} BootedOk(env: Env, n: R.Node)
    requires R.Booted(n)
    ensures StateOk(env, n.st, Audit(map c | c in n.st.sessions :: NEW, []))
  {
    var live: map<string, Account> := map c | c in n.st.sessions :: NEW;
    forall c | c in n.st.sessions ensures Tracks(env, live[c], Lines(n.st.sessions)[c]) {
      assert R.RestoredSession(n.st.sessions[c]);
      FreshTracks(env);
    }
    NoDrops(live);
  }

  /** The account is balanced: its drops are exactly the evicted and oversized
      deliveries of its history and the QoS 0 messages refused. */
  ghost predicate Fair(env: Env, acc: Account) {
    && Balanced(BooksOf(env, acc.run))
    && acc.dropped == |Lost(BooksOf(env, acc.run).fate)| + BooksOf(env, acc.run).refused
  }

  lemma {:induction false} TrueIsFair(env: Env, acc: Account)
    requires True(env, acc)
    ensures Fair(env, acc)
  {
    Conserved(env, acc.run);
  }

  lemma {:induction false} AccountsAreFair(env: Env, st: B.State, a: Audit)
    requires StateOk(env, st, a)
    ensures forall c :: c in a.live ==>
      c in st.sessions && Tracks(env, a.live[c], st.sessions[c].d) && Fair(env, a.live[c])
    ensures forall k :: 0 <= k < |a.past| ==> Fair(env, a.past[k])
  {
    forall c | c in a.live
      ensures c in st.sessions && Tracks(env, a.live[c], st.sessions[c].d) && Fair(env, a.live[c])
    {
      assert Tracks(env, a.live[c], Lines(st.sessions)[c]);
      TrueIsFair(env, a.live[c]);
    }
    forall k | 0 <= k < |a.past| ensures Fair(env, a.past[k]) {
      assert True(env, a.past[k]);
      TrueIsFair(env, a.past[k]);
    }
  }

  // In every run of the broker, with the audit of that run: the sessions living
  // are those with a live account, each is what the events posted to it made
  // it, every account is balanced, and publish_dropped is exactly the sum of all
  // accounts, living and ended: the evicted and oversized deliveries and the
  // refused QoS 0 messages of every session the broker ever had.
  lemma {:induction false} DropsAccountedFor(env: Env, n: R.Node, run: seq<R.TimedEvent>)
    requires R.Booted(n)
    ensures var st, a := R.Play(env, n, run).st, AuditOf(env, n, run);
      && a.live.Keys == st.sessions.Keys
      && (forall c :: c in a.live ==> Tracks(env, a.live[c], st.sessions[c].d) && Fair(env, a.live[c]))
      && (forall k :: 0 <= k < |a.past| ==> Fair(env, a.past[k]))
      && st.dropped == LiveDrops(a.live) + PastDrops(a.past)
  {
    BootedOk(env, n);
    RunOk(env, n, Audit(map c | c in n.st.sessions :: NEW, []), run);
    AccountsAreFair(env, R.Play(env, n, run).st, AuditOf(env, n, run));
  }
}
