// The per-address connection limiter: a fixed window per source address.

module RateLimit {

  const COUNTER: nat := 0x1_0000_0000

  /** One address's window: when it opened and the attempts counted in it. */
  datatype Entry = Entry(start: nat, count: nat)

  type Table = map<string, Entry>

  datatype Verdict = Verdict(table: Table, admitted: bool)

  // What one attempt does. The counter is 32 bits wide and wraps, as it does
  // in a release build; a build with overflow checks would stop instead.
  function Checked(limit: nat, window: nat, table: Table, ip: string, now: nat): Verdict {
    if limit == 0 then Verdict(table, true)
    else
      var e := if ip in table then table[ip] else Entry(now, 0);
      if now - e.start >= window then Verdict(table[ip := Entry(now, 1)], true)
      else
        var count := (e.count + 1) % COUNTER;
        Verdict(table[ip := Entry(e.start, count)], count <= limit)
  }

  function Swept(window: nat, table: Table, now: nat): Table {
    map ip | ip in table && now - table[ip].start < window * 2 :: table[ip]
  }

  class RateLimiter {
    const limit: nat
    const window: nat
    var table: Table

    constructor (limit: nat, window: nat)
      ensures this.limit == limit && this.window == window && table == map[]
    {
      this.limit := limit;
      this.window := window;
      table := map[];
    }

    method Check(ip: string, now: nat) returns (admitted: bool)
      modifies this
      ensures Verdict(table, admitted) == Checked(limit, window, old(table), ip, now)
    {
      if limit == 0 {
        return true;
      }
      if ip !in table {
        table := table[ip := Entry(now, 0)];
      }
      var entry := table[ip];
      if now - entry.start >= window {
        table := table[ip := Entry(now, 1)];
        return true;
      }
      entry := entry.(count := (entry.count + 1) % COUNTER);
      table := table[ip := entry];
      return entry.count <= limit;
    }

    // Exactly the entries whose window ended a window ago or earlier are
    // forgotten, and nobody can tell: every later attempt, of any address, is
    // decided as it would have been.
    method Sweep(now: nat)
      modifies this
      ensures table == Swept(window, old(table), now)
      ensures forall ip :: ip in table ==>
        ip in old(table) && table[ip] == old(table)[ip] && now < table[ip].start + 2 * window
      ensures forall ip :: ip in old(table) && ip !in table ==> old(table)[ip].start + 2 * window <= now
      ensures forall ip, later :: now <= later ==>
        (Checked(limit, window, table, ip, later).admitted <==> Checked(limit, window, old(table), ip, later).admitted)
    {
      table := map ip | ip in table && now - table[ip].start < window * 2 :: table[ip];
    }
  }

  // -------------------------------------------------------------------------
  // Traces
  // -------------------------------------------------------------------------

  datatype Event = Attempt(ip: string, now: nat) | Sweep(now: nat)

  function After(limit: nat, window: nat, table: Table, ev: Event): Table {
    match ev
    case Attempt(ip, now) => Checked(limit, window, table, ip, now).table
    case Sweep(now) => Swept(window, table, now)
  }

  predicate Admits(limit: nat, window: nat, table: Table, ev: Event, ip: string) {
    ev.Attempt? && ev.ip == ip && Checked(limit, window, table, ip, ev.now).admitted
  }

  // Attempts of `ip` admitted at a time in [lo, hi) along a trace.
  function Admitted(limit: nat, window: nat, table: Table, trace: seq<Event>, ip: string, lo: nat, hi: nat): nat
    decreases |trace|
  {
    if trace == [] then 0
    else
      var ev := trace[0];
      (if Admits(limit, window, table, ev, ip) && lo <= ev.now < hi then 1 else 0)
      + Admitted(limit, window, After(limit, window, table, ev), trace[1..], ip, lo, hi)
  }

  // The clock only moves forward along the trace, from `t` on.
  ghost predicate Forward(t: nat, trace: seq<Event>)
    decreases |trace|
  {
    trace != [] ==> t <= trace[0].now && Forward(trace[0].now, trace[1..])
  }

  // This attempt counts within a window of its address that is still open.
  predicate Counts(window: nat, table: Table, ev: Event, ip: string) {
    ev.Attempt? && ev.ip == ip && ip in table && ev.now - table[ip].start < window
  }

  // The counter of `ip` does not wrap along the trace.
  ghost predicate NoWrap(limit: nat, window: nat, table: Table, ip: string, trace: seq<Event>)
    decreases |trace|
  {
    trace != [] ==>
      && (Counts(window, table, trace[0], ip) ==> table[ip].count + 1 < COUNTER)
      && NoWrap(limit, window, After(limit, window, table, trace[0]), ip, trace[1..])
  }

  ghost predicate Opened(table: Table, ip: string, t: nat) {
    ip in table ==> table[ip].start <= t
  }

  lemma {:induction false} NothingLate(limit: nat, window: nat, table: Table, trace: seq<Event>, ip: string, lo: nat,
                                       hi: nat, t: nat)
    requires Forward(t, trace) && hi <= t
    ensures Admitted(limit, window, table, trace, ip, lo, hi) == 0
    decreases |trace|
  {
    if trace != [] {
      NothingLate(limit, window, After(limit, window, table, trace[0]), trace[1..], ip, lo, hi, trace[0].now);
    }
  }

  function Left(limit: nat, count: nat): nat {
    if count >= limit then 0 else limit - count
  }

  // Within one fixed window at most the unused part of the limit is admitted.
  lemma {:induction false} WindowBound(limit: nat, window: nat, table: Table, trace: seq<Event>, ip: string, lo: nat,
                                       hi: nat, t: nat)
    requires 0 < limit && 0 < window && Forward(t, trace) && NoWrap(limit, window, table, ip, trace)
    requires ip in table && table[ip].start <= t && hi <= table[ip].start + window
    ensures Admitted(limit, window, table, trace, ip, lo, hi) <= Left(limit, table[ip].count)
    decreases |trace|
  {
    if trace != [] {
      var ev := trace[0];
      var table' := After(limit, window, table, ev);
      if ev.now >= hi {
        NothingLate(limit, window, table', trace[1..], ip, lo, hi, ev.now);
      } else {
        WindowBound(limit, window, table', trace[1..], ip, lo, hi, ev.now);
      }
    }
  }

  // From an instant on, one window length admits what is left of the current
  // window plus at most one full limit.
  lemma {:induction false} SpanBound(limit: nat, window: nat, table: Table, trace: seq<Event>, ip: string, lo: nat,
                                     t: nat)
    requires 0 < limit && 0 < window && Forward(t, trace) && NoWrap(limit, window, table, ip, trace) && lo <= t
    requires Opened(table, ip, t)
    ensures Admitted(limit, window, table, trace, ip, lo, lo + window)
            <= limit + if ip in table then Left(limit, table[ip].count) else 0
    decreases |trace|
  {
    if trace != [] {
      var ev := trace[0];
      var table' := After(limit, window, table, ev);
      if ev.Attempt? && ev.ip == ip {
        if ip !in table || ev.now - table[ip].start >= window {
          WindowBound(limit, window, table', trace[1..], ip, lo, lo + window, ev.now);
        } else {
          assert table'[ip] == Entry(table[ip].start, table[ip].count + 1);
          SpanBound(limit, window, table', trace[1..], ip, lo, ev.now);
        }
      } else {
        assert ip in table' ==> ip in table && table'[ip] == table[ip];
        SpanBound(limit, window, table', trace[1..], ip, lo, ev.now);
      }
    }
  }

  // Any interval of one window length admits at most twice the limit per
  // address, in every trace.
  lemma {:induction false} AtMostTwiceTheLimit(limit: nat, window: nat, table: Table, trace: seq<Event>, ip: string,
                                               lo: nat, t: nat)
    requires 0 < limit && 0 < window && Forward(t, trace) && NoWrap(limit, window, table, ip, trace)
    requires Opened(table, ip, t)
    ensures Admitted(limit, window, table, trace, ip, lo, lo + window) <= 2 * limit
    decreases |trace|
  {
    if lo <= t {
      SpanBound(limit, window, table, trace, ip, lo, t);
    } else if trace != [] {
      var ev := trace[0];
      if ev.now >= lo {
        SpanBound(limit, window, table, trace, ip, lo, ev.now);
      } else {
        AtMostTwiceTheLimit(limit, window, After(limit, window, table, ev), trace[1..], ip, lo, ev.now);
      }
    }
  }

  // A window that opens now admits at most the limit before it closes, as long
  // as the address's own counter does not wrap.
  lemma {:induction false} FixedWindowBound(limit: nat, window: nat, table: Table, trace: seq<Event>, ip: string)
    requires 0 < limit && 0 < window && trace != [] && trace[0].Attempt? && trace[0].ip == ip
    requires Forward(trace[0].now, trace) && NoWrap(limit, window, table, ip, trace)
    requires ip !in table || trace[0].now - table[ip].start >= window
    ensures var t := trace[0].now;
      Admitted(limit, window, table, trace, ip, t, t + window) <= limit
  {
    var t := trace[0].now;
    WindowBound(limit, window, After(limit, window, table, trace[0]), trace[1..], ip, t, t + window, t);
  }

  // -------------------------------------------------------------------------
  // Sweeping is invisible
  // -------------------------------------------------------------------------

  // From `t` on the two tables decide alike: entries agree, or are missing on
  // one side and run out on the other.
  ghost predicate Alike(window: nat, a: Table, b: Table, t: nat) {
    forall ip :: AlikeAt(window, a, b, t, ip)
  }

  ghost predicate AlikeAt(window: nat, a: Table, b: Table, t: nat, ip: string) {
    || (ip in a && ip in b && a[ip] == b[ip])
    || ((ip in a ==> Over(a[ip], window, t)) && (ip in b ==> Over(b[ip], window, t)))
  }

  ghost predicate Over(e: Entry, window: nat, t: nat) {
    e.start + window <= t
  }

  function Decisions(limit: nat, window: nat, table: Table, trace: seq<Event>): seq<bool>
    decreases |trace|
  {
    if trace == [] then []
    else
      var ev := trace[0];
      (if ev.Attempt? then [Checked(limit, window, table, ev.ip, ev.now).admitted] else [])
      + Decisions(limit, window, After(limit, window, table, ev), trace[1..])
  }

  lemma {:induction false} StepAlike(limit: nat, window: nat, a: Table, b: Table, ev: Event, t: nat)
    requires 0 < limit && 0 < window && t <= ev.now && Alike(window, a, b, t)
    ensures Alike(window, After(limit, window, a, ev), After(limit, window, b, ev), ev.now)
    ensures ev.Attempt? ==>
      Checked(limit, window, a, ev.ip, ev.now).admitted == Checked(limit, window, b, ev.ip, ev.now).admitted
  {
    if ev.Attempt? { assert AlikeAt(window, a, b, t, ev.ip); }
    forall ip ensures AlikeAt(window, After(limit, window, a, ev), After(limit, window, b, ev), ev.now, ip) {
      assert AlikeAt(window, a, b, t, ip);
    }
  }

  lemma {:induction false} AlikeDecidesAlike(limit: nat, window: nat, a: Table, b: Table, trace: seq<Event>, t: nat)
    requires 0 < limit && 0 < window && Forward(t, trace) && Alike(window, a, b, t)
    ensures Decisions(limit, window, a, trace) == Decisions(limit, window, b, trace)
    decreases |trace|
  {
    if trace != [] {
      var ev := trace[0];
      StepAlike(limit, window, a, b, ev, t);
      AlikeDecidesAlike(limit, window, After(limit, window, a, ev), After(limit, window, b, ev), trace[1..], ev.now);
    }
  }

  // Sweeping at any moment never changes a later decision.
  lemma {:induction false} SweepIsInvisible(limit: nat, window: nat, table: Table, trace: seq<Event>, now: nat)
    requires 0 < window && Forward(now, trace)
    ensures Decisions(limit, window, Swept(window, table, now), trace) == Decisions(limit, window, table, trace)
  {
    if limit == 0 {
      UnlimitedDecides(window, Swept(window, table, now), table, trace);
    } else {
      var swept := Swept(window, table, now);
      forall ip ensures AlikeAt(window, swept, table, now, ip) {
        assert ip in swept ==> ip in table && swept[ip] == table[ip];
      }
      AlikeDecidesAlike(limit, window, swept, table, trace, now);
    }
  }

  lemma {:induction false} UnlimitedDecides(window: nat, a: Table, b: Table, trace: seq<Event>)
    ensures Decisions(0, window, a, trace) == Decisions(0, window, b, trace)
    decreases |trace|
  {
    if trace != [] {
      UnlimitedDecides(window, After(0, window, a, trace[0]), After(0, window, b, trace[0]), trace[1..]);
    }
  }

  // -------------------------------------------------------------------------
  // Across the wrap of the counter
  // -------------------------------------------------------------------------

  // Attempts of `ip` at a time in [lo, hi), admitted or not.
  function Attempts(trace: seq<Event>, ip: string, lo: nat, hi: nat): nat {
    if trace == [] then 0
    else (if trace[0].Attempt? && trace[0].ip == ip && lo <= trace[0].now < hi then 1 else 0)
         + Attempts(trace[1..], ip, lo, hi)
  }

  // How many of the first `m` attempts of one window are admitted.
  function Up(limit: nat, m: nat): nat {
    if m == 0 then 0 else Up(limit, m - 1) + if m % COUNTER <= limit then 1 else 0
  }

  lemma {:induction false} NoneLate(trace: seq<Event>, ip: string, lo: nat, hi: nat, t: nat)
    requires Forward(t, trace) && hi <= t
    ensures Attempts(trace, ip, lo, hi) == 0
    decreases |trace|
  {
    if trace != [] { NoneLate(trace[1..], ip, lo, hi, trace[0].now); }
  }

  lemma {:induction false} CountWraps(m: nat)
    ensures (m % COUNTER + 1) % COUNTER == (m + 1) % COUNTER
  {
  }

  // The m-th attempt of a window is judged by m modulo 2^32, whatever other
  // addresses and sweeps come between.
  lemma {:induction false} WindowExact(limit: nat, window: nat, table: Table, trace: seq<Event>, ip: string,
                                       start: nat, m: nat, t: nat)
    requires 0 < limit && 0 < window && Forward(t, trace) && start <= t
    requires ip in table && table[ip] == Entry(start, m % COUNTER)
    ensures Admitted(limit, window, table, trace, ip, start, start + window) + Up(limit, m)
            == Up(limit, m + Attempts(trace, ip, start, start + window))
    decreases |trace|
  {
    if trace != [] {
      var ev, rest, hi := trace[0], trace[1..], start + window;
      var table' := After(limit, window, table, ev);
      if ev.now >= hi {
        NothingLate(limit, window, table', rest, ip, start, hi, ev.now);
        NoneLate(rest, ip, start, hi, ev.now);
      } else if ev.Attempt? && ev.ip == ip {
        CountWraps(m);
        WindowExact(limit, window, table', rest, ip, start, m + 1, ev.now);
      } else {
        assert table'[ip] == table[ip];
        WindowExact(limit, window, table', rest, ip, start, m, ev.now);
      }
    }
  }

  // The limit holds up to the wrap and is exceeded from the wrap on.
  lemma {:induction false} UpExact(limit: nat, m: nat)
    requires 0 < limit < COUNTER
    ensures m < COUNTER ==> Up(limit, m) == if m < limit then m else limit
    ensures m >= COUNTER ==> Up(limit, m) > limit
  {
    if m > 0 { UpExact(limit, m - 1); }
  }

  // A window that opens now keeps the limit exactly if the address makes fewer
  // than 2^32 attempts before it closes.
  lemma {:induction false} FixedWindowExact(limit: nat, window: nat, table: Table, trace: seq<Event>, ip: string)
    requires 0 < limit < COUNTER && 0 < window && trace != [] && trace[0].Attempt? && trace[0].ip == ip
    requires Forward(trace[0].now, trace)
    requires ip !in table || trace[0].now - table[ip].start >= window
    ensures var t := trace[0].now;
      Admitted(limit, window, table, trace, ip, t, t + window) <= limit
      <==> Attempts(trace, ip, t, t + window) < COUNTER
  {
    var t := trace[0].now;
    assert Up(limit, 1) == Up(limit, 0) + 1;
    WindowExact(limit, window, After(limit, window, table, trace[0]), trace[1..], ip, t, 1, t);
    UpExact(limit, Attempts(trace, ip, t, t + window));
  }

  // `n` attempts of one address at one instant.
  function Flood(ip: string, t: nat, n: nat): seq<Event> {
    if n == 0 then [] else [Attempt(ip, t)] + Flood(ip, t, n - 1)
  }

  lemma {:induction false} FloodCounts(ip: string, t: nat, hi: nat, n: nat)
    requires t < hi
    ensures Forward(t, Flood(ip, t, n)) && Attempts(Flood(ip, t, n), ip, t, hi) == n
  {
    if n > 0 {
      FloodCounts(ip, t, hi, n - 1);
      assert Flood(ip, t, n)[1..] == Flood(ip, t, n - 1);
    }
  }

  // 2^32 attempts in one window admit more than the limit.
  lemma {:induction false} FloodBreaksTheLimit(limit: nat, window: nat, ip: string, t: nat)
    requires 0 < limit < COUNTER && 0 < window
    ensures Admitted(limit, window, map[], Flood(ip, t, COUNTER), ip, t, t + window) > limit
  {
    var trace := Flood(ip, t, COUNTER);
    assert trace == [Attempt(ip, t)] + Flood(ip, t, COUNTER - 1);
    FloodCounts(ip, t, t + window, COUNTER);
    FixedWindowExact(limit, window, map[], trace, ip);
  }
}
