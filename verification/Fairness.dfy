// Round-robin within a shared group (section 4.8.2 of MQTT 5.0).

module Fairness {
  import opened Router

  // The cursors after `k` selections in group `g`.
  function Turned(rr: map<Group, nat>, g: Group, k: nat): map<Group, nat> {
    if k == 0 then rr else Bump(Turned(rr, g, k - 1), g)
  }

  // The position picked by the j-th selection among `n` members.
  function Picked(rr: map<Group, nat>, g: Group, n: nat, j: nat): nat
    requires n > 0
  {
    Cursor(Turned(rr, g, j), g) % n
  }

  // How often position `i` is picked in the first `k` selections.
  function Hits(rr: map<Group, nat>, g: Group, n: nat, i: nat, k: nat): nat
    requires n > 0
  {
    if k == 0 then 0
    else Hits(rr, g, n, i, k - 1) + if Picked(rr, g, n, k - 1) == i then 1 else 0
  }

  lemma {:induction false} TurnedCursor(rr: map<Group, nat>, g: Group, k: nat)
    requires Cursor(rr, g) + k < WORD
    ensures Cursor(Turned(rr, g, k), g) == Cursor(rr, g) + k
  {
    if k > 0 { TurnedCursor(rr, g, k - 1); }
  }

  // Groups do not disturb each other.
  lemma {:induction false} GroupsIndependent(rr: map<Group, nat>, g: Group, h: Group, k: nat)
    requires g != h
    ensures Cursor(Turned(rr, g, k), h) == Cursor(rr, h)
  {
    if k > 0 { GroupsIndependent(rr, g, h, k - 1); }
  }

  lemma {:induction false} Scaled(n: nat, a: nat, b: nat)
    requires a < b
    ensures n * a + n <= n * b
  {
    if a + 1 < b { Scaled(n, a, b - 1); }
  }

  lemma {:induction false} DivUnique(a: nat, n: nat, q: nat, r: nat)
    requires n > 0 && a == n * q + r && r < n
    ensures a / n == q && a % n == r
  {
    var q' := a / n;
    assert a == n * q' + a % n;
    if q' > q { Scaled(n, q, q'); assert false; }
    if q' < q { Scaled(n, q', q); assert false; }
  }

  // The number of values below `x` that are `i` modulo `n`.
  function Below(x: nat, n: nat, i: nat): nat
    requires i < n
  {
    (x + (n - 1 - i)) / n
  }

  lemma {:induction false} BelowStep(x: nat, n: nat, i: nat)
    requires i < n
    ensures Below(x + 1, n, i) == Below(x, n, i) + if x % n == i then 1 else 0
  {
    var q, r, a := x / n, x % n, n - 1 - i;
    assert x == n * q + r;
    Carry(n, q, r + a);
    Carry(n, q, r + a + 1);
    assert x + a == n * q + (r + a) && x + 1 + a == n * q + (r + a + 1);
  }

  // A remainder of less than twice the divisor carries at most once.
  lemma {:induction false} Carry(n: nat, q: nat, r: nat)
    requires 0 < n && r < 2 * n
    ensures (n * q + r) / n == if r < n then q else q + 1
  {
    if r < n {
      DivUnique(n * q + r, n, q, r);
    } else {
      assert n * (q + 1) == n * q + n;
      DivUnique(n * q + r, n, q + 1, r - n);
    }
  }

  lemma {:induction false} HitsAreBelow(rr: map<Group, nat>, g: Group, n: nat, i: nat, k: nat)
    requires i < n && Cursor(rr, g) + k <= WORD
    ensures Hits(rr, g, n, i, k) == Below(Cursor(rr, g) + k, n, i) - Below(Cursor(rr, g), n, i)
  {
    if k > 0 {
      HitsAreBelow(rr, g, n, i, k - 1);
      TurnedCursor(rr, g, k - 1);
      BelowStep(Cursor(rr, g) + (k - 1), n, i);
    }
  }

  lemma {:induction false} DivSumParts(n: nat, q1: nat, r1: nat, q2: nat, r2: nat)
    requires r1 < n && r2 < n
    ensures (n * q1 + r1 + (n * q2 + r2)) / n == q1 + q2 + (if r1 + r2 < n then 0 else 1)
  {
    assert n * (q1 + q2) == n * q1 + n * q2;
    if r1 + r2 < n {
      DivUnique(n * q1 + r1 + (n * q2 + r2), n, q1 + q2, r1 + r2);
    } else {
      assert n * (q1 + q2 + 1) == n * (q1 + q2) + n;
      DivUnique(n * q1 + r1 + (n * q2 + r2), n, q1 + q2 + 1, r1 + r2 - n);
    }
  }

  lemma {:induction false} DivSum(x: nat, y: nat, n: nat)
    requires n > 0
    ensures y / n <= (x + y) / n - x / n <= y / n + (if y % n == 0 then 0 else 1)
  {
    var q1, r1, q2, r2 := x / n, x % n, y / n, y % n;
    assert x == n * q1 + r1 && y == n * q2 + r2;
    DivSumParts(n, q1, r1, q2, r2);
    assert (x + y) / n == q1 + q2 + (if r1 + r2 < n then 0 else 1);
  }

  // Any k selections pick each of n members floor(k/n) or ceil(k/n) times, and
  // any n selections pick each exactly once, as long as the counter does not
  // wrap.
  lemma {:induction false} Fair(rr: map<Group, nat>, g: Group, n: nat, i: nat, k: nat)
    requires i < n && Cursor(rr, g) + k <= WORD
    ensures k / n <= Hits(rr, g, n, i, k) <= k / n + (if k % n == 0 then 0 else 1)
    ensures k == n ==> Hits(rr, g, n, i, k) == 1
  {
    HitsAreBelow(rr, g, n, i, k);
    var x := Cursor(rr, g) + (n - 1 - i);
    DivSum(x, k, n);
    assert x + k == Cursor(rr, g) + k + (n - 1 - i);
    if k == n { DivUnique(n, n, 1, 0); }
  }

  // -------------------------------------------------------------------------
  // Across the wrap of the counter
  // -------------------------------------------------------------------------

  lemma {:induction false} TurnedWraps(rr: map<Group, nat>, g: Group, k: nat)
    requires Cursor(rr, g) < WORD && k <= WORD
    ensures Cursor(Turned(rr, g, k), g)
            == if Cursor(rr, g) + k < WORD then Cursor(rr, g) + k else Cursor(rr, g) + k - WORD
  {
    if k > 0 { TurnedWraps(rr, g, k - 1); }
  }

  lemma {:induction false} HitsBoth(rr: map<Group, nat>, g: Group, n: nat, i: nat, j1: nat, j2: nat, k: nat)
    requires n > 0 && j1 < j2 < k && Picked(rr, g, n, j1) == i && Picked(rr, g, n, j2) == i
    ensures Hits(rr, g, n, i, k) >= 2
  {
    if k - 1 > j2 { HitsBoth(rr, g, n, i, j1, j2, k - 1); }
    else { HitsOnce(rr, g, n, i, j1, j2); }
  }

  lemma {:induction false} HitsOnce(rr: map<Group, nat>, g: Group, n: nat, i: nat, j: nat, k: nat)
    requires n > 0 && j < k && Picked(rr, g, n, j) == i
    ensures Hits(rr, g, n, i, k) >= 1
  {
    if k - 1 > j { HitsOnce(rr, g, n, i, j, k - 1); }
  }

  lemma {:induction false} ModShift(x: nat, n: nat, m: nat)
    requires n > 0 && x >= n * m
    ensures (x - n * m) % n == x % n
  {
    var q, r := (x - n * m) / n, (x - n * m) % n;
    assert n * (q + m) == n * q + n * m;
    DivUnique(x, n, q + m, r);
  }

  // When the number of members divides the counter's range, wrapping is harmless.
  lemma {:induction false} HitsWhenDividing(rr: map<Group, nat>, g: Group, n: nat, i: nat, k: nat)
    requires i < n && Cursor(rr, g) < WORD && k <= WORD && WORD % n == 0
    ensures Hits(rr, g, n, i, k) == Below(Cursor(rr, g) + k, n, i) - Below(Cursor(rr, g), n, i)
  {
    if k > 0 {
      HitsWhenDividing(rr, g, n, i, k - 1);
      PickedWhenDividing(rr, g, n, k - 1);
      BelowStep(Cursor(rr, g) + (k - 1), n, i);
    }
  }

  lemma {:induction false} PickedWhenDividing(rr: map<Group, nat>, g: Group, n: nat, j: nat)
    requires n > 0 && Cursor(rr, g) < WORD && j <= WORD && WORD % n == 0
    ensures Picked(rr, g, n, j) == (Cursor(rr, g) + j) % n
  {
    TurnedWraps(rr, g, j);
    var x, m := Cursor(rr, g) + j, WORD / n;
    if x >= WORD {
      assert WORD == n * m;
      ModShift(x, n, m);
    }
  }

  // Otherwise a turn that wraps picks some member twice.
  lemma {:induction false} WrapRepeats(rr: map<Group, nat>, g: Group, n: nat) returns (i: nat)
    requires 0 < n <= WORD && Cursor(rr, g) < WORD < Cursor(rr, g) + n && WORD % n != 0
    ensures i < n && Hits(rr, g, n, i, n) >= 2
  {
    var c, q, m := Cursor(rr, g), WORD / n, WORD % n;
    var t := WORD - c;
    assert WORD == n * q + m;
    if m <= n - t {
      i := m - 1;
      DivUnique(WORD - 1, n, q, m - 1);
      TurnedWraps(rr, g, t - 1);
      TurnedWraps(rr, g, t + i);
      DivUnique(i, n, 0, i);
      HitsBoth(rr, g, n, i, t - 1, t + i, n);
    } else {
      i := n - t - 1;
      var j := n - 1 - m;
      assert n * q + (n - t - 1) == c + j;
      DivUnique(c + j, n, q, i);
      TurnedWraps(rr, g, j);
      TurnedWraps(rr, g, t + i);
      DivUnique(i, n, 0, i);
      HitsBoth(rr, g, n, i, j, t + i, n);
    }
  }

  // A full turn is fair exactly when the counter does not wrap during it or
  // the number of members divides the counter's range.
  lemma {:induction false} FullTurnFairExactly(rr: map<Group, nat>, g: Group, n: nat)
    requires 0 < n <= WORD && Cursor(rr, g) < WORD
    ensures (forall i :: 0 <= i < n ==> Hits(rr, g, n, i, n) == 1)
            <==> Cursor(rr, g) + n <= WORD || WORD % n == 0
  {
    if Cursor(rr, g) + n <= WORD || WORD % n == 0 {
      forall i | 0 <= i < n ensures Hits(rr, g, n, i, n) == 1 {
        if Cursor(rr, g) + n <= WORD { Fair(rr, g, n, i, n); }
        else {
          HitsWhenDividing(rr, g, n, i, n);
          DivSum(Cursor(rr, g) + (n - 1 - i), n, n);
          DivUnique(n, n, 1, 0);
          assert Cursor(rr, g) + (n - 1 - i) + n == Cursor(rr, g) + n + (n - 1 - i);
        }
      }
    } else {
      var i := WrapRepeats(rr, g, n);
    }
  }

  // With three members and the counter about to wrap, a full turn serves one of
  // them twice and another not at all.
  lemma {:induction false} ThreeMembersWrapUnfairly(rr: map<Group, nat>, g: Group)
    requires Cursor(rr, g) == WORD - 1
    ensures exists i :: 0 <= i < 3 && Hits(rr, g, 3, i, 3) != 1
  {
    FullTurnFairExactly(rr, g, 3);
  }

  // -------------------------------------------------------------------------
  // Members by name
  // -------------------------------------------------------------------------

  // How often a member of this name is picked in the first `k` selections.
  function Awarded(rr: map<Group, nat>, g: Group, members: seq<string>, who: string, k: nat): nat
    requires members != []
  {
    if k == 0 then 0
    else
      Awarded(rr, g, members, who, k - 1) + if members[Picked(rr, g, |members|, k - 1)] == who then 1 else 0
  }

  // How often the name is listed among the first `i` members.
  function Listed(members: seq<string>, who: string, i: nat): nat
    requires i <= |members|
  {
    if i == 0 then 0 else Listed(members, who, i - 1) + if members[i - 1] == who then 1 else 0
  }

  // How often the first `i` positions with this name are picked.
  function HitsFor(rr: map<Group, nat>, g: Group, members: seq<string>, who: string, k: nat, i: nat): nat
    requires i <= |members|
  {
    if i == 0 then 0
    else
      HitsFor(rr, g, members, who, k, i - 1)
      + if members[i - 1] == who then Hits(rr, g, |members|, i - 1, k) else 0
  }

  lemma {:induction false} HitsForNone(rr: map<Group, nat>, g: Group, members: seq<string>, who: string, i: nat)
    requires i <= |members|
    ensures HitsFor(rr, g, members, who, 0, i) == 0
  {
    if i > 0 { HitsForNone(rr, g, members, who, i - 1); }
  }

  // One more selection picks one more of these positions, or none of them.
  lemma {:induction false} HitsForNext(rr: map<Group, nat>, g: Group, members: seq<string>, who: string, k: nat, i: nat)
    requires k > 0 && i <= |members| && members != []
    ensures var at := Picked(rr, g, |members|, k - 1);
      HitsFor(rr, g, members, who, k, i)
      == HitsFor(rr, g, members, who, k - 1, i) + if at < i && members[at] == who then 1 else 0
  {
    if i > 0 { HitsForNext(rr, g, members, who, k, i - 1); }
  }

  lemma {:induction false} AwardedIsHits(rr: map<Group, nat>, g: Group, members: seq<string>, who: string, k: nat)
    requires members != []
    ensures Awarded(rr, g, members, who, k) == HitsFor(rr, g, members, who, k, |members|)
  {
    if k == 0 {
      HitsForNone(rr, g, members, who, |members|);
    } else {
      AwardedIsHits(rr, g, members, who, k - 1);
      HitsForNext(rr, g, members, who, k, |members|);
    }
  }

  function Ceiling(k: nat, n: nat): nat
    requires n > 0
  {
    k / n + if k % n == 0 then 0 else 1
  }

  lemma {:induction false} HitsForFair(rr: map<Group, nat>, g: Group, members: seq<string>, who: string, k: nat, i: nat)
    requires i <= |members| && members != [] && Cursor(rr, g) + k <= WORD
    ensures var m, n := Listed(members, who, i), |members|;
      m * (k / n) <= HitsFor(rr, g, members, who, k, i) <= m * Ceiling(k, n)
  {
    if i > 0 {
      HitsForFair(rr, g, members, who, k, i - 1);
      Fair(rr, g, |members|, i - 1, k);
      OneMore(Listed(members, who, i - 1), k / |members|);
      OneMore(Listed(members, who, i - 1), Ceiling(k, |members|));
    }
  }

  lemma {:induction false} OneMore(m: nat, x: nat)
    ensures (m + 1) * x == m * x + x
  {
  }

  // A member listed m times among n is picked between m * floor(k/n) and
  // m * ceil(k/n) times by any k selections that do not wrap the counter.
  lemma {:induction false} FairByName(rr: map<Group, nat>, g: Group, members: seq<string>, who: string, k: nat)
    requires members != [] && Cursor(rr, g) + k <= WORD
    ensures var m, n := Listed(members, who, |members|), |members|;
      m * (k / n) <= Awarded(rr, g, members, who, k) <= m * Ceiling(k, n)
  {
    AwardedIsHits(rr, g, members, who, k);
    HitsForFair(rr, g, members, who, k, |members|);
  }

  lemma {:induction false} TurnedTail(rr: map<Group, nat>, rr1: map<Group, nat>, g: Group, j: nat)
    requires Cursor(rr1, g) == (Cursor(rr, g) + 1) % WORD
    ensures Cursor(Turned(rr1, g, j), g) == Cursor(Turned(rr, g, j + 1), g)
  {
    if j > 0 { TurnedTail(rr, rr1, g, j - 1); } else { assert Turned(rr, g, 1) == Bump(Turned(rr, g, 0), g); }
  }

  lemma {:induction false} TurnedSame(rr: map<Group, nat>, rr1: map<Group, nat>, g: Group, k: nat)
    requires Cursor(rr1, g) == Cursor(rr, g)
    ensures Cursor(Turned(rr1, g, k), g) == Cursor(Turned(rr, g, k), g)
  {
    if k > 0 { TurnedSame(rr, rr1, g, k - 1); }
  }

  // -------------------------------------------------------------------------
  // Sequences of members served in turn
  // -------------------------------------------------------------------------

  // The j-th of these is the member picked by the j-th selection.
  ghost predicate InTurn(rr: map<Group, nat>, g: Group, members: seq<string>, served: seq<string>)
    requires members != []
  {
    forall j :: 0 <= j < |served| ==> served[j] == members[Picked(rr, g, |members|, j)]
  }

  // The first selection, and the rest.
  lemma {:induction false} InTurnCons(rr: map<Group, nat>, rr1: map<Group, nat>, g: Group, members: seq<string>,
                                      served: seq<string>)
    requires members != [] && Cursor(rr1, g) == (Cursor(rr, g) + 1) % WORD && InTurn(rr1, g, members, served)
    ensures InTurn(rr, g, members, [members[Picked(rr, g, |members|, 0)]] + served)
  {
    var all := [members[Picked(rr, g, |members|, 0)]] + served;
    forall j | 0 <= j < |all| ensures all[j] == members[Picked(rr, g, |members|, j)] {
      if j > 0 {
        assert all[j] == served[j - 1];
        TurnedTail(rr, rr1, g, j - 1);
      }
    }
  }

  // Other groups' cursors do not matter.
  lemma {:induction false} InTurnSame(rr: map<Group, nat>, rr1: map<Group, nat>, g: Group, members: seq<string>,
                                      served: seq<string>)
    requires members != [] && Cursor(rr1, g) == Cursor(rr, g) && InTurn(rr1, g, members, served)
    ensures InTurn(rr, g, members, served)
  {
    forall j | 0 <= j < |served| ensures served[j] == members[Picked(rr, g, |members|, j)] {
      TurnedSame(rr, rr1, g, j);
    }
  }

  lemma {:induction false} ServedIsAwarded(rr: map<Group, nat>, g: Group, members: seq<string>, served: seq<string>,
                                           who: string, k: nat)
    requires members != [] && InTurn(rr, g, members, served) && k <= |served|
    ensures multiset(served[..k])[who] == Awarded(rr, g, members, who, k)
  {
    if k > 0 {
      ServedIsAwarded(rr, g, members, served, who, k - 1);
      assert served[..k] == served[..k - 1] + [served[k - 1]];
      CountSnoc(served[..k - 1], served[k - 1], who);
    }
  }

  lemma {:induction false} CountSnoc(served: seq<string>, last: string, who: string)
    ensures multiset(served + [last])[who] == multiset(served)[who] + if last == who then 1 else 0
  {
  }

  // Whoever is listed m times among n members and served in turn with them gets
  // between m * floor(k/n) and m * ceil(k/n) of any k deliveries.
  lemma {:induction false} FairInTurn(rr: map<Group, nat>, g: Group, members: seq<string>, served: seq<string>,
                                      who: string)
    requires members != [] && InTurn(rr, g, members, served) && Cursor(rr, g) + |served| <= WORD
    ensures var k, m, n := |served|, Listed(members, who, |members|), |members|;
      m * (k / n) <= multiset(served)[who] <= m * Ceiling(k, n)
  {
    assert served[..|served|] == served;
    ServedIsAwarded(rr, g, members, served, who, |served|);
    FairByName(rr, g, members, who, |served|);
  }
}
