// The operations on a session's subscription list, by what they keep: which
// entries, how often and in which order.

module Lists {
  import opened Types
  import opened Router
  import opened Broker

  // `b` has every entry of `a` that is to be kept, as often, and no other.
  ghost predicate Keeps(keep: Subscription -> bool, a: seq<Subscription>, b: seq<Subscription>) {
    forall x :: multiset(b)[x] == if keep(x) then multiset(a)[x] else 0
  }

  lemma {:induction false} KeepsCons(keep: Subscription -> bool, x: Subscription, a: seq<Subscription>,
                                     b: seq<Subscription>)
    requires Keeps(keep, a, b)
    ensures Keeps(keep, [x] + a, (if keep(x) then [x] else []) + b)
  {
    var b' := (if keep(x) then [x] else []) + b;
    forall y ensures multiset(b')[y] == if keep(y) then multiset([x] + a)[y] else 0 {
      assert multiset([x] + a) == multiset{x} + multiset(a);
      assert multiset(b') == multiset(if keep(x) then [x] else []) + multiset(b);
    }
  }

  // -------------------------------------------------------------------------
  // Authorisation
  // -------------------------------------------------------------------------

  function Permitted(env: Env, acl: Acl, who: string): Subscription -> bool {
    (s: Subscription) => CanSubscribe(env, acl, who, s.filter)
  }

  function Refused(env: Env, acl: Acl, who: string): Subscription -> bool {
    (s: Subscription) => !CanSubscribe(env, acl, who, s.filter)
  }

  ghost predicate Partitioned(env: Env, acl: Acl, who: string, subs: seq<Subscription>) {
    && Keeps(Permitted(env, acl, who), subs, Allowed(env, acl, who, subs))
    && Keeps(Refused(env, acl, who), subs, Denied(env, acl, who, subs))
  }

  // A list splits into the entries the policy permits and those it does not.
  lemma {:induction false} PolicySplits(env: Env, acl: Acl, who: string, subs: seq<Subscription>)
    ensures Partitioned(env, acl, who, subs)
  {
    if subs != [] {
      PolicySplits(env, acl, who, subs[1..]);
      KeepsCons(Permitted(env, acl, who), subs[0], subs[1..], Allowed(env, acl, who, subs[1..]));
      KeepsCons(Refused(env, acl, who), subs[0], subs[1..], Denied(env, acl, who, subs[1..]));
      assert [subs[0]] + subs[1..] == subs;
    }
  }

  lemma {:induction false} PolicyCons(env: Env, acl: Acl, who: string, x: Subscription, rest: seq<Subscription>)
    ensures var ok := CanSubscribe(env, acl, who, x.filter);
      && Allowed(env, acl, who, [x] + rest) == (if ok then [x] else []) + Allowed(env, acl, who, rest)
      && Denied(env, acl, who, [x] + rest) == (if ok then [] else [x]) + Denied(env, acl, who, rest)
  {
    assert ([x] + rest)[1..] == rest;
  }

  // Order is kept: the parts of a list are treated one after the other.
  lemma {:induction false} PolicyKeepsOrder(env: Env, acl: Acl, who: string, a: seq<Subscription>, b: seq<Subscription>)
    ensures Allowed(env, acl, who, a + b) == Allowed(env, acl, who, a) + Allowed(env, acl, who, b)
    ensures Denied(env, acl, who, a + b) == Denied(env, acl, who, a) + Denied(env, acl, who, b)
  {
    if a == [] {
      assert a + b == b;
    } else {
      PolicyKeepsOrder(env, acl, who, a[1..], b);
      OrderStep(env, acl, who, a[0], a[1..], b);
      assert [a[0]] + a[1..] == a;
    }
  }

  lemma {:induction false} OrderStep(env: Env, acl: Acl, who: string, x: Subscription, a: seq<Subscription>,
                                     b: seq<Subscription>)
    requires Allowed(env, acl, who, a + b) == Allowed(env, acl, who, a) + Allowed(env, acl, who, b)
    requires Denied(env, acl, who, a + b) == Denied(env, acl, who, a) + Denied(env, acl, who, b)
    ensures Allowed(env, acl, who, ([x] + a) + b) == Allowed(env, acl, who, [x] + a) + Allowed(env, acl, who, b)
    ensures Denied(env, acl, who, ([x] + a) + b) == Denied(env, acl, who, [x] + a) + Denied(env, acl, who, b)
  {
    assert ([x] + a) + b == [x] + (a + b);
    PolicyCons(env, acl, who, x, a);
    PolicyCons(env, acl, who, x, a + b);
    var one: seq<Subscription> := [x];
    Regroup(one, Allowed(env, acl, who, a), Allowed(env, acl, who, b));
    Regroup([], Allowed(env, acl, who, a), Allowed(env, acl, who, b));
    Regroup(one, Denied(env, acl, who, a), Denied(env, acl, who, b));
    Regroup([], Denied(env, acl, who, a), Denied(env, acl, who, b));
  }

  lemma {:induction false} Regroup(a: seq<Subscription>, b: seq<Subscription>, c: seq<Subscription>)
    ensures (a + b) + c == a + (b + c)
  {
  }

  // -------------------------------------------------------------------------
  // Adding and removing
  // -------------------------------------------------------------------------

  ghost predicate IsKey(s: Subscription, filter: string, share: Option<string>) {
    s.filter == filter && s.share == share
  }

  function Other(filter: string, share: Option<string>): Subscription -> bool {
    (s: Subscription) => !(s.filter == filter && s.share == share)
  }

  // Removal takes every entry of that filter and share and leaves the others.
  lemma {:induction false} RemovalKeeps(subs: seq<Subscription>, filter: string, share: Option<string>)
    ensures Keeps(Other(filter, share), subs, Without(subs, filter, share))
  {
    if subs != [] {
      RemovalKeeps(subs[1..], filter, share);
      KeepsCons(Other(filter, share), subs[0], subs[1..], Without(subs[1..], filter, share));
      assert [subs[0]] + subs[1..] == subs;
    }
  }

  lemma {:induction false} RemovalKeepsOrder(a: seq<Subscription>, b: seq<Subscription>, filter: string,
                                             share: Option<string>)
    ensures Without(a + b, filter, share) == Without(a, filter, share) + Without(b, filter, share)
  {
    if a == [] {
      assert a + b == b;
    } else {
      RemovalKeepsOrder(a[1..], b, filter, share);
      assert (a + b)[1..] == a[1..] + b && (a + b)[0] == a[0];
      Regroup(if SameKey(a[0], filter, share) then [] else [a[0]], Without(a[1..], filter, share),
              Without(b, filter, share));
    }
  }

  // Adding replaces the first entry of that filter and share where it stands, or
  // goes to the end if there is none.
  lemma {:induction false} UpsertAt(subs: seq<Subscription>, sub: Subscription, i: nat)
    requires i <= |subs| && forall j :: 0 <= j < i ==> !IsKey(subs[j], sub.filter, sub.share)
    requires i < |subs| ==> IsKey(subs[i], sub.filter, sub.share)
    ensures Upsert(subs, sub) == if i < |subs| then subs[i := sub] else subs + [sub]
    ensures HasSub(subs, sub.filter, sub.share) == (i < |subs|)
  {
    if i > 0 {
      UpsertAt(subs[1..], sub, i - 1);
      assert subs == [subs[0]] + subs[1..];
    } else if subs != [] {
      assert subs[0 := sub] == [sub] + subs[1..];
    }
  }
}
