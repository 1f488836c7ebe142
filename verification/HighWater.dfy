// The connected-clients high-water mark: a compare-and-swap loop run by any
// number of observers at once.

module HighWater {

  /** An observer of `observe_clients_connected(current)`: about to load, about
      to test and swap against `seen`, or returned. */
  datatype Observer = Loading(current: nat) | Trying(current: nat, seen: nat) | Returned(current: nat)

  /** `first` is the maximum the run started from. */
  datatype State = State(maximum: nat, observers: map<nat, Observer>, first: nat)

  datatype Step =
    | Arrive(id: nat, current: nat)
    | Load(id: nat)
    | GiveUp(id: nat)            // the loop condition is false
    | Swap(id: nat, spurious: bool)

  predicate Enabled(s: State, st: Step) {
    match st
    case Arrive(id, _) => id !in s.observers
    case Load(id) => id in s.observers && s.observers[id].Loading?
    case GiveUp(id) => id in s.observers && s.observers[id].Trying? && s.observers[id].current <= s.observers[id].seen
    case Swap(id, _) => id in s.observers && s.observers[id].Trying? && s.observers[id].current > s.observers[id].seen
  }

  // A weak compare-and-swap may fail although the values agree; a failure
  // hands back the value actually stored.
  function Next(s: State, st: Step): State
    requires Enabled(s, st)
  {
    match st
    case Arrive(id, current) => s.(observers := s.observers[id := Loading(current)])
    case Load(id) => s.(observers := s.observers[id := Trying(s.observers[id].current, s.maximum)])
    case GiveUp(id) => s.(observers := s.observers[id := Returned(s.observers[id].current)])
    case Swap(id, spurious) =>
      var o := s.observers[id];
      if s.maximum == o.seen && !spurious
      then s.(maximum := o.current, observers := s.observers[id := Returned(o.current)])
      else s.(observers := s.observers[id := Trying(o.current, s.maximum)])
  }

  function Run(s: State, steps: seq<Step>): State
    decreases |steps|
  {
    if steps == [] then s
    else Run(if Enabled(s, steps[0]) then Next(s, steps[0]) else s, steps[1..])
  }

  /** A returned observer's value is covered, nobody has seen a value larger
      than the maximum, and the maximum is the starting one or some observer's. */
  ghost predicate Inv(s: State) {
    && s.first <= s.maximum
    && (forall id :: id in s.observers && s.observers[id].Returned? ==> s.observers[id].current <= s.maximum)
    && (forall id :: id in s.observers && s.observers[id].Trying? ==> s.observers[id].seen <= s.maximum)
    && (s.maximum == s.first || exists id :: id in s.observers && s.observers[id].current == s.maximum)
  }

  lemma {:induction false} NextKeepsInv(s: State, st: Step)
    requires Inv(s) && Enabled(s, st)
    ensures Inv(Next(s, st)) && s.maximum <= Next(s, st).maximum
  {
    var s' := Next(s, st);
    if s.maximum != s.first {
      var id :| id in s.observers && s.observers[id].current == s.maximum;
      assert id in s'.observers && s'.observers[id].current == s.maximum;
    }
    if st.Swap? { assert s'.observers[st.id].current == s.observers[st.id].current; }
  }

  // Under every interleaving the maximum never decreases and covers every
  // observer that has returned.
  lemma {:induction false} RunKeepsInv(s: State, steps: seq<Step>)
    requires Inv(s)
    ensures Inv(Run(s, steps)) && s.maximum <= Run(s, steps).maximum && Run(s, steps).first == s.first
    decreases |steps|
  {
    if steps != [] {
      if Enabled(s, steps[0]) { NextKeepsInv(s, steps[0]); }
      RunKeepsInv(if Enabled(s, steps[0]) then Next(s, steps[0]) else s, steps[1..]);
    }
  }

  ghost predicate IsMaximumOf(m: nat, first: nat, observers: map<nat, Observer>) {
    && first <= m
    && (forall id :: id in observers ==> observers[id].current <= m)
    && (m == first || exists id :: id in observers && observers[id].current == m)
  }

  // Once all observers have returned, the stored value is the maximum of the
  // starting value and everything observed.
  lemma {:induction false} MaximumWhenAllReturned(start: nat, steps: seq<Step>)
    ensures var s := Run(State(start, map[], start), steps);
      && start <= s.maximum
      && (forall id :: id in s.observers && s.observers[id].Returned? ==> s.observers[id].current <= s.maximum)
      && ((forall id :: id in s.observers ==> s.observers[id].Returned?) ==> IsMaximumOf(s.maximum, start, s.observers))
  {
    RunKeepsInv(State(start, map[], start), steps);
  }
}
