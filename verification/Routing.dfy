/** Where keys go over whole executions: the round-robin counter, and maps that take over. */
module Routing {
  import opened Requests
  import opened Plan
  import opened Machine
  import opened Invariant
  import opened Liveness

  lemma AtLeast(d: int, n: int)
    requires d >= 1 && n >= 0
    ensures d * n >= n
  {
  }

  lemma RemainderIs(x: int, q: int, r: int, n: int)
    requires n > 0 && x == q * n + r && 0 <= r < n
    ensures x % n == r
  {
    var d := x / n - q;
    assert x == (x / n) * n + x % n;
    assert d * n == (x / n) * n - q * n;
    if d >= 1 {
      AtLeast(d, n);
    } else if d <= -1 {
      AtLeast(-d, n);
    }
  }

  lemma CounterStep(a: nat, n: nat)
    requires n > 0
    ensures (a % n + 1) % n == (a + 1) % n
  {
    var (q, r) := (a / n, a % n);
    assert a == q * n + r;
    if r + 1 == n {
      assert (q + 1) * n == q * n + n;
      RemainderIs(a + 1, q + 1, 0, n);
      RemainderIs(n, 1, 0, n);
    } else {
      RemainderIs(a + 1, q, r + 1, n);
      RemainderIs(r + 1, 0, r + 1, n);
    }
  }

  /** Step `i` of an execution dispatches a request that names a key without an entry. */
  ghost predicate MapsAKey(c: Config, steps: seq<Step>, states: seq<State>, i: nat)
    requires i < |steps| < |states|
  {
    && steps[i].Dispatch? && |states[i].log.slot| < |c.stream|
    && exists k :: Covers(c.stream[|states[i].log.slot|], k) && k !in states[i].log.mapping
  }

  ghost function Mapping(c: Config, steps: seq<Step>, states: seq<State>, n: nat): set<nat>
    requires n <= |steps| < |states|
  {
    set i: nat | i < n && MapsAKey(c, steps, states, i)
  }

  lemma CounterMoves(c: Config, s: State, step: Step, s': State)
    requires Valid(c) && Next(c, s, step, s')
    ensures s'.log.roundRobin ==
              if step.Dispatch? && exists k :: Covers(c.stream[|s.log.slot|], k) && k !in s.log.mapping
              then (s.log.roundRobin + 1) % c.workers else s.log.roundRobin
  {
    if step.Dispatch? {
      AdvanceIs(s.log.mapping, s.log.roundRobin, c.workers, c.stream[|s.log.slot|]);
      hide Advance;
    }
  }

  lemma OneMoreMapping(c: Config, steps: seq<Step>, states: seq<State>, n: nat)
    requires n < |steps| < |states|
    ensures |Mapping(c, steps, states, n + 1)|
         == |Mapping(c, steps, states, n)| + if MapsAKey(c, steps, states, n) then 1 else 0
  {
    hide MapsAKey;
    assert Mapping(c, steps, states, n + 1)
        == Mapping(c, steps, states, n) + if MapsAKey(c, steps, states, n) then {n} else {};
  }

  lemma {:induction false} CounterSoFar(c: Config, steps: seq<Step>, states: seq<State>, n: nat)
    requires Valid(c) && Passes(c, steps, states) && n <= |steps|
    ensures states[n].log.roundRobin == (c.roundRobin + |Mapping(c, steps, states, n)|) % c.workers
  {
    hide Next;
    if n == 0 {
      assert Mapping(c, steps, states, 0) == {};
      RemainderIs(c.roundRobin, 0, c.roundRobin, c.workers);
    } else {
      hide Mapping;
      CounterSoFar(c, steps, states, n - 1);
      assert Next(c, states[n - 1], steps[n - 1], states[n - 1 + 1]);
      CounterMoves(c, states[n - 1], steps[n - 1], states[n]);
      DispatchInStream(c, states[n - 1], steps[n - 1], states[n]);
      OneMoreMapping(c, steps, states, n - 1);
      CounterStep(c.roundRobin + |Mapping(c, steps, states, n - 1)|, c.workers);
    }
  }

  lemma DispatchInStream(c: Config, s: State, step: Step, s': State)
    requires Next(c, s, step, s')
    ensures step.Dispatch? ==> |s.log.slot| < |c.stream| && |s'.log.slot| == |s.log.slot| + 1
    ensures step.Dispatch? ==> s'.log.mapping == Route(s.log.mapping, s.log.roundRobin, c.stream[|s.log.slot|])
  {
  }

  /** In every execution, replacements included, the counter has moved once for every request dispatched that
      named a key without an entry, and never otherwise. */
  lemma CounterCountsNewKeys(c: Config, steps: seq<Step>, states: seq<State>)
    requires Valid(c) && Passes(c, steps, states)
    ensures states[|steps|].log.roundRobin == (c.roundRobin + |Mapping(c, steps, states, |steps|)|) % c.workers
  {
    CounterSoFar(c, steps, states, |steps|);
  }

  // ---- while the map is not replaced ----

  /** Request `i` names a key that was not populated and that no earlier request named. */
  ghost predicate NamesNewKey(c: Config, i: nat)
    requires i < |c.stream|
  {
    exists k :: Covers(c.stream[i], k) && k !in c.mapping && forall j :: 0 <= j < i ==> !Covers(c.stream[j], k)
  }

  ghost function NewNames(c: Config, n: nat): set<nat>
    requires n <= |c.stream|
  {
    set i: nat | i < n && NamesNewKey(c, i)
  }

  ghost predicate StreamMapped(c: Config, s: State)
    requires c.workers > 0
  {
    && |s.log.slot| <= |c.stream|
    && (forall k :: k in s.log.mapping <==> k in c.mapping || exists i :: 0 <= i < |s.log.slot| && Covers(c.stream[i], k))
    && s.log.roundRobin == (c.roundRobin + |NewNames(c, |s.log.slot|)|) % c.workers
  }

  lemma OneMoreNewName(c: Config, n: nat)
    requires n < |c.stream|
    ensures |NewNames(c, n + 1)| == |NewNames(c, n)| + if NamesNewKey(c, n) then 1 else 0
  {
    hide NamesNewKey;
    assert NewNames(c, n + 1) == NewNames(c, n) + if NamesNewKey(c, n) then {n} else {};
  }

  lemma NewKeyIsUnmapped(c: Config, s: State)
    requires c.workers > 0 && StreamMapped(c, s) && |s.log.slot| < |c.stream|
    ensures NamesNewKey(c, |s.log.slot|)
       <==> exists k :: Covers(c.stream[|s.log.slot|], k) && k !in s.log.mapping
  {
  }

  lemma KeysAfter(c: Config, s: State, s': State)
    requires c.workers > 0 && StreamMapped(c, s) && |s.log.slot| < |c.stream| && |s'.log.slot| == |s.log.slot| + 1
    requires forall k :: k in s'.log.mapping <==> k in s.log.mapping || Covers(c.stream[|s.log.slot|], k)
    ensures forall k :: k in s'.log.mapping <==>
              k in c.mapping || exists i :: 0 <= i < |s'.log.slot| && Covers(c.stream[i], k)
  {
    var n := |s.log.slot|;
    forall k ensures k in s'.log.mapping <==> k in c.mapping || exists i :: 0 <= i < n + 1 && Covers(c.stream[i], k) {
      if Covers(c.stream[n], k) {
        assert k in s'.log.mapping;
      }
    }
  }

  lemma DispatchCounts(c: Config, s: State, step: Step, s': State)
    requires Valid(c) && StreamMapped(c, s) && step.Dispatch? && Next(c, s, step, s')
    ensures |s.log.slot| < |c.stream| && |s'.log.slot| == |s.log.slot| + 1
    ensures s'.log.roundRobin == (c.roundRobin + |NewNames(c, |s'.log.slot|)|) % c.workers
  {
    hide StreamMapped;
    var (n, moves) := (|s.log.slot|, |NewNames(c, |s.log.slot|)|);
    DispatchInStream(c, s, step, s');
    CounterMoves(c, s, step, s');
    NewKeyIsUnmapped(c, s);
    OneMoreNewName(c, n);
    hide Next, NewNames, NamesNewKey, Valid;
    CounterIs(c, s);
    CounterStep(c.roundRobin + moves, c.workers);
  }

  lemma CounterIs(c: Config, s: State)
    requires c.workers > 0 && StreamMapped(c, s)
    ensures |s.log.slot| <= |c.stream| && s.log.roundRobin == (c.roundRobin + |NewNames(c, |s.log.slot|)|) % c.workers
  {
  }

  lemma DispatchMaps(c: Config, s: State, step: Step, s': State)
    requires Valid(c) && StreamMapped(c, s) && step.Dispatch? && Next(c, s, step, s')
    ensures StreamMapped(c, s')
  {
    DispatchCounts(c, s, step, s');
    DispatchInStream(c, s, step, s');
    RouteIs(s.log.mapping, s.log.roundRobin, c.stream[|s.log.slot|]);
    hide Next, Route, NewNames, Valid;
    KeysAfter(c, s, s');
  }

  /** Without a replacement, the keys that have an entry are those populated or named so far, and the counter
      has moved once for every request that was the first to name one of its keys. */
  lemma {:induction false} CounterOverTheStream(c: Config, steps: seq<Step>, s: State)
    requires Valid(c) && Run(c, steps, s) && forall i :: 0 <= i < |steps| ==> !steps[i].Remap?
    ensures StreamMapped(c, s)
  {
    if steps == [] {
      assert NewNames(c, 0) == {};
      RemainderIs(c.roundRobin, 0, c.roundRobin, c.workers);
    } else {
      var n := |steps| - 1;
      var before := LastStep(c, steps, s);
      CounterOverTheStream(c, steps[..n], before);
      hide Run, StreamMapped, Valid;
      if steps[n].Dispatch? {
        DispatchMaps(c, before, steps[n], s);
      } else {
        SameMapping(c, before, steps[n], s);
      }
    }
  }

  lemma SameMapping(c: Config, s: State, step: Step, s': State)
    requires Valid(c) && StreamMapped(c, s) && Next(c, s, step, s') && !step.Dispatch? && !step.Remap?
    ensures StreamMapped(c, s')
  {
    assert s'.log == s.log;
    hide Next;
  }

  // ---- a replacement happens and takes effect ----

  /** What a replacement does to the map, and to the next request on its keys. */
  lemma RemapTakesEffect(c: Config, s: State, mapping: map<int, nat>, order: seq<nat>, r: Request, p: nat)
    requires Enabled(c, s, Remap(mapping, order)) && forall k :: Covers(r, k) ==> k in mapping
    ensures var s' := Apply(c, s, Remap(mapping, order));
            && s'.log.mapping == mapping && s'.log.roundRobin == s.log.roundRobin
            && (p in Owners(s'.log, r) <==> exists k :: Covers(r, k) && mapping[k] == p)
  {
    RemappedOwners(s.log, c.workers, mapping, r, p);
  }

  /** Everything already created gets pushed. */
  lemma {:induction false} Flush(c: Config, steps: seq<Step>, s: State) returns (steps': seq<Step>, s': State)
    requires Valid(c) && Run(c, steps, s)
    ensures Run(c, steps', s') && steps <= steps' && s'.todo == [] && s'.log == s.log && s'.mayRemap == s.mayRemap
    decreases Measure(c, s)
  {
    if s.todo == [] {
      steps', s' := steps, s;
    } else {
      RunInv(c, steps, s);
      var step := NeverStuck(c, s);
      hide Inv, Measure, Run;
      StepDecreases(c, s, step);
      steps', s' := Taken(c, steps, s, step);
      assert s'.log == s.log && s'.mayRemap == s.mayRemap;
      steps', s' := Flush(c, steps', s');
    }
  }

  lemma DispatchNext(c: Config, steps: seq<Step>, s: State) returns (steps': seq<Step>, s': State)
    requires Valid(c) && Run(c, steps, s) && s.todo == [] && |s.log.slot| < |c.stream|
    ensures Run(c, steps', s') && steps <= steps' && s'.mayRemap
  {
    RunInv(c, steps, s);
    hide Run, Inv;
    var step := SchedulerMoves(c, s);
    steps', s' := Taken(c, steps, s, step);
  }

  lemma Replace(c: Config, steps: seq<Step>, s: State, mapping: map<int, nat>)
    returns (steps': seq<Step>, s': State)
    requires Valid(c) && Run(c, steps, s) && s.todo == [] && s.mayRemap && InRange(mapping, c.workers)
    ensures Run(c, steps', s') && steps <= steps' && s'.log.mapping == mapping
  {
    hide Run;
    var order := OrderExists(Everyone(c.workers));
    hide Visits;
    steps', s' := Taken(c, steps, s, Remap(mapping, order));
  }

  /** As long as a request is still to come, or one was dispatched since the last replacement, any map can take
      over. */
  lemma AnyMapCanTakeOver(c: Config, steps: seq<Step>, s: State, mapping: map<int, nat>)
    returns (steps': seq<Step>, s': State)
    requires Valid(c) && Run(c, steps, s) && (|s.log.slot| < |c.stream| || s.mayRemap) && InRange(mapping, c.workers)
    ensures Run(c, steps', s') && steps <= steps' && s'.log.mapping == mapping
  {
    hide Run, Valid, InRange;
    steps', s' := Flush(c, steps, s);
    if !s'.mayRemap {
      steps', s' := DispatchNext(c, steps', s');
      steps', s' := Flush(c, steps', s');
    }
    steps', s' := Replace(c, steps', s', mapping);
  }
}
