/** Every execution can be completed, and what that means for reads that miss. */
module Completion {
  import opened Requests
  import opened Machine
  import opened Invariant
  import opened Order
  import opened Liveness
  import opened Equivalence

  /** Whatever happened so far, the execution can be carried on to the end of all work. */
  lemma {:induction false} CanComplete(c: Config, steps: seq<Step>, s: State) returns (steps': seq<Step>, s': State)
    requires Valid(c) && Run(c, steps, s)
    ensures Run(c, steps', s') && Quiescent(c, s') && steps <= steps'
    decreases Measure(c, s)
  {
    hide Inv, Measure, Enabled, Apply, Quiescent, Valid;
    RunInv(c, steps, s);
    if Quiescent(c, s) {
      steps', s' := steps, s;
    } else {
      var step := NeverStuck(c, s);
      StepDecreases(c, s, step);
      steps', s' := Taken(c, steps, s, step);
      steps', s' := CanComplete(c, steps', s');
    }
  }

  ghost predicate ReadsProvided(c: Config) {
    forall r: nat :: r < |c.stream| && c.stream[r].kind.Read? ==> Provided(c, r, c.stream[r].key)
  }

  predicate NothingMissing(got: seq<Option<string>>) {
    forall i :: 0 <= i < |got| ==> got[i].Some?
  }

  /** No Read that is in progress or answered has missed its key: in the source, no exception has ended the
      process. */
  ghost predicate NoReadMissed(c: Config, s: State) {
    && (forall r: nat :: r in s.answers && r < |c.stream| && c.stream[r].kind.Read? ==> NothingMissing(s.answers[r]))
    && (forall w: nat, r: nat :: Runs(c, s, w, r) && r < |c.stream| && c.stream[r].kind.Read? ==>
          NothingMissing(s.workers[w].status.got))
  }

  lemma ProvidedReadsAreFound(c: Config, steps: seq<Step>, s: State)
    requires Valid(c) && Run(c, steps, s) && ReadsProvided(c)
    ensures NoReadMissed(c, s)
  {
    hide Run, Runs, Valid;
    forall r: nat | r in s.answers && r < |c.stream| && c.stream[r].kind.Read? ensures NothingMissing(s.answers[r]) {
      ReadsFindTheirKey(c, steps, s, r);
    }
    forall w: nat, r: nat | Runs(c, s, w, r) && r < |c.stream| && c.stream[r].kind.Read?
      ensures w < |s.workers| && s.workers[w].status.Running? && NothingMissing(s.workers[w].status.got)
    {
      RunnerIs(c, s, w, r);
      NoAbsentKey(c, steps, s, w, r);
    }
  }

  lemma RunnerIs(c: Config, s: State, w: nat, r: nat)
    requires Runs(c, s, w, r)
    ensures w < |s.workers| && s.workers[w].status.Running?
  {
  }

  /** No execution of a stream ever misses a Read if and only if every Read names a key that was populated or
      is written earlier in the stream. */
  lemma NoReadThrows(c: Config)
    requires Valid(c)
    ensures (forall steps, s :: Run(c, steps, s) ==> NoReadMissed(c, s)) <==> ReadsProvided(c)
  {
    hide Run, Valid;
    if ReadsProvided(c) {
      forall steps, s | Run(c, steps, s) ensures NoReadMissed(c, s) {
        ProvidedReadsAreFound(c, steps, s);
      }
    } else {
      var r: nat :| r < |c.stream| && c.stream[r].kind.Read? && !Provided(c, r, c.stream[r].key);
      NothingTaken(c);
      var steps, s := CanComplete(c, [], Initial(c));
      ParallelIsSequential(c, steps, s);
      ReadsFindTheirKey(c, steps, s, r);
      assert !NothingMissing(s.answers[r]);
    }
  }

  /** If every Read is provided, nothing is lost for real: no exception ends the process, every request is
      executed exactly once and counted, and every Read has its value. */
  lemma NothingLostNorMissed(c: Config, steps: seq<Step>, s: State)
    requires Valid(c) && Run(c, steps, s) && Quiescent(c, s) && ReadsProvided(c)
    ensures NoReadMissed(c, s) && Total(s.workers) == |c.stream|
    ensures forall r: nat :: r in s.answers <==> r < |c.stream|
    ensures forall r: nat :: r < |c.stream| && c.stream[r].kind.Read? ==> |s.answers[r]| == 1 && s.answers[r][0].Some?
  {
    hide Run, Valid, Quiescent, Runs;
    ProvidedReadsAreFound(c, steps, s);
    NothingLost(c, steps, s);
    ParallelIsSequential(c, steps, s);
    forall r: nat | r < |c.stream| && c.stream[r].kind.Read? ensures |s.answers[r]| == 1 && s.answers[r][0].Some? {
      ReadsFindTheirKey(c, steps, s, r);
    }
  }
}
