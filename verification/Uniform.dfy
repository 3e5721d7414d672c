/** A store in which every value is the same, as the source's is: streams that only update populated keys. */
module Uniform {
  import opened Requests
  import opened Machine
  import opened Invariant
  import opened Order
  import opened Equivalence

  /** Every populated value is `v`, and so is everything a Write stores, whatever its argument. */
  ghost predicate AllAlike(c: Config, v: string) {
    && (forall k :: k in c.store ==> c.store[k] == v)
    && (forall r, before :: c.put(r, before) == v)
  }

  ghost predicate UpdatesOnly(c: Config) {
    forall r: nat :: r < |c.stream| && c.stream[r].kind.Write? ==> c.stream[r].key in c.store
  }

  // ---- nothing ever changes ----

  lemma TouchChangesNothing(c: Config, v: string, r: nat)
    requires AllAlike(c, v) && UpdatesOnly(c) && r < |c.stream|
    ensures Touched(c, c.stream[r], c.store) == c.store
  {
  }

  lemma {:induction false} ContinueChangesNothing(c: Config, v: string, r: nat, p: Progress)
    requires AllAlike(c, v) && UpdatesOnly(c) && r < |c.stream| && p.store == c.store && CanRead(c.stream[r], c.store)
    ensures Continue(c, c.stream[r], p).store == c.store
    decreases Range(c.stream[r]) - |p.got|
  {
    if !Complete(c.stream[r], p.got) {
      TouchChangesNothing(c, v, r);
      ContinueChangesNothing(c, v, r, Access(c, c.stream[r], p));
    }
  }

  lemma {:induction false} PartialChangesNothing(c: Config, v: string, r: nat, t: nat)
    requires AllAlike(c, v) && UpdatesOnly(c) && r < |c.stream| && CanRead(c.stream[r], c.store)
    ensures Partial(c, c.stream[r], c.store, t).store == c.store
  {
    if t > 0 {
      PartialChangesNothing(c, v, r, t - 1);
      TouchChangesNothing(c, v, r);
    }
  }

  lemma {:induction false} SequenceChangesNothing(c: Config, v: string, r: nat)
    requires AllAlike(c, v) && UpdatesOnly(c) && Servable(c) && r <= |c.stream|
    ensures SequentialStore(c, r) == c.store
  {
    if r > 0 {
      SequenceChangesNothing(c, v, r - 1);
      ContinueChangesNothing(c, v, r - 1, Progress(c.store, []));
    }
  }

  // ---- every run ----

  ghost predicate Settled(c: Config, s: State)
    requires Servable(c)
  {
    && s.store == c.store
    && (forall w: nat, r: nat :: Runs(c, s, w, r) && r < |c.stream| ==> OnTrack(c, r, s.workers[w].status.got))
    && (forall r :: r in s.answers && r < |c.stream| ==> s.answers[r] == SequentialAnswer(c, r))
  }

  lemma OneMoreAccess(c: Config, v: string, r: nat, got: seq<Option<string>>)
    requires Valid(c) && AllAlike(c, v) && UpdatesOnly(c) && r < |c.stream|
    requires OnTrack(c, r, got) && !Complete(c.stream[r], got)
    ensures CanRead(c.stream[r], c.store) && OnTrack(c, r, got + [Output(c.stream[r], c.store, |got|)])
  {
    var q := c.stream[r];
    SequenceChangesNothing(c, v, r);
    PartialChangesNothing(c, v, r, |got|);
    assert Partial(c, q, c.store, |got| + 1) == Access(c, q, Partial(c, q, c.store, |got|));
  }

  lemma StepSettles(c: Config, v: string, s: State, step: Step)
    requires Valid(c) && AllAlike(c, v) && UpdatesOnly(c) && Inv(c, s) && Settled(c, s) && Enabled(c, s, step)
    ensures Settled(c, Apply(c, s, step))
  {
    hide Inv, OnTrack, SequentialAnswer, UpdatesOnly, AllAlike;
    var s' := Apply(c, s, step);
    match step
    case Touch(w) => TouchSettles(c, v, s, w);
    case Finish(w) => FinishSettles(c, v, s, w);
    case _ =>
      forall w: nat, r: nat | Runs(c, s', w, r) && r < |c.stream| ensures OnTrack(c, r, s'.workers[w].status.got) {
        QuietRunner(c, s, step, w, r);
        StartsOnTrack(c, r);
      }
  }

  lemma StartsOnTrack(c: Config, r: nat)
    requires Servable(c) && r < |c.stream|
    ensures OnTrack(c, r, [])
  {
  }

  lemma TouchSettles(c: Config, v: string, s: State, w: nat)
    requires Valid(c) && AllAlike(c, v) && UpdatesOnly(c) && Inv(c, s) && Settled(c, s) && Enabled(c, s, Touch(w))
    ensures Settled(c, Apply(c, s, Touch(w)))
  {
    hide Inv, OnTrack, SequentialAnswer;
    var s' := Apply(c, s, Touch(w));
    var (r, got) := (s.log.plan[s.workers[w].status.item].request, s.workers[w].status.got);
    assert Runs(c, s, w, r);
    TouchChangesNothing(c, v, r);
    OneMoreAccess(c, v, r, got);
    forall u: nat, q: nat | Runs(c, s', u, q) && q < |c.stream| ensures OnTrack(c, q, s'.workers[u].status.got) {
      assert u != w ==> Runs(c, s, u, q);
    }
  }

  lemma FinishSettles(c: Config, v: string, s: State, w: nat)
    requires Valid(c) && AllAlike(c, v) && UpdatesOnly(c) && Inv(c, s) && Settled(c, s) && Enabled(c, s, Finish(w))
    ensures Settled(c, Apply(c, s, Finish(w)))
  {
    hide Inv;
    var s' := Apply(c, s, Finish(w));
    var (r, got) := (s.log.plan[s.workers[w].status.item].request, s.workers[w].status.got);
    assert Runs(c, s, w, r) && OnTrack(c, r, got);
    assert got == SequentialAnswer(c, r);
    hide OnTrack, SequentialAnswer;
    forall u: nat, q: nat | Runs(c, s', u, q) && q < |c.stream| ensures OnTrack(c, q, s'.workers[u].status.got) {
      assert Runs(c, s, u, q);
    }
  }

  lemma {:induction false} RunSettles(c: Config, v: string, steps: seq<Step>, s: State)
    requires Valid(c) && AllAlike(c, v) && UpdatesOnly(c) && Run(c, steps, s)
    ensures Settled(c, s)
  {
    hide Inv, AllAlike, UpdatesOnly, Enabled, Apply;
    if steps != [] {
      var n := |steps| - 1;
      var before := LastStep(c, steps, s);
      RunInv(c, steps[..n], before);
      RunSettles(c, v, steps[..n], before);
      StepSettles(c, v, before, steps[n]);
    }
  }

  /** On a store whose values are all alike, a stream that writes only populated keys changes nothing, and every
      answer in every execution is the sequential one, wherever its scans go. */
  lemma UpdatesAreSequential(c: Config, v: string, steps: seq<Step>, s: State)
    requires Valid(c) && AllAlike(c, v) && UpdatesOnly(c) && Run(c, steps, s)
    ensures s.store == c.store
    ensures forall r :: r in s.answers ==> r < |c.stream| && s.answers[r] == SequentialAnswer(c, r)
  {
    RunSettles(c, v, steps, s);
    forall r | r in s.answers ensures r < |c.stream| {
      AnswersAreSequential(c, steps, s, r);
    }
  }
}
