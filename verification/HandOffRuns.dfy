/** Repartitions do happen: whenever the trigger asks for one, and until the new map has taken over. */
module HandOffRuns {
  import opened Requests
  import opened Counting
  import opened HandOff

  lemma Taken(v: Variant, trackLength: nat, steps: seq<Step>, s: State, step: Step)
    returns (steps': seq<Step>, s': State)
    requires Run(v, trackLength, steps, s) && Enabled(s, step)
    ensures steps' == steps + [step] && Run(v, trackLength, steps', s') && s' == Apply(v, trackLength, s, step)
  {
    steps', s' := steps + [step], Apply(v, trackLength, s, step);
    assert Next(v, trackLength, s, step, s');
    var states :| Passes(v, trackLength, steps, states) && states[|steps|] == s;
    var longer := states + [s'];
    hide Next, Enabled, Apply, Initial;
    forall i | 0 <= i < |steps'| ensures Next(v, trackLength, longer[i], steps'[i], longer[i + 1]) {
      if i < |steps| {
        assert Next(v, trackLength, states[i], steps[i], states[i + 1]);
      }
    }
    assert Passes(v, trackLength, steps', longer);
  }

  // ---- the trigger ----

  /** The thread that watches the trigger is about to look, with a message at hand and the token free. */
  predicate AboutToLook(v: Variant, s: State) {
    && !TokenTaken(s)
    && if v.Async? then s.scheduler.Dispatching? && s.waiting0 > 0 else s.graph.Reading? && s.waiting1 > 0
  }

  function SomeRead(): Request {
    Request(Read, 0, "", 0)
  }

  /** Its look, with or without the trigger. */
  function Look(v: Variant, m: Request, wanted: bool): Step {
    if v.Async? then Schedule(wanted) else Graph(m, wanted)
  }

  /** The watching thread has decided to start a repartition. */
  predicate Decided(v: Variant, s: State) {
    match v
    case Async => s.scheduler.Asked? && s.repartition
    case Free => (s.graph.Guard? || s.graph.Claim?) && !TokenTaken(s)
    case Imbalance => s.graph.Claim? && !TokenTaken(s)
  }

  /** With the trigger, and only with it, the look leads to a repartition. */
  lemma TriggerStarts(v: Variant, trackLength: nat, steps: seq<Step>, s: State, m: Request, wanted: bool)
    requires Run(v, trackLength, steps, s) && AboutToLook(v, s) && Submittable(m) && !m.kind.Dummy?
    ensures Enabled(s, Look(v, m, wanted))
    ensures var s' := Apply(v, trackLength, s, Look(v, m, wanted));
            && s'.applied == s.applied
            && (wanted ==> Decided(v, s'))
            && (!wanted ==> InFlight(v, s') == 0 && !TokenTaken(s') && !Decided(v, s'))
            && (!wanted && !v.Async? ==> s'.graph.Reading?)
            && (!wanted && v.Async? ==> s'.scheduler.Dispatching?)
  {
    RunInv(v, trackLength, steps, s);
    hide HasVertex, Slide, Owned, Versions;
  }

  // ---- from the decision to a repartition in flight ----

  lemma Started(v: Variant, trackLength: nat, steps: seq<Step>, s: State) returns (steps': seq<Step>, s': State)
    requires Run(v, trackLength, steps, s) && Decided(v, s)
    ensures Run(v, trackLength, steps', s') && steps <= steps' && InFlight(v, s') == 1 && Unapplied(s')
    ensures s'.applied == s.applied
  {
    RunInv(v, trackLength, steps, s);
    hide Run, HasVertex, Slide, Owned, Versions;
    steps', s' := steps, s;
    if v.Free? {
      if s.graph.Guard? {
        steps', s' := Taken(v, trackLength, steps', s', Graph(SomeRead(), false));
      }
      steps', s' := Taken(v, trackLength, steps', s', Graph(SomeRead(), false));
    } else if v.Imbalance? {
      steps', s' := Taken(v, trackLength, steps', s', Graph(SomeRead(), false));
    }
    RunInv(v, trackLength, steps', s');
  }

  /** The map in the making has not become the active one yet. */
  predicate Unapplied(s: State) {
    !s.scheduler.KeepOld? && !s.scheduler.Syncing? && !s.scheduler.ClearUpdate? && !s.scheduler.ClearToken?
  }

  // ---- from there to the end ----

  function StepOf(thread: Thread): Step {
    match thread
    case Submitting => Submit
    case Scheduling => Schedule(false)
    case Tracking => Graph(SomeRead(), false)
    case Partitioning => Partition
  }

  lemma HolderCanStep(v: Variant, trackLength: nat, s: State)
    requires Inv(v, trackLength, s) && InFlight(v, s) == 1 && s.waiting0 > 0 && s.waiting1 > 0
    ensures Enabled(s, StepOf(Rank(v, s).1)) && ThreadOf(StepOf(Rank(v, s).1)) == Rank(v, s).1
  {
    hide HasVertex, Slide, Owned, Versions, WindowOk;
  }

  /** Taking over is the only step that counts a map as applied. */
  lemma AppliedOnce(v: Variant, trackLength: nat, s: State, step: Step)
    requires Inv(v, trackLength, s) && InFlight(v, s) == 1 && Enabled(s, step)
    ensures var s' := Apply(v, trackLength, s, step);
            && s'.applied + One(Unapplied(s')) >= s.applied + One(Unapplied(s))
            && (InFlight(v, s') == 1 ==> s'.applied + One(Unapplied(s')) == s.applied + One(Unapplied(s)))
            && (InFlight(v, s') == 0 ==> !Unapplied(s) && s'.applied == s.applied)
  {
    hide HasVertex, Slide, Owned, Versions;
  }

  lemma InFlightBounded(v: Variant, trackLength: nat, s: State)
    requires Inv(v, trackLength, s)
    ensures InFlight(v, s) <= 1
  {
    hide HasVertex, Slide, Owned, Versions, WindowOk;
  }

  lemma SubmitLeavesAlone(v: Variant, trackLength: nat, s: State)
    ensures var s' := Apply(v, trackLength, s, Submit);
            && s'.waiting0 > 0 && s'.waiting1 > 0 && InFlight(v, s') == InFlight(v, s) && Rank(v, s') == Rank(v, s)
            && s'.applied == s.applied && Unapplied(s') == Unapplied(s)
  {
  }

  /** A repartition in flight can be carried on until its map is the active one and the token is free. */
  lemma {:induction false} CarryOn(v: Variant, trackLength: nat, steps: seq<Step>, s: State)
    returns (steps': seq<Step>, s': State)
    requires Run(v, trackLength, steps, s) && InFlight(v, s) == 1
    ensures Run(v, trackLength, steps', s') && steps <= steps' && InFlight(v, s') == 0
    ensures s'.applied == s.applied + One(Unapplied(s))
    decreases Rank(v, s).0
  {
    hide Run, Rank, InFlight, Unapplied, Inv, Enabled, Apply;
    SubmitLeavesAlone(v, trackLength, s);
    var ready;
    steps', ready := Submitted(v, trackLength, steps, s);
    RunInv(v, trackLength, steps', ready);
    HolderCanStep(v, trackLength, ready);
    var step := StepOf(Rank(v, ready).1);
    AnyStepAdvances(v, trackLength, ready, step);
    AppliedOnce(v, trackLength, ready, step);
    steps', s' := Taken(v, trackLength, steps', ready, step);
    RunInv(v, trackLength, steps', s');
    InFlightBounded(v, trackLength, s');
    if InFlight(v, s') == 1 {
      steps', s' := CarryOn(v, trackLength, steps', s');
    }
  }

  lemma Submitted(v: Variant, trackLength: nat, steps: seq<Step>, s: State) returns (steps': seq<Step>, s': State)
    requires Run(v, trackLength, steps, s)
    ensures Enabled(s, Submit) && s' == Apply(v, trackLength, s, Submit)
    ensures Run(v, trackLength, steps', s') && steps <= steps'
  {
    hide Run;
    steps', s' := Taken(v, trackLength, steps, s, Submit);
  }

  // ---- what the trigger leads to ----

  /** In every variant and every reachable state in which the watching thread is about to look and the token is
      free, the trigger leads to one more map taking over, and to a free token again. */
  lemma TriggerIsCarriedOut(v: Variant, trackLength: nat, steps: seq<Step>, s: State, m: Request)
    returns (steps': seq<Step>, s': State)
    requires Run(v, trackLength, steps, s) && AboutToLook(v, s) && Submittable(m) && !m.kind.Dummy?
    ensures steps + [Look(v, m, true)] <= steps' && Run(v, trackLength, steps', s')
    ensures s'.applied == s'.taken == s.applied + 1 && InFlight(v, s') == 0 && !TokenTaken(s')
  {
    hide Run, InFlight, Inv, Unapplied, Decided, Apply, Enabled;
    TriggerStarts(v, trackLength, steps, s, m, true);
    steps', s' := Taken(v, trackLength, steps, s, Look(v, m, true));
    steps', s' := Started(v, trackLength, steps', s');
    steps', s' := CarryOn(v, trackLength, steps', s');
    AtMostOneInFlight(v, trackLength, steps', s');
    NoUpdateLost(v, trackLength, steps', s');
  }

  // ---- from anywhere ----

  /** With no repartition in flight, the watching thread can get to its look. */
  lemma {:induction false} GetToLook(v: Variant, trackLength: nat, steps: seq<Step>, s: State)
    returns (steps': seq<Step>, s': State)
    requires Run(v, trackLength, steps, s) && InFlight(v, s) == 0
    ensures Run(v, trackLength, steps', s') && steps <= steps' && s'.applied == s.applied
    ensures AboutToLook(v, s') || Decided(v, s')
  {
    RunInv(v, trackLength, steps, s);
    hide Run, HasVertex, Slide, Owned, Versions;
    steps', s' := Taken(v, trackLength, steps, s, Submit);
    if v.Async? && s.scheduler.LookForUpdate? {
      steps', s' := Taken(v, trackLength, steps', s', Schedule(false));
    }
  }

  /** In every variant and from every reachable state, one more map can take over; so every number of
      repartitions is reached. */
  lemma OneMoreRepartition(v: Variant, trackLength: nat, steps: seq<Step>, s: State)
    returns (steps': seq<Step>, s': State)
    requires Run(v, trackLength, steps, s)
    ensures Run(v, trackLength, steps', s') && steps <= steps' && s'.applied == s.applied + 1
  {
    RunInv(v, trackLength, steps, s);
    InFlightBounded(v, trackLength, s);
    hide Run, Inv, InFlight, Decided, AboutToLook, Apply;
    steps', s' := steps, s;
    if InFlight(v, s) == 1 {
      steps', s' := CarryOn(v, trackLength, steps, s);
    }
    if s'.applied == s.applied {
      steps', s' := GetToLook(v, trackLength, steps', s');
      if AboutToLook(v, s') {
        steps', s' := TriggerIsCarriedOut(v, trackLength, steps', s', SomeRead());
      } else {
        steps', s' := Started(v, trackLength, steps', s');
        steps', s' := CarryOn(v, trackLength, steps', s');
      }
    }
  }
}
