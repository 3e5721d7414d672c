/** Handshakes do happen: whenever the trigger asks for one, and to the end. */
module HandshakeRuns {
  import opened Handshake

  lemma Taken(c: Config, steps: seq<Step>, s: State, step: Step) returns (steps': seq<Step>, s': State)
    requires Run(c, steps, s) && Enabled(c, s, step)
    ensures steps' == steps + [step] && Run(c, steps', s') && Next(c, s, step, s')
  {
    RunInv(c, steps, s);
    InvAllowsPops(c, s);
    s' := match step
          case Produce => ProduceStep(c, s)
          case Schedule(repartition) => ScheduleStep(s, repartition)
          case Graph => GraphStep(s);
    steps' := steps + [step];
    assert Next(c, s, step, s');
    var states :| Passes(c, steps, states) && states[|steps|] == s;
    var longer := states + [s'];
    hide Next, Inv, Enabled, Initial, ProduceStep, ScheduleStep, GraphStep;
    forall i | 0 <= i < |steps'| ensures Next(c, longer[i], steps'[i], longer[i + 1]) {
      if i < |steps| {
        assert Next(c, states[i], steps[i], states[i + 1]);
      }
    }
    assert Passes(c, steps', longer);
  }

  // ---- from the request to park to the end ----

  lemma ScheduleGoesOn(c: Config, s: State, s': State)
    requires InHandshake(s) && Next(c, s, Schedule(true), s')
    ensures SchedulerLeft(s'.scheduler) == SchedulerLeft(s.scheduler) - 1
    ensures s'.handshakes == s.handshakes && s'.dispatched == s.dispatched
  {
  }

  lemma GraphLeavesAlone(c: Config, s: State, s': State)
    requires Next(c, s, Graph, s')
    ensures s'.scheduler == s.scheduler && s'.handshakes == s.handshakes && s'.dispatched == s.dispatched
  {
  }

  /** A handshake under way can be carried on to any later moment of the scheduling thread. */
  lemma {:induction false} CarryOn(c: Config, steps: seq<Step>, s: State, left: nat)
    returns (steps': seq<Step>, s': State)
    requires Run(c, steps, s) && (InHandshake(s) || left == 0) && SchedulerLeft(s.scheduler) >= left
    ensures Run(c, steps', s') && steps <= steps' && SchedulerLeft(s'.scheduler) == left
    ensures s'.handshakes == s.handshakes && s'.dispatched == s.dispatched
    decreases Distance(s)
  {
    if SchedulerLeft(s.scheduler) == left {
      steps', s' := steps, s;
    } else {
      hide Run, Next, Enabled, Distance, ComplianceLeft;
      HandshakeNeverStuck(c, steps, s);
      var step := if Enabled(c, s, Schedule(true)) then Schedule(true) else Graph;
      steps', s' := Taken(c, steps, s, step);
      HandshakeAdvances(c, steps, s, step, s');
      if step.Schedule? {
        ScheduleGoesOn(c, s, s');
      } else {
        GraphLeavesAlone(c, s, s');
      }
      steps', s' := CarryOn(c, steps', s', left);
    }
  }

  /** What the scheduling thread decides after a request: with the trigger, and only then, it asks the graph
      thread to park. */
  lemma TriggerStarts(c: Config, s: State, repartition: bool, s': State)
    requires s.scheduler.Deciding? && Next(c, s, Schedule(repartition), s')
    ensures repartition ==> InHandshake(s') && s'.note && s'.handshakes == s.handshakes + 1
    ensures !repartition ==> s'.scheduler.Ready? && s'.note == s.note && s'.handshakes == s.handshakes
    ensures s'.dispatched == s.dispatched
  {
  }

  /** In every reachable state in which the scheduling thread decides, the trigger starts a handshake; from
      there some execution goes through the copying of the graph to the end of that handshake. */
  lemma HandshakeHappens(c: Config, steps: seq<Step>, s: State)
    returns (copySteps: seq<Step>, copying: State, endSteps: seq<Step>, end: State)
    requires Run(c, steps, s) && s.scheduler.Deciding?
    ensures Enabled(c, s, Schedule(true)) && steps + [Schedule(true)] <= copySteps <= endSteps
    ensures Run(c, copySteps, copying) && copying.scheduler.Copying? && copying.handshakes == s.handshakes + 1
    ensures Run(c, endSteps, end) && !InHandshake(end) && end.handshakes == end.parks == s.handshakes + 1
    ensures copying.dispatched == end.dispatched == s.dispatched
  {
    var asked;
    copySteps, asked := Taken(c, steps, s, Schedule(true));
    TriggerStarts(c, s, true, asked);
    assert SchedulerLeft(asked.scheduler) == 6;
    hide Run, Next, Enabled;
    copySteps, copying := CarryOn(c, copySteps, asked, 2);
    endSteps, end := CarryOn(c, copySteps, copying, 0);
    TokensAreRestored(c, endSteps, end);
  }

  // ---- from anywhere to the next decision ----

  /** The graph thread is as far as before, and so is everything the producer does not touch. */
  predicate OnlyProduced(s: State, s': State) {
    && s'.scheduler == s.scheduler && s'.graph == s.graph && s'.note == s.note
    && s'.handshakes == s.handshakes && s'.parks == s.parks && s'.dispatched == s.dispatched
  }

  function ProducerLeft(c: Config, s: State): int {
    4 * (|c.stream| - s.submitted) - match s.producer
                                     case Idle => 0
                                     case InFirst => 1
                                     case InBoth => 2
                                     case NotifiedFirst => 3
  }

  lemma ProduceGoesOn(c: Config, s: State, s': State)
    requires Next(c, s, Produce, s')
    ensures OnlyProduced(s, s') && 0 <= ProducerLeft(c, s') < ProducerLeft(c, s)
  {
  }

  /** The whole stream can be submitted. */
  lemma {:induction false} SubmitAll(c: Config, steps: seq<Step>, s: State) returns (steps': seq<Step>, s': State)
    requires Run(c, steps, s)
    ensures Run(c, steps', s') && steps <= steps' && OnlyProduced(s, s')
    ensures s'.producer.Idle? && s'.submitted >= |c.stream|
    decreases ProducerLeft(c, s)
  {
    if s.producer.Idle? && s.submitted >= |c.stream| {
      steps', s' := steps, s;
    } else {
      hide Run, Next;
      steps', s' := Taken(c, steps, s, Produce);
      ProduceGoesOn(c, s, s');
      steps', s' := SubmitAll(c, steps', s');
    }
  }

  function UntilPosted(at: GraphAt): nat {
    match at
    case GPosted => 7
    case GAtSecond => 6
    case GReady => 5
    case GHaveItem => 4
    case GHaveLead => 3
    case GPopping => 2
    case GPopped => 1
    case _ => 0
  }

  /** The scheduling thread waits for its lead, everything is submitted, and no handshake is under way. */
  ghost predicate AwaitsLead(c: Config, s: State) {
    && s.scheduler.HaveItem? && s.lead0 == 0 && s.producer.Idle? && s.submitted == |c.stream|
    && s.dispatched < |c.stream| && c.ahead0 + c.ahead1 >= 1
  }

  lemma GraphCanGoOn(c: Config, s: State)
    requires Inv(c, s) && AwaitsLead(c, s)
    ensures Enabled(c, s, Graph) && !s.note && UntilPosted(s.graph) > 0
  {
    hide Delivered;
  }

  lemma GraphGoesOn(c: Config, s: State, s': State)
    requires !s.note && UntilPosted(s.graph) > 0 && Next(c, s, Graph, s') && s.lead0 == 0
    ensures s'.scheduler == s.scheduler && s'.producer == s.producer && s'.submitted == s.submitted
    ensures s'.dispatched == s.dispatched && s'.handshakes == s.handshakes
    ensures s'.lead0 > 0 || (s'.lead0 == 0 && UntilPosted(s'.graph) < UntilPosted(s.graph))
  {
  }

  /** The graph thread takes an item and lets the scheduling thread come closer. */
  lemma {:induction false} GetLead(c: Config, steps: seq<Step>, s: State) returns (steps': seq<Step>, s': State)
    requires Run(c, steps, s) && AwaitsLead(c, s)
    ensures Run(c, steps', s') && steps <= steps' && s'.lead0 > 0 && s'.scheduler.HaveItem?
    ensures s'.dispatched == s.dispatched && s'.handshakes == s.handshakes
    decreases UntilPosted(s.graph)
  {
    RunInv(c, steps, s);
    GraphCanGoOn(c, s);
    hide Run, Next, Inv, Enabled;
    steps', s' := Taken(c, steps, s, Graph);
    GraphGoesOn(c, s, s');
    if s'.lead0 == 0 {
      steps', s' := GetLead(c, steps', s');
    }
  }

  function UntilDeciding(at: SchedulerAt): nat {
    match at
    case Ready => 5
    case HaveItem => 4
    case HaveLead => 3
    case Popped => 2
    case Posted => 1
    case _ => 0
  }

  /** The request the scheduling thread is busy with has not been counted yet. */
  function Counted(s: State): nat {
    s.dispatched + if s.scheduler.Deciding? then 0 else 1
  }

  lemma ReadyHasItem(c: Config, s: State)
    requires Inv(c, s) && s.scheduler.Ready? && s.producer.Idle? && s.submitted >= |c.stream| && s.dispatched < |c.stream|
    ensures s.items0 > 0
  {
    hide Delivered, LeadTokens, Rounds;
  }

  lemma SubmittedAll(c: Config, s: State)
    requires Inv(c, s)
    ensures s.submitted <= |c.stream|
  {
    hide LeadTokens, Rounds, ItemTokens;
  }

  lemma ScheduleStepsOn(c: Config, s: State, s': State)
    requires UntilDeciding(s.scheduler) > 0 && Next(c, s, Schedule(false), s')
    ensures UntilDeciding(s'.scheduler) == UntilDeciding(s.scheduler) - 1 && !InHandshake(s')
    ensures s'.handshakes == s.handshakes && Counted(s') == Counted(s)
    ensures s'.dispatched == s.dispatched || s'.scheduler.Deciding?
  {
  }

  /** With everything submitted, the scheduling thread can be let through to its next step. */
  lemma LetThrough(c: Config, steps: seq<Step>, s: State) returns (steps': seq<Step>, s': State)
    requires Run(c, steps, s) && c.ahead0 + c.ahead1 >= 1 && UntilDeciding(s.scheduler) > 0
    requires s.producer.Idle? && s.submitted >= |c.stream| && s.dispatched < |c.stream|
    ensures Run(c, steps', s') && steps <= steps' && Enabled(c, s', Schedule(false))
    ensures s'.scheduler == s.scheduler && s'.dispatched == s.dispatched && s'.handshakes == s.handshakes
  {
    RunInv(c, steps, s);
    SubmittedAll(c, s);
    if s.scheduler.Ready? {
      ReadyHasItem(c, s);
    }
    hide Run, Inv;
    if s.scheduler.HaveItem? && s.lead0 == 0 {
      steps', s' := GetLead(c, steps, s);
    } else {
      steps', s' := steps, s;
    }
  }

  /** With a lead of at least one in sum, the scheduling thread gets from any moment outside a handshake to its
      next decision, having counted the request it is at. */
  lemma {:induction false} ReachDecision(c: Config, steps: seq<Step>, s: State) returns (steps': seq<Step>, s': State)
    requires Run(c, steps, s) && c.ahead0 + c.ahead1 >= 1 && !InHandshake(s)
    requires s.scheduler.Deciding? || s.dispatched < |c.stream|
    ensures Run(c, steps', s') && steps <= steps' && s'.scheduler.Deciding?
    ensures s'.handshakes == s.handshakes && s'.dispatched == Counted(s)
    decreases UntilDeciding(s.scheduler)
  {
    if s.scheduler.Deciding? {
      steps', s' := steps, s;
    } else {
      hide Run, Next, Enabled;
      steps', s' := SubmitAll(c, steps, s);
      steps', s' := LetThrough(c, steps', s');
      var before := s';
      steps', s' := Taken(c, steps', s', Schedule(false));
      ScheduleStepsOn(c, before, s');
      steps', s' := ReachDecision(c, steps', s');
    }
  }

  /** From every reachable state with a request still to be counted, a handshake can happen: it can be asked
      for, the graph copied, and both threads go on. */
  lemma HandshakeCanHappen(c: Config, steps: seq<Step>, s: State)
    returns (copySteps: seq<Step>, copying: State, endSteps: seq<Step>, end: State)
    requires Run(c, steps, s) && c.ahead0 + c.ahead1 >= 1 && s.dispatched < |c.stream|
    ensures steps <= copySteps <= endSteps && Run(c, copySteps, copying) && Run(c, endSteps, end)
    ensures copying.scheduler.Copying? && copying.handshakes == s.handshakes + 1
    ensures !InHandshake(end) && end.handshakes == end.parks == s.handshakes + 1
  {
    hide Run;
    var (on, now) := (steps, s);
    if InHandshake(s) {
      on, now := CarryOn(c, steps, s, 0);
    }
    on, now := ReachDecision(c, on, now);
    copySteps, copying, endSteps, end := HandshakeHappens(c, on, now);
  }
}
