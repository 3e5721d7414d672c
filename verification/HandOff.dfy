/** The asynchronous repartition protocol between the scheduling, graph and partitioning threads. */
module HandOff {
  import opened Counting
  import opened Requests
  import opened Window
  import opened GraphThread

  /** Who starts a repartition: the graph thread, claiming the token after (`Free`, also the non-stop
      scheduler) or before (`Imbalance`) it looks at the graph, or the scheduling thread (`Async`). */
  datatype Variant = Free | Imbalance | Async

  datatype SchedulerAt =
    | Dispatching      // next: dispatch a request, then look at the flags
    | Asked            // the request flag is set, the token not yet
    | LookForUpdate    // the token was seen taken
    | SaveActive       // temp = data_to_partition_
    | TakeSpare        // data_to_partition_ = updated_data_to_partition_
    | KeepOld          // updated_data_to_partition_ = temp
    | Syncing          // the global barrier
    | ClearUpdate      // update_ = false
    | ClearToken       // repartitioning_ = false

  datatype GraphAt = Reading | TakeRequest | Guard | Claim | Snapshot | Post

  datatype PartitionerAt =
    | Sleeping
    | Deleting
    | StartBuilding
    | Building(from: nat)
    | Publishing(built: nat)
    | Announcing

  /** Maps are numbered in the order they are allocated; `content` tells from which snapshot a map was
      built. `taken` counts snapshots, `applied` map replacements. `waiting0` and `waiting1` are the
      messages the scheduling and the graph thread have not taken from the queue yet. */
  datatype State = State(
    scheduler: SchedulerAt, graph: GraphAt, partitioner: PartitionerAt,
    repartition: bool, repartitioning: bool, update: bool, semaphore: nat,
    active: nat, spare: nat, temp: nat, freed: set<nat>, nextMap: nat, content: map<nat, nat>,
    window: seq<Request>, input: nat, taken: nat, applied: nat,
    waiting0: nat, waiting1: nat)

  function Initial(trackLength: nat): State {
    State(Dispatching, Reading, Sleeping, false, false, false, 0,
          0, 1, 0, {}, 2, map[0 := 0, 1 := 0], Placeholders(trackLength), 0, 0, 0, 0, 0)
  }

  /** The window after one more message. */
  function Slide(window: seq<Request>, trackLength: nat, m: Request): seq<Request> {
    if trackLength > 0 then (window + [m])[1..] else window + [m]
  }

  /** The graph of the window has a vertex. */
  ghost predicate HasVertex(window: seq<Request>) {
    exists k :: Cover(window, k) > 0
  }

  // ---- steps ----

  /** `wanted` stands for the trigger: a clock, a count of operations, or the imbalance detector. */
  datatype Step =
    | Submit
    | Schedule(wanted: bool)
    | Graph(message: Request, wanted: bool)
    | Partition

  predicate Enabled(s: State, step: Step) {
    match step
    case Submit => true
    case Schedule(_) => s.scheduler.Dispatching? ==> s.waiting0 > 0
    case Graph(m, _) => s.graph.Reading? ==> s.waiting1 > 0 && Submittable(m) && !m.kind.Dummy?
    case Partition => s.partitioner.Sleeping? ==> s.semaphore > 0
  }

  function ScheduleStep(v: Variant, s: State, wanted: bool): State
    requires s.scheduler.Dispatching? ==> s.waiting0 > 0
  {
    match s.scheduler
    case Dispatching =>
      var d := s.(waiting0 := s.waiting0 - 1);
      if v.Async? then
        if s.repartitioning then d.(scheduler := LookForUpdate)
        else if wanted then d.(repartition := true, scheduler := Asked)
        else d
      else if s.update then d.(scheduler := SaveActive) else d
    case Asked => s.(repartitioning := true, scheduler := Dispatching)
    case LookForUpdate => s.(scheduler := if s.update then SaveActive else Dispatching)
    case SaveActive => s.(temp := s.active, scheduler := TakeSpare)
    case TakeSpare => s.(active := s.spare, applied := s.applied + 1, scheduler := KeepOld)
    case KeepOld => s.(spare := s.temp, scheduler := Syncing)
    case Syncing => s.(scheduler := ClearUpdate)
    case ClearUpdate => s.(update := false, scheduler := ClearToken)
    case ClearToken => s.(repartitioning := false, scheduler := Dispatching)
  }

  ghost function GraphStep(v: Variant, trackLength: nat, s: State, m: Request, wanted: bool): State
    requires s.graph.Reading? ==> s.waiting1 > 0
  {
    match s.graph
    case Reading =>
      s.(waiting1 := s.waiting1 - 1, window := Slide(s.window, trackLength, m),
         graph := match v
                  case Free => if !s.repartitioning && wanted then Guard else Reading
                  case Imbalance => if !s.repartitioning && wanted then Claim else Reading
                  case Async => if s.repartition then TakeRequest else Reading)
    case TakeRequest => s.(repartition := false, graph := Guard)
    case Guard => s.(graph := if !HasVertex(s.window) then Reading else if v.Free? then Claim else Snapshot)
    case Claim => s.(repartitioning := true, graph := if v.Imbalance? then Guard else Snapshot)
    case Snapshot => s.(taken := s.taken + 1, input := s.taken + 1, graph := Post)
    case Post => s.(semaphore := s.semaphore + 1, graph := Reading)
  }

  function PartitionStep(s: State): State
    requires s.partitioner.Sleeping? ==> s.semaphore > 0
  {
    match s.partitioner
    case Sleeping => s.(semaphore := s.semaphore - 1, partitioner := Deleting)
    case Deleting => s.(freed := s.freed + {s.spare}, partitioner := StartBuilding)
    case StartBuilding => s.(partitioner := Building(s.input))
    case Building(from) =>
      s.(content := s.content[s.nextMap := from], nextMap := s.nextMap + 1, partitioner := Publishing(s.nextMap))
    case Publishing(built) => s.(spare := built, partitioner := Announcing)
    case Announcing => s.(update := true, partitioner := Sleeping)
  }

  ghost function Apply(v: Variant, trackLength: nat, s: State, step: Step): State
    requires Enabled(s, step)
  {
    match step
    case Submit => s.(waiting0 := s.waiting0 + 1, waiting1 := s.waiting1 + 1)
    case Schedule(wanted) => ScheduleStep(v, s, wanted)
    case Graph(m, wanted) => GraphStep(v, trackLength, s, m, wanted)
    case Partition => PartitionStep(s)
  }

  ghost predicate Next(v: Variant, trackLength: nat, s: State, step: Step, s': State) {
    Enabled(s, step) && s' == Apply(v, trackLength, s, step)
  }

  /** `steps` is an execution from the initial state that ends in `s`. */
  ghost predicate Run(v: Variant, trackLength: nat, steps: seq<Step>, s: State) {
    exists states: seq<State> :: Passes(v, trackLength, steps, states) && states[|steps|] == s
  }

  /** The states an execution goes through. */
  ghost predicate Passes(v: Variant, trackLength: nat, steps: seq<Step>, states: seq<State>) {
    && |states| == |steps| + 1 && states[0] == Initial(trackLength)
    && forall i :: 0 <= i < |steps| ==> Next(v, trackLength, states[i], steps[i], states[i + 1])
  }

  lemma LastStep(v: Variant, trackLength: nat, steps: seq<Step>, s: State) returns (before: State)
    requires Run(v, trackLength, steps, s) && steps != []
    ensures Run(v, trackLength, steps[..|steps| - 1], before) && Next(v, trackLength, before, steps[|steps| - 1], s)
  {
    hide Next;
    var n := |steps| - 1;
    var states :| Passes(v, trackLength, steps, states) && states[|steps|] == s;
    before := states[n];
    assert Next(v, trackLength, states[n], steps[n], states[n + 1]);
    assert Passes(v, trackLength, steps[..n], states[..n + 1]);
  }

  // ---- the token ----

  /** The graph thread has committed to a repartition it has not handed over yet. */
  predicate GraphHolds(v: Variant, s: State) {
    s.graph.Snapshot? || s.graph.Post? || (s.graph.Guard? && !v.Free?)
  }

  /** How many repartitions are under way, counted by where they are. */
  function InFlight(v: Variant, s: State): nat {
    One(s.repartition) + One(GraphHolds(v, s)) + s.semaphore + One(!s.partitioner.Sleeping?)
      + One(s.update) + One(s.scheduler.ClearToken?)
  }

  predicate TokenTaken(s: State) {
    s.repartitioning || s.scheduler.Asked?
  }

  predicate Applying(s: State) {
    s.scheduler.SaveActive? || s.scheduler.TakeSpare? || s.scheduler.KeepOld?
    || s.scheduler.Syncing? || s.scheduler.ClearUpdate?
  }

  /** One repartition is under way if the token is taken, and none otherwise. */
  ghost predicate OneToken(v: Variant, s: State) {
    && InFlight(v, s) == One(TokenTaken(s))
    && (Applying(s) ==> s.update)
    && (s.scheduler.Asked? || s.scheduler.LookForUpdate? ==> v.Async?)
    && (s.scheduler.Asked? ==> !s.repartitioning)
    && (s.repartition ==> v.Async?)
    && (s.graph.TakeRequest? ==> s.repartition)
    && (s.graph.Claim? ==> !v.Async? && !s.repartitioning)
    && (s.graph.Guard? && v.Free? ==> !s.repartitioning)
  }

  /** The message just processed is still in the window. */
  ghost predicate WindowOk(trackLength: nat, s: State) {
    && |s.window| >= trackLength && (trackLength > 0 ==> |s.window| == trackLength)
    && (!s.graph.Reading? ==> HasVertex(s.window))
  }

  // ---- map ownership ----

  /** The map `updated_data_to_partition_` points to has been deleted and not been replaced yet. */
  predicate SpareGone(s: State) {
    s.partitioner.StartBuilding? || s.partitioner.Building? || s.partitioner.Publishing?
  }

  /** The maps that are neither freed nor lost: the active one, the other one, the one being built. */
  function Other(s: State): nat {
    if s.scheduler.KeepOld? then s.temp else s.spare
  }

  function Alive(s: State): set<nat> {
    {s.active} + (if SpareGone(s) then {} else {Other(s)})
      + (if s.partitioner.Publishing? then {s.partitioner.built} else {})
  }

  /** Every map ever allocated is either freed or alive, never both; the active map is never the other
      one. */
  ghost predicate Owned(s: State) {
    && (forall m: nat :: m in s.freed || m in Alive(s) <==> m < s.nextMap)
    && s.freed !! Alive(s)
    && (!SpareGone(s) ==> s.active != Other(s))
    && (s.partitioner.Publishing? ==> s.partitioner.built != s.active)
    && (s.scheduler.TakeSpare? ==> s.temp == s.active)
    && (s.scheduler.KeepOld? ==> s.active == s.spare)
    && (forall m: nat :: m in s.content <==> m < s.nextMap)
  }

  // ---- versions ----

  predicate Pending(s: State) {
    s.update && !s.scheduler.KeepOld? && !s.scheduler.Syncing? && !s.scheduler.ClearUpdate?
  }

  /** The active map is built from snapshot number `applied`: the completed maps take over one after the
      other and none is skipped; while the partitioner reads, the snapshot stays the same. */
  ghost predicate Versions(s: State)
    requires Owned(s)
  {
    && s.input == s.taken
    && s.taken == s.applied + One(s.graph.Post?) + s.semaphore + One(!s.partitioner.Sleeping?) + One(Pending(s))
    && s.content[s.active] == s.applied
    && (s.partitioner.Building? ==> s.partitioner.from == s.input)
    && (s.partitioner.Publishing? ==> s.content[s.partitioner.built] == s.taken)
    && (s.partitioner.Announcing? || Pending(s) ==> s.spare in s.content && s.content[s.spare] == s.taken)
  }

  ghost predicate Inv(v: Variant, trackLength: nat, s: State) {
    OneToken(v, s) && WindowOk(trackLength, s) && Owned(s) && Versions(s)
  }

  // ---- every step keeps it ----

  lemma JustProcessed(window: seq<Request>, trackLength: nat, m: Request)
    requires |window| >= trackLength && Submittable(m) && !m.kind.Dummy?
    ensures HasVertex(Slide(window, trackLength, m)) && |Slide(window, trackLength, m)| >= trackLength
    ensures trackLength > 0 ==> |Slide(window, trackLength, m)| == |window|
  {
    var w := Slide(window, trackLength, m);
    assert w[|w| - 1] == m;
    CountsWithout(w, |w| - 1, m.key, m.key);
    assert Cover(w, m.key) > 0;
  }

  lemma ScheduleKeepsToken(v: Variant, trackLength: nat, s: State, wanted: bool)
    requires OneToken(v, s) && WindowOk(trackLength, s) && (s.scheduler.Dispatching? ==> s.waiting0 > 0)
    ensures OneToken(v, ScheduleStep(v, s, wanted)) && WindowOk(trackLength, ScheduleStep(v, s, wanted))
  {
  }

  lemma ScheduleKeepsMaps(v: Variant, s: State, wanted: bool)
    requires OneToken(v, s) && Owned(s) && Versions(s) && (s.scheduler.Dispatching? ==> s.waiting0 > 0)
    ensures Owned(ScheduleStep(v, s, wanted)) && Versions(ScheduleStep(v, s, wanted))
  {
  }

  lemma GraphKeeps(v: Variant, trackLength: nat, s: State, m: Request, wanted: bool)
    requires Inv(v, trackLength, s) && (s.graph.Reading? ==> s.waiting1 > 0 && Submittable(m) && !m.kind.Dummy?)
    ensures Inv(v, trackLength, GraphStep(v, trackLength, s, m, wanted))
  {
    if s.graph.Reading? {
      JustProcessed(s.window, trackLength, m);
    }
    hide HasVertex, Slide;
  }

  lemma PartitionKeeps(v: Variant, trackLength: nat, s: State)
    requires Inv(v, trackLength, s) && (s.partitioner.Sleeping? ==> s.semaphore > 0)
    ensures Inv(v, trackLength, PartitionStep(s))
  {
    hide HasVertex;
  }

  lemma SubmitKeeps(v: Variant, trackLength: nat, s: State)
    requires Inv(v, trackLength, s)
    ensures Inv(v, trackLength, Apply(v, trackLength, s, Submit))
  {
    hide HasVertex;
  }

  lemma StepKeeps(v: Variant, trackLength: nat, s: State, step: Step)
    requires Inv(v, trackLength, s) && Enabled(s, step)
    ensures Inv(v, trackLength, Apply(v, trackLength, s, step))
  {
    hide OneToken, WindowOk, Owned, ScheduleStep, GraphStep, PartitionStep;
    match step
    case Submit => SubmitKeeps(v, trackLength, s);
    case Schedule(wanted) =>
      ScheduleKeepsToken(v, trackLength, s, wanted);
      ScheduleKeepsMaps(v, s, wanted);
    case Graph(m, wanted) => GraphKeeps(v, trackLength, s, m, wanted);
    case Partition => PartitionKeeps(v, trackLength, s);
  }

  lemma InitialInv(v: Variant, trackLength: nat)
    ensures Inv(v, trackLength, Initial(trackLength))
  {
  }

  lemma {:induction false} RunInv(v: Variant, trackLength: nat, steps: seq<Step>, s: State)
    requires Run(v, trackLength, steps, s)
    ensures Inv(v, trackLength, s)
  {
    hide Inv;
    if steps == [] {
      InitialInv(v, trackLength);
    } else {
      var n := |steps| - 1;
      var before := LastStep(v, trackLength, steps, s);
      RunInv(v, trackLength, steps[..n], before);
      StepKeeps(v, trackLength, before, steps[n]);
    }
  }

  // ---- over all executions ----

  /** At most one repartition is in flight, and the token is taken exactly while one is; the snapshot is
      not written while the partitioner may read it. */
  lemma AtMostOneInFlight(v: Variant, trackLength: nat, steps: seq<Step>, s: State)
    requires Run(v, trackLength, steps, s)
    ensures InFlight(v, s) == if TokenTaken(s) then 1 else 0
    ensures !s.partitioner.Sleeping? || s.semaphore > 0 ==> !s.graph.Snapshot? && !s.graph.Post?
    ensures s.partitioner.Building? ==> s.partitioner.from == s.input
  {
    RunInv(v, trackLength, steps, s);
  }

  /** The window always holds the last `trackLength` messages, or all of them if there is no limit. */
  lemma WindowHoldsTheLast(v: Variant, trackLength: nat, steps: seq<Step>, s: State, m: Request, wanted: bool)
    requires Run(v, trackLength, steps, s) && s.graph.Reading? && s.waiting1 > 0
    ensures var window' := GraphStep(v, trackLength, s, m, wanted).window;
            window' == if trackLength > 0 then LastOf(s.window + [m], trackLength) else s.window + [m]
  {
    RunInv(v, trackLength, steps, s);
    hide HasVertex;
  }

  /** The guard on the number of vertices never fails: a repartition that was asked for is ordered. */
  lemma GuardNeverFails(v: Variant, trackLength: nat, steps: seq<Step>, s: State, m: Request, wanted: bool)
    requires Run(v, trackLength, steps, s) && s.graph.Guard?
    ensures HasVertex(s.window)
    ensures GraphStep(v, trackLength, s, m, wanted).graph == if v.Free? then Claim else Snapshot
  {
    RunInv(v, trackLength, steps, s);
    hide HasVertex;
  }

  /** Every completed map is applied: the maps that took over are those of snapshots 1, 2, ... in order,
      and the only snapshot not applied yet is the one in flight. */
  lemma NoUpdateLost(v: Variant, trackLength: nat, steps: seq<Step>, s: State)
    requires Run(v, trackLength, steps, s)
    ensures s.active in s.content && s.content[s.active] == s.applied <= s.taken <= s.applied + 1
    ensures !TokenTaken(s) ==> s.applied == s.taken
    ensures s.update && s.scheduler.Dispatching? ==> s.spare in s.content && s.content[s.spare] == s.applied + 1
  {
    RunInv(v, trackLength, steps, s);
  }

  /** The partitioner never deletes the active map, nor any map twice; the active and the spare map are
      distinct whenever the scheduling thread is not between the two halves of the exchange. */
  lemma MapsAreOwned(v: Variant, trackLength: nat, steps: seq<Step>, s: State)
    requires Run(v, trackLength, steps, s)
    ensures s.active !in s.freed
    ensures s.partitioner.Deleting? ==> s.spare !in s.freed && s.spare != s.active
    ensures !s.scheduler.KeepOld? && !SpareGone(s) ==> s.active != s.spare && s.spare !in s.freed
    ensures forall m: nat :: m < s.nextMap ==> (m in s.freed) != (m in Alive(s))
  {
    RunInv(v, trackLength, steps, s);
  }

  // ---- a requested repartition is carried out ----

  datatype Thread = Submitting | Scheduling | Tracking | Partitioning

  function ThreadOf(step: Step): Thread {
    match step
    case Submit => Submitting
    case Schedule(_) => Scheduling
    case Graph(_, _) => Tracking
    case Partition => Partitioning
  }

  /** How far the repartition in flight is from being applied and its token given back, and which
      thread has to move next. */
  function Rank(v: Variant, s: State): (nat, Thread) {
    match s.scheduler
    case ClearToken => (1, Scheduling)
    case ClearUpdate => (2, Scheduling)
    case Syncing => (3, Scheduling)
    case KeepOld => (4, Scheduling)
    case TakeSpare => (5, Scheduling)
    case SaveActive => (6, Scheduling)
    case _ =>
      if s.update then ((match s.scheduler case LookForUpdate => 7 case Asked => 9 case _ => 8), Scheduling)
      else
        match s.partitioner
        case Announcing => (10, Partitioning)
        case Publishing(_) => (11, Partitioning)
        case Building(_) => (12, Partitioning)
        case StartBuilding => (13, Partitioning)
        case Deleting => (14, Partitioning)
        case Sleeping =>
          if s.semaphore > 0 then (15, Partitioning)
          else (match s.graph
                case Post => 16
                case Snapshot => 17
                case Guard => 18
                case TakeRequest => 19
                case _ => 20, Tracking)
  }

  /** The thread stands before the queue and there is no message for it. */
  predicate Starved(s: State, thread: Thread) {
    match thread
    case Scheduling => s.scheduler.Dispatching? && s.waiting0 == 0
    case Tracking => s.graph.Reading? && s.waiting1 == 0
    case _ => false
  }

  ghost predicate CanMove(s: State, thread: Thread) {
    exists step :: ThreadOf(step) == thread && Enabled(s, step)
  }

  lemma MovesUnlessStarved(v: Variant, trackLength: nat, s: State)
    requires Inv(v, trackLength, s) && InFlight(v, s) == 1
    ensures CanMove(s, Rank(v, s).1) <==> !Starved(s, Rank(v, s).1)
  {
    var request := Request(Read, 0, "", 0);
    assert ThreadOf(Schedule(true)) == Scheduling && ThreadOf(Graph(request, true)) == Tracking
        && ThreadOf(Partition) == Partitioning && Submittable(request);
    hide HasVertex, Slide, Owned, Versions, WindowOk;
  }

  /** A repartition that was asked for is carried out: whatever the other threads do, each step of the
      thread that holds it brings it closer to being applied and no other step sets it back. That thread
      can move unless it is waiting for the next message. */
  lemma RequestAdvances(v: Variant, trackLength: nat, steps: seq<Step>, s: State, step: Step)
    requires Run(v, trackLength, steps, s) && InFlight(v, s) == 1 && Enabled(s, step)
    ensures var s' := Apply(v, trackLength, s, step);
            InFlight(v, s') == 1 ==>
              && Rank(v, s').0 <= Rank(v, s).0
              && (ThreadOf(step) == Rank(v, s).1 ==> Rank(v, s').0 < Rank(v, s).0)
    ensures CanMove(s, Rank(v, s).1) <==> !Starved(s, Rank(v, s).1)
    ensures InFlight(v, Apply(v, trackLength, s, step)) == 0 ==> s.scheduler.ClearToken?
  {
    RunInv(v, trackLength, steps, s);
    MovesUnlessStarved(v, trackLength, s);
    AnyStepAdvances(v, trackLength, s, step);
  }

  lemma AnyStepAdvances(v: Variant, trackLength: nat, s: State, step: Step)
    requires Inv(v, trackLength, s) && InFlight(v, s) == 1 && Enabled(s, step)
    ensures var s' := Apply(v, trackLength, s, step);
            InFlight(v, s') == 1 ==>
              && Rank(v, s').0 <= Rank(v, s).0
              && (ThreadOf(step) == Rank(v, s).1 ==> Rank(v, s').0 < Rank(v, s).0)
    ensures InFlight(v, Apply(v, trackLength, s, step)) == 0 ==> s.scheduler.ClearToken?
  {
    hide HasVertex, Slide, Owned, Versions;
  }
}
