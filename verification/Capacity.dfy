/** A bounded queue stays within its capacity, and the scheduling thread waits exactly when it is full. */
module Capacity {
  import opened Requests
  import opened Plan
  import opened Machine
  import opened Invariant
  import opened Replay

  ghost predicate WithinCapacity(c: Config, s: State) {
    c.capacity > 0 ==> forall w :: 0 <= w < |s.workers| ==> |s.workers[w].queue| <= c.capacity
  }

  lemma StepWithin(c: Config, s: State, step: Step, s': State)
    requires WithinCapacity(c, s) && Next(c, s, step, s')
    ensures WithinCapacity(c, s')
  {
  }

  /** In every execution no queue ever holds more than the capacity. */
  lemma {:induction false} QueuesStayWithin(c: Config, steps: seq<Step>, s: State)
    requires Run(c, steps, s)
    ensures WithinCapacity(c, s)
  {
    if steps != [] {
      var n := |steps| - 1;
      var before := LastStep(c, steps, s);
      QueuesStayWithin(c, steps[..n], before);
      StepWithin(c, before, steps[n], s);
    }
  }

  /** With a message to push, the scheduling thread can go on if and only if the queue it goes to has room. */
  lemma PushesIffRoom(c: Config, steps: seq<Step>, s: State)
    requires Valid(c) && Run(c, steps, s) && s.todo != []
    ensures s.todo[0].worker < |s.workers|
    ensures Enabled(c, s, PushOne) <==> c.capacity == 0 || |s.workers[s.todo[0].worker].queue| < c.capacity
    ensures !Enabled(c, s, PushOne) ==> |s.workers[s.todo[0].worker].queue| == c.capacity
  {
    RunInv(c, steps, s);
    QueuesStayWithin(c, steps, s);
    hide Sound, Line, GatesOk, Records, Stocked;
  }

  // ---- the scheduling thread does wait ----

  /** One worker and one message more than its queue holds. */
  function Crowded(capacity: nat): Config {
    Config(seq(capacity + 1, i => Request(Read, 0, "", 0)), 1, capacity, map[], 0, map[], (r, before) => "")
  }

  ghost predicate Queued(s: State, n: nat) {
    && s.todo == [] && |s.workers| == 1 && s.workers[0].status.Idle? && |s.workers[0].queue| == n
    && |s.log.slot| == n && (forall k :: k in s.log.mapping ==> s.log.mapping[k] == 0) && s.log.roundRobin == 0
  }

  lemma CrowdedIs(capacity: nat)
    ensures var c := Crowded(capacity);
            && Valid(c) && |c.stream| == capacity + 1 && c.capacity == capacity && c.workers == 1
            && forall i :: 0 <= i <= capacity ==> c.stream[i] == Request(Read, 0, "", 0)
  {
  }

  lemma QueuedNext(c: Config, s: State, n: nat)
    requires c.workers == 1 && Queued(s, n) && n < |c.stream| && c.stream[n] == Request(Read, 0, "", 0)
    ensures Owners(s.log, c.stream[n]) == {0} && Queued(Sent(c, s, 0), n + 1)
  {
    OneOwner(s.log, c.stream[n], 0);
    RouteIs(s.log.mapping, s.log.roundRobin, c.stream[n]);
    AdvanceIs(s.log.mapping, s.log.roundRobin, 1, c.stream[n]);
    hide Owners, Route, Advance;
  }

  lemma {:induction false} FillsUp(capacity: nat, n: nat) returns (steps: seq<Step>, s: State)
    requires n <= capacity
    ensures Run(Crowded(capacity), steps, s) && Queued(s, n)
  {
    var c := Crowded(capacity);
    CrowdedIs(capacity);
    if n == 0 {
      steps, s := [], Initial(c);
      NothingTaken(c);
    } else {
      steps, s := FillsUp(capacity, n - 1);
      hide Run, Crowded, Owners;
      QueuedNext(c, s, n - 1);
      steps := Send(c, steps, s, 0);
      s := Sent(c, s, 0);
    }
  }

  /** For every capacity there is an execution in which the scheduling thread has to wait for room. */
  lemma WaitsForRoom(capacity: nat) returns (c: Config, steps: seq<Step>, s: State)
    requires capacity >= 1
    ensures Valid(c) && c.capacity == capacity && Run(c, steps, s)
    ensures s.todo != [] && !Enabled(c, s, PushOne)
  {
    c := Crowded(capacity);
    CrowdedIs(capacity);
    steps, s := FillsUp(capacity, capacity);
    OneOwner(s.log, c.stream[capacity], 0);
    hide Run, Crowded, Owners;
    steps, s := Taken(c, steps, s, Dispatch([0], 0));
  }
}
