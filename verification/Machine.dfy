/** The scheduling thread, the workers, their queues and their barriers as one transition system. */
module Machine {
  import opened Requests
  import opened Plan

  /** `capacity` 0 stands for the unbounded queue. `put` says what a Write stores, given the request
      and the value it replaces; the source stores a fixed template. `mapping`, `roundRobin` and
      `store` are what populating left behind. */
  datatype Config = Config(stream: seq<Request>, workers: nat, capacity: nat,
                           mapping: map<int, nat>, roundRobin: nat, store: map<int, string>,
                           put: (Request, Option<string>) -> string)

  predicate Valid(c: Config) {
    && c.roundRobin < c.workers
    && (forall k :: k in c.mapping ==> c.mapping[k] < c.workers)
    && (forall r :: 0 <= r < |c.stream| ==> Submittable(c.stream[r]))
    && Servable(c)
  }

  /** A scan divides by the size of the store. */
  predicate CanRead(r: Request, store: map<int, string>) {
    r.kind.Scan? ==> store != map[]
  }

  /** If there is anything to scan, some key was populated. */
  predicate Servable(c: Config) {
    forall r :: 0 <= r < |c.stream| ==> CanRead(c.stream[r], c.store)
  }

  // ---- executing one request, key by key ----

  function Lookup(store: map<int, string>, k: int): Option<string> {
    if k in store then Some(store[k]) else None
  }

  /** The store after the `i`-th key access of a request. */
  function Touched(c: Config, r: Request, store: map<int, string>): map<int, string> {
    if r.kind.Write? then store[r.key := c.put(r, Lookup(store, r.key))] else store
  }

  /** A scan takes its keys modulo the current size of the store. */
  function ScanKey(start: int, i: nat, size: nat): int
    requires size > 0
  {
    (start + i) % size
  }

  /** What that access contributes to the answer. */
  function Output(r: Request, store: map<int, string>, i: nat): Option<string>
    requires CanRead(r, store)
  {
    match r.kind
    case Read => Lookup(store, r.key)
    case Scan => Lookup(store, ScanKey(r.key, i, |store|))
    case Error => Some("ERROR")
    case Write => Some(r.args)
    case _ => Some("")
  }

  /** A request ends after its last key, or at the first key the store does not hold. */
  predicate Complete(r: Request, got: seq<Option<string>>) {
    |got| >= Range(r) || (got != [] && got[|got| - 1].None?)
  }

  // ---- state ----

  /** A queued message is its position in the log. */
  datatype Status =
    | Idle
    | Holding(item: nat)
    | Running(item: nat, got: seq<Option<string>>)
    | Waiting(item: nat)

  /** `done` is the history of messages this worker has finished with, `executed` the source's counter. */
  datatype Worker = Worker(queue: seq<nat>, status: Status, done: seq<nat>, executed: nat)

  /** A pthread barrier: how many it was initialised for, how many arrived, how many left. */
  datatype Gate = Gate(size: nat, arrived: nat, left: nat)

  /** `todo` is what is left to push of the messages already created. `mayRemap` says that a request was
      dispatched and the map was not replaced since. */
  datatype State = State(log: Log, todo: seq<Push>, mayRemap: bool, workers: seq<Worker>,
                         gates: map<nat, Gate>, store: map<int, string>,
                         answers: map<nat, seq<Option<string>>>)

  datatype Push = Push(worker: nat, item: nat)

  function Initial(c: Config): State {
    State(Log(c.mapping, c.roundRobin, [], []), [], false, seq(c.workers, w => Worker([], Idle, [], 0)),
          map[], c.store, map[])
  }

  // ---- steps ----

  datatype Step =
    | Dispatch(order: seq<nat>, chosen: nat)
    | Remap(mapping: map<int, nat>, order: seq<nat>)
    | PushOne
    | Pop(worker: nat)
    | Start(worker: nat)
    | Touch(worker: nat)
    | Finish(worker: nat)
    | Arrive(worker: nat)
    | Leave(worker: nat)

  /** Iterating over an unordered set visits every element once, in some order. */
  ghost predicate Visits(order: seq<nat>, ps: set<nat>) {
    && (forall i, j :: 0 <= i < j < |order| ==> order[i] != order[j])
    && (forall p :: p in order <==> p in ps)
  }

  function Spread(order: seq<nat>, item: nat): seq<Push> {
    seq(|order|, i requires 0 <= i < |order| => Push(order[i], item))
  }

  /** The pushes of one dispatched request, in program order. */
  function Pushes(ps: set<nat>, order: seq<nat>, chosen: nat, at: nat): seq<Push> {
    if |ps| > 1 then Spread(order, at) + [Push(chosen, at + 1)] + Spread(order, at + 2) else [Push(chosen, at)]
  }

  function Opened(gates: map<nat, Gate>, ps: set<nat>, at: nat): map<nat, Gate> {
    if |ps| > 1 then gates[at := Gate(|ps|, 0, 0)][at + 2 := Gate(|ps|, 0, 0)] else gates
  }

  function Target(c: Config, s: State, item: nat): Request
    requires item < |s.log.plan| && s.log.plan[item].Exec? && s.log.plan[item].request < |c.stream|
  {
    c.stream[s.log.plan[item].request]
  }

  predicate IsRequest(c: Config, s: State, item: nat) {
    item < |s.log.plan| && s.log.plan[item].Exec? && s.log.plan[item].request < |c.stream|
  }

  ghost predicate Enabled(c: Config, s: State, step: Step) {
    match step
    case Dispatch(order, chosen) =>
      && s.todo == [] && |s.log.slot| < |c.stream| && c.workers > 0
      && var ps := Owners(s.log, c.stream[|s.log.slot|]);
      Visits(order, ps) && chosen in ps
    case Remap(mapping, order) =>
      && s.todo == [] && s.mayRemap
      && (forall k :: k in mapping ==> mapping[k] < c.workers)
      && Visits(order, Everyone(c.workers))
    case PushOne =>
      && s.todo != [] && s.todo[0].worker < |s.workers|
      && (c.capacity == 0 || |s.workers[s.todo[0].worker].queue| < c.capacity)
    case Pop(w) =>
      w < |s.workers| && s.workers[w].status.Idle? && s.workers[w].queue != []
    case Start(w) =>
      w < |s.workers| && s.workers[w].status.Holding? && IsRequest(c, s, s.workers[w].status.item)
    case Touch(w) =>
      && w < |s.workers| && s.workers[w].status.Running? && IsRequest(c, s, s.workers[w].status.item)
      && CanRead(Target(c, s, s.workers[w].status.item), s.store)
      && !Complete(Target(c, s, s.workers[w].status.item), s.workers[w].status.got)
    case Finish(w) =>
      && w < |s.workers| && s.workers[w].status.Running? && IsRequest(c, s, s.workers[w].status.item)
      && Complete(Target(c, s, s.workers[w].status.item), s.workers[w].status.got)
    case Arrive(w) =>
      && w < |s.workers| && s.workers[w].status.Holding? && s.workers[w].status.item < |s.log.plan|
      && s.log.plan[s.workers[w].status.item].Barrier? && s.workers[w].status.item in s.gates
    case Leave(w) =>
      && w < |s.workers| && s.workers[w].status.Waiting? && s.workers[w].status.item in s.gates
      && s.gates[s.workers[w].status.item].arrived == s.gates[s.workers[w].status.item].size
  }

  function Update(s: State, w: nat, k: Worker): State
    requires w < |s.workers|
  {
    s.(workers := s.workers[w := k])
  }

  function Apply(c: Config, s: State, step: Step): State
    requires Enabled(c, s, step)
  {
    match step
    case Dispatch(order, chosen) =>
      var r := c.stream[|s.log.slot|];
      var ps := Owners(s.log, r);
      var at := |s.log.plan|;
      s.(log := Dispatched(s.log, c.workers, r, chosen), todo := Pushes(ps, order, chosen, at),
         gates := Opened(s.gates, ps, at), mayRemap := true)
    case Remap(mapping, order) =>
      var at := |s.log.plan|;
      s.(log := Remapped(s.log, c.workers, mapping), todo := Spread(order, at),
         gates := s.gates[at := Gate(c.workers, 0, 0)], mayRemap := false)
    case PushOne =>
      var p := s.todo[0];
      var k := s.workers[p.worker];
      Update(s, p.worker, k.(queue := k.queue + [p.item])).(todo := s.todo[1..])
    case Pop(w) =>
      var k := s.workers[w];
      Update(s, w, k.(queue := k.queue[1..], status := Holding(k.queue[0])))
    case Start(w) =>
      var k := s.workers[w];
      Update(s, w, k.(status := Running(k.status.item, [])))
    case Touch(w) =>
      var k := s.workers[w];
      var r := Target(c, s, k.status.item);
      Update(s, w, k.(status := Running(k.status.item, k.status.got + [Output(r, s.store, |k.status.got|)])))
        .(store := Touched(c, r, s.store))
    case Finish(w) =>
      // A Read that missed its key is answered with nothing and counted; in the source it ends the process.
      var k := s.workers[w];
      Update(s, w, k.(status := Idle, done := k.done + [k.status.item], executed := k.executed + 1))
        .(answers := s.answers[s.log.plan[k.status.item].request := k.status.got])
    case Arrive(w) =>
      var k := s.workers[w];
      var g := s.gates[k.status.item];
      Update(s, w, k.(status := Waiting(k.status.item)))
        .(gates := s.gates[k.status.item := g.(arrived := g.arrived + 1)])
    case Leave(w) =>
      // The worker that leaves last stands for the one that destroys the barrier.
      var k := s.workers[w];
      var g := s.gates[k.status.item];
      Update(s, w, k.(status := Idle, done := k.done + [k.status.item]))
        .(gates := if g.left + 1 >= g.size then s.gates - {k.status.item}
                   else s.gates[k.status.item := g.(left := g.left + 1)])
  }

  ghost predicate Next(c: Config, s: State, step: Step, s': State) {
    Enabled(c, s, step) && s' == Apply(c, s, step)
  }

  /** `steps` is an execution from the initial state that ends in `s`. */
  ghost predicate Run(c: Config, steps: seq<Step>, s: State) {
    exists states: seq<State> :: Passes(c, steps, states) && states[|steps|] == s
  }

  /** The states an execution goes through. */
  ghost predicate Passes(c: Config, steps: seq<Step>, states: seq<State>) {
    && |states| == |steps| + 1 && states[0] == Initial(c)
    && forall i :: 0 <= i < |steps| ==> Next(c, states[i], steps[i], states[i + 1])
  }

  lemma NothingTaken(c: Config)
    ensures Run(c, [], Initial(c))
  {
    assert Passes(c, [], [Initial(c)]);
  }

  /** An execution goes on with any step that is possible. */
  lemma Taken(c: Config, steps: seq<Step>, s: State, step: Step) returns (steps': seq<Step>, s': State)
    requires Run(c, steps, s) && Enabled(c, s, step)
    ensures steps' == steps + [step] && Run(c, steps', s') && s' == Apply(c, s, step)
  {
    hide Enabled, Apply, Initial;
    steps', s' := steps + [step], Apply(c, s, step);
    var states :| Passes(c, steps, states) && states[|steps|] == s;
    var longer := states + [s'];
    forall i | 0 <= i < |steps'| ensures Next(c, longer[i], steps'[i], longer[i + 1]) {
      if i < |steps| {
        assert Next(c, states[i], steps[i], states[i + 1]);
      }
    }
    assert Passes(c, steps', longer);
  }

  lemma LastStep(c: Config, steps: seq<Step>, s: State) returns (before: State)
    requires Run(c, steps, s) && steps != []
    ensures Run(c, steps[..|steps| - 1], before) && Next(c, before, steps[|steps| - 1], s)
  {
    hide Next;
    var n := |steps| - 1;
    var states :| Passes(c, steps, states) && states[|steps|] == s;
    before := states[n];
    assert Next(c, states[n], steps[n], states[n + 1]);
    assert Passes(c, steps[..n], states[..n + 1]);
  }

  /** Nothing is left to do: the stream is dispatched, every queue is empty, every worker is idle. */
  predicate Quiescent(c: Config, s: State) {
    && |s.log.slot| == |c.stream| && s.todo == []
    && forall w :: 0 <= w < |s.workers| ==> s.workers[w].status.Idle? && s.workers[w].queue == []
  }
}
