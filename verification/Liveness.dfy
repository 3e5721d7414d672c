/** The machine never gets stuck with work left, always terminates, and loses nothing. */
module Liveness {
  import opened Requests
  import opened Plan
  import opened Machine
  import opened Invariant

  // ---- no deadlock ----

  lemma {:induction false} OrderExists(ps: set<nat>) returns (order: seq<nat>)
    ensures Visits(order, ps)
  {
    if ps == {} {
      order := [];
    } else {
      var p :| p in ps;
      var rest := OrderExists(ps - {p});
      order := [p] + rest;
    }
  }

  /** A barrier that some member has not left yet has not been freed. */
  lemma GateAlive(c: Config, s: State, w: nat, b: nat)
    requires Inv(c, s) && w < c.workers && b < |s.log.plan| && s.log.plan[b].Barrier?
    requires w in Members(s.log.plan[b]) && b !in s.workers[w].done
    ensures b in s.gates
  {
    assert GateOk(s, b);
    assert w !in Passed(s, b);
  }

  /** No worker holds or waits at a barrier that has been freed. */
  lemma HeldGateAlive(c: Config, s: State, w: nat)
    requires Inv(c, s) && w < c.workers && !s.workers[w].status.Idle?
    ensures var i := s.workers[w].status.item;
            i < |s.log.plan| && (s.log.plan[i].Barrier? ==> i in s.gates)
  {
    HeldFacts(c, s, w);
    if s.log.plan[s.workers[w].status.item].Barrier? {
      GateAlive(c, s, w, s.workers[w].status.item);
    }
  }

  /** A worker that holds a message or executes one can always go on. */
  lemma BusyMoves(c: Config, s: State, w: nat) returns (step: Step)
    requires Inv(c, s) && w < c.workers && (s.workers[w].status.Holding? || s.workers[w].status.Running?)
    ensures Enabled(c, s, step)
  {
    HeldGateAlive(c, s, w);
    var i := s.workers[w].status.item;
    if s.workers[w].status.Running? {
      if Complete(Target(c, s, i), s.workers[w].status.got) {
        step := Finish(w);
      } else {
        step := Touch(w);
      }
    } else if s.log.plan[i].Exec? {
      step := Start(w);
    } else {
      step := Arrive(w);
    }
  }

  /** Worker `w` has nothing it could do on its own. */
  predicate Parked(s: State, w: nat)
    requires w < |s.workers|
  {
    var k := s.workers[w];
    || (k.status.Idle? && k.queue == [])
    || (k.status.Waiting? && !(k.status.item in s.gates && s.gates[k.status.item].arrived == s.gates[k.status.item].size))
  }

  lemma WorkerMoves(c: Config, s: State, w: nat) returns (step: Step)
    requires Inv(c, s) && w < c.workers && !Parked(s, w)
    ensures Enabled(c, s, step)
  {
    match s.workers[w].status
    case Idle => step := Pop(w);
    case Waiting(_) => step := Leave(w);
    case _ => step := BusyMoves(c, s, w);
  }

  lemma SchedulerMoves(c: Config, s: State) returns (step: Step)
    requires Valid(c) && Inv(c, s) && s.todo == [] && |s.log.slot| < |c.stream|
    ensures step.Dispatch? && Enabled(c, s, step)
  {
    var r := c.stream[|s.log.slot|];
    assert Submittable(r);
    OwnersInRange(s.log, c.workers, r);
    var chosen :| chosen in Owners(s.log, r);
    var order := OrderExists(Owners(s.log, r));
    step := Dispatch(order, chosen);
  }

  /** Among the waiting workers there is one at the earliest barrier. */
  lemma {:induction false} EarliestWaiter(s: State, n: nat) returns (w: nat)
    requires n <= |s.workers| && exists v :: 0 <= v < n && s.workers[v].status.Waiting?
    ensures w < n && s.workers[w].status.Waiting?
    ensures forall v :: 0 <= v < n && s.workers[v].status.Waiting? ==> s.workers[w].status.item <= s.workers[v].status.item
  {
    if exists v :: 0 <= v < n - 1 && s.workers[v].status.Waiting? {
      w := EarliestWaiter(s, n - 1);
      if s.workers[n - 1].status.Waiting? && s.workers[n - 1].status.item < s.workers[w].status.item {
        w := n - 1;
      }
    } else {
      w := n - 1;
    }
  }

  /** The earliest awaited barrier misses a member whose copy is not even queued. */
  lemma CopyNotPushed(c: Config, s: State, w: nat) returns (v: nat)
    requires Inv(c, s) && w < c.workers && s.workers[w].status.Waiting?
    requires forall u :: 0 <= u < c.workers ==> Parked(s, u)
    requires forall u :: 0 <= u < c.workers && s.workers[u].status.Waiting? ==>
               s.workers[w].status.item <= s.workers[u].status.item
    ensures v < c.workers && s.workers[w].status.item in TodoOf(s.todo, v)
  {
    var b := s.workers[w].status.item;
    v := SomeoneMissing(c, s, w);
    assert Parked(s, v);
    NotQueuedBehind(c, s, v, b);
    LineHas(c, s, v, b);
  }

  /** A worker parked at a barrier that is not complete waits for some member to arrive. */
  lemma SomeoneMissing(c: Config, s: State, w: nat) returns (v: nat)
    requires Inv(c, s) && w < c.workers && s.workers[w].status.Waiting? && Parked(s, w)
    ensures var b := s.workers[w].status.item;
            && v < c.workers && b < |s.log.plan| && v in Members(s.log.plan[b])
            && b !in s.workers[v].done && s.workers[v].status != Waiting(b)
  {
    var b := s.workers[w].status.item;
    HeldGateAlive(c, s, w);
    assert GateOk(s, b);
    assert Come(s, b) != Members(s.log.plan[b]) && Come(s, b) <= Members(s.log.plan[b]);
    v :| v in Members(s.log.plan[b]) && v !in Come(s, b);
  }

  /** No barrier earlier than the one a worker waits at is still in its queue or in its hand. */
  lemma NotQueuedBehind(c: Config, s: State, v: nat, b: nat)
    requires Inv(c, s) && v < c.workers && Parked(s, v) && s.workers[v].status != Waiting(b)
    requires s.workers[v].status.Waiting? ==> b <= s.workers[v].status.item
    ensures b !in s.workers[v].queue && b !in Held(s.workers[v].status)
  {
    LineAscends(c, s, v);
    if s.workers[v].status.Waiting? {
      assert s.workers[v].status.item in Held(s.workers[v].status);
    }
  }

  lemma {:induction false} TodoOfIn(todo: seq<Push>, w: nat, i: nat)
    requires i in TodoOf(todo, w)
    ensures exists k :: 0 <= k < |todo| && todo[k] == Push(w, i)
  {
    if todo[0] == Push(w, i) {
    } else {
      TodoOfIn(todo[1..], w, i);
      var k :| 0 <= k < |todo[1..]| && todo[1..][k] == Push(w, i);
      assert todo[k + 1] == Push(w, i);
    }
  }

  /** A worker that waits while a push to it is pending waits at an earlier barrier. */
  lemma WaitsEarlier(c: Config, s: State)
    requires Inv(c, s) && s.todo != [] && s.workers[s.todo[0].worker].status.Waiting?
    ensures s.workers[s.todo[0].worker].status.item < s.todo[0].item
  {
    var h := s.todo[0];
    LineAscends(c, s, h.worker);
    assert h.item in TodoOf(s.todo, h.worker);
    assert s.workers[h.worker].status.item in Held(s.workers[h.worker].status);
  }

  /** A pending copy of a message stands behind the push that comes first. */
  lemma HeadFirst(c: Config, s: State, v: nat, b: nat)
    requires Inv(c, s) && b in TodoOf(s.todo, v)
    ensures s.todo != [] && s.todo[0].item <= b
  {
    TodoOfIn(s.todo, v, b);
  }

  /** When all workers are parked, the scheduling thread can push: the earliest awaited barrier waits
      for a copy the scheduling thread still has to push, and everything it pushes before that copy
      goes to workers that wait at no earlier barrier. */
  lemma PushMoves(c: Config, s: State)
    requires Valid(c) && Inv(c, s) && s.todo != []
    requires forall u :: 0 <= u < c.workers ==> Parked(s, u)
    ensures Enabled(c, s, PushOne)
  {
    var h := s.todo[0].worker;
    if s.workers[h].queue != [] {
      assert Parked(s, h);
      WaitsEarlier(c, s);
      var w := EarliestWaiter(s, c.workers);
      var v := CopyNotPushed(c, s, w);
      HeadFirst(c, s, v, s.workers[w].status.item);
      assert false;
    }
  }

  /** In every state with work left some step is possible, whatever the queue capacity. */
  lemma NeverStuck(c: Config, s: State) returns (step: Step)
    requires Valid(c) && Inv(c, s) && !Quiescent(c, s)
    ensures Enabled(c, s, step)
  {
    if w :| 0 <= w < c.workers && !Parked(s, w) {
      step := WorkerMoves(c, s, w);
    } else if s.todo != [] {
      PushMoves(c, s);
      step := PushOne;
    } else if |s.log.slot| < |c.stream| {
      step := SchedulerMoves(c, s);
    } else {
      var u :| 0 <= u < c.workers && !(s.workers[u].status.Idle? && s.workers[u].queue == []);
      assert Parked(s, u);
      var w := EarliestWaiter(s, c.workers);
      var v := CopyNotPushed(c, s, w);
      assert false;
    }
  }

  lemma QuiescentIsFinal(c: Config, s: State, step: Step)
    requires Valid(c) && Inv(c, s) && Quiescent(c, s) && !s.mayRemap
    ensures !Enabled(c, s, step)
  {
  }

  /** Deadlock freedom over all executions: a state is final exactly when all the work is done and no
      remapping is pending. */
  lemma DeadlockFree(c: Config, steps: seq<Step>, s: State)
    requires Valid(c) && Run(c, steps, s)
    ensures (forall step :: !Enabled(c, s, step)) <==> Quiescent(c, s) && !s.mayRemap
  {
    RunInv(c, steps, s);
    if !Quiescent(c, s) {
      var step := NeverStuck(c, s);
    } else if s.mayRemap {
      var order := OrderExists(Everyone(c.workers));
      assert Enabled(c, s, Remap(map[], order));
    } else {
      forall step ensures !Enabled(c, s, step) {
        QuiescentIsFinal(c, s, step);
      }
    }
  }

  // ---- termination ----

  function Max0(x: int): nat {
    if x < 0 then 0 else x
  }

  /** Steps a worker needs for one message in hand. */
  function Cost(c: Config, plan: seq<Item>, i: nat): nat {
    if i < |plan| && plan[i].Exec? && plan[i].request < |c.stream|
    then Max0(Range(c.stream[plan[i].request])) + 2 else 2
  }

  function QueueCost(c: Config, plan: seq<Item>, q: seq<nat>): nat {
    if q == [] then 0 else Cost(c, plan, q[0]) + 1 + QueueCost(c, plan, q[1..])
  }

  function TodoCost(c: Config, plan: seq<Item>, todo: seq<Push>): nat {
    if todo == [] then 0 else Cost(c, plan, todo[0].item) + 2 + TodoCost(c, plan, todo[1..])
  }

  function StatusCost(c: Config, plan: seq<Item>, status: Status): nat {
    match status
    case Idle => 0
    case Holding(i) => Cost(c, plan, i)
    case Running(i, got) => Max0(Cost(c, plan, i) - 2 - |got|) + 1
    case Waiting(_) => 1
  }

  function WorkerCost(c: Config, plan: seq<Item>, k: Worker): nat {
    StatusCost(c, plan, k.status) + QueueCost(c, plan, k.queue)
  }

  function WorkersCost(c: Config, plan: seq<Item>, ks: seq<Worker>): nat {
    if ks == [] then 0 else WorkersCost(c, plan, ks[..|ks| - 1]) + WorkerCost(c, plan, ks[|ks| - 1])
  }

  function RemapCost(c: Config): nat {
    4 * c.workers + 1
  }

  /** Steps that dispatching and executing one request can take, with the remapping it may trigger. */
  function RequestCost(c: Config, r: Request): nat {
    1 + 8 * c.workers + Max0(Range(r)) + 4 + RemapCost(c)
  }

  function StreamCost(c: Config, from: nat): nat
    decreases |c.stream| - from
  {
    if from >= |c.stream| then 0 else RequestCost(c, c.stream[from]) + StreamCost(c, from + 1)
  }

  function Measure(c: Config, s: State): nat {
    StreamCost(c, |s.log.slot|) + (if s.mayRemap then RemapCost(c) else 0)
      + TodoCost(c, s.log.plan, s.todo) + WorkersCost(c, s.log.plan, s.workers)
  }

  lemma {:induction false} WorkersCostUpdate(c: Config, plan: seq<Item>, ks: seq<Worker>, w: nat, k: Worker)
    requires w < |ks|
    ensures WorkersCost(c, plan, ks[w := k])
         == WorkersCost(c, plan, ks) - WorkerCost(c, plan, ks[w]) + WorkerCost(c, plan, k)
  {
    var n := |ks| - 1;
    if w == n {
      assert ks[w := k][..n] == ks[..n];
    } else {
      assert ks[w := k][..n] == ks[..n][w := k];
      WorkersCostUpdate(c, plan, ks[..n], w, k);
    }
  }

  lemma {:induction false} QueueCostGrows(c: Config, plan: seq<Item>, q: seq<nat>, i: nat)
    ensures QueueCost(c, plan, q + [i]) == QueueCost(c, plan, q) + Cost(c, plan, i) + 1
  {
    if q == [] {
      assert q + [i] == [i];
    } else {
      assert (q + [i])[1..] == q[1..] + [i];
      QueueCostGrows(c, plan, q[1..], i);
    }
  }

  lemma {:induction false} QueueCostAppend(c: Config, plan: seq<Item>, more: seq<Item>, q: seq<nat>)
    requires forall i :: i in q ==> i < |plan|
    ensures QueueCost(c, plan + more, q) == QueueCost(c, plan, q)
  {
    if q != [] {
      assert q[0] in q && forall i :: i in q[1..] ==> i in q;
      QueueCostAppend(c, plan, more, q[1..]);
    }
  }

  /** Appending to the log does not change what the messages already created cost. */
  lemma {:induction false} WorkersCostAppend(c: Config, plan: seq<Item>, more: seq<Item>, ks: seq<Worker>)
    requires forall w, i :: 0 <= w < |ks| && (i in ks[w].queue || i in Held(ks[w].status)) ==> i < |plan|
    ensures WorkersCost(c, plan + more, ks) == WorkersCost(c, plan, ks)
  {
    if ks != [] {
      var k := ks[|ks| - 1];
      WorkersCostAppend(c, plan, more, ks[..|ks| - 1]);
      QueueCostAppend(c, plan, more, k.queue);
      assert !k.status.Idle? ==> k.status.item in Held(k.status);
    }
  }

  lemma {:induction false} TodoCostSum(c: Config, plan: seq<Item>, a: seq<Push>, b: seq<Push>)
    ensures TodoCost(c, plan, a + b) == TodoCost(c, plan, a) + TodoCost(c, plan, b)
  {
    if a == [] {
      assert a + b == b;
    } else {
      assert (a + b)[1..] == a[1..] + b;
      TodoCostSum(c, plan, a[1..], b);
    }
  }

  lemma {:induction false} SpreadCost(c: Config, plan: seq<Item>, order: seq<nat>, at: nat)
    requires at < |plan| && plan[at].Barrier?
    ensures TodoCost(c, plan, Spread(order, at)) == 4 * |order|
  {
    if order != [] {
      assert Spread(order, at)[1..] == Spread(order[1..], at);
      SpreadCost(c, plan, order[1..], at);
    }
  }

  lemma {:induction false} VisitsSize(order: seq<nat>, ps: set<nat>)
    requires Visits(order, ps)
    ensures |order| == |ps|
  {
    if order == [] {
      assert ps == {};
    } else {
      var rest := order[1..];
      assert forall p :: p in rest <==> p in ps - {order[0]} by {
        forall p ensures p in rest <==> p in ps - {order[0]} {
          if p in rest {
            var i :| 0 <= i < |rest| && rest[i] == p;
            assert order[i + 1] == p;
          }
          if p in ps - {order[0]} {
            assert p in order;
          }
        }
      }
      VisitsSize(rest, ps - {order[0]});
    }
  }

  lemma PushesCost(c: Config, plan: seq<Item>, ps: set<nat>, order: seq<nat>, r: nat, chosen: nat)
    requires Visits(order, ps) && r < |c.stream| && |ps| <= c.workers && chosen in ps
    ensures TodoCost(c, plan + Items(ps, r, chosen), Pushes(ps, order, chosen, |plan|))
              <= 8 * c.workers + Max0(Range(c.stream[r])) + 4
  {
    var plan', at := plan + Items(ps, r, chosen), |plan|;
    if |ps| > 1 {
      assert plan'[at] == plan'[at + 2] == Barrier(ps) && plan'[at + 1] == Exec(r, chosen);
      VisitsSize(order, ps);
      SpreadCost(c, plan', order, at);
      SpreadCost(c, plan', order, at + 2);
      TodoCostSum(c, plan', Spread(order, at) + [Push(chosen, at + 1)], Spread(order, at + 2));
      TodoCostSum(c, plan', Spread(order, at), [Push(chosen, at + 1)]);
    } else {
      assert plan'[at] == Exec(r, chosen);
    }
  }

  lemma OldItems(c: Config, s: State)
    requires Fifo(c, s)
    ensures forall w, i :: 0 <= w < |s.workers| && (i in s.workers[w].queue || i in Held(s.workers[w].status)) ==>
              i < |s.log.plan|
  {
    forall w, i | 0 <= w < |s.workers| && (i in s.workers[w].queue || i in Held(s.workers[w].status))
      ensures i < |s.log.plan|
    {
      LineHas(c, s, w, i);
    }
  }

  lemma DispatchCosts(c: Config, s: State, order: seq<nat>, chosen: nat)
    requires Valid(c) && Inv(c, s) && Enabled(c, s, Dispatch(order, chosen))
    ensures Measure(c, Apply(c, s, Dispatch(order, chosen))) < Measure(c, s)
  {
    hide Fifo, GatesOk, Records;
    var r := c.stream[|s.log.slot|];
    var ps := Owners(s.log, r);
    OwnersInRange(s.log, c.workers, r);
    SubsetSize(ps, Everyone(c.workers));
    PushesCost(c, s.log.plan, ps, order, |s.log.slot|, chosen);
    OldItems(c, s);
    WorkersCostAppend(c, s.log.plan, Items(ps, |s.log.slot|, chosen), s.workers);
  }

  lemma RemapCosts(c: Config, s: State, mapping: map<int, nat>, order: seq<nat>)
    requires Valid(c) && Inv(c, s) && Enabled(c, s, Remap(mapping, order))
    ensures Measure(c, Apply(c, s, Remap(mapping, order))) < Measure(c, s)
  {
    hide Sound, Fifo, GatesOk, Records;
    var items := [Barrier(Everyone(c.workers))];
    VisitsSize(order, Everyone(c.workers));
    SpreadCost(c, s.log.plan + items, order, |s.log.plan|);
    OldItems(c, s);
    WorkersCostAppend(c, s.log.plan, items, s.workers);
  }

  lemma WorkerCosts(c: Config, s: State, step: Step)
    requires Inv(c, s) && Enabled(c, s, step) && !step.Dispatch? && !step.Remap? && !step.PushOne?
    ensures Measure(c, Apply(c, s, step)) < Measure(c, s)
  {
    hide Sound, Fifo, GatesOk, Records;
    var s' := Apply(c, s, step);
    WorkersCostUpdate(c, s.log.plan, s.workers, step.worker, s'.workers[step.worker]);
  }

  lemma PushCosts(c: Config, s: State)
    requires Inv(c, s) && Enabled(c, s, PushOne)
    ensures Measure(c, Apply(c, s, PushOne)) < Measure(c, s)
  {
    var p := s.todo[0];
    QueueCostGrows(c, s.log.plan, s.workers[p.worker].queue, p.item);
    WorkersCostUpdate(c, s.log.plan, s.workers, p.worker, Apply(c, s, PushOne).workers[p.worker]);
  }

  /** Every step decreases the measure. */
  lemma StepDecreases(c: Config, s: State, step: Step)
    requires Valid(c) && Inv(c, s) && Enabled(c, s, step)
    ensures Measure(c, Apply(c, s, step)) < Measure(c, s)
  {
    match step
    case Dispatch(order, chosen) => DispatchCosts(c, s, order, chosen);
    case Remap(mapping, order) => RemapCosts(c, s, mapping, order);
    case PushOne => PushCosts(c, s);
    case _ => WorkerCosts(c, s, step);
  }

  /** Termination with a bound read off the configuration: no execution of a finite stream, remappings
      included, takes more steps than this. */
  lemma {:induction false} Terminates(c: Config, steps: seq<Step>, s: State)
    requires Valid(c) && Run(c, steps, s)
    ensures |steps| + Measure(c, s) <= StreamCost(c, 0)
  {
    if steps == [] {
      NothingToDo(c, c.workers);
    } else {
      var n := |steps| - 1;
      var before := LastStep(c, steps, s);
      RunInv(c, steps[..n], before);
      Terminates(c, steps[..n], before);
      StepDecreases(c, before, steps[n]);
    }
  }

  lemma {:induction false} NothingToDo(c: Config, n: nat)
    ensures WorkersCost(c, [], seq(n, w => Worker([], Idle, [], 0))) == 0
  {
    if n > 0 {
      assert seq(n, w => Worker([], Idle, [], 0))[..n - 1] == seq(n - 1, w => Worker([], Idle, [], 0));
      NothingToDo(c, n - 1);
    }
  }

  // ---- conservation ----

  /** A barrier that was freed never comes back, and is freed only when all its members have arrived
      and all have left. */
  lemma FreedOnce(c: Config, steps: seq<Step>, s: State, step: Step, b: nat)
    requires Valid(c) && Run(c, steps, s) && Enabled(c, s, step) && b < |s.log.plan| && s.log.plan[b].Barrier?
    ensures b !in s.gates ==> b !in Apply(c, s, step).gates
    ensures b in s.gates && b !in Apply(c, s, step).gates ==>
              && s.gates[b].size == s.gates[b].arrived == |Members(s.log.plan[b])|
              && s.gates[b].left + 1 == s.gates[b].size
  {
    RunInv(c, steps, s);
    assert GateOk(s, b);
    GateDomain(c, s, step, b);
  }

  lemma GateDomain(c: Config, s: State, step: Step, b: nat)
    requires Enabled(c, s, step) && b < |s.log.plan|
    ensures b in Apply(c, s, step).gates ==> b in s.gates
    ensures b in s.gates && b !in Apply(c, s, step).gates ==>
              && step.Leave? && s.workers[step.worker].status == Waiting(b)
              && s.gates[b].arrived == s.gates[b].size <= s.gates[b].left + 1
  {
  }

  lemma AllProcessed(c: Config, s: State, w: nat)
    requires Inv(c, s) && Quiescent(c, s) && w < c.workers
    ensures s.workers[w].done == Script(s.log.plan, w)
  {
    assert Line(s, w) == s.workers[w].done;
  }

  lemma EveryonePassed(c: Config, s: State, b: nat)
    requires Inv(c, s) && Quiescent(c, s) && b < |s.log.plan|
    ensures Passed(s, b) == Members(s.log.plan[b])
  {
    forall w | w in Members(s.log.plan[b]) ensures w in Passed(s, b) {
      AllProcessed(c, s, w);
      ScriptHas(s.log.plan, w, b);
    }
  }

  lemma AllFreed(c: Config, s: State, b: nat)
    requires Inv(c, s) && Quiescent(c, s)
    ensures b !in s.gates
  {
    if b in s.gates {
      EveryonePassed(c, s, b);
      assert false;
    }
  }

  /** When all is done, every worker has processed exactly its part of the log, in order, every barrier
      has been freed, and the executed counters add up to the length of the stream. */
  lemma NothingLost(c: Config, steps: seq<Step>, s: State)
    requires Valid(c) && Run(c, steps, s) && Quiescent(c, s)
    ensures |s.workers| == c.workers && forall w :: 0 <= w < c.workers ==> s.workers[w].done == Script(s.log.plan, w)
    ensures s.gates == map[]
    ensures Total(s.workers) == |c.stream|
  {
    RunInv(c, steps, s);
    forall w | 0 <= w < c.workers ensures s.workers[w].done == Script(s.log.plan, w) {
      AllProcessed(c, s, w);
    }
    forall b: nat ensures b !in s.gates {
      AllFreed(c, s, b);
    }
    forall r: nat ensures r in s.answers <==> r in Everyone(|c.stream|) {
      if r < |c.stream| {
        AllAnswered(c, s, r);
      }
    }
    assert s.answers.Keys == Everyone(|c.stream|);
  }

  lemma AllAnswered(c: Config, s: State, r: nat)
    requires Inv(c, s) && Quiescent(c, s) && r < |c.stream|
    ensures r in s.answers
  {
    var i := s.log.slot[r];
    var w := s.log.plan[i].worker;
    assert w in Members(s.log.plan[i]);
    LineHas(c, s, w, i);
  }
}
