/** What every step of the machine keeps. */
module Invariant {
  import opened Requests
  import opened Plan
  import opened Machine
  import opened Sorted

  // ---- first in, first out ----

  function Held(status: Status): seq<nat> {
    if status.Idle? then [] else [status.item]
  }

  function TodoOf(todo: seq<Push>, w: nat): seq<nat> {
    if todo == [] then [] else
      (if todo[0].worker == w then [todo[0].item] else []) + TodoOf(todo[1..], w)
  }

  /** The positions of the log's messages for worker `w`, in order. */
  function Script(plan: seq<Item>, w: nat): seq<nat> {
    if plan == [] then [] else
      var n := |plan| - 1;
      Script(plan[..n], w) + (if w in Members(plan[n]) then [n] else [])
  }

  /** Finished, in hand, queued and still to be pushed, in that order. */
  function Line(s: State, w: nat): seq<nat>
    requires w < |s.workers|
  {
    s.workers[w].done + Held(s.workers[w].status) + s.workers[w].queue + TodoOf(s.todo, w)
  }

  /** No message is lost, duplicated or reordered on its way to a worker. */
  ghost predicate Fifo(c: Config, s: State) {
    && |s.workers| == c.workers
    && (forall i :: 0 <= i < |s.todo| ==> s.todo[i].worker < c.workers)
    && (forall w :: 0 <= w < c.workers ==> Line(s, w) == Script(s.log.plan, w))
  }

  // ---- barriers ----

  ghost function Passed(s: State, b: nat): set<nat>
    requires b < |s.log.plan|
  {
    set w | w in Members(s.log.plan[b]) && w < |s.workers| && b in s.workers[w].done
  }

  ghost function Come(s: State, b: nat): set<nat>
    requires b < |s.log.plan|
  {
    set w | w in Members(s.log.plan[b]) && w < |s.workers|
            && (b in s.workers[w].done || s.workers[w].status == Waiting(b))
  }

  /** The counters of a live barrier count its arrivals and departures; nobody leaves before everybody
      arrived; a barrier is gone exactly when everybody left. */
  ghost predicate GateOk(s: State, b: nat)
    requires b < |s.log.plan|
  {
    var ws := Members(s.log.plan[b]);
    if b in s.gates then
      && s.gates[b] == Gate(|ws|, |Come(s, b)|, |Passed(s, b)|)
      && |Passed(s, b)| < |ws|
      && (Passed(s, b) != {} ==> Come(s, b) == ws)
    else Passed(s, b) == ws
  }

  ghost predicate GatesOk(s: State) {
    && (forall b :: b in s.gates ==> b < |s.log.plan| && s.log.plan[b].Barrier?)
    && (forall b :: 0 <= b < |s.log.plan| && s.log.plan[b].Barrier? ==> GateOk(s, b))
  }

  // ---- requests ----

  function Total(workers: seq<Worker>): nat {
    if workers == [] then 0 else Total(workers[..|workers| - 1]) + workers[|workers| - 1].executed
  }

  /** A worker that executes is busy with a request and has made no more accesses than it has keys. */
  predicate Executing(c: Config, s: State, status: Status)
    requires status.Running?
  {
    IsRequest(c, s, status.item) && |status.got| <= Range(Target(c, s, status.item))
  }

  /** A worker only runs requests and only waits at barriers; a request is answered exactly when its
      worker has finished it, and the executed counters add up to the number of answers. */
  ghost predicate Records(c: Config, s: State)
    requires |s.workers| == c.workers
  {
    && (forall w :: 0 <= w < c.workers && s.workers[w].status.Running? ==> Executing(c, s, s.workers[w].status))
    && (forall w :: 0 <= w < c.workers && s.workers[w].status.Waiting? ==>
          s.workers[w].status.item < |s.log.plan| && s.log.plan[s.workers[w].status.item].Barrier?)
    && (forall r :: r in s.answers ==> r < |s.log.slot|)
    && (forall i :: 0 <= i < |s.log.plan| && s.log.plan[i].Exec? && s.log.plan[i].worker < c.workers ==>
          (s.log.plan[i].request in s.answers <==> i in s.workers[s.log.plan[i].worker].done))
    && Total(s.workers) == |s.answers|
  }

  /** What is still to be pushed stands in program order. */
  ghost predicate InProgramOrder(todo: seq<Push>) {
    forall i, j :: 0 <= i < j < |todo| ==> todo[i].item <= todo[j].item
  }

  /** Once a key is populated the store is never empty again. */
  ghost predicate Stocked(c: Config, s: State) {
    forall r :: 0 <= r < |c.stream| ==> CanRead(c.stream[r], s.store)
  }

  ghost predicate Inv(c: Config, s: State) {
    && Sound(c.stream, c.workers, s.log)
    && Fifo(c, s)
    && InProgramOrder(s.todo)
    && GatesOk(s)
    && Records(c, s)
    && Stocked(c, s)
  }

  // ---- facts about scripts ----

  lemma ScriptAppend(plan: seq<Item>, it: Item, w: nat)
    ensures Script(plan + [it], w) == Script(plan, w) + (if w in Members(it) then [|plan|] else [])
  {
    assert (plan + [it])[..|plan|] == plan;
  }

  lemma {:induction false} ScriptHas(plan: seq<Item>, w: nat, i: nat)
    ensures i in Script(plan, w) <==> i < |plan| && w in Members(plan[i])
  {
    if plan == [] {
    } else {
      var n := |plan| - 1;
      ScriptHas(plan[..n], w, i);
      ScriptAppend(plan[..n], plan[n], w);
      assert plan[..n] + [plan[n]] == plan;
    }
  }

  lemma {:induction false} ScriptAscends(plan: seq<Item>, w: nat)
    ensures Ascending(Script(plan, w))
  {
    if plan == [] {
    } else {
      var n := |plan| - 1;
      var before := Script(plan[..n], w);
      ScriptAscends(plan[..n], w);
      forall k | 0 <= k < |before| ensures before[k] < n {
        assert before[k] in before;
        ScriptHas(plan[..n], w, before[k]);
      }
    }
  }

  lemma Concat(x: seq<nat>, y: seq<nat>, z: seq<nat>)
    ensures x + y + z == x + (y + z)
  {
  }

  lemma {:induction false} TodoAppend(a: seq<Push>, b: seq<Push>, w: nat)
    ensures TodoOf(a + b, w) == TodoOf(a, w) + TodoOf(b, w)
  {
    if a == [] {
      assert a + b == b;
    } else {
      var first := if a[0].worker == w then [a[0].item] else [];
      assert (a + b)[1..] == a[1..] + b && (a + b)[0] == a[0];
      TodoAppend(a[1..], b, w);
      Concat(first, TodoOf(a[1..], w), TodoOf(b, w));
    }
  }

  lemma {:induction false} TodoSpread(order: seq<nat>, at: nat, w: nat)
    requires forall i, j :: 0 <= i < j < |order| ==> order[i] != order[j]
    ensures TodoOf(Spread(order, at), w) == if w in order then [at] else []
  {
    if order == [] {
    } else {
      assert Spread(order, at)[1..] == Spread(order[1..], at);
      TodoSpread(order[1..], at, w);
    }
  }

  lemma Concat3(s: seq<nat>, x: seq<nat>, y: seq<nat>, z: seq<nat>)
    ensures s + x + y + z == s + (x + y + z)
  {
  }

  lemma ScriptThree(plan: seq<Item>, a: Item, b: Item, w: nat)
    ensures Script(plan + [a] + [b] + [a], w) == Script(plan, w) +
            ((if w in Members(a) then [|plan|] else []) + (if w in Members(b) then [|plan| + 1] else []) +
             (if w in Members(a) then [|plan| + 2] else []))
  {
    var x := if w in Members(a) then [|plan|] else [];
    var y := if w in Members(b) then [|plan| + 1] else [];
    var z := if w in Members(a) then [|plan| + 2] else [];
    ScriptAppend(plan, a, w);
    ScriptAppend(plan + [a], b, w);
    ScriptAppend(plan + [a] + [b], a, w);
    Concat3(Script(plan, w), x, y, z);
  }

  lemma TodoThree(ps: set<nat>, order: seq<nat>, chosen: nat, at: nat, w: nat)
    requires Visits(order, ps) && |ps| > 1
    ensures TodoOf(Pushes(ps, order, chosen, at), w) ==
            (if w in ps then [at] else []) + (if w == chosen then [at + 1] else []) + (if w in ps then [at + 2] else [])
  {
    var mid := [Push(chosen, at + 1)];
    TodoAppend(Spread(order, at) + mid, Spread(order, at + 2), w);
    TodoAppend(Spread(order, at), mid, w);
    TodoSpread(order, at, w);
    TodoSpread(order, at + 2, w);
    assert mid[1..] == [];
  }

  /** The pushes of a dispatch are exactly the new part of every worker's script. */
  lemma PushesMatch(plan: seq<Item>, ps: set<nat>, order: seq<nat>, r: nat, chosen: nat, w: nat)
    requires Visits(order, ps) && chosen in ps
    ensures Script(plan + Items(ps, r, chosen), w) == Script(plan, w) + TodoOf(Pushes(ps, order, chosen, |plan|), w)
  {
    if |ps| > 1 {
      ScriptThree(plan, Barrier(ps), Exec(r, chosen), w);
      assert plan + Items(ps, r, chosen) == plan + [Barrier(ps)] + [Exec(r, chosen)] + [Barrier(ps)];
      TodoThree(ps, order, chosen, |plan|, w);
    } else {
      ScriptAppend(plan, Exec(r, chosen), w);
      assert [Push(chosen, |plan|)][1..] == [];
    }
  }

  lemma PushesInRange(n: nat, ps: set<nat>, order: seq<nat>, chosen: nat, at: nat)
    requires Visits(order, ps) && chosen in ps && forall p :: p in ps ==> p < n
    ensures forall i :: 0 <= i < |Pushes(ps, order, chosen, at)| ==> Pushes(ps, order, chosen, at)[i].worker < n
  {
    assert forall i :: 0 <= i < |order| ==> order[i] in ps;
  }

  // ---- Fifo is kept ----

  lemma FifoPush(c: Config, s: State)
    requires Fifo(c, s) && Enabled(c, s, PushOne)
    ensures Fifo(c, Apply(c, s, PushOne))
  {
    var s' := Apply(c, s, PushOne);
    forall w | 0 <= w < c.workers ensures Line(s', w) == Line(s, w) {
    }
  }

  lemma FifoWorker(c: Config, s: State, step: Step)
    requires Fifo(c, s) && Enabled(c, s, step) && !step.Dispatch? && !step.Remap? && !step.PushOne?
    ensures Fifo(c, Apply(c, s, step))
  {
    var s' := Apply(c, s, step);
    forall w | 0 <= w < c.workers ensures Line(s', w) == Line(s, w) {
    }
  }

  lemma FifoDispatch(c: Config, s: State, order: seq<nat>, chosen: nat)
    requires Inv(c, s) && Enabled(c, s, Dispatch(order, chosen))
    ensures Fifo(c, Apply(c, s, Dispatch(order, chosen)))
  {
    var s' := Apply(c, s, Dispatch(order, chosen));
    var r := c.stream[|s.log.slot|];
    var ps := Owners(s.log, r);
    OwnersInRange(s.log, c.workers, r);
    PushesInRange(c.workers, ps, order, chosen, |s.log.plan|);
    forall w | 0 <= w < c.workers ensures Line(s', w) == Script(s'.log.plan, w) {
      PushesMatch(s.log.plan, ps, order, |s.log.slot|, chosen, w);
    }
  }

  lemma FifoRemap(c: Config, s: State, mapping: map<int, nat>, order: seq<nat>)
    requires Inv(c, s) && Enabled(c, s, Remap(mapping, order))
    ensures Fifo(c, Apply(c, s, Remap(mapping, order)))
  {
    var s' := Apply(c, s, Remap(mapping, order));
    forall w | 0 <= w < c.workers ensures Line(s', w) == Script(s'.log.plan, w) {
      ScriptAppend(s.log.plan, Barrier(Everyone(c.workers)), w);
      TodoSpread(order, |s.log.plan|, w);
    }
    forall i | 0 <= i < |s'.todo| ensures s'.todo[i].worker < c.workers {
      assert order[i] in Everyone(c.workers);
    }
  }

  // ---- what the line of a worker says ----

  lemma LineHas(c: Config, s: State, w: nat, i: nat)
    requires Fifo(c, s) && w < c.workers
    ensures i in s.workers[w].done || i in Held(s.workers[w].status) || i in s.workers[w].queue || i in TodoOf(s.todo, w)
            <==> i < |s.log.plan| && w in Members(s.log.plan[i])
  {
    ScriptHas(s.log.plan, w, i);
    assert i in Line(s, w) <==> i in Script(s.log.plan, w);
  }

  /** In one ascending line, what stands further back is larger. */
  lemma SplitAscends(a: seq<nat>, b: seq<nat>)
    requires Ascending(a + b)
    ensures Ascending(a) && Ascending(b)
    ensures forall x, y :: x in a && y in b ==> x < y
  {
    var s := a + b;
    forall i, j | 0 <= i < j < |a| ensures a[i] < a[j] {
      assert s[i] < s[j];
    }
    forall i, j | 0 <= i < j < |b| ensures b[i] < b[j] {
      assert s[|a| + i] < s[|a| + j];
    }
    forall x, y | x in a && y in b ensures x < y {
      var i :| 0 <= i < |a| && a[i] == x;
      var j :| 0 <= j < |b| && b[j] == y;
      assert s[i] < s[|a| + j];
    }
  }

  /** Finished messages come before the one in hand, that one before the queued ones, and those before
      the ones still to be pushed. */
  lemma LineAscends(c: Config, s: State, w: nat)
    requires Fifo(c, s) && w < c.workers
    ensures var k := s.workers[w];
            && Ascending(k.done)
            && (forall x, y :: x in k.done && (y in Held(k.status) || y in k.queue || y in TodoOf(s.todo, w)) ==> x < y)
            && (forall x, y :: x in Held(k.status) && (y in k.queue || y in TodoOf(s.todo, w)) ==> x < y)
            && (forall x, y :: x in k.queue && y in TodoOf(s.todo, w) ==> x < y)
  {
    var k := s.workers[w];
    var held, todo := Held(k.status), TodoOf(s.todo, w);
    ScriptAscends(s.log.plan, w);
    assert Line(s, w) == k.done + (held + (k.queue + todo));
    SplitAscends(k.done, held + (k.queue + todo));
    SplitAscends(held, k.queue + todo);
    SplitAscends(k.queue, todo);
    assert forall y :: y in held || y in k.queue || y in todo ==> y in held + (k.queue + todo);
    assert forall y :: y in k.queue || y in todo ==> y in k.queue + todo;
  }

  /** A message a worker has finished or holds is behind it for good: every earlier one is finished. */
  lemma FifoBefore(c: Config, s: State, w: nat, i: nat, j: nat)
    requires Fifo(c, s) && w < c.workers && i < j < |s.log.plan| && w in Members(s.log.plan[i])
    requires j in s.workers[w].done || j in Held(s.workers[w].status)
    ensures i in s.workers[w].done
  {
    LineHas(c, s, w, i);
    LineAscends(c, s, w);
  }

  lemma HeldFacts(c: Config, s: State, w: nat)
    requires Fifo(c, s) && w < c.workers && !s.workers[w].status.Idle?
    ensures var i := s.workers[w].status.item;
            i < |s.log.plan| && w in Members(s.log.plan[i]) && i !in s.workers[w].done
  {
    assert s.workers[w].status.item in Held(s.workers[w].status);
    LineHas(c, s, w, s.workers[w].status.item);
    LineAscends(c, s, w);
  }

  // ---- barriers are kept ----

  /** Only worker `w` changed, to `k`. */
  ghost predicate OnlyWorker(s: State, s': State, w: nat) {
    && w < |s.workers| == |s'.workers| && s'.log == s.log
    && forall v :: 0 <= v < |s.workers| && v != w ==> s'.workers[v] == s.workers[v]
  }

  lemma GateFrame(s: State, s': State, w: nat, b: nat)
    requires OnlyWorker(s, s', w) && b < |s.log.plan| && GateOk(s, b)
    requires b in s.workers[w].done <==> b in s'.workers[w].done
    requires s.workers[w].status == Waiting(b) <==> s'.workers[w].status == Waiting(b)
    requires b in s'.gates <==> b in s.gates
    requires b in s.gates ==> s'.gates[b] == s.gates[b]
    ensures GateOk(s', b)
  {
    assert Passed(s', b) == Passed(s, b);
    assert Come(s', b) == Come(s, b);
  }

  function Mover(s: State, step: Step): nat
    requires step.PushOne? ==> s.todo != []
    requires !step.Dispatch? && !step.Remap?
  {
    if step.PushOne? then s.todo[0].worker else step.worker
  }

  lemma OnlyMoverMoves(c: Config, s: State, step: Step)
    requires Enabled(c, s, step) && !step.Dispatch? && !step.Remap?
    ensures OnlyWorker(s, Apply(c, s, step), Mover(s, step))
  {
  }

  /** Steps that touch no barrier. */
  lemma GatesQuiet(c: Config, s: State, step: Step)
    requires GatesOk(s) && Enabled(c, s, step)
    requires step.PushOne? || step.Pop? || step.Start? || step.Touch? || step.Finish?
    ensures GatesOk(Apply(c, s, step))
  {
    hide GateOk;
    var s' := Apply(c, s, step);
    OnlyMoverMoves(c, s, step);
    forall b | 0 <= b < |s.log.plan| && s.log.plan[b].Barrier? ensures GateOk(s', b) {
      GateFrame(s, s', Mover(s, step), b);
    }
  }

  lemma GateArrive(s: State, s': State, w: nat, b: nat)
    requires OnlyWorker(s, s', w) && b < |s.log.plan| && GateOk(s, b)
    requires b !in s.workers[w].done && w in Members(s.log.plan[b]) && s.workers[w].status == Holding(b)
    requires s'.workers[w] == s.workers[w].(status := Waiting(b))
    requires b in s.gates && b in s'.gates && s'.gates[b] == s.gates[b].(arrived := s.gates[b].arrived + 1)
    ensures GateOk(s', b)
  {
    assert Passed(s', b) == Passed(s, b);
    assert Come(s', b) == Come(s, b) + {w} && w !in Come(s, b);
  }

  lemma GatesArrive(c: Config, s: State, w: nat)
    requires Fifo(c, s) && GatesOk(s) && Enabled(c, s, Arrive(w))
    ensures GatesOk(Apply(c, s, Arrive(w)))
  {
    hide GateOk;
    var s' := Apply(c, s, Arrive(w));
    HeldFacts(c, s, w);
    forall b | 0 <= b < |s.log.plan| && s.log.plan[b].Barrier? ensures GateOk(s', b) {
      assert GateOk(s, b);
      if b == s.workers[w].status.item {
        GateArrive(s, s', w, b);
      } else {
        GateFrame(s, s', w, b);
      }
    }
  }

  lemma GateLeave(s: State, s': State, w: nat, b: nat)
    requires OnlyWorker(s, s', w) && b < |s.log.plan| && GateOk(s, b)
    requires b !in s.workers[w].done && w in Members(s.log.plan[b]) && s.workers[w].status == Waiting(b)
    requires s'.workers[w] == s.workers[w].(status := Idle, done := s.workers[w].done + [b])
    requires b in s.gates && s.gates[b].arrived == s.gates[b].size
    requires b in s'.gates <==> s.gates[b].left + 1 < s.gates[b].size
    requires b in s'.gates ==> s'.gates[b] == s.gates[b].(left := s.gates[b].left + 1)
    ensures GateOk(s', b)
  {
    var ws := Members(s.log.plan[b]);
    assert Come(s', b) == Come(s, b);
    assert Passed(s', b) == Passed(s, b) + {w} && w !in Passed(s, b);
    SubsetSize(Come(s, b), ws);
    SubsetSize(Passed(s', b), ws);
  }

  lemma GatesLeave(c: Config, s: State, w: nat)
    requires Fifo(c, s) && GatesOk(s) && Enabled(c, s, Leave(w))
    ensures GatesOk(Apply(c, s, Leave(w)))
  {
    hide GateOk;
    var s' := Apply(c, s, Leave(w));
    HeldFacts(c, s, w);
    forall b | 0 <= b < |s.log.plan| && s.log.plan[b].Barrier? ensures GateOk(s', b) {
      assert GateOk(s, b);
      if b == s.workers[w].status.item {
        GateLeave(s, s', w, b);
      } else {
        GateFrame(s, s', w, b);
      }
    }
  }

  /** Appending to the log opens the new barriers with nobody at them. */
  lemma GatesGrow(c: Config, s: State, s': State, b: nat)
    requires Fifo(c, s) && GatesOk(s) && s'.workers == s.workers
    requires |s.log.plan| <= |s'.log.plan| && s'.log.plan[..|s.log.plan|] == s.log.plan
    requires b < |s'.log.plan| && s'.log.plan[b].Barrier? && Members(s'.log.plan[b]) != {}
    requires b < |s.log.plan| ==> (b in s'.gates <==> b in s.gates) && (b in s.gates ==> s'.gates[b] == s.gates[b])
    requires b >= |s.log.plan| ==> b in s'.gates && s'.gates[b] == Gate(|Members(s'.log.plan[b])|, 0, 0)
    ensures GateOk(s', b)
  {
    if b < |s.log.plan| {
      assert s'.log.plan[b] == s.log.plan[b];
      assert GateOk(s, b);
      assert Passed(s', b) == Passed(s, b) && Come(s', b) == Come(s, b);
    } else {
      forall w | 0 <= w < c.workers ensures b !in s.workers[w].done && b !in Held(s.workers[w].status) {
        LineHas(c, s, w, b);
      }
      assert forall w :: 0 <= w < c.workers && s.workers[w].status == Waiting(b) ==> b in Held(s.workers[w].status);
      assert Passed(s', b) == {} && Come(s', b) == {};
    }
  }

  /** The barriers a dispatch appends are the ones it opens. */
  lemma DispatchOpens(plan: seq<Item>, gates: map<nat, Gate>, ps: set<nat>, r: nat, chosen: nat, b: nat)
    requires |plan| <= b < |plan + Items(ps, r, chosen)| && (plan + Items(ps, r, chosen))[b].Barrier?
    ensures var gates' := Opened(gates, ps, |plan|);
            && |ps| > 1 && (plan + Items(ps, r, chosen))[b] == Barrier(ps)
            && b in gates' && gates'[b] == Gate(|ps|, 0, 0)
  {
    assert (plan + Items(ps, r, chosen))[b] == Items(ps, r, chosen)[b - |plan|];
  }

  lemma OpenedOnly(plan: seq<Item>, gates: map<nat, Gate>, ps: set<nat>, r: nat, chosen: nat, b: nat)
    requires b in Opened(gates, ps, |plan|)
    ensures b in gates || (b < |plan + Items(ps, r, chosen)| && (plan + Items(ps, r, chosen))[b].Barrier?)
  {
    if b !in gates {
      assert (plan + Items(ps, r, chosen))[b] == Items(ps, r, chosen)[b - |plan|];
    }
  }

  lemma GatesDispatch(c: Config, s: State, order: seq<nat>, chosen: nat)
    requires Inv(c, s) && Enabled(c, s, Dispatch(order, chosen))
    ensures GatesOk(Apply(c, s, Dispatch(order, chosen)))
  {
    hide GateOk, Records, Line;
    var s' := Apply(c, s, Dispatch(order, chosen));
    var n, r, ps := |s.log.plan|, |s.log.slot|, Owners(s.log, c.stream[|s.log.slot|]);
    assert s'.log.plan == s.log.plan + Items(ps, r, chosen);
    assert s'.log.plan[..n] == s.log.plan;
    assert forall b :: 0 <= b < n ==> s'.log.plan[b] == s.log.plan[b];
    forall b | 0 <= b < |s'.log.plan| && s'.log.plan[b].Barrier? ensures GateOk(s', b) {
      if b >= n {
        DispatchOpens(s.log.plan, s.gates, ps, r, chosen, b);
      }
      GatesGrow(c, s, s', b);
    }
    forall b | b in s'.gates ensures b < |s'.log.plan| && s'.log.plan[b].Barrier? {
      OpenedOnly(s.log.plan, s.gates, ps, r, chosen, b);
    }
  }

  lemma GatesRemap(c: Config, s: State, mapping: map<int, nat>, order: seq<nat>)
    requires Inv(c, s) && Enabled(c, s, Remap(mapping, order))
    ensures GatesOk(Apply(c, s, Remap(mapping, order)))
  {
    hide GateOk, Records, Line;
    var s' := Apply(c, s, Remap(mapping, order));
    var n := |s.log.plan|;
    assert s'.log.plan == s.log.plan + [Barrier(Everyone(c.workers))];
    assert s'.log.plan[..n] == s.log.plan;
    assert 0 in Everyone(c.workers);
    forall b | 0 <= b < |s'.log.plan| && s'.log.plan[b].Barrier? ensures GateOk(s', b) {
      if b < n {
        assert s'.log.plan[b] == s.log.plan[b];
      } else {
        assert b == n;
      }
      GatesGrow(c, s, s', b);
    }
  }

  // ---- records are kept ----

  lemma {:induction false} TotalUpdate(workers: seq<Worker>, w: nat, k: Worker)
    requires w < |workers|
    ensures Total(workers[w := k]) == Total(workers) - workers[w].executed + k.executed
  {
    var n := |workers| - 1;
    if w == n {
      assert workers[w := k][..n] == workers[..n];
    } else {
      assert workers[w := k][..n] == workers[..n][w := k];
      TotalUpdate(workers[..n], w, k);
    }
  }

  lemma RecordsGrow(c: Config, s: State, s': State)
    requires Fifo(c, s) && Records(c, s) && s'.workers == s.workers && s'.answers == s.answers
    requires Shaped(c.workers, s.log.plan, s.log.slot) && Shaped(c.workers, s'.log.plan, s'.log.slot)
    requires |s.log.plan| <= |s'.log.plan| && s'.log.plan[..|s.log.plan|] == s.log.plan
    requires |s.log.slot| <= |s'.log.slot| <= |c.stream|
    requires forall r :: 0 <= r < |s.log.slot| ==> s'.log.slot[r] == s.log.slot[r]
    ensures Records(c, s')
  {
    var n := |s.log.plan|;
    assert forall i :: 0 <= i < n ==> s'.log.plan[i] == s.log.plan[i];
    forall i | n <= i < |s'.log.plan| && s'.log.plan[i].Exec?
      ensures s'.log.plan[i].request !in s.answers && i !in s.workers[s'.log.plan[i].worker].done
    {
      var r, w := s'.log.plan[i].request, s'.log.plan[i].worker;
      assert s'.log.slot[r] == i;
      assert r >= |s.log.slot|;
      assert w in Members(s'.log.plan[i]);
      LineHas(c, s, w, i);
    }
    forall w | 0 <= w < c.workers && !s.workers[w].status.Idle?
      ensures s.workers[w].status.item < n && s'.log.plan[s.workers[w].status.item] == s.log.plan[s.workers[w].status.item]
    {
      HeldFacts(c, s, w);
    }
  }

  lemma RecordsFrame(c: Config, s: State, s': State, w: nat)
    requires |s.workers| == c.workers && Records(c, s) && OnlyWorker(s, s', w) && s'.answers == s.answers
    requires s'.workers[w].executed == s.workers[w].executed
    requires s'.workers[w].status.Running? ==> Executing(c, s, s'.workers[w].status)
    requires s'.workers[w].status.Waiting? ==>
               s'.workers[w].status.item < |s.log.plan| && s.log.plan[s'.workers[w].status.item].Barrier?
    requires forall i :: 0 <= i < |s.log.plan| && s.log.plan[i].Exec? ==>
               (i in s.workers[w].done <==> i in s'.workers[w].done)
    ensures Records(c, s')
  {
    assert s'.workers == s.workers[w := s'.workers[w]];
    TotalUpdate(s.workers, w, s'.workers[w]);
  }

  lemma RecordsQuiet(c: Config, s: State, step: Step)
    requires Valid(c) && |s.workers| == c.workers && Records(c, s) && Enabled(c, s, step)
    requires step.PushOne? || step.Pop? || step.Start? || step.Touch? || step.Arrive? || step.Leave?
    ensures Records(c, Apply(c, s, step))
  {
    OnlyMoverMoves(c, s, step);
    assert step.Start? ==> Submittable(Target(c, s, s.workers[step.worker].status.item));
    RecordsFrame(c, s, Apply(c, s, step), Mover(s, step));
  }

  lemma RecordsFinish(c: Config, s: State, w: nat)
    requires Sound(c.stream, c.workers, s.log) && Fifo(c, s) && Records(c, s) && Enabled(c, s, Finish(w))
    ensures Records(c, Apply(c, s, Finish(w)))
    ensures s.log.plan[s.workers[w].status.item].request !in s.answers
  {
    var s' := Apply(c, s, Finish(w));
    HeldFacts(c, s, w);
    AnswersGrow(c, s, s', w);
  }

  lemma AnswersGrow(c: Config, s: State, s': State, w: nat)
    requires Sound(c.stream, c.workers, s.log) && |s.workers| == c.workers && Records(c, s) && OnlyWorker(s, s', w)
    requires var k := s.workers[w];
             && k.status.Running? && k.status.item !in k.done && s.log.plan[k.status.item].worker == w
             && s'.workers[w] == k.(status := Idle, done := k.done + [k.status.item], executed := k.executed + 1)
             && s'.answers == s.answers[s.log.plan[k.status.item].request := k.status.got]
    ensures Records(c, s')
    ensures s.log.plan[s.workers[w].status.item].request !in s.answers
  {
    var item := s.workers[w].status.item;
    assert s'.workers == s.workers[w := s'.workers[w]];
    TotalUpdate(s.workers, w, s'.workers[w]);
    forall i | 0 <= i < |s.log.plan| && s.log.plan[i].Exec?
      ensures s.log.plan[i].request in s'.answers <==> i in s'.workers[s.log.plan[i].worker].done
    {
      assert s.log.plan[i].worker in Members(s.log.plan[i]);
      assert s.log.slot[s.log.plan[i].request] == i && s.log.slot[s.log.plan[item].request] == item;
    }
  }

  // ---- every step, every run ----

  lemma TodoKeeps(c: Config, s: State, step: Step)
    requires InProgramOrder(s.todo) && Enabled(c, s, step)
    ensures InProgramOrder(Apply(c, s, step).todo)
  {
  }

  lemma StoreKeeps(c: Config, s: State, step: Step)
    requires Stocked(c, s) && Enabled(c, s, step)
    ensures Stocked(c, Apply(c, s, step))
  {
    var s' := Apply(c, s, step);
    assert s.store != map[] ==> s'.store != map[] by {
      if step.Touch? {
        var r := Target(c, s, s.workers[step.worker].status.item);
        assert r.kind.Write? ==> r.key in s'.store;
      }
    }
    hide Apply, Enabled;
  }

  lemma StepKeeps(c: Config, s: State, step: Step)
    requires Valid(c) && Inv(c, s) && Enabled(c, s, step)
    ensures Inv(c, Apply(c, s, step))
  {
    hide Stocked;
    var s' := Apply(c, s, step);
    StoreKeeps(c, s, step);
    TodoKeeps(c, s, step);
    match step
    case Dispatch(order, chosen) =>
      DispatchKeeps(c.stream, c.workers, s.log, chosen);
      FifoDispatch(c, s, order, chosen);
      GatesDispatch(c, s, order, chosen);
      RecordsGrow(c, s, s');
    case Remap(mapping, order) =>
      RemapKeeps(c.stream, c.workers, s.log, mapping);
      FifoRemap(c, s, mapping, order);
      GatesRemap(c, s, mapping, order);
      RecordsGrow(c, s, s');
    case PushOne =>
      FifoPush(c, s);
      GatesQuiet(c, s, step);
      RecordsQuiet(c, s, step);
    case Finish(w) =>
      FifoWorker(c, s, step);
      GatesQuiet(c, s, step);
      RecordsFinish(c, s, w);
    case Arrive(w) =>
      FifoWorker(c, s, step);
      GatesArrive(c, s, w);
      RecordsQuiet(c, s, step);
    case Leave(w) =>
      FifoWorker(c, s, step);
      GatesLeave(c, s, w);
      RecordsQuiet(c, s, step);
    case _ =>
      FifoWorker(c, s, step);
      GatesQuiet(c, s, step);
      RecordsQuiet(c, s, step);
  }

  lemma {:induction false} TotalZero(n: nat)
    ensures Total(seq(n, w => Worker([], Idle, [], 0))) == 0
  {
    if n > 0 {
      assert seq(n, w => Worker([], Idle, [], 0))[..n - 1] == seq(n - 1, w => Worker([], Idle, [], 0));
      TotalZero(n - 1);
    }
  }

  lemma InitialInv(c: Config)
    requires Valid(c)
    ensures Inv(c, Initial(c))
  {
    TotalZero(c.workers);
  }

  /** The invariant holds in every state of every execution. */
  lemma {:induction false} RunInv(c: Config, steps: seq<Step>, s: State)
    requires Valid(c) && Run(c, steps, s)
    ensures Inv(c, s)
  {
    if steps == [] {
      InitialInv(c);
    } else {
      var n := |steps| - 1;
      var before := LastStep(c, steps, s);
      RunInv(c, steps[..n], before);
      StepKeeps(c, before, steps[n]);
    }
  }
}
