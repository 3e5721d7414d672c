/** Building particular executions of the transition system. */
module Replay {
  import opened Requests
  import opened Plan
  import opened Machine
  import opened Equivalence

  /** The state after a request with the single owner `w` was dispatched and pushed. */
  function Sent(c: Config, s: State, w: nat): State
    requires w < |s.workers| && |s.log.slot| < |c.stream| && c.workers > 0
  {
    s.(log := Dispatched(s.log, c.workers, c.stream[|s.log.slot|], w), mayRemap := true,
       workers := s.workers[w := s.workers[w].(queue := s.workers[w].queue + [|s.log.plan|])])
  }

  lemma Send(c: Config, steps: seq<Step>, s: State, w: nat) returns (steps': seq<Step>)
    requires Run(c, steps, s) && w < |s.workers| && c.workers > 0
    requires c.capacity == 0 || |s.workers[w].queue| < c.capacity
    requires s.todo == [] && |s.log.slot| < |c.stream| && Owners(s.log, c.stream[|s.log.slot|]) == {w}
    ensures Run(c, steps', Sent(c, s, w))
  {
    hide Run, Owners, Route, Advance;
    var s';
    steps', s' := Taken(c, steps, s, Dispatch([w], w));
    assert s'.todo == [Push(w, |s.log.plan|)] && s'.workers == s.workers;
    steps', s' := Taken(c, steps', s', PushOne);
    assert s' == Sent(c, s, w);
  }

  /** The state after worker `w` took its next message, a request, and executed it without interruption. */
  function Served(c: Config, s: State, w: nat): State
    requires CanServe(c, s, w)
  {
    var k := s.workers[w];
    var p := Alone(c, Target(c, s, k.queue[0]), s.store);
    Finished(s, w, k.queue[0], k.(queue := k.queue[1..]), p)
  }

  predicate CanServe(c: Config, s: State, w: nat) {
    && w < |s.workers| && s.workers[w].status.Idle? && s.workers[w].queue != []
    && IsRequest(c, s, s.workers[w].queue[0]) && CanRead(Target(c, s, s.workers[w].queue[0]), s.store)
  }

  function Finished(s: State, w: nat, item: nat, k: Worker, p: Progress): State
    requires w < |s.workers| && item < |s.log.plan| && s.log.plan[item].Exec?
  {
    s.(workers := s.workers[w := k.(status := Idle, done := k.done + [item], executed := k.executed + 1)],
       store := p.store, answers := s.answers[s.log.plan[item].request := p.got])
  }

  /** From any point of a request on, the worker executes the rest of it. */
  lemma {:induction false} RunOn(c: Config, steps: seq<Step>, s: State, w: nat) returns (steps': seq<Step>)
    requires Run(c, steps, s) && w < |s.workers| && s.workers[w].status.Running?
    requires IsRequest(c, s, s.workers[w].status.item) && CanRead(Target(c, s, s.workers[w].status.item), s.store)
    ensures var (k, item) := (s.workers[w], s.workers[w].status.item);
            Run(c, steps', Finished(s, w, item, k, Continue(c, Target(c, s, item), Progress(s.store, k.status.got))))
    decreases Range(Target(c, s, s.workers[w].status.item)) - |s.workers[w].status.got|
  {
    hide Run;
    var (k, item) := (s.workers[w], s.workers[w].status.item);
    var r := Target(c, s, item);
    var s';
    if Complete(r, k.status.got) {
      steps', s' := Taken(c, steps, s, Finish(w));
      assert s' == Finished(s, w, item, k, Progress(s.store, k.status.got));
    } else {
      steps', s' := Taken(c, steps, s, Touch(w));
      var p := Access(c, r, Progress(s.store, k.status.got));
      assert s'.store == p.store && s'.workers[w] == k.(status := Running(item, p.got));
      steps' := RunOn(c, steps', s', w);
      assert Finished(s', w, item, s'.workers[w], Continue(c, r, p)) == Finished(s, w, item, k, Continue(c, r, p));
    }
  }

  lemma Serve(c: Config, steps: seq<Step>, s: State, w: nat) returns (steps': seq<Step>)
    requires Run(c, steps, s) && CanServe(c, s, w)
    ensures Run(c, steps', Served(c, s, w))
  {
    hide Run, Continue;
    var s1, s2;
    var k := s.workers[w];
    steps', s1 := Taken(c, steps, s, Pop(w));
    assert s1.workers[w] == k.(queue := k.queue[1..], status := Holding(k.queue[0]));
    steps', s2 := Taken(c, steps', s1, Start(w));
    assert s2.workers[w] == k.(queue := k.queue[1..], status := Running(k.queue[0], []));
    steps' := RunOn(c, steps', s2, w);
    assert Finished(s2, w, k.queue[0], s2.workers[w], Alone(c, Target(c, s, k.queue[0]), s.store)) == Served(c, s, w);
  }

  lemma OneOwner(log: Log, r: Request, p: nat)
    requires Range(r) >= 1
    requires forall k :: Covers(r, k) ==> (if k in log.mapping then log.mapping[k] else log.roundRobin) == p
    ensures Owners(log, r) == {p}
  {
    var m := Route(log.mapping, log.roundRobin, r);
    assert forall k :: Covers(r, k) ==> m[k] == p;
    assert Covers(r, r.key);
  }
}
