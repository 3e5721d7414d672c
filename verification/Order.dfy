/** Requests that share a key execute in submission order and never overlap. */
module Order {
  import opened Requests
  import opened Plan
  import opened Machine
  import opened Invariant

  /** Some worker is past the point where it had to wait for the item's predecessors. */
  ghost predicate Begun(s: State, j: nat)
    requires j < |s.log.plan|
  {
    match s.log.plan[j]
    case Exec(_, w) =>
      w < |s.workers| && (j in s.workers[w].done || (s.workers[w].status.Running? && s.workers[w].status.item == j))
    case Barrier(ws) => Come(s, j) == ws
  }

  ghost predicate Over(s: State, i: nat)
    requires i < |s.log.plan|
  {
    match s.log.plan[i]
    case Exec(_, w) => w < |s.workers| && i in s.workers[w].done
    case Barrier(ws) => Come(s, i) == ws
  }

  /** Two items that share a worker: the later one begins only when the earlier one is over. */
  lemma NeighboursInOrder(c: Config, s: State, i: nat, j: nat)
    requires Inv(c, s) && i < j < |s.log.plan| && Share(s.log.plan[i], s.log.plan[j]) && Begun(s, j)
    ensures Over(s, i)
  {
    hide Sound, Records, Line, Script;
    var u :| u in Members(s.log.plan[i]) && u in Members(s.log.plan[j]);
    if s.log.plan[j].Barrier? {
      assert u in Come(s, j);
    }
    FifoBefore(c, s, u, i, j);
    if s.log.plan[i].Barrier? {
      assert GateOk(s, i);
      assert u in Passed(s, i);
      assert Passed(s, i) <= Come(s, i) <= Members(s.log.plan[i]);
    }
  }

  lemma {:induction false} ChainInOrder(c: Config, s: State, i: nat, j: nat)
    requires Inv(c, s) && i < j < |s.log.plan| && Leads(s.log.plan, i, j) && Begun(s, j)
    ensures Over(s, i)
    decreases j
  {
    var h: nat :| i <= h < j && Leads(s.log.plan, i, h) && Share(s.log.plan[h], s.log.plan[j]);
    NeighboursInOrder(c, s, h, j);
    if h != i {
      ChainInOrder(c, s, i, h);
    }
  }

  predicate Runs(c: Config, s: State, w: nat, r: nat) {
    && w < |s.workers| && s.workers[w].status.Running? && IsRequest(c, s, s.workers[w].status.item)
    && s.log.plan[s.workers[w].status.item].request == r
  }

  /** Request number `r` is executing: its worker started it and has not finished it. */
  ghost predicate InProgress(c: Config, s: State, r: nat) {
    exists w :: Runs(c, s, w, r)
  }

  ghost predicate Started(c: Config, s: State, r: nat) {
    r in s.answers || InProgress(c, s, r)
  }

  lemma RunsFacts(c: Config, s: State, w: nat, r: nat)
    requires Inv(c, s) && Runs(c, s, w, r)
    ensures r < |s.log.slot| && r !in s.answers
    ensures s.log.slot[r] == s.workers[w].status.item && s.log.plan[s.log.slot[r]] == Exec(r, w)
  {
    HeldFacts(c, s, w);
  }

  lemma StartedFacts(c: Config, s: State, r: nat)
    requires Inv(c, s) && Started(c, s, r)
    ensures r < |s.log.slot| && s.log.slot[r] < |s.log.plan| && Begun(s, s.log.slot[r])
  {
    if r in s.answers {
      var i := s.log.slot[r];
      assert s.log.plan[i].worker in Members(s.log.plan[i]);
    } else {
      var w :| Runs(c, s, w, r);
      RunsFacts(c, s, w, r);
    }
  }

  lemma InOrder(c: Config, s: State, q: nat, r: nat)
    requires Inv(c, s) && q < r < |c.stream| && Conflict(c.stream[q], c.stream[r]) && Started(c, s, r)
    ensures q in s.answers
  {
    StartedFacts(c, s, r);
    ChainInOrder(c, s, s.log.slot[q], s.log.slot[r]);
  }

  /** In every state of every execution, with any number of map replacements along the way: once a
      request has started, every earlier request that shares a key with it has finished. */
  lemma ConflictsInOrder(c: Config, steps: seq<Step>, s: State, q: nat, r: nat)
    requires Valid(c) && Run(c, steps, s)
    requires q < r < |c.stream| && Conflict(c.stream[q], c.stream[r]) && Started(c, s, r)
    ensures q in s.answers && !InProgress(c, s, q)
  {
    RunInv(c, steps, s);
    InOrder(c, s, q, r);
    NotBoth(c, s, q);
  }

  /** A finished request is not in progress again. */
  lemma NotBoth(c: Config, s: State, r: nat)
    requires Inv(c, s) && r in s.answers
    ensures !InProgress(c, s, r)
  {
    if InProgress(c, s, r) {
      var w :| Runs(c, s, w, r);
      RunsFacts(c, s, w, r);
      assert false;
    }
  }

  /** Two workers never execute conflicting requests at the same time. */
  lemma NoOverlap(c: Config, steps: seq<Step>, s: State, q: nat, r: nat)
    requires Valid(c) && Run(c, steps, s) && q < |c.stream| && r < |c.stream|
    requires InProgress(c, s, q) && InProgress(c, s, r) && Conflict(c.stream[q], c.stream[r])
    ensures q == r
  {
    RunInv(c, steps, s);
    assert Conflict(c.stream[r], c.stream[q]);
    if q < r {
      ConflictsInOrder(c, steps, s, q, r);
    } else if r < q {
      ConflictsInOrder(c, steps, s, r, q);
    }
  }
}
