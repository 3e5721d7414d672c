/** The totally ordered log of messages the scheduling thread creates, and why that log orders every
    two requests that share a key. */
module Plan {
  import opened Requests

  /** One created message: a request sent to one worker, or a barrier sent to a set of workers. */
  datatype Item = Exec(request: nat, worker: nat) | Barrier(workers: set<nat>)

  function Members(it: Item): set<nat> {
    match it
    case Exec(_, w) => {w}
    case Barrier(ws) => ws
  }

  /** The scheduling thread's data: the key-to-partition map, the round-robin counter, and the log of
      created messages, in which request number `r` sits at position `slot[r]`. */
  datatype Log = Log(mapping: map<int, nat>, roundRobin: nat, plan: seq<Item>, slot: seq<nat>)

  // ---- what dispatching and remapping append ----

  /** Populating a key maps it unless it is mapped, and moves the counter in any case. */
  function MapOne(mapping: map<int, nat>, roundRobin: nat, n: nat, key: int): (map<int, nat>, nat)
    requires n > 0
  {
    (if key in mapping then mapping else mapping[key := roundRobin], (roundRobin + 1) % n)
  }

  /** All unmapped keys of one request go to the same partition. */
  function Route(mapping: map<int, nat>, roundRobin: nat, r: Request): map<int, nat> {
    mapping + map k | r.key <= k < r.key + Range(r) && k !in mapping :: roundRobin
  }

  predicate AllMapped(mapping: map<int, nat>, r: Request) {
    forall k :: r.key <= k < r.key + Range(r) ==> k in mapping
  }

  /** The round-robin counter moves once per request that named an unmapped key. */
  function Advance(mapping: map<int, nat>, roundRobin: nat, n: nat, r: Request): nat
    requires n > 0
  {
    if AllMapped(mapping, r) then roundRobin else (roundRobin + 1) % n
  }

  function Involved(mapping: map<int, nat>, r: Request): set<nat>
    requires AllMapped(mapping, r)
  {
    set k | r.key <= k < r.key + Range(r) :: mapping[k]
  }

  function Owners(log: Log, r: Request): set<nat> {
    Involved(Route(log.mapping, log.roundRobin, r), r)
  }

  /** The messages created for a request whose involved partitions are `ps`. */
  function Items(ps: set<nat>, request: nat, worker: nat): seq<Item> {
    if |ps| > 1 then [Barrier(ps), Exec(request, worker), Barrier(ps)] else [Exec(request, worker)]
  }

  function Dispatched(log: Log, n: nat, r: Request, worker: nat): Log
    requires n > 0
  {
    var ps := Owners(log, r);
    Log(Route(log.mapping, log.roundRobin, r), Advance(log.mapping, log.roundRobin, n, r),
        log.plan + Items(ps, |log.slot|, worker),
        log.slot + [if |ps| > 1 then |log.plan| + 1 else |log.plan|])
  }

  function Everyone(n: nat): (all: set<nat>)
    ensures forall w: nat :: w in all <==> w < n
    ensures |all| == n
  {
    if n == 0 then {} else Everyone(n - 1) + {n - 1}
  }

  /** The map is replaced and a barrier is sent to every worker. */
  function Remapped(log: Log, n: nat, mapping: map<int, nat>): Log {
    log.(mapping := mapping, plan := log.plan + [Barrier(Everyone(n))])
  }

  // ---- chains ----

  ghost predicate Share(a: Item, b: Item) {
    exists w :: w in Members(a) && w in Members(b)
  }

  /** `i` is linked to `j` by a chain of items, each sharing a worker with the next. */
  ghost predicate Leads(plan: seq<Item>, i: nat, j: nat)
    requires i < |plan| && j < |plan|
    decreases j
  {
    i == j || exists h: nat :: i <= h < j && Leads(plan, i, h) && Share(plan[h], plan[j])
  }

  /** A chain from `i` arrives at some item handled by worker `p`. */
  ghost predicate Reaches(plan: seq<Item>, i: nat, p: nat)
    requires i < |plan|
  {
    exists j: nat :: i <= j < |plan| && Leads(plan, i, j) && p in Members(plan[j])
  }

  lemma {:induction false} LeadsAppend(plan: seq<Item>, more: seq<Item>, i: nat, j: nat)
    requires i < |plan| && j < |plan| && Leads(plan, i, j)
    ensures Leads(plan + more, i, j)
    decreases j
  {
    if i != j {
      var h: nat :| i <= h < j && Leads(plan, i, h) && Share(plan[h], plan[j]);
      LeadsAppend(plan, more, i, h);
      assert (plan + more)[h] == plan[h] && (plan + more)[j] == plan[j];
    }
  }

  lemma ReachesAppend(plan: seq<Item>, more: seq<Item>, i: nat, p: nat)
    requires i < |plan| && Reaches(plan, i, p)
    ensures Reaches(plan + more, i, p)
  {
    var j: nat :| i <= j < |plan| && Leads(plan, i, j) && p in Members(plan[j]);
    LeadsAppend(plan, more, i, j);
    assert (plan + more)[j] == plan[j];
  }

  /** A chain that reaches `p` extends to any later item handled by `p`. */
  lemma ReachesThenLeads(plan: seq<Item>, more: seq<Item>, i: nat, p: nat, j: nat)
    requires i < |plan| <= j < |plan + more|
    requires Reaches(plan, i, p) && p in Members((plan + more)[j])
    ensures Leads(plan + more, i, j)
  {
    var h: nat :| i <= h < |plan| && Leads(plan, i, h) && p in Members(plan[h]);
    LeadsAppend(plan, more, i, h);
    assert (plan + more)[h] == plan[h];
    assert Share((plan + more)[h], (plan + more)[j]);
  }

  lemma LeadsStep(plan: seq<Item>, i: nat, h: nat, j: nat, w: nat)
    requires i <= h < j < |plan| && Leads(plan, i, h)
    requires w in Members(plan[h]) && w in Members(plan[j])
    ensures Leads(plan, i, j)
  {
    assert Share(plan[h], plan[j]);
  }

  // ---- the log invariant ----

  ghost predicate InRange(mapping: map<int, nat>, n: nat) {
    forall k :: k in mapping ==> mapping[k] < n
  }

  ghost predicate Shaped(n: nat, plan: seq<Item>, slot: seq<nat>) {
    && (forall r :: 0 <= r < |slot| ==> slot[r] < |plan| && plan[slot[r]].Exec? && plan[slot[r]].request == r)
    && (forall i :: 0 <= i < |plan| && plan[i].Exec? ==>
          plan[i].request < |slot| && slot[plan[i].request] == i)
    && (forall i, w :: 0 <= i < |plan| && w in Members(plan[i]) ==> w < n)
    && (forall i :: 0 <= i < |plan| ==> Members(plan[i]) != {})
    && (forall q, r :: 0 <= q < r < |slot| ==> slot[q] < slot[r])
  }

  /** Request `r` is chained to every worker that may own its key `k` next. */
  ghost predicate Anchored(log: Log, n: nat, r: nat, k: int)
    requires r < |log.slot| && Shaped(n, log.plan, log.slot)
  {
    forall p: nat :: p < n && (k in log.mapping ==> p == log.mapping[k]) ==> Reaches(log.plan, log.slot[r], p)
  }

  ghost predicate Sound(stream: seq<Request>, n: nat, log: Log) {
    && |log.slot| <= |stream|
    && log.roundRobin < n
    && InRange(log.mapping, n)
    && Shaped(n, log.plan, log.slot)
    && (forall r, k :: 0 <= r < |log.slot| && Covers(stream[r], k) ==> Anchored(log, n, r, k))
    && (forall q, r :: 0 <= q < r < |log.slot| && Conflict(stream[q], stream[r]) ==>
          Leads(log.plan, log.slot[q], log.slot[r]))
  }

  // ---- dispatching keeps it ----

  lemma OwnersInRange(log: Log, n: nat, r: Request)
    requires log.roundRobin < n && InRange(log.mapping, n)
    ensures var m := Route(log.mapping, log.roundRobin, r);
            && InRange(m, n)
            && (forall k :: k in log.mapping ==> k in m && m[k] == log.mapping[k])
            && (forall k :: Covers(r, k) ==> k in m && m[k] in Owners(log, r))
    ensures forall p :: p in Owners(log, r) ==> p < n
    ensures Range(r) >= 1 ==> Owners(log, r) != {}
  {
    var m := Route(log.mapping, log.roundRobin, r);
    forall k | Covers(r, k) ensures k in m && m[k] in Owners(log, r) {
      assert r.key <= k < r.key + Range(r);
    }
    assert Range(r) >= 1 ==> Covers(r, r.key);
  }

  /** Routing keeps every entry, and sends every key of the request that has none to the counter's worker. */
  lemma RouteIs(mapping: map<int, nat>, roundRobin: nat, r: Request)
    ensures var m := Route(mapping, roundRobin, r);
            && (forall k :: k in m <==> k in mapping || Covers(r, k))
            && (forall k :: k in m ==> m[k] == if k in mapping then mapping[k] else roundRobin)
  {
  }

  /** The counter moves by one if the request names a key without an entry, and stays otherwise. */
  lemma AdvanceIs(mapping: map<int, nat>, roundRobin: nat, n: nat, r: Request)
    requires n > 0
    ensures Advance(mapping, roundRobin, n, r)
         == if exists k :: Covers(r, k) && k !in mapping then (roundRobin + 1) % n else roundRobin
  {
    if k :| Covers(r, k) && k !in mapping {
      assert !AllMapped(mapping, r);
    }
  }

  /** A partition is involved if and only if some key of the request is, or becomes, mapped to it. */
  lemma OwnersAre(log: Log, r: Request, p: nat)
    ensures p in Owners(log, r)
       <==> exists k :: Covers(r, k) && p == if k in log.mapping then log.mapping[k] else log.roundRobin
  {
    var m := Route(log.mapping, log.roundRobin, r);
    RouteIs(log.mapping, log.roundRobin, r);
    if k :| Covers(r, k) && p == if k in log.mapping then log.mapping[k] else log.roundRobin {
      assert m[k] == p;
    }
    if p in Owners(log, r) {
      var k :| r.key <= k < r.key + Range(r) && m[k] == p;
      assert Covers(r, k);
    }
  }

  /** After a replacement, a request whose keys the new map knows involves exactly what the new map says. */
  lemma RemappedOwners(log: Log, n: nat, mapping: map<int, nat>, r: Request, p: nat)
    requires forall k :: Covers(r, k) ==> k in mapping
    ensures p in Owners(Remapped(log, n, mapping), r) <==> exists k :: Covers(r, k) && mapping[k] == p
  {
    OwnersAre(Remapped(log, n, mapping), r, p);
  }

  lemma {:induction false} SubsetSize<T>(a: set<T>, b: set<T>)
    requires a <= b
    ensures |a| <= |b|
    ensures |a| == |b| ==> a == b
  {
    if a == {} {
    } else {
      var x :| x in a;
      SubsetSize(a - {x}, b - {x});
    }
  }

  /** In a set of at most one partition, the chosen worker is the owner of every key. */
  lemma SingleOwner(ps: set<nat>, w: nat, p: nat)
    requires w in ps && p in ps && |ps| <= 1
    ensures w == p
  {
    SubsetSize({w, p}, ps);
  }

  lemma DispatchShaped(n: nat, plan: seq<Item>, slot: seq<nat>, ps: set<nat>, w: nat)
    requires Shaped(n, plan, slot) && w in ps && forall p :: p in ps ==> p < n
    ensures var at := if |ps| > 1 then |plan| + 1 else |plan|;
            Shaped(n, plan + Items(ps, |slot|, w), slot + [at])
  {
    var items := Items(ps, |slot|, w);
    var plan' := plan + items;
    var at := if |ps| > 1 then |plan| + 1 else |plan|;
    var slot' := slot + [at];
    forall i | 0 <= i < |plan'|
      ensures Members(plan'[i]) != {} && (forall v :: v in Members(plan'[i]) ==> v < n)
      ensures plan'[i].Exec? ==> plan'[i].request < |slot'| && slot'[plan'[i].request] == i
    {
      if i < |plan| {
        assert plan'[i] == plan[i];
      } else {
        assert plan'[i] == items[i - |plan|];
      }
    }
  }

  /** The request just dispatched is chained to every partition that owns one of its keys. */
  lemma DispatchReachesOwners(plan: seq<Item>, ps: set<nat>, r: nat, w: nat, p: nat)
    requires w in ps && p in ps
    ensures var at := if |ps| > 1 then |plan| + 1 else |plan|;
            Reaches(plan + Items(ps, r, w), at, p)
  {
    var plan' := plan + Items(ps, r, w);
    if |ps| > 1 {
      LeadsStep(plan', |plan| + 1, |plan| + 1, |plan| + 2, w);
    } else {
      SingleOwner(ps, w, p);
      assert Leads(plan', |plan|, |plan|);
    }
  }

  /** A chain that reaches an owner of the new request is continued to the new request. */
  lemma DispatchContinues(plan: seq<Item>, i: nat, ps: set<nat>, r: nat, w: nat, p: nat)
    requires i < |plan| && w in ps && p in ps && Reaches(plan, i, p)
    ensures var at := if |ps| > 1 then |plan| + 1 else |plan|;
            Leads(plan + Items(ps, r, w), i, at)
  {
    var items := Items(ps, r, w);
    var plan' := plan + items;
    if |ps| > 1 {
      ReachesThenLeads(plan, items, i, p, |plan|);
      LeadsStep(plan', i, |plan|, |plan| + 1, w);
    } else {
      SingleOwner(ps, w, p);
      ReachesThenLeads(plan, items, i, p, |plan|);
    }
  }

  ghost predicate Dispatchable(stream: seq<Request>, n: nat, log: Log, w: nat) {
    && Sound(stream, n, log)
    && |log.slot| < |stream| && Submittable(stream[|log.slot|])
    && w in Owners(log, stream[|log.slot|])
  }

  lemma DispatchOrdered(stream: seq<Request>, n: nat, log: Log, w: nat, q: nat, s: nat)
    requires Dispatchable(stream, n, log, w)
    requires q < s <= |log.slot| && Conflict(stream[q], stream[s])
    ensures var log' := Dispatched(log, n, stream[|log.slot|], w);
            Shaped(n, log'.plan, log'.slot) && Leads(log'.plan, log'.slot[q], log'.slot[s])
  {
    var r := stream[|log.slot|];
    OwnersInRange(log, n, r);
    var ps := Owners(log, r);
    DispatchShaped(n, log.plan, log.slot, ps, w);
    if s < |log.slot| {
      LeadsAppend(log.plan, Items(ps, |log.slot|, w), log.slot[q], log.slot[s]);
    } else {
      var k :| Covers(stream[q], k) && Covers(r, k);
      var p := Route(log.mapping, log.roundRobin, r)[k];
      assert Anchored(log, n, q, k);
      DispatchContinues(log.plan, log.slot[q], ps, |log.slot|, w, p);
    }
  }

  lemma DispatchAnchored(stream: seq<Request>, n: nat, log: Log, w: nat, q: nat, k: int)
    requires Dispatchable(stream, n, log, w)
    requires q <= |log.slot| && Covers(stream[q], k)
    ensures var log' := Dispatched(log, n, stream[|log.slot|], w);
            Shaped(n, log'.plan, log'.slot) && Anchored(log', n, q, k)
  {
    var r := stream[|log.slot|];
    OwnersInRange(log, n, r);
    var ps := Owners(log, r);
    var items := Items(ps, |log.slot|, w);
    DispatchShaped(n, log.plan, log.slot, ps, w);
    var log' := Dispatched(log, n, r, w);
    forall p: nat | p < n && (k in log'.mapping ==> p == log'.mapping[k])
      ensures Reaches(log'.plan, log'.slot[q], p)
    {
      if q < |log.slot| {
        assert Anchored(log, n, q, k);
        ReachesAppend(log.plan, items, log.slot[q], p);
      } else {
        DispatchReachesOwners(log.plan, ps, |log.slot|, w, p);
      }
    }
  }

  lemma DispatchKeeps(stream: seq<Request>, n: nat, log: Log, w: nat)
    requires Dispatchable(stream, n, log, w)
    ensures Sound(stream, n, Dispatched(log, n, stream[|log.slot|], w))
  {
    var r := stream[|log.slot|];
    OwnersInRange(log, n, r);
    DispatchShaped(n, log.plan, log.slot, Owners(log, r), w);
    var log' := Dispatched(log, n, r, w);
    forall q, k | 0 <= q < |log'.slot| && Covers(stream[q], k) ensures Anchored(log', n, q, k) {
      DispatchAnchored(stream, n, log, w, q, k);
    }
    forall q, s | 0 <= q < s < |log'.slot| && Conflict(stream[q], stream[s])
      ensures Leads(log'.plan, log'.slot[q], log'.slot[s])
    {
      DispatchOrdered(stream, n, log, w, q, s);
    }
  }

  /** Replacing the whole map by any other is safe because of the global barrier that follows it. */
  lemma RemapKeeps(stream: seq<Request>, n: nat, log: Log, mapping: map<int, nat>)
    requires Sound(stream, n, log) && InRange(mapping, n)
    ensures Sound(stream, n, Remapped(log, n, mapping))
  {
    var items := [Barrier(Everyone(n))];
    var log' := Remapped(log, n, mapping);
    var plan' := log'.plan;
    assert 0 in Everyone(n);
    assert Shaped(n, plan', log.slot) by {
      forall i | 0 <= i < |plan'|
        ensures Members(plan'[i]) != {} && (forall v :: v in Members(plan'[i]) ==> v < n)
        ensures plan'[i].Exec? ==> plan'[i].request < |log.slot| && log.slot[plan'[i].request] == i
      {
        assert i < |log.plan| ==> plan'[i] == log.plan[i];
      }
    }
    forall q, k | 0 <= q < |log.slot| && Covers(stream[q], k) ensures Anchored(log', n, q, k) {
      var i := log.slot[q];
      assert plan'[i] == log.plan[i] && Leads(plan', i, i);
      LeadsStep(plan', i, i, |log.plan|, log.plan[i].worker);
    }
    forall q, r | 0 <= q < r < |log.slot| && Conflict(stream[q], stream[r])
      ensures Leads(plan', log.slot[q], log.slot[r])
    {
      LeadsAppend(log.plan, items, log.slot[q], log.slot[r]);
    }
  }
}
