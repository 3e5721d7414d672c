/** The scheduling thread's code, statement by statement, over the fields it updates. */
module SchedulerThread {
  import opened Requests
  import opened Plan
  import opened Invariant

  class Scheduler {
    const partitions: nat
    var dataToPartition: map<int, nat>
    var roundRobin: nat
    var crossPartitionCount: nat
    /** What was ever pushed to each worker's queue; a message is its number of creation. */
    var sent: seq<seq<nat>>
    var messages: nat

    ghost var stream: seq<Request>
    ghost var log: Log

    ghost predicate Valid()
      reads this
    {
      && Sound(stream, partitions, log) && |log.slot| == |stream|
      && log.mapping == dataToPartition && log.roundRobin == roundRobin
      && Delivered()
    }

    /** Every worker was sent exactly the messages of the log that concern it, in log order. */
    ghost predicate Delivered()
      reads this
    {
      && messages == |log.plan| && |sent| == partitions
      && forall w :: 0 <= w < partitions ==> sent[w] == Script(log.plan, w)
    }

    constructor (n: nat)
      requires n > 0
      ensures Valid() && partitions == n && stream == [] && dataToPartition == map[] && log.plan == []
      ensures roundRobin == 0 && crossPartitionCount == 0
    {
      partitions := n;
      dataToPartition := map[];
      roundRobin := 0;
      crossPartitionCount := 0;
      sent := seq(n, w => []);
      messages := 0;
      stream := [];
      log := Log(map[], 0, [], []);
    }

    /** Populating maps a key that is not mapped yet, and moves the counter in any case. */
    method MapKey(key: int)
      requires Valid() && stream == [] && log.plan == []
      modifies this`dataToPartition, this`roundRobin, this`log
      ensures Valid() && log.plan == []
      ensures dataToPartition == if key in old(dataToPartition) then old(dataToPartition)
                                 else old(dataToPartition)[key := old(roundRobin)]
      ensures roundRobin == (old(roundRobin) + 1) % partitions
      ensures (dataToPartition, roundRobin) == MapOne(old(dataToPartition), old(roundRobin), partitions, key)
    {
      if key !in dataToPartition {
        dataToPartition := dataToPartition[key := roundRobin];
      }
      roundRobin := (roundRobin + 1) % partitions;
      log := log.(mapping := dataToPartition, roundRobin := roundRobin);
    }

    method InvolvedPartitions(request: Request) returns (ps: set<nat>)
      requires roundRobin < partitions
      modifies this`dataToPartition, this`roundRobin
      ensures dataToPartition == Route(old(dataToPartition), old(roundRobin), request)
      ensures roundRobin == Advance(old(dataToPartition), old(roundRobin), partitions, request)
      ensures ps == Involved(Route(old(dataToPartition), old(roundRobin), request), request)
      ensures forall k :: k in dataToPartition <==> k in old(dataToPartition) || Covers(request, k)
      ensures forall k :: k in dataToPartition ==>
                dataToPartition[k] == if k in old(dataToPartition) then old(dataToPartition)[k] else old(roundRobin)
      ensures roundRobin == if exists k :: Covers(request, k) && k !in old(dataToPartition)
                            then (old(roundRobin) + 1) % partitions else old(roundRobin)
      ensures forall p :: p in ps <==> exists k :: Covers(request, k) && k in dataToPartition && dataToPartition[k] == p
    {
      hide Route, AllMapped, Advance, KnownOwners, Involved, FirstKeys;
      NoKeys(dataToPartition, roundRobin, request);
      ps := {};
      var newMapping := false;
      var i := 0;
      while i < Range(request)
        invariant 0 <= i && (i <= Range(request) || i == 0)
        invariant dataToPartition == Route(old(dataToPartition), old(roundRobin), FirstKeys(request, i))
        invariant roundRobin == old(roundRobin)
        invariant newMapping <==> !AllMapped(old(dataToPartition), FirstKeys(request, i))
        invariant ps == KnownOwners(old(dataToPartition), FirstKeys(request, i))
      {
        if request.key + i !in dataToPartition {
          dataToPartition := dataToPartition[request.key + i := roundRobin];
          newMapping := true;
        } else {
          ps := ps + {dataToPartition[request.key + i]};
        }
        OneMoreKey(old(dataToPartition), roundRobin, request, i);
        i := i + 1;
      }
      ghost var mapping := old(dataToPartition);
      SameKeys(mapping, roundRobin, request, i);
      OwnersSplit(mapping, roundRobin, request);
      AdvanceTells(mapping, roundRobin, partitions, request);
      if newMapping {
        ps := ps + {roundRobin};
        roundRobin := (roundRobin + 1) % partitions;
      }
      RouteIs(mapping, old(roundRobin), request);
      AdvanceIs(mapping, old(roundRobin), partitions, request);
      InvolvedAre(mapping, old(roundRobin), request);
    }

    /** A message goes to the end of one worker's queue. */
    method PushRequest(worker: nat, message: nat)
      requires worker < |sent|
      modifies this`sent
      ensures sent == old(sent)[worker := old(sent)[worker] + [message]]
    {
      sent := sent[worker := sent[worker] + [message]];
    }

    /** One barrier, a copy to every listed worker, in whatever order the set is visited. */
    method SyncPartitions(ps: set<nat>)
      requires Delivered() && forall p :: p in ps ==> p < partitions
      modifies this`sent, this`messages, this`log
      ensures Delivered() && log == old(log).(plan := old(log).plan + [Barrier(ps)])
    {
      var barrier := messages;
      messages := messages + 1;
      var rest := ps;
      while rest != {}
        modifies this`sent
        invariant rest <= ps && |sent| == partitions
        invariant forall w :: 0 <= w < partitions ==>
          sent[w] == old(sent)[w] + (if w in ps && w !in rest then [barrier] else [])
      {
        var p :| p in rest;
        PushRequest(p, barrier);
        rest := rest - {p};
      }
      forall w | 0 <= w < partitions ensures sent[w] == Script(log.plan + [Barrier(ps)], w) {
        ScriptAppend(log.plan, Barrier(ps), w);
      }
      log := log.(plan := log.plan + [Barrier(ps)]);
    }

    method SendRequest(worker: nat)
      requires Delivered() && worker < partitions
      modifies this`sent, this`messages, this`log
      ensures Delivered()
      ensures log == old(log).(plan := old(log).plan + [Exec(|old(log).slot|, worker)],
                               slot := old(log).slot + [|old(log).plan|])
    {
      PushRequest(worker, messages);
      messages := messages + 1;
      ghost var item := Exec(|log.slot|, worker);
      forall w | 0 <= w < partitions ensures sent[w] == Script(log.plan + [item], w) {
        ScriptAppend(log.plan, item, w);
      }
      log := log.(plan := log.plan + [item], slot := log.slot + [|log.plan|]);
    }

    /** The messages of one request: between two barriers if it involves several partitions. */
    method SendItems(ps: set<nat>, worker: nat)
      requires Delivered() && worker in ps && forall p :: p in ps ==> p < partitions
      modifies this`sent, this`messages, this`log, this`crossPartitionCount
      ensures Delivered()
      ensures var (at, r) := (|old(log).plan|, |old(log).slot|);
              log == old(log).(plan := old(log).plan + Items(ps, r, worker),
                               slot := old(log).slot + [if |ps| > 1 then at + 1 else at])
      ensures crossPartitionCount == old(crossPartitionCount) + if |ps| > 1 then 1 else 0
    {
      hide Script;
      if |ps| > 1 {
        SyncPartitions(ps);
        SendRequest(worker);
        SyncPartitions(ps);
        crossPartitionCount := crossPartitionCount + 1;
      } else {
        SendRequest(worker);
      }
    }

    /** Dispatching keeps everything in `Valid`: in particular the new request is chained behind every
        earlier one it shares a key with, and the messages sent are those of the transition system. */
    method Dispatch(request: Request)
      requires Valid() && Submittable(request)
      modifies this
      ensures Valid() && stream == old(stream) + [request]
      ensures exists w :: w in Owners(old(log), request) && log == Dispatched(old(log), partitions, request, w)
      ensures crossPartitionCount == old(crossPartitionCount) + if |Owners(old(log), request)| > 1 then 1 else 0
      ensures forall k :: k in dataToPartition <==> k in old(dataToPartition) || Covers(request, k)
      ensures forall k :: k in dataToPartition ==>
                dataToPartition[k] == if k in old(dataToPartition) then old(dataToPartition)[k] else old(roundRobin)
      ensures roundRobin == if exists k :: Covers(request, k) && k !in old(dataToPartition)
                            then (old(roundRobin) + 1) % partitions else old(roundRobin)
    {
      OwnersInRange(log, partitions, request);
      hide Sound, Script, Route, Involved, AllMapped, Advance, Items, Delivered;
      var ps := InvolvedPartitions(request);
      log := log.(mapping := dataToPartition, roundRobin := roundRobin);
      var p :| p in ps;
      SendItems(ps, p);
      stream := stream + [request];
      assert log == Dispatched(old(log), partitions, request, p);
      SoundAfter(old(stream), partitions, old(log), request, p);
    }

    /** The new map takes over and every worker is sent a common barrier. */
    method ChangePartitionScheme(mapping: map<int, nat>)
      requires Valid() && InRange(mapping, partitions)
      modifies this
      ensures Valid() && stream == old(stream) && log == Remapped(old(log), partitions, mapping)
      ensures dataToPartition == mapping && roundRobin == old(roundRobin)
      ensures crossPartitionCount == old(crossPartitionCount)
    {
      dataToPartition := mapping;
      log := log.(mapping := mapping);
      SyncPartitions(Everyone(partitions));
      RemapKeeps(stream, partitions, old(log), mapping);
    }
  }

  /** The first `i` keys a request names, as a request of its own. */
  function FirstKeys(r: Request, i: nat): Request {
    Request(Scan, r.key, "", i)
  }

  /** The owners of those keys of a request that are mapped already. */
  function KnownOwners(mapping: map<int, nat>, r: Request): set<nat> {
    set k | r.key <= k < r.key + Range(r) && k in mapping :: mapping[k]
  }

  lemma NoKeys(mapping: map<int, nat>, roundRobin: nat, r: Request)
    ensures Route(mapping, roundRobin, FirstKeys(r, 0)) == mapping
    ensures AllMapped(mapping, FirstKeys(r, 0)) && KnownOwners(mapping, FirstKeys(r, 0)) == {}
  {
  }

  lemma OneMoreKey(mapping: map<int, nat>, roundRobin: nat, r: Request, i: nat)
    ensures var k, a, b := r.key + i, FirstKeys(r, i), FirstKeys(r, i + 1);
            && Route(mapping, roundRobin, b) ==
                 (if k in mapping then Route(mapping, roundRobin, a) else Route(mapping, roundRobin, a)[k := roundRobin])
            && (AllMapped(mapping, b) <==> AllMapped(mapping, a) && k in mapping)
            && KnownOwners(mapping, b) ==
                 (if k in mapping then KnownOwners(mapping, a) + {mapping[k]} else KnownOwners(mapping, a))
            && (k in Route(mapping, roundRobin, a) <==> k in mapping)
            && (k in mapping ==> Route(mapping, roundRobin, a)[k] == mapping[k])
  {
  }

  lemma SameKeys(mapping: map<int, nat>, roundRobin: nat, r: Request, i: nat)
    requires i == Range(r) || (i == 0 && Range(r) <= 0)
    ensures Route(mapping, roundRobin, FirstKeys(r, i)) == Route(mapping, roundRobin, r)
    ensures AllMapped(mapping, FirstKeys(r, i)) <==> AllMapped(mapping, r)
    ensures KnownOwners(mapping, FirstKeys(r, i)) == KnownOwners(mapping, r)
  {
  }

  lemma AdvanceTells(mapping: map<int, nat>, roundRobin: nat, n: nat, r: Request)
    requires n > 0
    ensures Advance(mapping, roundRobin, n, r) == if AllMapped(mapping, r) then roundRobin else (roundRobin + 1) % n
  {
  }

  lemma InvolvedAre(mapping: map<int, nat>, roundRobin: nat, r: Request)
    ensures var m := Route(mapping, roundRobin, r);
            forall p :: p in Involved(m, r) <==> exists k :: Covers(r, k) && k in m && m[k] == p
  {
    var m := Route(mapping, roundRobin, r);
    forall p ensures p in Involved(m, r) <==> exists k :: Covers(r, k) && k in m && m[k] == p {
      if p in Involved(m, r) {
        var k :| r.key <= k < r.key + Range(r) && m[k] == p;
        assert Covers(r, k);
      }
    }
  }

  /** The involved partitions are the owners of the mapped keys, and the round-robin one if some key
      is new. */
  lemma OwnersSplit(mapping: map<int, nat>, roundRobin: nat, r: Request)
    ensures Involved(Route(mapping, roundRobin, r), r) ==
            KnownOwners(mapping, r) + if AllMapped(mapping, r) then {} else {roundRobin}
  {
    var routed := Route(mapping, roundRobin, r);
    if k :| r.key <= k < r.key + Range(r) && k !in mapping {
      assert routed[k] == roundRobin;
    }
    forall p | p in KnownOwners(mapping, r) ensures p in Involved(routed, r) {
      var k :| r.key <= k < r.key + Range(r) && k in mapping && mapping[k] == p;
      assert routed[k] == p;
    }
  }

  lemma SoundAfter(stream: seq<Request>, n: nat, log: Log, r: Request, w: nat)
    requires Sound(stream, n, log) && |log.slot| == |stream| && n > 0 && Submittable(r) && w in Owners(log, r)
    ensures Sound(stream + [r], n, Dispatched(log, n, r, w))
  {
    SoundLonger(stream, n, log, r);
    hide Sound, Owners, Dispatched;
    assert (stream + [r])[|log.slot|] == r;
    DispatchKeeps(stream + [r], n, log, w);
  }

  lemma SoundLonger(stream: seq<Request>, n: nat, log: Log, r: Request)
    requires Sound(stream, n, log)
    ensures Sound(stream + [r], n, log)
  {
    var longer := stream + [r];
    assert forall q :: 0 <= q < |stream| ==> longer[q] == stream[q];
  }
}
