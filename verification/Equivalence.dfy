/** A complete parallel execution gives the store and the answers of the sequential one. */
module Equivalence {
  import opened Requests
  import opened Plan
  import opened Machine
  import opened Invariant
  import opened Order
  import opened Liveness

  // ---- the sequential execution ----

  datatype Progress = Progress(store: map<int, string>, got: seq<Option<string>>)

  function Access(c: Config, r: Request, p: Progress): (p': Progress)
    requires CanRead(r, p.store)
    ensures CanRead(r, p'.store) && (p.store != map[] ==> p'.store != map[])
  {
    var store := Touched(c, r, p.store);
    assert r.kind.Write? ==> r.key in store;
    Progress(store, p.got + [Output(r, p.store, |p.got|)])
  }

  function Continue(c: Config, r: Request, p: Progress): (p': Progress)
    requires CanRead(r, p.store)
    ensures p.store != map[] ==> p'.store != map[]
    decreases Range(r) - |p.got|
  {
    if Complete(r, p.got) then p else Continue(c, r, Access(c, r, p))
  }

  /** One request executed alone, from its first key access to its answer. */
  function Alone(c: Config, r: Request, store: map<int, string>): (p: Progress)
    requires CanRead(r, store)
    ensures store != map[] ==> p.store != map[]
  {
    Continue(c, r, Progress(store, []))
  }

  /** The store after the first `n` requests, executed one after the other in stream order. */
  function SequentialStore(c: Config, n: nat): (store: map<int, string>)
    requires n <= |c.stream| && Servable(c)
    ensures c.store != map[] ==> store != map[]
  {
    if n == 0 then c.store else Alone(c, c.stream[n - 1], SequentialStore(c, n - 1)).store
  }

  function SequentialAnswer(c: Config, r: nat): seq<Option<string>>
    requires r < |c.stream| && Servable(c)
  {
    Alone(c, c.stream[r], SequentialStore(c, r)).got
  }

  /** The first `t` accesses of one request executed alone. */
  function Partial(c: Config, r: Request, store: map<int, string>, t: nat): (p: Progress)
    requires CanRead(r, store)
    ensures |p.got| == t && CanRead(r, p.store)
  {
    if t == 0 then Progress(store, []) else Access(c, r, Partial(c, r, store, t - 1))
  }

  // ---- requests touch their own keys only ----

  /** A scan that stays inside the populated keys: all of 0, 1, ... up to its last key were populated. */
  ghost predicate Inside(c: Config, r: Request) {
    r.kind.Scan? ==> 0 <= r.key && HoldsPrefix(c.store, r.key + r.length)
  }

  ghost predicate HoldsPrefix(store: map<int, string>, n: int) {
    forall k :: 0 <= k < n ==> k in store
  }

  lemma {:induction false} PrefixSize(keys: set<int>, n: nat)
    requires forall k :: 0 <= k < n ==> k in keys
    ensures |keys| >= n
  {
    if n > 0 {
      PrefixSize(keys - {n - 1}, n - 1);
    }
  }

  /** Exactly when a scan ends inside the first `n` keys does reading modulo `n` read the keys it names. */
  lemma ModuloIsIdentity(start: int, length: int, n: nat)
    requires 0 <= start && length >= 1 && n > 0
    ensures (forall i: nat :: i < length ==> ScanKey(start, i, n) == start + i) <==> start + length <= n
  {
    if start + length > n {
      assert ScanKey(start, length - 1, n) < n;
    } else {
      forall i: nat | i < length ensures ScanKey(start, i, n) == start + i {
        SmallModulo(start + i, n);
      }
    }
  }

  lemma SmallModulo(x: int, n: nat)
    requires 0 <= x < n
    ensures x % n == x
  {
  }

  ghost predicate Agree(r: Request, a: map<int, string>, b: map<int, string>) {
    forall k :: Covers(r, k) ==> Lookup(a, k) == Lookup(b, k)
  }

  ghost predicate Contained(r: Request, n: nat) {
    && Range(r) >= 1
    && (r.kind.Scan? ==> 0 <= r.key && r.key + r.length <= n)
  }

  /** What an access reads and writes depends only on the keys the request covers. */
  lemma AccessLocal(c: Config, r: Request, a: map<int, string>, b: map<int, string>, i: nat, n: nat)
    requires CanRead(r, a) && CanRead(r, b) && HoldsPrefix(a, n) && HoldsPrefix(b, n)
    requires Contained(r, n) && i < Range(r) && Agree(r, a, b)
    ensures Output(r, a, i) == Output(r, b, i)
    ensures Agree(r, Touched(c, r, a), Touched(c, r, b))
  {
    assert Covers(r, r.key);
    if r.kind.Scan? {
      PrefixSize(a.Keys, n);
      PrefixSize(b.Keys, n);
      assert Covers(r, r.key + i);
      ModuloIsIdentity(r.key, r.length, |a|);
      ModuloIsIdentity(r.key, r.length, |b|);
    }
  }

  lemma TouchedElsewhere(c: Config, r: Request, store: map<int, string>, k: int)
    requires !Covers(r, k)
    ensures Lookup(Touched(c, r, store), k) == Lookup(store, k)
  {
  }

  lemma {:induction false} ContinueElsewhere(c: Config, r: Request, p: Progress, k: int)
    requires CanRead(r, p.store) && !Covers(r, k)
    ensures Lookup(Continue(c, r, p).store, k) == Lookup(p.store, k)
    decreases Range(r) - |p.got|
  {
    if !Complete(r, p.got) {
      TouchedElsewhere(c, r, p.store, k);
      ContinueElsewhere(c, r, Access(c, r, p), k);
    }
  }

  /** Requests that do not cover a key leave its value alone. */
  lemma {:induction false} UntouchedBetween(c: Config, q: nat, r: nat, k: int)
    requires Servable(c) && q <= r <= |c.stream|
    requires forall i :: q <= i < r ==> !Covers(c.stream[i], k)
    ensures Lookup(SequentialStore(c, r), k) == Lookup(SequentialStore(c, q), k)
    decreases r - q
  {
    if q < r {
      UntouchedBetween(c, q, r - 1, k);
      ContinueElsewhere(c, c.stream[r - 1], Progress(SequentialStore(c, r - 1), []), k);
    }
  }

  /** Executing a request adds the key it writes to the store, and no other. */
  lemma {:induction false} ContinueKeys(c: Config, r: Request, p: Progress)
    requires CanRead(r, p.store)
    ensures Continue(c, r, p).store.Keys == p.store.Keys + if r.kind.Write? && !Complete(r, p.got) then {r.key} else {}
    decreases Range(r) - |p.got|
  {
    if !Complete(r, p.got) {
      ContinueKeys(c, r, Access(c, r, p));
    }
  }

  lemma {:induction false} PartialKeys(c: Config, r: Request, store: map<int, string>, t: nat)
    requires CanRead(r, store)
    ensures store.Keys <= Partial(c, r, store, t).store.Keys
  {
    if t > 0 {
      PartialKeys(c, r, store, t - 1);
    }
  }

  lemma {:induction false} SequentialKeepsKeys(c: Config, r: nat)
    requires Servable(c) && r <= |c.stream|
    ensures c.store.Keys <= SequentialStore(c, r).Keys
  {
    if r > 0 {
      SequentialKeepsKeys(c, r - 1);
      ContinueKeys(c, c.stream[r - 1], Progress(SequentialStore(c, r - 1), []));
    }
  }

  /** A scan writes nothing. */
  lemma {:induction false} ContinueScan(c: Config, r: Request, p: Progress)
    requires CanRead(r, p.store) && r.kind.Scan?
    ensures Continue(c, r, p).store == p.store
    decreases Range(r) - |p.got|
  {
    if !Complete(r, p.got) {
      ContinueScan(c, r, Access(c, r, p));
    }
  }

  lemma {:induction false} PartialScan(c: Config, r: Request, store: map<int, string>, t: nat)
    requires CanRead(r, store) && r.kind.Scan?
    ensures Partial(c, r, store, t).store == store
  {
    if t > 0 {
      PartialScan(c, r, store, t - 1);
    }
  }

  // ---- the invariant that ties the shared store to the sequential one ----

  /** How many key accesses request `r` has made while in progress. */
  function Accesses(s: State, r: nat): nat {
    if r < |s.log.slot| && s.log.slot[r] < |s.log.plan| && s.log.plan[s.log.slot[r]].Exec? then
      var w := s.log.plan[s.log.slot[r]].worker;
      if w < |s.workers| && s.workers[w].status.Running? && s.workers[w].status.item == s.log.slot[r]
      then |s.workers[w].status.got| else 0
    else 0
  }

  /** `r` is the next request that covers key `k`, or the end of the stream if there is none. */
  ghost predicate Frontier(c: Config, s: State, k: int, r: nat) {
    && r <= |c.stream|
    && (r < |c.stream| ==> Covers(c.stream[r], k) && r !in s.answers)
    && (forall q :: 0 <= q < r && Covers(c.stream[q], k) ==> q in s.answers)
  }

  ghost function Expected(c: Config, s: State, r: nat): map<int, string>
    requires r <= |c.stream| && Servable(c)
  {
    if r == |c.stream| then SequentialStore(c, r)
    else Partial(c, c.stream[r], SequentialStore(c, r), Accesses(s, r)).store
  }

  /** The accesses made so far are the first ones the request makes when executed alone. */
  ghost predicate OnTrack(c: Config, r: nat, got: seq<Option<string>>)
    requires r < |c.stream| && Servable(c)
  {
    var p := Partial(c, c.stream[r], SequentialStore(c, r), |got|);
    p.got == got && Continue(c, c.stream[r], p) == Alone(c, c.stream[r], SequentialStore(c, r))
  }

  ghost predicate StoreTracks(c: Config, s: State)
    requires Servable(c)
  {
    forall k, r :: Frontier(c, s, k, r) ==> Lookup(s.store, k) == Lookup(Expected(c, s, r), k)
  }

  ghost predicate Tracks(c: Config, s: State)
    requires Servable(c)
  {
    && c.store.Keys <= s.store.Keys
    && StoreTracks(c, s)
    && (forall w: nat, r: nat :: Runs(c, s, w, r) && r < |c.stream| && Inside(c, c.stream[r]) ==>
          OnTrack(c, r, s.workers[w].status.got))
    && (forall r :: r in s.answers && r < |c.stream| && Inside(c, c.stream[r]) ==>
          s.answers[r] == SequentialAnswer(c, r))
  }

  lemma AccessesOfRunner(c: Config, s: State, w: nat, r: nat)
    requires Inv(c, s) && Runs(c, s, w, r)
    ensures Accesses(s, r) == |s.workers[w].status.got|
  {
    RunsFacts(c, s, w, r);
  }

  /** A request that is not in progress has made no access. */
  lemma IdleAccesses(c: Config, s: State, r: nat)
    requires Inv(c, s)
    ensures Accesses(s, r) > 0 ==> InProgress(c, s, r)
  {
    if Accesses(s, r) > 0 {
      assert Runs(c, s, s.log.plan[s.log.slot[r]].worker, r);
    }
  }

  /** While a request is in progress it is the next one for each of its keys. */
  lemma RunnerIsFrontier(c: Config, s: State, w: nat, r: nat, k: int)
    requires Inv(c, s) && Runs(c, s, w, r) && r < |c.stream| && Covers(c.stream[r], k)
    ensures Frontier(c, s, k, r)
    ensures forall q :: Frontier(c, s, k, q) ==> q == r
  {
    RunsFacts(c, s, w, r);
    assert InProgress(c, s, r);
    forall q | 0 <= q < r && Covers(c.stream[q], k) ensures q in s.answers {
      assert Conflict(c.stream[q], c.stream[r]);
      InOrder(c, s, q, r);
    }
  }

  /** A change that affects neither the store nor the answers nor any access count. */
  lemma TracksFrame(c: Config, s: State, s': State)
    requires Valid(c) && Tracks(c, s) && s'.store == s.store && s'.answers == s.answers
    requires forall r: nat :: Accesses(s', r) == Accesses(s, r)
    requires forall w: nat, r: nat :: Runs(c, s', w, r) ==>
               s'.workers[w].status.got == [] || (Runs(c, s, w, r) && s'.workers[w].status.got == s.workers[w].status.got)
    ensures Tracks(c, s')
  {
    forall k, r | Frontier(c, s', k, r) ensures Lookup(s'.store, k) == Lookup(Expected(c, s', r), k) {
      assert Frontier(c, s, k, r);
    }
  }

  lemma TracksQuiet(c: Config, s: State, step: Step)
    requires Valid(c) && Inv(c, s) && Tracks(c, s) && Enabled(c, s, step) && !step.Touch? && !step.Finish?
    ensures Tracks(c, Apply(c, s, step))
  {
    hide Inv, Tracks;
    var s' := Apply(c, s, step);
    forall w: nat, r: nat | Runs(c, s', w, r)
      ensures s'.workers[w].status.got == [] ||
              (Runs(c, s, w, r) && s'.workers[w].status.got == s.workers[w].status.got)
    {
      QuietRunner(c, s, step, w, r);
    }
    forall r: nat ensures Accesses(s', r) == Accesses(s, r) {
      QuietAccesses(c, s, step, r);
    }
    assert s'.store == s.store && s'.answers == s.answers;
    TracksFrame(c, s, s');
  }

  lemma QuietRunner(c: Config, s: State, step: Step, w: nat, r: nat)
    requires Inv(c, s) && Enabled(c, s, step) && !step.Touch? && !step.Finish?
    requires Runs(c, Apply(c, s, step), w, r)
    ensures var got := Apply(c, s, step).workers[w].status.got;
            (Runs(c, s, w, r) && s.workers[w].status.got == got) || (got == [] && !Runs(c, s, w, r))
  {
    hide Sound, GatesOk, Records;
    if !(step.Start? && step.worker == w) {
      assert w < c.workers && !s.workers[w].status.Idle?;
      HeldFacts(c, s, w);
    }
    hide Fifo;
  }

  lemma StillRuns(c: Config, s: State, step: Step, w: nat, r: nat)
    requires Enabled(c, s, step) && !step.Touch? && !step.Finish? && Runs(c, s, w, r)
    ensures var s' := Apply(c, s, step);
            Runs(c, s', w, r) && s'.workers[w].status.got == s.workers[w].status.got
  {
  }

  lemma QuietAccesses(c: Config, s: State, step: Step, r: nat)
    requires Valid(c) && Inv(c, s) && Enabled(c, s, step) && !step.Touch? && !step.Finish?
    ensures Accesses(Apply(c, s, step), r) == Accesses(s, r)
  {
    var s' := Apply(c, s, step);
    StepKeeps(c, s, step);
    SameAccesses(c, s, s', r) by {
      forall w: nat | Runs(c, s, w, r)
        ensures Runs(c, s', w, r) && s'.workers[w].status.got == s.workers[w].status.got
      {
        StillRuns(c, s, step, w, r);
      }
      forall w: nat | Runs(c, s', w, r)
        ensures s'.workers[w].status.got == [] || Runs(c, s, w, r)
      {
        QuietRunner(c, s, step, w, r);
      }
    }
  }

  lemma SameAccesses(c: Config, s: State, s': State, r: nat)
    requires Inv(c, s) && Inv(c, s')
    requires forall w: nat :: Runs(c, s, w, r) ==>
               Runs(c, s', w, r) && s'.workers[w].status.got == s.workers[w].status.got
    requires forall w: nat :: Runs(c, s', w, r) ==> s'.workers[w].status.got == [] || Runs(c, s, w, r)
    ensures Accesses(s', r) == Accesses(s, r)
  {
    if InProgress(c, s, r) {
      var w :| Runs(c, s, w, r);
      AccessesOfRunner(c, s, w, r);
      AccessesOfRunner(c, s', w, r);
    } else {
      IdleAccesses(c, s, r);
      IdleAccesses(c, s', r);
      if InProgress(c, s', r) {
        var w :| Runs(c, s', w, r);
        AccessesOfRunner(c, s', w, r);
      }
    }
  }

  // ---- an access ----

  /** The keys of a request in progress hold what they would hold if it executed alone. */
  lemma RunnerAgrees(c: Config, s: State, w: nat, r: nat)
    requires Valid(c) && Inv(c, s) && Tracks(c, s) && Runs(c, s, w, r) && r < |c.stream|
    ensures Agree(c.stream[r], s.store, Partial(c, c.stream[r], SequentialStore(c, r), |s.workers[w].status.got|).store)
  {
    AccessesOfRunner(c, s, w, r);
    forall k | Covers(c.stream[r], k) ensures Lookup(s.store, k) == Lookup(Expected(c, s, r), k) {
      RunnerIsFrontier(c, s, w, r, k);
    }
  }

  lemma OthersStillRun(c: Config, s: State, step: Step, v: nat, q: nat)
    requires Enabled(c, s, step) && (step.Touch? || step.Finish?) && !Runs(c, s, step.worker, q)
    ensures var s' := Apply(c, s, step);
            && (Runs(c, s, v, q) <==> Runs(c, s', v, q))
            && (Runs(c, s, v, q) ==> s'.workers[v] == s.workers[v])
  {
  }

  lemma OthersUndisturbed(c: Config, s: State, step: Step, q: nat, r: nat)
    requires Valid(c) && Inv(c, s) && Enabled(c, s, step) && (step.Touch? || step.Finish?)
    requires Runs(c, s, step.worker, r) && q != r
    ensures Accesses(Apply(c, s, step), q) == Accesses(s, q)
  {
    StepKeeps(c, s, step);
    forall v: nat
      ensures Runs(c, s, v, q) <==> Runs(c, Apply(c, s, step), v, q)
      ensures Runs(c, s, v, q) ==> Apply(c, s, step).workers[v] == s.workers[v]
    {
      OthersStillRun(c, s, step, v, q);
    }
    SameAccesses(c, s, Apply(c, s, step), q);
  }

  /** One more access on a store that agrees with the sequential one is the sequential access. */
  lemma AccessTracks(c: Config, r: nat, store: map<int, string>, got: seq<Option<string>>)
    requires Valid(c) && r < |c.stream| && CanRead(c.stream[r], store) && c.store.Keys <= store.Keys
    requires Inside(c, c.stream[r]) && OnTrack(c, r, got) && !Complete(c.stream[r], got)
    requires Agree(c.stream[r], store, Partial(c, c.stream[r], SequentialStore(c, r), |got|).store)
    ensures OnTrack(c, r, got + [Output(c.stream[r], store, |got|)])
    ensures Agree(c.stream[r], Touched(c, c.stream[r], store),
                  Partial(c, c.stream[r], SequentialStore(c, r), |got| + 1).store)
  {
    var q, before := c.stream[r], SequentialStore(c, r);
    var p := Partial(c, q, before, |got|);
    var n := if q.kind.Scan? then q.key + q.length else 0;
    assert Submittable(q);
    SequentialKeepsKeys(c, r);
    PartialKeys(c, q, before, |got|);
    assert HoldsPrefix(c.store, n);
    AccessLocal(c, q, store, p.store, |got|, n);
    assert Partial(c, q, before, |got| + 1) == Access(c, q, p);
  }

  /** A scan leaves the agreement alone, wherever it reads. */
  lemma ScanAgrees(c: Config, r: nat, store: map<int, string>, t: nat)
    requires Valid(c) && r < |c.stream| && c.stream[r].kind.Scan?
    requires Agree(c.stream[r], store, Partial(c, c.stream[r], SequentialStore(c, r), t).store)
    ensures Agree(c.stream[r], store, Partial(c, c.stream[r], SequentialStore(c, r), t + 1).store)
    ensures Agree(c.stream[r], store, SequentialStore(c, r + 1))
  {
    PartialScan(c, c.stream[r], SequentialStore(c, r), t);
    PartialScan(c, c.stream[r], SequentialStore(c, r), t + 1);
    ContinueScan(c, c.stream[r], Progress(SequentialStore(c, r), []));
  }

  lemma TouchTracks(c: Config, s: State, w: nat, r: nat, k: int, q: nat)
    requires Valid(c) && Inv(c, s) && Tracks(c, s) && Enabled(c, s, Touch(w))
    requires Runs(c, s, w, r) && r < |c.stream| && q != r && Frontier(c, s, k, q)
    ensures Lookup(Touched(c, c.stream[r], s.store), k) == Lookup(Expected(c, Apply(c, s, Touch(w)), q), k)
  {
    if Covers(c.stream[r], k) {
      RunnerIsFrontier(c, s, w, r, k);
    }
    TouchedElsewhere(c, c.stream[r], s.store, k);
    OthersUndisturbed(c, s, Touch(w), q, r);
  }

  lemma TouchAdvances(c: Config, s: State, w: nat, r: nat)
    requires Valid(c) && Inv(c, s) && Tracks(c, s) && Enabled(c, s, Touch(w))
    requires Runs(c, s, w, r) && r < |c.stream|
    ensures var s' := Apply(c, s, Touch(w));
            && Runs(c, s', w, r) && (Inside(c, c.stream[r]) ==> OnTrack(c, r, s'.workers[w].status.got))
            && Agree(c.stream[r], s'.store, Expected(c, s', r))
  {
    hide Inv, Partial, SequentialStore, Continue, Alone, StoreTracks;
    RunnerAgrees(c, s, w, r);
    if Inside(c, c.stream[r]) {
      AccessTracks(c, r, s.store, s.workers[w].status.got);
    } else {
      ScanAgrees(c, r, s.store, |s.workers[w].status.got|);
    }
    StepKeeps(c, s, Touch(w));
    AccessesOfRunner(c, Apply(c, s, Touch(w)), w, r);
  }

  lemma TracksTouch(c: Config, s: State, w: nat)
    requires Valid(c) && Inv(c, s) && Tracks(c, s) && Enabled(c, s, Touch(w))
    ensures Tracks(c, Apply(c, s, Touch(w)))
  {
    hide Inv, Partial, Alone, Continue, SequentialStore;
    var s' := Apply(c, s, Touch(w));
    var r := s.log.plan[s.workers[w].status.item].request;
    assert Runs(c, s, w, r);
    TouchAdvances(c, s, w, r);
    forall k, q | Frontier(c, s', k, q) ensures Lookup(s'.store, k) == Lookup(Expected(c, s', q), k) {
      assert Frontier(c, s, k, q);
      if q != r {
        TouchTracks(c, s, w, r, k, q);
      }
    }
    forall v: nat, q: nat | Runs(c, s', v, q) && q < |c.stream| && Inside(c, c.stream[q])
      ensures OnTrack(c, q, s'.workers[v].status.got)
    {
      assert v != w ==> Runs(c, s, v, q);
    }
  }

  // ---- an answer ----

  lemma FinishedLikeAlone(c: Config, s: State, w: nat, r: nat)
    requires Valid(c) && Inv(c, s) && Tracks(c, s) && Enabled(c, s, Finish(w))
    requires Runs(c, s, w, r) && r < |c.stream|
    ensures Inside(c, c.stream[r]) ==> s.workers[w].status.got == SequentialAnswer(c, r)
    ensures Agree(c.stream[r], s.store, SequentialStore(c, r + 1))
  {
    RunnerAgrees(c, s, w, r);
    if Inside(c, c.stream[r]) {
      assert OnTrack(c, r, s.workers[w].status.got);
    } else {
      ScanAgrees(c, r, s.store, |s.workers[w].status.got|);
    }
  }

  /** While a request is in progress, no later request for one of its keys has started. */
  lemma LaterNotStarted(c: Config, s: State, w: nat, r: nat, k: int, i: nat)
    requires Inv(c, s) && Runs(c, s, w, r) && r < i < |c.stream|
    requires Covers(c.stream[r], k) && Covers(c.stream[i], k)
    ensures !Started(c, s, i)
  {
    RunsFacts(c, s, w, r);
    assert Conflict(c.stream[r], c.stream[i]);
    if Started(c, s, i) {
      InOrder(c, s, r, i);
      assert false;
    }
  }

  /** Between a request in progress and the next unfinished one for its key, nobody covers the key. */
  lemma NobodyBetween(c: Config, s: State, w: nat, r: nat, k: int, q: nat)
    requires Valid(c) && Inv(c, s) && Runs(c, s, w, r) && r < q <= |c.stream| && Covers(c.stream[r], k)
    requires forall i :: 0 <= i < q && i != r && Covers(c.stream[i], k) ==> i in s.answers
    ensures forall i :: r + 1 <= i < q ==> !Covers(c.stream[i], k)
  {
    forall i | r + 1 <= i < q ensures !Covers(c.stream[i], k) {
      AnsweredElsewhere(c, s, w, r, k, i);
    }
  }

  lemma AnsweredElsewhere(c: Config, s: State, w: nat, r: nat, k: int, i: nat)
    requires Inv(c, s) && Runs(c, s, w, r) && r < i < |c.stream| && Covers(c.stream[r], k)
    ensures i in s.answers ==> !Covers(c.stream[i], k)
  {
    if Covers(c.stream[i], k) {
      LaterNotStarted(c, s, w, r, k, i);
    }
  }

  lemma FrontierFresh(c: Config, s: State, w: nat, r: nat, k: int, q: nat)
    requires Inv(c, s) && Runs(c, s, w, r) && Covers(c.stream[r], k)
    requires r < q <= |c.stream| && (q < |c.stream| ==> Covers(c.stream[q], k))
    ensures Accesses(s, q) == 0
  {
    IdleAccesses(c, s, q);
    if q < |c.stream| {
      LaterNotStarted(c, s, w, r, k, q);
    } else {
      assert !InProgress(c, s, q);
    }
  }

  lemma FrontierInherits(c: Config, s: State, w: nat, r: nat, k: int, q: nat)
    requires Valid(c) && Inv(c, s) && Tracks(c, s) && Enabled(c, s, Finish(w))
    requires Runs(c, s, w, r) && r < q <= |c.stream| && Covers(c.stream[r], k)
    requires forall i :: 0 <= i < q && i != r && Covers(c.stream[i], k) ==> i in s.answers
    ensures Lookup(s.store, k) == Lookup(SequentialStore(c, q), k)
  {
    hide Inv, Tracks, SequentialStore, SequentialAnswer, Apply;
    NobodyBetween(c, s, w, r, k, q);
    UntouchedBetween(c, r + 1, q, k);
    FinishedLikeAlone(c, s, w, r);
  }

  lemma FinishTracks(c: Config, s: State, w: nat, r: nat, k: int, q: nat)
    requires Valid(c) && Inv(c, s) && Tracks(c, s) && Enabled(c, s, Finish(w))
    requires Runs(c, s, w, r) && r < |c.stream| && q != r
    requires q <= |c.stream| && (q < |c.stream| ==> Covers(c.stream[q], k) && q !in s.answers)
    requires forall i :: 0 <= i < q && i != r && Covers(c.stream[i], k) ==> i in s.answers
    ensures Lookup(s.store, k) == Lookup(Expected(c, s, q), k)
  {
    if Covers(c.stream[r], k) && r < q {
      FrontierInherits(c, s, w, r, k, q);
      FrontierFresh(c, s, w, r, k, q);
    } else {
      assert Frontier(c, s, k, q);
    }
  }

  lemma TracksFinish(c: Config, s: State, w: nat)
    requires Valid(c) && Inv(c, s) && Tracks(c, s) && Enabled(c, s, Finish(w))
    ensures Tracks(c, Apply(c, s, Finish(w)))
  {
    hide Inv, Partial, Alone, Continue, SequentialStore;
    var s' := Apply(c, s, Finish(w));
    var r := s.log.plan[s.workers[w].status.item].request;
    assert Runs(c, s, w, r);
    FinishedLikeAlone(c, s, w, r);
    forall k, q | Frontier(c, s', k, q) ensures Lookup(s'.store, k) == Lookup(Expected(c, s', q), k) {
      FinishTracks(c, s, w, r, k, q);
      OthersUndisturbed(c, s, Finish(w), q, r);
    }
    forall v: nat, q: nat | Runs(c, s', v, q) && q < |c.stream| && Inside(c, c.stream[q])
      ensures OnTrack(c, q, s'.workers[v].status.got)
    {
      assert Runs(c, s, v, q);
    }
  }

  // ---- every run ----

  lemma InitialTracks(c: Config)
    requires Valid(c)
    ensures Tracks(c, Initial(c))
  {
    var s := Initial(c);
    forall k, r | Frontier(c, s, k, r) ensures Lookup(s.store, k) == Lookup(Expected(c, s, r), k) {
      UntouchedBetween(c, 0, r, k);
    }
  }

  lemma {:induction false} RunTracks(c: Config, steps: seq<Step>, s: State)
    requires Valid(c) && Run(c, steps, s)
    ensures Tracks(c, s)
  {
    hide Inv, Tracks, Apply;
    if steps == [] {
      InitialTracks(c);
    } else {
      var m := |steps| - 1;
      var before := LastStep(c, steps, s);
      RunInv(c, steps[..m], before);
      RunTracks(c, steps[..m], before);
      match steps[m]
      case Touch(w) => TracksTouch(c, before, w);
      case Finish(w) => TracksFinish(c, before, w);
      case step => TracksQuiet(c, before, step);
    }
  }

  /** At any moment, every answer given so far is the one the sequential execution gives, except perhaps
      that of a scan which itself leaves the populated keys. */
  lemma AnswersAreSequential(c: Config, steps: seq<Step>, s: State, r: nat)
    requires Valid(c) && Run(c, steps, s) && r in s.answers
    ensures r < |c.stream| && (Inside(c, c.stream[r]) ==> s.answers[r] == SequentialAnswer(c, r))
  {
    RunInv(c, steps, s);
    RunTracks(c, steps, s);
  }

  /** A complete execution leaves the sequential store and answers every request, and it answers as the
      sequential execution does; only a scan that leaves the populated keys may be answered otherwise. */
  lemma ParallelIsSequential(c: Config, steps: seq<Step>, s: State)
    requires Valid(c) && Run(c, steps, s) && Quiescent(c, s)
    ensures s.store == SequentialStore(c, |c.stream|)
    ensures forall r: nat :: r in s.answers <==> r < |c.stream|
    ensures forall r: nat :: r < |c.stream| && Inside(c, c.stream[r]) ==> s.answers[r] == SequentialAnswer(c, r)
  {
    RunInv(c, steps, s);
    RunTracks(c, steps, s);
    forall r: nat | r < |c.stream| ensures r in s.answers {
      AllAnswered(c, s, r);
    }
    forall k ensures Lookup(s.store, k) == Lookup(SequentialStore(c, |c.stream|), k) {
      assert Frontier(c, s, k, |c.stream|);
    }
    SameLookups(s.store, SequentialStore(c, |c.stream|));
  }

  lemma SameLookups(a: map<int, string>, b: map<int, string>)
    requires forall k :: Lookup(a, k) == Lookup(b, k)
    ensures a == b
  {
    forall k ensures k in a <==> k in b
      ensures k in a ==> a[k] == b[k]
    {
      assert Lookup(a, k) == Lookup(b, k);
    }
  }

  // ---- which reads find their key ----

  /** Key `k` was populated, or one of the first `r` requests writes it. */
  ghost predicate Provided(c: Config, r: nat, k: int)
    requires r <= |c.stream|
  {
    k in c.store || exists q :: 0 <= q < r && c.stream[q].kind.Write? && c.stream[q].key == k
  }

  lemma {:induction false} SequentialHolds(c: Config, r: nat, k: int)
    requires Valid(c) && r <= |c.stream|
    ensures k in SequentialStore(c, r) <==> Provided(c, r, k)
  {
    if r > 0 {
      var last := c.stream[r - 1];
      SequentialHolds(c, r - 1, k);
      ContinueKeys(c, last, Progress(SequentialStore(c, r - 1), []));
      assert Submittable(last);
      if Provided(c, r, k) && !Provided(c, r - 1, k) {
        assert last.kind.Write? && last.key == k;
      }
    }
  }

  lemma {:induction false} PartialRead(c: Config, r: Request, store: map<int, string>, t: nat)
    requires r.kind.Read?
    ensures var p := Partial(c, r, store, t);
            p.store == store && forall i :: 0 <= i < t ==> p.got[i] == Lookup(store, r.key)
  {
    if t > 0 {
      PartialRead(c, r, store, t - 1);
    }
  }

  lemma {:induction false} PartialScanFinds(c: Config, r: Request, store: map<int, string>, t: nat)
    requires r.kind.Scan? && CanRead(r, store) && 0 <= r.key && t <= r.length && HoldsPrefix(store, r.key + r.length)
    ensures forall i :: 0 <= i < t ==> Partial(c, r, store, t).got[i] == Lookup(store, r.key + i)
  {
    if t > 0 {
      PartialScanFinds(c, r, store, t - 1);
      PartialScan(c, r, store, t - 1);
      PrefixSize(store.Keys, r.key + r.length);
      ModuloIsIdentity(r.key, r.length, |store|);
    }
  }

  lemma FoundAlone(c: Config, r: nat, t: nat)
    requires Valid(c) && r < |c.stream| && Inside(c, c.stream[r])
    ensures var (q, got) := (c.stream[r], Partial(c, c.stream[r], SequentialStore(c, r), t).got);
            && (q.kind.Read? ==> forall i :: 0 <= i < t ==> (got[i].Some? <==> Provided(c, r, q.key)))
            && (q.kind.Scan? && t <= q.length ==> forall i :: 0 <= i < t ==> got[i].Some?)
  {
    var (q, store) := (c.stream[r], SequentialStore(c, r));
    if q.kind.Read? {
      PartialRead(c, q, store, t);
      SequentialHolds(c, r, q.key);
    } else if q.kind.Scan? && t <= q.length {
      SequentialKeepsKeys(c, r);
      PartialScanFinds(c, q, store, t);
    }
  }

  /** In every interleaving and across every remapping: a worker that reads for a Read finds the key if and
      only if it was populated or an earlier request of the stream writes it; a scan that stays inside the
      populated keys finds every one. */
  lemma NoAbsentKey(c: Config, steps: seq<Step>, s: State, w: nat, r: nat)
    requires Valid(c) && Run(c, steps, s) && Runs(c, s, w, r) && r < |c.stream|
    ensures var (q, got) := (c.stream[r], s.workers[w].status.got);
            && (q.kind.Read? ==> forall i :: 0 <= i < |got| ==> (got[i].Some? <==> Provided(c, r, q.key)))
            && (q.kind.Scan? && Inside(c, q) ==> forall i :: 0 <= i < |got| ==> got[i].Some?)
  {
    RunInv(c, steps, s);
    RunTracks(c, steps, s);
    var (q, got) := (c.stream[r], s.workers[w].status.got);
    if Inside(c, q) {
      assert OnTrack(c, r, got);
      FoundAlone(c, r, |got|);
    }
  }

  /** The answer to a Read is one value, present if and only if the key was populated or written before. */
  lemma ReadsFindTheirKey(c: Config, steps: seq<Step>, s: State, r: nat)
    requires Valid(c) && Run(c, steps, s) && r in s.answers && r < |c.stream| && c.stream[r].kind.Read?
    ensures |s.answers[r]| == 1 && (s.answers[r][0].Some? <==> Provided(c, r, c.stream[r].key))
  {
    AnswersAreSequential(c, steps, s, r);
    SequentialHolds(c, r, c.stream[r].key);
    var p := Access(c, c.stream[r], Progress(SequentialStore(c, r), []));
    assert Complete(c.stream[r], p.got) && Continue(c, c.stream[r], p) == p;
  }

  /** A Write answers its own argument, an Error request "ERROR", and a request of any other kind that reads
      nothing the empty string, in every execution. */
  lemma OthersEcho(c: Config, steps: seq<Step>, s: State, r: nat)
    requires Valid(c) && Run(c, steps, s) && r in s.answers && r < |c.stream|
    ensures c.stream[r].kind.Write? ==> s.answers[r] == [Some(c.stream[r].args)]
    ensures c.stream[r].kind.Error? ==> s.answers[r] == [Some("ERROR")]
    ensures !c.stream[r].kind.Read? && !c.stream[r].kind.Scan? && !c.stream[r].kind.Write? && !c.stream[r].kind.Error? ==>
              s.answers[r] == [Some("")]
  {
    AnswersAreSequential(c, steps, s, r);
    hide Run;
    if !c.stream[r].kind.Scan? {
      var p := Access(c, c.stream[r], Progress(SequentialStore(c, r), []));
      assert Complete(c.stream[r], p.got) && Continue(c, c.stream[r], p) == p;
    }
  }
}
