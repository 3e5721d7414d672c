/** Exactly which scans are answered as in the sequential execution. */
module StrayScan {
  import opened Requests
  import opened Plan
  import opened Machine
  import opened Equivalence
  import opened Replay
  import opened Uniform

  // ---- the answer of a scan ----

  /** What a scan of a store answers: the values at its keys modulo the size, up to the first missing one. */
  ghost predicate ScanAnswer(r: Request, store: map<int, string>, got: seq<Option<string>>)
    requires store != map[]
  {
    && |got| <= r.length
    && (forall i :: 0 <= i < |got| ==> got[i] == Lookup(store, ScanKey(r.key, i, |store|)))
    && (forall i :: 0 <= i < |got| - 1 ==> got[i].Some?)
  }

  lemma {:induction false} ScanAnswers(c: Config, r: Request, p: Progress)
    requires r.kind.Scan? && p.store != map[] && ScanAnswer(r, p.store, p.got)
    ensures var got := Continue(c, r, p).got;
            ScanAnswer(r, p.store, got) && Complete(r, got)
    decreases Range(r) - |p.got|
  {
    if !Complete(r, p.got) {
      ScanAnswers(c, r, Access(c, r, p));
    }
  }

  // ---- which scans ----

  /** The populated keys are 0, 1, ..., `n` - 1. */
  ghost predicate Populated(c: Config, n: nat) {
    forall k :: k in c.store <==> 0 <= k < n
  }

  predicate IsScan(r: Request, start: int, length: int) {
    r.kind.Scan? && r.key == start && r.length == length
  }

  /** In state `s` every scan of these keys that has an answer has the one of the sequential execution. */
  ghost predicate AnsweredInSequence(c: Config, s: State, start: int, length: int)
    requires Servable(c)
  {
    forall r :: r in s.answers && r < |c.stream| && IsScan(c.stream[r], start, length) ==>
      s.answers[r] == SequentialAnswer(c, r)
  }

  function Keys(n: nat): (keys: set<int>)
    ensures |keys| == n && forall k :: k in keys <==> 0 <= k < n
  {
    if n == 0 then {} else Keys(n - 1) + {n - 1}
  }

  lemma AloneAnswers(c: Config, r: Request, store: map<int, string>)
    requires r.kind.Scan? && r.length >= 0 && store != map[]
    ensures var got := Alone(c, r, store).got; ScanAnswer(r, store, got) && Complete(r, got)
  {
    ScanAnswers(c, r, Progress(store, []));
  }

  lemma OneAccess(c: Config, x: Request, store: map<int, string>)
    requires x.kind.Write?
    ensures Alone(c, x, store).store == store[x.key := c.put(x, Lookup(store, x.key))]
  {
    var p := Access(c, x, Progress(store, []));
    assert Complete(x, p.got) && Continue(c, x, p) == p;
  }

  function ScanOf(start: int, length: int): Request {
    Request(Scan, start, "", length)
  }

  function WriteOf(key: int): Request {
    Request(Write, key, "", 0)
  }

  /** A scan of a store of exactly the keys 0 to n-1 finds every key, read modulo n. */
  lemma AllThere(r: Request, store: map<int, string>, got: seq<Option<string>>, n: nat)
    requires r.length >= 1 && store != map[] && ScanAnswer(r, store, got) && Complete(r, got) && r.kind.Scan?
    requires store.Keys == Keys(n) && |store| == n
    ensures |got| == r.length
    ensures forall i :: 0 <= i < |got| ==> ScanKey(r.key, i, n) in store && got[i] == Some(store[ScanKey(r.key, i, n)])
  {
    forall i | 0 <= i < |got| ensures ScanKey(r.key, i, n) in store {
      assert 0 <= ScanKey(r.key, i, n) < n;
    }
  }

  // ---- pending insertions ----

  function Max(a: int, b: int): int {
    if a >= b then a else b
  }

  /** How many keys have to be inserted so that key max(n, start) no longer wraps around. */
  function Missing(n: nat, start: int): nat
    requires n >= 1
  {
    Max(n, start) - n + 1
  }

  function Insertions(first: int, m: nat): (ws: seq<Request>)
    ensures |ws| == m && forall i :: 0 <= i < m ==> ws[i] == WriteOf(first + i)
  {
    seq(m, i => WriteOf(first + i))
  }

  function OnOneWorker(n: nat): map<int, nat> {
    map k | k in Keys(n) :: 0
  }

  /** The populated keys 0 to n-1 are on worker 0 and the counter is at worker 1. The stream inserts the keys
      after the last one of the scan, each on a worker of its own, and then scans. Every value is `v`. */
  function Growing(n: nat, start: int, length: int, v: string): Config
    requires n >= 1
  {
    var m := Missing(n, start);
    Config(Insertions(start + length, m) + [ScanOf(start, length)], m + 1, 0, OnOneWorker(n), 1,
           map k | k in Keys(n) :: v, (r, before) => v)
  }

  predicate Stray(n: nat, start: int, length: int) {
    n >= 1 && start >= 0 && length >= 1 && start + length > n
  }

  lemma GrowingIs(n: nat, start: int, length: int, v: string)
    requires Stray(n, start, length)
    ensures var (c, m) := (Growing(n, start, length, v), Missing(n, start));
            && Valid(c) && Populated(c, n) && AllAlike(c, v)
            && |c.stream| == m + 1 && c.workers == m + 1 && c.capacity == 0 && c.roundRobin == 1
            && c.store.Keys == Keys(n) && |c.store| == n && c.store != map[]
            && (forall i :: 0 <= i < m ==> c.stream[i] == WriteOf(start + length + i))
            && c.stream[m] == ScanOf(start, length)
  {
    var c := Growing(n, start, length, v);
    assert c.store.Keys == Keys(n);
    assert 0 in c.store;
  }

  /** The first `k` insertions are dispatched and pushed, and no worker has done anything. */
  ghost predicate Pending(c: Config, n: nat, first: int, m: nat, s: State, k: nat) {
    && s.todo == [] && s.store == c.store && s.answers == map[]
    && |s.workers| == m + 1 && s.workers[0] == Worker([], Idle, [], 0)
    && s.log.roundRobin == (1 + k) % (m + 1) && |s.log.plan| == |s.log.slot| == k
    && (forall i :: i in s.log.mapping <==> 0 <= i < n || first <= i < first + k)
    && (forall i :: 0 <= i < n ==> s.log.mapping[i] == 0)
  }

  lemma RouteOne(mapping: map<int, nat>, roundRobin: nat, key: int)
    requires key !in mapping
    ensures Route(mapping, roundRobin, WriteOf(key)) == mapping[key := roundRobin]
    ensures !AllMapped(mapping, WriteOf(key))
  {
  }

  lemma NextInsertion(n: nat, start: int, length: int, v: string, s: State, k: nat)
    requires Stray(n, start, length) && k < Missing(n, start)
    requires Pending(Growing(n, start, length, v), n, start + length, Missing(n, start), s, k)
    ensures var (c, m, key) := (Growing(n, start, length, v), Missing(n, start), start + length + k);
            && Owners(s.log, c.stream[k]) == {1 + k} && !AllMapped(s.log.mapping, c.stream[k])
            && Route(s.log.mapping, s.log.roundRobin, c.stream[k]) == s.log.mapping[key := 1 + k]
            && Advance(s.log.mapping, s.log.roundRobin, m + 1, c.stream[k]) == (1 + (k + 1)) % (m + 1)
  {
    var (c, m, key) := (Growing(n, start, length, v), Missing(n, start), start + length + k);
    GrowingIs(n, start, length, v);
    var r := c.stream[k];
    assert r == WriteOf(key) && key !in s.log.mapping;
    SmallModulo(1 + k, m + 1);
    hide Growing, Owners;
    OneOwner(s.log, r, 1 + k);
    RouteOne(s.log.mapping, 1 + k, key);
  }

  lemma OneMorePending(n: nat, start: int, length: int, v: string, s: State, k: nat)
    requires Stray(n, start, length) && k < Missing(n, start)
    requires Pending(Growing(n, start, length, v), n, start + length, Missing(n, start), s, k)
    ensures var (c, m) := (Growing(n, start, length, v), Missing(n, start));
            && |c.stream| == m + 1 && c.workers == m + 1 && c.capacity == 0
            && Owners(s.log, c.stream[k]) == {k + 1}
            && Pending(c, n, start + length, m, Sent(c, s, k + 1), k + 1)
  {
    var (c, m) := (Growing(n, start, length, v), Missing(n, start));
    GrowingIs(n, start, length, v);
    NextInsertion(n, start, length, v, s, k);
    hide Owners, Route, AllMapped, Advance, Growing, Populated, AllAlike, Valid;
    assert |Owners(s.log, c.stream[k])| == 1;
    var s' := Sent(c, s, k + 1);
    assert s'.log.mapping == s.log.mapping[start + length + k := 1 + k];
  }

  lemma {:induction false} InsertionsPending(n: nat, start: int, length: int, v: string, k: nat)
    returns (steps: seq<Step>, s: State)
    requires Stray(n, start, length) && k <= Missing(n, start)
    ensures Run(Growing(n, start, length, v), steps, s)
    ensures Pending(Growing(n, start, length, v), n, start + length, Missing(n, start), s, k)
  {
    if k == 0 {
      steps, s := FirstPending(n, start, length, v);
    } else {
      hide Run, Owners, Growing;
      var c := Growing(n, start, length, v);
      steps, s := InsertionsPending(n, start, length, v, k - 1);
      OneMorePending(n, start, length, v, s, k - 1);
      steps := Send(c, steps, s, k);
      s := Sent(c, s, k);
    }
  }

  lemma FirstPending(n: nat, start: int, length: int, v: string) returns (steps: seq<Step>, s: State)
    requires Stray(n, start, length)
    ensures Run(Growing(n, start, length, v), steps, s)
    ensures Pending(Growing(n, start, length, v), n, start + length, Missing(n, start), s, 0)
  {
    var c := Growing(n, start, length, v);
    steps, s := [], Initial(c);
    NothingTaken(c);
    hide Run;
    SmallModulo(1, Missing(n, start) + 1);
  }

  /** The scan overtakes the insertions. */
  lemma ScanOvertakes(n: nat, start: int, length: int, v: string) returns (steps: seq<Step>, s: State)
    requires Stray(n, start, length)
    ensures var (c, m) := (Growing(n, start, length, v), Missing(n, start));
            && Valid(c) && |c.stream| == m + 1 && c.store != map[]
            && Run(c, steps, s) && m in s.answers && s.answers[m] == Alone(c, ScanOf(start, length), c.store).got
  {
    var c, m := Growing(n, start, length, v), Missing(n, start);
    GrowingIs(n, start, length, v);
    steps, s := InsertionsPending(n, start, length, v, m);
    assert s.log.roundRobin == 0;
    OneOwner(s.log, c.stream[m], 0);
    hide Run, Owners, Route, AllMapped, Advance, Growing, Alone;
    steps := Send(c, steps, s, 0);
    s := Sent(c, s, 0);
    assert s.workers[0].queue == [m] && s.log.plan[m] == Exec(m, 0);
    steps := Serve(c, steps, s, 0);
    s := Served(c, s, 0);
  }

  /** In the sequential execution the insertions come first and the store has grown. */
  lemma {:induction false} InsertionsGrow(n: nat, start: int, length: int, v: string, k: nat)
    requires Stray(n, start, length) && k <= Missing(n, start)
    ensures var c := Growing(n, start, length, v);
            && Servable(c) && |c.stream| == Missing(n, start) + 1
            && |SequentialStore(c, k)| == n + k
            && forall i :: i in SequentialStore(c, k) <==> 0 <= i < n || start + length <= i < start + length + k
  {
    var c := Growing(n, start, length, v);
    GrowingIs(n, start, length, v);
    hide Growing, Alone, AllAlike, Servable;
    if k > 0 {
      InsertionsGrow(n, start, length, v, k - 1);
      OneAccess(c, c.stream[k - 1], SequentialStore(c, k - 1));
      Inserted(SequentialStore(c, k - 1), start + length + (k - 1), v);
    }
  }

  lemma Inserted(store: map<int, string>, key: int, v: string)
    requires key !in store
    ensures |store[key := v]| == |store| + 1
  {
    assert store[key := v].Keys == store.Keys + {key};
  }

  /** Before the insertions every key is found; after them key max(n, start) is read as itself, and missing. */
  lemma InsertionsDiffer(n: nat, start: int, length: int, v: string)
    requires Stray(n, start, length)
    ensures var (c, m) := (Growing(n, start, length, v), Missing(n, start));
            && Servable(c) && |c.stream| == m + 1 && c.store != map[]
            && Alone(c, ScanOf(start, length), c.store).got != SequentialAnswer(c, m)
  {
    var c, m := Growing(n, start, length, v), Missing(n, start);
    var (y, t) := (ScanOf(start, length), Max(n, start));
    GrowingIs(n, start, length, v);
    InsertionsGrow(n, start, length, v, m);
    hide Growing, Alone, SequentialStore;
    var after := SequentialStore(c, m);
    assert after != map[] by { assert 0 in after; }
    AloneAnswers(c, y, c.store);
    AloneAnswers(c, y, after);
    AllThere(y, c.store, Alone(c, y, c.store).got, n);
    var got := Alone(c, y, after).got;
    assert t !in after && |after| == t + 1;
    if |got| > t - start {
      SmallModulo(t, t + 1);
      assert got[t - start] == Lookup(after, t) == None;
    }
  }

  /** A scan that leaves the populated keys is answered otherwise than in sequence while insertions are
      pending, although every value ever stored is the same. */
  lemma GrowthMatters(n: nat, start: int, length: int, v: string) returns (c: Config, steps: seq<Step>, s: State)
    requires Stray(n, start, length)
    ensures Valid(c) && Populated(c, n) && AllAlike(c, v) && Run(c, steps, s) && !AnsweredInSequence(c, s, start, length)
  {
    c := Growing(n, start, length, v);
    GrowingIs(n, start, length, v);
    steps, s := ScanOvertakes(n, start, length, v);
    InsertionsDiffer(n, start, length, v);
    hide Run, Alone, SequentialAnswer, Growing;
    assert IsScan(c.stream[Missing(n, start)], start, length);
  }

  // ---- the condition ----

  lemma InsideIsSequential(c: Config, n: nat, steps: seq<Step>, s: State, start: int, length: int)
    requires Valid(c) && Populated(c, n) && Run(c, steps, s) && 0 <= start && start + length <= n
    ensures AnsweredInSequence(c, s, start, length)
  {
    forall r | r in s.answers && r < |c.stream| && IsScan(c.stream[r], start, length)
      ensures s.answers[r] == SequentialAnswer(c, r)
    {
      AnswersAreSequential(c, steps, s, r);
    }
  }

  /** A scan is answered as in the sequential execution, in every execution of every stream over the
      populated keys 0 to n-1, if and only if it ends inside them. It makes no difference whether values may
      change or are all alike, as the source's are. */
  lemma ScanCondition(n: nat, start: int, length: int, v: string)
    requires n >= 1 && start >= 0 && length >= 1
    ensures (forall c: Config, steps: seq<Step>, s: State :: Valid(c) && Populated(c, n) && Run(c, steps, s) ==>
               AnsweredInSequence(c, s, start, length))
            <==> start + length <= n
    ensures (forall c: Config, steps: seq<Step>, s: State ::
               Valid(c) && Populated(c, n) && AllAlike(c, v) && Run(c, steps, s) ==>
               AnsweredInSequence(c, s, start, length))
            <==> start + length <= n
  {
    hide Valid, Run, AnsweredInSequence, AllAlike;
    if start + length <= n {
      forall c: Config, steps: seq<Step>, s: State | Valid(c) && Populated(c, n) && Run(c, steps, s)
        ensures Servable(c) && AnsweredInSequence(c, s, start, length)
      {
        ValidServes(c);
        InsideIsSequential(c, n, steps, s, start, length);
      }
    } else {
      var c, steps, s := GrowthMatters(n, start, length, v);
    }
  }

  lemma ValidServes(c: Config)
    requires Valid(c)
    ensures Servable(c)
  {
  }

  // ---- the initial map of `Growing` ----

  /** The map and the counter after populating these keys, in this order. */
  function Populate(keys: seq<int>, workers: nat): (p: (map<int, nat>, nat))
    requires workers > 0
    ensures p.1 < workers
  {
    if keys == [] then (map[], 0) else
      var before := Populate(keys[..|keys| - 1], workers);
      MapOne(before.0, before.1, workers, keys[|keys| - 1])
  }

  lemma PopulateMore(keys: seq<int>, key: int, workers: nat)
    requires workers > 0
    ensures var before := Populate(keys, workers);
            Populate(keys + [key], workers) == MapOne(before.0, before.1, workers, key)
  {
    assert (keys + [key])[..|keys|] == keys;
  }

  /** Populating a key again only moves the counter, until it is at worker 0. */
  lemma {:induction false} PopulateAgain(keys: seq<int>, key: int, workers: nat) returns (longer: seq<int>)
    requires workers > 0 && key in keys && key in Populate(keys, workers).0
    ensures forall k :: k in longer <==> k in keys
    ensures Populate(longer, workers) == (Populate(keys, workers).0, 0)
    decreases if Populate(keys, workers).1 == 0 then 0 else workers - Populate(keys, workers).1
  {
    var p := Populate(keys, workers);
    if p.1 == 0 {
      longer := keys;
    } else {
      PopulateMore(keys, key, workers);
      CounterMoves(p.1, workers);
      hide Populate;
      longer := PopulateAgain(keys + [key], key, workers);
    }
  }

  lemma CounterMoves(roundRobin: nat, workers: nat)
    requires roundRobin < workers
    ensures (roundRobin + 1) % workers == if roundRobin + 1 < workers then roundRobin + 1 else 0
  {
    if roundRobin + 1 < workers {
      SmallModulo(roundRobin + 1, workers);
    }
  }

  /** Populating leaves every key on worker 0 with the counter at worker 1, if key 0 is populated again between
      the others until the counter is back. */
  lemma {:induction false} AllOnOneWorker(n: nat, workers: nat) returns (keys: seq<int>)
    requires n >= 1 && workers >= 2
    ensures forall k :: k in keys <==> 0 <= k < n
    ensures Populate(keys, workers) == (OnOneWorker(n), 1)
  {
    CounterMoves(0, workers);
    var before: map<int, nat>;
    if n == 1 {
      keys, before := [], OnOneWorker(0);
    } else {
      keys := AllOnOneWorker(n - 1, workers);
      before := OnOneWorker(n - 1);
      OneMoreOnIt(n);
      keys := PopulateAgain(keys, 0, workers);
    }
    PopulateMore(keys, n - 1, workers);
    assert Populate(keys, workers) == (before, 0);
    hide Populate, OnOneWorker;
    keys := keys + [n - 1];
    OneMoreOnIt(n);
  }

  lemma OneMoreOnIt(n: nat)
    requires n >= 1
    ensures OnOneWorker(n - 1)[n - 1 := 0] == OnOneWorker(n) && n - 1 !in OnOneWorker(n - 1)
    ensures n > 1 ==> 0 in OnOneWorker(n - 1)
  {
  }

  // ---- scanning keys that were inserted earlier ----

  /** Key 0 is populated, on worker 0; the stream inserts 1, 2 and 3, and then scans 3. Every insertion has a worker of
      its own, and the scan follows that of key 3. */
  function Inserting(): Config {
    Config([WriteOf(1), WriteOf(2), WriteOf(3), ScanOf(3, 1)], 4, 0, map[0 := 0], 1, map[0 := "*"], (r, v) => "*")
  }

  /** The log after the first `k` requests were dispatched: key 0 and the inserted ones have a worker each. */
  ghost predicate Numbered(s: State, k: nat) {
    && s.todo == [] && s.store == map[0 := "*"] && s.answers == map[] && |s.workers| == 4
    && s.log.roundRobin == (if k < 3 then k + 1 else 0)
    && s.log.plan == [Exec(0, 1), Exec(1, 2), Exec(2, 3), Exec(3, 3)][..if k < 4 then k else 4]
    && s.log.slot == [0, 1, 2, 3][..if k < 4 then k else 4]
    && (forall i :: i in s.log.mapping <==> 0 <= i <= k && i <= 3)
    && (forall i :: 0 <= i <= k && i <= 3 ==> s.log.mapping[i] == i)
    && s.workers[3] == Worker(if k < 3 then [] else if k == 3 then [2] else [2, 3], Idle, [], 0)
  }

  lemma NextOwner(s: State, k: nat)
    requires k < 4 && Numbered(s, k)
    ensures var (r, w, m) := (Inserting().stream[k], if k < 3 then k + 1 else 3, s.log.mapping);
            && Owners(s.log, r) == {w} && (AllMapped(m, r) <==> k == 3)
            && Route(m, s.log.roundRobin, r) == if k == 3 then m else m[w := w]
  {
    var (r, w) := (Inserting().stream[k], if k < 3 then k + 1 else 3);
    assert r.key == w && Range(r) == 1 && (w in s.log.mapping <==> k == 3);
    OneOwner(s.log, r, w);
  }

  lemma SendOne(steps: seq<Step>, s: State, k: nat) returns (steps': seq<Step>, s': State)
    requires Run(Inserting(), steps, s) && k < 4 && Numbered(s, k)
    ensures Run(Inserting(), steps', s') && Numbered(s', k + 1)
  {
    hide Run, Owners, Route, AllMapped;
    var c := Inserting();
    var w := if k < 3 then k + 1 else 3;
    NextOwner(s, k);
    steps' := Send(c, steps, s, w);
    s' := Sent(c, s, w);
  }

  lemma InsertionsSent() returns (steps: seq<Step>, s: State)
    ensures Run(Inserting(), steps, s) && Numbered(s, 4)
  {
    s := Initial(Inserting());
    NothingTaken(Inserting());
    assert Numbered(s, 0);
    hide Run, Numbered, Inserting;
    steps, s := SendOne([], s, 0);
    steps, s := SendOne(steps, s, 1);
    steps, s := SendOne(steps, s, 2);
    steps, s := SendOne(steps, s, 3);
  }

  lemma OneKeyScan(c: Config, key: int, store: map<int, string>)
    requires store != map[]
    ensures Alone(c, ScanOf(key, 1), store).got == [Lookup(store, key % |store|)]
  {
    var r := ScanOf(key, 1);
    var p := Access(c, r, Progress(store, []));
    assert Complete(r, p.got) && Continue(c, r, p) == p;
  }

  lemma InsertingIs()
    ensures Valid(Inserting()) && AllAlike(Inserting(), "*")
    ensures Inserting().store == map[0 := "*"] && Inserting().store != map[]
    ensures Inserting().stream == [WriteOf(1), WriteOf(2), WriteOf(3), ScanOf(3, 1)]
    ensures forall store: map<int, string>, k: int :: Alone(Inserting(), WriteOf(k), store).store == store[k := "*"]
  {
    assert 0 in Inserting().store;
    forall store: map<int, string>, k: int ensures Alone(Inserting(), WriteOf(k), store).store == store[k := "*"] {
      OneAccess(Inserting(), WriteOf(k), store);
    }
  }

  lemma NextStore(i: nat, store: map<int, string>)
    requires Valid(Inserting()) && i < 3 && |Inserting().stream| == 4
    requires if i == 0 then store == Inserting().store else SequentialStore(Inserting(), i) == store
    ensures SequentialStore(Inserting(), i + 1) == store[i + 1 := "*"]
  {
    InsertingIs();
    hide Inserting, Alone;
    assert Inserting().stream[i] == WriteOf(i + 1);
  }

  lemma InsertingSequence()
    ensures Valid(Inserting()) && |Inserting().stream| == 4 && SequentialAnswer(Inserting(), 3) == [Some("*")]
  {
    InsertingIs();
    hide Inserting, Alone, SequentialStore, Servable;
    var c := Inserting();
    var store := map[0 := "*", 1 := "*", 2 := "*", 3 := "*"];
    NextStore(0, map[0 := "*"]);
    NextStore(1, map[0 := "*", 1 := "*"]);
    NextStore(2, map[0 := "*", 1 := "*", 2 := "*"]);
    assert store.Keys == {0, 1, 2, 3} && |store| == 4 && 0 in store;
    OneKeyScan(c, 3, store);
  }

  /** Key 3 is inserted while the insertions of 1 and 2 are pending, and its worker comes to the scan. */
  lemma LastInsertionOnly() returns (steps: seq<Step>, s: State)
    ensures Run(Inserting(), steps, s) && s.store == map[0 := "*", 3 := "*"] && CanServe(Inserting(), s, 3)
    ensures s.workers[3].queue == [3] && s.log.plan[3] == Exec(3, 3)
  {
    hide Run, Inserting, Alone;
    InsertingIs();
    steps, s := InsertionsSent();
    assert s.log.plan[2] == Exec(2, 3) && s.log.plan[3] == Exec(3, 3);
    steps := Serve(Inserting(), steps, s, 3);
    s := Served(Inserting(), s, 3);
    assert 0 in s.store;
  }

  /** Having been inserted before does not help a key: the scan of key 3 runs while the insertions of 1 and 2
      are pending, and reads key 3 % 2 = 1 of a store of two keys, which is absent. */
  lemma InsertedKeysDoNotHelp() returns (steps: seq<Step>, s: State)
    ensures Valid(Inserting()) && AllAlike(Inserting(), "*") && |Inserting().stream| == 4 && Run(Inserting(), steps, s)
    ensures 3 in s.answers && s.answers[3] == [None] && SequentialAnswer(Inserting(), 3) == [Some("*")]
  {
    hide Run, Inserting, Alone, SequentialAnswer, SequentialStore;
    InsertingIs();
    InsertingSequence();
    steps, s := LastInsertionOnly();
    var store := map[0 := "*", 3 := "*"];
    assert store.Keys == {0, 3} && |store| == 2 && 0 in store;
    OneKeyScan(Inserting(), 3, store);
    steps := Serve(Inserting(), steps, s, 3);
    s := Served(Inserting(), s, 3);
  }
}
