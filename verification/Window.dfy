/** The sliding window: which graph belongs to which messages. */
module Window {
  import opened Requests
  import opened CoAccess

  function Hits(m: Request, k: int): nat {
    if !m.kind.Dummy? && Covers(m, k) then 1 else 0
  }

  function HitsBoth(m: Request, a: int, b: int): nat {
    if !m.kind.Dummy? && Covers(m, a) && Covers(m, b) then 1 else 0
  }

  /** How many messages cover key `k`; the placeholders that fill a fresh window count for nothing. */
  function Cover(win: seq<Request>, k: int): nat {
    if win == [] then 0 else Hits(win[0], k) + Cover(win[1..], k)
  }

  /** How many messages cover both keys. */
  function Both(win: seq<Request>, a: int, b: int): nat {
    if win == [] then 0 else HitsBoth(win[0], a, b) + Both(win[1..], a, b)
  }

  ghost predicate CountsVertices(vertices: map<int, int>, win: seq<Request>) {
    forall k :: (k in vertices <==> Cover(win, k) > 0) && At(vertices, k) == Cover(win, k)
  }

  ghost predicate CountsPairs(pairs: map<Pair, int>, win: seq<Request>) {
    && (forall p :: p in pairs ==> p.0 < p.1)
    && (forall a, b :: a < b ==> ((a, b) in pairs <==> Both(win, a, b) > 0) && At(pairs, (a, b)) == Both(win, a, b))
  }

  /** `g` is the co-access graph of the messages in `win`: a vertex for every covered key, weighted by
      the number of messages covering it; an edge for every two keys some message covers together,
      weighted by the number of such messages, stored on both sides; the edge counter counts the
      unordered pairs and the totals are the sums of the weights. */
  ghost predicate Represents(g: Fields, pairs: map<Pair, int>, win: seq<Request>) {
    Shows(g, pairs) && CountsVertices(g.vertices, win) && CountsPairs(pairs, win)
  }

  // ---- counting ----

  lemma {:induction false} CoverSplit(a: seq<Request>, b: seq<Request>, k: int)
    ensures Cover(a + b, k) == Cover(a, k) + Cover(b, k)
  {
    if a == [] {
      assert a + b == b;
    } else {
      assert (a + b)[1..] == a[1..] + b;
      CoverSplit(a[1..], b, k);
    }
  }

  lemma {:induction false} BothSplit(a: seq<Request>, b: seq<Request>, x: int, y: int)
    ensures Both(a + b, x, y) == Both(a, x, y) + Both(b, x, y)
  {
    if a == [] {
      assert a + b == b;
    } else {
      assert (a + b)[1..] == a[1..] + b;
      BothSplit(a[1..], b, x, y);
    }
  }

  lemma {:induction false} BothBelowCover(win: seq<Request>, a: int, b: int)
    ensures Both(win, a, b) <= Cover(win, a) && Both(win, a, b) <= Cover(win, b)
    ensures Both(win, a, b) == Both(win, b, a)
  {
    if win == [] {
    } else {
      BothBelowCover(win[1..], a, b);
    }
  }

  lemma {:induction false} DummiesCountNothing(win: seq<Request>, k: int, b: int)
    requires forall i :: 0 <= i < |win| ==> win[i].kind.Dummy?
    ensures Cover(win, k) == 0 && Both(win, k, b) == 0
  {
    if win == [] {
    } else {
      DummiesCountNothing(win[1..], k, b);
    }
  }

  /** Where in the window a message stands makes no difference to the counts. */
  lemma CountsWithout(win: seq<Request>, i: nat, a: int, b: int)
    requires i < |win|
    ensures Cover(win, a) == Cover(win[..i] + win[i + 1..], a) + Hits(win[i], a)
    ensures Both(win, a, b) == Both(win[..i] + win[i + 1..], a, b) + HitsBoth(win[i], a, b)
  {
    assert win == win[..i] + ([win[i]] + win[i + 1..]);
    CoverSplit(win[..i], [win[i]] + win[i + 1..], a);
    CoverSplit(win[..i], win[i + 1..], a);
    BothSplit(win[..i], [win[i]] + win[i + 1..], a, b);
    BothSplit(win[..i], win[i + 1..], a, b);
    assert ([win[i]] + win[i + 1..])[1..] == win[i + 1..];
  }

  lemma CountsWith(win: seq<Request>, m: Request, a: int, b: int)
    ensures Cover(win + [m], a) == Cover(win, a) + Hits(m, a)
    ensures Both(win + [m], a, b) == Both(win, a, b) + HitsBoth(m, a, b)
  {
    CoverSplit(win, [m], a);
    BothSplit(win, [m], a, b);
    assert [m][1..] == [];
  }

  /** A window determines its graph: no two different graphs represent the same messages. */
  lemma GraphIsDetermined(g: Fields, pairs: map<Pair, int>, g': Fields, pairs': map<Pair, int>, win: seq<Request>)
    requires Represents(g, pairs, win) && Represents(g', pairs', win)
    ensures g == g' && pairs == pairs'
  {
    forall k ensures k in g.vertices <==> k in g'.vertices
      ensures k in g.vertices ==> g.vertices[k] == g'.vertices[k]
    {
      assert At(g.vertices, k) == At(g'.vertices, k);
    }
    assert g.vertices == g'.vertices;
    forall p: Pair ensures p in pairs <==> p in pairs'
      ensures p in pairs ==> pairs[p] == pairs'[p]
    {
      if p.0 < p.1 {
        assert (p.0, p.1) == p && At(pairs, p) == At(pairs', p);
      }
    }
    assert pairs == pairs';
    forall a | a in g.edges ensures g.edges[a] == g'.edges[a] {
      forall b ensures b in g.edges[a] <==> b in g'.edges[a]
        ensures b in g.edges[a] ==> g.edges[a][b] == g'.edges[a][b]
      {
      }
    }
    assert g.edges == g'.edges;
  }

  lemma PairsHaveEnds(g: Fields, pairs: map<Pair, int>, win: seq<Request>)
    requires Represents(g, pairs, win)
    ensures EndsExist(g, pairs)
  {
    forall p | p in pairs ensures p.0 in g.vertices && p.1 in g.vertices {
      BothBelowCover(win, p.0, p.1);
      assert (p.0, p.1) == p && At(pairs, (p.0, p.1)) == pairs[p];
    }
  }

  /** Every edge joins two vertices of the graph, and no stored weight is zero. */
  lemma NothingWeightless(g: Fields, pairs: map<Pair, int>, win: seq<Request>)
    requires Represents(g, pairs, win)
    ensures EndsExist(g, pairs)
    ensures forall k :: k in g.vertices ==> g.vertices[k] >= 1
    ensures forall a, b :: a in g.edges && b in g.edges[a] ==>
              b in g.edges && a in g.edges[b] && g.edges[a][b] == g.edges[b][a] >= 1
  {
    forall p | p in pairs ensures p.0 in g.vertices && p.1 in g.vertices && pairs[p] >= 1 {
      BothBelowCover(win, p.0, p.1);
      assert (p.0, p.1) == p && At(pairs, (p.0, p.1)) == pairs[p];
    }
    forall k | k in g.vertices ensures g.vertices[k] >= 1 {
      assert At(g.vertices, k) == g.vertices[k];
    }
    forall a, b | a in g.edges && b in g.edges[a]
      ensures b in g.edges && a in g.edges[b] && g.edges[a][b] == g.edges[b][a] >= 1
    {
      assert Unordered(a, b) in pairs && Unordered(b, a) == Unordered(a, b);
    }
  }

  lemma EmptyGraph(win: seq<Request>)
    requires forall i :: 0 <= i < |win| ==> win[i].kind.Dummy?
    ensures Represents(Fields(map[], map[], 0, 0, 0), map[], win)
  {
    forall k ensures Cover(win, k) == 0 {
      DummiesCountNothing(win, k, k);
    }
    forall a, b ensures Both(win, a, b) == 0 {
      DummiesCountNothing(win, a, b);
    }
  }
}

/** The graph thread: it counts the newest message in and the oldest one out. */
module GraphThread {
  import opened Requests
  import opened CoAccess
  import opened WorkloadGraph
  import opened Window

  // ---- half-way through expire ----

  /** Vertices up to the `i`-th key of `m` still carry its unit. */
  function VertexLeft(win: seq<Request>, m: Request, i: int, k: int): nat {
    Cover(win, k) + if Covers(m, k) && k <= m.key + i then 1 else 0
  }

  /** So do pairs that `expire` has not reached when it is about to handle the pair (`i`, `j`). */
  function PairLeft(win: seq<Request>, m: Request, i: int, j: int, a: int, b: int): nat {
    Both(win, a, b) +
    if Covers(m, a) && Covers(m, b) && (a < m.key + i || (a == m.key + i && b <= m.key + j)) then 1 else 0
  }

  ghost predicate VerticesLeft(vertices: map<int, int>, win: seq<Request>, m: Request, i: int) {
    forall k :: At(vertices, k) == VertexLeft(win, m, i, k) && (k in vertices <==> VertexLeft(win, m, i, k) > 0)
  }

  ghost predicate PairsLeft(pairs: map<Pair, int>, win: seq<Request>, m: Request, i: int, j: int) {
    && (forall p :: p in pairs ==> p.0 < p.1)
    && (forall a, b :: a < b ==>
          At(pairs, (a, b)) == PairLeft(win, m, i, j, a, b) && ((a, b) in pairs <==> PairLeft(win, m, i, j, a, b) > 0))
  }

  /** `expire(m)` on the graph of `win` and `m`. A vertex already handled may be gone while pairs that
      end in it are still there. */
  ghost predicate Expiring(vertices: map<int, int>, pairs: map<Pair, int>, win: seq<Request>, m: Request, i: int, j: int) {
    VerticesLeft(vertices, win, m, i) && PairsLeft(pairs, win, m, i, j)
  }

  lemma PairLeaves(pairs: map<Pair, int>, win: seq<Request>, m: Request, i: int, j: int)
    requires PairsLeft(pairs, win, m, i, j) && 0 <= i < j < Range(m)
    ensures var p := (m.key + i, m.key + j);
            p in pairs && pairs[p] >= 1 && PairsLeft(Minus(pairs, p), win, m, i, j - 1)
  {
    var x, y := m.key + i, m.key + j;
    assert At(pairs, (x, y)) == PairLeft(win, m, i, j, x, y) == Both(win, x, y) + 1;
    var pairs' := Minus(pairs, (x, y));
    forall a, b | a < b
      ensures At(pairs', (a, b)) == PairLeft(win, m, i, j - 1, a, b)
      ensures (a, b) in pairs' <==> PairLeft(win, m, i, j - 1, a, b) > 0
    {
      assert At(pairs, (a, b)) == PairLeft(win, m, i, j, a, b);
    }
  }

  lemma VertexLeaves(vertices: map<int, int>, win: seq<Request>, m: Request, i: int)
    requires VerticesLeft(vertices, win, m, i) && 0 <= i < Range(m)
    ensures m.key + i in vertices && VerticesLeft(Minus(vertices, m.key + i), win, m, i - 1)
  {
    var x := m.key + i;
    assert At(vertices, x) == VertexLeft(win, m, i, x);
    forall k
      ensures At(Minus(vertices, x), k) == VertexLeft(win, m, i - 1, k)
      ensures k in Minus(vertices, x) <==> VertexLeft(win, m, i - 1, k) > 0
    {
      assert At(vertices, k) == VertexLeft(win, m, i, k);
    }
  }

  /** The pair about to be dropped has a unit to lose, and if its second vertex is gone, no more. */
  lemma PairToDrop(vertices: map<int, int>, pairs: map<Pair, int>, win: seq<Request>, m: Request, i: int, j: int)
    requires Expiring(vertices, pairs, win, m, i, j) && 0 <= i < j < Range(m)
    ensures var a, b := m.key + i, m.key + j;
            && a in vertices && (a, b) in pairs && pairs[(a, b)] >= 1
            && (if b in vertices then vertices[b] != 0 else pairs[(a, b)] == 1)
  {
    var a, b := m.key + i, m.key + j;
    BothBelowCover(win, a, b);
    assert At(vertices, a) == VertexLeft(win, m, i, a) > 0;
    assert At(vertices, b) == VertexLeft(win, m, i, b) == Cover(win, b);
    assert At(pairs, (a, b)) == PairLeft(win, m, i, j, a, b) == Both(win, a, b) + 1;
  }

  lemma ExpireNext(vertices: map<int, int>, pairs: map<Pair, int>, win: seq<Request>, m: Request, i: int)
    requires Expiring(vertices, pairs, win, m, i, i) && 0 <= i < Range(m)
    ensures m.key + i in vertices
    ensures Expiring(Minus(vertices, m.key + i), pairs, win, m, i - 1, Range(m) - 1)
  {
    VertexLeaves(vertices, win, m, i);
    forall a, b | a < b ensures PairLeft(win, m, i - 1, Range(m) - 1, a, b) == PairLeft(win, m, i, i, a, b) {
    }
  }

  lemma ExpireBegins(vertices: map<int, int>, pairs: map<Pair, int>, before: seq<Request>, at: nat)
    requires CountsVertices(vertices, before) && CountsPairs(pairs, before) && at < |before| && !before[at].kind.Dummy?
    ensures var m := before[at];
            Expiring(vertices, pairs, before[..at] + before[at + 1..], m, Range(m) - 1, Range(m) - 1)
  {
    var win, m := before[..at] + before[at + 1..], before[at];
    var n := Range(m) - 1;
    forall k ensures VertexLeft(win, m, n, k) == Cover(before, k) {
      CountsWithout(before, at, k, k);
    }
    forall a, b | a < b ensures PairLeft(win, m, n, n, a, b) == Both(before, a, b) {
      CountsWithout(before, at, a, b);
    }
  }

  lemma ExpireEnds(vertices: map<int, int>, pairs: map<Pair, int>, win: seq<Request>, m: Request)
    requires Expiring(vertices, pairs, win, m, -1, Range(m) - 1)
    ensures CountsVertices(vertices, win) && CountsPairs(pairs, win)
  {
    forall k ensures VertexLeft(win, m, -1, k) == Cover(win, k) {
    }
    forall a, b | a < b ensures PairLeft(win, m, -1, Range(m) - 1, a, b) == Both(win, a, b) {
    }
  }

  lemma ExpireDummy(vertices: map<int, int>, pairs: map<Pair, int>, before: seq<Request>, at: nat)
    requires CountsVertices(vertices, before) && CountsPairs(pairs, before) && at < |before| && before[at].kind.Dummy?
    ensures var win := before[..at] + before[at + 1..];
            CountsVertices(vertices, win) && CountsPairs(pairs, win)
  {
    var win := before[..at] + before[at + 1..];
    forall k ensures Cover(win, k) == Cover(before, k) {
      CountsWithout(before, at, k, k);
    }
    forall a, b ensures Both(win, a, b) == Both(before, a, b) {
      CountsWithout(before, at, a, b);
    }
  }

  // ---- half-way through update_graph ----

  function VertexCounted(win: seq<Request>, m: Request, i: int, k: int): nat {
    Cover(win, k) + if Covers(m, k) && k < m.key + i then 1 else 0
  }

  /** Pairs starting before `i`, and those starting at `i` and ending before `j`, are counted. */
  function PairCounted(win: seq<Request>, m: Request, i: int, j: int, a: int, b: int): nat {
    Both(win, a, b) +
    if Covers(m, a) && Covers(m, b) && (a < m.key + i || (a == m.key + i && b < m.key + j)) then 1 else 0
  }

  /** Vertices of `m` that exist already: all of them after the first round, else those before `j`. */
  predicate Exists(win: seq<Request>, m: Request, i: int, j: int, k: int) {
    Cover(win, k) > 0 || (Covers(m, k) && (i >= 1 || k < m.key + j))
  }

  ghost predicate VerticesCounted(vertices: map<int, int>, win: seq<Request>, m: Request, vi: int, i: int, j: int) {
    forall k :: At(vertices, k) == VertexCounted(win, m, vi, k) && (k in vertices <==> Exists(win, m, i, j, k))
  }

  ghost predicate PairsCounted(pairs: map<Pair, int>, win: seq<Request>, m: Request, i: int, j: int) {
    && (forall p :: p in pairs ==> p.0 < p.1)
    && (forall a, b :: a < b ==>
          At(pairs, (a, b)) == PairCounted(win, m, i, j, a, b) && ((a, b) in pairs <==> PairCounted(win, m, i, j, a, b) > 0))
  }

  ghost predicate Updating(vertices: map<int, int>, pairs: map<Pair, int>, win: seq<Request>, m: Request,
                           vi: int, i: int, j: int) {
    VerticesCounted(vertices, win, m, vi, i, j) && PairsCounted(pairs, win, m, i, j)
  }

  lemma UpdateVertice(vertices: map<int, int>, pairs: map<Pair, int>, win: seq<Request>, m: Request, i: int)
    requires Updating(vertices, pairs, win, m, i, i, i) && 0 <= i < Range(m)
    ensures var x := m.key + i;
            Updating(vertices[x := At(vertices, x) + 1], pairs, win, m, i + 1, i, i + 1)
  {
    var x := m.key + i;
    forall k
      ensures At(vertices[x := At(vertices, x) + 1], k) == VertexCounted(win, m, i + 1, k)
      ensures Exists(win, m, i, i + 1, k) <==> k == x || Exists(win, m, i, i, k)
    {
      assert At(vertices, k) == VertexCounted(win, m, i, k);
    }
    forall a, b | a < b ensures PairCounted(win, m, i, i + 1, a, b) == PairCounted(win, m, i, i, a, b) {
    }
  }

  lemma PairEnters(pairs: map<Pair, int>, win: seq<Request>, m: Request, i: int, j: int)
    requires PairsCounted(pairs, win, m, i, j) && 0 <= i < j < Range(m)
    ensures var p := (m.key + i, m.key + j);
            PairsCounted(pairs[p := At(pairs, p) + 1], win, m, i, j + 1)
  {
    var p := (m.key + i, m.key + j);
    var pairs' := pairs[p := At(pairs, p) + 1];
    forall a, b | a < b
      ensures At(pairs', (a, b)) == PairCounted(win, m, i, j + 1, a, b)
      ensures (a, b) in pairs' <==> PairCounted(win, m, i, j + 1, a, b) > 0
    {
      assert At(pairs, (a, b)) == PairCounted(win, m, i, j, a, b);
    }
  }

  lemma VertexExists(vertices: map<int, int>, win: seq<Request>, m: Request, i: int, j: int)
    requires VerticesCounted(vertices, win, m, i + 1, i, j) && 0 <= i < j < Range(m)
    ensures var vertices' := if m.key + j in vertices then vertices else vertices[m.key + j := 0];
            VerticesCounted(vertices', win, m, i + 1, i, j + 1) && m.key + i in vertices
  {
    var vertices' := if m.key + j in vertices then vertices else vertices[m.key + j := 0];
    assert Exists(win, m, i, j, m.key + i);
    forall k
      ensures At(vertices', k) == VertexCounted(win, m, i + 1, k)
      ensures k in vertices' <==> Exists(win, m, i, j + 1, k)
    {
      assert At(vertices, k) == VertexCounted(win, m, i + 1, k);
      assert k in vertices <==> Exists(win, m, i, j, k);
    }
  }

  lemma UpdateNext(vertices: map<int, int>, pairs: map<Pair, int>, win: seq<Request>, m: Request, i: int)
    requires Updating(vertices, pairs, win, m, i + 1, i, Range(m)) && 0 <= i < Range(m)
    ensures Updating(vertices, pairs, win, m, i + 1, i + 1, i + 1)
  {
    forall k ensures Exists(win, m, i + 1, i + 1, k) <==> Exists(win, m, i, Range(m), k) {
    }
    forall a, b | a < b ensures PairCounted(win, m, i + 1, i + 1, a, b) == PairCounted(win, m, i, Range(m), a, b) {
    }
  }

  lemma UpdateBegins(vertices: map<int, int>, pairs: map<Pair, int>, win: seq<Request>, m: Request)
    requires CountsVertices(vertices, win) && CountsPairs(pairs, win)
    ensures Updating(vertices, pairs, win, m, 0, 0, 0)
  {
    forall k ensures VertexCounted(win, m, 0, k) == Cover(win, k) && (Exists(win, m, 0, 0, k) <==> Cover(win, k) > 0) {
    }
    forall a, b | a < b ensures PairCounted(win, m, 0, 0, a, b) == Both(win, a, b) {
    }
  }

  lemma UpdateEnds(vertices: map<int, int>, pairs: map<Pair, int>, win: seq<Request>, m: Request)
    requires Updating(vertices, pairs, win, m, Range(m), Range(m), Range(m)) && !m.kind.Dummy? && Range(m) >= 0
    ensures CountsVertices(vertices, win + [m]) && CountsPairs(pairs, win + [m])
  {
    var n := Range(m);
    forall k ensures VertexCounted(win, m, n, k) == Cover(win + [m], k)
      ensures Exists(win, m, n, n, k) <==> VertexCounted(win, m, n, k) > 0
    {
      CountsWith(win, m, k, k);
    }
    PairsComplete(win, m);
  }

  lemma PairsComplete(win: seq<Request>, m: Request)
    requires !m.kind.Dummy?
    ensures forall a, b :: a < b ==> PairCounted(win, m, Range(m), Range(m), a, b) == Both(win + [m], a, b)
  {
    forall a, b | a < b ensures PairCounted(win, m, Range(m), Range(m), a, b) == Both(win + [m], a, b) {
      CountsWith(win, m, a, b);
    }
  }

  // ---- the thread ----

  class Tracker {
    const graph: Graph
    const trackLength: nat
    var deletionQueue: seq<Request>
    ghost var pairs: map<Pair, int>
    ghost var history: seq<Request>

    /** The messages the graph stands for: the deletion queue, or everything when there is no limit. */
    ghost function Tracked(): seq<Request>
      reads this
    {
      if trackLength > 0 then deletionQueue else history
    }

    /** The graph is the one built from scratch over the tracked messages, and those are the last
        `trackLength` of all messages after the initial placeholders. */
    ghost predicate Valid()
      reads this, graph
    {
      && Represents(graph.View(), pairs, Tracked())
      && Sized(deletionQueue)
      && (trackLength > 0 ==> deletionQueue == LastOf(Placeholders(trackLength) + history, trackLength))
    }

    constructor (trackLength: nat)
      ensures Valid() && this.trackLength == trackLength && history == [] && fresh(graph)
      ensures trackLength > 0 ==> deletionQueue == Placeholders(trackLength)
    {
      this.trackLength := trackLength;
      graph := new Graph();
      deletionQueue := Placeholders(trackLength);
      pairs := map[];
      history := [];
      new;
      EmptyGraph(Tracked());
      assert Placeholders(trackLength) + history == Placeholders(trackLength);
    }

    /** The graph has the shape `pairs` describes, with both ends of every pair in place. */
    ghost predicate InShape()
      reads this, graph
    {
      Shows(graph.View(), pairs) && EndsExist(graph.View(), pairs)
    }

    method CountVertex(message: Request, i: int, ghost win: seq<Request>)
      requires 0 <= i < Range(message)
      requires InShape() && Updating(graph.vertexWeight, pairs, win, message, i, i, i)
      modifies graph
      ensures InShape() && Updating(graph.vertexWeight, pairs, win, message, i + 1, i, i + 1)
    {
      hide Shows, EndsExist, Updating;
      UpdateVertice(graph.vertexWeight, pairs, win, message, i);
      CountVerticeShows(graph.View(), pairs, message.key + i);
      graph.CountVertice(message.key + i);
    }

    method CountEdge(message: Request, i: int, j: int, ghost win: seq<Request>)
      requires 0 <= i < j < Range(message)
      requires InShape() && Updating(graph.vertexWeight, pairs, win, message, i + 1, i, j)
      modifies graph, this`pairs
      ensures InShape() && Updating(graph.vertexWeight, pairs, win, message, i + 1, i, j + 1)
    {
      hide Shows, EndsExist, VerticesCounted, PairsCounted, CountPair;
      var a, b := message.key + i, message.key + j;
      ghost var counted, pairs' := CountPair(graph.View(), a, b), pairs[(a, b) := At(pairs, (a, b)) + 1];
      ghost var vertices' := if b in graph.vertexWeight then graph.vertexWeight else graph.vertexWeight[b := 0];
      VertexExists(graph.vertexWeight, win, message, i, j);
      CountPairShows(graph.View(), pairs, a, b);
      PairEnters(pairs, win, message, i, j);
      assert counted.vertices == vertices' && VerticesCounted(vertices', win, message, i + 1, i, j + 1);
      assert PairsCounted(pairs', win, message, i, j + 1);
      graph.CountPair(a, b);
      pairs := pairs';
      assert graph.View() == counted;
    }

    method CountEdges(message: Request, i: int, ghost win: seq<Request>)
      requires 0 <= i < Range(message)
      requires InShape() && Updating(graph.vertexWeight, pairs, win, message, i + 1, i, i + 1)
      modifies graph, this`pairs
      ensures InShape() && Updating(graph.vertexWeight, pairs, win, message, i + 1, i, Range(message))
    {
      hide Shows, EndsExist, Updating;
      var j := i + 1;
      while j < Range(message)
        invariant i < j <= Range(message)
        invariant InShape() && Updating(graph.vertexWeight, pairs, win, message, i + 1, i, j)
      {
        CountEdge(message, i, j, win);
        j := j + 1;
      }
    }

    method UpdateGraph(message: Request, ghost win: seq<Request>)
      requires Represents(graph.View(), pairs, win) && !message.kind.Dummy? && Range(message) >= 0
      modifies graph, this`pairs
      ensures Represents(graph.View(), pairs, win + [message])
    {
      hide Shows, EndsExist, CountsVertices, CountsPairs, Updating;
      PairsHaveEnds(graph.View(), pairs, win);
      UpdateBegins(graph.vertexWeight, pairs, win, message);
      var i := 0;
      while i < Range(message)
        invariant 0 <= i <= Range(message)
        invariant InShape() && Updating(graph.vertexWeight, pairs, win, message, i, i, i)
      {
        CountVertex(message, i, win);
        CountEdges(message, i, win);
        UpdateNext(graph.vertexWeight, pairs, win, message, i);
        i := i + 1;
      }
      UpdateEnds(graph.vertexWeight, pairs, win, message);
    }

    method DropEdge(message: Request, i: int, j: int, ghost win: seq<Request>)
      requires 0 <= i < j < Range(message)
      requires Shows(graph.View(), pairs) && Expiring(graph.vertexWeight, pairs, win, message, i, j)
      modifies graph, this`pairs
      ensures Shows(graph.View(), pairs) && Expiring(graph.vertexWeight, pairs, win, message, i, j - 1)
    {
      hide Shows, VerticesLeft, PairsLeft;
      PairToDrop(graph.vertexWeight, pairs, win, message, i, j);
      PairLeaves(pairs, win, message, i, j);
      DropPairShows(graph.View(), pairs, message.key + i, message.key + j);
      graph.DropPair(message.key + i, message.key + j);
      pairs := Minus(pairs, (message.key + i, message.key + j));
    }

    method DropVertex(message: Request, i: int, ghost win: seq<Request>)
      requires 0 <= i < Range(message)
      requires Shows(graph.View(), pairs) && Expiring(graph.vertexWeight, pairs, win, message, i, i)
      modifies graph
      ensures Shows(graph.View(), pairs) && Expiring(graph.vertexWeight, pairs, win, message, i - 1, Range(message) - 1)
    {
      hide Shows, Expiring, DropVertice;
      ExpireNext(graph.vertexWeight, pairs, win, message, i);
      DropVerticeShows(graph.View(), pairs, message.key + i);
      graph.DropVertice(message.key + i);
    }

    method DropEdges(message: Request, i: int, ghost win: seq<Request>)
      requires 0 <= i < Range(message)
      requires Shows(graph.View(), pairs) && Expiring(graph.vertexWeight, pairs, win, message, i, Range(message) - 1)
      modifies graph, this`pairs
      ensures Shows(graph.View(), pairs) && Expiring(graph.vertexWeight, pairs, win, message, i, i)
    {
      hide Shows, Expiring;
      var j := Range(message) - 1;
      while j >= i + 1
        invariant i <= j < Range(message)
        invariant Shows(graph.View(), pairs) && Expiring(graph.vertexWeight, pairs, win, message, i, j)
      {
        DropEdge(message, i, j, win);
        j := j - 1;
      }
    }

    /** Expiring any message of the window, wherever it stands, leaves the graph of the others. */
    method Expire(message: Request, ghost win: seq<Request>, ghost at: nat)
      requires Represents(graph.View(), pairs, win) && at < |win| && win[at] == message && Range(message) >= 0
      modifies graph, this`pairs
      ensures Represents(graph.View(), pairs, win[..at] + win[at + 1..])
    {
      hide Shows, CountsVertices, CountsPairs, Expiring;
      ghost var rest := win[..at] + win[at + 1..];
      if message.kind.Dummy? {
        ExpireDummy(graph.vertexWeight, pairs, win, at);
      } else {
        ExpireBegins(graph.vertexWeight, pairs, win, at);
        var i := Range(message) - 1;
        while i >= 0
          invariant -1 <= i < Range(message)
          invariant Shows(graph.View(), pairs)
          invariant Expiring(graph.vertexWeight, pairs, rest, message, i, Range(message) - 1)
        {
          DropEdges(message, i, rest);
          DropVertex(message, i, rest);
          i := i - 1;
        }
        ExpireEnds(graph.vertexWeight, pairs, rest, message);
      }
    }

    /** Expiring undoes updating exactly: every field of the graph is back to what it was. */
    method UpdateThenExpire(message: Request, ghost win: seq<Request>)
      requires Represents(graph.View(), pairs, win) && !message.kind.Dummy? && Range(message) >= 0
      modifies graph, this`pairs
      ensures graph.View() == old(graph.View()) && pairs == old(pairs)
    {
      hide Represents;
      UpdateGraph(message, win);
      Expire(message, win + [message], |win|);
      assert (win + [message])[..|win|] + (win + [message])[|win| + 1..] == win;
      GraphIsDetermined(old(graph.View()), old(pairs), graph.View(), pairs, win);
    }

    /** One message through the graph thread. */
    method Process(message: Request)
      requires Valid() && !message.kind.Dummy? && Range(message) >= 0
      modifies this, graph
      ensures Valid() && history == old(history) + [message]
      ensures Range(message) >= 1 ==> message.key in graph.vertexWeight
    {
      hide Represents, LastOf, Placeholders, Sized;
      ghost var before := Tracked();
      UpdateGraph(message, before);
      if trackLength > 0 {
        deletionQueue := deletionQueue + [message];
        var expired := deletionQueue[0];
        deletionQueue := deletionQueue[1..];
        ShiftKeepsSized(before, message);
        Expire(expired, before + [message], 0);
        assert (before + [message])[..0] + (before + [message])[1..] == deletionQueue;
        LastOfMoves(Placeholders(trackLength), history, message, trackLength);
      }
      history := history + [message];
      NewestIsThere(graph.View(), pairs, Tracked(), message);
    }
  }

  /** The message just counted in is still in the window, so its key is a vertex. */
  lemma NewestIsThere(g: Fields, pairs: map<Pair, int>, win: seq<Request>, m: Request)
    requires Represents(g, pairs, win) && win != [] && win[|win| - 1] == m && !m.kind.Dummy?
    ensures Range(m) >= 1 ==> m.key in g.vertices
  {
    CountsWithout(win, |win| - 1, m.key, m.key);
    assert At(g.vertices, m.key) == Cover(win, m.key);
  }

  predicate Sized(q: seq<Request>) {
    forall i :: 0 <= i < |q| ==> Range(q[i]) >= 0
  }

  lemma ShiftKeepsSized(q: seq<Request>, m: Request)
    requires Sized(q) && Range(m) >= 0
    ensures Sized((q + [m])[1..]) && Range((q + [m])[0]) >= 0
  {
  }

  const PLACEHOLDER := Request(Dummy, 0, "", 0)

  function Placeholders(n: nat): (s: seq<Request>)
    ensures |s| == n
  {
    seq(n, _ => PLACEHOLDER)
  }

  function LastOf(s: seq<Request>, n: nat): seq<Request> {
    if |s| <= n then s else s[|s| - n..]
  }

  lemma LastOfMoves(a: seq<Request>, b: seq<Request>, m: Request, n: nat)
    requires n > 0 && |a| >= n
    ensures LastOf(a + (b + [m]), n) == (LastOf(a + b, n) + [m])[1..]
    ensures |LastOf(a + b, n)| == n
  {
    assert a + (b + [m]) == (a + b) + [m];
  }
}
