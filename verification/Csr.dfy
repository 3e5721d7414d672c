/** The export of the graph to the four arrays the partitioner reads, and the map built from its answer. */
module Csr {
  import opened CoAccess
  import opened WorkloadGraph
  import opened Requests
  import opened Sets
  import opened Sorted
  import opened Window

  ghost predicate Lists(keys: seq<int>, all: set<int>) {
    Ascending(keys) && forall k :: k in keys <==> k in all
  }

  function Insert(s: seq<int>, k: int): seq<int> {
    if s == [] then [k] else if k < s[0] then [k] + s else [s[0]] + Insert(s[1..], k)
  }

  lemma {:induction false} InsertAscends(s: seq<int>, k: int)
    requires Ascending(s) && k !in s
    ensures Ascending(Insert(s, k)) && forall j :: j in Insert(s, k) <==> j == k || j in s
  {
    if s == [] {
    } else if k < s[0] {
    } else {
      InsertAscends(s[1..], k);
      var t := Insert(s[1..], k);
      forall j | 0 <= j < |t| ensures s[0] < t[j] {
        assert t[j] in t;
      }
    }
  }

  /** The keys in increasing order. */
  method SortedVertex(g: Graph) returns (keys: seq<int>)
    ensures Lists(keys, g.vertexWeight.Keys) && |keys| == |g.vertexWeight|
  {
    keys := [];
    var rest := g.vertexWeight.Keys;
    while rest != {}
      invariant Lists(keys, g.vertexWeight.Keys - rest) && rest <= g.vertexWeight.Keys
      invariant |keys| + |rest| == |g.vertexWeight|
    {
      ghost var some := Inhabited(rest);
      var k :| k in rest;
      InsertAscends(keys, k);
      InsertSize(keys, k);
      keys := Insert(keys, k);
      rest := rest - {k};
    }
  }

  lemma {:induction false} InsertSize(s: seq<int>, k: int)
    ensures |Insert(s, k)| == |s| + 1
  {
    if s != [] && k >= s[0] {
      InsertSize(s[1..], k);
    }
  }

  // ---- decoding ----

  /** The adjacency row that a stretch of targets and weights describes; later entries win. */
  function DecodeRow(keys: seq<int>, targets: seq<int>, weights: seq<int>): map<int, int>
    requires |targets| == |weights| && forall t :: t in targets ==> 0 <= t < |keys|
  {
    if targets == [] then map[] else
      var n := |targets| - 1;
      assert targets[n] in targets && forall t :: t in targets[..n] ==> t in targets;
      DecodeRow(keys, targets[..n], weights[..n])[keys[targets[n]] := weights[n]]
  }

  datatype Arrays = Arrays(weights: seq<int>, offsets: seq<int>, targets: seq<int>, edgeWeights: seq<int>)

  /** Offsets of the first `rows` rows over `n` vertices: they start at 0, never decrease, and the last
      one is the number of entries. */
  ghost predicate WellFormed(a: Arrays, n: nat, rows: nat) {
    && |a.offsets| == rows + 1 && |a.targets| == |a.edgeWeights|
    && a.offsets[0] == 0 && a.offsets[rows] == |a.targets|
    && (forall i, j :: 0 <= i <= j <= rows ==> 0 <= a.offsets[i] <= a.offsets[j] <= |a.targets|)
    && (forall t :: t in a.targets ==> 0 <= t < n)
  }

  function Stretch(a: Arrays, keys: seq<int>, rows: nat, i: nat): map<int, int>
    requires WellFormed(a, |keys|, rows) && i < rows
  {
    var lo, hi := a.offsets[i], a.offsets[i + 1];
    assert forall t :: t in a.targets[lo..hi] ==> t in a.targets;
    DecodeRow(keys, a.targets[lo..hi], a.edgeWeights[lo..hi])
  }

  // ---- reading the arrays back with the position of every key ----

  ghost predicate Readable(a: Arrays, keys: seq<int>, positions: map<int, int>) {
    && |a.weights| == |keys| && WellFormed(a, |keys|, |keys|)
    && forall k :: k in positions ==> 0 <= positions[k] < |keys|
  }

  function DecodeVertices(a: Arrays, keys: seq<int>, positions: map<int, int>): map<int, int>
    requires Readable(a, keys, positions)
  {
    map k | k in positions :: a.weights[positions[k]]
  }

  function DecodeEdges(a: Arrays, keys: seq<int>, positions: map<int, int>): map<int, map<int, int>>
    requires Readable(a, keys, positions)
  {
    map k | k in positions :: Stretch(a, keys, |keys|, positions[k])
  }

  /** `positions` is the order-preserving bijection from the keys to 0, 1, 2, ... */
  ghost predicate Numbers(positions: map<int, int>, keys: seq<int>) {
    && (forall k :: k in positions <==> k in keys)
    && (forall i :: 0 <= i < |keys| ==> positions[keys[i]] == i)
  }

  /** The part of a row whose neighbours are vertices. */
  function Kept(row: map<int, int>, vertices: set<int>): map<int, int> {
    map b | b in row && b in vertices :: row[b]
  }

  // ---- encoding ----

  lemma DecodeAppend(keys: seq<int>, ts: seq<int>, ws: seq<int>, t: int, w: int)
    requires |ts| == |ws| && (forall x :: x in ts ==> 0 <= x < |keys|) && 0 <= t < |keys|
    ensures forall x :: x in ts + [t] ==> 0 <= x < |keys|
    ensures DecodeRow(keys, ts + [t], ws + [w]) == DecodeRow(keys, ts, ws)[keys[t] := w]
  {
    assert (ts + [t])[..|ts|] == ts && (ws + [w])[..|ws|] == ws;
  }

  /** The part of a row visited so far. */
  function Visited(row: map<int, int>, rest: set<int>, vertices: set<int>): map<int, int> {
    map b | b in row && b in vertices && b !in rest :: row[b]
  }

  lemma VisitOne(row: map<int, int>, rest: set<int>, vertices: set<int>, b: int)
    requires b in rest && rest <= row.Keys
    ensures var before, after := Visited(row, rest, vertices), Visited(row, rest - {b}, vertices);
            && b !in before
            && after == (if b in vertices then before[b := row[b]] else before)
            && |after| == |before| + if b in vertices then 1 else 0
  {
    var before, after := Visited(row, rest, vertices), Visited(row, rest - {b}, vertices);
    if b in vertices {
      assert after == before[b := row[b]];
      assert after.Keys == before.Keys + {b};
    } else {
      assert after == before;
    }
  }

  /** One row, in the arbitrary order an unordered map is visited, leaving out neighbours that are no
      vertices. */
  method EncodeRow(row: map<int, int>, keys: seq<int>, positions: map<int, int>)
    returns (targets: seq<int>, weights: seq<int>)
    requires Numbers(positions, keys)
    ensures |targets| == |weights| && forall t :: t in targets ==> 0 <= t < |keys|
    ensures DecodeRow(keys, targets, weights) == Kept(row, positions.Keys)
    ensures |targets| == |Kept(row, positions.Keys)|
  {
    targets, weights := [], [];
    var rest := row.Keys;
    ghost var vertices := positions.Keys;
    assert Visited(row, rest, vertices) == map[];
    while rest != {}
      invariant rest <= row.Keys && |targets| == |weights| && forall t :: t in targets ==> 0 <= t < |keys|
      invariant DecodeRow(keys, targets, weights) == Visited(row, rest, vertices)
      invariant |targets| == |Visited(row, rest, vertices)|
    {
      ghost var some := Inhabited(rest);
      var b :| b in rest;
      VisitOne(row, rest, vertices, b);
      if b in positions {
        assert 0 <= positions[b] < |keys| && keys[positions[b]] == b by {
          var i :| 0 <= i < |keys| && keys[i] == b;
        }
        DecodeAppend(keys, targets, weights, positions[b], row[b]);
        targets, weights := targets + [positions[b]], weights + [row[b]];
      }
      rest := rest - {b};
    }
    assert Visited(row, rest, vertices) == Kept(row, vertices);
  }

  /** The first `rows` stretches are the rows of the graph, restricted to its vertices. */
  ghost predicate RowsEncoded(a: Arrays, keys: seq<int>, edges: map<int, map<int, int>>, vertices: set<int>, rows: nat)
    requires WellFormed(a, |keys|, rows) && rows <= |keys|
  {
    forall i :: 0 <= i < rows ==>
      && keys[i] in edges
      && Stretch(a, keys, rows, i) == Kept(edges[keys[i]], vertices)
      && a.offsets[i + 1] == a.offsets[i] + |Kept(edges[keys[i]], vertices)|
  }

  function Appended(a: Arrays, targets: seq<int>, weights: seq<int>): Arrays {
    a.(offsets := a.offsets + [|a.targets| + |targets|], targets := a.targets + targets,
       edgeWeights := a.edgeWeights + weights)
  }

  lemma AppendWellFormed(a: Arrays, n: nat, rows: nat, targets: seq<int>, weights: seq<int>)
    requires WellFormed(a, n, rows) && |targets| == |weights| && forall t :: t in targets ==> 0 <= t < n
    ensures WellFormed(Appended(a, targets, weights), n, rows + 1)
  {
    var a' := Appended(a, targets, weights);
    forall i, j | 0 <= i <= j <= rows + 1 ensures 0 <= a'.offsets[i] <= a'.offsets[j] <= |a'.targets| {
      if j <= rows {
        assert 0 <= a.offsets[i] <= a.offsets[j] <= |a.targets|;
      } else if i <= rows {
        assert 0 <= a.offsets[i] <= a.offsets[i] <= |a.targets|;
      }
    }
  }

  lemma AppendSlices(a: Arrays, n: nat, rows: nat, targets: seq<int>, weights: seq<int>, i: nat)
    requires WellFormed(a, n, rows) && |targets| == |weights| && i <= rows
    ensures var a' := Appended(a, targets, weights);
            var (lo, hi) := (a'.offsets[i], a'.offsets[i + 1]);
            if i < rows then
              && lo == a.offsets[i] && hi == a.offsets[i + 1] && 0 <= lo <= hi <= |a.targets|
              && a'.targets[lo..hi] == a.targets[lo..hi] && a'.edgeWeights[lo..hi] == a.edgeWeights[lo..hi]
            else
              && 0 <= lo <= hi == |a'.targets| == |a'.edgeWeights|
              && a'.targets[lo..hi] == targets && a'.edgeWeights[lo..hi] == weights
  {
    if i < rows {
      assert 0 <= a.offsets[i] <= a.offsets[i + 1] <= |a.targets|;
    }
  }

  /** Appending a row leaves the stretches before it alone and adds its own. */
  lemma AppendStretches(a: Arrays, keys: seq<int>, rows: nat, targets: seq<int>, weights: seq<int>, i: nat)
    requires WellFormed(a, |keys|, rows) && WellFormed(Appended(a, targets, weights), |keys|, rows + 1)
    requires |targets| == |weights| && (forall t :: t in targets ==> 0 <= t < |keys|) && i <= rows
    ensures Stretch(Appended(a, targets, weights), keys, rows + 1, i) ==
            if i < rows then Stretch(a, keys, rows, i) else DecodeRow(keys, targets, weights)
  {
    var a' := Appended(a, targets, weights);
    var lo, hi := a'.offsets[i], a'.offsets[i + 1];
    AppendSlices(a, |keys|, rows, targets, weights, i);
    hide DecodeRow, WellFormed, Appended;
  }

  lemma AppendEncodes(a: Arrays, keys: seq<int>, edges: map<int, map<int, int>>, vertices: set<int>, rows: nat,
                      targets: seq<int>, weights: seq<int>)
    requires rows < |keys| && WellFormed(a, |keys|, rows) && RowsEncoded(a, keys, edges, vertices, rows)
    requires keys[rows] in edges
    requires |targets| == |weights| && forall t :: t in targets ==> 0 <= t < |keys|
    requires DecodeRow(keys, targets, weights) == Kept(edges[keys[rows]], vertices)
    requires |targets| == |Kept(edges[keys[rows]], vertices)|
    ensures var a' := Appended(a, targets, weights);
            WellFormed(a', |keys|, rows + 1) && RowsEncoded(a', keys, edges, vertices, rows + 1)
  {
    hide DecodeRow, Kept, Stretch;
    var a' := Appended(a, targets, weights);
    AppendWellFormed(a, |keys|, rows, targets, weights);
    forall i | 0 <= i < rows + 1
      ensures keys[i] in edges && Stretch(a', keys, rows + 1, i) == Kept(edges[keys[i]], vertices)
      ensures a'.offsets[i + 1] == a'.offsets[i] + |Kept(edges[keys[i]], vertices)|
    {
      AppendStretches(a, keys, rows, targets, weights, i);
    }
  }

  /** The first loop: positions and vertex weights, in key order. */
  method NumberVertices(g: Graph, keys: seq<int>) returns (positions: map<int, int>, weights: seq<int>)
    requires Lists(keys, g.vertexWeight.Keys)
    ensures Numbers(positions, keys) && positions.Keys == g.vertexWeight.Keys
    ensures forall k :: k in positions ==> 0 <= positions[k] < |keys|
    ensures |weights| == |keys| && forall i :: 0 <= i < |keys| ==> weights[i] == At(g.vertexWeight, keys[i])
  {
    positions, weights := map[], [];
    var i := 0;
    while i < |keys|
      invariant 0 <= i <= |keys| && |weights| == i
      invariant forall k :: k in positions <==> k in keys[..i]
      invariant forall j :: 0 <= j < i ==> keys[j] in positions && positions[keys[j]] == j
      invariant forall j :: 0 <= j < i ==> weights[j] == At(g.vertexWeight, keys[j])
    {
      assert keys[i] in keys;
      weights := weights + [g.vertexWeight[keys[i]]];
      positions := positions[keys[i] := i];
      i := i + 1;
    }
    assert keys[..i] == keys;
    forall k | k in positions ensures 0 <= positions[k] < |keys| {
      var j :| 0 <= j < |keys| && keys[j] == k;
    }
    SameSet(positions.Keys, g.vertexWeight.Keys);
  }

  /** The export: the positions number the keys in increasing order, and the arrays hold the weight and
      the row of every vertex. */
  method MultilevelCutData(g: Graph) returns (positions: map<int, int>, a: Arrays, keys: seq<int>)
    requires g.vertexWeight.Keys <= g.edgesWeight.Keys
    ensures Exported(g.View(), positions, a, keys)
  {
    hide Stretch, Kept, DecodeRow, Ascending, WellFormed, RowsEncoded;
    keys := SortedVertex(g);
    var weights: seq<int>;
    positions, weights := NumberVertices(g, keys);
    a := Arrays(weights, [0], [], []);
    NoRows(weights, keys, g.edgesWeight, positions.Keys);
    var i := 0;
    while i < |keys|
      invariant 0 <= i <= |keys| && a.weights == weights
      invariant WellFormed(a, |keys|, i) && RowsEncoded(a, keys, g.edgesWeight, positions.Keys, i)
    {
      var k := keys[i];
      assert k in keys && k in g.vertexWeight.Keys;
      var targets, rowWeights := EncodeRow(g.edgesWeight[k], keys, positions);
      AppendEncodes(a, keys, g.edgesWeight, positions.Keys, i, targets, rowWeights);
      a := Appended(a, targets, rowWeights);
      i := i + 1;
    }
  }

  lemma NoRows(weights: seq<int>, keys: seq<int>, edges: map<int, map<int, int>>, vertices: set<int>)
    ensures var a := Arrays(weights, [0], [], []);
            WellFormed(a, |keys|, 0) && RowsEncoded(a, keys, edges, vertices, 0)
  {
  }

  // ---- the round trip on window graphs ----

  ghost predicate Exported(g: Fields, positions: map<int, int>, a: Arrays, keys: seq<int>) {
    && Lists(keys, g.vertices.Keys) && Numbers(positions, keys) && positions.Keys == g.vertices.Keys
    && Readable(a, keys, positions)
    && (forall i :: 0 <= i < |keys| ==> a.weights[i] == At(g.vertices, keys[i]))
    && RowsEncoded(a, keys, g.edges, g.vertices.Keys, |keys|)
  }

  /** Every neighbour is a vertex. */
  ghost predicate Closed(g: Fields) {
    && g.edges.Keys == g.vertices.Keys
    && forall a, b :: a in g.edges && b in g.edges[a] ==> b in g.vertices
  }

  lemma WindowGraphsAreClosed(g: Fields, pairs: map<Pair, int>, win: seq<Request>)
    requires Represents(g, pairs, win)
    ensures Closed(g)
  {
    NothingWeightless(g, pairs, win);
  }

  /** The membership filter drops nothing. */
  lemma NothingFiltered(g: Fields, k: int)
    requires Closed(g) && k in g.edges
    ensures Kept(g.edges[k], g.vertices.Keys) == g.edges[k]
  {
    SameMap(Kept(g.edges[k], g.vertices.Keys), g.edges[k]);
  }

  /** Decoding the export of a window graph gives the graph back. */
  lemma RoundTrip(g: Fields, pairs: map<Pair, int>, win: seq<Request>, positions: map<int, int>,
                          a: Arrays, keys: seq<int>)
    requires Represents(g, pairs, win) && Exported(g, positions, a, keys)
    ensures DecodeVertices(a, keys, positions) == g.vertices
    ensures DecodeEdges(a, keys, positions) == g.edges
  {
    WindowGraphsAreClosed(g, pairs, win);
    hide Represents, Stretch, Kept, Closed, Exported;
    forall k | k in positions
      ensures k in g.vertices && a.weights[positions[k]] == g.vertices[k]
      ensures k in g.edges && Stretch(a, keys, |keys|, positions[k]) == g.edges[k]
    {
      RowBack(g, positions, a, keys, k);
    }
    SameMap(DecodeVertices(a, keys, positions), g.vertices);
    SameMap(DecodeEdges(a, keys, positions), g.edges);
  }

  lemma RowBack(g: Fields, positions: map<int, int>, a: Arrays, keys: seq<int>, k: int)
    requires Closed(g) && Exported(g, positions, a, keys) && k in positions
    ensures k in g.vertices && a.weights[positions[k]] == g.vertices[k]
    ensures k in g.edges && Stretch(a, keys, |keys|, positions[k]) == g.edges[k]
  {
    hide Stretch, Kept;
    var i :| 0 <= i < |keys| && keys[i] == k;
    NothingFiltered(g, k);
  }

  // ---- the number of entries ----

  ghost function Arcs(edges: map<int, map<int, int>>, keys: set<int>): set<Pair>
    requires forall k :: k in keys ==> k in edges
  {
    set a, b | a in keys && b in edges[a] :: (a, b)
  }

  lemma {:induction false} FanSize(a: int, row: set<int>)
    ensures |set b | b in row :: (a, b)| == |row|
  {
    if row != {} {
      var x := Inhabited(row);
      FanSize(a, row - {x});
      assert (set b | b in row :: (a, b)) == (set b | b in row - {x} :: (a, b)) + {(a, x)};
    }
  }

  function Flip(p: Pair): Pair {
    (p.1, p.0)
  }

  ghost function Flipped(s: set<Pair>): set<Pair> {
    set p | p in s :: Flip(p)
  }

  lemma FlippedHas(s: set<Pair>, x: Pair)
    ensures x in Flipped(s) <==> (x.1, x.0) in s
  {
    assert x == Flip((x.1, x.0));
  }

  lemma {:induction false} FlipSize(s: set<Pair>)
    ensures |Flipped(s)| == |s|
  {
    if s != {} {
      var x := Inhabited(s);
      FlipSize(s - {x});
      assert Flipped(s) == Flipped(s - {x}) + {Flip(x)};
    }
  }

  lemma OneMoreFan(edges: map<int, map<int, int>>, before: set<int>, k: int)
    requires (forall x :: x in before ==> x in edges) && k in edges && k !in before
    ensures |Arcs(edges, before + {k})| == |Arcs(edges, before)| + |edges[k]|
  {
    FanSize(k, edges[k].Keys);
    var fan := set b | b in edges[k].Keys :: (k, b);
    assert Arcs(edges, before + {k}) == Arcs(edges, before) + fan;
    assert Arcs(edges, before) !! fan;
  }

  function Firsts(keys: seq<int>, i: nat): set<int>
    requires i <= |keys|
  {
    set k | k in keys[..i]
  }

  lemma FirstsGrow(keys: seq<int>, i: nat)
    requires 0 < i <= |keys| && Ascending(keys)
    ensures Firsts(keys, i) == Firsts(keys, i - 1) + {keys[i - 1]} && keys[i - 1] !in Firsts(keys, i - 1)
    ensures forall k :: k in Firsts(keys, i) ==> k in keys
  {
    assert keys[..i] == keys[..i - 1] + [keys[i - 1]];
  }

  /** The offset of a row counts the arcs of the rows before it. */
  lemma {:induction false} OffsetCountsArcs(a: Arrays, keys: seq<int>, g: Fields, positions: map<int, int>, i: nat)
    requires Closed(g) && Exported(g, positions, a, keys) && i <= |keys|
    ensures forall k :: k in Firsts(keys, i) ==> k in g.edges
    ensures a.offsets[i] == |Arcs(g.edges, Firsts(keys, i))|
  {
    hide Stretch, Kept, Arcs;
    if i == 0 {
      NoArcs(g.edges, Firsts(keys, 0));
    } else {
      OffsetCountsArcs(a, keys, g, positions, i - 1);
      NothingFiltered(g, keys[i - 1]);
      FirstsGrow(keys, i);
      OneMoreFan(g.edges, Firsts(keys, i - 1), keys[i - 1]);
    }
  }

  lemma NoArcs(edges: map<int, map<int, int>>, none: set<int>)
    requires none == {}
    ensures Arcs(edges, none) == {}
  {
  }

  /** Every edge is stored twice: the arrays have two entries for each of the `nEdges` edges. */
  lemma TwoEntriesPerEdge(g: Fields, pairs: map<Pair, int>, win: seq<Request>, positions: map<int, int>,
                          a: Arrays, keys: seq<int>)
    requires Represents(g, pairs, win) && Exported(g, positions, a, keys)
    ensures |a.targets| == |a.edgeWeights| == 2 * g.nEdges == a.offsets[|keys|]
  {
    WindowGraphsAreClosed(g, pairs, win);
    ArcsAreTwice(g, pairs, win);
    OffsetCountsArcs(a, keys, g, positions, |keys|);
    assert keys[..|keys|] == keys;
    assert Firsts(keys, |keys|) == g.edges.Keys by {
      assert forall k :: k in Firsts(keys, |keys|) <==> k in keys;
      assert forall k :: k in keys <==> k in g.vertices.Keys;
    }
  }

  lemma ArcIsPair(edges: map<int, map<int, int>>, pairs: map<Pair, int>, x: Pair)
    requires Adjacent(edges, edges.Keys, pairs)
    requires forall p :: p in pairs ==> p.0 in edges && p.1 in edges
    ensures x in Arcs(edges, edges.Keys) <==> x in pairs || (x.1, x.0) in pairs
  {
    assert x == (x.0, x.1);
    if x.0 < x.1 {
      assert Unordered(x.0, x.1) == x;
    } else {
      assert Unordered(x.0, x.1) == (x.1, x.0);
    }
  }

  lemma WindowPairs(g: Fields, pairs: map<Pair, int>, win: seq<Request>)
    requires Represents(g, pairs, win)
    ensures Adjacent(g.edges, g.edges.Keys, pairs)
    ensures forall p :: p in pairs ==> p.0 < p.1 && p.0 in g.edges && p.1 in g.edges
  {
    PairsHaveEnds(g, pairs, win);
    SameKeys(g, pairs);
    hide CountsPairs, CountsVertices, Sum;
  }

  lemma UnionSize<T>(a: set<T>, b: set<T>, both: set<T>)
    requires forall x :: x in both <==> x in a || x in b
    requires forall x :: x in a ==> x !in b
    ensures |both| == |a| + |b|
  {
    assert both == a + b && a !! b;
  }

  lemma ArcsAreTwice(g: Fields, pairs: map<Pair, int>, win: seq<Request>)
    requires Represents(g, pairs, win)
    ensures |Arcs(g.edges, g.edges.Keys)| == 2 * |pairs|
  {
    hide Represents, Adjacent, Arcs, Flipped;
    WindowPairs(g, pairs, win);
    forall x: Pair ensures x in Arcs(g.edges, g.edges.Keys) <==> x in pairs.Keys || x in Flipped(pairs.Keys) {
      ArcIsPair(g.edges, pairs, x);
      FlippedHas(pairs.Keys, x);
    }
    forall x | x in pairs.Keys ensures x !in Flipped(pairs.Keys) {
      FlippedHas(pairs.Keys, x);
      assert x.0 < x.1;
    }
    UnionSize(pairs.Keys, Flipped(pairs.Keys), Arcs(g.edges, g.edges.Keys));
    FlipSize(pairs.Keys);
  }

  // ---- the new key map ----

  /** The map built from the partitioner's answer sends every key to the partition of its position. */
  method Partitioning(positions: map<int, int>, scheme: seq<nat>, n: nat) returns (mapping: map<int, nat>)
    requires forall k :: k in positions ==> 0 <= positions[k] < |scheme|
    requires forall p :: p in scheme ==> p < n
    ensures mapping.Keys == positions.Keys
    ensures forall k :: k in mapping ==> mapping[k] == scheme[positions[k]] < n
  {
    mapping := map[];
    var rest := positions.Keys;
    while rest != {}
      invariant rest <= positions.Keys && mapping.Keys == positions.Keys - rest
      invariant forall k :: k in mapping ==> mapping[k] == scheme[positions[k]] < n
    {
      ghost var some := Inhabited(rest);
      var k :| k in rest;
      assert scheme[positions[k]] in scheme;
      mapping := mapping[k := scheme[positions[k]]];
      rest := rest - {k};
    }
  }
}
