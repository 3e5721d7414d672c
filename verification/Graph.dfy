/** The co-access graph: weighted vertices, a symmetric weighted adjacency, and running totals. */
module CoAccess {

  /** The fields of the graph. */
  datatype Fields = Fields(vertices: map<int, int>, edges: map<int, map<int, int>>,
                           nEdges: int, totalVertices: int, totalEdges: int)

  /** Reading through `operator[]`: an absent entry reads as the default. */
  function At<K>(m: map<K, int>, k: K): int {
    if k in m then m[k] else 0
  }

  function Row(edges: map<int, map<int, int>>, k: int): map<int, int> {
    if k in edges then edges[k] else map[]
  }

  // ---- the mutators as functions of the fields ----

  function AddVertice(g: Fields, k: int): Fields {
    if k in g.vertices then g else g.(vertices := g.vertices[k := 0], edges := g.edges[k := map[]])
  }

  function IncrementVertice(g: Fields, k: int, w: int): Fields {
    g.(vertices := g.vertices[k := At(g.vertices, k) + w], totalVertices := g.totalVertices + w)
  }

  function RemoveWeightlessVertice(g: Fields, k: int): Fields {
    if At(g.vertices, k) == 0 then g.(vertices := g.vertices - {k}, edges := g.edges - {k}) else g
  }

  function SetEntry(edges: map<int, map<int, int>>, a: int, b: int, w: int): map<int, map<int, int>> {
    edges[a := Row(edges, a)[b := w]]
  }

  function AddEdge(g: Fields, a: int, b: int): Fields {
    if b in Row(g.edges, a) then g else
      g.(edges := SetEntry(SetEntry(g.edges, a, b, 0), b, a, 0), nEdges := g.nEdges + 1)
  }

  function IncrementEdge(g: Fields, a: int, b: int, w: int): Fields {
    var once := SetEntry(g.edges, a, b, At(Row(g.edges, a), b) + w);
    g.(edges := SetEntry(once, b, a, At(Row(once, b), a) + w), totalEdges := g.totalEdges + w)
  }

  function RemoveWeightlessEdge(g: Fields, a: int, b: int): Fields {
    if At(Row(g.edges, a), b) == 0 then
      var once := g.edges[b := Row(g.edges, b) - {a}];
      g.(edges := once[a := Row(once, a) - {b}], nEdges := g.nEdges - 1)
    else g
  }

  /** What `Scheduler.expire` does for one pair, and then for one vertex. */
  function DropPair(g: Fields, a: int, b: int): Fields {
    RemoveWeightlessVertice(RemoveWeightlessEdge(IncrementEdge(g, a, b, -1), a, b), b)
  }

  function DropVertice(g: Fields, k: int): Fields {
    RemoveWeightlessVertice(IncrementVertice(g, k, -1), k)
  }

  /** What `Scheduler.update_graph` does for one vertex, and for one pair. */
  function CountVertice(g: Fields, k: int): Fields {
    IncrementVertice(AddVertice(g, k), k, 1)
  }

  function CountPair(g: Fields, a: int, b: int): Fields {
    IncrementEdge(AddEdge(AddVertice(g, b), a, b), a, b, 1)
  }

  // ---- what the fields mean ----

  type Pair = (int, int)

  function Unordered(a: int, b: int): Pair {
    if a < b then (a, b) else (b, a)
  }

  ghost function Sum<K>(m: map<K, int>): int {
    if m == map[] then 0 else
      var k :| k in m;
      m[k] + Sum(m - {k})
  }

  lemma {:induction false} SumRemove<K>(m: map<K, int>, k: K)
    requires k in m
    ensures Sum(m) == m[k] + Sum(m - {k})
  {
    var j :| j in m && Sum(m) == m[j] + Sum(m - {j});
    if j != k {
      SumRemove(m - {j}, k);
      SumRemove(m - {k}, j);
      assert m - {j} - {k} == m - {k} - {j};
    }
  }

  lemma SumUpdate<K>(m: map<K, int>, k: K, v: int)
    ensures Sum(m[k := v]) == Sum(m) - At(m, k) + v
  {
    SumRemove(m[k := v], k);
    assert m[k := v] - {k} == m - {k};
    if k in m {
      SumRemove(m, k);
    } else {
      assert m - {k} == m;
    }
  }

  /** `edges` is, for the vertices in `keys`, the symmetric reading of `pairs`, a map from ordered pairs
      to weights. */
  ghost predicate Adjacent(edges: map<int, map<int, int>>, keys: set<int>, pairs: map<Pair, int>) {
    && edges.Keys == keys
    && (forall p :: p in pairs ==> p.0 < p.1)
    && (forall a, b :: a in edges ==>
          (b in edges[a] <==> a != b && Unordered(a, b) in pairs)
          && (b in edges[a] ==> edges[a][b] == pairs[Unordered(a, b)]))
  }

  /** The adjacency stored for the vertices that exist is the one `pairs` describes; the counter and the
      totals agree with it. A pair may outlive one of its vertices. */
  ghost predicate Shows(g: Fields, pairs: map<Pair, int>) {
    && Adjacent(g.edges, g.vertices.Keys, pairs)
    && g.nEdges == |pairs|
    && g.totalVertices == Sum(g.vertices)
    && g.totalEdges == Sum(pairs)
  }

  lemma SameKeys(g: Fields, pairs: map<Pair, int>)
    requires Shows(g, pairs)
    ensures g.edges.Keys == g.vertices.Keys
  {
  }

  function Minus<K>(m: map<K, int>, k: K): map<K, int> {
    if At(m, k) == 1 then m - {k} else m[k := At(m, k) - 1]
  }

  lemma MinusSum<K>(m: map<K, int>, k: K)
    requires k in m
    ensures Sum(Minus(m, k)) == Sum(m) - 1
    ensures |Minus(m, k)| == if m[k] == 1 then |m| - 1 else |m|
  {
    SumRemove(m, k);
    SumUpdate(m, k, m[k] - 1);
    assert (m - {k}).Keys == m.Keys - {k};
    assert m[k := m[k] - 1].Keys == m.Keys;
  }

  // ---- the mutators keep the meaning ----

  /** When the second vertex is gone and the pair has weight one, the row that `operator[]` creates
      for it is removed again before anyone sees it. */
  lemma DropPairGhost(g: Fields, a: int, b: int)
    requires a != b && g.edges.Keys == g.vertices.Keys && a in g.edges && b !in g.edges
    requires b in g.edges[a] && g.edges[a][b] == 1
    ensures DropPair(g, a, b) == g.(edges := g.edges[a := g.edges[a] - {b}],
                                    nEdges := g.nEdges - 1, totalEdges := g.totalEdges - 1)
  {
    var h := IncrementEdge(g, a, b, -1);
    assert h.edges == g.edges[a := g.edges[a][b := 0]][b := map[a := -1]];
    var r := RemoveWeightlessEdge(h, a, b);
    assert g.edges[a][b := 0] - {b} == g.edges[a] - {b};
    assert map[a := -1] - {a} == map[];
    assert r.edges == g.edges[a := g.edges[a] - {b}][b := map[]];
    assert g.vertices - {b} == g.vertices;
    assert r.edges - {b} == g.edges[a := g.edges[a] - {b}];
  }

  /** When both vertices exist, both entries lose one unit and disappear together at zero. */
  lemma DropPairBoth(g: Fields, a: int, b: int)
    requires a != b && a in g.edges && b in g.edges && b in g.vertices && g.vertices[b] != 0
    requires b in g.edges[a] && a in g.edges[b] && g.edges[a][b] == g.edges[b][a]
    ensures var one := g.edges[a][b] == 1;
            DropPair(g, a, b) == g.(edges := g.edges[a := Minus(g.edges[a], b)][b := Minus(g.edges[b], a)],
                                    nEdges := if one then g.nEdges - 1 else g.nEdges, totalEdges := g.totalEdges - 1)
  {
    var w := g.edges[a][b];
    var h := IncrementEdge(g, a, b, -1);
    assert h.edges == g.edges[a := g.edges[a][b := w - 1]][b := g.edges[b][a := w - 1]];
    assert g.edges[a][b := w - 1] - {b} == g.edges[a] - {b};
    assert g.edges[b][a := w - 1] - {a} == g.edges[b] - {a};
    var r := RemoveWeightlessEdge(h, a, b);
    assert r.edges == g.edges[a := Minus(g.edges[a], b)][b := Minus(g.edges[b], a)];
  }

  lemma UnorderedIs(a: int, b: int, x: int, y: int)
    requires a < b
    ensures Unordered(x, y) == (a, b) <==> (x == a && y == b) || (x == b && y == a) || (x == y == a == b)
  {
  }

  lemma AdjacentLess(edges: map<int, map<int, int>>, pairs: map<Pair, int>, a: int, b: int)
    requires Adjacent(edges, edges.Keys, pairs) && a < b && a in edges && (a, b) in pairs
    requires b in edges || pairs[(a, b)] == 1
    ensures b in edges[a] && edges[a][b] == pairs[(a, b)]
    ensures b in edges ==> a in edges[b] && edges[b][a] == pairs[(a, b)]
    ensures var once := edges[a := Minus(edges[a], b)];
            Adjacent(if b in edges then once[b := Minus(edges[b], a)] else once, edges.Keys, Minus(pairs, (a, b)))
  {
    assert Unordered(a, b) == (a, b) == Unordered(b, a);
    var once := edges[a := Minus(edges[a], b)];
    var edges' := if b in edges then once[b := Minus(edges[b], a)] else once;
    var pairs' := Minus(pairs, (a, b));
    forall x, y | x in edges'
      ensures y in edges'[x] <==> x != y && Unordered(x, y) in pairs'
      ensures y in edges'[x] ==> edges'[x][y] == pairs'[Unordered(x, y)]
    {
      UnorderedIs(a, b, x, y);
    }
  }

  /** Dropping one unit of a pair whose second vertex may be gone. */
  lemma DropPairShows(g: Fields, pairs: map<Pair, int>, a: int, b: int)
    requires Shows(g, pairs) && a < b && a in g.vertices && (a, b) in pairs
    requires if b in g.vertices then g.vertices[b] != 0 else pairs[(a, b)] == 1
    ensures Shows(DropPair(g, a, b), Minus(pairs, (a, b)))
    ensures DropPair(g, a, b).vertices == g.vertices
  {
    hide Adjacent, DropPair, Sum;
    SameKeys(g, pairs);
    MinusSum(pairs, (a, b));
    AdjacentLess(g.edges, pairs, a, b);
    if b in g.vertices {
      DropPairBoth(g, a, b);
    } else {
      DropPairGhost(g, a, b);
    }
  }

  lemma AdjacentWithout(edges: map<int, map<int, int>>, pairs: map<Pair, int>, k: int)
    requires Adjacent(edges, edges.Keys, pairs)
    ensures Adjacent(edges - {k}, edges.Keys - {k}, pairs)
  {
  }

  lemma DropVerticeIs(g: Fields, k: int)
    requires k in g.vertices
    ensures DropVertice(g, k) == g.(vertices := Minus(g.vertices, k), totalVertices := g.totalVertices - 1,
                                    edges := if g.vertices[k] == 1 then g.edges - {k} else g.edges)
  {
    assert g.vertices[k := g.vertices[k] - 1] - {k} == g.vertices - {k};
  }

  lemma DropVerticeShows(g: Fields, pairs: map<Pair, int>, k: int)
    requires Shows(g, pairs) && k in g.vertices
    ensures Shows(DropVertice(g, k), pairs)
    ensures DropVertice(g, k).vertices == Minus(g.vertices, k)
  {
    hide Sum, DropVertice, Adjacent;
    SameKeys(g, pairs);
    AdjacentWithout(g.edges, pairs, k);
    MinusSum(g.vertices, k);
    DropVerticeIs(g, k);
    if g.vertices[k] == 1 {
      assert Minus(g.vertices, k).Keys == g.vertices.Keys - {k};
    } else {
      assert Minus(g.vertices, k).Keys == g.vertices.Keys;
    }
  }

  ghost predicate EndsExist(g: Fields, pairs: map<Pair, int>) {
    forall p :: p in pairs ==> p.0 in g.vertices && p.1 in g.vertices
  }

  lemma AdjacentWith(edges: map<int, map<int, int>>, pairs: map<Pair, int>, k: int)
    requires Adjacent(edges, edges.Keys, pairs) && k !in edges
    requires forall p :: p in pairs ==> p.0 != k && p.1 != k
    ensures Adjacent(edges[k := map[]], edges.Keys + {k}, pairs)
  {
  }

  lemma AddVerticeShows(g: Fields, pairs: map<Pair, int>, k: int)
    requires Shows(g, pairs) && EndsExist(g, pairs)
    ensures Shows(AddVertice(g, k), pairs) && EndsExist(AddVertice(g, k), pairs)
    ensures AddVertice(g, k).vertices == if k in g.vertices then g.vertices else g.vertices[k := 0]
  {
    hide Sum, Adjacent;
    SameKeys(g, pairs);
    if k !in g.vertices {
      AdjacentWith(g.edges, pairs, k);
      SumUpdate(g.vertices, k, 0);
      assert g.vertices[k := 0].Keys == g.vertices.Keys + {k};
    }
  }

  lemma CountVerticeShows(g: Fields, pairs: map<Pair, int>, k: int)
    requires Shows(g, pairs) && EndsExist(g, pairs)
    ensures Shows(CountVertice(g, k), pairs) && EndsExist(CountVertice(g, k), pairs)
    ensures CountVertice(g, k).vertices == g.vertices[k := At(g.vertices, k) + 1]
  {
    hide Shows, EndsExist, IncrementVertice;
    AddVerticeShows(g, pairs, k);
    var h := AddVertice(g, k);
    assert k in h.vertices;
    IncrementVerticeShows(h, pairs, k);
    hide Shows, EndsExist, AddVertice, IncrementVertice;
  }

  lemma IncrementVerticeShows(h: Fields, pairs: map<Pair, int>, k: int)
    requires Shows(h, pairs) && EndsExist(h, pairs) && k in h.vertices
    ensures Shows(IncrementVertice(h, k, 1), pairs) && EndsExist(IncrementVertice(h, k, 1), pairs)
    ensures IncrementVertice(h, k, 1).vertices == h.vertices[k := h.vertices[k] + 1]
  {
    hide Adjacent, Sum;
    SumUpdate(h.vertices, k, h.vertices[k] + 1);
    assert h.vertices[k := h.vertices[k] + 1].Keys == h.vertices.Keys;
  }

  /** The effect of counting a pair of existing vertices. */
  lemma CountPairEdges(h: Fields, a: int, b: int)
    requires a != b && a in h.edges && b in h.edges
    requires b in h.edges[a] <==> a in h.edges[b]
    requires b in h.edges[a] ==> h.edges[a][b] == h.edges[b][a]
    ensures var w := At(h.edges[a], b) + 1;
            IncrementEdge(AddEdge(h, a, b), a, b, 1) ==
              h.(edges := h.edges[a := h.edges[a][b := w]][b := h.edges[b][a := w]],
                 nEdges := if b in h.edges[a] then h.nEdges else h.nEdges + 1, totalEdges := h.totalEdges + 1)
  {
    var w := At(h.edges[a], b) + 1;
    var e := AddEdge(h, a, b);
    assert b !in h.edges[a] ==> e.edges == h.edges[a := h.edges[a][b := 0]][b := h.edges[b][a := 0]];
    assert h.edges[a][b := 0][b := w] == h.edges[a][b := w];
    assert h.edges[b][a := 0][a := w] == h.edges[b][a := w];
    var g' := IncrementEdge(e, a, b, 1);
    assert g'.edges == h.edges[a := h.edges[a][b := w]][b := h.edges[b][a := w]];
  }

  lemma AdjacentMore(edges: map<int, map<int, int>>, pairs: map<Pair, int>, a: int, b: int)
    requires Adjacent(edges, edges.Keys, pairs) && a < b && a in edges && b in edges
    ensures (b in edges[a] <==> (a, b) in pairs) && (a in edges[b] <==> (a, b) in pairs)
    ensures (a, b) in pairs ==> edges[a][b] == edges[b][a] == pairs[(a, b)]
    ensures var w := At(pairs, (a, b)) + 1;
            Adjacent(edges[a := edges[a][b := w]][b := edges[b][a := w]], edges.Keys, pairs[(a, b) := w])
  {
    assert Unordered(a, b) == (a, b) == Unordered(b, a);
    var w := At(pairs, (a, b)) + 1;
    var edges' := edges[a := edges[a][b := w]][b := edges[b][a := w]];
    var pairs' := pairs[(a, b) := w];
    forall x, y | x in edges'
      ensures y in edges'[x] <==> x != y && Unordered(x, y) in pairs'
      ensures y in edges'[x] ==> edges'[x][y] == pairs'[Unordered(x, y)]
    {
      UnorderedIs(a, b, x, y);
    }
  }

  lemma OneMorePair(pairs: map<Pair, int>, p: Pair)
    ensures var pairs' := pairs[p := At(pairs, p) + 1];
            && Sum(pairs') == Sum(pairs) + 1
            && |pairs'| == if p in pairs then |pairs| else |pairs| + 1
  {
    SumUpdate(pairs, p, At(pairs, p) + 1);
    hide Sum;
    assert pairs[p := At(pairs, p) + 1].Keys == pairs.Keys + {p};
  }

  lemma LinkShows(h: Fields, pairs: map<Pair, int>, a: int, b: int)
    requires Shows(h, pairs) && EndsExist(h, pairs) && a < b && a in h.vertices && b in h.vertices
    ensures var g', pairs' := IncrementEdge(AddEdge(h, a, b), a, b, 1), pairs[(a, b) := At(pairs, (a, b)) + 1];
            Shows(g', pairs') && EndsExist(g', pairs') && g'.vertices == h.vertices
  {
    hide AddEdge, IncrementEdge, Sum, Adjacent;
    SameKeys(h, pairs);
    var w := At(pairs, (a, b)) + 1;
    AdjacentMore(h.edges, pairs, a, b);
    CountPairEdges(h, a, b);
    OneMorePair(pairs, (a, b));
    var edges' := h.edges[a := h.edges[a][b := w]][b := h.edges[b][a := w]];
    var g' := IncrementEdge(AddEdge(h, a, b), a, b, 1);
    assert g'.edges == edges' && g'.vertices == h.vertices;
    assert edges'.Keys == h.edges.Keys;
    assert EndsExist(g', pairs[(a, b) := w]) by { hide Shows; }
    hide EndsExist;
  }

  lemma CountPairShows(g: Fields, pairs: map<Pair, int>, a: int, b: int)
    requires Shows(g, pairs) && EndsExist(g, pairs) && a < b && a in g.vertices
    ensures var pairs' := pairs[(a, b) := At(pairs, (a, b)) + 1];
            Shows(CountPair(g, a, b), pairs') && EndsExist(CountPair(g, a, b), pairs')
    ensures CountPair(g, a, b).vertices == if b in g.vertices then g.vertices else g.vertices[b := 0]
  {
    AddVerticeShows(g, pairs, b);
    LinkShows(AddVertice(g, b), pairs, a, b);
    hide Shows, EndsExist, AddVertice, AddEdge, IncrementEdge;
    assert CountPair(g, a, b) == IncrementEdge(AddEdge(AddVertice(g, b), a, b), a, b, 1);
  }
}

/** The graph as the object whose fields the graph thread updates. */
module WorkloadGraph {
  import opened CoAccess

  class Graph {
    var vertexWeight: map<int, int>
    var edgesWeight: map<int, map<int, int>>
    var nEdges: int
    var totalVertexWeight: int
    var totalEdgesWeight: int

    function View(): Fields
      reads this
    {
      Fields(vertexWeight, edgesWeight, nEdges, totalVertexWeight, totalEdgesWeight)
    }

    constructor ()
      ensures View() == Fields(map[], map[], 0, 0, 0)
    {
      vertexWeight, edgesWeight := map[], map[];
      nEdges, totalVertexWeight, totalEdgesWeight := 0, 0, 0;
    }

    method AddVertice(data: int)
      modifies this
      ensures View() == CoAccess.AddVertice(old(View()), data)
      ensures vertexWeight == if data in old(vertexWeight) then old(vertexWeight) else old(vertexWeight)[data := 0]
    {
      if data !in vertexWeight {
        vertexWeight := vertexWeight[data := 0];
        edgesWeight := edgesWeight[data := map[]];
      }
    }

    method IncrementVerticeWeight(data: int, weight: int)
      modifies this
      ensures View() == IncrementVertice(old(View()), data, weight)
      ensures vertexWeight == old(vertexWeight)[data := At(old(vertexWeight), data) + weight]
    {
      vertexWeight := vertexWeight[data := At(vertexWeight, data) + weight];
      totalVertexWeight := totalVertexWeight + weight;
    }

    method RemoveWeightlessVertice(vertice: int)
      modifies this
      ensures View() == CoAccess.RemoveWeightlessVertice(old(View()), vertice)
      ensures vertexWeight == if vertice in old(vertexWeight) && old(vertexWeight)[vertice] != 0 then old(vertexWeight)
                              else old(vertexWeight) - {vertice}
    {
      if At(vertexWeight, vertice) == 0 {
        vertexWeight := vertexWeight - {vertice};
        edgesWeight := edgesWeight - {vertice};
      }
    }

    method AddEdge(from: int, to: int)
      modifies this
      ensures View() == CoAccess.AddEdge(old(View()), from, to)
      ensures nEdges == old(nEdges) + if to in Row(old(edgesWeight), from) then 0 else 1
    {
      if to !in Row(edgesWeight, from) {
        edgesWeight := SetEntry(edgesWeight, from, to, 0);
        edgesWeight := SetEntry(edgesWeight, to, from, 0);
        nEdges := nEdges + 1;
      }
    }

    method IncrementEdgeWeight(from: int, to: int, value: int)
      modifies this
      ensures View() == IncrementEdge(old(View()), from, to, value)
    {
      edgesWeight := SetEntry(edgesWeight, from, to, At(Row(edgesWeight, from), to) + value);
      edgesWeight := SetEntry(edgesWeight, to, from, At(Row(edgesWeight, to), from) + value);
      totalEdgesWeight := totalEdgesWeight + value;
    }

    method RemoveWeightlessEdge(from: int, to: int)
      modifies this
      ensures View() == CoAccess.RemoveWeightlessEdge(old(View()), from, to)
      ensures nEdges == old(nEdges) - if At(Row(old(edgesWeight), from), to) == 0 then 1 else 0
    {
      if At(Row(edgesWeight, from), to) == 0 {
        nEdges := nEdges - 1;
        edgesWeight := edgesWeight[to := Row(edgesWeight, to) - {from}];
        edgesWeight := edgesWeight[from := Row(edgesWeight, from) - {to}];
      }
    }

    // The bodies of the loops of `Scheduler.update_graph` and `Scheduler.expire`.

    method CountVertice(k: int)
      modifies this
      ensures View() == CoAccess.CountVertice(old(View()), k)
    {
      AddVertice(k);
      IncrementVerticeWeight(k, 1);
    }

    method CountPair(a: int, b: int)
      modifies this
      ensures View() == CoAccess.CountPair(old(View()), a, b)
    {
      AddVertice(b);
      AddEdge(a, b);
      IncrementEdgeWeight(a, b, 1);
    }

    method DropPair(a: int, b: int)
      modifies this
      ensures View() == CoAccess.DropPair(old(View()), a, b)
    {
      IncrementEdgeWeight(a, b, -1);
      RemoveWeightlessEdge(a, b);
      RemoveWeightlessVertice(b);
    }

    method DropVertice(k: int)
      modifies this
      ensures View() == CoAccess.DropVertice(old(View()), k)
    {
      IncrementVerticeWeight(k, -1);
      RemoveWeightlessVertice(k);
    }
  }
}
