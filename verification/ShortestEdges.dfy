/**
 Which edges of an undirected weighted graph lie on a shortest path from 0 to n - 1: Dijkstra's
 algorithm with stale queue entries, then a walk back from n - 1 along tight edges.
 */
module ShortestEdges {
  import opened PriorityQueue

  datatype Edge = Edge(a: nat, b: nat, w: int)

  /** An adjacency entry: the neighbour, the weight and the number of the edge. */
  datatype Arc = Arc(to: nat, w: int, id: nat)

  const INF: int := 0x4000_0000

  predicate GraphOk(n: nat, edges: seq<Edge>) {
    n > 0 && forall i :: 0 <= i < |edges| ==> edges[i].a < n && edges[i].b < n && edges[i].w > 0
  }

  /** All weights are below 2^30. */
  predicate Light(edges: seq<Edge>) {
    forall i :: 0 <= i < |edges| ==> edges[i].w < INF
  }

  /** The sum of a distance and a weight; in a graph of light edges it must fit in the code's 32-bit `int`. */
  function Sum(d: int, w: int, ghost light: bool): int
    requires light ==> -0x8000_0000 <= d + w < 0x8000_0000
  {
    d + w
  }

  // ---------------------------------------------------------------- walks

  /** One edge, crossed in one of its two directions. */
  datatype Hop = Hop(id: nat, from: nat, to: nat)

  predicate HopOk(edges: seq<Edge>, h: Hop) {
    h.id < |edges| &&
    var e := edges[h.id];
    (h.from == e.a && h.to == e.b) || (h.from == e.b && h.to == e.a)
  }

  predicate IsWalk(edges: seq<Edge>, p: seq<Hop>, u: nat, v: nat) {
    if p == [] then u == v
    else
      var h := p[|p| - 1];
      HopOk(edges, h) && h.to == v && IsWalk(edges, p[..|p| - 1], u, h.from)
  }

  function Length(edges: seq<Edge>, p: seq<Hop>): int {
    if p == [] then 0
    else Length(edges, p[..|p| - 1]) + if HopOk(edges, p[|p| - 1]) then edges[p[|p| - 1].id].w else 0
  }

  ghost predicate IsShortest(n: nat, edges: seq<Edge>, p: seq<Hop>) {
    && n > 0 && IsWalk(edges, p, 0, n - 1)
    && forall q :: IsWalk(edges, q, 0, n - 1) ==> Length(edges, p) <= Length(edges, q)
  }

  /** Edge i is crossed by a shortest path from 0 to n - 1. */
  ghost predicate Crossed(n: nat, edges: seq<Edge>, i: nat) {
    exists p: seq<Hop>, k :: 0 <= k < |p| && p[k].id == i && IsShortest(n, edges, p)
  }

  /** The shortest paths from 0 to n - 1 are shorter than the code's infinity. */
  ghost predicate Near(n: nat, edges: seq<Edge>) {
    exists p: seq<Hop> :: IsShortest(n, edges, p) && Length(edges, p) < INF
  }

  lemma WalkExtend(edges: seq<Edge>, p: seq<Hop>, u: nat, h: Hop)
    requires IsWalk(edges, p, u, h.from) && HopOk(edges, h)
    ensures IsWalk(edges, p + [h], u, h.to) && Length(edges, p + [h]) == Length(edges, p) + edges[h.id].w
  {
    assert (p + [h])[..|p|] == p;
  }

  lemma {:induction false} WalkJoin(edges: seq<Edge>, p: seq<Hop>, q: seq<Hop>, u: nat, v: nat, w: nat)
    requires IsWalk(edges, p, u, v) && IsWalk(edges, q, v, w)
    ensures IsWalk(edges, p + q, u, w) && Length(edges, p + q) == Length(edges, p) + Length(edges, q)
    decreases |q|
  {
    if q == [] {
      assert p + q == p;
    } else {
      var k := |q| - 1;
      WalkJoin(edges, p, q[..k], u, v, q[k].from);
      assert p + q == (p + q[..k]) + [q[k]];
      WalkExtend(edges, p + q[..k], u, q[k]);
    }
  }

  lemma {:induction false} WalkSplit(edges: seq<Edge>, p: seq<Hop>, u: nat, w: nat, k: nat) returns (v: nat)
    requires IsWalk(edges, p, u, w) && k <= |p|
    ensures IsWalk(edges, p[..k], u, v) && IsWalk(edges, p[k..], v, w)
    ensures Length(edges, p) == Length(edges, p[..k]) + Length(edges, p[k..])
    ensures k < |p| ==> v == p[k].from
    decreases |p|
  {
    if k == |p| {
      v := w;
      assert p[..k] == p;
    } else {
      var j := |p| - 1;
      v := WalkSplit(edges, p[..j], u, p[j].from, k);
      assert p[..j][..k] == p[..k] && p[..j][k..] + [p[j]] == p[k..];
      WalkExtend(edges, p[..j][k..], v, p[j]);
    }
  }

  lemma {:induction false} LengthPositive(n: nat, edges: seq<Edge>, p: seq<Hop>, u: nat, v: nat)
    requires GraphOk(n, edges) && IsWalk(edges, p, u, v)
    ensures Length(edges, p) >= |p|
  {
    if p != [] { LengthPositive(n, edges, p[..|p| - 1], u, p[|p| - 1].from); }
  }

  // ---------------------------------------------------------------- what Dijkstra establishes

  /** dist[v] is the least length of a walk from 0 to v, capped at INF. */
  ghost predicate Distances(n: nat, edges: seq<Edge>, dist: seq<int>) {
    && |dist| == n && (forall v :: 0 <= v < n ==> 0 <= dist[v] <= INF)
    && (forall v, p :: 0 <= v < n && IsWalk(edges, p, 0, v) ==> dist[v] <= Length(edges, p))
    && forall v :: 0 <= v < n && dist[v] < INF ==> Attained(edges, v, dist[v])
  }

  ghost predicate Attained(edges: seq<Edge>, v: nat, d: int) {
    exists p :: IsWalk(edges, p, 0, v) && Length(edges, p) == d
  }

  lemma AttainedByHop(edges: seq<Edge>, h: Hop, d: int)
    requires Attained(edges, h.from, d) && HopOk(edges, h)
    ensures Attained(edges, h.to, d + edges[h.id].w)
  {
    var p :| IsWalk(edges, p, 0, h.from) && Length(edges, p) == d;
    WalkExtend(edges, p, 0, h);
  }

  /** No hop out of v improves on dist. */
  ghost predicate Relaxed(edges: seq<Edge>, dist: seq<int>, v: nat)
    requires v < |dist|
  {
    forall h :: HopOk(edges, h) && h.from == v && h.to < |dist| ==> dist[h.to] <= dist[v] + edges[h.id].w
  }

  lemma {:induction false} RelaxedIsLower(n: nat, edges: seq<Edge>, dist: seq<int>, p: seq<Hop>, v: nat)
    requires GraphOk(n, edges) && |dist| == n && dist[0] == 0 && v < n && IsWalk(edges, p, 0, v)
    requires forall u :: 0 <= u < n ==> dist[u] <= INF && (dist[u] < INF ==> Relaxed(edges, dist, u))
    ensures dist[v] <= Length(edges, p)
  {
    if p != [] {
      var h := p[|p| - 1];
      RelaxedIsLower(n, edges, dist, p[..|p| - 1], h.from);
      if dist[h.from] < INF { assert Relaxed(edges, dist, h.from); }
    }
  }

  // ---------------------------------------------------------------- the adjacency lists

  ghost predicate ArcOk(edges: seq<Edge>, v: nat, arc: Arc) {
    HopOk(edges, Hop(arc.id, v, arc.to)) && arc.w == edges[arc.id].w
  }

  ghost predicate AdjacencyOk(n: nat, edges: seq<Edge>, m: nat, g: seq<seq<Arc>>) {
    && |g| == n && m <= |edges|
    && (forall v, k :: 0 <= v < n && 0 <= k < |g[v]| ==> ArcOk(edges, v, g[v][k]))
    && forall h :: HopOk(edges, h) && h.id < m && h.from < n ==> Arc(h.to, edges[h.id].w, h.id) in g[h.from]
  }

  method Adjacency(n: nat, edges: seq<Edge>) returns (g: seq<seq<Arc>>)
    requires GraphOk(n, edges)
    ensures AdjacencyOk(n, edges, |edges|, g)
  {
    g := seq(n, _ => []);
    for i := 0 to |edges|
      invariant AdjacencyOk(n, edges, i, g)
    {
      var e := edges[i];
      g := g[e.a := g[e.a] + [Arc(e.b, e.w, i)]];
      g := g[e.b := g[e.b] + [Arc(e.a, e.w, i)]];
    }
  }

  // ---------------------------------------------------------------- Dijkstra

  /** The tentative distances, the queue, and (for the proof) the vertices already expanded. */
  datatype Search = Search(dist: seq<int>, pq: multiset<Entry<nat>>, done: set<nat>)

  /** The distance is attained, and its entry waits in the queue, once, until the vertex is expanded. */
  ghost predicate VertexOk(edges: seq<Edge>, s: Search, v: nat)
    requires v < |s.dist|
  {
    && 0 <= s.dist[v] <= INF && (s.dist[v] < INF ==> Attained(edges, v, s.dist[v]))
    && s.pq[Entry(s.dist[v], v)] == if s.dist[v] < INF && v !in s.done then 1 else 0
  }

  /** Entries are current or stale; the expanded vertices are no farther than any of them. */
  ghost predicate EntryOk(s: Search, e: Entry<nat>) {
    e.val < |s.dist| && s.dist[e.val] <= e.key < INF && forall v :: v in s.done && v < |s.dist| ==> s.dist[v] <= e.key
  }

  ghost predicate SearchOk(n: nat, edges: seq<Edge>, s: Search) {
    && n > 0 && |s.dist| == n && s.dist[0] == 0
    && (forall v :: 0 <= v < n ==> VertexOk(edges, s, v))
    && (forall e :: e in s.pq ==> EntryOk(s, e))
    && (forall v :: v in s.done ==> v < n && s.dist[v] < INF && Relaxed(edges, s.dist, v))
  }

  /** `dist[to] = d; pq.push({d, to})`. */
  function Improve(s: Search, to: nat, d: int): Search
    requires to < |s.dist|
  {
    s.(dist := s.dist[to := d], pq := s.pq + multiset{Entry(d, to)})
  }

  method Dijkstra(n: nat, edges: seq<Edge>, g: seq<seq<Arc>>) returns (dist: seq<int>)
    requires GraphOk(n, edges) && AdjacencyOk(n, edges, |edges|, g)
    ensures Distances(n, edges, dist)
  {
    dist := seq(n, v => if v == 0 then 0 else INF);
    var pq := multiset{Entry(0, 0)};
    ghost var done: set<nat> := {};
    assert Attained(edges, 0, 0) by { assert IsWalk(edges, [], 0, 0) && Length(edges, []) == 0; }
    while pq != multiset{}
      invariant SearchOk(n, edges, Search(dist, pq, done))
      decreases n - |done|, |pq|
    {
      var top, rest := PopMin(pq);
      ghost var s := Search(dist, pq, done);
      assert EntryOk(s, top);
      if top.key != dist[top.val] {
        PopStale(n, edges, s, top);
        pq := rest;
        continue;
      }
      PopCurrent(n, edges, s, top);
      dist, pq := Expand(n, edges, g, dist, rest, done, top.val);
      done := done + {top.val};
    }
    DoneMeansDistances(n, edges, Search(dist, pq, done));
  }

  lemma PopStale(n: nat, edges: seq<Edge>, s: Search, top: Entry<nat>)
    requires SearchOk(n, edges, s) && top in s.pq && top.key != s.dist[top.val]
    ensures SearchOk(n, edges, s.(pq := s.pq - multiset{top}))
  {
    var s' := s.(pq := s.pq - multiset{top});
    forall v | 0 <= v < n ensures VertexOk(edges, s', v) { assert VertexOk(edges, s, v); }
    forall e | e in s'.pq ensures EntryOk(s', e) { assert EntryOk(s, e); }
  }

  /** A vertex popped with its current distance was not expanded before, and all later entries are no nearer. */
  lemma PopCurrent(n: nat, edges: seq<Edge>, s: Search, top: Entry<nat>)
    requires SearchOk(n, edges, s) && top in s.pq && top.val < n && top.key == s.dist[top.val]
    requires forall e :: e in s.pq ==> top.key <= e.key
    ensures top.val !in s.done && |s.done| < n
    ensures forall v :: v in s.done ==> s.dist[v] <= top.key
    ensures var s' := s.(pq := s.pq - multiset{top});
      Expanding(n, edges, s', top.val)
  {
    assert VertexOk(edges, s, top.val) && EntryOk(s, top);
    BoundedSet(s.done + {top.val}, n);
    var s' := Search(s.dist, s.pq - multiset{top}, s.done + {top.val});
    forall v | 0 <= v < n ensures VertexOk(edges, s', v) { assert VertexOk(edges, s, v); }
    forall e | e in s'.pq ensures EntryOk(s', e) { assert EntryOk(s, e); }
  }

  /** The state while the arcs of from are gone through: as outside, except that from need not be relaxed yet. */
  ghost predicate Expanding(n: nat, edges: seq<Edge>, s: Search, from: nat) {
    && n > 0 && |s.dist| == n && s.dist[0] == 0 && from < n && s.dist[from] < INF && from !in s.done
    && (forall v :: 0 <= v < n ==> VertexOk(edges, s.(done := s.done + {from}), v))
    && (forall e :: e in s.pq ==> EntryOk(s.(done := s.done + {from}), e))
    && (forall v :: v in s.done ==> v < n && s.dist[v] <= s.dist[from] && Relaxed(edges, s.dist, v))
  }

  lemma {:induction false} BoundedSet(s: set<nat>, n: nat)
    requires forall v :: v in s ==> v < n
    ensures |s| <= n
  {
    if n == 0 { assert s == {}; } else { BoundedSet(s - {n - 1}, n - 1); }
  }

  lemma DoneMeansDistances(n: nat, edges: seq<Edge>, s: Search)
    requires GraphOk(n, edges) && SearchOk(n, edges, s) && s.pq == multiset{}
    ensures Distances(n, edges, s.dist)
  {
    forall v | 0 <= v < n
      ensures 0 <= s.dist[v] <= INF
      ensures s.dist[v] < INF ==> Attained(edges, v, s.dist[v]) && Relaxed(edges, s.dist, v)
    {
      assert VertexOk(edges, s, v);
    }
    forall v, p | 0 <= v < n && IsWalk(edges, p, 0, v) ensures s.dist[v] <= Length(edges, p) {
      RelaxedIsLower(n, edges, s.dist, p, v);
    }
  }

  /** The loop over the arcs of a vertex popped with its current distance. */
  method Expand(n: nat, edges: seq<Edge>, g: seq<seq<Arc>>, dist0: seq<int>, rest: multiset<Entry<nat>>,
                ghost done: set<nat>, from: nat)
    returns (dist: seq<int>, pq: multiset<Entry<nat>>)
    requires GraphOk(n, edges) && AdjacencyOk(n, edges, |edges|, g)
    requires Expanding(n, edges, Search(dist0, rest, done), from)
    ensures SearchOk(n, edges, Search(dist, pq, done + {from}))
  {
    dist, pq := dist0, rest;
    for k := 0 to |g[from]|
      invariant Expanding(n, edges, Search(dist, pq, done), from)
      invariant dist[from] == dist0[from]
      invariant forall j :: 0 <= j < k ==> dist[g[from][j].to] <= dist[from] + g[from][j].w
    {
      var arc := g[from][k];
      assert ArcOk(edges, from, arc);
      dist, pq := Relax(n, edges, dist, pq, done, from, arc);
    }
    AllRelaxed(n, edges, g, dist, from);
  }

  /** One turn of that loop. */
  method Relax(n: nat, edges: seq<Edge>, dist: seq<int>, pq: multiset<Entry<nat>>, ghost done: set<nat>, from: nat,
               arc: Arc)
    returns (dist': seq<int>, pq': multiset<Entry<nat>>)
    requires GraphOk(n, edges) && Expanding(n, edges, Search(dist, pq, done), from)
    requires ArcOk(edges, from, arc) && arc.to < n
    ensures Expanding(n, edges, Search(dist', pq', done), from) && dist'[from] == dist[from]
    ensures dist'[arc.to] <= dist[from] + arc.w && forall v :: 0 <= v < n ==> dist'[v] <= dist[v]
  {
    dist', pq' := dist, pq;
    assert VertexOk(edges, Search(dist, pq, done + {from}), from) && edges[arc.id].w > 0;
    var d := Sum(dist[from], arc.w, Light(edges));
    if d < dist[arc.to] {
      ExpandStep(n, edges, Search(dist, pq, done), from, arc);
      pq' := pq + multiset{Entry(d, arc.to)};
      dist' := dist[arc.to := d];
    }
  }

  lemma AllRelaxed(n: nat, edges: seq<Edge>, g: seq<seq<Arc>>, dist: seq<int>, from: nat)
    requires AdjacencyOk(n, edges, |edges|, g) && |dist| == n && from < n
    requires forall arc :: arc in g[from] ==> arc.to < n && dist[arc.to] <= dist[from] + arc.w
    ensures Relaxed(edges, dist, from)
  {
    forall h | HopOk(edges, h) && h.from == from && h.to < n ensures dist[h.to] <= dist[from] + edges[h.id].w {
      assert Arc(h.to, edges[h.id].w, h.id) in g[from];
    }
  }

  lemma ExpandStep(n: nat, edges: seq<Edge>, s: Search, from: nat, arc: Arc)
    requires GraphOk(n, edges) && Expanding(n, edges, s, from) && ArcOk(edges, from, arc) && arc.to < n
    requires s.dist[from] + arc.w < s.dist[arc.to]
    ensures Expanding(n, edges, Improve(s, arc.to, s.dist[from] + arc.w), from)
  {
    var to, d := arc.to, s.dist[from] + arc.w;
    assert VertexOk(edges, s.(done := s.done + {from}), from) && edges[arc.id].w > 0;
    AttainedByHop(edges, Hop(arc.id, from, to), s.dist[from]);
    ImproveQueue(n, edges, s.(done := s.done + {from}), to, d);
    assert Improve(s.(done := s.done + {from}), to, d) == Improve(s, to, d).(done := s.done + {from});
    assert d > s.dist[from] >= 0 && to != from && to != 0;
    forall v | v in s.done ensures v != to && Relaxed(edges, s.dist[to := d], v) { assert Relaxed(edges, s.dist, v); }
  }

  lemma ImproveQueue(n: nat, edges: seq<Edge>, s: Search, to: nat, d: int)
    requires |s.dist| == n && to < n && 0 <= d < s.dist[to] && Attained(edges, to, d)
    requires forall v :: 0 <= v < n ==> VertexOk(edges, s, v)
    requires forall e :: e in s.pq ==> EntryOk(s, e)
    requires to !in s.done && forall v :: v in s.done && v < n ==> s.dist[v] <= d
    ensures forall v :: 0 <= v < n ==> VertexOk(edges, Improve(s, to, d), v)
    ensures forall e :: e in Improve(s, to, d).pq ==> EntryOk(Improve(s, to, d), e)
  {
    var s' := Improve(s, to, d);
    assert VertexOk(edges, s, to);
    assert Entry(d, to) !in s.pq || EntryOk(s, Entry(d, to));
    forall v | 0 <= v < n ensures VertexOk(edges, s', v) { assert VertexOk(edges, s, v); }
    forall e | e in s'.pq ensures EntryOk(s', e) {
      if e in s.pq { assert EntryOk(s, e); } else { assert e == Entry(d, to); }
    }
  }

  // ---------------------------------------------------------------- the walk back from n - 1

  /** The walk back: the queue, the visited vertices and the marked edges. */
  datatype Back = Back(q: seq<nat>, vis: seq<bool>, ans: seq<bool>)

  /** A shortest walk from 0 to v can be completed to a shortest walk to n - 1. */
  ghost predicate Completes(n: nat, edges: seq<Edge>, dist: seq<int>, v: nat)
    requires |dist| == n > 0 && v < n
  {
    exists p :: IsWalk(edges, p, v, n - 1) && dist[v] + Length(edges, p) == dist[n - 1]
  }

  predicate Tight(edges: seq<Edge>, dist: seq<int>, h: Hop) {
    HopOk(edges, h) && h.from < |dist| && h.to < |dist| && dist[h.to] == dist[h.from] + edges[h.id].w
  }

  /** Every tight hop into v has been marked and its start visited. */
  ghost predicate Traced(edges: seq<Edge>, dist: seq<int>, b: Back, v: nat)
    requires |b.vis| == |dist| && |b.ans| == |edges|
  {
    forall h :: Tight(edges, dist, h) && h.to == v ==> b.ans[h.id] && b.vis[h.from]
  }

  ghost predicate BackOk(n: nat, edges: seq<Edge>, dist: seq<int>, b: Back) {
    && |dist| == n > 0 && |b.vis| == n && |b.ans| == |edges| && b.vis[n - 1]
    && (forall v :: 0 <= v < n && b.vis[v] ==> Completes(n, edges, dist, v))
    && (forall v :: v in b.q ==> v < n && b.vis[v])
    && (forall i :: 0 <= i < |edges| && b.ans[i] ==> Crossed(n, edges, i))
    && forall v :: 0 <= v < n && b.vis[v] && v !in b.q ==> Traced(edges, dist, b, v)
  }

  /** A tight hop into a vertex that completes to a shortest walk lies on a shortest walk itself. */
  lemma TightHopCrossed(n: nat, edges: seq<Edge>, dist: seq<int>, h: Hop)
    requires GraphOk(n, edges) && Distances(n, edges, dist) && dist[n - 1] < INF
    requires Tight(edges, dist, h) && Completes(n, edges, dist, h.to)
    ensures Crossed(n, edges, h.id) && Completes(n, edges, dist, h.from)
  {
    var s :| IsWalk(edges, s, h.to, n - 1) && dist[h.to] + Length(edges, s) == dist[n - 1];
    LengthPositive(n, edges, s, h.to, n - 1);
    assert Attained(edges, h.from, dist[h.from]);
    var p :| IsWalk(edges, p, 0, h.from) && Length(edges, p) == dist[h.from];
    var back := HopThen(n, edges, h, s);
    WalkJoin(edges, p, back, 0, h.from, n - 1);
    assert (p + back)[|p|] == h && IsShortest(n, edges, p + back);
  }

  /** A hop put before a walk. */
  lemma HopThen(n: nat, edges: seq<Edge>, h: Hop, s: seq<Hop>) returns (p: seq<Hop>)
    requires n > 0 && HopOk(edges, h) && IsWalk(edges, s, h.to, n - 1)
    ensures p == [h] + s && IsWalk(edges, p, h.from, n - 1) && Length(edges, p) == edges[h.id].w + Length(edges, s)
  {
    assert IsWalk(edges, [], h.from, h.from) && Length(edges, []) == 0;
    WalkExtend(edges, [], h.from, h);
    WalkJoin(edges, [] + [h], s, h.from, h.to, n - 1);
    p := [] + [h] + s;
  }

  /** Every hop of a shortest walk is tight. */
  lemma ShortestIsTight(n: nat, edges: seq<Edge>, dist: seq<int>, p: seq<Hop>, k: nat)
    requires GraphOk(n, edges) && Distances(n, edges, dist)
    requires IsShortest(n, edges, p) && Length(edges, p) < INF && k < |p|
    ensures Tight(edges, dist, p[k])
    ensures p[k].to == if k + 1 < |p| then p[k + 1].from else n - 1
  {
    var u := WalkSplit(edges, p, 0, n - 1, k);
    var v := WalkSplit(edges, p, 0, n - 1, k + 1);
    assert p[..k + 1][..k] == p[..k] && p[..k + 1][k] == p[k];
    InGraph(n, edges, p[..k + 1], 0, v);
    LengthPositive(n, edges, p[k..], u, n - 1);
    LengthPositive(n, edges, p[k + 1..], v, n - 1);
    PrefixIsShortest(n, edges, dist, p, k, u);
    PrefixIsShortest(n, edges, dist, p, k + 1, v);
    if k + 1 == |p| { assert p[k + 1..] == []; }
  }

  lemma InGraph(n: nat, edges: seq<Edge>, p: seq<Hop>, u: nat, v: nat)
    requires GraphOk(n, edges) && IsWalk(edges, p, u, v) && p != []
    ensures p[|p| - 1].from < n && v < n
  {}

  lemma PrefixIsShortest(n: nat, edges: seq<Edge>, dist: seq<int>, p: seq<Hop>, k: nat, v: nat)
    requires GraphOk(n, edges) && Distances(n, edges, dist) && v < n && k <= |p|
    requires IsShortest(n, edges, p) && Length(edges, p) < INF
    requires IsWalk(edges, p[..k], 0, v) && IsWalk(edges, p[k..], v, n - 1)
    requires Length(edges, p) == Length(edges, p[..k]) + Length(edges, p[k..])
    ensures dist[v] == Length(edges, p[..k])
  {
    LengthPositive(n, edges, p[k..], v, n - 1);
    assert dist[v] <= Length(edges, p[..k]) < INF;
    assert Attained(edges, v, dist[v]);
    var q :| IsWalk(edges, q, 0, v) && Length(edges, q) == dist[v];
    WalkJoin(edges, q, p[k..], 0, v, n - 1);
  }

  /** When the queue runs dry every vertex of a shortest walk has been visited, so its edges are marked. */
  lemma {:induction false} ShortestIsMarked(n: nat, edges: seq<Edge>, dist: seq<int>, b: Back, p: seq<Hop>, k: nat)
    requires GraphOk(n, edges) && Distances(n, edges, dist) && BackOk(n, edges, dist, b) && b.q == []
    requires IsShortest(n, edges, p) && Length(edges, p) < INF && k < |p|
    ensures p[k].id < |edges| && p[k].from < n && b.ans[p[k].id] && b.vis[p[k].from]
    decreases |p| - k
  {
    ShortestIsTight(n, edges, dist, p, k);
    if k + 1 < |p| { ShortestIsMarked(n, edges, dist, b, p, k + 1); }
    assert Traced(edges, dist, b, p[k].to);
  }

  lemma ShortestIsBelow(n: nat, edges: seq<Edge>, dist: seq<int>, p: seq<Hop>)
    requires n > 0 && Distances(n, edges, dist) && dist[n - 1] < INF && IsShortest(n, edges, p)
    ensures Length(edges, p) < INF
  {
    assert Attained(edges, n - 1, dist[n - 1]);
  }

  method TraceBack(n: nat, edges: seq<Edge>, g: seq<seq<Arc>>, dist: seq<int>) returns (ans: seq<bool>)
    requires GraphOk(n, edges) && AdjacencyOk(n, edges, |edges|, g) && Distances(n, edges, dist) && dist[n - 1] < INF
    ensures |ans| == |edges| && forall i :: 0 <= i < |edges| ==> (ans[i] <==> Crossed(n, edges, i))
  {
    ans := seq(|edges|, _ => false);
    var vis := seq(n, v => v == n - 1);
    var q: seq<nat> := [n - 1];
    assert Completes(n, edges, dist, n - 1) by {
      assert IsWalk(edges, [], n - 1, n - 1) && Length(edges, []) == 0;
    }
    while q != []
      invariant BackOk(n, edges, dist, Back(q, vis, ans))
      decreases Unvisited(vis), |q|
    {
      var to := q[0];
      assert q == [to] + q[1..];
      q, vis, ans := Trace(n, edges, g, dist, to, q[1..], vis, ans);
    }
    forall i | 0 <= i < |edges| && Crossed(n, edges, i) ensures ans[i] {
      var p: seq<Hop>, k :| 0 <= k < |p| && p[k].id == i && IsShortest(n, edges, p);
      ShortestIsBelow(n, edges, dist, p);
      ShortestIsMarked(n, edges, dist, Back(q, vis, ans), p, k);
    }
  }

  function Unvisited(vis: seq<bool>): nat {
    if vis == [] then 0 else (if vis[0] then 0 else 1) + Unvisited(vis[1..])
  }

  lemma {:induction false} UnvisitedDrops(vis: seq<bool>, v: nat)
    requires v < |vis| && !vis[v]
    ensures Unvisited(vis[v := true]) == Unvisited(vis) - 1
  {
    if v > 0 {
      assert vis[v := true][1..] == vis[1..][v - 1 := true];
      UnvisitedDrops(vis[1..], v - 1);
    } else {
      assert vis[0 := true][1..] == vis[1..];
    }
  }

  /** What one tight arc adds: its edge is marked, its start visited and queued if new. */
  function Marked(b: Back, h: Hop): Back
    requires h.id < |b.ans| && h.from < |b.vis|
  {
    var ans := b.ans[h.id := true];
    if b.vis[h.from] then b.(ans := ans) else Back(b.q + [h.from], b.vis[h.from := true], ans)
  }

  lemma MarkedKeeps(n: nat, edges: seq<Edge>, dist: seq<int>, b: Back, h: Hop)
    requires GraphOk(n, edges) && Distances(n, edges, dist) && dist[n - 1] < INF
    requires BackOk(n, edges, dist, b) && Tight(edges, dist, h) && b.vis[h.to]
    ensures BackOk(n, edges, dist, Marked(b, h))
  {
    TightHopCrossed(n, edges, dist, h);
    var b' := Marked(b, h);
    forall v | 0 <= v < n && b'.vis[v] && v !in b'.q ensures Traced(edges, dist, b', v) {
      StaysTraced(edges, dist, b, h, v);
    }
  }

  lemma StaysTraced(edges: seq<Edge>, dist: seq<int>, b: Back, h: Hop, v: nat)
    requires |b.vis| == |dist| && |b.ans| == |edges| && Tight(edges, dist, h) && v < |dist|
    requires b.vis[v] && v !in b.q ==> Traced(edges, dist, b, v)
    ensures Marked(b, h).vis[v] && v !in Marked(b, h).q ==> Traced(edges, dist, Marked(b, h), v)
  {
    if v == h.from && !b.vis[v] { assert Marked(b, h).q[|b.q|] == v; }
    assert v in b.q ==> v in Marked(b, h).q;
  }

  /** The loop over the arcs of the vertex taken from the queue. */
  method Trace(n: nat, edges: seq<Edge>, g: seq<seq<Arc>>, dist: seq<int>, to: nat,
               q0: seq<nat>, vis0: seq<bool>, ans0: seq<bool>)
    returns (q: seq<nat>, vis: seq<bool>, ans: seq<bool>)
    requires GraphOk(n, edges) && AdjacencyOk(n, edges, |edges|, g) && Distances(n, edges, dist) && dist[n - 1] < INF
    requires BackOk(n, edges, dist, Back([to] + q0, vis0, ans0))
    ensures BackOk(n, edges, dist, Back(q, vis, ans))
    ensures Unvisited(vis) < Unvisited(vis0) || (Unvisited(vis) == Unvisited(vis0) && |q| == |q0|)
  {
    q, vis, ans := q0, vis0, ans0;
    assert to in [to] + q0;
    for k := 0 to |g[to]|
      invariant BackOk(n, edges, dist, Back([to] + q, vis, ans))
      invariant Unvisited(vis) < Unvisited(vis0) || (Unvisited(vis) == Unvisited(vis0) && |q| == |q0|)
      invariant ArcsDone(dist, g[to], k, to, vis, ans)
    {
      assert ArcOk(edges, to, g[to][k]) && to in [to] + q;
      q, vis, ans := TraceArc(n, edges, dist, g[to][k], g[to], k, to, q, vis, ans);
    }
    AllArcsDone(n, edges, g, dist, to, q, vis, ans);
  }

  /** One turn of that loop. */
  method TraceArc(n: nat, edges: seq<Edge>, dist: seq<int>, arc: Arc, ghost arcs: seq<Arc>, ghost k: nat, to: nat,
                  q: seq<nat>, vis: seq<bool>, ans: seq<bool>)
    returns (q': seq<nat>, vis': seq<bool>, ans': seq<bool>)
    requires GraphOk(n, edges) && Distances(n, edges, dist) && dist[n - 1] < INF && to < n
    requires k < |arcs| && arc == arcs[k] && ArcOk(edges, to, arc) && arc.to < n
    requires BackOk(n, edges, dist, Back([to] + q, vis, ans)) && ArcsDone(dist, arcs, k, to, vis, ans)
    ensures BackOk(n, edges, dist, Back([to] + q', vis', ans')) && ArcsDone(dist, arcs, k + 1, to, vis', ans')
    ensures Unvisited(vis') < Unvisited(vis) || (Unvisited(vis') == Unvisited(vis) && q' == q)
  {
    q', vis', ans' := q, vis, ans;
    if dist[to] == Sum(dist[arc.to], arc.w, Light(edges)) {
      ghost var b, h := Back([to] + q, vis, ans), Hop(arc.id, arc.to, to);
      assert b.vis[to] by { assert to in b.q; }
      MarkedKeeps(n, edges, dist, b, h);
      ArcsDoneMarked(dist, arcs, k, b, h);
      ans' := ans[arc.id := true];
      if !vis[arc.to] {
        UnvisitedDrops(vis, arc.to);
        vis' := vis[arc.to := true];
        q' := q + [arc.to];
        assert [to] + q' == b.q + [arc.to];
      }
      assert Back([to] + q', vis', ans') == Marked(b, h);
    } else {
      ArcsDoneSkip(dist, arcs, k, to, vis, ans);
    }
  }

  ghost predicate ArcsDone(dist: seq<int>, arcs: seq<Arc>, k: nat, to: nat, vis: seq<bool>, ans: seq<bool>) {
    k <= |arcs| && forall j :: 0 <= j < k ==> ArcDone(dist, arcs[j], to, vis, ans)
  }

  lemma ArcsDoneMarked(dist: seq<int>, arcs: seq<Arc>, k: nat, b: Back, h: Hop)
    requires k < |arcs| && h.id < |b.ans| && h.from < |b.vis| && ArcsDone(dist, arcs, k, h.to, b.vis, b.ans)
    requires arcs[k].to == h.from && arcs[k].id == h.id
    ensures ArcsDone(dist, arcs, k + 1, h.to, Marked(b, h).vis, Marked(b, h).ans)
  {
    forall j | 0 <= j < k + 1 ensures ArcDone(dist, arcs[j], h.to, Marked(b, h).vis, Marked(b, h).ans) {
      assert j < k ==> ArcDone(dist, arcs[j], h.to, b.vis, b.ans);
    }
  }

  lemma ArcsDoneSkip(dist: seq<int>, arcs: seq<Arc>, k: nat, to: nat, vis: seq<bool>, ans: seq<bool>)
    requires k < |arcs| && ArcsDone(dist, arcs, k, to, vis, ans)
    requires to < |dist| && arcs[k].to < |dist| ==> dist[to] != dist[arcs[k].to] + arcs[k].w
    ensures ArcsDone(dist, arcs, k + 1, to, vis, ans)
  {}

  predicate ArcDone(dist: seq<int>, arc: Arc, to: nat, vis: seq<bool>, ans: seq<bool>) {
    to < |dist| && arc.to < |dist| && dist[to] == dist[arc.to] + arc.w ==>
      arc.id < |ans| && arc.to < |vis| && ans[arc.id] && vis[arc.to]
  }

  lemma AllArcsDone(n: nat, edges: seq<Edge>, g: seq<seq<Arc>>, dist: seq<int>, to: nat,
                    q: seq<nat>, vis: seq<bool>, ans: seq<bool>)
    requires GraphOk(n, edges) && AdjacencyOk(n, edges, |edges|, g)
    requires BackOk(n, edges, dist, Back([to] + q, vis, ans)) && to < n
    requires ArcsDone(dist, g[to], |g[to]|, to, vis, ans)
    ensures BackOk(n, edges, dist, Back(q, vis, ans))
  {
    var b, b' := Back([to] + q, vis, ans), Back(q, vis, ans);
    forall v | v in q ensures v in b.q {}
    forall v | 0 <= v < n && vis[v] && v !in q ensures Traced(edges, dist, b', v) {
      if v == to {
        forall h | Tight(edges, dist, h) && h.to == to ensures ans[h.id] && vis[h.from] {
          assert HopOk(edges, Hop(h.id, to, h.from));
          assert Arc(h.from, edges[h.id].w, h.id) in g[to];
        }
      } else {
        assert Traced(edges, dist, b, v);
      }
    }
  }

  /** The answer of the code: the edges on shortest paths, unless these are too long for it. */
  ghost predicate Reported(n: nat, edges: seq<Edge>, ans: seq<bool>) {
    |ans| == |edges| && forall i :: 0 <= i < |edges| ==> (ans[i] <==> Crossed(n, edges, i) && Near(n, edges))
  }

  lemma FarIsNotNear(n: nat, edges: seq<Edge>, dist: seq<int>)
    requires n > 0 && Distances(n, edges, dist) && dist[n - 1] == INF
    ensures !Near(n, edges)
  {}

  lemma CloseIsNear(n: nat, edges: seq<Edge>, dist: seq<int>, i: nat)
    requires n > 0 && Distances(n, edges, dist) && dist[n - 1] < INF && Crossed(n, edges, i)
    ensures Near(n, edges)
  {
    var p: seq<Hop>, k :| 0 <= k < |p| && p[k].id == i && IsShortest(n, edges, p);
    ShortestIsBelow(n, edges, dist, p);
  }

  method FindShortestEdges(n: nat, edges: seq<Edge>) returns (ans: seq<bool>)
    requires GraphOk(n, edges)
    ensures Reported(n, edges, ans)
  {
    var g := Adjacency(n, edges);
    var dist := Dijkstra(n, edges, g);
    if dist[n - 1] == INF {
      FarIsNotNear(n, edges, dist);
      ans := seq(|edges|, _ => false);
      return;
    }
    ans := TraceBack(n, edges, g, dist);
    forall i | 0 <= i < |edges| && Crossed(n, edges, i) ensures Near(n, edges) { CloseIsNear(n, edges, dist, i); }
  }

  /** An edge of a shortest path is missed exactly when n - 1 is too far away for the code's infinity. */
  lemma MissedOnlyWhenFar(n: nat, edges: seq<Edge>, ans: seq<bool>, i: nat, q: seq<Hop>)
    requires Reported(n, edges, ans) && i < |edges| && Crossed(n, edges, i) && IsShortest(n, edges, q)
    ensures !ans[i] <==> Length(edges, q) >= INF
  {
    if Near(n, edges) {
      var p: seq<Hop> :| IsShortest(n, edges, p) && Length(edges, p) < INF;
      assert Length(edges, p) == Length(edges, q);
    }
  }

  /** One edge of weight 2^30 is the shortest path and is not reported. */
  lemma HeavyEdgeIsMissed(ans: seq<bool>)
    requires Reported(2, [Edge(0, 1, INF)], ans)
    ensures GraphOk(2, [Edge(0, 1, INF)]) && Crossed(2, [Edge(0, 1, INF)], 0) && ans == [false]
  {
    var edges, h := [Edge(0, 1, INF)], Hop(0, 0, 1);
    assert IsWalk(edges, [], 0, 0);
    WalkExtend(edges, [], 0, h);
    assert [] + [h] == [h];
    forall q: seq<Hop> | IsWalk(edges, q, 0, 1) ensures Length(edges, q) >= INF { WalkCrosses(edges, q); }
    assert IsShortest(2, edges, [h]) && [h][0].id == 0;
    MissedOnlyWhenFar(2, edges, ans, 0, [h]);
  }

  lemma WalkCrosses(edges: seq<Edge>, q: seq<Hop>)
    requires edges == [Edge(0, 1, INF)] && IsWalk(edges, q, 0, 1)
    ensures Length(edges, q) >= INF
  {
    var last := |q| - 1;
    LengthPositive(2, edges, q[..last], 0, q[last].from);
  }
}
