/** The least number of obstacles on a way from the top-left to the bottom-right corner, by 0-1 breadth-first search. */
module MinObstacles {
  import opened Grids

  /** What entering a cell costs. */
  function Enter(G: Grid, c: Cell): int
    requires GridOk(G) && Inside(G, c)
  {
    if G[c.0][c.1] == 0 then 0 else 1
  }

  /** p leads over neighbouring cells from the top-left corner to c. */
  predicate Path(G: Grid, p: seq<Cell>, c: Cell)
    requires GridOk(G)
  {
    && p != [] && p[|p| - 1] == c && Inside(G, c)
    && if |p| == 1 then c == (0, 0) else Adjacent(p[|p| - 2], c) && Path(G, p[..|p| - 1], p[|p| - 2])
  }

  /** The obstacles entered on the way; the first cell is not entered. */
  function Cost(G: Grid, p: seq<Cell>): (cost: nat)
    requires GridOk(G) && p != [] && Path(G, p, p[|p| - 1])
  {
    if |p| == 1 then 0 else Cost(G, p[..|p| - 1]) + Enter(G, p[|p| - 1])
  }

  ghost predicate Reached(G: Grid, c: Cell, k: int)
    requires GridOk(G)
  {
    exists p: seq<Cell> {:trigger Path(G, p, c)} :: Path(G, p, c) && Cost(G, p) == k
  }

  ghost predicate LowerBound(G: Grid, c: Cell, k: int)
    requires GridOk(G)
  {
    forall p: seq<Cell> {:trigger Path(G, p, c)} :: Path(G, p, c) ==> k <= Cost(G, p)
  }

  ghost predicate LeastCost(G: Grid, c: Cell, k: int)
    requires GridOk(G)
  {
    Reached(G, c, k) && LowerBound(G, c, k)
  }

  lemma OneCellOn(G: Grid, c: Cell, k: int, d: Cell)
    requires GridOk(G) && Reached(G, c, k) && Adjacent(c, d) && Inside(G, d)
    ensures Reached(G, d, k + Enter(G, d))
  {
    var p: seq<Cell> :| Path(G, p, c) && Cost(G, p) == k;
    assert (p + [d])[..|p|] == p;
    assert Path(G, p + [d], d);
  }

  lemma {:induction false} EveryCellReached(G: Grid, i: nat, j: nat) returns (k: int)
    requires GridOk(G) && i < |G| && j < |G[0]|
    ensures Reached(G, (i, j), k)
  {
    if i > 0 {
      var k' := EveryCellReached(G, i - 1, j);
      assert (i, j) == Neighbour((i - 1, j), 2);
      OneCellOn(G, (i - 1, j), k', (i, j));
      k := k' + Enter(G, (i, j));
    } else if j > 0 {
      var k' := EveryCellReached(G, i, j - 1);
      assert (i, j) == Neighbour((i, j - 1), 1);
      OneCellOn(G, (i, j - 1), k', (i, j));
      k := k' + Enter(G, (i, j));
    } else {
      assert Path(G, [(0, 0)], (0, 0));
      k := 0;
    }
  }

  // ---------------------------------------------------------------- the search

  datatype Item = Item(c: Cell, k: int)

  /** The deque and, for the proof, the costs of the visited cells. */
  datatype Search = Search(G: Grid, dq: seq<Item>, dist: map<Cell, int>)

  /** In order of cost, with a spread of at most one. */
  predicate Ordered(dq: seq<Item>) {
    forall i, j :: 0 <= i <= j < |dq| ==> dq[i].k <= dq[j].k <= dq[i].k + 1
  }

  /** The deque is going to try c at a cost of at most k. */
  predicate Waiting(dq: seq<Item>, c: Cell, k: int) {
    exists i :: 0 <= i < |dq| && dq[i].c == c && dq[i].k <= k
  }

  predicate Seen(s: Search, c: Cell, k: int) {
    c in s.dist || Waiting(s.dq, c, k)
  }

  ghost predicate ItemOk(G: Grid, x: Item)
    requires GridOk(G)
  {
    Inside(G, x.c) && Reached(G, x.c, x.k)
  }

  ghost predicate VisitedOk(s: Search, c: Cell)
    requires GridOk(s.G)
  {
    && c in s.dist && Inside(s.G, c) && LeastCost(s.G, c, s.dist[c])
    && (s.dq != [] ==> s.dist[c] <= s.dq[0].k)
  }

  /** The first n neighbours of a visited cell have been seen. */
  ghost predicate Expanded(s: Search, c: Cell, n: nat)
    requires GridOk(s.G) && c in s.dist && n <= 4
  {
    forall h {:trigger Neighbour(c, h)} :: 0 <= h < n && Inside(s.G, Neighbour(c, h)) ==>
      Seen(s, Neighbour(c, h), s.dist[c] + Enter(s.G, Neighbour(c, h)))
  }

  ghost predicate SearchOk(s: Search) {
    && GridOk(s.G)
    && Ordered(s.dq) && (forall i :: 0 <= i < |s.dq| ==> ItemOk(s.G, s.dq[i]))
    && Seen(s, (0, 0), 0)
    && forall c :: c in s.dist ==> VisitedOk(s, c)
  }

  ghost predicate AllExpanded(s: Search, but: Cell)
    requires GridOk(s.G)
  {
    forall c :: c in s.dist && c != but ==> Expanded(s, c, 4)
  }

  const NOWHERE: Cell := (-1, -1)

  lemma WhichNeighbour(c: Cell, d: Cell) returns (h: nat)
    requires Adjacent(c, d)
    ensures h < 4 && d == Neighbour(c, h)
  {
    h :| h < 4 && d == Neighbour(c, h);
  }

  lemma FrontBelow(dq: seq<Item>, c: Cell, k: int)
    requires Ordered(dq) && Waiting(dq, c, k)
    ensures dq != [] && dq[0].k <= k
  {}

  /** The last step of a path from a visited cell to one not visited. */
  lemma LeavesVisited(s: Search, q: seq<Cell>, b: Cell, c: Cell)
    requires SearchOk(s) && b in s.dist && Expanded(s, b, 4) && Path(s.G, q, b)
    requires Adjacent(b, c) && Inside(s.G, c) && c !in s.dist
    ensures s.dq != [] && s.dq[0].k <= Cost(s.G, q) + Enter(s.G, c)
  {
    assert VisitedOk(s, b);
    var h := WhichNeighbour(b, c);
    FrontBelow(s.dq, c, s.dist[b] + Enter(s.G, c));
  }

  /** Every way to a cell not yet visited costs at least what the front of the deque does. */
  lemma {:induction false} FrontIsLower(s: Search, p: seq<Cell>, c: Cell)
    requires SearchOk(s) && AllExpanded(s, NOWHERE) && Path(s.G, p, c) && c !in s.dist
    ensures s.dq != [] && s.dq[0].k <= Cost(s.G, p)
    decreases |p|
  {
    if |p| == 1 {
      FrontBelow(s.dq, c, 0);
    } else {
      var b, q := p[|p| - 2], p[..|p| - 1];
      if b in s.dist {
        assert VisitedOk(s, b);
        LeavesVisited(s, q, b, c);
      } else {
        FrontIsLower(s, q, b);
      }
    }
  }

  lemma FrontIsLeast(s: Search)
    requires SearchOk(s) && AllExpanded(s, NOWHERE) && s.dq != [] && s.dq[0].c !in s.dist
    ensures LeastCost(s.G, s.dq[0].c, s.dq[0].k)
  {
    var c := s.dq[0].c;
    assert ItemOk(s.G, s.dq[0]);
    forall p: seq<Cell> {:trigger Path(s.G, p, c)} | Path(s.G, p, c) ensures s.dq[0].k <= Cost(s.G, p) {
      FrontIsLower(s, p, c);
    }
  }

  lemma TailWaiting(dq: seq<Item>, c: Cell, k: int)
    requires Waiting(dq, c, k) && dq[0].c != c
    ensures Waiting(dq[1..], c, k)
  {
    var i :| 0 <= i < |dq| && dq[i].c == c && dq[i].k <= k;
    assert dq[1..][i - 1] == dq[i];
  }

  /** Taking a cell that was visited before off the deque. */
  lemma SkipStale(s: Search)
    requires SearchOk(s) && AllExpanded(s, NOWHERE) && s.dq != [] && s.dq[0].c in s.dist
    ensures SearchOk(s.(dq := s.dq[1..])) && AllExpanded(s.(dq := s.dq[1..]), NOWHERE)
  {
    var s' := s.(dq := s.dq[1..]);
    forall c, k | Seen(s, c, k) ensures Seen(s', c, k) {
      if c !in s.dist { TailWaiting(s.dq, c, k); }
    }
    forall c | c in s'.dist ensures VisitedOk(s', c) { assert VisitedOk(s, c); }
    forall c | c in s'.dist && c != NOWHERE ensures Expanded(s', c, 4) { assert Expanded(s, c, 4); }
  }

  /** In the middle of the loop over the neighbours of c: everything on the deque costs k or k + 1. */
  ghost predicate Expanding(s: Search, c: Cell, k: int, h: nat) {
    && SearchOk(s) && AllExpanded(s, c)
    && h <= 4 && c in s.dist && s.dist[c] == k && Expanded(s, c, h)
    && CostsFrom(s, k)
  }

  predicate CostsFrom(s: Search, k: int) {
    && (forall i :: 0 <= i < |s.dq| ==> k <= s.dq[i].k <= k + 1)
    && forall b :: b in s.dist ==> s.dist[b] <= k
  }

  /** Taking a new cell off the deque and marking it visited; its neighbours are still to be seen. */
  lemma Visit(s: Search)
    requires SearchOk(s) && AllExpanded(s, NOWHERE) && s.dq != [] && s.dq[0].c !in s.dist
    ensures Expanding(s.(dq := s.dq[1..], dist := s.dist[s.dq[0].c := s.dq[0].k]), s.dq[0].c, s.dq[0].k, 0)
  {
    var x := s.dq[0];
    var s' := s.(dq := s.dq[1..], dist := s.dist[x.c := x.k]);
    FrontIsLeast(s);
    assert ItemOk(s.G, x);
    forall c, k | Seen(s, c, k) ensures Seen(s', c, k) {
      if c !in s'.dist { TailWaiting(s.dq, c, k); }
    }
    forall c | c in s'.dist ensures VisitedOk(s', c) { assert c != x.c ==> VisitedOk(s, c); }
    forall c | c in s'.dist && c != x.c ensures Expanded(s', c, 4) { assert VisitedOk(s, c) && Expanded(s, c, 4); }
    assert CostsFrom(s', x.k) by {
      forall b | b in s'.dist ensures s'.dist[b] <= x.k { assert b != x.c ==> VisitedOk(s, b); }
    }
  }

  /** A new item costs k and goes to the front, or k + 1 and goes to the back. */
  ghost predicate Grows(s: Search, s': Search, x: Item, k: int) {
    (s' == s.(dq := [x] + s.dq) && x.k == k) || (s' == s.(dq := s.dq + [x]) && x.k == k + 1)
  }

  lemma SeenGrows(s: Search, s': Search, x: Item, k: int, c: Cell, l: int)
    requires Grows(s, s', x, k) && (Seen(s, c, l) || (c == x.c && l == x.k))
    ensures Seen(s', c, l)
  {
    if Waiting(s.dq, c, l) {
      var i :| 0 <= i < |s.dq| && s.dq[i].c == c && s.dq[i].k <= l;
      assert s'.dq[if s'.dq == [x] + s.dq then i + 1 else i] == s.dq[i];
    } else if c !in s.dist {
      assert s'.dq[if s'.dq == [x] + s.dq then 0 else |s.dq|] == x;
    }
  }

  lemma ExpandedGrows(s: Search, s': Search, x: Item, k: int, c: Cell, h: nat)
    requires GridOk(s.G) && Grows(s, s', x, k) && c in s.dist && h <= 4 && Expanded(s, c, h)
    ensures Expanded(s', c, h)
  {
    forall i {:trigger Neighbour(c, i)} | 0 <= i < h && Inside(s.G, Neighbour(c, i))
      ensures Seen(s', Neighbour(c, i), s'.dist[c] + Enter(s'.G, Neighbour(c, i)))
    {
      SeenGrows(s, s', x, k, Neighbour(c, i), s.dist[c] + Enter(s.G, Neighbour(c, i)));
    }
  }

  lemma DequeGrows(s: Search, s': Search, x: Item, k: int)
    requires GridOk(s.G) && Grows(s, s', x, k) && Ordered(s.dq) && CostsFrom(s, k) && ItemOk(s.G, x)
    requires forall i :: 0 <= i < |s.dq| ==> ItemOk(s.G, s.dq[i])
    ensures Ordered(s'.dq) && CostsFrom(s', k)
    ensures forall i :: 0 <= i < |s'.dq| ==> ItemOk(s'.G, s'.dq[i])
  {
    if s'.dq == [x] + s.dq {
      forall i | 0 <= i < |s'.dq| ensures s'.dq[i] == if i == 0 then x else s.dq[i - 1] {}
    } else {
      forall i | 0 <= i < |s'.dq| ensures s'.dq[i] == if i == |s.dq| then x else s.dq[i] {}
    }
  }

  lemma SearchGrows(s: Search, s': Search, x: Item, k: int)
    requires SearchOk(s) && CostsFrom(s, k) && Grows(s, s', x, k) && ItemOk(s.G, x)
    ensures SearchOk(s') && CostsFrom(s', k)
  {
    DequeGrows(s, s', x, k);
    SeenGrows(s, s', x, k, (0, 0), 0);
    forall c | c in s'.dist ensures VisitedOk(s', c) { assert VisitedOk(s, c); }
  }

  lemma PushKeeps(s: Search, s': Search, c: Cell, k: int, h: nat)
    requires Expanding(s, c, k, h) && h < 4 && Inside(s.G, Neighbour(c, h))
    requires Grows(s, s', Item(Neighbour(c, h), k + Enter(s.G, Neighbour(c, h))), k)
    ensures Expanding(s', c, k, h + 1)
  {
    var d := Neighbour(c, h);
    var x := Item(d, k + Enter(s.G, d));
    assert VisitedOk(s, c);
    OneCellOn(s.G, c, k, d);
    SearchGrows(s, s', x, k);
    ExpandedGrows(s, s', x, k, c, h);
    SeenGrows(s, s', x, k, d, x.k);
    forall b | b in s'.dist && b != c ensures Expanded(s', b, 4) {
      assert Expanded(s, b, 4);
      ExpandedGrows(s, s', x, k, b, 4);
    }
  }

  /** The loop over the four neighbours: free ones go to the front, obstacles to the back. */
  method Expand(grid: Grid, before: seq<Item>, ghost dist: map<Cell, int>, c: Cell, k: int) returns (dq: seq<Item>)
    requires GridOk(grid) && Expanding(Search(grid, before, dist), c, k, 0)
    ensures Searching(Search(grid, dq, dist))
  {
    dq := before;
    for h := 0 to 4
      invariant Expanding(Search(grid, dq, dist), c, k, h)
    {
      dq := Look(grid, dq, dist, c, k, h);
    }
  }

  /** One turn of that loop. */
  method Look(grid: Grid, dq: seq<Item>, ghost dist: map<Cell, int>, c: Cell, k: int, h: nat) returns (dq': seq<Item>)
    requires h < 4 && GridOk(grid) && Expanding(Search(grid, dq, dist), c, k, h)
    ensures Expanding(Search(grid, dq', dist), c, k, h + 1)
  {
    var x, y := c.0 + Dir(h), c.1 + Dir(h + 1);
    dq' := dq;
    if x >= 0 && x < |grid| && y >= 0 && y < |grid[0]| {
      dq' := if grid[x][y] == 0 then [Item((x, y), k)] + dq else dq + [Item((x, y), k + 1)];
      PushKeeps(Search(grid, dq, dist), Search(grid, dq', dist), c, k, h);
    }
  }

  ghost predicate Searching(s: Search) {
    SearchOk(s) && AllExpanded(s, NOWHERE)
  }

  lemma SearchStarts(G: Grid)
    requires GridOk(G)
    ensures Searching(Search(G, [Item((0, 0), 0)], map[]))
  {
    assert Path(G, [(0, 0)], (0, 0));
    assert [Item((0, 0), 0)][0] == Item((0, 0), 0);
  }

  /** The search does not run dry before it comes to the corner. */
  lemma NotYetEmpty(s: Search, c: Cell)
    requires Searching(s) && Inside(s.G, c) && c !in s.dist
    ensures s.dq != []
  {
    var _ := EveryCellReached(s.G, c.0, c.1);
    var p: seq<Cell> :| Path(s.G, p, c);
    FrontIsLower(s, p, c);
  }

  ghost predicate Marks(vis: array2<bool>, grid: Grid, dist: map<Cell, int>)
    requires GridOk(grid)
    reads vis
  {
    && vis.Length0 == |grid| && vis.Length1 == |grid[0]|
    && forall i, j {:trigger vis[i, j]} :: 0 <= i < |grid| && 0 <= j < |grid[0]| ==> (vis[i, j] <==> (i, j) in dist)
  }

  function Cells(grid: Grid): set<Cell>
    requires GridOk(grid)
  {
    set i, j | 0 <= i < |grid| && 0 <= j < |grid[0]| :: (i, j)
  }

  lemma FewerLeft(grid: Grid, dist: map<Cell, int>, c: Cell, k: int)
    requires GridOk(grid) && Inside(grid, c) && c !in dist
    ensures |Cells(grid) - dist[c := k].Keys| < |Cells(grid) - dist.Keys|
  {
    assert c == (c.0, c.1) && c in Cells(grid);
    assert Cells(grid) - dist.Keys == (Cells(grid) - dist[c := k].Keys) + {c};
  }

  /** `vis[i][j]=true` */
  method Mark(grid: Grid, vis: array2<bool>, ghost dist: map<Cell, int>, c: Cell, ghost k: int)
    requires GridOk(grid) && Inside(grid, c) && Marks(vis, grid, dist)
    modifies vis
    ensures Marks(vis, grid, dist[c := k])
  {
    vis[c.0, c.1] := true;
    forall i, j | 0 <= i < |grid| && 0 <= j < |grid[0]| ensures vis[i, j] <==> (i, j) in dist[c := k] {
      assert (i, j) == c <==> i == c.0 && j == c.1;
    }
  }

  /** A turn of the main loop at a cell that is not the corner. */
  method Turn(grid: Grid, vis: array2<bool>, before: seq<Item>, ghost dist: map<Cell, int>)
    returns (dq: seq<Item>, ghost dist': map<Cell, int>)
    requires GridOk(grid) && Searching(Search(grid, before, dist)) && Marks(vis, grid, dist) && before != []
    modifies vis
    ensures Searching(Search(grid, dq, dist')) && Marks(vis, grid, dist')
    ensures if before[0].c in dist then dist' == dist && dq == before[1..]
            else dist' == dist[before[0].c := before[0].k]
  {
    var c, k := before[0].c, before[0].k;
    assert ItemOk(grid, before[0]);
    dq, dist' := before[1..], dist;
    if vis[c.0, c.1] {
      SkipStale(Search(grid, before, dist));
      return;
    }
    Visit(Search(grid, before, dist));
    Mark(grid, vis, dist, c, k);
    dist' := dist[c := k];
    dq := Expand(grid, dq, dist', c, k);
  }

  method MinObstacles(grid: Grid) returns (least: int)
    requires GridOk(grid)
    ensures LeastCost(grid, (|grid| - 1, |grid[0]| - 1), least)
  {
    var m, n := |grid|, |grid[0]|;
    var vis := new bool[m, n]((_, _) => false);
    var dq := [Item((0, 0), 0)];
    ghost var dist: map<Cell, int> := map[];
    SearchStarts(grid);
    while dq != []
      invariant Searching(Search(grid, dq, dist)) && Marks(vis, grid, dist)
      invariant (m - 1, n - 1) !in dist
      decreases |Cells(grid) - dist.Keys|, |dq|
    {
      var c, k := dq[0].c, dq[0].k;
      if c == (m - 1, n - 1) {
        FrontIsLeast(Search(grid, dq, dist));
        return k;
      }
      assert ItemOk(grid, dq[0]);
      if c !in dist { FewerLeft(grid, dist, c, k); }
      dq, dist := Turn(grid, vis, dq, dist);
    }
    NotYetEmpty(Search(grid, dq, dist), (m - 1, n - 1));
    assert false;
    return -1;
  }
}
