/**
 Rain water trapped on a height map: flood from the border inwards, lowest cell first.

 The level of a cell is the least, over all paths from it to the border, of the greatest height on
 the path: water in the cell stands at that level.  The flood is proved to add up level minus
 height over all cells.
 */
module RainWater {
  import opened Prelude
  import opened PriorityQueue
  import opened Grids

  function Height(H: Grid, c: Cell): int
    requires GridOk(H) && Inside(H, c)
  {
    H[c.0][c.1]
  }

  predicate Border(H: Grid, c: Cell)
    requires GridOk(H)
  {
    Inside(H, c) && (c.0 == 0 || c.0 == |H| - 1 || c.1 == 0 || c.1 == |H[0]| - 1)
  }

  /** p leads from its first cell over neighbouring cells, none higher than level, to the border. */
  predicate Escape(H: Grid, p: seq<Cell>, level: int)
    requires GridOk(H)
  {
    && p != [] && Inside(H, p[0]) && Height(H, p[0]) <= level
    && if |p| == 1 then Border(H, p[0]) else Adjacent(p[0], p[1]) && Escape(H, p[1..], level)
  }

  ghost predicate EscapesAt(H: Grid, c: Cell, level: int)
    requires GridOk(H)
  {
    exists p :: Escape(H, p, level) && p[0] == c
  }

  /** The least level at which water in c can escape. */
  ghost predicate IsLevel(H: Grid, c: Cell, level: int)
    requires GridOk(H)
  {
    EscapesAt(H, c, level) && forall l :: EscapesAt(H, c, l) ==> level <= l
  }

  // ---------------------------------------------------------------- the sum over cells

  type Levels = map<Cell, int>

  function CellWater(H: Grid, lv: Levels, i: nat, j: nat): int
    requires GridOk(H) && i < |H| && j < |H[0]|
  {
    if (i, j) in lv then lv[(i, j)] - H[i][j] else 0
  }

  function RowWater(H: Grid, lv: Levels, i: nat, j: nat): int
    requires GridOk(H) && i < |H| && j <= |H[0]|
  {
    if j == 0 then 0 else RowWater(H, lv, i, j - 1) + CellWater(H, lv, i, j - 1)
  }

  function RowsWater(H: Grid, lv: Levels, i: nat): int
    requires GridOk(H) && i <= |H|
  {
    if i == 0 then 0 else RowsWater(H, lv, i - 1) + RowWater(H, lv, i - 1, |H[0]|)
  }

  /** Level minus height, over all cells that have a level. */
  function Water(H: Grid, lv: Levels): int
    requires GridOk(H)
  {
    RowsWater(H, lv, |H|)
  }

  lemma {:induction false} RowWaterAdds(H: Grid, lv: Levels, c: Cell, l: int, i: nat, j: nat)
    requires GridOk(H) && i < |H| && j <= |H[0]| && Inside(H, c) && c !in lv
    ensures RowWater(H, lv[c := l], i, j) == RowWater(H, lv, i, j) + if c.0 == i && c.1 < j then l - Height(H, c) else 0
  {
    if j > 0 { RowWaterAdds(H, lv, c, l, i, j - 1); }
  }

  lemma {:induction false} RowsWaterAdds(H: Grid, lv: Levels, c: Cell, l: int, i: nat)
    requires GridOk(H) && i <= |H| && Inside(H, c) && c !in lv
    ensures RowsWater(H, lv[c := l], i) == RowsWater(H, lv, i) + if c.0 < i then l - Height(H, c) else 0
  {
    if i > 0 {
      RowsWaterAdds(H, lv, c, l, i - 1);
      RowWaterAdds(H, lv, c, l, i - 1, |H[0]|);
    }
  }

  // ---------------------------------------------------------------- the flood

  /** The queue and, for the proof, the levels of the visited cells and the cells whose neighbours are all visited. */
  datatype Flood = Flood(H: Grid, pq: multiset<Entry<Cell>>, lv: Levels, done: set<Cell>)

  ghost predicate CellOk(s: Flood, c: Cell)
    requires GridOk(s.H)
  {
    c in s.lv && Inside(s.H, c) && IsLevel(s.H, c, s.lv[c]) && (c in s.done || Entry(s.lv[c], c) in s.pq)
  }

  ghost predicate DoneOk(s: Flood, c: Cell)
    requires GridOk(s.H)
  {
    c in s.lv && forall d {:trigger Adjacent(c, d)} :: Adjacent(c, d) && Inside(s.H, d) ==> d in s.lv
  }

  predicate EntryOk(s: Flood, e: Entry<Cell>) { e.val in s.lv && e.key == s.lv[e.val] }

  ghost predicate FloodOk(s: Flood) {
    && GridOk(s.H)
    && (forall c {:trigger CellOk(s, c)} :: c in s.lv ==> CellOk(s, c))
    && (forall c {:trigger DoneOk(s, c)} :: c in s.done ==> DoneOk(s, c))
    && forall e {:trigger EntryOk(s, e)} :: e in s.pq ==> EntryOk(s, e)
  }

  type Flooding = s: Flood | FloodOk(s) ghost witness Flood([[0]], multiset{}, map[], {})

  ghost predicate BorderIn(s: Flooding) {
    forall c {:trigger Border(s.H, c)} :: Border(s.H, c) ==> c in s.lv
  }

  lemma AdjacentBack(c: Cell, d: Cell)
    requires Adjacent(c, d)
    ensures Adjacent(d, c)
  {}

  lemma NeighbourAdjacent(c: Cell, k: nat)
    requires k < 4
    ensures Adjacent(c, Neighbour(c, k))
  {}

  lemma BorderLevel(H: Grid, c: Cell)
    requires GridOk(H) && Border(H, c)
    ensures IsLevel(H, c, Height(H, c))
  {
    assert Escape(H, [c], Height(H, c));
  }

  /** A path from an unvisited cell meets a visited one next to an unvisited one, and goes on from it to the border. */
  lemma {:induction false} MeetsVisited(s: Flooding, p: seq<Cell>, level: int) returns (c: Cell)
    requires BorderIn(s) && Escape(s.H, p, level) && p[0] !in s.lv
    ensures c in s.lv && c !in s.done && EscapesAt(s.H, c, level)
  {
    assert |p| > 1;
    if p[1] in s.lv {
      c := p[1];
      AdjacentBack(p[0], p[1]);
      assert c in s.done ==> DoneOk(s, c);
    } else {
      c := MeetsVisited(s, p[1..], level);
    }
  }

  /** A neighbour of the lowest queued cell: water escapes from it at the greater of that level and its height. */
  lemma NewLevel(s: Flooding, x: Cell, y: Cell)
    requires BorderIn(s) && x in s.lv && Adjacent(x, y) && Inside(s.H, y) && y !in s.lv
    requires forall c :: c in s.lv && c !in s.done ==> s.lv[x] <= s.lv[c]
    ensures IsLevel(s.H, y, Max(s.lv[x], Height(s.H, y)))
  {
    var level := Max(s.lv[x], Height(s.H, y));
    assert CellOk(s, x);
    var p :| Escape(s.H, p, s.lv[x]) && p[0] == x;
    EscapeHigher(s.H, p, s.lv[x], level);
    AdjacentBack(x, y);
    assert ([y] + p)[1..] == p && Escape(s.H, [y] + p, level);
    forall l | EscapesAt(s.H, y, l) ensures level <= l {
      var q :| Escape(s.H, q, l) && q[0] == y;
      var c := MeetsVisited(s, q, l);
      assert CellOk(s, c);
    }
  }

  lemma {:induction false} EscapeHigher(H: Grid, p: seq<Cell>, l: int, level: int)
    requires GridOk(H) && Escape(H, p, l) && l <= level
    ensures Escape(H, p, level)
  {
    if |p| > 1 { EscapeHigher(H, p[1..], l, level); }
  }

  /** `pq.push({level, y}); vis[y] = true`. */
  lemma Visited(s: Flooding, y: Cell, level: int) returns (s': Flooding)
    requires Inside(s.H, y) && y !in s.lv && IsLevel(s.H, y, level)
    ensures s' == Flood(s.H, s.pq + multiset{Entry(level, y)}, s.lv[y := level], s.done)
    ensures Water(s.H, s'.lv) == Water(s.H, s.lv) + level - Height(s.H, y)
  {
    var t := Flood(s.H, s.pq + multiset{Entry(level, y)}, s.lv[y := level], s.done);
    forall c | c in t.lv ensures CellOk(t, c) { assert c != y ==> CellOk(s, c); }
    forall c | c in t.done ensures DoneOk(t, c) { assert DoneOk(s, c); }
    forall e | e in t.pq ensures EntryOk(t, e) { assert e in s.pq ==> EntryOk(s, e); }
    RowsWaterAdds(s.H, s.lv, y, level, |s.H|);
    s' := t;
  }

  /** A cell whose neighbours are all visited leaves the queue. */
  lemma Finished(s: Flooding, pq: multiset<Entry<Cell>>, top: Entry<Cell>) returns (s': Flooding)
    requires s.pq == pq + multiset{top}
    requires forall d :: Adjacent(top.val, d) && Inside(s.H, d) ==> d in s.lv
    ensures s' == Flood(s.H, pq, s.lv, s.done + {top.val})
  {
    var t := Flood(s.H, pq, s.lv, s.done + {top.val});
    assert top in s.pq && EntryOk(s, top);
    forall c | c in t.lv ensures CellOk(t, c) { assert CellOk(s, c); }
    forall c | c in t.done ensures DoneOk(t, c) { assert c != top.val ==> DoneOk(s, c); }
    forall e | e in t.pq ensures EntryOk(t, e) { assert e in s.pq && EntryOk(s, e); }
    s' := t;
  }

  lemma Lowest(s: Flooding, top: Entry<Cell>)
    requires forall e :: e in s.pq ==> top.key <= e.key
    ensures forall c :: c in s.lv && c !in s.done ==> top.key <= s.lv[c]
  {
    forall c | c in s.lv && c !in s.done ensures top.key <= s.lv[c] { assert CellOk(s, c); }
  }

  /** `vis` says which cells have a level. */
  predicate VisIs(vis: seq<seq<bool>>, H: Grid, lv: Levels)
    requires GridOk(H)
  {
    && |vis| == |H| && (forall i :: 0 <= i < |H| ==> |vis[i]| == |H[0]|)
    && forall i, j :: 0 <= i < |H| && 0 <= j < |H[0]| ==> (vis[i][j] <==> (i, j) in lv)
  }

  lemma VisSet(vis: seq<seq<bool>>, H: Grid, lv: Levels, c: Cell, level: int)
    requires GridOk(H) && VisIs(vis, H, lv) && Inside(H, c)
    ensures VisIs(vis[c.0 := vis[c.0][c.1 := true]], H, lv[c := level])
  {}

  /** Row by row from the border, every cell is visited once no cell is left to expand. */
  lemma {:induction false} AllVisited(s: Flooding, i: nat, j: nat)
    requires BorderIn(s) && s.pq == multiset{} && i < |s.H| && j < |s.H[0]|
    ensures (i, j) in s.lv
  {
    if j == 0 {
      assert Border(s.H, (i, j));
    } else {
      AllVisited(s, i, j - 1);
      assert CellOk(s, (i, j - 1)) && DoneOk(s, (i, j - 1));
      NeighbourAdjacent((i, j - 1), 1);
      assert Neighbour((i, j - 1), 1) == (i, j);
    }
  }

  lemma {:induction false} NoWater(H: Grid, i: nat)
    requires GridOk(H) && i <= |H|
    ensures RowsWater(H, map[], i) == 0
  {
    if i > 0 { NoWater(H, i - 1); NoRowWater(H, i - 1, |H[0]|); }
  }

  lemma {:induction false} NoRowWater(H: Grid, i: nat, j: nat)
    requires GridOk(H) && i < |H| && j <= |H[0]|
    ensures RowWater(H, map[], i, j) == 0
  {
    if j > 0 { NoRowWater(H, i, j - 1); }
  }

  /** The border cells before (i, j) in reading order, and only those, are in. */
  ghost predicate BorderUpTo(s: Flooding, i: nat, j: nat) {
    forall c :: c in s.lv <==> Border(s.H, c) && (c.0 < i || (c.0 == i && c.1 < j))
  }

  lemma BorderMore(s: Flooding, s': Flooding, i: nat, j: nat)
    requires i < |s.H| && j < |s.H[0]| && BorderUpTo(s, i, j) && s'.H == s.H
    requires s'.lv.Keys == s.lv.Keys + if Border(s.H, (i, j)) then {(i, j)} else {}
    ensures BorderUpTo(s', i, j + 1)
  {
    forall c ensures c in s'.lv <==> Border(s.H, c) && (c.0 < i || (c.0 == i && c.1 < j + 1)) {
      assert c == (i, j) <==> c.0 == i && c.1 == j;
    }
  }

  ghost predicate BorderDone(H: Grid, pq: multiset<Entry<Cell>>, vis: seq<seq<bool>>, s: Flooding) {
    s.H == H && s.pq == pq && s.done == {} && VisIs(vis, H, s.lv) && Water(H, s.lv) == 0
  }

  /** One cell of the border enters the queue at its own height. */
  method FloodBorderCell(H: Grid, i: nat, j: nat, pq0: multiset<Entry<Cell>>, vis0: seq<seq<bool>>, ghost s0: Flooding)
    returns (pq: multiset<Entry<Cell>>, vis: seq<seq<bool>>, ghost s: Flooding)
    requires GridOk(H) && Border(H, (i, j)) && (i, j) !in s0.lv && BorderDone(H, pq0, vis0, s0)
    ensures BorderDone(H, pq, vis, s) && s.lv.Keys == s0.lv.Keys + {(i, j)}
  {
    BorderLevel(H, (i, j));
    VisSet(vis0, H, s0.lv, (i, j), H[i][j]);
    s := Visited(s0, (i, j), H[i][j]);
    pq := pq0 + multiset{Entry(H[i][j], (i, j))};
    vis := vis0[i := vis0[i][j := true]];
  }

  /** The cells of the border enter the queue at their own height. */
  method FloodBorder(H: Grid) returns (pq: multiset<Entry<Cell>>, vis: seq<seq<bool>>, ghost s: Flooding)
    requires GridOk(H)
    ensures s.H == H && s.pq == pq && s.done == {} && BorderIn(s) && VisIs(vis, H, s.lv) && Water(H, s.lv) == 0
  {
    var m, n := |H|, |H[0]|;
    vis := seq(m, _ => seq(n, _ => false));
    pq := multiset{};
    s := Flood(H, pq, map[], {});
    NoWater(H, m);
    for i := 0 to m
      invariant BorderDone(H, pq, vis, s) && BorderUpTo(s, i, 0)
    {
      for j := 0 to n
        invariant BorderDone(H, pq, vis, s) && BorderUpTo(s, i, j)
      {
        ghost var before := s;
        if i == 0 || i == m - 1 || j == 0 || j == n - 1 {
          pq, vis, s := FloodBorderCell(H, i, j, pq, vis, s);
        }
        BorderMore(before, s, i, j);
      }
      assert BorderUpTo(s, i + 1, 0);
    }
  }

  /** The whole map with the level of every cell. */
  ghost predicate AllLevels(H: Grid, lv: Levels)
    requires GridOk(H)
  {
    && (forall c :: c in lv <==> Inside(H, c))
    && forall c :: c in lv ==> IsLevel(H, c, lv[c])
  }

  /** The sum over all cells of level minus height. */
  ghost predicate IsWater(H: Grid, total: int)
    requires GridOk(H)
  {
    exists lv: Levels :: AllLevels(H, lv) && total == Water(H, lv)
  }

  lemma OneLevel(H: Grid, c: Cell, l: int, l': int)
    requires GridOk(H) && IsLevel(H, c, l) && IsLevel(H, c, l')
    ensures l == l'
  {}

  lemma SameLevels(H: Grid, lv: Levels, lv': Levels)
    requires GridOk(H) && AllLevels(H, lv) && AllLevels(H, lv')
    ensures lv == lv'
  {
    forall c | c in lv ensures c in lv' && lv[c] == lv'[c] { OneLevel(H, c, lv[c], lv'[c]); }
  }

  /** A cell has one level, so there is one such sum. */
  lemma OneTotal(H: Grid, total: int, other: int)
    requires GridOk(H) && IsWater(H, total) && IsWater(H, other)
    ensures total == other
  {
    var lv: Levels :| AllLevels(H, lv) && total == Water(H, lv);
    var lv': Levels :| AllLevels(H, lv') && other == Water(H, lv');
    SameLevels(H, lv, lv');
  }

  method TrapRainWater(H: Grid) returns (ans: int)
    requires GridOk(H)
    ensures IsWater(H, ans)
  {
    var pq, vis;
    ghost var s: Flooding;
    pq, vis, s := FloodBorder(H);
    ans := 0;
    ghost var cells := set i, j | 0 <= i < |H| && 0 <= j < |H[0]| :: (i, j);
    while pq != multiset{}
      invariant s.H == H && s.pq == pq && BorderIn(s) && VisIs(vis, H, s.lv) && ans == Water(H, s.lv)
      decreases cells - s.lv.Keys, |pq|
    {
      var top, rest := PopMin(pq);
      pq, vis, ans, s := Expand(H, top, rest, vis, ans, s);
      VisitedInside(s);
    }
    FloodedAll(s);
  }

  /** With the queue empty every cell has its level. */
  lemma FloodedAll(s: Flooding)
    requires BorderIn(s) && s.pq == multiset{}
    ensures AllLevels(s.H, s.lv)
  {
    VisitedInside(s);
    forall c | Inside(s.H, c) ensures c in s.lv { AllVisited(s, c.0, c.1); }
    forall c | c in s.lv ensures IsLevel(s.H, c, s.lv[c]) { assert CellOk(s, c); }
  }

  lemma VisitedInside(s: Flooding)
    ensures forall c :: c in s.lv ==> Inside(s.H, c)
  {
    forall c | c in s.lv ensures Inside(s.H, c) { assert CellOk(s, c); }
  }

  /** The state of the flood while the neighbours of the lowest cell, no longer in pq, are looked at. */
  ghost predicate Looking(H: Grid, top: Entry<Cell>, pq: multiset<Entry<Cell>>, vis: seq<seq<bool>>, ans: int,
                          s: Flooding) {
    && s.H == H && s.pq == pq + multiset{top} && BorderIn(s) && VisIs(vis, H, s.lv) && ans == Water(H, s.lv)
    && EntryOk(s, top) && forall e :: e in pq ==> top.key <= e.key
  }

  predicate NeighboursIn(s: Flood, c: Cell, k: nat)
    requires GridOk(s.H) && k <= 4
  {
    && (k > 0 && Inside(s.H, Neighbour(c, 0)) ==> Neighbour(c, 0) in s.lv)
    && (k > 1 && Inside(s.H, Neighbour(c, 1)) ==> Neighbour(c, 1) in s.lv)
    && (k > 2 && Inside(s.H, Neighbour(c, 2)) ==> Neighbour(c, 2) in s.lv)
    && (k > 3 && Inside(s.H, Neighbour(c, 3)) ==> Neighbour(c, 3) in s.lv)
  }

  lemma NeighboursStayIn(s: Flood, s': Flood, c: Cell, k: nat)
    requires GridOk(s.H) && s'.H == s.H && k < 4 && NeighboursIn(s, c, k) && s.lv.Keys <= s'.lv.Keys
    requires Inside(s.H, Neighbour(c, k)) ==> Neighbour(c, k) in s'.lv
    ensures NeighboursIn(s', c, k + 1)
  {
  }

  /** The loop over the four neighbours of the lowest queued cell. */
  method Expand(H: Grid, top: Entry<Cell>, rest: multiset<Entry<Cell>>, vis0: seq<seq<bool>>, ans0: int,
                ghost s0: Flooding)
    returns (pq: multiset<Entry<Cell>>, vis: seq<seq<bool>>, ans: int, ghost s: Flooding)
    requires s0.H == H && s0.pq == rest + multiset{top} && BorderIn(s0) && VisIs(vis0, H, s0.lv)
    requires ans0 == Water(H, s0.lv) && forall e :: e in rest ==> top.key <= e.key
    ensures s.H == H && s.pq == pq && BorderIn(s) && VisIs(vis, H, s.lv) && ans == Water(H, s.lv)
    ensures s0.lv.Keys < s.lv.Keys || (s.lv.Keys == s0.lv.Keys && pq == rest)
  {
    pq, vis, ans, s := rest, vis0, ans0, s0;
    assert top in s0.pq && EntryOk(s0, top);
    for k := 0 to 4
      invariant Looking(H, top, pq, vis, ans, s) && NeighboursIn(s, top.val, k)
      invariant s0.lv.Keys < s.lv.Keys || (s.lv.Keys == s0.lv.Keys && pq == rest)
    {
      pq, vis, ans, s := Look(H, top, k, pq, vis, ans, s);
    }
    s := Finished(s, pq, top);
  }

  /** One turn of that loop: a neighbour on the map that was not visited is visited now. */
  method Look(H: Grid, top: Entry<Cell>, k: nat, pq: multiset<Entry<Cell>>, vis: seq<seq<bool>>, ans: int,
              ghost s: Flooding)
    returns (pq': multiset<Entry<Cell>>, vis': seq<seq<bool>>, ans': int, ghost s': Flooding)
    requires k < 4 && Looking(H, top, pq, vis, ans, s) && NeighboursIn(s, top.val, k)
    ensures Looking(H, top, pq', vis', ans', s') && NeighboursIn(s', top.val, k + 1)
    ensures s.lv.Keys < s'.lv.Keys || (s'.lv.Keys == s.lv.Keys && pq' == pq)
  {
    pq', vis', ans', s' := pq, vis, ans, s;
    var x, y := top.val.0 + Dir(k), top.val.1 + Dir(k + 1);
    assert (x, y) == Neighbour(top.val, k);
    if 0 <= x < |H| && 0 <= y < |H[0]| && !vis[x][y] {
      NeighbourAdjacent(top.val, k);
      pq', vis', ans', s' := Visit(H, top, pq, vis, ans, s, (x, y));
    }
    NeighboursStayIn(s, s', top.val, k);
  }

  /** An unvisited neighbour: add its water, queue it at its level and mark it. */
  method Visit(H: Grid, top: Entry<Cell>, pq: multiset<Entry<Cell>>, vis: seq<seq<bool>>, ans: int, ghost s: Flooding,
               y: Cell)
    returns (pq': multiset<Entry<Cell>>, vis': seq<seq<bool>>, ans': int, ghost s': Flooding)
    requires Looking(H, top, pq, vis, ans, s)
    requires Adjacent(top.val, y) && Inside(H, y) && y !in s.lv
    ensures Looking(H, top, pq', vis', ans', s') && s'.lv.Keys == s.lv.Keys + {y}
  {
    var h, level := top.key, Max(top.key, Height(H, y));
    Lowest(s, top);
    NewLevel(s, top.val, y);
    VisSet(vis, H, s.lv, y, level);
    s' := Visited(s, y, level);
    ans' := ans + Max(0, h - Height(H, y));
    pq' := pq + multiset{Entry(level, y)};
    vis' := vis[y.0 := vis[y.0][y.1 := true]];
  }
}
