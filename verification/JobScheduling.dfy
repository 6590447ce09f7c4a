/** Weighted interval scheduling, by a memoized search over start times and by a table over end times. */
module JobScheduling {
  import opened Prelude
  import opened Sorting

  datatype Job = Job(start: int, end: int, profit: int)

  // ---------------------------------------------------------------- what is optimal

  predicate Apart(a: Job, b: Job) { a.end <= b.start || b.end <= a.start }

  function Total(sel: seq<Job>): int {
    if sel == [] then 0 else sel[0].profit + Total(sel[1..])
  }

  /** Some of the jobs, each at most as often as it is given, no two of them overlapping. */
  predicate Selection(sel: seq<Job>, jobs: seq<Job>) {
    multiset(sel) <= multiset(jobs) && forall i, j :: 0 <= i < j < |sel| ==> Apart(sel[i], sel[j])
  }

  /** The greatest total profit of a selection. */
  ghost predicate IsBest(jobs: seq<Job>, best: int) {
    && (exists sel: seq<Job> {:trigger Selection(sel, jobs)} :: Selection(sel, jobs) && Total(sel) == best)
    && forall sel: seq<Job> {:trigger Selection(sel, jobs)} :: Selection(sel, jobs) ==> Total(sel) <= best
  }

  predicate WellTimed(jobs: seq<Job>) {
    forall j :: j in jobs ==> j.start <= j.end
  }

  lemma SameJobs(jobs: seq<Job>, others: seq<Job>, best: int)
    requires multiset(jobs) == multiset(others)
    ensures IsBest(jobs, best) <==> IsBest(others, best)
    ensures WellTimed(jobs) <==> WellTimed(others)
  {
    assert forall sel: seq<Job> :: Selection(sel, jobs) <==> Selection(sel, others);
    assert forall j :: j in jobs <==> j in multiset(jobs);
    assert forall j :: j in others <==> j in multiset(others);
  }

  function Without(sel: seq<Job>, k: nat): seq<Job>
    requires k < |sel|
  {
    sel[..k] + sel[k + 1..]
  }

  lemma {:induction false} TotalWithout(sel: seq<Job>, k: nat)
    requires k < |sel|
    ensures Total(sel) == sel[k].profit + Total(Without(sel, k))
  {
    if k > 0 {
      TotalWithout(sel[1..], k - 1);
      assert Without(sel, k) == [sel[0]] + Without(sel[1..], k - 1);
    } else {
      assert Without(sel, 0) == sel[1..];
    }
  }

  lemma FewerJobs(sel: seq<Job>, k: nat, jobs: seq<Job>, x: Job)
    requires k < |sel| && multiset(sel) <= multiset(jobs + [x]) && sel[k] == x
    ensures multiset(Without(sel, k)) <= multiset(jobs)
  {
    assert sel == sel[..k] + [x] + sel[k + 1..];
    assert multiset(sel) == multiset(Without(sel, k)) + multiset{x};
    forall y ensures multiset(Without(sel, k))[y] <= multiset(jobs)[y] {
      assert multiset(sel)[y] <= multiset(jobs + [x])[y];
    }
  }

  lemma WithoutOne(sel: seq<Job>, k: nat, jobs: seq<Job>, x: Job)
    requires k < |sel| && Selection(sel, jobs + [x]) && sel[k] == x
    ensures Selection(Without(sel, k), jobs)
    ensures forall y :: y in Without(sel, k) ==> Apart(x, y)
  {
    var rest := Without(sel, k);
    FewerJobs(sel, k, jobs, x);
    forall y | y in rest ensures Apart(x, y) {
      var i :| 0 <= i < |rest| && rest[i] == y;
      if i < k { assert Apart(sel[i], sel[k]); } else { assert Apart(sel[k], sel[i + 1]); }
    }
    forall i, j | 0 <= i < j < |rest| ensures Apart(rest[i], rest[j]) {
      assert Apart(sel[if i < k then i else i + 1], sel[if j < k then j else j + 1]);
    }
  }

  lemma NotThere(sel: seq<Job>, jobs: seq<Job>, x: Job)
    requires Selection(sel, jobs + [x]) && x !in sel
    ensures Selection(sel, jobs)
  {
    forall y ensures multiset(sel)[y] <= multiset(jobs)[y] {
      assert y == x ==> multiset(sel)[y] == 0;
    }
  }

  lemma Added(sel: seq<Job>, jobs: seq<Job>, x: Job)
    requires Selection(sel, jobs) && forall y :: y in sel ==> Apart(x, y)
    ensures Selection([x] + sel, jobs + [x])
  {}

  lemma Widened(sel: seq<Job>, some: seq<Job>, jobs: seq<Job>)
    requires Selection(sel, some) && multiset(some) <= multiset(jobs)
    ensures Selection(sel, jobs)
  {}

  /**
   The step both programs take.  `jobs` and x are what is decided about, `compatible` those of the
   jobs that stay when x is taken: every job apart from x is there, and all that are there are apart from x.
   */
  lemma TakeOrLeave(jobs: seq<Job>, x: Job, compatible: seq<Job>, best: int, bestCompatible: int)
    requires IsBest(jobs, best) && IsBest(compatible, bestCompatible)
    requires multiset(compatible) <= multiset(jobs) && forall y :: y in compatible ==> Apart(x, y)
    requires forall y :: y in jobs && Apart(x, y) ==> multiset(compatible)[y] == multiset(jobs)[y]
    ensures IsBest(jobs + [x], Max(best, x.profit + bestCompatible))
  {
    var value := Max(best, x.profit + bestCompatible);
    forall sel: seq<Job> | Selection(sel, jobs + [x]) ensures Total(sel) <= value {
      if x in sel {
        var k :| 0 <= k < |sel| && sel[k] == x;
        WithoutOne(sel, k, jobs, x);
        TotalWithout(sel, k);
        StaysCompatible(Without(sel, k), jobs, x, compatible);
      } else {
        NotThere(sel, jobs, x);
      }
    }
    if value == best {
      var sel :| Selection(sel, jobs) && Total(sel) == best;
      Widened(sel, jobs, jobs + [x]);
    } else {
      var sel :| Selection(sel, compatible) && Total(sel) == bestCompatible;
      SelectedIn(sel, compatible);
      Widened(sel, compatible, jobs);
      Added(sel, jobs, x);
      assert ([x] + sel)[1..] == sel;
      assert Total([x] + sel) == value;
    }
  }

  lemma SelectedIn(sel: seq<Job>, jobs: seq<Job>)
    requires Selection(sel, jobs)
    ensures forall y :: y in sel ==> y in jobs
  {
    forall y | y in sel ensures y in jobs { assert y in multiset(sel); }
  }

  lemma StaysCompatible(sel: seq<Job>, jobs: seq<Job>, x: Job, compatible: seq<Job>)
    requires Selection(sel, jobs) && forall y :: y in sel ==> Apart(x, y)
    requires forall y :: y in jobs && Apart(x, y) ==> multiset(compatible)[y] == multiset(jobs)[y]
    ensures Selection(sel, compatible)
  {
    SelectedIn(sel, jobs);
    forall y ensures multiset(sel)[y] <= multiset(compatible)[y] {
      if y in sel { assert multiset(sel)[y] <= multiset(jobs)[y]; } else { assert multiset(sel)[y] == 0; }
    }
  }

  lemma NoJobs()
    ensures IsBest([], 0)
  {
    assert Selection([], []) && Total([]) == 0;
    forall sel: seq<Job> | Selection(sel, []) ensures Total(sel) <= 0 {
      SelectedIn(sel, []);
      assert sel != [] ==> sel[0] in sel;
    }
  }

  // ---------------------------------------------------------------- by start time, memoized

  predicate StartOrder(a: Job, b: Job) {
    a.start < b.start || (a.start == b.start && (a.end < b.end || (a.end == b.end && a.profit <= b.profit)))
  }

  /** `lower_bound`: the first job from i on that starts at e or later. */
  function FirstFrom(jobs: seq<Job>, i: nat, e: int): (j: nat)
    requires i <= |jobs|
    ensures i <= j <= |jobs| && (j < |jobs| ==> jobs[j].start >= e)
    ensures forall k :: i <= k < j ==> jobs[k].start < e
    decreases |jobs| - i
  {
    if i == |jobs| || jobs[i].start >= e then i else FirstFrom(jobs, i + 1, e)
  }

  /** From j on all jobs start after x ends. */
  lemma LaterApart(jobs: seq<Job>, j: nat, x: Job)
    requires Sorted(jobs, StartOrder) && j <= |jobs| && (j < |jobs| ==> jobs[j].start >= x.end)
    ensures forall y :: y in jobs[j..] ==> Apart(x, y)
  {
    forall y | y in jobs[j..] ensures Apart(x, y) {
      var k :| j <= k < |jobs| && jobs[k] == y;
      assert k > j ==> StartOrder(jobs[j], jobs[k]);
    }
  }

  /** A later job apart from x starts when x has ended, even one of length zero. */
  lemma ApartIsLater(jobs: seq<Job>, i: nat, y: Job)
    requires Sorted(jobs, StartOrder) && WellTimed(jobs) && i < |jobs| && y in jobs[i + 1..] && Apart(jobs[i], y)
    ensures y.start >= jobs[i].end
  {
    var k :| i < k < |jobs| && jobs[k] == y;
    assert StartOrder(jobs[i], jobs[k]) && y in jobs;
  }

  lemma FromStart(jobs: seq<Job>, i: nat, best: int, bestLater: int)
    requires Sorted(jobs, StartOrder) && WellTimed(jobs) && i < |jobs|
    requires IsBest(jobs[i + 1..], best) && IsBest(jobs[FirstFrom(jobs, i + 1, jobs[i].end)..], bestLater)
    ensures IsBest(jobs[i..], Max(best, jobs[i].profit + bestLater))
  {
    var x, rest, j := jobs[i], jobs[i + 1..], FirstFrom(jobs, i + 1, jobs[i].end);
    var skipped := jobs[i + 1..j];
    LaterApart(jobs, j, x);
    forall y | y in rest && Apart(x, y) ensures y !in skipped { ApartIsLater(jobs, i, y); }
    OnlySkipped(rest, skipped, jobs[j..], x, best, bestLater);
    Rotated(jobs, i, Max(best, x.profit + bestLater));
  }

  lemma Rotated(jobs: seq<Job>, i: nat, best: int)
    requires i < |jobs| && IsBest(jobs[i + 1..] + [jobs[i]], best)
    ensures IsBest(jobs[i..], best)
  {
    assert jobs[i..] == [jobs[i]] + jobs[i + 1..];
    SameJobs(jobs[i + 1..] + [jobs[i]], jobs[i..], best);
  }

  lemma OnlySkipped(jobs: seq<Job>, skipped: seq<Job>, kept: seq<Job>, x: Job, best: int, bestKept: int)
    requires IsBest(jobs, best) && IsBest(kept, bestKept)
    requires jobs == skipped + kept || jobs == kept + skipped
    requires forall y :: y in kept ==> Apart(x, y)
    requires forall y :: y in jobs && Apart(x, y) ==> y !in skipped
    ensures IsBest(jobs + [x], Max(best, x.profit + bestKept))
  {
    assert multiset(jobs) == multiset(skipped) + multiset(kept);
    forall y | y in jobs && Apart(x, y) ensures multiset(kept)[y] == multiset(jobs)[y] {
      assert multiset(skipped)[y] == 0;
    }
    TakeOrLeave(jobs, x, kept, best, bestKept);
  }

  /** Every entry of the memo is unset or the best of the jobs from there on. */
  ghost predicate Memo(jobs: seq<Job>, f: seq<int>) {
    |f| == |jobs| && forall i :: 0 <= i < |f| ==> f[i] == 0 || IsBest(jobs[i..], f[i])
  }

  method Dfs(jobs: seq<Job>, f: array<int>, i: nat) returns (best: int)
    requires Sorted(jobs, StartOrder) && WellTimed(jobs) && i <= |jobs| && Memo(jobs, f[..])
    modifies f
    ensures Memo(jobs, f[..]) && IsBest(jobs[i..], best)
    decreases |jobs| - i
  {
    if i >= |jobs| {
      NoJobs();
      assert jobs[i..] == [];
      return 0;
    }
    if f[i] != 0 {
      assert f[..][i] == f[i];
      return f[i];
    }
    var j := FirstFrom(jobs, i + 1, jobs[i].end);
    var skip := Dfs(jobs, f, i + 1);
    var take := Dfs(jobs, f, j);
    best := Max(skip, jobs[i].profit + take);
    FromStart(jobs, i, skip, take);
    ghost var memo := f[..];
    f[i] := best;
    assert f[..] == memo[i := best];
  }

  /** Job i from the three columns of the input. */
  function Jobs(startTime: seq<int>, endTime: seq<int>, profit: seq<int>): seq<Job>
    requires |startTime| == |endTime| == |profit|
  {
    seq(|profit|, i requires 0 <= i < |profit| => Job(startTime[i], endTime[i], profit[i]))
  }

  method JobSchedulingV1(startTime: seq<int>, endTime: seq<int>, profit: seq<int>) returns (best: int)
    requires |startTime| == |endTime| == |profit| && WellTimed(Jobs(startTime, endTime, profit))
    ensures IsBest(Jobs(startTime, endTime, profit), best)
  {
    var given := Jobs(startTime, endTime, profit);
    var jobs := Sort(given, StartOrder);
    SortSorts(given, StartOrder);
    SameJobs(jobs, given, 0);
    var f := new int[|jobs|](_ => 0);
    best := Dfs(jobs, f, 0);
    assert jobs[0..] == jobs;
    SameJobs(jobs, given, best);
  }

  // ---------------------------------------------------------------- by end time, in a table

  predicate EndOrder(a: Job, b: Job) {
    a.end < b.end || (a.end == b.end && (a.start < b.start || (a.start == b.start && a.profit <= b.profit)))
  }

  /** `upper_bound` among the first i jobs: how many of them end at s or before. */
  function EndedBy(jobs: seq<Job>, i: nat, s: int): (j: nat)
    requires i <= |jobs| && Sorted(jobs, EndOrder)
    ensures EndsBy(jobs, i, j, s)
  {
    if i == 0 then 0
    else if jobs[i - 1].end <= s then
      assert forall k :: 0 <= k < i - 1 ==> EndOrder(jobs[k], jobs[i - 1]);
      i
    else EndedBy(jobs, i - 1, s)
  }

  /** An earlier job apart from x has ended when x starts, even one of length zero. */
  lemma ApartIsEarlier(jobs: seq<Job>, i: nat, y: Job)
    requires Sorted(jobs, EndOrder) && WellTimed(jobs) && i < |jobs| && y in jobs[..i] && Apart(jobs[i], y)
    ensures y.end <= jobs[i].start
  {
    var k :| 0 <= k < i && jobs[k] == y;
    assert EndOrder(jobs[k], jobs[i]) && y in jobs;
  }

  ghost predicate BestUpTo(jobs: seq<Job>, k: nat, best: int)
    requires k <= |jobs|
  {
    IsBest(jobs[..k], best)
  }

  lemma OneMoreJob(jobs: seq<Job>, i: nat)
    requires i < |jobs|
    ensures jobs[..i] + [jobs[i]] == jobs[..i + 1]
  {}

  /** The first j of the first i jobs, and only they, end by s. */
  predicate EndsBy(jobs: seq<Job>, i: nat, j: nat, s: int) {
    j <= i <= |jobs| && (forall k :: 0 <= k < j ==> jobs[k].end <= s) && forall k :: j <= k < i ==> jobs[k].end > s
  }

  lemma UpToEnd(jobs: seq<Job>, i: nat, j: nat, best: int, bestEarlier: int)
    requires Sorted(jobs, EndOrder) && WellTimed(jobs) && i < |jobs| && EndsBy(jobs, i, j, jobs[i].start)
    requires BestUpTo(jobs, i, best) && BestUpTo(jobs, j, bestEarlier)
    ensures BestUpTo(jobs, i + 1, Max(best, jobs[i].profit + bestEarlier))
  {
    var x, rest := jobs[i], jobs[..i];
    var skipped := jobs[j..i];
    forall y | y in jobs[..j] ensures Apart(x, y) {}
    forall y | y in rest && Apart(x, y) ensures y !in skipped { ApartIsEarlier(jobs, i, y); }
    assert rest == jobs[..j] + skipped;
    OnlySkipped(rest, skipped, jobs[..j], x, best, bestEarlier);
    OneMoreJob(jobs, i);
  }

  ghost predicate Table(jobs: seq<Job>, dp: seq<int>, i: nat) {
    && i <= |jobs| && |dp| == |jobs| + 1
    && forall k {:trigger BestUpTo(jobs, k, dp[k])} :: 0 <= k <= i ==> BestUpTo(jobs, k, dp[k])
  }

  lemma TableSet(jobs: seq<Job>, dp: seq<int>, i: nat, best: int)
    requires i < |jobs| && Table(jobs, dp, i) && BestUpTo(jobs, i + 1, best)
    ensures Table(jobs, dp[i + 1 := best], i + 1)
  {
    var dp' := dp[i + 1 := best];
    forall k {:trigger BestUpTo(jobs, k, dp'[k])} | 0 <= k <= i ensures BestUpTo(jobs, k, dp'[k]) {
      assert BestUpTo(jobs, k, dp[k]);
    }
  }

  lemma TableGrows(jobs: seq<Job>, dp: seq<int>, i: nat, j: nat, best: int)
    requires Sorted(jobs, EndOrder) && WellTimed(jobs) && i < |jobs| && Table(jobs, dp, i)
    requires j == EndedBy(jobs, i, jobs[i].start) && best == Max(dp[i], jobs[i].profit + dp[j])
    ensures Table(jobs, dp[i + 1 := best], i + 1)
  {
    assert BestUpTo(jobs, i, dp[i]) && BestUpTo(jobs, j, dp[j]);
    UpToEnd(jobs, i, j, dp[i], dp[j]);
    TableSet(jobs, dp, i, best);
  }

  method FillTable(jobs: seq<Job>) returns (best: int)
    requires Sorted(jobs, EndOrder) && WellTimed(jobs)
    ensures IsBest(jobs, best)
  {
    var n := |jobs|;
    var dp := new int[n + 1](_ => 0);
    NoJobs();
    assert jobs[..0] == [] && BestUpTo(jobs, 0, dp[0]);
    for i := 0 to n
      invariant Table(jobs, dp[..], i)
    {
      var j := EndedBy(jobs, i, jobs[i].start);
      ghost var table := dp[..];
      dp[i + 1] := Max(dp[i], jobs[i].profit + dp[j]);
      TableGrows(jobs, table, i, j, dp[i + 1]);
      assert dp[..] == table[i + 1 := dp[i + 1]];
    }
    assert jobs[..n] == jobs && BestUpTo(jobs, n, dp[..][n]);
    best := dp[n];
  }

  method JobSchedulingV2(startTime: seq<int>, endTime: seq<int>, profit: seq<int>) returns (best: int)
    requires |startTime| == |endTime| == |profit| && WellTimed(Jobs(startTime, endTime, profit))
    ensures IsBest(Jobs(startTime, endTime, profit), best)
  {
    var given := Jobs(startTime, endTime, profit);
    var jobs := Sort(given, EndOrder);
    SortSorts(given, EndOrder);
    SameJobs(jobs, given, 0);
    best := FillTable(jobs);
    SameJobs(jobs, given, best);
  }

  /** There is only one best total, so the two programs return the same value. */
  lemma BestIsUnique(jobs: seq<Job>, best: int, other: int)
    requires IsBest(jobs, best) && IsBest(jobs, other)
    ensures best == other
  {
    var sel :| Selection(sel, jobs) && Total(sel) == best;
    var sel' :| Selection(sel', jobs) && Total(sel') == other;
  }
}
