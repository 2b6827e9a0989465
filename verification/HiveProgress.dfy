/** Hive's progress: a log folded into a percentage, in exact rationals. */
module HiveProgress {
  import opened Cluster

  /** The three regular expressions of the engine spec, as what each yields on a line. */
  datatype Matchers = Matchers(totalJobs: string -> Option<nat>, launching: string -> Option<(nat, nat)>,
                               stage: string -> Option<(nat, nat, nat)>)

  /** What the loop over the lines keeps. */
  datatype Tally = Tally(total: nat, job: int, stages: map<nat, real>)

  const START := Tally(1, 1, map[])

  function OrOne(n: nat): nat {
    if n == 0 then 1 else n
  }

  function Read(r: Matchers, t: Tally, line: string): Tally {
    var t1 := match r.totalJobs(line) case None => t case Some(n) => t.(total := OrOne(n));
    var t2 := match r.launching(line) case None => t1 case Some(l) => Tally(OrOne(l.1), l.0, map[]);
    match r.stage(line)
    case None => t2
    case Some(s) => t2.(stages := t2.stages[s.0 := (s.1 + s.2) as real / 2.0])
  }

  function ReadAll(r: Matchers, lines: seq<string>): (t: Tally)
    ensures t.total > 0
  {
    if lines == [] then START else Read(r, ReadAll(r, lines[..|lines| - 1]), lines[|lines| - 1])
  }

  /** The sum of a dict's values, in whatever order. */
  ghost function Sum(m: map<nat, real>): real {
    if m == map[] then 0.0
    else
      var k :| k in m;
      m[k] + Sum(m - {k})
  }

  /** Any value may be taken out first. */
  lemma {:induction false} SumTakesAny(m: map<nat, real>, k: nat)
    requires k in m
    ensures Sum(m) == m[k] + Sum(m - {k})
    decreases |m|
  {
    var c :| c in m && Sum(m) == m[c] + Sum(m - {c});
    if c != k {
      SumTakesAny(m - {c}, k);
      SumTakesAny(m - {k}, c);
      assert (m - {c}) - {k} == (m - {k}) - {c};
    }
  }

  ghost function StageProgress(m: map<nat, real>): real {
    if m == map[] then 0.0 else Sum(m) / |m| as real
  }

  /** `int()` of a number: towards zero. */
  function Truncate(x: real): int {
    if x >= 0.0 then x.Floor else -(-x).Floor
  }

  ghost function Exact(t: Tally): real
    requires t.total > 0
  {
    (100 * (t.job - 1)) as real / t.total as real + StageProgress(t.stages) / t.total as real
  }

  /** The percentage reported for a log. */
  ghost function Percent(r: Matchers, lines: seq<string>): int {
    Truncate(Exact(ReadAll(r, lines)))
  }

  /** `sum(stages.values())`. */
  method SumValues(m: map<nat, real>) returns (sum: real)
    ensures sum == Sum(m)
  {
    sum := 0.0;
    var todo := m;
    while todo != map[]
      invariant sum + Sum(todo) == Sum(m)
      decreases |todo|
    {
      var k :| k in todo;
      SumTakesAny(todo, k);
      sum := sum + todo[k];
      todo := todo - {k};
    }
  }

  /** `progress`. */
  method Progress(r: Matchers, lines: seq<string>) returns (percent: int)
    ensures percent == Percent(r, lines)
  {
    var totalJobs: nat, currentJob: int := 1, 1;
    var stages: map<nat, real> := map[];
    for i := 0 to |lines|
      invariant totalJobs > 0
      invariant Tally(totalJobs, currentJob, stages) == ReadAll(r, lines[..i])
    {
      assert lines[..i + 1][..i] == lines[..i];
      var stats := r.totalJobs(lines[i]);
      if stats.Some? {
        totalJobs := OrOne(stats.value);
      }
      var launched := r.launching(lines[i]);
      if launched.Some? {
        currentJob := launched.value.0;
        totalJobs := OrOne(launched.value.1);
        stages := map[];
      }
      var stage := r.stage(lines[i]);
      if stage.Some? {
        stages := stages[stage.value.0 := (stage.value.1 + stage.value.2) as real / 2.0];
      }
    }
    assert lines[..|lines|] == lines;
    var stageProgress := 0.0;
    if stages != map[] {
      var sum := SumValues(stages);
      stageProgress := sum / |stages| as real;
    }
    percent := Truncate((100 * (currentJob - 1)) as real / totalJobs as real + stageProgress / totalJobs as real);
  }

  // ---------- bounds ----------

  /** Every stage line reports percentages of at most 100. */
  ghost predicate PercentagesSane(r: Matchers, lines: seq<string>) {
    forall l :: l in lines && r.stage(l).Some? ==> r.stage(l).value.1 <= 100 && r.stage(l).value.2 <= 100
  }

  predicate StagesSane(m: map<nat, real>) {
    forall k :: k in m ==> 0.0 <= m[k] <= 100.0
  }

  lemma {:induction false} ReadAllSane(r: Matchers, lines: seq<string>)
    requires PercentagesSane(r, lines)
    ensures StagesSane(ReadAll(r, lines).stages)
  {
    if lines != [] {
      var init, last := lines[..|lines| - 1], lines[|lines| - 1];
      assert last in lines;
      ReadAllSane(r, init);
    }
  }

  lemma {:induction false} SumBounds(m: map<nat, real>)
    requires StagesSane(m)
    ensures 0.0 <= Sum(m) <= 100.0 * |m| as real
    decreases |m|
  {
    if m != map[] {
      var k :| k in m;
      SumTakesAny(m, k);
      assert |m - {k}| == |m| - 1 by {
        assert (m - {k}).Keys == m.Keys - {k};
      }
      SumBounds(m - {k});
    }
  }

  lemma ScaledLess(x: real, y: real, n: real)
    requires n > 0.0
    ensures x < y <==> x * n < y * n
  {
  }

  lemma DivideBounds(x: real, n: real)
    requires n > 0.0 && 0.0 <= x <= 100.0 * n
    ensures 0.0 <= x / n <= 100.0
  {
    assert x / n * n == x;
    ScaledLess(100.0, x / n, n);
    ScaledLess(x / n, 0.0, n);
  }

  lemma StageProgressBounds(m: map<nat, real>)
    requires StagesSane(m)
    ensures 0.0 <= StageProgress(m) <= 100.0
  {
    if m != map[] {
      SumBounds(m);
      DivideBounds(Sum(m), |m| as real);
    }
  }

  lemma DivideMonotone(a: real, b: real, t: real)
    requires t > 0.0 && a <= b
    ensures a / t <= b / t
  {
    assert a / t * t == a && b / t * t == b;
    ScaledLess(b / t, a / t, t);
  }

  lemma DivideSum(a: real, b: real, t: real)
    requires t > 0.0
    ensures a / t + b / t == (a + b) / t
  {
  }

  /** The rational lies between the shares of the jobs done before and after the current one. */
  lemma ExactBounds(t: Tally)
    requires t.total > 0 && StagesSane(t.stages)
    ensures (100 * (t.job - 1)) as real / t.total as real <= Exact(t) <= (100 * t.job) as real / t.total as real
  {
    var a, s, n := (100 * (t.job - 1)) as real, StageProgress(t.stages), t.total as real;
    StageProgressBounds(t.stages);
    DivideSum(a, s, n);
    DivideMonotone(a, a + s, n);
    DivideMonotone(a + s, (100 * t.job) as real, n);
  }

  lemma FloorMonotone(x: real, y: real)
    requires x <= y
    ensures x.Floor <= y.Floor
  {
  }

  lemma QuotientBetween(a: int, b: int, q: int)
    requires b > 0 && q * b <= a < q * b + b
    ensures q as real <= a as real / b as real < q as real + 1.0
  {
    var x, n := a as real / b as real, b as real;
    assert x * n == a as real;
    assert (q * b) as real == q as real * n;
    ScaledLess(x, q as real, n);
    ScaledLess(x, q as real + 1.0, n);
  }

  lemma FloorIs(x: real, q: int)
    requires q as real <= x < q as real + 1.0
    ensures x.Floor == q
  {
  }

  lemma FloorOfQuotient(a: int, b: int)
    requires b > 0
    ensures (a as real / b as real).Floor == a / b
  {
    QuotientBetween(a, b, a / b);
    FloorIs(a as real / b as real, a / b);
  }

  /** For current job `j` of `T` the result lies between floor(100(j - 1)/T) and floor(100j/T), and so in 0..100. */
  lemma PercentBounds(r: Matchers, lines: seq<string>)
    requires PercentagesSane(r, lines) && 1 <= ReadAll(r, lines).job <= ReadAll(r, lines).total
    ensures var t := ReadAll(r, lines);
            100 * (t.job - 1) / t.total <= Percent(r, lines) <= 100 * t.job / t.total
    ensures 0 <= Percent(r, lines) <= 100
  {
    var t := ReadAll(r, lines);
    ReadAllSane(r, lines);
    ExactBounds(t);
    FloorOfQuotient(100 * (t.job - 1), t.total);
    FloorOfQuotient(100 * t.job, t.total);
    QuotientBounds(t.job, t.total);
    var lo := (100 * (t.job - 1)) as real / t.total as real;
    FloorMonotone(0.0, lo);
    FloorMonotone(lo, Exact(t));
    FloorMonotone(Exact(t), (100 * t.job) as real / t.total as real);
  }

  lemma QuotientBounds(j: int, n: int)
    requires 1 <= j <= n
    ensures 0 <= 100 * (j - 1) / n && 100 * j / n <= 100
    ensures 0.0 <= (100 * (j - 1)) as real / n as real
  {
    DivideMonotone(0.0, (100 * (j - 1)) as real, n as real);
    assert 100 * j <= 100 * n;
    FloorOfQuotient(100 * j, n);
    DivideMonotone((100 * j) as real, (100 * n) as real, n as real);
    FloorOfQuotient(100 * n, n);
    assert (100 * n) / n == 100;
  }

  /** With the number of jobs fixed, the result never decreases from one job to a later one, whatever the stages of
      either report. */
  lemma PercentGrowsWithJobs(r: Matchers, a: seq<string>, b: seq<string>)
    requires PercentagesSane(r, a) && PercentagesSane(r, b)
    requires 1 <= ReadAll(r, a).job < ReadAll(r, b).job <= ReadAll(r, b).total == ReadAll(r, a).total
    ensures Percent(r, a) <= Percent(r, b)
  {
    hide Percent, PercentagesSane;
    var t, u := ReadAll(r, a), ReadAll(r, b);
    PercentBounds(r, a);
    PercentBounds(r, b);
    FloorOfQuotient(100 * t.job, t.total);
    FloorOfQuotient(100 * (u.job - 1), t.total);
    DivideMonotone((100 * t.job) as real, (100 * (u.job - 1)) as real, t.total as real);
  }

  // ---------- within one job ----------

  /** A line that reports a stage and nothing else. */
  predicate StageLine(r: Matchers, line: string, n: nat, map1: nat, reduce1: nat) {
    r.totalJobs(line).None? && r.launching(line).None? && r.stage(line) == Some((n, map1, reduce1))
  }

  /** The stage's value as the loop records it. */
  function StageValue(map1: nat, reduce1: nat): real {
    (map1 + reduce1) as real / 2.0
  }

  /** The new value of a stage pulls the average of the stages down: it is below the stage's old value, or, for a new
      stage, below the average of those there are. */
  ghost predicate PullsDown(m: map<nat, real>, n: nat, v: real) {
    if n in m then v < m[n] else m != map[] && v < StageProgress(m)
  }

  lemma SumOfUpdate(m: map<nat, real>, n: nat, v: real)
    ensures Sum(m[n := v]) == (if n in m then Sum(m) - m[n] else Sum(m)) + v
  {
    hide Sum;
    var u := m[n := v];
    SumTakesAny(u, n);
    assert u - {n} == m - {n};
    if n in m {
      SumTakesAny(m, n);
    } else {
      assert m - {n} == m;
    }
  }

  lemma SizeOfUpdate(m: map<nat, real>, n: nat, v: real)
    ensures |m[n := v]| == if n in m then |m| else |m| + 1
  {
    var u := m[n := v];
    assert u.Keys == m.Keys + {n};
    assert |u| == |u.Keys| && |m| == |m.Keys|;
  }

  lemma SameScaled(x: real, y: real, n: real)
    requires n > 0.0 && x * n == y * n
    ensures x == y
  {
    ScaledLess(x, y, n);
    ScaledLess(y, x, n);
  }

  /** Replacing a value or adding one to an average, when there is one. */
  lemma AverageAfter(s: real, k: real, v: real)
    requires k > 0.0
    ensures (s + v) / (k + 1.0) == s / k - (s / k - v) / (k + 1.0)
  {
    var a, d := s / k, (s / k - v) / (k + 1.0);
    assert a * k == s && d * (k + 1.0) == a - v;
    assert (a - d) * (k + 1.0) == a * k + a - d * (k + 1.0);
    assert (s + v) / (k + 1.0) * (k + 1.0) == s + v;
    SameScaled((s + v) / (k + 1.0), a - d, k + 1.0);
  }

  /** How far a new value of a stage pulls the average of the stages down, told from the stages before. */
  ghost function StageDrop(m: map<nat, real>, n: nat, v: real): real {
    if n in m then (m[n] - v) / |m| as real
    else if m != map[] then (StageProgress(m) - v) / (|m| + 1) as real
    else -v
  }

  /** The same for the exact progress. */
  ghost function Drop(t: Tally, n: nat, v: real): real
    requires t.total > 0
  {
    StageDrop(t.stages, n, v) / t.total as real
  }

  lemma StageProgressAfter(m: map<nat, real>, n: nat, v: real)
    ensures StageProgress(m[n := v]) == StageProgress(m) - StageDrop(m, n, v)
  {
    hide Sum;
    SumOfUpdate(m, n, v);
    SizeOfUpdate(m, n, v);
    assert n in m[n := v];
    if n in m {
      DivideSum(Sum(m) - m[n] + v, m[n] - v, |m| as real);
    } else if m != map[] {
      AverageAfter(Sum(m), |m| as real, v);
    } else {
      EmptySum();
      assert |m[n := v]| == 1;
    }
  }

  lemma DividePositive(x: real, n: real)
    requires n > 0.0
    ensures x / n > 0.0 <==> x > 0.0
  {
    assert x / n * n == x;
    ScaledLess(0.0, x / n, n);
  }

  lemma DropPositiveIff(t: Tally, n: nat, v: real)
    requires t.total > 0 && v >= 0.0
    ensures Drop(t, n, v) > 0.0 <==> PullsDown(t.stages, n, v)
  {
    hide StageProgress;
    var m := t.stages;
    DividePositive(StageDrop(m, n, v), t.total as real);
    if n in m {
      DividePositive(m[n] - v, |m| as real);
    } else if m != map[] {
      DividePositive(StageProgress(m) - v, (|m| + 1) as real);
    }
  }

  lemma EmptySum()
    ensures Sum(map[]) == 0.0
  {
  }

  lemma AfterStageLine(r: Matchers, lines: seq<string>, line: string, n: nat, map1: nat, reduce1: nat)
    requires StageLine(r, line, n, map1, reduce1)
    ensures ReadAll(r, lines + [line])
         == ReadAll(r, lines).(stages := ReadAll(r, lines).stages[n := StageValue(map1, reduce1)])
  {
    assert (lines + [line])[..|lines|] == lines;
  }

  /** A stage line changes the exact progress by exactly the drop told from the tally before it. */
  lemma ExactAfter(r: Matchers, lines: seq<string>, line: string, n: nat, map1: nat, reduce1: nat)
    requires StageLine(r, line, n, map1, reduce1)
    ensures Exact(ReadAll(r, lines + [line]))
         == Exact(ReadAll(r, lines)) - Drop(ReadAll(r, lines), n, StageValue(map1, reduce1))
  {
    hide StageProgress, StageDrop;
    var t := ReadAll(r, lines);
    var v := StageValue(map1, reduce1);
    AfterStageLine(r, lines, line, n, map1, reduce1);
    StageProgressAfter(t.stages, n, v);
    DivideSum(StageProgress(t.stages) - StageDrop(t.stages, n, v), StageDrop(t.stages, n, v), t.total as real);
  }

  /** Within a job a stage line lowers the exact progress if and only if the stage's new value pulls the average
      down. */
  lemma ExactFallsIff(r: Matchers, lines: seq<string>, line: string, n: nat, map1: nat, reduce1: nat)
    requires StageLine(r, line, n, map1, reduce1)
    ensures Exact(ReadAll(r, lines + [line])) < Exact(ReadAll(r, lines))
       <==> PullsDown(ReadAll(r, lines).stages, n, StageValue(map1, reduce1))
  {
    hide Exact, Drop, PullsDown, ReadAll;
    ExactAfter(r, lines, line, n, map1, reduce1);
    DropPositiveIff(ReadAll(r, lines), n, StageValue(map1, reduce1));
  }

  /** How far the exact progress must fall for the percentage to fall: from a percentage of one or more, by more than
      the fraction cut off; from a percentage of zero or less, where `int` cuts off upwards, to the next lower
      number. */
  predicate FallsThrough(x: real, drop: real) {
    if x >= 1.0 then drop > x - x.Floor as real
    else drop >= x - (Truncate(x) - 1) as real
  }

  lemma TruncateFallsIff(x: real, drop: real)
    ensures Truncate(x - drop) < Truncate(x) <==> FallsThrough(x, drop)
  {
  }

  lemma ExactNotNegative(t: Tally)
    requires t.total > 0 && t.job >= 1 && StagesSane(t.stages)
    ensures Exact(t) >= 0.0
  {
    ExactBounds(t);
    DivideMonotone(0.0, (100 * (t.job - 1)) as real, t.total as real);
  }

  /** Within a job a stage line lowers the reported percentage if and only if the drop told from the tally before it is
      large enough; from the first job on, if and only if it is more than the fraction that the report cuts off. */
  lemma PercentFallsIff(r: Matchers, lines: seq<string>, line: string, n: nat, map1: nat, reduce1: nat)
    requires PercentagesSane(r, lines + [line]) && StageLine(r, line, n, map1, reduce1)
    ensures var t := ReadAll(r, lines);
            var drop := Drop(t, n, StageValue(map1, reduce1));
            && (Percent(r, lines + [line]) < Percent(r, lines) <==> FallsThrough(Exact(t), drop))
            && (t.job >= 1 ==>
                  (Percent(r, lines + [line]) < Percent(r, lines) <==> drop > Exact(t) - Exact(t).Floor as real))
  {
    hide Exact, Drop, Truncate, ReadAll;
    var t := ReadAll(r, lines);
    var u := ReadAll(r, lines + [line]);
    ExactAfter(r, lines, line, n, map1, reduce1);
    TruncateFallsIff(Exact(t), Drop(t, n, StageValue(map1, reduce1)));
    if t.job >= 1 {
      assert PercentagesSane(r, lines) by {
        assert forall l :: l in lines ==> l in lines + [line];
      }
      ReadAllSane(r, lines);
      ReadAllSane(r, lines + [line]);
      JobOfStageLine(r, lines, line, n, map1, reduce1);
      ExactNotNegative(t);
      ExactNotNegative(u);
      FallsFromPositive(Exact(t), Drop(t, n, StageValue(map1, reduce1)));
    }
  }

  lemma JobOfStageLine(r: Matchers, lines: seq<string>, line: string, n: nat, map1: nat, reduce1: nat)
    requires StageLine(r, line, n, map1, reduce1)
    ensures ReadAll(r, lines + [line]).job == ReadAll(r, lines).job
  {
    AfterStageLine(r, lines, line, n, map1, reduce1);
  }

  lemma FallsFromPositive(x: real, drop: real)
    requires x >= 0.0 && x - drop >= 0.0
    ensures FallsThrough(x, drop) <==> drop > x - x.Floor as real
  {
  }
}
