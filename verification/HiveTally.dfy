/** What of a Hive log decides the progress: the last launching line, the last line with a number of jobs, and, for each
    stage, its last line since the last launching line. */
module HiveTally {
  import opened Cluster
  import opened HiveProgress

  // ---------- the current job ----------

  predicate Launches(r: Matchers, line: string) {
    r.launching(line).Some?
  }

  /** The last launching line. */
  ghost predicate LastLaunch(r: Matchers, lines: seq<string>, i: nat) {
    i < |lines| && Launches(r, lines[i]) && forall j :: i < j < |lines| ==> !Launches(r, lines[j])
  }

  /** The current job is that of the last launching line, the first when there is none. */
  lemma {:induction false} JobIs(r: Matchers, lines: seq<string>)
    ensures (forall i :: 0 <= i < |lines| ==> !Launches(r, lines[i])) ==> ReadAll(r, lines).job == 1
    ensures forall i: nat :: LastLaunch(r, lines, i) ==> ReadAll(r, lines).job == r.launching(lines[i]).value.0
  {
    if lines != [] {
      var init, n := lines[..|lines| - 1], |lines| - 1;
      JobIs(r, init);
      forall i: nat | LastLaunch(r, lines, i) ensures ReadAll(r, lines).job == r.launching(lines[i]).value.0 {
        if i < n {
          assert init[i] == lines[i] && LastLaunch(r, init, i);
        }
      }
    }
  }

  // ---------- the number of jobs ----------

  predicate Counts(r: Matchers, line: string) {
    r.launching(line).Some? || r.totalJobs(line).Some?
  }

  /** The number of jobs that a line gives, a launching line before a line of totals; none counts as one. */
  function CountOf(r: Matchers, line: string): nat
    requires Counts(r, line)
  {
    var n := if r.launching(line).Some? then r.launching(line).value.1 else r.totalJobs(line).value;
    if n == 0 then 1 else n
  }

  ghost predicate LastCount(r: Matchers, lines: seq<string>, i: nat) {
    i < |lines| && Counts(r, lines[i]) && forall j :: i < j < |lines| ==> !Counts(r, lines[j])
  }

  /** The number of jobs is that of the last line that gives one; one when there is none. */
  lemma {:induction false} TotalIs(r: Matchers, lines: seq<string>)
    ensures (forall i :: 0 <= i < |lines| ==> !Counts(r, lines[i])) ==> ReadAll(r, lines).total == 1
    ensures forall i: nat :: LastCount(r, lines, i) ==> ReadAll(r, lines).total == CountOf(r, lines[i])
  {
    if lines != [] {
      var init, n := lines[..|lines| - 1], |lines| - 1;
      TotalIs(r, init);
      forall i: nat | LastCount(r, lines, i) ensures ReadAll(r, lines).total == CountOf(r, lines[i]) {
        if i < n {
          assert init[i] == lines[i] && LastCount(r, init, i);
        }
      }
    }
  }

  // ---------- the stages ----------

  /** Line `i` reports stage `n` and no job is launched after it. */
  ghost predicate Reports(r: Matchers, lines: seq<string>, n: nat, i: nat) {
    && i < |lines| && r.stage(lines[i]).Some? && r.stage(lines[i]).value.0 == n
    && forall j :: i < j < |lines| ==> !Launches(r, lines[j])
  }

  ghost predicate LastReport(r: Matchers, lines: seq<string>, n: nat, i: nat) {
    Reports(r, lines, n, i) && forall j :: i < j < |lines| ==> !Reports(r, lines, n, j)
  }

  lemma ReportsInit(r: Matchers, lines: seq<string>, n: nat, i: nat)
    requires lines != [] && i + 1 < |lines|
    ensures Reports(r, lines, n, i) <==>
              Reports(r, lines[..|lines| - 1], n, i) && !Launches(r, lines[|lines| - 1])
  {
    var init := lines[..|lines| - 1];
    assert init[i] == lines[i];
    if Reports(r, init, n, i) && !Launches(r, lines[|lines| - 1]) {
      forall j | i < j < |lines| ensures !Launches(r, lines[j]) {
        if j < |init| {
          assert init[j] == lines[j];
        }
      }
    }
    if Reports(r, lines, n, i) {
      forall j | i < j < |init| ensures !Launches(r, init[j]) {
        assert init[j] == lines[j];
      }
    }
  }

  lemma StageStep(r: Matchers, lines: seq<string>, n: nat)
    requires lines != []
    ensures var last := lines[|lines| - 1];
            var t, u := ReadAll(r, lines[..|lines| - 1]).stages, ReadAll(r, lines).stages;
            var now := r.stage(last).Some? && r.stage(last).value.0 == n;
            && (n in u <==> now || (!Launches(r, last) && n in t))
            && (now ==> u[n] == (r.stage(last).value.1 + r.stage(last).value.2) as real / 2.0)
            && (!now && n in u ==> u[n] == t[n])
  {
  }

  lemma LastReportInit(r: Matchers, lines: seq<string>, n: nat, i: nat)
    requires i + 1 < |lines| && LastReport(r, lines, n, i)
    ensures LastReport(r, lines[..|lines| - 1], n, i) && !Launches(r, lines[|lines| - 1])
  {
    var init := lines[..|lines| - 1];
    ReportsInit(r, lines, n, i);
    forall j | i < j < |init| ensures !Reports(r, init, n, j) {
      ReportsInit(r, lines, n, j);
      assert !Reports(r, lines, n, j);
    }
  }

  lemma ReportsAtEnd(r: Matchers, lines: seq<string>, n: nat)
    requires lines != []
    ensures Reports(r, lines, n, |lines| - 1) <==>
              r.stage(lines[|lines| - 1]).Some? && r.stage(lines[|lines| - 1]).value.0 == n
  {
  }

  /** The stages counted are those reported since the last launching line, that line included. */
  lemma {:induction false} StageCounted(r: Matchers, lines: seq<string>, n: nat)
    ensures n in ReadAll(r, lines).stages <==> exists i: nat :: Reports(r, lines, n, i)
  {
    hide ReadAll, Reports;
    if lines == [] {
      NothingRead(r);
      NothingReported(r, n);
    } else {
      var init, last := lines[..|lines| - 1], |lines| - 1;
      StageCounted(r, init, n);
      StageStep(r, lines, n);
      ReportsAtEnd(r, lines, n);
      if i: nat :| Reports(r, init, n, i) {
        ReportedInside(r, init, n, i);
        ReportsInit(r, lines, n, i);
      }
      if i: nat :| Reports(r, lines, n, i) {
        ReportedInside(r, lines, n, i);
        if i < last {
          ReportsInit(r, lines, n, i);
        }
      }
    }
  }

  lemma ReportedInside(r: Matchers, lines: seq<string>, n: nat, i: nat)
    requires Reports(r, lines, n, i)
    ensures i < |lines| && r.stage(lines[i]).Some?
  {
  }

  lemma NothingReported(r: Matchers, n: nat)
    ensures forall i: nat :: !Reports(r, [], n, i)
  {
  }

  /** Each counts with the mean of its map and reduce percentages in its last report. */
  lemma {:induction false} StageIs(r: Matchers, lines: seq<string>, n: nat, i: nat)
    requires LastReport(r, lines, n, i)
    ensures n in ReadAll(r, lines).stages
    ensures ReadAll(r, lines).stages[n] == (r.stage(lines[i]).value.1 + r.stage(lines[i]).value.2) as real / 2.0
    decreases |lines|
  {
    hide ReadAll, LastReport;
    LastReportIs(r, lines, n, i);
    StageStep(r, lines, n);
    if i + 1 < |lines| {
      LastReportInit(r, lines, n, i);
      assert lines[..|lines| - 1][i] == lines[i];
      StageIs(r, lines[..|lines| - 1], n, i);
    }
  }

  lemma LastReportIs(r: Matchers, lines: seq<string>, n: nat, i: nat)
    requires LastReport(r, lines, n, i)
    ensures i < |lines| && r.stage(lines[i]).Some? && r.stage(lines[i]).value.0 == n
    ensures i + 1 < |lines| ==>
              !(r.stage(lines[|lines| - 1]).Some? && r.stage(lines[|lines| - 1]).value.0 == n)
  {
    if i + 1 < |lines| {
      ReportsAtEnd(r, lines, n);
    }
  }

  lemma NothingRead(r: Matchers)
    ensures ReadAll(r, []).stages == map[]
  {
  }

  // ---------- a launching line cuts off what came before ----------

  lemma {:induction false} SameFrom(r: Matchers, a: seq<string>, c: seq<string>, b: seq<string>)
    requires ReadAll(r, a) == ReadAll(r, c)
    ensures ReadAll(r, a + b) == ReadAll(r, c + b)
    decreases |b|
  {
    hide Read;
    if b == [] {
      assert a + b == a && c + b == c;
    } else {
      var init, last := b[..|b| - 1], b[|b| - 1];
      assert (a + b)[..|a + b| - 1] == a + init && (c + b)[..|c + b| - 1] == c + init;
      SameFrom(r, a, c, init);
    }
  }

  /** Whatever was read before a launching line does not matter after it. */
  lemma LaunchCutsOff(r: Matchers, a: seq<string>, c: seq<string>, line: string, b: seq<string>)
    requires Launches(r, line)
    ensures Percent(r, a + [line] + b) == Percent(r, c + [line] + b)
  {
    assert (a + [line])[..|a|] == a && (c + [line])[..|c|] == c;
    assert ReadAll(r, a + [line]) == ReadAll(r, c + [line]);
    SameFrom(r, a + [line], c + [line], b);
  }

  /** A log that ends with the launch of job `j` of `t` shows exactly the share of the jobs before. */
  lemma LaunchShowsJobsDone(r: Matchers, a: seq<string>, line: string, j: nat, t: nat)
    requires r.launching(line) == Some((j, t)) && r.stage(line).None? && j >= 1
    ensures Percent(r, a + [line]) == 100 * (j - 1) / (if t == 0 then 1 else t)
  {
    assert (a + [line])[..|a|] == a;
    var n := if t == 0 then 1 else t;
    assert ReadAll(r, a + [line]) == Tally(n, j, map[]);
    var x := (100 * (j - 1)) as real / n as real;
    assert Exact(Tally(n, j, map[])) == x + 0.0 / n as real;
    FloorOfQuotient(100 * (j - 1), n);
    DivideMonotone(0.0, (100 * (j - 1)) as real, n as real);
  }
}
