/** Runs of the Hive polling loop, told from the polls: which tracking url is found, how the loop ends, and which
    lines are passed on when logs do not only grow. */
module HiveRuns {
  import opened Cluster
  import opened HiveProgress
  import opened HivePolling

  // ---------- the tracking url ----------

  predicate MarkerAt(s: string, p: int) {
    0 <= p && p + 15 <= |s| && s[p..p + 15] == "Tracking URL = "
  }

  ghost predicate FirstMarker(s: string, p: int) {
    MarkerAt(s, p) && forall q :: 0 <= q < p ==> !MarkerAt(s, q)
  }

  ghost predicate NoMarker(s: string) {
    forall q :: 0 <= q <= |s| ==> !MarkerAt(s, q)
  }

  lemma MarkerLength()
    ensures MARKER == "Tracking URL = " && |MARKER| == 15
  {
  }

  lemma MarkerShift(s: string, p: nat)
    requires s != ""
    ensures MarkerAt(s, p + 1) <==> MarkerAt(s[1..], p)
  {
    if p + 16 <= |s| {
      assert s[p + 1..p + 16] == s[1..][p..p + 15];
    }
  }

  /** The search finds the first place of the marker, if there is one. */
  lemma {:induction false} FindsFirst(s: string)
    ensures Find(s, MARKER).None? ==> NoMarker(s)
    ensures Find(s, MARKER).Some? ==> FirstMarker(s, Find(s, MARKER).value)
  {
    MarkerLength();
    assert MARKER <= s <==> MarkerAt(s, 0);
    if !(MARKER <= s) && s != "" {
      FindsFirst(s[1..]);
      forall q: int | 0 < q <= |s| ensures MarkerAt(s, q) <==> MarkerAt(s[1..], q - 1) {
        MarkerShift(s, q - 1);
      }
    }
  }

  /** `url` is the text up to the next marker, or all of it. */
  ghost predicate UpToMarker(s: string, url: string) {
    (NoMarker(s) && url == s) || exists q :: FirstMarker(s, q) && url == s[..q]
  }

  /** The first line with the marker. */
  ghost predicate FirstMarked(lines: seq<string>, i: int) {
    0 <= i < |lines| && !NoMarker(lines[i]) && forall j :: 0 <= j < i ==> NoMarker(lines[j])
  }

  lemma AfterMarker(line: string, p: nat, url: string)
    requires FirstMarker(line, p)
    ensures var after := line[p + 15..];
            UpToMarker(after, url)
            <==> url == match Find(after, MARKER) case None => after case Some(q) => after[..q]
  {
    var after := line[p + 15..];
    FindsFirst(after);
    if q :| FirstMarker(after, q) {
      assert Find(after, MARKER) == Some(q);
    }
  }

  /** A tracking url is found exactly when some line has the marker: it is what stands in the first such line after its
      first marker, up to the next one. */
  lemma {:induction false} TrackingUrlIff(lines: seq<string>, url: string)
    ensures TrackingUrl(lines) == Some(url) <==>
              exists i, p :: FirstMarked(lines, i) && FirstMarker(lines[i], p) && UpToMarker(lines[i][p + 15..], url)
    ensures TrackingUrl(lines).None? <==> forall i :: 0 <= i < |lines| ==> NoMarker(lines[i])
  {
    hide FirstMarker, NoMarker, UpToMarker, Find;
    if lines != [] {
      FindsFirst(lines[0]);
      MarkerLength();
      match Find(lines[0], MARKER) {
        case None =>
          TrackingUrlIff(lines[1..], url);
          FirstMarkedShift(lines);
        case Some(p) =>
          FirstMarkerInside(lines[0], p);
          AfterMarker(lines[0], p, url);
          assert FirstMarked(lines, 0);
          forall i, q | FirstMarked(lines, i) && FirstMarker(lines[i], q) ensures i == 0 && q == p {
            FirstIsFirst(lines, i);
            FirstMarkerUnique(lines[0], p, q);
          }
      }
    }
  }

  lemma FirstIsFirst(lines: seq<string>, i: int)
    requires lines != [] && !NoMarker(lines[0]) && FirstMarked(lines, i)
    ensures i == 0
  {
    hide NoMarker;
  }

  lemma FirstMarkerInside(s: string, p: int)
    requires FirstMarker(s, p)
    ensures !NoMarker(s) && 0 <= p && p + 15 <= |s|
  {
  }

  lemma FirstMarkerUnique(s: string, p: int, q: int)
    requires FirstMarker(s, p) && FirstMarker(s, q)
    ensures p == q
  {
  }

  lemma FirstMarkedShift(lines: seq<string>)
    requires lines != [] && NoMarker(lines[0])
    ensures forall i :: FirstMarked(lines, i + 1) <==> FirstMarked(lines[1..], i)
    ensures forall i :: FirstMarked(lines, i) ==> i > 0
  {
    hide NoMarker;
    forall i ensures FirstMarked(lines, i + 1) <==> FirstMarked(lines[1..], i) {
      if FirstMarked(lines, i + 1) {
        assert i + 1 > 0;
        assert forall j :: 0 <= j < i ==> lines[1..][j] == lines[j + 1];
      }
      if FirstMarked(lines[1..], i) {
        forall j | 0 <= j < i + 1 ensures NoMarker(lines[j]) {
          if j > 0 {
            assert lines[1..][j - 1] == lines[j];
          }
        }
      }
    }
  }

  // ---------- how a run ends ----------

  /** The poll shows a tracking url. */
  predicate Shows(p: Poll) {
    p.lines != [] && TrackingUrl(p.lines).Some? && TrackingUrl(p.lines).value != ""
  }

  /** The loop looks at poll `i`: the query is unfinished and not stopped there, and the polls before neither ended
      the loop nor made it crash. */
  ghost predicate Reached(polls: seq<Poll>, i: int) {
    0 <= i <= |polls| && forall j :: 0 <= j < i ==> polls[j].unfinished && !polls[j].stopped && !CrashAt(polls, j)
  }

  /** Poll `j` is the first to show a tracking url. */
  ghost predicate FirstShown(polls: seq<Poll>, j: int) {
    0 <= j < |polls| && Shows(polls[j]) && forall m :: 0 <= m < j ==> !Shows(polls[m])
  }

  /** The first tracking url has no slash, so that there is no job id in it. */
  ghost predicate CrashAt(polls: seq<Poll>, j: int) {
    FirstShown(polls, j) && '/' !in TrackingUrl(polls[j].lines).value
  }

  lemma PrefixShown(polls: seq<Poll>, j: int)
    requires polls != [] && j < |polls| - 1
    ensures FirstShown(polls, j) <==> FirstShown(polls[..|polls| - 1], j)
    ensures CrashAt(polls, j) <==> CrashAt(polls[..|polls| - 1], j)
  {
    hide Shows;
    var init := polls[..|polls| - 1];
    if 0 <= j {
      assert forall m :: 0 <= m <= j ==> init[m] == polls[m];
    }
  }

  lemma PrefixReached(polls: seq<Poll>)
    requires polls != []
    ensures var n := |polls| - 1;
            Reached(polls, n) <==> Reached(polls[..n], n)
    ensures var n := |polls| - 1;
            Reached(polls, n + 1) <==>
              Reached(polls, n) && polls[n].unfinished && !polls[n].stopped && !CrashAt(polls, n)
  {
    hide CrashAt;
    var n := |polls| - 1;
    forall j | 0 <= j < n ensures CrashAt(polls, j) <==> CrashAt(polls[..n], j) {
      PrefixShown(polls, j);
    }
    assert forall j :: 0 <= j < n ==> polls[..n][j] == polls[j];
  }

  /** What a run has found: while it goes on, whether a poll so far showed a tracking url, and the job id of the
      first one shown. */
  ghost predicate HasFound(polls: seq<Poll>, s: Session) {
    && (s.found <==> exists j :: FirstShown(polls, j))
    && (!s.found ==> s.job == "")
    && forall j :: FirstShown(polls, j) ==> JobId(TrackingUrl(polls[j].lines).value) == Some(s.job)
  }

  lemma ShownOrNot(polls: seq<Poll>)
    requires polls != []
    ensures var init, n := polls[..|polls| - 1], |polls| - 1;
            && ((exists j :: FirstShown(polls, j)) <==> (exists j :: FirstShown(init, j)) || Shows(polls[n]))
            && (FirstShown(polls, n) <==> Shows(polls[n]) && !exists j :: FirstShown(init, j))
            && forall j :: FirstShown(polls, j) ==> j == n || FirstShown(init, j)
  {
    hide Shows;
    var init, n := polls[..|polls| - 1], |polls| - 1;
    forall j | j < n ensures FirstShown(polls, j) <==> FirstShown(init, j) {
      PrefixShown(polls, j);
    }
    SomeFirst(init);
    SomeFirst(polls);
    assert forall m :: 0 <= m < n ==> init[m] == polls[m];
    if m :| 0 <= m < n && Shows(polls[m]) {
      assert Shows(init[m]);
    }
  }

  lemma {:induction false} SomeFirst(polls: seq<Poll>)
    ensures (exists j :: FirstShown(polls, j)) <==> exists m :: 0 <= m < |polls| && Shows(polls[m])
  {
    hide Shows;
    if polls != [] {
      var init, n := polls[..|polls| - 1], |polls| - 1;
      SomeFirst(init);
      assert forall m :: 0 <= m < n ==> init[m] == polls[m];
      if j :| FirstShown(init, j) {
        PrefixShown(polls, j);
      } else if Shows(polls[n]) {
        forall m | 0 <= m < n ensures !Shows(polls[m]) {
          assert init[m] == polls[m];
        }
        assert FirstShown(polls, n);
      }
    }
  }

  /** One turn that is taken. */
  lemma TurnTaken(r: Matchers, s: Session, p: Poll)
    requires s.outcome.Polling? && p.unfinished && !p.stopped
    ensures var t := Turn(r, s, p);
            var url := if Shows(p) then TrackingUrl(p.lines).value else "";
            && (t.outcome.Crashed? <==> !s.found && Shows(p) && '/' !in url)
            && (t.outcome.Crashed? || t.outcome.Polling?)
            && (t.outcome.Polling? ==>
                  && (t.found <==> s.found || Shows(p))
                  && (s.found || !Shows(p) ==> t.job == s.job)
                  && (!s.found && Shows(p) ==> JobId(url) == Some(t.job)))
  {
    hide Percent;
    CrashesIffNoSlash(r, s, p);
  }

  /** How far a run gets and what it has found by then. */
  lemma {:induction false} RunLocates(r: Matchers, progress: int, polls: seq<Poll>)
    ensures var s := Turns(r, Begin(progress), polls);
            (s.outcome.Polling? <==> Reached(polls, |polls|)) && (s.outcome.Polling? ==> HasFound(polls, s))
    decreases |polls|
  {
    hide Turn, Shows, CrashAt;
    if polls != [] {
      var init, n := polls[..|polls| - 1], |polls| - 1;
      var s := Turns(r, Begin(progress), init);
      RunLocates(r, progress, init);
      PrefixReached(polls);
      assert init == polls[..n];
      if s.outcome.Polling? {
        RunTurns(r, s, polls);
      } else {
        TurnEnded(r, s, polls[n]);
      }
    }
  }

  lemma TurnEnded(r: Matchers, s: Session, p: Poll)
    requires !s.outcome.Polling?
    ensures Turn(r, s, p) == s
  {
  }

  lemma RunTurns(r: Matchers, s: Session, polls: seq<Poll>)
    requires polls != [] && s.outcome.Polling? && HasFound(polls[..|polls| - 1], s)
    ensures var n := |polls| - 1;
            var t := Turn(r, s, polls[n]);
            && (t.outcome.Polling? <==> polls[n].unfinished && !polls[n].stopped && !CrashAt(polls, n))
            && (t.outcome.Polling? ==> HasFound(polls, t))
            && (!polls[n].unfinished ==> t.outcome.Done?)
            && (polls[n].unfinished && polls[n].stopped ==> t.outcome.Cancelled?)
            && (polls[n].unfinished && !polls[n].stopped && CrashAt(polls, n) ==> t.outcome.Crashed?)
            && (!t.outcome.Polling? ==> t == s.(outcome := t.outcome))
  {
    hide Shows, Percent, TrackingUrl, JobId;
    var init, n := polls[..|polls| - 1], |polls| - 1;
    ShownOrNot(polls);
    forall j | FirstShown(polls, j) && j != n ensures FirstShown(init, j) && init[j] == polls[j] {
    }
    if polls[n].unfinished && !polls[n].stopped {
      TurnTaken(r, s, polls[n]);
    } else {
      TurnLeft(r, s, polls[n]);
    }
  }

  lemma TurnLeft(r: Matchers, s: Session, p: Poll)
    requires s.outcome.Polling? && (!p.unfinished || p.stopped)
    ensures Turn(r, s, p) == s.(outcome := if !p.unfinished then Done else Cancelled)
  {
  }

  /** The run ends at poll `i`. */
  ghost predicate EndsAt(polls: seq<Poll>, i: int) {
    0 <= i < |polls| && Reached(polls, i) && (!polls[i].unfinished || polls[i].stopped || CrashAt(polls, i))
  }

  /** A run that ends does so at the first poll that shows the query finished or stopped, or a tracking url without a
      job id: it is done in the first case, cancelled in the second, crashed in the third, finished coming before
      stopped and stopped before crashed. Whatever else was stored or passed on was so before, and later polls do not
      happen. */
  lemma RunEnds(r: Matchers, progress: int, polls: seq<Poll>, i: int)
    requires EndsAt(polls, i)
    ensures var s, before := Turns(r, Begin(progress), polls), Turns(r, Begin(progress), polls[..i]);
            && before.outcome.Polling?
            && s == before.(outcome := if !polls[i].unfinished then Done
                                       else if polls[i].stopped then Cancelled else Crashed)
  {
    hide Turn, CrashAt;
    var upTo := polls[..i + 1];
    ReachedPrefix(polls, i);
    RunLocates(r, progress, polls[..i]);
    assert upTo[..i] == polls[..i];
    RunTurns(r, Turns(r, Begin(progress), polls[..i]), upTo);
    CrashPrefix(polls, i);
    TurnsEnd(r, Begin(progress), polls, i + 1);
  }

  lemma ReachedPrefix(polls: seq<Poll>, i: int)
    requires 0 <= i <= |polls| && Reached(polls, i)
    ensures Reached(polls[..i], i)
  {
    hide CrashAt;
    forall j | 0 <= j < i ensures !CrashAt(polls[..i], j) {
      CrashIn(polls, i, j);
    }
  }

  lemma CrashIn(polls: seq<Poll>, i: int, j: int)
    requires 0 <= j < i <= |polls|
    ensures CrashAt(polls[..i], j) <==> CrashAt(polls, j)
  {
    hide Shows;
    assert forall m :: 0 <= m <= j ==> polls[..i][m] == polls[m];
  }

  lemma CrashPrefix(polls: seq<Poll>, i: int)
    requires 0 <= i < |polls|
    ensures CrashAt(polls[..i + 1], i) <==> CrashAt(polls, i)
  {
    CrashIn(polls, i + 1, i);
  }

  // ---------- the lines passed on ----------

  /** Poll `i` was read while a job id was known, or made it known. */
  ghost predicate Logged(polls: seq<Poll>, i: int) {
    && 0 <= i < |polls| && Reached(polls, i + 1) && polls[i].lines != []
    && exists j :: 0 <= j <= i && FirstShown(polls, j) && JobId(TrackingUrl(polls[j].lines).value) != Some("")
  }

  /** Line `k` was passed on from poll `i`: the first such poll with so many lines. */
  ghost predicate PassedFrom(polls: seq<Poll>, i: int, k: nat) {
    && Logged(polls, i) && k < |polls[i].lines|
    && forall j :: 0 <= j < i && Logged(polls, j) ==> |polls[j].lines| <= k
  }

  lemma LoggedPrefix(polls: seq<Poll>, i: int)
    requires polls != [] && i < |polls| - 1
    ensures Logged(polls, i) <==> Logged(polls[..|polls| - 1], i)
  {
    hide CrashAt, Shows, JobId, TrackingUrl;
    var n := |polls| - 1;
    if 0 <= i {
      assert polls[..n][i] == polls[i];
      forall j | 0 <= j <= i
        ensures (CrashAt(polls, j) <==> CrashAt(polls[..n], j)) && (FirstShown(polls, j) <==> FirstShown(polls[..n], j))
        ensures polls[..n][j] == polls[j]
      {
        PrefixShown(polls, j);
      }
    }
  }

  lemma LoggedLast(r: Matchers, progress: int, polls: seq<Poll>)
    requires polls != []
    ensures var n := |polls| - 1;
            Logged(polls, n) <==>
              Turns(r, Begin(progress), polls).outcome.Polling? && polls[n].lines != []
              && Turns(r, Begin(progress), polls).job != ""
  {
    hide Turn, CrashAt, Shows, JobId, TrackingUrl, Reached;
    RunLocates(r, progress, polls);
  }

  lemma TurnEmits(r: Matchers, s: Session, p: Poll)
    requires s.lastLine == |s.emitted|
    ensures var t := Turn(r, s, p);
            && t.lastLine == |t.emitted|
            && (if t.outcome.Polling? && p.unfinished && !p.stopped && p.lines != [] && t.job != ""
                   && |p.lines| > |s.emitted|
                then t.emitted == s.emitted + p.lines[|s.emitted|..]
                else t.emitted == s.emitted)
  {
    hide Percent, TrackingUrl, JobId;
  }

  lemma PassedEarlier(polls: seq<Poll>, i: int, k: nat, line: string)
    requires polls != [] && LineFrom(polls[..|polls| - 1], i, k, line)
    ensures LineFrom(polls, i, k, line)
  {
    hide Logged;
    LoggedInside(polls[..|polls| - 1]);
    forall j | j <= i ensures Logged(polls, j) <==> Logged(polls[..|polls| - 1], j) {
      LoggedPrefix(polls, j);
    }
  }

  lemma PassedNow(polls: seq<Poll>, k: nat)
    requires polls != [] && Logged(polls, |polls| - 1) && k < |polls[|polls| - 1].lines|
    requires var init := polls[..|polls| - 1]; forall i :: Logged(init, i) ==> |init[i].lines| <= k
    ensures LineFrom(polls, |polls| - 1, k, polls[|polls| - 1].lines[k])
  {
    hide Logged;
    var n := |polls| - 1;
    LoggedInside(polls[..n]);
    forall j | 0 <= j < n && Logged(polls, j) ensures |polls[j].lines| <= k {
      LoggedPrefix(polls, j);
      assert polls[..n][j] == polls[j];
    }
  }

  ghost predicate LineFrom(polls: seq<Poll>, i: int, k: nat, line: string) {
    PassedFrom(polls, i, k) && polls[i].lines[k] == line
  }

  ghost predicate IsLine(polls: seq<Poll>, k: nat, line: string) {
    exists i :: LineFrom(polls, i, k, line)
  }

  /** The passed lines, in order: line `k` is that of the first log read with a job id that has so many lines; and
      there are as many as the longest such log has. */
  ghost predicate AllPassed(polls: seq<Poll>, emitted: seq<string>) {
    && (forall i :: Logged(polls, i) ==> 0 <= i < |polls| && |polls[i].lines| <= |emitted|)
    && (forall k: nat :: k < |emitted| ==> IsLine(polls, k, emitted[k]))
  }

  lemma PassedKept(polls: seq<Poll>, emitted: seq<string>)
    requires polls != [] && AllPassed(polls[..|polls| - 1], emitted) && !Logged(polls, |polls| - 1)
    ensures AllPassed(polls, emitted)
  {
    hide Logged, LineFrom;
    var init, n := polls[..|polls| - 1], |polls| - 1;
    LoggedInside(polls);
    forall i | Logged(polls, i) ensures 0 <= i < |polls| && |polls[i].lines| <= |emitted| {
      if i < n {
        LoggedPrefix(polls, i);
        assert init[i] == polls[i];
      }
    }
    forall k: nat | k < |emitted| ensures IsLine(polls, k, emitted[k]) {
      var i :| LineFrom(init, i, k, emitted[k]);
      PassedEarlier(polls, i, k, emitted[k]);
    }
  }

  lemma PassedOn(polls: seq<Poll>, emitted: seq<string>)
    requires polls != [] && AllPassed(polls[..|polls| - 1], emitted) && Logged(polls, |polls| - 1)
    ensures var lines := polls[|polls| - 1].lines;
            AllPassed(polls, if |lines| > |emitted| then emitted + lines[|emitted|..] else emitted)
  {
    hide Logged, LineFrom;
    var init, n := polls[..|polls| - 1], |polls| - 1;
    var lines := polls[n].lines;
    var all := if |lines| > |emitted| then emitted + lines[|emitted|..] else emitted;
    LoggedInside(polls);
    forall i | Logged(polls, i) ensures 0 <= i < |polls| && |polls[i].lines| <= |all| {
      if i < n {
        LoggedPrefix(polls, i);
        assert init[i] == polls[i];
      }
    }
    forall k: nat | k < |all| ensures IsLine(polls, k, all[k]) {
      if k < |emitted| {
        var i :| LineFrom(init, i, k, emitted[k]);
        PassedEarlier(polls, i, k, emitted[k]);
        assert all[k] == emitted[k];
      } else {
        PassedNow(polls, k);
        assert all[k] == lines[k];
      }
    }
  }

  /** Whatever logs are fetched, growing or not: the lines passed on are, for each line number that some log read
      with a job id reaches, that line of the first such log, once, and in order. */
  lemma {:induction false} EmittedLines(r: Matchers, progress: int, polls: seq<Poll>)
    ensures var s := Turns(r, Begin(progress), polls);
            s.lastLine == |s.emitted| && AllPassed(polls, s.emitted)
    decreases |polls|
  {
    hide Turn, Logged, AllPassed, Reached;
    if polls == [] {
      NothingPassed();
    } else {
      var init, n := polls[..|polls| - 1], |polls| - 1;
      var s := Turns(r, Begin(progress), init);
      EmittedLines(r, progress, init);
      assert init == polls[..n];
      TurnEmits(r, s, polls[n]);
      LoggedLast(r, progress, polls);
      RunLocates(r, progress, polls);
      if Logged(polls, n) {
        LastReached(polls);
        PassedOn(polls, s.emitted);
      } else {
        PassedKept(polls, s.emitted);
      }
    }
  }

  lemma LastReached(polls: seq<Poll>)
    requires polls != [] && Reached(polls, |polls|)
    ensures polls[|polls| - 1].unfinished && !polls[|polls| - 1].stopped
  {
    hide CrashAt;
  }

  lemma LoggedInside(polls: seq<Poll>)
    ensures forall i :: Logged(polls, i) ==> 0 <= i < |polls|
  {
  }

  lemma NothingPassed()
    ensures AllPassed([], [])
  {
  }
}
