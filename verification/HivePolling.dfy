/** The polling loop over a Hive query: what it stores and which log lines it passes on, over every run. */
module HivePolling {
  import opened Cluster
  import opened Strings
  import opened HiveProgress

  const MARKER := "Tracking URL = "

  // ---------- the tracking url ----------

  /** The first position of a pattern, if any. */
  function Find(s: string, pat: string): (p: Option<nat>)
    ensures p.Some? ==> p.value + |pat| <= |s| && s[p.value..p.value + |pat|] == pat
  {
    if pat <= s then Some(0)
    else if s == "" then None
    else match Find(s[1..], pat) case None => None case Some(n) => Some(n + 1)
  }

  /** `get_tracking_url`: in the first line with the marker, the text between it and its next occurrence. */
  function TrackingUrl(lines: seq<string>): Option<string> {
    if lines == [] then None
    else
      match Find(lines[0], MARKER)
      case None => TrackingUrl(lines[1..])
      case Some(p) =>
        var after := lines[0][p + |MARKER|..];
        match Find(after, MARKER) case None => Some(after) case Some(q) => Some(after[..q])
  }

  /** `url.split("/")[-2]`; `None` is the IndexError. */
  function JobId(url: string): Option<string> {
    var parts := Split(url, '/');
    if |parts| < 2 then None else Some(parts[|parts| - 2])
  }

  // ---------- one poll ----------

  /** What one turn of the loop meets: the state polled, whether the query was stopped, and the fetched log, empty also
      when the fetch failed. */
  datatype Poll = Poll(unfinished: bool, stopped: bool, lines: seq<string>)

  datatype Outcome = Polling | Done | Cancelled | Crashed

  /** `stored` is the committed progress; `found` says that a tracking url was set; `job` is "" before it is known. */
  datatype Session = Session(stored: int, found: bool, job: string, lastLine: nat, emitted: seq<string>,
                             outcome: Outcome)

  function Begin(progress: int): Session {
    Session(progress, false, "", 0, [], Polling)
  }

  /** The job id the loop has after looking for a tracking url; `None` when the look-up crashes. */
  ghost function Located(s: Session, lines: seq<string>): Option<(bool, string)> {
    if s.found then Some((true, s.job))
    else
      match TrackingUrl(lines)
      case None => Some((false, s.job))
      case Some(url) =>
        if url == "" then Some((false, s.job))
        else match JobId(url) case None => None case Some(id) => Some((true, id))
  }

  function Larger(a: int, b: int): int {
    if b > a then b else a
  }

  ghost function Turn(r: Matchers, s: Session, p: Poll): Session {
    if !s.outcome.Polling? then s
    else if !p.unfinished then s.(outcome := Done)
    else if p.stopped then s.(outcome := Cancelled)
    else if p.lines == [] then s
    else
      match Located(s, p.lines)
      case None => s.(outcome := Crashed)
      case Some(l) =>
        var t := s.(stored := Larger(s.stored, Percent(r, p.lines)), found := l.0, job := l.1);
        if l.1 != "" && |p.lines| > s.lastLine then
          t.(emitted := s.emitted + p.lines[s.lastLine..], lastLine := |p.lines|)
        else t
  }

  ghost function Turns(r: Matchers, s: Session, polls: seq<Poll>): Session
  {
    if polls == [] then s else Turn(r, Turns(r, s, polls[..|polls| - 1]), polls[|polls| - 1])
  }

  /** `get_tracking_url`. */
  method GetTrackingUrl(lines: seq<string>) returns (url: Option<string>)
    ensures url == TrackingUrl(lines)
  {
    for i := 0 to |lines|
      invariant TrackingUrl(lines) == TrackingUrl(lines[i..])
    {
      assert lines[i..][1..] == lines[i + 1..];
      var p := Find(lines[i], MARKER);
      if p.Some? {
        var after := lines[i][p.value + |MARKER|..];
        var q := Find(after, MARKER);
        return Some(if q.Some? then after[..q.value] else after);
      }
    }
    return None;
  }

  /** The look-up of the job id in one turn. */
  method LocateJob(s: Session, lines: seq<string>) returns (crashed: bool, found: bool, job: string)
    ensures Located(s, lines) == if crashed then None else Some((found, job))
  {
    crashed, found, job := false, s.found, s.job;
    if !found {
      var url := GetTrackingUrl(lines);
      if url.Some? && url.value != "" {
        var id := JobId(url.value);
        if id.None? {
          return true, false, "";
        }
        return false, true, id.value;
      }
    }
  }

  /** The loop that passes lines on. */
  method EmitFrom(lines: seq<string>, lastLine: nat, emitted: seq<string>) returns (all: seq<string>)
    requires lastLine <= |lines|
    ensures all == emitted + lines[lastLine..]
  {
    all := emitted;
    for n := lastLine to |lines|
      invariant all == emitted + lines[lastLine..n]
    {
      all := all + [lines[n]];
    }
  }

  /** One turn of the loop of `handle_cursor`. */
  method PollOnce(r: Matchers, s: Session, p: Poll) returns (t: Session)
    requires s.outcome.Polling?
    ensures t == Turn(r, s, p)
  {
    hide Percent, Located;
    if !p.unfinished {
      return s.(outcome := Done);
    }
    if p.stopped {
      return s.(outcome := Cancelled);
    }
    t := s;
    if p.lines != [] {
      var percent := Progress(r, p.lines);
      if percent > t.stored {
        t := t.(stored := percent);
      }
      var crashed, found, job := LocateJob(s, p.lines);
      if crashed {
        return s.(outcome := Crashed);
      }
      t := t.(found := found, job := job);
      if t.job != "" && |p.lines| > t.lastLine {
        var all := EmitFrom(p.lines, t.lastLine, t.emitted);
        t := t.(emitted := all, lastLine := |p.lines|);
      }
    }
  }

  /** `handle_cursor`, on the polls made so far. */
  method HandleCursor(r: Matchers, polls: seq<Poll>, progress: int) returns (s: Session)
    ensures s == Turns(r, Begin(progress), polls)
  {
    hide Turn;
    s := Begin(progress);
    var i := 0;
    while i < |polls| && s.outcome.Polling?
      invariant i <= |polls|
      invariant s == Turns(r, Begin(progress), polls[..i])
    {
      assert polls[..i + 1][..i] == polls[..i];
      s := PollOnce(r, s, polls[i]);
      i := i + 1;
    }
    if s.outcome.Polling? {
      assert polls[..i] == polls;
    } else {
      TurnsEnd(r, Begin(progress), polls, i);
    }
  }

  /** Once the loop is left, later polls do not happen. */
  lemma {:induction false} TurnsEnd(r: Matchers, s: Session, polls: seq<Poll>, i: nat)
    requires i <= |polls| && !Turns(r, s, polls[..i]).outcome.Polling?
    ensures Turns(r, s, polls) == Turns(r, s, polls[..i])
    decreases |polls|
  {
    hide Percent, Located;
    if i < |polls| {
      assert polls[..|polls| - 1][..i] == polls[..i];
      TurnsEnd(r, s, polls[..|polls| - 1], i);
    } else {
      assert polls[..i] == polls;
    }
  }

  // ---------- stored progress ----------

  /** Poll `i` was turned into a percentage that the loop went on to commit. */
  ghost predicate Computed(r: Matchers, s: Session, polls: seq<Poll>, i: nat) {
    && i < |polls| && polls[i].unfinished && !polls[i].stopped && polls[i].lines != []
    && Turns(r, s, polls[..i]).outcome.Polling? && Turns(r, s, polls[..i + 1]).outcome.Polling?
  }

  lemma ComputedPrefix(r: Matchers, s: Session, polls: seq<Poll>, i: nat)
    requires i + 1 < |polls|
    ensures Computed(r, s, polls[..|polls| - 1], i) <==> Computed(r, s, polls, i)
  {
    assert polls[..|polls| - 1][..i] == polls[..i] && polls[..|polls| - 1][..i + 1] == polls[..i + 1];
  }

  /** The committed progress is the largest of its start and all percentages computed so far: it never falls, although
      single percentages may. A crash on a tracking url without a '/' loses the percentage of its own poll. */
  lemma {:induction false} StoredIsMaximum(r: Matchers, s: Session, polls: seq<Poll>)
    ensures var p := Turns(r, s, polls).stored;
            && p >= s.stored
            && (forall i :: 0 <= i < |polls| && Computed(r, s, polls, i) ==> p >= Percent(r, polls[i].lines))
            && (|| p == s.stored
                || exists i :: 0 <= i < |polls| && Computed(r, s, polls, i) && p == Percent(r, polls[i].lines))
    decreases |polls|
  {
    hide Percent, Located, Turn, Begin;
    if polls != [] {
      var init, n := polls[..|polls| - 1], |polls| - 1;
      var before, after := Turns(r, s, init), Turns(r, s, polls);
      StoredIsMaximum(r, s, init);
      forall i: nat | i < n ensures Computed(r, s, init, i) <==> Computed(r, s, polls, i) {
        ComputedPrefix(r, s, polls, i);
      }
      assert polls[..n] == init && polls[..n + 1] == polls;
      StoredStep(r, before, polls[n]);
      if after.stored == before.stored {
        if after.stored != s.stored {
          var i :| 0 <= i < |init| && Computed(r, s, init, i) && before.stored == Percent(r, init[i].lines);
          assert Computed(r, s, polls, i) && polls[i] == init[i];
        }
      } else {
        assert Computed(r, s, polls, n);
      }
    }
  }

  lemma StoredStep(r: Matchers, s: Session, p: Poll)
    ensures var t := Turn(r, s, p);
            && t.stored >= s.stored
            && (s.outcome.Polling? && p.unfinished && !p.stopped && p.lines != [] && t.outcome.Polling? ==>
                  t.stored == Larger(s.stored, Percent(r, p.lines)))
            && (t.stored != s.stored ==>
                  s.outcome.Polling? && p.unfinished && !p.stopped && p.lines != [] && t.outcome.Polling?)
  {
  }

  // ---------- emitted lines ----------

  /** Every log fetched extends every log fetched before it. */
  ghost predicate Growing(polls: seq<Poll>) {
    forall i, j :: 0 <= i < j < |polls| && polls[i].lines != [] && polls[j].lines != [] ==>
      polls[i].lines <= polls[j].lines
  }

  /** The log that the loop looked at last, [] before the first. */
  ghost function Observed(r: Matchers, s: Session, polls: seq<Poll>): seq<string> {
    if polls == [] then []
    else
      var n := |polls| - 1;
      if Computed(r, s, polls, n) then polls[n].lines else Observed(r, s, polls[..n])
  }

  lemma {:induction false} ObservedIsFetched(r: Matchers, s: Session, polls: seq<Poll>)
    ensures var o := Observed(r, s, polls); o == [] || exists i :: 0 <= i < |polls| && polls[i].lines == o
  {
    if polls != [] {
      var n := |polls| - 1;
      ObservedIsFetched(r, s, polls[..n]);
      var o := Observed(r, s, polls);
      if !Computed(r, s, polls, n) && o != [] {
        var i :| 0 <= i < |polls[..n]| && polls[..n][i].lines == o;
        assert polls[i].lines == o;
      } else if o != [] {
        assert polls[n].lines == o;
      }
    }
  }

  lemma ObservedGrows(r: Matchers, s: Session, polls: seq<Poll>)
    requires polls != [] && Growing(polls) && polls[|polls| - 1].lines != []
    ensures Observed(r, s, polls[..|polls| - 1]) <= polls[|polls| - 1].lines
  {
    var n := |polls| - 1;
    var o := Observed(r, s, polls[..n]);
    ObservedIsFetched(r, s, polls[..n]);
    if o != [] {
      var i :| 0 <= i < |polls[..n]| && polls[..n][i].lines == o;
      assert polls[i].lines == o;
    }
  }

  lemma EmitStep(r: Matchers, s: Session, p: Poll, observed: seq<string>)
    requires s.lastLine == |s.emitted| && (if s.job == "" then s.emitted == [] else s.found && s.emitted == observed)
    requires p.lines != [] ==> observed <= p.lines
    ensures var t := Turn(r, s, p);
            var looked := s.outcome.Polling? && p.unfinished && !p.stopped && p.lines != [] && t.outcome.Polling?;
            var now := if looked then p.lines else observed;
            t.lastLine == |t.emitted| && (if t.job == "" then t.emitted == [] else t.found && t.emitted == now)
  {
    hide Percent, TrackingUrl, JobId;
    if s.outcome.Polling? && p.unfinished && !p.stopped && p.lines != [] && Located(s, p.lines).Some? {
      assert s.emitted == observed && |observed| < |p.lines| ==> s.emitted + p.lines[s.lastLine..] == p.lines;
      assert |observed| == |p.lines| ==> observed == p.lines;
      assert [] + p.lines[0..] == p.lines;
    }
  }

  /** Over any run whose log grows line by line, through failed fetches: before a job id is known nothing is passed on;
      from then on the lines passed on are exactly the log as last observed, each line once and in order. */
  lemma {:induction false} EmittedIsObserved(r: Matchers, progress: int, polls: seq<Poll>)
    requires Growing(polls)
    ensures var s := Turns(r, Begin(progress), polls);
            && s.lastLine == |s.emitted|
            && (if s.job == "" then s.emitted == [] else s.found && s.emitted == Observed(r, Begin(progress), polls))
    decreases |polls|
  {
    hide Turn;
    if polls != [] {
      var init, n := polls[..|polls| - 1], |polls| - 1;
      EmittedIsObserved(r, progress, init);
      if polls[n].lines != [] {
        ObservedGrows(r, Begin(progress), polls);
      }
      EmitStep(r, Turns(r, Begin(progress), init), polls[n], Observed(r, Begin(progress), init));
      assert polls[..n] == init && polls[..n + 1] == polls;
    }
  }

  // ---------- the job id ----------

  /** The loop crashes exactly on a tracking url, looked at before one was set, that has no '/'. */
  lemma CrashesIffNoSlash(r: Matchers, s: Session, p: Poll)
    requires s.outcome.Polling?
    ensures Turn(r, s, p).outcome.Crashed? <==>
              var url := TrackingUrl(p.lines);
              p.unfinished && !p.stopped && !s.found && url.Some? && url.value != "" && '/' !in url.value
  {
    hide Percent;
    var url := TrackingUrl(p.lines);
    if url.Some? {
      OnePartIffAbsent(url.value, '/');
    }
  }

  lemma {:induction false} OnePartIffAbsent(s: string, c: char)
    ensures |Split(s, c)| == 1 <==> c !in s
  {
    if s != "" {
      OnePartIffAbsent(s[1..], c);
      assert s == [s[0]] + s[1..];
    }
  }

  /** The url is `a`, then `id`, a slash and `b`, where `id` runs from the start or a slash to the last slash. */
  predicate JobParts(url: string, a: string, id: string, b: string) {
    && url == a + id + "/" + b && '/' !in id && '/' !in b
    && (a == "" || a[|a| - 1] == '/')
  }

  lemma {:induction false} JobIdAt(url: string, a: string, id: string, b: string)
    requires JobParts(url, a, id, b)
    ensures JobId(url) == Some(id) && (a != "" ==> |Split(url, '/')| >= 3)
    decreases |a|
  {
    if a == "" {
      assert url == id + ['/'] + b;
      SplitPiece(id, b, '/');
      OnePartIffAbsent(b, '/');
    } else {
      assert url[0] == a[0] && url[1..] == a[1..] + id + "/" + b;
      JobIdAt(url[1..], a[1..], id, b);
    }
  }

  lemma {:induction false} SlashParts(url: string) returns (a: string, id: string, b: string)
    requires '/' in url
    ensures JobParts(url, a, id, b)
  {
    if '/' !in url[1..] {
      a, id, b := "", "", url[1..];
      assert url == [url[0]] + url[1..];
    } else {
      a, id, b := SlashParts(url[1..]);
      assert url == [url[0]] + (a + id + "/" + b);
      if a == "" && url[0] != '/' {
        id := [url[0]] + id;
      } else {
        a := [url[0]] + a;
      }
    }
  }

  /** The job id is what stands before the last slash, from the slash before that or from the start. */
  lemma JobIdIff(url: string, id: string)
    ensures JobId(url) == Some(id) <==> exists a, b :: JobParts(url, a, id, b)
  {
    if a, b :| JobParts(url, a, id, b) {
      JobIdAt(url, a, id, b);
    }
    if JobId(url) == Some(id) {
      OnePartIffAbsent(url, '/');
      var a, i, b := SlashParts(url);
      JobIdAt(url, a, i, b);
    }
  }

  /** The last slash of the url is its first character or follows another slash. */
  predicate NamesNoJob(url: string) {
    exists i :: 0 <= i < |url| && LastSlashAt(url, i) && (i == 0 || url[i - 1] == '/')
  }

  predicate LastSlashAt(url: string, i: nat)
    requires i < |url|
  {
    url[i] == '/' && '/' !in url[i + 1..]
  }

  lemma NamesNoJobIff(url: string)
    ensures JobId(url) == Some("") <==> NamesNoJob(url)
  {
    JobIdIff(url, "");
    if a, b :| JobParts(url, a, "", b) {
      assert url[|a|] == '/' && url[|a| + 1..] == b;
      assert LastSlashAt(url, |a|);
    }
    if i :| 0 <= i < |url| && LastSlashAt(url, i) && (i == 0 || url[i - 1] == '/') {
      assert url == url[..i] + "" + "/" + url[i + 1..];
      assert JobParts(url, url[..i], "", url[i + 1..]);
    }
  }

  /** Every url that ends in two slashes is of this kind. */
  lemma TwoSlashesNameNoJob(u: string)
    ensures NamesNoJob(u + "//")
  {
    var url := u + "//";
    assert url[|u| + 2..] == "";
    assert LastSlashAt(url, |u| + 1);
  }

  /** A turn leaves the loop with a tracking url but an empty job id exactly when it had so before, or found, as the
      first tracking url, one that names no job. */
  lemma EmptyJobIdIff(r: Matchers, s: Session, p: Poll)
    requires s.outcome.Polling? && (s.job != "" ==> s.found)
    ensures var t := Turn(r, s, p);
            t.found && t.job == "" <==>
              || (s.found && s.job == "")
              || (&& p.unfinished && !p.stopped && !s.found && TrackingUrl(p.lines).Some?
                  && TrackingUrl(p.lines).value != ""
                  && NamesNoJob(TrackingUrl(p.lines).value))
  {
    hide Percent, JobId, NamesNoJob;
    if TrackingUrl(p.lines).Some? {
      NamesNoJobIff(TrackingUrl(p.lines).value);
    }
  }

  /** From then on nothing is ever passed on, however many polls follow. */
  lemma {:induction false} EmptyJobIdNeverEmits(r: Matchers, s: Session, polls: seq<Poll>)
    requires s.found && s.job == ""
    ensures Turns(r, s, polls).emitted == s.emitted && Turns(r, s, polls).found && Turns(r, s, polls).job == ""
    decreases |polls|
  {
    hide Percent;
    if polls != [] {
      EmptyJobIdNeverEmits(r, s, polls[..|polls| - 1]);
    }
  }

  /** A run that meets such a url before any other passes no line on, ever. */
  lemma EmptyJobIdRun(r: Matchers, progress: int, before: seq<Poll>, p: Poll, after: seq<Poll>)
    requires var s := Turns(r, Begin(progress), before);
             && s.outcome.Polling? && !s.found && p.unfinished && !p.stopped
             && TrackingUrl(p.lines).Some? && TrackingUrl(p.lines).value != ""
             && NamesNoJob(TrackingUrl(p.lines).value)
    ensures Turns(r, Begin(progress), before + [p] + after).emitted == []
  {
    hide Percent, JobId, NamesNoJob;
    var s := Turns(r, Begin(progress), before);
    JobMeansFound(r, progress, before);
    assert (before + [p])[..|before|] == before;
    EmptyJobIdIff(r, s, p);
    var t := Turns(r, Begin(progress), before + [p]);
    EmptyJobIdNeverEmits(r, t, after);
    TurnsSplit(r, Begin(progress), before + [p], after);
  }

  /** Until a tracking url is found there is no job id and nothing was passed on. */
  lemma {:induction false} JobMeansFound(r: Matchers, progress: int, polls: seq<Poll>)
    ensures var s := Turns(r, Begin(progress), polls); (s.job != "" ==> s.found) && (s.emitted != [] ==> s.found)
    decreases |polls|
  {
    hide Percent, JobId;
    if polls != [] {
      JobMeansFound(r, progress, polls[..|polls| - 1]);
    }
  }

  lemma {:induction false} TurnsSplit(r: Matchers, s: Session, xs: seq<Poll>, ys: seq<Poll>)
    ensures Turns(r, s, xs + ys) == Turns(r, Turns(r, s, xs), ys)
    decreases |ys|
  {
    hide Turn;
    if ys == [] {
      assert xs + ys == xs;
    } else {
      assert (xs + ys)[..|xs + ys| - 1] == xs + ys[..|ys| - 1];
      TurnsSplit(r, s, xs, ys[..|ys| - 1]);
    }
  }
}
