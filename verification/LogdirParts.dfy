/** The parts of a Tensorboard log directory: what is cut from each, which file of which volume is looked for, and which
    error is reported. */
module LogdirParts {
  import opened Strings
  import opened TensorboardLogdir

  // ---------- what is cut ----------

  predicate AllDigits(d: string) {
    d != "" && forall i :: 0 <= i < |d| ==> '0' <= d[i] <= '9'
  }

  /** The text is a label: "Series", a numeral, a colon. */
  predicate IsLabel(t: string, d: string) {
    t == "Series" + d + ":" && AllDigits(d)
  }

  /** A match at the start of a text is exactly a label there. */
  lemma MatchIsLabel(s: string, n: nat)
    requires n > 0
    ensures MatchLen(s) == n <==> n <= |s| && exists d :: IsLabel(s[..n], d)
  {
    if MatchLen(s) == n {
      var d := s[6..n - 1];
      assert SERIES == "Series" && s[..6] == "Series";
      assert s[..n] == s[..6] + d + [s[n - 1]];
      assert forall i :: 0 <= i < |d| ==> d[i] == s[6..][i];
      assert IsLabel(s[..n], d);
    }
    if n <= |s| {
      if d :| IsLabel(s[..n], d) {
        LabelMatches(s, n, d);
      }
    }
  }

  lemma LabelMatches(s: string, n: nat, d: string)
    requires n <= |s| && IsLabel(s[..n], d)
    ensures MatchLen(s) == n
  {
    var rest := s[n..];
    assert s == s[..n] + rest;
    assert s == "Series" + (d + (":" + rest));
    assert s[..6] == "Series" && SERIES == "Series";
    assert s[6..] == d + (":" + rest);
    DigitsOf(d, ":" + rest);
    assert s[6 + |d|] == ':';
  }

  /** One pass from the left: up to the first label everything is kept, the label is cut, and the rest is treated
      alike. */
  lemma {:induction false} StripFirst(s: string, i: nat, n: nat)
    requires i <= |s| && n > 0 && MatchLen(s[i..]) == n && forall j :: 0 <= j < i ==> MatchLen(s[j..]) == 0
    ensures i + n <= |s| && Strip(s) == s[..i] + Strip(s[i + n..])
    decreases i
  {
    hide MatchLen, Strip;
    assert s[0..] == s;
    MatchInside(s[i..]);
    StripStep(s);
    if i == 0 {
      assert s[..0] == "";
    } else {
      assert MatchLen(s[0..]) == 0;
      var t := s[1..];
      forall j | 0 <= j < i - 1 ensures MatchLen(t[j..]) == 0 {
        assert t[j..] == s[j + 1..];
      }
      assert t[i - 1..] == s[i..];
      StripFirst(t, i - 1, n);
      assert t[i - 1 + n..] == s[i + n..];
      assert [s[0]] + t[..i - 1] == s[..i];
    }
  }

  lemma MatchInside(s: string)
    ensures MatchLen(s) <= |s|
  {
  }

  lemma StripStep(s: string)
    ensures s != "" ==> Strip(s) == if MatchLen(s) > 0 then Strip(s[MatchLen(s)..]) else [s[0]] + Strip(s[1..])
  {
  }

  /** The label printed before the url at index `i`. */
  lemma LabelText(i: nat)
    ensures Label(i) == "Series" + Decimal(i + 1) + ":"
  {
  }

  // ---------- volumes ----------

  /** The part of a log directory that names a file on a volume: the text behind "volume://", up to the first slash,
      is the bucket, and what follows that slash, further slashes included, the key. */
  lemma VolumePart(find: Finder, bucket: string, key: string)
    requires '/' !in bucket && MatchFree("volume://" + bucket + "/" + key)
    ensures Resolve(find, "volume://" + bucket + "/" + key) == find(bucket, key)
  {
    var part := "volume://" + bucket + "/" + key;
    assert VOLUME == "volume://" && |VOLUME| == 9;
    assert part[..9] == VOLUME && part[9..] == bucket + ['/'] + key;
    hide Split, Join, Strip, MatchFree;
    StripFixesMatchFree(part);
    SplitPiece(bucket, key, '/');
    var pieces := Split(part[9..], '/');
    assert pieces[0] == bucket && pieces[1..] == Split(key, '/');
    JoinSplit(key, '/');
  }

  /** Without a slash the key is empty. */
  lemma VolumeWithoutKey(find: Finder, bucket: string)
    requires '/' !in bucket && MatchFree("volume://" + bucket)
    ensures Resolve(find, "volume://" + bucket) == find(bucket, "")
  {
    var part := "volume://" + bucket;
    StripFixesMatchFree(part);
    assert VOLUME == "volume://" && part[9..] == bucket;
    SplitPiece(bucket, "", '/');
    assert [bucket][1..] == [];
  }

  lemma {:induction false} JoinSplit(s: string, c: char)
    ensures Join(Split(s, c), c) == s
  {
    if s != "" {
      var rest := Split(s[1..], c);
      JoinSplit(s[1..], c);
      assert s == [s[0]] + s[1..];
      var parts := Split(s, c);
      if s[0] == c {
        assert parts[1..] == rest;
      } else if |rest| > 1 {
        assert parts[1..] == rest[1..];
      }
    }
  }

  /** Every other part is taken as it is, cut. */
  lemma PlainPart(find: Finder, part: string)
    requires !("volume://" <= Strip(part))
    ensures Resolve(find, part) == Ok(Strip(part))
  {
  }

  // ---------- all parts ----------

  /** A log directory of one part, on a volume. */
  lemma VolumeParsed(find: Finder, bucket: string, key: string)
    requires '/' !in bucket && ',' !in bucket && ',' !in key && MatchFree("volume://" + bucket + "/" + key)
    ensures Parse(find, "volume://" + bucket + "/" + key) == find(bucket, key)
  {
    var part := "volume://" + bucket + "/" + key;
    VolumePart(find, bucket, key);
    SplitPiece(part, "", ',');
    assert Split(part, ',') == [part] && [part][1..] == [] && ResolveAll(find, []) == Ok([]);
    if find(bucket, key).Ok? {
      var url := find(bucket, key).value;
      assert [url] + [] == [url];
      assert ResolveAll(find, [part]) == Ok([url]);
      assert Print([url]) == url;
    }
  }

  /** Part `i` is the first to fail, with error `e`. */
  ghost predicate FailsFirst(find: Finder, parts: seq<string>, i: int, e: string) {
    && 0 <= i < |parts| && Resolve(find, parts[i]) == Err(e)
    && forall j :: 0 <= j < i ==> Resolve(find, parts[j]).Ok?
  }

  /** The error of the first part that has one, and none when no part has. */
  lemma {:induction false} FirstError(find: Finder, parts: seq<string>)
    ensures ResolveAll(find, parts).Ok? <==> forall i :: 0 <= i < |parts| ==> Resolve(find, parts[i]).Ok?
    ensures ResolveAll(find, parts).Ok? ==>
              && |ResolveAll(find, parts).value| == |parts|
              && forall i :: 0 <= i < |parts| ==> Resolve(find, parts[i]) == Ok(ResolveAll(find, parts).value[i])
    ensures ResolveAll(find, parts).Err? ==>
              exists i :: FailsFirst(find, parts, i, ResolveAll(find, parts).error)
  {
    hide Resolve;
    if parts != [] {
      var rest := parts[1..];
      FirstError(find, rest);
      assert parts == [parts[0]] + rest;
      if Resolve(find, parts[0]).Err? {
        assert FailsFirst(find, parts, 0, ResolveAll(find, parts).error);
      } else if ResolveAll(find, rest).Err? {
        var i :| FailsFirst(find, rest, i, ResolveAll(find, rest).error);
        forall j | 0 <= j < i + 1 ensures Resolve(find, parts[j]).Ok? {
          if j > 0 {
            assert parts[j] == rest[j - 1];
          }
        }
        assert FailsFirst(find, parts, i + 1, ResolveAll(find, parts).error);
      }
    }
  }

  /** Parsing fails exactly when some part does, with the error of the first that does; otherwise it prints what the
      parts resolve to, in order. */
  lemma ParseOutcome(find: Finder, logdir: string)
    ensures Parse(find, logdir).Err? ==>
              exists i :: FailsFirst(find, Split(logdir, ','), i, Parse(find, logdir).error)
    ensures Parse(find, logdir).Ok? ==>
              exists urls :: Resolved(find, Split(logdir, ','), urls) && Parse(find, logdir).value == Print(urls)
  {
    var parts := Split(logdir, ',');
    hide Resolve, Print, Split, ResolveAll;
    FirstError(find, parts);
    var all := ResolveAll(find, parts);
    if all.Ok? {
      assert Resolved(find, parts, all.value);
    } else {
      var i :| FailsFirst(find, parts, i, all.error);
    }
  }

  /** What the parts resolve to, one by one. */
  ghost predicate Resolved(find: Finder, parts: seq<string>, urls: seq<string>) {
    |urls| == |parts| && forall i :: 0 <= i < |parts| ==> Resolve(find, parts[i]) == Ok(urls[i])
  }
}
