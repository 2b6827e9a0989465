/** The Tensorboard log directory: parsing, printing, and when one undoes the other. */
module TensorboardLogdir {
  import opened Strings

  datatype Result<+T> = Ok(value: T) | Err(error: string)

  /** `findFileOnPodVolume` for the given pod: a bucket and a key to a local path, or an error. */
  type Finder = (string, string) -> Result<string>

  const VOLUME := "volume://"
  const SERIES := "Series"

  function Digits(s: string): (n: nat)
    ensures n <= |s| && forall i :: 0 <= i < n ==> IsDigit(s[i])
    ensures n < |s| ==> !IsDigit(s[n])
  {
    if s == "" || !IsDigit(s[0]) then 0 else 1 + Digits(s[1..])
  }

  /** The length of the match of `Series\d+:` at the start of the text, 0 when there is none. */
  function MatchLen(s: string): (n: nat)
    ensures n <= |s|
    ensures n > 0 ==> n >= 8
  {
    if !StartsWith(s, SERIES) then 0
    else
      var d := Digits(s[6..]);
      if d > 0 && 6 + d < |s| && s[6 + d] == ':' then 7 + d else 0
  }

  /** `replace(/Series\d+:/g, '')`: one pass from the left. */
  function Strip(s: string): string
    decreases |s|
  {
    if s == "" then ""
    else if MatchLen(s) > 0 then Strip(s[MatchLen(s)..])
    else [s[0]] + Strip(s[1..])
  }

  /** No match anywhere. */
  ghost predicate MatchFree(s: string) {
    forall i :: 0 <= i <= |s| ==> MatchLen(s[i..]) == 0
  }

  /** Stripping never lengthens, and leaves a text alone exactly when it has no match. */
  lemma {:induction false} StripFixesMatchFree(s: string)
    ensures |Strip(s)| <= |s|
    ensures |Strip(s)| == |s| <==> MatchFree(s)
    ensures MatchFree(s) ==> Strip(s) == s
    decreases |s|
  {
    if s != "" {
      assert s[0..] == s;
      if MatchLen(s) > 0 {
        StripFixesMatchFree(s[MatchLen(s)..]);
      } else {
        StripFixesMatchFree(s[1..]);
        if MatchFree(s[1..]) {
          forall i | 0 <= i <= |s| ensures MatchLen(s[i..]) == 0 {
            if i > 0 {
              assert s[i..] == s[1..][i - 1..];
            }
          }
        }
        if MatchFree(s) {
          forall i | 0 <= i <= |s[1..]| ensures MatchLen(s[1..][i..]) == 0 {
            assert s[1..][i..] == s[i + 1..];
          }
        }
      }
    }
  }

  lemma {:induction false} StripKeepsChars(s: string, c: char)
    requires c !in s
    ensures c !in Strip(s)
    decreases |s|
  {
    if s != "" {
      if MatchLen(s) > 0 {
        StripKeepsChars(s[MatchLen(s)..], c);
      } else {
        StripKeepsChars(s[1..], c);
      }
    }
  }

  // ---------- one part ----------

  predicate IsVolume(s: string) {
    StartsWith(s, VOLUME)
  }

  /** What one comma-separated part is turned into. */
  function Resolve(find: Finder, part: string): Result<string> {
    var path := Strip(part);
    if !IsVolume(path) then Ok(path)
    else
      var pieces := Split(path[|VOLUME|..], '/');
      find(pieces[0], Join(pieces[1..], '/'))
  }

  /** All parts, up to the first error. */
  function ResolveAll(find: Finder, parts: seq<string>): Result<seq<string>>
  {
    if parts == [] then Ok([])
    else
      match Resolve(find, parts[0])
      case Err(e) => Err(e)
      case Ok(url) =>
        match ResolveAll(find, parts[1..])
        case Err(e) => Err(e)
        case Ok(urls) => Ok([url] + urls)
  }

  function Label(i: nat): string {
    SERIES + Decimal(i + 1) + ":"
  }

  function Labelled(urls: seq<string>): seq<string> {
    seq(|urls|, i requires 0 <= i < |urls| => Label(i) + urls[i])
  }

  function Print(urls: seq<string>): string {
    if |urls| == 1 then urls[0] else Join(Labelled(urls), ',')
  }

  /** `parseTensorboardLogDir`; `Err` is its exception. */
  function Parse(find: Finder, logdir: string): Result<string> {
    match ResolveAll(find, Split(logdir, ','))
    case Err(e) => Err(e)
    case Ok(urls) => Ok(Print(urls))
  }

  lemma {:induction false} ResolveAllSnoc(find: Finder, parts: seq<string>, part: string)
    ensures ResolveAll(find, parts + [part]) ==
              match ResolveAll(find, parts)
              case Err(e) => Err(e)
              case Ok(urls) =>
                match Resolve(find, part)
                case Err(e) => Err(e)
                case Ok(url) => Ok(urls + [url])
  {
    if parts == [] {
      assert parts + [part] == [part] && [part][1..] == [];
      if Resolve(find, part).Ok? {
        var url := Resolve(find, part).value;
        assert [url] + [] == [] + [url];
      }
    } else {
      assert (parts + [part])[0] == parts[0] && (parts + [part])[1..] == parts[1..] + [part];
      ResolveAllSnoc(find, parts[1..], part);
      var url, last, rest := Resolve(find, parts[0]), Resolve(find, part), ResolveAll(find, parts[1..]);
      if url.Ok? && last.Ok? && rest.Ok? {
        assert [url.value] + (rest.value + [last.value]) == ([url.value] + rest.value) + [last.value];
      }
    }
  }

  lemma {:induction false} ResolveAllErr(find: Finder, parts: seq<string>, more: seq<string>)
    requires ResolveAll(find, parts).Err?
    ensures ResolveAll(find, parts + more) == ResolveAll(find, parts)
  {
    if parts != [] {
      assert (parts + more)[1..] == parts[1..] + more;
      if Resolve(find, parts[0]).Ok? {
        ResolveAllErr(find, parts[1..], more);
      }
    }
  }

  method ParseTensorboardLogDir(find: Finder, logdir: string) returns (r: Result<string>)
    ensures r == Parse(find, logdir)
  {
    var urls: seq<string> := [];
    var parts := Split(logdir, ',');
    for i := 0 to |parts|
      invariant ResolveAll(find, parts[..i]) == Ok(urls)
    {
      assert parts[..i + 1] == parts[..i] + [parts[i]];
      ResolveAllSnoc(find, parts[..i], parts[i]);
      var path := Strip(parts[i]);
      if !IsVolume(path) {
        urls := urls + [path];
        continue;
      }
      var pieces := Split(path[|VOLUME|..], '/');
      var found := find(pieces[0], Join(pieces[1..], '/'));
      if found.Err? {
        ResolveAllErr(find, parts[..i + 1], parts[i + 1..]);
        assert parts == parts[..i + 1] + parts[i + 1..];
        return Err(found.error);
      }
      urls := urls + [found.value];
    }
    assert parts[..|parts|] == parts;
    return Ok(Print(urls));
  }

  // ---------- labels ----------

  lemma {:induction false} DigitsOf(d: string, rest: string)
    requires (forall i :: 0 <= i < |d| ==> IsDigit(d[i])) && (rest == "" || !IsDigit(rest[0]))
    ensures Digits(d + rest) == |d|
  {
    if d == "" {
      assert d + rest == rest;
    } else {
      assert (d + rest)[1..] == d[1..] + rest;
      DigitsOf(d[1..], rest);
    }
  }

  /** A label is matched whole, so that stripping a labelled text strips the text. */
  lemma StripLabel(i: nat, s: string)
    ensures Strip(Label(i) + s) == Strip(s)
  {
    var d := Decimal(i + 1);
    var t := Label(i) + s;
    assert t == SERIES + (d + (":" + s));
    assert t[6..] == d + (":" + s);
    DigitsOf(d, ":" + s);
    assert t[6 + |d|] == ':';
    assert MatchLen(t) == |Label(i)|;
    assert t[|Label(i)|..] == s;
  }

  lemma LabelHasNoComma(i: nat)
    ensures ',' !in Label(i)
  {
    var d := Decimal(i + 1);
    assert forall j :: 0 <= j < |d| ==> IsDigit(d[j]);
    assert ',' !in d;
  }

  // ---------- printing, then parsing ----------

  /** Text that can stand in a printed list. */
  predicate CommaFree(urls: seq<string>) {
    forall u :: u in urls ==> ',' !in u
  }

  /** The parts of the printed form: each is its url, under its label when there are several. */
  lemma PrintedParts(urls: seq<string>)
    requires urls != [] && CommaFree(urls)
    ensures Split(Print(urls), ',') == if |urls| == 1 then urls else Labelled(urls)
  {
    if |urls| == 1 {
      SplitPiece(urls[0], "", ',');
    } else {
      forall p | p in Labelled(urls) ensures ',' !in p {
        var i :| 0 <= i < |urls| && p == Label(i) + urls[i];
        LabelHasNoComma(i);
        assert urls[i] in urls;
      }
      SplitJoin(Labelled(urls), ',');
    }
  }

  function Stripped(parts: seq<string>): seq<string> {
    seq(|parts|, i requires 0 <= i < |parts| => Strip(parts[i]))
  }

  lemma PrintedStrips(urls: seq<string>)
    requires urls != [] && CommaFree(urls)
    ensures Stripped(Split(Print(urls), ',')) == Stripped(urls)
  {
    PrintedParts(urls);
    if |urls| != 1 {
      forall i | 0 <= i < |urls| ensures Strip(Labelled(urls)[i]) == Strip(urls[i]) {
        StripLabel(i, urls[i]);
      }
    }
  }

  lemma {:induction false} ResolveNoVolumes(find: Finder, parts: seq<string>)
    requires forall i :: 0 <= i < |parts| ==> !IsVolume(Strip(parts[i]))
    ensures ResolveAll(find, parts) == Ok(Stripped(parts))
  {
    if parts != [] {
      ResolveNoVolumes(find, parts[1..]);
      assert Stripped(parts) == [Strip(parts[0])] + Stripped(parts[1..]);
    }
  }

  /** Splitting and stripping the printed form of any number of clean urls gives back the urls, and parsing it gives
      back the printed form. */
  lemma PrintParse(find: Finder, urls: seq<string>)
    requires urls != [] && CommaFree(urls)
    requires forall u :: u in urls ==> MatchFree(u) && !IsVolume(u)
    ensures ResolveAll(find, Split(Print(urls), ',')) == Ok(urls)
    ensures Parse(find, Print(urls)) == Ok(Print(urls))
  {
    var parts := Split(Print(urls), ',');
    PrintedStrips(urls);
    assert Stripped(urls) == urls by {
      forall i | 0 <= i < |urls| ensures Strip(urls[i]) == urls[i] {
        assert urls[i] in urls;
        StripFixesMatchFree(urls[i]);
      }
    }
    forall i | 0 <= i < |parts| ensures !IsVolume(Strip(parts[i])) {
      assert Stripped(parts)[i] == Strip(parts[i]);
      assert Stripped(parts)[i] in urls;
    }
    ResolveNoVolumes(find, parts);
  }

  // ---------- parsing twice ----------

  lemma {:induction false} JoinLength(a: seq<string>, b: seq<string>, c: char)
    requires |a| == |b| && forall i :: 0 <= i < |a| ==> |a[i]| <= |b[i]|
    ensures |Join(a, c)| <= |Join(b, c)|
    ensures |Join(a, c)| == |Join(b, c)| ==> forall i :: 0 <= i < |a| ==> |a[i]| == |b[i]|
  {
    if |a| > 1 {
      JoinLength(a[1..], b[1..], c);
      if |Join(a, c)| == |Join(b, c)| {
        forall i | 0 <= i < |a| ensures |a[i]| == |b[i]| {
          if i > 0 {
            assert a[i] == a[1..][i - 1] && b[i] == b[1..][i - 1];
          }
        }
      }
    }
  }

  lemma PrintLength(a: seq<string>, b: seq<string>)
    requires |a| == |b| > 0 && forall i :: 0 <= i < |a| ==> |a[i]| <= |b[i]|
    ensures Print(a) == Print(b) ==> forall i :: 0 <= i < |a| ==> |a[i]| == |b[i]|
  {
    if |a| != 1 && Print(a) == Print(b) {
      JoinLength(Labelled(a), Labelled(b), ',');
      forall i | 0 <= i < |a| ensures |a[i]| == |b[i]| {
        assert |Labelled(a)[i]| == |Labelled(b)[i]|;
      }
    }
  }

  lemma ParsedTwice(find: Finder, logdir: string)
    requires forall p :: p in Split(logdir, ',') ==> !IsVolume(Strip(p)) && !IsVolume(Strip(Strip(p)))
    ensures var urls := Stripped(Split(logdir, ','));
            && CommaFree(urls) && Parse(find, logdir) == Ok(Print(urls))
            && Parse(find, Print(urls)) == Ok(Print(Stripped(urls)))
  {
    var parts := Split(logdir, ',');
    var urls := Stripped(parts);
    assert forall i :: 0 <= i < |parts| ==> parts[i] in parts;
    ResolveNoVolumes(find, parts);
    forall u | u in urls ensures ',' !in u {
      var i :| 0 <= i < |parts| && u == Strip(parts[i]);
      StripKeepsChars(parts[i], ',');
    }
    PrintedStrips(urls);
    var again := Split(Print(urls), ',');
    forall i | 0 <= i < |again| ensures !IsVolume(Strip(again[i])) {
      assert Stripped(again)[i] == Strip(again[i]) == Strip(urls[i]) == Strip(Strip(parts[i]));
    }
    ResolveNoVolumes(find, again);
  }

  /** Parsing is a fixed point on its own output exactly when no part, once stripped, still has a match: one pass of
      stripping can bring a new match together. */
  lemma ParseFixedPointIff(find: Finder, logdir: string)
    requires forall p :: p in Split(logdir, ',') ==> !IsVolume(Strip(p)) && !IsVolume(Strip(Strip(p)))
    ensures Parse(find, logdir).Ok?
    ensures Parse(find, Parse(find, logdir).value) == Parse(find, logdir)
       <==> forall p :: p in Split(logdir, ',') ==> MatchFree(Strip(p))
  {
    var parts := Split(logdir, ',');
    var urls := Stripped(parts);
    ParsedTwice(find, logdir);
    forall i | 0 <= i < |parts|
      ensures |Stripped(urls)[i]| <= |urls[i]|
      ensures |Stripped(urls)[i]| == |urls[i]| <==> MatchFree(Strip(parts[i]))
      ensures MatchFree(Strip(parts[i])) ==> Stripped(urls)[i] == urls[i]
    {
      StripFixesMatchFree(Strip(parts[i]));
    }
    PrintLength(Stripped(urls), urls);
    if forall p :: p in parts ==> MatchFree(Strip(p)) {
      forall i | 0 <= i < |parts| ensures Stripped(urls)[i] == urls[i] {
        assert parts[i] in parts;
      }
      assert Stripped(urls) == urls;
    } else {
      var p :| p in parts && !MatchFree(Strip(p));
      var i :| 0 <= i < |parts| && parts[i] == p;
      assert |Stripped(urls)[i]| != |urls[i]|;
    }
  }

  lemma NotSeries(s: string, j: nat)
    requires j < |s| && j < |SERIES| && s[j] != SERIES[j]
    ensures MatchLen(s) == 0 && Strip(s) == [s[0]] + Strip(s[1..])
  {
  }

  lemma {:induction false} NoSeriesInside(s: string)
    requires 'S' !in s
    ensures Strip(s) == s
  {
    if s != "" {
      assert s[0] in s;
      NotSeries(s, 0);
      NoSeriesInside(s[1..]);
    }
  }

  lemma StripSer(t: string)
    requires t != "" && t[0] == 'S'
    ensures Strip("Ser" + t) == "Ser" + Strip(t)
  {
    hide Strip, MatchLen;
    var s := "Ser" + t;
    NotSeries(s, 3);
    assert s[1..] == "er" + t;
    NotSeries("er" + t, 0);
    assert ("er" + t)[1..] == "r" + t;
    NotSeries("r" + t, 0);
    assert ("r" + t)[1..] == t;
  }

  lemma DecimalHasNoS(n: nat)
    ensures 'S' !in Decimal(n)
  {
    var d := Decimal(n);
    assert forall k :: 0 <= k < |d| ==> IsDigit(d[k]);
  }

  /** A label written inside another label: stripping the inner one brings the outer one together, and only a second
      pass strips that. */
  lemma NestedLabelSurvives(i: nat, j: nat, rest: string)
    requires 'S' !in rest
    ensures Strip("Ser" + (Label(i) + ("ies" + Decimal(j + 1) + ":" + rest))) == Label(j) + rest
    ensures Strip(Label(j) + rest) == rest && !MatchFree(Label(j) + rest)
  {
    hide Strip, MatchLen, Decimal, MatchFree;
    var u := "ies" + Decimal(j + 1) + ":" + rest;
    DecimalHasNoS(j + 1);
    StripSer(Label(i) + u);
    StripLabel(i, u);
    NoSeriesInside(u);
    assert "Ser" + u == Label(j) + rest;
    StripLabel(j, rest);
    NoSeriesInside(rest);
    StripFixesMatchFree(Label(j) + rest);
  }
}
