/** String and string-list helpers of the operator's util.go, and string splitting. */
module Strings {

  /** `RemoveString`: every occurrence of `s` left out, the rest in order. */
  function Without(xs: seq<string>, s: string): (r: seq<string>)
    ensures s !in r
    ensures forall x :: x != s ==> multiset(r)[x] == multiset(xs)[x]
  {
    if xs == [] then []
    else
      assert xs == [xs[0]] + xs[1..];
      if xs[0] == s then Without(xs[1..], s) else [xs[0]] + Without(xs[1..], s)
  }

  lemma {:induction false} WithoutSplit(a: seq<string>, b: seq<string>, s: string)
    ensures Without(a + b, s) == Without(a, s) + Without(b, s)
  {
    if a == [] {
      assert a + b == b;
    } else {
      assert (a + b)[1..] == a[1..] + b;
      WithoutSplit(a[1..], b, s);
    }
  }

  /** The list without `s` is the only list that a re-insertion of `s` everywhere it was would turn back:
      each kept element keeps its place among the kept ones. */
  lemma {:induction false} WithoutKeepsOrder(xs: seq<string>, s: string, i: nat, j: nat)
    requires i < j < |xs| && xs[i] != s && xs[j] != s
    ensures var p, q := |Without(xs[..i], s)|, |Without(xs[..j], s)|;
            p < q < |Without(xs, s)| && Without(xs, s)[p] == xs[i] && Without(xs, s)[q] == xs[j]
  {
    WithoutAt(xs, s, i);
    WithoutAt(xs, s, j);
    WithoutAt(xs[..j], s, i);
    assert xs[..j][..i] == xs[..i];
  }

  lemma {:induction false} WithoutAt(xs: seq<string>, s: string, i: nat)
    requires i < |xs| && xs[i] != s
    ensures |Without(xs[..i], s)| < |Without(xs, s)| && Without(xs, s)[|Without(xs[..i], s)|] == xs[i]
  {
    assert xs == xs[..i] + ([xs[i]] + xs[i + 1..]);
    WithoutSplit(xs[..i], [xs[i]] + xs[i + 1..], s);
    WithoutSplit([xs[i]], xs[i + 1..], s);
    assert Without([xs[i]], s) == [xs[i]] + Without([], s);
  }

  method ContainsString(slice: seq<string>, s: string) returns (found: bool)
    ensures found <==> s in slice
  {
    for i := 0 to |slice|
      invariant s !in slice[..i]
    {
      if slice[i] == s {
        return true;
      }
    }
    return false;
  }

  method RemoveString(slice: seq<string>, s: string) returns (result: seq<string>)
    ensures result == Without(slice, s)
  {
    result := [];
    for i := 0 to |slice|
      invariant result == Without(slice[..i], s)
    {
      WithoutSplit(slice[..i], [slice[i]], s);
      assert slice[..i + 1] == slice[..i] + [slice[i]];
      assert Without([slice[i]], s) == if slice[i] == s then [] else [slice[i]];
      if slice[i] == s {
        continue;
      }
      result := result + [slice[i]];
    }
    assert slice[..|slice|] == slice;
  }

  /** `firstNonEmptyStr`. */
  function FirstNonEmpty(a: string, b: string): string {
    if |a| > 0 then a else b
  }

  // ---------- sort.Strings ----------

  predicate Leq(a: string, b: string) {
    a == "" || (b != "" && (a[0] < b[0] || (a[0] == b[0] && Leq(a[1..], b[1..]))))
  }

  lemma {:induction false} LeqTotal(a: string, b: string)
    ensures Leq(a, b) || Leq(b, a)
  {
    if a != "" && b != "" && a[0] == b[0] {
      LeqTotal(a[1..], b[1..]);
    }
  }

  lemma {:induction false} LeqTransitive(a: string, b: string, c: string)
    requires Leq(a, b) && Leq(b, c)
    ensures Leq(a, c)
  {
    if a != "" && b != "" && c != "" && a[0] == b[0] == c[0] {
      LeqTransitive(a[1..], b[1..], c[1..]);
    }
  }

  /** Byte order: one string is a prefix of the other, or the first characters in which they differ decide. */
  lemma {:induction false} LeqIff(a: string, b: string)
    ensures Leq(a, b) <==> a <= b || exists i :: 0 <= i < |a| && i < |b| && a[..i] == b[..i] && a[i] < b[i]
  {
    if a != "" && b != "" && a[0] == b[0] {
      LeqIff(a[1..], b[1..]);
      assert a == [a[0]] + a[1..] && b == [b[0]] + b[1..];
      if i :| 0 <= i < |a[1..]| && i < |b[1..]| && a[1..][..i] == b[1..][..i] && a[1..][i] < b[1..][i] {
        assert a[..i + 1] == [a[0]] + a[1..][..i] && b[..i + 1] == [b[0]] + b[1..][..i];
        assert a[i + 1] < b[i + 1];
      }
      if i :| 0 <= i < |a| && i < |b| && a[..i] == b[..i] && a[i] < b[i] {
        assert a[1..][..i - 1] == a[..i][1..] && b[1..][..i - 1] == b[..i][1..];
        assert a[1..][i - 1] < b[1..][i - 1];
      }
    } else if a != "" && b != "" {
      if i :| 0 <= i < |a| && i < |b| && a[..i] == b[..i] && a[i] < b[i] {
        SameHead(a, b, i);
      }
      assert a[0] < b[0] ==> a[..0] == b[..0];
    }
  }

  lemma SameHead(a: string, b: string, i: nat)
    requires i <= |a| && i <= |b| && a[..i] == b[..i]
    ensures i > 0 ==> a[0] == b[0]
  {
    if i > 0 {
      assert a[0] == a[..i][0] == b[..i][0];
    }
  }

  lemma {:induction false} LeqAntisymmetric(a: string, b: string)
    requires Leq(a, b) && Leq(b, a)
    ensures a == b
  {
    if a != "" {
      LeqAntisymmetric(a[1..], b[1..]);
      assert a == [a[0]] + a[1..] && b == [b[0]] + b[1..];
    }
  }

  predicate Sorted(xs: seq<string>) {
    forall i, j :: 0 <= i < j < |xs| ==> Leq(xs[i], xs[j])
  }

  function Insert(x: string, xs: seq<string>): (r: seq<string>)
    ensures multiset(r) == multiset(xs) + multiset{x}
  {
    if xs == [] then [x]
    else
      assert xs == [xs[0]] + xs[1..];
      if Leq(x, xs[0]) then [x] + xs else [xs[0]] + Insert(x, xs[1..])
  }

  function Sort(xs: seq<string>): (r: seq<string>)
    ensures multiset(r) == multiset(xs)
    ensures |r| == |xs|
  {
    if xs == [] then []
    else
      assert xs == [xs[0]] + xs[1..];
      var r := Insert(xs[0], Sort(xs[1..]));
      assert |multiset(r)| == |r| && |multiset(xs)| == |xs|;
      r
  }

  lemma {:induction false} InsertSorted(x: string, xs: seq<string>)
    requires Sorted(xs)
    ensures Sorted(Insert(x, xs))
  {
    if xs != [] {
      if Leq(x, xs[0]) {
        forall i | 0 < i < |xs| ensures Leq(x, xs[i]) {
          LeqTransitive(x, xs[0], xs[i]);
        }
      } else {
        LeqTotal(x, xs[0]);
        InsertSorted(x, xs[1..]);
        var r := Insert(x, xs[1..]);
        forall i | 0 <= i < |r| ensures Leq(xs[0], r[i]) {
          assert r[i] in multiset(r);
          assert r[i] == x || r[i] in xs[1..];
        }
      }
    }
  }

  lemma {:induction false} SortSorts(xs: seq<string>)
    ensures Sorted(Sort(xs))
  {
    if xs != [] {
      SortSorts(xs[1..]);
      InsertSorted(xs[0], Sort(xs[1..]));
    }
  }

  /** Sorted and without repetition. */
  predicate Ordered(xs: seq<string>) {
    Sorted(xs) && forall i, j :: 0 <= i < j < |xs| ==> xs[i] != xs[j]
  }

  /** Such a list is determined by what is in it. */
  lemma {:induction false} OrderedUnique(xs: seq<string>, ys: seq<string>)
    requires Ordered(xs) && Ordered(ys) && forall x :: x in xs <==> x in ys
    ensures xs == ys
    decreases |xs|
  {
    hide Leq;
    if xs == [] && ys != [] {
      var y := AnyOf(ys);
    } else if xs != [] {
      var x := AnyOf(xs);
      FirstIsLeast(xs, ys);
      FirstIsLeast(ys, xs);
      LeqAntisymmetric(xs[0], ys[0]);
      var p, q := xs[1..], ys[1..];
      assert xs == [xs[0]] + p && ys == [ys[0]] + q;
      forall z ensures z in p <==> z in q {
        InRest(xs, z);
        InRest(ys, z);
      }
      OrderedUnique(p, q);
    }
  }

  lemma AnyOf(xs: seq<string>) returns (x: string)
    requires xs != []
    ensures x in xs
  {
    x := xs[0];
  }

  lemma FirstIsLeast(xs: seq<string>, ys: seq<string>)
    requires Ordered(xs) && xs != [] && forall x :: x in xs <==> x in ys
    ensures ys != [] && Leq(xs[0], ys[0])
  {
    hide Leq;
    assert xs[0] in xs;
    assert ys[0] in ys;
    var i :| 0 <= i < |xs| && xs[i] == ys[0];
    LeqTotal(xs[0], xs[0]);
  }

  lemma InRest(xs: seq<string>, z: string)
    requires Ordered(xs) && xs != []
    ensures z in xs[1..] <==> z in xs && z != xs[0]
  {
    hide Leq;
    if z in xs[1..] {
      var i :| 0 <= i < |xs| - 1 && xs[1..][i] == z;
      assert xs[i + 1] == z;
    }
  }

  lemma NoRepeats(r: seq<string>, xs: seq<string>, i: nat, j: nat)
    requires multiset(r) == multiset(xs) && forall i, j :: 0 <= i < j < |xs| ==> xs[i] != xs[j]
    requires i < j < |r|
    ensures r[i] != r[j]
  {
    CountsOnce(xs, r[i]);
    if r[i] == r[j] {
      CountedTwice(r, i, j);
    }
  }

  lemma CountedTwice(r: seq<string>, i: nat, j: nat)
    requires i < j < |r| && r[i] == r[j]
    ensures multiset(r)[r[i]] >= 2
  {
    assert r == (r[..i] + [r[i]] + r[i + 1..j]) + [r[j]] + r[j + 1..];
  }

  lemma SortOrders(xs: seq<string>)
    requires forall i, j :: 0 <= i < j < |xs| ==> xs[i] != xs[j]
    ensures Ordered(Sort(xs)) && forall x :: x in Sort(xs) <==> x in xs
  {
    hide Leq;
    var r := Sort(xs);
    SortSorts(xs);
    forall x ensures x in r <==> x in xs {
      assert x in r <==> x in multiset(r);
      assert x in xs <==> x in multiset(xs);
    }
    forall i, j | 0 <= i < j < |r| ensures r[i] != r[j] {
      NoRepeats(r, xs, i, j);
    }
  }

  lemma {:induction false} CountsOnce(xs: seq<string>, x: string)
    requires forall i, j :: 0 <= i < j < |xs| ==> xs[i] != xs[j]
    ensures multiset(xs)[x] <= 1
  {
    if xs != [] {
      assert xs == [xs[0]] + xs[1..];
      CountsOnce(xs[1..], x);
      if x == xs[0] {
        assert x !in xs[1..];
      }
    }
  }

  // ---------- decimal numerals ----------

  predicate IsDigit(c: char) {
    '0' <= c <= '9'
  }

  function DigitChar(d: nat): char
    requires d < 10
  {
    '0' + d as char
  }

  /** The decimal numeral of a natural number. */
  function Decimal(n: nat): (s: string)
    ensures |s| > 0 && forall i :: 0 <= i < |s| ==> IsDigit(s[i])
  {
    if n < 10 then [DigitChar(n)] else Decimal(n / 10) + [DigitChar(n % 10)]
  }

  function DecimalInt(n: int): string {
    if n < 0 then "-" + Decimal(-n) else Decimal(n)
  }

  /** The number that a string of decimal digits denotes. */
  function NumberOf(s: string): int {
    if s == "" then 0 else 10 * NumberOf(s[..|s| - 1]) + (s[|s| - 1] as int - '0' as int)
  }

  /** A numeral denotes its number, and has no leading zero but in "0". */
  lemma {:induction false} DecimalDenotes(n: nat)
    ensures NumberOf(Decimal(n)) == n && (n == 0 ==> Decimal(n) == "0") && (n > 0 ==> Decimal(n)[0] != '0')
  {
    if n < 10 {
      assert [DigitChar(n)][..0] == "";
    } else {
      DecimalDenotes(n / 10);
      var d := Decimal(n / 10) + [DigitChar(n % 10)];
      assert d[..|d| - 1] == Decimal(n / 10);
    }
  }

  // ---------- splitting and joining ----------

  /** `split` on one character: never empty. */
  function Split(s: string, c: char): (parts: seq<string>)
    ensures parts != []
    ensures forall p :: p in parts ==> c !in p
  {
    if s == "" then [""]
    else
      var rest := Split(s[1..], c);
      if s[0] == c then [""] + rest else [[s[0]] + rest[0]] + rest[1..]
  }

  /** `join`. */
  function Join(parts: seq<string>, c: char): string {
    if parts == [] then ""
    else if |parts| == 1 then parts[0]
    else parts[0] + [c] + Join(parts[1..], c)
  }

  lemma {:induction false} SplitPiece(p: string, rest: string, c: char)
    requires c !in p
    ensures Split(p + [c] + rest, c) == [p] + Split(rest, c)
    ensures Split(p, c) == [p]
  {
    if p == "" {
      assert p + [c] + rest == [c] + rest;
    } else {
      var t := p + [c] + rest;
      assert p[0] in p && t[0] == p[0] != c;
      assert t[1..] == p[1..] + [c] + rest;
      SplitPiece(p[1..], rest, c);
      assert Split(t[1..], c) == [p[1..]] + Split(rest, c);
      assert [p[0]] + p[1..] == p;
      assert Split(t, c) == [[p[0]] + p[1..]] + Split(t[1..], c)[1..];
    }
  }

  /** Splitting undoes joining, for pieces without the separator. */
  lemma {:induction false} SplitJoin(parts: seq<string>, c: char)
    requires parts != [] && forall p :: p in parts ==> c !in p
    ensures Split(Join(parts, c), c) == parts
  {
    if |parts| == 1 {
      SplitPiece(parts[0], "", c);
    } else {
      SplitPiece(parts[0], Join(parts[1..], c), c);
      SplitJoin(parts[1..], c);
    }
  }

  predicate StartsWith(s: string, prefix: string) {
    prefix <= s
  }

  /** A piece more is a separator and the piece more. */
  lemma {:induction false} JoinSnoc(parts: seq<string>, p: string, c: char)
    ensures Join(parts + [p], c) == if parts == [] then p else Join(parts, c) + [c] + p
  {
    if parts != [] {
      assert (parts + [p])[1..] == parts[1..] + [p];
      JoinSnoc(parts[1..], p, c);
    }
  }
}
