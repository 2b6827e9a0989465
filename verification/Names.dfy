/** The names of the objects, and when two of them coincide. */
module Names {

  const DRUID_WORD := "druid-"

  /** `makeNodeSpecificUniqueString`. */
  function UniqueString(cr: string, key: string): string {
    "druid-" + cr + "-" + key
  }

  function CommonConfigName(cr: string): string {
    cr + "-druid-common-config"
  }

  function NodeConfigName(cr: string, key: string): string {
    UniqueString(cr, key) + "-config"
  }

  lemma CancelPrefix<T>(p: seq<T>, a: seq<T>, b: seq<T>)
    requires p + a == p + b
    ensures a == b
  {
    assert a == (p + a)[|p|..];
    assert b == (p + b)[|p|..];
  }

  lemma CancelSuffix<T>(a: seq<T>, b: seq<T>, s: seq<T>)
    requires a + s == b + s
    ensures a == b
  {
    assert |a + s| == |b + s|;
    assert a == (a + s)[..|a|];
    assert b == (b + s)[..|b|];
  }

  lemma UniqueStringInjective(cr: string, k1: string, k2: string)
    requires UniqueString(cr, k1) == UniqueString(cr, k2)
    ensures k1 == k2
  {
    CancelPrefix("druid-" + cr + "-", k1, k2);
  }

  /** For one resource, node config maps of different keys have different names. */
  lemma NodeConfigNameInjective(cr: string, k1: string, k2: string)
    requires NodeConfigName(cr, k1) == NodeConfigName(cr, k2)
    ensures k1 == k2
  {
    CancelSuffix(UniqueString(cr, k1), UniqueString(cr, k2), "-config");
    UniqueStringInjective(cr, k1, k2);
  }

  // ---------- the word equation ----------

  function Power(u: string, n: nat): string {
    if n == 0 then "" else u + Power(u, n - 1)
  }

  lemma {:induction false} PowerCommutes(u: string, n: nat)
    ensures Power(u, n) + u == u + Power(u, n)
  {
    if n > 0 {
      PowerCommutes(u, n - 1);
      assert (u + Power(u, n - 1)) + u == u + (Power(u, n - 1) + u);
    }
  }

  /** A proper non-empty prefix of "druid-" does not commute with it. */
  lemma NoShortRoot(m: string)
    requires 0 < |m| < 6
    ensures m + DRUID_WORD != DRUID_WORD + m
  {
    var n := |m|;
    var j := if n == 4 then 5 else n;
    assert (m + DRUID_WORD)[j] == DRUID_WORD[j - n];
    assert (DRUID_WORD + m)[j] == DRUID_WORD[j];
  }

  /** A word commutes with "druid-" exactly when it is a power of it. */
  lemma {:induction false} CommutesIffPower(m: string)
    ensures m + DRUID_WORD == DRUID_WORD + m <==> exists n: nat :: m == Power(DRUID_WORD, n)
    decreases |m|
  {
    if n: nat :| m == Power(DRUID_WORD, n) {
      PowerCommutes(DRUID_WORD, n);
    }
    if m + DRUID_WORD == DRUID_WORD + m {
      if |m| == 0 {
        assert m == Power(DRUID_WORD, 0);
      } else if |m| < 6 {
        NoShortRoot(m);
      } else {
        var rest := m[6..];
        assert m == (m + DRUID_WORD)[..|m|] == (DRUID_WORD + m)[..|m|];
        assert m[..6] == DRUID_WORD;
        assert m == DRUID_WORD + rest;
        assert DRUID_WORD + (rest + DRUID_WORD) == m + DRUID_WORD == DRUID_WORD + m;
        CancelPrefix(DRUID_WORD, rest + DRUID_WORD, m);
        CommutesIffPower(rest);
        var n: nat :| rest == Power(DRUID_WORD, n);
        assert m == Power(DRUID_WORD, n + 1);
      }
    }
  }

  /** The resource names for which a collision is possible: "druid", "druid-druid", and so on. */
  ghost predicate IsDruidPower(cr: string) {
    exists n: nat :: cr + "-" == Power(DRUID_WORD, n)
  }

  lemma CommonKeyCollides(cr: string)
    ensures CommonConfigName(cr) == NodeConfigName(cr, "common") <==> IsDruidPower(cr)
  {
    var m := cr + "-";
    var x, y := m + DRUID_WORD, DRUID_WORD + m;
    assert CommonConfigName(cr) == x + "common-config";
    assert NodeConfigName(cr, "common") == y + "common-config";
    if CommonConfigName(cr) == NodeConfigName(cr, "common") {
      CancelSuffix(x, y, "common-config");
    }
    CommutesIffPower(m);
    if n: nat :| m == Power(DRUID_WORD, n) {
      assert cr + "-" == Power(DRUID_WORD, n);
      assert IsDruidPower(cr);
    } else {
      assert x != y;
      forall n: nat ensures cr + "-" != Power(DRUID_WORD, n) {
        assert m == cr + "-";
      }
    }
  }

  /** The common config map has the name of a node's config map exactly when the node's key is "common" and the
      resource is called "druid", "druid-druid", ... */
  lemma ConfigNamesCollideIff(cr: string, key: string)
    ensures CommonConfigName(cr) == NodeConfigName(cr, key) <==> key == "common" && IsDruidPower(cr)
  {
    if CommonConfigName(cr) == NodeConfigName(cr, key) {
      var a := cr + "-druid-common";
      var b := "druid-" + cr + "-" + key;
      assert CommonConfigName(cr) == a + "-config";
      assert NodeConfigName(cr, key) == b + "-config";
      CancelSuffix(a, b, "-config");
      assert |key| == 6;
      assert key == b[|b| - 6..] == a[|a| - 6..] == "common";
    }
    CommonKeyCollides(cr);
  }
}
