/** The prescribed order of the nodes: for every iteration order of the node map. */
module PrescribedOrder {
  import opened Cluster

  /** The seven node types, in the order of the rolling update. */
  const TYPES := ["historical", "overlord", "middleManager", "indexer", "broker", "coordinator", "router"]

  predicate KnownType(t: string) {
    t in TYPES
  }

  function RankFrom(t: string, i: nat): nat
    requires i <= |TYPES|
    decreases |TYPES| - i
  {
    if i == |TYPES| || TYPES[i] == t then i else RankFrom(t, i + 1)
  }

  /** Position of a node type in the prescribed order. */
  function Rank(t: string): nat {
    RankFrom(t, 0)
  }

  /** `order` enumerates the keys of the node map. */
  ghost predicate IterationOrder(order: seq<string>, nodes: map<string, NodeSpec>) {
    && (forall i, j :: 0 <= i < j < |order| ==> order[i] != order[j])
    && (forall k :: k in order <==> k in nodes)
  }

  function OfType(nodes: map<string, NodeSpec>, order: seq<string>, t: string): seq<string>
    decreases |order|
  {
    if order == [] then []
    else
      var last := order[|order| - 1];
      var rest := OfType(nodes, order[..|order| - 1], t);
      if last in nodes && nodes[last].nodeType == t then rest + [last] else rest
  }

  function ByTypes(nodes: map<string, NodeSpec>, order: seq<string>, types: seq<string>): seq<string>
    decreases |types|
  {
    if types == [] then [] else OfType(nodes, order, types[0]) + ByTypes(nodes, order, types[1..])
  }

  /** The node keys as the code orders them. */
  function Prescribed(nodes: map<string, NodeSpec>, order: seq<string>): seq<string> {
    ByTypes(nodes, order, TYPES)
  }

  /** The first loop of `getAllNodeSpecsInDruidPrescribedOrder`: groups the nodes, unless a type is unknown. */
  method GroupByType(nodes: map<string, NodeSpec>, order: seq<string>)
    returns (groups: Option<map<string, seq<string>>>)
    requires IterationOrder(order, nodes)
    ensures groups.None? <==> exists k :: k in nodes && !KnownType(nodes[k].nodeType)
    ensures groups.Some? ==> forall t :: t in TYPES ==> t in groups.value && groups.value[t] == OfType(nodes, order, t)
  {
    var byType: map<string, seq<string>> := map t | t in TYPES :: [];
    for i := 0 to |order|
      invariant forall t :: t in byType <==> KnownType(t)
      invariant forall t :: t in byType ==> byType[t] == OfType(nodes, order[..i], t)
      invariant forall j :: 0 <= j < i ==> KnownType(nodes[order[j]].nodeType)
    {
      assert order[..i + 1][..i] == order[..i];
      assert order[i] in order;
      var t := nodes[order[i]].nodeType;
      if t !in byType {
        return None;
      }
      byType := byType[t := byType[t] + [order[i]]];
    }
    assert order[..|order|] == order;
    forall k | k in nodes ensures KnownType(nodes[k].nodeType) {
      assert k in order;
    }
    return Some(byType);
  }

  /** The appends that end the code: one group after the other. */
  method AppendGroups(groups: map<string, seq<string>>, types: seq<string>, ghost nodes: map<string, NodeSpec>,
                      ghost order: seq<string>)
    returns (all: seq<string>)
    requires forall t :: t in types ==> t in groups && groups[t] == OfType(nodes, order, t)
    ensures all == ByTypes(nodes, order, types)
  {
    all := [];
    for j := 0 to |types|
      invariant all + ByTypes(nodes, order, types[j..]) == ByTypes(nodes, order, types)
    {
      assert types[j..][1..] == types[j + 1..];
      all := all + groups[types[j]];
    }
  }

  /** `getAllNodeSpecsInDruidPrescribedOrder`; `None` is its error. */
  method GetAllNodeSpecs(nodes: map<string, NodeSpec>, order: seq<string>) returns (keys: Option<seq<string>>)
    requires IterationOrder(order, nodes)
    ensures keys.None? <==>
              exists k :: k in nodes
                        && nodes[k].nodeType !in {"historical", "overlord", "middleManager", "indexer", "broker",
                                                  "coordinator", "router"}
    ensures keys.Some? ==> keys.value == Prescribed(nodes, order)
    ensures keys.Some? ==> forall i, j :: 0 <= i < j < |keys.value| ==> keys.value[i] != keys.value[j]
    ensures keys.Some? ==> forall k :: k in keys.value <==> k in nodes
    ensures keys.Some? ==> InDeploymentOrder(nodes, keys.value)
  {
    SevenTypes();
    PrescribedDistinct(nodes, order);
    PrescribedInDeploymentOrder(nodes, order);
    var groups := GroupByType(nodes, order);
    if groups.None? {
      return None;
    }
    var all := AppendGroups(groups.value, TYPES, nodes, order);
    return Some(all);
  }

  lemma {:induction false} OfTypeCounts(nodes: map<string, NodeSpec>, order: seq<string>, t: string, k: string)
    ensures multiset(OfType(nodes, order, t))[k]
         == if k in nodes && nodes[k].nodeType == t then multiset(order)[k] else 0
    decreases |order|
  {
    if order != [] {
      assert order == order[..|order| - 1] + [order[|order| - 1]];
      OfTypeCounts(nodes, order[..|order| - 1], t, k);
    }
  }

  lemma {:induction false} ByTypesCounts(nodes: map<string, NodeSpec>, order: seq<string>, types: seq<string>,
                                         k: string)
    requires forall i, j :: 0 <= i < j < |types| ==> types[i] != types[j]
    ensures multiset(ByTypes(nodes, order, types))[k]
         == if k in nodes && nodes[k].nodeType in types then multiset(order)[k] else 0
    decreases |types|
  {
    if types != [] {
      assert types == [types[0]] + types[1..];
      OfTypeCounts(nodes, order, types[0], k);
      ByTypesCounts(nodes, order, types[1..], k);
    }
  }

  lemma TypesDistinct()
    ensures forall i, j :: 0 <= i < j < |TYPES| ==> TYPES[i] != TYPES[j]
  {
    assert TYPES[0][0] == 'h' && TYPES[1][0] == 'o' && TYPES[2][0] == 'm' && TYPES[3][0] == 'i';
    assert TYPES[4][0] == 'b' && TYPES[5][0] == 'c' && TYPES[6][0] == 'r';
  }

  lemma {:induction false} RankAt(i: nat, j: nat)
    requires j <= i < |TYPES|
    ensures RankFrom(TYPES[i], j) == i
    decreases i - j
  {
    TypesDistinct();
    if j < i {
      RankAt(i, j + 1);
    }
  }

  /** When all types are known the result is a permutation of the nodes. */
  lemma PrescribedIsPermutation(nodes: map<string, NodeSpec>, order: seq<string>)
    requires IterationOrder(order, nodes)
    requires forall k :: k in nodes ==> KnownType(nodes[k].nodeType)
    ensures multiset(Prescribed(nodes, order)) == multiset(order)
  {
    TypesDistinct();
    forall k ensures multiset(Prescribed(nodes, order))[k] == multiset(order)[k] {
      ByTypesCounts(nodes, order, TYPES, k);
      assert k in multiset(order) ==> k in order;
    }
  }

  lemma {:induction false} OfTypeHasType(nodes: map<string, NodeSpec>, order: seq<string>, t: string)
    ensures forall i :: 0 <= i < |OfType(nodes, order, t)| ==>
              OfType(nodes, order, t)[i] in nodes && nodes[OfType(nodes, order, t)[i]].nodeType == t
    decreases |order|
  {
    if order != [] {
      OfTypeHasType(nodes, order[..|order| - 1], t);
    }
  }

  ghost predicate SortedFrom(nodes: map<string, NodeSpec>, r: seq<string>, n: nat) {
    && (forall i :: 0 <= i < |r| ==> r[i] in nodes && Rank(nodes[r[i]].nodeType) >= n)
    && (forall i, j :: 0 <= i < j < |r| ==> Rank(nodes[r[i]].nodeType) <= Rank(nodes[r[j]].nodeType))
  }

  lemma SortedConcat(nodes: map<string, NodeSpec>, a: seq<string>, b: seq<string>, n: nat)
    requires forall i :: 0 <= i < |a| ==> a[i] in nodes && Rank(nodes[a[i]].nodeType) == n
    requires SortedFrom(nodes, b, n + 1)
    ensures SortedFrom(nodes, a + b, n)
  {
  }

  lemma {:induction false} ByTypesSorted(nodes: map<string, NodeSpec>, order: seq<string>, n: nat)
    requires n <= |TYPES|
    ensures SortedFrom(nodes, ByTypes(nodes, order, TYPES[n..]), n)
    decreases |TYPES| - n
  {
    if n < |TYPES| {
      assert TYPES[n..][1..] == TYPES[n + 1..];
      ByTypesSorted(nodes, order, n + 1);
      OfTypeHasType(nodes, order, TYPES[n]);
      RankAt(n, 0);
      SortedConcat(nodes, OfType(nodes, order, TYPES[n]), ByTypes(nodes, order, TYPES[n + 1..]), n);
    }
  }

  /** The result is sorted by the rank of the node types. */
  lemma PrescribedIsSorted(nodes: map<string, NodeSpec>, order: seq<string>, i: nat, j: nat)
    requires i < j < |Prescribed(nodes, order)|
    ensures var r := Prescribed(nodes, order);
            r[i] in nodes && r[j] in nodes && Rank(nodes[r[i]].nodeType) <= Rank(nodes[r[j]].nodeType)
  {
    assert TYPES[0..] == TYPES;
    ByTypesSorted(nodes, order, 0);
  }

  /** The documented order of a rolling update, type by type. */
  predicate DeployedBefore(s: string, t: string) {
    || (s == "historical" && t in {"overlord", "middleManager", "indexer", "broker", "coordinator", "router"})
    || (s == "overlord" && t in {"middleManager", "indexer", "broker", "coordinator", "router"})
    || (s == "middleManager" && t in {"indexer", "broker", "coordinator", "router"})
    || (s == "indexer" && t in {"broker", "coordinator", "router"})
    || (s == "broker" && t in {"coordinator", "router"})
    || (s == "coordinator" && t == "router")
  }

  /** Every node of a type stands before every node of a type that is deployed later. */
  predicate InDeploymentOrder(nodes: map<string, NodeSpec>, keys: seq<string>) {
    && (forall k :: k in keys ==> k in nodes)
    && (forall i, j :: 0 <= i < |keys| && 0 <= j < |keys|
                       && DeployedBefore(nodes[keys[i]].nodeType, nodes[keys[j]].nodeType)
          ==> i < j)
  }

  lemma SevenTypes()
    ensures forall t :: KnownType(t) <==>
              t in {"historical", "overlord", "middleManager", "indexer", "broker", "coordinator", "router"}
  {
    assert TYPES == ["historical", "overlord", "middleManager", "indexer", "broker", "coordinator", "router"];
    forall t ensures KnownType(t) <==>
                     t in {"historical", "overlord", "middleManager", "indexer", "broker", "coordinator", "router"}
    {
      if KnownType(t) {
        var i :| 0 <= i < |TYPES| && TYPES[i] == t;
      }
      assert TYPES[0] in TYPES && TYPES[1] in TYPES && TYPES[2] in TYPES && TYPES[3] in TYPES;
      assert TYPES[4] in TYPES && TYPES[5] in TYPES && TYPES[6] in TYPES;
    }
  }

  lemma DeployedBeforeRanks(s: string, t: string)
    requires DeployedBefore(s, t)
    ensures Rank(s) < Rank(t)
  {
    hide Rank;
    assert TYPES == ["historical", "overlord", "middleManager", "indexer", "broker", "coordinator", "router"];
    RankOf(0);
    RankOf(1);
    RankOf(2);
    RankOf(3);
    RankOf(4);
    RankOf(5);
    RankOf(6);
  }

  lemma RankOf(i: nat)
    requires i < |TYPES|
    ensures Rank(TYPES[i]) == i
  {
    RankAt(i, 0);
  }

  /** Historicals first, then overlords, middle managers, indexers, brokers, coordinators, and routers last. */
  lemma PrescribedInDeploymentOrder(nodes: map<string, NodeSpec>, order: seq<string>)
    requires IterationOrder(order, nodes)
    ensures InDeploymentOrder(nodes, Prescribed(nodes, order))
    ensures (forall k :: k in nodes ==> KnownType(nodes[k].nodeType)) ==>
              forall k :: k in Prescribed(nodes, order) <==> k in nodes
  {
    hide Rank, Prescribed, DeployedBefore, IterationOrder;
    var r := Prescribed(nodes, order);
    PrescribedAreNodes(nodes, order);
    forall i, j | 0 <= i < |r| && 0 <= j < |r| && DeployedBefore(nodes[r[i]].nodeType, nodes[r[j]].nodeType)
      ensures i < j
    {
      DeployedBeforeRanks(nodes[r[i]].nodeType, nodes[r[j]].nodeType);
      if j < i {
        PrescribedIsSorted(nodes, order, j, i);
      }
    }
    if forall k :: k in nodes ==> KnownType(nodes[k].nodeType) {
      PrescribedIsPermutation(nodes, order);
      forall k ensures k in r <==> k in nodes {
        assert k in r <==> k in multiset(r);
        assert k in order <==> k in multiset(order);
        KeysOfOrder(nodes, order, k);
      }
    }
  }

  lemma KeysOfOrder(nodes: map<string, NodeSpec>, order: seq<string>, k: string)
    requires IterationOrder(order, nodes)
    ensures k in order <==> k in nodes
  {
  }

  lemma PrescribedAreNodes(nodes: map<string, NodeSpec>, order: seq<string>)
    ensures forall k :: k in Prescribed(nodes, order) ==> k in nodes
  {
    forall k | k in Prescribed(nodes, order) ensures k in nodes {
      TypesDistinct();
      ByTypesCounts(nodes, order, TYPES, k);
      assert k in multiset(Prescribed(nodes, order));
    }
  }

  predicate TypesAllDistinct(nodes: map<string, NodeSpec>) {
    forall a, b :: a in nodes && b in nodes && a != b ==> nodes[a].nodeType != nodes[b].nodeType
  }

  lemma OfTypeUnique(nodes: map<string, NodeSpec>, o1: seq<string>, o2: seq<string>, t: string)
    requires IterationOrder(o1, nodes) && IterationOrder(o2, nodes) && TypesAllDistinct(nodes)
    ensures OfType(nodes, o1, t) == OfType(nodes, o2, t)
  {
    AtMostOne(nodes, o1, t);
    AtMostOne(nodes, o2, t);
    forall k ensures multiset(OfType(nodes, o1, t))[k] == multiset(OfType(nodes, o2, t))[k] {
      OfTypeCounts(nodes, o1, t, k);
      OfTypeCounts(nodes, o2, t, k);
      CountOnce(nodes, o1, k);
      CountOnce(nodes, o2, k);
    }
    SameSingletons(OfType(nodes, o1, t), OfType(nodes, o2, t));
  }

  lemma SameSingletons(a: seq<string>, b: seq<string>)
    requires |a| <= 1 && |b| <= 1 && forall k :: multiset(a)[k] == multiset(b)[k]
    ensures a == b
  {
    if a != [] {
      assert multiset(a)[a[0]] == 1;
    }
    if b != [] {
      assert multiset(b)[b[0]] == 1;
    }
  }

  lemma {:induction false} CountOnceIn(order: seq<string>, k: string)
    requires forall i, j :: 0 <= i < j < |order| ==> order[i] != order[j]
    ensures multiset(order)[k] == if k in order then 1 else 0
    decreases |order|
  {
    if order != [] {
      assert order == [order[0]] + order[1..];
      CountOnceIn(order[1..], k);
    }
  }

  lemma CountOnce(nodes: map<string, NodeSpec>, order: seq<string>, k: string)
    requires IterationOrder(order, nodes)
    ensures multiset(order)[k] == if k in nodes then 1 else 0
  {
    CountOnceIn(order, k);
  }

  lemma AtMostOne(nodes: map<string, NodeSpec>, order: seq<string>, t: string)
    requires IterationOrder(order, nodes) && TypesAllDistinct(nodes)
    ensures |OfType(nodes, order, t)| <= 1
  {
    var r := OfType(nodes, order, t);
    OfTypeHasType(nodes, order, t);
    if |r| > 1 {
      assert r == [r[0], r[1]] + r[2..];
      assert r[0] == r[1];
      assert multiset(r)[r[0]] >= 2;
      OfTypeCounts(nodes, order, t, r[0]);
      CountOnce(nodes, order, r[0]);
    }
  }

  lemma {:induction false} ByTypesUnique(nodes: map<string, NodeSpec>, o1: seq<string>, o2: seq<string>,
                                         types: seq<string>)
    requires IterationOrder(o1, nodes) && IterationOrder(o2, nodes) && TypesAllDistinct(nodes)
    ensures ByTypes(nodes, o1, types) == ByTypes(nodes, o2, types)
    decreases |types|
  {
    if types != [] {
      OfTypeUnique(nodes, o1, o2, types[0]);
      ByTypesUnique(nodes, o1, o2, types[1..]);
    }
  }

  /** With at most one node per type the prescribed order does not depend on the map's iteration order. */
  lemma OrderUniqueForDistinctTypes(nodes: map<string, NodeSpec>, o1: seq<string>, o2: seq<string>)
    requires IterationOrder(o1, nodes) && IterationOrder(o2, nodes) && TypesAllDistinct(nodes)
    ensures Prescribed(nodes, o1) == Prescribed(nodes, o2)
  {
    ByTypesUnique(nodes, o1, o2, TYPES);
  }

  lemma PrescribedDistinct(nodes: map<string, NodeSpec>, order: seq<string>)
    requires IterationOrder(order, nodes)
    ensures var r := Prescribed(nodes, order); forall i, j :: 0 <= i < j < |r| ==> r[i] != r[j]
  {
    var r := Prescribed(nodes, order);
    forall i, j | 0 <= i < j < |r| ensures r[i] != r[j] {
      if r[i] == r[j] {
        assert r == r[..i] + [r[i]] + r[i + 1..j] + [r[j]] + r[j + 1..];
        assert multiset(r)[r[i]] >= 2;
        TypesDistinct();
        ByTypesCounts(nodes, order, TYPES, r[i]);
        CountOnce(nodes, order, r[i]);
      }
    }
  }
}
