/** "Each node is updated one by one" (docs/upgrade.md), from the spec: it holds over every run exactly when no two
    nodes have the same type. */
module OneByOneUpdates {
  import opened Cluster
  import opened ApiServer
  import opened Names
  import opened PrescribedOrder
  import opened Reconcile
  import opened Frames
  import opened Upserts
  import opened Rolling
  import opened Rollout
  import opened Convergence
  import opened Planner
  import opened Planned
  import opened OrderIndependence

  // ---------- it holds for distinct types ----------

  /** A run of rolling passes over a resource whose spec may be edited, each pass iterating the node map in its own
      order: a pass over an edited spec finds all the workloads it plans stored and rolled out. */
  ghost predicate SpecRun(env: Env, h: Hasher, crs: seq<Cr>, orders: seq<seq<string>>, ws: seq<World>) {
    && |ws| == |crs| + 1 && |orders| == |crs|
    && (forall n :: 0 <= n < |crs| ==> IterationOrder(orders[n], crs[n].spec.nodes) && KnownTypes(crs[n].spec.nodes))
    && (forall n :: 0 <= n < |crs| ==>
          crs[n].spec.rollingDeploy && crs[n].generation > 1 && (!crs[n].deleting || crs[n].spec.disablePvcFinalizer))
    && (forall n :: 0 < n < |crs| ==>
          SameSource(crs[n - 1], crs[n]) || AllDone(ws[n].objs, PlanFor(h, crs[n], orders[n]).actions))
    && (forall n :: 0 <= n < |crs| ==>
          Between(ws[n], Deploy(env, h, crs[n], PlanOf(h, crs[n], orders[n]), ws[n]).w, ws[n + 1]))
  }

  lemma PlansOfRun(env: Env, h: Hasher, crs: seq<Cr>, orders: seq<seq<string>>, ws: seq<World>)
    returns (plans: seq<Plan>)
    requires SpecRun(env, h, crs, orders, ws) && forall n :: 0 <= n < |crs| ==> TypesAllDistinct(crs[n].spec.nodes)
    ensures |plans| == |crs| && forall n :: 0 <= n < |crs| ==> plans[n] == PlanFor(h, crs[n], orders[n])
    ensures RollingRun(env, h, plans, crs, ws)
  {
    hide Deploy, NodesOf, Flatten, AllDone, Between, TypesAllDistinct, SameSource, IterationOrder;
    plans := seq(|crs|, i requires 0 <= i < |crs| && |orders| == |crs| => PlanFor(h, crs[i], orders[i]));
    forall n | 0 <= n < |crs|
      ensures WellFormed(plans[n]) && GatesDistinct(plans[n].actions)
      ensures n > 0 && SameSource(crs[n - 1], crs[n]) ==> plans[n] == plans[n - 1]
      ensures PlanOf(h, crs[n], orders[n]) == Some(plans[n])
    {
      PlanWellFormed(h, crs[n], orders[n]);
      PlanGatesDistinct(h, crs[n], orders[n]);
      if n > 0 && SameSource(crs[n - 1], crs[n]) {
        SameNodesOfSource(crs[n - 1], crs[n]);
        PlanUnique(h, crs[n - 1], crs[n], orders[n - 1], orders[n]);
      }
    }
  }

  lemma SameNodesOfSource(a: Cr, b: Cr)
    requires SameSource(a, b)
    ensures a.spec == b.spec
  {
  }

  /** "One by one" holds for specs with at most one node of each type: started from a store in which it holds, and with
      edits made only while everything is rolled out, no two planned workloads are ever rolling out, whichever calls
      fail. */
  lemma OneByOneForDistinctTypes(env: Env, h: Hasher, crs: seq<Cr>, orders: seq<seq<string>>, ws: seq<World>, n: nat)
    requires Alone(env) && SpecRun(env, h, crs, orders, ws) && n < |crs|
    requires forall m :: 0 <= m < |crs| ==> TypesAllDistinct(crs[m].spec.nodes)
    requires OneByOne(h, ws[0].objs, PlanFor(h, crs[0], orders[0]).actions)
    ensures AtMostOneRolling(ws[n].objs, PlanFor(h, crs[n], orders[n]).actions)
    ensures AtMostOneRolling(ws[n + 1].objs, PlanFor(h, crs[n], orders[n]).actions)
  {
    hide Deploy, NodesOf, Flatten, OneByOne, AtMostOneRolling, Alone, TypesAllDistinct;
    var plans := PlansOfRun(env, h, crs, orders, ws);
    OneRolloutAtATime(env, h, plans, crs, ws, n);
  }

  // ---------- two nodes of one type ----------

  lemma {:induction false} OfTypeAll(nodes: map<string, NodeSpec>, order: seq<string>, t: string, u: string)
    requires forall k :: k in order ==> k in nodes && nodes[k].nodeType == t
    ensures OfType(nodes, order, u) == if u == t then order else []
  {
    if order != [] {
      assert order == order[..|order| - 1] + [order[|order| - 1]];
      OfTypeAll(nodes, order[..|order| - 1], t, u);
    }
  }

  lemma {:induction false} ByTypesAll(nodes: map<string, NodeSpec>, order: seq<string>, t: string, types: seq<string>)
    requires forall k :: k in order ==> k in nodes && nodes[k].nodeType == t
    requires forall i, j :: 0 <= i < j < |types| ==> types[i] != types[j]
    ensures ByTypes(nodes, order, types) == if t in types then order else []
  {
    if types != [] {
      OfTypeAll(nodes, order, t, types[0]);
      ByTypesAll(nodes, order, t, types[1..]);
      assert types == [types[0]] + types[1..];
      if types[0] == t {
        assert t !in types[1..];
      }
    }
  }

  /** Nodes of one type are taken in the order the map happens to be iterated in. */
  lemma OneTypeKeepsMapOrder(nodes: map<string, NodeSpec>, order: seq<string>, t: string)
    requires IterationOrder(order, nodes) && t in TYPES && forall k :: k in nodes ==> nodes[k].nodeType == t
    ensures Prescribed(nodes, order) == order
  {
    TypesDistinct();
    ByTypesAll(nodes, order, t, TYPES);
  }

  lemma {:induction false} OfTypeAppend(nodes: map<string, NodeSpec>, x: seq<string>, y: seq<string>, t: string)
    ensures OfType(nodes, x + y, t) == OfType(nodes, x, t) + OfType(nodes, y, t)
    decreases |y|
  {
    if y == [] {
      assert x + y == x;
    } else {
      var init, last := y[..|y| - 1], y[|y| - 1];
      assert (x + y)[..|x + y| - 1] == x + init && (x + y)[|x + y| - 1] == last;
      OfTypeAppend(nodes, x, init, t);
    }
  }

  lemma OfTypePair(nodes: map<string, NodeSpec>, a: string, b: string, u: string)
    requires a in nodes && b in nodes && nodes[a].nodeType == nodes[b].nodeType
    ensures OfType(nodes, [a, b], u) == if nodes[a].nodeType == u then [a, b] else []
  {
    assert [a, b][..1] == [a] && [a][..0] == [];
    assert OfType(nodes, [a], u) == (if nodes[a].nodeType == u then [a] else []) by {
      assert OfType(nodes, [], u) == [];
    }
  }

  /** Groups are the same but for the type of the two nodes. */
  lemma {:induction false} ByTypesApart(nodes: map<string, NodeSpec>, a: string, b: string, rest: seq<string>,
                                        types: seq<string>)
    requires a in nodes && b in nodes && nodes[a].nodeType == nodes[b].nodeType && nodes[a].nodeType !in types
    ensures ByTypes(nodes, [a, b] + rest, types) == ByTypes(nodes, rest, types)
    decreases |types|
  {
    hide OfType;
    if types != [] {
      OfTypeAppend(nodes, [a, b], rest, types[0]);
      OfTypePair(nodes, a, b, types[0]);
      assert [] + OfType(nodes, rest, types[0]) == OfType(nodes, rest, types[0]);
      ByTypesApart(nodes, a, b, rest, types[1..]);
    }
  }

  lemma {:induction false} ByTypesSplit(nodes: map<string, NodeSpec>, order: seq<string>, xs: seq<string>,
                                        ys: seq<string>)
    ensures ByTypes(nodes, order, xs + ys) == ByTypes(nodes, order, xs) + ByTypes(nodes, order, ys)
    decreases |xs|
  {
    if xs == [] {
      assert xs + ys == ys;
    } else {
      assert (xs + ys)[1..] == xs[1..] + ys;
      ByTypesSplit(nodes, order, xs[1..], ys);
    }
  }

  function Before(nodes: map<string, NodeSpec>, rest: seq<string>, m: nat): seq<string>
    requires m < |TYPES|
  {
    ByTypes(nodes, rest, TYPES[..m])
  }

  function After(nodes: map<string, NodeSpec>, rest: seq<string>, m: nat): seq<string>
    requires m < |TYPES|
  {
    OfType(nodes, rest, TYPES[m]) + ByTypes(nodes, rest, TYPES[m + 1..])
  }

  /** Two nodes of one type that the map yields first stand next to each other in the prescribed order, as the map
      yields them. */
  lemma PairPrescribed(nodes: map<string, NodeSpec>, a: string, b: string, rest: seq<string>, m: nat)
    requires a in nodes && b in nodes && m < |TYPES| && nodes[a].nodeType == TYPES[m] == nodes[b].nodeType
    ensures Prescribed(nodes, [a, b] + rest) == Before(nodes, rest, m) + [a, b] + After(nodes, rest, m)
  {
    hide OfType, ByTypes;
    var order := [a, b] + rest;
    TypesDistinct();
    SplitTypes(nodes, order, TYPES, m);
    OfTypeAppend(nodes, [a, b], rest, TYPES[m]);
    OfTypePair(nodes, a, b, TYPES[m]);
    ByTypesApart(nodes, a, b, rest, TYPES[..m]);
    ByTypesApart(nodes, a, b, rest, TYPES[m + 1..]);
  }

  lemma SplitTypes(nodes: map<string, NodeSpec>, order: seq<string>, types: seq<string>, m: nat)
    requires m < |types|
    ensures ByTypes(nodes, order, types)
         == ByTypes(nodes, order, types[..m]) + OfType(nodes, order, types[m]) + ByTypes(nodes, order, types[m + 1..])
  {
    hide OfType;
    var tail := [types[m]] + types[m + 1..];
    assert types == types[..m] + tail;
    ByTypesSplit(nodes, order, types[..m], tail);
    assert tail[1..] == types[m + 1..];
  }

  lemma {:induction false} EnumerateKeys(s: set<string>) returns (r: seq<string>)
    ensures (forall i, j :: 0 <= i < j < |r| ==> r[i] != r[j]) && forall k :: k in r <==> k in s
    decreases |s|
  {
    if s == {} {
      r := [];
    } else {
      var k :| k in s;
      var rest := EnumerateKeys(s - {k});
      r := [k] + rest;
    }
  }

  /** Any two nodes of one type can be yielded first, in either order. */
  lemma PairOrders(nodes: map<string, NodeSpec>, a: string, b: string) returns (rest: seq<string>)
    requires a in nodes && b in nodes && a != b
    ensures IterationOrder([a, b] + rest, nodes) && IterationOrder([b, a] + rest, nodes)
  {
    rest := EnumerateKeys(nodes.Keys - {a, b});
  }

  // ---------- gates of planned nodes ----------

  lemma WorkloadKey(h: Hasher, cr: Cr, sh: Shared, key: string, node: NodeSpec)
    ensures MakeNode(h, cr, sh, key, node).0.workload.key == Key(WorkloadKind(node), cr.ns, UniqueString(cr.name, key))
  {
  }

  /** What is planned for node `i`, from the nodes before it. */
  lemma PlannedNode(h: Hasher, cr: Cr, order: seq<string>, i: nat)
    requires IterationOrder(order, cr.spec.nodes) && i < |Prescribed(cr.spec.nodes, order)|
    ensures var keys, ns := Prescribed(cr.spec.nodes, order), NodesOf(h, cr, order);
            && |ns| == |keys| && (forall k :: k in keys ==> k in cr.spec.nodes)
            && ns[i] == MakeNode(h, cr, SharedAt(h, cr, Initial(cr.spec), keys[..i]), keys[i], cr.spec.nodes[keys[i]]).0
            && ns[i].workload.key == Key(WorkloadKind(cr.spec.nodes[keys[i]]), cr.ns, UniqueString(cr.name, keys[i]))
  {
    hide MakeNode;
    var keys := Prescribed(cr.spec.nodes, order);
    PrescribedAreNodes(cr.spec.nodes, order);
    NodeAt(h, cr, Initial(cr.spec), keys, i);
    WorkloadKey(h, cr, SharedAt(h, cr, Initial(cr.spec), keys[..i]), keys[i], cr.spec.nodes[keys[i]]);
  }

  /** Where the gate of node `i` stands, and what the gates before it are. */
  lemma {:induction false} GatePosition(cr: Cr, ns: seq<NodeObjects>, keys: seq<string>, i: nat) returns (f: nat)
    requires NodesFor(cr, ns, keys) && i < |ns|
    ensures f < |Flatten(ns)| && Flatten(ns)[f] == Gate(ns[i].workload)
    ensures forall j :: 0 <= j < f && Flatten(ns)[j].Gate? ==> IsWorkloadBefore(ns, i, Flatten(ns)[j].content)
    decreases |ns|
  {
    hide Shaped, NodeActions, Flatten, IsWorkloadBefore;
    var first, rest := NodeActions(ns[0]), Flatten(ns[1..]);
    assert Flatten(ns) == first + rest by {
      FlattenCons(ns);
    }
    TailNodes(cr, ns, keys);
    NodeKey(cr, ns[0], keys[0]);
    GateIn(ns[0]);
    if i == 0 {
      f := 1 + |ns[0].services|;
      forall j | 0 <= j < f ensures !Flatten(ns)[j].Gate? {
        if first[j].Gate? {
          NodeGate(ns[0], cr, j);
        }
      }
    } else {
      var g := GatePosition(cr, ns[1..], keys[1..], i - 1);
      f := |first| + g;
      forall j | 0 <= j < f && Flatten(ns)[j].Gate? ensures IsWorkloadBefore(ns, i, Flatten(ns)[j].content) {
        if j < |first| {
          NodeGate(ns[0], cr, j);
          BeforeFirst(ns, i);
        } else {
          assert Flatten(ns)[j] == rest[j - |first|];
          BeforeShift(ns, i, rest[j - |first|].content);
        }
      }
    }
  }

  lemma FlattenCons(ns: seq<NodeObjects>)
    requires ns != []
    ensures Flatten(ns) == NodeActions(ns[0]) + Flatten(ns[1..])
  {
  }

  lemma BeforeFirst(ns: seq<NodeObjects>, i: nat)
    requires 0 < i <= |ns|
    ensures IsWorkloadBefore(ns, i, ns[0].workload)
  {
  }

  lemma BeforeShift(ns: seq<NodeObjects>, i: nat, c: Content)
    requires 0 < i <= |ns| && IsWorkloadBefore(ns[1..], i - 1, c)
    ensures IsWorkloadBefore(ns, i, c)
  {
    var m :| 0 <= m < i - 1 && ns[1..][m].workload == c;
    assert ns[m + 1].workload == c;
  }

  ghost predicate IsWorkloadBefore(ns: seq<NodeObjects>, i: nat, c: Content)
    requires i <= |ns|
  {
    exists m :: 0 <= m < i && ns[m].workload == c
  }

  lemma GateIn(n: NodeObjects)
    ensures 1 + |n.services| < |NodeActions(n)| && NodeActions(n)[1 + |n.services|] == Gate(n.workload)
  {
  }

  lemma GateOfNode(h: Hasher, cr: Cr, order: seq<string>, x: Action) returns (i: nat)
    requires IterationOrder(order, cr.spec.nodes) && x in PlanFor(h, cr, order).actions && x.Gate?
    ensures i < |NodesOf(h, cr, order)| && x.content == NodesOf(h, cr, order)[i].workload
  {
    hide MakeNode, NodeActions, Shaped;
    PlanNodes(h, cr, order);
    GateOfRest(cr, NodesOf(h, cr, order), Prescribed(cr.spec.nodes, order), x);
    i :| 0 <= i < |NodesOf(h, cr, order)| && x.content == NodesOf(h, cr, order)[i].workload;
  }

  lemma NodeGatePlanned(h: Hasher, cr: Cr, order: seq<string>, i: nat)
    requires IterationOrder(order, cr.spec.nodes) && i < |NodesOf(h, cr, order)|
    ensures Gate(NodesOf(h, cr, order)[i].workload) in PlanFor(h, cr, order).actions
  {
    hide MakeNode, NodeActions;
    var ns := NodesOf(h, cr, order);
    NodeActionsHas(ns[i], Gate(ns[i].workload));
    FlattenHas(ns, Gate(ns[i].workload));
  }

  lemma GateKeyPlanned(h: Hasher, cr: Cr, o1: seq<string>, o2: seq<string>, x: Action)
    requires IterationOrder(o1, cr.spec.nodes) && IterationOrder(o2, cr.spec.nodes) && KnownTypes(cr.spec.nodes)
    requires x in PlanFor(h, cr, o1).actions && x.Gate?
    ensures x.content.key in GateKeys(PlanFor(h, cr, o2))
  {
    hide NodesOf, Flatten, IterationOrder, Prescribed;
    var i := GateOfNode(h, cr, o1, x);
    PlannedCount(h, cr, o1);
    PlannedCount(h, cr, o2);
    PlannedNode(h, cr, o1, i);
    var key := Prescribed(cr.spec.nodes, o1)[i];
    PrescribedHas(cr.spec.nodes, o2, key);
    var j :| 0 <= j < |Prescribed(cr.spec.nodes, o2)| && Prescribed(cr.spec.nodes, o2)[j] == key;
    PlannedNode(h, cr, o2, j);
    NodeGatePlanned(h, cr, o2, j);
    assert Gate(NodesOf(h, cr, o2)[j].workload).content.key == x.content.key;
  }

  /** Every iteration order plans the same workloads, by name. */
  lemma SameGatesInOrders(h: Hasher, cr: Cr, o1: seq<string>, o2: seq<string>)
    requires IterationOrder(o1, cr.spec.nodes) && IterationOrder(o2, cr.spec.nodes) && KnownTypes(cr.spec.nodes)
    ensures GateKeys(PlanFor(h, cr, o1)) == GateKeys(PlanFor(h, cr, o2))
  {
    hide NodesOf, Flatten, IterationOrder, PlanFor;
    forall k ensures k in GateKeys(PlanFor(h, cr, o1)) <==> k in GateKeys(PlanFor(h, cr, o2)) {
      if k in GateKeys(PlanFor(h, cr, o1)) {
        var x :| x in PlanFor(h, cr, o1).actions && x.Gate? && x.content.key == k;
        GateKeyPlanned(h, cr, o1, o2, x);
      }
      if k in GateKeys(PlanFor(h, cr, o2)) {
        var x :| x in PlanFor(h, cr, o2).actions && x.Gate? && x.content.key == k;
        GateKeyPlanned(h, cr, o2, o1, x);
      }
    }
  }

  lemma FirstStaleNode(h: Hasher, cr: Cr, order: seq<string>, objs: map<Key, Obj>, i: nat) returns (f: nat)
    requires IterationOrder(order, cr.spec.nodes) && KnownTypes(cr.spec.nodes) && i < |NodesOf(h, cr, order)|
    requires forall m :: 0 <= m < i ==> Good(h, objs, NodesOf(h, cr, order)[m].workload)
    requires !Fresh(h, objs, NodesOf(h, cr, order)[i].workload)
    ensures f < |PlanFor(h, cr, order).actions|
    ensures PlanFor(h, cr, order).actions[f] == Gate(NodesOf(h, cr, order)[i].workload)
    ensures FirstStale(h, objs, PlanFor(h, cr, order).actions, f)
    ensures forall j :: 0 <= j < f && PlanFor(h, cr, order).actions[j].Gate? ==>
              IsWorkloadBefore(NodesOf(h, cr, order), i, PlanFor(h, cr, order).actions[j].content)
  {
    hide MakeNode, Good, Fresh, Shaped, NodesOf, Flatten;
    PlanNodes(h, cr, order);
    f := GatePosition(cr, NodesOf(h, cr, order), Prescribed(cr.spec.nodes, order), i);
    var actions := PlanFor(h, cr, order).actions;
    forall j | 0 <= j < f && actions[j].Gate? ensures Good(h, objs, actions[j].content) {
      var m :| 0 <= m < i && NodesOf(h, cr, order)[m].workload == actions[j].content;
    }
  }

  /** The two nodes of one type, each first in its order, after the same nodes. */
  lemma PairPlanned(h: Hasher, cr: Cr, a: string, b: string, rest: seq<string>, m: nat)
    requires a in cr.spec.nodes && b in cr.spec.nodes && a != b && m < |TYPES|
    requires cr.spec.nodes[a].nodeType == TYPES[m] == cr.spec.nodes[b].nodeType
    requires IterationOrder([a, b] + rest, cr.spec.nodes) && IterationOrder([b, a] + rest, cr.spec.nodes)
    ensures var i := |Before(cr.spec.nodes, rest, m)|;
            var n1, n2 := NodesOf(h, cr, [a, b] + rest), NodesOf(h, cr, [b, a] + rest);
            && i + 1 < |n1| && |n2| == |n1| && n1[..i] == n2[..i]
            && n1[i].workload.key == n2[i + 1].workload.key
              == Key(WorkloadKind(cr.spec.nodes[a]), cr.ns, UniqueString(cr.name, a))
            && n2[i].workload.key == n1[i + 1].workload.key
              == Key(WorkloadKind(cr.spec.nodes[b]), cr.ns, UniqueString(cr.name, b))
            && n1[i].workload.key != n2[i].workload.key
            && forall k :: 0 <= k < i ==> n2[k].workload.key != n1[i].workload.key
  {
    hide MakeNode, NodesOf, IterationOrder, Prescribed, Before, After, SharedAt;
    var o1, o2 := [a, b] + rest, [b, a] + rest;
    var before, after := Before(cr.spec.nodes, rest, m), After(cr.spec.nodes, rest, m);
    var i := |before|;
    PairPrescribed(cr.spec.nodes, a, b, rest, m);
    PairPrescribed(cr.spec.nodes, b, a, rest, m);
    var k1, k2 := Prescribed(cr.spec.nodes, o1), Prescribed(cr.spec.nodes, o2);
    assert k1[i] == a && k1[i + 1] == b && k2[i] == b && k2[i + 1] == a;
    PlannedNode(h, cr, o1, i);
    PlannedNode(h, cr, o1, i + 1);
    PlannedNode(h, cr, o2, i);
    PlannedNode(h, cr, o2, i + 1);
    DifferentNames(cr, a, b);
    forall k | 0 <= k < i
      ensures NodesOf(h, cr, o1)[k] == NodesOf(h, cr, o2)[k]
      ensures NodesOf(h, cr, o2)[k].workload.key != NodesOf(h, cr, o1)[i].workload.key
    {
      assert k1[k] == before[k] == k2[k] && k1[..k] == before[..k] == k2[..k];
      PlannedNode(h, cr, o1, k);
      PlannedNode(h, cr, o2, k);
      PrescribedDistinct(cr.spec.nodes, o1);
      DifferentNames(cr, k1[k], k1[i]);
    }
  }

  lemma DifferentNames(cr: Cr, a: string, b: string)
    requires a != b
    ensures UniqueString(cr.name, a) != UniqueString(cr.name, b)
  {
    if UniqueString(cr.name, a) == UniqueString(cr.name, b) {
      UniqueStringInjective(cr.name, a, b);
    }
  }

  /** It fails for any two nodes of one type, wherever they stand: whenever both are stale and everything before them is
      good, a pass that yields the one first and a pass that yields the other first roll both at once. */
  lemma OverlapForSharedType(env: Env, h: Hasher, cr: Cr, cr2: Cr, a: string, b: string, rest: seq<string>, m: nat,
                             w: World, w2: World)
    requires Alone(env) && Faultless(env) && Current(cr, w) && Current(cr2, w2) && KnownTypes(cr.spec.nodes)
    requires cr.spec.rollingDeploy && cr.generation > 1 && cr2.generation > 1 && SameSource(cr, cr2)
    requires a in cr.spec.nodes && b in cr.spec.nodes && a != b && m < |TYPES|
    requires cr.spec.nodes[a].nodeType == TYPES[m] == cr.spec.nodes[b].nodeType
    requires IterationOrder([a, b] + rest, cr.spec.nodes) && IterationOrder([b, a] + rest, cr.spec.nodes)
    requires GatesStored(w.objs, PlanFor(h, cr, [a, b] + rest).actions)
    requires var i := |Before(cr.spec.nodes, rest, m)|;
             i < |NodesOf(h, cr, [a, b] + rest)| && i < |NodesOf(h, cr, [b, a] + rest)|
    requires var i := |Before(cr.spec.nodes, rest, m)|;
             var n1, n2 := NodesOf(h, cr, [a, b] + rest), NodesOf(h, cr, [b, a] + rest);
             && (forall k :: 0 <= k < i ==> Good(h, w.objs, n1[k].workload))
             && !Fresh(h, w.objs, n1[i].workload) && !Fresh(h, w.objs, n2[i].workload)
             && n1[i].workload.key in w2.objs && !RolledOut(w2.objs[n1[i].workload.key])
    requires Between(w, Deploy(env, h, cr, PlanOf(h, cr, [a, b] + rest), w).w, w2)
    ensures var i := |Before(cr.spec.nodes, rest, m)|;
            var ka, b2 := NodesOf(h, cr, [a, b] + rest)[i].workload.key, NodesOf(h, cr, [b, a] + rest)[i].workload;
            var q := Deploy(env, h, cr2, PlanOf(h, cr2, [b, a] + rest), w2).w;
            && !Fresh(h, w2.objs, b2) && Fresh(h, q.objs, b2)
            && ka in q.objs && !RolledOut(q.objs[ka]) && b2.key != ka
  {
    hide Deploy, MakeNode, Alone, Faultless, Between, Current, Good, Fresh, RolledOut, GatesDistinct, WellFormed,
         FirstStale, NodesOf, Flatten, GatesStored, Before, IterationOrder, RolledJust, SameSource;
    var o1, o2 := [a, b] + rest, [b, a] + rest;
    var i := |Before(cr.spec.nodes, rest, m)|;
    var n1, n2 := NodesOf(h, cr, o1), NodesOf(h, cr, o2);
    PairPlanned(h, cr, a, b, rest, m);
    forall k | 0 <= k < i ensures Good(h, w.objs, n2[k].workload) {
      assert n2[k] == n2[..i][k] == n1[..i][k] == n1[k];
    }
    var f1 := FirstStaleNode(h, cr, o1, w.objs, i);
    var f2 := FirstStaleNode(h, cr, o2, w.objs, i);
    PlanWellFormed(h, cr, o1);
    PlanWellFormed(h, cr, o2);
    PlanGatesDistinct(h, cr, o1);
    PlanGatesDistinct(h, cr, o2);
    SameGatesInOrders(h, cr, o1, o2);
    PlanOfSameSource(h, cr, cr2, o2);
    SameNodesOfSource(cr, cr2);
    var p1, p2 := PlanFor(h, cr, o1), PlanFor(h, cr, o2);
    forall j | 0 <= j <= f2 && p2.actions[j].Gate? ensures p2.actions[j].content.key != p1.actions[f1].content.key {
      if j < f2 {
        var k :| 0 <= k < i && n2[k].workload == p2.actions[j].content;
      }
    }
    ShuffledOrderOverlaps(env, h, cr, cr2, p1, p2, f1, f2, w, w2);
    StaleBefore(h, w2.objs, Deploy(env, h, cr2, Some(p2), w2).w.objs, p2.actions, f2);
  }

  lemma StaleBefore(h: Hasher, a: map<Key, Obj>, b: map<Key, Obj>, actions: seq<Action>, f: nat)
    requires f < |actions| && RolledJust(h, a, b, actions, f)
    ensures !Fresh(h, a, actions[f].content)
  {
  }

  // ---------- exactly the specs with distinct types ----------

  /** No run of passes over the spec, in whatever surroundings that leave the passes alone, ever has two planned
      workloads rolling out, if it starts with all of them stored and rolled out. */
  ghost predicate AlwaysOneByOne(h: Hasher, cr: Cr) {
    forall env: Env, crs: seq<Cr>, orders: seq<seq<string>>, ws: seq<World> ::
      IsRunOf(env, h, cr, crs, orders, ws) ==> OneByOneThrough(h, crs, orders, ws)
  }

  ghost predicate OneByOneThrough(h: Hasher, crs: seq<Cr>, orders: seq<seq<string>>, ws: seq<World>) {
    && |ws| == |crs| + 1 && |orders| == |crs|
    && forall n :: 0 <= n < |crs| ==> AtMostOneRolling(ws[n + 1].objs, PlanFor(h, crs[n], orders[n]).actions)
  }

  ghost predicate IsRunOf(env: Env, h: Hasher, cr: Cr, crs: seq<Cr>, orders: seq<seq<string>>, ws: seq<World>) {
    && Alone(env) && SpecRun(env, h, crs, orders, ws) && crs != []
    && (forall n :: 0 <= n < |crs| ==> SameSource(cr, crs[n]))
    && AllDone(ws[0].objs, PlanFor(h, crs[0], orders[0]).actions)
  }

  /** Surroundings in which nothing happens and no call fails. */
  function Calm(): Env {
    (n: nat) => Tick([], NoFault, [], "")
  }

  /** The resource as it is past its first generation, live, with the finalizer on. */
  function Live(cr: Cr): Cr {
    cr.(deleting := false, generation := 2, finalizers := [FINALIZER_NAME])
  }

  function Idle1(hash: string): Obj {
    Obj(0, map[], hash, OtherBody(""), "", 0, "", "")
  }

  /** A store with the workloads of the nodes, all rolled out, the first `i` as planned and the others stale. */
  function StartObjs(h: Hasher, ns: seq<NodeObjects>, i: nat, stale: string): map<Key, Obj>
    decreases |ns|
  {
    if ns == [] then map[]
    else
      var n := |ns| - 1;
      StartObjs(h, ns[..n], i, stale)[ns[n].workload.key := Idle1(if n < i then h(ns[n].workload) else stale)]
  }

  lemma {:induction false} StartAt(h: Hasher, ns: seq<NodeObjects>, i: nat, stale: string, k: nat)
    requires k < |ns| && forall x, y :: 0 <= x < y < |ns| ==> ns[x].workload.key != ns[y].workload.key
    ensures var objs := StartObjs(h, ns, i, stale);
            ns[k].workload.key in objs && objs[ns[k].workload.key] == Idle1(if k < i then h(ns[k].workload) else stale)
    decreases |ns|
  {
    if k < |ns| - 1 {
      StartAt(h, ns[..|ns| - 1], i, stale, k);
    }
  }

  lemma WorkloadsDistinct(h: Hasher, cr: Cr, order: seq<string>)
    requires IterationOrder(order, cr.spec.nodes)
    ensures var ns := NodesOf(h, cr, order);
            forall x, y :: 0 <= x < y < |ns| ==> ns[x].workload.key != ns[y].workload.key
  {
    hide MakeNode, NodesOf, Shaped;
    var ns, keys := NodesOf(h, cr, order), Prescribed(cr.spec.nodes, order);
    PlanNodes(h, cr, order);
    forall x, y | 0 <= x < y < |ns| ensures ns[x].workload.key != ns[y].workload.key {
      PlannedNode(h, cr, order, x);
      PlannedNode(h, cr, order, y);
      DifferentNames(cr, keys[x], keys[y]);
    }
  }

  /** A start for two nodes of one type: everything stored and rolled out, everything before them as planned, both
      stale. */
  lemma StartGood(h: Hasher, cr: Cr, order: seq<string>, i: nat, stale: string)
    requires IterationOrder(order, cr.spec.nodes) && KnownTypes(cr.spec.nodes) && i < |NodesOf(h, cr, order)|
    ensures var ns := NodesOf(h, cr, order);
            var objs := StartObjs(h, ns, i, stale);
            && AllDone(objs, PlanFor(h, cr, order).actions) && GatesStored(objs, PlanFor(h, cr, order).actions)
            && (forall k :: 0 <= k < i ==> Good(h, objs, ns[k].workload))
            && forall k :: i <= k < |ns| ==> ns[k].workload.key in objs && objs[ns[k].workload.key].hash == stale
  {
    hide MakeNode, NodesOf, Flatten, StartObjs, IterationOrder, KnownTypes;
    var ns := NodesOf(h, cr, order);
    var objs := StartObjs(h, ns, i, stale);
    WorkloadsDistinct(h, cr, order);
    forall k | 0 <= k < |ns|
      ensures ns[k].workload.key in objs
      ensures objs[ns[k].workload.key] == Idle1(if k < i then h(ns[k].workload) else stale)
    {
      StartAt(h, ns, i, stale, k);
    }
    forall x | x in PlanFor(h, cr, order).actions && x.Gate?
      ensures Stored(objs, x.content) && RolledOut(objs[x.content.key])
    {
      var k := GateOfNode(h, cr, order, x);
    }
  }

  lemma StaleHash(x: string, y: string)
    ensures x + y + "+" != x && x + y + "+" != y
  {
    assert |x + y + "+"| > |x| && |x + y + "+"| > |y|;
  }

  /** Two nodes of one type: a run of two passes at whose end both roll out. */
  lemma PairFails(h: Hasher, cr: Cr, a: string, b: string)
    requires !cr.spec.ignored && cr.spec.valid && cr.spec.rollingDeploy && KnownTypes(cr.spec.nodes)
    requires a in cr.spec.nodes && b in cr.spec.nodes && a != b
    requires cr.spec.nodes[a].nodeType == cr.spec.nodes[b].nodeType
    ensures !AlwaysOneByOne(h, cr)
  {
    hide Deploy, NodesOf, Flatten, IterationOrder, StartObjs, Before, Between, RolledOut, AllDone, Good, FirstStale,
         AtMostOneRolling, GatesStored;
    var c := Live(cr);
    var m: nat :| m < |TYPES| && TYPES[m] == c.spec.nodes[a].nodeType;
    var rest := PairOrders(c.spec.nodes, a, b);
    var o1, o2 := [a, b] + rest, [b, a] + rest;
    var i := |Before(c.spec.nodes, rest, m)|;
    var n1, n2 := NodesOf(h, c, o1), NodesOf(h, c, o2);
    PairPlanned(h, c, a, b, rest, m);
    var stale := h(n1[i].workload) + h(n2[i].workload) + "+";
    StaleHash(h(n1[i].workload), h(n2[i].workload));
    StartGood(h, c, o1, i, stale);
    var w := World(Some(c), StartObjs(h, n1, i, stale), 0, 0, []);
    assert w.objs[n1[i + 1].workload.key].hash == stale;
    assert n1[i + 1].workload.key == n2[i].workload.key;
    var w2 := AfterFirst(h, c, o1, i, w);
    var w3 := AfterSecond(h, c, a, b, rest, m, w, w2);
    var crs, orders, ws := [c, c], [o1, o2], [w, w2, w3];
    assert SpecRun(Calm(), h, crs, orders, ws) by {
      RunOfTwo(h, c, o1, o2, w, w2, w3);
    }
    assert IsRunOf(Calm(), h, cr, crs, orders, ws);
    assert !OneByOneThrough(h, crs, orders, ws) by {
      assert !AtMostOneRolling(ws[1 + 1].objs, PlanFor(h, crs[1], orders[1]).actions);
    }
  }

  lemma RunOfTwo(h: Hasher, c: Cr, o1: seq<string>, o2: seq<string>, w: World, w2: World, w3: World)
    requires IterationOrder(o1, c.spec.nodes) && IterationOrder(o2, c.spec.nodes) && KnownTypes(c.spec.nodes)
    requires c.spec.rollingDeploy && c.generation > 1 && !c.deleting
    requires Between(w, Deploy(Calm(), h, c, PlanOf(h, c, o1), w).w, w2)
    requires Between(w2, Deploy(Calm(), h, c, PlanOf(h, c, o2), w2).w, w3)
    ensures SpecRun(Calm(), h, [c, c], [o1, o2], [w, w2, w3])
  {
    hide Deploy, Between, IterationOrder, NodesOf, Flatten, AllDone, Calm;
  }

  /** The first pass rewrites node `i`'s workload, and the controller starts on it. */
  lemma AfterFirst(h: Hasher, c: Cr, order: seq<string>, i: nat, w: World) returns (w2: World)
    requires c == Live(c) && Current(c, w) && c.spec.rollingDeploy && KnownTypes(c.spec.nodes)
    requires IterationOrder(order, c.spec.nodes) && i < |NodesOf(h, c, order)|
    requires GatesStored(w.objs, PlanFor(h, c, order).actions)
    requires forall k :: 0 <= k < i ==> Good(h, w.objs, NodesOf(h, c, order)[k].workload)
    requires !Fresh(h, w.objs, NodesOf(h, c, order)[i].workload)
    ensures w2.cr == Some(c) && Between(w, Deploy(Calm(), h, c, PlanOf(h, c, order), w).w, w2)
    ensures var k := NodesOf(h, c, order)[i].workload.key; k in w2.objs && !RolledOut(w2.objs[k])
  {
    hide Deploy, NodesOf, Flatten, IterationOrder, Good, GatesStored, WellFormed, GatesDistinct, FirstStale, Current,
         Calm;
    var plan := PlanFor(h, c, order);
    var q := Deploy(Calm(), h, c, Some(plan), w).w;
    var k := NodesOf(h, c, order)[i].workload.key;
    PlanWellFormed(h, c, order);
    PlanGatesDistinct(h, c, order);
    var f := FirstStaleNode(h, c, order, w.objs, i);
    CalmIs();
    FirstStaleUpdated(Calm(), h, c, plan, f, w);
    StoredOf(w.objs, plan.actions, f);
    RollingSet(w, q, k);
    w2 := q.(objs := q.objs[k := Rolling1(q.objs[k])], cr := Some(c));
  }

  lemma StoredOf(objs: map<Key, Obj>, actions: seq<Action>, f: nat)
    requires GatesStored(objs, actions) && f < |actions| && actions[f].Gate?
    ensures actions[f].content.key in objs
  {
    assert actions[f] in actions;
  }

  lemma CalmIs()
    ensures Alone(Calm()) && Faultless(Calm())
  {
  }

  /** The second pass, in the other order, rewrites the other workload, and the controller starts on that as well. */
  lemma AfterSecond(h: Hasher, c: Cr, a: string, b: string, rest: seq<string>, m: nat, w: World, w2: World)
    returns (w3: World)
    requires c == Live(c) && Current(c, w) && Current(c, w2) && c.spec.rollingDeploy && KnownTypes(c.spec.nodes)
    requires a in c.spec.nodes && b in c.spec.nodes && a != b && m < |TYPES|
    requires c.spec.nodes[a].nodeType == TYPES[m] == c.spec.nodes[b].nodeType
    requires IterationOrder([a, b] + rest, c.spec.nodes) && IterationOrder([b, a] + rest, c.spec.nodes)
    requires GatesStored(w.objs, PlanFor(h, c, [a, b] + rest).actions)
    requires var i := |Before(c.spec.nodes, rest, m)|;
             i < |NodesOf(h, c, [a, b] + rest)| && i < |NodesOf(h, c, [b, a] + rest)|
    requires var i := |Before(c.spec.nodes, rest, m)|;
             var n1, n2 := NodesOf(h, c, [a, b] + rest), NodesOf(h, c, [b, a] + rest);
             && (forall k :: 0 <= k < i ==> Good(h, w.objs, n1[k].workload))
             && !Fresh(h, w.objs, n1[i].workload) && !Fresh(h, w.objs, n2[i].workload)
             && n1[i].workload.key in w2.objs && !RolledOut(w2.objs[n1[i].workload.key])
    requires Between(w, Deploy(Calm(), h, c, PlanOf(h, c, [a, b] + rest), w).w, w2)
    ensures Between(w2, Deploy(Calm(), h, c, PlanOf(h, c, [b, a] + rest), w2).w, w3)
    ensures !AtMostOneRolling(w3.objs, PlanFor(h, c, [b, a] + rest).actions)
  {
    hide Deploy, NodesOf, Flatten, IterationOrder, Good, GatesStored, Before, Current, Calm, Between, Fresh;
    var i := |Before(c.spec.nodes, rest, m)|;
    var o2 := [b, a] + rest;
    var n1, n2 := NodesOf(h, c, [a, b] + rest), NodesOf(h, c, o2);
    var plan2 := PlanFor(h, c, o2);
    var q := Deploy(Calm(), h, c, Some(plan2), w2).w;
    CalmIs();
    PairPlanned(h, c, a, b, rest, m);
    OverlapForSharedType(Calm(), h, c, c, a, b, rest, m, w, w2);
    var ka, kb := n1[i].workload.key, n2[i].workload.key;
    SameNames(h, c, o2, w, w2, [a, b] + rest, i);
    FreshDiffers(h, w2.objs, q.objs, n2[i].workload);
    RollingSet(w2, q, kb);
    w3 := q.(objs := q.objs[kb := Rolling1(q.objs[kb])]);
    TwoRolling(h, c, o2, i, w3.objs);
  }

  lemma FreshDiffers(h: Hasher, a: map<Key, Obj>, b: map<Key, Obj>, c: Content)
    requires !Fresh(h, a, c) && Fresh(h, b, c) && c.key in a
    ensures c.key in b && b[c.key] != a[c.key]
  {
  }

  /** The second order's workloads are still stored. */
  lemma SameNames(h: Hasher, c: Cr, o2: seq<string>, w: World, w2: World, o1: seq<string>, i: nat)
    requires c == Live(c) && KnownTypes(c.spec.nodes) && c.spec.rollingDeploy
    requires IterationOrder(o1, c.spec.nodes) && IterationOrder(o2, c.spec.nodes) && i < |NodesOf(h, c, o2)|
    requires GatesStored(w.objs, PlanFor(h, c, o1).actions)
    requires Between(w, Deploy(Calm(), h, c, PlanOf(h, c, o1), w).w, w2)
    ensures NodesOf(h, c, o2)[i].workload.key in w2.objs
  {
    hide Deploy, NodesOf, Flatten, IterationOrder, GatesStored, Calm, PlanFor, WellFormed, GatesDistinct;
    var x := Gate(NodesOf(h, c, o2)[i].workload);
    NodeGatePlanned(h, c, o2, i);
    SameGatesInOrders(h, c, o1, o2);
    var y := GateOfKey(PlanFor(h, c, o2), PlanFor(h, c, o1), x);
    CalmIs();
    PlanWellFormed(h, c, o1);
    PlanGatesDistinct(h, c, o1);
    PassRolls(Calm(), h, c, PlanFor(h, c, o1), w);
    RolledStored(h, w.objs, Deploy(Calm(), h, c, Some(PlanFor(h, c, o1)), w).w.objs, PlanFor(h, c, o1).actions, y);
  }

  lemma RolledStored(h: Hasher, a: map<Key, Obj>, b: map<Key, Obj>, actions: seq<Action>, y: Action)
    requires RolledAtMostOne(h, a, b, actions) && GatesStored(a, actions) && y in actions && y.Gate?
    ensures y.content.key in b
  {
    if !SameGates(a, b, actions) {
      var i :| 0 <= i < |actions| && RolledJust(h, a, b, actions, i);
      var j :| 0 <= j < |actions| && actions[j] == y;
    }
  }

  lemma TwoRolling(h: Hasher, c: Cr, order: seq<string>, i: nat, objs: map<Key, Obj>)
    requires IterationOrder(order, c.spec.nodes) && KnownTypes(c.spec.nodes) && i + 1 < |NodesOf(h, c, order)|
    requires var k := NodesOf(h, c, order)[i].workload.key; k in objs && !RolledOut(objs[k])
    requires var k := NodesOf(h, c, order)[i + 1].workload.key; k in objs && !RolledOut(objs[k])
    ensures !AtMostOneRolling(objs, PlanFor(h, c, order).actions)
  {
    hide NodesOf, Flatten, IterationOrder, RolledOut, Shaped;
    var ns := NodesOf(h, c, order);
    var actions := PlanFor(h, c, order).actions;
    WorkloadsDistinct(h, c, order);
    PlanNodes(h, c, order);
    var f := GatePosition(c, ns, Prescribed(c.spec.nodes, order), i);
    var g := GatePosition(c, ns, Prescribed(c.spec.nodes, order), i + 1);
    assert actions[f].content.key != actions[g].content.key;
    assert Stored(objs, actions[f].content) && Stored(objs, actions[g].content);
    if f < g {
      assert actions[f].Gate? && actions[g].Gate?;
    }
  }

  /** The code keeps the documented "one by one" over every run of a rolling resource exactly when no two nodes of its
      spec have the same type. */
  lemma OneByOneIffTypesDistinct(h: Hasher, cr: Cr)
    requires !cr.spec.ignored && cr.spec.valid && cr.spec.rollingDeploy && KnownTypes(cr.spec.nodes)
    ensures AlwaysOneByOne(h, cr) <==> TypesAllDistinct(cr.spec.nodes)
  {
    hide IsRunOf, OneByOneThrough;
    if TypesAllDistinct(cr.spec.nodes) {
      forall env: Env, crs: seq<Cr>, orders: seq<seq<string>>, ws: seq<World> | IsRunOf(env, h, cr, crs, orders, ws)
        ensures OneByOneThrough(h, crs, orders, ws)
      {
        DistinctKeeps(env, h, cr, crs, orders, ws);
      }
    } else {
      var a, b :| a in cr.spec.nodes && b in cr.spec.nodes && a != b
                  && cr.spec.nodes[a].nodeType == cr.spec.nodes[b].nodeType;
      PairFails(h, cr, a, b);
    }
  }

  lemma DistinctKeeps(env: Env, h: Hasher, cr: Cr, crs: seq<Cr>, orders: seq<seq<string>>, ws: seq<World>)
    requires TypesAllDistinct(cr.spec.nodes) && IsRunOf(env, h, cr, crs, orders, ws)
    ensures OneByOneThrough(h, crs, orders, ws)
  {
    hide Deploy, NodesOf, Flatten, AtMostOneRolling, Alone, AllDone, Between;
    AllDoneIsOneByOne(h, ws[0].objs, PlanFor(h, crs[0], orders[0]).actions);
    forall n | 0 <= n < |crs| ensures AtMostOneRolling(ws[n + 1].objs, PlanFor(h, crs[n], orders[n]).actions) {
      OneByOneForDistinctTypes(env, h, crs, orders, ws, n);
    }
  }
}
