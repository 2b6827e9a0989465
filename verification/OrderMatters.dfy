/** When the iteration order of the node map does decide what is planned: the exact condition on the spec. */
module OrderMatters {
  import opened Cluster
  import opened ApiServer
  import opened Names
  import opened PrescribedOrder
  import opened Reconcile
  import opened Frames
  import opened Upserts
  import opened Prune
  import opened Quiescence
  import opened Rolling
  import opened Convergence
  import opened Planner
  import opened Planned
  import opened Sharing
  import opened SharedTemplates
  import opened ConfigPropagation
  import opened OrderIndependence
  import opened OneByOneUpdates
  import opened WorkloadOrder
  import opened Conflicts
  import opened PlanOrder

  // ---------- two nodes of one type, in both orders ----------

  lemma {:induction false} ByTypesHasTypes(nodes: map<string, NodeSpec>, order: seq<string>, types: seq<string>,
                                           k: string)
    requires k in ByTypes(nodes, order, types)
    ensures k in order && k in nodes && nodes[k].nodeType in types
    decreases |types|
  {
    OfTypeCounts(nodes, order, types[0], k);
    if k in OfType(nodes, order, types[0]) {
      OfTypeHasType(nodes, order, types[0]);
      assert k in multiset(OfType(nodes, order, types[0]));
      assert k in multiset(order);
      assert types[0] in types;
    } else {
      ByTypesHasTypes(nodes, order, types[1..], k);
      assert nodes[k].nodeType in types;
    }
  }

  /** What stands before two nodes of the type `m` that the map yields first is of lower rank, and is neither of
      them. */
  lemma BeforeIsLower(nodes: map<string, NodeSpec>, a: string, b: string, rest: seq<string>, m: nat, k: string)
    requires IterationOrder([a, b] + rest, nodes) && m < |TYPES| && k in Before(nodes, rest, m)
    ensures k in nodes && k != a && k != b && Rank(nodes[k].nodeType) < m
  {
    hide Rank, OfType;
    ByTypesHasTypes(nodes, rest, TYPES[..m], k);
    var j :| 0 <= j < |rest| && rest[j] == k;
    assert ([a, b] + rest)[j + 2] == k && ([a, b] + rest)[0] == a && ([a, b] + rest)[1] == b;
    var i :| 0 <= i < |TYPES[..m]| && TYPES[..m][i] == nodes[k].nodeType;
    RankOf(i);
  }

  lemma TypeIndex(t: string) returns (m: nat)
    requires KnownType(t)
    ensures m < |TYPES| && TYPES[m] == t && Rank(t) == m
  {
    m :| m < |TYPES| && TYPES[m] == t;
    RankOf(m);
  }

  // ---------- the port of a shared probe ----------

  lemma FirstInOrder(cr: Cr, a: string, b: string, rest: seq<string>, m: nat)
    requires IterationOrder([a, b] + rest, cr.spec.nodes) && m < |TYPES| && FirstUsing(cr.spec, a) && b in cr.spec.nodes
    requires cr.spec.nodes[a].nodeType == TYPES[m] == cr.spec.nodes[b].nodeType
    ensures var keys, i := Prescribed(cr.spec.nodes, [a, b] + rest), |Before(cr.spec.nodes, rest, m)|;
            && (forall k :: k in keys ==> k in cr.spec.nodes)
            && FirstUser(cr, keys, i) && keys[i] == a && i + 1 < |keys| && keys[i + 1] == b
  {
    hide Rank, Before, After, Prescribed, IterationOrder;
    var keys, i := Prescribed(cr.spec.nodes, [a, b] + rest), |Before(cr.spec.nodes, rest, m)|;
    PrescribedAreNodes(cr.spec.nodes, [a, b] + rest);
    PairPrescribed(cr.spec.nodes, a, b, rest, m);
    RankOf(m);
    forall g | 0 <= g < i ensures cr.spec.nodes[keys[g]].probe.Some? {
      assert keys[g] == Before(cr.spec.nodes, rest, m)[g];
      BeforeIsLower(cr.spec.nodes, a, b, rest, m, keys[g]);
    }
  }

  /** The workload of a node is the only one planned under its name. */
  lemma GateUnderName(h: Hasher, cr: Cr, order: seq<string>, i: nat, d: Content)
    requires IterationOrder(order, cr.spec.nodes) && i < |NodesOf(h, cr, order)|
    requires d in Gates(PlanFor(h, cr, order)) && d.key == NodesOf(h, cr, order)[i].workload.key
    ensures d == NodesOf(h, cr, order)[i].workload
  {
    hide NodesOf, Prescribed, IterationOrder, PlanFor, UniqueString, Gates, MakeNode, SharedAt;
    GateIffWorkload(h, cr, order, d);
    var j :| 0 <= j < |NodesOf(h, cr, order)| && NodesOf(h, cr, order)[j].workload == d;
    PlannedCount(h, cr, order);
    PlannedNode(h, cr, order, i);
    PlannedNode(h, cr, order, j);
    UniqueStringInjective(cr.name, Prescribed(cr.spec.nodes, order)[i], Prescribed(cr.spec.nodes, order)[j]);
    PrescribedDistinct(cr.spec.nodes, order);
  }

  /** The workload planned for the node at `i`, when the one at `f` is the first to use the cluster's probe. */
  lemma PortPlanned(h: Hasher, cr: Cr, order: seq<string>, f: nat, i: nat) returns (c: Content)
    requires IterationOrder(order, cr.spec.nodes)
    requires forall k :: k in Prescribed(cr.spec.nodes, order) ==> k in cr.spec.nodes
    requires FirstUser(cr, Prescribed(cr.spec.nodes, order), f) && f <= i < |Prescribed(cr.spec.nodes, order)|
    requires cr.spec.nodes[Prescribed(cr.spec.nodes, order)[i]].probe.None? && cr.spec.probe == Some(Probe(0))
    requires cr.spec.nodes[Prescribed(cr.spec.nodes, order)[f]].druidPort != 0
    ensures i < |NodesOf(h, cr, order)| && c == NodesOf(h, cr, order)[i].workload && c in Gates(PlanFor(h, cr, order))
    ensures var key := Prescribed(cr.spec.nodes, order)[i];
            c.key == Key(WorkloadKind(cr.spec.nodes[key]), cr.ns, UniqueString(cr.name, key))
    ensures c.body.WorkloadBody? && c.body.probePort == cr.spec.nodes[Prescribed(cr.spec.nodes, order)[f]].druidPort
  {
    hide NodesOf, Prescribed, IterationOrder, PlanFor, UniqueString, Gates, MakeNode, SharedAt, FirstUser, WorkloadKind;
    PlannedNode(h, cr, order, i);
    SharedProbePort(h, cr, order, f, i);
    c := NodesOf(h, cr, order)[i].workload;
    GateIffWorkload(h, cr, order, c);
  }

  /** Two nodes that may be the first to fill in the port of the cluster's probe, and fill in different ones: there
      are two orders that plan different workloads. */
  lemma WorkloadsVary(h: Hasher, cr: Cr, a: string, b: string) returns (o1: seq<string>, o2: seq<string>)
    requires KnownTypes(cr.spec.nodes) && cr.spec.probe == Some(Probe(0))
    requires FirstUsing(cr.spec, a) && FirstUsing(cr.spec, b)
    requires cr.spec.nodes[a].druidPort != cr.spec.nodes[b].druidPort && cr.spec.nodes[a].druidPort != 0
    requires cr.spec.nodes[b].druidPort != 0
    ensures IterationOrder(o1, cr.spec.nodes) && IterationOrder(o2, cr.spec.nodes)
    ensures Gates(PlanFor(h, cr, o1)) != Gates(PlanFor(h, cr, o2))
  {
    hide Prescribed, IterationOrder, PlanFor, Rank, Before, Gates, UniqueString, FirstUser, NodesOf, WorkloadKind;
    RankTellsType(cr.spec.nodes[a].nodeType, cr.spec.nodes[b].nodeType);
    var m := TypeIndex(cr.spec.nodes[a].nodeType);
    var rest := PairOrders(cr.spec.nodes, a, b);
    o1, o2 := [a, b] + rest, [b, a] + rest;
    FirstInOrder(cr, a, b, rest, m);
    FirstInOrder(cr, b, a, rest, m);
    var i := |Before(cr.spec.nodes, rest, m)|;
    var c := PortPlanned(h, cr, o1, i, i);
    var d := PortPlanned(h, cr, o2, i, i + 1);
    assert c.key == d.key && c != d;
    if d in Gates(PlanFor(h, cr, o1)) {
      GateUnderName(h, cr, o1, i, d);
    }
  }

  /** The planned workloads are the same for every iteration order exactly when the port of a shared probe is fixed;
      ports of the nodes that use it are given. */
  lemma WorkloadsFixedIff(h: Hasher, cr: Cr)
    requires KnownTypes(cr.spec.nodes) && forall k :: UsesProbe(cr.spec, k) ==> cr.spec.nodes[k].druidPort != 0
    ensures (forall o1, o2 :: IterationOrder(o1, cr.spec.nodes) && IterationOrder(o2, cr.spec.nodes) ==>
               Gates(PlanFor(h, cr, o1)) == Gates(PlanFor(h, cr, o2)))
       <==> ProbePortFixed(cr.spec)
  {
    hide IterationOrder, PlanFor, Gates, FirstUsing, KnownTypes, WorkloadOf;
    if ProbePortFixed(cr.spec) {
      forall o1, o2 | IterationOrder(o1, cr.spec.nodes) && IterationOrder(o2, cr.spec.nodes)
        ensures Gates(PlanFor(h, cr, o1)) == Gates(PlanFor(h, cr, o2))
      {
        GatesFromSpec(h, cr, o1);
        GatesFromSpec(h, cr, o2);
      }
    } else {
      var a, b := TwoPorts(cr.spec);
      var o1, o2 := WorkloadsVary(h, cr, a, b);
    }
  }

  lemma TwoPorts(spec: DruidSpec) returns (a: string, b: string)
    requires !ProbePortFixed(spec) && forall k :: UsesProbe(spec, k) ==> spec.nodes[k].druidPort != 0
    ensures FirstUsing(spec, a) && FirstUsing(spec, b) && spec.nodes[a].druidPort != spec.nodes[b].druidPort
    ensures spec.probe == Some(Probe(0))
  {
    a, b :| FirstUsing(spec, a) && FirstUsing(spec, b) && !(spec.nodes[a].druidPort == spec.nodes[b].druidPort != 0);
  }

  // ---------- annotations of shared templates ----------

  /** The operator's own annotation is not given in the spec. */
  predicate HashNotGiven(spec: DruidSpec) {
    forall x :: 0 <= x < |spec.services| && spec.services[x].annotations.Some? ==>
      "druidOpResourceHash" !in spec.services[x].annotations.value
  }

  lemma SentSelects(h: Hasher, cr: Cr, users: seq<string>, key: string, x: nat)
    requires (forall k :: k in users ==> k in cr.spec.nodes) && x < |cr.spec.services| && key in cr.spec.nodes
    ensures var s := SelectorOf(Sent(h, cr, users, key, x));
            "nodeSpecUniqueStr" in s && s["nodeSpecUniqueStr"] == UniqueString(cr.name, key)
  {
    hide Left, UserLabels, UniqueString;
  }

  /** The hash annotation that the last user left in a template tells who that was. */
  lemma AnnotationTells(h: Hasher, cr: Cr, users: seq<string>, a: string, b: string, x: nat, y: nat)
    requires (forall k :: k in users ==> k in cr.spec.nodes) && a in cr.spec.nodes && b in cr.spec.nodes && b !in users
    requires x < |cr.spec.services| && y < |cr.spec.services| && Injective(h) && HashNotGiven(cr.spec)
    requires cr.spec.services[x].annotations.Some?
    ensures Sent(h, cr, users + [b], a, x) != Sent(h, cr, users, a, y)
  {
    hide Left, IntendedLabels, OverwrittenMap, UniqueString;
    var after := users + [b];
    assert after[..|after| - 1] == users && after[|after| - 1] == b;
    LeftIs(h, cr, after, x);
    LeftIs(h, cr, users, y);
    assert Sent(h, cr, after, a, x).annotations["druidOpResourceHash"] == h(Sent(h, cr, users, b, x));
    if users != [] && Sent(h, cr, after, a, x) == Sent(h, cr, users, a, y) {
      var init, last := users[..|users| - 1], users[|users| - 1];
      assert last in users;
      SentSelects(h, cr, users, b, x);
      SentSelects(h, cr, init, last, y);
      UniqueStringInjective(cr.name, b, last);
    }
  }

  /** Where two users of one type stand, and who used the templates before them. */
  lemma UsersOfPair(cr: Cr, a: string, b: string, rest: seq<string>, m: nat)
    requires IterationOrder([a, b] + rest, cr.spec.nodes) && m < |TYPES|
    requires UsesServices(cr.spec, a) && UsesServices(cr.spec, b)
    requires cr.spec.nodes[a].nodeType == TYPES[m] == cr.spec.nodes[b].nodeType
    ensures var keys, i := Prescribed(cr.spec.nodes, [a, b] + rest), |Before(cr.spec.nodes, rest, m)|;
            && (forall k :: k in keys ==> k in cr.spec.nodes)
            && i + 1 < |keys| && keys[i] == a && keys[i + 1] == b
            && (forall k :: k in Before(cr.spec.nodes, rest, m) ==> k in cr.spec.nodes)
            && keys[..i] == Before(cr.spec.nodes, rest, m)
            && Users(cr, keys[..i + 1]) == Users(cr, Before(cr.spec.nodes, rest, m)) + [a]
  {
    hide Rank, Before, After, Prescribed, IterationOrder;
    var before := Before(cr.spec.nodes, rest, m);
    var keys := Prescribed(cr.spec.nodes, [a, b] + rest);
    PrescribedAreNodes(cr.spec.nodes, [a, b] + rest);
    PairPrescribed(cr.spec.nodes, a, b, rest, m);
    assert keys[..|before|] == before && keys[..|before| + 1] == before + [a];
    forall k | k in before ensures k in cr.spec.nodes {
      BeforeIsLower(cr.spec.nodes, a, b, rest, m, k);
    }
    UsersSnoc(cr, before, a);
  }

  lemma NotAmongUsers(cr: Cr, a: string, b: string, rest: seq<string>, m: nat)
    requires IterationOrder([a, b] + rest, cr.spec.nodes) && m < |TYPES|
    requires forall k :: k in Before(cr.spec.nodes, rest, m) ==> k in cr.spec.nodes
    ensures b !in Users(cr, Before(cr.spec.nodes, rest, m))
    ensures forall k :: k in Users(cr, Before(cr.spec.nodes, rest, m)) ==> k in cr.spec.nodes
  {
    hide Before, IterationOrder;
    UsersAreNodes(cr, Before(cr.spec.nodes, rest, m));
    if b in Before(cr.spec.nodes, rest, m) {
      BeforeIsLower(cr.spec.nodes, a, b, rest, m, b);
    }
  }

  /** Two nodes of one type that use a template that comes with annotations: there are two orders that plan different
      services, since the template carries the hash of what its last user sent. */
  lemma ServicesVary(h: Hasher, cr: Cr, a: string, b: string, x: nat) returns (o1: seq<string>, o2: seq<string>)
    requires KnownTypes(cr.spec.nodes) && Injective(h) && HashNotGiven(cr.spec)
    requires UsesServices(cr.spec, a) && UsesServices(cr.spec, b) && a != b
    requires cr.spec.nodes[a].nodeType == cr.spec.nodes[b].nodeType
    requires x < |cr.spec.services| && cr.spec.services[x].annotations.Some?
    ensures IterationOrder(o1, cr.spec.nodes) && IterationOrder(o2, cr.spec.nodes)
    ensures Desired(PlanFor(h, cr, o1)) != Desired(PlanFor(h, cr, o2))
  {
    hide Prescribed, IterationOrder, PlanFor, Rank, Before, Desired, UniqueString, Injective, HashNotGiven, Users, Sent;
    var m := TypeIndex(cr.spec.nodes[a].nodeType);
    var rest := PairOrders(cr.spec.nodes, a, b);
    o1, o2 := [a, b] + rest, [b, a] + rest;
    var i := |Before(cr.spec.nodes, rest, m)|;
    var k2 := Prescribed(cr.spec.nodes, o2);
    UsersOfPair(cr, a, b, rest, m);
    UsersOfPair(cr, b, a, rest, m);
    NotAmongUsers(cr, a, b, rest, m);
    var c := WrittenService(h, cr, k2, i + 1, x);
    WrittenInPlan(h, cr, o2, i + 1, x);
    if c in Desired(PlanFor(h, cr, o1)) {
      NotInFirst(h, cr, o1, a, i, x, b, c);
    }
  }

  /** What node `a` sends after `b` is not planned in an order in which `b` has not come before. */
  lemma NotInFirst(h: Hasher, cr: Cr, order: seq<string>, a: string, i: nat, x: nat, b: string, c: Content)
    requires IterationOrder(order, cr.spec.nodes) && Injective(h) && HashNotGiven(cr.spec)
    requires UsesServices(cr.spec, a) && b in cr.spec.nodes && x < |cr.spec.services|
    requires cr.spec.services[x].annotations.Some?
    requires forall k :: k in Prescribed(cr.spec.nodes, order) ==> k in cr.spec.nodes
    requires i < |Prescribed(cr.spec.nodes, order)| && Prescribed(cr.spec.nodes, order)[i] == a
    requires var users := Users(cr, Prescribed(cr.spec.nodes, order)[..i]);
             && (forall k :: k in users ==> k in cr.spec.nodes) && b !in users
             && c == Sent(h, cr, users + [b], a, x)
    ensures c !in Desired(PlanFor(h, cr, order))
  {
    hide Prescribed, IterationOrder, PlanFor, Desired, UniqueString, Injective, HashNotGiven, Users, Sent, SelectorOf;
    var keys := Prescribed(cr.spec.nodes, order);
    var users := Users(cr, keys[..i]);
    if c in Desired(PlanFor(h, cr, order)) {
      SentSelects(h, cr, users + [b], a, x);
      SentIsService(h, cr, users + [b], a, x);
      var j, y := PlannedService(h, cr, order, c);
      ServiceIdentity(h, cr, keys, j, y);
      UniqueStringInjective(cr.name, a, keys[j]);
      PrescribedDistinct(cr.spec.nodes, order);
      AnnotationTells(h, cr, users, a, b, x, y);
    }
  }

  lemma SentIsService(h: Hasher, cr: Cr, users: seq<string>, key: string, x: nat)
    requires (forall k :: k in users ==> k in cr.spec.nodes) && x < |cr.spec.services| && key in cr.spec.nodes
    ensures Sent(h, cr, users, key, x).key.kind.Service?
  {
    hide Left;
  }

  // ---------- main result ----------

  lemma GatesOfDesired(p: Plan, q: Plan)
    requires WellFormed(p) && WellFormed(q) && Desired(p) == Desired(q)
    ensures Gates(p) <= Gates(q)
  {
    forall c | c in Gates(p) ensures c in Gates(q) {
      assert c in Desired(q);
      assert c != q.common;
      var a :| a in q.actions && a.content == c;
      assert a.Gate?;
    }
  }

  /** The iteration order of the node map is immaterial exactly when the port of a shared probe is fixed and, if a
      template of the cluster comes with annotations, no two nodes of one type use it; for specs that leave the
      operator's own annotation and no label key of one user to the next. */
  lemma OrderImmaterialIff(h: Hasher, cr: Cr)
    requires Injective(h) && KnownTypes(cr.spec.nodes) && HashNotGiven(cr.spec) && LeavesNoKeys(cr)
    requires forall k :: UsesProbe(cr.spec, k) ==> cr.spec.nodes[k].druidPort != 0
    ensures (forall o1, o2 :: IterationOrder(o1, cr.spec.nodes) && IterationOrder(o2, cr.spec.nodes) ==>
               Desired(PlanFor(h, cr, o1)) == Desired(PlanFor(h, cr, o2)))
       <==> ProbePortFixed(cr.spec) && (Unannotated(cr.spec) || UserTypesDistinct(cr.spec))
  {
    hide IterationOrder, PlanFor, Gates, FirstUsing, ProbePortFixed, Desired, Injective, HashNotGiven, LeavesNoKeys;
    if ProbePortFixed(cr.spec) && (Unannotated(cr.spec) || UserTypesDistinct(cr.spec)) {
      forall o1, o2 | IterationOrder(o1, cr.spec.nodes) && IterationOrder(o2, cr.spec.nodes)
        ensures Desired(PlanFor(h, cr, o1)) == Desired(PlanFor(h, cr, o2))
      {
        PlansAgree(h, cr, o1, o2);
      }
    }
    if forall o1, o2 :: IterationOrder(o1, cr.spec.nodes) && IterationOrder(o2, cr.spec.nodes) ==>
         Desired(PlanFor(h, cr, o1)) == Desired(PlanFor(h, cr, o2)) {
      forall o1, o2 | IterationOrder(o1, cr.spec.nodes) && IterationOrder(o2, cr.spec.nodes)
        ensures Gates(PlanFor(h, cr, o1)) == Gates(PlanFor(h, cr, o2))
      {
        PlanWellFormed(h, cr, o1);
        PlanWellFormed(h, cr, o2);
        GatesOfDesired(PlanFor(h, cr, o1), PlanFor(h, cr, o2));
        GatesOfDesired(PlanFor(h, cr, o2), PlanFor(h, cr, o1));
      }
      WorkloadsFixedIff(h, cr);
      if !Unannotated(cr.spec) && !UserTypesDistinct(cr.spec) {
        var x :| 0 <= x < |cr.spec.services| && cr.spec.services[x].annotations.Some?;
        var a, b :| UsesServices(cr.spec, a) && UsesServices(cr.spec, b) && a != b
                    && cr.spec.nodes[a].nodeType == cr.spec.nodes[b].nodeType;
        var o1, o2 := ServicesVary(h, cr, a, b, x);
      }
    }
  }

  // ---------- passes in different orders ----------

  /** The names planned do not depend on the order. */
  lemma KeyInBoth(h: Hasher, cr: Cr, o1: seq<string>, o2: seq<string>, a: Action)
    requires IterationOrder(o1, cr.spec.nodes) && IterationOrder(o2, cr.spec.nodes) && KnownTypes(cr.spec.nodes)
    requires a in Flatten(NodesOf(h, cr, o1))
    ensures a.content.key in Keys(Flatten(NodesOf(h, cr, o2)))
  {
    hide NodeActions, NodesOf, Prescribed, IterationOrder, Flatten, MakeNode, NodeConfig, Extras, WorkloadKind,
         IntendedLabels, SharedAt, KnownTypes;
    var k1, k2 := Prescribed(cr.spec.nodes, o1), Prescribed(cr.spec.nodes, o2);
    var n1, n2 := NodesOf(h, cr, o1), NodesOf(h, cr, o2);
    FlattenHas(n1, a);
    var i :| 0 <= i < |n1| && a in NodeActions(n1[i]);
    PlannedCount(h, cr, o1);
    PrescribedAreNodes(cr.spec.nodes, o1);
    var j := Position(cr, o2, k1[i]);
    ConfigAndExtras(h, cr, o1, i);
    ConfigAndExtras(h, cr, o2, j);
    NodeActionsHas(n1[i], a);
    var b := a;
    if a.Gate? {
      PlannedNode(h, cr, o1, i);
      PlannedNode(h, cr, o2, j);
      b := Gate(n2[j].workload);
    } else if a.content in n1[i].services {
      var x :| 0 <= x < |n1[i].services| && n1[i].services[x] == a.content;
      ServiceNamedAlike(h, cr, o1, o2, i, j, x);
      b := Ensure(n2[j].services[x]);
    }
    NodeActionsHas(n2[j], b);
    FlattenHas(n2, b);
  }

  lemma Position(cr: Cr, order: seq<string>, k: string) returns (j: nat)
    requires IterationOrder(order, cr.spec.nodes) && KnownTypes(cr.spec.nodes) && k in cr.spec.nodes
    ensures j < |Prescribed(cr.spec.nodes, order)| && Prescribed(cr.spec.nodes, order)[j] == k
  {
    PrescribedHas(cr.spec.nodes, order, k);
    j :| j < |Prescribed(cr.spec.nodes, order)| && Prescribed(cr.spec.nodes, order)[j] == k;
  }

  lemma ServiceNamedAlike(h: Hasher, cr: Cr, o1: seq<string>, o2: seq<string>, i: nat, j: nat, x: nat)
    requires IterationOrder(o1, cr.spec.nodes) && IterationOrder(o2, cr.spec.nodes)
    requires i < |Prescribed(cr.spec.nodes, o1)| && j < |Prescribed(cr.spec.nodes, o2)|
    requires Prescribed(cr.spec.nodes, o1)[i] == Prescribed(cr.spec.nodes, o2)[j]
    requires IsService(NodesOf(h, cr, o1), i, x)
    ensures IsService(NodesOf(h, cr, o2), j, x)
    ensures NodesOf(h, cr, o1)[i].services[x].key == NodesOf(h, cr, o2)[j].services[x].key
  {
    hide NodesOf, Prescribed, IterationOrder, WrittenService, IsTemplate, ServiceName;
    ServiceWritten(h, cr, o1, i, x);
    ServiceWritten(h, cr, o2, j, x);
    ServiceIdentity(h, cr, Prescribed(cr.spec.nodes, o1), i, x);
    ServiceIdentity(h, cr, Prescribed(cr.spec.nodes, o2), j, x);
  }

  lemma KeysWithin(h: Hasher, cr: Cr, o1: seq<string>, o2: seq<string>)
    requires IterationOrder(o1, cr.spec.nodes) && IterationOrder(o2, cr.spec.nodes) && KnownTypes(cr.spec.nodes)
    ensures DesiredKeys(PlanFor(h, cr, o1)) <= DesiredKeys(PlanFor(h, cr, o2))
  {
    hide NodesOf, Flatten, IterationOrder, KnownTypes;
    forall k | k in Keys(PlanFor(h, cr, o1).actions) ensures k in Keys(PlanFor(h, cr, o2).actions) {
      var a :| a in PlanFor(h, cr, o1).actions && a.content.key == k;
      KeyInBoth(h, cr, o1, o2, a);
    }
  }

  lemma Counterpart(p: Plan, q: Plan, c: Content) returns (d: Content)
    requires c in Desired(p) && DesiredKeys(p) <= DesiredKeys(q)
    ensures d in Desired(q) && d.key == c.key
  {
    KeysOfDesired(p);
    d := DesiredWith(q, c.key);
  }

  /** Two orders that plan different objects undo each other's work: a pass in the one after a pass in the other always
      writes. */
  lemma OrdersNeverQuiet(env: Env, h: Hasher, cr: Cr, o1: seq<string>, o2: seq<string>, w: World, cr2: Cr)
    requires Drifting(env) && Injective(h) && KnownTypes(cr.spec.nodes)
    requires IterationOrder(o1, cr.spec.nodes) && IterationOrder(o2, cr.spec.nodes)
    requires !cr.deleting || cr.spec.disablePvcFinalizer
    requires !cr2.deleting || cr2.spec.disablePvcFinalizer
    requires Desired(PlanFor(h, cr, o1)) != Desired(PlanFor(h, cr, o2)) && ConflictFree(h, Desired(PlanFor(h, cr, o1)))
    requires Deploy(env, h, cr, Some(PlanFor(h, cr, o1)), w).flow.Completed?
    requires var w1 := Deploy(env, h, cr, Some(PlanFor(h, cr, o1)), w).w;
             Deploy(env, h, cr2, Some(PlanFor(h, cr, o2)), w1).flow.Completed?
    ensures var w1 := Deploy(env, h, cr, Some(PlanFor(h, cr, o1)), w).w;
            !Adds(w1, Deploy(env, h, cr2, Some(PlanFor(h, cr, o2)), w1).w, NotUpsert)
  {
    hide Deploy, PlanFor, Drifting, IterationOrder, KnownTypes, Desired, DesiredKeys, Adds, ConflictFree;
    var p, q := PlanFor(h, cr, o1), PlanFor(h, cr, o2);
    var w1 := Deploy(env, h, cr, Some(p), w).w;
    QuietIffAllFresh(env, h, cr2, q, w1);
    KeysWithin(h, cr, o1, o2);
    KeysWithin(h, cr, o2, o1);
    if AllFresh(h, w1.objs, Desired(q)) {
      forall c ensures c in Desired(p) <==> c in Desired(q) {
        if c in Desired(p) {
          var d := Counterpart(p, q, c);
          PassEstablishes(env, h, cr, p, w, c);
        }
        if c in Desired(q) {
          var d := Counterpart(q, p, c);
          PassEstablishes(env, h, cr, p, w, d);
        }
      }
    }
  }
}
