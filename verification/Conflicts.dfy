/** When the objects planned from a spec contradict each other, kind by kind and exactly, and that they are then never
    quiet. */
module Conflicts {
  import opened Cluster
  import opened ApiServer
  import opened Names
  import opened PrescribedOrder
  import opened Reconcile
  import opened Frames
  import opened Upserts
  import opened Quiescence
  import opened Planner
  import opened Planned
  import opened Sharing
  import opened OrderIndependence
  import opened OneByOneUpdates
  import opened ConfigPropagation
  import opened SharedTemplates

  lemma ConflictFreeIffEqual(h: Hasher, cs: set<Content>)
    requires Injective(h)
    ensures ConflictFree(h, cs) <==> forall c, d :: c in cs && d in cs && c.key == d.key ==> c == d
  {
    if ConflictFree(h, cs) {
      forall c, d | c in cs && d in cs && c.key == d.key ensures c == d {
        assert h(c) == h(d);
      }
    }
  }

  // ---------- what is planned for a node, kind by kind ----------

  /** The `x`-th claim of node `key` as written. */
  function ClaimOf(cr: Cr, key: string, x: nat): Content
    requires key in cr.spec.nodes && x < |cr.spec.nodes[key].pvcs|
  {
    MakePvc(cr, cr.spec.nodes[key], x, IntendedLabels(cr, key), UniqueString(cr.name, key))
  }

  predicate IsSingle(k: Kind) {
    k.Ingress? || k.PodDisruptionBudget? || k.HorizontalPodAutoscaler?
  }

  /** What follows the workload of a node: at most one object of each of three kinds, under the node's name, and the
      node's claims. */
  ghost predicate ExtrasAre(cr: Cr, n: NodeObjects, key: string)
    requires key in cr.spec.nodes
  {
    && (forall c :: c in n.extras ==>
          || (IsSingle(c.key.kind) && c.key.name == UniqueString(cr.name, key))
          || (&& c.key.kind.PersistentVolumeClaim?
              && exists x :: 0 <= x < |cr.spec.nodes[key].pvcs| && c == ClaimOf(cr, key, x)))
    && (forall c, d :: c in n.extras && d in n.extras && IsSingle(c.key.kind) && c.key == d.key ==> c == d)
    && (forall x :: 0 <= x < |cr.spec.nodes[key].pvcs| ==> ClaimOf(cr, key, x) in n.extras)
  }

  lemma OptionalIs(kind: Kind, cr: Cr, unique: string, labels: Labels, text: Option<string>)
    ensures var cs := Optional(kind, cr, unique, labels, text);
            && |cs| <= 1 && forall c :: c in cs ==> c.key == Key(kind, cr.ns, unique)
  {
  }

  lemma SinglesOnce(a: seq<Content>, b: seq<Content>, c: seq<Content>, d: seq<Content>)
    requires |a| <= 1 && |b| <= 1 && |c| <= 1
    requires (forall e :: e in a ==> e.key.kind.Ingress?) && (forall e :: e in b ==> e.key.kind.PodDisruptionBudget?)
    requires (forall e :: e in c ==> e.key.kind.HorizontalPodAutoscaler?)
    requires (forall e :: e in d ==> e.key.kind.PersistentVolumeClaim?)
    ensures forall e, f :: e in a + b + c + d && f in a + b + c + d && IsSingle(e.key.kind) && e.key == f.key ==> e == f
  {
  }

  lemma ExtrasOf(h: Hasher, cr: Cr, sh: Shared, key: string)
    requires key in cr.spec.nodes && PodLabelsIntact(cr.spec, sh.podLabels)
    ensures ExtrasAre(cr, MakeNode(h, cr, sh, key, cr.spec.nodes[key]).0, key)
  {
    hide MakeNode, NodeLabels, MakeServices, AfterNode, NodeProbe, NodeConfig, MakeWorkload, Optional, MakePvc,
         PodLabelsIntact, IntendedLabels;
    var node := cr.spec.nodes[key];
    var unique, lm := UniqueString(cr.name, key), IntendedLabels(cr, key);
    var n := MakeNode(h, cr, sh, key, node).0;
    LabelsAreIntended(cr, sh, key);
    NodeParts(h, cr, sh, key, node);
    var a := Optional(Ingress, cr, unique, DruidLabels(cr.name), node.ingress);
    var b := Optional(PodDisruptionBudget, cr, unique, lm, node.pdb);
    var c := Optional(HorizontalPodAutoscaler, cr, unique, DruidLabels(cr.name), node.hpa);
    var d := MakePvcs(cr, node, lm, unique);
    OptionalIs(Ingress, cr, unique, DruidLabels(cr.name), node.ingress);
    OptionalIs(PodDisruptionBudget, cr, unique, lm, node.pdb);
    OptionalIs(HorizontalPodAutoscaler, cr, unique, DruidLabels(cr.name), node.hpa);
    assert n.extras == a + b + c + d;
    forall x | 0 <= x < |node.pvcs|
      ensures d[x] == ClaimOf(cr, key, x) && d[x] in n.extras && d[x].key.kind.PersistentVolumeClaim?
    {
      ClaimKind(cr, node, x, lm, unique);
      assert d[x] in d;
    }
    forall e | e in n.extras
      ensures || (IsSingle(e.key.kind) && e.key.name == unique)
              || (e.key.kind.PersistentVolumeClaim? && exists x :: 0 <= x < |node.pvcs| && e == ClaimOf(cr, key, x))
    {
      if e in d {
        var x :| 0 <= x < |d| && d[x] == e;
      }
    }
    SinglesOnce(a, b, c, d);
  }

  lemma ClaimKind(cr: Cr, node: NodeSpec, x: nat, lm: Labels, unique: string)
    requires x < |node.pvcs|
    ensures MakePvc(cr, node, x, lm, unique).key.kind.PersistentVolumeClaim?
  {
  }

  lemma PlannedExtras(h: Hasher, cr: Cr, order: seq<string>, i: nat)
    requires IterationOrder(order, cr.spec.nodes) && i < |NodesOf(h, cr, order)|
    ensures i < |Prescribed(cr.spec.nodes, order)| && Prescribed(cr.spec.nodes, order)[i] in cr.spec.nodes
    ensures ExtrasAre(cr, NodesOf(h, cr, order)[i], Prescribed(cr.spec.nodes, order)[i])
  {
    hide MakeNode, ExtrasAre;
    var keys := Prescribed(cr.spec.nodes, order);
    PlannedCount(h, cr, order);
    PlannedNode(h, cr, order, i);
    SharedAtIs(h, cr, keys[..i]);
    ExtrasOf(h, cr, SharedAt(h, cr, Initial(cr.spec), keys[..i]), keys[i]);
  }

  /** Where a planned object comes from. */
  lemma PlannedFrom(h: Hasher, cr: Cr, order: seq<string>, c: Content) returns (i: nat)
    requires IterationOrder(order, cr.spec.nodes) && c in Desired(PlanFor(h, cr, order))
    requires c != CommonConfig(cr, cr.uid)
    ensures i < |NodesOf(h, cr, order)|
    ensures var n := NodesOf(h, cr, order)[i]; c == n.config || c == n.workload || c in n.services || c in n.extras
  {
    hide MakeNode, NodeActions;
    var ns := NodesOf(h, cr, order);
    var a :| a in PlanFor(h, cr, order).actions && a.content == c;
    FlattenHas(ns, a);
    i :| 0 <= i < |ns| && a in NodeActions(ns[i]);
    NodeActionsHas(ns[i], a);
  }

  lemma NodeObjectPlanned(h: Hasher, cr: Cr, order: seq<string>, i: nat, c: Content)
    requires IterationOrder(order, cr.spec.nodes) && i < |NodesOf(h, cr, order)|
    requires var n := NodesOf(h, cr, order)[i]; c in n.services || c in n.extras
    ensures c in Desired(PlanFor(h, cr, order))
  {
    hide MakeNode, NodeActions;
    var ns := NodesOf(h, cr, order);
    NodeActionsHas(ns[i], Ensure(c));
    FlattenHas(ns, Ensure(c));
    assert Ensure(c) in PlanFor(h, cr, order).actions;
  }

  // ---------- claims ----------

  /** No two nodes write claims of one name, and the claims that one node writes under one name have the same labels,
      annotations and spec; a claim without a name is written under the node's unique string, a claim with a name under
      the name, and with the spec, of the node's last claim. */
  ghost predicate ClaimsAgree(cr: Cr) {
    && (forall k, l, x: nat, y: nat ::
          IsClaim(cr, k, x) && IsClaim(cr, l, y) && ClaimOf(cr, k, x).key == ClaimOf(cr, l, y).key ==> k == l)
    && (forall k, x: nat, y: nat ::
          IsClaim(cr, k, x) && IsClaim(cr, k, y) && ClaimOf(cr, k, x).key == ClaimOf(cr, k, y).key ==>
            SameClaim(cr, k, x, y))
  }

  predicate IsClaim(cr: Cr, key: string, x: nat) {
    key in cr.spec.nodes && x < |cr.spec.nodes[key].pvcs|
  }

  predicate SameClaim(cr: Cr, key: string, x: nat, y: nat)
    requires IsClaim(cr, key, x) && IsClaim(cr, key, y)
  {
    var node, lm := cr.spec.nodes[key], IntendedLabels(cr, key);
    var p, q := node.pvcs[x], node.pvcs[y];
    && Overlay(p.labels, lm) == Overlay(q.labels, lm)
    && (if p.annotations.Some? then p.annotations.value else map[])
      == (if q.annotations.Some? then q.annotations.value else map[])
    && WrittenSpec(node, x) == WrittenSpec(node, y)
  }

  function WrittenSpec(node: NodeSpec, x: nat): string
    requires x < |node.pvcs|
  {
    if node.pvcs[x].name == "" then node.pvcs[x].spec else node.pvcs[|node.pvcs| - 1].spec
  }

  lemma SameClaimIff(cr: Cr, key: string, x: nat, y: nat)
    requires IsClaim(cr, key, x) && IsClaim(cr, key, y) && ClaimOf(cr, key, x).key == ClaimOf(cr, key, y).key
    ensures ClaimOf(cr, key, x) == ClaimOf(cr, key, y) <==> SameClaim(cr, key, x, y)
  {
  }

  lemma ClaimsOfNodesDiffer(cr: Cr, k: string, l: string, x: nat, y: nat)
    requires IsClaim(cr, k, x) && IsClaim(cr, l, y) && ClaimOf(cr, k, x) == ClaimOf(cr, l, y)
    ensures k == l
  {
    var c := ClaimOf(cr, k, x);
    assert c.labels["nodeSpecUniqueStr"] == UniqueString(cr.name, k);
    assert c.labels["nodeSpecUniqueStr"] == UniqueString(cr.name, l);
    UniqueStringInjective(cr.name, k, l);
  }

  /** Whatever the iteration order: the planned claims are these. */
  lemma ClaimPlannedIff(h: Hasher, cr: Cr, order: seq<string>, c: Content)
    requires IterationOrder(order, cr.spec.nodes) && KnownTypes(cr.spec.nodes)
    ensures c in Desired(PlanFor(h, cr, order)) && c.key.kind.PersistentVolumeClaim? <==>
              exists k, x: nat :: IsClaim(cr, k, x) && c == ClaimOf(cr, k, x)
  {
    hide NodesOf, Flatten, MakePvc, IterationOrder, Prescribed, Desired, Shaped;
    if c in Desired(PlanFor(h, cr, order)) && c.key.kind.PersistentVolumeClaim? {
      var i := PlannedFrom(h, cr, order, c);
      PlannedExtras(h, cr, order, i);
      var key := Prescribed(cr.spec.nodes, order)[i];
      KindsOfNode(h, cr, order, i, c);
      var x :| 0 <= x < |cr.spec.nodes[key].pvcs| && c == ClaimOf(cr, key, x);
      assert IsClaim(cr, key, x);
    }
    if k: string, x: nat :| IsClaim(cr, k, x) && c == ClaimOf(cr, k, x) {
      PlannedCount(h, cr, order);
      PrescribedHas(cr.spec.nodes, order, k);
      var i :| 0 <= i < |Prescribed(cr.spec.nodes, order)| && Prescribed(cr.spec.nodes, order)[i] == k;
      PlannedExtras(h, cr, order, i);
      NodeObjectPlanned(h, cr, order, i, c);
      ClaimKind(cr, cr.spec.nodes[k], x, IntendedLabels(cr, k), UniqueString(cr.name, k));
    }
  }

  /** The kinds of a node's objects. */
  lemma KindsOfNode(h: Hasher, cr: Cr, order: seq<string>, i: nat, c: Content)
    requires IterationOrder(order, cr.spec.nodes) && i < |NodesOf(h, cr, order)|
    ensures var n := NodesOf(h, cr, order)[i];
            && n.config.key.kind.ConfigMap? && IsWorkloadKind(n.workload.key.kind)
            && (c in n.services ==> c.key.kind.Service?)
            && (c in n.extras ==> !IsWorkloadKind(c.key.kind) && !c.key.kind.ConfigMap? && !c.key.kind.Service?)
  {
    hide MakeNode, NodesOf, IntendedLabels, MakePvc;
    PlanNodes(h, cr, order);
    PlannedExtras(h, cr, order, i);
  }

  function OfKind(cs: set<Content>, kind: Kind): set<Content> {
    set c | c in cs && c.key.kind == kind
  }

  /** The planned claims contradict each other exactly when two nodes write one claim, or one node writes one claim with
      two contents. */
  lemma ClaimsConflictIff(h: Hasher, cr: Cr, order: seq<string>)
    requires Injective(h) && IterationOrder(order, cr.spec.nodes) && KnownTypes(cr.spec.nodes)
    ensures ConflictFree(h, OfKind(Desired(PlanFor(h, cr, order)), PersistentVolumeClaim)) <==> ClaimsAgree(cr)
  {
    hide PlanFor, ClaimOf, SameClaim, IterationOrder, KnownTypes, Injective, ConflictFree;
    var cs := OfKind(Desired(PlanFor(h, cr, order)), PersistentVolumeClaim);
    ConflictFreeIffEqual(h, cs);
    forall c ensures c in cs <==> exists k, x: nat :: IsClaim(cr, k, x) && c == ClaimOf(cr, k, x) {
      ClaimPlannedIff(h, cr, order, c);
    }
    if ConflictFree(h, cs) {
      forall k, l, x: nat, y: nat | IsClaim(cr, k, x) && IsClaim(cr, l, y)
        && ClaimOf(cr, k, x).key == ClaimOf(cr, l, y).key
        ensures k == l && SameClaim(cr, k, x, y)
      {
        assert ClaimOf(cr, k, x) in cs && ClaimOf(cr, l, y) in cs;
        ClaimsOfNodesDiffer(cr, k, l, x, y);
        SameClaimIff(cr, k, x, y);
      }
    }
    if ClaimsAgree(cr) {
      forall c, d | c in cs && d in cs && c.key == d.key ensures c == d {
        var k: string, x: nat :| IsClaim(cr, k, x) && c == ClaimOf(cr, k, x);
        var l: string, y: nat :| IsClaim(cr, l, y) && d == ClaimOf(cr, l, y);
        SameClaimIff(cr, k, x, y);
      }
    }
  }

  // ---------- services ----------

  /** The service templates given for a node: its own or the cluster's. */
  function GivenTemplates(cr: Cr, key: string): seq<ServiceTemplate>
    requires key in cr.spec.nodes
  {
    Templates(Initial(cr.spec), cr.spec.nodes[key])
  }

  predicate IsTemplate(cr: Cr, key: string, x: nat) {
    key in cr.spec.nodes && x < |GivenTemplates(cr, key)|
  }

  function ServiceName(cr: Cr, key: string, x: nat): string
    requires IsTemplate(cr, key, x)
  {
    NameFor(cr, key, GivenTemplates(cr, key)[x])
  }

  /** Two templates give one node two services of one name. */
  predicate NamedAlike(cr: Cr, key: string, x: nat, y: nat) {
    IsTemplate(cr, key, x) && IsTemplate(cr, key, y) && ServiceName(cr, key, x) == ServiceName(cr, key, y)
  }

  /** The `x`-th and the `y`-th template make one service for the node at position `i` of a deployment order:
      templates of its own as they are given, those of the cluster as the users before it have left them. */
  predicate SameWritten(cr: Cr, keys: seq<string>, i: nat, x: nat, y: nat)
    requires (forall k :: k in keys ==> k in cr.spec.nodes) && i < |keys|
    requires IsTemplate(cr, keys[i], x) && IsTemplate(cr, keys[i], y)
  {
    UsersAreNodes(cr, keys[..i]);
    if cr.spec.nodes[keys[i]].services.Some? then
      SameService(cr, keys[i], GivenTemplates(cr, keys[i])[x], GivenTemplates(cr, keys[i])[y])
    else SameShared(cr, Users(cr, keys[..i]), keys[i], x, y)
  }

  /** No two nodes have services of one name, and templates that give two services of one node one name make one service
      for it. */
  ghost predicate ServicesAgree(cr: Cr, keys: seq<string>)
    requires forall k :: k in keys ==> k in cr.spec.nodes
  {
    && (forall k, l, x: nat, y: nat ::
          IsTemplate(cr, k, x) && IsTemplate(cr, l, y) && ServiceName(cr, k, x) == ServiceName(cr, l, y) ==> k == l)
    && (forall i: nat, x: nat, y: nat ::
          i < |keys| && NamedAlike(cr, keys[i], x, y) ==> SameWritten(cr, keys, i, x, y))
  }

  predicate IsService(ns: seq<NodeObjects>, i: nat, x: nat) {
    i < |ns| && x < |ns[i].services|
  }

  function WrittenService(h: Hasher, cr: Cr, keys: seq<string>, i: nat, x: nat): Content
    requires (forall k :: k in keys ==> k in cr.spec.nodes) && i < |keys| && IsTemplate(cr, keys[i], x)
  {
    UsersAreNodes(cr, keys[..i]);
    var node := cr.spec.nodes[keys[i]];
    if node.services.Some? then
      MakeService(node.services.value[x], cr, IntendedLabels(cr, keys[i]), UniqueString(cr.name, keys[i]),
                  node.druidPort)
    else Sent(h, cr, Users(cr, keys[..i]), keys[i], x)
  }

  /** The services planned for a node, one for each template. */
  lemma ServiceWritten(h: Hasher, cr: Cr, order: seq<string>, i: nat, x: nat)
    requires IterationOrder(order, cr.spec.nodes) && i < |Prescribed(cr.spec.nodes, order)|
    ensures |NodesOf(h, cr, order)| == |Prescribed(cr.spec.nodes, order)|
    ensures forall k :: k in Prescribed(cr.spec.nodes, order) ==> k in cr.spec.nodes
    ensures var keys, ns := Prescribed(cr.spec.nodes, order), NodesOf(h, cr, order);
            && (IsService(ns, i, x) <==> IsTemplate(cr, keys[i], x))
            && (IsService(ns, i, x) ==> ns[i].services[x] == WrittenService(h, cr, keys, i, x))
  {
    hide NodeLabels, MakeNode, SharedAt, Users, Left, MakeService, IntendedLabels, Prescribed, NodesOf,
         PodLabelsIntact, IterationOrder;
    var keys := Prescribed(cr.spec.nodes, order);
    PlannedCount(h, cr, order);
    PlannedNode(h, cr, order, i);
    var sh := SharedAt(h, cr, Initial(cr.spec), keys[..i]);
    TemplatesLeft(h, cr, keys[..i]);
    SharedAtIs(h, cr, keys[..i]);
    SameServiceCount(h, cr, sh, keys[i]);
    if x < |Templates(sh, cr.spec.nodes[keys[i]])| {
      ServiceAt(h, cr, sh, keys[i], x);
    }
  }

  lemma SameWrittenIff(h: Hasher, cr: Cr, keys: seq<string>, i: nat, x: nat, y: nat)
    requires (forall k :: k in keys ==> k in cr.spec.nodes) && i < |keys| && Injective(h)
    requires IsTemplate(cr, keys[i], x) && IsTemplate(cr, keys[i], y)
    ensures WrittenService(h, cr, keys, i, x) == WrittenService(h, cr, keys, i, y) <==> SameWritten(cr, keys, i, x, y)
  {
    hide MakeService, SameService, Sent, SameShared, Users, IntendedLabels;
    UsersAreNodes(cr, keys[..i]);
    if cr.spec.nodes[keys[i]].services.Some? {
      SameServiceIff(cr, keys[i], GivenTemplates(cr, keys[i])[x], GivenTemplates(cr, keys[i])[y]);
    } else {
      SameSharedIff(h, cr, Users(cr, keys[..i]), keys[i], x, y);
    }
  }

  /** The name of a service, and whose pods it is for. */
  lemma ServiceIdentity(h: Hasher, cr: Cr, keys: seq<string>, i: nat, x: nat)
    requires (forall k :: k in keys ==> k in cr.spec.nodes) && i < |keys| && IsTemplate(cr, keys[i], x)
    ensures WrittenService(h, cr, keys, i, x).key == Key(Service, cr.ns, ServiceName(cr, keys[i], x))
    ensures var s := SelectorOf(WrittenService(h, cr, keys, i, x));
            "nodeSpecUniqueStr" in s && s["nodeSpecUniqueStr"] == UniqueString(cr.name, keys[i])
  {
    hide Left, Users, UserLabels, UniqueString;
    UsersAreNodes(cr, keys[..i]);
    if cr.spec.nodes[keys[i]].services.None? {
      LeftIs(h, cr, Users(cr, keys[..i]), x);
    }
  }

  lemma ServicesOfNodesDiffer(h: Hasher, cr: Cr, keys: seq<string>, i: nat, j: nat, x: nat, y: nat)
    requires (forall k :: k in keys ==> k in cr.spec.nodes) && i < |keys| && j < |keys|
    requires IsTemplate(cr, keys[i], x) && IsTemplate(cr, keys[j], y)
    requires WrittenService(h, cr, keys, i, x) == WrittenService(h, cr, keys, j, y)
    ensures keys[i] == keys[j]
  {
    hide WrittenService, SelectorOf;
    ServiceIdentity(h, cr, keys, i, x);
    ServiceIdentity(h, cr, keys, j, y);
    UniqueStringInjective(cr.name, keys[i], keys[j]);
  }

  /** The planned services contradict each other exactly when two nodes have services of one name, or two templates give
      one node two services of one name that are not one service. */
  lemma ServicesConflictIff(h: Hasher, cr: Cr, order: seq<string>)
    requires Injective(h) && IterationOrder(order, cr.spec.nodes) && KnownTypes(cr.spec.nodes)
    ensures forall k :: k in Prescribed(cr.spec.nodes, order) ==> k in cr.spec.nodes
    ensures ConflictFree(h, OfKind(Desired(PlanFor(h, cr, order)), Service))
         <==> ServicesAgree(cr, Prescribed(cr.spec.nodes, order))
  {
    hide NodesOf, PlanFor, IterationOrder, KnownTypes, Injective, ConflictFree, Prescribed, WrittenService,
         SameWritten, ServiceName, IsTemplate, Desired;
    var keys := Prescribed(cr.spec.nodes, order);
    var cs := OfKind(Desired(PlanFor(h, cr, order)), Service);
    PrescribedAreNodes(cr.spec.nodes, order);
    ConflictFreeIffEqual(h, cs);
    if ConflictFree(h, cs) {
      forall k, l, x: nat, y: nat | IsTemplate(cr, k, x) && IsTemplate(cr, l, y)
        && ServiceName(cr, k, x) == ServiceName(cr, l, y)
        ensures k == l
      {
        var i := PositionOf(cr, order, k, x);
        var j := PositionOf(cr, order, l, y);
        WrittenInPlan(h, cr, order, i, x);
        WrittenInPlan(h, cr, order, j, y);
        ServicesOfNodesDiffer(h, cr, keys, i, j, x, y);
      }
      forall i: nat, x: nat, y: nat | i < |keys| && NamedAlike(cr, keys[i], x, y)
        ensures SameWritten(cr, keys, i, x, y)
      {
        WrittenInPlan(h, cr, order, i, x);
        WrittenInPlan(h, cr, order, i, y);
        SameWrittenIff(h, cr, keys, i, x, y);
      }
    }
    if ServicesAgree(cr, keys) {
      forall c, d | c in cs && d in cs && c.key == d.key ensures c == d {
        var i, x := PlannedService(h, cr, order, c);
        var j, y := PlannedService(h, cr, order, d);
        PrescribedDistinct(cr.spec.nodes, order);
        SameWrittenIff(h, cr, keys, i, x, y);
      }
    }
  }

  lemma PositionOf(cr: Cr, order: seq<string>, k: string, x: nat) returns (i: nat)
    requires IterationOrder(order, cr.spec.nodes) && KnownTypes(cr.spec.nodes) && IsTemplate(cr, k, x)
    ensures i < |Prescribed(cr.spec.nodes, order)| && Prescribed(cr.spec.nodes, order)[i] == k
  {
    PrescribedHas(cr.spec.nodes, order, k);
    i :| 0 <= i < |Prescribed(cr.spec.nodes, order)| && Prescribed(cr.spec.nodes, order)[i] == k;
  }

  /** The services written for the nodes are among the planned ones... */
  lemma WrittenInPlan(h: Hasher, cr: Cr, order: seq<string>, i: nat, x: nat)
    requires IterationOrder(order, cr.spec.nodes) && i < |Prescribed(cr.spec.nodes, order)|
    requires forall k :: k in Prescribed(cr.spec.nodes, order) ==> k in cr.spec.nodes
    requires IsTemplate(cr, Prescribed(cr.spec.nodes, order)[i], x)
    ensures var c := WrittenService(h, cr, Prescribed(cr.spec.nodes, order), i, x);
            && c in OfKind(Desired(PlanFor(h, cr, order)), Service)
            && c.key == Key(Service, cr.ns, ServiceName(cr, Prescribed(cr.spec.nodes, order)[i], x))
  {
    hide NodesOf, PlanFor, IterationOrder, Prescribed, WrittenService, IsTemplate, ServiceName;
    ServiceWritten(h, cr, order, i, x);
    ServiceIdentity(h, cr, Prescribed(cr.spec.nodes, order), i, x);
    ServicePlannedIff(h, cr, order, NodesOf(h, cr, order)[i].services[x]);
  }

  /** ... and the only ones. */
  lemma PlannedService(h: Hasher, cr: Cr, order: seq<string>, c: Content) returns (i: nat, x: nat)
    requires IterationOrder(order, cr.spec.nodes) && c in OfKind(Desired(PlanFor(h, cr, order)), Service)
    requires forall k :: k in Prescribed(cr.spec.nodes, order) ==> k in cr.spec.nodes
    ensures var keys := Prescribed(cr.spec.nodes, order);
            && i < |keys| && IsTemplate(cr, keys[i], x) && c == WrittenService(h, cr, keys, i, x)
            && c.key == Key(Service, cr.ns, ServiceName(cr, keys[i], x))
  {
    hide NodesOf, PlanFor, IterationOrder, Prescribed, WrittenService, IsTemplate, ServiceName;
    ServicePlannedIff(h, cr, order, c);
    i, x :| IsService(NodesOf(h, cr, order), i, x) && c == NodesOf(h, cr, order)[i].services[x];
    PlannedCount(h, cr, order);
    ServiceWritten(h, cr, order, i, x);
    ServiceIdentity(h, cr, Prescribed(cr.spec.nodes, order), i, x);
  }

  lemma ServicePlannedIff(h: Hasher, cr: Cr, order: seq<string>, c: Content)
    requires IterationOrder(order, cr.spec.nodes)
    ensures var ns := NodesOf(h, cr, order);
            c in Desired(PlanFor(h, cr, order)) && c.key.kind.Service? <==>
              exists i: nat, x: nat :: IsService(ns, i, x) && c == ns[i].services[x]
  {
    hide NodesOf, Flatten, IterationOrder, Desired;
    var ns := NodesOf(h, cr, order);
    if c in Desired(PlanFor(h, cr, order)) && c.key.kind.Service? {
      var i := PlannedFrom(h, cr, order, c);
      KindsOfNode(h, cr, order, i, c);
      var x :| 0 <= x < |ns[i].services| && ns[i].services[x] == c;
      assert IsService(ns, i, x);
    }
    if i: nat, x: nat :| IsService(ns, i, x) && c == ns[i].services[x] {
      KindsOfNode(h, cr, order, i, c);
      NodeObjectPlanned(h, cr, order, i, c);
    }
  }

  // ---------- everything ----------

  /** Objects of the other kinds never contradict each other. */
  lemma SinglesAgree(h: Hasher, cr: Cr, order: seq<string>, c: Content, d: Content)
    requires IterationOrder(order, cr.spec.nodes) && KnownTypes(cr.spec.nodes)
    requires c in Desired(PlanFor(h, cr, order)) && d in Desired(PlanFor(h, cr, order)) && c.key == d.key
    requires !c.key.kind.ConfigMap? && !c.key.kind.Service? && !c.key.kind.PersistentVolumeClaim?
    ensures c == d
  {
    hide NodesOf, IterationOrder, Desired, Prescribed, PlanFor, KnownTypes, UniqueString, ExtrasAre;
    var keys := Prescribed(cr.spec.nodes, order);
    var i := PlannedFrom(h, cr, order, c);
    var j := PlannedFrom(h, cr, order, d);
    SingleNamed(h, cr, order, i, c);
    SingleNamed(h, cr, order, j, d);
    UniqueStringInjectiveAt(cr, keys, i, j);
    PrescribedDistinct(cr.spec.nodes, order);
    SinglesOfNode(h, cr, order, i, c, d);
  }

  /** An object that only one of its kind is planned of for a node is named after the node. */
  lemma SingleNamed(h: Hasher, cr: Cr, order: seq<string>, i: nat, c: Content)
    requires IterationOrder(order, cr.spec.nodes) && i < |NodesOf(h, cr, order)|
    requires var n := NodesOf(h, cr, order)[i]; c == n.config || c == n.workload || c in n.services || c in n.extras
    requires !c.key.kind.ConfigMap? && !c.key.kind.Service? && !c.key.kind.PersistentVolumeClaim?
    ensures i < |Prescribed(cr.spec.nodes, order)|
    ensures c.key.name == UniqueString(cr.name, Prescribed(cr.spec.nodes, order)[i])
  {
    hide NodesOf, IterationOrder, Prescribed, UniqueString, ClaimOf, MakeNode;
    KindsOfNode(h, cr, order, i, c);
    PlannedExtras(h, cr, order, i);
    PlannedNode(h, cr, order, i);
  }

  lemma SinglesOfNode(h: Hasher, cr: Cr, order: seq<string>, i: nat, c: Content, d: Content)
    requires IterationOrder(order, cr.spec.nodes) && i < |NodesOf(h, cr, order)|
    requires var n := NodesOf(h, cr, order)[i]; c == n.config || c == n.workload || c in n.services || c in n.extras
    requires var n := NodesOf(h, cr, order)[i]; d == n.config || d == n.workload || d in n.services || d in n.extras
    requires !c.key.kind.ConfigMap? && !c.key.kind.Service? && !c.key.kind.PersistentVolumeClaim? && c.key == d.key
    ensures c == d
  {
    hide NodesOf, IterationOrder, Prescribed, UniqueString, ClaimOf, MakeNode;
    KindsOfNode(h, cr, order, i, c);
    KindsOfNode(h, cr, order, i, d);
    PlannedExtras(h, cr, order, i);
  }

  lemma UniqueStringInjectiveAt(cr: Cr, keys: seq<string>, i: nat, j: nat)
    requires i < |keys| && j < |keys|
    ensures UniqueString(cr.name, keys[i]) == UniqueString(cr.name, keys[j]) ==> keys[i] == keys[j]
  {
    if UniqueString(cr.name, keys[i]) == UniqueString(cr.name, keys[j]) {
      UniqueStringInjective(cr.name, keys[i], keys[j]);
    }
  }

  lemma FreeOfKind(h: Hasher, cs: set<Content>, kind: Kind)
    requires ConflictFree(h, cs)
    ensures ConflictFree(h, OfKind(cs, kind))
  {
  }

  lemma ConfigMapsOfKind(cs: set<Content>)
    ensures ConfigMaps(cs) == OfKind(cs, ConfigMap)
  {
  }

  /** The objects planned from a spec contradict each other exactly in three ways: the common config map and that of a
      node called "common" have one name; two services have one name, of two nodes or of one node with two contents; two
      claims have one name, of two nodes or of one node with two contents. */
  lemma ConflictFreeIff(h: Hasher, cr: Cr, order: seq<string>)
    requires Injective(h) && IterationOrder(order, cr.spec.nodes) && KnownTypes(cr.spec.nodes)
    ensures forall k :: k in Prescribed(cr.spec.nodes, order) ==> k in cr.spec.nodes
    ensures ConflictFree(h, Desired(PlanFor(h, cr, order))) <==>
              && !("common" in cr.spec.nodes && IsDruidPower(cr.name))
              && ServicesAgree(cr, Prescribed(cr.spec.nodes, order))
              && ClaimsAgree(cr)
  {
    hide NodesOf, PlanFor, IterationOrder, KnownTypes, Injective, IsDruidPower, ServicesAgree, ClaimsAgree, Desired,
         Prescribed;
    var cs := Desired(PlanFor(h, cr, order));
    ConfigMapsConflictIff(h, cr, order);
    ConfigMapsOfKind(cs);
    ServicesConflictIff(h, cr, order);
    ClaimsConflictIff(h, cr, order);
    if ConflictFree(h, cs) {
      FreeOfKind(h, cs, ConfigMap);
      FreeOfKind(h, cs, Service);
      FreeOfKind(h, cs, PersistentVolumeClaim);
    } else {
      var c, d :| c in cs && d in cs && c.key == d.key && h(c) != h(d);
      if !c.key.kind.ConfigMap? && !c.key.kind.Service? && !c.key.kind.PersistentVolumeClaim? {
        SinglesAgree(h, cr, order, c, d);
      } else {
        assert c in OfKind(cs, c.key.kind) && d in OfKind(cs, c.key.kind);
        assert !ConflictFree(h, OfKind(cs, c.key.kind));
      }
    }
  }

  /** A spec with such a contradiction is never quiet: no pass that reaches its tail is without a write. */
  lemma ConflictsNeverQuiet(env: Env, h: Hasher, cr: Cr, order: seq<string>, w: World)
    requires Drifting(env) && Injective(h) && IterationOrder(order, cr.spec.nodes) && KnownTypes(cr.spec.nodes)
    requires !cr.deleting || cr.spec.disablePvcFinalizer
    requires Deploy(env, h, cr, PlanOf(h, cr, order), w).flow.Completed?
    requires forall k :: k in Prescribed(cr.spec.nodes, order) ==> k in cr.spec.nodes
    requires || ("common" in cr.spec.nodes && IsDruidPower(cr.name))
             || !ServicesAgree(cr, Prescribed(cr.spec.nodes, order))
             || !ClaimsAgree(cr)
    ensures !Adds(w, Deploy(env, h, cr, PlanOf(h, cr, order), w).w, NotUpsert)
  {
    hide Deploy, NodesOf, PlanFor, IterationOrder, KnownTypes, Injective, IsDruidPower, ServicesAgree, ClaimsAgree,
         Desired, Prescribed, Drifting, ConflictFree, Adds;
    ConflictFreeIff(h, cr, order);
    ConflictNeverQuiet(env, h, cr, PlanFor(h, cr, order), w);
  }
}
