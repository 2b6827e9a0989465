/** What the plan depends on: the spec and the identity of the resource, and, when two nodes may have the same type, the
    iteration order of the node map. */
module OrderIndependence {
  import opened Cluster
  import opened ApiServer
  import opened Names
  import opened PrescribedOrder
  import opened Reconcile
  import opened Planner
  import opened Planned

  lemma PrescribedHas(nodes: map<string, NodeSpec>, order: seq<string>, k: string)
    requires IterationOrder(order, nodes) && forall x :: x in nodes ==> KnownType(nodes[x].nodeType)
    ensures k in Prescribed(nodes, order) <==> k in nodes
  {
    PrescribedIsPermutation(nodes, order);
    assert k in multiset(Prescribed(nodes, order)) <==> k in multiset(order);
  }

  lemma PlannedCount(h: Hasher, cr: Cr, order: seq<string>)
    requires IterationOrder(order, cr.spec.nodes)
    ensures |NodesOf(h, cr, order)| == |Prescribed(cr.spec.nodes, order)|
  {
    hide Shaped;
    PlanNodes(h, cr, order);
  }

  // ---------- the plan depends only on the spec and the identity ----------

  predicate SameSource(a: Cr, b: Cr) {
    a.name == b.name && a.ns == b.ns && a.uid == b.uid && a.spec == b.spec
  }

  lemma SameServices(h: Hasher, a: Cr, b: Cr, ts: seq<ServiceTemplate>, lm: Labels, unique: string, port: int)
    requires SameSource(a, b)
    ensures MakeServices(ts, a, lm, unique, port) == MakeServices(ts, b, lm, unique, port)
    ensures AfterServices(h, ts, a, lm, unique, port) == AfterServices(h, ts, b, lm, unique, port)
  {
    forall i | 0 <= i < |ts|
      ensures MakeService(ts[i], a, lm, unique, port) == MakeService(ts[i], b, lm, unique, port)
    {
    }
  }

  lemma SameExtras(a: Cr, b: Cr, node: NodeSpec, lm: Labels, unique: string)
    requires SameSource(a, b)
    ensures MakePvcs(a, node, lm, unique) == MakePvcs(b, node, lm, unique)
  {
  }

  lemma SameNode(h: Hasher, a: Cr, b: Cr, sh: Shared, key: string, node: NodeSpec)
    requires SameSource(a, b)
    ensures MakeNode(h, a, sh, key, node) == MakeNode(h, b, sh, key, node)
  {
    hide NodeLabels, MakeServices, AfterServices, MakePvcs, NodeProbe;
    var unique := UniqueString(a.name, key);
    var (lm, sh1) := NodeLabels(sh, node, a.name, unique);
    SameServices(h, a, b, sh1.services, lm, unique, node.druidPort);
    if node.services.Some? {
      SameServices(h, a, b, node.services.value, lm, unique, node.druidPort);
    }
    SameExtras(a, b, node, lm, unique);
  }

  lemma {:induction false} SameNodes(h: Hasher, a: Cr, b: Cr, sh: Shared, keys: seq<string>)
    requires SameSource(a, b) && forall k :: k in keys ==> k in a.spec.nodes
    ensures MakeNodes(h, a, sh, keys) == MakeNodes(h, b, sh, keys)
    decreases |keys|
  {
    hide MakeNode;
    if keys != [] {
      SameNode(h, a, b, sh, keys[0], a.spec.nodes[keys[0]]);
      SameNodes(h, a, b, MakeNode(h, a, sh, keys[0], a.spec.nodes[keys[0]]).1, keys[1..]);
    }
  }

  /** Status, finalizers, generation and resource version do not reach the plan; nor does the iteration order when no
      two nodes share a type, whatever maps are shared. */
  lemma PlanUnique(h: Hasher, a: Cr, b: Cr, o1: seq<string>, o2: seq<string>)
    requires SameSource(a, b) && TypesAllDistinct(a.spec.nodes)
    requires IterationOrder(o1, a.spec.nodes) && IterationOrder(o2, a.spec.nodes)
    ensures PlanOf(h, a, o1) == PlanOf(h, b, o2)
  {
    OrderUniqueForDistinctTypes(a.spec.nodes, o1, o2);
    PrescribedAreNodes(a.spec.nodes, o1);
    SameNodes(h, a, b, Initial(a.spec), Prescribed(a.spec.nodes, o1));
  }

  lemma PlanOfSameSource(h: Hasher, a: Cr, b: Cr, order: seq<string>)
    requires SameSource(a, b)
    ensures PlanOf(h, a, order) == PlanOf(h, b, order)
  {
    PrescribedAreNodes(a.spec.nodes, order);
    SameNodes(h, a, b, Initial(a.spec), Prescribed(a.spec.nodes, order));
  }

  // ---------- rounds ----------

  /** A round of a run over one spec: the resource as read and the order in which its node map was iterated. */
  datatype SpecRound = SpecRound(cr: Cr, order: seq<string>)

  function SpecRounds(env: Env, h: Hasher, w: World, rounds: seq<SpecRound>): World
    decreases |rounds|
  {
    if rounds == [] then w
    else SpecRounds(env, h, Deploy(env, h, rounds[0].cr, PlanOf(h, rounds[0].cr, rounds[0].order), w).w, rounds[1..])
  }
}
