/** When the planned workloads do not depend on the iteration order of the node map: of all that nodes share, only the
    port of a probe reaches a workload. */
module WorkloadOrder {
  import opened Cluster
  import opened ApiServer
  import opened Names
  import opened PrescribedOrder
  import opened Reconcile
  import opened Frames
  import opened Quiescence
  import opened Rolling
  import opened Rollout
  import opened Convergence
  import opened Planner
  import opened Planned
  import opened Sharing
  import opened OrderIndependence

  /** The node uses the probe given at cluster level, if there is one. */
  predicate UsesProbe(spec: DruidSpec, key: string) {
    key in spec.nodes && spec.nodes[key].probe.None?
  }

  /** No node that uses the cluster's probe is deployed in an earlier group. */
  ghost predicate FirstUsing(spec: DruidSpec, key: string) {
    && UsesProbe(spec, key)
    && forall k :: UsesProbe(spec, k) ==> Rank(spec.nodes[key].nodeType) <= Rank(spec.nodes[k].nodeType)
  }

  /** The cluster's probe has a port, or the nodes that may be the first to fill it in all fill in the same one. */
  ghost predicate ProbePortFixed(spec: DruidSpec) {
    || spec.probe.None?
    || spec.probe.value.port != 0
    || forall a, b :: FirstUsing(spec, a) && FirstUsing(spec, b) ==>
         spec.nodes[a].druidPort == spec.nodes[b].druidPort != 0
  }

  /** The port that a node's probe gets in every iteration order. */
  ghost function FixedPort(spec: DruidSpec, key: string): int
    requires key in spec.nodes
  {
    var node := spec.nodes[key];
    if node.probe.Some? then DefaultPort(node.probe.value, node.druidPort).port
    else if spec.probe.None? then 0
    else if spec.probe.value.port != 0 then spec.probe.value.port
    else if a :| FirstUsing(spec, a) then spec.nodes[a].druidPort
    else 0
  }

  lemma {:induction false} GivenPortKept(cr: Cr, keys: seq<string>)
    requires (forall k :: k in keys ==> k in cr.spec.nodes) && (cr.spec.probe.Some? ==> cr.spec.probe.value.port != 0)
    ensures ProbeAfter(cr, keys) == cr.spec.probe
  {
    if keys != [] {
      GivenPortKept(cr, keys[..|keys| - 1]);
    }
  }

  /** Up to a node that uses the cluster's probe there is a first one that does. */
  lemma SomeFirstUser(cr: Cr, keys: seq<string>, i: nat) returns (f: nat)
    requires (forall k :: k in keys ==> k in cr.spec.nodes) && i < |keys| && cr.spec.nodes[keys[i]].probe.None?
    ensures f <= i && FirstUser(cr, keys, f)
  {
    f := 0;
    while cr.spec.nodes[keys[f]].probe.Some?
      invariant f <= i && forall g :: 0 <= g < f ==> cr.spec.nodes[keys[g]].probe.Some?
      decreases i - f
    {
      f := f + 1;
    }
  }

  lemma FirstUserIsFirstUsing(cr: Cr, order: seq<string>, f: nat)
    requires IterationOrder(order, cr.spec.nodes) && KnownTypes(cr.spec.nodes)
    requires forall k :: k in Prescribed(cr.spec.nodes, order) ==> k in cr.spec.nodes
    requires FirstUser(cr, Prescribed(cr.spec.nodes, order), f)
    ensures FirstUsing(cr.spec, Prescribed(cr.spec.nodes, order)[f])
  {
    hide IterationOrder, Prescribed, Rank;
    var keys := Prescribed(cr.spec.nodes, order);
    forall k | UsesProbe(cr.spec, k) ensures Rank(cr.spec.nodes[keys[f]].nodeType) <= Rank(cr.spec.nodes[k].nodeType) {
      PrescribedHas(cr.spec.nodes, order, k);
      var g :| 0 <= g < |keys| && keys[g] == k;
      if f < g {
        PrescribedIsSorted(cr.spec.nodes, order, f, g);
      }
    }
  }

  /** The probe that the node at position `i` of an order leaves behind, if it uses the cluster's: it has the fixed
      port. */
  lemma ProbeIsFixed(cr: Cr, order: seq<string>, i: nat)
    requires IterationOrder(order, cr.spec.nodes) && KnownTypes(cr.spec.nodes) && ProbePortFixed(cr.spec)
    requires (forall k :: k in Prescribed(cr.spec.nodes, order) ==> k in cr.spec.nodes)
    requires i < |Prescribed(cr.spec.nodes, order)|
    requires cr.spec.probe.Some? && UsesProbe(cr.spec, Prescribed(cr.spec.nodes, order)[i])
    ensures var keys := Prescribed(cr.spec.nodes, order);
            ProbeAfter(cr, keys[..i] + [keys[i]]) == Some(Probe(FixedPort(cr.spec, keys[i])))
  {
    hide IterationOrder, KnownTypes, Prescribed, FirstUsing;
    var keys := Prescribed(cr.spec.nodes, order);
    if cr.spec.probe.value.port != 0 {
      GivenPortKept(cr, keys[..i] + [keys[i]]);
    } else {
      var f := SomeFirstUser(cr, keys, i);
      FirstUserIsFirstUsing(cr, order, f);
      assert FirstUser(cr, keys[..i] + [keys[i]], f);
      ProbeFilledIn(cr, keys[..i] + [keys[i]], f);
    }
  }

  /** The workload of a node as the spec alone gives it. */
  ghost function WorkloadOf(h: Hasher, cr: Cr, key: string): Content
    requires key in cr.spec.nodes
  {
    var node, lm := cr.spec.nodes[key], IntendedLabels(cr, key);
    var ts := if node.services.Some? then node.services.value else cr.spec.services;
    var name := if ts == [] then "" else ts[0].prefix + UniqueString(cr.name, key) + ts[0].suffix;
    MakeWorkload(cr, key, node, lm, h(CommonConfig(cr, "")) + "-" + h(NodeConfig(cr, key, node, lm, "")), name,
                 FixedPort(cr.spec, key))
  }

  lemma FirstNameOf(ts: seq<ServiceTemplate>, us: seq<ServiceTemplate>, cr: Cr, lm: Labels, unique: string, port: int)
    requires |ts| == |us| && (ts != [] ==> ts[0].prefix == us[0].prefix && ts[0].suffix == us[0].suffix)
    ensures FirstName(MakeServices(ts, cr, lm, unique, port))
         == if us == [] then "" else us[0].prefix + unique + us[0].suffix
  {
  }

  /** Whatever the nodes before have left in the shared maps, a node's workload is made from the spec alone. */
  lemma WorkloadFromSpec(h: Hasher, cr: Cr, order: seq<string>, i: nat)
    requires IterationOrder(order, cr.spec.nodes) && KnownTypes(cr.spec.nodes) && ProbePortFixed(cr.spec)
    requires i < |Prescribed(cr.spec.nodes, order)|
    ensures var key := Prescribed(cr.spec.nodes, order)[i];
            && |NodesOf(h, cr, order)| == |Prescribed(cr.spec.nodes, order)| && key in cr.spec.nodes
            && NodesOf(h, cr, order)[i].workload == WorkloadOf(h, cr, key)
  {
    hide MakeNode, Prescribed, IterationOrder, KnownTypes, ProbePortFixed, FirstUsing, MakeWorkload, NodeConfig,
         CommonConfig, MakeServices, FirstName, NodeLabels, ProbeAfter, Users, OverwrittenMap, PodLabelsIntact,
         IntendedLabels, DefaultPort;
    var keys := Prescribed(cr.spec.nodes, order);
    PrescribedAreNodes(cr.spec.nodes, order);
    NodeAt(h, cr, Initial(cr.spec), keys, i);
    SharedAtIs(h, cr, keys[..i]);
    var sh, node := SharedAt(h, cr, Initial(cr.spec), keys[..i]), cr.spec.nodes[keys[i]];
    NodeParts(h, cr, sh, keys[i], node);
    LabelsAreIntended(cr, sh, keys[i]);
    var ts := if node.services.Some? then node.services.value else cr.spec.services;
    FirstNameOf(Templates(sh, node), ts, cr, IntendedLabels(cr, keys[i]), UniqueString(cr.name, keys[i]),
                node.druidPort);
    if cr.spec.probe.Some? && node.probe.None? {
      ProbeIsFixed(cr, order, i);
      ProbeSnoc(cr, keys[..i], keys[i]);
      ProbeGiven(cr, keys[..i]);
    } else {
      ProbeAbsent(cr, keys[..i]);
    }
  }

  lemma {:induction false} ProbeAbsent(cr: Cr, keys: seq<string>)
    requires forall k :: k in keys ==> k in cr.spec.nodes
    ensures cr.spec.probe.None? ==> ProbeAfter(cr, keys).None?
  {
  }

  /** The gates of a plan are the workloads of the nodes. */
  lemma GateIffWorkload(h: Hasher, cr: Cr, order: seq<string>, c: Content)
    ensures c in Gates(PlanFor(h, cr, order)) <==>
              exists i :: 0 <= i < |NodesOf(h, cr, order)| && NodesOf(h, cr, order)[i].workload == c
  {
    hide NodesOf, NodeActions;
    var ns := NodesOf(h, cr, order);
    FlattenHas(ns, Gate(c));
    if i :| 0 <= i < |ns| && Gate(c) in NodeActions(ns[i]) {
      NodeActionsHas(ns[i], Gate(c));
    }
    if i :| 0 <= i < |ns| && ns[i].workload == c {
      NodeActionsHas(ns[i], Gate(c));
      assert Gate(c) in PlanFor(h, cr, order).actions;
    }
  }

  /** The planned workloads, whatever the iteration order. */
  lemma GatesFromSpec(h: Hasher, cr: Cr, order: seq<string>)
    requires IterationOrder(order, cr.spec.nodes) && KnownTypes(cr.spec.nodes) && ProbePortFixed(cr.spec)
    ensures Gates(PlanFor(h, cr, order)) == set k | k in cr.spec.nodes :: WorkloadOf(h, cr, k)
  {
    hide PlanFor, NodesOf, Prescribed, IterationOrder, WorkloadOf, ProbePortFixed, Gates;
    var keys, ns := Prescribed(cr.spec.nodes, order), NodesOf(h, cr, order);
    forall c ensures c in Gates(PlanFor(h, cr, order)) <==> c in set k | k in cr.spec.nodes :: WorkloadOf(h, cr, k) {
      GateIffWorkload(h, cr, order, c);
      if i :| 0 <= i < |ns| && ns[i].workload == c {
        PlannedCount(h, cr, order);
        WorkloadFromSpec(h, cr, order, i);
      }
      if k :| k in cr.spec.nodes && WorkloadOf(h, cr, k) == c {
        PrescribedHas(cr.spec.nodes, order, k);
        var i :| 0 <= i < |keys| && keys[i] == k;
        WorkloadFromSpec(h, cr, order, i);
      }
    }
  }

  /** The workloads planned do not depend on the iteration order: the cluster's probe brings a port, or always gets the
      same one, or no two nodes have the same type. */
  ghost predicate WorkloadsFixed(spec: DruidSpec) {
    ProbePortFixed(spec) || TypesAllDistinct(spec.nodes)
  }

  lemma GatesAgree(h: Hasher, cr: Cr, o1: seq<string>, o2: seq<string>)
    requires IterationOrder(o1, cr.spec.nodes) && IterationOrder(o2, cr.spec.nodes)
    requires WorkloadsFixed(cr.spec) && KnownTypes(cr.spec.nodes)
    ensures Gates(PlanFor(h, cr, o1)) == Gates(PlanFor(h, cr, o2))
  {
    hide NodesOf, Flatten, Gates, TypesAllDistinct, ProbePortFixed, IterationOrder, WorkloadOf, Prescribed;
    if ProbePortFixed(cr.spec) {
      GatesFromSpec(h, cr, o1);
      GatesFromSpec(h, cr, o2);
    } else {
      PlanUnique(h, cr, cr, o1, o2);
    }
  }

  // ---------- convergence from the spec ----------

  function EndOf(env: Env, h: Hasher, r: SpecRound, w: World): Pass {
    Deploy(env, h, r.cr, PlanOf(h, r.cr, r.order), w)
  }

  /** A rolling run over one spec with no failing call, each pass iterating the node map in its own order: between
      passes nothing but status and replicas changes, and all rollouts finish. */
  ghost predicate RolloutRun(env: Env, h: Hasher, cr: Cr, gates: set<Content>, rounds: seq<SpecRound>, ws: seq<World>) {
    && |ws| == |rounds| + 1
    && (forall n :: 0 <= n < |rounds| ==>
          && SameSource(cr, rounds[n].cr) && IterationOrder(rounds[n].order, cr.spec.nodes)
          && Current(rounds[n].cr, ws[n]) && AllRolledOut(ws[n].objs, gates))
    && (forall n :: 0 <= n < |rounds| ==> SameObjs(EndOf(env, h, rounds[n], ws[n]).w.objs, ws[n + 1].objs))
  }

  lemma RoundOfSpec(h: Hasher, cr: Cr, order: seq<string>, r: SpecRound)
    requires IterationOrder(order, cr.spec.nodes) && IterationOrder(r.order, cr.spec.nodes) && SameSource(cr, r.cr)
    requires WorkloadsFixed(cr.spec) && KnownTypes(cr.spec.nodes)
    ensures var p, q := PlanFor(h, cr, order), PlanFor(h, r.cr, r.order);
            WellFormed(q) && GatesDistinct(q.actions) && Gates(q) == Gates(p)
  {
    hide NodesOf, Flatten, WorkloadsFixed, IterationOrder, WellFormed, GatesDistinct, Gates;
    GatesAgree(h, cr, order, r.order);
    PlanOfSameSource(h, cr, r.cr, r.order);
    PlanWellFormed(h, cr, r.order);
    PlanGatesDistinct(h, cr, r.order);
  }

  /** `s` missing or stale workloads need at most `s + 1` passes to reach the prune phase, whatever order each pass
      iterates the node map in, whatever maps the nodes share and whatever other objects contradict each other, as
      long as the order does not decide the port of a shared probe. */
  lemma RolloutConverges(env: Env, h: Hasher, cr: Cr, order: seq<string>, rounds: seq<SpecRound>, ws: seq<World>)
    requires Alone(env) && Faultless(env) && WorkloadsFixed(cr.spec) && cr.spec.rollingDeploy
    requires IterationOrder(order, cr.spec.nodes) && KnownTypes(cr.spec.nodes)
    requires RolloutRun(env, h, cr, Gates(PlanFor(h, cr, order)), rounds, ws)
    requires |rounds| == |Stale(h, ws[0].objs, Gates(PlanFor(h, cr, order)))| + 1
    ensures exists n :: 0 <= n < |rounds| && EndOf(env, h, rounds[n], ws[n]).flow.Completed?
  {
    hide Deploy, NodesOf, Flatten, WorkloadsFixed, IterationOrder, WellFormed, GatesDistinct, SameObjs, Current,
         AllRolledOut, Alone, Faultless, Stale;
    var gates := Gates(PlanFor(h, cr, order));
    var plain := seq(|rounds|, i requires 0 <= i < |rounds| =>
                   Round(rounds[i].cr, PlanOr(PlanOf(h, rounds[i].cr, rounds[i].order), PlanFor(h, cr, order))));
    forall n | 0 <= n < |rounds|
      ensures var p := plain[n].plan;
              && PlanOf(h, rounds[n].cr, rounds[n].order) == Some(p)
              && WellFormed(p) && GatesDistinct(p.actions) && Gates(p) == gates
    {
      RoundOfSpec(h, cr, order, rounds[n]);
    }
    assert forall n :: 0 <= n < |rounds| ==> RoundEnd(env, h, plain[n], ws[n]) == EndOf(env, h, rounds[n], ws[n]);
    assert ConvergenceRun(env, h, gates, plain, ws);
    Converges(env, h, gates, plain, ws);
    var n :| 0 <= n < |plain| && RoundEnd(env, h, plain[n], ws[n]).flow.Completed?;
    assert EndOf(env, h, rounds[n], ws[n]).flow.Completed?;
  }

  function PlanOr(p: Option<Plan>, q: Plan): Plan {
    if p.Some? then p.value else q
  }
}
