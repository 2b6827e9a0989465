/** What every plan made from a spec satisfies, whatever the iteration order of the node map and the state of the maps
    that nodes share. */
module Planned {
  import opened Cluster
  import opened ApiServer
  import opened Names
  import opened PrescribedOrder
  import opened Reconcile
  import opened Frames
  import opened Upserts
  import opened Prune
  import opened Rolling
  import opened Rollout
  import opened Integrity
  import opened Planner

  // ---------- one node ----------

  predicate CarriesLabels(cr: Cr, c: Content) {
    c.key.ns == cr.ns && Selects(DruidLabels(cr.name), c.labels)
  }

  /** What a node's objects are like, whatever the shared maps hold when they are made. */
  ghost predicate Shaped(cr: Cr, n: NodeObjects, key: string) {
    && n.key == key
    && n.config.key == Key(ConfigMap, cr.ns, NodeConfigName(cr.name, key))
    && IsWorkloadKind(n.workload.key.kind) && n.workload.key.ns == cr.ns
    && n.workload.key.name == UniqueString(cr.name, key)
    && n.workload.body.WorkloadBody?
    && n.workload.body.configs == [CommonConfigName(cr.name), NodeConfigName(cr.name, key)]
    && (|| n.workload.body.serviceName == ""
        || (n.services != [] && n.services[0].key.name == n.workload.body.serviceName))
    && (forall c :: c in n.services ==> c.key.kind.Service? && CarriesLabels(cr, c))
    && (forall c :: c in n.extras ==>
          !IsWorkloadKind(c.key.kind) && !c.key.kind.ConfigMap? && !c.key.kind.Pod? && CarriesLabels(cr, c))
    && CarriesLabels(cr, n.config) && CarriesLabels(cr, n.workload)
  }

  lemma OwnLabelsCarry(cr: Cr, base: Labels, unique: string)
    ensures Selects(DruidLabels(cr.name), base + OwnLabels(cr.name, unique))
    ensures Selects(DruidLabels(cr.name), OwnLabels(cr.name, unique))
  {
  }

  lemma NodeLabelsCarry(cr: Cr, sh: Shared, node: NodeSpec, unique: string)
    ensures Selects(DruidLabels(cr.name), NodeLabels(sh, node, cr.name, unique).0)
  {
    if node.podLabels.Some? {
      OwnLabelsCarry(cr, node.podLabels.value, unique);
    } else if sh.podLabels.Some? {
      OwnLabelsCarry(cr, sh.podLabels.value, unique);
    }
  }

  lemma OverlayCarries(cr: Cr, base: Option<Labels>, lm: Labels)
    requires Selects(DruidLabels(cr.name), lm)
    ensures Selects(DruidLabels(cr.name), Overlay(base, lm))
  {
  }

  lemma ExtrasCarry(cr: Cr, node: NodeSpec, lm: Labels, unique: string)
    requires Selects(DruidLabels(cr.name), lm)
    ensures forall c :: c in MakePvcs(cr, node, lm, unique) ==>
              c.key.kind.PersistentVolumeClaim? && CarriesLabels(cr, c)
  {
    forall c | c in MakePvcs(cr, node, lm, unique) ensures c.key.kind.PersistentVolumeClaim? && CarriesLabels(cr, c) {
      var i :| 0 <= i < |node.pvcs| && c == MakePvc(cr, node, i, lm, unique);
      OverlayCarries(cr, node.pvcs[i].labels, lm);
    }
  }

  lemma ServicesCarry(cr: Cr, ts: seq<ServiceTemplate>, lm: Labels, unique: string, port: int)
    requires Selects(DruidLabels(cr.name), lm)
    ensures forall c :: c in MakeServices(ts, cr, lm, unique, port) ==> c.key.kind.Service? && CarriesLabels(cr, c)
  {
    hide Selects;
    forall c | c in MakeServices(ts, cr, lm, unique, port) ensures c.key.kind.Service? && CarriesLabels(cr, c) {
      var i :| 0 <= i < |ts| && c == MakeService(ts[i], cr, lm, unique, port);
      OverlayCarries(cr, ts[i].labels, lm);
    }
  }

  lemma OptionalCarries(kind: Kind, cr: Cr, unique: string, lm: Labels, text: Option<string>)
    requires Selects(DruidLabels(cr.name), lm)
    ensures forall c :: c in Optional(kind, cr, unique, lm, text) ==> c.key.kind == kind && CarriesLabels(cr, c)
  {
  }

  lemma NodeShaped(h: Hasher, cr: Cr, sh: Shared, key: string, node: NodeSpec)
    ensures Shaped(cr, MakeNode(h, cr, sh, key, node).0, key)
  {
    hide NodeLabels, MakeServices, AfterServices, MakePvcs, Optional, Selects, EnvOf, NodeConfigData, NodeProbe;
    var n := MakeNode(h, cr, sh, key, node).0;
    var unique := UniqueString(cr.name, key);
    var (lm, sh1) := NodeLabels(sh, node, cr.name, unique);
    NodeLabelsCarry(cr, sh, node, unique);
    ServicesCarry(cr, if node.services.Some? then node.services.value else sh1.services, lm, unique, node.druidPort);
    assert Selects(DruidLabels(cr.name), DruidLabels(cr.name)) by {
      SelectsSelf(DruidLabels(cr.name));
    }
    OptionalCarries(Ingress, cr, unique, DruidLabels(cr.name), node.ingress);
    OptionalCarries(PodDisruptionBudget, cr, unique, lm, node.pdb);
    OptionalCarries(HorizontalPodAutoscaler, cr, unique, DruidLabels(cr.name), node.hpa);
    ExtrasCarry(cr, node, lm, unique);
    assert n.workload.body.serviceName == "" || n.workload.body.serviceName == FirstName(n.services);
  }

  lemma SelectsSelf(l: Labels)
    ensures Selects(l, l)
  {
  }

  // ---------- all nodes ----------

  /** The cluster-level state after the nodes `keys` were made. */
  function SharedAt(h: Hasher, cr: Cr, sh: Shared, keys: seq<string>): Shared
    requires forall k :: k in keys ==> k in cr.spec.nodes
    decreases |keys|
  {
    if keys == [] then sh else SharedAt(h, cr, MakeNode(h, cr, sh, keys[0], cr.spec.nodes[keys[0]]).1, keys[1..])
  }

  lemma {:induction false} NodeAt(h: Hasher, cr: Cr, sh: Shared, keys: seq<string>, i: nat)
    requires (forall k :: k in keys ==> k in cr.spec.nodes) && i < |keys|
    ensures |MakeNodes(h, cr, sh, keys)| == |keys|
    ensures MakeNodes(h, cr, sh, keys)[i]
         == MakeNode(h, cr, SharedAt(h, cr, sh, keys[..i]), keys[i], cr.spec.nodes[keys[i]]).0
    decreases |keys|
  {
    hide MakeNode;
    var sh1 := MakeNode(h, cr, sh, keys[0], cr.spec.nodes[keys[0]]).1;
    if i > 0 {
      NodeAt(h, cr, sh1, keys[1..], i - 1);
      assert keys[..i][1..] == keys[1..][..i - 1];
    } else {
      if |keys| > 1 {
        NodeAt(h, cr, sh1, keys[1..], 0);
      }
    }
  }

  lemma {:induction false} SharedSnoc(h: Hasher, cr: Cr, sh: Shared, keys: seq<string>, k: string)
    requires (forall x :: x in keys ==> x in cr.spec.nodes) && k in cr.spec.nodes
    ensures SharedAt(h, cr, sh, keys + [k]) == MakeNode(h, cr, SharedAt(h, cr, sh, keys), k, cr.spec.nodes[k]).1
    decreases |keys|
  {
    hide MakeNode;
    if keys == [] {
      assert (keys + [k])[1..] == [];
    } else {
      assert (keys + [k])[1..] == keys[1..] + [k];
      SharedSnoc(h, cr, MakeNode(h, cr, sh, keys[0], cr.spec.nodes[keys[0]]).1, keys[1..], k);
    }
  }

  /** The nodes of a plan, one for each planned key, in the prescribed order. */
  ghost predicate NodesFor(cr: Cr, ns: seq<NodeObjects>, keys: seq<string>) {
    && |ns| == |keys|
    && (forall i, j :: 0 <= i < j < |keys| ==> keys[i] != keys[j])
    && forall i :: 0 <= i < |ns| ==> Shaped(cr, ns[i], keys[i])
  }

  lemma PlanNodes(h: Hasher, cr: Cr, order: seq<string>)
    requires IterationOrder(order, cr.spec.nodes)
    ensures NodesFor(cr, NodesOf(h, cr, order), Prescribed(cr.spec.nodes, order))
  {
    hide MakeNode, Shaped;
    var keys := Prescribed(cr.spec.nodes, order);
    PrescribedAreNodes(cr.spec.nodes, order);
    PrescribedDistinct(cr.spec.nodes, order);
    forall i | 0 <= i < |keys|
      ensures |NodesOf(h, cr, order)| == |keys| && Shaped(cr, NodesOf(h, cr, order)[i], keys[i])
    {
      NodeAt(h, cr, Initial(cr.spec), keys, i);
      NodeShaped(h, cr, SharedAt(h, cr, Initial(cr.spec), keys[..i]), keys[i], cr.spec.nodes[keys[i]]);
    }
  }

  // ---------- the flattened actions ----------

  lemma {:induction false} FlattenHas(ns: seq<NodeObjects>, a: Action)
    ensures a in Flatten(ns) <==> exists i :: 0 <= i < |ns| && a in NodeActions(ns[i])
  {
    if ns != [] {
      FlattenHas(ns[1..], a);
      if i :| 0 <= i < |ns| && a in NodeActions(ns[i]) {
        assert i == 0 || ns[i] == ns[1..][i - 1];
      }
      if i :| 0 <= i < |ns[1..]| && a in NodeActions(ns[1..][i]) {
        assert ns[1..][i] == ns[i + 1];
      }
    }
  }

  lemma NodeActionsHas(n: NodeObjects, a: Action)
    ensures a in NodeActions(n) <==>
              || a == Gate(n.workload)
              || (a.Ensure? && (a.content == n.config || a.content in n.services || a.content in n.extras))
  {
    if a.Ensure? && a.content in n.services {
      var i :| 0 <= i < |n.services| && n.services[i] == a.content;
      assert Ensures(n.services)[i] == a;
    }
    if a.Ensure? && a.content in n.extras {
      var i :| 0 <= i < |n.extras| && n.extras[i] == a.content;
      assert Ensures(n.extras)[i] == a;
    }
  }

  lemma ShapedActions(cr: Cr, n: NodeObjects, key: string, a: Action)
    requires Shaped(cr, n, key) && a in NodeActions(n)
    ensures a.Gate? <==> IsWorkloadKind(a.content.key.kind)
    ensures a.Gate? ==> a.content == n.workload
    ensures CarriesLabels(cr, a.content)
    ensures a.content.key.kind.ConfigMap? ==> a.content == n.config
    ensures !a.content.key.kind.Pod?
  {
    NodeActionsHas(n, a);
  }

  lemma CommonCarries(cr: Cr, owner: string)
    ensures CarriesLabels(cr, CommonConfig(cr, owner))
  {
  }

  /** Gates are for workloads and nothing else, and every planned object is in the resource's namespace under its
      labels. */
  lemma PlanWellFormed(h: Hasher, cr: Cr, order: seq<string>)
    requires IterationOrder(order, cr.spec.nodes) && KnownTypes(cr.spec.nodes)
    ensures var plan := PlanFor(h, cr, order);
            WellFormed(plan) && forall c :: c in Desired(plan) ==> CarriesLabels(cr, c) && !c.key.kind.Pod?
  {
    hide MakeNode, NodeActions, Shaped, CarriesLabels, IterationOrder, Prescribed, NodesOf, KnownTypes;
    var plan := PlanFor(h, cr, order);
    var ns := NodesOf(h, cr, order);
    PlanNodes(h, cr, order);
    CommonCarries(cr, cr.uid);
    forall a | a in plan.actions
      ensures (a.Gate? <==> IsWorkloadKind(a.content.key.kind)) && CarriesLabels(cr, a.content)
      ensures !a.content.key.kind.Pod?
    {
      FlattenHas(ns, a);
      var i :| 0 <= i < |ns| && a in NodeActions(ns[i]);
      ShapedActions(cr, ns[i], Prescribed(cr.spec.nodes, order)[i], a);
    }
  }

  lemma NodeGate(n: NodeObjects, cr: Cr, i: nat)
    requires Shaped(cr, n, n.key) && i < |NodeActions(n)| && NodeActions(n)[i].Gate?
    ensures i == 1 + |n.services| && NodeActions(n)[i].content == n.workload
  {
  }

  lemma GateOfRest(cr: Cr, ns: seq<NodeObjects>, keys: seq<string>, a: Action)
    requires NodesFor(cr, ns, keys) && a in Flatten(ns) && a.Gate?
    ensures exists m :: 0 <= m < |ns| && a.content == ns[m].workload
  {
    hide NodeActions, Shaped;
    FlattenHas(ns, a);
    var m :| 0 <= m < |ns| && a in NodeActions(ns[m]);
    ShapedActions(cr, ns[m], keys[m], a);
  }

  lemma TailNodes(cr: Cr, ns: seq<NodeObjects>, keys: seq<string>)
    requires NodesFor(cr, ns, keys) && ns != []
    ensures NodesFor(cr, ns[1..], keys[1..])
  {
  }

  lemma WorkloadsDiffer(cr: Cr, ns: seq<NodeObjects>, keys: seq<string>, i: nat, j: nat)
    requires NodesFor(cr, ns, keys) && i < j < |ns|
    ensures ns[i].workload.key.name != ns[j].workload.key.name
  {
    if UniqueString(cr.name, keys[i]) == UniqueString(cr.name, keys[j]) {
      UniqueStringInjective(cr.name, keys[i], keys[j]);
    }
  }

  lemma {:induction false} FlattenGatesDistinct(cr: Cr, ns: seq<NodeObjects>, keys: seq<string>)
    requires NodesFor(cr, ns, keys)
    ensures GatesDistinct(Flatten(ns))
  {
    hide Shaped, NodeActions;
    if ns != [] {
      TailNodes(cr, ns, keys);
      FlattenGatesDistinct(cr, ns[1..], keys[1..]);
      var first, rest := NodeActions(ns[0]), Flatten(ns[1..]);
      var all := first + rest;
      assert ns[0].key == keys[0] by {
        NodeKey(cr, ns[0], keys[0]);
      }
      forall i, j | 0 <= i < j < |all| && all[i].Gate? && all[j].Gate?
        ensures all[i].content.key != all[j].content.key
      {
        if j < |first| {
          NodeGate(ns[0], cr, i);
          NodeGate(ns[0], cr, j);
        } else if i < |first| {
          NodeGate(ns[0], cr, i);
          assert all[j] == rest[j - |first|];
          GateOfRest(cr, ns[1..], keys[1..], all[j]);
          var m :| 0 <= m < |ns[1..]| && all[j].content == ns[1..][m].workload;
          WorkloadsDiffer(cr, ns, keys, 0, m + 1);
        } else {
          assert all[i] == rest[i - |first|] && all[j] == rest[j - |first|];
        }
      }
    }
  }

  lemma NodeKey(cr: Cr, n: NodeObjects, key: string)
    requires Shaped(cr, n, key)
    ensures n.key == key
  {
  }

  /** No two nodes share a workload. */
  lemma PlanGatesDistinct(h: Hasher, cr: Cr, order: seq<string>)
    requires IterationOrder(order, cr.spec.nodes) && KnownTypes(cr.spec.nodes)
    ensures GatesDistinct(PlanFor(h, cr, order).actions)
  {
    hide MakeNode, Shaped, NodeActions;
    PlanNodes(h, cr, order);
    FlattenGatesDistinct(cr, NodesOf(h, cr, order), Prescribed(cr.spec.nodes, order));
  }

  // ---------- references ----------

  lemma NodeRefsPlanned(cr: Cr, n: NodeObjects, key: string, given: set<Key>, i: nat)
    requires Shaped(cr, n, key) && Key(ConfigMap, cr.ns, CommonConfigName(cr.name)) in given
    requires i < |NodeActions(n)| && NodeActions(n)[i].Gate?
    ensures var a := NodeActions(n)[i].content; Refs(a.key, a.body) <= given + Keys(NodeActions(n)[..i])
  {
    NodeGate(n, cr, i);
    var before := NodeActions(n)[..i];
    assert before[0] == Ensure(n.config);
    assert Ensure(n.config) in before;
    if n.services != [] {
      assert before[1] == Ensure(n.services[0]);
      assert Ensure(n.services[0]) in before;
    }
  }

  lemma KeysPrefix(a: seq<Action>, b: seq<Action>, i: nat)
    requires |a| <= i <= |a + b|
    ensures Keys(b[..i - |a|]) <= Keys((a + b)[..i])
  {
    assert (a + b)[..i] == a + b[..i - |a|];
  }

  lemma {:induction false} FlattenRefsPlanned(cr: Cr, ns: seq<NodeObjects>, keys: seq<string>, given: set<Key>)
    requires NodesFor(cr, ns, keys) && Key(ConfigMap, cr.ns, CommonConfigName(cr.name)) in given
    ensures RefsPlanned(given, Flatten(ns))
  {
    hide Shaped, NodeActions;
    if ns != [] {
      TailNodes(cr, ns, keys);
      FlattenRefsPlanned(cr, ns[1..], keys[1..], given);
      var first, rest := NodeActions(ns[0]), Flatten(ns[1..]);
      var all := first + rest;
      forall i | 0 <= i < |all| && all[i].Gate?
        ensures Refs(all[i].content.key, all[i].content.body) <= given + Keys(all[..i])
      {
        if i < |first| {
          NodeRefsPlanned(cr, ns[0], keys[0], given, i);
          assert all[..i] == first[..i];
        } else {
          assert all[i] == rest[i - |first|];
          KeysPrefix(first, rest, i);
        }
      }
    }
  }

  /** Every workload is planned after the config maps and the governing service it refers to. */
  lemma PlanRefsPlanned(h: Hasher, cr: Cr, order: seq<string>)
    requires IterationOrder(order, cr.spec.nodes) && KnownTypes(cr.spec.nodes)
    ensures var plan := PlanFor(h, cr, order); RefsPlanned({plan.common.key}, plan.actions)
  {
    hide MakeNode, Shaped, NodeActions;
    PlanNodes(h, cr, order);
    FlattenRefsPlanned(cr, NodesOf(h, cr, order), Prescribed(cr.spec.nodes, order), {CommonConfig(cr, cr.uid).key});
  }

  // ---------- main results, from the spec ----------

  /** Referential integrity, for the plan the code makes of a spec. */
  lemma DeployKeepsIntegrity(env: Env, h: Hasher, cr: Cr, order: seq<string>, w: World)
    requires IterationOrder(order, cr.spec.nodes) && KnownTypes(cr.spec.nodes)
    requires HarmlessAround(cr, env) && Intact(cr, w.objs) && Honest(cr, h, w.objs, PlanFor(h, cr, order).actions)
    requires WorkloadsGo(w, Deploy(env, h, cr, PlanOf(h, cr, order), w).w)
    ensures IntactThrough(cr, w, Deploy(env, h, cr, PlanOf(h, cr, order), w).w)
  {
    hide Deploy, Intact, IntactThrough, WorkloadsGo, Honest, MakeNode, HarmlessAround;
    PlanWellFormed(h, cr, order);
    PlanGatesDistinct(h, cr, order);
    PlanRefsPlanned(h, cr, order);
    PassKeepsIntegrity(env, h, cr, PlanFor(h, cr, order), w);
  }

  // ---------- prune exactness ----------

  /** A stored object that bears the hash of a desired one carries the resource's labels. */
  ghost predicate LabelsHonest(h: Hasher, cr: Cr, objs: map<Key, Obj>, c: Content) {
    Fresh(h, objs, c) ==> Selects(DruidLabels(cr.name), objs[c.key].labels)
  }

  /** The object is stored under the resource's labels. */
  predicate Labelled(cr: Cr, objs: map<Key, Obj>, k: Key) {
    k in objs && Selects(DruidLabels(cr.name), objs[k].labels)
  }

  /** What bears the hash of any content desired under this name carries the labels. */
  ghost predicate NameHonest(h: Hasher, cr: Cr, objs: map<Key, Obj>, cs: set<Content>, k: Key) {
    forall c :: c in cs && c.key == k ==> LabelsHonest(h, cr, objs, c)
  }

  lemma WroteKeepsHonest(h: Hasher, cr: Cr, a: map<Key, Obj>, b: map<Key, Obj>, d: Content, cs: set<Content>, k: Key)
    requires Wrote(h, a, b, d) && CarriesLabels(cr, d) && NameHonest(h, cr, a, cs, k)
    ensures NameHonest(h, cr, b, cs, k) && (Labelled(cr, a, k) ==> Labelled(cr, b, k))
  {
    hide DruidLabels, Selects;
  }

  lemma FreshIsLabelled(h: Hasher, cr: Cr, objs: map<Key, Obj>, cs: set<Content>, c: Content)
    requires NameHonest(h, cr, objs, cs, c.key) && c in cs && Fresh(h, objs, c)
    ensures Labelled(cr, objs, c.key)
  {
  }

  /** A sequence that was not left early leaves every name under the labels, whichever of two contents that contradict
      each other it wrote last. */
  lemma {:induction false} StepsLabel(env: Env, h: Hasher, cr: Cr, gating: bool, checking: bool, p: Pass,
                                      actions: seq<Action>,
                                      cs: set<Content>, k: Key)
    requires Drifting(env) && NameHonest(h, cr, p.w.objs, cs, k) && (k in Keys(actions) || Labelled(cr, p.w.objs, k))
    requires forall a :: a in actions ==> a.content in cs && CarriesLabels(cr, a.content)
    requires Steps(env, h, gating, checking, p, actions).flow.Going?
    ensures Labelled(cr, Steps(env, h, gating, checking, p, actions).w.objs, k)
    decreases |actions|
  {
    hide Step, NameHonest, Labelled, Fresh, Wrote, CarriesLabels, Drifting;
    if actions != [] {
      var p1 := Step(env, h, gating, checking, p, actions[0]);
      StepsNames(env, h, gating, checking, p, actions);
      StepsNames(env, h, gating, checking, p1, actions[1..]);
      StepObjs(env, h, gating, checking, p, actions[0]);
      WroteKeepsHonest(h, cr, p.w.objs, p1.w.objs, actions[0].content, cs, k);
      if actions[0].content.key == k {
        FreshIsLabelled(h, cr, p1.w.objs, cs, actions[0].content);
      }
      KeysFirst(actions);
      StepsLabel(env, h, cr, gating, checking, p1, actions[1..], cs, k);
    }
  }

  lemma NodeLoopLabels(env: Env, h: Hasher, cr: Cr, plan: Plan, w: World, k: Key)
    requires Drifting(env) && (!cr.deleting || cr.spec.disablePvcFinalizer) && k in DesiredKeys(plan)
    requires (forall d :: d in Desired(plan) ==> CarriesLabels(cr, d)) && NameHonest(h, cr, w.objs, Desired(plan), k)
    requires NodeLoop(env, h, cr, plan, w).flow.Going?
    ensures Labelled(cr, NodeLoop(env, h, cr, plan, w).w.objs, k)
  {
    hide Step, Steps, FinalizerBlock, Drifting, CarriesLabels, LabelsHonest, Fresh, Wrote;
    var p0 := Pass(w, {}, Going);
    var p1 := Step(env, h, false, false, p0, Ensure(plan.common));
    var p2 := FinalizerBlock(env, cr, p1);
    StepsNames(env, h, cr.spec.rollingDeploy, cr.generation > 1, p2, plan.actions);
    BlockGoes(env, cr, p1);
    StepObjs(env, h, false, false, p0, Ensure(plan.common));
    WroteKeepsHonest(h, cr, w.objs, p1.w.objs, plan.common, Desired(plan), k);
    if plan.common.key == k {
      FreshIsLabelled(h, cr, p1.w.objs, Desired(plan), plan.common);
    }
    FinalizerBlockReads(env, cr, p1);
    HonestDrift(h, cr, p1.w.objs, p2.w.objs, Desired(plan), k);
    forall a | a in plan.actions ensures a.content in Desired(plan) {
    }
    StepsLabel(env, h, cr, cr.spec.rollingDeploy, cr.generation > 1, p2, plan.actions, Desired(plan), k);
  }

  lemma HonestDrift(h: Hasher, cr: Cr, a: map<Key, Obj>, b: map<Key, Obj>, cs: set<Content>, k: Key)
    requires SameObjs(a, b) && NameHonest(h, cr, a, cs, k)
    ensures NameHonest(h, cr, b, cs, k) && (Labelled(cr, a, k) ==> Labelled(cr, b, k))
  {
  }

  /** Every desired object is found by the prune's own list after a completed pass. */
  lemma DesiredIsListed(env: Env, h: Hasher, cr: Cr, plan: Plan, w: World, k: Key)
    requires Drifting(env) && (!cr.deleting || cr.spec.disablePvcFinalizer)
    requires k in DesiredKeys(plan) && NameHonest(h, cr, w.objs, Desired(plan), k)
    requires forall d :: d in Desired(plan) ==> CarriesLabels(cr, d)
    requires k.kind in PRUNED && Deploy(env, h, cr, Some(plan), w).flow.Completed?
    ensures Matches(Deploy(env, h, cr, Some(plan), w).w.objs, k, k.kind, cr.ns, DruidLabels(cr.name))
  {
    hide NodeLoop, Tail, NameHonest, Drifting;
    var p := NodeLoop(env, h, cr, plan, w);
    CompletedIffLoopDone(env, h, cr, plan, w);
    NodeLoopFrame(env, h, cr, plan, w);
    NodeLoopLabels(env, h, cr, plan, w, k);
    TailReduces(env, cr, p);
    var c := DesiredWith(plan, k);
    assert k !in Claims(cr, p.w.objs) && k !in Doomed(p.w.objs, cr, p.names, PRUNED);
  }

  /** A completed pass whose lists and deletes succeeded leaves, of each pruned kind in the resource's namespace and
      under its labels, exactly the planned names. */
  lemma PruneExact(env: Env, h: Hasher, cr: Cr, order: seq<string>, w: World, k: Key)
    requires IterationOrder(order, cr.spec.nodes) && KnownTypes(cr.spec.nodes)
    requires Drifting(env) && (!cr.deleting || cr.spec.disablePvcFinalizer)
    requires forall c :: c in Desired(PlanFor(h, cr, order)) ==> LabelsHonest(h, cr, w.objs, c)
    requires var q := Deploy(env, h, cr, PlanOf(h, cr, order), w); q.flow.Completed? && Adds(w, q.w, PruneOk)
    requires k.kind in PRUNED
    ensures Matches(Deploy(env, h, cr, PlanOf(h, cr, order), w).w.objs, k, k.kind, cr.ns, DruidLabels(cr.name))
       <==> k in DesiredKeys(PlanFor(h, cr, order))
  {
    hide Deploy, Adds, MakeNode, Matches, LabelsHonest;
    var plan := PlanFor(h, cr, order);
    PlanWellFormed(h, cr, order);
    if k in DesiredKeys(plan) {
      DesiredIsListed(env, h, cr, plan, w, k);
    }
    if Matches(Deploy(env, h, cr, PlanOf(h, cr, order), w).w.objs, k, k.kind, cr.ns, DruidLabels(cr.name)) {
      PruneLeavesOnlyDesired(env, h, cr, plan, w, k);
    }
  }

  lemma DesiredWith(plan: Plan, k: Key) returns (c: Content)
    requires k in DesiredKeys(plan)
    ensures c in Desired(plan) && c.key == k
  {
    if k == plan.common.key {
      c := plan.common;
    } else {
      var a :| a in plan.actions && a.content.key == k;
      c := a.content;
    }
  }
}
