/** The deployment order as a rolling update keeps it: while a workload is stale, no workload of a type that is deployed
    later is updated. */
module HeldBack {
  import opened Cluster
  import opened ApiServer
  import opened Names
  import opened PrescribedOrder
  import opened Reconcile
  import opened Frames
  import opened Upserts
  import opened Prune
  import opened Rolling
  import opened Rollout
  import opened Convergence
  import opened Planner
  import opened Planned
  import opened OrderIndependence
  import opened OneByOneUpdates
  import opened PlannedObjects

  /** The gate at `f` is stored with a hash that is not the desired one. */
  predicate StaleGate(h: Hasher, objs: map<Key, Obj>, actions: seq<Action>, f: nat) {
    && f < |actions| && actions[f].Gate?
    && actions[f].content.key in objs && objs[actions[f].content.key].hash != h(actions[f].content)
  }

  predicate IsWrite(e: Event) {
    e.Created? || e.Updated?
  }

  /** Nothing is created or updated but the objects of the actions up to `f`. */
  ghost predicate WritesUpTo(a: World, b: World, actions: seq<Action>, f: nat) {
    a.log <= b.log && forall t :: |a.log| <= t < |b.log| && IsWrite(b.log[t].event) ==>
      IsUpTo(actions, f, b.log[t].event.key)
  }

  ghost predicate IsUpTo(actions: seq<Action>, f: nat, k: Key) {
    exists g :: 0 <= g <= f && g < |actions| && actions[g].content.key == k
  }

  lemma StaleStops(env: Env, h: Hasher, checking: bool, p: Pass, actions: seq<Action>)
    requires Drifting(env) && p.flow.Going? && StaleGate(h, p.w.objs, actions, 0)
    ensures !Step(env, h, true, checking, p, actions[0]).flow.Going?
  {
    ArriveDrifts(env, p.w);
  }

  lemma UpsertWrites(env: Env, h: Hasher, w: World, c: Content)
    ensures var w2 := Upsert(env, h, w, c).0;
            w.log <= w2.log && forall t :: |w.log| <= t < |w2.log| && IsWrite(w2.log[t].event) ==>
              w2.log[t].event.key == c.key
  {
    ArriveLog(env, w);
    var (w1, r) := Fetch(env, w, c.key);
    ArriveLog(env, Log(w1, Got(c.key, r)));
    hide Arrive;
  }

  lemma StepWrites(env: Env, h: Hasher, gating: bool, checking: bool, p: Pass, a: Action)
    ensures var q := Step(env, h, gating, checking, p, a);
            p.w.log <= q.w.log && forall t :: |p.w.log| <= t < |q.w.log| && IsWrite(q.w.log[t].event) ==>
              q.w.log[t].event.key == a.content.key
  {
    if p.flow.Going? {
      UpsertWrites(env, h, p.w, a.content);
      ArriveLog(env, Upsert(env, h, p.w, a.content).0);
      hide Upsert, Arrive;
    }
  }

  lemma StaleLater(env: Env, h: Hasher, checking: bool, p: Pass, actions: seq<Action>, f: nat)
    requires Drifting(env) && p.flow.Going? && 0 < f && StaleGate(h, p.w.objs, actions, f) && GatesDistinct(actions)
    requires forall a :: a in actions ==> (a.Gate? <==> IsWorkloadKind(a.content.key.kind))
    ensures StaleGate(h, Step(env, h, true, checking, p, actions[0]).w.objs, actions[1..], f - 1)
  {
    StepObjs(env, h, true, checking, p, actions[0]);
    assert actions[0] in actions && actions[f] in actions && actions[1..][f - 1] == actions[f];
  }

  lemma UpToShift(actions: seq<Action>, f: nat, k: Key)
    requires actions != [] && 0 < f && IsUpTo(actions[1..], f - 1, k)
    ensures IsUpTo(actions, f, k)
  {
    var g :| 0 <= g <= f - 1 && g < |actions[1..]| && actions[1..][g].content.key == k;
    assert actions[g + 1] == actions[1..][g];
  }

  lemma {:induction false} StepsWriteUpTo(env: Env, h: Hasher, checking: bool, p: Pass, actions: seq<Action>, f: nat)
    requires Drifting(env) && StaleGate(h, p.w.objs, actions, f) && GatesDistinct(actions)
    requires forall a :: a in actions ==> (a.Gate? <==> IsWorkloadKind(a.content.key.kind))
    ensures WritesUpTo(p.w, Steps(env, h, true, checking, p, actions).w, actions, f)
    decreases f
  {
    hide Step, GatesDistinct, StaleGate;
    StaleInside(h, p.w.objs, actions, f);
    if !p.flow.Going? {
      StepsHalted(env, h, true, checking, p, actions);
    } else {
      var p1 := Step(env, h, true, checking, p, actions[0]);
      var q := Steps(env, h, true, checking, p, actions);
      StepWrites(env, h, true, checking, p, actions[0]);
      if f == 0 {
        StaleStops(env, h, checking, p, actions);
        StepsHalted(env, h, true, checking, p1, actions[1..]);
      } else {
        StaleLater(env, h, checking, p, actions, f);
        GatesOfRest(actions);
        StepsWriteUpTo(env, h, checking, p1, actions[1..], f - 1);
        forall t | |p.w.log| <= t < |q.w.log| && IsWrite(q.w.log[t].event)
          ensures IsUpTo(actions, f, q.w.log[t].event.key)
        {
          if t < |p1.w.log| {
            assert q.w.log[t] == p1.w.log[t];
          } else {
            UpToShift(actions, f, q.w.log[t].event.key);
          }
        }
      }
    }
  }

  lemma StaleInside(h: Hasher, objs: map<Key, Obj>, actions: seq<Action>, f: nat)
    requires StaleGate(h, objs, actions, f)
    ensures f < |actions|
  {
  }

  lemma GatesOfRest(actions: seq<Action>)
    requires actions != [] && GatesDistinct(actions)
    ensures GatesDistinct(actions[1..])
  {
  }

  /** While a gate is stale a rolling pass creates and updates nothing that it plans after it, under drift and
      whichever calls fail. */
  lemma PassWritesUpTo(env: Env, h: Hasher, cr: Cr, plan: Plan, w: World, f: nat, t: nat)
    requires Drifting(env) && cr.spec.rollingDeploy && (!cr.deleting || cr.spec.disablePvcFinalizer)
    requires WellFormed(plan) && GatesDistinct(plan.actions) && StaleGate(h, w.objs, plan.actions, f)
    requires var q := Deploy(env, h, cr, Some(plan), w).w; |w.log| <= t < |q.log| && IsWrite(q.log[t].event)
    ensures var k := Deploy(env, h, cr, Some(plan), w).w.log[t].event.key;
            k == plan.common.key || IsUpTo(plan.actions, f, k)
  {
    hide Step, Steps, FinalizerBlock, Tail, Drifting, GatesDistinct;
    var checking := cr.generation > 1;
    var p0 := Pass(w, {}, Going);
    var p1 := Step(env, h, false, false, p0, Ensure(plan.common));
    var p2 := FinalizerBlock(env, cr, p1);
    var p3 := Steps(env, h, true, checking, p2, plan.actions);
    var q := Tail(env, cr, p3).w;
    StepWrites(env, h, false, false, p0, Ensure(plan.common));
    FinalizerBlockLog(env, cr, p1);
    StepObjs(env, h, false, false, p0, Ensure(plan.common));
    FinalizerBlockReads(env, cr, p1);
    assert plan.actions[f] in plan.actions;
    StepsWriteUpTo(env, h, checking, p2, plan.actions, f);
    TailLog(env, cr, p3);
    if t < |p1.w.log| {
      assert q.log[t] == p1.w.log[t];
    } else if |p2.w.log| <= t < |p3.w.log| {
      assert q.log[t] == p3.w.log[t];
    }
  }

  // ---------- from the spec ----------

  /** What is planned for a node before anything that waits for its workload. */
  function Upfront(n: NodeObjects): seq<Action> {
    [Ensure(n.config)] + Ensures(n.services) + [Gate(n.workload)]
  }

  /** The gate of node `i` stands behind all that is planned for the nodes before it and its own config map and
      services, and before all else. */
  lemma {:induction false} GateStands(ns: seq<NodeObjects>, i: nat)
    requires i < |ns|
    ensures Flatten(ns[..i]) + Upfront(ns[i]) <= Flatten(ns)
    decreases i
  {
    hide Ensures;
    if i == 0 {
      assert Flatten(ns)[..|Upfront(ns[0])|] == Upfront(ns[0]);
    } else {
      GateStands(ns[1..], i - 1);
      assert ns[..i][0] == ns[0] && ns[..i][1..] == ns[1..][..i - 1];
      assert Flatten(ns[..i]) == NodeActions(ns[0]) + Flatten(ns[1..][..i - 1]);
    }
  }

  /** The node that an action up to a gate is planned for. */
  lemma NodeUpTo(ns: seq<NodeObjects>, i: nat, k: Key) returns (m: nat, a: Action)
    requires i < |ns| && IsUpTo(Flatten(ns), |Flatten(ns[..i])| + |ns[i].services| + 1, k)
    ensures m <= i && a.content.key == k && a in (if m == i then Upfront(ns[m]) else NodeActions(ns[m]))
  {
    hide Flatten, NodeActions;
    GateStands(ns, i);
    var f := |Flatten(ns[..i])| + |ns[i].services| + 1;
    var front := Flatten(ns[..i]) + Upfront(ns[i]);
    assert |front| == f + 1;
    var g :| 0 <= g <= f && g < |Flatten(ns)| && Flatten(ns)[g].content.key == k;
    a := front[g];
    if a in Upfront(ns[i]) {
      m := i;
    } else {
      assert a in Flatten(ns[..i]);
      FlattenHas(ns[..i], a);
      m :| 0 <= m < |ns[..i]| && a in NodeActions(ns[..i][m]);
    }
  }

  /** A node whose workload is stored with another hash than the planned one. */
  ghost predicate StaleNode(h: Hasher, cr: Cr, order: seq<string>, objs: map<Key, Obj>, key: string) {
    exists c :: c in Gates(PlanFor(h, cr, order)) && c.key.name == UniqueString(cr.name, key)
             && c.key in objs && objs[c.key].hash != h(c)
  }

  /** The key is that of the node's config map, workload, ingress, disruption budget or autoscaler. */
  predicate IsOfNode(cr: string, node: string, k: Key) {
    match k.kind
    case ConfigMap => k.name == "druid-" + cr + "-" + node + "-config"
    case StatefulSet => k.name == "druid-" + cr + "-" + node
    case Deployment => k.name == "druid-" + cr + "-" + node
    case Ingress => k.name == "druid-" + cr + "-" + node
    case PodDisruptionBudget => k.name == "druid-" + cr + "-" + node
    case HorizontalPodAutoscaler => k.name == "druid-" + cr + "-" + node
    case _ => false
  }

  /** While the workload of node `a` is stale, a rolling pass tries to write no config map, workload, ingress,
      disruption budget or autoscaler but the common config map and those of nodes whose type is not deployed later
      than the type of `a`; and an ingress, disruption budget or autoscaler of `a` itself has to wait too. With a stale
      historical only historicals are touched, and routers only when nothing else is stale. Under drift, whichever calls
      fail, in every iteration order. */
  lemma StaleHoldsBack(env: Env, h: Hasher, cr: Cr, order: seq<string>, w: World, a: string, t: nat)
    requires Drifting(env) && IterationOrder(order, cr.spec.nodes) && KnownTypes(cr.spec.nodes)
    requires cr.spec.rollingDeploy && (!cr.deleting || cr.spec.disablePvcFinalizer)
    requires a in cr.spec.nodes && StaleNode(h, cr, order, w.objs, a)
    requires var q := Deploy(env, h, cr, PlanOf(h, cr, order), w).w;
             |w.log| <= t < |q.log| && (q.log[t].event.Created? || q.log[t].event.Updated?)
    ensures var k := Deploy(env, h, cr, PlanOf(h, cr, order), w).w.log[t].event.key;
            || k.kind.Service? || k.kind.PersistentVolumeClaim?
            || k == Key(ConfigMap, cr.ns, cr.name + "-druid-common-config")
            || exists b :: b in cr.spec.nodes && IsOfNode(cr.name, b, k)
                        && !DeployedBefore(cr.spec.nodes[a].nodeType, cr.spec.nodes[b].nodeType)
                        && (b == a ==> k.kind.ConfigMap? || k.kind.StatefulSet? || k.kind.Deployment?)
  {
    hide Deploy, NodesOf, Flatten, Prescribed, IterationOrder, KnownTypes, Drifting, DeployedBefore, GatesDistinct,
         UniqueString, Gates, IsUpTo, IsOfNode, NodeActions, Upfront;
    var plan := PlanFor(h, cr, order);
    var ns, keys := NodesOf(h, cr, order), Prescribed(cr.spec.nodes, order);
    PlanWellFormed(h, cr, order);
    PlanGatesDistinct(h, cr, order);
    PrescribedInDeploymentOrder(cr.spec.nodes, order);
    var i := StaleAt(h, cr, order, w.objs, a);
    var f := |Flatten(ns[..i])| + |ns[i].services| + 1;
    GateAt(ns, i);
    PassWritesUpTo(env, h, cr, plan, w, f, t);
    var k := Deploy(env, h, cr, Some(plan), w).w.log[t].event.key;
    if k != plan.common.key && !k.kind.Service? && !k.kind.PersistentVolumeClaim? {
      var m, act := NodeUpTo(ns, i, k);
      WrittenOf(h, cr, order, m, act);
      PrescribedDistinct(cr.spec.nodes, order);
      var b := keys[m];
      assert b in cr.spec.nodes && IsOfNode(cr.name, b, k);
      assert !DeployedBefore(cr.spec.nodes[a].nodeType, cr.spec.nodes[b].nodeType);
      if b == a {
        assert m == i;
        UpfrontKinds(h, cr, order, i, act);
      }
    }
  }

  lemma GateAt(ns: seq<NodeObjects>, i: nat)
    requires i < |ns|
    ensures var f := |Flatten(ns[..i])| + |ns[i].services| + 1;
            f < |Flatten(ns)| && Flatten(ns)[f] == Gate(ns[i].workload)
  {
    hide Flatten;
    GateStands(ns, i);
    var front := Flatten(ns[..i]) + Upfront(ns[i]);
    assert front[|front| - 1] == Gate(ns[i].workload) && Flatten(ns)[|front| - 1] == front[|front| - 1];
  }

  lemma UpfrontKinds(h: Hasher, cr: Cr, order: seq<string>, i: nat, a: Action)
    requires IterationOrder(order, cr.spec.nodes) && i < |NodesOf(h, cr, order)|
    requires a in Upfront(NodesOf(h, cr, order)[i])
    ensures var kind := a.content.key.kind; kind.ConfigMap? || kind.Service? || IsWorkloadKind(kind)
  {
    hide NodesOf, IterationOrder, UniqueString, NodeConfigName, CarriesLabels;
    PlanNodes(h, cr, order);
  }

  /** What is planned for a node is named after it, services and claims aside. */
  lemma WrittenOf(h: Hasher, cr: Cr, order: seq<string>, m: nat, a: Action)
    requires IterationOrder(order, cr.spec.nodes) && m < |NodesOf(h, cr, order)|
    requires a in NodeActions(NodesOf(h, cr, order)[m]) || a in Upfront(NodesOf(h, cr, order)[m])
    ensures |NodesOf(h, cr, order)| == |Prescribed(cr.spec.nodes, order)|
    ensures || a.content.key.kind.Service? || a.content.key.kind.PersistentVolumeClaim?
            || IsOfNode(cr.name, Prescribed(cr.spec.nodes, order)[m], a.content.key)
  {
    hide NodesOf, NodeActions, IterationOrder, Prescribed, CarriesLabels, MakeNode, MakePvcs;
    var n := NodesOf(h, cr, order)[m];
    PlanNodes(h, cr, order);
    PlannedCount(h, cr, order);
    PlannedNode(h, cr, order, m);
    var key := Prescribed(cr.spec.nodes, order)[m];
    NodeName(cr.name, key);
    assert a in NodeActions(n) by {
      UpfrontIn(n, a);
    }
    NodeActionsHas(n, a);
    if a.Ensure? && a.content in n.extras {
      NodeParts(h, cr, SharedAt(h, cr, Initial(cr.spec), Prescribed(cr.spec.nodes, order)[..m]), key,
                cr.spec.nodes[key]);
      var lm := NodeLabels(SharedAt(h, cr, Initial(cr.spec), Prescribed(cr.spec.nodes, order)[..m]),
                           cr.spec.nodes[key], cr.name, UniqueString(cr.name, key)).0;
      ExtrasNamed(cr, cr.spec.nodes[key], lm, UniqueString(cr.name, key), a.content);
    }
  }

  lemma ExtrasNamed(cr: Cr, node: NodeSpec, lm: Labels, unique: string, c: Content)
    requires c in Extras(cr, node, lm, unique)
    ensures c.key.kind.PersistentVolumeClaim? || (IsOptionalKind(c.key.kind) && c.key.name == unique)
  {
    ClaimKinds(cr, node, lm, unique);
  }

  lemma UpfrontIn(n: NodeObjects, a: Action)
    ensures a in Upfront(n) ==> a in NodeActions(n)
  {
  }

  lemma NodeName(cr: string, key: string)
    ensures UniqueString(cr, key) == "druid-" + cr + "-" + key
  {
  }

  lemma StaleAt(h: Hasher, cr: Cr, order: seq<string>, objs: map<Key, Obj>, a: string) returns (i: nat)
    requires IterationOrder(order, cr.spec.nodes) && KnownTypes(cr.spec.nodes) && StaleNode(h, cr, order, objs, a)
    ensures var ns, keys := NodesOf(h, cr, order), Prescribed(cr.spec.nodes, order);
            && i < |ns| && |ns| == |keys| && keys[i] == a
            && ns[i].workload.key in objs && objs[ns[i].workload.key].hash != h(ns[i].workload)
  {
    hide NodesOf, Flatten, Prescribed, IterationOrder, KnownTypes, UniqueString, Gates, PlanFor;
    var c :| c in Gates(PlanFor(h, cr, order)) && c.key.name == UniqueString(cr.name, a)
          && c.key in objs && objs[c.key].hash != h(c);
    i := NodeOfGate(h, cr, order, c);
    PlannedNode(h, cr, order, i);
    UniqueStringInjective(cr.name, a, Prescribed(cr.spec.nodes, order)[i]);
  }

  lemma NodeOfGate(h: Hasher, cr: Cr, order: seq<string>, c: Content) returns (i: nat)
    requires IterationOrder(order, cr.spec.nodes) && c in Gates(PlanFor(h, cr, order))
    ensures i < |NodesOf(h, cr, order)| && NodesOf(h, cr, order)[i].workload == c
    ensures |NodesOf(h, cr, order)| == |Prescribed(cr.spec.nodes, order)|
  {
    hide NodesOf, NodeActions, Prescribed, IterationOrder;
    var ns := NodesOf(h, cr, order);
    PlannedCount(h, cr, order);
    FlattenHas(ns, Gate(c));
    i :| i < |ns| && Gate(c) in NodeActions(ns[i]);
    NodeActionsHas(ns[i], Gate(c));
  }
}
