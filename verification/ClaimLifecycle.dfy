/** The claims a spec plans and the orphan collector that may take them: when a pass settles the store, from the
    spec. */
module ClaimLifecycle {
  import opened Cluster
  import opened ApiServer
  import opened PrescribedOrder
  import opened Reconcile
  import opened Frames
  import opened Upserts
  import opened Prune
  import opened OrphanPvc
  import opened Quiescence
  import opened Planner
  import opened Planned

  /** All lists and deletes succeeded. */
  predicate AllOk(e: Event) {
    (e.Deleted? ==> e.ok) && (e.Listed? ==> e.ok)
  }

  /** With its calls successful the collector leaves a claim of the resource exactly when it is in use or some pod is
      not healthy. */
  lemma CollectorLeaves(env: Env, cr: Cr, w: World, k: Key)
    requires Drifting(env) && cr.spec.deleteOrphanPvc && k in w.objs && IsOrphanCandidate(cr, w.objs, k)
    requires Adds(w, CollectOrphans(env, cr, w), AllOk)
    ensures k in CollectOrphans(env, cr, w).objs <==> !PodsHealthy(cr, w.objs) || Used(cr, w.objs, k.name)
  {
    hide List, DeleteAll, AllHealthy, PodsHealthy, Used, Enumerates, Drifting, Unmounted, MountedPvc,
         IsOrphanCandidate, Mounts;
    var end := CollectOrphans(env, cr, w);
    var (w1, pods) := List(env, w, Pod, cr.ns, DruidLabels(cr.name));
    ListReads(env, w, Pod, cr.ns, DruidLabels(cr.name));
    CollectorExtends(env, cr, w);
    ListAnswers(env, w, Pod, cr.ns, DruidLabels(cr.name), end);
    var (w2, pvcs) := List(env, w1, PersistentVolumeClaim, cr.ns, map["druid_cr" := cr.name]);
    ListReads(env, w1, PersistentVolumeClaim, cr.ns, map["druid_cr" := cr.name]);
    AddsSplit(w, w1, end, AllOk);
    ListAnswers(env, w1, PersistentVolumeClaim, cr.ns, map["druid_cr" := cr.name], end);
    OrphanFreeDrift(cr, w.objs, w1.objs);
    HealthyAsListed(cr, w1.objs, pods.value);
    UsedAsListed(cr, w1.objs, pods.value, k.name);
    if AllHealthy(w1.objs, pods.value) {
      AddsSplit(w1, w2, end, AllOk);
      DeletesOk(env, w2, Orphans(w1.objs, pods.value, pvcs.value));
      CollectorRemoves(env, cr, w, w1, pods.value, w2, pvcs.value, k);
    }
  }

  lemma CollectorExtends(env: Env, cr: Cr, w: World)
    requires cr.spec.deleteOrphanPvc
    ensures var end := CollectOrphans(env, cr, w);
            var (w1, pods) := List(env, w, Pod, cr.ns, DruidLabels(cr.name));
            var w2 := List(env, w1, PersistentVolumeClaim, cr.ns, map["druid_cr" := cr.name]).0;
            w.log <= w1.log <= w2.log && w1.log <= end.log && (pods.Some? ==> w2.log <= end.log)
  {
    hide List, DeleteAll, AllHealthy, MountedPvc, Unmounted;
    var (w1, pods) := List(env, w, Pod, cr.ns, DruidLabels(cr.name));
    ListLog(env, w, Pod, cr.ns, DruidLabels(cr.name));
    var (w2, pvcs) := List(env, w1, PersistentVolumeClaim, cr.ns, map["druid_cr" := cr.name]);
    ListLog(env, w1, PersistentVolumeClaim, cr.ns, map["druid_cr" := cr.name]);
    if pods.Some? && pvcs.Some? {
      DeleteAllLog(env, w2, Unmounted(pvcs.value, MountedPvc(w1.objs, pods.value)));
    }
  }

  lemma ListAnswers(env: Env, w: World, kind: Kind, ns: string, sel: Labels, end: World)
    requires Adds(w, end, AllOk) && List(env, w, kind, ns, sel).0.log <= end.log
    ensures List(env, w, kind, ns, sel).1.Some?
  {
    ArriveLog(env, w);
    var w1 := List(env, w, kind, ns, sel).0;
    assert end.log[|w.log|] == w1.log[|w.log|];
  }

  lemma {:induction false} DeletesOk(env: Env, w: World, keys: seq<Key>)
    requires Adds(w, DeleteAll(env, w, keys).0, AllOk)
    ensures DeleteAll(env, w, keys).1
    decreases |keys|
  {
    hide Delete;
    if keys != [] {
      var (w1, ok) := Delete(env, w, keys[0]);
      var end := DeleteAll(env, w, keys).0;
      DeleteLog(env, w, keys[0]);
      if ok {
        DeleteAllLog(env, w1, keys[1..]);
        AddsSplit(w, w1, end, AllOk);
        DeletesOk(env, w1, keys[1..]);
      }
    }
  }

  /** What follows the collector leaves claims alone. */
  lemma TailLeavesClaims(env: Env, cr: Cr, p: Pass, k: Key)
    requires Drifting(env) && p.flow.Going? && k.kind.PersistentVolumeClaim?
    ensures k in Tail(env, cr, p).w.objs <==> k in CollectOrphans(env, cr, p.w).objs
    ensures CollectOrphans(env, cr, p.w).log <= Tail(env, cr, p).w.log
  {
    hide CollectOrphans, PruneKinds, ReportStatus, Matches;
    var w1 := CollectOrphans(env, cr, p.w);
    var (w2, s) := PruneKinds(env, cr, p.names, w1, PRUNED);
    PruneKindsReduces(env, cr, p.names, w1, PRUNED);
    PruneKindsLog(env, cr, p.names, w1, PRUNED);
    ReportReads(env, cr, w2, s);
  }

  // ---------- the pods during the node loop ----------

  lemma PodsFramed(cr: Cr, a: map<Key, Obj>, b: map<Key, Obj>, keys: set<Key>)
    requires Framed(a, b, keys) && forall k :: k in keys ==> !k.kind.Pod?
    ensures PodsHealthy(cr, a) <==> PodsHealthy(cr, b)
    ensures forall n :: Used(cr, a, n) <==> Used(cr, b, n)
  {
    forall k: Key | k.kind.Pod? ensures (k in a <==> k in b) && (k in a ==> SameObj(a[k], b[k])) {
    }
    forall k: Key ensures k in a && OwnPod(cr, a, k) <==> k in b && OwnPod(cr, b, k) {
    }
    forall n ensures Used(cr, a, n) <==> Used(cr, b, n) {
      if k :| k in a && OwnPod(cr, a, k) && (n == "" || (a[k].body.PodBody? && Some(n) in a[k].body.claims)) {
        assert OwnPod(cr, b, k);
      }
      if k :| k in b && OwnPod(cr, b, k) && (n == "" || (b[k].body.PodBody? && Some(n) in b[k].body.claims)) {
        assert OwnPod(cr, a, k);
      }
    }
  }

  lemma LabelledClaimIsCandidate(cr: Cr, objs: map<Key, Obj>, k: Key)
    requires Labelled(cr, objs, k) && k.ns == cr.ns && k.kind.PersistentVolumeClaim?
    ensures IsOrphanCandidate(cr, objs, k)
  {
    var l := objs[k].labels;
    assert "druid_cr" in DruidLabels(cr.name);
    assert Selects(map["druid_cr" := cr.name], l);
  }

  /** The claims that the spec plans are safe from the pass that writes them. */
  ghost predicate ClaimsSafe(cr: Cr, plan: Plan, objs: map<Key, Obj>) {
    || !cr.spec.deleteOrphanPvc
    || !PodsHealthy(cr, objs)
    || forall c :: c in Desired(plan) && c.key.kind.PersistentVolumeClaim? ==> Used(cr, objs, c.key.name)
  }

  /** Whether a planned claim is stored after a completed pass, even one that writes it twice: exactly when
      collection is off, or some pod was not healthy, or some pod used the claim already. */
  lemma PlannedClaimStoredIff(env: Env, h: Hasher, cr: Cr, order: seq<string>, w: World, c: Content)
    requires IterationOrder(order, cr.spec.nodes) && KnownTypes(cr.spec.nodes)
    requires Drifting(env) && (!cr.deleting || cr.spec.disablePvcFinalizer)
    requires c in Desired(PlanFor(h, cr, order)) && c.key.kind.PersistentVolumeClaim?
    requires NameHonest(h, cr, w.objs, Desired(PlanFor(h, cr, order)), c.key)
    requires var q := Deploy(env, h, cr, PlanOf(h, cr, order), w); q.flow.Completed? && Adds(w, q.w, AllOk)
    ensures c.key in Deploy(env, h, cr, PlanOf(h, cr, order), w).w.objs <==>
              !cr.spec.deleteOrphanPvc || !PodsHealthy(cr, w.objs) || Used(cr, w.objs, c.key.name)
  {
    hide NodesOf, Flatten, NodeLoop, Tail, CollectOrphans, PodsHealthy, Used, IsOrphanCandidate, Drifting,
         IterationOrder, NameHonest, Framed, Fresh, Desired, Selects;
    var plan := PlanFor(h, cr, order);
    var p := NodeLoop(env, h, cr, plan, w);
    var w1 := CollectOrphans(env, cr, p.w);
    PlanWellFormed(h, cr, order);
    CompletedIffLoopDone(env, h, cr, plan, w);
    NodeLoopFrame(env, h, cr, plan, w);
    NoPodsPlanned(plan);
    PodsFramed(cr, w.objs, p.w.objs, DesiredKeys(plan));
    KeysOfDesired(plan);
    NodeLoopLabels(env, h, cr, plan, w, c.key);
    LabelledClaimIsCandidate(cr, p.w.objs, c.key);
    TailLeavesClaims(env, cr, p, c.key);
    CollectLog(env, cr, p.w);
    AddsSplit(w, p.w, Tail(env, cr, p).w, AllOk);
    AddsSplit(p.w, w1, Tail(env, cr, p).w, AllOk);
    if cr.spec.deleteOrphanPvc {
      CollectorLeaves(env, cr, p.w, c.key);
    } else {
      CollectorOff(env, cr, p.w);
    }
  }

  lemma CollectorOff(env: Env, cr: Cr, w: World)
    requires !cr.spec.deleteOrphanPvc
    ensures CollectOrphans(env, cr, w) == w
  {
  }

  lemma FreshOne(h: Hasher, objs: map<Key, Obj>, cs: set<Content>, c: Content)
    requires AllFresh(h, objs, cs) && c in cs
    ensures Fresh(h, objs, c)
  {
  }

  lemma FreshStored(h: Hasher, objs: map<Key, Obj>, c: Content)
    requires Fresh(h, objs, c)
    ensures c.key in objs
  {
  }

  lemma NoPodsPlanned(plan: Plan)
    requires forall c :: c in Desired(plan) ==> !c.key.kind.Pod?
    ensures forall k :: k in DesiredKeys(plan) ==> !k.kind.Pod?
  {
    KeysOfDesired(plan);
  }

  /** A completed pass whose lists and deletes succeeded settles the store exactly when no object is desired with two
      hashes and, with orphan collection on and all pods healthy, every planned claim was in use: all of it can be told
      before the pass. */
  lemma SettlesIff(env: Env, h: Hasher, cr: Cr, order: seq<string>, w: World)
    requires IterationOrder(order, cr.spec.nodes) && KnownTypes(cr.spec.nodes)
    requires Drifting(env) && (!cr.deleting || cr.spec.disablePvcFinalizer)
    requires forall c :: c in Desired(PlanFor(h, cr, order)) ==> LabelsHonest(h, cr, w.objs, c)
    requires var q := Deploy(env, h, cr, PlanOf(h, cr, order), w); q.flow.Completed? && Adds(w, q.w, AllOk)
    ensures var plan := PlanFor(h, cr, order);
            Settled(h, cr, plan, Deploy(env, h, cr, PlanOf(h, cr, order), w).w.objs)
            <==> ConflictFree(h, Desired(plan)) && ClaimsSafe(cr, plan, w.objs)
  {
    hide NodesOf, Flatten, Deploy, Settled, ConflictFree, PodsHealthy, Used, Drifting, IterationOrder, LabelsHonest,
         Desired;
    var plan := PlanFor(h, cr, order);
    var q := Deploy(env, h, cr, PlanOf(h, cr, order), w);
    assert Adds(w, q.w, PruneOk);
    SettlesIffConflictFree(env, h, cr, plan, w);
    forall c | c in Desired(plan) && c.key.kind.PersistentVolumeClaim?
      ensures c.key in q.w.objs <==>
                !cr.spec.deleteOrphanPvc || !PodsHealthy(cr, w.objs) || Used(cr, w.objs, c.key.name)
    {
      PlannedClaimStoredIff(env, h, cr, order, w, c);
    }
  }

  /** A planned claim that no pod uses is never quiet while orphan collection is on and the pods are healthy: each
      completed pass creates it and collects it, so that the next one that completes writes again. */
  lemma UnusedClaimNeverQuiet(env: Env, h: Hasher, cr: Cr, o1: seq<string>, w: World, cr2: Cr, plan2: Plan, w2: World,
                              c: Content)
    requires IterationOrder(o1, cr.spec.nodes) && KnownTypes(cr.spec.nodes) && Drifting(env)
    requires (!cr.deleting || cr.spec.disablePvcFinalizer) && (!cr2.deleting || cr2.spec.disablePvcFinalizer)
    requires cr.spec.deleteOrphanPvc && c in Desired(PlanFor(h, cr, o1)) && c.key.kind.PersistentVolumeClaim?
    requires NameHonest(h, cr, w.objs, Desired(PlanFor(h, cr, o1)), c.key)
    requires PodsHealthy(cr, w.objs) && !Used(cr, w.objs, c.key.name)
    requires var q := Deploy(env, h, cr, PlanOf(h, cr, o1), w);
             q.flow.Completed? && Adds(w, q.w, AllOk) && SameObjs(q.w.objs, w2.objs)
    requires c in Desired(plan2) && Deploy(env, h, cr2, Some(plan2), w2).flow.Completed?
    ensures c.key !in w2.objs
    ensures !Adds(w2, Deploy(env, h, cr2, Some(plan2), w2).w, NotUpsert)
  {
    hide NodesOf, Flatten, Deploy, PodsHealthy, Used, Drifting, IterationOrder, NameHonest, Desired, Adds;
    PlannedClaimStoredIff(env, h, cr, o1, w, c);
    QuietIffAllFresh(env, h, cr2, plan2, w2);
    if AllFresh(h, w2.objs, Desired(plan2)) {
      FreshOne(h, w2.objs, Desired(plan2), c);
      FreshStored(h, w2.objs, c);
    }
  }
}
