/** Quiescence: when a pass has nothing left to write, exactly, and that it stays so. */
module Quiescence {
  import opened Cluster
  import opened ApiServer
  import opened Reconcile
  import opened Frames
  import opened Upserts
  import opened Prune
  import opened OrphanPvc

  /** Everything desired is stored as desired, and nothing is left to prune. */
  ghost predicate Settled(h: Hasher, cr: Cr, plan: Plan, objs: map<Key, Obj>) {
    AllFresh(h, objs, Desired(plan)) && Doomed(objs, cr, DesiredKeys(plan), PRUNED) == {}
  }

  lemma {:induction false} PruneItemsIdle(env: Env, names: set<Key>, w: World, items: seq<Key>)
    requires forall k :: k in items ==> k in names
    ensures PruneItems(env, names, w, items).0 == w
    decreases |items|
  {
    if items != [] {
      PruneItemsIdle(env, names, w, items[1..]);
    }
  }

  lemma PruneKindIdle(env: Env, cr: Cr, names: set<Key>, w: World, kind: Kind)
    requires Drifting(env) && kind in PRUNED && Doomed(w.objs, cr, names, PRUNED) == {}
    ensures Idle(w, PruneKind(env, cr, names, w, kind).0)
  {
    ListReads(env, w, kind, cr.ns, DruidLabels(cr.name));
    var (w1, items) := List(env, w, kind, cr.ns, DruidLabels(cr.name));
    if items.Some? {
      forall k | k in items.value ensures k in names {
        assert Matches(w1.objs, k, kind, cr.ns, DruidLabels(cr.name));
        assert k !in Doomed(w.objs, cr, names, PRUNED);
      }
      PruneItemsIdle(env, names, w1, items.value);
    }
  }

  lemma DoomedDrift(a: map<Key, Obj>, b: map<Key, Obj>, cr: Cr, names: set<Key>)
    requires SameObjs(a, b)
    ensures Doomed(a, cr, names, PRUNED) == Doomed(b, cr, names, PRUNED)
  {
  }

  lemma {:induction false} PruneKindsIdle(env: Env, cr: Cr, names: set<Key>, w: World, kinds: seq<Kind>)
    requires Drifting(env) && (forall k :: k in kinds ==> k in PRUNED) && Doomed(w.objs, cr, names, PRUNED) == {}
    ensures Idle(w, PruneKinds(env, cr, names, w, kinds).0)
    decreases |kinds|
  {
    if kinds != [] {
      var w1 := PruneKind(env, cr, names, w, kinds[0]).0;
      PruneKindIdle(env, cr, names, w, kinds[0]);
      DoomedDrift(w.objs, w1.objs, cr, names);
      PruneKindsIdle(env, cr, names, w1, kinds[1..]);
      IdleTrans(w, w1, PruneKinds(env, cr, names, w, kinds).0);
    }
  }

  lemma NodeLoopIdle(env: Env, h: Hasher, cr: Cr, plan: Plan, w: World)
    requires Drifting(env) && (!cr.deleting || cr.spec.disablePvcFinalizer)
    requires AllFresh(h, w.objs, Desired(plan))
    ensures Idle(w, NodeLoop(env, h, cr, plan, w).w)
  {
    var p0 := Pass(w, {}, Going);
    var p1 := Step(env, h, false, false, p0, Ensure(plan.common));
    var p2 := FinalizerBlock(env, cr, p1);
    StepLog(env, h, false, false, p0, Ensure(plan.common));
    StepObjs(env, h, false, false, p0, Ensure(plan.common));
    FinalizerBlockReads(env, cr, p1);
    StepsIdle(env, h, cr.spec.rollingDeploy, cr.generation > 1, p2, plan.actions);
    IdleTrans(w, p1.w, p2.w);
    IdleTrans(w, p2.w, NodeLoop(env, h, cr, plan, w).w);
  }

  // ---------- the orphan collector ----------

  /** A pod of the resource. */
  predicate OwnPod(cr: Cr, objs: map<Key, Obj>, k: Key) {
    Matches(objs, k, Pod, cr.ns, DruidLabels(cr.name))
  }

  ghost predicate PodsHealthy(cr: Cr, objs: map<Key, Obj>) {
    forall k :: k in objs && OwnPod(cr, objs, k) ==> PodHealthy(objs[k])
  }

  /** Some pod of the resource mounts a claim of that name; a claim without a name counts as mounted when there is a
      pod at all. */
  ghost predicate Used(cr: Cr, objs: map<Key, Obj>, n: string) {
    exists k :: k in objs && OwnPod(cr, objs, k)
      && (n == "" || (objs[k].body.PodBody? && Some(n) in objs[k].body.claims))
  }

  /** Orphan collection is off, or some pod is not healthy, or every claim of the resource is in use. */
  ghost predicate OrphanFree(cr: Cr, objs: map<Key, Obj>) {
    || !cr.spec.deleteOrphanPvc
    || !PodsHealthy(cr, objs)
    || forall k :: k in objs && IsOrphanCandidate(cr, objs, k) ==> Used(cr, objs, k.name)
  }

  lemma OrphanFreeDrift(cr: Cr, a: map<Key, Obj>, b: map<Key, Obj>)
    requires SameObjs(a, b)
    ensures PodsHealthy(cr, a) <==> PodsHealthy(cr, b)
    ensures forall n :: Used(cr, a, n) <==> Used(cr, b, n)
    ensures OrphanFree(cr, a) <==> OrphanFree(cr, b)
  {
    forall k | k in a ensures OwnPod(cr, a, k) <==> OwnPod(cr, b, k) {
    }
    forall n ensures Used(cr, a, n) <==> Used(cr, b, n) {
      if k :| k in a && OwnPod(cr, a, k) && (n == "" || (a[k].body.PodBody? && Some(n) in a[k].body.claims)) {
        assert OwnPod(cr, b, k);
      }
      if k :| k in b && OwnPod(cr, b, k) && (n == "" || (b[k].body.PodBody? && Some(n) in b[k].body.claims)) {
        assert OwnPod(cr, a, k);
      }
    }
    forall k | k in a ensures IsOrphanCandidate(cr, a, k) <==> IsOrphanCandidate(cr, b, k) {
    }
  }

  lemma HealthyAsListed(cr: Cr, objs: map<Key, Obj>, pods: seq<Key>)
    requires Enumerates(pods, objs, Pod, cr.ns, DruidLabels(cr.name))
    ensures AllHealthy(objs, pods) <==> PodsHealthy(cr, objs)
  {
    forall k | k in pods ensures k in objs && OwnPod(cr, objs, k) {
      assert Matches(objs, k, Pod, cr.ns, DruidLabels(cr.name));
    }
  }

  lemma UsedAsListed(cr: Cr, objs: map<Key, Obj>, pods: seq<Key>, n: string)
    requires Enumerates(pods, objs, Pod, cr.ns, DruidLabels(cr.name))
    ensures Mounts(objs, pods, n) || (n == "" && pods != []) <==> Used(cr, objs, n)
  {
    forall k | k in pods ensures k in objs && OwnPod(cr, objs, k) {
      assert Matches(objs, k, Pod, cr.ns, DruidLabels(cr.name));
    }
    if k :| k in objs && OwnPod(cr, objs, k) && (n == "" || (objs[k].body.PodBody? && Some(n) in objs[k].body.claims)) {
      assert Matches(objs, k, Pod, cr.ns, DruidLabels(cr.name));
      assert k in pods;
    }
    if n == "" && pods != [] {
      assert pods[0] in pods;
    }
  }

  /** The collector has nothing to do: it is off, a list fails, a listed pod is not healthy, or no listed claim is an
      orphan. */
  predicate CollectorQuiet(env: Env, cr: Cr, w: World) {
    !cr.spec.deleteOrphanPvc ||
    var (w1, pods) := List(env, w, Pod, cr.ns, DruidLabels(cr.name));
    var pvcs := List(env, w1, PersistentVolumeClaim, cr.ns, map["druid_cr" := cr.name]).1;
    pods.None? || pvcs.None? || !AllHealthy(w1.objs, pods.value) || Orphans(w1.objs, pods.value, pvcs.value) == []
  }

  lemma DeletingIsNotIdle(env: Env, w: World, w2: World, keys: seq<Key>)
    requires keys != [] && w.log <= w2.log
    ensures !Adds(w, DeleteAll(env, w2, keys).0, IsRead)
  {
    hide Delete;
    var (w3, ok) := Delete(env, w2, keys[0]);
    DeleteLog(env, w2, keys[0]);
    if ok {
      DeleteAllLog(env, w3, keys[1..]);
    }
    var end := DeleteAll(env, w2, keys).0;
    assert end.log[|w2.log|] == w3.log[|w2.log|];
    assert end.log[|w2.log|].event.Deleted?;
  }

  lemma CollectorIdleIff(env: Env, cr: Cr, w: World)
    requires Drifting(env)
    ensures Idle(w, CollectOrphans(env, cr, w)) <==> CollectorQuiet(env, cr, w)
  {
    hide List, DeleteAll, AllHealthy, MountedPvc, Unmounted, Enumerates, Drifting;
    if cr.spec.deleteOrphanPvc {
      var (w1, pods) := List(env, w, Pod, cr.ns, DruidLabels(cr.name));
      ListReads(env, w, Pod, cr.ns, DruidLabels(cr.name));
      if pods.Some? {
        var (w2, pvcs) := List(env, w1, PersistentVolumeClaim, cr.ns, map["druid_cr" := cr.name]);
        ListReads(env, w1, PersistentVolumeClaim, cr.ns, map["druid_cr" := cr.name]);
        IdleTrans(w, w1, w2);
        if pvcs.Some? && AllHealthy(w1.objs, pods.value) {
          var orphans := Orphans(w1.objs, pods.value, pvcs.value);
          if orphans == [] {
            NothingDeleted(env, w2);
          } else {
            DeletingIsNotIdle(env, w, w2, orphans);
          }
        }
      }
    }
  }

  lemma NothingDeleted(env: Env, w: World)
    ensures DeleteAll(env, w, []).0 == w
  {
  }

  /** In terms of the store: an orphan-free store leaves the collector nothing to do, and when its lists answer only an
      orphan-free one does. */
  lemma CollectorQuietIffOrphanFree(env: Env, cr: Cr, w: World)
    requires Drifting(env)
    ensures OrphanFree(cr, w.objs) ==> CollectorQuiet(env, cr, w)
    ensures var (w1, pods) := List(env, w, Pod, cr.ns, DruidLabels(cr.name));
            var pvcs := List(env, w1, PersistentVolumeClaim, cr.ns, map["druid_cr" := cr.name]).1;
            pods.Some? && pvcs.Some? && CollectorQuiet(env, cr, w) ==> OrphanFree(cr, w.objs)
  {
    hide List, AllHealthy, PodsHealthy, Used, Enumerates, Drifting, Orphans, IsOrphanCandidate;
    if cr.spec.deleteOrphanPvc {
      var (w1, pods) := List(env, w, Pod, cr.ns, DruidLabels(cr.name));
      ListReads(env, w, Pod, cr.ns, DruidLabels(cr.name));
      var (w2, pvcs) := List(env, w1, PersistentVolumeClaim, cr.ns, map["druid_cr" := cr.name]);
      ListReads(env, w1, PersistentVolumeClaim, cr.ns, map["druid_cr" := cr.name]);
      if pods.Some? && pvcs.Some? {
        OrphanFreeDrift(cr, w.objs, w1.objs);
        HealthyAsListed(cr, w1.objs, pods.value);
        OrphansEmptyIff(cr, w, w1, w2, pods.value, pvcs.value);
      }
    }
  }

  lemma OrphansEmptyIff(cr: Cr, w: World, w1: World, w2: World, pods: seq<Key>, pvcs: seq<Key>)
    requires SameObjs(w.objs, w1.objs) && SameObjs(w1.objs, w2.objs)
    requires Enumerates(pods, w1.objs, Pod, cr.ns, DruidLabels(cr.name))
    requires Enumerates(pvcs, w2.objs, PersistentVolumeClaim, cr.ns, map["druid_cr" := cr.name])
    ensures Orphans(w1.objs, pods, pvcs) == [] <==>
              forall k :: k in w.objs && IsOrphanCandidate(cr, w.objs, k) ==> Used(cr, w.objs, k.name)
  {
    hide Mounts, Used, IsOrphanCandidate, Enumerates;
    var orphans := Orphans(w1.objs, pods, pvcs);
    forall k | k in w.objs
      ensures k in orphans <==> IsOrphanCandidate(cr, w.objs, k) && !Used(cr, w.objs, k.name)
    {
      OrphansExact(w1.objs, pods, pvcs, k);
      UsedAsListed(cr, w1.objs, pods, k.name);
      OrphanFreeDrift(cr, w.objs, w1.objs);
      ListedClaim(cr, w, w2, pvcs, k);
    }
    if orphans != [] {
      assert orphans[0] in orphans;
      OrphansExact(w1.objs, pods, pvcs, orphans[0]);
      ListedStored(w2.objs, pvcs, PersistentVolumeClaim, cr.ns, map["druid_cr" := cr.name], orphans[0]);
    }
  }

  lemma ListedStored(objs: map<Key, Obj>, items: seq<Key>, kind: Kind, ns: string, sel: Labels, k: Key)
    requires Enumerates(items, objs, kind, ns, sel) && k in items
    ensures k in objs
  {
    assert Matches(objs, k, kind, ns, sel);
  }

  // ---------- settled stores ----------

  lemma PruneAndReportIdle(env: Env, h: Hasher, cr: Cr, plan: Plan, p: Pass)
    requires Drifting(env) && p.flow.Going? && p.names == DesiredKeys(plan) && Settled(h, cr, plan, p.w.objs)
    ensures var w1 := CollectOrphans(env, cr, p.w); Idle(p.w, w1) ==> Idle(p.w, Tail(env, cr, p).w)
    ensures CollectOrphans(env, cr, p.w).log <= Tail(env, cr, p).w.log
  {
    hide CollectOrphans, PruneKinds, ReportStatus, Drifting, AllFresh, Doomed;
    var w1 := CollectOrphans(env, cr, p.w);
    var (w2, s) := PruneKinds(env, cr, p.names, w1, PRUNED);
    PruneKindsLog(env, cr, p.names, w1, PRUNED);
    ReportReads(env, cr, w2, s);
    if Idle(p.w, w1) {
      DoomedDrift(p.w.objs, w1.objs, cr, p.names);
      PruneKindsIdle(env, cr, p.names, w1, PRUNED);
      IdleTrans(p.w, w1, w2);
      IdleTrans(p.w, w2, Tail(env, cr, p).w);
    }
  }

  lemma SettledDrift(h: Hasher, cr: Cr, plan: Plan, a: map<Key, Obj>, b: map<Key, Obj>)
    requires SameObjs(a, b) && Settled(h, cr, plan, a)
    ensures Settled(h, cr, plan, b)
  {
    DoomedDrift(a, b, cr, DesiredKeys(plan));
  }

  /** On a settled store a pass writes no object at all, whatever the order it plans in and whichever calls fail,
      exactly when it does not reach its tail or its orphan collector has nothing to do; the store then stays
      settled. */
  lemma SettledPassIdleIff(env: Env, h: Hasher, cr: Cr, plan: Plan, w: World)
    requires Drifting(env) && (!cr.deleting || cr.spec.disablePvcFinalizer)
    requires Settled(h, cr, plan, w.objs)
    ensures var q := Deploy(env, h, cr, Some(plan), w);
            && (Idle(w, q.w) <==> !q.flow.Completed? || CollectorQuiet(env, cr, NodeLoop(env, h, cr, plan, w).w))
            && (Idle(w, q.w) ==> Settled(h, cr, plan, q.w.objs))
  {
    hide NodeLoop, CollectorQuiet, CollectOrphans, Tail, Settled, Drifting, Framed;
    var q := Deploy(env, h, cr, Some(plan), w);
    if !cr.spec.ignored && cr.spec.valid {
      var p := NodeLoop(env, h, cr, plan, w);
      SettledFresh(h, cr, plan, w.objs);
      NodeLoopIdle(env, h, cr, plan, w);
      NodeLoopFrame(env, h, cr, plan, w);
      CompletedIffLoopDone(env, h, cr, plan, w);
      if p.flow.Going? {
        SettledDrift(h, cr, plan, w.objs, p.w.objs);
        PruneAndReportIdle(env, h, cr, plan, p);
        CollectorIdleIff(env, cr, p.w);
        TailIdleIff(env, cr, w, p);
      } else {
        TailStops(env, cr, p);
      }
    } else {
      assert Idle(w, w);
    }
    if Idle(w, q.w) {
      SettledDrift(h, cr, plan, w.objs, q.w.objs);
    }
  }

  lemma SettledFresh(h: Hasher, cr: Cr, plan: Plan, objs: map<Key, Obj>)
    requires Settled(h, cr, plan, objs)
    ensures AllFresh(h, objs, Desired(plan))
  {
  }

  lemma TailStops(env: Env, cr: Cr, p: Pass)
    requires !p.flow.Going?
    ensures Tail(env, cr, p) == p
  {
  }

  lemma TailIdleIff(env: Env, cr: Cr, w: World, p: Pass)
    requires Drifting(env) && Idle(w, p.w)
    requires var w1 := CollectOrphans(env, cr, p.w);
             (Idle(p.w, w1) ==> Idle(p.w, Tail(env, cr, p).w)) && w1.log <= Tail(env, cr, p).w.log
    ensures Idle(w, Tail(env, cr, p).w) <==> Idle(p.w, CollectOrphans(env, cr, p.w))
  {
    hide CollectOrphans, Tail;
    var w1 := CollectOrphans(env, cr, p.w);
    var end := Tail(env, cr, p).w;
    CollectLog(env, cr, p.w);
    if Idle(p.w, w1) {
      IdleTrans(w, p.w, end);
    }
    if Idle(w, end) {
      AddsSplit(w, p.w, end, IsRead);
      AddsSplit(p.w, w1, end, IsRead);
      CollectorReadOnly(env, cr, p.w);
    }
  }

  /** A collector that logged no write changed nothing. */
  lemma CollectorReadOnly(env: Env, cr: Cr, w: World)
    requires Drifting(env) && Adds(w, CollectOrphans(env, cr, w), IsRead)
    ensures Idle(w, CollectOrphans(env, cr, w))
  {
    hide List, DeleteAll, AllHealthy, MountedPvc, Unmounted, Enumerates, Drifting;
    if cr.spec.deleteOrphanPvc {
      var (w1, pods) := List(env, w, Pod, cr.ns, DruidLabels(cr.name));
      ListReads(env, w, Pod, cr.ns, DruidLabels(cr.name));
      if pods.Some? {
        var (w2, pvcs) := List(env, w1, PersistentVolumeClaim, cr.ns, map["druid_cr" := cr.name]);
        ListReads(env, w1, PersistentVolumeClaim, cr.ns, map["druid_cr" := cr.name]);
        IdleTrans(w, w1, w2);
        if pvcs.Some? && AllHealthy(w1.objs, pods.value) {
          var orphans := Orphans(w1.objs, pods.value, pvcs.value);
          if orphans == [] {
            NothingDeleted(env, w2);
          } else {
            DeletingIsNotIdle(env, w, w2, orphans);
          }
        }
      }
    }
  }

  /** On a settled and orphan-free store a pass writes no object at all, whatever the order it plans in and whichever
      calls fail, and leaves the store settled and orphan-free. */
  lemma SettledPassIsIdle(env: Env, h: Hasher, cr: Cr, plan: Plan, w: World)
    requires Drifting(env) && (!cr.deleting || cr.spec.disablePvcFinalizer)
    requires Settled(h, cr, plan, w.objs) && OrphanFree(cr, w.objs)
    ensures var q := Deploy(env, h, cr, Some(plan), w);
            Idle(w, q.w) && Settled(h, cr, plan, q.w.objs) && OrphanFree(cr, q.w.objs)
  {
    hide Deploy, NodeLoop, CollectorQuiet, Settled, OrphanFree, Drifting;
    var q := Deploy(env, h, cr, Some(plan), w);
    var p := NodeLoop(env, h, cr, plan, w);
    SettledFresh(h, cr, plan, w.objs);
    NodeLoopIdle(env, h, cr, plan, w);
    OrphanFreeDrift(cr, w.objs, p.w.objs);
    CollectorQuietIffOrphanFree(env, cr, p.w);
    SettledPassIdleIff(env, h, cr, plan, w);
    OrphanFreeDrift(cr, w.objs, q.w.objs);
  }

  /** A completed pass whose lists and deletes succeeded settles the store exactly when the desired objects do not
      contradict each other and the orphan collector took no desired claim. */
  lemma SettlesIffConflictFree(env: Env, h: Hasher, cr: Cr, plan: Plan, w: World)
    requires Drifting(env) && (!cr.deleting || cr.spec.disablePvcFinalizer)
    requires var q := Deploy(env, h, cr, Some(plan), w); q.flow.Completed? && Adds(w, q.w, PruneOk)
    ensures var q := Deploy(env, h, cr, Some(plan), w).w.objs;
            Settled(h, cr, plan, q) <==> ConflictFree(h, Desired(plan)) && ClaimsStored(plan, q)
  {
    var q := Deploy(env, h, cr, Some(plan), w);
    if ConflictFree(h, Desired(plan)) && ClaimsStored(plan, q.w.objs) {
      forall c | c in Desired(plan) ensures Fresh(h, q.w.objs, c) {
        PassEstablishes(env, h, cr, plan, w, c);
      }
      forall k | k in Doomed(q.w.objs, cr, DesiredKeys(plan), PRUNED) ensures false {
        PruneLeavesOnlyDesired(env, h, cr, plan, w, k);
      }
    }
  }

  ghost predicate ClaimsStored(plan: Plan, objs: map<Key, Obj>) {
    forall c :: c in Desired(plan) && c.key.kind.PersistentVolumeClaim? ==> c.key in objs
  }

  lemma NodeLoopQuietWasFresh(env: Env, h: Hasher, cr: Cr, plan: Plan, w: World)
    requires Drifting(env) && (!cr.deleting || cr.spec.disablePvcFinalizer)
    requires NodeLoop(env, h, cr, plan, w).flow.Going? && Adds(w, NodeLoop(env, h, cr, plan, w).w, NotUpsert)
    ensures AllFresh(h, w.objs, Desired(plan))
  {
    hide Steps, Drifting, Framed, FetchCr, UpdateCr;
    var p0 := Pass(w, {}, Going);
    var p1 := Step(env, h, false, false, p0, Ensure(plan.common));
    var p2 := FinalizerBlock(env, cr, p1);
    var p := NodeLoop(env, h, cr, plan, w);
    StepsNames(env, h, cr.spec.rollingDeploy, cr.generation > 1, p2, plan.actions);
    StepsFrame(env, h, cr.spec.rollingDeploy, cr.generation > 1, p2, plan.actions);
    FinalizerBlockReads(env, cr, p1);
    AddsTrans(p1.w, p2.w, p.w, NotDelete);
    FirstStepQuiet(env, h, false, false, p0, Ensure(plan.common), p.w);
    AddsSplit(p1.w, p2.w, p.w, NotUpsert);
    StepsQuietWasFresh(env, h, cr.spec.rollingDeploy, cr.generation > 1, p2, plan.actions);
  }

  /** The upserts of a completing pass are idle exactly when everything desired was already stored as desired. */
  lemma QuietIffAllFresh(env: Env, h: Hasher, cr: Cr, plan: Plan, w: World)
    requires Drifting(env) && (!cr.deleting || cr.spec.disablePvcFinalizer)
    requires Deploy(env, h, cr, Some(plan), w).flow.Completed?
    ensures Adds(w, Deploy(env, h, cr, Some(plan), w).w, NotUpsert) <==> AllFresh(h, w.objs, Desired(plan))
  {
    var p := NodeLoop(env, h, cr, plan, w);
    var q := Deploy(env, h, cr, Some(plan), w);
    CompletedIffLoopDone(env, h, cr, plan, w);
    NodeLoopFrame(env, h, cr, plan, w);
    TailLog(env, cr, p);
    if AllFresh(h, w.objs, Desired(plan)) {
      NodeLoopIdle(env, h, cr, plan, w);
      AddsTrans(w, p.w, q.w, NotUpsert);
    }
    if Adds(w, q.w, NotUpsert) {
      AddsSplit(w, p.w, q.w, NotUpsert);
      NodeLoopQuietWasFresh(env, h, cr, plan, w);
    }
  }

  /** After a completed pass, a second completing pass over the same desired objects upserts nothing exactly when the
      desired objects do not contradict each other (an object produced twice with different content is rewritten for
      ever) and the first pass's orphan collector took no desired claim. */
  lemma SecondPassQuietIffConflictFree(env: Env, h: Hasher, cr: Cr, plan: Plan, w: World, cr2: Cr, plan2: Plan)
    requires Drifting(env) && (!cr.deleting || cr.spec.disablePvcFinalizer)
    requires (!cr2.deleting || cr2.spec.disablePvcFinalizer)
    requires Desired(plan2) == Desired(plan)
    requires Deploy(env, h, cr, Some(plan), w).flow.Completed?
    requires Deploy(env, h, cr2, Some(plan2), Deploy(env, h, cr, Some(plan), w).w).flow.Completed?
    ensures var w1 := Deploy(env, h, cr, Some(plan), w).w;
            Adds(w1, Deploy(env, h, cr2, Some(plan2), w1).w, NotUpsert)
            <==> ConflictFree(h, Desired(plan)) && ClaimsStored(plan, w1.objs)
  {
    hide Deploy, Adds, Drifting;
    var w1 := Deploy(env, h, cr, Some(plan), w).w;
    QuietIffAllFresh(env, h, cr2, plan2, w1);
    if ConflictFree(h, Desired(plan)) && ClaimsStored(plan, w1.objs) {
      forall c | c in Desired(plan) ensures Fresh(h, w1.objs, c) {
        PassEstablishes(env, h, cr, plan, w, c);
      }
    }
  }

  /** Objects that contradict each other are never quiet: every completing pass writes. */
  lemma ConflictNeverQuiet(env: Env, h: Hasher, cr: Cr, plan: Plan, w: World)
    requires Drifting(env) && (!cr.deleting || cr.spec.disablePvcFinalizer)
    requires !ConflictFree(h, Desired(plan)) && Deploy(env, h, cr, Some(plan), w).flow.Completed?
    ensures !Adds(w, Deploy(env, h, cr, Some(plan), w).w, NotUpsert)
  {
    hide Deploy, Adds, Drifting;
    QuietIffAllFresh(env, h, cr, plan, w);
  }

  /** One pass of a run: the resource as read, and the plan made from it in some iteration order. */
  datatype Round = Round(cr: Cr, plan: Plan)

  lemma SameDesiredKeys(a: Plan, b: Plan)
    requires Desired(a) == Desired(b)
    ensures DesiredKeys(a) == DesiredKeys(b)
  {
    KeysOfDesired(a);
    KeysOfDesired(b);
  }

  lemma KeysOfDesired(a: Plan)
    ensures DesiredKeys(a) == set c | c in Desired(a) :: c.key
  {
    forall k | k in DesiredKeys(a) ensures k in (set c | c in Desired(a) :: c.key) {
      if k != a.common.key {
        var x :| x in a.actions && x.content.key == k;
        assert x.content in Desired(a);
      }
    }
  }
}
