/** Pruning: what a pass deletes, exactly. */
module Prune {
  import opened Cluster
  import opened ApiServer
  import opened Reconcile
  import opened Frames
  import opened Upserts
  import opened Strings

  // ---------- a pass that is left early deletes nothing ----------

  lemma CheckReads(env: Env, w: World, k: Key)
    ensures Adds(w, CheckDeployed(env, w, k).0, IsRead)
  {
    ArriveLog(env, w);
  }

  lemma {:induction false} StepsNeverDelete(env: Env, h: Hasher, gating: bool, checking: bool, p: Pass,
                                            actions: seq<Action>)
    ensures Adds(p.w, Steps(env, h, gating, checking, p, actions).w, NotDelete)
    decreases |actions|
  {
    hide Upsert, CheckDeployed;
    if actions != [] {
      var p1 := Step(env, h, gating, checking, p, actions[0]);
      if p.flow.Going? {
        var w1 := Upsert(env, h, p.w, actions[0].content).0;
        UpsertLog(env, h, p.w, actions[0].content);
        CheckReads(env, w1, actions[0].content.key);
        assert Adds(w1, p1.w, NotDelete);
        AddsTrans(p.w, w1, p1.w, NotDelete);
      }
      StepsNeverDelete(env, h, gating, checking, p1, actions[1..]);
      AddsTrans(p.w, p1.w, Steps(env, h, gating, checking, p, actions).w, NotDelete);
    }
  }

  /** Under any interference and any failures: a pass on a resource that is not being finalized and that does not
      come to its end deletes nothing. */
  lemma EarlyReturnDeletesNothing(env: Env, h: Hasher, cr: Cr, plan: Option<Plan>, w: World)
    requires !cr.deleting || cr.spec.disablePvcFinalizer
    requires !Deploy(env, h, cr, plan, w).flow.Completed?
    ensures Adds(w, Deploy(env, h, cr, plan, w).w, NotDelete)
  {
    if !(cr.spec.ignored || !cr.spec.valid || plan.None?) {
      NodeLoopNeverDeletes(env, h, cr, plan.value, w);
    }
  }

  lemma NodeLoopNeverDeletes(env: Env, h: Hasher, cr: Cr, plan: Plan, w: World)
    requires !cr.deleting || cr.spec.disablePvcFinalizer
    ensures Adds(w, NodeLoop(env, h, cr, plan, w).w, NotDelete)
  {
    var p0 := Pass(w, {}, Going);
    StepsNeverDelete(env, h, false, false, p0, [Ensure(plan.common)]);
    var p1 := Step(env, h, false, false, p0, Ensure(plan.common));
    assert p1 == Steps(env, h, false, false, p0, [Ensure(plan.common)]);
    var p2 := FinalizerBlock(env, cr, p1);
    assert Adds(p1.w, p2.w, NotDelete) by {
      ArriveLog(env, p1.w);
      ArriveLog(env, FetchCr(env, p1.w).0);
    }
    StepsNeverDelete(env, h, cr.spec.rollingDeploy, cr.generation > 1, p2, plan.actions);
    AddsTrans(w, p1.w, p2.w, NotDelete);
    AddsTrans(w, p2.w, NodeLoop(env, h, cr, plan, w).w, NotDelete);
  }

  // ---------- nothing after the node loop, nor the finalizer code, creates or updates an object ----------

  lemma ListLog(env: Env, w: World, kind: Kind, ns: string, sel: Labels)
    ensures Adds(w, List(env, w, kind, ns, sel).0, IsRead)
  {
    ArriveLog(env, w);
  }

  lemma DeleteLog(env: Env, w: World, key: Key)
    ensures var (w1, ok) := Delete(env, w, key);
            w.log <= w1.log && |w1.log| == |w.log| + 1 && w1.log[|w.log|].event == Deleted(key, ok)
  {
    ArriveLog(env, w);
  }

  lemma {:induction false} DeleteAllLog(env: Env, w: World, keys: seq<Key>)
    ensures Adds(w, DeleteAll(env, w, keys).0, NotUpsert)
    decreases |keys|
  {
    if keys != [] {
      var (w1, ok) := Delete(env, w, keys[0]);
      DeleteLog(env, w, keys[0]);
      if ok {
        DeleteAllLog(env, w1, keys[1..]);
        AddsTrans(w, w1, DeleteAll(env, w, keys).0, NotUpsert);
      }
    }
  }

  lemma {:induction false} PruneItemsLog(env: Env, names: set<Key>, w: World, items: seq<Key>)
    ensures Adds(w, PruneItems(env, names, w, items).0, NotUpsert)
    decreases |items|
  {
    if items != [] {
      if items[0] in names {
        PruneItemsLog(env, names, w, items[1..]);
      } else {
        var w1 := Delete(env, w, items[0]).0;
        DeleteLog(env, w, items[0]);
        PruneItemsLog(env, names, w1, items[1..]);
        AddsTrans(w, w1, PruneItems(env, names, w, items).0, NotUpsert);
      }
    }
  }

  lemma {:induction false} PruneKindsLog(env: Env, cr: Cr, names: set<Key>, w: World, kinds: seq<Kind>)
    ensures Adds(w, PruneKinds(env, cr, names, w, kinds).0, NotUpsert)
    decreases |kinds|
  {
    if kinds != [] {
      var w1 := PruneKind(env, cr, names, w, kinds[0]).0;
      PruneKindLog(env, cr, names, w, kinds[0]);
      PruneKindsLog(env, cr, names, w1, kinds[1..]);
      AddsTrans(w, w1, PruneKinds(env, cr, names, w, kinds).0, NotUpsert);
    }
  }

  lemma PruneKindLog(env: Env, cr: Cr, names: set<Key>, w: World, kind: Kind)
    ensures Adds(w, PruneKind(env, cr, names, w, kind).0, NotUpsert)
  {
    ListLog(env, w, kind, cr.ns, DruidLabels(cr.name));
    var (w1, items) := List(env, w, kind, cr.ns, DruidLabels(cr.name));
    if items.Some? {
      PruneItemsLog(env, names, w1, items.value);
      AddsTrans(w, w1, PruneItems(env, names, w1, items.value).0, NotUpsert);
    }
  }

  lemma CollectLog(env: Env, cr: Cr, w: World)
    ensures Adds(w, CollectOrphans(env, cr, w), NotUpsert)
  {
    if cr.spec.deleteOrphanPvc {
      var (w1, pods) := List(env, w, Pod, cr.ns, DruidLabels(cr.name));
      ListLog(env, w, Pod, cr.ns, DruidLabels(cr.name));
      if pods.Some? {
        var (w2, pvcs) := List(env, w1, PersistentVolumeClaim, cr.ns, map["druid_cr" := cr.name]);
        ListLog(env, w1, PersistentVolumeClaim, cr.ns, map["druid_cr" := cr.name]);
        AddsTrans(w, w1, w2, NotUpsert);
        if pvcs.Some? {
          DeleteAllLog(env, w2, Unmounted(pvcs.value, MountedPvc(w1.objs, pods.value)));
          AddsTrans(w, w2, DeleteAll(env, w2, Unmounted(pvcs.value, MountedPvc(w1.objs, pods.value))).0, NotUpsert);
        }
      }
    }
  }

  lemma ReportLog(env: Env, cr: Cr, w: World, survivors: seq<seq<string>>)
    requires |survivors| == 7
    ensures Adds(w, ReportStatus(env, cr, w, survivors), IsRead)
  {
    ListLog(env, w, Pod, cr.ns, DruidLabels(cr.name));
    ArriveLog(env, List(env, w, Pod, cr.ns, DruidLabels(cr.name)).0);
  }

  lemma TailLog(env: Env, cr: Cr, p: Pass)
    ensures Adds(p.w, Tail(env, cr, p).w, NotUpsert)
  {
    if p.flow.Going? {
      var w1 := CollectOrphans(env, cr, p.w);
      var (w2, s) := PruneKinds(env, cr, p.names, w1, PRUNED);
      CollectLog(env, cr, p.w);
      PruneKindsLog(env, cr, p.names, w1, PRUNED);
      ReportLog(env, cr, w2, s);
      AddsTrans(p.w, w1, w2, NotUpsert);
      AddsTrans(p.w, w2, Tail(env, cr, p).w, NotUpsert);
    }
  }

  lemma FinalizerBlockLog(env: Env, cr: Cr, p: Pass)
    ensures Adds(p.w, FinalizerBlock(env, cr, p).w, NotUpsert)
  {
    if p.flow.Going? && !cr.spec.disablePvcFinalizer {
      if cr.deleting {
        ExecuteFinalizersLog(env, cr, p.w);
      } else {
        ArriveLog(env, p.w);
        ArriveLog(env, FetchCr(env, p.w).0);
      }
    }
  }

  lemma ExecuteFinalizersLog(env: Env, cr: Cr, w: World)
    ensures Adds(w, ExecuteFinalizers(env, cr, w).0, NotUpsert)
  {
    hide List, DeleteAll, Without, ApplyAll;
    if FINALIZER_NAME in cr.finalizers {
      var (w1, pvcs) := List(env, w, PersistentVolumeClaim, cr.ns, map["druid_cr" := cr.name]);
      ListLog(env, w, PersistentVolumeClaim, cr.ns, map["druid_cr" := cr.name]);
      var (w2, sets) := List(env, w1, StatefulSet, cr.ns, DruidLabels(cr.name));
      ListLog(env, w1, StatefulSet, cr.ns, DruidLabels(cr.name));
      AddsTrans(w, w1, w2, NotUpsert);
      if pvcs.Some? && sets.Some? {
        var w3 := DeleteAll(env, w2, sets.value + pvcs.value).0;
        DeleteAllLog(env, w2, sets.value + pvcs.value);
        AddsTrans(w, w2, w3, NotUpsert);
        ArriveLog(env, w3);
        var w4 := UpdateCr(env, w3, cr, Without(cr.finalizers, FINALIZER_NAME)).0;
        assert Adds(w3, w4, NotUpsert);
        AddsTrans(w, w3, w4, NotUpsert);
      }
    }
  }

  // ---------- deletions under drift ----------

  /** `b` is `a` without some of the `doomed` objects, the rest the same up to drift. */
  ghost predicate Reduced(a: map<Key, Obj>, b: map<Key, Obj>, doomed: set<Key>) {
    && a.Keys - doomed <= b.Keys <= a.Keys
    && forall k :: k in b.Keys ==> SameObj(a[k], b[k])
  }

  predicate PruneOk(e: Event) {
    (e.Deleted? ==> e.ok) && (e.Listed? ==> e.ok || e.kind.Pod?)
  }

  lemma DeleteReduces(env: Env, w: World, key: Key)
    requires Drifting(env)
    ensures var (w1, ok) := Delete(env, w, key); Reduced(w.objs, w1.objs, {key}) && (ok ==> key !in w1.objs)
  {
    ArriveDrifts(env, w);
  }

  lemma ListReads(env: Env, w: World, kind: Kind, ns: string, sel: Labels)
    requires Drifting(env)
    ensures var (w1, items) := List(env, w, kind, ns, sel);
            && Idle(w, w1)
            && (items.Some? ==> Enumerates(items.value, w1.objs, kind, ns, sel))
            && (Adds(w, w1, PruneOk) && !kind.Pod? ==> items.Some?)
  {
    ArriveDrifts(env, w);
    var w1 := List(env, w, kind, ns, sel).0;
    assert w1.log[|w.log|].event.Listed?;
  }

  lemma {:induction false} DeleteAllReduces(env: Env, w: World, keys: seq<Key>)
    requires Drifting(env)
    ensures var (w1, ok) := DeleteAll(env, w, keys);
            && Reduced(w.objs, w1.objs, set k | k in keys)
            && (ok ==> forall k :: k in keys ==> k !in w1.objs)
    decreases |keys|
  {
    if keys != [] {
      var (w1, ok) := Delete(env, w, keys[0]);
      DeleteReduces(env, w, keys[0]);
      assert keys == [keys[0]] + keys[1..];
      if ok {
        DeleteAllReduces(env, w1, keys[1..]);
      }
    }
  }

  lemma {:induction false} PruneItemsReduces(env: Env, names: set<Key>, w: World, items: seq<Key>)
    requires Drifting(env)
    ensures var (w1, survivors) := PruneItems(env, names, w, items);
            && Reduced(w.objs, w1.objs, (set k | k in items) - names)
            && (Adds(w, w1, PruneOk) ==>
                  && (forall k :: k in items && k !in names ==> k !in w1.objs)
                  && (forall n :: n in survivors <==> exists k :: k in items && k in names && k.name == n))
    decreases |items|
  {
    if items != [] {
      assert items == [items[0]] + items[1..];
      var w2 := PruneItems(env, names, w, items).0;
      if items[0] in names {
        PruneItemsReduces(env, names, w, items[1..]);
      } else {
        var w1 := Delete(env, w, items[0]).0;
        DeleteLog(env, w, items[0]);
        DeleteReduces(env, w, items[0]);
        PruneItemsLog(env, names, w1, items[1..]);
        PruneItemsReduces(env, names, w1, items[1..]);
        if Adds(w, w2, PruneOk) {
          AddsSplit(w, w1, w2, PruneOk);
          assert w1.log[|w.log|] == w2.log[|w.log|];
        }
      }
    }
  }

  /** The objects a complete prune removes. */
  ghost function Doomed(objs: map<Key, Obj>, cr: Cr, names: set<Key>, kinds: seq<Kind>): set<Key> {
    set k | k in objs && k.kind in kinds && Matches(objs, k, k.kind, cr.ns, DruidLabels(cr.name)) && k !in names
  }

  lemma ListedDoomed(a: map<Key, Obj>, b: map<Key, Obj>, cr: Cr, names: set<Key>, kind: Kind, items: seq<Key>)
    requires SameObjs(a, b) && Enumerates(items, b, kind, cr.ns, DruidLabels(cr.name))
    ensures (set k | k in items) - names == Doomed(a, cr, names, [kind])
  {
    forall k ensures k in items && k !in names <==> k in Doomed(a, cr, names, [kind]) {
      assert Matches(b, k, kind, cr.ns, DruidLabels(cr.name)) <==> Matches(a, k, kind, cr.ns, DruidLabels(cr.name));
    }
  }

  lemma PruneKindReduces(env: Env, cr: Cr, names: set<Key>, w: World, kind: Kind)
    requires Drifting(env) && !kind.Pod?
    ensures var w1 := PruneKind(env, cr, names, w, kind).0;
            && Reduced(w.objs, w1.objs, Doomed(w.objs, cr, names, [kind]))
            && (Adds(w, w1, PruneOk) ==> w1.objs.Keys == w.objs.Keys - Doomed(w.objs, cr, names, [kind]))
  {
    hide PruneItems, List, Enumerates, Matches, Drifting, Doomed;
    ListReads(env, w, kind, cr.ns, DruidLabels(cr.name));
    var (w1, items) := List(env, w, kind, cr.ns, DruidLabels(cr.name));
    if items.Some? {
      PruneItemsReduces(env, names, w1, items.value);
      PruneItemsLog(env, names, w1, items.value);
      ListedDoomed(w.objs, w1.objs, cr, names, kind, items.value);
      if Adds(w, PruneKind(env, cr, names, w, kind).0, PruneOk) {
        AddsSplit(w, w1, PruneKind(env, cr, names, w, kind).0, PruneOk);
      }
    }
  }

  lemma DoomedAfter(a: map<Key, Obj>, b: map<Key, Obj>, cr: Cr, names: set<Key>, kind: Kind, kinds: seq<Kind>)
    requires Reduced(a, b, Doomed(a, cr, names, [kind])) && kind !in kinds
    ensures Doomed(b, cr, names, kinds) == Doomed(a, cr, names, kinds)
    ensures Doomed(a, cr, names, [kind] + kinds) == Doomed(a, cr, names, [kind]) + Doomed(a, cr, names, kinds)
  {
    forall k | k in a && k.kind in kinds
      ensures k in b
      ensures (Matches(a, k, k.kind, cr.ns, DruidLabels(cr.name))
            <==> Matches(b, k, k.kind, cr.ns, DruidLabels(cr.name)))
    {
      assert k !in Doomed(a, cr, names, [kind]);
    }
  }

  predicate Distinct(kinds: seq<Kind>) {
    forall i, j :: 0 <= i < j < |kinds| ==> kinds[i] != kinds[j]
  }

  lemma {:induction false} PruneKindsReduces(env: Env, cr: Cr, names: set<Key>, w: World, kinds: seq<Kind>)
    requires Drifting(env) && Distinct(kinds) && Pod !in kinds
    ensures var w1 := PruneKinds(env, cr, names, w, kinds).0;
            && Reduced(w.objs, w1.objs, Doomed(w.objs, cr, names, kinds))
            && (Adds(w, w1, PruneOk) ==> w1.objs.Keys == w.objs.Keys - Doomed(w.objs, cr, names, kinds))
    decreases |kinds|
  {
    if kinds != [] {
      var w1 := PruneKind(env, cr, names, w, kinds[0]).0;
      var w2 := PruneKinds(env, cr, names, w, kinds).0;
      PruneKindReduces(env, cr, names, w, kinds[0]);
      PruneKindsReduces(env, cr, names, w1, kinds[1..]);
      DoomedAfter(w.objs, w1.objs, cr, names, kinds[0], kinds[1..]);
      assert [kinds[0]] + kinds[1..] == kinds;
      PruneKindLog(env, cr, names, w, kinds[0]);
      PruneKindsLog(env, cr, names, w1, kinds[1..]);
      if Adds(w, w2, PruneOk) {
        AddsSplit(w, w1, w2, PruneOk);
      }
    }
  }

  // ---------- the end of a pass ----------

  predicate IsOrphanCandidate(cr: Cr, objs: map<Key, Obj>, k: Key) {
    Matches(objs, k, PersistentVolumeClaim, cr.ns, map["druid_cr" := cr.name])
  }

  lemma {:induction false} UnmountedSubset(pvcs: seq<Key>, mounted: seq<string>)
    ensures forall k :: k in Unmounted(pvcs, mounted) <==> k in pvcs && k.name !in mounted
    decreases |pvcs|
  {
    if pvcs != [] {
      assert pvcs == [pvcs[0]] + pvcs[1..];
      UnmountedSubset(pvcs[1..], mounted);
    }
  }

  ghost function Claims(cr: Cr, objs: map<Key, Obj>): set<Key> {
    set k | k in objs && cr.spec.deleteOrphanPvc && IsOrphanCandidate(cr, objs, k)
  }

  lemma OrphansAreClaims(cr: Cr, a: map<Key, Obj>, b: map<Key, Obj>, pvcs: seq<Key>, mounted: seq<string>)
    requires SameObjs(a, b) && cr.spec.deleteOrphanPvc
    requires Enumerates(pvcs, b, PersistentVolumeClaim, cr.ns, map["druid_cr" := cr.name])
    ensures (set k | k in Unmounted(pvcs, mounted)) <= Claims(cr, a)
  {
    UnmountedSubset(pvcs, mounted);
    forall k | k in Unmounted(pvcs, mounted) ensures k in Claims(cr, a) {
      assert Matches(b, k, PersistentVolumeClaim, cr.ns, map["druid_cr" := cr.name]);
    }
  }

  lemma CollectReduces(env: Env, cr: Cr, w: World)
    requires Drifting(env)
    ensures Reduced(w.objs, CollectOrphans(env, cr, w).objs, Claims(cr, w.objs))
  {
    hide List, DeleteAll, Unmounted, MountedPvc, AllHealthy, Enumerates, Drifting, Claims;
    if cr.spec.deleteOrphanPvc {
      ListReads(env, w, Pod, cr.ns, DruidLabels(cr.name));
      var (w1, pods) := List(env, w, Pod, cr.ns, DruidLabels(cr.name));
      if pods.Some? {
        ListReads(env, w1, PersistentVolumeClaim, cr.ns, map["druid_cr" := cr.name]);
        var (w2, pvcs) := List(env, w1, PersistentVolumeClaim, cr.ns, map["druid_cr" := cr.name]);
        if pvcs.Some? && AllHealthy(w1.objs, pods.value) {
          var mounted := MountedPvc(w1.objs, pods.value);
          OrphansAreClaims(cr, w.objs, w2.objs, pvcs.value, mounted);
          DeleteAllReduces(env, w2, Unmounted(pvcs.value, mounted));
        }
      }
    }
  }

  lemma ReportReads(env: Env, cr: Cr, w: World, survivors: seq<seq<string>>)
    requires Drifting(env) && |survivors| == 7
    ensures Idle(w, ReportStatus(env, cr, w, survivors))
  {
    ReportLog(env, cr, w, survivors);
    ListReads(env, w, Pod, cr.ns, DruidLabels(cr.name));
    ArriveDrifts(env, List(env, w, Pod, cr.ns, DruidLabels(cr.name)).0);
  }

  lemma DoomedKept(a: map<Key, Obj>, b: map<Key, Obj>, cr: Cr, names: set<Key>)
    requires Reduced(a, b, Claims(cr, a))
    ensures Doomed(b, cr, names, PRUNED) == Doomed(a, cr, names, PRUNED)
  {
    forall k | k in a && k.kind in PRUNED
      ensures k in b
      ensures (Matches(a, k, k.kind, cr.ns, DruidLabels(cr.name))
            <==> Matches(b, k, k.kind, cr.ns, DruidLabels(cr.name)))
    {
      assert !IsOrphanCandidate(cr, a, k);
    }
  }

  /** What the code after the node loop removes: the pruned kinds' leftovers and, when asked for, claims. */
  lemma TailReduces(env: Env, cr: Cr, p: Pass)
    requires Drifting(env) && p.flow.Going?
    ensures var q := Tail(env, cr, p);
            var doomed := Doomed(p.w.objs, cr, p.names, PRUNED);
            && Reduced(p.w.objs, q.w.objs, doomed + Claims(cr, p.w.objs))
            && (Adds(p.w, q.w, PruneOk) ==> doomed !! q.w.objs.Keys)
  {
    hide CollectOrphans, PruneKinds, ReportStatus, Matches, IsOrphanCandidate;
    var w1 := CollectOrphans(env, cr, p.w);
    CollectReduces(env, cr, p.w);
    CollectLog(env, cr, p.w);
    var (w2, s) := PruneKinds(env, cr, p.names, w1, PRUNED);
    PruneKindsReduces(env, cr, p.names, w1, PRUNED);
    PruneKindsLog(env, cr, p.names, w1, PRUNED);
    DoomedKept(p.w.objs, w1.objs, cr, p.names);
    ReportReads(env, cr, w2, s);
    var w3 := ReportStatus(env, cr, w2, s);
    if Adds(p.w, w3, PruneOk) {
      AddsSplit(p.w, w1, w3, PruneOk);
      AddsSplit(w1, w2, w3, PruneOk);
    }
  }

  lemma {:induction false} StepsNotCompleted(env: Env, h: Hasher, gating: bool, checking: bool, p: Pass,
                                             actions: seq<Action>)
    requires !p.flow.Completed?
    ensures !Steps(env, h, gating, checking, p, actions).flow.Completed?
    decreases |actions|
  {
    if actions != [] {
      StepsNotCompleted(env, h, gating, checking, Step(env, h, gating, checking, p, actions[0]), actions[1..]);
    }
  }

  /** A pass completes exactly when its node loop was not left early. */
  lemma CompletedIffLoopDone(env: Env, h: Hasher, cr: Cr, plan: Plan, w: World)
    requires !cr.spec.ignored && cr.spec.valid
    ensures Deploy(env, h, cr, Some(plan), w).flow.Completed? <==> NodeLoop(env, h, cr, plan, w).flow.Going?
  {
    var p := FinalizerBlock(env, cr, Step(env, h, false, false, Pass(w, {}, Going), Ensure(plan.common)));
    StepsNotCompleted(env, h, cr.spec.rollingDeploy, cr.generation > 1, p, plan.actions);
  }

  // ---------- the node loop as a whole ----------

  lemma FetchCrReads(env: Env, w: World)
    requires Drifting(env)
    ensures Idle(w, FetchCr(env, w).0)
  {
    ArriveDrifts(env, w);
  }

  lemma UpdateCrReads(env: Env, w: World, base: Cr, fs: seq<string>)
    requires Drifting(env)
    ensures Idle(w, UpdateCr(env, w, base, fs).0)
  {
    ArriveDrifts(env, w);
  }

  /** The finalizer code of a resource that is not being finalized only reads objects. */
  lemma FinalizerBlockReads(env: Env, cr: Cr, p: Pass)
    requires Drifting(env) && (!cr.deleting || cr.spec.disablePvcFinalizer)
    ensures var q := FinalizerBlock(env, cr, p); Idle(p.w, q.w) && q.names == p.names
  {
    hide Drifting, FetchCr, UpdateCr, IsRead;
    if p.flow.Going? && !cr.spec.disablePvcFinalizer {
      var w1 := FetchCr(env, p.w).0;
      FetchCrReads(env, p.w);
      UpdateCrReads(env, w1, cr, cr.finalizers + [FINALIZER_NAME]);
      IdleTrans(p.w, w1, UpdateCr(env, w1, cr, cr.finalizers + [FINALIZER_NAME]).0);
    } else {
      assert Idle(p.w, p.w);
    }
  }

  lemma BlockGoes(env: Env, cr: Cr, p: Pass)
    ensures FinalizerBlock(env, cr, p).flow.Going? ==> p.flow.Going?
  {
  }

  function DesiredKeys(plan: Plan): set<Key> {
    Keys(plan.actions) + {plan.common.key}
  }

  lemma CommonStep(env: Env, h: Hasher, w: World, common: Content)
    requires Drifting(env)
    ensures var p1 := Step(env, h, false, false, Pass(w, {}, Going), Ensure(common));
            Framed(w.objs, p1.w.objs, {common.key}) && p1.names == {common.key}
  {
    hide Wrote, Upsert, Framed;
    StepObjs(env, h, false, false, Pass(w, {}, Going), Ensure(common));
    WroteFramed(h, w.objs, Step(env, h, false, false, Pass(w, {}, Going), Ensure(common)).w.objs, common);
  }

  lemma FramedAfterDrift(a: map<Key, Obj>, b: map<Key, Obj>, c: map<Key, Obj>, keys: set<Key>)
    requires Framed(a, b, keys) && SameObjs(b, c)
    ensures Framed(a, c, keys)
  {
  }

  lemma NodeLoopFrame(env: Env, h: Hasher, cr: Cr, plan: Plan, w: World)
    requires Drifting(env) && (!cr.deleting || cr.spec.disablePvcFinalizer)
    ensures var q := NodeLoop(env, h, cr, plan, w);
            && Framed(w.objs, q.w.objs, DesiredKeys(plan))
            && q.names <= DesiredKeys(plan)
            && (q.flow.Going? ==> q.names == DesiredKeys(plan))
            && Adds(w, q.w, NotDelete)
  {
    hide FinalizerBlock, Step, Steps, Framed, Adds, NotDelete, IsRead, Drifting, SameObjs;
    var p1 := Step(env, h, false, false, Pass(w, {}, Going), Ensure(plan.common));
    var p2 := FinalizerBlock(env, cr, p1);
    CommonStep(env, h, w, plan.common);
    FinalizerBlockReads(env, cr, p1);
    FramedAfterDrift(w.objs, p1.w.objs, p2.w.objs, {plan.common.key});
    StepsFrame(env, h, cr.spec.rollingDeploy, cr.generation > 1, p2, plan.actions);
    StepsNames(env, h, cr.spec.rollingDeploy, cr.generation > 1, p2, plan.actions);
    NodeLoopNeverDeletes(env, h, cr, plan, w);
    FramedTrans(w.objs, p2.w.objs, NodeLoop(env, h, cr, plan, w).w.objs, {plan.common.key}, Keys(plan.actions));
    assert {plan.common.key} + Keys(plan.actions) == DesiredKeys(plan);
  }

  /** A node loop that was not left early leaves every desired object as desired. */
  lemma NodeLoopEstablishes(env: Env, h: Hasher, cr: Cr, plan: Plan, w: World)
    requires Drifting(env) && (!cr.deleting || cr.spec.disablePvcFinalizer)
    requires ConflictFree(h, Desired(plan))
    requires NodeLoop(env, h, cr, plan, w).flow.Going?
    ensures AllFresh(h, NodeLoop(env, h, cr, plan, w).w.objs, Desired(plan))
  {
    var p0 := Pass(w, {}, Going);
    var p1 := Step(env, h, false, false, p0, Ensure(plan.common));
    var p2 := FinalizerBlock(env, cr, p1);
    StepsNames(env, h, cr.spec.rollingDeploy, cr.generation > 1, p2, plan.actions);
    StepObjs(env, h, false, false, p0, Ensure(plan.common));
    FinalizerBlockReads(env, cr, p1);
    assert ConflictFree(h, Contents(plan.actions));
    StepsEstablish(env, h, cr.spec.rollingDeploy, cr.generation > 1, p2, plan.actions);
    forall a | a in plan.actions && a.content.key == plan.common.key ensures h(a.content) == h(plan.common) {
      assert a.content in Desired(plan) && plan.common in Desired(plan);
    }
    StepsKeepFresh(env, h, cr.spec.rollingDeploy, cr.generation > 1, p2, plan.actions, plan.common);
  }

  // ---------- main results ----------

  /** A pass that completed with all its lists and deletes successful leaves, of the pruned kinds in the resource's
      namespace and under its labels, desired names only. */
  lemma PruneLeavesOnlyDesired(env: Env, h: Hasher, cr: Cr, plan: Plan, w: World, k: Key)
    requires Drifting(env) && (!cr.deleting || cr.spec.disablePvcFinalizer)
    requires var q := Deploy(env, h, cr, Some(plan), w); q.flow.Completed? && Adds(w, q.w, PruneOk)
    requires k.kind in PRUNED
    requires Matches(Deploy(env, h, cr, Some(plan), w).w.objs, k, k.kind, cr.ns, DruidLabels(cr.name))
    ensures k in DesiredKeys(plan)
  {
    var p := NodeLoop(env, h, cr, plan, w);
    CompletedIffLoopDone(env, h, cr, plan, w);
    NodeLoopFrame(env, h, cr, plan, w);
    TailReduces(env, cr, p);
    TailLog(env, cr, p);
    AddsSplit(w, p.w, Deploy(env, h, cr, Some(plan), w).w, PruneOk);
    assert k !in Doomed(p.w.objs, cr, p.names, PRUNED);
  }

  /** A completed pass leaves every desired object as desired, except for a claim that its orphan collector took. */
  lemma PassEstablishes(env: Env, h: Hasher, cr: Cr, plan: Plan, w: World, c: Content)
    requires Drifting(env) && (!cr.deleting || cr.spec.disablePvcFinalizer)
    requires ConflictFree(h, Desired(plan)) && c in Desired(plan)
    requires Deploy(env, h, cr, Some(plan), w).flow.Completed?
    ensures var q := Deploy(env, h, cr, Some(plan), w).w.objs;
            Fresh(h, q, c) || (c.key !in q && cr.spec.deleteOrphanPvc && c.key.kind.PersistentVolumeClaim?)
  {
    hide NodeLoop, Tail, ConflictFree, Selects;
    var p := NodeLoop(env, h, cr, plan, w);
    CompletedIffLoopDone(env, h, cr, plan, w);
    NodeLoopFrame(env, h, cr, plan, w);
    NodeLoopEstablishes(env, h, cr, plan, w);
    TailReduces(env, cr, p);
    assert c.key in DesiredKeys(plan);
    assert c.key !in Doomed(p.w.objs, cr, p.names, PRUNED);
    assert c.key in Claims(cr, p.w.objs) ==> cr.spec.deleteOrphanPvc && c.key.kind.PersistentVolumeClaim?;
  }

  /** A whole pass never changes the address of a service that stays stored. */
  lemma PassKeepsClusterIPs(env: Env, h: Hasher, cr: Cr, plan: Option<Plan>, w: World, k: Key)
    requires Drifting(env) && (!cr.deleting || cr.spec.disablePvcFinalizer)
    requires k.kind.Service? && k in w.objs && k in Deploy(env, h, cr, plan, w).w.objs
    ensures Deploy(env, h, cr, plan, w).w.objs[k].clusterIP == w.objs[k].clusterIP
  {
    if !(cr.spec.ignored || !cr.spec.valid || plan.None?) {
      NodeLoopFrame(env, h, cr, plan.value, w);
      var p := NodeLoop(env, h, cr, plan.value, w);
      if p.flow.Going? {
        TailReduces(env, cr, p);
      }
    }
  }
}
