/** That a pass on a live resource puts the finalizer on, exactly when, and what a clean-up removes, exactly. */
module FinalizerAdded {
  import opened Cluster
  import opened ApiServer
  import opened Strings
  import opened Reconcile
  import opened Frames
  import opened Upserts
  import opened Calls
  import opened Finalizer
  import opened Runs

  // ---------- what does not write the finalizer list ----------

  lemma UpsertKeepsCr(env: Env, h: Hasher, w: World, c: Content)
    requires Alone(env)
    ensures Upsert(env, h, w, c).0.cr == w.cr
  {
    AloneArrives(env, w);
    var (w1, r) := Fetch(env, w, c.key);
    AloneArrives(env, Log(w1, Got(c.key, r)));
  }

  lemma StepKeepsCr(env: Env, h: Hasher, gating: bool, checking: bool, p: Pass, a: Action)
    requires Alone(env)
    ensures Step(env, h, gating, checking, p, a).w.cr == p.w.cr
  {
    hide Upsert;
    if p.flow.Going? {
      UpsertKeepsCr(env, h, p.w, a.content);
      AloneArrives(env, Upsert(env, h, p.w, a.content).0);
    }
  }

  lemma {:induction false} StepsKeepCr(env: Env, h: Hasher, gating: bool, checking: bool, p: Pass, actions: seq<Action>)
    requires Alone(env)
    ensures Steps(env, h, gating, checking, p, actions).w.cr == p.w.cr
    decreases |actions|
  {
    hide Step, Alone;
    if actions != [] {
      StepKeepsCr(env, h, gating, checking, p, actions[0]);
      StepsKeepCr(env, h, gating, checking, Step(env, h, gating, checking, p, actions[0]), actions[1..]);
    }
  }

  lemma ListKeepsCr(env: Env, w: World, kind: Kind, ns: string, sel: Labels)
    requires Alone(env)
    ensures List(env, w, kind, ns, sel).0.cr == w.cr
  {
    AloneArrives(env, w);
  }

  lemma {:induction false} DeleteAllKeepsCr(env: Env, w: World, keys: seq<Key>)
    requires Alone(env)
    ensures DeleteAll(env, w, keys).0.cr == w.cr
    decreases |keys|
  {
    if keys != [] {
      AloneArrives(env, w);
      DeleteAllKeepsCr(env, Delete(env, w, keys[0]).0, keys[1..]);
    }
  }

  lemma {:induction false} PruneItemsKeepCr(env: Env, names: set<Key>, w: World, items: seq<Key>)
    requires Alone(env)
    ensures PruneItems(env, names, w, items).0.cr == w.cr
    decreases |items|
  {
    if items != [] {
      AloneArrives(env, w);
      if items[0] in names {
        PruneItemsKeepCr(env, names, w, items[1..]);
      } else {
        PruneItemsKeepCr(env, names, Delete(env, w, items[0]).0, items[1..]);
      }
    }
  }

  lemma {:induction false} PruneKindsKeepCr(env: Env, cr: Cr, names: set<Key>, w: World, kinds: seq<Kind>)
    requires Alone(env)
    ensures PruneKinds(env, cr, names, w, kinds).0.cr == w.cr
    decreases |kinds|
  {
    hide List, PruneItems, Alone;
    if kinds != [] {
      var (w1, items) := List(env, w, kinds[0], cr.ns, DruidLabels(cr.name));
      ListKeepsCr(env, w, kinds[0], cr.ns, DruidLabels(cr.name));
      if items.Some? {
        PruneItemsKeepCr(env, names, w1, items.value);
      }
      PruneKindsKeepCr(env, cr, names, PruneKind(env, cr, names, w, kinds[0]).0, kinds[1..]);
    }
  }

  lemma CollectKeepsCr(env: Env, cr: Cr, w: World)
    requires Alone(env)
    ensures CollectOrphans(env, cr, w).cr == w.cr
  {
    hide List, DeleteAll, Alone, AllHealthy, MountedPvc, Unmounted;
    if cr.spec.deleteOrphanPvc {
      var (w1, pods) := List(env, w, Pod, cr.ns, DruidLabels(cr.name));
      ListKeepsCr(env, w, Pod, cr.ns, DruidLabels(cr.name));
      var (w2, pvcs) := List(env, w1, PersistentVolumeClaim, cr.ns, map["druid_cr" := cr.name]);
      ListKeepsCr(env, w1, PersistentVolumeClaim, cr.ns, map["druid_cr" := cr.name]);
      if pods.Some? && pvcs.Some? {
        DeleteAllKeepsCr(env, w2, Unmounted(pvcs.value, MountedPvc(w1.objs, pods.value)));
      }
    }
  }

  /** The status patch leaves everything of the resource but its status and version. */
  lemma ReportKeepsFinalizers(env: Env, cr: Cr, w: World, survivors: seq<seq<string>>)
    requires Alone(env) && |survivors| == 7
    ensures var q := ReportStatus(env, cr, w, survivors);
            (q.cr.Some? <==> w.cr.Some?) && (w.cr.Some? ==> q.cr.value.finalizers == w.cr.value.finalizers)
  {
    hide List, StatusOf, NeedsPatch;
    var w1 := List(env, w, Pod, cr.ns, DruidLabels(cr.name)).0;
    ListKeepsCr(env, w, Pod, cr.ns, DruidLabels(cr.name));
    AloneArrives(env, w1);
  }

  lemma TailKeepsFinalizers(env: Env, cr: Cr, p: Pass)
    requires Alone(env)
    ensures var q := Tail(env, cr, p).w;
            (q.cr.Some? <==> p.w.cr.Some?) && (p.w.cr.Some? ==> q.cr.value.finalizers == p.w.cr.value.finalizers)
  {
    hide CollectOrphans, PruneKinds, ReportStatus, Alone;
    if p.flow.Going? {
      var w1 := CollectOrphans(env, cr, p.w);
      var (w2, s) := PruneKinds(env, cr, p.names, w1, PRUNED);
      CollectKeepsCr(env, cr, p.w);
      PruneKindsKeepCr(env, cr, p.names, w1, PRUNED);
      ReportKeepsFinalizers(env, cr, w2, s);
    }
  }

  // ---------- adding the finalizer ----------

  /** The finalizer list that a pass leaves on a live resource. */
  function ListAfter(cr: Cr, passRuns: bool): seq<string> {
    if passRuns && "deletepvc.finalizers.druid.apache.org" !in cr.finalizers
    then cr.finalizers + ["deletepvc.finalizers.druid.apache.org"]
    else cr.finalizers
  }

  lemma BlockAdds(env: Env, cr: Cr, p: Pass)
    requires Alone(env) && Faultless(env) && p.flow.Going? && p.w.cr == Some(cr) && !cr.deleting
    ensures var q := FinalizerBlock(env, cr, p);
            q.flow.Going? && q.w.cr.Some? && q.w.cr.value.finalizers == ListAfter(cr, !cr.spec.disablePvcFinalizer)
  {
    AloneArrives(env, p.w);
    AloneArrives(env, FetchCr(env, p.w).0);
  }

  /** When no call fails and nobody else writes, a pass on a live resource leaves it with the finalizer list as it
      was and the operator's finalizer behind it, unless that was there already, or the spec is ignored or invalid, a
      node type is unknown (no plan exists), or the finalizer code is disabled: then the list is as it was. */
  lemma FinalizerListAfter(env: Env, h: Hasher, cr: Cr, plan: Option<Plan>, w: World)
    requires Alone(env) && Faultless(env) && w.cr == Some(cr) && !cr.deleting
    ensures var q := Deploy(env, h, cr, plan, w).w;
            && q.cr.Some?
            && q.cr.value.finalizers
               == ListAfter(cr, !cr.spec.ignored && cr.spec.valid && plan.Some? && !cr.spec.disablePvcFinalizer)
  {
    hide Step, Steps, Tail, FinalizerBlock, Alone, Faultless;
    if !cr.spec.ignored && cr.spec.valid && plan.Some? {
      var p1 := Step(env, h, false, false, Pass(w, {}, Going), Ensure(plan.value.common));
      var p2 := FinalizerBlock(env, cr, p1);
      CommonGoes(env, h, w, plan.value.common);
      BlockAdds(env, cr, p1);
      StepsKeepCr(env, h, cr.spec.rollingDeploy, cr.generation > 1, p2, plan.value.actions);
      TailKeepsFinalizers(env, cr, NodeLoop(env, h, cr, plan.value, w));
    }
  }

  /** Such a pass leaves the resource with the finalizer exactly when it had it already or the pass does its work. */
  lemma HeldAfterPassIff(env: Env, h: Hasher, cr: Cr, plan: Option<Plan>, w: World)
    requires Alone(env) && Faultless(env) && w.cr == Some(cr) && !cr.deleting
    ensures var q := Deploy(env, h, cr, plan, w).w;
            q.cr.Some? && "deletepvc.finalizers.druid.apache.org" in q.cr.value.finalizers <==>
              || "deletepvc.finalizers.druid.apache.org" in cr.finalizers
              || (!cr.spec.ignored && cr.spec.valid && plan.Some? && !cr.spec.disablePvcFinalizer)
  {
    hide Deploy;
    FinalizerListAfter(env, h, cr, plan, w);
  }

  /** Over runs: once a live resource was through such a pass it has the finalizer, whatever runs and others do next,
      under any failures, until some pass deleted every StatefulSet and then every claim that it listed. */
  lemma ProtectedFromFirstPass(calm: Env, env: Env, h: Hasher, planner: Planner, w: World, steps: seq<RunStep>)
    requires Alone(calm) && Faultless(calm) && OnlyOperatorFinalizes(env) && w.cr.Some? && !w.cr.value.deleting
    requires var cr := w.cr.value;
             !cr.spec.ignored && cr.spec.valid && planner(cr).Some? && !cr.spec.disablePvcFinalizer
    requires forall s :: s in steps && s.OthersStep? ==> NoFinalizerWriter(s.writes)
    ensures var w1 := ReconcileOnce(calm, h, planner, w);
            || (&& Run(env, h, w1, steps).cr.Some?
                && "deletepvc.finalizers.druid.apache.org" in Run(env, h, w1, steps).cr.value.finalizers)
            || exists m: nat :: m <= |steps| && LastStepCleansUp(env, h, w1, steps[..m])
  {
    hide Deploy, Run, LastStepCleansUp;
    var cr := w.cr.value;
    var (v, read, ok) := FetchCr(calm, w);
    AloneArrives(calm, w);
    HeldAfterPassIff(calm, h, cr, planner(cr), v);
    FinalizerHeldUntilCleanUp(env, h, ReconcileOnce(calm, h, planner, w), steps);
  }

  // ---------- what a clean-up removes ----------

  lemma {:induction false} DeletesExactly(env: Env, w: World, keys: seq<Key>)
    requires Alone(env) && Faultless(env)
    requires (forall i, j :: 0 <= i < j < |keys| ==> keys[i] != keys[j]) && forall k :: k in keys ==> k in w.objs
    ensures DeleteAll(env, w, keys).0.objs == w.objs - (set k | k in keys)
    decreases |keys|
  {
    if keys != [] {
      AloneArrives(env, w);
      var (w1, ok) := Delete(env, w, keys[0]);
      forall k | k in keys[1..] ensures k in w1.objs {
        var i :| 0 <= i < |keys[1..]| && keys[1..][i] == k;
        assert keys[i + 1] == k;
      }
      DeletesExactly(env, w1, keys[1..]);
      assert keys == [keys[0]] + keys[1..];
    }
  }

  /** What deletion of the resource takes with it: its StatefulSets, and every claim under its name's label. */
  predicate GoesWith(cr: Cr, objs: map<Key, Obj>, k: Key) {
    && k in objs && k.ns == cr.ns
    && (|| (k.kind.StatefulSet? && Selects(map["app" := "druid", "druid_cr" := cr.name], objs[k].labels))
        || (k.kind.PersistentVolumeClaim? && Selects(map["druid_cr" := cr.name], objs[k].labels)))
  }

  lemma ListedGo(cr: Cr, objs: map<Key, Obj>, sets: seq<Key>, pvcs: seq<Key>, k: Key)
    requires Enumerates(sets, objs, StatefulSet, cr.ns, DruidLabels(cr.name))
    requires Enumerates(pvcs, objs, PersistentVolumeClaim, cr.ns, map["druid_cr" := cr.name])
    ensures k in sets + pvcs <==> GoesWith(cr, objs, k)
  {
    if k in sets {
      assert Matches(objs, k, StatefulSet, cr.ns, DruidLabels(cr.name));
    }
    if k in pvcs {
      assert Matches(objs, k, PersistentVolumeClaim, cr.ns, map["druid_cr" := cr.name]);
    }
    if GoesWith(cr, objs, k) {
      assert Matches(objs, k, StatefulSet, cr.ns, DruidLabels(cr.name))
          || Matches(objs, k, PersistentVolumeClaim, cr.ns, map["druid_cr" := cr.name]);
    }
  }

  lemma WriteLeaves(env: Env, cr: Cr, w: World)
    requires Alone(env) && Faultless(env) && w.cr == Some(cr) && cr.deleting && FINALIZER_NAME in cr.finalizers
    ensures var q := UpdateCr(env, w, cr, Without(cr.finalizers, FINALIZER_NAME)).0;
            && q.objs == w.objs
            && (q.cr.None? <==> forall f :: f in cr.finalizers ==> f == FINALIZER_NAME)
            && (q.cr.Some? ==> q.cr.value.finalizers == Without(cr.finalizers, FINALIZER_NAME))
  {
    AloneArrives(env, w);
    var fs := Without(cr.finalizers, FINALIZER_NAME);
    forall f ensures f in fs <==> f in cr.finalizers && f != FINALIZER_NAME {
      assert f in fs <==> f in multiset(fs);
      assert f in cr.finalizers <==> f in multiset(cr.finalizers);
    }
    assert fs == [] || fs[0] in fs;
    assert forall i :: 0 <= i < |fs| ==> fs[i] in fs;
  }

  lemma CleanUpLeaves(env: Env, cr: Cr, w: World)
    requires Alone(env) && Faultless(env) && w.cr == Some(cr) && cr.deleting && FINALIZER_NAME in cr.finalizers
    requires Adds(w, ExecuteFinalizers(env, cr, w).0, ListOk)
    ensures var q := ExecuteFinalizers(env, cr, w).0;
            && (forall k :: k in q.objs <==> k in w.objs && !GoesWith(cr, w.objs, k))
            && (forall k :: k in q.objs ==> q.objs[k] == w.objs[k])
            && (q.cr.None? <==> forall f :: f in cr.finalizers ==> f == FINALIZER_NAME)
            && (q.cr.Some? ==> q.cr.value.finalizers == Without(cr.finalizers, FINALIZER_NAME))
  {
    hide UpdateCr, DeleteAll, List, Enumerates, Alone, Faultless, GoesWith, Without;
    var end := ExecuteFinalizers(env, cr, w).0;
    CleanUpExtends(env, cr, w);
    var (w1, pvcs) := List(env, w, PersistentVolumeClaim, cr.ns, map["druid_cr" := cr.name]);
    ListTape(env, w, PersistentVolumeClaim, cr.ns, map["druid_cr" := cr.name]);
    AloneList(env, w, PersistentVolumeClaim, cr.ns, map["druid_cr" := cr.name]);
    LastListed(w, w, w1, end, if pvcs.Some? then pvcs.value else [], PersistentVolumeClaim, pvcs.Some?);
    var (w2, sets) := List(env, w1, StatefulSet, cr.ns, DruidLabels(cr.name));
    ListTape(env, w1, StatefulSet, cr.ns, DruidLabels(cr.name));
    AloneList(env, w1, StatefulSet, cr.ns, DruidLabels(cr.name));
    LastListed(w, w1, w2, end, if sets.Some? then sets.value else [], StatefulSet, sets.Some?);
    ListedTogether(w.objs, sets.value, pvcs.value, cr.ns, DruidLabels(cr.name), map["druid_cr" := cr.name]);
    var keys := sets.value + pvcs.value;
    DeleteAllSucceeds(env, w2, keys);
    DeletesExactly(env, w2, keys);
    WriteLeaves(env, cr, DeleteAll(env, w2, keys).0);
    forall k ensures k in keys <==> GoesWith(cr, w.objs, k) {
      ListedGo(cr, w.objs, sets.value, pvcs.value, k);
    }
  }

  /** With no failing call and nobody else writing, the pass that finalizes a resource removes its StatefulSets and
      every claim under its name's label, in its namespace, and nothing else; the common config map aside, which it
      has written before, all other objects are as they were. The other finalizers stay, in order, and without any
      the resource is gone. */
  lemma CleanUpExact(env: Env, h: Hasher, cr: Cr, plan: Plan, w: World)
    requires Alone(env) && Faultless(env) && w.cr == Some(cr) && FINALIZER_NAME in cr.finalizers && Finalizing(cr)
    requires !cr.spec.ignored && cr.spec.valid && plan.common.key.kind.ConfigMap?
    requires Adds(w, Deploy(env, h, cr, Some(plan), w).w, ListOk)
    ensures var q := Deploy(env, h, cr, Some(plan), w).w;
            && plan.common.key in q.objs
            && (forall k :: k != plan.common.key ==>
                  && (k in q.objs <==> k in w.objs && !GoesWith(cr, w.objs, k))
                  && (k in q.objs ==> q.objs[k] == w.objs[k]))
            && (q.cr.None? <==> forall f :: f in cr.finalizers ==> f == "deletepvc.finalizers.druid.apache.org")
            && (q.cr.Some? ==> q.cr.value.finalizers == Without(cr.finalizers, "deletepvc.finalizers.druid.apache.org"))
  {
    hide Step, Steps, ExecuteFinalizers, Tail, Alone, Faultless, Without, Selects;
    var p1 := Step(env, h, false, false, Pass(w, {}, Going), Ensure(plan.common));
    var p2 := FinalizerBlock(env, cr, p1);
    CommonGoes(env, h, w, plan.common);
    CommonStored(env, h, w, plan.common);
    LogOfStep(env, h, Pass(w, {}, Going), Ensure(plan.common));
    FinalizingStops(env, cr, p1.w);
    FinalizerTape(env, cr, p1.w);
    StepsHalted(env, h, cr.spec.rollingDeploy, cr.generation > 1, p2, plan.actions);
    TailHalted(env, cr, p2);
    AddsSplit(w, p1.w, p2.w, ListOk);
    CleanUpLeaves(env, cr, p1.w);
  }

  lemma CommonStored(env: Env, h: Hasher, w: World, common: Content)
    requires Alone(env) && Faultless(env)
    ensures var q := Step(env, h, false, false, Pass(w, {}, Going), Ensure(common)).w.objs;
            && common.key in q
            && forall k :: k != common.key ==> (k in q <==> k in w.objs) && (k in q ==> q[k] == w.objs[k])
  {
    AloneArrives(env, w);
    var (w1, r) := Fetch(env, w, common.key);
    AloneArrives(env, Log(w1, Got(common.key, r)));
  }
}
