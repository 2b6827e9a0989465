/** "Each node is updated one by one" (docs/upgrade.md) over whole runs: when it holds, and when it does not. */
module Rollout {
  import opened Cluster
  import opened ApiServer
  import opened Reconcile
  import opened Frames
  import opened Upserts
  import opened Prune
  import opened Rolling

  // ---------- the rest of a pass leaves desired objects exactly as they are ----------

  lemma {:induction false} DeleteAllKeeps(env: Env, w: World, keys: seq<Key>, k: Key)
    requires Alone(env) && k !in keys && k in w.objs
    ensures var w1 := DeleteAll(env, w, keys).0; k in w1.objs && w1.objs[k] == w.objs[k]
    decreases |keys|
  {
    if keys != [] {
      AloneArrives(env, w);
      var (w1, ok) := Delete(env, w, keys[0]);
      if ok {
        DeleteAllKeeps(env, w1, keys[1..], k);
      }
    }
  }

  lemma {:induction false} PruneItemsKeeps(env: Env, names: set<Key>, w: World, items: seq<Key>, k: Key)
    requires Alone(env) && k in names && k in w.objs
    ensures var w1 := PruneItems(env, names, w, items).0; k in w1.objs && w1.objs[k] == w.objs[k]
    decreases |items|
  {
    if items != [] {
      if items[0] in names {
        PruneItemsKeeps(env, names, w, items[1..], k);
      } else {
        AloneArrives(env, w);
        PruneItemsKeeps(env, names, Delete(env, w, items[0]).0, items[1..], k);
      }
    }
  }

  lemma {:induction false} PruneKindsKeeps(env: Env, cr: Cr, names: set<Key>, w: World, kinds: seq<Kind>, k: Key)
    requires Alone(env) && k in names && k in w.objs
    ensures var w1 := PruneKinds(env, cr, names, w, kinds).0; k in w1.objs && w1.objs[k] == w.objs[k]
    decreases |kinds|
  {
    if kinds != [] {
      AloneArrives(env, w);
      var (w1, items) := List(env, w, kinds[0], cr.ns, DruidLabels(cr.name));
      if items.Some? {
        PruneItemsKeeps(env, names, w1, items.value, k);
      }
      PruneKindsKeeps(env, cr, names, PruneKind(env, cr, names, w, kinds[0]).0, kinds[1..], k);
    }
  }

  lemma CollectKeeps(env: Env, cr: Cr, w: World, k: Key)
    requires Alone(env) && k in w.objs && !k.kind.PersistentVolumeClaim?
    ensures var w1 := CollectOrphans(env, cr, w); k in w1.objs && w1.objs[k] == w.objs[k]
  {
    AloneArrives(env, w);
    var (w1, pods) := List(env, w, Pod, cr.ns, DruidLabels(cr.name));
    AloneArrives(env, w1);
    if cr.spec.deleteOrphanPvc && pods.Some? {
      var (w2, pvcs) := List(env, w1, PersistentVolumeClaim, cr.ns, map["druid_cr" := cr.name]);
      if pvcs.Some? {
        UnmountedSubset(pvcs.value, MountedPvc(w1.objs, pods.value));
        DeleteAllKeeps(env, w2, Unmounted(pvcs.value, MountedPvc(w1.objs, pods.value)), k);
      }
    }
  }

  lemma ReportKeeps(env: Env, cr: Cr, w: World, survivors: seq<seq<string>>)
    requires Alone(env) && |survivors| == 7
    ensures ReportStatus(env, cr, w, survivors).objs == w.objs
  {
    AloneArrives(env, w);
    AloneArrives(env, List(env, w, Pod, cr.ns, DruidLabels(cr.name)).0);
  }

  lemma TailKeeps(env: Env, cr: Cr, p: Pass, k: Key)
    requires Alone(env) && k in p.names && k in p.w.objs && !k.kind.PersistentVolumeClaim?
    ensures var q := Tail(env, cr, p); k in q.w.objs && q.w.objs[k] == p.w.objs[k]
  {
    if p.flow.Going? {
      var w1 := CollectOrphans(env, cr, p.w);
      CollectKeeps(env, cr, p.w, k);
      PruneKindsKeeps(env, cr, p.names, w1, PRUNED, k);
      var (w2, s) := PruneKinds(env, cr, p.names, w1, PRUNED);
      ReportKeeps(env, cr, w2, s);
    }
  }

  // ---------- one rolling pass in which nobody else writes ----------

  predicate Stored(objs: map<Key, Obj>, c: Content) {
    c.key in objs
  }

  /** As desired and fully rolled out. */
  predicate Good(h: Hasher, objs: map<Key, Obj>, c: Content) {
    Fresh(h, objs, c) && RolledOut(objs[c.key])
  }

  predicate GatesStored(objs: map<Key, Obj>, actions: seq<Action>) {
    forall a :: a in actions && a.Gate? ==> Stored(objs, a.content)
  }

  predicate GatesDistinct(actions: seq<Action>) {
    forall i, j :: 0 <= i < j < |actions| && actions[i].Gate? && actions[j].Gate? ==>
      actions[i].content.key != actions[j].content.key
  }

  /** A gate is the only action on its workload. */
  lemma GateUnique(plan: Plan, a: Action, b: Action)
    requires WellFormed(plan) && GatesDistinct(plan.actions)
    requires a in plan.actions && b in plan.actions && a.Gate? && b.content.key == a.content.key
    ensures a == b
  {
    var i :| 0 <= i < |plan.actions| && plan.actions[i] == a;
    var j :| 0 <= j < |plan.actions| && plan.actions[j] == b;
    if i < j {
      assert plan.actions[i].Gate? && plan.actions[j].Gate?;
    } else if j < i {
      assert plan.actions[i].Gate? && plan.actions[j].Gate?;
    }
  }

  ghost predicate SameWorkloads(a: map<Key, Obj>, b: map<Key, Obj>, except: set<Key>) {
    forall k: Key :: IsWorkloadKind(k.kind) && k !in except && k in a ==> k in b && b[k] == a[k]
  }

  /** Gate `i` was stale, every earlier gate was good, and exactly gate `i`'s workload was rewritten. */
  ghost predicate UpdatedGate(h: Hasher, a: map<Key, Obj>, b: map<Key, Obj>, actions: seq<Action>, i: nat) {
    && i < |actions| && actions[i].Gate?
    && !Fresh(h, a, actions[i].content) && Fresh(h, b, actions[i].content)
    && (forall j :: 0 <= j < i && actions[j].Gate? ==> Good(h, a, actions[j].content))
    && SameWorkloads(a, b, {actions[i].content.key})
  }

  /** A step on a stored workload: either nothing changed and, if the pass goes on, the workload is good; or it was
      stale, was rewritten, and the pass stops. A step on anything else leaves the workloads alone. */
  lemma StepRolls(env: Env, h: Hasher, p: Pass, a: Action)
    requires Alone(env) && p.flow.Going?
    requires a.Gate? <==> IsWorkloadKind(a.content.key.kind)
    requires a.Gate? ==> Stored(p.w.objs, a.content)
    ensures var q := Step(env, h, true, true, p, a);
            || (SameWorkloads(p.w.objs, q.w.objs, {}) && (q.flow.Going? && a.Gate? ==> Good(h, p.w.objs, a.content)))
            || (a.Gate? && !q.flow.Going? && UpdatedGate(h, p.w.objs, q.w.objs, [a], 0))
  {
    var c := a.content;
    AloneArrives(env, p.w);
    var (w1, r) := Fetch(env, p.w, c.key);
    AloneArrives(env, Log(w1, Got(c.key, r)));
    var w3 := Upsert(env, h, p.w, c).0;
    AloneArrives(env, w3);
  }

  lemma {:induction false} StepsRoll(env: Env, h: Hasher, p: Pass, actions: seq<Action>)
    requires Alone(env) && GatesStored(p.w.objs, actions)
    requires forall a :: a in actions ==> (a.Gate? <==> IsWorkloadKind(a.content.key.kind))
    ensures var q := Steps(env, h, true, true, p, actions);
            SameWorkloads(p.w.objs, q.w.objs, {}) || exists i: nat :: UpdatedGate(h, p.w.objs, q.w.objs, actions, i)
    decreases |actions|
  {
    if actions != [] && p.flow.Going? {
      var p1 := Step(env, h, true, true, p, actions[0]);
      var q := Steps(env, h, true, true, p, actions);
      StepRolls(env, h, p, actions[0]);
      if !p1.flow.Going? {
        StepsHalted(env, h, true, true, p1, actions[1..]);
        if !SameWorkloads(p.w.objs, q.w.objs, {}) {
          assert UpdatedGate(h, p.w.objs, q.w.objs, actions, 0);
        }
      } else {
        assert SameWorkloads(p.w.objs, p1.w.objs, {});
        StepsRoll(env, h, p1, actions[1..]);
        if !SameWorkloads(p.w.objs, q.w.objs, {}) {
          var i: nat :| UpdatedGate(h, p1.w.objs, q.w.objs, actions[1..], i);
          UpdatedGateShift(h, p.w.objs, p1.w.objs, q.w.objs, actions, i);
        }
      }
    } else if actions != [] {
      StepsHalted(env, h, true, true, p, actions);
    }
  }

  lemma UpdatedGateShift(h: Hasher, a: map<Key, Obj>, b: map<Key, Obj>, c: map<Key, Obj>, actions: seq<Action>, i: nat)
    requires actions != [] && SameWorkloads(a, b, {}) && GatesStored(a, actions)
    requires forall x :: x in actions ==> (x.Gate? <==> IsWorkloadKind(x.content.key.kind))
    requires actions[0].Gate? ==> Good(h, a, actions[0].content)
    requires UpdatedGate(h, b, c, actions[1..], i)
    ensures UpdatedGate(h, a, c, actions, i + 1)
  {
    assert actions[i + 1] == actions[1..][i];
    forall j | 0 <= j < i + 1 && actions[j].Gate? ensures Good(h, a, actions[j].content) {
      if j > 0 {
        assert actions[j] == actions[1..][j - 1];
      }
    }
  }

  ghost predicate SameGates(b: map<Key, Obj>, c: map<Key, Obj>, actions: seq<Action>) {
    forall x :: x in actions && x.Gate? ==>
      Stored(b, x.content) && Stored(c, x.content) && c[x.content.key] == b[x.content.key]
  }

  /** The pass rewrote no planned workload, or exactly one: a stale one all of whose predecessors were good. */
  ghost predicate RolledAtMostOne(h: Hasher, a: map<Key, Obj>, b: map<Key, Obj>, actions: seq<Action>) {
    || SameGates(a, b, actions)
    || exists i :: 0 <= i < |actions| && RolledJust(h, a, b, actions, i)
  }

  ghost predicate RolledJust(h: Hasher, a: map<Key, Obj>, b: map<Key, Obj>, actions: seq<Action>, i: nat)
    requires i < |actions|
  {
    && actions[i].Gate? && !Fresh(h, a, actions[i].content) && Fresh(h, b, actions[i].content)
    && (forall j :: 0 <= j < i && actions[j].Gate? ==> Good(h, a, actions[j].content))
    && (forall j :: 0 <= j < |actions| && j != i && actions[j].Gate? ==>
          var k := actions[j].content.key; k in a && k in b && b[k] == a[k])
  }

  /** The part of a pass before the node loop leaves the workloads alone. */
  lemma PreludeKeepsWorkloads(env: Env, h: Hasher, cr: Cr, plan: Plan, w: World)
    requires Alone(env) && WellFormed(plan) && (!cr.deleting || cr.spec.disablePvcFinalizer)
    ensures var p1 := Step(env, h, false, false, Pass(w, {}, Going), Ensure(plan.common));
            SameWorkloads(w.objs, FinalizerBlock(env, cr, p1).w.objs, {})
  {
    AloneArrives(env, w);
    var (w1, r) := Fetch(env, w, plan.common.key);
    AloneArrives(env, Log(w1, Got(plan.common.key, r)));
    var p1 := Step(env, h, false, false, Pass(w, {}, Going), Ensure(plan.common));
    assert SameWorkloads(w.objs, p1.w.objs, {});
    AloneArrives(env, p1.w);
    AloneArrives(env, FetchCr(env, p1.w).0);
  }

  lemma UpdatedIsRolled(h: Hasher, a: map<Key, Obj>, b: map<Key, Obj>, c: map<Key, Obj>, actions: seq<Action>, i: nat)
    requires forall x :: x in actions ==> (x.Gate? <==> IsWorkloadKind(x.content.key.kind))
    requires GatesDistinct(actions) && GatesStored(a, actions)
    requires SameWorkloads(a, b, {}) && UpdatedGate(h, b, c, actions, i)
    ensures RolledJust(h, a, c, actions, i)
  {
    forall j | 0 <= j < |actions| && j != i && actions[j].Gate?
      ensures var k := actions[j].content.key; k in a && k in c && c[k] == a[k]
    {
      assert actions[j] in actions;
      assert Stored(a, actions[j].content);
      assert actions[j].content.key != actions[i].content.key;
    }
    assert actions[i] in actions;
    forall j | 0 <= j < i && actions[j].Gate? ensures Good(h, a, actions[j].content) {
      assert Stored(a, actions[j].content);
    }
  }

  lemma NodeLoopRolls(env: Env, h: Hasher, cr: Cr, plan: Plan, w: World)
    requires Alone(env) && WellFormed(plan) && GatesDistinct(plan.actions) && GatesStored(w.objs, plan.actions)
    requires cr.spec.rollingDeploy && cr.generation > 1 && (!cr.deleting || cr.spec.disablePvcFinalizer)
    ensures RolledAtMostOne(h, w.objs, NodeLoop(env, h, cr, plan, w).w.objs, plan.actions)
  {
    var p1 := Step(env, h, false, false, Pass(w, {}, Going), Ensure(plan.common));
    var p2 := FinalizerBlock(env, cr, p1);
    var p := NodeLoop(env, h, cr, plan, w);
    PreludeKeepsWorkloads(env, h, cr, plan, w);
    assert GatesStored(p2.w.objs, plan.actions) by {
      forall x | x in plan.actions && x.Gate? ensures Stored(p2.w.objs, x.content) {
        assert Stored(w.objs, x.content);
      }
    }
    StepsRoll(env, h, p2, plan.actions);
    if SameWorkloads(p2.w.objs, p.w.objs, {}) {
      forall x | x in plan.actions && x.Gate?
        ensures Stored(w.objs, x.content) && Stored(p.w.objs, x.content)
        ensures p.w.objs[x.content.key] == w.objs[x.content.key]
      {
      }
    } else {
      var i: nat :| UpdatedGate(h, p2.w.objs, p.w.objs, plan.actions, i);
      UpdatedIsRolled(h, w.objs, p2.w.objs, p.w.objs, plan.actions, i);
    }
  }

  lemma RolledFurther(h: Hasher, a: map<Key, Obj>, b: map<Key, Obj>, c: map<Key, Obj>, actions: seq<Action>)
    requires RolledAtMostOne(h, a, b, actions) && SameGates(b, c, actions)
    ensures RolledAtMostOne(h, a, c, actions)
  {
    if i :| 0 <= i < |actions| && RolledJust(h, a, b, actions, i) {
      assert actions[i] in actions;
      forall j | 0 <= j < |actions| && j != i && actions[j].Gate?
        ensures var k := actions[j].content.key; k in a && k in c && c[k] == a[k]
      {
        assert actions[j] in actions;
      }
      assert RolledJust(h, a, c, actions, i);
    }
  }

  lemma PassRolls(env: Env, h: Hasher, cr: Cr, plan: Plan, w: World)
    requires Alone(env) && WellFormed(plan) && GatesDistinct(plan.actions) && GatesStored(w.objs, plan.actions)
    requires cr.spec.rollingDeploy && cr.generation > 1 && (!cr.deleting || cr.spec.disablePvcFinalizer)
    ensures RolledAtMostOne(h, w.objs, Deploy(env, h, cr, Some(plan), w).w.objs, plan.actions)
  {
    hide NodeLoop, RolledOut;
    if !cr.spec.ignored && cr.spec.valid {
      var p := NodeLoop(env, h, cr, plan, w);
      var q := Deploy(env, h, cr, Some(plan), w);
      NodeLoopRolls(env, h, cr, plan, w);
      if p.flow.Going? {
        NodeLoopFrame(env, h, cr, plan, w);
        forall x | x in plan.actions && x.Gate?
          ensures Stored(p.w.objs, x.content) && Stored(q.w.objs, x.content)
          ensures q.w.objs[x.content.key] == p.w.objs[x.content.key]
        {
          assert Stored(w.objs, x.content);
          assert x.content.key in p.names;
          TailKeeps(env, cr, p, x.content.key);
        }
        RolledFurther(h, w.objs, p.w.objs, q.w.objs, plan.actions);
      }
    }
  }

  // ---------- whole runs ----------

  /** A workload still rolling out has only good workloads before it in the order. */
  ghost predicate OneByOne(h: Hasher, objs: map<Key, Obj>, actions: seq<Action>) {
    && GatesStored(objs, actions)
    && forall i, j ::
         (&& 0 <= i < j < |actions| && actions[i].Gate? && actions[j].Gate?
          && !RolledOut(objs[actions[j].content.key])) ==>
         Good(h, objs, actions[i].content)
  }

  /** No two planned workloads are rolling out. */
  ghost predicate AtMostOneRolling(objs: map<Key, Obj>, actions: seq<Action>) {
    forall i, j ::
      (&& 0 <= i < j < |actions| && actions[i].Gate? && actions[j].Gate?
       && Stored(objs, actions[i].content) && Stored(objs, actions[j].content)) ==>
      RolledOut(objs[actions[i].content.key]) || RolledOut(objs[actions[j].content.key])
  }

  /** Between two passes the controllers work: nothing but status and replicas changes, and a workload that the pass
      did not write does not fall out of being rolled out. In particular the rollout a pass caused has started, if
      it is to start at all, before the next pass looks. */
  ghost predicate Between(before: World, after: World, next: World) {
    && SameObjs(after.objs, next.objs)
    && forall k :: k in before.objs && k in after.objs && after.objs[k] == before.objs[k] && RolledOut(after.objs[k])
         ==> RolledOut(next.objs[k])
  }

  /** All planned workloads are stored and rolled out. */
  ghost predicate AllDone(objs: map<Key, Obj>, actions: seq<Action>) {
    forall a :: a in actions && a.Gate? ==> Stored(objs, a.content) && RolledOut(objs[a.content.key])
  }

  lemma AllDoneIsOneByOne(h: Hasher, objs: map<Key, Obj>, actions: seq<Action>)
    requires AllDone(objs, actions)
    ensures OneByOne(h, objs, actions)
  {
    forall i | 0 <= i < |actions| && actions[i].Gate? ensures RolledOut(objs[actions[i].content.key]) {
      assert actions[i] in actions;
    }
  }

  /** A run of rolling passes, each over a plan of its own: whenever the plan changes, the pass that has the new one
      first finds all its workloads stored and rolled out. */
  ghost predicate RollingRun(env: Env, h: Hasher, plans: seq<Plan>, crs: seq<Cr>, ws: seq<World>) {
    && |ws| == |crs| + 1 && |plans| == |crs|
    && (forall n :: 0 <= n < |crs| ==>
          crs[n].spec.rollingDeploy && crs[n].generation > 1 && (!crs[n].deleting || crs[n].spec.disablePvcFinalizer))
    && (forall n :: 0 <= n < |crs| ==> WellFormed(plans[n]) && GatesDistinct(plans[n].actions))
    && (forall n :: 0 < n < |crs| ==> plans[n] == plans[n - 1] || AllDone(ws[n].objs, plans[n].actions))
    && (forall n :: 0 <= n < |crs| ==> Between(ws[n], Deploy(env, h, crs[n], Some(plans[n]), ws[n]).w, ws[n + 1]))
  }

  lemma OneByOneKept(h: Hasher, a: World, b: World, next: World, actions: seq<Action>)
    requires GatesDistinct(actions) && OneByOne(h, a.objs, actions)
    requires RolledAtMostOne(h, a.objs, b.objs, actions) && Between(a, b, next)
    ensures OneByOne(h, next.objs, actions)
  {
    assert GatesStored(b.objs, actions) by {
      forall x | x in actions && x.Gate? ensures Stored(b.objs, x.content) {
        var j :| 0 <= j < |actions| && actions[j] == x;
      }
    }
    if i :| 0 <= i < |actions| && RolledJust(h, a.objs, b.objs, actions, i) {
      forall m, j | 0 <= m < j < |actions| && actions[m].Gate? && actions[j].Gate?
        && !RolledOut(next.objs[actions[j].content.key])
        ensures Good(h, next.objs, actions[m].content)
      {
        if j != i {
          assert false;
        }
      }
    } else {
      forall m, j | 0 <= m < j < |actions| && actions[m].Gate? && actions[j].Gate?
        && !RolledOut(next.objs[actions[j].content.key])
        ensures Good(h, next.objs, actions[m].content)
      {
        assert actions[j] in actions && actions[m] in actions;
        assert !RolledOut(a.objs[actions[j].content.key]);
      }
    }
  }

  /** With nobody else writing during the passes and controllers that act between them, at most one planned workload is
      ever rolling out, whichever calls fail and whatever the edits, as long as each edit finds all workloads rolled
      out. */
  lemma {:induction false} OneRolloutAtATime(env: Env, h: Hasher, plans: seq<Plan>, crs: seq<Cr>, ws: seq<World>,
                                             n: nat)
    requires Alone(env) && RollingRun(env, h, plans, crs, ws) && n < |crs|
    requires OneByOne(h, ws[0].objs, plans[0].actions)
    ensures OneByOne(h, ws[n].objs, plans[n].actions) && OneByOne(h, ws[n + 1].objs, plans[n].actions)
    ensures AtMostOneRolling(ws[n].objs, plans[n].actions) && AtMostOneRolling(ws[n + 1].objs, plans[n].actions)
  {
    hide Deploy, Alone, WellFormed, GatesDistinct, Between, RolledAtMostOne, AllDone, OneByOne, AtMostOneRolling;
    if n > 0 {
      OneRolloutAtATime(env, h, plans, crs, ws, n - 1);
      if plans[n] != plans[n - 1] {
        AllDoneIsOneByOne(h, ws[n].objs, plans[n].actions);
      }
      assert ws[n - 1 + 1] == ws[n];
    }
    var q := Deploy(env, h, crs[n], Some(plans[n]), ws[n]).w;
    StoredGates(h, ws[n].objs, plans[n].actions);
    PassRolls(env, h, crs[n], plans[n], ws[n]);
    OneByOneKept(h, ws[n], q, ws[n + 1], plans[n].actions);
    AtMostOne(h, ws[n].objs, plans[n].actions);
    AtMostOne(h, ws[n + 1].objs, plans[n].actions);
  }

  lemma StoredGates(h: Hasher, objs: map<Key, Obj>, actions: seq<Action>)
    requires OneByOne(h, objs, actions)
    ensures GatesStored(objs, actions)
  {
  }

  lemma AtMostOne(h: Hasher, objs: map<Key, Obj>, actions: seq<Action>)
    requires OneByOne(h, objs, actions)
    ensures AtMostOneRolling(objs, actions)
  {
  }
}
