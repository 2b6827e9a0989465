/** One reconcile pass, as a function of the surroundings, the custom resource and the actions planned from its spec. */
module Reconcile {
  import opened Cluster
  import opened ApiServer
  import opened Strings
  import opened StatusPatch

  const FINALIZER_NAME := "deletepvc.finalizers.druid.apache.org"

  /** A planned upsert. A gate is a StatefulSet or Deployment, after which a rolling pass may have to stop. */
  datatype Action = Ensure(content: Content) | Gate(content: Content)

  /** How far a pass got: still going, left at the first checks, stopped to wait for a rollout, failed, returned from
      the finalizer code, done. */
  datatype Flow = Going | Skipped | Waiting | Failed | Finalized | Completed

  datatype Pass = Pass(w: World, names: set<Key>, flow: Flow)

  datatype NodeStatus = ResourceCreated | ResourceUpdated | Unchanged | UpsertFailed

  // ---------- sdkCreateOrUpdateAsNeeded ----------

  function Upsert(env: Env, h: Hasher, w: World, c: Content): (World, NodeStatus) {
    var (w1, r) := Fetch(env, w, c.key);
    var w2 := Log(w1, Got(c.key, r));
    match r
    case Broken => (w2, UpsertFailed)
    case NotFound =>
      var (w3, ok) := Create(env, w2, c, h(c));
      (w3, if ok then ResourceCreated else UpsertFailed)
    case Found(prev) =>
      if prev.hash != h(c) then
        var (w3, ok) := Update(env, w2, c, h(c), prev.version, if c.key.kind.Service? then prev.clusterIP else "");
        (w3, if ok then ResourceUpdated else UpsertFailed)
      else (w2, Unchanged)
  }

  /** `isObjFullyDeployed`, for the two workload kinds. */
  function CheckDeployed(env: Env, w: World, key: Key): (World, Flow) {
    var (w1, r) := Fetch(env, w, key);
    (Log(w1, Checked(key, r)),
     if !r.Found? then Failed else if r.obj.current == r.obj.target then Going else Waiting)
  }

  /** `gating` is `RollingDeploy`; `checking` is `Generation > 1`. */
  function Step(env: Env, h: Hasher, gating: bool, checking: bool, p: Pass, a: Action): Pass
  {
    if !p.flow.Going? then p
    else
      var (w1, st) := Upsert(env, h, p.w, a.content);
      var names := p.names + {a.content.key};
      if st.UpsertFailed? then Pass(w1, names, Failed)
      else if a.Gate? && gating then
        if st.ResourceUpdated? then Pass(w1, names, Waiting)
        else if checking then
          var (w2, flow) := CheckDeployed(env, w1, a.content.key);
          Pass(w2, names, flow)
        else Pass(w1, names, Going)
      else Pass(w1, names, Going)
  }

  function Steps(env: Env, h: Hasher, gating: bool, checking: bool, p: Pass, actions: seq<Action>): Pass
    decreases |actions|
  {
    if actions == [] then p
    else Steps(env, h, gating, checking, Step(env, h, gating, checking, p, actions[0]), actions[1..])
  }

  lemma {:induction false} StepsAppend(env: Env, h: Hasher, gating: bool, checking: bool, p: Pass, a: seq<Action>,
                                       b: seq<Action>)
    ensures Steps(env, h, gating, checking, p, a + b)
         == Steps(env, h, gating, checking, Steps(env, h, gating, checking, p, a), b)
    decreases |a|
  {
    if a == [] {
      assert a + b == b;
    } else {
      assert (a + b)[1..] == a[1..] + b;
      StepsAppend(env, h, gating, checking, Step(env, h, gating, checking, p, a[0]), a[1..], b);
    }
  }

  // ---------- deletion helpers ----------

  /** Deletes the objects one by one and stops at the first failure (`deleteSTSAndPVC`, `deleteOrphanPVC`). */
  function DeleteAll(env: Env, w: World, keys: seq<Key>): (World, bool)
    decreases |keys|
  {
    if keys == [] then (w, true)
    else
      var (w1, ok) := Delete(env, w, keys[0]);
      if ok then DeleteAll(env, w1, keys[1..]) else (w1, false)
  }

  /** `executeFinalizers`. */
  function ExecuteFinalizers(env: Env, cr: Cr, w: World): (World, Flow) {
    if FINALIZER_NAME !in cr.finalizers then (w, Finalized)
    else
      var (w1, pvcs) := List(env, w, PersistentVolumeClaim, cr.ns, map["druid_cr" := cr.name]);
      if pvcs.None? then (w1, Failed)
      else
        var (w2, sets) := List(env, w1, StatefulSet, cr.ns, DruidLabels(cr.name));
        if sets.None? then (w2, Failed)
        else
          var (w3, ok) := DeleteAll(env, w2, sets.value + pvcs.value);
          if !ok then (w3, Failed)
          else
            var (w4, done) := UpdateCr(env, w3, cr, Without(cr.finalizers, FINALIZER_NAME));
            (w4, if done then Finalized else Failed)
  }

  /** Adds the finalizer while the resource is live. */
  function AddFinalizer(env: Env, cr: Cr, w: World): (World, Flow) {
    var (w1, stored, ok) := FetchCr(env, w);
    if stored.None? || FINALIZER_NAME in cr.finalizers then (w1, Going)
    else
      var (w2, done) := UpdateCr(env, w1, cr, cr.finalizers + [FINALIZER_NAME]);
      (w2, if done then Going else Failed)
  }

  function FinalizerBlock(env: Env, cr: Cr, p: Pass): Pass {
    if !p.flow.Going? || cr.spec.disablePvcFinalizer then p
    else
      var (w, flow) := if cr.deleting then ExecuteFinalizers(env, cr, p.w) else AddFinalizer(env, cr, p.w);
      p.(w := w, flow := flow)
  }

  // ---------- deleteOrphanPVC ----------

  predicate PodHealthy(o: Obj) {
    o.body.PodBody? && o.body.running && forall i :: 0 <= i < |o.body.conditions| ==> o.body.conditions[i]
  }

  predicate AllHealthy(objs: map<Key, Obj>, pods: seq<Key>) {
    forall k :: k in pods && k in objs ==> PodHealthy(objs[k])
  }

  /** The claim names found in one pod's volumes, appended when not there yet. */
  function AddClaims(mounted: seq<string>, claims: seq<Option<string>>): seq<string>
    decreases |claims|
  {
    if claims == [] then mounted
    else AddClaims(if claims[0].Some? && claims[0].value !in mounted then mounted + [claims[0].value] else mounted,
                   claims[1..])
  }

  function CollectClaims(objs: map<Key, Obj>, mounted: seq<string>, pods: seq<Key>): seq<string>
    decreases |pods|
  {
    if pods == [] then mounted
    else if pods[0] in objs && objs[pods[0]].body.PodBody? then
      CollectClaims(objs, AddClaims(mounted, objs[pods[0]].body.claims), pods[1..])
    else CollectClaims(objs, mounted, pods[1..])
  }

  /** `mountedPVC`: starts as one empty string per pod. */
  function MountedPvc(objs: map<Key, Obj>, pods: seq<Key>): seq<string> {
    CollectClaims(objs, seq(|pods|, i => ""), pods)
  }

  function Unmounted(pvcs: seq<Key>, mounted: seq<string>): seq<Key>
    decreases |pvcs|
  {
    if pvcs == [] then []
    else if pvcs[0].name in mounted then Unmounted(pvcs[1..], mounted)
    else [pvcs[0]] + Unmounted(pvcs[1..], mounted)
  }

  /** The error is only logged by the caller, so only the world is returned. */
  function DeleteOrphanPvc(env: Env, cr: Cr, w: World): World {
    var (w1, pods) := List(env, w, Pod, cr.ns, DruidLabels(cr.name));
    if pods.None? then w1
    else
      var (w2, pvcs) := List(env, w1, PersistentVolumeClaim, cr.ns, map["druid_cr" := cr.name]);
      if pvcs.None? || !AllHealthy(w1.objs, pods.value) then w2
      else DeleteAll(env, w2, Unmounted(pvcs.value, MountedPvc(w1.objs, pods.value))).0
  }

  // ---------- deleteUnusedResources ----------

  function PruneItems(env: Env, names: set<Key>, w: World, items: seq<Key>): (World, seq<string>)
    decreases |items|
  {
    if items == [] then (w, [])
    else if items[0] in names then
      var (w1, rest) := PruneItems(env, names, w, items[1..]);
      (w1, [items[0].name] + rest)
    else
      var (w1, ok) := Delete(env, w, items[0]);
      var (w2, rest) := PruneItems(env, names, w1, items[1..]);
      (w2, if ok then rest else [items[0].name] + rest)
  }

  function PruneKind(env: Env, cr: Cr, names: set<Key>, w: World, kind: Kind): (World, seq<string>) {
    var (w1, items) := List(env, w, kind, cr.ns, DruidLabels(cr.name));
    if items.None? then (w1, []) else PruneItems(env, names, w1, items.value)
  }

  /** The seven pruned kinds, in the order of the code. */
  const PRUNED: seq<Kind> :=
    [StatefulSet, Deployment, HorizontalPodAutoscaler, Ingress, PodDisruptionBudget, Service, ConfigMap]

  function PruneKinds(env: Env, cr: Cr, names: set<Key>, w: World, kinds: seq<Kind>): (r: (World, seq<seq<string>>))
    ensures |r.1| == |kinds|
    decreases |kinds|
  {
    if kinds == [] then (w, [])
    else
      var (w1, survivors) := PruneKind(env, cr, names, w, kinds[0]);
      var (w2, rest) := PruneKinds(env, cr, names, w1, kinds[1..]);
      (w2, [Sort(survivors)] + rest)
  }

  // ---------- status ----------

  function PodNames(pods: seq<Key>): seq<string> {
    seq(|pods|, i requires 0 <= i < |pods| => pods[i].name)
  }

  /** `reflect.DeepEqual` against the status read with the resource: the seven pruned lists are built non-nil, while
      a list absent from the stored status is read as nil, so an empty list always differs. */
  predicate NeedsPatch(updated: Status, read: Status) {
    updated != read || exists i :: 0 <= i < 7 && Lists(updated)[i] == []
  }

  function PatchStatus(env: Env, w: World, updated: Status): World {
    var v := Arrive(env, w);
    var t := env(w.tick);
    if t.fault.Refused? || v.cr.None? then Log(v, StatusPatched(false))
    else
      var cr := v.cr.value.(status := Patched(v.cr.value.status, updated), version := v.version + 1);
      Log(v.(cr := Some(cr), version := v.version + 1), StatusPatched(t.fault.NoFault?))
  }

  function CollectOrphans(env: Env, cr: Cr, w: World): World {
    if cr.spec.deleteOrphanPvc then DeleteOrphanPvc(env, cr, w) else w
  }

  function StatusOf(survivors: seq<seq<string>>, pods: Option<seq<Key>>): Status
    requires |survivors| == 7
  {
    Status(survivors[0], survivors[1], survivors[2], survivors[3], survivors[4], survivors[5], survivors[6],
           Sort(PodNames(if pods.Some? then pods.value else [])))
  }

  /** Lists the pods and patches the status when it differs. */
  function ReportStatus(env: Env, cr: Cr, w: World, survivors: seq<seq<string>>): World
    requires |survivors| == 7
  {
    var (w1, pods) := List(env, w, Pod, cr.ns, DruidLabels(cr.name));
    var updated := StatusOf(survivors, pods);
    if NeedsPatch(updated, cr.status) then PatchStatus(env, w1, updated) else w1
  }

  /** What follows the node loop. */
  function Tail(env: Env, cr: Cr, p: Pass): Pass {
    if !p.flow.Going? then p
    else
      var (w, survivors) := PruneKinds(env, cr, p.names, CollectOrphans(env, cr, p.w), PRUNED);
      Pass(ReportStatus(env, cr, w, survivors), p.names, Completed)
  }

  // ---------- deployDruidCluster ----------

  /** The actions planned for a custom resource: the common config map, then the nodes' objects in the prescribed
      order. */
  datatype Plan = Plan(common: Content, actions: seq<Action>)

  /** The pass up to the end of the node loop. */
  function NodeLoop(env: Env, h: Hasher, cr: Cr, plan: Plan, w: World): Pass {
    var p := FinalizerBlock(env, cr, Step(env, h, false, false, Pass(w, {}, Going), Ensure(plan.common)));
    Steps(env, h, cr.spec.rollingDeploy, cr.generation > 1, p, plan.actions)
  }

  /** `deployDruidCluster`; `plan` is `None` when some node's type is unknown. */
  function Deploy(env: Env, h: Hasher, cr: Cr, plan: Option<Plan>, w: World): Pass {
    if cr.spec.ignored || !cr.spec.valid || plan.None? then Pass(w, {}, Skipped)
    else Tail(env, cr, NodeLoop(env, h, cr, plan.value, w))
  }
}
