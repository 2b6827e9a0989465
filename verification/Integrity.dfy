/** Referential integrity: no workload of the resource is ever stored without its config maps and governing service,
    in any intermediate state of a pass. */
module Integrity {
  import opened Cluster
  import opened ApiServer
  import opened Reconcile
  import opened Frames
  import opened Upserts
  import opened Prune
  import opened Rolling
  import opened Rollout
  import opened Strings
  import opened Calls

  /** A workload in the resource's namespace that carries its labels. */
  predicate Mine(cr: Cr, objs: map<Key, Obj>, k: Key) {
    IsWorkloadKind(k.kind) && Matches(objs, k, k.kind, cr.ns, DruidLabels(cr.name))
  }

  /** The kinds that workloads refer to, in the resource's namespace. */
  predicate Referable(cr: Cr, k: Key) {
    (k.kind.ConfigMap? || k.kind.Service?) && k.ns == cr.ns
  }

  ghost predicate Intact(cr: Cr, objs: map<Key, Obj>) {
    forall k :: k in objs && Mine(cr, objs, k) ==> Refs(k, objs[k].body) <= objs.Keys
  }

  /** Every store state logged between the two worlds, and the last one, is intact. */
  ghost predicate IntactThrough(cr: Cr, a: World, b: World) {
    && a.log <= b.log && Intact(cr, b.objs)
    && forall i :: |a.log| <= i < |b.log| ==> Intact(cr, b.log[i].after)
  }

  lemma ThroughTrans(cr: Cr, a: World, b: World, c: World)
    requires IntactThrough(cr, a, b) && IntactThrough(cr, b, c)
    ensures IntactThrough(cr, a, c)
  {
    hide Intact;
    forall i | |a.log| <= i < |c.log| ensures Intact(cr, c.log[i].after) {
      if i < |b.log| {
        assert c.log[i] == b.log[i];
      }
    }
  }

  // ---------- what others may do ----------

  /** Others do not remove config maps or services of the namespace and do not write workloads under the resource's
      labels. Anything else may happen: pods, claims and other objects come and go, objects of other resources are
      written, workloads are removed, relabelled away, rescaled, report status; the spec is edited, deletion
      requested. */
  predicate Harmless(cr: Cr, f: Foreign) {
    match f
    case Put(k, o) => !(IsWorkloadKind(k.kind) && k.ns == cr.ns && Selects(DruidLabels(cr.name), o.labels))
    case Remove(k) => !Referable(cr, k)
    case _ => true
  }

  ghost predicate HarmlessAround(cr: Cr, env: Env) {
    forall n: nat, i: nat :: i < |env(n).writes| ==> Harmless(cr, env(n).writes[i])
  }

  /** No referable object was lost, and every workload of the resource was there before, with the same body and hash. */
  ghost predicate Spared(cr: Cr, a: map<Key, Obj>, b: map<Key, Obj>) {
    && (forall k :: k in a && Referable(cr, k) ==> k in b)
    && (forall k :: k in b && Mine(cr, b, k) ==>
          k in a && Mine(cr, a, k) && b[k].body == a[k].body && b[k].hash == a[k].hash)
  }

  lemma SparedTrans(cr: Cr, a: map<Key, Obj>, b: map<Key, Obj>, c: map<Key, Obj>)
    requires Spared(cr, a, b) && Spared(cr, b, c)
    ensures Spared(cr, a, c)
  {
    hide Mine;
  }

  lemma SparedIntact(cr: Cr, a: map<Key, Obj>, b: map<Key, Obj>)
    requires Spared(cr, a, b) && Intact(cr, a)
    ensures Intact(cr, b)
  {
    forall k | k in b && Mine(cr, b, k) ensures Refs(k, b[k].body) <= b.Keys {
      assert Mine(cr, a, k);
    }
  }

  lemma ApplySpares(cr: Cr, w: World, f: Foreign)
    requires Harmless(cr, f)
    ensures Spared(cr, w.objs, Apply(w, f).objs)
  {
    hide Selects, DruidLabels;
  }

  lemma {:induction false} ApplyAllSpares(cr: Cr, w: World, fs: seq<Foreign>)
    requires forall i :: 0 <= i < |fs| ==> Harmless(cr, fs[i])
    ensures Spared(cr, w.objs, ApplyAll(w, fs).objs)
    decreases |fs|
  {
    hide Apply, Harmless, Spared;
    if fs != [] {
      ApplySpares(cr, w, fs[0]);
      ApplyAllSpares(cr, Apply(w, fs[0]), fs[1..]);
      SparedTrans(cr, w.objs, Apply(w, fs[0]).objs, ApplyAll(w, fs).objs);
    } else {
      SparedSelf(cr, w.objs);
    }
  }

  lemma SparedSelf(cr: Cr, a: map<Key, Obj>)
    ensures Spared(cr, a, a)
  {
  }

  lemma ArriveSpares(env: Env, cr: Cr, w: World)
    requires HarmlessAround(cr, env)
    ensures Spared(cr, w.objs, Arrive(env, w).objs) && Arrive(env, w).log == w.log
  {
    ApplyAllSpares(cr, w, env(w.tick).writes);
    ArriveLog(env, w);
  }

  // ---------- calls that spare ----------

  /** Nothing logged between the worlds lost a referable object or brought or changed a workload of the resource. */
  ghost predicate SparedThrough(cr: Cr, a: World, b: World) {
    && a.log <= b.log && Spared(cr, a.objs, b.objs)
    && forall i :: |a.log| <= i < |b.log| ==> Spared(cr, a.objs, b.log[i].after)
  }

  lemma SparedThroughTrans(cr: Cr, a: World, b: World, c: World)
    requires SparedThrough(cr, a, b) && SparedThrough(cr, b, c)
    ensures SparedThrough(cr, a, c)
  {
    hide Spared;
    SparedTrans(cr, a.objs, b.objs, c.objs);
    forall i | |a.log| <= i < |c.log| ensures Spared(cr, a.objs, c.log[i].after) {
      if i < |b.log| {
        assert c.log[i] == b.log[i];
      } else {
        SparedTrans(cr, a.objs, b.objs, c.log[i].after);
      }
    }
  }

  lemma SparedThroughIntact(cr: Cr, a: World, b: World)
    requires SparedThrough(cr, a, b) && Intact(cr, a.objs)
    ensures IntactThrough(cr, a, b)
  {
    hide Spared, Intact;
    SparedIntact(cr, a.objs, b.objs);
    forall i | |a.log| <= i < |b.log| ensures Intact(cr, b.log[i].after) {
      SparedIntact(cr, a.objs, b.log[i].after);
    }
  }

  lemma ExecObjs(env: Env, h: Hasher, w: World, call: Call)
    requires !call.Make? && !call.Replace?
    ensures var v, q := Arrive(env, w), Exec(env, h, w, call);
            && v.log == w.log && w.log <= q.log
            && (q.objs == v.objs || (call.Erase? && q.objs == v.objs - {call.key}))
            && forall i :: |w.log| <= i < |q.log| ==> q.log[i].after == q.objs
  {
    hide ApplyAll, Enumerates;
    ArriveLog(env, w);
  }

  /** Every call but a create, an update, and the delete of a config map or a service spares. */
  lemma ExecSpares(env: Env, h: Hasher, cr: Cr, w: World, call: Call)
    requires HarmlessAround(cr, env) && !call.Make? && !call.Replace?
    requires call.Erase? ==> !call.key.kind.ConfigMap? && !call.key.kind.Service?
    ensures SparedThrough(cr, w, Exec(env, h, w, call))
  {
    hide HarmlessAround, Arrive, Spared, Exec;
    var v := Arrive(env, w);
    var q := Exec(env, h, w, call);
    ArriveSpares(env, cr, w);
    ExecObjs(env, h, w, call);
    if call.Erase? {
      EraseSpares(cr, v.objs, call.key);
    }
    SparedSelf(cr, v.objs);
    SparedTrans(cr, w.objs, v.objs, q.objs);
  }

  lemma EraseSpares(cr: Cr, a: map<Key, Obj>, k: Key)
    requires !k.kind.ConfigMap? && !k.kind.Service?
    ensures Spared(cr, a, a - {k})
  {
  }

  lemma ReadSpares(env: Env, cr: Cr, w: World, k: Key, checking: bool)
    requires HarmlessAround(cr, env)
    ensures var (v, r) := Fetch(env, w, k);
            SparedThrough(cr, w, Log(v, if checking then Checked(k, r) else Got(k, r)))
  {
    ExecSpares(env, (c: Content) => "", cr, w, Read(k, checking));
  }

  lemma DeleteSpares(env: Env, cr: Cr, w: World, k: Key)
    requires HarmlessAround(cr, env) && !k.kind.ConfigMap? && !k.kind.Service?
    ensures SparedThrough(cr, w, Delete(env, w, k).0)
  {
    ExecSpares(env, (c: Content) => "", cr, w, Erase(k));
  }

  lemma ListSpares(env: Env, cr: Cr, w: World, kind: Kind, sel: Labels)
    requires HarmlessAround(cr, env)
    ensures SparedThrough(cr, w, List(env, w, kind, cr.ns, sel).0)
    ensures var items := List(env, w, kind, cr.ns, sel).1;
            items.Some? ==> forall k :: k in items.value ==> k.kind == kind
  {
    ExecSpares(env, (c: Content) => "", cr, w, Enumerate(kind, cr.ns, sel));
    var (w1, items) := List(env, w, kind, cr.ns, sel);
    if items.Some? {
      forall k | k in items.value ensures k.kind == kind {
        assert Matches(w1.objs, k, kind, cr.ns, sel);
      }
    }
  }

  lemma {:induction false} DeleteAllSpares(env: Env, cr: Cr, w: World, keys: seq<Key>)
    requires HarmlessAround(cr, env) && forall k :: k in keys ==> !k.kind.ConfigMap? && !k.kind.Service?
    ensures SparedThrough(cr, w, DeleteAll(env, w, keys).0)
    decreases |keys|
  {
    hide HarmlessAround, Delete, SparedThrough;
    if keys == [] {
      SparedThroughSelf(cr, w);
    } else {
      var (w1, ok) := Delete(env, w, keys[0]);
      DeleteSpares(env, cr, w, keys[0]);
      if ok {
        DeleteAllSpares(env, cr, w1, keys[1..]);
        SparedThroughTrans(cr, w, w1, DeleteAll(env, w, keys).0);
      }
    }
  }

  lemma SparedThroughSelf(cr: Cr, w: World)
    ensures SparedThrough(cr, w, w)
  {
  }

  lemma ExecuteFinalizersSpares(env: Env, cr: Cr, w: World)
    requires HarmlessAround(cr, env)
    ensures SparedThrough(cr, w, ExecuteFinalizers(env, cr, w).0)
  {
    hide HarmlessAround, List, DeleteAll, UpdateCr, SparedThrough;
    SparedThroughSelf(cr, w);
    if FINALIZER_NAME in cr.finalizers {
      var (w1, pvcs) := List(env, w, PersistentVolumeClaim, cr.ns, map["druid_cr" := cr.name]);
      ListSpares(env, cr, w, PersistentVolumeClaim, map["druid_cr" := cr.name]);
      var (w2, sets) := List(env, w1, StatefulSet, cr.ns, DruidLabels(cr.name));
      ListSpares(env, cr, w1, StatefulSet, DruidLabels(cr.name));
      SparedThroughTrans(cr, w, w1, w2);
      if pvcs.Some? && sets.Some? {
        var w3 := DeleteAll(env, w2, sets.value + pvcs.value).0;
        DeleteAllSpares(env, cr, w2, sets.value + pvcs.value);
        SparedThroughTrans(cr, w, w2, w3);
        var fs := Without(cr.finalizers, FINALIZER_NAME);
        ExecSpares(env, (c: Content) => "", cr, w3, WriteCr(cr, fs));
        SparedThroughTrans(cr, w, w3, UpdateCr(env, w3, cr, fs).0);
      }
    }
  }

  lemma FinalizerBlockSpares(env: Env, cr: Cr, p: Pass)
    requires HarmlessAround(cr, env)
    ensures SparedThrough(cr, p.w, FinalizerBlock(env, cr, p).w)
  {
    hide HarmlessAround, ExecuteFinalizers, FetchCr, UpdateCr, SparedThrough;
    SparedThroughSelf(cr, p.w);
    if p.flow.Going? && !cr.spec.disablePvcFinalizer {
      if cr.deleting {
        ExecuteFinalizersSpares(env, cr, p.w);
      } else {
        var w1 := FetchCr(env, p.w).0;
        var fs := cr.finalizers + [FINALIZER_NAME];
        ExecSpares(env, (c: Content) => "", cr, p.w, ReadCr);
        ExecSpares(env, (c: Content) => "", cr, w1, WriteCr(cr, fs));
        SparedThroughTrans(cr, p.w, w1, UpdateCr(env, w1, cr, fs).0);
      }
    }
  }

  lemma CollectSpares(env: Env, cr: Cr, w: World)
    requires HarmlessAround(cr, env)
    ensures SparedThrough(cr, w, CollectOrphans(env, cr, w))
  {
    hide HarmlessAround, List, DeleteAll, SparedThrough, MountedPvc, Unmounted;
    SparedThroughSelf(cr, w);
    if cr.spec.deleteOrphanPvc {
      var (w1, pods) := List(env, w, Pod, cr.ns, DruidLabels(cr.name));
      ListSpares(env, cr, w, Pod, DruidLabels(cr.name));
      if pods.Some? {
        var (w2, pvcs) := List(env, w1, PersistentVolumeClaim, cr.ns, map["druid_cr" := cr.name]);
        ListSpares(env, cr, w1, PersistentVolumeClaim, map["druid_cr" := cr.name]);
        SparedThroughTrans(cr, w, w1, w2);
        if pvcs.Some? {
          var doomed := Unmounted(pvcs.value, MountedPvc(w1.objs, pods.value));
          UnmountedSubset(pvcs.value, MountedPvc(w1.objs, pods.value));
          DeleteAllSpares(env, cr, w2, doomed);
          SparedThroughTrans(cr, w, w2, DeleteAll(env, w2, doomed).0);
        }
      }
    }
  }

  lemma ReportSpares(env: Env, cr: Cr, w: World, survivors: seq<seq<string>>)
    requires HarmlessAround(cr, env) && |survivors| == 7
    ensures SparedThrough(cr, w, ReportStatus(env, cr, w, survivors))
  {
    hide HarmlessAround, List, SparedThrough, NeedsPatch, PatchStatus;
    var (w1, pods) := List(env, w, Pod, cr.ns, DruidLabels(cr.name));
    ListSpares(env, cr, w, Pod, DruidLabels(cr.name));
    ExecSpares(env, (c: Content) => "", cr, w1, PatchCr(StatusOf(survivors, pods)));
    SparedThroughTrans(cr, w, w1, PatchStatus(env, w1, StatusOf(survivors, pods)));
  }

  // ---------- the upserts ----------

  /** Writing `c` is safe: it is no workload of the namespace, or everything it refers to is stored. */
  predicate Supported(cr: Cr, objs: map<Key, Obj>, c: Content) {
    IsWorkloadKind(c.key.kind) && c.key.ns == cr.ns ==> Refs(c.key, c.body) <= objs.Keys
  }

  lemma SparedSupported(cr: Cr, a: map<Key, Obj>, b: map<Key, Obj>, c: Content)
    requires Spared(cr, a, b) && Supported(cr, a, c)
    ensures Supported(cr, b, c)
  {
  }

  /** What an upsert of `c` may do to a store, up to harmless steps of others: set the object to `c`, or nothing. */
  ghost predicate Put1(cr: Cr, h: Hasher, a: map<Key, Obj>, b: map<Key, Obj>, c: Content) {
    && (forall k :: k in a && Referable(cr, k) ==> k in b)
    && (forall k :: k in b && k != c.key && Mine(cr, b, k) ==>
          k in a && Mine(cr, a, k) && b[k].body == a[k].body && b[k].hash == a[k].hash)
    && (c.key in b && Mine(cr, b, c.key) ==>
          || (c.key in a && Mine(cr, a, c.key) && b[c.key].body == a[c.key].body && b[c.key].hash == a[c.key].hash)
          || (b[c.key].body == c.body && b[c.key].hash == h(c)))
  }

  lemma Put1Intact(cr: Cr, h: Hasher, a: map<Key, Obj>, b: map<Key, Obj>, c: Content)
    requires Put1(cr, h, a, b, c) && Intact(cr, a) && Supported(cr, a, c)
    ensures Intact(cr, b)
  {
    forall k | k in b && Mine(cr, b, k) ensures Refs(k, b[k].body) <= b.Keys {
    }
  }

  /** One create or update, with what it did. */
  ghost predicate Wrote1(cr: Cr, h: Hasher, a: World, b: World, c: Content, ok: bool) {
    && a.log <= b.log && |b.log| == |a.log| + 1 && b.log[|a.log|].after == b.objs
    && Put1(cr, h, a.objs, b.objs, c)
    && (ok ==> c.key in b.objs && b.objs[c.key].body == c.body && b.objs[c.key].hash == h(c))
  }

  lemma WriteOne(cr: Cr, h: Hasher, a: map<Key, Obj>, v: map<Key, Obj>, c: Content, o: Obj)
    requires Spared(cr, a, v) && o.body == c.body && o.hash == h(c)
    ensures Put1(cr, h, a, v[c.key := o], c) && Put1(cr, h, a, v, c)
  {
  }

  lemma CreateWrites1(env: Env, cr: Cr, h: Hasher, w: World, c: Content)
    requires HarmlessAround(cr, env)
    ensures var (w1, ok) := Create(env, w, c, h(c)); Wrote1(cr, h, w, w1, c, ok)
  {
    hide HarmlessAround, Arrive, Spared, Put1;
    ArriveSpares(env, cr, w);
    var v := Arrive(env, w);
    var ip := if c.key.kind.Service? then env(w.tick).ip else "";
    WriteOne(cr, h, w.objs, v.objs, c, Written(c, h(c), v.version + 1, ip, "", ""));
  }

  lemma UpdateWrites1(env: Env, cr: Cr, h: Hasher, w: World, c: Content, base: nat, ip: string)
    requires HarmlessAround(cr, env)
    ensures var (w1, ok) := Update(env, w, c, h(c), base, ip); Wrote1(cr, h, w, w1, c, ok)
  {
    hide HarmlessAround, Arrive, Spared, Put1;
    ArriveSpares(env, cr, w);
    var v := Arrive(env, w);
    var (current, target) := if c.key in v.objs then (v.objs[c.key].current, v.objs[c.key].target) else ("", "");
    WriteOne(cr, h, w.objs, v.objs, c, Written(c, h(c), v.version + 1, ip, current, target));
  }

  /** What a successful upsert found or left: the planned hash, and, if it is the resource's own workload whose hash is
      honest, the planned body. */
  ghost predicate Honest1(cr: Cr, h: Hasher, objs: map<Key, Obj>, c: Content) {
    c.key in objs && Mine(cr, objs, c.key) && objs[c.key].hash == h(c) ==> objs[c.key].body == c.body
  }

  ghost predicate Settled1(cr: Cr, objs: map<Key, Obj>, c: Content) {
    c.key in objs && Mine(cr, objs, c.key) ==> objs[c.key].body == c.body
  }

  lemma SparedHonest(cr: Cr, h: Hasher, a: map<Key, Obj>, b: map<Key, Obj>, c: Content)
    requires Spared(cr, a, b)
    ensures Honest1(cr, h, a, c) ==> Honest1(cr, h, b, c)
    ensures Settled1(cr, a, c) ==> Settled1(cr, b, c)
  {
  }

  lemma Put1Honest(cr: Cr, h: Hasher, a: map<Key, Obj>, b: map<Key, Obj>, d: Content, c: Content)
    requires Put1(cr, h, a, b, d) && (d.key == c.key ==> d == c)
    ensures Honest1(cr, h, a, c) ==> Honest1(cr, h, b, c)
    ensures Settled1(cr, a, c) ==> Settled1(cr, b, c)
  {
  }

  /** One upsert: integrity through it, what is stored stays stored, and success leaves the object as planned. */
  lemma UpsertIntact(env: Env, h: Hasher, cr: Cr, w: World, c: Content)
    requires HarmlessAround(cr, env) && Intact(cr, w.objs) && Supported(cr, w.objs, c)
    ensures var (w2, st) := Upsert(env, h, w, c);
            && IntactThrough(cr, w, w2)
            && (forall k :: k in w.objs && Referable(cr, k) ==> k in w2.objs)
            && (!st.UpsertFailed? && Referable(cr, c.key) ==> c.key in w2.objs)
  {
    hide HarmlessAround, Create, Update, Intact, Mine, Refs;
    var (w1, r) := Fetch(env, w, c.key);
    var w2 := Log(w1, Got(c.key, r));
    ReadSpares(env, cr, w, c.key, false);
    SparedThroughIntact(cr, w, w2);
    SparedSupported(cr, w.objs, w2.objs, c);
    match r
    case Broken =>
    case NotFound =>
      CreateWrites1(env, cr, h, w2, c);
      WroteThrough(cr, h, w, w2, Upsert(env, h, w, c).0, c);
    case Found(prev) =>
      if prev.hash != h(c) {
        UpdateWrites1(env, cr, h, w2, c, prev.version, if c.key.kind.Service? then prev.clusterIP else "");
        WroteThrough(cr, h, w, w2, Upsert(env, h, w, c).0, c);
      }
  }

  lemma WroteThrough(cr: Cr, h: Hasher, w: World, w2: World, w3: World, c: Content)
    requires IntactThrough(cr, w, w2) && Supported(cr, w2.objs, c)
    requires w2.log <= w3.log && |w3.log| == |w2.log| + 1 && w3.log[|w2.log|].after == w3.objs
    requires Put1(cr, h, w2.objs, w3.objs, c)
    ensures IntactThrough(cr, w, w3)
  {
    hide Intact, Put1, Supported;
    Put1Intact(cr, h, w2.objs, w3.objs, c);
    ThroughTrans(cr, w, w2, w3);
  }

  /** One upsert and honesty: what was honest stays so, and success settles the object. */
  lemma UpsertHonest(env: Env, h: Hasher, cr: Cr, w: World, d: Content, c: Content)
    requires HarmlessAround(cr, env) && (d.key == c.key ==> d == c)
    ensures var (w2, st) := Upsert(env, h, w, d);
            && (Honest1(cr, h, w.objs, c) ==> Honest1(cr, h, w2.objs, c))
            && (Settled1(cr, w.objs, c) ==> Settled1(cr, w2.objs, c))
            && (Honest1(cr, h, w.objs, c) && d == c && !st.UpsertFailed? ==> Settled1(cr, w2.objs, c))
  {
    hide HarmlessAround, Create, Update, Mine;
    var (w1, r) := Fetch(env, w, d.key);
    var w2 := Log(w1, Got(d.key, r));
    ReadSpares(env, cr, w, d.key, false);
    SparedHonest(cr, h, w.objs, w2.objs, c);
    match r
    case Broken =>
    case NotFound =>
      CreateWrites1(env, cr, h, w2, d);
      Put1Honest(cr, h, w2.objs, Upsert(env, h, w, d).0.objs, d, c);
    case Found(prev) =>
      if prev.hash != h(d) {
        UpdateWrites1(env, cr, h, w2, d, prev.version, if d.key.kind.Service? then prev.clusterIP else "");
        Put1Honest(cr, h, w2.objs, Upsert(env, h, w, d).0.objs, d, c);
      }
  }

  lemma StepIntact(env: Env, h: Hasher, gating: bool, checking: bool, cr: Cr, p: Pass, a: Action)
    requires HarmlessAround(cr, env) && Intact(cr, p.w.objs) && Supported(cr, p.w.objs, a.content)
    ensures var q := Step(env, h, gating, checking, p, a);
            && IntactThrough(cr, p.w, q.w)
            && (forall k :: k in p.w.objs && Referable(cr, k) ==> k in q.w.objs)
            && (q.flow.Going? && Referable(cr, a.content.key) ==> a.content.key in q.w.objs)
  {
    hide HarmlessAround, Upsert, Intact, Mine, Refs, Supported;
    if p.flow.Going? {
      UpsertIntact(env, h, cr, p.w, a.content);
      var w1 := Upsert(env, h, p.w, a.content).0;
      ReadSpares(env, cr, w1, a.content.key, true);
      SparedThroughIntact(cr, w1, CheckDeployed(env, w1, a.content.key).0);
      ThroughTrans(cr, p.w, w1, CheckDeployed(env, w1, a.content.key).0);
    }
  }

  lemma StepHonest(env: Env, h: Hasher, gating: bool, checking: bool, cr: Cr, p: Pass, a: Action, c: Content)
    requires HarmlessAround(cr, env) && (a.content.key == c.key ==> a.content == c)
    ensures var q := Step(env, h, gating, checking, p, a);
            && (Honest1(cr, h, p.w.objs, c) ==> Honest1(cr, h, q.w.objs, c))
            && (Settled1(cr, p.w.objs, c) ==> Settled1(cr, q.w.objs, c))
            && (Honest1(cr, h, p.w.objs, c) && a.content == c && q.flow.Going? ==> Settled1(cr, q.w.objs, c))
  {
    hide HarmlessAround, Upsert, Mine, Honest1, Settled1;
    if p.flow.Going? {
      UpsertHonest(env, h, cr, p.w, a.content, c);
      var w1 := Upsert(env, h, p.w, a.content).0;
      ReadSpares(env, cr, w1, a.content.key, true);
      SparedHonest(cr, h, w1.objs, CheckDeployed(env, w1, a.content.key).0.objs, c);
    }
  }

  /** A sequence that was not left early settled each of its honest contents. */
  lemma {:induction false} StepsHonest(env: Env, h: Hasher, gating: bool, checking: bool, cr: Cr, p: Pass,
                                       actions: seq<Action>, c: Content)
    requires HarmlessAround(cr, env) && forall a :: a in actions && a.content.key == c.key ==> a.content == c
    ensures var q := Steps(env, h, gating, checking, p, actions);
            && (Settled1(cr, p.w.objs, c) ==> Settled1(cr, q.w.objs, c))
            && (Honest1(cr, h, p.w.objs, c) && q.flow.Going? && (exists a :: a in actions && a.content == c) ==>
                  Settled1(cr, q.w.objs, c))
    decreases |actions|
  {
    hide HarmlessAround, Step, Honest1, Settled1;
    if actions != [] {
      var p1 := Step(env, h, gating, checking, p, actions[0]);
      StepHonest(env, h, gating, checking, cr, p, actions[0], c);
      StepsHonest(env, h, gating, checking, cr, p1, actions[1..], c);
      StepsNames(env, h, gating, checking, p1, actions[1..]);
      assert actions == [actions[0]] + actions[1..];
    }
  }

  /** Each workload refers only to objects in `given` or planned before it. */
  ghost predicate RefsPlanned(given: set<Key>, actions: seq<Action>) {
    forall i :: 0 <= i < |actions| && actions[i].Gate? ==>
      Refs(actions[i].content.key, actions[i].content.body) <= given + Keys(actions[..i])
  }

  /** The recorded names of referable kinds are stored. */
  ghost predicate Stored1(cr: Cr, objs: map<Key, Obj>, names: set<Key>) {
    forall k :: k in names && Referable(cr, k) ==> k in objs
  }

  lemma PlannedSupported(cr: Cr, objs: map<Key, Obj>, given: set<Key>, actions: seq<Action>)
    requires actions != [] && RefsPlanned(given, actions) && Stored1(cr, objs, given)
    requires actions[0].Gate? <==> IsWorkloadKind(actions[0].content.key.kind)
    ensures Supported(cr, objs, actions[0].content)
  {
    assert actions[..0] == [];
  }

  lemma {:induction false} StepsIntact(env: Env, h: Hasher, gating: bool, checking: bool, cr: Cr, p: Pass,
                                       actions: seq<Action>, given: set<Key>)
    requires HarmlessAround(cr, env) && Intact(cr, p.w.objs) && Stored1(cr, p.w.objs, given)
    requires RefsPlanned(given, actions)
    requires forall a :: a in actions ==> (a.Gate? <==> IsWorkloadKind(a.content.key.kind))
    ensures IntactThrough(cr, p.w, Steps(env, h, gating, checking, p, actions).w)
    decreases |actions|
  {
    hide HarmlessAround, Step, Intact, RefsPlanned;
    if actions == [] || !p.flow.Going? {
      StepsHalt(env, h, gating, checking, p, actions);
    } else {
      var p1 := Step(env, h, gating, checking, p, actions[0]);
      PlannedSupported(cr, p.w.objs, given, actions);
      StepIntact(env, h, gating, checking, cr, p, actions[0]);
      if p1.flow.Going? {
        RefsPlannedShift(given, actions);
        StepsIntact(env, h, gating, checking, cr, p1, actions[1..], given + {actions[0].content.key});
      } else {
        StepsHalted(env, h, gating, checking, p1, actions[1..]);
      }
      ThroughTrans(cr, p.w, p1.w, Steps(env, h, gating, checking, p, actions).w);
    }
  }

  lemma RefsPlannedShift(given: set<Key>, actions: seq<Action>)
    requires actions != [] && RefsPlanned(given, actions)
    ensures RefsPlanned(given + {actions[0].content.key}, actions[1..])
  {
    forall i | 0 <= i < |actions| - 1 && actions[1..][i].Gate?
      ensures Refs(actions[1..][i].content.key, actions[1..][i].content.body)
           <= given + {actions[0].content.key} + Keys(actions[1..][..i])
    {
      assert actions[1..][i] == actions[i + 1];
      assert actions[..i + 1] == [actions[0]] + actions[1..][..i];
      assert Keys(actions[..i + 1]) == {actions[0].content.key} + Keys(actions[1..][..i]);
    }
  }

  // ---------- pruning ----------

  /** Everything the resource's workloads refer to is among the recorded names. */
  ghost predicate Guarded(cr: Cr, objs: map<Key, Obj>, names: set<Key>) {
    forall k :: k in objs && Mine(cr, objs, k) ==> Refs(k, objs[k].body) <= names
  }

  /** The same for the workloads that bear a recorded name. */
  ghost predicate NamedGuarded(cr: Cr, objs: map<Key, Obj>, names: set<Key>) {
    forall k :: k in objs && Mine(cr, objs, k) && k in names ==> Refs(k, objs[k].body) <= names
  }

  /** The resource has no workload of the kind but those of recorded names. */
  ghost predicate Cleared(cr: Cr, objs: map<Key, Obj>, names: set<Key>, kind: Kind) {
    forall k :: k in objs && Mine(cr, objs, k) && k.kind == kind ==> k in names
  }

  lemma SparedGuarded(cr: Cr, a: map<Key, Obj>, b: map<Key, Obj>, names: set<Key>)
    requires Spared(cr, a, b)
    ensures Guarded(cr, a, names) ==> Guarded(cr, b, names)
    ensures NamedGuarded(cr, a, names) ==> NamedGuarded(cr, b, names)
    ensures forall kind :: Cleared(cr, a, names, kind) ==> Cleared(cr, b, names, kind)
  {
    hide Refs;
  }

  /** The lists of workloads answered, and a workload whose delete was called is not stored afterwards. */
  ghost predicate WorkloadsGo(a: World, b: World) {
    a.log <= b.log && forall i :: |a.log| <= i < |b.log| ==> WorkloadGone(b.log[i])
  }

  predicate WorkloadGone(e: Entry) {
    && (e.event.Deleted? && IsWorkloadKind(e.event.key.kind) ==> e.event.key !in e.after)
    && (e.event.Listed? && IsWorkloadKind(e.event.kind) ==> e.event.ok)
  }

  lemma GoSplit(a: World, b: World, c: World)
    requires WorkloadsGo(a, c) && a.log <= b.log <= c.log
    ensures WorkloadsGo(a, b) && WorkloadsGo(b, c)
  {
    hide WorkloadGone;
    forall i | |a.log| <= i < |b.log| ensures WorkloadGone(b.log[i]) {
      assert c.log[i] == b.log[i];
    }
  }

  lemma GoneStays1(cr: Cr, a: map<Key, Obj>, b: map<Key, Obj>, k: Key)
    requires Spared(cr, a, b) && !(k in a && Mine(cr, a, k))
    ensures !(k in b && Mine(cr, b, k))
  {
  }

  /** After the loop over listed workloads none of them is left but those of recorded names. */
  lemma {:induction false} PruneItemsClear(env: Env, cr: Cr, names: set<Key>, w: World, items: seq<Key>)
    requires HarmlessAround(cr, env) && forall k :: k in items ==> IsWorkloadKind(k.kind)
    ensures var w1 := PruneItems(env, names, w, items).0;
            && SparedThrough(cr, w, w1)
            && (WorkloadsGo(w, w1) ==> forall k :: k in items && k in w1.objs && Mine(cr, w1.objs, k) ==> k in names)
    decreases |items|
  {
    hide HarmlessAround, Delete, Mine, Spared;
    if items == [] {
      SparedThroughSelf(cr, w);
    } else if items[0] in names {
      PruneItemsClear(env, cr, names, w, items[1..]);
    } else {
      var w1 := Delete(env, w, items[0]).0;
      var w2 := PruneItems(env, names, w, items).0;
      DeleteSpares(env, cr, w, items[0]);
      DeleteLog(env, w, items[0]);
      DeletedAfter(env, w, items[0]);
      PruneItemsClear(env, cr, names, w1, items[1..]);
      SparedThroughTrans(cr, w, w1, w2);
      if WorkloadsGo(w, w2) {
        GoSplit(w, w1, w2);
        assert WorkloadGone(w1.log[|w.log|]);
        GoneStays1(cr, w1.objs, w2.objs, items[0]);
      }
    }
  }

  lemma DeletedAfter(env: Env, w: World, k: Key)
    ensures var w1 := Delete(env, w, k).0; |w1.log| > |w.log| && w1.log[|w.log|].after == w1.objs
  {
    ArriveLog(env, w);
  }

  lemma ListLogged(env: Env, w: World, kind: Kind, ns: string, sel: Labels)
    ensures var (w1, items) := List(env, w, kind, ns, sel);
            && w.log <= w1.log && |w1.log| == |w.log| + 1
            && w1.log[|w.log|].event == Listed(kind, if items.Some? then items.value else [], items.Some?)
            && (items.Some? ==> Enumerates(items.value, w1.objs, kind, ns, sel))
  {
    ArriveLog(env, w);
  }

  lemma {:induction false} PruneItemsExtend(env: Env, names: set<Key>, w: World, items: seq<Key>)
    ensures w.log <= PruneItems(env, names, w, items).0.log
  {
    PruneItemsLog(env, names, w, items);
  }

  /** Pruning a workload kind leaves the resource only workloads of recorded names, if its list answers and its deletes
      take effect. */
  lemma PruneKindClears(env: Env, cr: Cr, names: set<Key>, w: World, kind: Kind)
    requires HarmlessAround(cr, env) && IsWorkloadKind(kind)
    ensures var w1 := PruneKind(env, cr, names, w, kind).0;
            SparedThrough(cr, w, w1) && (WorkloadsGo(w, w1) ==> Cleared(cr, w1.objs, names, kind))
  {
    hide HarmlessAround, List, PruneItems, Spared, Matches, Enumerates;
    var (w1, items) := List(env, w, kind, cr.ns, DruidLabels(cr.name));
    var w2 := PruneKind(env, cr, names, w, kind).0;
    ListSpares(env, cr, w, kind, DruidLabels(cr.name));
    ListLogged(env, w, kind, cr.ns, DruidLabels(cr.name));
    assert WorkloadGone(w1.log[|w.log|]) ==> items.Some?;
    if items.Some? {
      PruneItemsClear(env, cr, names, w1, items.value);
      PruneItemsExtend(env, names, w1, items.value);
      SparedThroughTrans(cr, w, w1, w2);
      if WorkloadsGo(w, w2) {
        GoSplit(w, w1, w2);
        forall k | k in w2.objs && Mine(cr, w2.objs, k) && k.kind == kind ensures k in names {
          ListedMine(cr, w1.objs, w2.objs, kind, items.value, k);
        }
      }
    }
  }

  lemma ListedMine(cr: Cr, a: map<Key, Obj>, b: map<Key, Obj>, kind: Kind, items: seq<Key>, k: Key)
    requires Spared(cr, a, b) && Enumerates(items, a, kind, cr.ns, DruidLabels(cr.name))
    requires k in b && Mine(cr, b, k) && k.kind == kind
    ensures k in items
  {
    assert Matches(a, k, kind, cr.ns, DruidLabels(cr.name));
  }

  lemma DeleteIntact(env: Env, cr: Cr, names: set<Key>, w: World, k: Key)
    requires HarmlessAround(cr, env) && Intact(cr, w.objs) && Guarded(cr, w.objs, names) && k !in names
    ensures var w1 := Delete(env, w, k).0; IntactThrough(cr, w, w1) && Guarded(cr, w1.objs, names)
  {
    hide HarmlessAround, Arrive, Mine, Refs;
    ArriveSpares(env, cr, w);
    var v := Arrive(env, w);
    SparedIntact(cr, w.objs, v.objs);
    SparedGuarded(cr, w.objs, v.objs, names);
    ErasedIntact(cr, v.objs, names, k);
  }

  lemma ErasedIntact(cr: Cr, v: map<Key, Obj>, names: set<Key>, k: Key)
    requires Intact(cr, v) && Guarded(cr, v, names) && k !in names
    ensures Intact(cr, v - {k}) && Guarded(cr, v - {k}, names)
  {
    forall x | x in v - {k} && Mine(cr, v - {k}, x)
      ensures Refs(x, v[x].body) <= names && Refs(x, v[x].body) <= (v - {k}).Keys
    {
      assert Mine(cr, v, x);
    }
  }

  lemma {:induction false} PruneItemsIntact(env: Env, cr: Cr, names: set<Key>, w: World, items: seq<Key>)
    requires HarmlessAround(cr, env) && Intact(cr, w.objs) && Guarded(cr, w.objs, names)
    ensures var w1 := PruneItems(env, names, w, items).0; IntactThrough(cr, w, w1) && Guarded(cr, w1.objs, names)
    decreases |items|
  {
    hide HarmlessAround, Delete, Intact, Guarded;
    if items != [] {
      if items[0] in names {
        PruneItemsIntact(env, cr, names, w, items[1..]);
      } else {
        var w1 := Delete(env, w, items[0]).0;
        DeleteIntact(env, cr, names, w, items[0]);
        PruneItemsIntact(env, cr, names, w1, items[1..]);
        ThroughTrans(cr, w, w1, PruneItems(env, names, w, items).0);
      }
    }
  }

  lemma {:induction false} PruneKindsIntact(env: Env, cr: Cr, names: set<Key>, w: World, kinds: seq<Kind>)
    requires HarmlessAround(cr, env) && Intact(cr, w.objs) && Guarded(cr, w.objs, names)
    ensures IntactThrough(cr, w, PruneKinds(env, cr, names, w, kinds).0)
    decreases |kinds|
  {
    hide HarmlessAround, List, PruneItems, Intact, Guarded;
    if kinds != [] {
      var (w1, items) := List(env, w, kinds[0], cr.ns, DruidLabels(cr.name));
      var w2 := PruneKind(env, cr, names, w, kinds[0]).0;
      ListSpares(env, cr, w, kinds[0], DruidLabels(cr.name));
      SparedThroughIntact(cr, w, w1);
      SparedGuarded(cr, w.objs, w1.objs, names);
      if items.Some? {
        PruneItemsIntact(env, cr, names, w1, items.value);
        ThroughTrans(cr, w, w1, w2);
      }
      PruneKindsIntact(env, cr, names, w2, kinds[1..]);
      ThroughTrans(cr, w, w2, PruneKinds(env, cr, names, w, kinds).0);
    }
  }

  lemma PruneUnfold(env: Env, cr: Cr, names: set<Key>, w: World)
    ensures var w1 := PruneKind(env, cr, names, w, StatefulSet).0;
            var w2 := PruneKind(env, cr, names, w1, Deployment).0;
            PruneKinds(env, cr, names, w, PRUNED).0 == PruneKinds(env, cr, names, w2, PRUNED[2..]).0
  {
    assert PRUNED[0] == StatefulSet && PRUNED[1..][0] == Deployment && PRUNED[1..][1..] == PRUNED[2..];
  }

  lemma ClearedGuarded(cr: Cr, objs: map<Key, Obj>, names: set<Key>)
    requires NamedGuarded(cr, objs, names) && Cleared(cr, objs, names, StatefulSet)
    requires Cleared(cr, objs, names, Deployment)
    ensures Guarded(cr, objs, names)
  {
    hide Refs;
  }

  /** The prune deletes workloads before what they refer to. */
  lemma PruneAllIntact(env: Env, cr: Cr, names: set<Key>, w: World)
    requires HarmlessAround(cr, env) && Intact(cr, w.objs) && NamedGuarded(cr, w.objs, names)
    requires WorkloadsGo(w, PruneKinds(env, cr, names, w, PRUNED).0)
    ensures IntactThrough(cr, w, PruneKinds(env, cr, names, w, PRUNED).0)
  {
    hide HarmlessAround, PruneKind, PruneKinds, Intact, NamedGuarded, Cleared, Guarded, WorkloadGone;
    var w1 := PruneKind(env, cr, names, w, StatefulSet).0;
    var w2 := PruneKind(env, cr, names, w1, Deployment).0;
    var w3 := PruneKinds(env, cr, names, w, PRUNED).0;
    PruneUnfold(env, cr, names, w);
    PruneKindClears(env, cr, names, w, StatefulSet);
    PruneKindClears(env, cr, names, w1, Deployment);
    PruneKindsLog(env, cr, names, w2, PRUNED[2..]);
    GoSplit(w, w1, w3);
    GoSplit(w1, w2, w3);
    SparedGuarded(cr, w.objs, w1.objs, names);
    SparedGuarded(cr, w1.objs, w2.objs, names);
    ClearedGuarded(cr, w2.objs, names);
    SparedThroughTrans(cr, w, w1, w2);
    SparedThroughIntact(cr, w, w2);
    PruneKindsIntact(env, cr, names, w2, PRUNED[2..]);
    ThroughTrans(cr, w, w2, w3);
  }

  // ---------- the node loop ----------

  /** A stored workload of the resource that bears the hash of the planned one has its body: the annotation is
      honest. */
  ghost predicate Honest(cr: Cr, h: Hasher, objs: map<Key, Obj>, actions: seq<Action>) {
    forall a :: a in actions && a.Gate? ==> Honest1(cr, h, objs, a.content)
  }

  lemma GateSettled(env: Env, h: Hasher, cr: Cr, plan: Plan, w: World, a: Action)
    requires HarmlessAround(cr, env) && WellFormed(plan) && GatesDistinct(plan.actions)
    requires a in plan.actions && a.Gate? && Honest1(cr, h, w.objs, a.content)
    requires NodeLoop(env, h, cr, plan, w).flow.Going?
    ensures Settled1(cr, NodeLoop(env, h, cr, plan, w).w.objs, a.content)
  {
    hide HarmlessAround, Step, Steps, FinalizerBlock, Honest1, Settled1, Spared, GatesDistinct;
    var p0 := Pass(w, {}, Going);
    var p1 := Step(env, h, false, false, p0, Ensure(plan.common));
    var p2 := FinalizerBlock(env, cr, p1);
    StepHonest(env, h, false, false, cr, p0, Ensure(plan.common), a.content);
    FinalizerBlockSpares(env, cr, p1);
    SparedHonest(cr, h, p1.w.objs, p2.w.objs, a.content);
    forall b | b in plan.actions && b.content.key == a.content.key ensures b.content == a.content {
      GateUnique(plan, a, b);
    }
    StepsHonest(env, h, cr.spec.rollingDeploy, cr.generation > 1, cr, p2, plan.actions, a.content);
  }

  lemma NodeLoopGuards(env: Env, h: Hasher, cr: Cr, plan: Plan, w: World)
    requires HarmlessAround(cr, env) && Honest(cr, h, w.objs, plan.actions)
    requires WellFormed(plan) && GatesDistinct(plan.actions) && RefsPlanned({plan.common.key}, plan.actions)
    requires NodeLoop(env, h, cr, plan, w).flow.Going?
    ensures var p := NodeLoop(env, h, cr, plan, w); NamedGuarded(cr, p.w.objs, p.names)
  {
    hide HarmlessAround, NodeLoop, Refs, Honest1, GatesDistinct, Mine;
    var p := NodeLoop(env, h, cr, plan, w);
    NotFinalizing(env, h, cr, plan, w);
    NamesOfMandate(cr, plan, w);
    forall k | k in p.w.objs && Mine(cr, p.w.objs, k) && k in p.names
      ensures Refs(k, p.w.objs[k].body) <= p.names
    {
      MineIsWorkload(cr, p.w.objs, k);
      var i :| 0 <= i < |plan.actions| && plan.actions[i].content.key == k;
      assert plan.actions[i] in plan.actions;
      GateSettled(env, h, cr, plan, w, plan.actions[i]);
      assert Keys(plan.actions[..i]) <= Keys(plan.actions);
    }
  }

  lemma MineIsWorkload(cr: Cr, objs: map<Key, Obj>, k: Key)
    requires Mine(cr, objs, k)
    ensures IsWorkloadKind(k.kind)
  {
  }

  lemma NodeLoopIntact(env: Env, h: Hasher, cr: Cr, plan: Plan, w: World)
    requires HarmlessAround(cr, env) && Intact(cr, w.objs)
    requires WellFormed(plan) && RefsPlanned({plan.common.key}, plan.actions)
    ensures IntactThrough(cr, w, NodeLoop(env, h, cr, plan, w).w)
  {
    hide HarmlessAround, Step, Steps, Intact, RefsPlanned, ExecuteFinalizers, AddFinalizer, Mine;
    var p0 := Pass(w, {}, Going);
    var p1 := Step(env, h, false, false, p0, Ensure(plan.common));
    var p2 := FinalizerBlock(env, cr, p1);
    StepIntact(env, h, false, false, cr, p0, Ensure(plan.common));
    FinalizerBlockSpares(env, cr, p1);
    SparedThroughIntact(cr, p1.w, p2.w);
    ThroughTrans(cr, w, p1.w, p2.w);
    if p1.flow.Going? {
      StepsIntact(env, h, cr.spec.rollingDeploy, cr.generation > 1, cr, p2, plan.actions, {plan.common.key});
    } else {
      StepsHalted(env, h, cr.spec.rollingDeploy, cr.generation > 1, p2, plan.actions);
    }
    ThroughTrans(cr, w, p2.w, NodeLoop(env, h, cr, plan, w).w);
  }

  // ---------- main result ----------

  lemma TailIntact(env: Env, cr: Cr, p: Pass)
    requires HarmlessAround(cr, env) && p.flow.Going? && Intact(cr, p.w.objs) && NamedGuarded(cr, p.w.objs, p.names)
    requires WorkloadsGo(p.w, Tail(env, cr, p).w)
    ensures IntactThrough(cr, p.w, Tail(env, cr, p).w)
  {
    hide HarmlessAround, CollectOrphans, PruneKinds, ReportStatus, Intact, NamedGuarded, Spared, WorkloadGone;
    var w1 := CollectOrphans(env, cr, p.w);
    var (w2, s) := PruneKinds(env, cr, p.names, w1, PRUNED);
    var w3 := ReportStatus(env, cr, w2, s);
    CollectSpares(env, cr, p.w);
    SparedThroughIntact(cr, p.w, w1);
    SparedGuarded(cr, p.w.objs, w1.objs, p.names);
    PruneKindsLog(env, cr, p.names, w1, PRUNED);
    ReportLog(env, cr, w2, s);
    GoSplit(p.w, w1, w3);
    GoSplit(w1, w2, w3);
    PruneAllIntact(env, cr, p.names, w1);
    ThroughTrans(cr, p.w, w1, w2);
    ReportSpares(env, cr, w2, s);
    SparedThroughIntact(cr, w2, w3);
    ThroughTrans(cr, p.w, w2, w3);
  }

  lemma TailExtends(env: Env, cr: Cr, p: Pass)
    ensures p.w.log <= Tail(env, cr, p).w.log
  {
    TailLog(env, cr, p);
  }

  /** When others do not remove config maps and services, do not write the resource's own workloads, and the prune's
      lists and deletes of workloads take effect, no other interference and no other failure, in whatever call and at
      whatever point it ends the pass, lets a store state appear in which a workload of the resource lacks one of its
      config maps or its governing service. */
  lemma PassKeepsIntegrity(env: Env, h: Hasher, cr: Cr, plan: Plan, w: World)
    requires HarmlessAround(cr, env) && Intact(cr, w.objs) && Honest(cr, h, w.objs, plan.actions)
    requires WellFormed(plan) && GatesDistinct(plan.actions) && RefsPlanned({plan.common.key}, plan.actions)
    requires WorkloadsGo(w, Deploy(env, h, cr, Some(plan), w).w)
    ensures IntactThrough(cr, w, Deploy(env, h, cr, Some(plan), w).w)
  {
    hide HarmlessAround, NodeLoop, Tail, Intact, Honest, GatesDistinct, RefsPlanned, WorkloadGone;
    if !cr.spec.ignored && cr.spec.valid {
      var p := NodeLoop(env, h, cr, plan, w);
      NodeLoopIntact(env, h, cr, plan, w);
      if p.flow.Going? {
        NodeLoopGuards(env, h, cr, plan, w);
        TailExtends(env, cr, p);
        GoSplit(w, p.w, Tail(env, cr, p).w);
        TailIntact(env, cr, p);
        ThroughTrans(cr, w, p.w, Tail(env, cr, p).w);
      } else {
        TailHalted(env, cr, p);
      }
    }
  }
}
