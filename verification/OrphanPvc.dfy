/** The orphan-claim collector: safe, and complete. */
module OrphanPvc {
  import opened Cluster
  import opened ApiServer
  import opened Reconcile
  import opened Frames
  import opened Prune
  import opened Finalizer

  /** Some listed pod mounts the claim. */
  ghost predicate Mounts(objs: map<Key, Obj>, pods: seq<Key>, claim: string) {
    exists k :: k in pods && k in objs && objs[k].body.PodBody? && Some(claim) in objs[k].body.claims
  }

  lemma {:induction false} AddClaimsExact(mounted: seq<string>, claims: seq<Option<string>>, n: string)
    ensures n in AddClaims(mounted, claims) <==> n in mounted || Some(n) in claims
    decreases |claims|
  {
    if claims != [] {
      assert claims == [claims[0]] + claims[1..];
      AddClaimsExact(if claims[0].Some? && claims[0].value !in mounted then mounted + [claims[0].value] else mounted,
                     claims[1..], n);
    }
  }

  lemma {:induction false} CollectClaimsExact(objs: map<Key, Obj>, mounted: seq<string>, pods: seq<Key>, n: string)
    ensures n in CollectClaims(objs, mounted, pods) <==> n in mounted || Mounts(objs, pods, n)
    decreases |pods|
  {
    if pods != [] {
      assert pods == [pods[0]] + pods[1..];
      var k := pods[0];
      var has := k in objs && objs[k].body.PodBody?;
      var next := if has then AddClaims(mounted, objs[k].body.claims) else mounted;
      CollectClaimsExact(objs, next, pods[1..], n);
      if has {
        AddClaimsExact(mounted, objs[k].body.claims, n);
      }
      if Mounts(objs, pods, n) && !Mounts(objs, pods[1..], n) {
        var x :| x in pods && x in objs && objs[x].body.PodBody? && Some(n) in objs[x].body.claims;
        assert x == k;
      }
    }
  }

  /** The mounted names are the claims of the listed pods and, as the list starts as one empty string per pod, the
      empty name when there is a pod. */
  lemma MountedExact(objs: map<Key, Obj>, pods: seq<Key>, n: string)
    ensures n in MountedPvc(objs, pods) <==> Mounts(objs, pods, n) || (n == "" && pods != [])
  {
    var blank := seq(|pods|, i => "");
    assert n in blank <==> n == "" && pods != [] by {
      if pods != [] {
        assert blank[0] == "";
      }
    }
    CollectClaimsExact(objs, blank, pods, n);
  }

  /** The claims to delete: listed, and mounted by no listed pod. */
  function Orphans(objs: map<Key, Obj>, pods: seq<Key>, pvcs: seq<Key>): seq<Key> {
    Unmounted(pvcs, MountedPvc(objs, pods))
  }

  lemma OrphansExact(objs: map<Key, Obj>, pods: seq<Key>, pvcs: seq<Key>, k: Key)
    ensures k in Orphans(objs, pods, pvcs) <==>
            k in pvcs && !Mounts(objs, pods, k.name) && !(k.name == "" && pods != [])
  {
    UnmountedSubset(pvcs, MountedPvc(objs, pods));
    MountedExact(objs, pods, k.name);
  }

  /** What the collector logs when both lists succeed on healthy pods: the lists, then deletes of the orphans, in
      list order, all of them unless one fails. */
  ghost predicate DeletesOrphans(tape: seq<Event>, head: seq<Event>, orphans: seq<Key>) {
    || tape == head + AllDeleted(orphans)
    || exists m: nat :: m < |orphans| && tape == head + (AllDeleted(orphans[..m]) + [Deleted(orphans[m], false)])
  }

  /** Everything the collector may log, by the outcome of its two lists; `objs` is the store at the pod list. */
  ghost predicate CollectorLog(tape: seq<Event>, objs: map<Key, Obj>, pods: Option<seq<Key>>, pvcs: Option<seq<Key>>) {
    if pods.None? then tape == [Listed(Pod, [], false)]
    else if pvcs.None? then tape == [Listed(Pod, pods.value, true), Listed(PersistentVolumeClaim, [], false)]
    else
      var head := [Listed(Pod, pods.value, true), Listed(PersistentVolumeClaim, pvcs.value, true)];
      if AllRun(objs, pods.value) then DeletesOrphans(tape, head, Orphans(objs, pods.value, pvcs.value))
      else tape == head
  }

  /** Every listed object is a pod that is running, and none of its conditions is other than true. */
  predicate AllRun(objs: map<Key, Obj>, pods: seq<Key>) {
    forall k :: k in pods && k in objs ==>
      objs[k].body.PodBody? && objs[k].body.running && false !in objs[k].body.conditions
  }

  lemma HealthyIffRun(objs: map<Key, Obj>, pods: seq<Key>)
    ensures AllHealthy(objs, pods) <==> AllRun(objs, pods)
  {
    forall k | k in pods && k in objs
      ensures PodHealthy(objs[k])
              <==> objs[k].body.PodBody? && objs[k].body.running && false !in objs[k].body.conditions
    {
    }
  }

  lemma DeletesOrphansTape(env: Env, w: World, w2: World, head: seq<Event>, orphans: seq<Key>)
    requires w.log <= w2.log && Tape(w, w2) == head
    ensures var w3 := DeleteAll(env, w2, orphans).0; w.log <= w3.log && DeletesOrphans(Tape(w, w3), head, orphans)
  {
    DeleteAllTape(env, w2, orphans);
    TapeTrans(w, w2, DeleteAll(env, w2, orphans).0);
  }

  /** Safe and complete, under any interference and any failures: nothing is deleted unless both lists succeeded and
      every listed pod is running with all conditions true; then exactly the listed claims that no listed pod mounts
      are deleted, in order, up to the first failure. */
  lemma CollectorExact(env: Env, cr: Cr, w: World)
    ensures var (w1, pods) := List(env, w, Pod, cr.ns, DruidLabels(cr.name));
            var pvcs := List(env, w1, PersistentVolumeClaim, cr.ns, map["druid_cr" := cr.name]).1;
            var end := DeleteOrphanPvc(env, cr, w);
            w.log <= end.log && CollectorLog(Tape(w, end), w1.objs, pods, pvcs)
  {
    hide List, DeleteAll, AllHealthy, AllRun, MountedPvc, Unmounted;
    var (w1, pods) := List(env, w, Pod, cr.ns, DruidLabels(cr.name));
    ListTape(env, w, Pod, cr.ns, DruidLabels(cr.name));
    if pods.Some? {
      var (w2, pvcs) := List(env, w1, PersistentVolumeClaim, cr.ns, map["druid_cr" := cr.name]);
      ListTape(env, w1, PersistentVolumeClaim, cr.ns, map["druid_cr" := cr.name]);
      TapeTrans(w, w1, w2);
      HealthyIffRun(w1.objs, pods.value);
      if pvcs.Some? && AllHealthy(w1.objs, pods.value) {
        DeletesOrphansTape(env, w, w2, Tape(w, w2), Orphans(w1.objs, pods.value, pvcs.value));
      }
    }
  }

  /** One listed pod that is not running, or has a condition that is not true, keeps the collector from deleting. */
  lemma UnhealthyPodStops(env: Env, cr: Cr, w: World, k: Key)
    requires var (w1, pods) := List(env, w, Pod, cr.ns, DruidLabels(cr.name));
             && pods.Some? && k in pods.value && k in w1.objs
             && (!w1.objs[k].body.PodBody? || !w1.objs[k].body.running || false in w1.objs[k].body.conditions)
    ensures var end := DeleteOrphanPvc(env, cr, w); Adds(w, end, NotDelete)
  {
    hide List, DeleteAll, AllHealthy, MountedPvc, Unmounted;
    var (w1, pods) := List(env, w, Pod, cr.ns, DruidLabels(cr.name));
    HealthyIffRun(w1.objs, pods.value);
    var w2 := List(env, w1, PersistentVolumeClaim, cr.ns, map["druid_cr" := cr.name]).0;
    ListReadsOnly(env, w, Pod, cr.ns, DruidLabels(cr.name));
    ListReadsOnly(env, w1, PersistentVolumeClaim, cr.ns, map["druid_cr" := cr.name]);
    AddsTrans(w, w1, w2, NotDelete);
  }

  lemma ListReadsOnly(env: Env, w: World, kind: Kind, ns: string, sel: Labels)
    ensures Adds(w, List(env, w, kind, ns, sel).0, NotDelete)
  {
    ArriveLog(env, w);
  }

  /** No claim mounted by a listed pod is ever deleted. */
  lemma MountedClaimsSurvive(env: Env, cr: Cr, w: World, k: Key)
    requires var (w1, pods) := List(env, w, Pod, cr.ns, DruidLabels(cr.name));
             pods.Some? && Mounts(w1.objs, pods.value, k.name)
    ensures var end := DeleteOrphanPvc(env, cr, w);
            w.log <= end.log && forall ok :: Deleted(k, ok) !in Tape(w, end)
  {
    CollectorExact(env, cr, w);
    var (w1, pods) := List(env, w, Pod, cr.ns, DruidLabels(cr.name));
    var (w2, pvcs) := List(env, w1, PersistentVolumeClaim, cr.ns, map["druid_cr" := cr.name]);
    if pvcs.Some? {
      var orphans := Orphans(w1.objs, pods.value, pvcs.value);
      OrphansExact(w1.objs, pods.value, pvcs.value, k);
      forall m: nat | m <= |orphans| ensures forall ok :: Deleted(k, ok) !in AllDeleted(orphans[..m]) {
      }
      assert orphans[..|orphans|] == orphans;
    }
  }

  /** With no pod listed, every listed claim counts as orphaned. */
  lemma NoPodsNoMounts(objs: map<Key, Obj>, pvcs: seq<Key>)
    ensures Orphans(objs, [], pvcs) == pvcs
  {
    assert MountedPvc(objs, []) == [];
    NothingMounted(pvcs);
  }

  lemma {:induction false} NothingMounted(pvcs: seq<Key>)
    ensures Unmounted(pvcs, []) == pvcs
    decreases |pvcs|
  {
    if pvcs != [] {
      NothingMounted(pvcs[1..]);
    }
  }

  /** Under drift, a collector run whose calls succeed on healthy pods removes exactly the orphans from the store. */
  lemma CollectorRemoves(env: Env, cr: Cr, w: World, w1: World, pods: seq<Key>, w2: World, pvcs: seq<Key>, k: Key)
    requires Drifting(env) && k in w.objs
    requires List(env, w, Pod, cr.ns, DruidLabels(cr.name)) == (w1, Some(pods))
    requires List(env, w1, PersistentVolumeClaim, cr.ns, map["druid_cr" := cr.name]) == (w2, Some(pvcs))
    requires AllHealthy(w1.objs, pods) && DeleteAll(env, w2, Orphans(w1.objs, pods, pvcs)).1
    ensures k !in DeleteOrphanPvc(env, cr, w).objs <==>
              IsOrphanCandidate(cr, w.objs, k) && !Mounts(w1.objs, pods, k.name) && !(k.name == "" && pods != [])
  {
    ListReads(env, w, Pod, cr.ns, DruidLabels(cr.name));
    ListReads(env, w1, PersistentVolumeClaim, cr.ns, map["druid_cr" := cr.name]);
    ListedClaim(cr, w, w2, pvcs, k);
    var orphans := Orphans(w1.objs, pods, pvcs);
    OrphansExact(w1.objs, pods, pvcs, k);
    DeleteAllReduces(env, w2, orphans);
    assert DeleteOrphanPvc(env, cr, w) == DeleteAll(env, w2, orphans).0;
  }

  lemma ListedClaim(cr: Cr, w: World, w2: World, pvcs: seq<Key>, k: Key)
    requires SameObjs(w.objs, w2.objs) && k in w.objs
    requires Enumerates(pvcs, w2.objs, PersistentVolumeClaim, cr.ns, map["druid_cr" := cr.name])
    ensures k in pvcs <==> IsOrphanCandidate(cr, w.objs, k)
  {
    assert Matches(w2.objs, k, PersistentVolumeClaim, cr.ns, map["druid_cr" := cr.name])
      <==> Matches(w.objs, k, PersistentVolumeClaim, cr.ns, map["druid_cr" := cr.name]);
  }
}
