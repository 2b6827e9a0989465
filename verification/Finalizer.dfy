/** The finalizer protocol of a pass. */
module Finalizer {
  import opened Cluster
  import opened ApiServer
  import opened Reconcile
  import opened Frames
  import opened Prune
  import opened Strings
  import opened Upserts
  import opened Calls

  // ---------- the log of the finalizer code ----------

  /** The events logged between two worlds. */
  function Tape(a: World, b: World): seq<Event>
    requires |a.log| <= |b.log|
  {
    seq(|b.log| - |a.log|, i requires 0 <= i < |b.log| - |a.log| => b.log[|a.log| + i].event)
  }

  lemma TapeTrans(a: World, b: World, c: World)
    requires a.log <= b.log <= c.log
    ensures Tape(a, c) == Tape(a, b) + Tape(b, c)
  {
    assert forall i :: 0 <= i < |b.log| ==> b.log[i] == c.log[i];
  }

  /** Successful deletes of `keys`, in order. */
  function AllDeleted(keys: seq<Key>): seq<Event> {
    seq(|keys|, i requires 0 <= i < |keys| => Deleted(keys[i], true))
  }

  lemma {:induction false} DeleteAllTape(env: Env, w: World, keys: seq<Key>)
    ensures var (w1, ok) := DeleteAll(env, w, keys);
            && w.log <= w1.log
            && (ok ==> Tape(w, w1) == AllDeleted(keys))
            && (!ok ==> exists m: nat :: m < |keys| && Tape(w, w1) == AllDeleted(keys[..m]) + [Deleted(keys[m], false)])
    decreases |keys|
  {
    hide Delete;
    if keys != [] {
      var (w1, ok) := Delete(env, w, keys[0]);
      DeleteLog(env, w, keys[0]);
      assert Tape(w, w1) == [Deleted(keys[0], ok)];
      var (w2, all) := DeleteAll(env, w, keys);
      if ok {
        DeleteAllTape(env, w1, keys[1..]);
        TapeTrans(w, w1, w2);
        if all {
          assert AllDeleted(keys) == [Deleted(keys[0], true)] + AllDeleted(keys[1..]);
        } else {
          var m: nat :| m < |keys[1..]| && Tape(w1, w2) == AllDeleted(keys[1..][..m]) + [Deleted(keys[1..][m], false)];
          assert AllDeleted(keys[..m + 1]) == [Deleted(keys[0], true)] + AllDeleted(keys[1..][..m]);
          assert Tape(w, w2) == AllDeleted(keys[..m + 1]) + [Deleted(keys[m + 1], false)];
        }
      } else {
        assert Tape(w, w2) == AllDeleted(keys[..0]) + [Deleted(keys[0], false)];
      }
    }
  }

  /** A finalizer run that got through: both lists, every listed StatefulSet deleted, then every listed claim deleted,
      then the write of the finalizer list. */
  function CleanUpTape(sets: seq<Key>, pvcs: seq<Key>, fs: seq<string>, ok: bool): seq<Event> {
    [Listed(PersistentVolumeClaim, pvcs, true), Listed(StatefulSet, sets, true)]
    + AllDeleted(sets + pvcs) + [CrUpdated(fs, ok)]
  }

  /** A finalizer run that stopped at a failing delete. */
  function StoppedTape(sets: seq<Key>, pvcs: seq<Key>, m: nat): seq<Event>
    requires m < |sets| + |pvcs|
  {
    [Listed(PersistentVolumeClaim, pvcs, true), Listed(StatefulSet, sets, true)]
    + AllDeleted((sets + pvcs)[..m]) + [Deleted((sets + pvcs)[m], false)]
  }

  ghost predicate CleanedUp(tape: seq<Event>, fs: seq<string>) {
    exists sets: seq<Key>, pvcs: seq<Key>, ok: bool :: tape == CleanUpTape(sets, pvcs, fs, ok) && OfKinds(sets, pvcs)
  }

  ghost predicate StoppedCleaning(tape: seq<Event>) {
    exists sets: seq<Key>, pvcs: seq<Key>, m: nat ::
      m < |sets| + |pvcs| && tape == StoppedTape(sets, pvcs, m) && OfKinds(sets, pvcs)
  }

  predicate OfKinds(sets: seq<Key>, pvcs: seq<Key>) {
    (forall k :: k in sets ==> k.kind.StatefulSet?) && (forall k :: k in pvcs ==> k.kind.PersistentVolumeClaim?)
  }

  /** Every possible log of the finalizer code, with the result it goes with. The finalizer list is written only
      after all listed StatefulSets and then all listed claims were deleted successfully; a failing list or delete
      ends the run before that; success is reported exactly when the write succeeded. */
  ghost predicate FinalizerLog(tape: seq<Event>, fs: seq<string>, flow: Flow) {
    || (flow.Failed? && tape == [Listed(PersistentVolumeClaim, [], false)])
    || (flow.Failed? && ListFailed(tape))
    || (flow.Failed? && StoppedCleaning(tape))
    || (CleanedUp(tape, fs) && flow == if tape[|tape| - 1].ok then Finalized else Failed)
  }

  ghost predicate ListFailed(tape: seq<Event>) {
    exists pvcs: seq<Key> :: tape == [Listed(PersistentVolumeClaim, pvcs, true), Listed(StatefulSet, [], false)]
  }

  lemma UpdateCrTape(env: Env, w: World, base: Cr, fs: seq<string>)
    ensures var (w1, done) := UpdateCr(env, w, base, fs); w.log <= w1.log && Tape(w, w1) == [CrUpdated(fs, done)]
  {
    ArriveLog(env, w);
  }

  lemma DeletesTape(env: Env, w: World, w2: World, sets: seq<Key>, pvcs: seq<Key>)
    requires w.log <= w2.log && OfKinds(sets, pvcs)
    requires Tape(w, w2) == [Listed(PersistentVolumeClaim, pvcs, true), Listed(StatefulSet, sets, true)]
    ensures var (w3, ok) := DeleteAll(env, w2, sets + pvcs);
            && w.log <= w3.log
            && (!ok ==> StoppedCleaning(Tape(w, w3)))
            && (ok ==> Tape(w, w3) == Tape(w, w2) + AllDeleted(sets + pvcs))
  {
    var keys := sets + pvcs;
    var (w3, ok) := DeleteAll(env, w2, keys);
    DeleteAllTape(env, w2, keys);
    TapeTrans(w, w2, w3);
    if !ok {
      var m: nat :| m < |keys| && Tape(w2, w3) == AllDeleted(keys[..m]) + [Deleted(keys[m], false)];
      assert Tape(w, w3) == StoppedTape(sets, pvcs, m);
    }
  }

  lemma WriteTape(env: Env, cr: Cr, w: World, w3: World, sets: seq<Key>, pvcs: seq<Key>, fs: seq<string>)
    requires w.log <= w3.log && OfKinds(sets, pvcs)
    requires Tape(w, w3)
          == [Listed(PersistentVolumeClaim, pvcs, true), Listed(StatefulSet, sets, true)] + AllDeleted(sets + pvcs)
    ensures var (w4, done) := UpdateCr(env, w3, cr, fs);
            w.log <= w4.log && CleanedUp(Tape(w, w4), fs) && Tape(w, w4)[|Tape(w, w4)| - 1] == CrUpdated(fs, done)
  {
    var (w4, done) := UpdateCr(env, w3, cr, fs);
    UpdateCrTape(env, w3, cr, fs);
    TapeTrans(w, w3, w4);
    assert Tape(w, w4) == CleanUpTape(sets, pvcs, fs, done);
  }

  lemma FinalizerTape(env: Env, cr: Cr, w: World)
    requires FINALIZER_NAME in cr.finalizers
    ensures var (w1, flow) := ExecuteFinalizers(env, cr, w);
            w.log <= w1.log && FinalizerLog(Tape(w, w1), Without(cr.finalizers, FINALIZER_NAME), flow)
  {
    var (w1, pvcs) := List(env, w, PersistentVolumeClaim, cr.ns, map["druid_cr" := cr.name]);
    ListTape(env, w, PersistentVolumeClaim, cr.ns, map["druid_cr" := cr.name]);
    if pvcs.Some? {
      var (w2, sets) := List(env, w1, StatefulSet, cr.ns, DruidLabels(cr.name));
      ListTape(env, w1, StatefulSet, cr.ns, DruidLabels(cr.name));
      TapeTrans(w, w1, w2);
      if sets.Some? {
        DeletesTape(env, w, w2, sets.value, pvcs.value);
        var (w3, ok) := DeleteAll(env, w2, sets.value + pvcs.value);
        if ok {
          WriteTape(env, cr, w, w3, sets.value, pvcs.value, Without(cr.finalizers, FINALIZER_NAME));
        }
      } else {
        assert ListFailed(Tape(w, w2));
      }
    }
  }

  lemma ListTape(env: Env, w: World, kind: Kind, ns: string, sel: Labels)
    ensures var (w1, items) := List(env, w, kind, ns, sel);
            && w.log <= w1.log
            && Tape(w, w1) == [Listed(kind, if items.Some? then items.value else [], items.Some?)]
            && (items.Some? ==> forall k :: k in items.value ==> k.kind == kind)
  {
    ArriveLog(env, w);
    var (w1, items) := List(env, w, kind, ns, sel);
    if items.Some? {
      forall k | k in items.value ensures k.kind == kind {
        assert Matches(w1.objs, k, kind, ns, sel);
      }
    }
  }

  /** No delete of a claim is issued before every listed StatefulSet has been deleted successfully. */
  lemma ClaimsAfterStatefulSets(env: Env, cr: Cr, w: World, t: nat)
    requires FINALIZER_NAME in cr.finalizers
    requires |w.log| <= |ExecuteFinalizers(env, cr, w).0.log|
    requires var tape := Tape(w, ExecuteFinalizers(env, cr, w).0);
             t < |tape| && tape[t].Deleted? && tape[t].key.kind.PersistentVolumeClaim?
    ensures SetsGoneBefore(Tape(w, ExecuteFinalizers(env, cr, w).0), t)
  {
    FinalizerTape(env, cr, w);
    ClaimsLast(Tape(w, ExecuteFinalizers(env, cr, w).0), Without(cr.finalizers, FINALIZER_NAME), t);
  }

  /** Position `t` comes after the successful deletes of all StatefulSets that were listed. */
  ghost predicate SetsGoneBefore(tape: seq<Event>, t: nat) {
    exists sets: seq<Key> :: |sets| + 2 <= t < |tape| && tape[1] == Listed(StatefulSet, sets, true)
                          && tape[2..2 + |sets|] == AllDeleted(sets)
  }

  lemma ClaimsLast(tape: seq<Event>, fs: seq<string>, t: nat)
    requires StoppedCleaning(tape) || CleanedUp(tape, fs) || forall i :: 0 <= i < |tape| ==> tape[i].Listed?
    requires t < |tape| && tape[t].Deleted? && tape[t].key.kind.PersistentVolumeClaim?
    ensures SetsGoneBefore(tape, t)
  {
    if CleanedUp(tape, fs) {
      var sets: seq<Key>, pvcs: seq<Key>, ok: bool :| tape == CleanUpTape(sets, pvcs, fs, ok) && OfKinds(sets, pvcs);
      ClaimPosition(sets, pvcs, |sets| + |pvcs|, tape, t);
    } else {
      var sets: seq<Key>, pvcs: seq<Key>, m: nat :|
        m < |sets| + |pvcs| && tape == StoppedTape(sets, pvcs, m) && OfKinds(sets, pvcs);
      assert tape[2 + m] == Deleted((sets + pvcs)[m], false);
      ClaimPosition(sets, pvcs, m, tape, t);
    }
  }

  lemma ClaimPosition(sets: seq<Key>, pvcs: seq<Key>, m: nat, tape: seq<Event>, t: nat)
    requires m <= |sets| + |pvcs| && |tape| == m + 3 && OfKinds(sets, pvcs)
    requires tape[0].Listed? && tape[1] == Listed(StatefulSet, sets, true)
    requires forall j :: 0 <= j < m ==> tape[2..2 + m][j] == Deleted((sets + pvcs)[j], true)
    requires m < |sets| + |pvcs| ==> tape[2 + m] == Deleted((sets + pvcs)[m], false)
    requires m == |sets| + |pvcs| ==> tape[2 + m].CrUpdated?
    requires t < |tape| && tape[t].Deleted? && tape[t].key.kind.PersistentVolumeClaim?
    ensures |sets| + 2 <= t && tape[2..2 + |sets|] == AllDeleted(sets)
  {
    forall j | 0 <= j < |sets| ensures (sets + pvcs)[j].kind.StatefulSet? {
      assert sets[j] in sets;
    }
    if t < 2 + m {
      assert tape[2..2 + m][t - 2] == tape[t];
    }
    assert tape[t].key == (sets + pvcs)[t - 2];
    forall j | 0 <= j < |sets| ensures tape[2..2 + |sets|][j] == AllDeleted(sets)[j] {
      assert tape[2..2 + m][j] == Deleted((sets + pvcs)[j], true);
    }
  }

  // ---------- adding the finalizer ----------

  /** The operator adds its finalizer only while the stored resource is the very one that Reconcile read, and so live:
      if deletion was requested, or anything else written, at any time since that read, be it during the upsert that
      comes first, the compare-and-swap fails. */
  lemma AddedOnlyWhileLive(env: Env, cr: Cr, w: World)
    requires Versioned(w) && !cr.deleting
    requires w.cr.Some? ==> w.cr == Some(cr) || w.cr.value.version > cr.version
    ensures var (w1, stored, ok) := FetchCr(env, w);
            var met := Arrive(env, w1);
            var w2 := AddFinalizer(env, cr, w).0;
            stored.Some? && FINALIZER_NAME !in cr.finalizers && w2.cr != met.cr ==>
              && met.cr == Some(cr)
              && w2.cr == Some(cr.(finalizers := cr.finalizers + [FINALIZER_NAME], version := met.version + 1))
  {
    ArriveMonotone(env, w);
    ArriveMonotone(env, FetchCr(env, w).0);
    if w.cr.None? {
      GoneStays(w, env(w.tick).writes);
    }
  }

  /** The same at the place where a pass adds it, whatever happened since Reconcile read the resource in world `w`. */
  lemma PassAddsOnlyWhileLive(env: Env, h: Hasher, cr: Cr, plan: Plan, w: World)
    requires Versioned(w) && w.cr == Some(cr) && !cr.deleting
    ensures var p1 := Step(env, h, false, false, Pass(w, {}, Going), Ensure(plan.common));
            var (w1, stored, ok) := FetchCr(env, p1.w);
            var met := Arrive(env, w1);
            var p2 := FinalizerBlock(env, cr, p1);
            (&& p1.flow.Going? && !cr.spec.disablePvcFinalizer && stored.Some? && FINALIZER_NAME !in cr.finalizers
             && p2.w.cr != met.cr) ==>
              && met.cr == Some(cr)
              && p2.w.cr == Some(cr.(finalizers := cr.finalizers + [FINALIZER_NAME], version := met.version + 1))
  {
    hide Step, UpdateCr, Versioned, Leads;
    var p0 := Pass(w, {}, Going);
    var p1 := Step(env, h, false, false, p0, Ensure(plan.common));
    var m := MandateOf(cr, plan, w);
    StepLeads(env, h, m, false, false, p0, Ensure(plan.common));
    LeadsVersioned(env, h, m, w, p1.w);
    StoredVersion(w, p1.w, cr);
    AddedOnlyWhileLive(env, cr, p1.w);
  }

  /** A resource that is gone does not come back. */
  lemma {:induction false} GoneStays(w: World, fs: seq<Foreign>)
    requires w.cr.None?
    ensures ApplyAll(w, fs).cr.None?
    decreases |fs|
  {
    if fs != [] {
      GoneStays(Apply(w, fs[0]), fs[1..]);
    }
  }

  lemma StoredVersion(a: World, b: World, cr: Cr)
    requires Versioned(a) && Monotone(a, b) && a.cr == Some(cr)
    ensures b.cr.Some? ==> b.cr == Some(cr) || b.cr.value.version > cr.version
  {
  }

  // ---------- keeping the finalizer ----------

  ghost predicate NoFinalizerWriter(fs: seq<Foreign>) {
    forall i :: 0 <= i < |fs| ==> !fs[i].SetFinalizers?
  }

  /** Only the operator writes finalizer lists. */
  ghost predicate OnlyOperatorFinalizes(env: Env) {
    forall n: nat :: NoFinalizerWriter(env(n).writes)
  }

  predicate Holds(w: World) {
    w.cr.Some? && FINALIZER_NAME in w.cr.value.finalizers
  }

  lemma {:induction false} ApplyAllHolds(w: World, fs: seq<Foreign>)
    requires NoFinalizerWriter(fs) && Holds(w)
    ensures Holds(ApplyAll(w, fs))
    decreases |fs|
  {
    if fs != [] {
      ApplyAllHolds(Apply(w, fs[0]), fs[1..]);
    }
  }

  lemma ArriveHolds(env: Env, w: World)
    requires OnlyOperatorFinalizes(env) && Holds(w)
    ensures Holds(Arrive(env, w))
  {
    ApplyAllHolds(w, env(w.tick).writes);
  }

  lemma ExecHolds(env: Env, h: Hasher, w: World, call: Call)
    requires OnlyOperatorFinalizes(env) && Holds(w) && (call.WriteCr? ==> FINALIZER_NAME in call.finalizers)
    ensures Holds(Exec(env, h, w, call))
  {
    hide ApplyAll, Enumerates, OnlyOperatorFinalizes;
    ArriveHolds(env, w);
  }

  /** As long as the finalizer code does not delete, permitted calls keep the finalizer. */
  lemma {:induction false} CallsHold(env: Env, h: Hasher, m: Mandate, w: World, calls: seq<Call>)
    requires OnlyOperatorFinalizes(env) && Holds(w) && !Finalizing(m.cr) && Obeys(env, h, m, w, calls)
    ensures Holds(ExecAll(env, h, w, calls))
    decreases |calls|
  {
    hide Exec, OnlyOperatorFinalizes, Holds, Deletable;
    if calls != [] {
      ExecHolds(env, h, w, calls[0]);
      CallsHold(env, h, m, Exec(env, h, w, calls[0]), calls[1..]);
    }
  }

  lemma LeadsHolds(env: Env, h: Hasher, m: Mandate, a: World, b: World)
    requires OnlyOperatorFinalizes(env) && Holds(a) && !Finalizing(m.cr) && Leads(env, h, m, a, b)
    ensures Holds(b)
  {
    hide Obeys, Holds;
    var calls: seq<Call> :| Obeys(env, h, m, a, calls) && ExecAll(env, h, a, calls) == b;
    CallsHold(env, h, m, a, calls);
  }

  lemma {:induction false} DeleteAllHolds(env: Env, w: World, keys: seq<Key>)
    requires OnlyOperatorFinalizes(env) && Holds(w)
    ensures Holds(DeleteAll(env, w, keys).0)
    decreases |keys|
  {
    if keys != [] {
      ArriveHolds(env, w);
      DeleteAllHolds(env, Delete(env, w, keys[0]).0, keys[1..]);
    }
  }

  /** A finalizer-code run that lost the finalizer cleaned up first. */
  lemma ExecuteFinalizersHolds(env: Env, cr: Cr, w: World)
    requires OnlyOperatorFinalizes(env) && Holds(w)
    ensures var w1 := ExecuteFinalizers(env, cr, w).0;
            w.log <= w1.log && (Holds(w1) || CleanedUp(Tape(w, w1), Without(cr.finalizers, FINALIZER_NAME)))
  {
    if FINALIZER_NAME in cr.finalizers {
      FinalizerTape(env, cr, w);
      ArriveHolds(env, w);
      var (w1, pvcs) := List(env, w, PersistentVolumeClaim, cr.ns, map["druid_cr" := cr.name]);
      ArriveHolds(env, w1);
      var (w2, sets) := List(env, w1, StatefulSet, cr.ns, DruidLabels(cr.name));
      if pvcs.Some? && sets.Some? {
        var (w3, ok) := DeleteAll(env, w2, sets.value + pvcs.value);
        DeleteAllHolds(env, w2, sets.value + pvcs.value);
        if ok {
          WrittenMeansCleanedUp(env, cr, w);
        }
      }
    }
  }

  lemma WrittenMeansCleanedUp(env: Env, cr: Cr, w: World)
    requires FINALIZER_NAME in cr.finalizers
    requires var w1 := ExecuteFinalizers(env, cr, w).0; |w1.log| > 0 && w1.log[|w1.log| - 1].event.CrUpdated?
    ensures var w1 := ExecuteFinalizers(env, cr, w).0;
            w.log <= w1.log && CleanedUp(Tape(w, w1), Without(cr.finalizers, FINALIZER_NAME))
  {
    hide ExecuteFinalizers;
    FinalizerTape(env, cr, w);
    var w1 := ExecuteFinalizers(env, cr, w).0;
    var tape := Tape(w, w1);
    assert tape[|tape| - 1] == w1.log[|w1.log| - 1].event;
  }

  /** `b`'s log ends with a complete clean-up for the finalizer list `fs`, begun no earlier than `a`. */
  ghost predicate EndsCleanUp(a: World, b: World, fs: seq<string>) {
    exists v: World :: a.log <= v.log <= b.log && CleanedUp(Tape(v, b), fs)
  }

  /** One pass takes the finalizer off the stored resource only by a clean-up that deleted all it listed. */
  lemma PassKeepsFinalizer(env: Env, h: Hasher, cr: Cr, plan: Option<Plan>, w: World)
    requires OnlyOperatorFinalizes(env) && Holds(w)
    ensures var q := Deploy(env, h, cr, plan, w);
            Holds(q.w) || EndsCleanUp(w, q.w, Without(cr.finalizers, FINALIZER_NAME))
  {
    hide Leads, OnlyOperatorFinalizes, Holds, NodeLoop, Tail, EndsCleanUp;
    if !(cr.spec.ignored || !cr.spec.valid || plan.None?) {
      if Finalizing(cr) {
        FinalizingPass(env, h, cr, plan.value, w);
      } else {
        DeployLeads(env, h, cr, plan.value, w);
        LeadsHolds(env, h, MandateOf(cr, plan.value, w), w, Deploy(env, h, cr, plan, w).w);
      }
    }
  }

  lemma FinalizingPass(env: Env, h: Hasher, cr: Cr, plan: Plan, w: World)
    requires OnlyOperatorFinalizes(env) && Holds(w) && Finalizing(cr)
    ensures var q := Tail(env, cr, NodeLoop(env, h, cr, plan, w)).w;
            Holds(q) || EndsCleanUp(w, q, Without(cr.finalizers, FINALIZER_NAME))
  {
    hide Step, Steps, OnlyOperatorFinalizes, Holds, Tape, CleanedUp, Leads;
    var p0 := Pass(w, {}, Going);
    var p1 := Step(env, h, false, false, p0, Ensure(plan.common));
    var p2 := FinalizerBlock(env, cr, p1);
    var live := MandateOf(cr.(deleting := false), plan, w);
    StepLeads(env, h, live, false, false, p0, Ensure(plan.common));
    LeadsHolds(env, h, live, w, p1.w);
    LogOfStep(env, h, p0, Ensure(plan.common));
    if p1.flow.Going? {
      ExecuteFinalizersHolds(env, cr, p1.w);
      FinalizingStops(env, cr, p1.w);
    }
    StepsHalted(env, h, cr.spec.rollingDeploy, cr.generation > 1, p2, plan.actions);
  }

  lemma FinalizingStops(env: Env, cr: Cr, w: World)
    ensures ExecuteFinalizers(env, cr, w).1.Finalized? || ExecuteFinalizers(env, cr, w).1.Failed?
  {
    if FINALIZER_NAME in cr.finalizers {
      FinalizerTape(env, cr, w);
    }
  }

  // ---------- releasing the finalizer ----------

  predicate ListOk(e: Event) {
    e.Listed? ==> e.ok
  }

  lemma CommonGoes(env: Env, h: Hasher, w: World, c: Content)
    requires Alone(env) && Faultless(env)
    ensures var p1 := Step(env, h, false, false, Pass(w, {}, Going), Ensure(c)); p1.flow.Going? && p1.w.cr == w.cr
  {
    AloneArrives(env, w);
    var (w1, r) := Fetch(env, w, c.key);
    AloneArrives(env, Log(w1, Got(c.key, r)));
  }

  lemma {:induction false} DeleteAllSucceeds(env: Env, w: World, keys: seq<Key>)
    requires Alone(env) && Faultless(env)
    requires (forall i, j :: 0 <= i < j < |keys| ==> keys[i] != keys[j]) && forall k :: k in keys ==> k in w.objs
    ensures DeleteAll(env, w, keys).1 && DeleteAll(env, w, keys).0.cr == w.cr
    decreases |keys|
  {
    if keys != [] {
      AloneArrives(env, w);
      var (w1, ok) := Delete(env, w, keys[0]);
      forall k | k in keys[1..] ensures k in w1.objs {
        var i :| 0 <= i < |keys[1..]| && keys[1..][i] == k;
        assert keys[i + 1] == k;
      }
      DeleteAllSucceeds(env, w1, keys[1..]);
    }
  }

  lemma AloneList(env: Env, w: World, kind: Kind, ns: string, sel: Labels)
    requires Alone(env)
    ensures var (w1, items) := List(env, w, kind, ns, sel);
            && w1.objs == w.objs && w1.cr == w.cr
            && (items.Some? ==> Enumerates(items.value, w.objs, kind, ns, sel))
  {
    AloneArrives(env, w);
  }

  lemma ListedTogether(objs: map<Key, Obj>, sets: seq<Key>, pvcs: seq<Key>, ns: string, a: Labels, b: Labels)
    requires Enumerates(sets, objs, StatefulSet, ns, a) && Enumerates(pvcs, objs, PersistentVolumeClaim, ns, b)
    ensures var keys := sets + pvcs;
            (forall i, j :: 0 <= i < j < |keys| ==> keys[i] != keys[j]) && forall k :: k in keys ==> k in objs
  {
    forall k | k in sets ensures k.kind.StatefulSet? && k in objs {
      assert Matches(objs, k, StatefulSet, ns, a);
    }
    forall k | k in pvcs ensures k.kind.PersistentVolumeClaim? && k in objs {
      assert Matches(objs, k, PersistentVolumeClaim, ns, b);
    }
    var keys := sets + pvcs;
    forall i, j | 0 <= i < j < |keys| ensures keys[i] != keys[j] {
      if i < |sets| <= j {
        assert keys[i] in sets && keys[j] in pvcs;
      }
    }
  }

  lemma WriteReleases(env: Env, cr: Cr, w: World)
    requires Alone(env) && Faultless(env) && w.cr == Some(cr) && cr.deleting && FINALIZER_NAME in cr.finalizers
    ensures !Holds(UpdateCr(env, w, cr, Without(cr.finalizers, FINALIZER_NAME)).0)
  {
    AloneArrives(env, w);
    var fs := Without(cr.finalizers, FINALIZER_NAME);
    forall i | 0 <= i < |fs| ensures fs[i] in cr.finalizers {
      assert multiset(fs)[fs[i]] > 0;
      assert fs[i] != FINALIZER_NAME;
    }
  }

  lemma CleanUpExtends(env: Env, cr: Cr, w: World)
    requires FINALIZER_NAME in cr.finalizers
    ensures var end := ExecuteFinalizers(env, cr, w).0;
            var (w1, pvcs) := List(env, w, PersistentVolumeClaim, cr.ns, map["druid_cr" := cr.name]);
            var (w2, sets) := List(env, w1, StatefulSet, cr.ns, DruidLabels(cr.name));
            w1.log <= end.log && (pvcs.Some? ==> w2.log <= end.log)
  {
    hide UpdateCr, DeleteAll, List, Tape;
    var (w1, pvcs) := List(env, w, PersistentVolumeClaim, cr.ns, map["druid_cr" := cr.name]);
    var (w2, sets) := List(env, w1, StatefulSet, cr.ns, DruidLabels(cr.name));
    ListTape(env, w1, StatefulSet, cr.ns, DruidLabels(cr.name));
    if pvcs.Some? && sets.Some? {
      var keys := sets.value + pvcs.value;
      DeleteAllTape(env, w2, keys);
      UpdateCrTape(env, DeleteAll(env, w2, keys).0, cr, Without(cr.finalizers, FINALIZER_NAME));
    }
  }

  lemma CleanUpReleases(env: Env, cr: Cr, w: World)
    requires Alone(env) && Faultless(env) && w.cr == Some(cr) && cr.deleting && FINALIZER_NAME in cr.finalizers
    requires Adds(w, ExecuteFinalizers(env, cr, w).0, ListOk)
    ensures !Holds(ExecuteFinalizers(env, cr, w).0)
  {
    hide UpdateCr, DeleteAll, List, Enumerates, Holds, Alone, Faultless;
    var end := ExecuteFinalizers(env, cr, w).0;
    CleanUpExtends(env, cr, w);
    var (w1, pvcs) := List(env, w, PersistentVolumeClaim, cr.ns, map["druid_cr" := cr.name]);
    ListTape(env, w, PersistentVolumeClaim, cr.ns, map["druid_cr" := cr.name]);
    AloneList(env, w, PersistentVolumeClaim, cr.ns, map["druid_cr" := cr.name]);
    LastListed(w, w, w1, end, if pvcs.Some? then pvcs.value else [], PersistentVolumeClaim, pvcs.Some?);
    var (w2, sets) := List(env, w1, StatefulSet, cr.ns, DruidLabels(cr.name));
    ListTape(env, w1, StatefulSet, cr.ns, DruidLabels(cr.name));
    AloneList(env, w1, StatefulSet, cr.ns, DruidLabels(cr.name));
    LastListed(w, w1, w2, end, if sets.Some? then sets.value else [], StatefulSet, sets.Some?);
    ListedTogether(w.objs, sets.value, pvcs.value, cr.ns, DruidLabels(cr.name), map["druid_cr" := cr.name]);
    DeleteAllSucceeds(env, w2, sets.value + pvcs.value);
    WriteReleases(env, cr, DeleteAll(env, w2, sets.value + pvcs.value).0);
  }

  /** A list logged in between answered. */
  lemma LastListed(w: World, a: World, b: World, end: World, items: seq<Key>, kind: Kind, ok: bool)
    requires w.log <= a.log <= b.log && Adds(w, end, ListOk) && Tape(a, b) == [Listed(kind, items, ok)]
    requires b.log <= end.log
    ensures ok
  {
    assert b.log[|a.log|] == end.log[|a.log|];
    assert Tape(a, b)[0] == b.log[|a.log|].event;
  }

  /** When no call fails, nobody else writes and the lists answer, a pass on a resource whose deletion is requested
      releases it from the finalizer exactly when the spec is neither ignored nor invalid, all node types are known (a
      plan exists) and the finalizer code is not disabled: an ignored or invalid spec keeps its resource for ever. */
  lemma ReleasedIff(env: Env, h: Hasher, cr: Cr, plan: Option<Plan>, w: World)
    requires Alone(env) && Faultless(env) && w.cr == Some(cr) && cr.deleting && FINALIZER_NAME in cr.finalizers
    requires Adds(w, Deploy(env, h, cr, plan, w).w, ListOk)
    ensures !Holds(Deploy(env, h, cr, plan, w).w) <==>
              !cr.spec.ignored && cr.spec.valid && plan.Some? && !cr.spec.disablePvcFinalizer
  {
    hide Step, Steps, ExecuteFinalizers, Tail, Leads, Alone, Faultless;
    if !cr.spec.ignored && cr.spec.valid && plan.Some? {
      if Finalizing(cr) {
        var p1 := Step(env, h, false, false, Pass(w, {}, Going), Ensure(plan.value.common));
        var p2 := FinalizerBlock(env, cr, p1);
        CommonGoes(env, h, w, plan.value.common);
        LogOfStep(env, h, Pass(w, {}, Going), Ensure(plan.value.common));
        FinalizingStops(env, cr, p1.w);
        FinalizerTape(env, cr, p1.w);
        StepsHalted(env, h, cr.spec.rollingDeploy, cr.generation > 1, p2, plan.value.actions);
        TailHalted(env, cr, p2);
        AddsSplit(w, p1.w, p2.w, ListOk);
        CleanUpReleases(env, cr, p1.w);
      } else {
        DeployLeads(env, h, cr, plan.value, w);
        AloneFinalizes(env);
        LeadsHolds(env, h, MandateOf(cr, plan.value, w), w, Deploy(env, h, cr, plan, w).w);
      }
    }
  }

  lemma AloneFinalizes(env: Env)
    requires Alone(env)
    ensures OnlyOperatorFinalizes(env)
  {
  }
}
