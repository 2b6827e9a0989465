/** What becomes of references when the prune could not delete a workload: the code goes on to its config maps and
    services, and this is exactly when a reference is left dangling. */
module DanglingReferences {
  import opened Cluster
  import opened ApiServer
  import opened Reconcile
  import opened Frames
  import opened Upserts
  import opened Prune
  import opened Rolling
  import opened Rollout
  import opened Calls
  import opened Integrity

  /** Calls for objects of this kind succeeded. */
  predicate KindOk(kind: Kind, e: Event) {
    (e.Deleted? && e.key.kind == kind ==> e.ok) && (e.Listed? && e.kind == kind ==> e.ok)
  }

  predicate OfKindOnly(kind: Kind, e: Event) {
    (e.Deleted? ==> e.key.kind == kind) && (e.Listed? ==> e.kind == kind)
  }

  function OkOf(kind: Kind): Event -> bool {
    e => KindOk(kind, e)
  }

  function OnlyOf(kind: Kind): Event -> bool {
    e => OfKindOnly(kind, e)
  }

  // ---------- the prune of one kind ----------

  lemma {:induction false} PruneItemsOfKind(env: Env, names: set<Key>, w: World, items: seq<Key>, kind: Kind)
    requires forall k :: k in items ==> k.kind == kind
    ensures Adds(w, PruneItems(env, names, w, items).0, OnlyOf(kind))
    decreases |items|
  {
    hide Delete;
    if items != [] {
      if items[0] in names {
        PruneItemsOfKind(env, names, w, items[1..], kind);
      } else {
        var w1 := Delete(env, w, items[0]).0;
        DeleteLog(env, w, items[0]);
        PruneItemsOfKind(env, names, w1, items[1..], kind);
        AddsTrans(w, w1, PruneItems(env, names, w1, items[1..]).0, OnlyOf(kind));
      }
    }
  }

  lemma PruneKindOfKind(env: Env, cr: Cr, names: set<Key>, w: World, kind: Kind)
    ensures Adds(w, PruneKind(env, cr, names, w, kind).0, OnlyOf(kind))
  {
    hide PruneItems, Enumerates, Matches;
    ArriveLog(env, w);
    var (w1, items) := List(env, w, kind, cr.ns, DruidLabels(cr.name));
    if items.Some? {
      forall k | k in items.value ensures k.kind == kind {
        ListedKind(env, w, kind, cr.ns, DruidLabels(cr.name), k);
      }
      PruneItemsOfKind(env, names, w1, items.value, kind);
      AddsTrans(w, w1, PruneItems(env, names, w1, items.value).0, OnlyOf(kind));
    }
  }

  lemma ListedKind(env: Env, w: World, kind: Kind, ns: string, sel: Labels, k: Key)
    requires var items := List(env, w, kind, ns, sel).1; items.Some? && k in items.value
    ensures k.kind == kind
  {
    assert Matches(Arrive(env, w).objs, k, kind, ns, sel);
  }

  /** Of the kinds pruned, one whose lists and deletes succeeded keeps desired names only, whatever became of the other
      kinds. */
  lemma {:induction false} KindPruned(env: Env, cr: Cr, names: set<Key>, w: World, kinds: seq<Kind>, k: Key)
    requires Drifting(env) && Distinct(kinds) && Pod !in kinds && k.kind in kinds && k !in names
    requires Adds(w, PruneKinds(env, cr, names, w, kinds).0, OkOf(k.kind))
    requires Matches(w.objs, k, k.kind, cr.ns, DruidLabels(cr.name))
    ensures k !in PruneKinds(env, cr, names, w, kinds).0.objs
    decreases |kinds|
  {
    hide PruneKind, Drifting;
    var w1 := PruneKind(env, cr, names, w, kinds[0]).0;
    var w2 := PruneKinds(env, cr, names, w, kinds).0;
    PruneKindReduces(env, cr, names, w, kinds[0]);
    PruneKindLog(env, cr, names, w, kinds[0]);
    PruneKindsLog(env, cr, names, w1, kinds[1..]);
    PruneKindsReduces(env, cr, names, w1, kinds[1..]);
    AddsSplit(w, w1, w2, OkOf(k.kind));
    assert kinds == [kinds[0]] + kinds[1..];
    if k.kind == kinds[0] {
      PruneKindOfKind(env, cr, names, w, kinds[0]);
      assert Adds(w, w1, PruneOk);
      assert k in Doomed(w.objs, cr, names, [kinds[0]]);
    } else {
      MatchesAfter(w.objs, w1.objs, cr, names, kinds[0], k);
      KindPruned(env, cr, names, w1, kinds[1..], k);
    }
  }

  lemma MatchesAfter(a: map<Key, Obj>, b: map<Key, Obj>, cr: Cr, names: set<Key>, kind: Kind, k: Key)
    requires Reduced(a, b, Doomed(a, cr, names, [kind])) && k.kind != kind
    requires Matches(a, k, k.kind, cr.ns, DruidLabels(cr.name))
    ensures Matches(b, k, k.kind, cr.ns, DruidLabels(cr.name))
  {
  }

  // ---------- the node loop ----------

  /** A sequence that was not left early leaves every name stored, even if it contradicts itself. */
  lemma {:induction false} StepsStore(env: Env, h: Hasher, gating: bool, checking: bool, p: Pass, actions: seq<Action>)
    requires Drifting(env) && Steps(env, h, gating, checking, p, actions).flow.Going?
    ensures p.w.objs.Keys + Keys(actions) <= Steps(env, h, gating, checking, p, actions).w.objs.Keys
    decreases |actions|
  {
    hide Step, Framed, SameObjs, Drifting;
    if actions != [] {
      var p1 := Step(env, h, gating, checking, p, actions[0]);
      StepsNames(env, h, gating, checking, p, actions);
      StepsNames(env, h, gating, checking, p1, actions[1..]);
      StepObjs(env, h, gating, checking, p, actions[0]);
      StepsStore(env, h, gating, checking, p1, actions[1..]);
      KeysFirst(actions);
    }
  }

  lemma NodeLoopStores(env: Env, h: Hasher, cr: Cr, plan: Plan, w: World)
    requires Drifting(env) && (!cr.deleting || cr.spec.disablePvcFinalizer)
    requires NodeLoop(env, h, cr, plan, w).flow.Going?
    ensures DesiredKeys(plan) <= NodeLoop(env, h, cr, plan, w).w.objs.Keys
  {
    hide Step, Steps, Framed, Drifting, FinalizerBlock;
    var p0 := Pass(w, {}, Going);
    var p1 := Step(env, h, false, false, p0, Ensure(plan.common));
    var p2 := FinalizerBlock(env, cr, p1);
    StepsNames(env, h, cr.spec.rollingDeploy, cr.generation > 1, p2, plan.actions);
    BlockGoes(env, cr, p1);
    StepObjs(env, h, false, false, p0, Ensure(plan.common));
    FinalizerBlockReads(env, cr, p1);
    StepsStore(env, h, cr.spec.rollingDeploy, cr.generation > 1, p2, plan.actions);
  }

  // ---------- the whole pass ----------

  /** The kinds that workloads refer to were listed and deleted without failure. */
  predicate RefKindsOk(e: Event) {
    KindOk(ConfigMap, e) && KindOk(Service, e)
  }

  /** What a pass leaves of the objects a workload may refer to: the desired ones, and those not under its labels. */
  predicate RefStays(cr: Cr, plan: Plan, objs: map<Key, Obj>, r: Key) {
    r in DesiredKeys(plan) || (r in objs && !Matches(objs, r, r.kind, cr.ns, DruidLabels(cr.name)))
  }

  lemma TailPrunes(env: Env, cr: Cr, p: Pass, k: Key)
    requires Drifting(env) && p.flow.Going? && (k.kind.ConfigMap? || k.kind.Service?) && k !in p.names
    requires Matches(p.w.objs, k, k.kind, cr.ns, DruidLabels(cr.name))
    requires Adds(p.w, Tail(env, cr, p).w, RefKindsOk)
    ensures k !in Tail(env, cr, p).w.objs
  {
    hide CollectOrphans, PruneKinds, ReportStatus, Drifting;
    var w1 := CollectOrphans(env, cr, p.w);
    var (w2, s) := PruneKinds(env, cr, p.names, w1, PRUNED);
    var w3 := ReportStatus(env, cr, w2, s);
    CollectReduces(env, cr, p.w);
    CollectLog(env, cr, p.w);
    PruneKindsLog(env, cr, p.names, w1, PRUNED);
    ReportLog(env, cr, w2, s);
    ReportReads(env, cr, w2, s);
    AddsSplit(p.w, w1, w3, RefKindsOk);
    AddsSplit(w1, w2, w3, RefKindsOk);
    assert k !in Claims(cr, p.w.objs);
    assert Matches(w1.objs, k, k.kind, cr.ns, DruidLabels(cr.name));
    assert Adds(w1, w2, OkOf(k.kind));
    KindPruned(env, cr, p.names, w1, PRUNED, k);
  }

  lemma RefStoredIff(env: Env, h: Hasher, cr: Cr, plan: Plan, w: World, r: Key)
    requires Drifting(env) && (!cr.deleting || cr.spec.disablePvcFinalizer) && (r.kind.ConfigMap? || r.kind.Service?)
    requires var q := Deploy(env, h, cr, Some(plan), w); q.flow.Completed? && Adds(w, q.w, RefKindsOk)
    ensures r in Deploy(env, h, cr, Some(plan), w).w.objs <==> RefStays(cr, plan, w.objs, r)
  {
    hide NodeLoop, Tail, Drifting;
    var p := NodeLoop(env, h, cr, plan, w);
    CompletedIffLoopDone(env, h, cr, plan, w);
    NodeLoopFrame(env, h, cr, plan, w);
    NodeLoopStores(env, h, cr, plan, w);
    TailReduces(env, cr, p);
    TailLog(env, cr, p);
    AddsSplit(w, p.w, Tail(env, cr, p).w, RefKindsOk);
    if r !in DesiredKeys(plan) && r in p.w.objs && Matches(p.w.objs, r, r.kind, cr.ns, DruidLabels(cr.name)) {
      TailPrunes(env, cr, p, r);
    }
  }

  lemma IntactIffRefsStay(env: Env, h: Hasher, cr: Cr, plan: Plan, w: World)
    requires Drifting(env) && (!cr.deleting || cr.spec.disablePvcFinalizer)
    requires var q := Deploy(env, h, cr, Some(plan), w); q.flow.Completed? && Adds(w, q.w, RefKindsOk)
    ensures var q := Deploy(env, h, cr, Some(plan), w).w.objs;
            Intact(cr, q) <==>
              forall k, r :: k in q && Mine(cr, q, k) && r in Refs(k, q[k].body) ==> RefStays(cr, plan, w.objs, r)
  {
    hide Deploy, Drifting, Mine, RefStays;
    var q := Deploy(env, h, cr, Some(plan), w).w.objs;
    forall k, r | k in q && r in Refs(k, q[k].body) ensures r in q <==> RefStays(cr, plan, w.objs, r) {
      RefStoredIff(env, h, cr, plan, w, r);
    }
  }

  // ---------- which workloads survive ----------

  /** Between the worlds a delete of the object took effect, whatever was answered, or found it gone. */
  ghost predicate DeleteServed(a: World, b: World, k: Key) {
    exists i: nat :: |a.log| <= i < |b.log| && ServedAt(b.log[i], k)
  }

  predicate ServedAt(e: Entry, k: Key) {
    e.event.Deleted? && e.event.key == k && k !in e.after
  }

  /** The object is as at the start unless a delete of it was served. */
  ghost predicate Survives(a: World, w: World, k: Key) {
    && a.log <= w.log
    && (k in w.objs <==> k in a.objs && !DeleteServed(a, w, k))
    && (k in w.objs ==> SameObj(a.objs[k], w.objs[k]))
  }

  lemma ServedGrows(a: World, w: World, q: World, k: Key)
    requires a.log <= w.log <= q.log
    ensures DeleteServed(a, q, k) <==> DeleteServed(a, w, k) || DeleteServed(w, q, k)
  {
    if i: nat :| |a.log| <= i < |q.log| && ServedAt(q.log[i], k) {
      if i < |w.log| {
        assert ServedAt(w.log[i], k);
      }
    }
    if i: nat :| |a.log| <= i < |w.log| && ServedAt(w.log[i], k) {
      assert ServedAt(q.log[i], k);
    }
  }

  /** One call serves a delete exactly when it deletes the object and leaves it absent. */
  lemma ExecServes(env: Env, h: Hasher, w: World, call: Call, k: Key)
    ensures var q := Exec(env, h, w, call);
            && (call == Erase(k) ==> (DeleteServed(w, q, k) <==> k !in q.objs))
            && (call == Erase(k) && k in q.objs ==> k in Arrive(env, w).objs && q.objs[k] == Arrive(env, w).objs[k])
            && (call != Erase(k) ==> !DeleteServed(w, q, k))
  {
    hide Enumerates, ApplyAll, Written;
    ArriveLog(env, w);
    var q := Exec(env, h, w, call);
    if call == Erase(k) && k !in q.objs {
      assert ServedAt(q.log[|w.log|], k);
    }
  }

  lemma ExecSurvives(env: Env, h: Hasher, m: Mandate, a: World, w: World, call: Call, k: Key)
    requires Drifting(env) && Permitted(m, w, call) && k !in DesiredNames(m) && Survives(a, w, k)
    ensures Survives(a, Exec(env, h, w, call), k)
  {
    hide Exec, Permitted, Drifting, DeleteServed;
    var q := Exec(env, h, w, call);
    ArriveDrifts(env, w);
    ExecLogs(env, h, w, call);
    ServedGrows(a, w, q, k);
    ExecServes(env, h, w, call, k);
    if call != Erase(k) {
      ExecSameAt(env, h, m, w, call, k);
    }
  }

  lemma {:induction false} CallsSurvive(env: Env, h: Hasher, m: Mandate, a: World, w: World, calls: seq<Call>, k: Key)
    requires Drifting(env) && Obeys(env, h, m, w, calls) && k !in DesiredNames(m) && Survives(a, w, k)
    ensures Survives(a, ExecAll(env, h, w, calls), k)
    decreases |calls|
  {
    hide Exec, Permitted, Drifting, Survives;
    if calls != [] {
      ExecSurvives(env, h, m, a, w, calls[0], k);
      CallsSurvive(env, h, m, a, Exec(env, h, w, calls[0]), calls[1..], k);
    }
  }

  /** An object that is not desired is stored after a pass exactly when it was stored before and no delete of it was
      served; it is then as it was. */
  lemma UndesiredSurvivesIff(env: Env, h: Hasher, cr: Cr, plan: Plan, w: World, k: Key)
    requires Drifting(env) && k !in DesiredKeys(plan)
    ensures Survives(w, Deploy(env, h, cr, Some(plan), w).w, k)
  {
    hide Deploy, Drifting;
    var m := MandateOf(cr, plan, w);
    NamesOfMandate(cr, plan, w);
    DeployLeads(env, h, cr, plan, w);
    var calls: seq<Call> :|
      Obeys(env, h, m, w, calls) && ExecAll(env, h, w, calls) == Deploy(env, h, cr, Some(plan), w).w;
    CallsSurvive(env, h, m, w, w, calls, k);
  }

  // ---------- main results ----------

  /** A workload of the resource that is not desired any more and whose delete was not served. */
  ghost predicate Survivor(cr: Cr, plan: Plan, a: World, b: World, k: Key) {
    k in a.objs && Mine(cr, a.objs, k) && k !in DesiredKeys(plan) && !DeleteServed(a, b, k)
  }

  lemma DriftIsHarmless(env: Env, cr: Cr)
    requires Drifting(env)
    ensures HarmlessAround(cr, env)
  {
  }

  /** Desired workloads refer to desired objects when they are stored after a pass. */
  lemma DesiredRefsDesired(env: Env, h: Hasher, cr: Cr, plan: Plan, w: World, k: Key)
    requires Drifting(env) && (!cr.deleting || cr.spec.disablePvcFinalizer) && Honest(cr, h, w.objs, plan.actions)
    requires WellFormed(plan) && GatesDistinct(plan.actions) && RefsPlanned({plan.common.key}, plan.actions)
    requires Deploy(env, h, cr, Some(plan), w).flow.Completed? && k in DesiredKeys(plan)
    requires var q := Deploy(env, h, cr, Some(plan), w).w.objs; k in q && Mine(cr, q, k)
    ensures Refs(k, Deploy(env, h, cr, Some(plan), w).w.objs[k].body) <= DesiredKeys(plan)
  {
    hide NodeLoop, Tail, Drifting, HarmlessAround, Honest, GatesDistinct, RefsPlanned, Refs;
    var p := NodeLoop(env, h, cr, plan, w);
    DriftIsHarmless(env, cr);
    CompletedIffLoopDone(env, h, cr, plan, w);
    NodeLoopFrame(env, h, cr, plan, w);
    NodeLoopGuards(env, h, cr, plan, w);
    TailReduces(env, cr, p);
    assert Mine(cr, p.w.objs, k);
  }

  /** A completed pass that pruned config maps and services without failure leaves references intact exactly when every
      workload that it wanted gone, but whose delete was not served, refers only to desired objects and to objects not
      under the resource's labels. */
  lemma IntactIffSurvivorsSupported(env: Env, h: Hasher, cr: Cr, plan: Plan, w: World)
    requires Drifting(env) && (!cr.deleting || cr.spec.disablePvcFinalizer) && Honest(cr, h, w.objs, plan.actions)
    requires WellFormed(plan) && GatesDistinct(plan.actions) && RefsPlanned({plan.common.key}, plan.actions)
    requires var q := Deploy(env, h, cr, Some(plan), w); q.flow.Completed? && Adds(w, q.w, RefKindsOk)
    ensures var q := Deploy(env, h, cr, Some(plan), w).w;
            Intact(cr, q.objs) <==>
              forall k, r :: Survivor(cr, plan, w, q, k) && r in Refs(k, w.objs[k].body) ==>
                RefStays(cr, plan, w.objs, r)
  {
    hide Deploy, Drifting, RefStays, Honest, WellFormed, GatesDistinct, RefsPlanned, Refs, Intact, DeleteServed,
         DesiredKeys, DruidLabels, Selects;
    var q := Deploy(env, h, cr, Some(plan), w).w;
    IntactIffRefsStay(env, h, cr, plan, w);
    forall k | k !in DesiredKeys(plan)
      ensures k in q.objs && Mine(cr, q.objs, k) <==> Survivor(cr, plan, w, q, k)
      ensures k in q.objs ==> k in w.objs && q.objs[k].body == w.objs[k].body
    {
      UndesiredSurvivesIff(env, h, cr, plan, w, k);
    }
    forall k, r | k in DesiredKeys(plan) && k in q.objs && Mine(cr, q.objs, k) && r in Refs(k, q.objs[k].body)
      ensures RefStays(cr, plan, w.objs, r)
    {
      DesiredRefsDesired(env, h, cr, plan, w, k);
      DesiredStays(cr, plan, w.objs, r);
    }
  }

  lemma DesiredStays(cr: Cr, plan: Plan, objs: map<Key, Obj>, r: Key)
    requires r in DesiredKeys(plan)
    ensures RefStays(cr, plan, objs, r)
  {
  }

  /** So a workload whose delete fails loses the config maps and the service that went with it: the code goes on to
      delete them. */
  lemma SurvivorDangles(env: Env, h: Hasher, cr: Cr, plan: Plan, w: World, k: Key, r: Key)
    requires Drifting(env) && (!cr.deleting || cr.spec.disablePvcFinalizer)
    requires var q := Deploy(env, h, cr, Some(plan), w); q.flow.Completed? && Adds(w, q.w, RefKindsOk)
    requires Survivor(cr, plan, w, Deploy(env, h, cr, Some(plan), w).w, k) && r in Refs(k, w.objs[k].body)
    requires r in w.objs && r !in DesiredKeys(plan) && Matches(w.objs, r, r.kind, cr.ns, DruidLabels(cr.name))
    ensures r !in Deploy(env, h, cr, Some(plan), w).w.objs && !Intact(cr, Deploy(env, h, cr, Some(plan), w).w.objs)
  {
    hide Deploy, Drifting, DesiredKeys, DruidLabels, Selects, DeleteServed;
    UndesiredSurvivesIff(env, h, cr, plan, w, k);
    RefStoredIff(env, h, cr, plan, w, r);
  }

  // ---------- such a run ----------

  /** Surroundings in which nobody else writes and the second call, and only that, is refused; the eighth, if it is a
      list, yields `items`, every other list is empty. */
  function OneRefused(items: seq<Key>): Env {
    (n: nat) => Tick([], if n == 1 then Refused else NoFault, if n == 7 then items else [], "")
  }

  /** No failed call for a kind that workloads refer to, and no delete of `k`. */
  function Spares(k: Key): Event -> bool {
    e => RefKindsOk(e) && (e.Deleted? ==> e.key != k)
  }

  lemma {:induction false} PruneKindsSplit(env: Env, cr: Cr, names: set<Key>, w: World, a: seq<Kind>, b: seq<Kind>)
    ensures PruneKinds(env, cr, names, w, a + b).0
         == PruneKinds(env, cr, names, PruneKinds(env, cr, names, w, a).0, b).0
    decreases |a|
  {
    hide PruneKind;
    if a == [] {
      assert a + b == b;
    } else {
      assert (a + b)[1..] == a[1..] + b;
      PruneKindsSplit(env, cr, names, PruneKind(env, cr, names, w, a[0]).0, a[1..], b);
    }
  }

  /** Kinds of which nothing is stored are listed and left. */
  lemma {:induction false} NothingToPrune(env: Env, cr: Cr, names: set<Key>, w: World, kinds: seq<Kind>, k: Key)
    requires forall n: nat :: w.tick <= n < w.tick + |kinds| ==> env(n) == Tick([], NoFault, [], "")
    requires forall x :: x in w.objs ==> x.kind !in kinds
    ensures var q := PruneKinds(env, cr, names, w, kinds).0;
            q.objs == w.objs && q.tick == w.tick + |kinds| && Adds(w, q, Spares(k))
    decreases |kinds|
  {
    if kinds != [] {
      var w1 := PruneKind(env, cr, names, w, kinds[0]).0;
      var v := Arrive(env, w);
      assert v.objs == w.objs;
      assert Enumerates([], v.objs, kinds[0], cr.ns, DruidLabels(cr.name)) by {
        assert kinds[0] in kinds;
      }
      assert w1 == Log(v, Listed(kinds[0], [], true));
      assert Adds(w, w1, Spares(k));
      assert forall x :: x in kinds[1..] ==> x in kinds;
      NothingToPrune(env, cr, names, w1, kinds[1..], k);
      AddsTrans(w, w1, PruneKinds(env, cr, names, w1, kinds[1..]).0, Spares(k));
    }
  }

  /** The workload that no list found is left... */
  lemma RefusedList(env: Env, cr: Cr, names: set<Key>, w: World, kind: Kind, k: Key)
    requires env(w.tick).writes == [] && env(w.tick).fault.Refused? && !kind.ConfigMap? && !kind.Service?
    ensures var q := PruneKind(env, cr, names, w, kind).0;
            q.objs == w.objs && q.tick == w.tick + 1 && Adds(w, q, Spares(k))
  {
  }

  /** ... but its config map is found and deleted. */
  lemma ConfigDeleted(env: Env, cr: Cr, names: set<Key>, w: World, c: Key, r: Key, k: Key)
    requires env(w.tick) == Tick([], NoFault, [c, r], "") && env(w.tick + 1) == Tick([], NoFault, [], "")
    requires Enumerates([c, r], w.objs, ConfigMap, cr.ns, DruidLabels(cr.name)) && c in names && r !in names && r != k
    requires c != r
    ensures var q := PruneKinds(env, cr, names, w, [ConfigMap]).0; Adds(w, q, Spares(k))
  {
    var w1 := List(env, w, ConfigMap, cr.ns, DruidLabels(cr.name)).0;
    assert w1 == Log(w.(tick := w.tick + 1), Listed(ConfigMap, [c, r], true));
    var w2 := Delete(env, w1, r).0;
    assert r in w1.objs by {
      assert r in [c, r];
    }
    assert w2 == Log(w1.(objs := w1.objs - {r}, version := w1.version + 1, tick := w1.tick + 1), Deleted(r, true));
    assert [c, r][1..] == [r] && [r][1..] == [];
    assert PruneItems(env, names, w2, []).0 == w2;
    assert PruneItems(env, names, w1, [r]).0 == w2;
    assert PruneItems(env, names, w1, [c, r]).0 == w2;
    assert [ConfigMap][1..] == [];
    assert PruneKinds(env, cr, names, w, [ConfigMap]).0 == w2;
    AddsTrans(w, w1, w2, Spares(k));
  }

  lemma ReportSparesAll(env: Env, cr: Cr, w: World, survivors: seq<seq<string>>, k: Key)
    requires |survivors| == 7
    ensures Adds(w, ReportStatus(env, cr, w, survivors), Spares(k))
  {
    hide NeedsPatch, StatusOf, Enumerates, ApplyAll;
    ArriveLog(env, w);
    ArriveLog(env, List(env, w, Pod, cr.ns, DruidLabels(cr.name)).0);
  }

  /** The store of a resource without nodes whose last workload and its config map are still there. */
  function Leftovers(cr: Cr, common: Content, h: Hasher, k: Key, r: Key): map<Key, Obj> {
    var labels := DruidLabels(cr.name);
    map[common.key := Obj(0, labels, h(common), common.body, "", 0, "", ""),
        r := Obj(0, labels, "", ConfigData(map[]), "", 0, "", ""),
        k := Obj(0, labels, "", WorkloadBody(labels, [], [r.name], "", 0, 1, ""), "", 1, "", "")]
  }

  lemma LeftoversPruned(h: Hasher, cr: Cr, common: Content, w: World, k: Key, r: Key)
    requires common.key.kind.ConfigMap? && common.key.ns == cr.ns && w.tick == 1
    requires k.kind.StatefulSet? && k.ns == cr.ns && r.kind.ConfigMap? && r.ns == cr.ns && r != common.key
    requires w.objs == Leftovers(cr, common, h, k, r)
    ensures Adds(w, PruneKinds(OneRefused([common.key, r]), cr, {common.key}, w, PRUNED).0, Spares(k))
  {
    hide PruneKind, PruneKinds, Enumerates, Spares, Adds;
    var env, names := OneRefused([common.key, r]), {common.key};
    LeftoversIntact(h, cr, common, k, r);
    var w1 := PruneKind(env, cr, names, w, StatefulSet).0;
    RefusedList(env, cr, names, w, StatefulSet, k);
    var mid := [Deployment, HorizontalPodAutoscaler, Ingress, PodDisruptionBudget, Service];
    assert PRUNED == [StatefulSet] + (mid + [ConfigMap]);
    PruneKindsSplit(env, cr, names, w, [StatefulSet], mid + [ConfigMap]);
    OneKind(env, cr, names, w, StatefulSet);
    var w2 := PruneKinds(env, cr, names, w1, mid).0;
    NothingToPrune(env, cr, names, w1, mid, k);
    PruneKindsSplit(env, cr, names, w1, mid, [ConfigMap]);
    ConfigDeleted(env, cr, names, w2, common.key, r, k);
    AddsTrans(w, w1, w2, Spares(k));
    AddsTrans(w, w2, PruneKinds(env, cr, names, w, PRUNED).0, Spares(k));
  }

  /** It does happen: a resource without nodes, its last StatefulSet and the config map of that still stored, and
      nothing but one refused list: the StatefulSet stays, its config map goes. */
  lemma DanglingHappens(h: Hasher, cr: Cr, common: Content, k: Key, r: Key)
    requires !cr.spec.ignored && cr.spec.valid && cr.spec.disablePvcFinalizer && !cr.spec.deleteOrphanPvc
    requires common.key.kind.ConfigMap? && common.key.ns == cr.ns
    requires k.kind.StatefulSet? && k.ns == cr.ns && r.kind.ConfigMap? && r.ns == cr.ns && r != common.key
    ensures var w := World(Some(cr), Leftovers(cr, common, h, k, r), 0, 0, []);
            && Intact(cr, w.objs)
            && !Intact(cr, Deploy(OneRefused([common.key, r]), h, cr, Some(Plan(common, [])), w).w.objs)
  {
    hide ReportStatus, PruneKinds, NodeLoop, Intact, Matches, Mine, Refs, Enumerates;
    var env, plan := OneRefused([common.key, r]), Plan(common, []);
    var w := World(Some(cr), Leftovers(cr, common, h, k, r), 0, 0, []);
    LeftoversIntact(h, cr, common, k, r);
    var p := NodeLoop(env, h, cr, plan, w);
    LoopOverNothing(env, h, cr, common, w, k);
    LeftoversPruned(h, cr, common, p.w, k, r);
    var (w3, lists) := PruneKinds(env, cr, p.names, p.w, PRUNED);
    ReportSparesAll(env, cr, w3, lists, k);
    var q := Deploy(env, h, cr, Some(plan), w);
    AddsTrans(p.w, w3, q.w, Spares(k));
    AddsTrans(w, p.w, q.w, Spares(k));
    SurvivorDangles(env, h, cr, plan, w, k, r);
  }

  lemma OneKind(env: Env, cr: Cr, names: set<Key>, w: World, kind: Kind)
    ensures PruneKinds(env, cr, names, w, [kind]).0 == PruneKind(env, cr, names, w, kind).0
  {
    hide PruneKind;
    assert [kind][1..] == [];
  }

  lemma LeftoversIntact(h: Hasher, cr: Cr, common: Content, k: Key, r: Key)
    requires common.key.kind.ConfigMap? && common.key.ns == cr.ns
    requires k.kind.StatefulSet? && k.ns == cr.ns && r.kind.ConfigMap? && r.ns == cr.ns && r != common.key
    ensures var objs := Leftovers(cr, common, h, k, r);
            && Intact(cr, objs) && Mine(cr, objs, k) && r in Refs(k, objs[k].body)
            && Matches(objs, r, r.kind, cr.ns, DruidLabels(cr.name))
            && Enumerates([common.key, r], objs, ConfigMap, cr.ns, DruidLabels(cr.name))
  {
    var objs := Leftovers(cr, common, h, k, r);
    assert Refs(k, objs[k].body) == {r};
    assert forall x :: x in objs ==> x == common.key || x == r || x == k;
    assert [common.key, r][0] == common.key && [common.key, r][1] == r;
  }

  lemma LoopOverNothing(env: Env, h: Hasher, cr: Cr, common: Content, w: World, k: Key)
    requires cr.spec.disablePvcFinalizer && common.key in w.objs && w.objs[common.key].hash == h(common)
    requires env(w.tick).writes == [] && env(w.tick).fault.NoFault?
    ensures var p := NodeLoop(env, h, cr, Plan(common, []), w);
            && p.flow.Going? && p.names == {common.key}
            && p.w.objs == w.objs && p.w.tick == w.tick + 1 && p.w.cr == w.cr
            && Adds(w, p.w, Spares(k))
  {
  }
}
