/** The whole way: from any honest store, faultless passes over a spec settle the store within a bounded number of
    passes, and from then on no pass writes anything. */
module Settling {
  import opened Cluster
  import opened ApiServer
  import opened PrescribedOrder
  import opened Reconcile
  import opened Frames
  import opened Upserts
  import opened Prune
  import opened Quiescence
  import opened Convergence
  import opened Planner
  import opened Planned
  import opened OrderIndependence
  import opened WorkloadOrder
  import opened PlanOrder
  import opened ClaimLifecycle

  // ---------- what every pass keeps ----------

  /** No stored object bears the hash of a desired one without the resource's labels. */
  ghost predicate StoreHonest(h: Hasher, cr: Cr, objs: map<Key, Obj>, cs: set<Content>) {
    forall c :: c in cs ==> LabelsHonest(h, cr, objs, c)
  }

  /** The same pods, and what they mount. */
  ghost predicate SamePods(cr: Cr, a: map<Key, Obj>, b: map<Key, Obj>) {
    && (PodsHealthy(cr, a) <==> PodsHealthy(cr, b))
    && forall n :: Used(cr, a, n) <==> Used(cr, b, n)
  }

  lemma WroteKeepsStoreHonest(h: Hasher, cr: Cr, a: map<Key, Obj>, b: map<Key, Obj>, d: Content, cs: set<Content>)
    requires Wrote(h, a, b, d) && CarriesLabels(cr, d) && StoreHonest(h, cr, a, cs)
    ensures StoreHonest(h, cr, b, cs)
  {
    hide DruidLabels, Selects;
  }

  lemma {:induction false} StepsKeepHonest(env: Env, h: Hasher, cr: Cr, gating: bool, checking: bool, p: Pass,
                                           actions: seq<Action>,
                                           cs: set<Content>)
    requires Drifting(env) && StoreHonest(h, cr, p.w.objs, cs)
    requires forall a :: a in actions ==> CarriesLabels(cr, a.content)
    ensures StoreHonest(h, cr, Steps(env, h, gating, checking, p, actions).w.objs, cs)
    decreases |actions|
  {
    hide Step, StoreHonest, Wrote, Fresh, CarriesLabels, Drifting;
    if actions == [] || !p.flow.Going? {
      StepsHalt(env, h, gating, checking, p, actions);
    } else {
      var p1 := Step(env, h, gating, checking, p, actions[0]);
      StepObjs(env, h, gating, checking, p, actions[0]);
      WroteKeepsStoreHonest(h, cr, p.w.objs, p1.w.objs, actions[0].content, cs);
      StepsKeepHonest(env, h, cr, gating, checking, p1, actions[1..], cs);
    }
  }

  lemma SubsetKeepsHonest(h: Hasher, cr: Cr, a: map<Key, Obj>, b: map<Key, Obj>, cs: set<Content>)
    requires StoreHonest(h, cr, a, cs) && b.Keys <= a.Keys && forall k :: k in b ==> SameObj(a[k], b[k])
    ensures StoreHonest(h, cr, b, cs)
  {
    hide DruidLabels, Selects;
  }

  lemma NodeLoopKeepsHonest(env: Env, h: Hasher, cr: Cr, plan: Plan, w: World, cs: set<Content>)
    requires Drifting(env) && (!cr.deleting || cr.spec.disablePvcFinalizer) && StoreHonest(h, cr, w.objs, cs)
    requires forall d :: d in Desired(plan) ==> CarriesLabels(cr, d)
    ensures StoreHonest(h, cr, NodeLoop(env, h, cr, plan, w).w.objs, cs)
  {
    hide Step, Steps, FinalizerBlock, Drifting, CarriesLabels, StoreHonest, Wrote, Fresh;
    var p0 := Pass(w, {}, Going);
    var p1 := Step(env, h, false, false, p0, Ensure(plan.common));
    var p2 := FinalizerBlock(env, cr, p1);
    StepObjs(env, h, false, false, p0, Ensure(plan.common));
    WroteKeepsStoreHonest(h, cr, w.objs, p1.w.objs, plan.common, cs);
    FinalizerBlockReads(env, cr, p1);
    SubsetKeepsHonest(h, cr, p1.w.objs, p2.w.objs, cs);
    forall a | a in plan.actions ensures CarriesLabels(cr, a.content) {
      assert a.content in Desired(plan);
    }
    StepsKeepHonest(env, h, cr, cr.spec.rollingDeploy, cr.generation > 1, p2, plan.actions, cs);
  }

  lemma PodsReduced(cr: Cr, a: map<Key, Obj>, b: map<Key, Obj>, doomed: set<Key>)
    requires Reduced(a, b, doomed) && forall k :: k in doomed ==> !k.kind.Pod?
    ensures SamePods(cr, a, b)
  {
    forall k: Key ensures k in a && OwnPod(cr, a, k) <==> k in b && OwnPod(cr, b, k) {
    }
    forall n ensures Used(cr, a, n) <==> Used(cr, b, n) {
      if k :| k in a && OwnPod(cr, a, k) && (n == "" || (a[k].body.PodBody? && Some(n) in a[k].body.claims)) {
        assert OwnPod(cr, b, k);
      }
      if k :| k in b && OwnPod(cr, b, k) && (n == "" || (b[k].body.PodBody? && Some(n) in b[k].body.claims)) {
        assert OwnPod(cr, a, k);
      }
    }
  }

  lemma NoPodsDoomed(cr: Cr, objs: map<Key, Obj>, names: set<Key>)
    ensures forall k :: k in Doomed(objs, cr, names, PRUNED) + Claims(cr, objs) ==> !k.kind.Pod?
  {
  }

  /** A pass over a spec keeps the store honest and leaves the pods alone. */
  lemma PassKeeps(env: Env, h: Hasher, cr: Cr, order: seq<string>, w: World, cs: set<Content>)
    requires Drifting(env) && (!cr.deleting || cr.spec.disablePvcFinalizer) && StoreHonest(h, cr, w.objs, cs)
    requires IterationOrder(order, cr.spec.nodes) && KnownTypes(cr.spec.nodes)
    ensures var q := Deploy(env, h, cr, PlanOf(h, cr, order), w).w;
            StoreHonest(h, cr, q.objs, cs) && SamePods(cr, w.objs, q.objs)
  {
    hide NodesOf, Flatten, NodeLoop, Tail, StoreHonest, PodsHealthy, Used, Drifting, IterationOrder, Desired, Framed,
         Matches, IsOrphanCandidate;
    var plan := PlanFor(h, cr, order);
    if !cr.spec.ignored && cr.spec.valid {
      var p := NodeLoop(env, h, cr, plan, w);
      PlanWellFormed(h, cr, order);
      NodeLoopKeepsHonest(env, h, cr, plan, w, cs);
      NodeLoopFrame(env, h, cr, plan, w);
      NoPodsPlanned(plan);
      PodsFramed(cr, w.objs, p.w.objs, DesiredKeys(plan));
      if p.flow.Going? {
        TailReduces(env, cr, p);
        SubsetKeepsHonest(h, cr, p.w.objs, Tail(env, cr, p).w.objs, cs);
        NoPodsDoomed(cr, p.w.objs, p.names);
        PodsReduced(cr, p.w.objs, Tail(env, cr, p).w.objs,
                    Doomed(p.w.objs, cr, p.names, PRUNED) + Claims(cr, p.w.objs));
      } else {
        TailStops(env, cr, p);
      }
    }
  }

  // ---------- orphans ----------

  lemma CandidateKept(cr: Cr, a: map<Key, Obj>, b: map<Key, Obj>, k: Key)
    requires k in a && k in b && SameObj(a[k], b[k])
    ensures IsOrphanCandidate(cr, a, k) <==> IsOrphanCandidate(cr, b, k)
  {
  }

  /** A completed pass whose lists and deletes succeeded leaves no orphan behind. */
  lemma CompletedIsOrphanFree(env: Env, h: Hasher, cr: Cr, plan: Plan, w: World)
    requires Drifting(env) && (!cr.deleting || cr.spec.disablePvcFinalizer)
    requires var q := Deploy(env, h, cr, Some(plan), w); q.flow.Completed? && Adds(w, q.w, AllOk)
    ensures OrphanFree(cr, Deploy(env, h, cr, Some(plan), w).w.objs)
  {
    hide NodeLoop, Tail, CollectOrphans, Drifting, PodsHealthy, Used, IsOrphanCandidate, Framed, Matches;
    var p := NodeLoop(env, h, cr, plan, w);
    var w1, q := CollectOrphans(env, cr, p.w), Tail(env, cr, p).w;
    CompletedIffLoopDone(env, h, cr, plan, w);
    if cr.spec.deleteOrphanPvc {
      NodeLoopFrame(env, h, cr, plan, w);
      TailReduces(env, cr, p);
      NoPodsDoomed(cr, p.w.objs, p.names);
      PodsReduced(cr, p.w.objs, q.objs, Doomed(p.w.objs, cr, p.names, PRUNED) + Claims(cr, p.w.objs));
      CollectLog(env, cr, p.w);
      forall k | k in q.objs && IsOrphanCandidate(cr, q.objs, k) && PodsHealthy(cr, q.objs)
        ensures Used(cr, q.objs, k.name)
      {
        CandidateIsClaim(cr, q.objs, k);
        CandidateKept(cr, p.w.objs, q.objs, k);
        TailLeavesClaims(env, cr, p, k);
        AddsSplit(w, p.w, q, AllOk);
        AddsSplit(p.w, w1, q, AllOk);
        CollectorLeaves(env, cr, p.w, k);
      }
    }
  }

  lemma CandidateIsClaim(cr: Cr, objs: map<Key, Obj>, k: Key)
    requires IsOrphanCandidate(cr, objs, k)
    ensures k.kind.PersistentVolumeClaim?
  {
  }

  // ---------- one pass that completes ----------

  /** Nothing desired contradicts anything else, the store is honest, and no planned claim is up for collection. */
  ghost predicate Ready(h: Hasher, cr: Cr, plan: Plan, objs: map<Key, Obj>) {
    ConflictFree(h, Desired(plan)) && StoreHonest(h, cr, objs, Desired(plan)) && ClaimsSafe(cr, plan, objs)
  }

  /** Settled and orphan-free: no pass has anything to write. */
  ghost predicate AtRest(h: Hasher, cr: Cr, plan: Plan, objs: map<Key, Obj>) {
    Settled(h, cr, plan, objs) && OrphanFree(cr, objs)
  }

  lemma ReadyKept(h: Hasher, cr: Cr, plan: Plan, a: map<Key, Obj>, b: map<Key, Obj>)
    requires Ready(h, cr, plan, a) && SamePods(cr, a, b) && StoreHonest(h, cr, b, Desired(plan))
    ensures Ready(h, cr, plan, b)
  {
    hide PodsHealthy, Used, ConflictFree, StoreHonest, Desired;
  }

  lemma PassKeepsReady(env: Env, h: Hasher, cr: Cr, order: seq<string>, w: World, next: map<Key, Obj>)
    requires Drifting(env) && (!cr.deleting || cr.spec.disablePvcFinalizer)
    requires IterationOrder(order, cr.spec.nodes) && KnownTypes(cr.spec.nodes)
    requires Ready(h, cr, PlanFor(h, cr, order), w.objs)
    requires SameObjs(Deploy(env, h, cr, PlanOf(h, cr, order), w).w.objs, next)
    ensures Ready(h, cr, PlanFor(h, cr, order), next)
  {
    hide Deploy, NodesOf, Flatten, StoreHonest, PodsHealthy, Used, ConflictFree, ClaimsSafe, IterationOrder, Drifting,
         Desired;
    var plan, q := PlanFor(h, cr, order), Deploy(env, h, cr, PlanOf(h, cr, order), w).w;
    PassKeeps(env, h, cr, order, w, Desired(plan));
    SubsetKeepsHonest(h, cr, q.objs, next, Desired(plan));
    OrphanFreeDrift(cr, q.objs, next);
    ReadyKept(h, cr, plan, w.objs, q.objs);
    ReadyKept(h, cr, plan, q.objs, next);
  }

  lemma CompletedIsAtRest(env: Env, h: Hasher, cr: Cr, order: seq<string>, w: World, next: map<Key, Obj>)
    requires Drifting(env) && (!cr.deleting || cr.spec.disablePvcFinalizer)
    requires IterationOrder(order, cr.spec.nodes) && KnownTypes(cr.spec.nodes)
    requires Ready(h, cr, PlanFor(h, cr, order), w.objs)
    requires var q := Deploy(env, h, cr, PlanOf(h, cr, order), w);
             q.flow.Completed? && Adds(w, q.w, AllOk) && SameObjs(q.w.objs, next)
    ensures AtRest(h, cr, PlanFor(h, cr, order), next)
  {
    hide Deploy, NodesOf, Flatten, PodsHealthy, Used, ConflictFree, ClaimsSafe, IterationOrder, Drifting, Desired,
         Settled, OrphanFree, LabelsHonest, Adds;
    var plan, q := PlanFor(h, cr, order), Deploy(env, h, cr, PlanOf(h, cr, order), w).w;
    SettlesIff(env, h, cr, order, w);
    CompletedIsOrphanFree(env, h, cr, plan, w);
    SettledDrift(h, cr, plan, q.objs, next);
    OrphanFreeDrift(cr, q.objs, next);
  }

  // ---------- without rolling deploy ----------

  lemma PlainStepGoes(env: Env, h: Hasher, checking: bool, p: Pass, a: Action)
    requires Alone(env) && Faultless(env) && p.flow.Going?
    ensures Step(env, h, false, checking, p, a).flow.Going?
  {
    AloneArrives(env, p.w);
    var (w1, r) := Fetch(env, p.w, a.content.key);
    AloneArrives(env, Log(w1, Got(a.content.key, r)));
  }

  lemma {:induction false} PlainStepsGo(env: Env, h: Hasher, checking: bool, p: Pass, actions: seq<Action>)
    requires Alone(env) && Faultless(env) && p.flow.Going?
    ensures Steps(env, h, false, checking, p, actions).flow.Going?
    decreases |actions|
  {
    hide Step, Alone, Faultless;
    if actions != [] {
      PlainStepGoes(env, h, checking, p, actions[0]);
      PlainStepsGo(env, h, checking, Step(env, h, false, checking, p, actions[0]), actions[1..]);
    }
  }

  /** Without rolling deploy one pass with no failing call brings the resource to rest. */
  lemma PlainPassComesToRest(env: Env, h: Hasher, cr: Cr, order: seq<string>, w: World, next: map<Key, Obj>)
    requires Alone(env) && Faultless(env) && Current(cr, w) && !cr.spec.rollingDeploy
    requires IterationOrder(order, cr.spec.nodes) && KnownTypes(cr.spec.nodes)
    requires Ready(h, cr, PlanFor(h, cr, order), w.objs)
    requires var q := Deploy(env, h, cr, PlanOf(h, cr, order), w); Adds(w, q.w, AllOk) && SameObjs(q.w.objs, next)
    ensures AtRest(h, cr, PlanFor(h, cr, order), next)
  {
    hide NodesOf, Flatten, Step, Steps, Tail, FinalizerBlock, Ready, AtRest, IterationOrder, KnownTypes, Adds, Alone,
         Faultless, SameObjs;
    var plan := PlanFor(h, cr, order);
    AloneDrifts(env);
    PlanWellFormed(h, cr, order);
    PreludeGoes(env, h, cr, plan, w);
    var p := FinalizerBlock(env, cr, Step(env, h, false, false, Pass(w, {}, Going), Ensure(plan.common)));
    PlainStepsGo(env, h, cr.generation > 1, p, plan.actions);
    CompletedIffLoopDone(env, h, cr, plan, w);
    CompletedIsAtRest(env, h, cr, order, w, next);
  }

  // ---------- whole runs ----------

  lemma SameForSource(h: Hasher, a: Cr, b: Cr, p1: Plan, p2: Plan, objs: map<Key, Obj>)
    requires SameSource(a, b) && Desired(p1) == Desired(p2)
    ensures Ready(h, a, p1, objs) <==> Ready(h, b, p2, objs)
    ensures AtRest(h, a, p1, objs) <==> AtRest(h, b, p2, objs)
  {
    hide PodsHealthy, Used, ConflictFree, Settled, OrphanFree, Desired;
    SameDesiredKeys(p1, p2);
    SettledSame(h, a, b, p1, p2, objs);
    OrphanFreeSame(a, b, objs);
    UsedSame(a, b, objs);
  }

  lemma UsedSame(a: Cr, b: Cr, objs: map<Key, Obj>)
    requires SameSource(a, b)
    ensures (PodsHealthy(a, objs) <==> PodsHealthy(b, objs)) && forall n :: Used(a, objs, n) <==> Used(b, objs, n)
  {
    forall k ensures OwnPod(a, objs, k) <==> OwnPod(b, objs, k) {
    }
    forall n ensures Used(a, objs, n) <==> Used(b, objs, n) {
      if k :| k in objs && OwnPod(a, objs, k)
              && (n == "" || (objs[k].body.PodBody? && Some(n) in objs[k].body.claims)) {
        assert OwnPod(b, objs, k);
      }
      if k :| k in objs && OwnPod(b, objs, k)
              && (n == "" || (objs[k].body.PodBody? && Some(n) in objs[k].body.claims)) {
        assert OwnPod(a, objs, k);
      }
    }
  }

  /** The desired objects of a round are those of the spec, whatever its order. */
  lemma RoundDesires(h: Hasher, cr: Cr, order: seq<string>, r: SpecRound)
    requires IterationOrder(order, cr.spec.nodes) && IterationOrder(r.order, cr.spec.nodes) && SameSource(cr, r.cr)
    requires OrderImmaterial(cr) && KnownTypes(cr.spec.nodes)
    ensures Desired(PlanFor(h, r.cr, r.order)) == Desired(PlanFor(h, cr, order)) && KnownTypes(r.cr.spec.nodes)
    ensures IterationOrder(r.order, r.cr.spec.nodes)
  {
    hide NodesOf, Flatten, OrderImmaterial, IterationOrder, Desired;
    PlansAgree(h, cr, order, r.order);
    PlanOfSameSource(h, cr, r.cr, r.order);
  }

  lemma {:induction false} RunKeepsReady(env: Env, h: Hasher, cr: Cr, order: seq<string>, gates: set<Content>,
                                         rounds: seq<SpecRound>,
                                         ws: seq<World>, n: nat)
    requires Alone(env) && OrderImmaterial(cr) && IterationOrder(order, cr.spec.nodes) && KnownTypes(cr.spec.nodes)
    requires RolloutRun(env, h, cr, gates, rounds, ws) && n <= |rounds|
    requires Ready(h, cr, PlanFor(h, cr, order), ws[0].objs)
    ensures Ready(h, cr, PlanFor(h, cr, order), ws[n].objs)
  {
    hide Deploy, NodesOf, Flatten, Ready, OrderImmaterial, IterationOrder, AllRolledOut, Desired, KnownTypes;
    if n > 0 {
      var r := rounds[n - 1];
      RunKeepsReady(env, h, cr, order, gates, rounds, ws, n - 1);
      RoundDesires(h, cr, order, r);
      SameForSource(h, cr, r.cr, PlanFor(h, cr, order), PlanFor(h, r.cr, r.order), ws[n - 1].objs);
      SameForSource(h, cr, r.cr, PlanFor(h, cr, order), PlanFor(h, r.cr, r.order), ws[n].objs);
      assert SameObjs(EndOf(env, h, r, ws[n - 1]).w.objs, ws[n - 1 + 1].objs);
      PassKeepsReady(env, h, r.cr, r.order, ws[n - 1], ws[n].objs);
    }
  }

  lemma AloneDrifts(env: Env)
    requires Alone(env)
    ensures Drifting(env)
  {
  }

  /** From any honest store, with no failing call, every rollout finishing between passes, and nobody writing but the
      controllers, a rolling resource whose objects do not contradict each other comes to rest within `s + 1` passes,
      where `s` of its workloads are missing or stale at the start. */
  lemma ComesToRest(env: Env, h: Hasher, cr: Cr, order: seq<string>, rounds: seq<SpecRound>, ws: seq<World>)
    returns (n: nat)
    requires Alone(env) && Faultless(env) && cr.spec.rollingDeploy && OrderImmaterial(cr)
    requires IterationOrder(order, cr.spec.nodes) && KnownTypes(cr.spec.nodes)
    requires RolloutRun(env, h, cr, Gates(PlanFor(h, cr, order)), rounds, ws)
    requires Ready(h, cr, PlanFor(h, cr, order), ws[0].objs)
    requires |rounds| == |Stale(h, ws[0].objs, Gates(PlanFor(h, cr, order)))| + 1
    requires forall m :: 0 <= m < |rounds| ==> Adds(ws[m], EndOf(env, h, rounds[m], ws[m]).w, AllOk)
    ensures 1 <= n <= |rounds| && AtRest(h, cr, PlanFor(h, cr, order), ws[n].objs)
  {
    hide Deploy, NodesOf, Flatten, Ready, AtRest, OrderImmaterial, IterationOrder, AllRolledOut, Desired, KnownTypes,
         Gates, Stale, Alone, Faultless, Adds;
    AloneDrifts(env);
    ImmaterialFixes(cr);
    RolloutConverges(env, h, cr, order, rounds, ws);
    var m :| 0 <= m < |rounds| && EndOf(env, h, rounds[m], ws[m]).flow.Completed?;
    var r := rounds[m];
    n := m + 1;
    RunKeepsReady(env, h, cr, order, Gates(PlanFor(h, cr, order)), rounds, ws, m);
    RoundDesires(h, cr, order, r);
    SameForSource(h, cr, r.cr, PlanFor(h, cr, order), PlanFor(h, r.cr, r.order), ws[m].objs);
    SameForSource(h, cr, r.cr, PlanFor(h, cr, order), PlanFor(h, r.cr, r.order), ws[n].objs);
    assert SameObjs(EndOf(env, h, r, ws[m]).w.objs, ws[m + 1].objs);
    CompletedIsAtRest(env, h, r.cr, r.order, ws[m], ws[n].objs);
  }

  lemma ImmaterialFixes(cr: Cr)
    requires OrderImmaterial(cr)
    ensures WorkloadsFixed(cr.spec)
  {
  }

  /** And there it stays: within that many passes the store is such that no later pass over the spec, in whatever order,
      under drift and whichever calls fail, writes an object. */
  lemma SettlesForGood(env: Env, h: Hasher, cr: Cr, order: seq<string>, rounds: seq<SpecRound>, ws: seq<World>)
    returns (n: nat)
    requires Alone(env) && Faultless(env) && cr.spec.rollingDeploy && OrderImmaterial(cr)
    requires IterationOrder(order, cr.spec.nodes) && KnownTypes(cr.spec.nodes)
    requires RolloutRun(env, h, cr, Gates(PlanFor(h, cr, order)), rounds, ws)
    requires Ready(h, cr, PlanFor(h, cr, order), ws[0].objs)
    requires |rounds| == |Stale(h, ws[0].objs, Gates(PlanFor(h, cr, order)))| + 1
    requires forall m :: 0 <= m < |rounds| ==> Adds(ws[m], EndOf(env, h, rounds[m], ws[m]).w, AllOk)
    ensures 1 <= n <= |rounds|
    ensures forall later: Env, more: seq<SpecRound> :: Drifting(later) && RoundsOf(cr, more) ==>
              Idle(ws[n], SpecRounds(later, h, ws[n], more))
  {
    hide Deploy, NodesOf, Flatten, Ready, OrderImmaterial, IterationOrder, KnownTypes, Gates, Stale, Alone, Faultless,
         Adds, Drifting, Idle, SpecRounds, Settled, OrphanFree;
    n := ComesToRest(env, h, cr, order, rounds, ws);
    forall later: Env, more: seq<SpecRound> | Drifting(later) && RoundsOf(cr, more)
      ensures Idle(ws[n], SpecRounds(later, h, ws[n], more))
    {
      QuiescentForEver(later, h, cr, order, ws[n], more);
    }
  }

  /** Passes over the spec, none of which finalizes. */
  ghost predicate RoundsOf(cr: Cr, rounds: seq<SpecRound>) {
    forall r :: r in rounds ==>
      && SameSource(cr, r.cr) && IterationOrder(r.order, cr.spec.nodes)
      && (!r.cr.deleting || r.cr.spec.disablePvcFinalizer)
  }
}
