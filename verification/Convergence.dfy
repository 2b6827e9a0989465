/** What a rolling pass does when no call fails, exactly, and the number of passes a rollout takes. */
module Convergence {
  import opened Cluster
  import opened ApiServer
  import opened Reconcile
  import opened Frames
  import opened Upserts
  import opened Prune
  import opened Quiescence
  import opened Rolling
  import opened Rollout

  /** The pass goes past this gate: the workload is missing (and gets created), or as desired and, when rollouts are
      checked, fully rolled out. */
  predicate Passable(h: Hasher, checking: bool, objs: map<Key, Obj>, c: Content) {
    !Stored(objs, c) || (Fresh(h, objs, c) && (checking ==> RolledOut(objs[c.key])))
  }

  predicate AllPassable(h: Hasher, checking: bool, objs: map<Key, Obj>, actions: seq<Action>) {
    forall a :: a in actions && a.Gate? ==> Passable(h, checking, objs, a.content)
  }

  lemma StepExact(env: Env, h: Hasher, checking: bool, p: Pass, a: Action)
    requires Alone(env) && Faultless(env) && p.flow.Going?
    ensures var q := Step(env, h, true, checking, p, a);
            && (forall k :: k != a.content.key ==>
                  (k in p.w.objs <==> k in q.w.objs) && (k in p.w.objs ==> q.w.objs[k] == p.w.objs[k]))
            && q.w.cr == p.w.cr
            && q.flow == (if a.Gate? && !Passable(h, checking, p.w.objs, a.content) then Waiting else Going)
            && (a.Gate? && !Passable(h, checking, p.w.objs, a.content) && !Fresh(h, p.w.objs, a.content) ==>
                  Fresh(h, q.w.objs, a.content))
  {
    var c := a.content;
    AloneArrives(env, p.w);
    var (w1, r) := Fetch(env, p.w, c.key);
    AloneArrives(env, Log(w1, Got(c.key, r)));
    AloneArrives(env, Upsert(env, h, p.w, c).0);
  }

  /** Gate `i` is the first one a pass cannot go past. */
  predicate Blocks(h: Hasher, checking: bool, objs: map<Key, Obj>, actions: seq<Action>, i: nat) {
    && i < |actions| && actions[i].Gate? && !Passable(h, checking, objs, actions[i].content)
    && forall j :: 0 <= j < i && actions[j].Gate? ==> Passable(h, checking, objs, actions[j].content)
  }

  /** The pass stopped at its first impassable gate and, if that was stale, has updated it. */
  ghost predicate Stopped(h: Hasher, checking: bool, before: map<Key, Obj>, after: map<Key, Obj>,
                          actions: seq<Action>) {
    exists i: nat :: Blocks(h, checking, before, actions, i) && Refreshed(h, before, after, actions, i)
  }

  ghost predicate Refreshed(h: Hasher, before: map<Key, Obj>, after: map<Key, Obj>, actions: seq<Action>, i: nat) {
    i < |actions| && (!Fresh(h, before, actions[i].content) ==> Fresh(h, after, actions[i].content))
  }

  ghost predicate SameOn(a: map<Key, Obj>, b: map<Key, Obj>, actions: seq<Action>) {
    forall x :: x in actions && x.Gate? ==>
      (x.content.key in a <==> x.content.key in b) && (x.content.key in a ==> b[x.content.key] == a[x.content.key])
  }

  lemma StoppedShift(h: Hasher, checking: bool, a: map<Key, Obj>, b: map<Key, Obj>, c: map<Key, Obj>,
                     actions: seq<Action>)
    requires actions != [] && Stopped(h, checking, b, c, actions[1..]) && SameOn(a, b, actions[1..])
    requires actions[0].Gate? ==> Passable(h, checking, a, actions[0].content)
    ensures Stopped(h, checking, a, c, actions)
  {
    var rest := actions[1..];
    var i: nat :| Blocks(h, checking, b, rest, i) && Refreshed(h, b, c, rest, i);
    assert rest[i] in rest && actions[i + 1] == rest[i];
    forall j | 0 <= j < i + 1 && actions[j].Gate? ensures Passable(h, checking, a, actions[j].content) {
      if j > 0 {
        assert actions[j] == rest[j - 1];
        assert rest[j - 1] in rest;
      }
    }
    assert Blocks(h, checking, a, actions, i + 1) && Refreshed(h, a, c, actions, i + 1);
  }

  lemma StepKeepsOthers(env: Env, h: Hasher, checking: bool, p: Pass, actions: seq<Action>)
    requires Alone(env) && Faultless(env) && p.flow.Going? && actions != [] && GatesDistinct(actions)
    requires forall a :: a in actions ==> (a.Gate? <==> IsWorkloadKind(a.content.key.kind))
    ensures SameOn(p.w.objs, Step(env, h, true, checking, p, actions[0]).w.objs, actions[1..])
  {
    var rest := actions[1..];
    StepExact(env, h, checking, p, actions[0]);
    forall x | x in rest && x.Gate? ensures x.content.key != actions[0].content.key {
      var j :| 0 <= j < |rest| && rest[j] == x;
      assert actions[j + 1] == x;
      assert actions[0] in actions && x in actions;
    }
  }

  lemma PassableSame(h: Hasher, checking: bool, a: map<Key, Obj>, b: map<Key, Obj>, actions: seq<Action>)
    requires SameOn(a, b, actions)
    ensures AllPassable(h, checking, a, actions) <==> AllPassable(h, checking, b, actions)
  {
  }

  lemma StoppedSame(h: Hasher, checking: bool, a: map<Key, Obj>, b: map<Key, Obj>, c: map<Key, Obj>,
                    actions: seq<Action>)
    requires SameOn(a, b, actions) && Stopped(h, checking, b, c, actions)
    ensures Stopped(h, checking, a, c, actions)
  {
    var i: nat :| Blocks(h, checking, b, actions, i) && Refreshed(h, b, c, actions, i);
    assert actions[i] in actions;
    forall j | 0 <= j < i && actions[j].Gate? ensures Passable(h, checking, a, actions[j].content) {
      assert actions[j] in actions;
    }
    assert Blocks(h, checking, a, actions, i) && Refreshed(h, a, c, actions, i);
  }

  /** With no failing call a rolling pass goes past all gates exactly when each is passable, and otherwise waits. */
  lemma {:induction false} StepsFlowExact(env: Env, h: Hasher, checking: bool, p: Pass, actions: seq<Action>)
    requires Alone(env) && Faultless(env) && p.flow.Going? && GatesDistinct(actions)
    requires forall a :: a in actions ==> (a.Gate? <==> IsWorkloadKind(a.content.key.kind))
    ensures Steps(env, h, true, checking, p, actions).flow
         == (if AllPassable(h, checking, p.w.objs, actions) then Going else Waiting)
    decreases |actions|
  {
    if actions != [] {
      var p1 := Step(env, h, true, checking, p, actions[0]);
      StepExact(env, h, checking, p, actions[0]);
      assert actions == [actions[0]] + actions[1..];
      if p1.flow.Going? {
        StepKeepsOthers(env, h, checking, p, actions);
        StepsFlowExact(env, h, checking, p1, actions[1..]);
        PassableSame(h, checking, p.w.objs, p1.w.objs, actions[1..]);
      } else {
        StepsHalted(env, h, true, checking, p1, actions[1..]);
      }
    }
  }

  /** A rolling pass that waits stopped at the first impassable gate and, if that was stale, has updated it. */
  lemma {:induction false} StepsStop(env: Env, h: Hasher, checking: bool, p: Pass, actions: seq<Action>)
    requires Alone(env) && Faultless(env) && p.flow.Going? && GatesDistinct(actions)
    requires forall a :: a in actions ==> (a.Gate? <==> IsWorkloadKind(a.content.key.kind))
    requires !Steps(env, h, true, checking, p, actions).flow.Going?
    ensures Stopped(h, checking, p.w.objs, Steps(env, h, true, checking, p, actions).w.objs, actions)
    decreases |actions|
  {
    var p1 := Step(env, h, true, checking, p, actions[0]);
    var q := Steps(env, h, true, checking, p, actions);
    StepExact(env, h, checking, p, actions[0]);
    if p1.flow.Going? {
      StepKeepsOthers(env, h, checking, p, actions);
      StepsStop(env, h, checking, p1, actions[1..]);
      StoppedShift(h, checking, p.w.objs, p1.w.objs, q.w.objs, actions);
    } else {
      StepsHalted(env, h, true, checking, p1, actions[1..]);
      assert Blocks(h, checking, p.w.objs, actions, 0) && Refreshed(h, p.w.objs, q.w.objs, actions, 0);
    }
  }

  // ---------- a whole pass ----------

  /** The pass starts from the stored resource, and no finalization is under way. */
  predicate Current(cr: Cr, w: World) {
    w.cr == Some(cr) && !cr.deleting && !cr.spec.ignored && cr.spec.valid
  }

  lemma PreludeGoes(env: Env, h: Hasher, cr: Cr, plan: Plan, w: World)
    requires Alone(env) && Faultless(env) && Current(cr, w) && WellFormed(plan)
    ensures var p := FinalizerBlock(env, cr, Step(env, h, false, false, Pass(w, {}, Going), Ensure(plan.common)));
            && p.flow.Going?
            && forall k :: k != plan.common.key ==>
                 (k in w.objs <==> k in p.w.objs) && (k in w.objs ==> p.w.objs[k] == w.objs[k])
  {
    AloneArrives(env, w);
    var (w1, r) := Fetch(env, w, plan.common.key);
    AloneArrives(env, Log(w1, Got(plan.common.key, r)));
    var p1 := Step(env, h, false, false, Pass(w, {}, Going), Ensure(plan.common));
    AloneArrives(env, p1.w);
    AloneArrives(env, FetchCr(env, p1.w).0);
  }

  /** Exactly when a rolling pass gets to the prune phase, and, when it does not, what it did instead. */
  lemma PassExact(env: Env, h: Hasher, cr: Cr, plan: Plan, w: World)
    requires Alone(env) && Faultless(env) && Current(cr, w) && cr.spec.rollingDeploy
    requires WellFormed(plan) && GatesDistinct(plan.actions)
    ensures var q := Deploy(env, h, cr, Some(plan), w);
            && q.flow == (if AllPassable(h, cr.generation > 1, w.objs, plan.actions) then Completed else Waiting)
            && (q.flow.Waiting? ==> Stopped(h, cr.generation > 1, w.objs, q.w.objs, plan.actions))
  {
    var checking := cr.generation > 1;
    var p := FinalizerBlock(env, cr, Step(env, h, false, false, Pass(w, {}, Going), Ensure(plan.common)));
    PreludeGoes(env, h, cr, plan, w);
    assert SameOn(w.objs, p.w.objs, plan.actions);
    PassableSame(h, checking, w.objs, p.w.objs, plan.actions);
    StepsFlowExact(env, h, checking, p, plan.actions);
    if NodeLoop(env, h, cr, plan, w).flow.Waiting? {
      StepsStop(env, h, checking, p, plan.actions);
      StoppedSame(h, checking, w.objs, p.w.objs, NodeLoop(env, h, cr, plan, w).w.objs, plan.actions);
    }
  }

  // ---------- convergence ----------

  function Gates(plan: Plan): set<Content> {
    set a | a in plan.actions && a.Gate? :: a.content
  }

  /** The planned workloads that are missing or stale. */
  function Stale(h: Hasher, objs: map<Key, Obj>, gates: set<Content>): set<Content> {
    set c | c in gates && !Fresh(h, objs, c)
  }

  predicate AllRolledOut(objs: map<Key, Obj>, gates: set<Content>) {
    forall c :: c in gates && Stored(objs, c) ==> RolledOut(objs[c.key])
  }

  /** No node loop undoes a workload that is as desired, even if other objects contradict each other. */
  lemma NodeLoopKeepsFresh(env: Env, h: Hasher, cr: Cr, plan: Plan, w: World, c: Content)
    requires Drifting(env) && (!cr.deleting || cr.spec.disablePvcFinalizer)
    requires WellFormed(plan) && GatesDistinct(plan.actions) && c in Gates(plan) && Fresh(h, w.objs, c)
    ensures Fresh(h, NodeLoop(env, h, cr, plan, w).w.objs, c)
  {
    hide Step, Steps, FinalizerBlock, GatesDistinct, Drifting;
    var p0 := Pass(w, {}, Going);
    var p1 := Step(env, h, false, false, p0, Ensure(plan.common));
    StepObjs(env, h, false, false, p0, Ensure(plan.common));
    FinalizerBlockReads(env, cr, p1);
    var g :| g in plan.actions && g.Gate? && g.content == c;
    forall a | a in plan.actions && a.content.key == c.key ensures h(a.content) == h(c) {
      GateUnique(plan, g, a);
    }
    StepsKeepFresh(env, h, cr.spec.rollingDeploy, cr.generation > 1, FinalizerBlock(env, cr, p1), plan.actions, c);
  }

  /** One pass over rolled-out workloads reaches the prune phase or leaves strictly fewer workloads missing or stale. */
  lemma PassProgresses(env: Env, h: Hasher, cr: Cr, plan: Plan, w: World)
    requires Alone(env) && Faultless(env) && Current(cr, w) && cr.spec.rollingDeploy
    requires WellFormed(plan) && GatesDistinct(plan.actions)
    requires AllRolledOut(w.objs, Gates(plan))
    ensures var q := Deploy(env, h, cr, Some(plan), w);
            q.flow.Completed? || Stale(h, q.w.objs, Gates(plan)) < Stale(h, w.objs, Gates(plan))
  {
    var q := Deploy(env, h, cr, Some(plan), w);
    PassExact(env, h, cr, plan, w);
    if !q.flow.Completed? {
      CompletedIffLoopDone(env, h, cr, plan, w);
      forall c | c in Gates(plan) && Fresh(h, w.objs, c) ensures Fresh(h, q.w.objs, c) {
        NodeLoopKeepsFresh(env, h, cr, plan, w, c);
      }
      var i: nat :| Blocks(h, cr.generation > 1, w.objs, plan.actions, i)
                    && Refreshed(h, w.objs, q.w.objs, plan.actions, i);
      var c := plan.actions[i].content;
      assert plan.actions[i] in plan.actions;
      assert c in Gates(plan);
      assert c in Stale(h, w.objs, Gates(plan)) && c !in Stale(h, q.w.objs, Gates(plan));
    }
  }

  /** A run for one set of desired objects, planned afresh (in whatever map order) in every pass: between passes the
      hashes stay and every rollout finishes. */
  ghost predicate ConvergenceRun(env: Env, h: Hasher, gates: set<Content>, rounds: seq<Round>, ws: seq<World>) {
    && |ws| == |rounds| + 1
    && (forall n :: 0 <= n < |rounds| ==>
          && Current(rounds[n].cr, ws[n]) && rounds[n].cr.spec.rollingDeploy
          && WellFormed(rounds[n].plan) && GatesDistinct(rounds[n].plan.actions)
          && Gates(rounds[n].plan) == gates && AllRolledOut(ws[n].objs, gates))
    && (forall n :: 0 <= n < |rounds| ==> SameObjs(RoundEnd(env, h, rounds[n], ws[n]).w.objs, ws[n + 1].objs))
  }

  function RoundEnd(env: Env, h: Hasher, r: Round, w: World): Pass {
    Deploy(env, h, r.cr, Some(r.plan), w)
  }

  lemma {:induction false} StaleShrinks(env: Env, h: Hasher, gates: set<Content>, rounds: seq<Round>, ws: seq<World>,
                                        n: nat)
    requires Alone(env) && Faultless(env) && ConvergenceRun(env, h, gates, rounds, ws) && n <= |rounds|
    requires forall m :: 0 <= m < n ==> !RoundEnd(env, h, rounds[m], ws[m]).flow.Completed?
    ensures |Stale(h, ws[n].objs, gates)| + n <= |Stale(h, ws[0].objs, gates)|
  {
    hide Deploy, Faultless, Alone;
    if n > 0 {
      var r := rounds[n - 1];
      var q := RoundEnd(env, h, r, ws[n - 1]);
      StaleShrinks(env, h, gates, rounds, ws, n - 1);
      PassProgresses(env, h, r.cr, r.plan, ws[n - 1]);
      assert SameObjs(q.w.objs, ws[n - 1 + 1].objs);
      assert Stale(h, ws[n].objs, gates) == Stale(h, q.w.objs, gates);
      SmallerSet(Stale(h, q.w.objs, gates), Stale(h, ws[n - 1].objs, gates));
    }
  }

  lemma SmallerSet<T>(a: set<T>, b: set<T>)
    requires a < b
    ensures |a| < |b|
  {
    assert |b| == |a| + |b - a| by {
      assert b == a + (b - a);
    }
  }

  /** A rollout of `s` missing or stale workloads reaches the prune phase within `s + 1` passes. */
  lemma Converges(env: Env, h: Hasher, gates: set<Content>, rounds: seq<Round>, ws: seq<World>)
    requires Alone(env) && Faultless(env) && ConvergenceRun(env, h, gates, rounds, ws)
    requires |rounds| == |Stale(h, ws[0].objs, gates)| + 1
    ensures exists n :: 0 <= n < |rounds| && RoundEnd(env, h, rounds[n], ws[n]).flow.Completed?
  {
    if forall n :: 0 <= n < |rounds| ==> !RoundEnd(env, h, rounds[n], ws[n]).flow.Completed? {
      StaleShrinks(env, h, gates, rounds, ws, |rounds|);
    }
  }

  // ---------- two rollouts at once, exactly ----------

  /** Gate `f` is stale and everything before it is as desired and rolled out. */
  ghost predicate FirstStale(h: Hasher, objs: map<Key, Obj>, actions: seq<Action>, f: nat) {
    && f < |actions| && actions[f].Gate? && !Fresh(h, objs, actions[f].content)
    && forall j :: 0 <= j < f && actions[j].Gate? ==> Good(h, objs, actions[j].content)
  }

  /** A rolling pass updates its first stale gate, if all before it is good, and leaves all the others alone. */
  lemma FirstStaleUpdated(env: Env, h: Hasher, cr: Cr, plan: Plan, f: nat, w: World)
    requires Alone(env) && Faultless(env) && Current(cr, w) && cr.spec.rollingDeploy && cr.generation > 1
    requires WellFormed(plan) && GatesDistinct(plan.actions) && GatesStored(w.objs, plan.actions)
    requires FirstStale(h, w.objs, plan.actions, f)
    ensures var q := Deploy(env, h, cr, Some(plan), w).w.objs;
            && RolledJust(h, w.objs, q, plan.actions, f)
            && forall x :: x in plan.actions && x.Gate? && x != plan.actions[f] ==>
                 x.content.key in w.objs && x.content.key in q && q[x.content.key] == w.objs[x.content.key]
  {
    hide Deploy, Alone, Faultless;
    var actions := plan.actions;
    var q := Deploy(env, h, cr, Some(plan), w);
    assert actions[f] in actions;
    PassExact(env, h, cr, plan, w);
    var i: nat :| Blocks(h, true, w.objs, actions, i) && Refreshed(h, w.objs, q.w.objs, actions, i);
    assert i == f;
    PassRolls(env, h, cr, plan, w);
    assert !SameGates(w.objs, q.w.objs, actions);
    var j :| 0 <= j < |actions| && RolledJust(h, w.objs, q.w.objs, actions, j);
    assert j == f;
  }

  /** The pass rewrote gate `i` while the workload of another gate, `j`, was rolling out. */
  ghost predicate Overlaps(h: Hasher, a: map<Key, Obj>, b: map<Key, Obj>, actions: seq<Action>, i: nat, j: nat) {
    && i < |actions| && j < |actions| && i != j && actions[j].Gate?
    && actions[j].content.key in a && !RolledOut(a[actions[j].content.key])
    && RolledJust(h, a, b, actions, i)
  }

  /** Some gate is stale, all before it is good, and a later workload is rolling out: an edit of the spec, or another
      iteration order, may leave it so. */
  ghost predicate StaleBeforeRolling(h: Hasher, objs: map<Key, Obj>, actions: seq<Action>) {
    exists i: nat, j: nat :: i < j < |actions| && FirstStale(h, objs, actions, i) && actions[j].Gate?
                          && actions[j].content.key in objs && !RolledOut(objs[actions[j].content.key])
  }

  /** With no failing call a rolling pass starts a second rollout exactly when some gate is stale, all before it is good
      and a later workload is rolling out: the code looks at later workloads only after it has updated. */
  lemma PassOverlapsIff(env: Env, h: Hasher, cr: Cr, plan: Plan, w: World)
    requires Alone(env) && Faultless(env) && Current(cr, w) && cr.spec.rollingDeploy && cr.generation > 1
    requires WellFormed(plan) && GatesDistinct(plan.actions) && GatesStored(w.objs, plan.actions)
    ensures (exists i: nat, j: nat :: Overlaps(h, w.objs, Deploy(env, h, cr, Some(plan), w).w.objs, plan.actions, i, j))
       <==> StaleBeforeRolling(h, w.objs, plan.actions)
  {
    hide Deploy, Alone, Faultless;
    var q := Deploy(env, h, cr, Some(plan), w).w.objs;
    if i: nat, j: nat :| Overlaps(h, w.objs, q, plan.actions, i, j) {
      assert FirstStale(h, w.objs, plan.actions, i);
      assert i < j;
    }
    if StaleBeforeRolling(h, w.objs, plan.actions) {
      var i: nat, j: nat :| i < j < |plan.actions| && FirstStale(h, w.objs, plan.actions, i) && plan.actions[j].Gate?
                          && plan.actions[j].content.key in w.objs && !RolledOut(w.objs[plan.actions[j].content.key]);
      FirstStaleUpdated(env, h, cr, plan, i, w);
      assert Overlaps(h, w.objs, q, plan.actions, i, j);
    }
  }

  /** The workload after the rollout of its update has begun. */
  function Rolling1(o: Obj): Obj {
    o.(target := o.current + "+")
  }

  /** An edit during a rollout: the pass over the new plan rewrites its first stale workload while a later one still
      rolls out, and as soon as the controller starts on it two workloads roll out at once. */
  lemma EditDuringRolloutOverlaps(env: Env, h: Hasher, cr: Cr, plan: Plan, w: World, i: nat, j: nat)
    requires Alone(env) && Faultless(env) && Current(cr, w) && cr.spec.rollingDeploy && cr.generation > 1
    requires WellFormed(plan) && GatesDistinct(plan.actions) && GatesStored(w.objs, plan.actions)
    requires i < j < |plan.actions| && FirstStale(h, w.objs, plan.actions, i) && plan.actions[j].Gate?
    requires plan.actions[j].content.key in w.objs && !RolledOut(w.objs[plan.actions[j].content.key])
    ensures var q := Deploy(env, h, cr, Some(plan), w).w;
            var k := plan.actions[i].content.key;
            && k in q.objs
            && var next := q.(objs := q.objs[k := Rolling1(q.objs[k])]);
               Between(w, q, next) && !AtMostOneRolling(next.objs, plan.actions)
  {
    hide Deploy, Alone, Faultless;
    FirstStaleUpdated(env, h, cr, plan, i, w);
    var q := Deploy(env, h, cr, Some(plan), w).w;
    var a, b := plan.actions[i], plan.actions[j];
    assert a.content.key != b.content.key;
    RollingSet(w, q, a.content.key);
    var next := q.(objs := q.objs[a.content.key := Rolling1(q.objs[a.content.key])]);
    assert Stored(next.objs, a.content) && Stored(next.objs, b.content);
    assert !RolledOut(next.objs[a.content.key]) && !RolledOut(next.objs[b.content.key]);
  }

  /** The controller may start on a workload that the pass changed. */
  lemma RollingSet(w: World, q: World, k: Key)
    requires k in q.objs && k in w.objs && q.objs[k] != w.objs[k]
    ensures Between(w, q, q.(objs := q.objs[k := Rolling1(q.objs[k])]))
    ensures !RolledOut(Rolling1(q.objs[k]))
  {
    var o := q.objs[k];
    assert |o.current + "+"| == |o.current| + 1;
  }

  /** Two plans with different first stale workloads, as map iteration may order two nodes of one type: the second pass
      updates a second workload while the first is still rolling out. */
  lemma ShuffledOrderOverlaps(env: Env, h: Hasher, cr: Cr, cr2: Cr, p1: Plan, p2: Plan, f1: nat, f2: nat, w: World,
                              w2: World)
    requires Alone(env) && Faultless(env) && Current(cr, w) && Current(cr2, w2)
    requires cr.spec.rollingDeploy && cr.generation > 1 && cr2.spec.rollingDeploy && cr2.generation > 1
    requires WellFormed(p1) && GatesDistinct(p1.actions) && WellFormed(p2) && GatesDistinct(p2.actions)
    requires GateKeys(p1) == GateKeys(p2) && GatesStored(w.objs, p1.actions)
    requires FirstStale(h, w.objs, p1.actions, f1) && FirstStale(h, w.objs, p2.actions, f2)
    requires forall j :: 0 <= j <= f2 && p2.actions[j].Gate? ==> p2.actions[j].content.key != p1.actions[f1].content.key
    requires Between(w, Deploy(env, h, cr, Some(p1), w).w, w2)
    requires var a := p1.actions[f1].content.key; a in w2.objs && !RolledOut(w2.objs[a])
    ensures var a, b := p1.actions[f1].content, p2.actions[f2].content;
            var q := Deploy(env, h, cr2, Some(p2), w2).w;
            && Fresh(h, w2.objs, a) && RolledJust(h, w2.objs, q.objs, p2.actions, f2)
            && Fresh(h, q.objs, b) && a.key in q.objs && !RolledOut(q.objs[a.key])
  {
    hide Deploy, Alone, Faultless, RolledJust, WellFormed, GatesDistinct, Between, RolledOut, Current, Good;
    var q1 := Deploy(env, h, cr, Some(p1), w).w;
    FirstStaleUpdated(env, h, cr, p1, f1, w);
    FreshAfter(h, w.objs, q1.objs, p1.actions, f1);
    StillFirstStale(h, w, q1, w2, p1, p2, f1, f2);
    FirstStaleUpdated(env, h, cr2, p2, f2, w2);
    FreshAfter(h, w2.objs, Deploy(env, h, cr2, Some(p2), w2).w.objs, p2.actions, f2);
    SameFresh(h, w, q1, w2, p1.actions[f1].content);
    var x := GateOfKey(p1, p2, p1.actions[f1]);
    assert x != p2.actions[f2];
  }

  lemma FreshAfter(h: Hasher, a: map<Key, Obj>, b: map<Key, Obj>, actions: seq<Action>, f: nat)
    requires f < |actions| && RolledJust(h, a, b, actions, f)
    ensures Fresh(h, b, actions[f].content)
  {
  }

  lemma SameFresh(h: Hasher, w: World, q: World, next: World, c: Content)
    requires Between(w, q, next) && Fresh(h, q.objs, c)
    ensures Fresh(h, next.objs, c)
  {
  }

  lemma StillFirstStale(h: Hasher, w: World, q1: World, w2: World, p1: Plan, p2: Plan, f1: nat, f2: nat)
    requires f1 < |p1.actions| && p1.actions[f1].Gate? && GateKeys(p1) == GateKeys(p2)
    requires GatesStored(w.objs, p1.actions)
    requires forall x :: x in p1.actions && x.Gate? && x != p1.actions[f1] ==>
               x.content.key in w.objs && x.content.key in q1.objs && q1.objs[x.content.key] == w.objs[x.content.key]
    requires p1.actions[f1].content.key in q1.objs
    requires FirstStale(h, w.objs, p2.actions, f2)
    requires forall j :: 0 <= j <= f2 && p2.actions[j].Gate? ==> p2.actions[j].content.key != p1.actions[f1].content.key
    requires Between(w, q1, w2)
    ensures FirstStale(h, w2.objs, p2.actions, f2) && GatesStored(w2.objs, p2.actions)
  {
    forall x | x in p2.actions && x.Gate? ensures Stored(w2.objs, x.content) {
      var y := GateOfKey(p2, p1, x);
    }
    forall j | 0 <= j <= f2 && p2.actions[j].Gate?
      ensures var k := p2.actions[j].content.key; k in w.objs && k in q1.objs && q1.objs[k] == w.objs[k]
    {
      assert p2.actions[j] in p2.actions;
      var y := GateOfKey(p2, p1, p2.actions[j]);
    }
  }

  /** The names of the planned workloads. */
  function GateKeys(p: Plan): set<Key> {
    set a | a in p.actions && a.Gate? :: a.content.key
  }

  lemma GateOfKey(p1: Plan, p2: Plan, x: Action) returns (y: Action)
    requires GateKeys(p1) == GateKeys(p2) && x in p1.actions && x.Gate?
    ensures y in p2.actions && y.Gate? && y.content.key == x.content.key
  {
    assert x.content.key in GateKeys(p2);
    y :| y in p2.actions && y.Gate? && y.content.key == x.content.key;
  }
}
