/** How a pass ends, told from its last call. */
module Outcome {
  import opened Cluster
  import opened ApiServer
  import opened Strings
  import opened Reconcile
  import opened Frames
  import opened Upserts
  import opened Prune
  import opened Finalizer

  /** A call that did not do what it was for: a read that found nothing to check or got no answer, a write refused, a
      list without an answer. */
  predicate Bad(e: Event) {
    match e
    case Got(_, reply) => reply.Broken?
    case Checked(_, reply) => !reply.Found?
    case Created(_, _, ok) => !ok
    case Updated(_, _, ok) => !ok
    case Deleted(_, ok) => !ok
    case Listed(_, _, ok) => !ok
    case CrUpdated(_, ok) => !ok
    case CrGot(_) => false
    case StatusPatched(_) => false
  }

  /** Something was logged since, and the pass has failed exactly if the last call was bad. */
  ghost predicate Tidy(a: World, p: Pass) {
    a.log < p.w.log && (p.flow.Failed? <==> Bad(p.w.log[|p.w.log| - 1].event))
  }

  /** `Tidy` for a call that says for itself whether it failed. */
  ghost predicate Ends(a: World, b: World, bad: bool) {
    a.log < b.log && (bad <==> Bad(b.log[|b.log| - 1].event))
  }

  lemma CreateEnds(env: Env, w: World, c: Content, hash: string)
    ensures var (q, ok) := Create(env, w, c, hash); Ends(w, q, !ok)
  {
    ArriveLog(env, w);
    hide Arrive;
  }

  lemma UpdateEnds(env: Env, w: World, c: Content, hash: string, base: nat, ip: string)
    ensures var (q, ok) := Update(env, w, c, hash, base, ip); Ends(w, q, !ok)
  {
    ArriveLog(env, w);
    hide Arrive;
  }

  lemma CheckEnds(env: Env, w: World, key: Key)
    ensures var (q, flow) := CheckDeployed(env, w, key); Ends(w, q, flow.Failed?) && !flow.Skipped? && !flow.Completed?
  {
    ArriveLog(env, w);
    hide Arrive;
  }

  lemma UpsertEnds(env: Env, h: Hasher, w: World, c: Content)
    ensures var (q, st) := Upsert(env, h, w, c); Ends(w, q, st.UpsertFailed?)
  {
    hide Create, Update;
    ArriveLog(env, w);
    var (w1, r) := Fetch(env, w, c.key);
    hide Arrive;
    var w2 := Log(w1, Got(c.key, r));
    assert w.log < w2.log;
    if r.NotFound? {
      CreateEnds(env, w2, c, h(c));
    } else if r.Found? && r.obj.hash != h(c) {
      UpdateEnds(env, w2, c, h(c), r.obj.version, if c.key.kind.Service? then r.obj.clusterIP else "");
    }
  }

  lemma StepTidy(env: Env, h: Hasher, gating: bool, checking: bool, p: Pass, a: Action)
    requires p.flow.Going?
    ensures Tidy(p.w, Step(env, h, gating, checking, p, a))
  {
    hide Upsert, CheckDeployed, Bad;
    UpsertEnds(env, h, p.w, a.content);
    CheckEnds(env, Upsert(env, h, p.w, a.content).0, a.content.key);
  }

  lemma {:induction false} StepsTidy(env: Env, h: Hasher, gating: bool, checking: bool, a: World, p: Pass,
                                     actions: seq<Action>)
    requires Tidy(a, p)
    ensures Tidy(a, Steps(env, h, gating, checking, p, actions))
    decreases |actions|
  {
    hide Step, Bad;
    if actions != [] {
      if p.flow.Going? {
        StepTidy(env, h, gating, checking, p, actions[0]);
        StepsTidy(env, h, gating, checking, a, Step(env, h, gating, checking, p, actions[0]), actions[1..]);
      } else {
        StepsHalted(env, h, gating, checking, p, actions);
      }
    }
  }

  lemma FinalizersTidy(env: Env, cr: Cr, w: World)
    requires FINALIZER_NAME in cr.finalizers
    ensures var (q, flow) := ExecuteFinalizers(env, cr, w);
            w.log < q.log && (flow.Failed? <==> Bad(q.log[|q.log| - 1].event))
  {
    hide ExecuteFinalizers;
    FinalizerTape(env, cr, w);
    var (q, flow) := ExecuteFinalizers(env, cr, w);
    var tape, fs := Tape(w, q), Without(cr.finalizers, FINALIZER_NAME);
    assert tape != [] ==> tape[|tape| - 1] == q.log[|q.log| - 1].event;
    TapeEnds(tape, fs, flow);
  }

  lemma TapeEnds(tape: seq<Event>, fs: seq<string>, flow: Flow)
    requires FinalizerLog(tape, fs, flow)
    ensures tape != [] && (flow.Failed? <==> Bad(tape[|tape| - 1]))
  {
    if StoppedCleaning(tape) {
      var sets: seq<Key>, pvcs: seq<Key>, m: nat :| m < |sets| + |pvcs| && tape == StoppedTape(sets, pvcs, m);
      assert tape[|tape| - 1] == Deleted((sets + pvcs)[m], false);
    } else if CleanedUp(tape, fs) {
      var sets: seq<Key>, pvcs: seq<Key>, ok: bool :| tape == CleanUpTape(sets, pvcs, fs, ok) && OfKinds(sets, pvcs);
      assert tape[|tape| - 1] == CrUpdated(fs, ok);
    }
  }

  lemma BlockTidy(env: Env, cr: Cr, a: World, p: Pass)
    requires Tidy(a, p) && p.flow.Going?
    ensures Tidy(a, FinalizerBlock(env, cr, p))
  {
    hide ExecuteFinalizers;
    if !cr.spec.disablePvcFinalizer {
      if cr.deleting {
        if FINALIZER_NAME in cr.finalizers {
          FinalizersTidy(env, cr, p.w);
        } else {
          NoFinalizer(env, cr, p.w);
        }
      } else {
        ArriveLog(env, p.w);
        ArriveLog(env, FetchCr(env, p.w).0);
      }
    }
  }

  lemma NoFinalizer(env: Env, cr: Cr, w: World)
    requires FINALIZER_NAME !in cr.finalizers
    ensures ExecuteFinalizers(env, cr, w) == (w, Finalized)
  {
  }

  /** A pass returns an error exactly when it did not reach its tail and its last call was bad: the first bad call
      before the tail ends it, and after that nothing is an error. A pass over an ignored or invalid spec, or one
      with an unknown node type, makes no call and returns no error. */
  lemma PassFailsIff(env: Env, h: Hasher, cr: Cr, plan: Option<Plan>, w: World)
    ensures var q := Deploy(env, h, cr, plan, w);
            && (q.flow.Failed? <==> !q.flow.Completed? && w.log < q.w.log && Bad(q.w.log[|q.w.log| - 1].event))
            && (cr.spec.ignored || !cr.spec.valid || plan.None? ==> q.w == w && q.flow.Skipped?)
            && (!cr.spec.ignored && cr.spec.valid && plan.Some? ==>
                  w.log < q.w.log && !q.flow.Skipped? && !q.flow.Going?)
  {
    hide Step, Steps, FinalizerBlock, Tail, Bad;
    if !cr.spec.ignored && cr.spec.valid && plan.Some? {
      var p0 := Pass(w, {}, Going);
      var p1 := Step(env, h, false, false, p0, Ensure(plan.value.common));
      var p2 := FinalizerBlock(env, cr, p1);
      var p := NodeLoop(env, h, cr, plan.value, w);
      StepTidy(env, h, false, false, p0, Ensure(plan.value.common));
      if p1.flow.Going? {
        BlockTidy(env, cr, w, p1);
      } else {
        BlockStops(env, cr, p1);
      }
      StepsTidy(env, h, cr.spec.rollingDeploy, cr.generation > 1, w, p2, plan.value.actions);
      StepNotSkipped(env, h, false, false, p0, Ensure(plan.value.common));
      BlockNotSkipped(env, cr, p1);
      StepsNotSkipped(env, h, cr.spec.rollingDeploy, cr.generation > 1, p2, plan.value.actions);
      TailOutcome(env, cr, p);
    }
  }

  lemma BlockStops(env: Env, cr: Cr, p: Pass)
    requires !p.flow.Going?
    ensures FinalizerBlock(env, cr, p) == p
  {
  }

  lemma StepNotSkipped(env: Env, h: Hasher, gating: bool, checking: bool, p: Pass, a: Action)
    requires !p.flow.Skipped? && !p.flow.Completed?
    ensures var q := Step(env, h, gating, checking, p, a); !q.flow.Skipped? && !q.flow.Completed?
  {
  }

  lemma BlockNotSkipped(env: Env, cr: Cr, p: Pass)
    requires !p.flow.Skipped? && !p.flow.Completed?
    ensures var q := FinalizerBlock(env, cr, p); !q.flow.Skipped? && !q.flow.Completed?
  {
    FinalizingStops(env, cr, p.w);
  }

  lemma {:induction false} StepsNotSkipped(env: Env, h: Hasher, gating: bool, checking: bool, p: Pass,
                                           actions: seq<Action>)
    requires !p.flow.Skipped? && !p.flow.Completed?
    ensures var q := Steps(env, h, gating, checking, p, actions); !q.flow.Skipped? && !q.flow.Completed?
    decreases |actions|
  {
    hide Step;
    if actions != [] {
      StepNotSkipped(env, h, gating, checking, p, actions[0]);
      StepsNotSkipped(env, h, gating, checking, Step(env, h, gating, checking, p, actions[0]), actions[1..]);
    }
  }

  lemma TailOutcome(env: Env, cr: Cr, p: Pass)
    ensures p.flow.Going? ==> Tail(env, cr, p).flow.Completed? && p.w.log <= Tail(env, cr, p).w.log
    ensures !p.flow.Going? ==> Tail(env, cr, p) == p
  {
    TailLog(env, cr, p);
  }
}
