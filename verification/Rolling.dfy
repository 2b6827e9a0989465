/** Rolling updates: what one pass may do, one rollout at a time over whole runs, and convergence. */
module Rolling {
  import opened Cluster
  import opened ApiServer
  import opened Reconcile
  import opened Frames
  import opened Upserts
  import opened Prune

  predicate RolledOut(o: Obj) {
    o.current == o.target
  }

  /** Gates are for workloads, plain upserts for everything else. */
  predicate WellFormed(plan: Plan) {
    plan.common.key.kind.ConfigMap? &&
    forall a :: a in plan.actions ==> (a.Gate? <==> IsWorkloadKind(a.content.key.kind))
  }

  predicate IsWorkloadUpdate(e: Event) {
    e.Updated? && IsWorkloadKind(e.key.kind)
  }

  predicate NoWorkloadUpdate(e: Event) {
    !IsWorkloadUpdate(e)
  }

  // ---------- one pass, any interference, any failures ----------

  /** Between log positions `from` and `to` the workload was asked for and reported fully rolled out. */
  ghost predicate ReportedDone(log: seq<Entry>, from: nat, to: nat, key: Key) {
    exists s :: from <= s < to <= |log| && log[s].event.Checked? && log[s].event.key == key
             && log[s].event.reply.Found? && RolledOut(log[s].event.reply.obj)
  }

  /** Any attempt to update a workload is the last thing that happens, it is for a gate of the sequence, and, when
      rollouts are checked, every earlier gate was reported fully rolled out before. */
  ghost predicate RollingSafe(a: World, b: World, checking: bool, actions: seq<Action>) {
    a.log <= b.log &&
    forall t :: |a.log| <= t < |b.log| && IsWorkloadUpdate(b.log[t].event) ==>
      t == |b.log| - 1 &&
      exists i :: 0 <= i < |actions| && actions[i].Gate? && actions[i].content.key == b.log[t].event.key
               && (checking ==> forall j :: 0 <= j < i && actions[j].Gate? ==>
                     ReportedDone(b.log, |a.log|, t, actions[j].content.key))
  }

  lemma StepRollingSafe(env: Env, h: Hasher, checking: bool, p: Pass, a: Action)
    requires a.Gate? <==> IsWorkloadKind(a.content.key.kind)
    requires p.flow.Going?
    ensures var q := Step(env, h, true, checking, p, a);
            && p.w.log <= q.w.log
            && (forall t :: |p.w.log| <= t < |q.w.log| && IsWorkloadUpdate(q.w.log[t].event) ==>
                  t == |q.w.log| - 1 && a.Gate? && a.content.key == q.w.log[t].event.key && !q.flow.Going?)
            && (q.flow.Going? && checking && a.Gate? ==>
                  ReportedDone(q.w.log, |p.w.log|, |q.w.log|, a.content.key))
  {
    var c := a.content;
    UpsertLog(env, h, p.w, c);
    var w1 := Upsert(env, h, p.w, c).0;
    ArriveLog(env, w1);
    var q := Step(env, h, true, checking, p, a);
    if q.flow.Going? && checking && a.Gate? {
      assert q.w.log[|q.w.log| - 1].event.Checked?;
    }
    UpsertEvents(env, h, p.w, c);
  }

  lemma UpsertEvents(env: Env, h: Hasher, w: World, c: Content)
    ensures var w2 := Upsert(env, h, w, c).0;
            w.log <= w2.log && forall t :: |w.log| <= t < |w2.log| && w2.log[t].event.Updated? ==>
              w2.log[t].event.key == c.key
  {
    ArriveLog(env, w);
    var (w1, r) := Fetch(env, w, c.key);
    ArriveLog(env, Log(w1, Got(c.key, r)));
  }

  lemma {:induction false} StepsRollingSafe(env: Env, h: Hasher, checking: bool, p: Pass, actions: seq<Action>)
    requires forall a :: a in actions ==> (a.Gate? <==> IsWorkloadKind(a.content.key.kind))
    ensures RollingSafe(p.w, Steps(env, h, true, checking, p, actions).w, checking, actions)
    decreases |actions|
  {
    if actions != [] {
      if !p.flow.Going? {
        StepsHalted(env, h, true, checking, p, actions);
      } else {
        var p1 := Step(env, h, true, checking, p, actions[0]);
        var q := Steps(env, h, true, checking, p, actions);
        StepRollingSafe(env, h, checking, p, actions[0]);
        StepsRollingSafe(env, h, checking, p1, actions[1..]);
        if !p1.flow.Going? {
          StepsHalted(env, h, true, checking, p1, actions[1..]);
        }
        forall t | |p.w.log| <= t < |q.w.log| && IsWorkloadUpdate(q.w.log[t].event)
          ensures t == |q.w.log| - 1 &&
                  exists i :: 0 <= i < |actions| && actions[i].Gate? && actions[i].content.key == q.w.log[t].event.key
                           && (checking ==> forall j :: 0 <= j < i && actions[j].Gate? ==>
                                 ReportedDone(q.w.log, |p.w.log|, t, actions[j].content.key))
        {
          if t < |p1.w.log| {
            assert p1.w.log[t] == q.w.log[t];
            assert actions[0].Gate?;
          } else {
            RollingSafeShift(p, p1, q.w, checking, actions, t);
          }
        }
      }
    }
  }

  lemma RollingSafeShift(p: Pass, p1: Pass, q: World, checking: bool, actions: seq<Action>, t: nat)
    requires actions != [] && p1.flow.Going? && p.w.log <= p1.w.log
    requires RollingSafe(p1.w, q, checking, actions[1..])
    requires checking && actions[0].Gate? ==> ReportedDone(p1.w.log, |p.w.log|, |p1.w.log|, actions[0].content.key)
    requires |p1.w.log| <= t < |q.log| && IsWorkloadUpdate(q.log[t].event)
    ensures t == |q.log| - 1 &&
            exists i :: 0 <= i < |actions| && actions[i].Gate? && actions[i].content.key == q.log[t].event.key
                     && (checking ==> forall j :: 0 <= j < i && actions[j].Gate? ==>
                           ReportedDone(q.log, |p.w.log|, t, actions[j].content.key))
  {
    var rest := actions[1..];
    var i :| 0 <= i < |rest| && rest[i].Gate? && rest[i].content.key == q.log[t].event.key
          && (checking ==> forall j :: 0 <= j < i && rest[j].Gate? ==>
                ReportedDone(q.log, |p1.w.log|, t, rest[j].content.key));
    assert actions[i + 1] == rest[i];
    if checking {
      forall j | 0 <= j < i + 1 && actions[j].Gate?
        ensures ReportedDone(q.log, |p.w.log|, t, actions[j].content.key)
      {
        if j == 0 {
          var s :| |p.w.log| <= s < |p1.w.log| && p1.w.log[s].event.Checked?
                   && p1.w.log[s].event.key == actions[0].content.key
                && p1.w.log[s].event.reply.Found? && RolledOut(p1.w.log[s].event.reply.obj);
          assert q.log[s] == p1.w.log[s];
        } else {
          assert actions[j] == rest[j - 1];
          var s :| |p1.w.log| <= s < t <= |q.log| && q.log[s].event.Checked?
                   && q.log[s].event.key == rest[j - 1].content.key
                && q.log[s].event.reply.Found? && RolledOut(q.log[s].event.reply.obj);
        }
      }
    }
  }

  lemma RollingSafeExtends(a: World, b: World, c: World, d: World, checking: bool, actions: seq<Action>)
    requires Adds(a, b, NoWorkloadUpdate) && RollingSafe(b, c, checking, actions) && Adds(c, d, NoWorkloadUpdate)
    requires c.log == d.log || Adds(b, c, NoWorkloadUpdate)
    ensures RollingSafe(a, d, checking, actions)
  {
    forall t | |a.log| <= t < |b.log| ensures NoWorkloadUpdate(d.log[t].event) {
      assert d.log[t] == b.log[t];
    }
    if c.log != d.log {
      forall t | |b.log| <= t < |c.log| ensures NoWorkloadUpdate(d.log[t].event) {
        assert d.log[t] == c.log[t];
      }
    }
    forall t | |a.log| <= t < |d.log| && IsWorkloadUpdate(d.log[t].event)
      ensures t == |d.log| - 1 &&
              exists i :: 0 <= i < |actions| && actions[i].Gate? && actions[i].content.key == d.log[t].event.key
                       && (checking ==> forall j :: 0 <= j < i && actions[j].Gate? ==>
                             ReportedDone(d.log, |a.log|, t, actions[j].content.key))
    {
      assert |b.log| <= t < |c.log| && c.log == d.log;
      var i :| 0 <= i < |actions| && actions[i].Gate? && actions[i].content.key == c.log[t].event.key
            && (checking ==> forall j :: 0 <= j < i && actions[j].Gate? ==>
                  ReportedDone(c.log, |b.log|, t, actions[j].content.key));
      forall j | checking && 0 <= j < i && actions[j].Gate?
        ensures ReportedDone(d.log, |a.log|, t, actions[j].content.key)
      {
        assert ReportedDone(c.log, |b.log|, t, actions[j].content.key);
      }
    }
  }

  /** Under any interference and any failures, every pass with rolling deploy makes at most one attempt to update a
      workload; the attempt is the last thing the pass does, and, past the first generation, every earlier workload
      in the prescribed order was reported fully rolled out in this pass. */
  lemma RollingPassSafe(env: Env, h: Hasher, cr: Cr, plan: Plan, w: World)
    requires WellFormed(plan) && cr.spec.rollingDeploy
    ensures RollingSafe(w, Deploy(env, h, cr, Some(plan), w).w, cr.generation > 1, plan.actions)
  {
    if !cr.spec.ignored && cr.spec.valid {
      var p0 := Pass(w, {}, Going);
      var p1 := Step(env, h, false, false, p0, Ensure(plan.common));
      var p2 := FinalizerBlock(env, cr, p1);
      var p3 := NodeLoop(env, h, cr, plan, w);
      var q := Deploy(env, h, cr, Some(plan), w);
      var checking := cr.generation > 1;
      UpsertEvents(env, h, w, plan.common);
      UpsertLog(env, h, w, plan.common);
      assert Adds(w, p1.w, NoWorkloadUpdate);
      FinalizerBlockLog(env, cr, p1);
      assert Adds(p1.w, p2.w, NoWorkloadUpdate);
      AddsTrans(w, p1.w, p2.w, NoWorkloadUpdate);
      StepsRollingSafe(env, h, checking, p2, plan.actions);
      TailLog(env, cr, p3);
      if p3.flow.Going? {
        StepsGoingNoUpdate(env, h, checking, p2, plan.actions);
      }
      assert Adds(p3.w, q.w, NoWorkloadUpdate);
      RollingSafeExtends(w, p2.w, p3.w, q.w, checking, plan.actions);
    }
  }

  /** A rolling sequence that was not left early updated no workload. */
  lemma {:induction false} StepsGoingNoUpdate(env: Env, h: Hasher, checking: bool, p: Pass, actions: seq<Action>)
    requires forall a :: a in actions ==> (a.Gate? <==> IsWorkloadKind(a.content.key.kind))
    requires Steps(env, h, true, checking, p, actions).flow.Going?
    ensures Adds(p.w, Steps(env, h, true, checking, p, actions).w, NoWorkloadUpdate)
    decreases |actions|
  {
    if actions != [] {
      StepsNames(env, h, true, checking, p, actions);
      var p1 := Step(env, h, true, checking, p, actions[0]);
      StepsNames(env, h, true, checking, p1, actions[1..]);
      StepRollingSafe(env, h, checking, p, actions[0]);
      StepsGoingNoUpdate(env, h, checking, p1, actions[1..]);
      AddsTrans(p.w, p1.w, Steps(env, h, true, checking, p, actions).w, NoWorkloadUpdate);
    }
  }
}
