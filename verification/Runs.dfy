/** Whole runs: passes by whatever planners, interleaved with steps of others, under any failures. */
module Runs {
  import opened Cluster
  import opened ApiServer
  import opened Strings
  import opened Reconcile
  import opened Frames
  import opened Calls
  import opened Finalizer

  /** A planner turns the resource read into a plan; one per pass, since map iteration differs between passes. */
  type Planner = Cr -> Option<Plan>

  datatype RunStep = ReconcileStep(planner: Planner) | OthersStep(writes: seq<Foreign>)

  /** `Reconcile`: reads the resource and, when it is there, runs a pass on it. */
  function ReconcileOnce(env: Env, h: Hasher, planner: Planner, w: World): World {
    var (w1, cr, ok) := FetchCr(env, w);
    if cr.None? then w1 else Deploy(env, h, cr.value, planner(cr.value), w1).w
  }

  function Advance(env: Env, h: Hasher, w: World, s: RunStep): World {
    match s
    case ReconcileStep(planner) => ReconcileOnce(env, h, planner, w)
    case OthersStep(fs) => ApplyAll(w, fs)
  }

  function Run(env: Env, h: Hasher, w: World, steps: seq<RunStep>): World
    decreases |steps|
  {
    if steps == [] then w else Run(env, h, Advance(env, h, w, steps[0]), steps[1..])
  }

  ghost predicate CleansUp(a: World, b: World) {
    exists fs: seq<string> :: EndsCleanUp(a, b, fs)
  }

  /** A clean-up took place in the run's last step. */
  ghost predicate LastStepCleansUp(env: Env, h: Hasher, w: World, steps: seq<RunStep>) {
    steps != [] && CleansUp(Run(env, h, w, steps[..|steps| - 1]), Run(env, h, w, steps))
  }

  lemma {:induction false} RunSnoc(env: Env, h: Hasher, w: World, steps: seq<RunStep>, s: RunStep)
    ensures Run(env, h, w, steps + [s]) == Advance(env, h, Run(env, h, w, steps), s)
    decreases |steps|
  {
    if steps == [] {
      assert (steps + [s])[1..] == [];
    } else {
      assert (steps + [s])[1..] == steps[1..] + [s];
      RunSnoc(env, h, Advance(env, h, w, steps[0]), steps[1..], s);
    }
  }

  lemma StepHoldsOrCleansUp(env: Env, h: Hasher, w: World, s: RunStep)
    requires OnlyOperatorFinalizes(env) && Holds(w)
    requires s.OthersStep? ==> NoFinalizerWriter(s.writes)
    ensures Holds(Advance(env, h, w, s)) || CleansUp(w, Advance(env, h, w, s))
  {
    hide Deploy, Tape, CleanedUp, NoFinalizerWriter;
    match s {
      case OthersStep(fs) => ApplyAllHolds(w, fs);
      case ReconcileStep(planner) =>
        ArriveHolds(env, w);
        ArriveLog(env, w);
        var (v, cr, ok) := FetchCr(env, w);
        if cr.Some? {
          PassKeepsFinalizer(env, h, cr.value, planner(cr.value), v);
          var q := Advance(env, h, w, s);
          var fs := Without(cr.value.finalizers, FINALIZER_NAME);
          if EndsCleanUp(v, q, fs) {
            var x: World :| v.log <= x.log <= q.log && CleanedUp(Tape(x, q), fs);
            assert w.log <= x.log;
            assert EndsCleanUp(w, q, fs);
          }
        }
    }
  }

  /** Over any run of passes and steps of others (who do not write finalizer lists themselves), under any failures:
      a resource that had the finalizer still has it, unless some pass of the run deleted every StatefulSet and then
      every claim it listed, all successfully, before writing the finalizer list. */
  lemma {:induction false} FinalizerHeldUntilCleanUp(env: Env, h: Hasher, w: World, steps: seq<RunStep>)
    requires OnlyOperatorFinalizes(env) && Holds(w)
    requires forall s :: s in steps && s.OthersStep? ==> NoFinalizerWriter(s.writes)
    ensures Holds(Run(env, h, w, steps)) ||
            exists m: nat :: m <= |steps| && LastStepCleansUp(env, h, w, steps[..m])
    decreases |steps|
  {
    hide Advance, Holds, CleansUp;
    if steps != [] {
      var init, s := steps[..|steps| - 1], steps[|steps| - 1];
      assert steps == init + [s];
      FinalizerHeldUntilCleanUp(env, h, w, init);
      RunSnoc(env, h, w, init, s);
      if Holds(Run(env, h, w, init)) {
        StepHoldsOrCleansUp(env, h, Run(env, h, w, init), s);
        if !Holds(Run(env, h, w, steps)) {
          assert steps[..|steps|] == steps;
          assert LastStepCleansUp(env, h, w, steps[..|steps|]);
        }
      } else {
        var m: nat :| m <= |init| && LastStepCleansUp(env, h, w, init[..m]);
        assert init[..m] == steps[..m];
      }
    }
  }

  // ---------- versions ----------

  lemma AdvanceVersioned(env: Env, h: Hasher, w: World, s: RunStep)
    requires Versioned(w)
    ensures Versioned(Advance(env, h, w, s)) && Monotone(w, Advance(env, h, w, s))
  {
    hide Deploy, Versioned, Monotone;
    match s {
      case OthersStep(fs) => ApplyAllMonotone(w, fs);
      case ReconcileStep(planner) =>
        var (v, cr, ok) := FetchCr(env, w);
        ExecVersioned(env, h, w, ReadCr);
        if cr.Some? {
          PassVersioned(env, h, cr.value, planner(cr.value), v);
          MonotoneTrans(w, v, Advance(env, h, w, s));
        }
    }
  }

  /** Over every run no stored version is one still to be given out, and whatever is stored at the end is either exactly
      what was stored at the start or bears a version given out since. */
  lemma {:induction false} RunVersioned(env: Env, h: Hasher, w: World, steps: seq<RunStep>)
    requires Versioned(w)
    ensures Versioned(Run(env, h, w, steps)) && Monotone(w, Run(env, h, w, steps))
    decreases |steps|
  {
    hide Advance, Versioned;
    if steps != [] {
      var w1 := Advance(env, h, w, steps[0]);
      AdvanceVersioned(env, h, w, steps[0]);
      RunVersioned(env, h, w1, steps[1..]);
      MonotoneTrans(w, w1, Run(env, h, w, steps));
    }
  }

  // ---------- once deletion is requested ----------

  /** The resource is gone, or its deletion is requested and it has none but these finalizers. */
  ghost predicate Dying(w: World, fs: set<string>) {
    w.cr.None? || (w.cr.value.deleting && forall f :: f in w.cr.value.finalizers ==> f in fs)
  }

  lemma WriteKeepsDying(w: World, written: seq<string>, fs: set<string>)
    requires w.cr.Some? && Dying(w, fs)
    ensures Dying(WriteFinalizers(w, written), fs)
  {
    if exists i :: 0 <= i < |written| && written[i] !in w.cr.value.finalizers {
    } else {
      forall f | f in written ensures f in fs {
        var i :| 0 <= i < |written| && written[i] == f;
      }
    }
  }

  lemma {:induction false} ApplyAllKeepsDying(w: World, writes: seq<Foreign>, fs: set<string>)
    requires Dying(w, fs)
    ensures Dying(ApplyAll(w, writes), fs)
    decreases |writes|
  {
    hide WriteFinalizers;
    if writes != [] {
      if writes[0].SetFinalizers? && w.cr.Some? {
        WriteKeepsDying(w, writes[0].finalizers, fs);
      }
      ApplyAllKeepsDying(Apply(w, writes[0]), writes[1..], fs);
    }
  }

  lemma ExecKeepsDying(env: Env, h: Hasher, w: World, call: Call, fs: set<string>)
    requires Dying(w, fs)
    ensures Dying(Exec(env, h, w, call), fs)
  {
    hide WriteFinalizers, ApplyAll, Enumerates;
    ApplyAllKeepsDying(w, env(w.tick).writes, fs);
    var v := Arrive(env, w);
    if call.WriteCr? && v.cr.Some? {
      WriteKeepsDying(v, call.finalizers, fs);
    }
  }

  lemma {:induction false} CallsKeepDying(env: Env, h: Hasher, w: World, calls: seq<Call>, fs: set<string>)
    requires Dying(w, fs)
    ensures Dying(ExecAll(env, h, w, calls), fs)
    decreases |calls|
  {
    hide Exec, Dying;
    if calls != [] {
      ExecKeepsDying(env, h, w, calls[0], fs);
      CallsKeepDying(env, h, Exec(env, h, w, calls[0]), calls[1..], fs);
    }
  }

  lemma PassKeepsDying(env: Env, h: Hasher, cr: Cr, plan: Option<Plan>, w: World, fs: set<string>)
    requires Dying(w, fs)
    ensures Dying(Deploy(env, h, cr, plan, w).w, fs)
  {
    hide NodeLoop, Tail, Obeys, Dying;
    if plan.Some? {
      var m := MandateOf(cr, plan.value, w);
      DeployLeads(env, h, cr, plan.value, w);
      var calls: seq<Call> :| Obeys(env, h, m, w, calls) && ExecAll(env, h, w, calls) == Deploy(env, h, cr, plan, w).w;
      CallsKeepDying(env, h, w, calls, fs);
    }
  }

  /** Never re-added: over every run, whatever others write, a resource whose deletion is requested gains no finalizer,
      the operator's own included, until it is gone; and its deletion is never taken back. */
  lemma {:induction false} DyingNeverRegains(env: Env, h: Hasher, w: World, steps: seq<RunStep>, fs: set<string>)
    requires Dying(w, fs)
    ensures Dying(Run(env, h, w, steps), fs)
    decreases |steps|
  {
    hide Deploy, Dying;
    if steps != [] {
      match steps[0] {
        case OthersStep(writes) => ApplyAllKeepsDying(w, writes, fs);
        case ReconcileStep(planner) =>
          var (v, cr, ok) := FetchCr(env, w);
          ExecKeepsDying(env, h, w, ReadCr, fs);
          if cr.Some? {
            PassKeepsDying(env, h, cr.value, planner(cr.value), v, fs);
          }
      }
      DyingNeverRegains(env, h, Advance(env, h, w, steps[0]), steps[1..], fs);
    }
  }
}
