/** What the calls and the passes may change: frames, log extensions and version discipline. */
module Frames {
  import opened Cluster
  import opened ApiServer

  // ---------- surroundings ----------

  /** Other writers only rescale workloads and report status: what an autoscaler and the workload controllers do. */
  ghost predicate Drifting(env: Env) {
    forall n: nat, i: nat :: i < |env(n).writes| ==> env(n).writes[i].Touch?
  }

  /** Nobody else writes while the operator runs. */
  ghost predicate Alone(env: Env) {
    forall n: nat :: env(n).writes == []
  }

  ghost predicate Faultless(env: Env) {
    forall n: nat :: env(n).fault.NoFault?
  }

  lemma AloneArrives(env: Env, w: World)
    requires Alone(env)
    ensures Arrive(env, w) == w.(tick := w.tick + 1)
  {
  }

  // ---------- objects up to drift ----------

  predicate SameObj(a: Obj, b: Obj) {
    a.labels == b.labels && a.hash == b.hash && a.body == b.body && a.clusterIP == b.clusterIP
  }

  /** Same objects, up to versions, replica counts and status. */
  ghost predicate SameObjs(a: map<Key, Obj>, b: map<Key, Obj>) {
    a.Keys == b.Keys && forall k :: k in a.Keys ==> SameObj(a[k], b[k])
  }

  lemma {:induction false} ApplyAllDrifts(w: World, fs: seq<Foreign>)
    requires forall i :: 0 <= i < |fs| ==> fs[i].Touch?
    ensures var v := ApplyAll(w, fs); SameObjs(w.objs, v.objs) && v.cr == w.cr && v.log == w.log && v.tick == w.tick
    decreases |fs|
  {
    if fs != [] {
      var w1 := Apply(w, fs[0]);
      assert SameObjs(w.objs, w1.objs);
      ApplyAllDrifts(w1, fs[1..]);
    }
  }

  lemma ArriveDrifts(env: Env, w: World)
    requires Drifting(env)
    ensures var v := Arrive(env, w); SameObjs(w.objs, v.objs) && v.cr == w.cr && v.log == w.log
  {
    ApplyAllDrifts(w, env(w.tick).writes);
  }

  lemma {:induction false} ApplyAllLog(w: World, fs: seq<Foreign>)
    ensures ApplyAll(w, fs).log == w.log && ApplyAll(w, fs).tick == w.tick
    decreases |fs|
  {
    if fs != [] {
      ApplyAllLog(Apply(w, fs[0]), fs[1..]);
    }
  }

  lemma ArriveLog(env: Env, w: World)
    ensures Arrive(env, w).log == w.log && Arrive(env, w).tick == w.tick + 1
  {
    ApplyAllLog(w, env(w.tick).writes);
  }

  // ---------- log extensions ----------

  /** `b`'s log extends `a`'s by entries whose events satisfy `good`. */
  ghost predicate Adds(a: World, b: World, good: Event -> bool) {
    a.log <= b.log && forall i :: |a.log| <= i < |b.log| ==> good(b.log[i].event)
  }

  lemma AddsTrans(a: World, b: World, c: World, good: Event -> bool)
    requires Adds(a, b, good) && Adds(b, c, good)
    ensures Adds(a, c, good)
  {
    forall i | |a.log| <= i < |c.log| ensures good(c.log[i].event) {
      if i < |b.log| {
        assert c.log[i] == b.log[i];
      }
    }
  }

  lemma AddsSplit(a: World, b: World, c: World, good: Event -> bool)
    requires Adds(a, c, good) && a.log <= b.log <= c.log
    ensures Adds(a, b, good) && Adds(b, c, good)
  {
    forall i | |a.log| <= i < |b.log| ensures good(b.log[i].event) {
      assert c.log[i] == b.log[i];
    }
  }

  predicate IsWrite(e: Event) {
    e.Created? || e.Updated? || e.Deleted?
  }

  predicate IsRead(e: Event) {
    !IsWrite(e)
  }

  predicate NotDelete(e: Event) {
    !e.Deleted?
  }

  predicate NotUpsert(e: Event) {
    !e.Created? && !e.Updated?
  }

  // ---------- resource versions ----------

  /** No stored object carries a version that is still to be given out. */
  ghost predicate Versioned(w: World) {
    && (forall k :: k in w.objs ==> w.objs[k].version <= w.version)
    && (w.cr.Some? ==> w.cr.value.version <= w.version)
  }

  /** Between two moments an object is either exactly as it was or carries a newer version. */
  ghost predicate Monotone(a: World, b: World) {
    && a.version <= b.version
    && (forall k :: k in a.objs && k in b.objs ==> b.objs[k] == a.objs[k] || b.objs[k].version > a.version)
    && (forall k :: k !in a.objs && k in b.objs ==> b.objs[k].version > a.version)
    && (b.cr.Some? ==> b.cr == a.cr || b.cr.value.version > a.version)
  }

  lemma ApplyMonotone(w: World, f: Foreign)
    requires Versioned(w)
    ensures Versioned(Apply(w, f)) && Monotone(w, Apply(w, f))
  {
  }

  lemma MonotoneTrans(a: World, b: World, c: World)
    requires Monotone(a, b) && Monotone(b, c) && Versioned(a)
    ensures Monotone(a, c)
  {
  }

  lemma {:induction false} ApplyAllMonotone(w: World, fs: seq<Foreign>)
    requires Versioned(w)
    ensures Versioned(ApplyAll(w, fs)) && Monotone(w, ApplyAll(w, fs))
    decreases |fs|
  {
    hide Apply, Versioned;
    if fs != [] {
      var w1 := Apply(w, fs[0]);
      ApplyMonotone(w, fs[0]);
      ApplyAllMonotone(w1, fs[1..]);
      MonotoneTrans(w, w1, ApplyAll(w, fs));
    }
  }

  lemma ArriveMonotone(env: Env, w: World)
    requires Versioned(w)
    ensures Versioned(Arrive(env, w)) && Monotone(w, Arrive(env, w))
  {
    ApplyAllMonotone(w, env(w.tick).writes);
  }
}
