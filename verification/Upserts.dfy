/** What the upserts of a pass do to the store when other writers only drift. */
module Upserts {
  import opened Cluster
  import opened ApiServer
  import opened Reconcile
  import opened Frames

  predicate Fresh(h: Hasher, objs: map<Key, Obj>, c: Content) {
    c.key in objs && objs[c.key].hash == h(c)
  }

  function Contents(actions: seq<Action>): set<Content> {
    set a | a in actions :: a.content
  }

  function Desired(plan: Plan): set<Content> {
    Contents(plan.actions) + {plan.common}
  }

  ghost predicate AllFresh(h: Hasher, objs: map<Key, Obj>, cs: set<Content>) {
    forall c :: c in cs ==> Fresh(h, objs, c)
  }

  /** No object is desired with two different hashes. */
  ghost predicate ConflictFree(h: Hasher, cs: set<Content>) {
    forall c, d :: c in cs && d in cs && c.key == d.key ==> h(c) == h(d)
  }

  /** From `a` to `b` nothing was written: the same objects up to drift, and no write event. */
  ghost predicate Idle(a: World, b: World) {
    SameObjs(a.objs, b.objs) && Adds(a, b, IsRead)
  }

  lemma IdleTrans(a: World, b: World, c: World)
    requires Idle(a, b) && Idle(b, c)
    ensures Idle(a, c)
  {
    AddsTrans(a, b, c, IsRead);
  }

  /** What one upsert does to the store, under drift: it may set its own object to what is desired, and nothing else. */
  ghost predicate Wrote(h: Hasher, a: map<Key, Obj>, b: map<Key, Obj>, c: Content) {
    && a.Keys <= b.Keys <= a.Keys + {c.key}
    && (forall k :: k in a.Keys && k != c.key ==> SameObj(a[k], b[k]))
    && (c.key in b ==>
          || (c.key in a && SameObj(a[c.key], b[c.key]))
          || (Fresh(h, b, c) && b[c.key].labels == c.labels && b[c.key].body == c.body))
    && (c.key in a && c.key.kind.Service? ==> b[c.key].clusterIP == a[c.key].clusterIP)
  }

  /** Exactly one read, followed by one write attempt unless the object is already as desired or cannot be read. */
  lemma UpsertLog(env: Env, h: Hasher, w: World, c: Content)
    ensures var r := Fetch(env, w, c.key).1;
            var w2 := Upsert(env, h, w, c).0;
            && w.log <= w2.log
            && |w2.log| > |w.log| && w2.log[|w.log|].event == Got(c.key, r)
            && (r.Broken? || (r.Found? && r.obj.hash == h(c)) ==> |w2.log| == |w.log| + 1)
            && (r.NotFound? ==> |w2.log| == |w.log| + 2 && w2.log[|w.log| + 1].event.Created?)
            && (r.Found? && r.obj.hash != h(c) ==> |w2.log| == |w.log| + 2 && w2.log[|w.log| + 1].event.Updated?)
  {
    ArriveLog(env, w);
    var (w1, r) := Fetch(env, w, c.key);
    ArriveLog(env, Log(w1, Got(c.key, r)));
  }

  lemma WroteAfterDrift(h: Hasher, a: map<Key, Obj>, b: map<Key, Obj>, c: map<Key, Obj>, x: Content)
    requires SameObjs(a, b) && Wrote(h, b, c, x)
    ensures Wrote(h, a, c, x)
  {
  }

  lemma WroteBeforeDrift(h: Hasher, a: map<Key, Obj>, b: map<Key, Obj>, c: map<Key, Obj>, x: Content)
    requires Wrote(h, a, b, x) && SameObjs(b, c)
    ensures Wrote(h, a, c, x)
  {
  }

  lemma CreateWrites(env: Env, h: Hasher, w: World, c: Content)
    requires Drifting(env)
    ensures var (w2, ok) := Create(env, w, c, h(c));
            Wrote(h, w.objs, w2.objs, c) && (ok ==> Fresh(h, w2.objs, c))
  {
    ArriveDrifts(env, w);
    var v := Arrive(env, w);
    var w2 := Create(env, w, c, h(c)).0;
    assert Wrote(h, v.objs, w2.objs, c);
    WroteAfterDrift(h, w.objs, v.objs, w2.objs, c);
  }

  lemma UpdateWrites(env: Env, h: Hasher, w: World, c: Content, base: nat, ip: string)
    requires Drifting(env)
    requires c.key in w.objs && c.key.kind.Service? ==> ip == w.objs[c.key].clusterIP
    ensures var (w2, ok) := Update(env, w, c, h(c), base, ip);
            Wrote(h, w.objs, w2.objs, c) && (ok ==> Fresh(h, w2.objs, c))
  {
    ArriveDrifts(env, w);
    var v := Arrive(env, w);
    var w2 := Update(env, w, c, h(c), base, ip).0;
    assert Wrote(h, v.objs, w2.objs, c);
    WroteAfterDrift(h, w.objs, v.objs, w2.objs, c);
  }

  lemma UpsertObjs(env: Env, h: Hasher, w: World, c: Content)
    requires Drifting(env)
    ensures var (w2, st) := Upsert(env, h, w, c);
            && Wrote(h, w.objs, w2.objs, c)
            && (!st.UpsertFailed? ==> Fresh(h, w2.objs, c))
            && (Fresh(h, w.objs, c) ==> SameObjs(w.objs, w2.objs))
  {
    ArriveDrifts(env, w);
    var (w1, r) := Fetch(env, w, c.key);
    var w2 := Log(w1, Got(c.key, r));
    var w3 := Upsert(env, h, w, c).0;
    match r
    case Broken =>
    case NotFound =>
      CreateWrites(env, h, w2, c);
      WroteAfterDrift(h, w.objs, w2.objs, w3.objs, c);
    case Found(prev) =>
      if prev.hash != h(c) {
        UpdateWrites(env, h, w2, c, prev.version, if c.key.kind.Service? then prev.clusterIP else "");
        WroteAfterDrift(h, w.objs, w2.objs, w3.objs, c);
      }
  }

  lemma UpsertReads(env: Env, w: World, c: Content, h: Hasher)
    requires Drifting(env)
    ensures var r := Fetch(env, w, c.key).1;
            || r.Broken?
            || (r.Found? && c.key in w.objs && r.obj.hash == w.objs[c.key].hash)
            || (r.NotFound? && c.key !in w.objs)
  {
    ArriveDrifts(env, w);
  }

  lemma CheckIdle(env: Env, w: World, k: Key)
    requires Drifting(env)
    ensures Idle(w, CheckDeployed(env, w, k).0)
  {
    ArriveDrifts(env, w);
  }

  /** What follows an upsert within a step only reads. */
  lemma StepIsUpsert(env: Env, h: Hasher, gating: bool, checking: bool, p: Pass, a: Action)
    requires Drifting(env) && p.flow.Going?
    ensures var q := Step(env, h, gating, checking, p, a);
            var (w1, st) := Upsert(env, h, p.w, a.content);
            Idle(w1, q.w) && (st.UpsertFailed? ==> q.flow.Failed?)
  {
    CheckIdle(env, Upsert(env, h, p.w, a.content).0, a.content.key);
  }

  lemma StepLog(env: Env, h: Hasher, gating: bool, checking: bool, p: Pass, a: Action)
    requires Drifting(env) && p.flow.Going?
    ensures var q := Step(env, h, gating, checking, p, a);
            && Adds(p.w, q.w, NotDelete)
            && (Fresh(h, p.w.objs, a.content) ==> Adds(p.w, q.w, IsRead))
            && (Adds(p.w, q.w, NotUpsert) ==> q.flow.Failed? || Fresh(h, p.w.objs, a.content))
  {
    var c := a.content;
    UpsertLog(env, h, p.w, c);
    UpsertReads(env, p.w, c, h);
    var w1 := Upsert(env, h, p.w, c).0;
    StepIsUpsert(env, h, gating, checking, p, a);
    var q := Step(env, h, gating, checking, p, a);
    if Fresh(h, p.w.objs, c) {
      assert Adds(p.w, w1, IsRead);
      AddsTrans(p.w, w1, q.w, IsRead);
    }
    assert Adds(p.w, w1, NotDelete);
    AddsTrans(p.w, w1, q.w, NotDelete);
    if |w1.log| > |p.w.log| + 1 {
      assert q.w.log[|p.w.log| + 1] == w1.log[|p.w.log| + 1];
    }
  }

  lemma StepObjs(env: Env, h: Hasher, gating: bool, checking: bool, p: Pass, a: Action)
    requires Drifting(env) && p.flow.Going?
    ensures var q := Step(env, h, gating, checking, p, a);
            && Wrote(h, p.w.objs, q.w.objs, a.content)
            && (!q.flow.Failed? ==> Fresh(h, q.w.objs, a.content))
            && (Fresh(h, p.w.objs, a.content) ==> SameObjs(p.w.objs, q.w.objs))
  {
    var (w1, st) := Upsert(env, h, p.w, a.content);
    UpsertObjs(env, h, p.w, a.content);
    StepIsUpsert(env, h, gating, checking, p, a);
    WroteBeforeDrift(h, p.w.objs, w1.objs, Step(env, h, gating, checking, p, a).w.objs, a.content);
  }

  // ---------- a whole sequence of steps ----------

  function Keys(actions: seq<Action>): set<Key> {
    set a | a in actions :: a.content.key
  }

  /** The names recorded are those of the actions reached, all of them when the sequence was not left early. */
  lemma {:induction false} StepsNames(env: Env, h: Hasher, gating: bool, checking: bool, p: Pass, actions: seq<Action>)
    ensures var q := Steps(env, h, gating, checking, p, actions);
            && p.names <= q.names <= p.names + Keys(actions)
            && (q.flow.Going? ==> p.flow.Going? && q.names == p.names + Keys(actions))
    decreases |actions|
  {
    if actions != [] {
      var p1 := Step(env, h, gating, checking, p, actions[0]);
      StepsNames(env, h, gating, checking, p1, actions[1..]);
      assert Keys(actions) == Keys(actions[1..]) + {actions[0].content.key} by {
        assert actions == [actions[0]] + actions[1..];
      }
    }
  }

  lemma {:induction false} StepsHalted(env: Env, h: Hasher, gating: bool, checking: bool, p: Pass, actions: seq<Action>)
    requires !p.flow.Going?
    ensures Steps(env, h, gating, checking, p, actions) == p
    decreases |actions|
  {
    if actions != [] {
      StepsHalted(env, h, gating, checking, p, actions[1..]);
    }
  }

  /** Between two stores nothing was removed, only `keys` appeared or changed, and services kept their addresses. */
  ghost predicate Framed(a: map<Key, Obj>, b: map<Key, Obj>, keys: set<Key>) {
    && a.Keys <= b.Keys <= a.Keys + keys
    && (forall k :: k in a.Keys - keys ==> SameObj(a[k], b[k]))
    && (forall k :: k in a && k.kind.Service? ==> b[k].clusterIP == a[k].clusterIP)
  }

  lemma FramedTrans(a: map<Key, Obj>, b: map<Key, Obj>, c: map<Key, Obj>, k1: set<Key>, k2: set<Key>)
    requires Framed(a, b, k1) && Framed(b, c, k2)
    ensures Framed(a, c, k1 + k2)
  {
  }

  lemma WroteFramed(h: Hasher, a: map<Key, Obj>, b: map<Key, Obj>, c: Content)
    requires Wrote(h, a, b, c)
    ensures Framed(a, b, {c.key})
  {
  }

  /** Upserts delete nothing, create only desired names, touch only desired names, and keep service addresses. */
  lemma {:induction false} StepsFrame(env: Env, h: Hasher, gating: bool, checking: bool, p: Pass, actions: seq<Action>)
    requires Drifting(env)
    ensures var q := Steps(env, h, gating, checking, p, actions);
            Adds(p.w, q.w, NotDelete) && Framed(p.w.objs, q.w.objs, Keys(actions))
    decreases |actions|
  {
    hide Step, Wrote, Fresh, NotDelete, IsRead, NotUpsert, Drifting, Framed;
    if actions == [] || !p.flow.Going? {
      StepsHalt(env, h, gating, checking, p, actions);
      FramedSelf(p.w.objs, Keys(actions));
    } else {
      var p1 := Step(env, h, gating, checking, p, actions[0]);
      var q := Steps(env, h, gating, checking, p, actions);
      StepLog(env, h, gating, checking, p, actions[0]);
      StepObjs(env, h, gating, checking, p, actions[0]);
      WroteFramed(h, p.w.objs, p1.w.objs, actions[0].content);
      StepsFrame(env, h, gating, checking, p1, actions[1..]);
      AddsTrans(p.w, p1.w, q.w, NotDelete);
      FramedTrans(p.w.objs, p1.w.objs, q.w.objs, {actions[0].content.key}, Keys(actions[1..]));
      KeysFirst(actions);
    }
  }

  lemma KeysFirst(actions: seq<Action>)
    requires actions != []
    ensures Keys(actions) == {actions[0].content.key} + Keys(actions[1..])
  {
    assert actions == [actions[0]] + actions[1..];
  }

  lemma FramedSelf(a: map<Key, Obj>, keys: set<Key>)
    ensures Framed(a, a, keys)
  {
  }

  lemma StepsHalt(env: Env, h: Hasher, gating: bool, checking: bool, p: Pass, actions: seq<Action>)
    requires actions == [] || !p.flow.Going?
    ensures Steps(env, h, gating, checking, p, actions) == p
  {
    if actions != [] {
      StepsHalted(env, h, gating, checking, p, actions);
    }
  }

  lemma {:induction false} StepsIdle(env: Env, h: Hasher, gating: bool, checking: bool, p: Pass, actions: seq<Action>)
    requires Drifting(env)
    requires AllFresh(h, p.w.objs, Contents(actions))
    ensures Idle(p.w, Steps(env, h, gating, checking, p, actions).w)
    decreases |actions|
  {
    if actions != [] && p.flow.Going? {
      var p1 := Step(env, h, gating, checking, p, actions[0]);
      StepLog(env, h, gating, checking, p, actions[0]);
      StepObjs(env, h, gating, checking, p, actions[0]);
      assert actions[0].content in Contents(actions);
      forall c | c in Contents(actions[1..]) ensures Fresh(h, p1.w.objs, c) {
        assert c in Contents(actions);
      }
      StepsIdle(env, h, gating, checking, p1, actions[1..]);
      IdleTrans(p.w, p1.w, Steps(env, h, gating, checking, p, actions).w);
    } else if actions != [] {
      StepsHalted(env, h, gating, checking, p, actions);
    }
  }

  /** An object that is as desired stays so through upserts that agree on it. */
  lemma {:induction false} StepsKeepFresh(env: Env, h: Hasher, gating: bool, checking: bool, p: Pass,
                                          actions: seq<Action>, c: Content)
    requires Drifting(env)
    requires Fresh(h, p.w.objs, c)
    requires forall a :: a in actions && a.content.key == c.key ==> h(a.content) == h(c)
    ensures Fresh(h, Steps(env, h, gating, checking, p, actions).w.objs, c)
    decreases |actions|
  {
    if actions != [] && p.flow.Going? {
      StepObjs(env, h, gating, checking, p, actions[0]);
      StepsKeepFresh(env, h, gating, checking, Step(env, h, gating, checking, p, actions[0]), actions[1..], c);
    } else if actions != [] {
      StepsHalted(env, h, gating, checking, p, actions);
    }
  }

  /** A sequence that was not left early leaves everything as desired, when it does not contradict itself. */
  lemma {:induction false} StepsEstablish(env: Env, h: Hasher, gating: bool, checking: bool, p: Pass,
                                          actions: seq<Action>)
    requires Drifting(env)
    requires ConflictFree(h, Contents(actions))
    requires Steps(env, h, gating, checking, p, actions).flow.Going?
    ensures AllFresh(h, Steps(env, h, gating, checking, p, actions).w.objs, Contents(actions))
    decreases |actions|
  {
    if actions != [] {
      StepsNames(env, h, gating, checking, p, actions);
      var p1 := Step(env, h, gating, checking, p, actions[0]);
      StepsNames(env, h, gating, checking, p1, actions[1..]);
      StepObjs(env, h, gating, checking, p, actions[0]);
      assert actions == [actions[0]] + actions[1..];
      assert forall c :: c in Contents(actions[1..]) ==> c in Contents(actions);
      StepsEstablish(env, h, gating, checking, p1, actions[1..]);
      forall a | a in actions[1..] && a.content.key == actions[0].content.key
        ensures h(a.content) == h(actions[0].content)
      {
        assert a.content in Contents(actions) && actions[0].content in Contents(actions);
      }
      StepsKeepFresh(env, h, gating, checking, p1, actions[1..], actions[0].content);
    }
  }

  lemma FirstStepQuiet(env: Env, h: Hasher, gating: bool, checking: bool, p: Pass, a: Action, q: World)
    requires Drifting(env) && p.flow.Going?
    requires var p1 := Step(env, h, gating, checking, p, a); !p1.flow.Failed? && Adds(p1.w, q, NotDelete)
    requires Adds(p.w, q, NotUpsert)
    ensures var p1 := Step(env, h, gating, checking, p, a);
            Fresh(h, p.w.objs, a.content) && SameObjs(p.w.objs, p1.w.objs) && Adds(p1.w, q, NotUpsert)
  {
    StepLog(env, h, gating, checking, p, a);
    StepObjs(env, h, gating, checking, p, a);
    AddsSplit(p.w, Step(env, h, gating, checking, p, a).w, q, NotUpsert);
  }

  /** A sequence that ran to its end without a write attempt found everything as desired. */
  lemma {:induction false} StepsQuietWasFresh(env: Env, h: Hasher, gating: bool, checking: bool, p: Pass,
                                              actions: seq<Action>)
    requires Drifting(env)
    requires Steps(env, h, gating, checking, p, actions).flow.Going?
    requires Adds(p.w, Steps(env, h, gating, checking, p, actions).w, NotUpsert)
    ensures AllFresh(h, p.w.objs, Contents(actions))
    decreases |actions|
  {
    hide Step, Drifting, NotUpsert, NotDelete, IsRead, Framed, Adds;
    if actions != [] {
      StepsNames(env, h, gating, checking, p, actions);
      var p1 := Step(env, h, gating, checking, p, actions[0]);
      StepsNames(env, h, gating, checking, p1, actions[1..]);
      StepsFrame(env, h, gating, checking, p1, actions[1..]);
      FirstStepQuiet(env, h, gating, checking, p, actions[0], Steps(env, h, gating, checking, p, actions).w);
      StepsQuietWasFresh(env, h, gating, checking, p1, actions[1..]);
      assert actions == [actions[0]] + actions[1..];
      forall c | c in Contents(actions) ensures Fresh(h, p.w.objs, c) {
        if c != actions[0].content {
          assert c in Contents(actions[1..]);
        }
      }
    }
  }
}
