/** Compare-and-swap and frame under interference by other writers. */
module Interference {
  import opened Cluster
  import opened ApiServer
  import opened Reconcile
  import opened Frames

  /** The world the operator's update meets, and the object it read just before. */
  function ReadWorld(env: Env, w: World, c: Content): World {
    var (w1, r) := Fetch(env, w, c.key);
    Log(w1, Got(c.key, r))
  }

  /** Whatever others do between the read and the write, an update that takes effect overwrote exactly the object
      that was read, left the address of a service and the status alone, and touched no other object; and a reported
      success did take effect. */
  lemma UpdateOverwritesWhatWasRead(env: Env, h: Hasher, w: World, c: Content)
    requires Versioned(w)
    requires Fetch(env, w, c.key).1.Found? && Fetch(env, w, c.key).1.obj.hash != h(c)
    ensures var read := Fetch(env, w, c.key).1.obj;
            var met := Arrive(env, ReadWorld(env, w, c));
            var (w2, st) := Upsert(env, h, w, c);
            (st.ResourceUpdated? ==> w2.objs != met.objs) &&
            (w2.objs != met.objs ==>
              && c.key in met.objs && met.objs[c.key] == read
              && w2.objs.Keys == met.objs.Keys
              && (forall k :: k in met.objs && k != c.key ==> w2.objs[k] == met.objs[k])
              && w2.objs[c.key].hash == h(c) && w2.objs[c.key].body == c.body && w2.objs[c.key].labels == c.labels
              && (c.key.kind.Service? ==> w2.objs[c.key].clusterIP == read.clusterIP)
              && w2.objs[c.key].current == read.current && w2.objs[c.key].target == read.target)
  {
    ArriveMonotone(env, w);
    ArriveMonotone(env, ReadWorld(env, w, c));
    var met := Arrive(env, ReadWorld(env, w, c));
    if c.key in met.objs {
      assert met.objs[c.key].version <= met.version;
    }
  }

  ghost predicate TriedUpdate(a: World, b: World) {
    exists i :: |a.log| <= i < |b.log| && b.log[i].event.Updated?
  }

  ghost predicate TriedCreate(a: World, b: World) {
    exists i :: |a.log| <= i < |b.log| && b.log[i].event.Created?
  }

  /** An update is issued exactly when the hash annotation that was read is not the desired hash. */
  lemma UpdateIssuedIffHashDiffers(env: Env, h: Hasher, w: World, c: Content)
    ensures var r := Fetch(env, w, c.key).1;
            var w2 := Upsert(env, h, w, c).0;
            && (TriedUpdate(w, w2) <==> r.Found? && r.obj.hash != h(c))
            && (TriedCreate(w, w2) <==> r.NotFound?)
  {
    ArriveLog(env, w);
    ArriveLog(env, ReadWorld(env, w, c));
    var r := Fetch(env, w, c.key).1;
    var w2 := Upsert(env, h, w, c).0;
    if !r.Broken? && (r.NotFound? || r.obj.hash != h(c)) {
      assert w2.log[|w.log| + 1].event.Updated? || w2.log[|w.log| + 1].event.Created?;
    }
  }

  /** Drift outside the annotation never decides: in two worlds, under any two surroundings, whose objects of this name
      differ at most in version, replica count and status when they are read, the upsert tries the same call, and two
      updates that take effect store the same object up to those. */
  lemma DriftNeverDecides(env1: Env, env2: Env, h: Hasher, w1: World, w2: World, c: Content)
    requires env1(w1.tick).fault.NoFault? && env2(w2.tick).fault.NoFault?
    requires var a, b := Arrive(env1, w1).objs, Arrive(env2, w2).objs;
             (c.key in a <==> c.key in b) && (c.key in a ==> SameObj(a[c.key], b[c.key]))
    ensures var (a, st1) := Upsert(env1, h, w1, c);
            var (b, st2) := Upsert(env2, h, w2, c);
            && (TriedUpdate(w1, a) <==> TriedUpdate(w2, b))
            && (TriedCreate(w1, a) <==> TriedCreate(w2, b))
            && (st1.Unchanged? <==> st2.Unchanged?)
            && (st1.ResourceUpdated? && st2.ResourceUpdated? ==>
                  c.key in a.objs && c.key in b.objs && SameObj(a.objs[c.key], b.objs[c.key]))
  {
    UpdateIssuedIffHashDiffers(env1, h, w1, c);
    UpdateIssuedIffHashDiffers(env2, h, w2, c);
  }
}
