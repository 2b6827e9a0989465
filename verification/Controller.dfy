/** The operator as it is written, over a store that its calls update in place: every method is proved to do exactly
    what the pass functions say, so what is proved about those holds of it. */
module Controller {
  import opened Cluster
  import opened ApiServer
  import opened Strings
  import opened PrescribedOrder
  import opened Reconcile
  import opened Upserts
  import opened Planner
  import opened Runs
  import opened Names
  import opened Aliasing

  /** The names of the desired objects, one set per kind, filled in as the pass goes. */
  class NameMaps {
    const ns: string
    var byKind: map<Kind, set<string>>
    ghost var keys: set<Key>

    predicate Has(kind: Kind, name: string)
      reads this
    {
      kind in byKind && name in byKind[kind]
    }

    ghost predicate Valid()
      reads this
    {
      forall k: Key :: k in keys <==> k.ns == ns && Has(k.kind, k.name)
    }

    constructor (ns: string)
      ensures Valid() && keys == {} && this.ns == ns
    {
      this.ns := ns;
      byKind := map[];
      keys := {};
    }

    method Add(key: Key)
      requires Valid() && key.ns == ns
      modifies this
      ensures Valid() && keys == old(keys) + {key}
    {
      byKind := byKind[key.kind := (if key.kind in byKind then byKind[key.kind] else {}) + {key.name}];
      keys := keys + {key};
    }
  }

  /** No object but that of name `k` differs. */
  ghost predicate OnlyChanged(a: map<Key, Obj>, b: map<Key, Obj>, k: Key) {
    forall x :: x != k ==> (x in a <==> x in b) && (x in a ==> b[x] == a[x])
  }

  /** The object says what `c` says, hash annotation and replica count included. */
  predicate AsDesired(o: Obj, c: Content, h: Hasher) {
    && o.labels == c.labels && o.body == c.body && o.hash == h(c)
    && (c.body.WorkloadBody? ==> o.replicas == c.body.replicas)
  }

  /** The object, which bore the version `base`, was replaced by one as desired, with a newer version, the address `ip`
      and the status as it was. */
  ghost predicate Replaced(met: World, b: map<Key, Obj>, c: Content, h: Hasher, base: nat, ip: string) {
    && c.key in met.objs && met.objs[c.key].version == base
    && c.key in b && AsDesired(b[c.key], c, h) && b[c.key].version > met.version && b[c.key].clusterIP == ip
    && b[c.key].current == met.objs[c.key].current && b[c.key].target == met.objs[c.key].target
  }

  class Operator {
    const env: Env
    const h: Hasher
    var world: World

    constructor (env: Env, h: Hasher, world: World)
      ensures this.env == env && this.h == h && this.world == world
    {
      this.env := env;
      this.h := h;
      this.world := world;
    }

    // ---------- interface.go ----------

    method Get(key: Key, checking: bool) returns (r: Reply)
      modifies this`world
      ensures r == Fetch(env, old(world), key).1
      ensures r.Found? ==> key in world.objs && r.obj == world.objs[key]
      ensures r.NotFound? ==> key !in world.objs
      ensures world == Log(Fetch(env, old(world), key).0, if checking then Checked(key, r) else Got(key, r))
    {
      var (w, reply) := Fetch(env, world, key);
      world := Log(w, if checking then Checked(key, reply) else Got(key, reply));
      r := reply;
    }

    method ListObjects(kind: Kind, ns: string, sel: Labels) returns (items: Option<seq<Key>>)
      modifies this`world
      ensures (world, items) == List(env, old(world), kind, ns, sel)
      ensures items.Some? ==> Enumerates(items.value, world.objs, kind, ns, sel)
    {
      var (w, r) := List(env, world, kind, ns, sel);
      world := w;
      items := r;
    }

    /** A success stored, under a name that was free, an object as desired with a version newer than all before;
        whatever the answer, no other object changed, and this one is either absent as before or as desired. */
    method CreateObject(c: Content) returns (ok: bool)
      modifies this`world
      ensures (world, ok) == Create(env, old(world), c, h(c))
      ensures var met := Arrive(env, old(world));
              && OnlyChanged(met.objs, world.objs, c.key)
              && (ok ==> c.key !in met.objs && c.key in world.objs)
              && (c.key in met.objs ==> !ok && world.objs == met.objs)
              && (c.key !in met.objs && c.key in world.objs ==>
                    AsDesired(world.objs[c.key], c, h) && world.objs[c.key].version > met.version)
    {
      var (w, r) := Create(env, world, c, h(c));
      world := w;
      ok := r;
    }

    /** Compare-and-swap: a success replaced the object of version `base`; whatever the answer, no other object changed,
        and this one is as it was or was replaced at that version. */
    method UpdateObject(c: Content, base: nat, ip: string) returns (ok: bool)
      modifies this`world
      ensures (world, ok) == Update(env, old(world), c, h(c), base, ip)
      ensures var met := Arrive(env, old(world));
              && OnlyChanged(met.objs, world.objs, c.key)
              && (ok ==> Replaced(met, world.objs, c, h, base, ip))
              && (world.objs == met.objs || Replaced(met, world.objs, c, h, base, ip))
    {
      var (w, r) := Update(env, world, c, h(c), base, ip);
      world := w;
      ok := r;
    }

    /** A success removed an object that was there; whatever the answer, no other object changed, and this one is as it
        was or gone. */
    method DeleteObject(key: Key) returns (ok: bool)
      modifies this`world
      ensures (world, ok) == Delete(env, old(world), key)
      ensures var met := Arrive(env, old(world));
              && OnlyChanged(met.objs, world.objs, key)
              && (ok ==> key in met.objs && key !in world.objs)
              && (key in world.objs ==> key in met.objs && world.objs[key] == met.objs[key])
    {
      var (w, r) := Delete(env, world, key);
      world := w;
      ok := r;
    }

    /** Compare-and-swap on the resource as read: a success wrote the list to that very version, unless it was the
        empty list of a resource whose deletion is requested, which is then gone; nothing but the list and the
        version changes, and no object. */
    method UpdateFinalizers(cr: Cr, fs: seq<string>) returns (ok: bool)
      modifies this`world
      ensures (world, ok) == UpdateCr(env, old(world), cr, fs)
      ensures var met := Arrive(env, old(world));
              && world.objs == met.objs
              && (ok ==> met.cr.Some? && met.cr.value.version == cr.version)
              && (ok && met.cr.value.deleting && fs == [] ==> world.cr.None?)
              && (ok && !(met.cr.value.deleting && fs == []) ==>
                    world.cr == Some(met.cr.value.(finalizers := fs, version := met.version + 1)))
    {
      var (w, r) := UpdateCr(env, world, cr, fs);
      world := w;
      ok := r;
    }

    method GetCr() returns (cr: Option<Cr>, ok: bool)
      modifies this`world
      ensures (world, cr, ok) == FetchCr(env, old(world))
      ensures ok ==> cr == world.cr
      ensures !ok ==> cr.None?
    {
      var (w, r, served) := FetchCr(env, world);
      world := w;
      cr := r;
      ok := served;
    }

    method Patch(updated: Status)
      modifies this`world
      ensures world == PatchStatus(env, old(world), updated)
    {
      world := PatchStatus(env, world, updated);
    }

    // ---------- upserts ----------

    /** `sdkCreateOrUpdateAsNeeded`. */
    method CreateOrUpdateAsNeeded(c: Content, names: NameMaps) returns (st: NodeStatus)
      requires names.Valid() && c.key.ns == names.ns
      modifies this`world, names
      ensures names.Valid() && names.keys == old(names.keys) + {c.key}
      ensures (world, st) == Upsert(env, h, old(world), c)
    {
      names.Add(c.key);
      var prev := Get(c.key, false);
      if prev.NotFound? {
        var ok := CreateObject(c);
        return if ok then ResourceCreated else UpsertFailed;
      }
      if prev.Broken? {
        return UpsertFailed;
      }
      if prev.obj.hash != h(c) {
        var ok := UpdateObject(c, prev.obj.version, if c.key.kind.Service? then prev.obj.clusterIP else "");
        return if ok then ResourceUpdated else UpsertFailed;
      }
      return Unchanged;
    }

    /** `isObjFullyDeployed`, for the workload kinds. */
    method IsObjFullyDeployed(key: Key) returns (done: bool, failed: bool)
      modifies this`world
      ensures (world, if done then Going else if failed then Failed else Waiting) == CheckDeployed(env, old(world), key)
    {
      var r := Get(key, true);
      if !r.Found? {
        return false, true;
      }
      return r.obj.current == r.obj.target, false;
    }

    /** The upserts of config maps, services and the objects after the workload: the first failure ends the pass. */
    method EnsureAll(cs: seq<Content>, gating: bool, checking: bool, names: NameMaps) returns (flow: Flow)
      requires names.Valid() && forall c :: c in cs ==> c.key.ns == names.ns
      modifies this`world, names
      ensures names.Valid()
      ensures Pass(world, names.keys, flow)
           == Steps(env, h, gating, checking, Pass(old(world), old(names.keys), Going), Ensures(cs))
    {
      ghost var p0 := Pass(world, names.keys, Going);
      for i := 0 to |cs|
        invariant names.Valid()
        invariant Steps(env, h, gating, checking, p0, Ensures(cs))
               == Steps(env, h, gating, checking, Pass(world, names.keys, Going), Ensures(cs)[i..])
      {
        ghost var rest := Ensures(cs)[i..];
        assert rest[0] == Ensure(cs[i]) && rest[1..] == Ensures(cs)[i + 1..];
        var st := CreateOrUpdateAsNeeded(cs[i], names);
        if st.UpsertFailed? {
          StepsHalted(env, h, gating, checking, Pass(world, names.keys, Failed), rest[1..]);
          return Failed;
        }
      }
      return Going;
    }

    /** The upsert of a workload, and whether the pass may go on past it. */
    method DeployWorkload(c: Content, gating: bool, checking: bool, names: NameMaps) returns (flow: Flow)
      requires names.Valid() && c.key.ns == names.ns
      modifies this`world, names
      ensures names.Valid()
      ensures Pass(world, names.keys, flow)
           == Step(env, h, gating, checking, Pass(old(world), old(names.keys), Going), Gate(c))
    {
      var st := CreateOrUpdateAsNeeded(c, names);
      if st.UpsertFailed? {
        return Failed;
      }
      if gating {
        if st.ResourceUpdated? {
          return Waiting;
        }
        if checking {
          var done, failed := IsObjFullyDeployed(c.key);
          if !done {
            return if failed then Failed else Waiting;
          }
        }
      }
      return Going;
    }

    /** One service of a node's list: made, its maps written, and upserted. */
    method EnsureService(ss: seq<SharedService>, i: nat, cr: Cr, lm: GoMap, unique: string, port: int, names: NameMaps,
                         ghost ts: seq<ServiceTemplate>)
      returns (name: string, st: NodeStatus)
      requires names.Valid() && names.ns == cr.ns && i < |ss|
      requires AllSeparate(ss) && lm !in AllMaps(ss) && ViewsAs(ss, ts) && this !in AllMaps(ss) && names !in AllMaps(ss)
      modifies this`world, names, ss[i].Maps()
      ensures var c := MakeService(ts[i], cr, old(lm.m), unique, port);
              && names.Valid() && names.keys == old(names.keys) + {c.key} && name == c.key.name
              && (world, st) == Upsert(env, h, old(world), c)
      ensures lm.m == old(lm.m) && ViewsAs(ss, ts[i := AfterService(h, ts[i], cr, lm.m, unique, port)])
    {
      hide MakeService, AfterService, AllSeparate, ViewsAs, Upsert;
      SameCount(ss, ts);
      MapsOfOne(ss, i);
      MakeServiceKey(ts[i], cr, lm.m, unique, port);
      var c := SendOneOf(h, ss, i, cr, lm, unique, port, ts);
      st := CreateOrUpdateAsNeeded(c, names);
      name := c.key.name;
    }

    /** The service loop of one node: each service is made, its template's maps written, and upserted. */
    method EnsureServices(ss: seq<SharedService>, cr: Cr, lm: GoMap, unique: string, port: int, gating: bool,
                          checking: bool,
                          names: NameMaps, ghost ts: seq<ServiceTemplate>)
      returns (flow: Flow, first: string)
      requires names.Valid() && names.ns == cr.ns
      requires AllSeparate(ss) && lm !in AllMaps(ss) && ViewsAs(ss, ts) && this !in AllMaps(ss) && names !in AllMaps(ss)
      modifies this`world, names, AllMaps(ss)
      ensures names.Valid() && lm.m == old(lm.m)
      ensures Pass(world, names.keys, flow)
           == Steps(env, h, gating, checking, Pass(old(world), old(names.keys), Going),
                    Ensures(MakeServices(ts, cr, lm.m, unique, port)))
      ensures flow.Going? ==> ViewsAs(ss, AfterServices(h, ts, cr, lm.m, unique, port))
      ensures flow.Going? ==> first == FirstName(MakeServices(ts, cr, lm.m, unique, port))
    {
      hide MakeService, AfterService, MakeServices, AfterServices, HalfWritten, FirstName, AllSeparate, ViewsAs, Steps,
           Step, Ensures, Upsert;
      SameCount(ss, ts);
      ghost var all := Ensures(MakeServices(ts, cr, lm.m, unique, port));
      ghost var p0 := Pass(world, names.keys, Going);
      first := "";
      HalfWrittenEnds(h, ts, cr, lm.m, unique, port);
      for i := 0 to |ss|
        invariant lm.m == old(lm.m) && names.Valid()
        invariant ViewsAs(ss, HalfWritten(h, ts, cr, lm.m, unique, port, i))
        invariant first == if i == 0 then "" else FirstName(MakeServices(ts, cr, lm.m, unique, port))
        invariant Steps(env, h, gating, checking, p0, all)
               == Steps(env, h, gating, checking, Pass(world, names.keys, Going), all[i..])
      {
        ghost var p := Pass(world, names.keys, Going);
        ServiceTurn(h, ts, cr, lm.m, unique, port, i);
        EnsureFirst(env, h, gating, checking, p, MakeService(ts[i], cr, lm.m, unique, port), all[i..]);
        MapsOfOne(ss, i);
        var name, st := EnsureService(ss, i, cr, lm, unique, port, names,
                                      HalfWritten(h, ts, cr, lm.m, unique, port, i));
        if st.UpsertFailed? {
          StepsHalted(env, h, gating, checking, Pass(world, names.keys, Failed), all[i + 1..]);
          return Failed, first;
        }
        if i == 0 {
          first := name;
        }
      }
      NoSteps(env, h, gating, checking, Pass(world, names.keys, Going), all[|ss|..]);
      return Going, first;
    }

    /** The services of a node: its own, or the ones the nodes share. */
    method DeployServices(cr: Cr, cl: ClusterLevel, node: NodeSpec, lm: GoMap, unique: string, names: NameMaps,
                          ghost sh: Shared)
      returns (flow: Flow, first: string)
      requires names.Valid() && names.ns == cr.ns
      requires cl.Valid() && cl.Is(sh) && lm !in AllMaps(cl.services) && this !in cl.Repr() && names !in cl.Repr()
      modifies this`world, names, AllMaps(cl.services)
      ensures names.Valid() && lm.m == old(lm.m)
      ensures var sent := MakeServices(Templates(sh, node), cr, lm.m, unique, node.druidPort);
              && Pass(world, names.keys, flow)
                 == Steps(env, h, cr.spec.rollingDeploy, cr.generation > 1, Pass(old(world), old(names.keys), Going),
                          Ensures(sent))
              && (flow.Going? ==> first == FirstName(sent) && cl.Is(AfterNode(h, cr, sh, node, lm.m, unique)))
    {
      hide MakeServices, AfterServices, ViewsAs, Steps, AllSeparate, FirstName;
      if node.services.Some? {
        var own := DecodeServices(node.services.value);
        flow, first := EnsureServices(own, cr, lm, unique, node.druidPort, cr.spec.rollingDeploy, cr.generation > 1,
                                      names,
                                      node.services.value);
      } else {
        flow, first := EnsureServices(cl.services, cr, lm, unique, node.druidPort, cr.spec.rollingDeploy,
                                      cr.generation > 1, names,
                                      sh.services);
      }
    }

    /** The workload of a node, once its services are there, and the objects after it. */
    method DeployRest(cr: Cr, cl: ClusterLevel, key: string, node: NodeSpec, lm: GoMap, sha: string,
                      serviceName: string,
                      names: NameMaps, ghost sh: Shared)
      returns (flow: Flow)
      requires names.Valid() && names.ns == cr.ns
      requires cl.Valid() && cl.Is(sh) && this !in cl.Repr() && names !in cl.Repr()
      modifies this`world, names, cl.probe
      ensures names.Valid()
      ensures var (port, after) := NodeProbe(sh, node);
              && Pass(world, names.keys, flow)
                 == Steps(env, h, cr.spec.rollingDeploy, cr.generation > 1,
                          Step(env, h, cr.spec.rollingDeploy, cr.generation > 1,
                               Pass(old(world), old(names.keys), Going),
                               Gate(MakeWorkload(cr, key, node, old(lm.m), sha, serviceName, port))),
                          Ensures(Extras(cr, node, old(lm.m), UniqueString(cr.name, key))))
              && (flow.Going? ==> cl.Is(after))
    {
      hide ViewsAs, AllSeparate, Steps, Step, NodeProbe, Extras;
      var gating, checking := cr.spec.rollingDeploy, cr.generation > 1;
      var unique := UniqueString(cr.name, key);
      ExtrasInNamespace(cr, node, lm.m, unique);
      var port := ProbePort(node, cl, sh);
      flow := DeployWorkload(MakeWorkload(cr, key, node, lm.m, sha, serviceName, port), gating, checking, names);
      if !flow.Going? {
        StepsHalted(env, h, gating, checking, Pass(world, names.keys, flow), Ensures(Extras(cr, node, lm.m, unique)));
        return;
      }
      flow := EnsureAll(Extras(cr, node, lm.m, unique), gating, checking, names);
    }

    /** One iteration of the node loop: makes the node's objects in the maps it shares with other nodes, each when its
        turn to be upserted comes, and upserts them. */
    method DeployNode(cr: Cr, cl: ClusterLevel, key: string, node: NodeSpec, names: NameMaps, ghost sh: Shared)
      returns (flow: Flow)
      requires names.Valid() && names.ns == cr.ns
      requires cl.Valid() && cl.Is(sh) && this !in cl.Repr() && names !in cl.Repr()
      modifies this`world, names, cl.Repr()
      ensures names.Valid()
      ensures Pass(world, names.keys, flow)
           == Steps(env, h, cr.spec.rollingDeploy, cr.generation > 1, Pass(old(world), old(names.keys), Going),
                    NodeActions(MakeNode(h, cr, sh, key, node).0))
      ensures flow.Going? ==> cl.Is(MakeNode(h, cr, sh, key, node).1)
    {
      hide MakeNode, MakeServices, AfterNode, Templates, NodeConfig, Extras, MakeWorkload, ViewsAs, AllSeparate,
           CommonConfig, Steps, Step, NodeActions, NodeLabels, NodeProbe, FirstName;
      var gating, checking := cr.spec.rollingDeploy, cr.generation > 1;
      ghost var n := MakeNode(h, cr, sh, key, node).0;
      NodeParts(h, cr, sh, key, node);
      NodeStages(env, h, gating, checking, Pass(world, names.keys, Going), n);
      NodeConfigKey(cr, key, node);
      var unique := UniqueString(cr.name, key);
      var lm := MakeLabels(node, cl, cr.name, unique, sh);
      ghost var sh1 := NodeLabels(sh, node, cr.name, unique).1;
      var sha := h(CommonConfig(cr, "")) + "-" + h(NodeConfig(cr, key, node, lm.m, ""));
      flow := EnsureAll([NodeConfig(cr, key, node, lm.m, cr.uid)], gating, checking, names);
      if !flow.Going? {
        StagesHalted(env, h, gating, checking, Pass(world, names.keys, flow), n);
        return;
      }
      var serviceName: string;
      flow, serviceName := DeployServices(cr, cl, node, lm, unique, names, sh1);
      ghost var p := Pass(world, names.keys, flow);
      OneStep(env, h, gating, checking, p, Gate(n.workload));
      if !flow.Going? {
        StepsHalted(env, h, gating, checking, p, [Gate(n.workload)]);
        StepsHalted(env, h, gating, checking, p, Ensures(n.extras));
        return;
      }
      flow := DeployRest(cr, cl, key, node, lm, sha, serviceName, names, AfterNode(h, cr, sh1, node, lm.m, unique));
    }

    /** The node loop, on the private copy of the resource: `cl` is its cluster-level part, which the nodes share. */
    method DeployNodes(cr: Cr, cl: ClusterLevel, keys: seq<string>, names: NameMaps) returns (flow: Flow)
      requires names.Valid() && names.ns == cr.ns && forall k :: k in keys ==> k in cr.spec.nodes
      requires cl.Valid() && cl.Is(Initial(cr.spec)) && this !in cl.Repr() && names !in cl.Repr()
      modifies this`world, names, cl.Repr()
      ensures names.Valid()
      ensures Pass(world, names.keys, flow)
           == Steps(env, h, cr.spec.rollingDeploy, cr.generation > 1, Pass(old(world), old(names.keys), Going),
                    Flatten(MakeNodes(h, cr, Initial(cr.spec), keys)))
    {
      hide MakeNode, NodeActions, Step;
      ghost var gating, checking := cr.spec.rollingDeploy, cr.generation > 1;
      ghost var goal := Steps(env, h, gating, checking, Pass(world, names.keys, Going),
                              Flatten(MakeNodes(h, cr, Initial(cr.spec), keys)));
      ghost var sh := Initial(cr.spec);
      for i := 0 to |keys|
        invariant names.Valid() && cl.Is(sh)
        invariant goal == Steps(env, h, gating, checking, Pass(world, names.keys, Going),
                                Flatten(MakeNodes(h, cr, sh, keys[i..])))
      {
        ghost var (n, sh1) := MakeNode(h, cr, sh, keys[i], cr.spec.nodes[keys[i]]);
        ghost var p := Pass(world, names.keys, Going);
        ghost var rest := Flatten(MakeNodes(h, cr, sh1, keys[i + 1..]));
        assert keys[i..][1..] == keys[i + 1..];
        FlattenStep(n, MakeNodes(h, cr, sh1, keys[i + 1..]));
        StepsAppend(env, h, gating, checking, p, NodeActions(n), rest);
        flow := DeployNode(cr, cl, keys[i], cr.spec.nodes[keys[i]], names, sh);
        if !flow.Going? {
          StepsHalted(env, h, gating, checking, Pass(world, names.keys, flow), rest);
          return;
        }
        sh := sh1;
      }
      return Going;
    }

    // ---------- finalizers ----------

    /** `deleteSTSAndPVC`. */
    method DeleteStsAndPvc(sets: seq<Key>, pvcs: seq<Key>) returns (ok: bool)
      modifies this`world
      ensures (world, ok) == DeleteAll(env, old(world), sets + pvcs)
    {
      ghost var w := world;
      for i := 0 to |sets|
        invariant DeleteAll(env, w, sets + pvcs) == DeleteAll(env, world, sets[i..] + pvcs)
      {
        assert (sets[i..] + pvcs)[1..] == sets[i + 1..] + pvcs;
        ok := DeleteObject(sets[i]);
        if !ok {
          return;
        }
      }
      assert sets[|sets|..] + pvcs == pvcs[0..];
      for i := 0 to |pvcs|
        invariant DeleteAll(env, w, sets + pvcs) == DeleteAll(env, world, pvcs[i..])
      {
        assert pvcs[i..][1..] == pvcs[i + 1..];
        ok := DeleteObject(pvcs[i]);
        if !ok {
          return;
        }
      }
      return true;
    }

    /** `executeFinalizers`. */
    method ExecuteFinalizer(cr: Cr) returns (flow: Flow)
      modifies this`world
      ensures (world, flow) == ExecuteFinalizers(env, cr, old(world))
    {
      var present := ContainsString(cr.finalizers, FINALIZER_NAME);
      if present {
        var pvcs := ListObjects(PersistentVolumeClaim, cr.ns, map["druid_cr" := cr.name]);
        if pvcs.None? {
          return Failed;
        }
        var sets := ListObjects(StatefulSet, cr.ns, DruidLabels(cr.name));
        if sets.None? {
          return Failed;
        }
        var deleted := DeleteStsAndPvc(sets.value, pvcs.value);
        if !deleted {
          return Failed;
        }
        var fs := RemoveString(cr.finalizers, FINALIZER_NAME);
        var ok := UpdateFinalizers(cr, fs);
        if !ok {
          return Failed;
        }
      }
      return Finalized;
    }

    /** The finalizer code of `deployDruidCluster`. */
    method HandleFinalizer(cr: Cr) returns (flow: Flow)
      modifies this`world
      ensures forall names ::
                FinalizerBlock(env, cr, Pass(old(world), names, Going)) == Pass(world, names, flow)
    {
      if !cr.spec.disablePvcFinalizer {
        if cr.deleting {
          flow := ExecuteFinalizer(cr);
          return;
        }
        var stored, ok := GetCr();
        if stored.Some? {
          var present := ContainsString(cr.finalizers, FINALIZER_NAME);
          if !present {
            var added := UpdateFinalizers(cr, cr.finalizers + [FINALIZER_NAME]);
            if !added {
              return Failed;
            }
          }
        }
      }
      return Going;
    }

    // ---------- after the node loop ----------

    /** The health check of `deleteOrphanPVC`, on the pods as listed. */
    method AllPodsHealthy(objs: map<Key, Obj>, pods: seq<Key>) returns (healthy: bool)
      requires forall k :: k in pods ==> k in objs
      ensures healthy == AllHealthy(objs, pods)
      ensures healthy <==> forall k :: k in pods ==>
                objs[k].body.PodBody? && objs[k].body.running && false !in objs[k].body.conditions
    {
      for i := 0 to |pods|
        invariant forall k :: k in pods[..i] ==> PodHealthy(objs[k])
      {
        assert pods[i] in pods;
        var o := objs[pods[i]];
        if !o.body.PodBody? || !o.body.running {
          return false;
        }
        for j := 0 to |o.body.conditions|
          invariant forall m :: 0 <= m < j ==> o.body.conditions[m]
        {
          if !o.body.conditions[j] {
            return false;
          }
        }
      }
      assert pods[..|pods|] == pods;
      return true;
    }

    /** The claims mounted by the listed pods: one empty name per pod, then each new claim name. */
    method CollectMounted(objs: map<Key, Obj>, pods: seq<Key>) returns (mounted: seq<string>)
      ensures mounted == MountedPvc(objs, pods)
    {
      mounted := seq(|pods|, i => "");
      ghost var start := mounted;
      for i := 0 to |pods|
        invariant CollectClaims(objs, start, pods) == CollectClaims(objs, mounted, pods[i..])
      {
        assert pods[i..][1..] == pods[i + 1..];
        if pods[i] in objs && objs[pods[i]].body.PodBody? {
          var claims := objs[pods[i]].body.claims;
          ghost var before := mounted;
          for j := 0 to |claims|
            invariant AddClaims(before, claims) == AddClaims(mounted, claims[j..])
          {
            assert claims[j..][1..] == claims[j + 1..];
            if claims[j].Some? {
              var known := ContainsString(mounted, claims[j].value);
              if !known {
                mounted := mounted + [claims[j].value];
              }
            }
          }
        }
      }
    }

    /** The delete loop of `deleteOrphanPVC`. */
    method DeleteUnmounted(pvcs: seq<Key>, mounted: seq<string>)
      modifies this`world
      ensures world == DeleteAll(env, old(world), Unmounted(pvcs, mounted)).0
    {
      ghost var w := world;
      for i := 0 to |pvcs|
        invariant DeleteAll(env, w, Unmounted(pvcs, mounted)).0
               == DeleteAll(env, world, Unmounted(pvcs[i..], mounted)).0
      {
        assert pvcs[i..][1..] == pvcs[i + 1..];
        var inUse := ContainsString(mounted, pvcs[i].name);
        if !inUse {
          ghost var rest := Unmounted(pvcs[i + 1..], mounted);
          assert ([pvcs[i]] + rest)[1..] == rest;
          var ok := DeleteObject(pvcs[i]);
          if !ok {
            return;
          }
        }
      }
    }

    /** `deleteOrphanPVC`. */
    method CollectOrphanPvcs(cr: Cr)
      modifies this`world
      ensures world == DeleteOrphanPvc(env, cr, old(world))
    {
      var pods := ListObjects(Pod, cr.ns, DruidLabels(cr.name));
      if pods.None? {
        return;
      }
      var seen := world.objs;
      var pvcs := ListObjects(PersistentVolumeClaim, cr.ns, map["druid_cr" := cr.name]);
      if pvcs.None? {
        return;
      }
      var healthy := AllPodsHealthy(seen, pods.value);
      if healthy {
        var mounted := CollectMounted(seen, pods.value);
        DeleteUnmounted(pvcs.value, mounted);
      }
    }

    /** The loop of `deleteUnusedResources` over the listed objects. */
    method DeleteUnnamed(items: seq<Key>, names: NameMaps) returns (survivors: seq<string>)
      requires names.Valid() && forall k :: k in items ==> k.ns == names.ns
      modifies this`world
      ensures (world, survivors) == PruneItems(env, names.keys, old(world), items)
    {
      hide Delete;
      survivors := [];
      ghost var goal := PruneItems(env, names.keys, world, items);
      for i := 0 to |items|
        invariant goal.0 == PruneItems(env, names.keys, world, items[i..]).0
        invariant goal.1 == survivors + PruneItems(env, names.keys, world, items[i..]).1
      {
        var s := items[i];
        assert s in items && items[i..][0] == s && items[i..][1..] == items[i + 1..];
        if !names.Has(s.kind, s.name) {
          var ok := DeleteObject(s);
          if !ok {
            survivors := survivors + [s.name];
          }
        } else {
          survivors := survivors + [s.name];
        }
      }
      assert items[|items|..] == [] && survivors + [] == survivors;
    }

    /** `deleteUnusedResources`. */
    method DeleteUnusedResources(cr: Cr, names: NameMaps, kind: Kind) returns (survivors: seq<string>)
      requires names.Valid() && names.ns == cr.ns
      modifies this`world
      ensures (world, survivors) == PruneKind(env, cr, names.keys, old(world), kind)
    {
      hide List, PruneItems;
      var items := ListObjects(kind, cr.ns, DruidLabels(cr.name));
      if items.None? {
        return [];
      }
      forall k | k in items.value ensures k.ns == cr.ns {
        assert Matches(world.objs, k, kind, cr.ns, DruidLabels(cr.name));
      }
      survivors := DeleteUnnamed(items.value, names);
    }

    /** The calls of `deleteUnusedResources`, one kind after the other. */
    method PruneAll(cr: Cr, names: NameMaps) returns (lists: seq<seq<string>>)
      requires names.Valid() && names.ns == cr.ns
      modifies this`world
      ensures (world, lists) == PruneKinds(env, cr, names.keys, old(world), PRUNED)
    {
      hide PruneKind, Sort, PRUNED;
      ghost var goal := PruneKinds(env, cr, names.keys, world, PRUNED);
      lists := [];
      for i := 0 to |PRUNED|
        invariant goal.0 == PruneKinds(env, cr, names.keys, world, PRUNED[i..]).0
        invariant goal.1 == lists + PruneKinds(env, cr, names.keys, world, PRUNED[i..]).1
      {
        assert PRUNED[i..][0] == PRUNED[i] && PRUNED[i..][1..] == PRUNED[i + 1..];
        var survivors := DeleteUnusedResources(cr, names, PRUNED[i]);
        lists := lists + [Sort(survivors)];
      }
      assert PRUNED[|PRUNED|..] == [] && lists + [] == lists;
    }

    /** What `deployDruidCluster` does after its node loop. */
    method CleanUp(cr: Cr, names: NameMaps)
      requires names.Valid() && names.ns == cr.ns
      modifies this`world
      ensures Tail(env, cr, Pass(old(world), names.keys, Going)) == Pass(world, names.keys, Completed)
    {
      hide DeleteOrphanPvc, PruneKinds, List, PatchStatus, NeedsPatch;
      if cr.spec.deleteOrphanPvc {
        CollectOrphanPvcs(cr);
      }
      var lists := PruneAll(cr, names);
      var pods := ListObjects(Pod, cr.ns, DruidLabels(cr.name));
      var updated := StatusOf(lists, pods);
      if NeedsPatch(updated, cr.status) {
        Patch(updated);
      }
    }

    // ---------- the pass ----------

    /** The upsert of the common config map. */
    method DeployCommon(cr: Cr, names: NameMaps) returns (flow: Flow)
      requires names.Valid() && names.ns == cr.ns
      modifies this`world, names
      ensures names.Valid()
      ensures Pass(world, names.keys, flow)
           == Step(env, h, false, false, Pass(old(world), old(names.keys), Going), Ensure(CommonConfig(cr, cr.uid)))
    {
      var st := CreateOrUpdateAsNeeded(CommonConfig(cr, cr.uid), names);
      return if st.UpsertFailed? then Failed else Going;
    }

    /** `deployDruidCluster` up to the end of its node loop. */
    method DeployAll(cr: Cr, cl: ClusterLevel, ghost order: seq<string>, keys: seq<string>, names: NameMaps)
      returns (flow: Flow)
      requires names.Valid() && names.ns == cr.ns && names.keys == {}
      requires cl.Valid() && cl.Is(Initial(cr.spec)) && this !in cl.Repr() && names !in cl.Repr()
      requires KnownTypes(cr.spec.nodes) && keys == Prescribed(cr.spec.nodes, order)
      modifies this`world, names, cl.Repr()
      ensures names.Valid()
      ensures Pass(world, names.keys, flow) == NodeLoop(env, h, cr, PlanFor(h, cr, order), old(world))
    {
      hide MakeNodes, Steps, Step, FinalizerBlock, Flatten, Prescribed;
      ghost var plan := PlanFor(h, cr, order);
      flow := DeployCommon(cr, names);
      ghost var p1 := Pass(world, names.keys, flow);
      if flow.Going? {
        flow := HandleFinalizer(cr);
      }
      ghost var p2 := Pass(world, names.keys, flow);
      assert p2 == FinalizerBlock(env, cr, p1) by {
        if !p1.flow.Going? {
          FinalizerBlockHalted(env, cr, p1);
        }
      }
      if !flow.Going? {
        StepsHalt(env, h, cr.spec.rollingDeploy, cr.generation > 1, p2, plan.actions);
        return;
      }
      PrescribedAreNodes(cr.spec.nodes, order);
      flow := DeployNodes(cr, cl, keys, names);
    }

    /** `deployDruidCluster`, for a node map that Go iterates in `order`. */
    method DeployDruidCluster(cr: Cr, order: seq<string>) returns (flow: Flow)
      requires IterationOrder(order, cr.spec.nodes)
      modifies this`world
      ensures var q := Deploy(env, h, cr, PlanOf(h, cr, order), old(world)); world == q.w && flow == q.flow
    {
      hide NodeLoop, NodesOf, Flatten, Prescribed, PruneKinds, CollectOrphans, ReportStatus;
      if cr.spec.ignored || !cr.spec.valid {
        return Skipped;
      }
      var keys := GetAllNodeSpecs(cr.spec.nodes, order);
      if keys.None? {
        return Skipped;
      }
      var names := new NameMaps(cr.ns);
      var cl := DecodeSpec(cr.spec);
      flow := DeployAll(cr, cl, order, keys.value, names);
      if flow.Going? {
        CleanUp(cr, names);
        flow := Completed;
      }
    }

    /** `Reconcile`; `requeue` is whether another pass is scheduled, `failed` whether because of an error. */
    method ReconcileRequest(order: Cr -> seq<string>) returns (requeue: bool, failed: bool)
      requires forall cr :: IterationOrder(order(cr), cr.spec.nodes)
      modifies this`world
      ensures world == ReconcileOnce(env, h, cr => PlanOf(h, cr, order(cr)), old(world))
      ensures var (read, cr, served) := FetchCr(env, old(world));
              && (!requeue <==> cr.None? && served)
              && (failed <==> !served
                              || (cr.Some?
                                  && Deploy(env, h, cr.value, PlanOf(h, cr.value, order(cr.value)), read).flow.Failed?))
    {
      var cr, ok := GetCr();
      if cr.None? {
        return !ok, !ok;
      }
      var flow := DeployDruidCluster(cr.value, order(cr.value));
      return true, flow.Failed?;
    }
  }

  lemma FinalizerBlockHalted(env: Env, cr: Cr, p: Pass)
    requires !p.flow.Going?
    ensures FinalizerBlock(env, cr, p) == p
  {
  }

  lemma MakeServiceKey(t: ServiceTemplate, cr: Cr, lm: Labels, unique: string, port: int)
    ensures MakeService(t, cr, lm, unique, port).key.ns == cr.ns
  {
  }

  lemma NoSteps(env: Env, h: Hasher, gating: bool, checking: bool, p: Pass, actions: seq<Action>)
    requires actions == []
    ensures Steps(env, h, gating, checking, p, actions) == p
  {
  }

  /** The shared templates when the first `i` services are made. */
  function HalfWritten(h: Hasher, ts: seq<ServiceTemplate>, cr: Cr, lm: Labels, unique: string, port: int,
                       i: nat): seq<ServiceTemplate>
    requires i <= |ts|
  {
    AfterServices(h, ts, cr, lm, unique, port)[..i] + ts[i..]
  }

  lemma HalfWrittenEnds(h: Hasher, ts: seq<ServiceTemplate>, cr: Cr, lm: Labels, unique: string, port: int)
    ensures HalfWritten(h, ts, cr, lm, unique, port, 0) == ts
    ensures HalfWritten(h, ts, cr, lm, unique, port, |ts|) == AfterServices(h, ts, cr, lm, unique, port)
    ensures |Ensures(MakeServices(ts, cr, lm, unique, port))| == |ts|
    ensures ts == [] ==> FirstName(MakeServices(ts, cr, lm, unique, port)) == ""
  {
    hide AfterService;
  }

  lemma ServiceTurn(h: Hasher, ts: seq<ServiceTemplate>, cr: Cr, lm: Labels, unique: string, port: int, i: nat)
    requires i < |ts|
    ensures var now := HalfWritten(h, ts, cr, lm, unique, port, i);
            var sent := Ensures(MakeServices(ts, cr, lm, unique, port));
            var c := MakeService(ts[i], cr, lm, unique, port);
            && |now| == |ts| && now[i] == ts[i] && c.key.ns == cr.ns
            && now[i := AfterService(h, ts[i], cr, lm, unique, port)] == HalfWritten(h, ts, cr, lm, unique, port, i + 1)
            && |sent| == |ts| && sent[i..][0] == Ensure(c) && sent[i..][1..] == sent[i + 1..]
            && (i == 0 ==> c.key.name == FirstName(MakeServices(ts, cr, lm, unique, port)))
  {
    hide AfterService;
  }

  /** A list of steps that begins with an upsert. */
  lemma EnsureFirst(env: Env, h: Hasher, gating: bool, checking: bool, p: Pass, c: Content, actions: seq<Action>)
    requires p.flow.Going? && actions != [] && actions[0] == Ensure(c)
    ensures var u := Upsert(env, h, p.w, c);
            Steps(env, h, gating, checking, p, actions)
            == Steps(env, h, gating, checking,
                     Pass(u.0, p.names + {c.key}, if u.1.UpsertFailed? then Failed else Going), actions[1..])
  {
  }

  lemma OneStep(env: Env, h: Hasher, gating: bool, checking: bool, p: Pass, a: Action)
    ensures Steps(env, h, gating, checking, p, [a]) == Step(env, h, gating, checking, p, a)
  {
    hide Step;
    assert [a][1..] == [];
  }

  /** A node's steps, stage by stage. */
  lemma NodeStages(env: Env, h: Hasher, gating: bool, checking: bool, p: Pass, n: NodeObjects)
    ensures var p1 := Steps(env, h, gating, checking, p, Ensures([n.config]));
            var p2 := Steps(env, h, gating, checking, p1, Ensures(n.services));
            var p3 := Steps(env, h, gating, checking, p2, [Gate(n.workload)]);
            Steps(env, h, gating, checking, p, NodeActions(n)) == Steps(env, h, gating, checking, p3, Ensures(n.extras))
  {
    hide Steps, Step;
    var a, b, c, d := Ensures([n.config]), Ensures(n.services), [Gate(n.workload)], Ensures(n.extras);
    assert a == [Ensure(n.config)];
    assert NodeActions(n) == a + b + c + d;
    StepsAppend(env, h, gating, checking, p, a + b + c, d);
    StepsAppend(env, h, gating, checking, p, a + b, c);
    StepsAppend(env, h, gating, checking, p, a, b);
  }

  /** A pass halted at its node's config does nothing for the node. */
  lemma StagesHalted(env: Env, h: Hasher, gating: bool, checking: bool, p: Pass, n: NodeObjects)
    requires !p.flow.Going?
    ensures Steps(env, h, gating, checking, Steps(env, h, gating, checking, Steps(env, h, gating, checking, p,
                  Ensures(n.services)), [Gate(n.workload)]), Ensures(n.extras)) == p
  {
    StepsHalted(env, h, gating, checking, p, Ensures(n.services));
    StepsHalted(env, h, gating, checking, p, [Gate(n.workload)]);
    StepsHalted(env, h, gating, checking, p, Ensures(n.extras));
  }

  lemma FlattenStep(n: NodeObjects, ns: seq<NodeObjects>)
    ensures Flatten([n] + ns) == NodeActions(n) + Flatten(ns)
  {
    assert ([n] + ns)[1..] == ns;
  }

  lemma NodeConfigKey(cr: Cr, key: string, node: NodeSpec)
    ensures forall lm, owner :: NodeConfig(cr, key, node, lm, owner).key.ns == cr.ns
  {
    hide NodeConfigData;
  }

  lemma ExtrasInNamespace(cr: Cr, node: NodeSpec, lm: Labels, unique: string)
    ensures forall c :: c in Extras(cr, node, lm, unique) ==> c.key.ns == cr.ns
  {
    forall c | c in MakePvcs(cr, node, lm, unique) ensures c.key.ns == cr.ns {
    }
  }
}
