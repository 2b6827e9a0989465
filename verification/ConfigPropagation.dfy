/** Configuration changes: what the hash in a workload's environment carries, which workloads a change rolls, and when
    the config maps of one resource contradict each other. */
module ConfigPropagation {
  import opened Cluster
  import opened ApiServer
  import opened Strings
  import opened Names
  import opened PrescribedOrder
  import opened Reconcile
  import opened Frames
  import opened Upserts
  import opened Quiescence
  import opened Planner
  import opened Planned
  import opened OrderIndependence

  /** No two contents have the same hash. */
  ghost predicate Injective(h: Hasher) {
    forall a, b :: h(a) == h(b) ==> a == b
  }

  /** '-' is not in the alphabet of section 4 of RFC 4648. */
  ghost predicate Base64(h: Hasher) {
    forall a :: '-' !in h(a)
  }

  lemma SplitAtDash(a: string, b: string, c: string, d: string)
    requires '-' !in a && '-' !in c && a + "-" + b == c + "-" + d
    ensures a == c && b == d
  {
    var s := a + "-" + b;
    forall n | 0 <= n < |a| ensures s[n] != '-' {
      assert s[n] == a[n] && a[n] in a;
    }
    forall n | 0 <= n < |c| ensures s[n] != '-' {
      assert s[n] == c[n] && c[n] in c;
    }
    assert s[|a|] == '-' && s[|c|] == '-';
    assert a == s[..|a|] && c == s[..|c|];
    assert b == s[|a| + 1..] && d == s[|c| + 1..];
  }

  // ---------- what a workload's hash determines ----------

  /** The value of `configMapSHA`. */
  function ConfigSha(h: Hasher, cr: Cr, key: string, node: NodeSpec, lm: Labels): string {
    h(CommonConfig(cr, "")) + "-" + h(NodeConfig(cr, key, node, lm, ""))
  }

  lemma WorkloadHasSha(h: Hasher, cr: Cr, sh: Shared, key: string, node: NodeSpec)
    ensures var w := MakeNode(h, cr, sh, key, node).0.workload;
            var lm := NodeLabels(sh, node, cr.name, UniqueString(cr.name, key)).0;
            && w.body.WorkloadBody? && w.body.env != []
            && w.body.env[|w.body.env| - 1] == ("configMapSHA", ConfigSha(h, cr, key, node, lm))
            && MakeNode(h, cr, sh, key, node).0.config == NodeConfig(cr, key, node, lm, cr.uid)
  {
  }

  /** Two workloads planned with one hash, for whatever two specs, go with the same common configuration and the same
      node configuration: no configuration change of either kind can leave the workload's hash as it was. */
  lemma WorkloadHashDeterminesConfigs(h: Hasher, cr1: Cr, sh1: Shared, key1: string, node1: NodeSpec,
                                      cr2: Cr, sh2: Shared, key2: string, node2: NodeSpec)
    requires Injective(h) && Base64(h)
    requires h(MakeNode(h, cr1, sh1, key1, node1).0.workload) == h(MakeNode(h, cr2, sh2, key2, node2).0.workload)
    ensures CommonConfig(cr1, "") == CommonConfig(cr2, "")
    ensures MakeNode(h, cr1, sh1, key1, node1).0.config.key == MakeNode(h, cr2, sh2, key2, node2).0.config.key
    ensures MakeNode(h, cr1, sh1, key1, node1).0.config.body == MakeNode(h, cr2, sh2, key2, node2).0.config.body
    ensures MakeNode(h, cr1, sh1, key1, node1).0.config.labels == MakeNode(h, cr2, sh2, key2, node2).0.config.labels
  {
    hide MakeNode, NodeLabels, CommonConfig, NodeConfigData;
    WorkloadHasSha(h, cr1, sh1, key1, node1);
    WorkloadHasSha(h, cr2, sh2, key2, node2);
    var lm1 := NodeLabels(sh1, node1, cr1.name, UniqueString(cr1.name, key1)).0;
    var lm2 := NodeLabels(sh2, node2, cr2.name, UniqueString(cr2.name, key2)).0;
    SplitAtDash(h(CommonConfig(cr1, "")), h(NodeConfig(cr1, key1, node1, lm1, "")),
                h(CommonConfig(cr2, "")), h(NodeConfig(cr2, key2, node2, lm2, "")));
  }

  // ---------- changing one node's runtime properties ----------

  /** The resource after `runtime.properties` of the node `k` was set to `p`. */
  function Changed(cr: Cr, k: string, p: string): Cr
    requires k in cr.spec.nodes
  {
    cr.(spec := cr.spec.(nodes := cr.spec.nodes[k := cr.spec.nodes[k].(runtimeProperties := p)]))
  }

  lemma {:induction false} SameTypesSameGroups(a: map<string, NodeSpec>, b: map<string, NodeSpec>, order: seq<string>,
                                               t: string)
    requires a.Keys == b.Keys && forall k :: k in a ==> a[k].nodeType == b[k].nodeType
    ensures OfType(a, order, t) == OfType(b, order, t)
    decreases |order|
  {
    if order != [] {
      SameTypesSameGroups(a, b, order[..|order| - 1], t);
    }
  }

  lemma {:induction false} SameTypesSameOrder(a: map<string, NodeSpec>, b: map<string, NodeSpec>, order: seq<string>,
                                              types: seq<string>)
    requires a.Keys == b.Keys && forall k :: k in a ==> a[k].nodeType == b[k].nodeType
    ensures ByTypes(a, order, types) == ByTypes(b, order, types)
    decreases |types|
  {
    if types != [] {
      SameTypesSameGroups(a, b, order, types[0]);
      SameTypesSameOrder(a, b, order, types[1..]);
    }
  }

  /** The two resources differ in their nodes' specs only. */
  predicate SameButNodes(a: Cr, b: Cr) {
    SameSource(a, b.(spec := b.spec.(nodes := a.spec.nodes)))
  }

  lemma SameNodeObjects(h: Hasher, a: Cr, b: Cr, sh: Shared, key: string, node: NodeSpec)
    requires SameButNodes(a, b)
    ensures MakeNode(h, a, sh, key, node) == MakeNode(h, b, sh, key, node)
  {
    hide NodeLabels, MakeServices, AfterServices, MakePvcs, NodeProbe;
    var unique := UniqueString(a.name, key);
    var (lm, sh1) := NodeLabels(sh, node, a.name, unique);
    SameServicesButNodes(h, a, b, sh1.services, lm, unique, node.druidPort);
    if node.services.Some? {
      SameServicesButNodes(h, a, b, node.services.value, lm, unique, node.druidPort);
    }
    SameClaims(a, b, node, lm, unique);
  }

  lemma SameServicesButNodes(h: Hasher, a: Cr, b: Cr, ts: seq<ServiceTemplate>, lm: Labels, unique: string, port: int)
    requires SameButNodes(a, b)
    ensures MakeServices(ts, a, lm, unique, port) == MakeServices(ts, b, lm, unique, port)
    ensures AfterServices(h, ts, a, lm, unique, port) == AfterServices(h, ts, b, lm, unique, port)
  {
    forall i | 0 <= i < |ts|
      ensures MakeService(ts[i], a, lm, unique, port) == MakeService(ts[i], b, lm, unique, port)
    {
    }
  }

  lemma SameClaims(a: Cr, b: Cr, node: NodeSpec, lm: Labels, unique: string)
    requires SameButNodes(a, b)
    ensures MakePvcs(a, node, lm, unique) == MakePvcs(b, node, lm, unique)
  {
  }

  /** New runtime properties change the node's config map and the hash in its workload's environment, nothing else, and
      leave the shared maps as the old ones did. */
  lemma OwnNodeChanges(h: Hasher, cr: Cr, sh: Shared, key: string, node: NodeSpec, p: string)
    requires Injective(h) && Base64(h)
    ensures var (n, s) := MakeNode(h, cr, sh, key, node);
            var (m, t) := MakeNode(h, cr, sh, key, node.(runtimeProperties := p));
            && s == t && n.services == m.services && n.extras == m.extras
            && n.config.key == m.config.key && n.workload.key == m.workload.key
            && (n.config == m.config <==> p == node.runtimeProperties)
            && (n.workload == m.workload <==> p == node.runtimeProperties)
  {
    hide NodeLabels, NodeConfigData;
    var changed := node.(runtimeProperties := p);
    var (n, s) := MakeNode(h, cr, sh, key, node);
    var (m, t) := MakeNode(h, cr, sh, key, changed);
    LabelsIgnoreProperties(sh, node, p, cr.name, UniqueString(cr.name, key));
    assert MakePvcs(cr, node, NodeLabels(sh, node, cr.name, UniqueString(cr.name, key)).0, UniqueString(cr.name, key))
        == MakePvcs(cr, changed, NodeLabels(sh, node, cr.name, UniqueString(cr.name, key)).0,
                    UniqueString(cr.name, key));
    if n.config == m.config {
      PropertiesInData(cr.spec, node, p);
    }
    if n.workload == m.workload {
      WorkloadHashDeterminesConfigs(h, cr, sh, key, node, cr, sh, key, changed);
      PropertiesInData(cr.spec, node, p);
    }
  }

  lemma LabelsIgnoreProperties(sh: Shared, node: NodeSpec, p: string, cr: string, unique: string)
    ensures NodeLabels(sh, node, cr, unique) == NodeLabels(sh, node.(runtimeProperties := p), cr, unique)
  {
  }

  lemma PropertiesInData(spec: DruidSpec, node: NodeSpec, p: string)
    requires NodeConfigData(spec, node) == NodeConfigData(spec, node.(runtimeProperties := p))
    ensures p == node.runtimeProperties
  {
    var prefix := "druid.port=" + DecimalInt(node.druidPort) + "\n";
    assert NodeConfigData(spec, node)["runtime.properties"] == prefix + node.runtimeProperties;
    assert NodeConfigData(spec, node.(runtimeProperties := p))["runtime.properties"] == prefix + p;
    CancelPrefix(prefix, node.runtimeProperties, p);
  }

  /** What a change of node `k`'s properties does to the objects of one planned node. */
  ghost predicate OnlyOwnChanges(n: NodeObjects, m: NodeObjects, own: bool, changed: bool) {
    && (!own ==> m == n)
    && m.services == n.services && m.extras == n.extras
    && m.config.key == n.config.key && m.workload.key == n.workload.key
    && (own ==> (m.config != n.config <==> changed) && (m.workload != n.workload <==> changed))
  }

  lemma {:induction false} NodesChange(h: Hasher, cr: Cr, sh: Shared, keys: seq<string>, k: string, p: string)
    requires Injective(h) && Base64(h) && k in cr.spec.nodes && forall x :: x in keys ==> x in cr.spec.nodes
    ensures var ns, ms := MakeNodes(h, cr, sh, keys), MakeNodes(h, Changed(cr, k, p), sh, keys);
            && |ns| == |keys| && |ms| == |keys|
            && forall i :: 0 <= i < |keys| ==>
                 OnlyOwnChanges(ns[i], ms[i], keys[i] == k, p != cr.spec.nodes[k].runtimeProperties)
    decreases |keys|
  {
    hide MakeNode, OnlyOwnChanges, Injective, Base64;
    if keys != [] {
      var cr2 := Changed(cr, k, p);
      var node, node2 := cr.spec.nodes[keys[0]], cr2.spec.nodes[keys[0]];
      SameNodeObjects(h, cr2, cr, sh, keys[0], node2);
      if keys[0] == k {
        OwnNodeChanges(h, cr, sh, keys[0], node, p);
      }
      var (n, s) := MakeNode(h, cr, sh, keys[0], node);
      var (m, t) := MakeNode(h, cr2, sh, keys[0], node2);
      FirstChange(n, m, keys[0] == k, p != cr.spec.nodes[k].runtimeProperties);
      NodesChange(h, cr, s, keys[1..], k, p);
    }
  }

  lemma FirstChange(n: NodeObjects, m: NodeObjects, own: bool, changed: bool)
    requires !own ==> m == n
    requires own ==> && m.services == n.services && m.extras == n.extras
                     && m.config.key == n.config.key && m.workload.key == n.workload.key
                     && (m.config == n.config <==> !changed) && (m.workload == n.workload <==> !changed)
    ensures OnlyOwnChanges(n, m, own, changed)
  {
  }

  /** Changing one node's runtime properties leaves every planned object of every other node, services, claims and the
      shared maps included, exactly as it was, and gives the node's own config map and workload new hashes if and only
      if the properties really differ. */
  lemma PropertiesChangeIsLocal(h: Hasher, cr: Cr, order: seq<string>, k: string, p: string, i: nat)
    requires Injective(h) && Base64(h) && k in cr.spec.nodes && i < |Prescribed(cr.spec.nodes, order)|
    ensures Prescribed(Changed(cr, k, p).spec.nodes, order) == Prescribed(cr.spec.nodes, order)
    ensures var keys := Prescribed(cr.spec.nodes, order);
            var ns, ms := NodesOf(h, cr, order), NodesOf(h, Changed(cr, k, p), order);
            && |ns| == |keys| && |ms| == |keys|
            && (keys[i] != k ==> ms[i] == ns[i])
            && (keys[i] == k ==>
                  && (h(ms[i].config) != h(ns[i].config) <==> p != cr.spec.nodes[k].runtimeProperties)
                  && (h(ms[i].workload) != h(ns[i].workload) <==> p != cr.spec.nodes[k].runtimeProperties))
  {
    hide MakeNode;
    var cr2 := Changed(cr, k, p);
    SameTypesSameOrder(cr2.spec.nodes, cr.spec.nodes, order, TYPES);
    PrescribedAreNodes(cr.spec.nodes, order);
    assert Initial(cr2.spec) == Initial(cr.spec);
    NodesChange(h, cr, Initial(cr.spec), Prescribed(cr.spec.nodes, order), k, p);
  }

  // ---------- changing the cluster's configuration ----------

  /** New common properties give every node's workload a new hash: all of them are rolled. */
  lemma CommonChangeReachesEveryNode(h: Hasher, cr: Cr, order: seq<string>, p: string, i: nat)
    requires Injective(h) && Base64(h) && p != cr.spec.commonRuntimeProperties
    requires i < |Prescribed(cr.spec.nodes, order)|
    ensures var cr2 := cr.(spec := cr.spec.(commonRuntimeProperties := p));
            var ns, ms := NodesOf(h, cr, order), NodesOf(h, cr2, order);
            i < |ns| && i < |ms| && h(ms[i].workload) != h(ns[i].workload)
  {
    hide MakeNode, Injective, Base64;
    var cr2 := cr.(spec := cr.spec.(commonRuntimeProperties := p));
    var keys := Prescribed(cr.spec.nodes, order);
    PrescribedAreNodes(cr.spec.nodes, order);
    NodeAt(h, cr, Initial(cr.spec), keys, i);
    NodeAt(h, cr2, Initial(cr2.spec), keys, i);
    assert CommonConfig(cr2, "").body.data["common.runtime.properties"] == p;
    assert CommonConfig(cr2, "") != CommonConfig(cr, "");
    if h(NodesOf(h, cr2, order)[i].workload) == h(NodesOf(h, cr, order)[i].workload) {
      WorkloadHashDeterminesConfigs(h, cr2, SharedAt(h, cr2, Initial(cr2.spec), keys[..i]), keys[i],
                                    cr2.spec.nodes[keys[i]],
                                    cr, SharedAt(h, cr, Initial(cr.spec), keys[..i]), keys[i], cr.spec.nodes[keys[i]]);
    }
  }

  /** New cluster-level JVM options or logging configuration reach a node's config map exactly when the node has none of
      its own (`firstNonEmptyStr`). */
  lemma ClusterDefaultsReachNodeIff(spec: DruidSpec, node: NodeSpec, jvm: string, log4j: string)
    ensures jvm != spec.jvmOptions ==>
              (NodeConfigData(spec.(jvmOptions := jvm), node) != NodeConfigData(spec, node) <==> node.jvmOptions == "")
    ensures log4j != spec.log4jConfig ==>
              (NodeConfigData(spec.(log4jConfig := log4j), node) != NodeConfigData(spec, node) <==>
                 node.log4jConfig == "")
  {
    var a, b := NodeConfigData(spec, node), NodeConfigData(spec.(jvmOptions := jvm), node);
    var c := NodeConfigData(spec.(log4jConfig := log4j), node);
    if node.jvmOptions == "" && jvm != spec.jvmOptions {
      var suffix := "\n" + node.extraJvmOptions;
      assert a["jvm.config"] == spec.jvmOptions + suffix && b["jvm.config"] == jvm + suffix;
      if jvm + suffix == spec.jvmOptions + suffix {
        CancelSuffix(jvm, spec.jvmOptions, suffix);
      }
    }
    if node.log4jConfig == "" && log4j != spec.log4jConfig {
      assert "log4j2.xml" in a <==> spec.log4jConfig != "";
      assert "log4j2.xml" in c <==> log4j != "";
    }
  }

  // ---------- config maps that contradict each other ----------

  function ConfigMaps(cs: set<Content>): set<Content> {
    set c | c in cs && c.key.kind.ConfigMap?
  }

  lemma NodeConfigLacksCommon(h: Hasher, cr: Cr, sh: Shared, key: string, node: NodeSpec)
    ensures MakeNode(h, cr, sh, key, node).0.config.body != CommonConfig(cr, cr.uid).body
  {
    var b := MakeNode(h, cr, sh, key, node).0.config.body;
    assert "common.runtime.properties" in CommonConfig(cr, cr.uid).body.data;
    assert "common.runtime.properties" !in b.data;
  }

  lemma PlannedConfigMap(h: Hasher, cr: Cr, order: seq<string>, c: Content) returns (i: nat)
    requires IterationOrder(order, cr.spec.nodes) && KnownTypes(cr.spec.nodes)
    requires c in ConfigMaps(Desired(PlanFor(h, cr, order))) && c != CommonConfig(cr, cr.uid)
    ensures i < |NodesOf(h, cr, order)| && c == NodesOf(h, cr, order)[i].config
  {
    hide MakeNode, Shaped, NodeActions;
    var plan, ns := PlanFor(h, cr, order), NodesOf(h, cr, order);
    PlanNodes(h, cr, order);
    var a :| a in plan.actions && a.content == c;
    FlattenHas(ns, a);
    var j :| 0 <= j < |ns| && a in NodeActions(ns[j]);
    ShapedActions(cr, ns[j], Prescribed(cr.spec.nodes, order)[j], a);
    i := j;
  }

  lemma ConfigIsPlanned(h: Hasher, cr: Cr, order: seq<string>, i: nat)
    requires IterationOrder(order, cr.spec.nodes) && KnownTypes(cr.spec.nodes) && i < |NodesOf(h, cr, order)|
    ensures NodesOf(h, cr, order)[i].config in Desired(PlanFor(h, cr, order))
  {
    hide MakeNode, NodeActions;
    var ns := NodesOf(h, cr, order);
    var a := Ensure(ns[i].config);
    NodeActionsHas(ns[i], a);
    FlattenHas(ns, a);
    assert a in PlanFor(h, cr, order).actions;
  }

  lemma ConfigKeyAt(h: Hasher, cr: Cr, order: seq<string>, i: nat)
    requires IterationOrder(order, cr.spec.nodes) && i < |NodesOf(h, cr, order)|
    ensures i < |Prescribed(cr.spec.nodes, order)| && Prescribed(cr.spec.nodes, order)[i] in cr.spec.nodes
    ensures NodesOf(h, cr, order)[i].config.key
         == Key(ConfigMap, cr.ns, NodeConfigName(cr.name, Prescribed(cr.spec.nodes, order)[i]))
    ensures NodesOf(h, cr, order)[i].config.body != CommonConfig(cr, cr.uid).body
  {
    hide MakeNode;
    var keys := Prescribed(cr.spec.nodes, order);
    PlanNodes(h, cr, order);
    PrescribedAreNodes(cr.spec.nodes, order);
    NodeAt(h, cr, Initial(cr.spec), keys, i);
    NodeConfigLacksCommon(h, cr, SharedAt(h, cr, Initial(cr.spec), keys[..i]), keys[i], cr.spec.nodes[keys[i]]);
  }

  /** Two planned config maps of one name and different content are the common one and that of a node called "common",
      for a resource called "druid", "druid-druid" and so on; there is no other contradiction between config maps. */
  lemma ConfigMapsConflictIff(h: Hasher, cr: Cr, order: seq<string>)
    requires Injective(h) && IterationOrder(order, cr.spec.nodes) && KnownTypes(cr.spec.nodes)
    ensures ConflictFree(h, ConfigMaps(Desired(PlanFor(h, cr, order))))
       <==> !("common" in cr.spec.nodes && IsDruidPower(cr.name))
  {
    hide MakeNode, NodesOf, Flatten, IsDruidPower;
    var all := ConfigMaps(Desired(PlanFor(h, cr, order)));
    var common := CommonConfig(cr, cr.uid);
    if "common" in cr.spec.nodes && IsDruidPower(cr.name) {
      var i := CommonNode(h, cr, order);
      var c := NodesOf(h, cr, order)[i].config;
      ConfigIsPlanned(h, cr, order, i);
      ConfigKeyAt(h, cr, order, i);
      ConfigNamesCollideIff(cr.name, "common");
      assert c in all && common in all && c.key == common.key && h(c) != h(common);
    } else {
      forall c, d | c in all && d in all && c.key == d.key ensures c == d {
        SameConfigMap(h, cr, order, c, d);
      }
    }
  }

  lemma CommonNode(h: Hasher, cr: Cr, order: seq<string>) returns (i: nat)
    requires IterationOrder(order, cr.spec.nodes) && KnownTypes(cr.spec.nodes) && "common" in cr.spec.nodes
    ensures i < |NodesOf(h, cr, order)| && i < |Prescribed(cr.spec.nodes, order)|
    ensures Prescribed(cr.spec.nodes, order)[i] == "common"
  {
    hide MakeNode, Shaped;
    PrescribedHas(cr.spec.nodes, order, "common");
    PlanNodes(h, cr, order);
    i :| 0 <= i < |Prescribed(cr.spec.nodes, order)| && Prescribed(cr.spec.nodes, order)[i] == "common";
  }

  lemma SameConfigMap(h: Hasher, cr: Cr, order: seq<string>, c: Content, d: Content)
    requires IterationOrder(order, cr.spec.nodes) && KnownTypes(cr.spec.nodes)
    requires !("common" in cr.spec.nodes && IsDruidPower(cr.name))
    requires c in ConfigMaps(Desired(PlanFor(h, cr, order))) && d in ConfigMaps(Desired(PlanFor(h, cr, order)))
    requires c.key == d.key
    ensures c == d
  {
    hide MakeNode, NodesOf, Flatten, IsDruidPower, NodeConfigName, CommonConfigName, Prescribed, PlanOf;
    var common := CommonConfig(cr, cr.uid);
    if c == common && d != common {
      NotCommonName(h, cr, order, d);
    } else if d == common && c != common {
      NotCommonName(h, cr, order, c);
    } else if c != common {
      var keys := Prescribed(cr.spec.nodes, order);
      var i := PlannedConfigMap(h, cr, order, c);
      var j := PlannedConfigMap(h, cr, order, d);
      ConfigKeyAt(h, cr, order, i);
      ConfigKeyAt(h, cr, order, j);
      NodeConfigNameInjective(cr.name, keys[i], keys[j]);
      PrescribedDistinct(cr.spec.nodes, order);
    }
  }

  lemma NotCommonName(h: Hasher, cr: Cr, order: seq<string>, c: Content)
    requires IterationOrder(order, cr.spec.nodes) && KnownTypes(cr.spec.nodes)
    requires !("common" in cr.spec.nodes && IsDruidPower(cr.name))
    requires c in ConfigMaps(Desired(PlanFor(h, cr, order))) && c != CommonConfig(cr, cr.uid)
    ensures c.key != CommonConfig(cr, cr.uid).key
  {
    hide MakeNode, NodesOf, Flatten, IsDruidPower;
    var i := PlannedConfigMap(h, cr, order, c);
    ConfigKeyAt(h, cr, order, i);
    ConfigNamesCollideIff(cr.name, Prescribed(cr.spec.nodes, order)[i]);
  }

  lemma ConflictWithin(h: Hasher, all: set<Content>, some: set<Content>)
    requires some <= all && !ConflictFree(h, some)
    ensures !ConflictFree(h, all)
  {
  }

  /** Such a resource is never quiet: no pass that reaches its tail, over whatever store and in whatever iteration
      order, is without a write. */
  lemma DruidNamedDruidNeverQuiet(env: Env, h: Hasher, cr: Cr, order: seq<string>, w: World)
    requires Drifting(env) && Injective(h)
    requires IterationOrder(order, cr.spec.nodes) && KnownTypes(cr.spec.nodes)
    requires "common" in cr.spec.nodes && IsDruidPower(cr.name)
    requires !cr.deleting || cr.spec.disablePvcFinalizer
    requires Deploy(env, h, cr, PlanOf(h, cr, order), w).flow.Completed?
    ensures !Adds(w, Deploy(env, h, cr, PlanOf(h, cr, order), w).w, NotUpsert)
  {
    hide Deploy, NodesOf, Flatten, Adds, IsDruidPower, IterationOrder, Drifting, Injective, ConflictFree;
    var all := Desired(PlanFor(h, cr, order));
    ConfigMapsConflictIff(h, cr, order);
    ConflictWithin(h, all, ConfigMaps(all));
    ConflictNeverQuiet(env, h, cr, PlanFor(h, cr, order), w);
  }
}
