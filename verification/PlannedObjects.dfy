/** What is planned from a spec, kind by kind and exactly, in every iteration order: each object that the spec gives,
    with its name and content written out, and no other. */
module PlannedObjects {
  import opened Cluster
  import opened Strings
  import opened Names
  import opened PrescribedOrder
  import opened Reconcile
  import opened Upserts
  import opened Planner
  import opened Planned
  import opened Sharing
  import opened SharedTemplates
  import opened OrderIndependence
  import opened OneByOneUpdates
  import opened WorkloadOrder
  import opened Conflicts
  import opened PlanOrder
  import opened OrderMatters

  // ---------- names and labels ----------

  function NodeName(cr: Cr, key: string): string {
    "druid-" + cr.name + "-" + key
  }

  function ClusterLabels(cr: Cr): Labels {
    map["app" := "druid", "druid_cr" := cr.name]
  }

  /** The user's pod labels, the node's or else the cluster's, under the operator's three. */
  function NodeLabelsGiven(cr: Cr, key: string): Labels
    requires key in cr.spec.nodes
  {
    (if cr.spec.nodes[key].podLabels.Some? then cr.spec.nodes[key].podLabels.value
     else if cr.spec.podLabels.Some? then cr.spec.podLabels.value
     else map[])
    + map["app" := "druid", "druid_cr" := cr.name, "nodeSpecUniqueStr" := NodeName(cr, key)]
  }

  lemma NamesAndLabels(cr: Cr, key: string)
    requires key in cr.spec.nodes
    ensures NodeName(cr, key) == UniqueString(cr.name, key)
    ensures NodeLabelsGiven(cr, key) == IntendedLabels(cr, key)
    ensures ClusterLabels(cr) == DruidLabels(cr.name)
  {
  }

  // ---------- config maps ----------

  function CommonText(cr: Cr, owner: string): Content {
    Content(Key(ConfigMap, cr.ns, cr.name + "-druid-common-config"), ClusterLabels(cr), map[], owner,
            ConfigData(map["common.runtime.properties" := cr.spec.commonRuntimeProperties]))
  }

  /** What a node's config map holds: the port and the node's properties; the node's JVM options, or else the
      cluster's, and the extra ones; and the logging configuration, the node's or else the cluster's, if either is
      given. */
  predicate IsNodeData(cr: Cr, key: string, data: map<string, string>)
    requires key in cr.spec.nodes
  {
    var node := cr.spec.nodes[key];
    && "runtime.properties" in data && "jvm.config" in data
    && data["runtime.properties"] == "druid.port=" + DecimalInt(node.druidPort) + "\n" + node.runtimeProperties
    && (node.jvmOptions != "" ==> data["jvm.config"] == node.jvmOptions + "\n" + node.extraJvmOptions)
    && (node.jvmOptions == "" ==> data["jvm.config"] == cr.spec.jvmOptions + "\n" + node.extraJvmOptions)
    && ("log4j2.xml" in data <==> node.log4jConfig != "" || cr.spec.log4jConfig != "")
    && (node.log4jConfig != "" ==> data["log4j2.xml"] == node.log4jConfig)
    && (node.log4jConfig == "" && cr.spec.log4jConfig != "" ==> data["log4j2.xml"] == cr.spec.log4jConfig)
    && forall k :: k in data ==> k == "runtime.properties" || k == "jvm.config" || k == "log4j2.xml"
  }

  /** The config map of a node, owned by `owner`. */
  predicate IsNodeConfig(cr: Cr, key: string, owner: string, c: Content)
    requires key in cr.spec.nodes
  {
    && c.key == Key(ConfigMap, cr.ns, "druid-" + cr.name + "-" + key + "-config")
    && c.labels == NodeLabelsGiven(cr, key) && c.annotations == map[] && c.owner == owner
    && c.body.ConfigData? && IsNodeData(cr, key, c.body.data)
  }

  lemma NodeDataGiven(cr: Cr, key: string)
    requires key in cr.spec.nodes
    ensures IsNodeData(cr, key, NodeConfigData(cr.spec, cr.spec.nodes[key]))
  {
    hide DecimalInt;
    assert "runtime.properties"[0] != "jvm.config"[0] && "runtime.properties"[0] != "log4j2.xml"[0];
    assert "jvm.config"[0] != "log4j2.xml"[0];
  }

  lemma NodeDataUnique(cr: Cr, key: string, a: map<string, string>, b: map<string, string>)
    requires key in cr.spec.nodes && IsNodeData(cr, key, a) && IsNodeData(cr, key, b)
    ensures a == b
  {
    hide DecimalInt;
    assert a.Keys == b.Keys;
  }

  lemma NodeConfigIff(cr: Cr, key: string, owner: string, c: Content)
    requires key in cr.spec.nodes
    ensures IsNodeConfig(cr, key, owner, c) <==>
              c == NodeConfig(cr, key, cr.spec.nodes[key], IntendedLabels(cr, key), owner)
  {
    hide NodeConfigData, IsNodeData, IntendedLabels, NodeLabelsGiven;
    NamesAndLabels(cr, key);
    NodeDataGiven(cr, key);
    if IsNodeConfig(cr, key, owner, c) {
      NodeDataUnique(cr, key, c.body.data, NodeConfigData(cr.spec, cr.spec.nodes[key]));
    }
  }

  /** The planned config maps: the common one, and one for each node. */
  lemma ConfigMapsPlanned(h: Hasher, cr: Cr, order: seq<string>, c: Content)
    requires IterationOrder(order, cr.spec.nodes) && KnownTypes(cr.spec.nodes)
    ensures c in Desired(PlanFor(h, cr, order)) && c.key.kind.ConfigMap? <==>
              c == CommonText(cr, cr.uid) || exists key :: key in cr.spec.nodes && IsNodeConfig(cr, key, cr.uid, c)
  {
    hide NodesOf, Flatten, IterationOrder, Prescribed, Desired, KnownTypes, IsNodeConfig, NodeConfig, IntendedLabels,
         Extras;
    CommonIs(cr, cr.uid);
    CommonDesired(h, cr, order);
    if c in Desired(PlanFor(h, cr, order)) && c.key.kind.ConfigMap? && c != CommonConfig(cr, cr.uid) {
      var i := PlannedFrom(h, cr, order, c);
      PlannedCount(h, cr, order);
      KindsOfNode(h, cr, order, i, c);
      ConfigAndExtras(h, cr, order, i);
      NodeConfigIff(cr, Prescribed(cr.spec.nodes, order)[i], cr.uid, c);
    }
    if key :| key in cr.spec.nodes && IsNodeConfig(cr, key, cr.uid, c) {
      var i := Position(cr, order, key);
      ConfigAndExtras(h, cr, order, i);
      NodeConfigIff(cr, key, cr.uid, c);
      PlannedParts(h, cr, order, i);
      NodeConfigKind(cr, key, cr.spec.nodes[key], IntendedLabels(cr, key), cr.uid);
    }
  }

  lemma NodeConfigKind(cr: Cr, key: string, node: NodeSpec, lm: Labels, owner: string)
    ensures NodeConfig(cr, key, node, lm, owner).key.kind.ConfigMap?
  {
    hide NodeConfigData;
  }

  lemma CommonIs(cr: Cr, owner: string)
    ensures CommonText(cr, owner) == CommonConfig(cr, owner) && CommonConfig(cr, owner).key.kind.ConfigMap?
  {
  }

  lemma CommonDesired(h: Hasher, cr: Cr, order: seq<string>)
    ensures CommonConfig(cr, cr.uid) in Desired(PlanFor(h, cr, order))
  {
    hide NodesOf, Flatten, CommonConfig;
  }

  /** Everything made for a node is planned. */
  lemma PlannedParts(h: Hasher, cr: Cr, order: seq<string>, i: nat)
    requires i < |NodesOf(h, cr, order)|
    ensures var n, d := NodesOf(h, cr, order)[i], Desired(PlanFor(h, cr, order));
            n.config in d && n.workload in d && (forall c :: c in n.services ==> c in d)
            && forall c :: c in n.extras ==> c in d
  {
    hide NodesOf, NodeActions;
    var ns := NodesOf(h, cr, order);
    var n := ns[i];
    forall c | c == n.config || c in n.services || c in n.extras ensures c in Desired(PlanFor(h, cr, order)) {
      NodeActionsHas(n, Ensure(c));
      FlattenHas(ns, Ensure(c));
      assert Ensure(c) in PlanFor(h, cr, order).actions;
    }
    NodeActionsHas(n, Gate(n.workload));
    FlattenHas(ns, Gate(n.workload));
    assert Gate(n.workload) in PlanFor(h, cr, order).actions;
  }

  // ---------- ingresses, disruption budgets, autoscalers ----------

  /** The text that the spec gives for an object of the kind. */
  function GivenText(node: NodeSpec, kind: Kind): Option<string> {
    match kind
    case Ingress => node.ingress
    case PodDisruptionBudget => node.pdb
    case HorizontalPodAutoscaler => node.hpa
    case _ => None
  }

  /** An ingress, a disruption budget or an autoscaler as the spec gives it for a node; the disruption budget carries
      the node's labels, the other two the cluster's. */
  predicate IsOptional(cr: Cr, key: string, c: Content)
    requires key in cr.spec.nodes
  {
    var text := GivenText(cr.spec.nodes[key], c.key.kind);
    && text.Some? && c.key.ns == cr.ns && c.key.name == "druid-" + cr.name + "-" + key
    && c.labels == (if c.key.kind.PodDisruptionBudget? then NodeLabelsGiven(cr, key) else ClusterLabels(cr))
    && c.annotations == map[] && c.owner == cr.uid && c.body == OtherBody(text.value)
  }

  predicate IsOptionalKind(k: Kind) {
    k.Ingress? || k.PodDisruptionBudget? || k.HorizontalPodAutoscaler?
  }

  lemma OptionalOf(cr: Cr, key: string, c: Content)
    requires key in cr.spec.nodes
    ensures c in Extras(cr, cr.spec.nodes[key], IntendedLabels(cr, key), UniqueString(cr.name, key))
            && IsOptionalKind(c.key.kind)
       <==> IsOptional(cr, key, c)
  {
    hide IntendedLabels, NodeLabelsGiven, UniqueString, MakePvcs, DruidLabels, ClusterLabels;
    var node, lm, unique := cr.spec.nodes[key], IntendedLabels(cr, key), UniqueString(cr.name, key);
    NamesAndLabels(cr, key);
    var a := Optional(Ingress, cr, unique, DruidLabels(cr.name), node.ingress);
    var b := Optional(PodDisruptionBudget, cr, unique, lm, node.pdb);
    var d := Optional(HorizontalPodAutoscaler, cr, unique, DruidLabels(cr.name), node.hpa);
    var e := MakePvcs(cr, node, lm, unique);
    ClaimKinds(cr, node, lm, unique);
    assert c in a + b + d + e <==> c in a || c in b || c in d || c in e;
    OptionalHas(Ingress, cr, unique, DruidLabels(cr.name), node.ingress, c);
    OptionalHas(PodDisruptionBudget, cr, unique, lm, node.pdb, c);
    OptionalHas(HorizontalPodAutoscaler, cr, unique, DruidLabels(cr.name), node.hpa, c);
  }

  lemma OptionalHas(kind: Kind, cr: Cr, unique: string, labels: Labels, text: Option<string>, c: Content)
    ensures c in Optional(kind, cr, unique, labels, text) <==>
              text.Some? && c == Content(Key(kind, cr.ns, unique), labels, map[], cr.uid, OtherBody(text.value))
  {
  }

  lemma ClaimKinds(cr: Cr, node: NodeSpec, lm: Labels, unique: string)
    ensures forall c :: c in MakePvcs(cr, node, lm, unique) ==> c.key.kind.PersistentVolumeClaim?
  {
  }

  /** An ingress, disruption budget or autoscaler is planned for a node exactly when the spec gives one, with the
      text that the spec gives. */
  lemma OptionalsPlanned(h: Hasher, cr: Cr, order: seq<string>, c: Content)
    requires IterationOrder(order, cr.spec.nodes) && KnownTypes(cr.spec.nodes)
    ensures c in Desired(PlanFor(h, cr, order)) && IsOptionalKind(c.key.kind) <==>
              exists key :: key in cr.spec.nodes && IsOptional(cr, key, c)
  {
    hide NodesOf, Flatten, IterationOrder, Prescribed, Desired, KnownTypes, IsOptional, NodeConfig, IntendedLabels,
         Extras, UniqueString, PlanFor;
    if c in Desired(PlanFor(h, cr, order)) && IsOptionalKind(c.key.kind) {
      CommonIs(cr, cr.uid);
      var i := PlannedFrom(h, cr, order, c);
      PlannedCount(h, cr, order);
      KindsOfNode(h, cr, order, i, c);
      ConfigAndExtras(h, cr, order, i);
      OptionalOf(cr, Prescribed(cr.spec.nodes, order)[i], c);
    }
    if key :| key in cr.spec.nodes && IsOptional(cr, key, c) {
      var i := Position(cr, order, key);
      ConfigAndExtras(h, cr, order, i);
      OptionalOf(cr, key, c);
      PlannedParts(h, cr, order, i);
    }
  }

  // ---------- claims ----------

  /** The `x`-th claim of a node as written: under the node's name if it has none, else under the name and with the
      spec of the node's last claim; with its own labels, under the node's, and its own annotations. */
  predicate IsNodeClaim(cr: Cr, key: string, x: nat, c: Content)
    requires key in cr.spec.nodes && x < |cr.spec.nodes[key].pvcs|
  {
    var claims := cr.spec.nodes[key].pvcs;
    var p, last := claims[x], claims[|claims| - 1];
    && c.key.kind.PersistentVolumeClaim? && c.key.ns == cr.ns && c.owner == cr.uid
    && c.labels == (if p.labels.Some? then p.labels.value else map[]) + NodeLabelsGiven(cr, key)
    && c.annotations == (if p.annotations.Some? then p.annotations.value else map[])
    && (p.name == "" ==> c.key.name == "druid-" + cr.name + "-" + key && c.body == OtherBody(p.spec))
    && (p.name != "" ==> c.key.name == last.name && c.body == OtherBody(last.spec))
  }

  lemma NodeClaimIff(cr: Cr, key: string, x: nat, c: Content)
    requires IsClaim(cr, key, x)
    ensures IsNodeClaim(cr, key, x, c) <==> c == ClaimOf(cr, key, x)
  {
    hide IntendedLabels, NodeLabelsGiven;
    NamesAndLabels(cr, key);
    assert map[] + IntendedLabels(cr, key) == IntendedLabels(cr, key);
  }

  /** The planned claims are those that the spec gives. */
  lemma ClaimsPlanned(h: Hasher, cr: Cr, order: seq<string>, c: Content)
    requires IterationOrder(order, cr.spec.nodes) && KnownTypes(cr.spec.nodes)
    ensures c in Desired(PlanFor(h, cr, order)) && c.key.kind.PersistentVolumeClaim? <==>
              exists key, x: nat :: key in cr.spec.nodes && x < |cr.spec.nodes[key].pvcs| && IsNodeClaim(cr, key, x, c)
  {
    hide IterationOrder, KnownTypes, PlanFor, Desired, IsNodeClaim, ClaimOf;
    ClaimPlannedIff(h, cr, order, c);
    if key, x: nat :| IsClaim(cr, key, x) && c == ClaimOf(cr, key, x) {
      NodeClaimIff(cr, key, x, c);
    }
    if key, x: nat :| key in cr.spec.nodes && x < |cr.spec.nodes[key].pvcs| && IsNodeClaim(cr, key, x, c) {
      assert IsClaim(cr, key, x);
      NodeClaimIff(cr, key, x, c);
    }
  }

  // ---------- services ----------

  /** A service made for a node from a template: named after it, owned by the resource, on the template's ports or
      else the node's, selecting the node's own pods at most; labels, selector and annotations are the node's own
      template's, under the node's labels, and where a template gives none those labels alone, and no annotations. */
  predicate IsNodeService(cr: Cr, key: string, t: ServiceTemplate, c: Content)
    requires key in cr.spec.nodes
  {
    var lm := NodeLabelsGiven(cr, key);
    && c.key == Key(Service, cr.ns, t.prefix + "druid-" + cr.name + "-" + key + t.suffix) && c.owner == cr.uid
    && c.body.ServiceBody?
    && c.body.ports == (if t.ports.Some? then t.ports.value else [cr.spec.nodes[key].druidPort])
    && Selects(lm, c.labels) && Selects(lm, c.body.selector)
    && (t.labels.None? ==> c.labels == lm) && (t.selector.None? ==> c.body.selector == lm)
    && (t.annotations.None? ==> c.annotations == map[])
    && (cr.spec.nodes[key].services.Some? ==>
          && (t.labels.Some? ==> c.labels == t.labels.value + lm)
          && (t.selector.Some? ==> c.body.selector == t.selector.value + lm)
          && (t.annotations.Some? ==> c.annotations == t.annotations.value))
  }

  /** The templates given for a node: its own, or else the cluster's. */
  function GivenServices(cr: Cr, key: string): seq<ServiceTemplate>
    requires key in cr.spec.nodes
  {
    if cr.spec.nodes[key].services.Some? then cr.spec.nodes[key].services.value else cr.spec.services
  }

  lemma MadeForNode(cr: Cr, key: string, t: ServiceTemplate, u: ServiceTemplate)
    requires key in cr.spec.nodes
    requires t.prefix == u.prefix && t.suffix == u.suffix && t.ports == u.ports
    requires (t.labels.None? <==> u.labels.None?) && (t.selector.None? <==> u.selector.None?)
    requires t.annotations.None? <==> u.annotations.None?
    requires cr.spec.nodes[key].services.Some? ==> t == u
    ensures var node := cr.spec.nodes[key];
            IsNodeService(cr, key, u,
                          MakeService(t, cr, IntendedLabels(cr, key), UniqueString(cr.name, key), node.druidPort))
  {
    hide IntendedLabels, NodeLabelsGiven, UniqueString;
    NamesAndLabels(cr, key);
    var name := NodeName(cr, key);
    assert u.prefix + name + u.suffix == u.prefix + "druid-" + cr.name + "-" + key + u.suffix;
  }

  lemma WrittenForNode(h: Hasher, cr: Cr, keys: seq<string>, i: nat, x: nat)
    requires (forall k :: k in keys ==> k in cr.spec.nodes) && i < |keys| && IsTemplate(cr, keys[i], x)
    ensures IsNodeService(cr, keys[i], GivenServices(cr, keys[i])[x], WrittenService(h, cr, keys, i, x))
  {
    hide Left, Users, IsNodeService, MakeService, IntendedLabels, OverwrittenMap;
    UsersAreNodes(cr, keys[..i]);
    var u := GivenServices(cr, keys[i])[x];
    if cr.spec.nodes[keys[i]].services.None? {
      LeftIs(h, cr, Users(cr, keys[..i]), x);
      MapsStayGiven(cr, u, Users(cr, keys[..i]));
      MadeForNode(cr, keys[i], Left(h, cr, Users(cr, keys[..i]), x), u);
    } else {
      MadeForNode(cr, keys[i], u, u);
    }
  }

  lemma MapsStayGiven(cr: Cr, u: ServiceTemplate, users: seq<string>)
    requires forall k :: k in users ==> k in cr.spec.nodes
    ensures OverwrittenMap(cr, u.labels, users).None? <==> u.labels.None?
    ensures OverwrittenMap(cr, u.selector, users).None? <==> u.selector.None?
  {
  }

  /** Each node has, for each of its templates in turn, the service made from it, and there are no other services. */
  lemma ServicesPlanned(h: Hasher, cr: Cr, order: seq<string>, i: nat)
    requires IterationOrder(order, cr.spec.nodes) && KnownTypes(cr.spec.nodes) && i < |Prescribed(cr.spec.nodes, order)|
    ensures Prescribed(cr.spec.nodes, order)[i] in cr.spec.nodes
    ensures i < |NodesOf(h, cr, order)|
    ensures var key, services := Prescribed(cr.spec.nodes, order)[i], NodesOf(h, cr, order)[i].services;
            && |services| == |GivenServices(cr, key)|
            && forall x :: 0 <= x < |services| ==>
                 services[x] in Desired(PlanFor(h, cr, order))
                 && IsNodeService(cr, key, GivenServices(cr, key)[x], services[x])
  {
    hide NodesOf, Prescribed, IterationOrder, PlanFor, Desired, IsNodeService, WrittenService, KnownTypes;
    var keys, ns := Prescribed(cr.spec.nodes, order), NodesOf(h, cr, order);
    ServiceWritten(h, cr, order, i, 0);
    PlannedParts(h, cr, order, i);
    ServiceWritten(h, cr, order, i, |ns[i].services|);
    ServiceWritten(h, cr, order, i, |GivenServices(cr, keys[i])|);
    forall x: nat | x < |ns[i].services|
      ensures IsNodeService(cr, keys[i], GivenServices(cr, keys[i])[x], ns[i].services[x])
    {
      ServiceWritten(h, cr, order, i, x);
      WrittenForNode(h, cr, keys, i, x);
    }
  }

  /** Every planned service is one made for a node from one of its templates. */
  lemma ServicePlannedFrom(h: Hasher, cr: Cr, order: seq<string>, c: Content)
    requires IterationOrder(order, cr.spec.nodes) && KnownTypes(cr.spec.nodes)
    requires c in Desired(PlanFor(h, cr, order)) && c.key.kind.Service?
    ensures exists key, x: nat ::
              key in cr.spec.nodes && x < |GivenServices(cr, key)|
              && IsNodeService(cr, key, GivenServices(cr, key)[x], c)
  {
    hide NodesOf, Prescribed, IterationOrder, PlanFor, Desired, IsNodeService, WrittenService, KnownTypes;
    PrescribedAreNodes(cr.spec.nodes, order);
    assert c in OfKind(Desired(PlanFor(h, cr, order)), Service);
    var i, x := PlannedService(h, cr, order, c);
    WrittenForNode(h, cr, Prescribed(cr.spec.nodes, order), i, x);
  }

  // ---------- workloads ----------

  /** The port that the probe of a node gets, where no other node decides it. */
  predicate ProbePortIs(spec: DruidSpec, node: NodeSpec, port: int) {
    && (node.probe.Some? ==> port == if node.probe.value.port != 0 then node.probe.value.port else node.druidPort)
    && (node.probe.None? && spec.probe.None? ==> port == 0)
    && (node.probe.None? && spec.probe.Some? && spec.probe.value.port != 0 ==> port == spec.probe.value.port)
  }

  /** The workload of a node: a Deployment if the spec asks for one by that word, else a StatefulSet, with the node's
      replicas and the rest of its spec; the environment of the node, or else of the cluster, and behind it the
      hashes of the common and the node's config map as they are before they get an owner; the two config maps; and
      for a StatefulSet the name of the node's first service. */
  ghost predicate IsWorkload(h: Hasher, cr: Cr, key: string, c: Content)
    requires key in cr.spec.nodes
  {
    var node, ts, lm := cr.spec.nodes[key], GivenServices(cr, key), NodeLabelsGiven(cr, key);
    && c.key
       == Key(if node.kind == "Deployment" then Deployment else StatefulSet, cr.ns, "druid-" + cr.name + "-" + key)
    && c.labels == lm && c.annotations == map[] && c.owner == cr.uid
    && c.body.WorkloadBody?
    && c.body.podLabels == lm && c.body.replicas == node.replicas && c.body.rest == node.rest
    && (exists config :: IsNodeConfig(cr, key, "", config)
          && c.body.env == (if node.env.Some? then node.env.value else cr.spec.env)
                           + [("configMapSHA", h(CommonText(cr, "")) + "-" + h(config))])
    && c.body.configs == [cr.name + "-druid-common-config", "druid-" + cr.name + "-" + key + "-config"]
    && c.body.serviceName == (if node.kind != "Deployment" && ts != []
                              then ts[0].prefix + "druid-" + cr.name + "-" + key + ts[0].suffix else "")
    && ProbePortIs(cr.spec, node, c.body.probePort)
  }

  lemma PortGiven(cr: Cr, sh: Shared, keys: seq<string>, node: NodeSpec)
    requires (forall k :: k in keys ==> k in cr.spec.nodes) && sh.probe == ProbeAfter(cr, keys)
    ensures ProbePortIs(cr.spec, node, NodeProbe(sh, node).0)
  {
    ProbeAbsent(cr, keys);
    if cr.spec.probe.Some? && cr.spec.probe.value.port != 0 {
      GivenPortKept(cr, keys);
    }
  }

  lemma MadeWorkload(h: Hasher, cr: Cr, key: string, service: string, port: int)
    requires key in cr.spec.nodes && ProbePortIs(cr.spec, cr.spec.nodes[key], port)
    requires var ts := GivenServices(cr, key);
             service == if ts == [] then "" else ts[0].prefix + UniqueString(cr.name, key) + ts[0].suffix
    ensures var node, lm := cr.spec.nodes[key], IntendedLabels(cr, key);
            var sha := h(CommonConfig(cr, "")) + "-" + h(NodeConfig(cr, key, node, lm, ""));
            IsWorkload(h, cr, key, MakeWorkload(cr, key, node, lm, sha, service, port))
  {
    hide IntendedLabels, NodeLabelsGiven, NodeConfig, CommonConfig, CommonText, IsNodeConfig, ProbePortIs;
    var node, lm, ts := cr.spec.nodes[key], IntendedLabels(cr, key), GivenServices(cr, key);
    NamesAndLabels(cr, key);
    CommonIs(cr, "");
    var config := NodeConfig(cr, key, node, lm, "");
    NodeConfigIff(cr, key, "", config);
    assert IsNodeConfig(cr, key, "", config);
    if ts != [] {
      var name := NodeName(cr, key);
      assert ts[0].prefix + name + ts[0].suffix == ts[0].prefix + "druid-" + cr.name + "-" + key + ts[0].suffix;
    }
  }

  lemma WorkloadAt(h: Hasher, cr: Cr, order: seq<string>, i: nat)
    requires IterationOrder(order, cr.spec.nodes) && i < |Prescribed(cr.spec.nodes, order)|
    ensures var key := Prescribed(cr.spec.nodes, order)[i];
            && |NodesOf(h, cr, order)| == |Prescribed(cr.spec.nodes, order)| && key in cr.spec.nodes
            && IsWorkload(h, cr, key, NodesOf(h, cr, order)[i].workload)
  {
    hide MakeNode, Prescribed, IterationOrder, NodesOf, SharedAt, MakeWorkload, NodeConfig, CommonConfig, MakeServices,
         FirstName, NodeLabels, ProbeAfter, Users, OverwrittenMap, PodLabelsIntact, IntendedLabels, IsWorkload,
         NodeProbe, ProbePortIs;
    var keys := Prescribed(cr.spec.nodes, order);
    PlannedCount(h, cr, order);
    PlannedNode(h, cr, order, i);
    SharedAtIs(h, cr, keys[..i]);
    var sh, node := SharedAt(h, cr, Initial(cr.spec), keys[..i]), cr.spec.nodes[keys[i]];
    NodeParts(h, cr, sh, keys[i], node);
    LabelsAreIntended(cr, sh, keys[i]);
    var lm, unique := IntendedLabels(cr, keys[i]), UniqueString(cr.name, keys[i]);
    FirstNameOf(Templates(sh, node), GivenServices(cr, keys[i]), cr, lm, unique, node.druidPort);
    var sh2 := AfterNode(h, cr, NodeLabels(sh, node, cr.name, unique).1, node, lm, unique);
    PortGiven(cr, sh2, keys[..i], node);
    MadeWorkload(h, cr, keys[i], FirstName(NodesOf(h, cr, order)[i].services), NodeProbe(sh2, node).0);
  }

  /** Every node has its workload and no other one, in every order, and every planned workload is that of a node. */
  lemma WorkloadPlanned(h: Hasher, cr: Cr, order: seq<string>, key: string) returns (c: Content)
    requires IterationOrder(order, cr.spec.nodes) && KnownTypes(cr.spec.nodes) && key in cr.spec.nodes
    ensures c in Desired(PlanFor(h, cr, order)) && IsWorkload(h, cr, key, c)
    ensures forall d ::
              (&& d in Desired(PlanFor(h, cr, order)) && IsWorkloadKind(d.key.kind)
               && d.key.name == "druid-" + cr.name + "-" + key) ==> d == c
  {
    hide NodesOf, Flatten, Prescribed, IterationOrder, PlanFor, Desired, IsWorkload, KnownTypes, UniqueString;
    var i := Position(cr, order, key);
    WorkloadAt(h, cr, order, i);
    PlannedParts(h, cr, order, i);
    c := NodesOf(h, cr, order)[i].workload;
    NamesAndLabels(cr, key);
    forall d | d in Desired(PlanFor(h, cr, order)) && IsWorkloadKind(d.key.kind)
               && d.key.name == "druid-" + cr.name + "-" + key
      ensures d == c
    {
      var j := NodeOfWorkload(h, cr, order, d);
      PlannedNode(h, cr, order, j);
      UniqueStringInjective(cr.name, key, Prescribed(cr.spec.nodes, order)[j]);
      PrescribedDistinct(cr.spec.nodes, order);
    }
  }

  lemma NodeOfWorkload(h: Hasher, cr: Cr, order: seq<string>, d: Content) returns (j: nat)
    requires IterationOrder(order, cr.spec.nodes) && d in Desired(PlanFor(h, cr, order)) && IsWorkloadKind(d.key.kind)
    ensures j < |NodesOf(h, cr, order)| == |Prescribed(cr.spec.nodes, order)| && NodesOf(h, cr, order)[j].workload == d
  {
    hide NodesOf, Flatten, Prescribed, IterationOrder, PlanFor, Desired;
    CommonIs(cr, cr.uid);
    j := PlannedFrom(h, cr, order, d);
    PlannedCount(h, cr, order);
    KindsOfNode(h, cr, order, j, d);
  }

  /** Every planned workload is that of a node, and no pods are planned. */
  lemma WorkloadPlannedFrom(h: Hasher, cr: Cr, order: seq<string>, d: Content)
    requires IterationOrder(order, cr.spec.nodes) && KnownTypes(cr.spec.nodes) && d in Desired(PlanFor(h, cr, order))
    ensures !d.key.kind.Pod?
    ensures IsWorkloadKind(d.key.kind) ==> exists key :: key in cr.spec.nodes && IsWorkload(h, cr, key, d)
  {
    hide NodesOf, Flatten, Prescribed, IterationOrder, PlanFor, Desired, IsWorkload, KnownTypes;
    PlanWellFormed(h, cr, order);
    if IsWorkloadKind(d.key.kind) {
      var j := NodeOfWorkload(h, cr, order, d);
      WorkloadAt(h, cr, order, j);
    }
  }
}
