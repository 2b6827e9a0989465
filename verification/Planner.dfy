/** From the spec to the desired objects, with the sharing of cluster-level maps and pointers between nodes. */
module Planner {
  import opened Cluster
  import opened Strings
  import opened Names
  import opened PrescribedOrder
  import opened Reconcile

  const HASH_ANNOTATION := "druidOpResourceHash"

  /** The cluster-level parts of the spec that the builders write in place, so that what one node writes the next
      one sees. */
  datatype Shared = Shared(podLabels: Option<Labels>, services: seq<ServiceTemplate>, probe: Option<Probe>)

  function Initial(spec: DruidSpec): Shared {
    Shared(spec.podLabels, spec.services, spec.probe)
  }

  /** The three labels every per-node object gets. */
  function OwnLabels(cr: string, unique: string): Labels {
    map["app" := "druid", "druid_cr" := cr, "nodeSpecUniqueStr" := unique]
  }

  /** `makeLabelsForNodeSpec`: writes into the node's map if it has one, else into the cluster's, else into a new
      one. */
  function NodeLabels(sh: Shared, node: NodeSpec, cr: string, unique: string): (Labels, Shared) {
    var own := OwnLabels(cr, unique);
    if node.podLabels.Some? then (node.podLabels.value + own, sh)
    else if sh.podLabels.Some? then (sh.podLabels.value + own, sh.(podLabels := Some(sh.podLabels.value + own)))
    else (own, sh)
  }

  function Overlay(base: Option<Labels>, lm: Labels): Labels {
    if base.Some? then base.value + lm else lm
  }

  function OverlayInPlace(base: Option<Labels>, lm: Labels): Option<Labels> {
    if base.Some? then Some(base.value + lm) else None
  }

  /** `makeService`. */
  function MakeService(t: ServiceTemplate, cr: Cr, lm: Labels, unique: string, port: int): Content {
    Content(Key(Service, cr.ns, t.prefix + unique + t.suffix), Overlay(t.labels, lm),
            if t.annotations.Some? then t.annotations.value else map[], cr.uid,
            ServiceBody(Overlay(t.selector, lm), if t.ports.Some? then t.ports.value else [port]))
  }

  /** The template after the service was made and its hash annotation added: its maps were written in place. */
  function AfterService(h: Hasher, t: ServiceTemplate, cr: Cr, lm: Labels, unique: string, port: int): ServiceTemplate {
    t.(labels := OverlayInPlace(t.labels, lm), selector := OverlayInPlace(t.selector, lm),
       annotations := if t.annotations.Some?
                      then Some(t.annotations.value[HASH_ANNOTATION := h(MakeService(t, cr, lm, unique, port))])
                      else None)
  }

  function MakeServices(ts: seq<ServiceTemplate>, cr: Cr, lm: Labels, unique: string, port: int): seq<Content> {
    seq(|ts|, i requires 0 <= i < |ts| => MakeService(ts[i], cr, lm, unique, port))
  }

  function AfterServices(h: Hasher, ts: seq<ServiceTemplate>, cr: Cr, lm: Labels, unique: string,
                         port: int): seq<ServiceTemplate> {
    seq(|ts|, i requires 0 <= i < |ts| => AfterService(h, ts[i], cr, lm, unique, port))
  }

  /** `updateDefaultPortInProbe`. */
  function DefaultPort(p: Probe, port: int): Probe {
    if p.port == 0 then Probe(port) else p
  }

  /** The probe of a node and what is left of the cluster's. */
  function NodeProbe(sh: Shared, node: NodeSpec): (int, Shared) {
    if node.probe.Some? then (DefaultPort(node.probe.value, node.druidPort).port, sh)
    else if sh.probe.Some? then
      var p := DefaultPort(sh.probe.value, node.druidPort);
      (p.port, sh.(probe := Some(p)))
    else (0, sh)
  }

  function CommonConfig(cr: Cr, owner: string): Content {
    Content(Key(ConfigMap, cr.ns, CommonConfigName(cr.name)), DruidLabels(cr.name), map[], owner,
            ConfigData(map["common.runtime.properties" := cr.spec.commonRuntimeProperties]))
  }

  function NodeConfigData(spec: DruidSpec, node: NodeSpec): map<string, string> {
    var log4j := FirstNonEmpty(node.log4jConfig, spec.log4jConfig);
    map["runtime.properties" := "druid.port=" + DecimalInt(node.druidPort) + "\n" + node.runtimeProperties,
        "jvm.config" := FirstNonEmpty(node.jvmOptions, spec.jvmOptions) + "\n" + node.extraJvmOptions]
    + (if log4j != "" then map["log4j2.xml" := log4j] else map[])
  }

  function NodeConfig(cr: Cr, key: string, node: NodeSpec, lm: Labels, owner: string): Content {
    Content(Key(ConfigMap, cr.ns, NodeConfigName(cr.name, key)), lm, map[], owner,
            ConfigData(NodeConfigData(cr.spec, node)))
  }

  /** `getEnv`. */
  function EnvOf(spec: DruidSpec, node: NodeSpec, sha: string): seq<(string, string)> {
    (if node.env.Some? then node.env.value else spec.env) + [("configMapSHA", sha)]
  }

  function WorkloadKind(node: NodeSpec): Kind {
    if node.kind == "Deployment" then Deployment else StatefulSet
  }

  /** `makeStatefulSet` and `makeDeployment`; only the former uses the service name. */
  function MakeWorkload(cr: Cr, key: string, node: NodeSpec, lm: Labels, sha: string, serviceName: string,
                        probePort: int): Content {
    var kind := WorkloadKind(node);
    Content(Key(kind, cr.ns, UniqueString(cr.name, key)), lm, map[], cr.uid,
            WorkloadBody(lm, EnvOf(cr.spec, node, sha), [CommonConfigName(cr.name), NodeConfigName(cr.name, key)],
                         if kind.StatefulSet? then serviceName else "", probePort, node.replicas, node.rest))
  }

  function Optional(kind: Kind, cr: Cr, unique: string, labels: Labels, text: Option<string>): seq<Content> {
    if text.Some? then [Content(Key(kind, cr.ns, unique), labels, map[], cr.uid, OtherBody(text.value))] else []
  }

  /** `makePersistentVolumeClaim`: a claim with a name gets the name and the spec of the node's last claim, and keeps
      its own labels and annotations. */
  function MakePvc(cr: Cr, node: NodeSpec, i: nat, lm: Labels, unique: string): Content
    requires i < |node.pvcs|
  {
    var p := node.pvcs[i];
    var last := node.pvcs[|node.pvcs| - 1];
    Content(Key(PersistentVolumeClaim, cr.ns, if p.name == "" then unique else last.name), Overlay(p.labels, lm),
            if p.annotations.Some? then p.annotations.value else map[], cr.uid,
            OtherBody(if p.name == "" then p.spec else last.spec))
  }

  function MakePvcs(cr: Cr, node: NodeSpec, lm: Labels, unique: string): seq<Content> {
    seq(|node.pvcs|, i requires 0 <= i < |node.pvcs| => MakePvc(cr, node, i, lm, unique))
  }

  /** Everything the pass upserts for one node, in order. */
  datatype NodeObjects = NodeObjects(key: string, config: Content, services: seq<Content>, workload: Content,
                                     extras: seq<Content>)

  function FirstName(cs: seq<Content>): string {
    if cs == [] then "" else cs[0].key.name
  }

  function MakeNode(h: Hasher, cr: Cr, sh: Shared, key: string, node: NodeSpec): (NodeObjects, Shared) {
    var unique := UniqueString(cr.name, key);
    var (lm, sh1) := NodeLabels(sh, node, cr.name, unique);
    var templates := if node.services.Some? then node.services.value else sh1.services;
    var sh2 := if node.services.Some? then sh1
               else sh1.(services := AfterServices(h, sh1.services, cr, lm, unique, node.druidPort));
    var services := MakeServices(templates, cr, lm, unique, node.druidPort);
    var (probePort, sh3) := NodeProbe(sh2, node);
    var sha := h(CommonConfig(cr, "")) + "-" + h(NodeConfig(cr, key, node, lm, ""));
    (NodeObjects(key, NodeConfig(cr, key, node, lm, cr.uid), services,
                 MakeWorkload(cr, key, node, lm, sha, FirstName(services), probePort),
                 Optional(Ingress, cr, unique, DruidLabels(cr.name), node.ingress)
                 + Optional(PodDisruptionBudget, cr, unique, lm, node.pdb)
                 + Optional(HorizontalPodAutoscaler, cr, unique, DruidLabels(cr.name), node.hpa)
                 + MakePvcs(cr, node, lm, unique)),
     sh3)
  }

  /** The service templates that a node uses. */
  function Templates(sh: Shared, node: NodeSpec): seq<ServiceTemplate> {
    if node.services.Some? then node.services.value else sh.services
  }

  /** The shared parts once the node's services are made. */
  function AfterNode(h: Hasher, cr: Cr, sh: Shared, node: NodeSpec, lm: Labels, unique: string): Shared {
    if node.services.Some? then sh else sh.(services := AfterServices(h, sh.services, cr, lm, unique, node.druidPort))
  }

  function Extras(cr: Cr, node: NodeSpec, lm: Labels, unique: string): seq<Content> {
    Optional(Ingress, cr, unique, DruidLabels(cr.name), node.ingress)
    + Optional(PodDisruptionBudget, cr, unique, lm, node.pdb)
    + Optional(HorizontalPodAutoscaler, cr, unique, DruidLabels(cr.name), node.hpa)
    + MakePvcs(cr, node, lm, unique)
  }

  /** What is made for a node, part by part, and what it leaves of the shared parts. */
  lemma NodeParts(h: Hasher, cr: Cr, sh: Shared, key: string, node: NodeSpec)
    ensures var unique := UniqueString(cr.name, key);
            var (lm, sh1) := NodeLabels(sh, node, cr.name, unique);
            var (port, sh3) := NodeProbe(AfterNode(h, cr, sh1, node, lm, unique), node);
            var (n, after) := MakeNode(h, cr, sh, key, node);
            && n.config == NodeConfig(cr, key, node, lm, cr.uid)
            && n.services == MakeServices(Templates(sh1, node), cr, lm, unique, node.druidPort)
            && n.workload == MakeWorkload(cr, key, node, lm,
                                          h(CommonConfig(cr, "")) + "-" + h(NodeConfig(cr, key, node, lm, "")),
                                          FirstName(n.services), port)
            && n.extras == Extras(cr, node, lm, unique)
            && after == sh3
  {
    hide MakeServices, AfterServices, NodeLabels, NodeProbe, MakePvcs, Optional, MakeWorkload, NodeConfig,
         CommonConfig, FirstName;
  }

  function MakeNodes(h: Hasher, cr: Cr, sh: Shared, keys: seq<string>): seq<NodeObjects>
    requires forall k :: k in keys ==> k in cr.spec.nodes
    decreases |keys|
  {
    if keys == [] then []
    else
      var (n, sh1) := MakeNode(h, cr, sh, keys[0], cr.spec.nodes[keys[0]]);
      [n] + MakeNodes(h, cr, sh1, keys[1..])
  }

  function Ensures(cs: seq<Content>): seq<Action> {
    seq(|cs|, i requires 0 <= i < |cs| => Ensure(cs[i]))
  }

  function NodeActions(n: NodeObjects): seq<Action> {
    [Ensure(n.config)] + Ensures(n.services) + [Gate(n.workload)] + Ensures(n.extras)
  }

  function Flatten(ns: seq<NodeObjects>): seq<Action> {
    if ns == [] then [] else NodeActions(ns[0]) + Flatten(ns[1..])
  }

  function NodesOf(h: Hasher, cr: Cr, order: seq<string>): seq<NodeObjects> {
    PrescribedAreNodes(cr.spec.nodes, order);
    MakeNodes(h, cr, Initial(cr.spec), Prescribed(cr.spec.nodes, order))
  }

  predicate KnownTypes(nodes: map<string, NodeSpec>) {
    forall k :: k in nodes ==> KnownType(nodes[k].nodeType)
  }

  /** The plan of a pass whose node map is iterated in `order`. */
  function PlanFor(h: Hasher, cr: Cr, order: seq<string>): Plan {
    Plan(CommonConfig(cr, cr.uid), Flatten(NodesOf(h, cr, order)))
  }

  /** `None` when some node has an unknown type. */
  function PlanOf(h: Hasher, cr: Cr, order: seq<string>): Option<Plan> {
    if KnownTypes(cr.spec.nodes) then Some(PlanFor(h, cr, order)) else None
  }
}
