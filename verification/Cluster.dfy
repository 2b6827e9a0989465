/** The data of the model: the custom resource, the objects the operator writes, and the stored objects. */
module Cluster {

  datatype Option<+T> = None | Some(value: T)

  type Labels = map<string, string>

  datatype Kind =
    | ConfigMap | Service | StatefulSet | Deployment | Ingress
    | PodDisruptionBudget | HorizontalPodAutoscaler | PersistentVolumeClaim | Pod

  datatype Key = Key(kind: Kind, ns: string, name: string)

  /** The part of an object's spec that the operator's logic depends on. `rest` stands for the fields it only copies. */
  datatype Body =
    | ConfigData(data: map<string, string>)
    | ServiceBody(selector: Labels, ports: seq<int>)
    | WorkloadBody(podLabels: Labels, env: seq<(string, string)>, configs: seq<string>,
                   serviceName: string, probePort: int, replicas: int, rest: string)
    | PodBody(running: bool, conditions: seq<bool>, claims: seq<Option<string>>)
    | OtherBody(rest: string)

  /** What is serialised and hashed when the operator writes an object. */
  datatype Content = Content(key: Key, labels: Labels, annotations: Labels, owner: string, body: Body)

  /** `getObjectHash`, kept abstract. */
  type Hasher = Content -> string

  /** A stored object. `hash` is the operator's hash annotation, "" when absent. `current` and `target` are the two
      status fields compared by `isObjFullyDeployed`. */
  datatype Obj = Obj(version: nat, labels: Labels, hash: string, body: Body,
                     clusterIP: string, replicas: int, current: string, target: string)

  predicate IsWorkloadKind(k: Kind) {
    k.StatefulSet? || k.Deployment?
  }

  /** The objects a workload cannot run without: its config maps and its governing service. */
  function Refs(key: Key, b: Body): set<Key> {
    if b.WorkloadBody? then
      (set n | n in b.configs :: Key(ConfigMap, key.ns, n)) +
      (if b.serviceName == "" then {} else {Key(Service, key.ns, b.serviceName)})
    else {}
  }

  function ReplicasOf(b: Body): int {
    if b.WorkloadBody? then b.replicas else 0
  }

  /** The label selector of `client.MatchingLabels`. */
  predicate Selects(sel: Labels, labels: Labels) {
    forall l :: l in sel ==> l in labels && labels[l] == sel[l]
  }

  /** The lists of `DruidStatus` that the operator fills. */
  datatype Status = Status(statefulSets: seq<string>, deployments: seq<string>, hpAutoScalers: seq<string>,
                           ingress: seq<string>, podDisruptionBudgets: seq<string>, services: seq<string>,
                           configMaps: seq<string>, pods: seq<string>)

  /** `names` of a service is `prefix + nodeSpecUniqueStr + suffix`. A label, selector or annotation map that the
      user did not give is `None`. */
  datatype ServiceTemplate = ServiceTemplate(prefix: string, suffix: string, labels: Option<Labels>,
                                             selector: Option<Labels>, annotations: Option<Labels>,
                                             ports: Option<seq<int>>)

  /** An HTTP probe; `port == 0` is the port the user left out. */
  datatype Probe = Probe(port: int)

  datatype PvcTemplate = PvcTemplate(name: string, labels: Option<Labels>, annotations: Option<Labels>, spec: string)

  datatype NodeSpec = NodeSpec(nodeType: string, kind: string, druidPort: int, replicas: int,
                               podLabels: Option<Labels>, runtimeProperties: string, jvmOptions: string,
                               extraJvmOptions: string, log4jConfig: string,
                               services: Option<seq<ServiceTemplate>>, env: Option<seq<(string, string)>>,
                               probe: Option<Probe>, ingress: Option<string>, pdb: Option<string>,
                               hpa: Option<string>, pvcs: seq<PvcTemplate>, rest: string)

  datatype DruidSpec = DruidSpec(ignored: bool, valid: bool, disablePvcFinalizer: bool, deleteOrphanPvc: bool,
                                 rollingDeploy: bool, commonRuntimeProperties: string, jvmOptions: string,
                                 log4jConfig: string, podLabels: Option<Labels>,
                                 services: seq<ServiceTemplate>, env: seq<(string, string)>,
                                 probe: Option<Probe>, nodes: map<string, NodeSpec>)

  /** The Druid custom resource. */
  datatype Cr = Cr(name: string, ns: string, uid: string, version: nat, generation: int, deleting: bool,
                   finalizers: seq<string>, spec: DruidSpec, status: Status)

  /** `makeLabelsForDruid`. */
  function DruidLabels(name: string): Labels {
    map["app" := "druid", "druid_cr" := name]
  }
}
