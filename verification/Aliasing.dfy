/** The builders as they are written, on maps and pointers that live on the heap and that nodes share: what they write
    out for each node, and what they leave behind, is what the planner's functions say. */
module Aliasing {
  import opened Cluster
  import opened Planner

  /** A Go map: a reference, so that every holder sees each write. */
  class GoMap {
    var m: Labels

    constructor (m: Labels)
      ensures this.m == m
    {
      this.m := m;
    }

    method Set(k: string, v: string)
      modifies this
      ensures m == old(m)[k := v]
    {
      m := m[k := v];
    }

    /** `for k, v := range ls { m[k] = v }`, in whatever order. */
    method SetAll(ls: GoMap)
      requires ls != this
      modifies this
      ensures m == old(m) + ls.m
    {
      var todo := ls.m.Keys;
      while todo != {}
        invariant todo <= ls.m.Keys
        invariant m == old(m) + (ls.m - todo)
        decreases |todo|
      {
        var k :| k in todo;
        todo := todo - {k};
        Set(k, ls.m[k]);
      }
      assert ls.m - {} == ls.m;
    }
  }

  /** A pointer to an HTTP probe. */
  class ProbeRef {
    var port: int

    constructor (port: int)
      ensures this.port == port
    {
      this.port := port;
    }
  }

  /** A service of the spec: a struct, copied by each range loop, whose maps are not copied. */
  datatype SharedService = SharedService(prefix: string, suffix: string, labels: GoMap?, selector: GoMap?,
                                         annotations: GoMap?,
                             ports: Option<seq<int>>)
  {
    function Maps(): set<object> {
      (if labels == null then {} else {labels}) + (if selector == null then {} else {selector})
      + (if annotations == null then {} else {annotations})
    }

    /** No map is given twice. */
    predicate Separate() {
      && (labels != null ==> labels != selector && labels != annotations)
      && (selector != null ==> selector != annotations)
    }

    function View(): ServiceTemplate
      reads Maps()
    {
      ServiceTemplate(prefix, suffix, Deref(labels), Deref(selector), Deref(annotations), ports)
    }
  }

  function Deref(m: GoMap?): Option<Labels>
    reads m
  {
    if m == null then None else Some(m.m)
  }

  function AllMaps(ss: seq<SharedService>): set<object> {
    set i, o | 0 <= i < |ss| && o in ss[i].Maps() :: o
  }

  predicate AllSeparate(ss: seq<SharedService>) {
    && (forall i :: 0 <= i < |ss| ==> ss[i].Separate())
    && (forall i, j :: 0 <= i < j < |ss| ==> ss[i].Maps() !! ss[j].Maps())
  }

  /** `ss` views as `ts`. */
  predicate ViewsAs(ss: seq<SharedService>, ts: seq<ServiceTemplate>)
    reads AllMaps(ss)
  {
    |ts| == |ss| && forall i :: 0 <= i < |ss| ==> ss[i].View() == ts[i]
  }

  // ---------- services ----------

  /** `makeService` on the loop's copy of a service, `addHashToObject`, and the object as it is sent. */
  method SendService(h: Hasher, s: SharedService, cr: Cr, lm: GoMap, unique: string, port: int) returns (c: Content)
    requires s.Separate() && lm !in s.Maps()
    modifies s.Maps()
    ensures c == MakeService(old(s.View()), cr, lm.m, unique, port)
    ensures s.View() == AfterService(h, old(s.View()), cr, lm.m, unique, port)
  {
    var labels, selector := lm, lm;
    if s.labels != null {
      s.labels.SetAll(lm);
      labels := s.labels;
    }
    if s.selector != null {
      s.selector.SetAll(lm);
      selector := s.selector;
    }
    var annotations: Labels := map[];
    if s.annotations != null {
      annotations := s.annotations.m;
    }
    c := Content(Key(Service, cr.ns, s.prefix + unique + s.suffix), labels.m, annotations, cr.uid,
                 ServiceBody(selector.m, if s.ports.Some? then s.ports.value else [port]));
    if s.annotations != null {
      s.annotations.Set(HASH_ANNOTATION, h(c));
    }
  }

  lemma MapsOfOne(ss: seq<SharedService>, i: nat)
    requires i < |ss|
    ensures ss[i].Maps() <= AllMaps(ss)
  {
  }

  /** Sending one service of a list leaves the others as they were. */
  method SendOneOf(h: Hasher, ss: seq<SharedService>, i: nat, cr: Cr, lm: GoMap, unique: string, port: int,
                   ghost ts: seq<ServiceTemplate>)
    returns (c: Content)
    requires AllSeparate(ss) && lm !in AllMaps(ss) && ViewsAs(ss, ts) && i < |ss|
    modifies ss[i].Maps()
    ensures c == MakeService(ts[i], cr, lm.m, unique, port)
    ensures ViewsAs(ss, ts[i := AfterService(h, ts[i], cr, lm.m, unique, port)])
  {
    hide MakeService, AfterService, AllMaps;
    MapsOfOne(ss, i);
    c := SendService(h, ss[i], cr, lm, unique, port);
    forall j | 0 <= j < |ss| && j != i ensures ss[j].View() == ts[j] {
      assert ss[j].Maps() !! ss[i].Maps();
    }
  }

  lemma SameCount(ss: seq<SharedService>, ts: seq<ServiceTemplate>)
    requires ViewsAs(ss, ts)
    ensures |ts| == |ss|
  {
  }

  // ---------- the cluster-level spec ----------

  /** The maps and the probe given at cluster level. */
  class ClusterLevel {
    const podLabels: GoMap?
    const services: seq<SharedService>
    const probe: ProbeRef?

    constructor (podLabels: GoMap?, services: seq<SharedService>, probe: ProbeRef?)
      ensures this.podLabels == podLabels && this.services == services && this.probe == probe
    {
      this.podLabels := podLabels;
      this.services := services;
      this.probe := probe;
    }

    function Repr(): set<object> {
      AllMaps(services) + (if podLabels == null then {} else {podLabels}) + (if probe == null then {} else {probe})
    }

    /** The maps of a decoded spec are all different. */
    ghost predicate Valid() {
      AllSeparate(services) && podLabels !in AllMaps(services)
    }

    /** What the cluster-level part of the spec now says. */
    ghost predicate Is(sh: Shared)
      reads Repr()
    {
      && sh.podLabels == Deref(podLabels)
      && ViewsAs(services, sh.services)
      && sh.probe == (if probe == null then None else Some(Probe(probe.port)))
    }
  }

  /** `makeLabelsForNodeSpec`: the map returned is the node's, the cluster's or a new one, and is written in place. */
  method MakeLabels(node: NodeSpec, cl: ClusterLevel, cr: string, unique: string, ghost sh: Shared) returns (lm: GoMap)
    requires cl.Valid() && cl.Is(sh)
    modifies cl.Repr()
    ensures lm.m == NodeLabels(sh, node, cr, unique).0 && cl.Is(NodeLabels(sh, node, cr, unique).1)
    ensures fresh(lm) || lm == cl.podLabels
  {
    hide OwnLabels, ViewsAs;
    if node.podLabels.Some? {
      lm := new GoMap(node.podLabels.value);
    } else if cl.podLabels != null {
      lm := cl.podLabels;
    } else {
      lm := new GoMap(map[]);
    }
    SetOwnLabels(lm, cr, unique);
    assert map[] + OwnLabels(cr, unique) == OwnLabels(cr, unique);
  }

  /** The three writes of `makeLabelsForNodeSpec`. */
  method SetOwnLabels(lm: GoMap, cr: string, unique: string)
    modifies lm
    ensures lm.m == old(lm.m) + OwnLabels(cr, unique)
  {
    lm.Set("app", "druid");
    lm.Set("druid_cr", cr);
    lm.Set("nodeSpecUniqueStr", unique);
  }

  /** `updateDefaultPortInProbe` on the probe that applies; 0 when there is none. */
  method ProbePort(node: NodeSpec, cl: ClusterLevel, ghost sh: Shared) returns (port: int)
    requires cl.Valid() && cl.Is(sh)
    modifies cl.probe
    ensures port == NodeProbe(sh, node).0 && cl.Is(NodeProbe(sh, node).1)
  {
    var p: ProbeRef? := cl.probe;
    if node.probe.Some? {
      p := new ProbeRef(node.probe.value.port);
    }
    if p == null {
      return 0;
    }
    if p.port == 0 {
      p.port := node.druidPort;
    }
    return p.port;
  }

  // ---------- decoding ----------

  /** The maps of one service, as decoding allocates them. */
  method DecodeMap(m: Option<Labels>) returns (r: GoMap?)
    ensures Deref(r) == m && (r != null ==> fresh(r))
  {
    if m.None? {
      return null;
    }
    r := new GoMap(m.value);
  }

  method DecodeService(t: ServiceTemplate) returns (s: SharedService)
    ensures s.Separate() && s.View() == t && fresh(s.Maps())
  {
    var labels := DecodeMap(t.labels);
    var selector := DecodeMap(t.selector);
    var annotations := DecodeMap(t.annotations);
    s := SharedService(t.prefix, t.suffix, labels, selector, annotations, t.ports);
  }

  /** The services of a decoded spec: every map a new one. */
  method DecodeServices(ts: seq<ServiceTemplate>) returns (ss: seq<SharedService>)
    ensures AllSeparate(ss) && ViewsAs(ss, ts) && fresh(AllMaps(ss))
  {
    hide AllSeparate, ViewsAs;
    ss := [];
    NoMaps();
    for i := 0 to |ts|
      invariant AllSeparate(ss) && ViewsAs(ss, ts[..i]) && fresh(AllMaps(ss))
    {
      var s := DecodeService(ts[i]);
      SeparateSnoc(ss, s);
      MapsSnoc(ss, s);
      ViewsSnoc(ss, ts[..i], s, ts[i]);
      ss := ss + [s];
      assert ts[..i + 1] == ts[..i] + [ts[i]];
    }
    assert ts[..|ts|] == ts;
  }

  lemma NoMaps()
    ensures AllMaps([]) == {} && AllSeparate([]) && ViewsAs([], [])
  {
  }

  lemma SeparateSnoc(ss: seq<SharedService>, s: SharedService)
    requires AllSeparate(ss) && s.Separate() && s.Maps() !! AllMaps(ss)
    ensures AllSeparate(ss + [s])
  {
    forall i | 0 <= i < |ss| ensures ss[i].Maps() <= AllMaps(ss) {
    }
  }

  lemma ViewsSnoc(ss: seq<SharedService>, ts: seq<ServiceTemplate>, s: SharedService, t: ServiceTemplate)
    requires ViewsAs(ss, ts) && s.View() == t
    ensures ViewsAs(ss + [s], ts + [t])
  {
  }

  lemma MapsSnoc(ss: seq<SharedService>, s: SharedService)
    ensures AllMaps(ss + [s]) == AllMaps(ss) + s.Maps()
    ensures forall i :: 0 <= i < |ss| ==> ss[i].Maps() <= AllMaps(ss)
  {
    var all := ss + [s];
    forall o | o in AllMaps(ss) + s.Maps() ensures o in AllMaps(all) {
      if o in s.Maps() {
        assert o in all[|ss|].Maps();
      } else {
        var i :| 0 <= i < |ss| && o in ss[i].Maps();
        assert o in all[i].Maps();
      }
    }
  }

  /** The cluster-level part of the private copy of the resource that a pass works on. */
  method DecodeSpec(spec: DruidSpec) returns (cl: ClusterLevel)
    ensures fresh(cl) && fresh(cl.Repr()) && cl.Valid() && cl.Is(Initial(spec))
  {
    var services := DecodeServices(spec.services);
    var podLabels := DecodeMap(spec.podLabels);
    var probe: ProbeRef? := null;
    if spec.probe.Some? {
      probe := new ProbeRef(spec.probe.value.port);
    }
    cl := new ClusterLevel(podLabels, services, probe);
  }
}
