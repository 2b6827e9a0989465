/** The maps and the probe that nodes share and write in place: what of them reaches each node's objects. */
module Sharing {
  import opened Cluster
  import opened Names
  import opened PrescribedOrder
  import opened Planner
  import opened Planned

  // ---------- pod labels ----------

  const OWN_KEYS: set<string> := {"app", "druid_cr", "nodeSpecUniqueStr"}

  /** The user's pod labels for a node: its own, else the cluster's. */
  function UserLabels(spec: DruidSpec, node: NodeSpec): Labels {
    if node.podLabels.Some? then node.podLabels.value
    else if spec.podLabels.Some? then spec.podLabels.value
    else map[]
  }

  /** The labels a node's objects should get: the user's, overridden by the node's own three. */
  function IntendedLabels(cr: Cr, key: string): Labels
    requires key in cr.spec.nodes
  {
    UserLabels(cr.spec, cr.spec.nodes[key]) + OwnLabels(cr.name, UniqueString(cr.name, key))
  }

  ghost predicate SameButOwn(a: Labels, b: Labels) {
    forall k :: k !in OWN_KEYS ==> (k in a <==> k in b) && (k in a ==> a[k] == b[k])
  }

  /** The shared pod-label map differs from the user's at most on the three keys that every node overwrites. */
  ghost predicate PodLabelsIntact(spec: DruidSpec, podLabels: Option<Labels>) {
    && (podLabels.Some? <==> spec.podLabels.Some?)
    && (podLabels.Some? ==> SameButOwn(spec.podLabels.value, podLabels.value))
  }

  lemma OwnOverrides(a: Labels, b: Labels, own: Labels)
    requires own.Keys == OWN_KEYS && SameButOwn(a, b)
    ensures a + own == b + own && SameButOwn(a, b + own)
  {
    assert (a + own).Keys == (b + own).Keys;
  }

  lemma LabelsAreIntended(cr: Cr, sh: Shared, key: string)
    requires key in cr.spec.nodes && PodLabelsIntact(cr.spec, sh.podLabels)
    ensures var (lm, sh1) := NodeLabels(sh, cr.spec.nodes[key], cr.name, UniqueString(cr.name, key));
            && lm == IntendedLabels(cr, key)
            && PodLabelsIntact(cr.spec, sh1.podLabels) && sh1.services == sh.services && sh1.probe == sh.probe
  {
    var node := cr.spec.nodes[key];
    var own := OwnLabels(cr.name, UniqueString(cr.name, key));
    assert own.Keys == OWN_KEYS;
    if node.podLabels.None? {
      if sh.podLabels.Some? {
        OwnOverrides(cr.spec.podLabels.value, sh.podLabels.value, own);
      } else {
        assert map[] + own == own;
      }
    }
  }

  // ---------- the labels left in a shared service template ----------

  /** The nodes, among `keys`, that use the cluster's service templates. */
  function Users(cr: Cr, keys: seq<string>): seq<string>
    requires forall k :: k in keys ==> k in cr.spec.nodes
  {
    if keys == [] then []
    else
      var init, last := keys[..|keys| - 1], keys[|keys| - 1];
      Users(cr, init) + (if cr.spec.nodes[last].services.None? then [last] else [])
  }

  lemma {:induction false} UsersAreNodes(cr: Cr, keys: seq<string>)
    requires forall k :: k in keys ==> k in cr.spec.nodes
    ensures forall k :: k in Users(cr, keys) <==> k in keys && cr.spec.nodes[k].services.None?
  {
    if keys != [] {
      UsersAreNodes(cr, keys[..|keys| - 1]);
      assert keys == keys[..|keys| - 1] + [keys[|keys| - 1]];
    }
  }

  /** A user's map with the labels of the nodes `users` written over it, one after the other. */
  function Overwritten(cr: Cr, base: Labels, users: seq<string>): Labels
    requires forall k :: k in users ==> k in cr.spec.nodes
  {
    if users == [] then base
    else Overwritten(cr, base, users[..|users| - 1]) + IntendedLabels(cr, users[|users| - 1])
  }

  function OverwrittenMap(cr: Cr, base: Option<Labels>, users: seq<string>): Option<Labels>
    requires forall k :: k in users ==> k in cr.spec.nodes
  {
    if base.Some? then Some(Overwritten(cr, base.value, users)) else None
  }

  /** What the cluster-level state is after the nodes `keys`, annotations of the service templates aside. */
  ghost predicate SharedIs(cr: Cr, sh: Shared, keys: seq<string>)
    requires forall k :: k in keys ==> k in cr.spec.nodes
  {
    UsersAreNodes(cr, keys);
    && PodLabelsIntact(cr.spec, sh.podLabels)
    && |sh.services| == |cr.spec.services|
    && (forall x :: 0 <= x < |sh.services| ==>
          var t, u := sh.services[x], cr.spec.services[x];
          && t.prefix == u.prefix && t.suffix == u.suffix && t.ports == u.ports
          && t.labels == OverwrittenMap(cr, u.labels, Users(cr, keys))
          && t.selector == OverwrittenMap(cr, u.selector, Users(cr, keys)))
    && sh.probe == ProbeAfter(cr, keys)
  }

  /** The cluster's probe after the nodes `keys`: the first one that uses it fills in its own port. */
  function ProbeAfter(cr: Cr, keys: seq<string>): Option<Probe>
    requires forall k :: k in keys ==> k in cr.spec.nodes
  {
    if keys == [] || cr.spec.probe.None? then cr.spec.probe
    else
      var p := ProbeAfter(cr, keys[..|keys| - 1]);
      var node := cr.spec.nodes[keys[|keys| - 1]];
      if p.Some? && node.probe.None? then Some(DefaultPort(p.value, node.druidPort)) else p
  }

  lemma OverwrittenSnoc(cr: Cr, base: Labels, users: seq<string>, key: string)
    requires (forall k :: k in users ==> k in cr.spec.nodes) && key in cr.spec.nodes
    ensures Overwritten(cr, base, users + [key]) == Overwritten(cr, base, users) + IntendedLabels(cr, key)
  {
    assert (users + [key])[..|users|] == users;
  }

  lemma UsersSnoc(cr: Cr, keys: seq<string>, key: string)
    requires (forall k :: k in keys ==> k in cr.spec.nodes) && key in cr.spec.nodes
    ensures Users(cr, keys + [key]) == Users(cr, keys) + (if cr.spec.nodes[key].services.None? then [key] else [])
  {
    assert (keys + [key])[..|keys|] == keys;
  }

  lemma TemplateAfter(h: Hasher, cr: Cr, t: ServiceTemplate, u: ServiceTemplate, users: seq<string>, key: string)
    requires (forall k :: k in users ==> k in cr.spec.nodes) && key in cr.spec.nodes
    requires t.labels == OverwrittenMap(cr, u.labels, users) && t.selector == OverwrittenMap(cr, u.selector, users)
    ensures var t1 := AfterService(h, t, cr, IntendedLabels(cr, key), UniqueString(cr.name, key),
                                   cr.spec.nodes[key].druidPort);
            && t1.prefix == t.prefix && t1.suffix == t.suffix && t1.ports == t.ports
            && t1.labels == OverwrittenMap(cr, u.labels, users + [key])
            && t1.selector == OverwrittenMap(cr, u.selector, users + [key])
  {
    if u.labels.Some? {
      OverwrittenSnoc(cr, u.labels.value, users, key);
    }
    if u.selector.Some? {
      OverwrittenSnoc(cr, u.selector.value, users, key);
    }
  }

  lemma ServicesAfter(h: Hasher, cr: Cr, sh: Shared, keys: seq<string>, key: string)
    requires (forall k :: k in keys ==> k in cr.spec.nodes) && key in cr.spec.nodes && SharedIs(cr, sh, keys)
    requires cr.spec.nodes[key].services.None?
    ensures Users(cr, keys + [key]) == Users(cr, keys) + [key]
    ensures forall k :: k in Users(cr, keys) ==> k in cr.spec.nodes
    ensures var ts := AfterServices(h, sh.services, cr, IntendedLabels(cr, key), UniqueString(cr.name, key),
                                    cr.spec.nodes[key].druidPort);
            |ts| == |cr.spec.services| &&
            forall x :: 0 <= x < |ts| ==>
              var t, u := ts[x], cr.spec.services[x];
              && t.prefix == u.prefix && t.suffix == u.suffix && t.ports == u.ports
              && t.labels == OverwrittenMap(cr, u.labels, Users(cr, keys) + [key])
              && t.selector == OverwrittenMap(cr, u.selector, Users(cr, keys) + [key])
  {
    UsersAreNodes(cr, keys);
    UsersSnoc(cr, keys, key);
    forall x | 0 <= x < |sh.services|
      ensures var t := AfterService(h, sh.services[x], cr, IntendedLabels(cr, key), UniqueString(cr.name, key),
                                    cr.spec.nodes[key].druidPort);
              var u := cr.spec.services[x];
              && t.prefix == u.prefix && t.suffix == u.suffix && t.ports == u.ports
              && t.labels == OverwrittenMap(cr, u.labels, Users(cr, keys) + [key])
              && t.selector == OverwrittenMap(cr, u.selector, Users(cr, keys) + [key])
    {
      TemplateAfter(h, cr, sh.services[x], cr.spec.services[x], Users(cr, keys), key);
    }
  }

  lemma ProbeSnoc(cr: Cr, keys: seq<string>, key: string)
    requires (forall k :: k in keys ==> k in cr.spec.nodes) && key in cr.spec.nodes
    ensures var p, node := ProbeAfter(cr, keys), cr.spec.nodes[key];
            ProbeAfter(cr, keys + [key])
            == if p.Some? && node.probe.None? then Some(DefaultPort(p.value, node.druidPort)) else p
  {
    assert (keys + [key])[..|keys|] == keys;
  }

  lemma MakeNodeShared(h: Hasher, cr: Cr, sh: Shared, keys: seq<string>, key: string)
    requires (forall k :: k in keys ==> k in cr.spec.nodes) && key in cr.spec.nodes && SharedIs(cr, sh, keys)
    ensures SharedIs(cr, MakeNode(h, cr, sh, key, cr.spec.nodes[key]).1, keys + [key])
  {
    hide MakeServices, AfterServices, NodeLabels, PodLabelsIntact, DefaultPort, ProbeAfter, Users, OverwrittenMap;
    LabelsAreIntended(cr, sh, key);
    UsersSnoc(cr, keys, key);
    UsersAreNodes(cr, keys + [key]);
    ProbeSnoc(cr, keys, key);
    if cr.spec.nodes[key].services.None? {
      ServicesAfter(h, cr, sh, keys, key);
    } else {
      assert Users(cr, keys) + [] == Users(cr, keys);
    }
  }

  /** The cluster-level state before each node of a plan. */
  lemma {:induction false} SharedAtIs(h: Hasher, cr: Cr, keys: seq<string>)
    requires forall k :: k in keys ==> k in cr.spec.nodes
    ensures SharedIs(cr, SharedAt(h, cr, Initial(cr.spec), keys), keys)
  {
    hide MakeNode;
    if keys != [] {
      var init, last := keys[..|keys| - 1], keys[|keys| - 1];
      assert keys == init + [last];
      SharedAtIs(h, cr, init);
      SharedSnoc(h, cr, Initial(cr.spec), init, last);
      MakeNodeShared(h, cr, SharedAt(h, cr, Initial(cr.spec), init), init, last);
    }
  }

  // ---------- labels: main result ----------

  /** The per-node objects that carry the labels of the node. */
  ghost predicate CarriesExactly(n: NodeObjects, lm: Labels) {
    && n.config.labels == lm && n.workload.labels == lm
    && n.workload.body.WorkloadBody? && n.workload.body.podLabels == lm
    && forall c :: c in n.extras && c.key.kind.PodDisruptionBudget? ==> c.labels == lm
  }

  lemma MakeNodeCarries(h: Hasher, cr: Cr, sh: Shared, key: string)
    requires key in cr.spec.nodes && PodLabelsIntact(cr.spec, sh.podLabels)
    ensures CarriesExactly(MakeNode(h, cr, sh, key, cr.spec.nodes[key]).0, IntendedLabels(cr, key))
  {
    hide NodeLabels, PodLabelsIntact, AfterServices, MakeServices, NodeConfigData, EnvOf;
    LabelsAreIntended(cr, sh, key);
  }

  /** Although all nodes may write one label map in turn, every node's config map, workload, pod template and
      disruption budget is written with that node's own labels: the user's, with the node's own unique string. */
  lemma PlannedLabels(h: Hasher, cr: Cr, order: seq<string>, i: nat)
    requires i < |Prescribed(cr.spec.nodes, order)|
    ensures var ns, key := NodesOf(h, cr, order), Prescribed(cr.spec.nodes, order)[i];
            && |ns| == |Prescribed(cr.spec.nodes, order)| && key in cr.spec.nodes
            && CarriesExactly(ns[i], IntendedLabels(cr, key))
            && IntendedLabels(cr, key)["nodeSpecUniqueStr"] == UniqueString(cr.name, key)
  {
    hide MakeNode, CarriesExactly;
    var keys := Prescribed(cr.spec.nodes, order);
    PrescribedAreNodes(cr.spec.nodes, order);
    NodeAt(h, cr, Initial(cr.spec), keys, i);
    SharedAtIs(h, cr, keys[..i]);
    MakeNodeCarries(h, cr, SharedAt(h, cr, Initial(cr.spec), keys[..i]), keys[i]);
  }

  // ---------- selectors ----------

  /** The selector of a service as planned for node `i`; `x` indexes the templates that apply to it. */
  function SelectorOf(c: Content): Labels {
    if c.body.ServiceBody? then c.body.selector else map[]
  }

  lemma SelectsPods(cr: Cr, base: Labels, a: string, b: string)
    requires a in cr.spec.nodes && b in cr.spec.nodes
    ensures Selects(base + IntendedLabels(cr, a), IntendedLabels(cr, b))
       <==> a == b && base.Keys <= IntendedLabels(cr, a).Keys
  {
    var la, lb := IntendedLabels(cr, a), IntendedLabels(cr, b);
    var sel := base + la;
    if Selects(sel, lb) {
      assert "nodeSpecUniqueStr" in sel && sel["nodeSpecUniqueStr"] == UniqueString(cr.name, a);
      UniqueStringInjective(cr.name, a, b);
      forall l | l in base ensures l in la {
        assert l in sel;
      }
    }
  }

  /** The label keys that reach a shared selector: the user's and those of the nodes that used it before. */
  function LeakedKeys(cr: Cr, base: Labels, users: seq<string>): set<string>
    requires forall k :: k in users ==> k in cr.spec.nodes
  {
    base.Keys + set k, l | k in users && l in IntendedLabels(cr, k) :: l
  }

  lemma {:induction false} OverwrittenKeys(cr: Cr, base: Labels, users: seq<string>)
    requires forall k :: k in users ==> k in cr.spec.nodes
    ensures Overwritten(cr, base, users).Keys == LeakedKeys(cr, base, users)
  {
    if users != [] {
      var init, last := users[..|users| - 1], users[|users| - 1];
      assert users == init + [last];
      OverwrittenKeys(cr, base, init);
    }
  }

  lemma ServiceAt(h: Hasher, cr: Cr, sh: Shared, key: string, x: nat)
    requires key in cr.spec.nodes && PodLabelsIntact(cr.spec, sh.podLabels)
    requires var node := cr.spec.nodes[key]; x < |if node.services.Some? then node.services.value else sh.services|
    ensures var node := cr.spec.nodes[key];
            var ts := if node.services.Some? then node.services.value else sh.services;
            var n := MakeNode(h, cr, sh, key, node).0;
            && |n.services| == |ts|
            && n.services[x] == MakeService(ts[x], cr, IntendedLabels(cr, key), UniqueString(cr.name, key),
                                            node.druidPort)
  {
    hide PodLabelsIntact, NodeLabels, AfterServices, NodeConfigData, EnvOf, MakeService, MakePvcs;
    LabelsAreIntended(cr, sh, key);
  }

  /** The selector the user gave for the `x`-th service of a node. */
  function GivenSelector(cr: Cr, key: string, x: nat): Option<Labels>
    requires key in cr.spec.nodes
  {
    var node := cr.spec.nodes[key];
    if node.services.Some? then if x < |node.services.value| then node.services.value[x].selector else None
    else if x < |cr.spec.services| then cr.spec.services[x].selector else None
  }

  /** The label keys that the selector of node `i`'s `x`-th service has besides the node's own labels: those the user
      gave and, for a cluster-level template with a selector, those of every earlier node that used it. */
  function SelectorKeys(cr: Cr, keys: seq<string>, i: nat, x: nat): set<string>
    requires (forall k :: k in keys ==> k in cr.spec.nodes) && i < |keys|
  {
    var given := GivenSelector(cr, keys[i], x);
    if given.None? then {}
    else if cr.spec.nodes[keys[i]].services.Some? then given.value.Keys
    else
      UsersAreNodes(cr, keys[..i]);
      LeakedKeys(cr, given.value, Users(cr, keys[..i]))
  }

  lemma SelectorAt(h: Hasher, cr: Cr, keys: seq<string>, i: nat, x: nat) returns (base: Labels)
    requires (forall k :: k in keys ==> k in cr.spec.nodes) && i < |keys|
    requires x < |MakeNode(h, cr, SharedAt(h, cr, Initial(cr.spec), keys[..i]), keys[i],
                           cr.spec.nodes[keys[i]]).0.services|
    ensures base.Keys == SelectorKeys(cr, keys, i, x)
    ensures var n := MakeNode(h, cr, SharedAt(h, cr, Initial(cr.spec), keys[..i]), keys[i], cr.spec.nodes[keys[i]]).0;
            SelectorOf(n.services[x]) == base + IntendedLabels(cr, keys[i])
  {
    hide IntendedLabels, NodeLabels, NodeConfigData, EnvOf, MakePvcs, AfterServices, Users, ProbeAfter, LeakedKeys;
    var sh := SharedAt(h, cr, Initial(cr.spec), keys[..i]);
    var node := cr.spec.nodes[keys[i]];
    var lm := IntendedLabels(cr, keys[i]);
    var ts := if node.services.Some? then node.services.value else sh.services;
    SharedAtIs(h, cr, keys[..i]);
    assert |MakeNode(h, cr, sh, keys[i], node).0.services| == |ts| by {
      SameServiceCount(h, cr, sh, keys[i]);
    }
    ServiceAt(h, cr, sh, keys[i], x);
    if ts[x].selector.None? {
      base := map[];
      assert base + lm == lm;
    } else {
      base := ts[x].selector.value;
      if node.services.None? {
        UsersAreNodes(cr, keys[..i]);
        OverwrittenKeys(cr, cr.spec.services[x].selector.value, Users(cr, keys[..i]));
      }
    }
  }

  lemma SameServiceCount(h: Hasher, cr: Cr, sh: Shared, key: string)
    requires key in cr.spec.nodes
    ensures var node := cr.spec.nodes[key];
            |MakeNode(h, cr, sh, key, node).0.services|
            == |if node.services.Some? then node.services.value else sh.services|
  {
  }

  /** A node's service never selects another node's pods, and it selects the node's own pods exactly when every label
      key in its selector, the user's and those left by earlier nodes in a shared selector map, is one of the node's
      own labels. */
  lemma ServiceSelectsExactly(h: Hasher, cr: Cr, order: seq<string>, i: nat, x: nat, j: nat)
    requires i < |Prescribed(cr.spec.nodes, order)| && j < |Prescribed(cr.spec.nodes, order)|
    requires IterationOrder(order, cr.spec.nodes)
    requires i < |NodesOf(h, cr, order)| && x < |NodesOf(h, cr, order)[i].services|
    ensures forall k :: k in Prescribed(cr.spec.nodes, order) ==> k in cr.spec.nodes
    ensures var keys, ns := Prescribed(cr.spec.nodes, order), NodesOf(h, cr, order);
            && j < |ns| && ns[j].workload.body.WorkloadBody?
            && (Selects(SelectorOf(ns[i].services[x]), ns[j].workload.body.podLabels)
                <==> i == j && SelectorKeys(cr, keys, i, x) <= IntendedLabels(cr, keys[i]).Keys)
  {
    hide MakeNode, SelectorKeys, IntendedLabels, SelectorOf;
    var keys := Prescribed(cr.spec.nodes, order);
    PrescribedAreNodes(cr.spec.nodes, order);
    PrescribedDistinct(cr.spec.nodes, order);
    NodeAt(h, cr, Initial(cr.spec), keys, i);
    PlannedLabels(h, cr, order, j);
    var base := SelectorAt(h, cr, keys, i, x);
    SelectsPods(cr, base, keys[i], keys[j]);
  }

  /** Where the spec gives no selector, a node's service selects exactly the pods made from the node's template. */
  lemma UngivenSelectorIsExact(h: Hasher, cr: Cr, order: seq<string>, i: nat, x: nat, j: nat)
    requires i < |Prescribed(cr.spec.nodes, order)| && j < |Prescribed(cr.spec.nodes, order)|
    requires IterationOrder(order, cr.spec.nodes)
    requires i < |NodesOf(h, cr, order)| && x < |NodesOf(h, cr, order)[i].services|
    requires Prescribed(cr.spec.nodes, order)[i] in cr.spec.nodes
    requires GivenSelector(cr, Prescribed(cr.spec.nodes, order)[i], x).None?
    ensures var ns := NodesOf(h, cr, order);
            && j < |ns| && ns[j].workload.body.WorkloadBody?
            && (Selects(SelectorOf(ns[i].services[x]), ns[j].workload.body.podLabels) <==> i == j)
  {
    hide MakeNode, IntendedLabels, SelectorOf;
    ServiceSelectsExactly(h, cr, order, i, x, j);
  }

  // ---------- probes ----------

  /** `keys[f]` is the first node without a probe of its own. */
  ghost predicate FirstUser(cr: Cr, keys: seq<string>, f: nat)
    requires forall k :: k in keys ==> k in cr.spec.nodes
  {
    f < |keys| && cr.spec.nodes[keys[f]].probe.None? && forall g :: 0 <= g < f ==> cr.spec.nodes[keys[g]].probe.Some?
  }

  lemma {:induction false} ProbeUntouched(cr: Cr, keys: seq<string>)
    requires forall k :: k in keys ==> k in cr.spec.nodes
    requires forall g :: 0 <= g < |keys| ==> cr.spec.nodes[keys[g]].probe.Some?
    ensures ProbeAfter(cr, keys) == cr.spec.probe
  {
    if keys != [] {
      ProbeUntouched(cr, keys[..|keys| - 1]);
    }
  }

  lemma {:induction false} ProbeFilledIn(cr: Cr, keys: seq<string>, f: nat)
    requires (forall k :: k in keys ==> k in cr.spec.nodes) && FirstUser(cr, keys, f)
    requires cr.spec.probe == Some(Probe(0)) && cr.spec.nodes[keys[f]].druidPort != 0
    ensures ProbeAfter(cr, keys) == Some(Probe(cr.spec.nodes[keys[f]].druidPort))
  {
    var init := keys[..|keys| - 1];
    if f == |init| {
      ProbeUntouched(cr, init);
    } else {
      assert FirstUser(cr, init, f);
      ProbeFilledIn(cr, init, f);
    }
  }

  lemma PlannedPort(h: Hasher, cr: Cr, sh: Shared, keys: seq<string>, key: string)
    requires (forall k :: k in keys ==> k in cr.spec.nodes) && key in cr.spec.nodes && SharedIs(cr, sh, keys)
    requires cr.spec.nodes[key].probe.None? && cr.spec.probe.Some?
    ensures var body := MakeNode(h, cr, sh, key, cr.spec.nodes[key]).0.workload.body;
            body.WorkloadBody? && ProbeAfter(cr, keys + [key]) == Some(Probe(body.probePort))
  {
    hide NodeLabels, AfterServices, MakeServices, NodeConfigData, EnvOf, MakePvcs, Users, OverwrittenMap;
    ProbeSnoc(cr, keys, key);
    LabelsAreIntended(cr, sh, key);
    ProbeGiven(cr, keys);
  }

  lemma {:induction false} ProbeGiven(cr: Cr, keys: seq<string>)
    requires (forall k :: k in keys ==> k in cr.spec.nodes) && cr.spec.probe.Some?
    ensures ProbeAfter(cr, keys).Some?
  {
    if keys != [] {
      ProbeGiven(cr, keys[..|keys| - 1]);
    }
  }

  /** A cluster-level probe without a port gets the port of the first node that uses it, for every node that uses it:
      a node is probed on its own port exactly when that is the first user's port. */
  lemma SharedProbePort(h: Hasher, cr: Cr, order: seq<string>, f: nat, i: nat)
    requires forall k :: k in Prescribed(cr.spec.nodes, order) ==> k in cr.spec.nodes
    requires FirstUser(cr, Prescribed(cr.spec.nodes, order), f) && f <= i < |Prescribed(cr.spec.nodes, order)|
    requires var key := Prescribed(cr.spec.nodes, order)[i]; cr.spec.nodes[key].probe.None?
    requires cr.spec.probe == Some(Probe(0)) && cr.spec.nodes[Prescribed(cr.spec.nodes, order)[f]].druidPort != 0
    ensures var ns, keys := NodesOf(h, cr, order), Prescribed(cr.spec.nodes, order);
            && i < |ns| && ns[i].workload.body.WorkloadBody?
            && ns[i].workload.body.probePort == cr.spec.nodes[keys[f]].druidPort
            && (ns[i].workload.body.probePort == cr.spec.nodes[keys[i]].druidPort
                <==> cr.spec.nodes[keys[i]].druidPort == cr.spec.nodes[keys[f]].druidPort)
  {
    hide MakeNode, ProbeAfter;
    var keys := Prescribed(cr.spec.nodes, order);
    NodeAt(h, cr, Initial(cr.spec), keys, i);
    SharedAtIs(h, cr, keys[..i]);
    PlannedPort(h, cr, SharedAt(h, cr, Initial(cr.spec), keys[..i]), keys[..i], keys[i]);
    assert FirstUser(cr, keys[..i] + [keys[i]], f);
    ProbeFilledIn(cr, keys[..i] + [keys[i]], f);
  }
}
