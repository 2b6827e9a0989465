/** The cluster's service templates as each node finds them, annotations included, and when two of them make the same
    service for a node. */
module SharedTemplates {
  import opened Cluster
  import opened Names
  import opened Planner
  import opened Planned
  import opened Sharing
  import opened ConfigPropagation

  /** The cluster's `x`-th template once the nodes `users` have used it, one after the other. */
  function Left(h: Hasher, cr: Cr, users: seq<string>, x: nat): ServiceTemplate
    requires (forall k :: k in users ==> k in cr.spec.nodes) && x < |cr.spec.services|
  {
    if users == [] then cr.spec.services[x]
    else
      var init, last := users[..|users| - 1], users[|users| - 1];
      AfterService(h, Left(h, cr, init, x), cr, IntendedLabels(cr, last), UniqueString(cr.name, last),
                   cr.spec.nodes[last].druidPort)
  }

  /** What node `key` sends for the template after those users. */
  function Sent(h: Hasher, cr: Cr, users: seq<string>, key: string, x: nat): Content
    requires (forall k :: k in users ==> k in cr.spec.nodes) && x < |cr.spec.services| && key in cr.spec.nodes
  {
    MakeService(Left(h, cr, users, x), cr, IntendedLabels(cr, key), UniqueString(cr.name, key),
                cr.spec.nodes[key].druidPort)
  }

  lemma LeftSnoc(h: Hasher, cr: Cr, users: seq<string>, key: string, x: nat)
    requires (forall k :: k in users ==> k in cr.spec.nodes) && x < |cr.spec.services| && key in cr.spec.nodes
    ensures Left(h, cr, users + [key], x)
         == AfterService(h, Left(h, cr, users, x), cr, IntendedLabels(cr, key), UniqueString(cr.name, key),
                         cr.spec.nodes[key].druidPort)
  {
    assert (users + [key])[..|users|] == users;
  }

  lemma ServicesLeftBy(h: Hasher, cr: Cr, sh: Shared, key: string)
    requires key in cr.spec.nodes && PodLabelsIntact(cr.spec, sh.podLabels)
    ensures var node := cr.spec.nodes[key];
            MakeNode(h, cr, sh, key, node).1.services
            == if node.services.Some? then sh.services
               else AfterServices(h, sh.services, cr, IntendedLabels(cr, key), UniqueString(cr.name, key),
                                  node.druidPort)
  {
    hide MakeNode, NodeLabels, AfterServices, MakeServices, PodLabelsIntact, IntendedLabels;
    LabelsAreIntended(cr, sh, key);
    NodeParts(h, cr, sh, key, cr.spec.nodes[key]);
  }

  /** The templates before each node of a plan. */
  lemma {:induction false} TemplatesLeft(h: Hasher, cr: Cr, keys: seq<string>)
    requires forall k :: k in keys ==> k in cr.spec.nodes
    ensures forall k :: k in Users(cr, keys) ==> k in cr.spec.nodes
    ensures var ts := SharedAt(h, cr, Initial(cr.spec), keys).services;
            |ts| == |cr.spec.services| && forall x :: 0 <= x < |ts| ==> ts[x] == Left(h, cr, Users(cr, keys), x)
  {
    hide MakeNode, PodLabelsIntact, AfterService, IntendedLabels;
    UsersAreNodes(cr, keys);
    if keys != [] {
      var init, last := keys[..|keys| - 1], keys[|keys| - 1];
      assert keys == init + [last];
      TemplatesLeft(h, cr, init);
      SharedAtIs(h, cr, init);
      SharedSnoc(h, cr, Initial(cr.spec), init, last);
      var sh := SharedAt(h, cr, Initial(cr.spec), init);
      ServicesLeftBy(h, cr, sh, last);
      UsersSnoc(cr, init, last);
      if cr.spec.nodes[last].services.None? {
        forall x | 0 <= x < |cr.spec.services|
          ensures SharedAt(h, cr, Initial(cr.spec), keys).services[x] == Left(h, cr, Users(cr, keys), x)
        {
          LeftSnoc(h, cr, Users(cr, init), last, x);
        }
      } else {
        assert Users(cr, init) + [] == Users(cr, init);
      }
    }
  }

  /** What the users have changed of a template: its labels and its selector are overwritten, and, if it came with
      annotations, they carry the hash of what the last user sent. */
  lemma {:induction false} LeftIs(h: Hasher, cr: Cr, users: seq<string>, x: nat)
    requires (forall k :: k in users ==> k in cr.spec.nodes) && x < |cr.spec.services|
    ensures var t, u := Left(h, cr, users, x), cr.spec.services[x];
            && t.prefix == u.prefix && t.suffix == u.suffix && t.ports == u.ports
            && t.labels == OverwrittenMap(cr, u.labels, users) && t.selector == OverwrittenMap(cr, u.selector, users)
            && (t.annotations.Some? <==> u.annotations.Some?)
            && (u.annotations.Some? ==>
                  t.annotations.value - {"druidOpResourceHash"} == u.annotations.value - {"druidOpResourceHash"})
            && (users == [] ==> t.annotations == u.annotations)
            && (users != [] && u.annotations.Some? ==>
                  && "druidOpResourceHash" in t.annotations.value
                  && t.annotations.value["druidOpResourceHash"]
                    == h(Sent(h, cr, users[..|users| - 1], users[|users| - 1], x)))
  {
    hide IntendedLabels, MakeService;
    if users != [] {
      var init, last := users[..|users| - 1], users[|users| - 1];
      assert users == init + [last];
      LeftIs(h, cr, init, x);
      TemplateAfter(h, cr, Left(h, cr, init, x), cr.spec.services[x], init, last);
    }
  }

  // ---------- when two templates make the same service ----------

  function GivenOr(m: Option<Labels>): Labels {
    if m.Some? then m.value else map[]
  }

  function PortsOf(t: ServiceTemplate, port: int): seq<int> {
    if t.ports.Some? then t.ports.value else [port]
  }

  function NameFor(cr: Cr, key: string, t: ServiceTemplate): string {
    t.prefix + UniqueString(cr.name, key) + t.suffix
  }

  /** Two templates, as they are, make the same service for a node: name, ports, annotations, and labels and selector
      once the node's own labels are laid over them. */
  predicate SameService(cr: Cr, key: string, t: ServiceTemplate, u: ServiceTemplate)
    requires key in cr.spec.nodes
  {
    var lm, port := IntendedLabels(cr, key), cr.spec.nodes[key].druidPort;
    && NameFor(cr, key, t) == NameFor(cr, key, u)
    && Overlay(t.labels, lm) == Overlay(u.labels, lm)
    && Overlay(t.selector, lm) == Overlay(u.selector, lm)
    && GivenOr(t.annotations) == GivenOr(u.annotations)
    && PortsOf(t, port) == PortsOf(u, port)
  }

  lemma SameServiceIff(cr: Cr, key: string, t: ServiceTemplate, u: ServiceTemplate)
    requires key in cr.spec.nodes
    ensures var lm, unique, port := IntendedLabels(cr, key), UniqueString(cr.name, key), cr.spec.nodes[key].druidPort;
            MakeService(t, cr, lm, unique, port) == MakeService(u, cr, lm, unique, port) <==> SameService(cr, key, t, u)
  {
  }

  /** Two of the cluster's templates make the same service for a node after the nodes `users`, told from the spec:
      their maps agree once the labels of the users and of the node are laid over them; of annotations, after a user,
      both have none or both have the same, the hash aside, and made the same service for the last user. */
  predicate SameShared(cr: Cr, users: seq<string>, key: string, x: nat, y: nat)
    requires (forall k :: k in users ==> k in cr.spec.nodes) && key in cr.spec.nodes
    requires x < |cr.spec.services| && y < |cr.spec.services|
    decreases |users|
  {
    var t, u := cr.spec.services[x], cr.spec.services[y];
    var lm, port := IntendedLabels(cr, key), cr.spec.nodes[key].druidPort;
    && NameFor(cr, key, t) == NameFor(cr, key, u)
    && Overlay(OverwrittenMap(cr, t.labels, users), lm) == Overlay(OverwrittenMap(cr, u.labels, users), lm)
    && Overlay(OverwrittenMap(cr, t.selector, users), lm) == Overlay(OverwrittenMap(cr, u.selector, users), lm)
    && PortsOf(t, port) == PortsOf(u, port)
    && if users == [] then GivenOr(t.annotations) == GivenOr(u.annotations)
       else if t.annotations.None? || u.annotations.None? then t.annotations == u.annotations
       else
         && t.annotations.value - {"druidOpResourceHash"} == u.annotations.value - {"druidOpResourceHash"}
         && SameShared(cr, users[..|users| - 1], users[|users| - 1], x, y)
  }

  lemma SameMap(a: Labels, b: Labels, k: string)
    requires k in a && k in b
    ensures a == b <==> a - {k} == b - {k} && a[k] == b[k]
  {
    if a - {k} == b - {k} && a[k] == b[k] {
      assert a == (a - {k})[k := a[k]];
      assert b == (b - {k})[k := b[k]];
    }
  }

  lemma {:induction false} SameSharedIff(h: Hasher, cr: Cr, users: seq<string>, key: string, x: nat, y: nat)
    requires (forall k :: k in users ==> k in cr.spec.nodes) && key in cr.spec.nodes && Injective(h)
    requires x < |cr.spec.services| && y < |cr.spec.services|
    ensures Sent(h, cr, users, key, x) == Sent(h, cr, users, key, y) <==> SameShared(cr, users, key, x, y)
    decreases |users|
  {
    hide IntendedLabels, MakeService, Left, OverwrittenMap;
    var t, u := Left(h, cr, users, x), Left(h, cr, users, y);
    SameServiceIff(cr, key, t, u);
    LeftIs(h, cr, users, x);
    LeftIs(h, cr, users, y);
    if users != [] && t.annotations.Some? && u.annotations.Some? {
      SameMap(t.annotations.value, u.annotations.value, "druidOpResourceHash");
      SameSharedIff(h, cr, users[..|users| - 1], users[|users| - 1], x, y);
    }
  }
}
