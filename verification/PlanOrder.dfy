/** When the planned objects do not depend on the iteration order of the node map, exactly, and what that gives for
    quiescence. */
module PlanOrder {
  import opened Cluster
  import opened ApiServer
  import opened Names
  import opened PrescribedOrder
  import opened Reconcile
  import opened Frames
  import opened Upserts
  import opened Prune
  import opened Quiescence
  import opened Convergence
  import opened Planner
  import opened Planned
  import opened Sharing
  import opened SharedTemplates
  import opened OrderIndependence
  import opened WorkloadOrder
  import opened OneByOneUpdates
  import opened Conflicts

  // ---------- what the spec must be like ----------

  /** The node uses the service templates given at cluster level. */
  predicate UsesServices(spec: DruidSpec, key: string) {
    key in spec.nodes && spec.nodes[key].services.None?
  }

  ghost predicate UserTypesDistinct(spec: DruidSpec) {
    forall a, b :: UsesServices(spec, a) && UsesServices(spec, b) && a != b ==>
      spec.nodes[a].nodeType != spec.nodes[b].nodeType
  }

  predicate Unannotated(spec: DruidSpec) {
    forall x :: 0 <= x < |spec.services| ==> spec.services[x].annotations.None?
  }

  /** What a user leaves in a template's labels or selector the next one overwrites: all users have the same label
      keys, or no template comes with a map for either. */
  ghost predicate LeavesNoKeys(cr: Cr) {
    || (forall x :: 0 <= x < |cr.spec.services| ==>
          cr.spec.services[x].labels.None? && cr.spec.services[x].selector.None?)
    || (forall a, b :: UsesServices(cr.spec, a) && UsesServices(cr.spec, b) ==>
          IntendedLabels(cr, a).Keys == IntendedLabels(cr, b).Keys)
  }

  ghost predicate ServicesFixed(cr: Cr) {
    UserTypesDistinct(cr.spec) || (Unannotated(cr.spec) && LeavesNoKeys(cr))
  }

  ghost predicate OrderImmaterial(cr: Cr) {
    (ProbePortFixed(cr.spec) && ServicesFixed(cr)) || TypesAllDistinct(cr.spec.nodes)
  }

  // ---------- users of distinct types come in one order ----------

  ghost predicate StrictlySorted(nodes: map<string, NodeSpec>, s: seq<string>) {
    && (forall k :: k in s ==> k in nodes)
    && (forall i, j :: 0 <= i < j < |s| ==> Rank(nodes[s[i]].nodeType) < Rank(nodes[s[j]].nodeType))
  }

  lemma InInit(nodes: map<string, NodeSpec>, s: seq<string>, k: string)
    requires StrictlySorted(nodes, s) && s != []
    ensures k in s[..|s| - 1] <==> k in s && k != s[|s| - 1]
  {
    hide Rank;
    if k in s[..|s| - 1] {
      var i :| 0 <= i < |s| - 1 && s[i] == k;
    }
  }

  lemma InitSorted(nodes: map<string, NodeSpec>, s: seq<string>)
    requires StrictlySorted(nodes, s) && s != []
    ensures StrictlySorted(nodes, s[..|s| - 1])
  {
    hide Rank;
  }

  lemma LastIsTop(nodes: map<string, NodeSpec>, s: seq<string>, k: string)
    requires StrictlySorted(nodes, s) && k in s
    ensures k in nodes && s[|s| - 1] in nodes
    ensures k == s[|s| - 1] || Rank(nodes[k].nodeType) < Rank(nodes[s[|s| - 1]].nodeType)
  {
    hide Rank;
    var i :| 0 <= i < |s| && s[i] == k;
    assert s[|s| - 1] in s;
  }

  lemma {:induction false} SortedUnique(nodes: map<string, NodeSpec>, a: seq<string>, b: seq<string>)
    requires StrictlySorted(nodes, a) && StrictlySorted(nodes, b) && forall k :: k in a <==> k in b
    ensures a == b
    decreases |a|
  {
    hide Rank, StrictlySorted;
    if a == [] && b != [] {
      var k := Member(b);
    } else if a != [] {
      var x := Member(a);
      var y := b[|b| - 1];
      LastIsTop(nodes, a, y);
      LastIsTop(nodes, b, a[|a| - 1]);
      var p, q := a[..|a| - 1], b[..|b| - 1];
      forall k ensures k in p <==> k in q {
        InInit(nodes, a, k);
        InInit(nodes, b, k);
      }
      InitSorted(nodes, a);
      InitSorted(nodes, b);
      SortedUnique(nodes, p, q);
      assert a == p + [a[|a| - 1]] && b == q + [y];
    }
  }

  lemma Member(s: seq<string>) returns (k: string)
    requires s != []
    ensures k in s && s[|s| - 1] in s
  {
    k := s[0];
  }

  lemma RankTellsType(a: string, b: string)
    requires KnownType(a) && KnownType(b) && Rank(a) == Rank(b)
    ensures a == b
  {
    var i :| 0 <= i < |TYPES| && TYPES[i] == a;
    var j :| 0 <= j < |TYPES| && TYPES[j] == b;
    RankAt(i, 0);
    RankAt(j, 0);
  }

  ghost predicate InOrder(nodes: map<string, NodeSpec>, keys: seq<string>) {
    && (forall k :: k in keys ==> k in nodes)
    && (forall i, j :: 0 <= i < j < |keys| ==>
          keys[i] != keys[j] && Rank(nodes[keys[i]].nodeType) <= Rank(nodes[keys[j]].nodeType))
  }

  lemma PrescribedInOrder(nodes: map<string, NodeSpec>, order: seq<string>)
    requires IterationOrder(order, nodes)
    ensures InOrder(nodes, Prescribed(nodes, order))
  {
    hide Prescribed, Rank;
    PrescribedAreNodes(nodes, order);
    PrescribedDistinct(nodes, order);
    var r := Prescribed(nodes, order);
    forall i, j | 0 <= i < j < |r| ensures Rank(nodes[r[i]].nodeType) <= Rank(nodes[r[j]].nodeType) {
      PrescribedIsSorted(nodes, order, i, j);
    }
  }

  lemma {:induction false} UsersSorted(cr: Cr, keys: seq<string>)
    requires InOrder(cr.spec.nodes, keys) && UserTypesDistinct(cr.spec) && KnownTypes(cr.spec.nodes)
    ensures StrictlySorted(cr.spec.nodes, Users(cr, keys))
  {
    hide Rank, KnownTypes;
    UsersAreNodes(cr, keys);
    if keys != [] {
      var init, last := keys[..|keys| - 1], keys[|keys| - 1];
      UsersSorted(cr, init);
      UsersAreNodes(cr, init);
      if cr.spec.nodes[last].services.None? {
        forall i | 0 <= i < |Users(cr, init)|
          ensures Rank(cr.spec.nodes[Users(cr, init)[i]].nodeType) < Rank(cr.spec.nodes[last].nodeType)
        {
          var u := Users(cr, init)[i];
          assert u in Users(cr, init);
          var g :| 0 <= g < |init| && init[g] == u;
          assert keys[g] == u;
          DifferentTypes(cr, u, last);
        }
      }
    }
  }

  lemma DifferentTypes(cr: Cr, a: string, b: string)
    requires UsesServices(cr.spec, a) && UsesServices(cr.spec, b) && a != b && UserTypesDistinct(cr.spec)
    requires KnownTypes(cr.spec.nodes)
    ensures Rank(cr.spec.nodes[a].nodeType) != Rank(cr.spec.nodes[b].nodeType)
  {
    hide Rank;
    if Rank(cr.spec.nodes[a].nodeType) == Rank(cr.spec.nodes[b].nodeType) {
      RankTellsType(cr.spec.nodes[a].nodeType, cr.spec.nodes[b].nodeType);
    }
  }

  /** The users before a user are those of lower rank. */
  lemma UsersBefore(cr: Cr, keys: seq<string>, i: nat, k: string)
    requires InOrder(cr.spec.nodes, keys) && UserTypesDistinct(cr.spec) && KnownTypes(cr.spec.nodes)
    requires i < |keys| && UsesServices(cr.spec, keys[i]) && (forall n :: n in cr.spec.nodes ==> n in keys)
    ensures forall n :: n in keys[..i] ==> n in cr.spec.nodes
    ensures k in Users(cr, keys[..i]) <==>
              UsesServices(cr.spec, k) && Rank(cr.spec.nodes[k].nodeType) < Rank(cr.spec.nodes[keys[i]].nodeType)
  {
    hide Rank, KnownTypes;
    UsersAreNodes(cr, keys[..i]);
    if k in keys[..i] && UsesServices(cr.spec, k) {
      var g :| 0 <= g < i && keys[g] == k;
      DifferentTypes(cr, k, keys[i]);
    }
    if UsesServices(cr.spec, k) && Rank(cr.spec.nodes[k].nodeType) < Rank(cr.spec.nodes[keys[i]].nodeType) {
      var g :| 0 <= g < |keys| && keys[g] == k;
      assert g < i;
      assert keys[..i][g] == k;
    }
  }

  lemma AllPrescribed(cr: Cr, order: seq<string>)
    requires IterationOrder(order, cr.spec.nodes) && KnownTypes(cr.spec.nodes)
    ensures InOrder(cr.spec.nodes, Prescribed(cr.spec.nodes, order))
    ensures forall n :: n in cr.spec.nodes ==> n in Prescribed(cr.spec.nodes, order)
  {
    hide Prescribed, IterationOrder;
    PrescribedInOrder(cr.spec.nodes, order);
    forall n | n in cr.spec.nodes ensures n in Prescribed(cr.spec.nodes, order) {
      PrescribedHas(cr.spec.nodes, order, n);
    }
  }

  /** When no two users have the same type, the users before one are the same, in the same order, in every order. */
  lemma UsersUnique(cr: Cr, o1: seq<string>, o2: seq<string>, i: nat, j: nat)
    requires IterationOrder(o1, cr.spec.nodes) && IterationOrder(o2, cr.spec.nodes)
    requires UserTypesDistinct(cr.spec) && KnownTypes(cr.spec.nodes)
    requires i < |Prescribed(cr.spec.nodes, o1)| && j < |Prescribed(cr.spec.nodes, o2)|
    requires Prescribed(cr.spec.nodes, o1)[i] == Prescribed(cr.spec.nodes, o2)[j]
    requires UsesServices(cr.spec, Prescribed(cr.spec.nodes, o1)[i])
    ensures (forall n :: n in Prescribed(cr.spec.nodes, o1)[..i] ==> n in cr.spec.nodes)
    ensures (forall n :: n in Prescribed(cr.spec.nodes, o2)[..j] ==> n in cr.spec.nodes)
    ensures Users(cr, Prescribed(cr.spec.nodes, o1)[..i]) == Users(cr, Prescribed(cr.spec.nodes, o2)[..j])
  {
    hide Prescribed, IterationOrder, Rank, Users, UserTypesDistinct, KnownTypes;
    var k1, k2 := Prescribed(cr.spec.nodes, o1), Prescribed(cr.spec.nodes, o2);
    AllPrescribed(cr, o1);
    AllPrescribed(cr, o2);
    forall k ensures k in Users(cr, k1[..i]) <==> k in Users(cr, k2[..j]) {
      UsersBefore(cr, k1, i, k);
      UsersBefore(cr, k2, j, k);
    }
    UsersSorted(cr, k1[..i]);
    UsersSorted(cr, k2[..j]);
    SortedUnique(cr.spec.nodes, Users(cr, k1[..i]), Users(cr, k2[..j]));
  }

  // ---------- services made from the spec alone ----------

  lemma {:induction false} OverwrittenByNext(cr: Cr, base: Labels, users: seq<string>, key: string)
    requires (forall k :: k in users ==> k in cr.spec.nodes && UsesServices(cr.spec, k)) && UsesServices(cr.spec, key)
    requires forall a, b :: UsesServices(cr.spec, a) && UsesServices(cr.spec, b) ==>
               IntendedLabels(cr, a).Keys == IntendedLabels(cr, b).Keys
    ensures Overwritten(cr, base, users) + IntendedLabels(cr, key) == base + IntendedLabels(cr, key)
    decreases |users|
  {
    hide IntendedLabels;
    if users != [] {
      var init, last := users[..|users| - 1], users[|users| - 1];
      assert last in users;
      OverwrittenByNext(cr, base, init, key);
      assert IntendedLabels(cr, last).Keys == IntendedLabels(cr, key).Keys;
    }
  }

  /** Nothing left by others reaches an unannotated template's service. */
  lemma SentFromSpec(h: Hasher, cr: Cr, users: seq<string>, key: string, x: nat)
    requires (forall k :: k in users ==> k in cr.spec.nodes && UsesServices(cr.spec, k)) && UsesServices(cr.spec, key)
    requires x < |cr.spec.services|
    requires Unannotated(cr.spec) && LeavesNoKeys(cr)
    ensures Sent(h, cr, users, key, x) == Sent(h, cr, [], key, x)
  {
    hide IntendedLabels, Left, Overwritten;
    LeftIs(h, cr, users, x);
    LeftIs(h, cr, [], x);
    var u := cr.spec.services[x];
    SameServiceIff(cr, key, Left(h, cr, users, x), Left(h, cr, [], x));
    forall base: Labels ensures Overwritten(cr, base, []) == base {
      OverwrittenNone(cr, base);
    }
    if u.labels.Some? || u.selector.Some? {
      if u.labels.Some? {
        OverwrittenByNext(cr, u.labels.value, users, key);
      }
      if u.selector.Some? {
        OverwrittenByNext(cr, u.selector.value, users, key);
      }
    }
  }

  lemma OverwrittenNone(cr: Cr, base: Labels)
    ensures Overwritten(cr, base, []) == base
  {
  }

  /** A node's services are the same in every order. */
  lemma ServiceSame(h: Hasher, cr: Cr, o1: seq<string>, o2: seq<string>, i: nat, j: nat, x: nat)
    requires IterationOrder(o1, cr.spec.nodes) && IterationOrder(o2, cr.spec.nodes)
    requires ServicesFixed(cr) && KnownTypes(cr.spec.nodes)
    requires (forall k :: k in Prescribed(cr.spec.nodes, o1) ==> k in cr.spec.nodes)
    requires (forall k :: k in Prescribed(cr.spec.nodes, o2) ==> k in cr.spec.nodes)
    requires i < |Prescribed(cr.spec.nodes, o1)| && j < |Prescribed(cr.spec.nodes, o2)|
    requires Prescribed(cr.spec.nodes, o1)[i] == Prescribed(cr.spec.nodes, o2)[j]
    requires IsTemplate(cr, Prescribed(cr.spec.nodes, o1)[i], x)
    ensures WrittenService(h, cr, Prescribed(cr.spec.nodes, o1), i, x)
         == WrittenService(h, cr, Prescribed(cr.spec.nodes, o2), j, x)
  {
    hide Prescribed, IterationOrder, Sent, UserTypesDistinct, Unannotated, LeavesNoKeys, KnownTypes, Users,
         MakeService, IntendedLabels;
    var k1, k2 := Prescribed(cr.spec.nodes, o1), Prescribed(cr.spec.nodes, o2);
    UsersAreNodes(cr, k1[..i]);
    UsersAreNodes(cr, k2[..j]);
    if UsesServices(cr.spec, k1[i]) {
      if UserTypesDistinct(cr.spec) {
        UsersUnique(cr, o1, o2, i, j);
      } else {
        SentFromSpec(h, cr, Users(cr, k1[..i]), k1[i], x);
        SentFromSpec(h, cr, Users(cr, k2[..j]), k1[i], x);
      }
    }
  }

  lemma ServicesSame(h: Hasher, cr: Cr, o1: seq<string>, o2: seq<string>, i: nat, j: nat)
    requires IterationOrder(o1, cr.spec.nodes) && IterationOrder(o2, cr.spec.nodes)
    requires ServicesFixed(cr) && KnownTypes(cr.spec.nodes)
    requires i < |Prescribed(cr.spec.nodes, o1)| && j < |Prescribed(cr.spec.nodes, o2)|
    requires Prescribed(cr.spec.nodes, o1)[i] == Prescribed(cr.spec.nodes, o2)[j]
    ensures i < |NodesOf(h, cr, o1)| && j < |NodesOf(h, cr, o2)|
    ensures NodesOf(h, cr, o1)[i].services == NodesOf(h, cr, o2)[j].services
  {
    hide Prescribed, IterationOrder, NodesOf, ServicesFixed, KnownTypes, WrittenService, IsTemplate;
    ServiceWritten(h, cr, o1, i, 0);
    ServiceWritten(h, cr, o2, j, 0);
    var s1, s2 := NodesOf(h, cr, o1)[i].services, NodesOf(h, cr, o2)[j].services;
    ServiceWritten(h, cr, o1, i, |s1|);
    ServiceWritten(h, cr, o2, j, |s1|);
    ServiceWritten(h, cr, o1, i, |s2|);
    ServiceWritten(h, cr, o2, j, |s2|);
    assert |s1| == |s2|;
    forall x: nat | x < |s1| ensures s1[x] == s2[x] {
      ServiceWritten(h, cr, o1, i, x);
      ServiceWritten(h, cr, o2, j, x);
      ServiceSame(h, cr, o1, o2, i, j, x);
    }
  }

  /** A node's config map and what follows its workload are made from the spec alone, whatever is shared. */
  lemma ConfigAndExtras(h: Hasher, cr: Cr, order: seq<string>, i: nat)
    requires IterationOrder(order, cr.spec.nodes) && i < |Prescribed(cr.spec.nodes, order)|
    ensures var key := Prescribed(cr.spec.nodes, order)[i];
            && |NodesOf(h, cr, order)| == |Prescribed(cr.spec.nodes, order)| && key in cr.spec.nodes
            && var n, lm := NodesOf(h, cr, order)[i], IntendedLabels(cr, key);
               n.key == key && n.config == NodeConfig(cr, key, cr.spec.nodes[key], lm, cr.uid)
               && n.extras == Extras(cr, cr.spec.nodes[key], lm, UniqueString(cr.name, key))
  {
    hide MakeNode, Prescribed, IterationOrder, NodesOf, SharedAt, NodeLabels, PodLabelsIntact, IntendedLabels, Extras,
         NodeConfig;
    var keys := Prescribed(cr.spec.nodes, order);
    PlannedCount(h, cr, order);
    PlannedNode(h, cr, order, i);
    SharedAtIs(h, cr, keys[..i]);
    var sh := SharedAt(h, cr, Initial(cr.spec), keys[..i]);
    LabelsAreIntended(cr, sh, keys[i]);
    NodeParts(h, cr, sh, keys[i], cr.spec.nodes[keys[i]]);
    MakeNodeKey(h, cr, sh, keys[i], cr.spec.nodes[keys[i]]);
  }

  lemma MakeNodeKey(h: Hasher, cr: Cr, sh: Shared, key: string, node: NodeSpec)
    ensures MakeNode(h, cr, sh, key, node).0.key == key
  {
    hide MakeServices, AfterServices, NodeLabels, NodeProbe, MakePvcs, Optional, MakeWorkload, NodeConfig,
         CommonConfig, FirstName;
  }

  lemma NodeSame(h: Hasher, cr: Cr, o1: seq<string>, o2: seq<string>, i: nat, j: nat)
    requires IterationOrder(o1, cr.spec.nodes) && IterationOrder(o2, cr.spec.nodes)
    requires ServicesFixed(cr) && ProbePortFixed(cr.spec) && KnownTypes(cr.spec.nodes)
    requires i < |Prescribed(cr.spec.nodes, o1)| && j < |Prescribed(cr.spec.nodes, o2)|
    requires Prescribed(cr.spec.nodes, o1)[i] == Prescribed(cr.spec.nodes, o2)[j]
    ensures i < |NodesOf(h, cr, o1)| && j < |NodesOf(h, cr, o2)| && NodesOf(h, cr, o1)[i] == NodesOf(h, cr, o2)[j]
  {
    hide Prescribed, IterationOrder, NodesOf, ServicesFixed, ProbePortFixed, KnownTypes, NodeConfig, Extras,
         WorkloadOf, IntendedLabels;
    ServicesSame(h, cr, o1, o2, i, j);
    ConfigAndExtras(h, cr, o1, i);
    ConfigAndExtras(h, cr, o2, j);
    WorkloadFromSpec(h, cr, o1, i);
    WorkloadFromSpec(h, cr, o2, j);
  }

  lemma PlannedInBoth(h: Hasher, cr: Cr, o1: seq<string>, o2: seq<string>, a: Action)
    requires IterationOrder(o1, cr.spec.nodes) && IterationOrder(o2, cr.spec.nodes)
    requires ServicesFixed(cr) && ProbePortFixed(cr.spec) && KnownTypes(cr.spec.nodes)
    requires a in Flatten(NodesOf(h, cr, o1))
    ensures a in Flatten(NodesOf(h, cr, o2))
  {
    hide NodeActions, ServicesFixed, ProbePortFixed, NodesOf, Prescribed, IterationOrder, Flatten;
    var k1, k2 := Prescribed(cr.spec.nodes, o1), Prescribed(cr.spec.nodes, o2);
    var n1, n2 := NodesOf(h, cr, o1), NodesOf(h, cr, o2);
    FlattenHas(n1, a);
    var i :| 0 <= i < |n1| && a in NodeActions(n1[i]);
    PlannedCount(h, cr, o1);
    PrescribedAreNodes(cr.spec.nodes, o1);
    PrescribedHas(cr.spec.nodes, o2, k1[i]);
    var j :| 0 <= j < |k2| && k2[j] == k1[i];
    NodeSame(h, cr, o1, o2, i, j);
    FlattenHas(n2, a);
  }

  /** Every iteration order plans the same objects and the same workloads. */
  lemma PlansAgree(h: Hasher, cr: Cr, o1: seq<string>, o2: seq<string>)
    requires IterationOrder(o1, cr.spec.nodes) && IterationOrder(o2, cr.spec.nodes)
    requires OrderImmaterial(cr) && KnownTypes(cr.spec.nodes)
    ensures var p1, p2 := PlanFor(h, cr, o1), PlanFor(h, cr, o2);
            Desired(p1) == Desired(p2) && Gates(p1) == Gates(p2)
  {
    hide NodesOf, Flatten, ServicesFixed, ProbePortFixed, TypesAllDistinct, IterationOrder, Prescribed, KnownTypes;
    if TypesAllDistinct(cr.spec.nodes) {
      PlanUnique(h, cr, cr, o1, o2);
    } else {
      var p1, p2 := PlanFor(h, cr, o1), PlanFor(h, cr, o2);
      forall a ensures a in p1.actions <==> a in p2.actions {
        if a in p1.actions {
          PlannedInBoth(h, cr, o1, o2, a);
        }
        if a in p2.actions {
          PlannedInBoth(h, cr, o2, o1, a);
        }
      }
    }
  }

  // ---------- quiescence from the spec ----------

  /** On a settled store in which orphan collection, if it is on, finds every claim in use or some pod not healthy, no
      pass over the spec, in any iteration order, under drift and failing calls, ever writes an object. */
  lemma {:induction false} QuiescentForEver(env: Env, h: Hasher, cr: Cr, order: seq<string>, w: World,
                                            rounds: seq<SpecRound>)
    requires Drifting(env) && OrderImmaterial(cr) && IterationOrder(order, cr.spec.nodes) && KnownTypes(cr.spec.nodes)
    requires Settled(h, cr, PlanFor(h, cr, order), w.objs) && OrphanFree(cr, w.objs)
    requires forall r :: r in rounds ==>
               && SameSource(cr, r.cr) && IterationOrder(r.order, cr.spec.nodes)
               && (!r.cr.deleting || r.cr.spec.disablePvcFinalizer)
    ensures Idle(w, SpecRounds(env, h, w, rounds))
    decreases |rounds|
  {
    hide Deploy, NodesOf, Flatten, OrderImmaterial, IterationOrder, Idle, Drifting, PodsHealthy, Used;
    if rounds != [] {
      var r := rounds[0];
      var plan, plan2 := PlanFor(h, cr, order), PlanFor(h, cr, r.order);
      PlansAgree(h, cr, order, r.order);
      PlanOfSameSource(h, cr, r.cr, r.order);
      SameDesiredKeys(plan, plan2);
      var w1 := Deploy(env, h, r.cr, Some(plan2), w).w;
      SettledSame(h, cr, r.cr, plan, plan2, w.objs);
      OrphanFreeSame(cr, r.cr, w.objs);
      SettledPassIsIdle(env, h, r.cr, plan2, w);
      OrphanFreeSame(cr, r.cr, w1.objs);
      SettledSame(h, cr, r.cr, plan, plan2, w1.objs);
      QuiescentForEver(env, h, cr, order, w1, rounds[1..]);
      IdleTrans(w, w1, SpecRounds(env, h, w, rounds));
    } else {
      IdleSelf(w);
    }
  }

  lemma IdleSelf(w: World)
    ensures Idle(w, w)
  {
  }

  lemma OrphanFreeSame(a: Cr, b: Cr, objs: map<Key, Obj>)
    requires SameSource(a, b)
    ensures OrphanFree(a, objs) <==> OrphanFree(b, objs)
  {
    forall n ensures Used(a, objs, n) <==> Used(b, objs, n) {
      if k :| k in objs && OwnPod(a, objs, k)
              && (n == "" || (objs[k].body.PodBody? && Some(n) in objs[k].body.claims)) {
        assert OwnPod(b, objs, k);
      }
      if k :| k in objs && OwnPod(b, objs, k)
              && (n == "" || (objs[k].body.PodBody? && Some(n) in objs[k].body.claims)) {
        assert OwnPod(a, objs, k);
      }
    }
    forall k | k in objs
      ensures (OwnPod(a, objs, k) <==> OwnPod(b, objs, k))
      ensures (IsOrphanCandidate(a, objs, k) <==> IsOrphanCandidate(b, objs, k))
    {
    }
  }

  lemma SettledSame(h: Hasher, a: Cr, b: Cr, p1: Plan, p2: Plan, objs: map<Key, Obj>)
    requires SameSource(a, b) && Desired(p1) == Desired(p2) && DesiredKeys(p1) == DesiredKeys(p2)
    ensures Settled(h, a, p1, objs) <==> Settled(h, b, p2, objs)
  {
    assert Doomed(objs, a, DesiredKeys(p1), PRUNED) == Doomed(objs, b, DesiredKeys(p2), PRUNED);
  }
}
