/** A pass as a sequence of calls to the server, each of a permitted kind: what holds before every call and is kept by
    every permitted one holds throughout, under any interference and any failures. */
module Calls {
  import opened Cluster
  import opened ApiServer
  import opened Strings
  import opened Reconcile
  import opened Frames
  import opened Upserts
  import opened Prune
  import opened StatusPatch

  datatype Call =
    | Read(key: Key, checking: bool)
    | Make(content: Content)
    | Replace(content: Content, base: nat, ip: string)
    | Erase(key: Key)
    | Enumerate(kind: Kind, ns: string, sel: Labels)
    | ReadCr
    | WriteCr(read: Cr, finalizers: seq<string>)
    | PatchCr(updated: Status)

  function Exec(env: Env, h: Hasher, w: World, call: Call): World {
    match call
    case Read(k, checking) =>
      var (v, r) := Fetch(env, w, k);
      Log(v, if checking then Checked(k, r) else Got(k, r))
    case Make(c) => Create(env, w, c, h(c)).0
    case Replace(c, base, ip) => Update(env, w, c, h(c), base, ip).0
    case Erase(k) => Delete(env, w, k).0
    case Enumerate(kind, ns, sel) => List(env, w, kind, ns, sel).0
    case ReadCr => FetchCr(env, w).0
    case WriteCr(cr, fs) => UpdateCr(env, w, cr, fs).0
    case PatchCr(s) => PatchStatus(env, w, s)
  }

  // ---------- what a pass may call ----------

  /** What a pass was made from, and where its log starts. */
  datatype Mandate = Mandate(cr: Cr, desired: set<Content>, start: nat)

  ghost function DesiredNames(m: Mandate): set<Key> {
    set c | c in m.desired :: c.key
  }

  /** The finalizer code deletes. */
  predicate Finalizing(cr: Cr) {
    cr.deleting && !cr.spec.disablePvcFinalizer
  }

  /** The labels under which objects of a kind are listed for deletion. */
  function Selector(cr: Cr, kind: Kind): Labels {
    if kind.PersistentVolumeClaim? then map["druid_cr" := cr.name] else DruidLabels(cr.name)
  }

  /** Log position `j` is a successful list, of this pass, that found the object in the namespace under the labels. */
  predicate FoundBy(m: Mandate, log: seq<Entry>, j: nat, k: Key) {
    && m.start <= j < |log|
    && log[j].event.Listed? && log[j].event.ok && k in log[j].event.items
    && Matches(log[j].after, k, k.kind, m.cr.ns, Selector(m.cr, k.kind))
  }

  /** The kind that orphan collection deletes, when it is on. */
  predicate OrphanKind(cr: Cr, kind: Kind) {
    kind.PersistentVolumeClaim? && cr.spec.deleteOrphanPvc
  }

  /** An object that a pass may delete: found by one of its lists, and of a pruned kind and not desired, or a claim of a
      resource with orphan collection, or a StatefulSet or claim of a resource being finalized. */
  ghost predicate Deletable(m: Mandate, log: seq<Entry>, k: Key) {
    && (exists j: nat :: FoundBy(m, log, j, k))
    && (if Finalizing(m.cr) then k.kind.StatefulSet? || k.kind.PersistentVolumeClaim?
        else (k.kind in PRUNED && k !in DesiredNames(m)) || OrphanKind(m.cr, k.kind))
  }

  ghost predicate Permitted(m: Mandate, w: World, call: Call) {
    match call
    case Make(c) => c in m.desired
    case Replace(c, _, _) => c in m.desired
    case Erase(k) => Deletable(m, w.log, k)
    case WriteCr(cr, fs) =>
      && cr == m.cr && !cr.spec.disablePvcFinalizer
      && fs == if cr.deleting then Without(cr.finalizers, FINALIZER_NAME) else cr.finalizers + [FINALIZER_NAME]
    case _ => true
  }

  ghost predicate Obeys(env: Env, h: Hasher, m: Mandate, w: World, calls: seq<Call>)
    decreases |calls|
  {
    calls == [] || (Permitted(m, w, calls[0]) && Obeys(env, h, m, Exec(env, h, w, calls[0]), calls[1..]))
  }

  function ExecAll(env: Env, h: Hasher, w: World, calls: seq<Call>): World
    decreases |calls|
  {
    if calls == [] then w else ExecAll(env, h, Exec(env, h, w, calls[0]), calls[1..])
  }

  /** Permitted calls lead from one world to the other. */
  ghost predicate Leads(env: Env, h: Hasher, m: Mandate, a: World, b: World) {
    exists calls: seq<Call> :: Obeys(env, h, m, a, calls) && ExecAll(env, h, a, calls) == b
  }

  lemma LeadsSelf(env: Env, h: Hasher, m: Mandate, a: World)
    ensures Leads(env, h, m, a, a)
  {
    assert Obeys(env, h, m, a, []) && ExecAll(env, h, a, []) == a;
  }

  lemma LeadsOne(env: Env, h: Hasher, m: Mandate, a: World, call: Call)
    requires Permitted(m, a, call)
    ensures Leads(env, h, m, a, Exec(env, h, a, call))
  {
    var calls := [call];
    assert calls[1..] == [];
    assert ExecAll(env, h, Exec(env, h, a, call), []) == Exec(env, h, a, call);
    assert Obeys(env, h, m, a, calls) && ExecAll(env, h, a, calls) == Exec(env, h, a, call);
  }

  lemma {:induction false} Appended(env: Env, h: Hasher, m: Mandate, a: World, xs: seq<Call>, ys: seq<Call>)
    requires Obeys(env, h, m, a, xs) && Obeys(env, h, m, ExecAll(env, h, a, xs), ys)
    ensures Obeys(env, h, m, a, xs + ys) && ExecAll(env, h, a, xs + ys) == ExecAll(env, h, ExecAll(env, h, a, xs), ys)
    decreases |xs|
  {
    hide Permitted, Exec;
    if xs == [] {
      assert xs + ys == ys;
    } else {
      assert (xs + ys)[1..] == xs[1..] + ys;
      Appended(env, h, m, Exec(env, h, a, xs[0]), xs[1..], ys);
    }
  }

  lemma LeadsTrans(env: Env, h: Hasher, m: Mandate, a: World, b: World, c: World)
    requires Leads(env, h, m, a, b) && Leads(env, h, m, b, c)
    ensures Leads(env, h, m, a, c)
  {
    var xs: seq<Call> :| Obeys(env, h, m, a, xs) && ExecAll(env, h, a, xs) == b;
    var ys: seq<Call> :| Obeys(env, h, m, b, ys) && ExecAll(env, h, b, ys) == c;
    Appended(env, h, m, a, xs, ys);
  }

  // ---------- the phases of a pass are permitted calls ----------

  lemma ReadLeads(env: Env, h: Hasher, m: Mandate, w: World, k: Key, checking: bool)
    ensures var (v, r) := Fetch(env, w, k); Leads(env, h, m, w, Log(v, if checking then Checked(k, r) else Got(k, r)))
  {
    LeadsOne(env, h, m, w, Read(k, checking));
  }

  lemma UpsertLeads(env: Env, h: Hasher, m: Mandate, w: World, c: Content)
    requires c in m.desired
    ensures Leads(env, h, m, w, Upsert(env, h, w, c).0)
  {
    hide Leads;
    var (w1, r) := Fetch(env, w, c.key);
    var w2 := Log(w1, Got(c.key, r));
    ReadLeads(env, h, m, w, c.key, false);
    match r
    case Broken =>
    case NotFound =>
      LeadsOne(env, h, m, w2, Make(c));
      LeadsTrans(env, h, m, w, w2, Upsert(env, h, w, c).0);
    case Found(prev) =>
      if prev.hash != h(c) {
        LeadsOne(env, h, m, w2, Replace(c, prev.version, if c.key.kind.Service? then prev.clusterIP else ""));
        LeadsTrans(env, h, m, w, w2, Upsert(env, h, w, c).0);
      }
  }

  lemma StepLeads(env: Env, h: Hasher, m: Mandate, gating: bool, checking: bool, p: Pass, a: Action)
    requires a.content in m.desired
    ensures Leads(env, h, m, p.w, Step(env, h, gating, checking, p, a).w)
  {
    hide Leads, Upsert;
    if p.flow.Going? {
      var w1 := Upsert(env, h, p.w, a.content).0;
      UpsertLeads(env, h, m, p.w, a.content);
      ReadLeads(env, h, m, w1, a.content.key, true);
      LeadsTrans(env, h, m, p.w, w1, CheckDeployed(env, w1, a.content.key).0);
    } else {
      LeadsSelf(env, h, m, p.w);
    }
  }

  lemma {:induction false} StepsLead(env: Env, h: Hasher, m: Mandate, gating: bool, checking: bool, p: Pass,
                                     actions: seq<Action>)
    requires Contents(actions) <= m.desired
    ensures Leads(env, h, m, p.w, Steps(env, h, gating, checking, p, actions).w)
    decreases |actions|
  {
    hide Leads, Step;
    if actions == [] {
      LeadsSelf(env, h, m, p.w);
    } else {
      var p1 := Step(env, h, gating, checking, p, actions[0]);
      assert actions[0].content in Contents(actions);
      StepLeads(env, h, m, gating, checking, p, actions[0]);
      assert Contents(actions[1..]) <= Contents(actions);
      StepsLead(env, h, m, gating, checking, p1, actions[1..]);
      LeadsTrans(env, h, m, p.w, p1.w, Steps(env, h, gating, checking, p, actions).w);
    }
  }

  lemma DeletableLater(m: Mandate, a: seq<Entry>, b: seq<Entry>, k: Key)
    requires a <= b && Deletable(m, a, k)
    ensures Deletable(m, b, k)
  {
    var j: nat :| FoundBy(m, a, j, k);
    assert FoundBy(m, b, j, k);
  }

  lemma {:induction false} DeleteAllLeads(env: Env, h: Hasher, m: Mandate, w: World, keys: seq<Key>)
    requires forall k :: k in keys ==> Deletable(m, w.log, k)
    ensures Leads(env, h, m, w, DeleteAll(env, w, keys).0)
    decreases |keys|
  {
    hide Leads, Deletable, Delete;
    if keys == [] {
      LeadsSelf(env, h, m, w);
    } else {
      var (w1, ok) := Delete(env, w, keys[0]);
      LeadsOne(env, h, m, w, Erase(keys[0]));
      DeleteLog(env, w, keys[0]);
      if ok {
        forall k | k in keys[1..] ensures Deletable(m, w1.log, k) {
          DeletableLater(m, w.log, w1.log, k);
        }
        DeleteAllLeads(env, h, m, w1, keys[1..]);
        LeadsTrans(env, h, m, w, w1, DeleteAll(env, w1, keys[1..]).0);
      }
    }
  }

  lemma {:induction false} PruneItemsLead(env: Env, h: Hasher, m: Mandate, names: set<Key>, w: World, items: seq<Key>)
    requires forall k :: k in items && k !in names ==> Deletable(m, w.log, k)
    ensures Leads(env, h, m, w, PruneItems(env, names, w, items).0)
    decreases |items|
  {
    hide Leads, Deletable, Delete;
    if items == [] {
      LeadsSelf(env, h, m, w);
    } else if items[0] in names {
      PruneItemsLead(env, h, m, names, w, items[1..]);
    } else {
      var w1 := Delete(env, w, items[0]).0;
      LeadsOne(env, h, m, w, Erase(items[0]));
      DeleteLog(env, w, items[0]);
      forall k | k in items[1..] && k !in names ensures Deletable(m, w1.log, k) {
        DeletableLater(m, w.log, w1.log, k);
      }
      PruneItemsLead(env, h, m, names, w1, items[1..]);
      LeadsTrans(env, h, m, w, w1, PruneItems(env, names, w1, items[1..]).0);
    }
  }

  /** A list that answered found all it returns. */
  lemma ListFinds(env: Env, m: Mandate, w: World, kind: Kind, k: Key)
    requires m.start <= |w.log|
    requires var items := List(env, w, kind, m.cr.ns, Selector(m.cr, kind)).1; items.Some? && k in items.value
    ensures k.kind == kind && FoundBy(m, List(env, w, kind, m.cr.ns, Selector(m.cr, kind)).0.log, |w.log|, k)
  {
    ArriveLog(env, w);
    assert Matches(Arrive(env, w).objs, k, kind, m.cr.ns, Selector(m.cr, kind));
  }

  lemma ListLeads(env: Env, h: Hasher, m: Mandate, w: World, kind: Kind, sel: Labels)
    ensures Leads(env, h, m, w, List(env, w, kind, m.cr.ns, sel).0) && w.log <= List(env, w, kind, m.cr.ns, sel).0.log
  {
    LeadsOne(env, h, m, w, Enumerate(kind, m.cr.ns, sel));
    ArriveLog(env, w);
  }

  lemma PruneKindLeads(env: Env, h: Hasher, m: Mandate, names: set<Key>, w: World, kind: Kind)
    requires m.start <= |w.log| && kind in PRUNED && names == DesiredNames(m) && !Finalizing(m.cr)
    ensures Leads(env, h, m, w, PruneKind(env, m.cr, names, w, kind).0)
  {
    hide Leads, List, FoundBy, PruneItems;
    ListLeads(env, h, m, w, kind, DruidLabels(m.cr.name));
    var (w1, items) := List(env, w, kind, m.cr.ns, DruidLabels(m.cr.name));
    if items.Some? {
      forall k | k in items.value && k !in names ensures Deletable(m, w1.log, k) {
        ListFinds(env, m, w, kind, k);
      }
      PruneItemsLead(env, h, m, names, w1, items.value);
      LeadsTrans(env, h, m, w, w1, PruneKind(env, m.cr, names, w, kind).0);
    }
  }

  lemma {:induction false} PruneKindsLead(env: Env, h: Hasher, m: Mandate, names: set<Key>, w: World, kinds: seq<Kind>)
    requires m.start <= |w.log| && (forall k :: k in kinds ==> k in PRUNED) && names == DesiredNames(m)
    requires !Finalizing(m.cr)
    ensures Leads(env, h, m, w, PruneKinds(env, m.cr, names, w, kinds).0)
    decreases |kinds|
  {
    hide Leads, PruneKind;
    if kinds == [] {
      LeadsSelf(env, h, m, w);
    } else {
      var w1 := PruneKind(env, m.cr, names, w, kinds[0]).0;
      PruneKindLeads(env, h, m, names, w, kinds[0]);
      PruneKindLog(env, m.cr, names, w, kinds[0]);
      PruneKindsLead(env, h, m, names, w1, kinds[1..]);
      LeadsTrans(env, h, m, w, w1, PruneKinds(env, m.cr, names, w, kinds).0);
    }
  }

  lemma CollectLeads(env: Env, h: Hasher, m: Mandate, w: World)
    requires m.start <= |w.log| && !Finalizing(m.cr)
    ensures Leads(env, h, m, w, CollectOrphans(env, m.cr, w))
  {
    hide Leads, List, FoundBy, DeleteAll, MountedPvc, Unmounted;
    LeadsSelf(env, h, m, w);
    if m.cr.spec.deleteOrphanPvc {
      var (w1, pods) := List(env, w, Pod, m.cr.ns, DruidLabels(m.cr.name));
      ListLeads(env, h, m, w, Pod, DruidLabels(m.cr.name));
      if pods.Some? {
        var (w2, pvcs) := List(env, w1, PersistentVolumeClaim, m.cr.ns, map["druid_cr" := m.cr.name]);
        ListLeads(env, h, m, w1, PersistentVolumeClaim, map["druid_cr" := m.cr.name]);
        LeadsTrans(env, h, m, w, w1, w2);
        if pvcs.Some? {
          var doomed := Unmounted(pvcs.value, MountedPvc(w1.objs, pods.value));
          UnmountedSubset(pvcs.value, MountedPvc(w1.objs, pods.value));
          forall k | k in doomed ensures Deletable(m, w2.log, k) {
            ListFinds(env, m, w1, PersistentVolumeClaim, k);
          }
          DeleteAllLeads(env, h, m, w2, doomed);
          LeadsTrans(env, h, m, w, w2, DeleteAll(env, w2, doomed).0);
        }
      }
    }
  }

  lemma ReportLeads(env: Env, h: Hasher, m: Mandate, w: World, survivors: seq<seq<string>>)
    requires |survivors| == 7
    ensures Leads(env, h, m, w, ReportStatus(env, m.cr, w, survivors))
  {
    hide Leads, NeedsPatch;
    var (w1, pods) := List(env, w, Pod, m.cr.ns, DruidLabels(m.cr.name));
    ListLeads(env, h, m, w, Pod, DruidLabels(m.cr.name));
    LeadsOne(env, h, m, w1, PatchCr(StatusOf(survivors, pods)));
    LeadsTrans(env, h, m, w, w1, PatchStatus(env, w1, StatusOf(survivors, pods)));
  }

  lemma TailLeads(env: Env, h: Hasher, m: Mandate, p: Pass)
    requires m.start <= |p.w.log| && p.names == DesiredNames(m) && !Finalizing(m.cr)
    ensures Leads(env, h, m, p.w, Tail(env, m.cr, p).w)
  {
    hide Leads, CollectOrphans, PruneKinds, ReportStatus;
    if p.flow.Going? {
      var w1 := CollectOrphans(env, m.cr, p.w);
      var (w2, s) := PruneKinds(env, m.cr, p.names, w1, PRUNED);
      CollectLeads(env, h, m, p.w);
      CollectLog(env, m.cr, p.w);
      PruneKindsLead(env, h, m, p.names, w1, PRUNED);
      LeadsTrans(env, h, m, p.w, w1, w2);
      ReportLeads(env, h, m, w2, s);
      LeadsTrans(env, h, m, p.w, w2, ReportStatus(env, m.cr, w2, s));
    } else {
      LeadsSelf(env, h, m, p.w);
    }
  }

  lemma ExecuteFinalizersLeads(env: Env, h: Hasher, m: Mandate, w: World)
    requires m.start <= |w.log| && Finalizing(m.cr)
    ensures Leads(env, h, m, w, ExecuteFinalizers(env, m.cr, w).0)
  {
    hide Leads, List, FoundBy, DeleteAll, UpdateCr;
    var cr := m.cr;
    LeadsSelf(env, h, m, w);
    if FINALIZER_NAME in cr.finalizers {
      var (w1, pvcs) := List(env, w, PersistentVolumeClaim, cr.ns, map["druid_cr" := cr.name]);
      ListLeads(env, h, m, w, PersistentVolumeClaim, map["druid_cr" := cr.name]);
      var (w2, sets) := List(env, w1, StatefulSet, cr.ns, DruidLabels(cr.name));
      ListLeads(env, h, m, w1, StatefulSet, DruidLabels(cr.name));
      LeadsTrans(env, h, m, w, w1, w2);
      if pvcs.Some? && sets.Some? {
        var keys := sets.value + pvcs.value;
        forall k | k in keys ensures Deletable(m, w2.log, k) {
          if k in sets.value {
            ListFinds(env, m, w1, StatefulSet, k);
          } else {
            ListFinds(env, m, w, PersistentVolumeClaim, k);
            DeletableLater(m, w1.log, w2.log, k);
          }
        }
        var w3 := DeleteAll(env, w2, keys).0;
        DeleteAllLeads(env, h, m, w2, keys);
        LeadsTrans(env, h, m, w, w2, w3);
        LeadsOne(env, h, m, w3, WriteCr(cr, Without(cr.finalizers, FINALIZER_NAME)));
        LeadsTrans(env, h, m, w, w3, UpdateCr(env, w3, cr, Without(cr.finalizers, FINALIZER_NAME)).0);
      }
    }
  }

  lemma FinalizerBlockLeads(env: Env, h: Hasher, m: Mandate, p: Pass)
    requires m.start <= |p.w.log|
    ensures Leads(env, h, m, p.w, FinalizerBlock(env, m.cr, p).w)
  {
    hide Leads, ExecuteFinalizers, UpdateCr, FetchCr;
    LeadsSelf(env, h, m, p.w);
    if p.flow.Going? && !m.cr.spec.disablePvcFinalizer {
      if m.cr.deleting {
        ExecuteFinalizersLeads(env, h, m, p.w);
      } else {
        var w1 := FetchCr(env, p.w).0;
        LeadsOne(env, h, m, p.w, ReadCr);
        LeadsOne(env, h, m, w1, WriteCr(m.cr, m.cr.finalizers + [FINALIZER_NAME]));
        LeadsTrans(env, h, m, p.w, w1, UpdateCr(env, w1, m.cr, m.cr.finalizers + [FINALIZER_NAME]).0);
      }
    }
  }

  function MandateOf(cr: Cr, plan: Plan, w: World): Mandate {
    Mandate(cr, Desired(plan), |w.log|)
  }

  lemma NamesOfMandate(cr: Cr, plan: Plan, w: World)
    ensures DesiredNames(MandateOf(cr, plan, w)) == DesiredKeys(plan)
  {
    forall k | k in DesiredKeys(plan) ensures k in DesiredNames(MandateOf(cr, plan, w)) {
      if k != plan.common.key {
        var x :| x in plan.actions && x.content.key == k;
        assert x.content in Desired(plan);
      }
    }
  }

  lemma NodeLoopLeads(env: Env, h: Hasher, cr: Cr, plan: Plan, w: World)
    ensures Leads(env, h, MandateOf(cr, plan, w), w, NodeLoop(env, h, cr, plan, w).w)
    ensures w.log <= NodeLoop(env, h, cr, plan, w).w.log
  {
    hide Leads, Step, Steps, FinalizerBlock;
    var m := MandateOf(cr, plan, w);
    var p0 := Pass(w, {}, Going);
    var p1 := Step(env, h, false, false, p0, Ensure(plan.common));
    var p2 := FinalizerBlock(env, cr, p1);
    var p := NodeLoop(env, h, cr, plan, w);
    StepLeads(env, h, m, false, false, p0, Ensure(plan.common));
    LogOfStep(env, h, p0, Ensure(plan.common));
    FinalizerBlockLeads(env, h, m, p1);
    FinalizerBlockLog(env, cr, p1);
    LeadsTrans(env, h, m, w, p1.w, p2.w);
    StepsLead(env, h, m, cr.spec.rollingDeploy, cr.generation > 1, p2, plan.actions);
    StepsNeverDelete(env, h, cr.spec.rollingDeploy, cr.generation > 1, p2, plan.actions);
    LeadsTrans(env, h, m, w, p2.w, p.w);
  }

  lemma LogOfStep(env: Env, h: Hasher, p: Pass, a: Action)
    ensures p.w.log <= Step(env, h, false, false, p, a).w.log
  {
    StepsNeverDelete(env, h, false, false, p, [a]);
    assert Steps(env, h, false, false, p, [a]) == Step(env, h, false, false, p, a);
  }

  /** A whole pass, on whatever resource and plan, in whatever surroundings, makes permitted calls only. */
  lemma DeployLeads(env: Env, h: Hasher, cr: Cr, plan: Plan, w: World)
    ensures Leads(env, h, MandateOf(cr, plan, w), w, Deploy(env, h, cr, Some(plan), w).w)
  {
    hide Leads, NodeLoop, Tail;
    var m := MandateOf(cr, plan, w);
    if !cr.spec.ignored && cr.spec.valid {
      var p := NodeLoop(env, h, cr, plan, w);
      NodeLoopLeads(env, h, cr, plan, w);
      if p.flow.Going? {
        NotFinalizing(env, h, cr, plan, w);
        TailLeads(env, h, m, p);
        LeadsTrans(env, h, m, w, p.w, Tail(env, cr, p).w);
      } else {
        TailHalted(env, cr, p);
      }
    } else {
      LeadsSelf(env, h, m, w);
    }
  }

  lemma TailHalted(env: Env, cr: Cr, p: Pass)
    requires !p.flow.Going?
    ensures Tail(env, cr, p) == p
  {
  }

  /** A node loop that ran to its end belongs to a resource that is not being finalized, and recorded all names. */
  lemma NotFinalizing(env: Env, h: Hasher, cr: Cr, plan: Plan, w: World)
    requires NodeLoop(env, h, cr, plan, w).flow.Going?
    ensures !Finalizing(cr) && NodeLoop(env, h, cr, plan, w).names == DesiredNames(MandateOf(cr, plan, w))
  {
    var p1 := Step(env, h, false, false, Pass(w, {}, Going), Ensure(plan.common));
    var p2 := FinalizerBlock(env, cr, p1);
    StepsNames(env, h, cr.spec.rollingDeploy, cr.generation > 1, p2, plan.actions);
    NamesOfMandate(cr, plan, w);
  }

  // ---------- a pass touches only what is its own ----------

  /** The call logged at position `i` was permitted: it wrote something planned, or deleted something deletable by what
      the log said before it. */
  ghost predicate Within(m: Mandate, log: seq<Entry>, i: nat)
    requires i < |log|
  {
    match log[i].event
    case Created(k, c, _) => c in m.desired && k == c.key
    case Updated(k, c, _) => c in m.desired && k == c.key
    case Deleted(k, _) => Deletable(m, log[..i], k)
    case CrUpdated(fs, _) =>
      fs == if m.cr.deleting then Without(m.cr.finalizers, FINALIZER_NAME) else m.cr.finalizers + [FINALIZER_NAME]
    case _ => true
  }

  ghost predicate WithinFrom(m: Mandate, a: seq<Entry>, b: seq<Entry>) {
    a <= b && forall i :: |a| <= i < |b| ==> Within(m, b, i)
  }

  lemma ExecWithin(env: Env, h: Hasher, m: Mandate, w: World, call: Call)
    requires Permitted(m, w, call)
    ensures WithinFrom(m, w.log, Exec(env, h, w, call).log)
  {
    hide Deletable;
    ArriveLog(env, w);
    var log := Exec(env, h, w, call).log;
    assert log[..|w.log|] == w.log;
  }

  lemma WithinTrans(m: Mandate, a: seq<Entry>, b: seq<Entry>, c: seq<Entry>)
    requires WithinFrom(m, a, b) && WithinFrom(m, b, c)
    ensures WithinFrom(m, a, c)
  {
    hide Deletable;
    forall i | |a| <= i < |c| ensures Within(m, c, i) {
      if i < |b| {
        assert c[i] == b[i] && c[..i] == b[..i];
        assert Within(m, b, i);
      }
    }
  }

  lemma {:induction false} CallsWithin(env: Env, h: Hasher, m: Mandate, w: World, calls: seq<Call>)
    requires Obeys(env, h, m, w, calls)
    ensures WithinFrom(m, w.log, ExecAll(env, h, w, calls).log)
    decreases |calls|
  {
    hide Exec, Permitted, Within;
    if calls != [] {
      var w1 := Exec(env, h, w, calls[0]);
      ExecWithin(env, h, m, w, calls[0]);
      CallsWithin(env, h, m, w1, calls[1..]);
      WithinTrans(m, w.log, w1.log, ExecAll(env, h, w, calls).log);
    }
  }

  /** Under any interference and any failures, a pass creates and updates planned objects only, and deletes only what
      one of its own lists had found under the resource's labels in its namespace: leftovers of the pruned kinds, claims
      when orphan collection is on, StatefulSets and claims when the resource is being finalized. */
  lemma PassTouchesOnlyItsOwn(env: Env, h: Hasher, cr: Cr, plan: Plan, w: World)
    ensures WithinFrom(MandateOf(cr, plan, w), w.log, Deploy(env, h, cr, Some(plan), w).w.log)
  {
    hide Deploy, Within;
    var m := MandateOf(cr, plan, w);
    DeployLeads(env, h, cr, plan, w);
    var calls: seq<Call> :|
      Obeys(env, h, m, w, calls) && ExecAll(env, h, w, calls) == Deploy(env, h, cr, Some(plan), w).w;
    CallsWithin(env, h, m, w, calls);
  }

  // ---------- what is not its own stays ----------

  /** Neither desired, nor of a kind that the pass may delete and under the resource's labels in its namespace. */
  ghost predicate NotItsOwn(m: Mandate, objs: map<Key, Obj>, k: Key) {
    && k !in DesiredNames(m)
    && !(Matches(objs, k, k.kind, m.cr.ns, Selector(m.cr, k.kind))
         && if Finalizing(m.cr) then k.kind.StatefulSet? || k.kind.PersistentVolumeClaim?
            else k.kind in PRUNED || OrphanKind(m.cr, k.kind))
  }

  predicate SameAt(a: map<Key, Obj>, b: map<Key, Obj>, k: Key) {
    (k in a <==> k in b) && (k in a ==> SameObj(a[k], b[k]))
  }

  /** Nobody else writes the object, its replica count and status aside. */
  ghost predicate NobodyRewrites(env: Env, k: Key) {
    forall n: nat, i: nat :: i < |env(n).writes| ==> LeavesAlone(env(n).writes[i], k)
  }

  predicate LeavesAlone(f: Foreign, k: Key) {
    (f.Put? || f.Remove?) ==> f.key != k
  }

  /** The object is as in `objs` now and after every call of the pass so far. */
  ghost predicate Kept(m: Mandate, objs: map<Key, Obj>, w: World, k: Key) {
    SameAt(objs, w.objs, k) && forall j: nat :: m.start <= j < |w.log| ==> SameAt(objs, w.log[j].after, k)
  }

  lemma {:induction false} ApplyAllLeavesAlone(w: World, fs: seq<Foreign>, k: Key)
    requires forall i :: 0 <= i < |fs| ==> LeavesAlone(fs[i], k)
    ensures SameAt(w.objs, ApplyAll(w, fs).objs, k)
    decreases |fs|
  {
    if fs != [] {
      assert LeavesAlone(fs[0], k);
      ApplyAllLeavesAlone(Apply(w, fs[0]), fs[1..], k);
    }
  }

  lemma NotItsOwnNotDeletable(m: Mandate, objs: map<Key, Obj>, w: World, k: Key)
    requires NotItsOwn(m, objs, k) && Kept(m, objs, w, k)
    ensures !Deletable(m, w.log, k)
  {
  }

  lemma ErasePermitted(m: Mandate, w: World, k: Key)
    ensures Permitted(m, w, Erase(k)) ==> Deletable(m, w.log, k)
  {
    hide Deletable;
  }

  lemma ExecSameAt(env: Env, h: Hasher, m: Mandate, w: World, call: Call, k: Key)
    requires Permitted(m, w, call) && k !in DesiredNames(m) && call != Erase(k)
    ensures SameAt(Arrive(env, w).objs, Exec(env, h, w, call).objs, k)
  {
    hide Deletable, Enumerates, ApplyAll, Written;
  }

  lemma ExecLogs(env: Env, h: Hasher, w: World, call: Call)
    ensures var q := Exec(env, h, w, call);
            w.log <= q.log && forall j: nat :: |w.log| <= j < |q.log| ==> q.log[j].after == q.objs
  {
    hide Enumerates, ApplyAll, Written;
    ArriveLog(env, w);
  }

  lemma ExecKeeps(env: Env, h: Hasher, m: Mandate, objs: map<Key, Obj>, w: World, call: Call, k: Key)
    requires NobodyRewrites(env, k) && NotItsOwn(m, objs, k) && Kept(m, objs, w, k) && Permitted(m, w, call)
    ensures Kept(m, objs, Exec(env, h, w, call), k)
  {
    hide Deletable, Exec, NotItsOwn, Permitted, SameObj;
    ApplyAllLeavesAlone(w, env(w.tick).writes, k);
    NotItsOwnNotDeletable(m, objs, w, k);
    NotItsOwnNotDesired(m, objs, k);
    ErasePermitted(m, w, k);
    ExecSameAt(env, h, m, w, call, k);
    ExecLogs(env, h, w, call);
    SameAtTrans(objs, w.objs, Arrive(env, w).objs, k);
    SameAtTrans(objs, Arrive(env, w).objs, Exec(env, h, w, call).objs, k);
  }

  lemma NotItsOwnNotDesired(m: Mandate, objs: map<Key, Obj>, k: Key)
    requires NotItsOwn(m, objs, k)
    ensures k !in DesiredNames(m)
  {
  }

  lemma SameAtTrans(a: map<Key, Obj>, b: map<Key, Obj>, c: map<Key, Obj>, k: Key)
    requires SameAt(a, b, k) && SameAt(b, c, k)
    ensures SameAt(a, c, k)
  {
  }

  lemma {:induction false} CallsKeep(env: Env, h: Hasher, m: Mandate, objs: map<Key, Obj>, w: World, calls: seq<Call>,
                                     k: Key)
    requires NobodyRewrites(env, k) && NotItsOwn(m, objs, k) && Kept(m, objs, w, k) && Obeys(env, h, m, w, calls)
    ensures Kept(m, objs, ExecAll(env, h, w, calls), k)
    decreases |calls|
  {
    hide Exec, Permitted, Kept, NobodyRewrites, NotItsOwn;
    if calls != [] {
      ExecKeeps(env, h, m, objs, w, calls[0], k);
      CallsKeep(env, h, m, objs, Exec(env, h, w, calls[0]), calls[1..], k);
    }
  }

  /** In every store state of a pass, whatever else others write and whichever calls fail, an object that is neither
      desired nor deletable by its kind, namespace and labels is as it was, or as absent. */
  lemma NotItsOwnUntouched(env: Env, h: Hasher, cr: Cr, plan: Plan, w: World, k: Key)
    requires NobodyRewrites(env, k) && NotItsOwn(MandateOf(cr, plan, w), w.objs, k)
    ensures Kept(MandateOf(cr, plan, w), w.objs, Deploy(env, h, cr, Some(plan), w).w, k)
  {
    hide Deploy, NobodyRewrites, NotItsOwn;
    var m := MandateOf(cr, plan, w);
    DeployLeads(env, h, cr, plan, w);
    var calls: seq<Call> :|
      Obeys(env, h, m, w, calls) && ExecAll(env, h, w, calls) == Deploy(env, h, cr, Some(plan), w).w;
    CallsKeep(env, h, m, w.objs, w, calls, k);
  }

  // ---------- resource versions ----------

  lemma ExecVersioned(env: Env, h: Hasher, w: World, call: Call)
    requires Versioned(w)
    ensures Versioned(Exec(env, h, w, call)) && Monotone(w, Exec(env, h, w, call))
  {
    hide Versioned, Monotone;
    var v := Arrive(env, w);
    ArriveMonotone(env, w);
    ServedVersioned(env, h, w, v, call);
    MonotoneTrans(w, v, Exec(env, h, w, call));
  }

  lemma ServedVersioned(env: Env, h: Hasher, w: World, v: World, call: Call)
    requires v == Arrive(env, w) && Versioned(v)
    ensures Versioned(Exec(env, h, w, call)) && Monotone(v, Exec(env, h, w, call))
  {
    hide Apply, ApplyAll, Enumerates, Patched;
  }

  lemma {:induction false} CallsVersioned(env: Env, h: Hasher, w: World, calls: seq<Call>)
    requires Versioned(w)
    ensures Versioned(ExecAll(env, h, w, calls)) && Monotone(w, ExecAll(env, h, w, calls))
    decreases |calls|
  {
    hide Exec, Versioned;
    if calls != [] {
      var w1 := Exec(env, h, w, calls[0]);
      ExecVersioned(env, h, w, calls[0]);
      CallsVersioned(env, h, w1, calls[1..]);
      MonotoneTrans(w, w1, ExecAll(env, h, w, calls));
    }
  }

  lemma LeadsVersioned(env: Env, h: Hasher, m: Mandate, a: World, b: World)
    requires Versioned(a) && Leads(env, h, m, a, b)
    ensures Versioned(b) && Monotone(a, b)
  {
    hide Obeys, Versioned, Monotone;
    var calls: seq<Call> :| Obeys(env, h, m, a, calls) && ExecAll(env, h, a, calls) == b;
    CallsVersioned(env, h, a, calls);
  }

  /** No pass gives out a version twice: a stored object is as it was or newer than everything before the pass. */
  lemma PassVersioned(env: Env, h: Hasher, cr: Cr, plan: Option<Plan>, w: World)
    requires Versioned(w)
    ensures Versioned(Deploy(env, h, cr, plan, w).w) && Monotone(w, Deploy(env, h, cr, plan, w).w)
  {
    hide Versioned, Leads, NodeLoop, Tail;
    if plan.Some? {
      DeployLeads(env, h, cr, plan.value, w);
      LeadsVersioned(env, h, MandateOf(cr, plan.value, w), w, Deploy(env, h, cr, plan, w).w);
    }
  }
}
