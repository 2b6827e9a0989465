/** What a pass reports: the status that it leaves on the resource, field by field, against the store that it leaves. */
module StatusReport {
  import opened Cluster
  import opened ApiServer
  import opened Strings
  import opened StatusPatch
  import opened Reconcile
  import opened Frames
  import opened Prune
  import opened Calls
  import opened Finalizer
  import opened FinalizerAdded

  /** The resource has an object of this kind and name. */
  predicate Has(cr: Cr, objs: map<Key, Obj>, kind: Kind, name: string) {
    var k := Key(kind, cr.ns, name);
    k in objs && Selects(map["app" := "druid", "druid_cr" := cr.name], objs[k].labels)
  }

  /** The list names exactly the resource's objects of the kind, each once, in order. */
  ghost predicate Names1(cr: Cr, objs: map<Key, Obj>, kind: Kind, names: seq<string>) {
    Ordered(names) && forall n :: n in names <==> Has(cr, objs, kind, n)
  }

  // ---------- the prune of one kind, when nothing fails ----------

  predicate OfOneKind(items: seq<Key>, kind: Kind, ns: string) {
    forall k :: k in items ==> k.kind == kind && k.ns == ns
  }

  predicate AllDifferent<T(==)>(items: seq<T>) {
    forall i, j :: 0 <= i < j < |items| ==> items[i] != items[j]
  }

  lemma DifferentRest(items: seq<Key>, objs: map<Key, Obj>)
    requires items != [] && AllDifferent(items) && forall k :: k in items ==> k in objs
    ensures AllDifferent(items[1..]) && forall k :: k in items[1..] ==> k in objs && k != items[0]
  {
    forall k | k in items[1..] ensures k in objs && k != items[0] {
      var i :| 0 <= i < |items[1..]| && items[1..][i] == k;
      assert items[i + 1] == k;
    }
  }

  lemma {:induction false} PruneItemsExact(env: Env, names: set<Key>, w: World, items: seq<Key>, kind: Kind, ns: string)
    requires Alone(env) && Faultless(env) && AllDifferent(items) && OfOneKind(items, kind, ns)
    requires forall k :: k in items ==> k in w.objs
    ensures var (q, survivors) := PruneItems(env, names, w, items);
            && q.objs == w.objs - (set k | k in items && k !in names)
            && AllDifferent(survivors)
            && forall n :: n in survivors <==> Key(kind, ns, n) in items && Key(kind, ns, n) in names
    decreases |items|
  {
    hide Alone, Faultless;
    if items != [] {
      var k := items[0];
      DifferentRest(items, w.objs);
      assert items == [k] + items[1..];
      assert k == Key(kind, ns, k.name);
      if k in names {
        PruneItemsExact(env, names, w, items[1..], kind, ns);
        FirstSurvivor(PruneItems(env, names, w, items[1..]).1, k.name);
      } else {
        DeletedOne(env, w, k);
        PruneItemsExact(env, names, Delete(env, w, k).0, items[1..], kind, ns);
      }
    }
  }

  lemma FirstSurvivor(rest: seq<string>, n: string)
    requires AllDifferent(rest) && n !in rest
    ensures AllDifferent([n] + rest)
  {
  }

  lemma DeletedOne(env: Env, w: World, k: Key)
    requires Alone(env) && Faultless(env) && k in w.objs
    ensures var (w1, ok) := Delete(env, w, k); ok && w1.objs == w.objs - {k}
  {
    AloneArrives(env, w);
  }

  /** The prune of a kind leaves of it what is recorded, nothing of other kinds changes, and its answer names what is
      left. */
  lemma PruneKindExact(env: Env, cr: Cr, names: set<Key>, w: World, kind: Kind)
    requires Alone(env) && Faultless(env) && Adds(w, PruneKind(env, cr, names, w, kind).0, ListOk)
    ensures var (q, survivors) := PruneKind(env, cr, names, w, kind);
            && q.objs.Keys <= w.objs.Keys && (forall k :: k in q.objs ==> q.objs[k] == w.objs[k])
            && (forall k :: k in w.objs && k.kind != kind ==> k in q.objs)
            && Names1(cr, q.objs, kind, Sort(survivors))
  {
    hide PruneItems, List, Enumerates, Alone, Faultless, Leq, Selects;
    var (w1, items) := List(env, w, kind, cr.ns, DruidLabels(cr.name));
    AloneList(env, w, kind, cr.ns, DruidLabels(cr.name));
    ListTape(env, w, kind, cr.ns, DruidLabels(cr.name));
    var (q, survivors) := PruneKind(env, cr, names, w, kind);
    if items.Some? {
      PruneItemsLog(env, names, w1, items.value);
    }
    LastListed(w, w, w1, q, if items.Some? then items.value else [], kind, items.Some?);
    ListedKeys(w.objs, items.value, kind, cr);
    PruneItemsExact(env, names, w1, items.value, kind, cr.ns);
    SortOrders(survivors);
    forall n ensures n in survivors <==> Has(cr, q.objs, kind, n) {
      ListedIff(w.objs, items.value, kind, cr, n);
    }
  }

  lemma ListedKeys(objs: map<Key, Obj>, items: seq<Key>, kind: Kind, cr: Cr)
    requires Enumerates(items, objs, kind, cr.ns, DruidLabels(cr.name))
    ensures AllDifferent(items) && OfOneKind(items, kind, cr.ns) && forall k :: k in items ==> k in objs
  {
    forall k | k in items ensures k.kind == kind && k.ns == cr.ns && k in objs {
      assert Matches(objs, k, kind, cr.ns, DruidLabels(cr.name));
    }
  }

  lemma ListedIff(objs: map<Key, Obj>, items: seq<Key>, kind: Kind, cr: Cr, n: string)
    requires Enumerates(items, objs, kind, cr.ns, DruidLabels(cr.name))
    ensures Key(kind, cr.ns, n) in items <==> Has(cr, objs, kind, n)
  {
    var k := Key(kind, cr.ns, n);
    assert Matches(objs, k, kind, cr.ns, DruidLabels(cr.name)) <==> Has(cr, objs, kind, n);
  }

  // ---------- the prune of one kind, whatever fails ----------

  /** The names of the listed objects of which no delete was served, in list order. */
  function Left(items: seq<Key>, tape: seq<Event>): seq<string> {
    if items == [] then []
    else (if Deleted(items[0], true) in tape then [] else [items[0].name]) + Left(items[1..], tape)
  }

  lemma {:induction false} LeftSame(items: seq<Key>, a: seq<Event>, b: seq<Event>)
    requires forall k :: k in items ==> (Deleted(k, true) in a <==> Deleted(k, true) in b)
    ensures Left(items, a) == Left(items, b)
  {
    if items != [] {
      LeftSame(items[1..], a, b);
    }
  }

  /** One delete was tried of each listed object that is not desired, and nothing else was done. */
  ghost predicate EachTriedOnce(items: seq<Key>, names: set<Key>, tape: seq<Event>) {
    && AllDifferent(tape)
    && (forall e :: e in tape ==> e.Deleted? && e.key in items && e.key !in names)
    && (forall k :: k in items && k !in names ==> (Deleted(k, true) in tape <==> Deleted(k, false) !in tape))
  }

  lemma TriedFirst(items: seq<Key>, names: set<Key>, ok: bool, rest: seq<Event>)
    requires items != [] && AllDifferent(items) && items[0] !in names && EachTriedOnce(items[1..], names, rest)
    ensures EachTriedOnce(items, names, [Deleted(items[0], ok)] + rest)
    ensures Left(items, [Deleted(items[0], ok)] + rest) == (if ok then [] else [items[0].name]) + Left(items[1..], rest)
  {
    var tape := [Deleted(items[0], ok)] + rest;
    FirstNotAgain(items);
    assert items == [items[0]] + items[1..];
    assert forall e :: e in rest ==> e.key != items[0];
    LeftSame(items[1..], tape, rest);
  }

  lemma KeptFirst(items: seq<Key>, names: set<Key>, tape: seq<Event>)
    requires items != [] && items[0] in names && EachTriedOnce(items[1..], names, tape)
    ensures EachTriedOnce(items, names, tape) && Left(items, tape) == [items[0].name] + Left(items[1..], tape)
  {
    assert items == [items[0]] + items[1..];
  }

  lemma NothingTried(names: set<Key>)
    ensures EachTriedOnce([], names, [])
  {
  }

  lemma FirstNotAgain(items: seq<Key>)
    requires items != [] && AllDifferent(items)
    ensures items[0] !in items[1..] && AllDifferent(items[1..])
  {
  }

  lemma {:induction false} PruneItemsTold(env: Env, names: set<Key>, w: World, items: seq<Key>)
    requires AllDifferent(items)
    ensures var (q, survivors) := PruneItems(env, names, w, items);
            && w.log <= q.log
            && EachTriedOnce(items, names, Tape(w, q)) && survivors == Left(items, Tape(w, q))
    decreases |items|
  {
    hide Delete, EachTriedOnce;
    if items == [] {
      NothingTried(names);
      assert Tape(w, w) == [];
    } else {
      var k := items[0];
      FirstNotAgain(items);
      var (q, survivors) := PruneItems(env, names, w, items);
      if k in names {
        PruneItemsTold(env, names, w, items[1..]);
        KeptFirst(items, names, Tape(w, q));
      } else {
        var (w1, ok) := Delete(env, w, k);
        DeleteLog(env, w, k);
        assert Tape(w, w1) == [Deleted(k, ok)];
        PruneItemsTold(env, names, w1, items[1..]);
        TapeTrans(w, w1, q);
        TriedFirst(items, names, ok, Tape(w1, q));
      }
    }
  }

  /** Under any interference and any failures the prune of a kind tries one delete of each listed object that is not
      desired, and reports the listed ones of which no delete was served, in list order; none when the list fails. */
  lemma SurvivorsTold(env: Env, cr: Cr, names: set<Key>, w: World, kind: Kind)
    ensures var (w1, items) := List(env, w, kind, cr.ns, map["app" := "druid", "druid_cr" := cr.name]);
            var (q, survivors) := PruneKind(env, cr, names, w, kind);
            && (items.None? ==> survivors == [] && q == w1)
            && (items.Some? ==> && w1.log <= q.log && EachTriedOnce(items.value, names, Tape(w1, q))
                                && survivors == Left(items.value, Tape(w1, q)))
  {
    hide List, PruneItems, EachTriedOnce;
    var (w1, items) := List(env, w, kind, cr.ns, DruidLabels(cr.name));
    if items.Some? {
      AllDifferentListed(env, w, kind, cr.ns, DruidLabels(cr.name));
      PruneItemsTold(env, names, w1, items.value);
    }
  }

  lemma AllDifferentListed(env: Env, w: World, kind: Kind, ns: string, sel: Labels)
    ensures var items := List(env, w, kind, ns, sel).1; items.Some? ==> AllDifferent(items.value)
  {
  }

  // ---------- the prune of all kinds ----------

  lemma NamesKept(cr: Cr, a: map<Key, Obj>, b: map<Key, Obj>, kind: Kind, names: seq<string>)
    requires Names1(cr, a, kind, names) && b.Keys <= a.Keys && forall k :: k in b ==> b[k] == a[k]
    requires forall k :: k in a && k.kind == kind ==> k in b
    ensures Names1(cr, b, kind, names)
  {
    hide Selects, Ordered;
  }

  /** Each answer of the prune names what is left of its kind. */
  ghost predicate EachNamed(cr: Cr, objs: map<Key, Obj>, kinds: seq<Kind>, lists: seq<seq<string>>) {
    |lists| == |kinds| && forall i :: 0 <= i < |kinds| ==> Names1(cr, objs, kinds[i], lists[i])
  }

  lemma {:induction false} PruneKindsExact(env: Env, cr: Cr, names: set<Key>, w: World, kinds: seq<Kind>)
    requires Alone(env) && Faultless(env) && AllDifferent(kinds)
    requires Adds(w, PruneKinds(env, cr, names, w, kinds).0, ListOk)
    ensures var (q, lists) := PruneKinds(env, cr, names, w, kinds);
            && q.objs.Keys <= w.objs.Keys && (forall k :: k in q.objs ==> q.objs[k] == w.objs[k])
            && (forall k :: k in w.objs && k.kind !in kinds ==> k in q.objs)
            && EachNamed(cr, q.objs, kinds, lists)
    decreases |kinds|
  {
    hide PruneKind, Names1, Alone, Faultless, Sort;
    if kinds != [] {
      var (w1, survivors) := PruneKind(env, cr, names, w, kinds[0]);
      var rest := kinds[1..];
      var (q, lists) := PruneKinds(env, cr, names, w1, rest);
      PruneKindLog(env, cr, names, w, kinds[0]);
      PruneKindsLog(env, cr, names, w1, rest);
      AddsSplit(w, w1, q, ListOk);
      PruneKindExact(env, cr, names, w, kinds[0]);
      assert kinds == [kinds[0]] + rest && kinds[0] !in rest;
      PruneKindsExact(env, cr, names, w1, rest);
      NamesKept(cr, w1.objs, q.objs, kinds[0], Sort(survivors));
    }
  }

  // ---------- the status ----------

  /** The pods found by a list. */
  lemma PodsNamed(env: Env, cr: Cr, w: World)
    requires Alone(env) && List(env, w, Pod, cr.ns, DruidLabels(cr.name)).1.Some?
    ensures var pods := List(env, w, Pod, cr.ns, DruidLabels(cr.name)).1.value;
            Names1(cr, w.objs, Pod, Sort(PodNames(pods)))
  {
    hide List, Enumerates, Leq, Sort, Alone;
    var pods := List(env, w, Pod, cr.ns, DruidLabels(cr.name)).1.value;
    AloneList(env, w, Pod, cr.ns, DruidLabels(cr.name));
    ListedKeys(w.objs, pods, Pod, cr);
    var names := PodNames(pods);
    forall i, j | 0 <= i < j < |names| ensures names[i] != names[j] {
      assert pods[i] in pods && pods[j] in pods;
    }
    SortOrders(names);
    forall n ensures n in names <==> Has(cr, w.objs, Pod, n) {
      ListedIff(w.objs, pods, Pod, cr, n);
      if n in names {
        var i :| 0 <= i < |names| && names[i] == n;
        assert pods[i] in pods;
      }
      if Key(Pod, cr.ns, n) in pods {
        var i :| 0 <= i < |pods| && pods[i] == Key(Pod, cr.ns, n);
        assert names[i] == n;
      }
    }
  }

  /** Every list of the status names the resource's objects of its kind. */
  ghost predicate Describes(cr: Cr, objs: map<Key, Obj>, s: Status) {
    && Names1(cr, objs, StatefulSet, s.statefulSets)
    && Names1(cr, objs, Deployment, s.deployments)
    && Names1(cr, objs, HorizontalPodAutoscaler, s.hpAutoScalers)
    && Names1(cr, objs, Ingress, s.ingress)
    && Names1(cr, objs, PodDisruptionBudget, s.podDisruptionBudgets)
    && Names1(cr, objs, Service, s.services)
    && Names1(cr, objs, ConfigMap, s.configMaps)
    && Names1(cr, objs, Pod, s.pods)
  }

  lemma StatusDescribes(cr: Cr, objs: map<Key, Obj>, lists: seq<seq<string>>, pods: seq<Key>)
    requires EachNamed(cr, objs, PRUNED, lists) && |lists| == 7 && Names1(cr, objs, Pod, Sort(PodNames(pods)))
    ensures Describes(cr, objs, StatusOf(lists, Some(pods)))
  {
    hide Names1, Sort, PodNames;
    assert PRUNED
               == [StatefulSet, Deployment, HorizontalPodAutoscaler, Ingress, PodDisruptionBudget, Service, ConfigMap];
  }

  /** A list as it is stored after the report: the right one if the resource has such objects, else what it was. */
  ghost predicate Shows(cr: Cr, objs: map<Key, Obj>, kind: Kind, before: seq<string>, after: seq<string>) {
    if exists n :: Has(cr, objs, kind, n) then Names1(cr, objs, kind, after) else after == before
  }

  lemma MergedShows(cr: Cr, objs: map<Key, Obj>, kind: Kind, computed: seq<string>, before: seq<string>,
                    after: seq<string>)
    requires Names1(cr, objs, kind, computed) && after == if computed != [] then computed else before
    ensures Shows(cr, objs, kind, before, after)
  {
    hide Has, Ordered;
    if computed != [] {
      var n := AnyOf(computed);
      assert Has(cr, objs, kind, n);
    }
  }

  ghost predicate AllShown(cr: Cr, objs: map<Key, Obj>, before: Status, after: Status) {
    && Shows(cr, objs, StatefulSet, before.statefulSets, after.statefulSets)
    && Shows(cr, objs, Deployment, before.deployments, after.deployments)
    && Shows(cr, objs, HorizontalPodAutoscaler, before.hpAutoScalers, after.hpAutoScalers)
    && Shows(cr, objs, Ingress, before.ingress, after.ingress)
    && Shows(cr, objs, PodDisruptionBudget, before.podDisruptionBudgets, after.podDisruptionBudgets)
    && Shows(cr, objs, Service, before.services, after.services)
    && Shows(cr, objs, ConfigMap, before.configMaps, after.configMaps)
    && Shows(cr, objs, Pod, before.pods, after.pods)
  }

  lemma MergeFields(stored: Status, updated: Status)
    ensures var p := Patched(stored, updated);
            && p.statefulSets == (if updated.statefulSets != [] then updated.statefulSets else stored.statefulSets)
            && p.deployments == (if updated.deployments != [] then updated.deployments else stored.deployments)
            && p.hpAutoScalers == (if updated.hpAutoScalers != [] then updated.hpAutoScalers else stored.hpAutoScalers)
            && p.ingress == (if updated.ingress != [] then updated.ingress else stored.ingress)
            && p.podDisruptionBudgets == (if updated.podDisruptionBudgets != [] then updated.podDisruptionBudgets
                                          else stored.podDisruptionBudgets)
            && p.services == (if updated.services != [] then updated.services else stored.services)
            && p.configMaps == (if updated.configMaps != [] then updated.configMaps else stored.configMaps)
            && p.pods == (if updated.pods != [] then updated.pods else stored.pods)
  {
    hide Patched;
    PatchedField(stored, updated, 0);
    PatchedField(stored, updated, 1);
    PatchedField(stored, updated, 2);
    PatchedField(stored, updated, 3);
    PatchedField(stored, updated, 4);
    PatchedField(stored, updated, 5);
    PatchedField(stored, updated, 6);
    PatchedField(stored, updated, 7);
  }

  lemma PatchShows(cr: Cr, objs: map<Key, Obj>, stored: Status, updated: Status)
    requires Describes(cr, objs, updated)
    ensures AllShown(cr, objs, stored, Patched(stored, updated))
  {
    hide Names1, Shows, Patched;
    MergeFields(stored, updated);
    var p := Patched(stored, updated);
    MergedShows(cr, objs, StatefulSet, updated.statefulSets, stored.statefulSets, p.statefulSets);
    MergedShows(cr, objs, Deployment, updated.deployments, stored.deployments, p.deployments);
    MergedShows(cr, objs, HorizontalPodAutoscaler, updated.hpAutoScalers, stored.hpAutoScalers, p.hpAutoScalers);
    MergedShows(cr, objs, Ingress, updated.ingress, stored.ingress, p.ingress);
    MergedShows(cr, objs, PodDisruptionBudget, updated.podDisruptionBudgets, stored.podDisruptionBudgets,
                p.podDisruptionBudgets);
    MergedShows(cr, objs, Service, updated.services, stored.services, p.services);
    MergedShows(cr, objs, ConfigMap, updated.configMaps, stored.configMaps, p.configMaps);
    MergedShows(cr, objs, Pod, updated.pods, stored.pods, p.pods);
  }

  lemma SameShows(cr: Cr, objs: map<Key, Obj>, s: Status)
    requires Describes(cr, objs, s)
    ensures AllShown(cr, objs, s, s)
  {
    hide Names1, Shows;
    MergedShows(cr, objs, StatefulSet, s.statefulSets, s.statefulSets, s.statefulSets);
    MergedShows(cr, objs, Deployment, s.deployments, s.deployments, s.deployments);
    MergedShows(cr, objs, HorizontalPodAutoscaler, s.hpAutoScalers, s.hpAutoScalers, s.hpAutoScalers);
    MergedShows(cr, objs, Ingress, s.ingress, s.ingress, s.ingress);
    MergedShows(cr, objs, PodDisruptionBudget, s.podDisruptionBudgets, s.podDisruptionBudgets, s.podDisruptionBudgets);
    MergedShows(cr, objs, Service, s.services, s.services, s.services);
    MergedShows(cr, objs, ConfigMap, s.configMaps, s.configMaps, s.configMaps);
    MergedShows(cr, objs, Pod, s.pods, s.pods, s.pods);
  }

  // ---------- the whole pass ----------

  /** The resource has an object of each of the seven kinds that are pruned. */
  ghost predicate HasAllKinds(cr: Cr, objs: map<Key, Obj>) {
    && (exists n :: Has(cr, objs, StatefulSet, n)) && (exists n :: Has(cr, objs, Deployment, n))
    && (exists n :: Has(cr, objs, HorizontalPodAutoscaler, n)) && (exists n :: Has(cr, objs, Ingress, n))
    && (exists n :: Has(cr, objs, PodDisruptionBudget, n)) && (exists n :: Has(cr, objs, Service, n))
    && (exists n :: Has(cr, objs, ConfigMap, n))
  }

  lemma NonEmptyIff(cr: Cr, objs: map<Key, Obj>, kind: Kind, names: seq<string>)
    requires Names1(cr, objs, kind, names)
    ensures names != [] <==> exists n :: Has(cr, objs, kind, n)
  {
    hide Has, Ordered;
    if names != [] {
      var n := AnyOf(names);
      assert Has(cr, objs, kind, n);
    }
  }

  lemma NeedsPatchIff(cr: Cr, objs: map<Key, Obj>, updated: Status, read: Status)
    requires Describes(cr, objs, updated)
    ensures NeedsPatch(updated, read) <==> !(Describes(cr, objs, read) && HasAllKinds(cr, objs))
  {
    hide Names1, Has;
    NonEmptyIff(cr, objs, StatefulSet, updated.statefulSets);
    NonEmptyIff(cr, objs, Deployment, updated.deployments);
    NonEmptyIff(cr, objs, HorizontalPodAutoscaler, updated.hpAutoScalers);
    NonEmptyIff(cr, objs, Ingress, updated.ingress);
    NonEmptyIff(cr, objs, PodDisruptionBudget, updated.podDisruptionBudgets);
    NonEmptyIff(cr, objs, Service, updated.services);
    NonEmptyIff(cr, objs, ConfigMap, updated.configMaps);
    SevenLists(updated);
    if Describes(cr, objs, read) {
      DescribedAlike(cr, objs, updated, read);
    }
  }

  lemma SevenLists(s: Status)
    ensures (exists i :: 0 <= i < 7 && Lists(s)[i] == []) <==>
              || s.statefulSets == [] || s.deployments == [] || s.hpAutoScalers == [] || s.ingress == []
              || s.podDisruptionBudgets == [] || s.services == [] || s.configMaps == []
  {
    var l := Lists(s);
    assert l[0] == s.statefulSets && l[1] == s.deployments && l[2] == s.hpAutoScalers && l[3] == s.ingress;
    assert l[4] == s.podDisruptionBudgets && l[5] == s.services && l[6] == s.configMaps;
  }

  lemma NamedAlike(cr: Cr, objs: map<Key, Obj>, kind: Kind, a: seq<string>, b: seq<string>)
    requires Names1(cr, objs, kind, a) && Names1(cr, objs, kind, b)
    ensures a == b
  {
    hide Has;
    OrderedUnique(a, b);
  }

  lemma DescribedAlike(cr: Cr, objs: map<Key, Obj>, a: Status, b: Status)
    requires Describes(cr, objs, a) && Describes(cr, objs, b)
    ensures a == b
  {
    hide Names1;
    NamedAlike(cr, objs, StatefulSet, a.statefulSets, b.statefulSets);
    NamedAlike(cr, objs, Deployment, a.deployments, b.deployments);
    NamedAlike(cr, objs, HorizontalPodAutoscaler, a.hpAutoScalers, b.hpAutoScalers);
    NamedAlike(cr, objs, Ingress, a.ingress, b.ingress);
    NamedAlike(cr, objs, PodDisruptionBudget, a.podDisruptionBudgets, b.podDisruptionBudgets);
    NamedAlike(cr, objs, Service, a.services, b.services);
    NamedAlike(cr, objs, ConfigMap, a.configMaps, b.configMaps);
    NamedAlike(cr, objs, Pod, a.pods, b.pods);
  }

  lemma ReportShows(env: Env, cr: Cr, w: World, lists: seq<seq<string>>)
    requires Alone(env) && Faultless(env) && |lists| == 7 && EachNamed(cr, w.objs, PRUNED, lists)
    requires w.cr.Some? && w.cr.value.status == cr.status
    requires Adds(w, ReportStatus(env, cr, w, lists), ListOk)
    ensures var q := ReportStatus(env, cr, w, lists);
            && q.objs == w.objs && q.cr.Some? && AllShown(cr, q.objs, cr.status, q.cr.value.status)
            && q.log != [] && (q.log[|q.log| - 1].event.StatusPatched? <==>
                                 !(Describes(cr, q.objs, cr.status) && HasAllKinds(cr, q.objs)))
  {
    hide List, Names1, StatusOf, Describes, AllShown, HasAllKinds, EachNamed, NeedsPatch, Patched, Alone, Faultless;
    var (w1, pods) := List(env, w, Pod, cr.ns, DruidLabels(cr.name));
    var q := ReportStatus(env, cr, w, lists);
    AloneList(env, w, Pod, cr.ns, DruidLabels(cr.name));
    ListTape(env, w, Pod, cr.ns, DruidLabels(cr.name));
    AloneArrives(env, w1);
    assert env(w1.tick).fault.NoFault? by {
      NoFaultAt(env, w1.tick);
    }
    LastListed(w, w, w1, q, if pods.Some? then pods.value else [], Pod, pods.Some?);
    PodsNamed(env, cr, w);
    var updated := StatusOf(lists, pods);
    StatusDescribes(cr, w.objs, lists, pods.value);
    NeedsPatchIff(cr, w.objs, updated, cr.status);
    if NeedsPatch(updated, cr.status) {
      PatchShows(cr, w.objs, cr.status, updated);
    } else {
      UnpatchedSame(updated, cr.status);
      SameShows(cr, w.objs, updated);
      assert Tape(w, w1)[0] == w1.log[|w.log|].event;
    }
  }

  lemma NoFaultAt(env: Env, n: nat)
    requires Faultless(env)
    ensures env(n).fault.NoFault?
  {
  }

  lemma UnpatchedSame(updated: Status, read: Status)
    requires !NeedsPatch(updated, read)
    ensures updated == read
  {
  }

  lemma DistinctPruned()
    ensures AllDifferent(PRUNED)
  {
  }

  lemma TailShows(env: Env, cr: Cr, p: Pass)
    requires Alone(env) && Faultless(env) && p.flow.Going? && p.w.cr.Some? && p.w.cr.value.status == cr.status
    requires Adds(p.w, Tail(env, cr, p).w, ListOk)
    ensures var q := Tail(env, cr, p).w;
            && q.cr.Some? && AllShown(cr, q.objs, cr.status, q.cr.value.status)
            && q.log != [] && (q.log[|q.log| - 1].event.StatusPatched? <==>
                                 !(Describes(cr, q.objs, cr.status) && HasAllKinds(cr, q.objs)))
  {
    hide CollectOrphans, PruneKinds, ReportStatus, Alone, Faultless, EachNamed, AllShown, Describes, HasAllKinds,
         AllDifferent;
    var w1 := CollectOrphans(env, cr, p.w);
    var (w2, lists) := PruneKinds(env, cr, p.names, w1, PRUNED);
    var w3 := ReportStatus(env, cr, w2, lists);
    CollectLog(env, cr, p.w);
    PruneKindsLog(env, cr, p.names, w1, PRUNED);
    ReportLog(env, cr, w2, lists);
    AddsSplit(p.w, w1, w3, ListOk);
    AddsSplit(w1, w2, w3, ListOk);
    CollectKeepsCr(env, cr, p.w);
    PruneKindsKeepCr(env, cr, p.names, w1, PRUNED);
    DistinctPruned();
    PruneKindsExact(env, cr, p.names, w1, PRUNED);
    ReportShows(env, cr, w2, lists);
  }

  lemma BlockKeepsStatus(env: Env, cr: Cr, p: Pass)
    requires Alone(env) && p.w.cr == Some(cr) && !Finalizing(cr)
    ensures var q := FinalizerBlock(env, cr, p).w; q.cr.Some? && q.cr.value.status == cr.status
  {
    AloneArrives(env, p.w);
    AloneArrives(env, FetchCr(env, p.w).0);
  }

  /** After a completed pass with no failing call, all lists answered and nobody else writing, each list of the
      stored status names exactly the resource's objects of its kind, in its namespace and under its labels, as then
      stored, each once and in order; a list of a kind of which there are none is what it was before. The status is
      patched exactly when the one read does not describe the store, or one of the seven kinds that are pruned has no
      object. */
  lemma StatusExact(env: Env, h: Hasher, cr: Cr, plan: Plan, w: World)
    requires Alone(env) && Faultless(env) && w.cr == Some(cr)
    requires var q := Deploy(env, h, cr, Some(plan), w); q.flow.Completed? && Adds(w, q.w, ListOk)
    ensures var q := Deploy(env, h, cr, Some(plan), w).w;
            && q.cr.Some? && AllShown(cr, q.objs, cr.status, q.cr.value.status)
            && q.log != [] && (q.log[|q.log| - 1].event.StatusPatched? <==>
                                 !(Describes(cr, q.objs, cr.status) && HasAllKinds(cr, q.objs)))
  {
    hide Step, Steps, Tail, FinalizerBlock, Alone, Faultless, AllShown, Describes, HasAllKinds;
    var p1 := Step(env, h, false, false, Pass(w, {}, Going), Ensure(plan.common));
    var p2 := FinalizerBlock(env, cr, p1);
    var p := NodeLoop(env, h, cr, plan, w);
    CompletedIffLoopDone(env, h, cr, plan, w);
    NotFinalizing(env, h, cr, plan, w);
    StepKeepsCr(env, h, false, false, Pass(w, {}, Going), Ensure(plan.common));
    BlockKeepsStatus(env, cr, p1);
    StepsKeepCr(env, h, cr.spec.rollingDeploy, cr.generation > 1, p2, plan.actions);
    LoopLog(env, h, cr, plan, w);
    TailLog(env, cr, p);
    AddsSplit(w, p.w, Tail(env, cr, p).w, ListOk);
    TailShows(env, cr, p);
  }

  lemma LoopLog(env: Env, h: Hasher, cr: Cr, plan: Plan, w: World)
    ensures w.log <= NodeLoop(env, h, cr, plan, w).w.log
  {
    hide NodeLoop, Leads;
    var p := NodeLoop(env, h, cr, plan, w);
    NodeLoopLeads(env, h, cr, plan, w);
    LeadsExtends(env, h, MandateOf(cr, plan, w), w, p.w);
  }

  lemma LeadsExtends(env: Env, h: Hasher, m: Mandate, a: World, b: World)
    requires Leads(env, h, m, a, b)
    ensures a.log <= b.log
  {
    hide Obeys, Within;
    var calls: seq<Call> :| Obeys(env, h, m, a, calls) && ExecAll(env, h, a, calls) == b;
    CallsWithin(env, h, m, a, calls);
  }
}
