/** The status patch: JSON Merge Patch (section 2 of RFC 7396) over a status whose empty lists are left out. */
module StatusPatch {
  import opened Cluster

  datatype Json = Null | Names(items: seq<string>) | Object(members: map<string, Json>)

  /** `MergePatch` of section 2 of RFC 7396. */
  function MergePatch(target: Json, patch: Json): Json
    decreases patch
  {
    if patch.Object? then
      var base := if target.Object? then target.members else map[];
      Object(map k | k in base.Keys + patch.members.Keys && (k in patch.members ==> patch.members[k] != Null) ::
               if k in patch.members then MergePatch(if k in base then base[k] else Null, patch.members[k])
               else base[k])
    else patch
  }

  const FIELDS := ["statefulSets", "deployments", "hpAutoscalers", "ingress",
                   "podDisruptionBudgets", "services", "configMaps", "pods"]

  function Lists(s: Status): seq<seq<string>> {
    [s.statefulSets, s.deployments, s.hpAutoScalers, s.ingress, s.podDisruptionBudgets, s.services, s.configMaps,
     s.pods]
  }

  function Field(s: Status, f: string): seq<string> {
    if f == FIELDS[0] then s.statefulSets
    else if f == FIELDS[1] then s.deployments
    else if f == FIELDS[2] then s.hpAutoScalers
    else if f == FIELDS[3] then s.ingress
    else if f == FIELDS[4] then s.podDisruptionBudgets
    else if f == FIELDS[5] then s.services
    else if f == FIELDS[6] then s.configMaps
    else s.pods
  }

  /** Serialisation with `omitempty`. */
  function Encode(s: Status): Json {
    Object(map f | f in FIELDS && Field(s, f) != [] :: Names(Field(s, f)))
  }

  function Decoded(j: Json, f: string): seq<string> {
    if j.Object? && f in j.members && j.members[f].Names? then j.members[f].items else []
  }

  function Decode(j: Json): Status {
    Status(Decoded(j, FIELDS[0]), Decoded(j, FIELDS[1]), Decoded(j, FIELDS[2]), Decoded(j, FIELDS[3]),
           Decoded(j, FIELDS[4]), Decoded(j, FIELDS[5]), Decoded(j, FIELDS[6]), Decoded(j, FIELDS[7]))
  }

  /** The stored status after the server merges the patch `{"status": updated}`. */
  function Patched(stored: Status, updated: Status): Status {
    var doc := MergePatch(Object(map["status" := Encode(stored)]), Object(map["status" := Encode(updated)]));
    if doc.Object? && "status" in doc.members then Decode(doc.members["status"])
    else Status([], [], [], [], [], [], [], [])
  }

  lemma FieldAt(s: Status, i: nat)
    requires i < 8
    ensures Field(s, FIELDS[i]) == Lists(s)[i]
    ensures FIELDS[i] in Encode(s).members <==> Lists(s)[i] != []
    ensures Lists(s)[i] != [] ==> Encode(s).members[FIELDS[i]] == Names(Lists(s)[i])
  {
    assert |FIELDS[0]| == 12 && |FIELDS[1]| == 11 && |FIELDS[2]| == 13 && |FIELDS[3]| == 7;
    assert |FIELDS[4]| == 20 && |FIELDS[5]| == 8 && |FIELDS[6]| == 10 && |FIELDS[7]| == 4;
    assert FIELDS[i] in FIELDS;
  }

  /** A list is a member of its own, left out when it is empty. */
  predicate Member(members: map<string, Json>, field: string, names: seq<string>) {
    if names == [] then field !in members else field in members && members[field] == Names(names)
  }

  /** The members of a serialised status, by name. */
  lemma EncodedMembers(s: Status)
    ensures var m := Encode(s).members;
            && Member(m, "statefulSets", s.statefulSets) && Member(m, "deployments", s.deployments)
            && Member(m, "services", s.services) && Member(m, "configMaps", s.configMaps)
            && Member(m, "podDisruptionBudgets", s.podDisruptionBudgets) && Member(m, "ingress", s.ingress)
            && Member(m, "hpAutoscalers", s.hpAutoScalers) && Member(m, "pods", s.pods)
            && m.Keys <= {"statefulSets", "deployments", "services", "configMaps", "podDisruptionBudgets", "ingress",
                          "hpAutoscalers", "pods"}
  {
    hide Field, Lists;
    FieldNames();
    MemberAt(s, 0);
    MemberAt(s, 1);
    MemberAt(s, 2);
    MemberAt(s, 3);
    MemberAt(s, 4);
    MemberAt(s, 5);
    MemberAt(s, 6);
    MemberAt(s, 7);
    ListsAre(s);
  }

  lemma FieldNames()
    ensures FIELDS == ["statefulSets", "deployments", "hpAutoscalers", "ingress", "podDisruptionBudgets", "services",
                       "configMaps", "pods"]
  {
  }

  lemma ListsAre(s: Status)
    ensures Lists(s) == [s.statefulSets, s.deployments, s.hpAutoScalers, s.ingress, s.podDisruptionBudgets, s.services,
                         s.configMaps, s.pods]
  {
  }

  lemma MemberAt(s: Status, i: nat)
    requires i < 8
    ensures Member(Encode(s).members, FIELDS[i], Lists(s)[i])
  {
    FieldAt(s, i);
  }

  /** Encoding loses nothing: an absent list reads back as the empty one. */
  lemma DecodeEncode(s: Status)
    ensures Decode(Encode(s)) == s
  {
    forall i | 0 <= i < 8 ensures Decoded(Encode(s), FIELDS[i]) == Lists(s)[i] {
      FieldAt(s, i);
    }
    assert Lists(Decode(Encode(s))) == Lists(s);
  }

  /** Merging an object without nulls and nested objects overlays its members. */
  lemma MergeOverlays(target: Json, patch: Json, f: string)
    requires target.Object? && patch.Object?
    requires forall k :: k in patch.members ==> patch.members[k].Names?
    ensures var merged := MergePatch(target, patch);
            && merged.Object?
            && (f in merged.members <==> f in target.members || f in patch.members)
            && (f in patch.members ==> merged.members[f] == patch.members[f])
            && (f in target.members && f !in patch.members ==> merged.members[f] == target.members[f])
  {
    if f in patch.members {
      assert patch.members[f] != Null;
    }
  }

  lemma MergeInside(f: string, a: Json, b: Json)
    requires b.Object?
    ensures MergePatch(Object(map[f := a]), Object(map[f := b])) == Object(map[f := MergePatch(a, b)])
  {
    var target, patch := Object(map[f := a]), Object(map[f := b]);
    assert target.members.Keys + patch.members.Keys == {f};
    assert MergePatch(target, patch).members == map[f := MergePatch(a, b)];
  }

  lemma PatchedIsMerged(stored: Status, updated: Status)
    ensures Patched(stored, updated) == Decode(MergePatch(Encode(stored), Encode(updated)))
  {
    MergeInside("status", Encode(stored), Encode(updated));
  }

  lemma DecodedAt(j: Json, i: nat)
    requires i < 8
    ensures Lists(Decode(j))[i] == Decoded(j, FIELDS[i])
  {
  }

  /** A status patch is a field-wise merge: a non-empty computed list replaces the stored one, an empty one leaves
      the stored one in place. */
  lemma PatchedField(stored: Status, updated: Status, i: nat)
    requires i < 8
    ensures Lists(Patched(stored, updated))[i]
         == if Lists(updated)[i] != [] then Lists(updated)[i] else Lists(stored)[i]
  {
    PatchedIsMerged(stored, updated);
    DecodedAt(MergePatch(Encode(stored), Encode(updated)), i);
    EncodesNames(updated);
    MergeOverlays(Encode(stored), Encode(updated), FIELDS[i]);
    FieldAt(stored, i);
    FieldAt(updated, i);
  }

  lemma EncodesNames(s: Status)
    ensures Encode(s).Object? && forall k :: k in Encode(s).members ==> Encode(s).members[k].Names?
  {
  }

  /** The stored status is the computed one after the patch exactly when no list went from non-empty to empty. */
  lemma PatchExactIff(stored: Status, updated: Status)
    ensures Patched(stored, updated) == updated <==>
            forall i :: 0 <= i < 8 && Lists(updated)[i] == [] ==> Lists(stored)[i] == []
  {
    forall i | 0 <= i < 8
      ensures Lists(Patched(stored, updated))[i]
           == if Lists(updated)[i] != [] then Lists(updated)[i] else Lists(stored)[i]
    {
      PatchedField(stored, updated, i);
    }
    if forall i :: 0 <= i < 8 && Lists(updated)[i] == [] ==> Lists(stored)[i] == [] {
      assert Lists(Patched(stored, updated)) == Lists(updated);
      var p := Patched(stored, updated);
      assert Lists(p)[0] == Lists(updated)[0] && Lists(p)[1] == Lists(updated)[1] && Lists(p)[2] == Lists(updated)[2];
      assert Lists(p)[3] == Lists(updated)[3] && Lists(p)[4] == Lists(updated)[4] && Lists(p)[5] == Lists(updated)[5];
      assert Lists(p)[6] == Lists(updated)[6] && Lists(p)[7] == Lists(updated)[7];
    }
  }
}
