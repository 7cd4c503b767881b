/** `merge_family`: a machine profile from a registry entry and its family, the family
    defaults first and the entry's own fields over them. */
module BuildMachines {
  import opened Values

  const DefaultsKey := "defaults"
  const IdKey := "id"
  const BrandKey := "brand"
  const ModelKey := "model"
  const TypeKey := "type"

  /** The dict fields merged key by key, the entry's keys winning. */
  const MergedFields: seq<string> := ["material_presets", "supports", "safe_speed_ranges"]

  /** The fields copied from the entry when it has them. */
  const SimpleFields: seq<string> := [
    "motion_system", "enclosed", "build_volume_mm", "workarea_mm", "nozzle_diameters",
    "max_nozzle_temp_c", "max_bed_temp_c", "spindle_rpm_range", "max_feed_mm_min",
    "rigidity_class", "capabilities", "aliases", "notes"]

  /** The `KeyError` of a subscript on a missing key. */
  datatype MergeError = MissingKey(key: string)

  /** The fields that must be dicts for the merge to run: the defaults and the merged fields
      of the family and of the entry (anything else makes Python raise a `TypeError`). */
  predicate Shaped(entry: map<string, Value>, fam: map<string, Value>) {
    && (DefaultsKey in fam ==> fam[DefaultsKey].Dict?)
    && forall i :: 0 <= i < |MergedFields| ==>
      (MergedFields[i] in fam ==> fam[MergedFields[i]].Dict?) && (MergedFields[i] in entry ==> entry[MergedFields[i]].Dict?)
  }

  /** `d.get(k, {})` for a field that is a dict when present. */
  function DictAt(d: map<string, Value>, k: string): map<string, Value> {
    if k in d && d[k].Dict? then d[k].entries else map[]
  }

  /** The required keys, in the order the merge reads them. */
  function FirstMissing(entry: map<string, Value>, fam: map<string, Value>): Option<string> {
    if DefaultsKey !in fam then Some(DefaultsKey)
    else if IdKey !in entry then Some(IdKey)
    else if BrandKey !in fam then Some(BrandKey)
    else if ModelKey !in entry then Some(ModelKey)
    else if TypeKey !in fam then Some(TypeKey)
    else None
  }

  /** The value a simple field ends with: the entry's, even an explicit `None`, or else the
      default's; `None` removes the field. */
  function Chosen(entry: map<string, Value>, defaults: map<string, Value>, k: string): Value {
    if k in entry then entry[k] else Get(defaults, k)
  }

  predicate IsIdentity(k: string) {
    k == IdKey || k == BrandKey || k == ModelKey || k == TypeKey
  }

  /** The simple, merged and identity fields are apart. */
  predicate ListsApart(simple: seq<string>, merged: seq<string>) {
    && (forall k :: k in simple ==> k !in merged && !IsIdentity(k))
    && (forall k :: k in merged ==> !IsIdentity(k))
  }

  lemma FieldListsDisjoint()
    ensures ListsApart(SimpleFields, MergedFields)
  {
    forall i | 0 <= i < |SimpleFields| ensures SimpleFields[i] !in MergedFields && !IsIdentity(SimpleFields[i]) {
      var k := SimpleFields[i];
      assert k != MergedFields[0] && k != MergedFields[1] && k != MergedFields[2];
    }
  }

  /** The identity fields over a copy of the defaults. */
  method Identity(entry: map<string, Value>, fam: map<string, Value>) returns (data: map<string, Value>)
    requires Shaped(entry, fam) && FirstMissing(entry, fam).None?
    ensures data == fam[DefaultsKey].entries[IdKey := entry[IdKey]][BrandKey := fam[BrandKey]]
      [ModelKey := entry[ModelKey]][TypeKey := fam[TypeKey]]
  {
    data := fam[DefaultsKey].entries;
    data := data + map[IdKey := entry[IdKey], BrandKey := fam[BrandKey], ModelKey := entry[ModelKey], TypeKey := fam[TypeKey]];
  }

  /** `data` is `start` with every one of `fields` set to the family's dict updated by the entry's. */
  ghost predicate MergedOver(entry: map<string, Value>, fam: map<string, Value>, fields: seq<string>,
                             start: map<string, Value>, data: map<string, Value>) {
    && data.Keys == start.Keys + (set i | 0 <= i < |fields| :: fields[i])
    && (forall k :: k in data && k in fields ==> data[k] == Dict(DictAt(fam, k) + DictAt(entry, k)))
    && (forall k :: k in start && k !in fields ==> data[k] == start[k])
  }

  /** `data` is `start` with every merged field set to the family's dict updated by the entry's. */
  ghost predicate DictsMerged(entry: map<string, Value>, fam: map<string, Value>, start: map<string, Value>,
                              data: map<string, Value>) {
    MergedOver(entry, fam, MergedFields, start, data)
  }

  /** The loop over the merged dict fields. */
  method MergeDicts(entry: map<string, Value>, fam: map<string, Value>, start: map<string, Value>)
    returns (data: map<string, Value>)
    ensures DictsMerged(entry, fam, start, data)
  {
    data := MergeFields(entry, fam, start, MergedFields);
  }

  /** The same loop over any list of fields. */
  method MergeFields(entry: map<string, Value>, fam: map<string, Value>, start: map<string, Value>, fields: seq<string>)
    returns (data: map<string, Value>)
    ensures MergedOver(entry, fam, fields, start, data)
  {
    data := start;
    for i := 0 to |fields|
      invariant MergedOver(entry, fam, fields[..i], start, data)
    {
      var k := fields[i];
      var merged := DictAt(fam, k);
      merged := merged + DictAt(entry, k);
      data := data[k := Dict(merged)];
      ghost var pre, post := fields[..i], fields[..i + 1];
      assert post == pre + [k];
      assert (set j | 0 <= j < |post| :: post[j]) == (set j | 0 <= j < |pre| :: pre[j]) + {k};
    }
    assert fields[..|fields|] == fields;
  }

  /** `data` is `start` with each simple field set to its chosen value, or removed when that is `None`. */
  ghost predicate SimpleCopied(entry: map<string, Value>, start: map<string, Value>, data: map<string, Value>) {
    CopiedUpTo(entry, start, SimpleFields, data)
  }

  /** No simple field is listed twice. */
  lemma SimpleFieldsDistinct()
    ensures forall i :: 0 <= i < |SimpleFields| ==> SimpleFields[i] !in SimpleFields[..i]
  {
  }

  /** The loop over the simple fields: each takes the entry's value, or keeps its own, and
      is removed when that is `None`. */
  method CopySimple(entry: map<string, Value>, start: map<string, Value>) returns (data: map<string, Value>)
    ensures SimpleCopied(entry, start, data)
  {
    SimpleFieldsDistinct();
    data := CopyFields(entry, start, SimpleFields);
  }

  /** `data` is `start` with each of the `done` fields set to its chosen value, or removed
      when that is `None`. */
  ghost predicate CopiedUpTo(entry: map<string, Value>, start: map<string, Value>, done: seq<string>,
                       data: map<string, Value>) {
    && (forall k :: k in done ==> (k in data <==> Chosen(entry, start, k) != Null))
    && (forall k :: k in done && k in data ==> data[k] == Chosen(entry, start, k))
    && (forall k :: k !in done ==> (k in data <==> k in start))
    && (forall k :: k !in done && k in start ==> data[k] == start[k])
  }

  /** Setting or removing one further field, not copied before, extends the copy by it. */
  lemma CopiedStep(entry: map<string, Value>, start: map<string, Value>, done: seq<string>, k: string,
                   before: map<string, Value>, data: map<string, Value>)
    requires CopiedUpTo(entry, start, done, before) && k !in done
    requires k in data <==> Chosen(entry, start, k) != Null
    requires k in data ==> data[k] == Chosen(entry, start, k)
    requires forall x :: x != k ==> (x in data <==> x in before)
    requires forall x :: x != k && x in data ==> data[x] == before[x]
    ensures CopiedUpTo(entry, start, done + [k], data)
  {
  }

  /** The same loop over any list of fields without repeats. */
  method CopyFields(entry: map<string, Value>, start: map<string, Value>, fields: seq<string>)
    returns (data: map<string, Value>)
    requires forall i :: 0 <= i < |fields| ==> fields[i] !in fields[..i]
    ensures CopiedUpTo(entry, start, fields, data)
  {
    data := start;
    for i := 0 to |fields|
      invariant CopiedUpTo(entry, start, fields[..i], data)
    {
      var k := fields[i];
      var value := if k in entry then entry[k] else Get(data, k);
      ghost var before := data;
      if value != Null {
        data := data[k := value];
      } else if k in data {
        data := data - {k};
      }
      CopiedStep(entry, start, fields[..i], k, before, data);
      assert fields[..i + 1] == fields[..i] + [k];
    }
    assert fields[..|fields|] == fields;
  }

  /** `merge_family(entry, fam)`; `entry` and `fam` are values, so neither can change. */
  method MergeFamily(entry: map<string, Value>, fam: map<string, Value>) returns (r: Result<map<string, Value>, MergeError>)
    requires Shaped(entry, fam)
    ensures FirstMissing(entry, fam).Some? <==> r.Err?
    ensures r.Err? ==> r.error == MissingKey(FirstMissing(entry, fam).value)
    ensures r.Ok? ==> MergedProfile(entry, fam, r.value)
  {
    var missing := FirstMissing(entry, fam);
    if missing.Some? {
      return Err(MissingKey(missing.value));
    }
    var data := Identity(entry, fam);
    var merged := MergeDicts(entry, fam, data);
    var copied := CopySimple(entry, merged);
    MergeSteps(entry, fam, data, merged, copied);
    return Ok(copied);
  }

  /** What the merged profile holds, field by field. */
  ghost predicate MergedProfile(entry: map<string, Value>, fam: map<string, Value>, data: map<string, Value>)
    requires FirstMissing(entry, fam).None? && Shaped(entry, fam)
  {
    ProfileOver(entry, fam, SimpleFields, MergedFields, data)
  }

  /** The merged profile for given lists of simple and merged fields. */
  ghost predicate ProfileOver(entry: map<string, Value>, fam: map<string, Value>, simple: seq<string>,
                              merged: seq<string>, data: map<string, Value>)
    requires FirstMissing(entry, fam).None? && Shaped(entry, fam)
  {
    var defaults := fam[DefaultsKey].entries;
    && IdKey in data && data[IdKey] == entry[IdKey]
    && ModelKey in data && data[ModelKey] == entry[ModelKey]
    && BrandKey in data && data[BrandKey] == fam[BrandKey]
    && TypeKey in data && data[TypeKey] == fam[TypeKey]
    && (forall k :: k in merged ==> k in data && data[k] == Dict(DictAt(fam, k) + DictAt(entry, k)))
    && (forall k :: k in simple ==> (k in data <==> Chosen(entry, defaults, k) != Null))
    && (forall k :: k in simple && k in data ==> data[k] == Chosen(entry, defaults, k))
    && (forall k :: k !in simple && k !in merged && !IsIdentity(k) ==>
      (k in data <==> k in defaults) && (k in data ==> data[k] == defaults[k]))
  }

  /** The identity keys are neither merged nor simple fields, and are distinct. */
  lemma IdentityKeys()
    ensures forall k :: IsIdentity(k) ==> k !in SimpleFields && k !in MergedFields
    ensures IdKey != BrandKey && IdKey != ModelKey && IdKey != TypeKey
    ensures BrandKey != ModelKey && BrandKey != TypeKey && ModelKey != TypeKey
  {
  }

  /** The three steps of the merge make the profile described above. */
  lemma MergeSteps(entry: map<string, Value>, fam: map<string, Value>, d1: map<string, Value>,
                   d2: map<string, Value>, d3: map<string, Value>)
    requires Shaped(entry, fam) && FirstMissing(entry, fam).None?
    requires d1 == fam[DefaultsKey].entries[IdKey := entry[IdKey]][BrandKey := fam[BrandKey]]
      [ModelKey := entry[ModelKey]][TypeKey := fam[TypeKey]]
    requires DictsMerged(entry, fam, d1, d2)
    requires SimpleCopied(entry, d2, d3)
    ensures MergedProfile(entry, fam, d3)
  {
    FieldListsDisjoint();
    IdentityFields(entry, fam, d1, d2, d3, SimpleFields, MergedFields);
    MergedFieldsKept(entry, fam, d1, d2, d3, SimpleFields, MergedFields);
    SimpleFieldsChosen(entry, fam, d1, d2, d3, SimpleFields, MergedFields);
    OtherFields(entry, fam, d1, d2, d3, SimpleFields, MergedFields);
  }

  lemma IdentityFields(entry: map<string, Value>, fam: map<string, Value>, d1: map<string, Value>,
                       d2: map<string, Value>, d3: map<string, Value>, simple: seq<string>, merged: seq<string>)
    requires Shaped(entry, fam) && FirstMissing(entry, fam).None?
    requires d1 == fam[DefaultsKey].entries[IdKey := entry[IdKey]][BrandKey := fam[BrandKey]]
      [ModelKey := entry[ModelKey]][TypeKey := fam[TypeKey]]
    requires ListsApart(simple, merged)
    requires MergedOver(entry, fam, merged, d1, d2) && CopiedUpTo(entry, d2, simple, d3)
    ensures IdKey in d3 && d3[IdKey] == entry[IdKey] && ModelKey in d3 && d3[ModelKey] == entry[ModelKey]
    ensures BrandKey in d3 && d3[BrandKey] == fam[BrandKey] && TypeKey in d3 && d3[TypeKey] == fam[TypeKey]
  {
    assert IsIdentity(IdKey) && IsIdentity(ModelKey) && IsIdentity(BrandKey) && IsIdentity(TypeKey);
    assert d1[IdKey] == entry[IdKey] && d1[ModelKey] == entry[ModelKey];
    assert d1[BrandKey] == fam[BrandKey] && d1[TypeKey] == fam[TypeKey];
  }

  lemma MergedFieldsKept(entry: map<string, Value>, fam: map<string, Value>, d1: map<string, Value>,
                         d2: map<string, Value>, d3: map<string, Value>, simple: seq<string>, merged: seq<string>)
    requires ListsApart(simple, merged)
    requires MergedOver(entry, fam, merged, d1, d2) && CopiedUpTo(entry, d2, simple, d3)
    ensures forall k :: k in merged ==> k in d3 && d3[k] == Dict(DictAt(fam, k) + DictAt(entry, k))
  {
    forall k | k in merged ensures k in d3 && d3[k] == Dict(DictAt(fam, k) + DictAt(entry, k)) {
      var i :| 0 <= i < |merged| && merged[i] == k;
      assert k in d2;
    }
  }

  lemma SimpleFieldsChosen(entry: map<string, Value>, fam: map<string, Value>, d1: map<string, Value>,
                           d2: map<string, Value>, d3: map<string, Value>, simple: seq<string>, merged: seq<string>)
    requires Shaped(entry, fam) && FirstMissing(entry, fam).None?
    requires d1 == fam[DefaultsKey].entries[IdKey := entry[IdKey]][BrandKey := fam[BrandKey]]
      [ModelKey := entry[ModelKey]][TypeKey := fam[TypeKey]]
    requires ListsApart(simple, merged)
    requires MergedOver(entry, fam, merged, d1, d2) && CopiedUpTo(entry, d2, simple, d3)
    ensures var defaults := fam[DefaultsKey].entries;
      && (forall k :: k in simple ==> (k in d3 <==> Chosen(entry, defaults, k) != Null))
      && (forall k :: k in simple && k in d3 ==> d3[k] == Chosen(entry, defaults, k))
  {
    var defaults := fam[DefaultsKey].entries;
    forall k | k in simple ensures Chosen(entry, d2, k) == Chosen(entry, defaults, k) {
      assert k !in merged && !IsIdentity(k);
      assert k in d2 <==> k in d1;
    }
  }

  lemma OtherFields(entry: map<string, Value>, fam: map<string, Value>, d1: map<string, Value>,
                    d2: map<string, Value>, d3: map<string, Value>, simple: seq<string>, merged: seq<string>)
    requires Shaped(entry, fam) && FirstMissing(entry, fam).None?
    requires d1 == fam[DefaultsKey].entries[IdKey := entry[IdKey]][BrandKey := fam[BrandKey]]
      [ModelKey := entry[ModelKey]][TypeKey := fam[TypeKey]]
    requires MergedOver(entry, fam, merged, d1, d2) && CopiedUpTo(entry, d2, simple, d3)
    ensures var defaults := fam[DefaultsKey].entries;
      forall k :: k !in simple && k !in merged && !IsIdentity(k) ==>
        (k in d3 <==> k in defaults) && (k in d3 ==> d3[k] == defaults[k])
  {
    var defaults := fam[DefaultsKey].entries;
    forall k | k !in simple && k !in merged && !IsIdentity(k)
      ensures (k in d3 <==> k in defaults) && (k in d3 ==> d3[k] == defaults[k])
    {
      assert k in d2 <==> k in d1;
    }
  }
}
