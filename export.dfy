/** Export of suggested parameter changes as a slicer profile diff: key translation per
    slicer, change detection against a base profile, and the markdown summary. */
module Export {
  import opened Text
  import opened Values
  import Sorting

  /** `SLICER_KEY_MAP`: the slicer's own name of each parameter. */
  const KeyMap: map<string, map<string, string>> := map[
    "cura" := map[
      "nozzle_temp" := "material_print_temperature",
      "bed_temp" := "material_bed_temperature",
      "print_speed" := "speed_print",
      "travel_speed" := "speed_travel",
      "accel" := "acceleration_print",
      "jerk" := "jerk_print",
      "flow_rate" := "material_flow",
      "fan_speed" := "cool_fan_speed",
      "retraction_distance" := "retraction_amount"],
    "prusaslicer" := map[
      "nozzle_temp" := "temperature",
      "bed_temp" := "bed_temperature",
      "print_speed" := "perimeter_speed",
      "travel_speed" := "travel_speed",
      "accel" := "perimeter_acceleration",
      "jerk" := "perimeter_jerk",
      "fan_speed" := "fan_speed",
      "retraction_distance" := "retract_length"],
    "bambu" := map[
      "nozzle_temp" := "nozzle_temperature",
      "bed_temp" := "bed_temperature",
      "print_speed" := "print_speed",
      "travel_speed" := "travel_speed",
      "accel" := "max_acceleration",
      "jerk" := "max_jerk",
      "fan_speed" := "cooling_fan_speed",
      "flow_rate" := "flow_ratio",
      "retraction_distance" := "retraction_distance"],
    "orca" := map[
      "nozzle_temp" := "nozzle_temperature",
      "bed_temp" := "build_plate_temperature",
      "print_speed" := "default_printing_speed",
      "travel_speed" := "default_travel_speed",
      "accel" := "default_acceleration",
      "jerk" := "default_jerk",
      "fan_speed" := "fan_speed",
      "flow_rate" := "flow_ratio",
      "retraction_distance" := "retraction_length"]]

  const NozzleTemp := "nozzle_temp"
  const NoChanges := "No parameter changes were required."
  const Arrow := " → "

  /** Every slicer names the nozzle temperature; Cura calls it `material_print_temperature`. */
  lemma KeyMapNozzle()
    ensures forall s :: s in KeyMap ==> NozzleTemp in KeyMap[s]
    ensures KeyMap["cura"][NozzleTemp] == "material_print_temperature"
  {
  }

  /** The values a request carries: `float | int | str`. */
  predicate Scalar(v: Value) {
    v.Int? || v.Float? || v.Str?
  }

  predicate AllScalar(items: Items) {
    forall i :: 0 <= i < |items| ==> Scalar(items[i].1)
  }

  predicate ScalarMap(m: map<string, Value>) {
    forall k :: k in m ==> Scalar(m[k])
  }

  /** `mapping.get(key, key)` */
  function Translate(mapping: map<string, string>, key: string): (r: string)
    ensures key !in mapping ==> r == key
  {
    if key in mapping then mapping[key] else key
  }

  /** `base_profile.get(key) if base_profile else None` */
  function BaseValue(base: Option<map<string, Value>>, key: string): (v: Value)
    ensures base.None? ==> v.Null?
    ensures base.Some? && key in base.value ==> v == base.value[key]
  {
    if base.Some? && base.value != map[] then Get(base.value, key) else Null
  }

  /** The diff after the changes in order: a translated key is written when the base
      profile's value there differs from the change's value. */
  function DiffOf(mapping: map<string, string>, changes: Items, base: Option<map<string, Value>>): (d: map<string, Value>)
    ensures AllScalar(changes) ==> ScalarMap(d)
  {
    if changes == [] then map[]
    else
      var init := DiffOf(mapping, changes[..|changes| - 1], base);
      var (key, value) := changes[|changes| - 1];
      var target := Translate(mapping, key);
      if !PyEq(BaseValue(base, target), value) then init[target := value] else init
  }

  /** A translated key is in the diff iff some change for it differs from the base value. */
  lemma {:induction false} DiffKeys(mapping: map<string, string>, changes: Items, base: Option<map<string, Value>>, t: string)
    ensures t in DiffOf(mapping, changes, base) <==>
      exists i :: 0 <= i < |changes| && Translate(mapping, changes[i].0) == t && !PyEq(BaseValue(base, t), changes[i].1)
  {
    if changes != [] {
      var init := changes[..|changes| - 1];
      DiffKeys(mapping, init, base, t);
      if exists i :: 0 <= i < |init| && Translate(mapping, init[i].0) == t && !PyEq(BaseValue(base, t), init[i].1) {
        var i :| 0 <= i < |init| && Translate(mapping, init[i].0) == t && !PyEq(BaseValue(base, t), init[i].1);
        assert changes[i] == init[i];
      }
      if exists i :: 0 <= i < |changes| && Translate(mapping, changes[i].0) == t && !PyEq(BaseValue(base, t), changes[i].1) {
        var i :| 0 <= i < |changes| && Translate(mapping, changes[i].0) == t && !PyEq(BaseValue(base, t), changes[i].1);
        if i < |init| {
          assert changes[i] == init[i];
        }
      }
    }
  }

  /** The value at a key is that of the last change for it that differs from the base: when
      two keys translate to the same one, the later wins. */
  lemma {:induction false} DiffLast(mapping: map<string, string>, changes: Items, base: Option<map<string, Value>>, i: nat)
    requires i < |changes|
    requires var t := Translate(mapping, changes[i].0); !PyEq(BaseValue(base, t), changes[i].1)
    requires var t := Translate(mapping, changes[i].0);
      forall j :: i < j < |changes| && Translate(mapping, changes[j].0) == t ==> PyEq(BaseValue(base, t), changes[j].1)
    ensures var t := Translate(mapping, changes[i].0);
      t in DiffOf(mapping, changes, base) && DiffOf(mapping, changes, base)[t] == changes[i].1
  {
    if i < |changes| - 1 {
      DiffLast(mapping, changes[..|changes| - 1], base, i);
    }
  }

  /** Without a base profile every change is in the diff. */
  lemma {:induction false} DiffWithoutBase(mapping: map<string, string>, changes: Items)
    requires AllScalar(changes)
    ensures DiffOf(mapping, changes, None).Keys == set i | 0 <= i < |changes| :: Translate(mapping, changes[i].0)
  {
    if changes != [] {
      var init := changes[..|changes| - 1];
      DiffWithoutBase(mapping, init);
      assert forall i :: 0 <= i < |init| ==> init[i] == changes[i];
      assert (set i | 0 <= i < |changes| :: Translate(mapping, changes[i].0))
        == (set i | 0 <= i < |init| :: Translate(mapping, init[i].0)) + {Translate(mapping, changes[|changes| - 1].0)};
    }
  }

  /** The diff loop of `export_profile`. */
  method DiffChanges(mapping: map<string, string>, changes: Items, base: Option<map<string, Value>>)
    returns (diff: map<string, Value>)
    ensures diff == DiffOf(mapping, changes, base)
  {
    diff := map[];
    for i := 0 to |changes|
      invariant diff == DiffOf(mapping, changes[..i], base)
    {
      var (key, value) := changes[i];
      var target := Translate(mapping, key);
      var baseValue := BaseValue(base, target);
      assert changes[..i + 1][..i] == changes[..i];
      if !PyEq(baseValue, value) {
        diff := diff[target := value];
      }
    }
    assert changes[..|changes|] == changes;
  }

  /** `str(value)` for a request value; `floatText` stands for Python's float repr. */
  function Show(v: Value, floatText: real -> string): string
    requires Scalar(v)
  {
    if v.Float? then floatText(v.r) else PyStr(v)
  }

  /** The title line and the blank line. */
  function Header(slicer: string): seq<string> {
    ["# " + Title(slicer) + " profile diff", ""]
  }

  /** One markdown line: `- **key** → value`, or `- **key**: base → value` with a base value. */
  function DiffLine(key: string, value: Value, baseValue: Value, floatText: real -> string): string
    requires Scalar(value) && (baseValue.Null? || Scalar(baseValue))
  {
    if baseValue.Null? then "- **" + key + "**" + Arrow + Show(value, floatText)
    else "- **" + key + "**: " + Show(baseValue, floatText) + Arrow + Show(value, floatText)
  }

  /** The lines of the keys, in the order given. */
  function KeyLines(keys: seq<string>, diff: map<string, Value>, base: Option<map<string, Value>>,
                    floatText: real -> string): (r: seq<string>)
    requires forall i :: 0 <= i < |keys| ==> keys[i] in diff
    requires ScalarMap(diff) && (base.Some? ==> ScalarMap(base.value))
    ensures |r| == |keys|
  {
    seq(|keys|, i requires 0 <= i < |keys| => DiffLine(keys[i], diff[keys[i]], BaseValue(base, keys[i]), floatText))
  }

  /** The loop of `_render_markdown`: one line per key, in the order given. */
  method RenderLines(keys: seq<string>, diff: map<string, Value>, base: Option<map<string, Value>>,
                     floatText: real -> string) returns (lines: seq<string>)
    requires forall i :: 0 <= i < |keys| ==> keys[i] in diff
    requires ScalarMap(diff) && (base.Some? ==> ScalarMap(base.value))
    ensures lines == KeyLines(keys, diff, base, floatText)
  {
    lines := [];
    for i := 0 to |keys|
      invariant |lines| == i
      invariant forall j :: 0 <= j < i ==> lines[j] == DiffLine(keys[j], diff[keys[j]], BaseValue(base, keys[j]), floatText)
    {
      var key := keys[i];
      var line := DiffLine(key, diff[key], BaseValue(base, key), floatText);
      lines := lines + [line];
    }
  }

  /** `_render_markdown(slicer, diff, base_profile)`: the header, then either the no-change
      note or one line per key in ascending order. */
  method RenderMarkdown(slicer: string, diff: map<string, Value>, base: Option<map<string, Value>>,
                        floatText: real -> string) returns (text: string)
    requires ScalarMap(diff) && (base.Some? ==> ScalarMap(base.value))
    ensures diff == map[] ==> text == Join("\n", Header(slicer) + [NoChanges])
    ensures diff != map[] ==> text == Join("\n", Header(slicer) + KeyLines(Sorting.SortedStrings(diff.Keys), diff, base, floatText))
  {
    var lines := Header(slicer);
    if diff == map[] {
      lines := lines + [NoChanges];
      return Join("\n", lines);
    }
    var keys := Sorting.SortedKeys(diff.Keys);
    var body := RenderLines(keys, diff, base, floatText);
    lines := lines + body;
    return Join("\n", lines);
  }

  /** The 400 error of an unsupported slicer. */
  datatype ExportError = UnsupportedSlicer(slicer: string)

  datatype ProfileExport = ProfileExport(slicer: string, diff: map<string, Value>, markdown: string)

  /** `export_profile(payload)` without the HTTP layer. */
  method ExportProfile(slicer: string, changes: Items, base: Option<map<string, Value>>, floatText: real -> string)
    returns (r: Result<ProfileExport, ExportError>)
    requires AllScalar(changes) && (base.Some? ==> ScalarMap(base.value))
    ensures r.Err? <==> slicer !in KeyMap
    ensures r.Err? ==> r.error == UnsupportedSlicer(slicer)
    ensures r.Ok? ==> r.value.slicer == slicer && r.value.diff == DiffOf(KeyMap[slicer], changes, base)
    ensures r.Ok? && r.value.diff == map[] ==> r.value.markdown == Join("\n", Header(slicer) + [NoChanges])
    ensures r.Ok? && r.value.diff != map[] ==>
              r.value.markdown == Join("\n", Header(slicer) + KeyLines(Sorting.SortedStrings(r.value.diff.Keys), r.value.diff, base, floatText))
  {
    if slicer !in KeyMap {
      return Err(UnsupportedSlicer(slicer));
    }
    var mapping := KeyMap[slicer];
    var diff := DiffChanges(mapping, changes, base);
    var markdown := RenderMarkdown(slicer, diff, base, floatText);
    return Ok(ProfileExport(slicer, diff, markdown));
  }
}
