/** Machine profiles: the loosely typed dicts of the machine catalogue, with the
    field types that the catalogue's schema guarantees and the readers the core uses. */
module Machines {
  import opened Values

  type Profile = map<string, Value>

  predicate NumList(v: Value) {
    v.List? && forall i :: 0 <= i < |v.items| ==> IsNumber(v.items[i])
  }

  predicate OptDict(v: Value) {
    !Truthy(v) || v.Dict?
  }

  predicate OptNumber(v: Value) {
    !Truthy(v) || IsNumber(v)
  }

  /** A material preset: a dict whose list fields (`nozzle_c`, `bed_c`, `fan_pct`) hold numbers. */
  predicate PresetOk(p: Value) {
    p.Dict? && forall k :: k in p.entries && p.entries[k].List? ==> NumList(p.entries[k])
  }

  /** The field types a catalogue profile has after schema validation; where a profile
      breaks them the Python code raises a TypeError or AttributeError. */
  predicate Conforms(m: Profile) {
    && OptDict(Get(m, "safe_speed_ranges"))
    && OptDict(Get(m, "supports"))
    && OptDict(Get(m, "material_presets"))
    && (forall k :: k in Presets(m) ==> PresetOk(Presets(m)[k]))
    && (!Truthy(Get(m, "spindle_rpm_range")) || NumList(Get(m, "spindle_rpm_range")))
    && OptNumber(Get(m, "max_feed_mm_min"))
    && OptNumber(Get(m, "max_bed_temp_c"))
    && IsTextual(Or(Get(m, "rigidity_class"), Str("hobby")))
    && IsTextual(Or(Get(m, "motion_system"), Str("BedSlinger")))
    && Hashable(Get(m, "type"))
  }

  /** `machine.get("material_presets") or {}` */
  function Presets(m: Profile): map<string, Value> {
    DictOr(Get(m, "material_presets"))
  }

  /** `machine.get("safe_speed_ranges") or {}` */
  function SafeRanges(m: Profile): map<string, Value> {
    DictOr(Get(m, "safe_speed_ranges"))
  }

  /** `bool((machine.get("supports") or {}).get(capability))` */
  predicate Supports(m: Profile, capability: string) {
    Truthy(Get(DictOr(Get(m, "supports")), capability))
  }

  /** `str(machine.get("motion_system") or "BedSlinger")` */
  function Motion(m: Profile): string
    requires Conforms(m)
  {
    PyStr(Or(Get(m, "motion_system"), Str("BedSlinger")))
  }

  /** `str(machine.get("rigidity_class") or "hobby")` */
  function Rigidity(m: Profile): string
    requires Conforms(m)
  {
    PyStr(Or(Get(m, "rigidity_class"), Str("hobby")))
  }

  /** `bool(machine.get("enclosed"))` */
  predicate Enclosed(m: Profile) {
    Truthy(Get(m, "enclosed"))
  }

  function Sum(xs: seq<Value>): real
    requires forall i :: 0 <= i < |xs| ==> IsNumber(xs[i])
  {
    if xs == [] then 0.0 else Sum(xs[..|xs| - 1]) + AsReal(xs[|xs| - 1])
  }

  /** `sum(xs) / len(xs)` */
  function Mean(xs: seq<Value>): real
    requires xs != []
    requires forall i :: 0 <= i < |xs| ==> IsNumber(xs[i])
  {
    Sum(xs) / (|xs| as real)
  }

  lemma {:induction false} SumBounds(xs: seq<Value>, lo: real, hi: real)
    requires forall i :: 0 <= i < |xs| ==> IsNumber(xs[i]) && lo <= AsReal(xs[i]) <= hi
    ensures (|xs| as real) * lo <= Sum(xs) <= (|xs| as real) * hi
  {
    if xs != [] {
      var init := xs[..|xs| - 1];
      assert forall i :: 0 <= i < |init| ==> init[i] == xs[i];
      SumBounds(init, lo, hi);
      var x := AsReal(xs[|xs| - 1]);
      assert lo <= x <= hi;
      StepBounds(|init| as real, |xs| as real, Sum(init), x, Sum(xs), lo, hi);
    }
  }

  /** One more summand between `lo` and `hi` keeps the running sum between the scaled bounds. */
  lemma StepBounds(k: real, n: real, sum: real, x: real, total: real, lo: real, hi: real)
    requires n == k + 1.0 && total == sum + x
    requires k * lo <= sum <= k * hi && lo <= x <= hi
    ensures n * lo <= total <= n * hi
  {
    assert n * lo == k * lo + lo;
    assert n * hi == k * hi + hi;
  }

  /** A mean lies between the smallest and largest element. */
  lemma MeanBounds(xs: seq<Value>, lo: real, hi: real)
    requires xs != []
    requires forall i :: 0 <= i < |xs| ==> IsNumber(xs[i]) && lo <= AsReal(xs[i]) <= hi
    ensures lo <= Mean(xs) <= hi
  {
    SumBounds(xs, lo, hi);
    DivBounds(|xs| as real, Sum(xs), lo, hi);
  }

  lemma DivBounds(n: real, sum: real, lo: real, hi: real)
    requires n > 0.0 && n * lo <= sum <= n * hi
    ensures lo <= sum / n <= hi
  {
    var q := sum / n;
    assert q * n == sum;
  }

  /** `midpoint(values, fallback)`: the mean of a non-empty list, otherwise the fallback. */
  function Midpoint(v: Value, fallback: real): (r: real)
    requires !v.List? || NumList(v)
    ensures !(v.List? && v.items != []) ==> r == fallback
    ensures v.List? && v.items != [] ==> r == Mean(v.items)
  {
    if v.List? && v.items != [] then Mean(v.items) else fallback
  }

  /** The midpoint of a preset range lies inside that range. */
  lemma MidpointWithin(v: Value, fallback: real, lo: real, hi: real)
    requires NumList(v) && v.items != []
    requires forall i :: 0 <= i < |v.items| ==> lo <= AsReal(v.items[i]) <= hi
    ensures lo <= Midpoint(v, fallback) <= hi
  {
    MeanBounds(v.items, lo, hi);
  }

  /** `presets.get(material) or presets.get("PLA") or {}` */
  function MaterialPreset(m: Profile, material: string): (p: map<string, Value>)
    requires Conforms(m)
    ensures forall k :: k in p && p[k].List? ==> NumList(p[k])
    ensures material in Presets(m) && Truthy(Presets(m)[material]) ==> p == Presets(m)[material].entries
    ensures !(material in Presets(m) && Truthy(Presets(m)[material])) && !("PLA" in Presets(m) && Truthy(Presets(m)["PLA"]))
      ==> p == map[]
  {
    var presets := Presets(m);
    var preset := Or(Get(presets, material), Or(Get(presets, "PLA"), Dict(map[])));
    assert PresetOk(preset) by {
      if material in presets { assert PresetOk(presets[material]); }
      if "PLA" in presets { assert PresetOk(presets["PLA"]); }
    }
    preset.entries
  }

  /** `machine.get("spindle_rpm_range") or [8000, 18000]` */
  function SpindleRange(m: Profile): (r: seq<Value>)
    requires Conforms(m)
    ensures r != [] && forall i :: 0 <= i < |r| ==> IsNumber(r[i])
  {
    Or(Get(m, "spindle_rpm_range"), List([Int(8000), Int(18000)])).items
  }

  /** `machine.get("max_feed_mm_min") or 6000` */
  function MaxFeed(m: Profile): (r: real)
    requires Conforms(m)
    ensures Truthy(Get(m, "max_feed_mm_min")) ==> r == AsReal(Get(m, "max_feed_mm_min"))
    ensures !Truthy(Get(m, "max_feed_mm_min")) ==> r == 6000.0
  {
    AsReal(Or(Get(m, "max_feed_mm_min"), Int(6000)))
  }

  predicate IsFastFrame(motion: string) {
    motion == "CoreXY" || motion == "H-Bot"
  }

  /** The FDM starting values that the suggestion planner's baseline and the heuristic
      pipeline both derive from a machine profile and an (upper-cased) material. */
  datatype FdmTable = FdmTable(
    nozzle: real, bed: real, fan: real, printSpeed: real, travelSpeed: real, accel: real, jerk: real,
    retraction: real)

  function FdmDefaults(m: Profile, material: string): FdmTable
    requires Conforms(m)
  {
    var p := MaterialPreset(m, material);
    var nozzle := Midpoint(Get(p, "nozzle_c"), 210.0);
    var bed := Midpoint(Get(p, "bed_c"), 60.0);
    var fan := Midpoint(Get(p, "fan_pct"), 70.0);
    var fast := IsFastFrame(Motion(m));
    var maxBed := Or(Get(m, "max_bed_temp_c"), Float(bed));
    var bed' := if Enclosed(m) && material == "ABS" then Min(bed + 10.0, AsReal(maxBed)) else bed;
    var fan' := if Enclosed(m) && material == "ABS" then Min(fan, 15.0) else fan;
    FdmTable(nozzle, bed', fan', if fast then 120.0 else 90.0, if fast then 150.0 else 120.0,
             if Supports(m, "input_shaping") then 5000.0 else 3000.0, if fast then 12.0 else 8.0,
             if Supports(m, "ams") then 0.8 else 0.6)
  }

  /** The table: preset midpoints with fallbacks 210/60/70, speeds and jerk by motion system,
      acceleration by input shaping and retraction by the AMS capability. */
  lemma FdmDefaultsTable(m: Profile, material: string)
    requires Conforms(m)
    ensures var t := FdmDefaults(m, material); var p := MaterialPreset(m, material);
      && t.nozzle == Midpoint(Get(p, "nozzle_c"), 210.0)
      && (!(Enclosed(m) && material == "ABS") ==>
            t.bed == Midpoint(Get(p, "bed_c"), 60.0) && t.fan == Midpoint(Get(p, "fan_pct"), 70.0))
      && (IsFastFrame(Motion(m)) ==> t.printSpeed == 120.0 && t.travelSpeed == 150.0 && t.jerk == 12.0)
      && (!IsFastFrame(Motion(m)) ==> t.printSpeed == 90.0 && t.travelSpeed == 120.0 && t.jerk == 8.0)
      && t.accel == (if Supports(m, "input_shaping") then 5000.0 else 3000.0)
      && t.retraction == (if Supports(m, "ams") then 0.8 else 0.6)
  {
  }

  function Min(a: real, b: real): (r: real)
    ensures r <= a && r <= b && (r == a || r == b)
  {
    if a <= b then a else b
  }

  /** ABS on an enclosed machine: the bed goes up by at most 10 degrees and never above a
      declared maximum bed temperature, and the fan is capped at 15 percent. */
  lemma EnclosedAbs(m: Profile)
    requires Conforms(m) && Enclosed(m)
    ensures var t := FdmDefaults(m, "ABS"); var p := MaterialPreset(m, "ABS");
      var mid := Midpoint(Get(p, "bed_c"), 60.0);
      && t.bed <= mid + 10.0
      && (t.bed == mid + 10.0 || t.bed == (if Truthy(Get(m, "max_bed_temp_c")) then AsReal(Get(m, "max_bed_temp_c")) else mid))
      && (Truthy(Get(m, "max_bed_temp_c")) ==> t.bed <= AsReal(Get(m, "max_bed_temp_c")))
      && t.fan <= 15.0 && t.fan <= Midpoint(Get(p, "fan_pct"), 70.0)
  {
  }
}
