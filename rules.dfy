/** The clamp engine: experience tiers, per-parameter machine bounds, and
    `clamp_to_machine`, which filters a parameter map by the tier's allow-list
    and clamps every numeric value into the machine's (tier-scaled) bounds. */
module Rules {
  import opened Values
  import opened Text
  import opened Machines
  import Sorting

  datatype Tier = Beginner | Intermediate | Advanced

  datatype Allowed = All | Only(names: set<string>)

  datatype TierSettings = TierSettings(allowed: Allowed, maxFactor: real, note: string)

  predicate Allows(a: Allowed, key: string) {
    a.All? || key in a.names
  }

  /** The tier notes. */
  const BeginnerNote: string := "Beginner mode limits adjustments to core temperature and speed controls."
  const IntermediateNote: string := "Intermediate mode unlocks motion controls with moderate guard rails."
  const AdvancedNote: string := "Advanced mode exposes all tunables within machine limits."

  /** `EXPERIENCE_SETTINGS` */
  function Settings(t: Tier): (s: TierSettings)
    ensures 0.0 < s.maxFactor <= 1.0
    ensures s.allowed.All? <==> t == Advanced
  {
    match t
    case Beginner =>
      TierSettings(Only({"nozzle_temp", "bed_temp", "print_speed", "fan_speed", "flow_rate"}), 0.85,
                   BeginnerNote)
    case Intermediate =>
      TierSettings(Only({"nozzle_temp", "bed_temp", "print_speed", "travel_speed", "accel", "fan_speed",
                         "flow_rate", "retraction_distance"}), 0.95,
                   IntermediateNote)
    case Advanced =>
      TierSettings(All, 1.0, AdvancedNote)
  }

  /** Each tier exposes everything the tier below it exposes. */
  lemma AllowListsNested(key: string)
    ensures Allows(Settings(Beginner).allowed, key) ==> Allows(Settings(Intermediate).allowed, key)
    ensures Allows(Settings(Intermediate).allowed, key) ==> Allows(Settings(Advanced).allowed, key)
  {
  }

  /** `EXPERIENCE_SETTINGS.get(experience, EXPERIENCE_SETTINGS["Intermediate"])`: the
      lookup is by exact name, and every other string falls back to Intermediate. */
  function TierOf(experience: string): (t: Tier)
    ensures t == Beginner <==> experience == "Beginner"
    ensures t == Advanced <==> experience == "Advanced"
  {
    if experience == "Beginner" then Beginner
    else if experience == "Advanced" then Advanced
    else Intermediate
  }

  /** The explanations `clamp_to_machine` records. Their text holds Python's rendering
      of a float, which the model takes as the parameter `fmt` of ExplanationText. */
  datatype Explanation =
    | TierNote(text: string)
    | RaisedToMin(key: string, bound: real)
    | ReducedToMax(key: string, bound: real)

  function ExplanationText(e: Explanation, fmt: real -> string): string {
    match e
    case TierNote(t) => t
    case RaisedToMin(k, b) => "Raised " + k + " to machine minimum " + fmt(b) + "."
    case ReducedToMax(k, b) => "Reduced " + k + " to " + fmt(b) + " based on limits."
  }

  /** The dict `clamp_to_machine` returns. */
  datatype ClampResult = ClampResult(
    parameters: map<string, Value>,
    hiddenParameters: seq<string>,
    experienceLevel: string,
    clampedToMachineLimits: bool,
    explanations: seq<Explanation>)

  type Bound = Option<real>

  /** `_to_float` */
  function ToFloat(v: Value): (r: Bound)
    ensures r.Some? <==> IsNumber(v)
    ensures r.Some? ==> r.value == AsReal(v)
  {
    if IsNumber(v) then Some(AsReal(v)) else None
  }

  /** `_range_from_list`: the first and last element of a non-empty list. */
  function RangeFromList(values: seq<Value>): (r: (Bound, Bound))
    ensures values == [] ==> r == (None, None)
    ensures values != [] ==> r == (ToFloat(values[0]), ToFloat(values[|values| - 1]))
  {
    if values == [] then (None, None) else (ToFloat(values[0]), ToFloat(values[|values| - 1]))
  }

  /** `_range_from_safe`: the first and last element of `safe[key]` when it is a non-empty list. */
  function RangeFromSafe(safe: map<string, Value>, key: string): (r: (Bound, Bound))
    ensures !(Get(safe, key).List? && Get(safe, key).items != []) ==> r == (None, None)
    ensures Get(safe, key).List? && Get(safe, key).items != [] ==>
      r == (ToFloat(safe[key].items[0]), ToFloat(safe[key].items[|safe[key].items| - 1]))
  {
    var values := Get(safe, key);
    if values.List? && values.items != [] then RangeFromList(values.items) else (None, None)
  }

  function DocTable(): map<string, real> {
    map["hobby" := 2.0, "hobby_pro" := 3.0, "light_industrial" := 5.0, "industrial" := 8.0]
  }

  /** `_doc_limit`: the depth-of-cut ceiling of the lower-cased rigidity class, 3.0 when unknown. */
  function DocLimit(m: Profile): (r: real)
    requires Conforms(m)
    ensures 2.0 <= r <= 8.0
    ensures Lower(Rigidity(m)) !in DocTable() ==> r == 3.0
    ensures Lower(Rigidity(m)) in DocTable() ==> r == DocTable()[Lower(Rigidity(m))]
  {
    var rigidity := Lower(Rigidity(m));
    if rigidity in DocTable() then DocTable()[rigidity] else 3.0
  }

  /** The first element of `preset[key]` when that is a non-empty list. */
  function PresetFirst(preset: Value, key: string): Bound
    requires PresetOk(preset)
  {
    var values := Get(preset.entries, key);
    if values.List? && values.items != [] then ToFloat(values.items[0]) else None
  }

  ghost function Candidates(presets: map<string, Value>, names: set<string>, key: string): set<real>
    requires forall k :: k in presets ==> PresetOk(presets[k])
  {
    set k | k in names && k in presets && PresetFirst(presets[k], key).Some? :: PresetFirst(presets[k], key).value
  }

  /** `r` is the least element of `c`, or None when `c` is empty. */
  ghost predicate IsLeast(r: Bound, c: set<real>) {
    && (r.None? <==> c == {})
    && (r.Some? ==> r.value in c && forall x :: x in c ==> r.value <= x)
  }

  /** The least first element over the presets named in `names`. */
  ghost function MinOver(presets: map<string, Value>, names: set<string>, key: string): (r: Bound)
    requires forall k :: k in presets ==> PresetOk(presets[k])
    ensures IsLeast(r, Candidates(presets, names, key))
  {
    if names == {} then None
    else
      var k :| k in names;
      var rest := MinOver(presets, names - {k}, key);
      var first := if k in presets then PresetFirst(presets[k], key) else None;
      var c := Candidates(presets, names - {k}, key);
      assert Candidates(presets, names, key) == c + (if first.Some? then {first.value} else {});
      if first.None? then rest
      else if rest.None? || first.value < rest.value then first
      else rest
  }

  /** The temperature minimum: the smallest first element over all presets, None when no preset has one. */
  ghost function PresetMin(presets: map<string, Value>, key: string): (r: Bound)
    requires forall k :: k in presets ==> PresetOk(presets[k])
    ensures IsLeast(r, Candidates(presets, presets.Keys, key))
  {
    MinOver(presets, presets.Keys, key)
  }

  lemma LeastUnique(r1: Bound, r2: Bound, c: set<real>)
    requires IsLeast(r1, c) && IsLeast(r2, c)
    ensures r1 == r2
  {
    if r1.Some? {
      assert r1.value <= r2.value && r2.value <= r1.value;
    }
  }

  /** Python's `min` of a non-empty list. */
  function MinSeq(s: seq<real>): (m: real)
    requires s != []
    ensures m in s && forall i :: 0 <= i < |s| ==> m <= s[i]
  {
    if |s| == 1 then s[0]
    else
      var rest := MinSeq(s[1..]);
      assert forall i :: 1 <= i < |s| ==> s[i] == s[1..][i - 1];
      if s[0] <= rest then s[0] else rest
  }

  /** `_min_from_presets`: collects the first element of every preset's list, then takes the minimum. */
  method MinFromPresets(presets: map<string, Value>, key: string) returns (r: Bound)
    requires forall k :: k in presets ==> PresetOk(presets[k])
    ensures r == PresetMin(presets, key)
  {
    var mins: seq<real> := [];
    var rest := presets.Keys;
    while rest != {}
      invariant rest <= presets.Keys
      invariant forall x :: x in mins <==> x in Candidates(presets, presets.Keys - rest, key)
      decreases |rest|
    {
      var k :| k in rest;
      var values := Get(presets[k].entries, key);
      if values.List? && values.items != [] {
        mins := mins + [AsReal(values.items[0])];
      }
      assert PresetFirst(presets[k], key).Some? ==> PresetFirst(presets[k], key).value in mins;
      assert presets.Keys - (rest - {k}) == (presets.Keys - rest) + {k};
      rest := rest - {k};
    }
    assert presets.Keys - rest == presets.Keys;
    if mins != [] {
      r := Some(MinSeq(mins));
    } else {
      r := None;
    }
    LeastUnique(r, PresetMin(presets, key), Candidates(presets, presets.Keys, key));
  }

  /** Every parameter of `_bounds_for` except the two temperatures. */
  function OtherBounds(m: Profile, key: string): (Bound, Bound)
    requires Conforms(m)
  {
    if key == "print_speed" then RangeFromSafe(SafeRanges(m), "print")
    else if key == "travel_speed" then RangeFromSafe(SafeRanges(m), "travel")
    else if key == "accel" then RangeFromSafe(SafeRanges(m), "accel")
    else if key == "jerk" then RangeFromSafe(SafeRanges(m), "jerk")
    else if key == "fan_speed" then (Some(0.0), Some(100.0))
    else if key == "flow_rate" then (Some(80.0), Some(120.0))
    else if key == "retraction_distance" then (Some(0.2), Some(8.0))
    else if key == "spindle_rpm" then
      var rng := Get(m, "spindle_rpm_range");
      RangeFromList(if rng.List? then rng.items else [])
    else if key == "feed_rate" then (Some(100.0), ToFloat(Get(m, "max_feed_mm_min")))
    else if key == "doc" then (Some(0.1), Some(DocLimit(m)))
    else if key == "stepover" then (Some(1.0), Some(60.0))
    else (None, None)
  }

  /** `_bounds_for`: the (minimum, maximum) a machine declares for a parameter. */
  ghost function Bounds(m: Profile, key: string): (Bound, Bound)
    requires Conforms(m)
  {
    if key == "nozzle_temp" then (PresetMin(Presets(m), "nozzle_c"), ToFloat(Get(m, "max_nozzle_temp_c")))
    else if key == "bed_temp" then (PresetMin(Presets(m), "bed_c"), ToFloat(Get(m, "max_bed_temp_c")))
    else OtherBounds(m, key)
  }

  /** The fixed bounds of the fan speed (percent), the flow rate (percent) and the retraction (mm). */
  lemma FixedBounds(m: Profile)
    requires Conforms(m)
    ensures Bounds(m, "fan_speed") == (Some(0.0), Some(100.0))
    ensures Bounds(m, "flow_rate") == (Some(80.0), Some(120.0))
    ensures Bounds(m, "retraction_distance") == (Some(0.2), Some(8.0))
  {
    assert "flow_rate"[1] != "fan_speed"[1];
  }

  /** The CNC bounds: a stepover of 1 to 60 percent, a feed of at least 100 up to the machine's
      maximum feed, and a depth of cut from 0.1 mm up to the rigidity limit. */
  lemma CncBounds(m: Profile)
    requires Conforms(m)
    ensures Bounds(m, "stepover") == (Some(1.0), Some(60.0))
    ensures Bounds(m, "feed_rate") == (Some(100.0), ToFloat(Get(m, "max_feed_mm_min")))
    ensures Bounds(m, "doc") == (Some(0.1), Some(DocLimit(m)))
  {
    StepoverBounds(m);
    DocBounds(m);
  }

  lemma StepoverBounds(m: Profile)
    requires Conforms(m)
    ensures Bounds(m, "stepover") == (Some(1.0), Some(60.0))
  {
  }

  lemma DocBounds(m: Profile)
    requires Conforms(m)
    ensures Bounds(m, "doc") == (Some(0.1), Some(DocLimit(m)))
  {
  }

  /** A parameter `_bounds_for` does not know has neither bound. */
  lemma UnknownBounds(m: Profile, key: string)
    requires Conforms(m) && key !in KnownParameters()
    ensures Bounds(m, key) == (None, None)
  {
  }

  function KnownParameters(): set<string> {
    {"nozzle_temp", "bed_temp", "print_speed", "travel_speed", "accel", "jerk", "fan_speed", "flow_rate",
     "retraction_distance", "spindle_rpm", "feed_rate", "doc", "stepover"}
  }

  method BoundsFor(m: Profile, key: string) returns (lo: Bound, hi: Bound)
    requires Conforms(m)
    ensures (lo, hi) == Bounds(m, key)
  {
    if key == "nozzle_temp" {
      lo := MinFromPresets(Presets(m), "nozzle_c");
      hi := ToFloat(Get(m, "max_nozzle_temp_c"));
    } else if key == "bed_temp" {
      lo := MinFromPresets(Presets(m), "bed_c");
      hi := ToFloat(Get(m, "max_bed_temp_c"));
    } else {
      lo, hi := OtherBounds(m, key).0, OtherBounds(m, key).1;
    }
  }

  /** A numeric maximum scaled by the tier factor; the minimum is never scaled. */
  function EffectiveMax(hi: Bound, factor: real): Bound {
    if hi.Some? && factor < 1.0 then Some(hi.value * factor) else hi
  }

  /** The loop body of `clamp_to_machine` for one visible parameter: a number below the
      minimum is raised to it, then a number above the effective maximum is lowered to it. */
  function ClampValueWith(lo: Bound, effMax: Bound, key: string, v: Value): (r: (Value, seq<Explanation>))
    ensures !IsNumber(v) ==> r == (v, [])
    ensures lo.None? && effMax.None? ==> r == (v, [])
    ensures IsNumber(v) ==> IsNumber(r.0)
    ensures IsNumber(v) && effMax.Some? ==> AsReal(r.0) <= effMax.value
    ensures IsNumber(v) && lo.Some? && (effMax.None? || lo.value <= effMax.value) ==> lo.value <= AsReal(r.0)
    ensures IsNumber(v) && (lo.None? || lo.value <= AsReal(v)) && (effMax.None? || AsReal(v) <= effMax.value)
      ==> r == (v, [])
    ensures |r.1| <= 2
    ensures r.1 != [] <==>
      IsNumber(v) && ((lo.Some? && AsReal(v) < lo.value) || (effMax.Some? && AsReal(v) > effMax.value))
  {
    if !IsNumber(v) then (v, [])
    else
      var raised := lo.Some? && AsReal(v) < lo.value;
      var v1 := if raised then Float(lo.value) else v;
      var reduced := effMax.Some? && AsReal(v1) > effMax.value;
      var v2 := if reduced then Float(effMax.value) else v1;
      (v2, (if raised then [RaisedToMin(key, lo.value)] else []) + (if reduced then [ReducedToMax(key, effMax.value)] else []))
  }

  ghost function ClampValue(m: Profile, s: TierSettings, key: string, v: Value): (Value, seq<Explanation>)
    requires Conforms(m)
  {
    var b := Bounds(m, key);
    ClampValueWith(b.0, EffectiveMax(b.1, s.maxFactor), key, v)
  }

  /** The output dict of `clamp_to_machine`, as items in input order. */
  ghost function ClampItems(m: Profile, s: TierSettings, items: Items): (r: Items)
    requires Conforms(m)
  {
    if items == [] then []
    else
      var init := ClampItems(m, s, items[..|items| - 1]);
      var (k, v) := items[|items| - 1];
      if Allows(s.allowed, k) then init + [(k, ClampValue(m, s, k, v).0)] else init
  }

  /** The explanations recorded after the tier note, in input order. */
  ghost function Notes(m: Profile, s: TierSettings, items: Items): seq<Explanation>
    requires Conforms(m)
  {
    if items == [] then []
    else
      var init := Notes(m, s, items[..|items| - 1]);
      var (k, v) := items[|items| - 1];
      if Allows(s.allowed, k) then init + ClampValue(m, s, k, v).1 else init
  }

  /** The names removed by the allow-list, in input order. */
  function HiddenKeys(allowed: Allowed, items: Items): (r: seq<string>)
    ensures |r| <= |items|
  {
    if items == [] then []
    else
      var init := HiddenKeys(allowed, items[..|items| - 1]);
      var k := items[|items| - 1].0;
      if Allows(allowed, k) then init else init + [k]
  }

  /** The whole result of `clamp_to_machine(machine, parameters, experience)`. */
  ghost function ClampSpec(m: Profile, items: Items, experience: string): ClampResult
    requires Conforms(m)
  {
    var s := Settings(TierOf(experience));
    var notes := Notes(m, s, items);
    ClampResult(ItemsToMap(ClampItems(m, s, items)), Sorting.Sort(HiddenKeys(s.allowed, items), Sorting.StrLe),
                experience, notes != [], [TierNote(s.note)] + notes)
  }

  /** The loop body of `clamp_to_machine` for one parameter the tier shows. */
  method ClampParameter(machine: Profile, settings: TierSettings, key: string, value: Value)
    returns (newValue: Value, notes: seq<Explanation>)
    requires Conforms(machine)
    ensures (newValue, notes) == ClampValue(machine, settings, key, value)
  {
    var minBound, maxBound := BoundsFor(machine, key);
    var effectiveMax := maxBound;
    if maxBound.Some? && settings.maxFactor < 1.0 {
      effectiveMax := Some(maxBound.value * settings.maxFactor);
    }
    assert effectiveMax == EffectiveMax(maxBound, settings.maxFactor);
    newValue, notes := ClampBetween(minBound, effectiveMax, key, value);
  }

  method ClampBetween(minBound: Bound, effectiveMax: Bound, key: string, value: Value)
    returns (newValue: Value, notes: seq<Explanation>)
    ensures (newValue, notes) == ClampValueWith(minBound, effectiveMax, key, value)
  {
    newValue := value;
    notes := [];
    if IsNumber(newValue) {
      if minBound.Some? && AsReal(newValue) < minBound.value {
        newValue := Float(minBound.value);
        notes := notes + [RaisedToMin(key, minBound.value)];
      }
      if effectiveMax.Some? && AsReal(newValue) > effectiveMax.value {
        newValue := Float(effectiveMax.value);
        notes := notes + [ReducedToMax(key, effectiveMax.value)];
      }
    }
    ghost var expected := ClampValueWith(minBound, effectiveMax, key, value);
    assert newValue == expected.0;
    assert notes == expected.1;
  }

  /** How the three specifications grow by one more parameter. */
  lemma ClampStep(m: Profile, s: TierSettings, items: Items, x: (string, Value))
    requires Conforms(m)
    ensures var r := ClampValue(m, s, x.0, x.1);
      && ItemsToMap(ClampItems(m, s, items + [x])) ==
           (if Allows(s.allowed, x.0) then ItemsToMap(ClampItems(m, s, items))[x.0 := r.0]
            else ItemsToMap(ClampItems(m, s, items)))
      && Notes(m, s, items + [x]) == Notes(m, s, items) + (if Allows(s.allowed, x.0) then r.1 else [])
      && HiddenKeys(s.allowed, items + [x]) == HiddenKeys(s.allowed, items) + (if Allows(s.allowed, x.0) then [] else [x.0])
  {
    var all := items + [x];
    assert all[..|all| - 1] == items;
    if Allows(s.allowed, x.0) {
      ItemsToMapSnoc(ClampItems(m, s, items), (x.0, ClampValue(m, s, x.0, x.1).0));
    }
  }

  /** The loop of `clamp_to_machine` for given tier settings. */
  method ClampAll(machine: Profile, settings: TierSettings, parameters: Items)
    returns (clamped: map<string, Value>, hidden: seq<string>, clampedFlag: bool, notes: seq<Explanation>)
    requires Conforms(machine)
    ensures clamped == ItemsToMap(ClampItems(machine, settings, parameters))
    ensures hidden == HiddenKeys(settings.allowed, parameters)
    ensures notes == Notes(machine, settings, parameters)
    ensures clampedFlag == (notes != [])
  {
    clamped, hidden, clampedFlag, notes := map[], [], false, [];
    var i := 0;
    while i < |parameters|
      invariant 0 <= i <= |parameters|
      invariant clamped == ItemsToMap(ClampItems(machine, settings, parameters[..i]))
      invariant hidden == HiddenKeys(settings.allowed, parameters[..i])
      invariant notes == Notes(machine, settings, parameters[..i])
      invariant clampedFlag == (notes != [])
    {
      var (key, value) := parameters[i];
      assert parameters[..i + 1] == parameters[..i] + [(key, value)];
      ClampStep(machine, settings, parameters[..i], (key, value));
      if !Allows(settings.allowed, key) {
        hidden := hidden + [key];
      } else {
        var newValue, added := ClampParameter(machine, settings, key, value);
        if added != [] {
          clampedFlag := true;
        }
        notes := notes + added;
        clamped := clamped[key := newValue];
      }
      i := i + 1;
    }
    assert parameters[..i] == parameters;
  }

  /** `RulesEngine.clamp_to_machine` */
  method ClampToMachine(machine: Profile, parameters: Items, experience: string) returns (applied: ClampResult)
    requires Conforms(machine)
    ensures applied == ClampSpec(machine, parameters, experience)
  {
    var settings := Settings(TierOf(experience));
    var clamped, hidden, clampedFlag, notes := ClampAll(machine, settings, parameters);
    applied := ClampResult(clamped, Sorting.Sort(hidden, Sorting.StrLe), experience, clampedFlag,
                           [TierNote(settings.note)] + notes);
  }

  // ---------------------------------------------------------------------------
  // Properties of the clamp

  lemma {:induction false} ClampItemsKeys(m: Profile, s: TierSettings, items: Items)
    requires Conforms(m)
    ensures KeysOf(ClampItems(m, s, items)) == set k | k in KeysOf(items) && Allows(s.allowed, k)
  {
    if items != [] {
      var init, x := items[..|items| - 1], items[|items| - 1];
      assert items == init + [x];
      ClampItemsKeys(m, s, init);
      KeysOfSnoc(init, x);
      if Allows(s.allowed, x.0) {
        KeysOfSnoc(ClampItems(m, s, init), (x.0, ClampValue(m, s, x.0, x.1).0));
      }
    }
  }

  lemma {:induction false} HiddenKeysContent(allowed: Allowed, items: Items)
    ensures forall k :: k in HiddenKeys(allowed, items) <==> k in KeysOf(items) && !Allows(allowed, k)
    ensures DistinctKeys(items) ==> Sorting.NoDuplicates(HiddenKeys(allowed, items))
  {
    if items != [] {
      var init, x := items[..|items| - 1], items[|items| - 1];
      assert items == init + [x];
      HiddenKeysContent(allowed, init);
      KeysOfSnoc(init, x);
      if DistinctKeys(items) {
        assert DistinctKeys(init);
        assert x.0 !in KeysOf(init);
      }
    }
  }

  /** The visible names are exactly the input names the tier allows; the hidden list
      holds exactly the others, in string order and without duplicates. */
  lemma ClampPartitionsKeysWith(m: Profile, s: TierSettings, items: Items)
    requires Conforms(m) && DistinctKeys(items)
    ensures forall k :: k in ItemsToMap(ClampItems(m, s, items)) <==> k in KeysOf(items) && Allows(s.allowed, k)
    ensures var h := Sorting.Sort(HiddenKeys(s.allowed, items), Sorting.StrLe);
      && (forall k :: k in h <==> k in KeysOf(items) && !Allows(s.allowed, k))
      && Sorting.SortedBy(h, Sorting.StrLe) && Sorting.NoDuplicates(h)
  {
    ClampItemsKeys(m, s, items);
    HiddenKeysContent(s.allowed, items);
    Sorting.StrLeTotalPreorder();
    Sorting.SortIsSorted(HiddenKeys(s.allowed, items), Sorting.StrLe);
    Sorting.SortMembers(HiddenKeys(s.allowed, items), Sorting.StrLe);
  }

  /** `clamp_to_machine`'s parameters and hidden_parameters split the input names by the tier's allow-list. */
  lemma ClampPartitionsKeys(m: Profile, items: Items, experience: string)
    requires Conforms(m) && DistinctKeys(items)
    ensures var r := ClampSpec(m, items, experience); var s := Settings(TierOf(experience));
      && (forall k :: k in r.parameters <==> k in KeysOf(items) && Allows(s.allowed, k))
      && (forall k :: k in r.hiddenParameters <==> k in KeysOf(items) && !Allows(s.allowed, k))
      && Sorting.SortedBy(r.hiddenParameters, Sorting.StrLe) && Sorting.NoDuplicates(r.hiddenParameters)
  {
    ClampPartitionsKeysWith(m, Settings(TierOf(experience)), items);
  }

  lemma {:induction false} ClampItemsAt(m: Profile, s: TierSettings, items: Items, i: nat)
    requires Conforms(m) && DistinctKeys(items) && i < |items| && Allows(s.allowed, items[i].0)
    ensures var r := ItemsToMap(ClampItems(m, s, items));
      items[i].0 in r && r[items[i].0] == ClampValue(m, s, items[i].0, items[i].1).0
  {
    var init, x := items[..|items| - 1], items[|items| - 1];
    assert items == init + [x];
    ClampStep(m, s, init, x);
    if i < |items| - 1 {
      ClampItemsAt(m, s, init, i);
    }
  }

  /** Each visible value is its input value clamped into the parameter's bounds: at most the
      tier-scaled maximum, at least the (unscaled) minimum when that does not exceed it;
      a non-number, or a parameter without bounds, passes through unchanged. */
  lemma ClampRespectsBoundsWith(m: Profile, s: TierSettings, items: Items, i: nat)
    requires Conforms(m) && DistinctKeys(items) && i < |items| && Allows(s.allowed, items[i].0)
    ensures var r := ItemsToMap(ClampItems(m, s, items)); var k := items[i].0; var v := items[i].1;
      var b := Bounds(m, k); var effMax := EffectiveMax(b.1, s.maxFactor);
      && k in r
      && (!IsNumber(v) ==> r[k] == v)
      && (b.0.None? && b.1.None? ==> r[k] == v)
      && (IsNumber(v) ==> IsNumber(r[k]))
      && (IsNumber(v) && b.1.Some? ==> AsReal(r[k]) <= effMax.value)
      && (IsNumber(v) && b.0.Some? && (b.1.None? || b.0.value <= effMax.value) ==> b.0.value <= AsReal(r[k]))
  {
    ClampItemsAt(m, s, items, i);
  }

  /** The bounds property for `clamp_to_machine` itself. */
  lemma ClampRespectsBounds(m: Profile, items: Items, experience: string, i: nat)
    requires Conforms(m) && DistinctKeys(items) && i < |items|
    requires Allows(Settings(TierOf(experience)).allowed, items[i].0)
    ensures var r := ClampSpec(m, items, experience).parameters; var k := items[i].0; var v := items[i].1;
      var b := Bounds(m, k); var effMax := EffectiveMax(b.1, Settings(TierOf(experience)).maxFactor);
      && k in r
      && (!IsNumber(v) ==> r[k] == v)
      && (b.0.None? && b.1.None? ==> r[k] == v)
      && (IsNumber(v) ==> IsNumber(r[k]))
      && (IsNumber(v) && b.1.Some? ==> AsReal(r[k]) <= effMax.value)
      && (IsNumber(v) && b.0.Some? && (b.1.None? || b.0.value <= effMax.value) ==> b.0.value <= AsReal(r[k]))
  {
    ClampRespectsBoundsWith(m, Settings(TierOf(experience)), items, i);
  }

  /** The tier note comes first; the clamped flag is set iff some value was raised or lowered. */
  lemma ClampExplanations(m: Profile, items: Items, experience: string)
    requires Conforms(m)
    ensures var r := ClampSpec(m, items, experience);
      && r.explanations[0] == TierNote(Settings(TierOf(experience)).note)
      && r.experienceLevel == experience
      && (r.clampedToMachineLimits <==> |r.explanations| > 1)
  {
  }

  /** The flag is set iff some visible numeric value lay outside its bounds. */
  lemma {:induction false} NotesIffOutOfBounds(m: Profile, s: TierSettings, items: Items)
    requires Conforms(m)
    ensures Notes(m, s, items) != [] <==>
      exists i :: 0 <= i < |items| && Allows(s.allowed, items[i].0) && ClampValue(m, s, items[i].0, items[i].1).1 != []
  {
    if items != [] {
      var init := items[..|items| - 1];
      NotesIffOutOfBounds(m, s, init);
      assert forall i :: 0 <= i < |init| ==> init[i] == items[i];
    }
  }

  /** The bounds of `key` admit a value: the minimum does not exceed the effective maximum. */
  ghost predicate Satisfiable(m: Profile, s: TierSettings, key: string)
    requires Conforms(m)
  {
    var (lo, hi) := Bounds(m, key);
    var effMax := EffectiveMax(hi, s.maxFactor);
    lo.None? || effMax.None? || lo.value <= effMax.value
  }

  lemma ClampValueIdempotent(m: Profile, s: TierSettings, key: string, v: Value)
    requires Conforms(m) && Satisfiable(m, s, key)
    ensures ClampValue(m, s, key, ClampValue(m, s, key, v).0).0 == ClampValue(m, s, key, v).0
  {
  }

  /** Clamping an already clamped parameter list again with the same machine and tier
      changes nothing, when every visible parameter has satisfiable bounds. */
  lemma {:induction false} ClampIdempotent(m: Profile, s: TierSettings, items: Items)
    requires Conforms(m)
    requires forall i :: 0 <= i < |items| && Allows(s.allowed, items[i].0) ==> Satisfiable(m, s, items[i].0)
    ensures ClampItems(m, s, ClampItems(m, s, items)) == ClampItems(m, s, items)
  {
    if items != [] {
      var init := items[..|items| - 1];
      assert forall i :: 0 <= i < |init| ==> init[i] == items[i];
      ClampIdempotent(m, s, init);
      var ci := ClampItems(m, s, init);
      var (k, v) := items[|items| - 1];
      if Allows(s.allowed, k) {
        var out := ci + [(k, ClampValue(m, s, k, v).0)];
        assert out[..|out| - 1] == ci;
        ClampValueIdempotent(m, s, k, v);
        AllVisible(m, s, init);
      }
    }
  }

  /** Every item of a clamped list is visible. */
  lemma {:induction false} AllVisible(m: Profile, s: TierSettings, items: Items)
    requires Conforms(m)
    ensures forall i :: 0 <= i < |ClampItems(m, s, items)| ==> Allows(s.allowed, ClampItems(m, s, items)[i].0)
  {
    if items != [] {
      AllVisible(m, s, items[..|items| - 1]);
    }
  }
}
