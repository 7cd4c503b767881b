/** The suggestion planner: from issue predictions and a machine profile to suggested
    parameter changes. Each issue picks a recipe of adjustments relative to a baseline
    for the machine type; the clamp engine then filters and bounds the targets. */
module Suggest {
  import opened Values
  import opened Text
  import opened Machines
  import opened Api
  import Rules

  /** A parameter table, `Dict[str, float]`. */
  type Baseline = map<string, real>

  /** A recipe reads a key its baseline lacks (a stringing fix on a CNC machine, say). */
  datatype PlanError = KeyError(key: string)

  const FdmKeys: set<string> := {"nozzle_temp", "bed_temp", "print_speed", "travel_speed", "accel", "jerk",
                                 "fan_speed", "flow_rate", "retraction_distance"}

  /** `_baseline_fdm` */
  function BaselineFdm(m: Profile, material: string): Baseline
    requires Conforms(m)
  {
    var t := FdmDefaults(m, material);
    map["nozzle_temp" := t.nozzle, "bed_temp" := t.bed, "print_speed" := t.printSpeed,
        "travel_speed" := t.travelSpeed, "accel" := t.accel, "jerk" := t.jerk, "fan_speed" := t.fan,
        "flow_rate" := 100.0, "retraction_distance" := t.retraction]
  }

  /** The FDM baseline holds the nine FDM parameters: the shared FDM table and a flow rate of 100. */
  lemma BaselineFdmTable(m: Profile, material: string)
    requires Conforms(m)
    ensures var b := BaselineFdm(m, material); var t := FdmDefaults(m, material);
      && b.Keys == FdmKeys
      && b["nozzle_temp"] == t.nozzle && b["bed_temp"] == t.bed && b["fan_speed"] == t.fan
      && b["print_speed"] == t.printSpeed && b["travel_speed"] == t.travelSpeed
      && b["accel"] == t.accel && b["jerk"] == t.jerk && b["retraction_distance"] == t.retraction
      && b["flow_rate"] == 100.0
  {
  }

  /** `_baseline_resin`: a longer exposure for materials named RESIN... */
  function BaselineResin(material: string): (b: Baseline)
    ensures b.Keys == {"exposure_time", "lift_speed"}
    ensures b["exposure_time"] == (if StartsWith(material, "RESIN") then 2.3 else 2.0)
    ensures b["lift_speed"] == 60.0
  {
    map["exposure_time" := if StartsWith(material, "RESIN") then 2.3 else 2.0, "lift_speed" := 60.0]
  }

  /** The depth of cut of `_baseline_cnc`: a substring test, so "light_industrial" counts as industrial. */
  function CncDoc(rigidity: string): real {
    if Contains(rigidity, "industrial") then 4.0 else if Contains(rigidity, "light") then 3.0 else 2.0
  }

  /** "light_industrial" takes the industrial depth; a plain light frame the light one. */
  lemma CncDocExamples()
    ensures CncDoc("light_industrial") == 4.0
    ensures CncDoc("light") == 3.0
  {
    assert OccursAt("light_industrial", "industrial", 6);
    assert OccursAt("light", "light", 0);
  }

  /** `_baseline_cnc` */
  function BaselineCnc(m: Profile): Baseline
    requires Conforms(m)
  {
    var maxFeed := Or(Get(m, "max_feed_mm_min"), Int(6000));
    var feed := if Truthy(maxFeed) then AsReal(maxFeed) * 0.7 else 3000.0;
    map["spindle_rpm" := Mean(SpindleRange(m)), "feed_rate" := feed, "doc" := CncDoc(Lower(Rigidity(m))),
        "stepover" := 40.0]
  }

  /** The CNC baseline: the spindle at the mean of its range (8000 to 18000 rpm by default),
      70 percent of the maximum feed (6000 by default), the rigidity depth of cut and a 40 percent stepover. */
  lemma BaselineCncTable(m: Profile)
    requires Conforms(m)
    ensures var b := BaselineCnc(m);
      && b.Keys == {"spindle_rpm", "feed_rate", "doc", "stepover"}
      && b["spindle_rpm"] == Mean(SpindleRange(m))
      && b["feed_rate"] == 0.7 * MaxFeed(m)
      && b["doc"] == CncDoc(Lower(Rigidity(m)))
      && b["stepover"] == 40.0
  {
  }

  /** The CNC spindle baseline lies inside the machine's spindle range. */
  lemma CncSpindleWithinRange(m: Profile, lo: real, hi: real)
    requires Conforms(m)
    requires forall i :: 0 <= i < |SpindleRange(m)| ==> lo <= AsReal(SpindleRange(m)[i]) <= hi
    ensures lo <= BaselineCnc(m)["spindle_rpm"] <= hi
  {
    BaselineCncTable(m);
    MeanBounds(SpindleRange(m), lo, hi);
  }

  predicate IsResinType(t: Value) {
    t == Str("MSLA") || t == Str("SLA")
  }

  predicate IsCncType(t: Value) {
    t == Str("CNC_Router") || t == Str("CNC_Mill")
  }

  /** The table `_baseline` caches: resin for MSLA/SLA, CNC for CNC_Router/CNC_Mill, FDM for anything else. */
  function BaselineFor(m: Profile, material: string): Baseline
    requires Conforms(m)
  {
    var t := Get(m, "type");
    if IsResinType(t) then BaselineResin(material)
    else if IsCncType(t) then BaselineCnc(m)
    else BaselineFdm(m, material)
  }

  /** One entry of a recipe's adjustment list. */
  datatype Adjustment = Adjustment(
    param: string, target: Option<real>, unit: Option<string>, rangeHint: Option<(real, real)>, requiresClamp: bool)

  datatype Recipe = Recipe(adjustments: seq<Adjustment>, risk: string, why: string, beginnerNote: string,
                           advancedNote: string)

  function Clamped(param: string, target: real, unit: string, hint: (real, real)): Adjustment {
    Adjustment(param, Some(target), Some(unit), Some(hint), true)
  }

  /** The first of `keys` the baseline lacks: reading the keys in order, `baseline[key]`
      raises its KeyError there. */
  function FirstMissing(b: Baseline, keys: seq<string>): (r: Option<string>)
    ensures r.Some? <==> exists i :: 0 <= i < |keys| && keys[i] !in b
    ensures r.Some? ==> exists i :: 0 <= i < |keys| && keys[i] == r.value && r.value !in b
                                    && forall j :: 0 <= j < i ==> keys[j] in b
  {
    if keys == [] then None
    else if keys[0] !in b then Some(keys[0])
    else
      var rest := FirstMissing(b, keys[1..]);
      assert forall i :: 1 <= i < |keys| ==> keys[1..][i - 1] == keys[i];
      rest
  }

  /** Reading the first key of a non-empty list either raises its KeyError or moves on. */
  lemma FirstMissingStep(b: Baseline, keys: seq<string>)
    requires keys != []
    ensures FirstMissing(b, keys) == if keys[0] !in b then Some(keys[0]) else FirstMissing(b, keys[1..])
  {
  }

  /** The parameters an adjustment list names, in order. */
  function ParamsOf(adjustments: seq<Adjustment>): (ps: seq<string>)
    ensures |ps| == |adjustments| && forall i :: 0 <= i < |adjustments| ==> ps[i] == adjustments[i].param
  {
    seq(|adjustments|, i requires 0 <= i < |adjustments| => adjustments[i].param)
  }

  /** `baseline[key]` */
  function Lookup(b: Baseline, key: string): (r: Result<real, PlanError>)
    ensures r.Ok? <==> key in b
    ensures r.Ok? ==> r.value == b[key]
    ensures r.Err? ==> r.error == KeyError(key)
  {
    if key in b then Ok(b[key]) else Err(KeyError(key))
  }

  // The recipe texts: each recipe's rationale, its beginner and advanced notes, and the
  // sentences a rationale gains for a machine capability.
  const StringingWhy: string := "Stringing detected; reducing nozzle temperature and increasing retraction fights ooze."
  const DryingNote: string := " Include filament drying to remove absorbed moisture."
  const StringingBeginner: string := "Run a retraction test cube after lowering temperatures to confirm improvements."
  const StringingAdvanced: string := "Consider pressure advance or linear advance tuning if your slicer supports it."
  const UnderExtrusionWhy: string := "Under-extrusion cues suggest raising melt capacity and slowing print speed for consistency."
  const UnderExtrusionBeginner: string := "Verify extruder gears are clean before increasing temperatures or flow."
  const UnderExtrusionAdvanced: string := "Run an extrusion multiplier calibration and inspect hotend for partial clogs."
  const IdexNote: string := " Calibrate both toolheads to avoid mismatch between extruders."
  const RingingWhy: string := "Ghosting is mitigated by reducing accelerations and jerk, scaled to the motion system."
  const InputShapingNote: string := " Input shaping allows recovering speed after vibrations are controlled."
  const RingingBeginner: string := "Tighten belts before lowering acceleration to keep motion crisp."
  const RingingAdvanced: string := "Capture resonance data with input shaping or accelerometer tools if available."
  const ResinPeelWhy: string := "Peel artifacts benefit from slower lifts and slightly longer exposures to ensure adhesion."
  const ResinPeelBeginner: string := "Check vat film tension before adjusting lift speeds."
  const ResinPeelAdvanced: string := "Balance exposure increases with resin manufacturer's recommended maximums."
  const CncChatterWhy: string := "Reducing feed and depth of cut while slightly increasing spindle RPM mitigates chatter."
  const CncChatterBeginner: string := "Ensure tool stick-out is minimized before cutting more slowly."
  const CncChatterAdvanced: string := "Dial in adaptive clearing strategies to maintain consistent chip load."
  const GeneralWhy: string := "Providing general tuning baselines because the model returned low confidence."
  const GeneralBeginner: string := "Re-run calibration prints (flow cube, temperature tower) to gather more data."
  const GeneralAdvanced: string := "Capture higher-resolution photos and include notes about materials for better results."

  // The baseline keys each FDM recipe reads, in the order it reads them.
  const StringingKeys: seq<string> := ["nozzle_temp", "retraction_distance", "travel_speed"]
  const UnderExtrusionKeys: seq<string> := ["nozzle_temp", "print_speed"]
  const RingingKeys: seq<string> := ["accel", "jerk", "print_speed"]

  /** `_stringing`; `supportsDrying` is the machine's "ams" capability. */
  function StringingRecipe(b: Baseline, supportsDrying: bool): (r: Result<Recipe, PlanError>)
    ensures r.Err? <==> FirstMissing(b, StringingKeys).Some?
    ensures r.Err? ==> r.error == KeyError(FirstMissing(b, StringingKeys).value)
    ensures r.Ok? ==> ParamsOf(r.value.adjustments) == ["nozzle_temp", "retraction_distance", "travel_speed", "drying_recommendation"]
  {
    FirstMissingStep(b, StringingKeys);
    FirstMissingStep(b, StringingKeys[1..]);
    FirstMissingStep(b, StringingKeys[2..]);
    assert StringingKeys[1..][1..] == StringingKeys[2..] && StringingKeys[2..][1..] == [];
    var nozzle :- Lookup(b, "nozzle_temp");
    var retraction :- Lookup(b, "retraction_distance");
    var travel :- Lookup(b, "travel_speed");
    Ok(Recipe(
      [Clamped("nozzle_temp", nozzle - 10.0, "C", (-15.0, -5.0)),
       Clamped("retraction_distance", retraction + 1.0, "mm", (0.5, 1.5)),
       Clamped("travel_speed", travel + 10.0, "mm/s", (5.0, 20.0)),
       Adjustment("drying_recommendation", Some(if !supportsDrying then 1.0 else 0.0), None, None, false)],
      "medium",
      StringingWhy
        + (if !supportsDrying then DryingNote else ""),
      StringingBeginner,
      StringingAdvanced))
  }

  /** `_under_extrusion`; `idex` is the "idex" capability or an IDEX motion system. */
  function UnderExtrusionRecipe(b: Baseline, idex: bool): (r: Result<Recipe, PlanError>)
    ensures r.Err? <==> FirstMissing(b, UnderExtrusionKeys).Some?
    ensures r.Err? ==> r.error == KeyError(FirstMissing(b, UnderExtrusionKeys).value)
    ensures r.Ok? ==> ParamsOf(r.value.adjustments) == ["nozzle_temp", "print_speed", "flow_rate"]
    ensures r.Ok? ==> r.value.adjustments[0].target.Some? && r.value.adjustments[0].target.value > b["nozzle_temp"]
  {
    var nozzle :- Lookup(b, "nozzle_temp");
    var speed :- Lookup(b, "print_speed");
    Ok(Recipe(
      [Clamped("nozzle_temp", nozzle + 8.0, "C", (5.0, 10.0)),
       Clamped("print_speed", speed * 0.85, "mm/s", (-20.0, -10.0)),
       Clamped("flow_rate", 103.0, "%", (2.0, 5.0))],
      "medium",
      UnderExtrusionWhy,
      UnderExtrusionBeginner,
      UnderExtrusionAdvanced
        + (if idex then IdexNote else "")))
  }

  /** `_ringing`: a bed slinger gets the stronger acceleration and jerk cuts. */
  function RingingRecipe(b: Baseline, motion: string, inputShaping: bool): (r: Result<Recipe, PlanError>)
    ensures r.Err? <==> FirstMissing(b, RingingKeys).Some?
    ensures r.Err? ==> r.error == KeyError(FirstMissing(b, RingingKeys).value)
    ensures r.Ok? ==> ParamsOf(r.value.adjustments) == RingingKeys
  {
    FirstMissingStep(b, RingingKeys);
    FirstMissingStep(b, RingingKeys[1..]);
    FirstMissingStep(b, RingingKeys[2..]);
    assert RingingKeys[1..][1..] == RingingKeys[2..] && RingingKeys[2..][1..] == [];
    var accelScale := if motion == "BedSlinger" then 0.6 else 0.8;
    var jerkScale := if motion == "BedSlinger" then 0.65 else 0.85;
    var accel :- Lookup(b, "accel");
    var jerk :- Lookup(b, "jerk");
    var speed :- Lookup(b, "print_speed");
    Ok(Recipe(
      [Clamped("accel", accel * accelScale, "mm/s^2", (-3000.0, -500.0)),
       Clamped("jerk", jerk * jerkScale, "mm/s", (-8.0, -2.0)),
       Clamped("print_speed", speed * 0.9, "mm/s", (-15.0, -5.0))],
      "low",
      RingingWhy
        + (if inputShaping then InputShapingNote else ""),
      RingingBeginner,
      RingingAdvanced))
  }

  /** `_resin_peel`, always over the resin baseline. */
  function ResinPeelRecipe(material: string): (r: Recipe)
    ensures ParamsOf(r.adjustments) == ["lift_speed", "exposure_time"]
    ensures r.adjustments[0].target.Some? && r.adjustments[0].target.value < BaselineResin(material)["lift_speed"]
    ensures r.adjustments[1].target.Some? && r.adjustments[1].target.value > BaselineResin(material)["exposure_time"]
  {
    var b := BaselineResin(material);
    Recipe(
      [Clamped("lift_speed", b["lift_speed"] * 0.85, "mm/min", (-20.0, -5.0)),
       Clamped("exposure_time", b["exposure_time"] * 1.1, "s", (5.0, 15.0))],
      "medium",
      ResinPeelWhy,
      ResinPeelBeginner,
      ResinPeelAdvanced)
  }

  /** `_cnc_chatter`, always over the CNC baseline. */
  function CncChatterRecipe(m: Profile): (r: Recipe)
    requires Conforms(m)
    ensures ParamsOf(r.adjustments) == ["feed_rate", "doc", "spindle_rpm"]
  {
    var b := BaselineCnc(m);
    Recipe(
      [Clamped("feed_rate", b["feed_rate"] * 0.8, "mm/min", (-25.0, -10.0)),
       Clamped("doc", b["doc"] * 0.7, "mm", (-2.0, -0.5)),
       Clamped("spindle_rpm", b["spindle_rpm"] * 1.05, "rpm", (5.0, 10.0))],
      "medium",
      CncChatterWhy,
      CncChatterBeginner,
      CncChatterAdvanced)
  }

  /** The chatter recipe cuts less deep than the CNC baseline, whose depth is positive for
      every rigidity. */
  lemma CncChatterShallower(m: Profile)
    requires Conforms(m)
    ensures var r := CncChatterRecipe(m);
      r.adjustments[1].target.Some? && r.adjustments[1].target.value < BaselineCnc(m)["doc"]
  {
    BaselineCncTable(m);
    assert CncChatterRecipe(m).adjustments[1].target == Some(BaselineCnc(m)["doc"] * 0.7);
  }

  /** `_general_best_practice`: the baseline temperatures when the baseline has a nozzle temperature, else nothing. */
  function GeneralRecipe(b: Baseline): (r: Recipe)
    ensures r.adjustments != [] <==> "nozzle_temp" in b
    ensures r.adjustments != [] ==> ParamsOf(r.adjustments) == ["nozzle_temp", "bed_temp"]
    ensures forall a :: a in r.adjustments ==>
              a.requiresClamp && a.rangeHint == Some((0.0, 0.0)) && a.target == (if a.param in b then Some(b[a.param]) else None)
  {
    var get := (k: string) => if k in b then Some(b[k]) else None;
    Recipe(
      if "nozzle_temp" in b then
        [Adjustment("nozzle_temp", get("nozzle_temp"), Some("C"), Some((0.0, 0.0)), true),
         Adjustment("bed_temp", get("bed_temp"), Some("C"), Some((0.0, 0.0)), true)]
      else [],
      "low",
      GeneralWhy,
      GeneralBeginner,
      GeneralAdvanced)
  }

  /** The recipe family `_handler_for_issue` picks. */
  datatype Handler = StringingFix | UnderExtrusionFix | RingingFix | ResinPeelFix | CncChatterFix | GeneralFix

  /** `_handler_for_issue`: substring tests on the lower-cased id, in a fixed order. */
  function HandlerFor(issueId: string): Handler {
    var id := Lower(issueId);
    if Contains(id, "string") then StringingFix
    else if Contains(id, "under") then UnderExtrusionFix
    else if Contains(id, "ring") then RingingFix
    else if Contains(id, "peel") then ResinPeelFix
    else if Contains(id, "chatter") then CncChatterFix
    else GeneralFix
  }

  /** Each handler is chosen only when no earlier test in the order matched. */
  lemma DispatchOrder(issueId: string)
    ensures var id := Lower(issueId); var h := HandlerFor(issueId);
      && (h == StringingFix <==> Contains(id, "string"))
      && (h == UnderExtrusionFix <==> !Contains(id, "string") && Contains(id, "under"))
      && (h == RingingFix <==> !Contains(id, "string") && !Contains(id, "under") && Contains(id, "ring"))
      && (h == ResinPeelFix <==>
            !Contains(id, "string") && !Contains(id, "under") && !Contains(id, "ring") && Contains(id, "peel"))
      && (h == CncChatterFix <==> !Contains(id, "string") && !Contains(id, "under") && !Contains(id, "ring")
                                   && !Contains(id, "peel") && Contains(id, "chatter"))
      && (h == GeneralFix <==> !Contains(id, "string") && !Contains(id, "under") && !Contains(id, "ring")
                                && !Contains(id, "peel") && !Contains(id, "chatter"))
  {
  }

  /** "Stringing" contains "ring" yet routes to the stringing recipe: the order decides. */
  lemma StringingBeforeRinging()
    ensures Contains(Lower("Stringing"), "ring")
    ensures HandlerFor("Stringing") == StringingFix
  {
    var id := Lower("Stringing");
    assert id[..6] == "string";
    assert OccursAt(id, "string", 0);
    assert OccursAt(id, "ring", 2);
  }

  /** The recipe for a handler: peel and chatter read their own tables, the rest the cached baseline. */
  function RecipeFor(m: Profile, material: string, h: Handler): Result<Recipe, PlanError>
    requires Conforms(m)
  {
    var b := BaselineFor(m, material);
    match h
    case StringingFix => StringingRecipe(b, Supports(m, "ams"))
    case UnderExtrusionFix => UnderExtrusionRecipe(b, Supports(m, "idex") || Motion(m) == "IDEX")
    case RingingFix => RingingRecipe(b, Motion(m), Supports(m, "input_shaping"))
    case ResinPeelFix => Ok(ResinPeelRecipe(material))
    case CncChatterFix => Ok(CncChatterRecipe(m))
    case GeneralFix => Ok(GeneralRecipe(b))
  }

  /** On an FDM baseline every recipe exists, and the resin, CNC and general recipes exist everywhere. */
  lemma RecipeAvailability(m: Profile, material: string, h: Handler)
    requires Conforms(m)
    ensures !IsResinType(Get(m, "type")) && !IsCncType(Get(m, "type")) ==> RecipeFor(m, material, h).Ok?
    ensures h == ResinPeelFix || h == CncChatterFix || h == GeneralFix ==> RecipeFor(m, material, h).Ok?
  {
    if !IsResinType(Get(m, "type")) && !IsCncType(Get(m, "type")) {
      BaselineFdmTable(m, material);
    }
  }

  /** A baseline without a nozzle temperature or an acceleration fails the FDM recipes
      with the key they read first. */
  lemma MissingFdmKeys(b: Baseline, drying: bool, idex: bool, motion: string, inputShaping: bool)
    requires "nozzle_temp" !in b && "accel" !in b
    ensures StringingRecipe(b, drying) == Err(KeyError("nozzle_temp"))
    ensures UnderExtrusionRecipe(b, idex) == Err(KeyError("nozzle_temp"))
    ensures RingingRecipe(b, motion, inputShaping) == Err(KeyError("accel"))
  {
  }

  /** On a resin machine the FDM recipes fail on the first baseline key they read. */
  lemma ResinLacksFdmKeys(m: Profile, material: string)
    requires Conforms(m) && IsResinType(Get(m, "type"))
    ensures RecipeFor(m, material, StringingFix) == Err(KeyError("nozzle_temp"))
    ensures RecipeFor(m, material, UnderExtrusionFix) == Err(KeyError("nozzle_temp"))
    ensures RecipeFor(m, material, RingingFix) == Err(KeyError("accel"))
  {
    var b := BaselineFor(m, material);
    assert b == BaselineResin(material);
    MissingFdmKeys(b, Supports(m, "ams"), Supports(m, "idex") || Motion(m) == "IDEX", Motion(m), Supports(m, "input_shaping"));
  }

  lemma CncBaselineKeys(m: Profile)
    requires Conforms(m)
    ensures "nozzle_temp" !in BaselineCnc(m) && "accel" !in BaselineCnc(m)
  {
    assert "nozzle_temp"[0] != "spindle_rpm"[0];
  }

  /** On a CNC machine too. */
  lemma CncLacksFdmKeys(m: Profile, material: string)
    requires Conforms(m) && IsCncType(Get(m, "type"))
    ensures RecipeFor(m, material, StringingFix) == Err(KeyError("nozzle_temp"))
    ensures RecipeFor(m, material, UnderExtrusionFix) == Err(KeyError("nozzle_temp"))
    ensures RecipeFor(m, material, RingingFix) == Err(KeyError("accel"))
  {
    var b := BaselineFor(m, material);
    CncBaselineKeys(m);
    MissingFdmKeys(b, Supports(m, "ams"), Supports(m, "idex") || Motion(m) == "IDEX", Motion(m), Supports(m, "input_shaping"));
  }

  /** The stringing fix lowers the nozzle by 10, raises retraction by 1 mm and travel by 10 mm/s
      from the baseline, and recommends drying exactly when the machine cannot dry filament. */
  lemma StringingTargets(m: Profile, material: string)
    requires Conforms(m) && !IsResinType(Get(m, "type")) && !IsCncType(Get(m, "type"))
    ensures var b := BaselineFdm(m, material); var r := RecipeFor(m, material, StringingFix);
      && r.Ok? && |r.value.adjustments| == 4
      && r.value.adjustments[0].target == Some(b["nozzle_temp"] - 10.0)
      && r.value.adjustments[1].target == Some(b["retraction_distance"] + 1.0)
      && r.value.adjustments[2].target == Some(b["travel_speed"] + 10.0)
      && !r.value.adjustments[3].requiresClamp
      && r.value.adjustments[3].target == Some(if Supports(m, "ams") then 0.0 else 1.0)
  {
    BaselineFdmTable(m, material);
  }

  /** The ringing fix scales acceleration and jerk by 0.6 and 0.65 on a bed slinger and by 0.8 and 0.85 otherwise. */
  lemma RingingTargets(m: Profile, material: string)
    requires Conforms(m) && !IsResinType(Get(m, "type")) && !IsCncType(Get(m, "type"))
    ensures var b := BaselineFdm(m, material); var r := RecipeFor(m, material, RingingFix);
      && r.Ok? && |r.value.adjustments| == 3
      && r.value.adjustments[0].target == Some(b["accel"] * (if Motion(m) == "BedSlinger" then 0.6 else 0.8))
      && r.value.adjustments[1].target == Some(b["jerk"] * (if Motion(m) == "BedSlinger" then 0.65 else 0.85))
      && r.value.adjustments[2].target == Some(b["print_speed"] * 0.9)
  {
    BaselineFdmTable(m, material);
  }

  // ---------------------------------------------------------------------------
  // Building one suggestion

  /** The clamp inputs of `_build_suggestion`: `{param: target}` over the adjustments that
      need clamping and have a target, built as a dict (a later entry for a param replaces the value). */
  function ClampInputs(adjustments: seq<Adjustment>): (items: Items)
    ensures DistinctKeys(items)
  {
    if adjustments == [] then []
    else
      var init, a := adjustments[..|adjustments| - 1], adjustments[|adjustments| - 1];
      var rest := ClampInputs(init);
      if NeedsClamp(a) then Assign(rest, a.param, Float(a.target.value)) else rest
  }

  /** Some adjustment that needs clamping and has a target names `k`. */
  ghost predicate ClampedParam(adjustments: seq<Adjustment>, k: string) {
    exists j :: 0 <= j < |adjustments| && adjustments[j].param == k && NeedsClamp(adjustments[j])
  }

  predicate NeedsClamp(a: Adjustment) {
    a.requiresClamp && a.target.Some?
  }

  lemma ClampedParamSnoc(adjustments: seq<Adjustment>, k: string)
    requires adjustments != []
    ensures var n := |adjustments| - 1;
      ClampedParam(adjustments, k) <==>
        ClampedParam(adjustments[..n], k) || (adjustments[n].param == k && NeedsClamp(adjustments[n]))
  {
    var n := |adjustments| - 1;
    var init := adjustments[..n];
    if ClampedParam(init, k) {
      var j :| 0 <= j < |init| && init[j].param == k && NeedsClamp(init[j]);
      assert adjustments[j] == init[j];
    }
    if ClampedParam(adjustments, k) {
      var j :| 0 <= j < |adjustments| && adjustments[j].param == k && NeedsClamp(adjustments[j]);
      if j < n {
        assert init[j] == adjustments[j];
      }
    }
  }

  /** The clamp inputs name exactly the adjustments that need clamping and have a target. */
  lemma {:induction false} ClampInputsKeys(adjustments: seq<Adjustment>)
    ensures forall k :: k in KeysOf(ClampInputs(adjustments)) <==> ClampedParam(adjustments, k)
  {
    if adjustments != [] {
      var n := |adjustments| - 1;
      var init, a := adjustments[..n], adjustments[n];
      ClampInputsKeys(init);
      var keys := KeysOf(ClampInputs(adjustments));
      var rest := KeysOf(ClampInputs(init));
      assert keys == if NeedsClamp(a) then rest + {a.param} else rest;
      forall k ensures k in keys <==> ClampedParam(adjustments, k) {
        ClampedParamSnoc(adjustments, k);
      }
    }
  }


  /** The change one adjustment contributes, if any (`_build_suggestion`'s loop body). */
  function ChangeFor(a: Adjustment, clamped: map<string, Value>, base: Baseline): Option<SuggestionChange> {
    var present := if a.requiresClamp then a.param in clamped && !clamped[a.param].Null? else a.target.Some?;
    if !present then None
    else
      var target := if a.requiresClamp then Rules.ToFloat(clamped[a.param]) else a.target;
      var delta := if a.param in base && target.Some? then Some(target.value - base[a.param]) else None;
      Some(SuggestionChange(a.param, delta, a.unit, target, a.rangeHint))
  }

  /** A clamped adjustment yields a change only when its param survived the clamp, and then it
      carries the clamped value; any other adjustment yields one exactly when it has a target.
      The delta is taken against the machine-type baseline whenever that has the param. */
  lemma ChangeForFilters(a: Adjustment, clamped: map<string, Value>, base: Baseline)
    ensures var c := ChangeFor(a, clamped, base);
      && (a.requiresClamp && (a.param !in clamped || clamped[a.param].Null?) ==> c.None?)
      && (!a.requiresClamp ==> (c.Some? <==> a.target.Some?))
      && (a.requiresClamp && a.param in clamped && IsNumber(clamped[a.param]) ==>
            c.Some? && c.value.newTarget == Some(AsReal(clamped[a.param])))
      && (c.Some? ==> c.value.param == a.param && c.value.unit == a.unit && c.value.rangeHint == a.rangeHint)
      && (c.Some? && !a.requiresClamp ==> c.value.newTarget == a.target)
      && (c.Some? ==> (c.value.delta.Some? <==> a.param in base && c.value.newTarget.Some?))
      && (c.Some? && c.value.delta.Some? ==> c.value.delta.value == c.value.newTarget.value - base[a.param])
  {
  }

  /** The `changes` list, in adjustment order. */
  function Changes(adjustments: seq<Adjustment>, clamped: map<string, Value>, base: Baseline): (cs: seq<SuggestionChange>)
    ensures |cs| <= |adjustments|
  {
    if adjustments == [] then []
    else
      var init := Changes(adjustments[..|adjustments| - 1], clamped, base);
      match ChangeFor(adjustments[|adjustments| - 1], clamped, base)
      case Some(c) => init + [c]
      case None => init
  }

  lemma ChangesStep(adjustments: seq<Adjustment>, i: nat, clamped: map<string, Value>, base: Baseline)
    requires i < |adjustments|
    ensures Changes(adjustments[..i + 1], clamped, base) ==
      match ChangeFor(adjustments[i], clamped, base)
      case Some(c) => Changes(adjustments[..i], clamped, base) + [c]
      case None => Changes(adjustments[..i], clamped, base)
  {
    assert adjustments[..i + 1][..i] == adjustments[..i];
  }

  /** Every change comes from an adjustment, and every adjustment that yields a change is listed. */
  lemma {:induction false} ChangesFromAdjustments(adjustments: seq<Adjustment>, clamped: map<string, Value>, base: Baseline)
    ensures forall c :: c in Changes(adjustments, clamped, base) <==>
      exists j :: 0 <= j < |adjustments| && ChangeFor(adjustments[j], clamped, base) == Some(c)
  {
    if adjustments != [] {
      var init := adjustments[..|adjustments| - 1];
      ChangesFromAdjustments(init, clamped, base);
      assert forall j :: 0 <= j < |init| ==> init[j] == adjustments[j];
    }
  }

  /** The rationale: the recipe text, then the clamp explanations after the tier note, space-joined. */
  function Rationale(why: string, explanations: seq<Rules.Explanation>, fmt: real -> string): (r: string)
    ensures StartsWith(r, why)
    ensures |explanations| <= 1 <==> r == why
  {
    if |explanations| > 1 then
      assert (why + " " + ExplanationsText(explanations[1..], fmt))[..|why|] == why;
      why + " " + ExplanationsText(explanations[1..], fmt)
    else why
  }

  /** The explanations rendered and space-joined. */
  function ExplanationsText(es: seq<Rules.Explanation>, fmt: real -> string): string {
    Join(" ", seq(|es|, i requires 0 <= i < |es| => Rules.ExplanationText(es[i], fmt)))
  }

  /** `_build_suggestion(prediction, adjustments, ...)` */
  ghost function SuggestionSpec(m: Profile, material: string, experience: string, fmt: real -> string,
                                p: Prediction, r: Recipe): Suggestion
    requires Conforms(m)
  {
    var applied := Rules.ClampSpec(m, ClampInputs(r.adjustments), experience);
    Suggestion(p.issueId, Changes(r.adjustments, applied.parameters, BaselineFor(m, material)),
               Rationale(r.why, applied.explanations, fmt), r.risk, p.confidence,
               Some(r.beginnerNote), Some(r.advancedNote), Some(applied.clampedToMachineLimits))
  }

  lemma SuggestionIds(m: Profile, material: string, experience: string, fmt: real -> string,
                      p: Prediction, r: Recipe)
    requires Conforms(m)
    ensures SuggestionSpec(m, material, experience, fmt, p, r).issueId == p.issueId
    ensures SuggestionSpec(m, material, experience, fmt, p, r).confidence == p.confidence
  {
  }

  /** A suggestion copies the prediction's issue and confidence and the clamp's flag; its
      rationale is the recipe text followed by the clamp explanations after the tier note. */
  lemma SuggestionFields(m: Profile, material: string, experience: string, fmt: real -> string,
                         p: Prediction, r: Recipe)
    requires Conforms(m)
    ensures var s := SuggestionSpec(m, material, experience, fmt, p, r);
      var applied := Rules.ClampSpec(m, ClampInputs(r.adjustments), experience);
      && s.issueId == p.issueId && s.confidence == p.confidence && s.risk == r.risk
      && s.clampedToMachineLimits == Some(applied.clampedToMachineLimits)
      && s.beginnerNote == Some(r.beginnerNote) && s.advancedNote == Some(r.advancedNote)
      && s.why == (if applied.clampedToMachineLimits
                   then r.why + " " + ExplanationsText(applied.explanations[1..], fmt) else r.why)
  {
    Rules.ClampExplanations(m, ClampInputs(r.adjustments), experience);
  }

  /** Every clamped change of a suggestion carries a target inside the machine's bounds for that
      parameter: at most the tier-scaled maximum, and at least the minimum when that does not exceed it. */
  lemma ClampedChangesWithinBounds(m: Profile, material: string, experience: string, fmt: real -> string,
                                   p: Prediction, r: Recipe, j: nat)
    requires Conforms(m) && j < |r.adjustments| && r.adjustments[j].requiresClamp
    requires ChangeFor(r.adjustments[j], Rules.ClampSpec(m, ClampInputs(r.adjustments), experience).parameters,
                       BaselineFor(m, material)).Some?
    ensures var a := r.adjustments[j]; var inputs := ClampInputs(r.adjustments);
      var c := ChangeFor(a, Rules.ClampSpec(m, inputs, experience).parameters, BaselineFor(m, material)).value;
      var b := Rules.Bounds(m, a.param);
      var effMax := Rules.EffectiveMax(b.1, Rules.Settings(Rules.TierOf(experience)).maxFactor);
      && c in SuggestionSpec(m, material, experience, fmt, p, r).changes
      && c.newTarget.Some?
      && (b.1.Some? ==> c.newTarget.value <= effMax.value)
      && (b.0.Some? && (b.1.None? || b.0.value <= effMax.value) ==> b.0.value <= c.newTarget.value)
  {
    var a := r.adjustments[j];
    var inputs := ClampInputs(r.adjustments);
    var applied := Rules.ClampSpec(m, inputs, experience);
    ChangesFromAdjustments(r.adjustments, applied.parameters, BaselineFor(m, material));
    ChangeForFilters(a, applied.parameters, BaselineFor(m, material));
    var s := Rules.Settings(Rules.TierOf(experience));
    Rules.ClampItemsKeys(m, s, inputs);
    assert a.param in KeysOf(inputs);
    var i :| 0 <= i < |inputs| && inputs[i].0 == a.param;
    ClampInputsFloat(r.adjustments, i);
    Rules.ClampRespectsBounds(m, inputs, experience, i);
  }

  /** Every clamp input is a float. */
  lemma {:induction false} ClampInputsFloat(adjustments: seq<Adjustment>, i: nat)
    requires i < |ClampInputs(adjustments)|
    ensures ClampInputs(adjustments)[i].1.Float?
  {
    var items := ClampInputs(adjustments);
    AllFloat(adjustments);
  }

  lemma {:induction false} AllFloat(adjustments: seq<Adjustment>)
    ensures forall i :: 0 <= i < |ClampInputs(adjustments)| ==> ClampInputs(adjustments)[i].1.Float?
  {
    if adjustments != [] {
      var init, a := adjustments[..|adjustments| - 1], adjustments[|adjustments| - 1];
      AllFloat(init);
      var rest := ClampInputs(init);
      if a.requiresClamp && a.target.Some? {
        if a.param in KeysOf(rest) {
          AssignInPlace(rest, a.param, Float(a.target.value));
        }
      }
    }
  }

  lemma AssignInPlace(items: Items, k: string, v: Value)
    requires k in KeysOf(items)
    ensures forall i :: 0 <= i < |items| ==> Assign(items, k, v)[i] == (if items[i].0 == k then (k, v) else items[i])
  {
    ReplaceValueAt(items, k, v);
  }

  // ---------------------------------------------------------------------------
  // Planning over a list of predictions

  /** `plan`'s test: no predictions, or every one below 0.5. */
  predicate LowConfidence(ps: seq<Prediction>) {
    ps == [] || forall i :: 0 <= i < |ps| ==> ps[i].confidence < 0.5
  }

  /** What one prediction yields: the suggestion its handler's recipe builds, or the recipe's error. */
  ghost function SuggestOne(m: Profile, material: string, experience: string, fmt: real -> string,
                            p: Prediction): Result<Suggestion, PlanError>
    requires Conforms(m)
  {
    var recipe :- RecipeFor(m, material, HandlerFor(p.issueId));
    Ok(SuggestionSpec(m, material, experience, fmt, p, recipe))
  }

  /** A suggestion answers the prediction it was built for. */
  lemma SuggestOneIds(m: Profile, material: string, experience: string, fmt: real -> string, p: Prediction)
    requires Conforms(m)
    ensures var r := SuggestOne(m, material, experience, fmt, p);
      r.Ok? ==> r.value.issueId == p.issueId && r.value.confidence == p.confidence
  {
    var recipe := RecipeFor(m, material, HandlerFor(p.issueId));
    if recipe.Ok? {
      SuggestionIds(m, material, experience, fmt, p, recipe.value);
    }
  }

  ghost function Outcomes(m: Profile, material: string, experience: string, fmt: real -> string,
                          ps: seq<Prediction>): seq<Result<Suggestion, PlanError>>
    requires Conforms(m)
  {
    seq(|ps|, i requires 0 <= i < |ps| => SuggestOne(m, material, experience, fmt, ps[i]))
  }

  /** The suggestions for the given predictions, in order; the first failing recipe ends the plan. */
  ghost function SuggestAll(m: Profile, material: string, experience: string, fmt: real -> string,
                            ps: seq<Prediction>): Result<seq<Suggestion>, PlanError>
    requires Conforms(m)
  {
    AllOk(Outcomes(m, material, experience, fmt, ps))
  }

  /** `plan(predictions)`: the suggestions and the low-confidence flag. */
  ghost function PlanSpec(m: Profile, material: string, experience: string, fmt: real -> string,
                          ps: seq<Prediction>): Result<(seq<Suggestion>, bool), PlanError>
    requires Conforms(m)
  {
    if LowConfidence(ps) then
      Ok(([SuggestionSpec(m, material, experience, fmt, Prediction("general_tuning", 0.45),
                          GeneralRecipe(BaselineFor(m, material)))], true))
    else
      var all :- SuggestAll(m, material, experience, fmt, ps);
      Ok((all, false))
  }

  /** With no prediction, or none at 0.5 or above, the plan is one general-tuning suggestion
      at confidence 0.45, flagged low-confidence. */
  lemma PlanLowConfidence(m: Profile, material: string, experience: string, fmt: real -> string, ps: seq<Prediction>)
    requires Conforms(m) && LowConfidence(ps)
    ensures var r := PlanSpec(m, material, experience, fmt, ps);
      r.Ok? && |r.value.0| == 1 && r.value.0[0].issueId == "general_tuning" && r.value.0[0].confidence == 0.45
      && r.value.1
  {
    SuggestionFields(m, material, experience, fmt, Prediction("general_tuning", 0.45), GeneralRecipe(BaselineFor(m, material)));
  }

  /** Otherwise there is one suggestion per prediction, in order, copying issue and confidence,
      and the flag is false; on a machine with an FDM baseline the plan never fails. */
  lemma PlanPerPrediction(m: Profile, material: string, experience: string, fmt: real -> string, ps: seq<Prediction>)
    requires Conforms(m) && !LowConfidence(ps)
    ensures var r := PlanSpec(m, material, experience, fmt, ps);
      && (r.Ok? ==> |r.value.0| == |ps| && !r.value.1
                    && forall i :: 0 <= i < |ps| ==>
                         r.value.0[i].issueId == ps[i].issueId && r.value.0[i].confidence == ps[i].confidence)
      && (!IsResinType(Get(m, "type")) && !IsCncType(Get(m, "type")) ==> r.Ok?)
  {
    SuggestAllShape(m, material, experience, fmt, ps);
    if !IsResinType(Get(m, "type")) && !IsCncType(Get(m, "type")) {
      SuggestAllFdm(m, material, experience, fmt, ps);
    }
  }

  /** One suggestion per prediction, in order, copying issue and confidence. */
  lemma SuggestAllShape(m: Profile, material: string, experience: string, fmt: real -> string,
                        ps: seq<Prediction>)
    requires Conforms(m)
    ensures var r := SuggestAll(m, material, experience, fmt, ps);
      r.Ok? ==> |r.value| == |ps| && forall i :: 0 <= i < |ps| ==>
        r.value[i].issueId == ps[i].issueId && r.value[i].confidence == ps[i].confidence
  {
    var outs := Outcomes(m, material, experience, fmt, ps);
    AllOkShape(outs);
    forall i | 0 <= i < |ps|
      ensures outs[i].Ok? ==> outs[i].value.issueId == ps[i].issueId && outs[i].value.confidence == ps[i].confidence
    {
      SuggestOneIds(m, material, experience, fmt, ps[i]);
    }
  }

  /** On a machine with an FDM baseline every recipe exists, so the plan never fails. */
  lemma SuggestAllFdm(m: Profile, material: string, experience: string, fmt: real -> string,
                      ps: seq<Prediction>)
    requires Conforms(m) && !IsResinType(Get(m, "type")) && !IsCncType(Get(m, "type"))
    ensures SuggestAll(m, material, experience, fmt, ps).Ok?
  {
    var outs := Outcomes(m, material, experience, fmt, ps);
    AllOkShape(outs);
    forall i | 0 <= i < |ps| ensures outs[i].Ok? {
      RecipeAvailability(m, material, HandlerFor(ps[i].issueId));
    }
  }

  /** A prediction fails exactly when its handler's recipe fails, and with the recipe's error. */
  lemma SuggestOneError(m: Profile, material: string, experience: string, fmt: real -> string, p: Prediction)
    requires Conforms(m)
    ensures var r := SuggestOne(m, material, experience, fmt, p);
      var recipe := RecipeFor(m, material, HandlerFor(p.issueId));
      && (r.Err? <==> recipe.Err?)
      && (r.Err? ==> r.error == recipe.error)
  {
  }

  /** A failed plan fails with the error of the first prediction that fails. */
  lemma SuggestAllFirstError(m: Profile, material: string, experience: string, fmt: real -> string,
                             ps: seq<Prediction>)
    requires Conforms(m) && SuggestAll(m, material, experience, fmt, ps).Err?
    ensures exists j :: (0 <= j < |ps|
      && SuggestOne(m, material, experience, fmt, ps[j]) == Err(SuggestAll(m, material, experience, fmt, ps).error)
      && forall k :: 0 <= k < j ==> SuggestOne(m, material, experience, fmt, ps[k]).Ok?)
  {
    var outs := Outcomes(m, material, experience, fmt, ps);
    AllOkFirstError(outs);
    var j :| 0 <= j < |outs| && outs[j] == Err(AllOk(outs).error) && forall k :: 0 <= k < j ==> outs[k].Ok?;
    assert SuggestAll(m, material, experience, fmt, ps) == AllOk(outs);
    forall k | 0 <= k < |ps| ensures outs[k] == SuggestOne(m, material, experience, fmt, ps[k]) {
    }
  }

  // ---------------------------------------------------------------------------
  // The planner object

  /** `meta.material or "PLA"`, upper-cased. */
  function MaterialOf(meta: AnalyzeRequestMeta): string {
    Upper(if meta.material.Some? && meta.material.value != "" then meta.material.value else "PLA")
  }

  /** `meta.experience or "Intermediate"` */
  function ExperienceOf(meta: AnalyzeRequestMeta): (e: string)
    ensures meta.experience != "" ==> e == meta.experience
    ensures meta.experience == "" ==> e == "Intermediate"
  {
    if meta.experience != "" then meta.experience else "Intermediate"
  }

  /** `SuggestionPlanner`. Machine resolution happens before construction: the planner is
      given the profile `resolve_machine(meta.machine_id)` returned. */
  class SuggestionPlanner {
    const meta: AnalyzeRequestMeta
    const machine: Profile
    const material: string
    const experience: string
    const supports: map<string, Value>
    const motion: string
    const enclosed: bool
    /** How the clamp explanations render a float. */
    const fmt: real -> string
    var baselineCache: Option<Baseline>

    /** The cache, once filled, holds the baseline of the machine and material. */
    ghost predicate Valid()
      reads this
    {
      && Conforms(machine)
      && material == MaterialOf(meta)
      && experience == ExperienceOf(meta)
      && motion == Motion(machine)
      && supports == DictOr(Get(machine, "supports"))
      && enclosed == Enclosed(machine)
      && (baselineCache.Some? ==> baselineCache.value == BaselineFor(machine, material))
    }

    constructor (meta: AnalyzeRequestMeta, machine: Profile, fmt: real -> string)
      requires Conforms(machine)
      ensures Valid()
      ensures this.meta == meta && this.machine == machine && this.fmt == fmt
      ensures supports == DictOr(Get(machine, "supports")) && enclosed == Enclosed(machine)
      ensures baselineCache == None
    {
      this.meta := meta;
      this.machine := machine;
      this.material := MaterialOf(meta);
      this.experience := ExperienceOf(meta);
      this.supports := DictOr(Get(machine, "supports"));
      this.motion := Motion(machine);
      this.enclosed := Enclosed(machine);
      this.fmt := fmt;
      this.baselineCache := None;
    }

    /** `_baseline`: computed on first use, then served from the cache. */
    method GetBaseline() returns (b: Baseline)
      requires Valid()
      modifies this
      ensures Valid()
      ensures b == BaselineFor(machine, material) && baselineCache == Some(b)
      ensures old(baselineCache).Some? ==> b == old(baselineCache).value
    {
      if baselineCache.Some? {
        return baselineCache.value;
      }
      var machineType := Get(machine, "type");
      if IsResinType(machineType) {
        b := BaselineResin(material);
      } else if IsCncType(machineType) {
        b := BaselineCnc(machine);
      } else {
        b := BaselineFdm(machine, material);
      }
      baselineCache := Some(b);
    }

    /** `_stringing`'s recipe. */
    method Stringing() returns (r: Result<Recipe, PlanError>)
      requires Valid()
      modifies this
      ensures Valid()
      ensures r == RecipeFor(machine, material, StringingFix)
    {
      var b := GetBaseline();
      r := StringingRecipe(b, Truthy(Get(supports, "ams")));
    }

    /** `_under_extrusion`'s recipe. */
    method UnderExtrusion() returns (r: Result<Recipe, PlanError>)
      requires Valid()
      modifies this
      ensures Valid()
      ensures r == RecipeFor(machine, material, UnderExtrusionFix)
    {
      var b := GetBaseline();
      r := UnderExtrusionRecipe(b, Truthy(Get(supports, "idex")) || motion == "IDEX");
    }

    /** `_ringing`'s recipe. */
    method Ringing() returns (r: Result<Recipe, PlanError>)
      requires Valid()
      modifies this
      ensures Valid()
      ensures r == RecipeFor(machine, material, RingingFix)
    {
      var b := GetBaseline();
      r := RingingRecipe(b, motion, Truthy(Get(supports, "input_shaping")));
    }

    /** `_general_best_practice`'s recipe. */
    method General() returns (r: Recipe)
      requires Valid()
      modifies this
      ensures Valid()
      ensures r == GeneralRecipe(BaselineFor(machine, material))
    {
      var b := GetBaseline();
      r := GeneralRecipe(b);
    }

    /** The recipe of a handler; the resin and CNC handlers read their own baselines
        directly, not the cached one. */
    method Recipe(h: Handler) returns (r: Result<Recipe, PlanError>)
      requires Valid()
      modifies this
      ensures Valid()
      ensures r == RecipeFor(machine, material, h)
    {
      match h
      case StringingFix => r := Stringing();
      case UnderExtrusionFix => r := UnderExtrusion();
      case RingingFix => r := Ringing();
      case ResinPeelFix => r := Ok(ResinPeelRecipe(material));
      case CncChatterFix => r := Ok(CncChatterRecipe(machine));
      case GeneralFix =>
        var g := General();
        r := Ok(g);
    }

    /** One pass of `_build_suggestion`'s loop: the change an adjustment contributes, if any. */
    method ChangeOf(a: Adjustment, clamped: map<string, Value>) returns (c: Option<SuggestionChange>)
      requires Valid()
      modifies this
      ensures Valid()
      ensures c == ChangeFor(a, clamped, BaselineFor(machine, material))
    {
      if a.requiresClamp && a.param !in clamped {
        return None;
      }
      if (a.requiresClamp && clamped[a.param].Null?) || (!a.requiresClamp && a.target.None?) {
        return None;
      }
      var baseline := GetBaseline();
      c := ChangeFor(a, clamped, baseline);
    }

    /** The loop of `_build_suggestion`: one change per adjustment that survives the clamp. */
    method ChangesOf(adjustments: seq<Adjustment>, clamped: map<string, Value>) returns (changes: seq<SuggestionChange>)
      requires Valid()
      modifies this
      ensures Valid()
      ensures changes == Changes(adjustments, clamped, BaselineFor(machine, material))
    {
      changes := [];
      var i := 0;
      while i < |adjustments|
        invariant 0 <= i <= |adjustments|
        invariant Valid()
        invariant changes == Changes(adjustments[..i], clamped, BaselineFor(machine, material))
      {
        var c := ChangeOf(adjustments[i], clamped);
        ChangesStep(adjustments, i, clamped, BaselineFor(machine, material));
        if c.Some? {
          changes := changes + [c.value];
        }
        i := i + 1;
      }
      assert adjustments[..i] == adjustments;
    }

    /** `_build_suggestion` */
    method BuildSuggestion(prediction: Prediction, recipe: Recipe) returns (s: Suggestion)
      requires Valid()
      modifies this
      ensures Valid()
      ensures s == SuggestionSpec(machine, material, experience, fmt, prediction, recipe)
    {
      var applied := Rules.ClampToMachine(machine, ClampInputs(recipe.adjustments), experience);
      var changes := ChangesOf(recipe.adjustments, applied.parameters);
      s := Suggestion(prediction.issueId, changes, Rationale(recipe.why, applied.explanations, fmt), recipe.risk,
                      prediction.confidence, Some(recipe.beginnerNote), Some(recipe.advancedNote),
                      Some(applied.clampedToMachineLimits));
    }

    /** The handler `_handler_for_issue` picks, applied to the prediction. */
    method Handle(prediction: Prediction) returns (r: Result<Suggestion, PlanError>)
      requires Valid()
      modifies this
      ensures Valid()
      ensures r == SuggestOne(machine, material, experience, fmt, prediction)
    {
      var handler := HandlerFor(prediction.issueId);
      var recipe := Recipe(handler);
      if recipe.Err? {
        return Err(recipe.error);
      }
      var s := BuildSuggestion(prediction, recipe.value);
      r := Ok(s);
    }

    /** The loop of `plan`: each prediction through its handler, in order. */
    method SuggestEach(predictions: seq<Prediction>) returns (r: Result<seq<Suggestion>, PlanError>)
      requires Valid()
      modifies this
      ensures Valid()
      ensures r == SuggestAll(machine, material, experience, fmt, predictions)
    {
      ghost var outs := Outcomes(machine, material, experience, fmt, predictions);
      var suggestions: seq<Suggestion> := [];
      var i := 0;
      while i < |predictions|
        invariant 0 <= i <= |predictions|
        invariant Valid()
        invariant AllOk(outs[..i]) == Ok(suggestions)
      {
        var suggestion := Handle(predictions[i]);
        AllOkStep(outs, i);
        if suggestion.Err? {
          AllOkKeepsError(outs, i + 1);
          return Err(suggestion.error);
        }
        suggestions := suggestions + [suggestion.value];
        i := i + 1;
      }
      assert outs[..i] == outs;
      r := Ok(suggestions);
    }

    /** `_general_best_practice(fallback)` for the low-confidence plan. */
    method Fallback() returns (s: Suggestion)
      requires Valid()
      modifies this
      ensures Valid()
      ensures s == SuggestionSpec(machine, material, experience, fmt, Prediction("general_tuning", 0.45),
                                  GeneralRecipe(BaselineFor(machine, material)))
    {
      var recipe := General();
      s := BuildSuggestion(Prediction("general_tuning", 0.45), recipe);
    }

    /** `plan(predictions)` */
    method Plan(predictions: seq<Prediction>) returns (r: Result<(seq<Suggestion>, bool), PlanError>)
      requires Valid()
      modifies this
      ensures Valid()
      ensures r == PlanSpec(machine, material, experience, fmt, predictions)
    {
      var lowConfidence := predictions != [] && forall i :: 0 <= i < |predictions| ==> predictions[i].confidence < 0.5;
      if predictions == [] {
        lowConfidence := true;
      }
      if lowConfidence {
        var s := Fallback();
        return Ok(([s], true));
      }
      var all := SuggestEach(predictions);
      if all.Err? {
        return Err(all.error);
      }
      r := Ok((all.value, lowConfidence));
    }
  }

  /** `suggest(predictions, meta)`, given the resolved machine profile. */
  method SuggestFor(predictions: seq<Prediction>, meta: AnalyzeRequestMeta, machine: Profile, fmt: real -> string)
    returns (r: Result<(seq<Suggestion>, bool), PlanError>)
    requires Conforms(machine)
    ensures r == PlanSpec(machine, MaterialOf(meta), ExperienceOf(meta), fmt, predictions)
  {
    var planner := new SuggestionPlanner(meta, machine, fmt);
    r := planner.Plan(predictions);
  }
}
