/** The heuristic diagnostic pipeline: resolves the reported issue from a request payload
    and derives a parameter table for the machine type, with issue-specific modifiers. */
module Pipeline {
  import opened Values
  import opened Text
  import opened Machines
  import Suggest

  /** The pipeline's own prediction record. */
  datatype Prediction = Prediction(
    issue: string, confidence: real, recommendations: seq<string>,
    parameterTargets: map<string, real>, capabilityNotes: seq<string>)

  /** What one machine-type branch returns: targets, recommendations and capability notes. */
  datatype Outcome = Outcome(targets: map<string, real>, recommendations: seq<string>, notes: seq<string>)

  /** Iterating `payload["issues"]` fails: it is None, a bool or a number. */
  datatype PipelineError = NotIterable

  const GeneralTuning: string := "general_tuning"

  // ---- issue resolution ------------------------------------------------------------

  /** `str(v)`: textual values as Python renders them, any other value (a float, a list, a
      dict) through `repr`, which stands for Python's own rendering of it. */
  function Render(v: Value, repr: Value -> string): (r: string)
    ensures IsTextual(v) ==> r == PyStr(v)
    ensures !IsTextual(v) ==> r == repr(v)
  {
    if IsTextual(v) then PyStr(v) else repr(v)
  }

  /** The first truthy issue, or "general_tuning". */
  function FirstIssue(issues: seq<Value>, repr: Value -> string): string {
    if issues == [] then GeneralTuning
    else if Truthy(issues[0]) then Render(issues[0], repr)
    else FirstIssue(issues[1..], repr)
  }

  /** The resolved issue is the text of the first truthy item when there is one, and
      "general_tuning" exactly when there is none. */
  lemma {:induction false} FirstIssueSpec(issues: seq<Value>, repr: Value -> string)
    ensures (forall i :: 0 <= i < |issues| ==> !Truthy(issues[i])) ==> FirstIssue(issues, repr) == GeneralTuning
    ensures forall j :: (0 <= j < |issues| && Truthy(issues[j]) && (forall i :: 0 <= i < j ==> !Truthy(issues[i]))
      ==> FirstIssue(issues, repr) == Render(issues[j], repr))
  {
    if issues != [] {
      FirstIssueSpec(issues[1..], repr);
      assert forall i :: 1 <= i < |issues| ==> issues[1..][i - 1] == issues[i];
    }
  }

  /** `_resolve_issue`: returns at the first truthy item. */
  method ResolveIssue(issues: seq<Value>, repr: Value -> string) returns (issue: string)
    ensures issue == FirstIssue(issues, repr)
  {
    var i := 0;
    while i < |issues|
      invariant 0 <= i <= |issues|
      invariant FirstIssue(issues[i..], repr) == FirstIssue(issues, repr)
    {
      assert issues[i..][1..] == issues[i + 1..];
      if Truthy(issues[i]) {
        return Render(issues[i], repr);
      }
      i := i + 1;
    }
    assert issues[i..] == [];
    return GeneralTuning;
  }

  /** `payload.get("issues", [])` as an iterable: a list gives its items, a string its
      one-character strings and a dict its keys, in the insertion order `order` gives (a
      model map does not record it). */
  function IssueItems(payload: map<string, Value>, order: map<string, Value> -> seq<string>)
    : (r: Result<seq<Value>, PipelineError>)
    ensures r.Err? <==> "issues" in payload && !payload["issues"].List? && !payload["issues"].Str?
                        && !payload["issues"].Dict?
    ensures "issues" !in payload ==> r == Ok([])
    ensures "issues" in payload && payload["issues"].List? ==> r == Ok(payload["issues"].items)
    ensures "issues" in payload && payload["issues"].Str? ==>
      r.Ok? && |r.value| == |payload["issues"].s|
      && forall i :: 0 <= i < |r.value| ==> r.value[i] == Str([payload["issues"].s[i]])
    ensures "issues" in payload && payload["issues"].Dict? ==>
      var keys := order(payload["issues"].entries);
      r.Ok? && |r.value| == |keys| && forall i :: 0 <= i < |r.value| ==> r.value[i] == Str(keys[i])
  {
    if "issues" !in payload then Ok([])
    else match payload["issues"]
      case List(xs) => Ok(xs)
      case Str(s) => Ok(seq(|s|, i requires 0 <= i < |s| => Str([s[i]])))
      case Dict(d) =>
        var keys := order(d);
        Ok(seq(|keys|, i requires 0 <= i < |keys| => Str(keys[i])))
      case _ => Err(NotIterable)
  }

  /** Issues given as a dict resolve to its first non-empty key, in insertion order. */
  lemma DictIssuesFirstKey(payload: map<string, Value>, order: map<string, Value> -> seq<string>,
                           repr: Value -> string, j: nat)
    requires "issues" in payload && payload["issues"].Dict?
    requires var keys := order(payload["issues"].entries);
      j < |keys| && keys[j] != [] && forall i :: 0 <= i < j ==> keys[i] == []
    ensures IssueItems(payload, order).Ok?
    ensures FirstIssue(IssueItems(payload, order).value, repr) == order(payload["issues"].entries)[j]
  {
    var items := IssueItems(payload, order).value;
    FirstIssueSpec(items, repr);
    assert Truthy(items[j]);
  }

  /** `str(payload.get("material") or "PLA").upper()` */
  function PayloadMaterial(payload: map<string, Value>, repr: Value -> string): (r: string)
    ensures !Truthy(Get(payload, "material")) ==> r == "PLA"
    ensures "material" in payload && payload["material"].Str? && payload["material"].s != [] ==>
      r == Upper(payload["material"].s)
  {
    Upper(Render(Or(Get(payload, "material"), Str("PLA")), repr))
  }

  // ---- FDM ---------------------------------------------------------------------------

  // The issue and rigidity words the branches test for.
  const RingingWord: string := "ringing"
  const UnderExtrusionWord: string := "underextrusion"
  const PeelWord: string := "peel"
  const ChatterWord: string := "chatter"
  const IndustrialWord: string := "industrial"

  const MotionNotePrefix: string := "Motion system: "
  const InputShapingNote: string := "Input shaping allows higher acceleration targets."
  const EnclosureNote: string := "Enclosure enables stable ambient temperatures."
  const AbsNote: string := "ABS on enclosed printers supports higher bed temps and low fan."
  const BeltsRec: string := "Verify belts and rails are tensioned before applying aggressive speed changes."
  const LevellingRec: string := "Re-run auto bed levelling after major temperature changes."
  const BedSlingerRingingRec: string := "Reduce acceleration on bedslingers to minimize ringing."
  const FrameRingingRec: string := "CoreXY machines handle ringing with moderate accel reductions."
  const UnderExtrusionRec: string := "Check filament path friction and consider a slight flow increase."

  predicate IsRinging(issue: string) {
    Contains(Lower(issue), RingingWord)
  }

  /** The ringing modifier: a bed slinger scales acceleration by 0.6 and jerk by 0.7, any
      other motion system scales acceleration by 0.85 only. */
  function RingingScaled(accel: real, jerk: real, motion: string, ringing: bool): (real, real) {
    if !ringing then (accel, jerk)
    else if motion == "BedSlinger" then (accel * 0.6, jerk * 0.7)
    else (accel * 0.85, jerk)
  }

  /** The FDM targets: the shared FDM table with the ringing modifier and a flow rate of 100. */
  function FdmTargets(m: Profile, material: string, issue: string): map<string, real>
    requires Conforms(m)
  {
    var t := FdmDefaults(m, material);
    var scaled := RingingScaled(t.accel, t.jerk, Motion(m), IsRinging(issue));
    TargetTable(t, scaled.0, scaled.1)
  }

  /** The targets dict of `_predict_fdm` for a table and the acceleration and jerk in force. */
  function TargetTable(t: FdmTable, accel: real, jerk: real): map<string, real> {
    map["nozzle_temp" := t.nozzle, "bed_temp" := t.bed, "print_speed" := t.printSpeed,
        "travel_speed" := t.travelSpeed, "accel" := accel, "jerk" := jerk, "fan_speed" := t.fan,
        "flow_rate" := 100.0, "retraction_distance" := t.retraction]
  }

  function FdmNotes(m: Profile, material: string): seq<string>
    requires Conforms(m)
  {
    [MotionNotePrefix + Motion(m)]
      + (if Supports(m, "input_shaping") then [InputShapingNote] else [])
      + (if Enclosed(m) then [EnclosureNote] else [])
      + (if material == "ABS" && Enclosed(m) then [AbsNote] else [])
  }

  function FdmRecommendations(motion: string, issue: string): seq<string> {
    [BeltsRec, LevellingRec]
      + (if IsRinging(issue) then [if motion == "BedSlinger" then BedSlingerRingingRec else FrameRingingRec] else [])
      + (if Contains(Lower(issue), UnderExtrusionWord) then [UnderExtrusionRec] else [])
  }

  function FdmOutcome(m: Profile, material: string, issue: string): Outcome
    requires Conforms(m)
  {
    Outcome(FdmTargets(m, material, issue), FdmRecommendations(Motion(m), issue), FdmNotes(m, material))
  }

  /** The starting table of `_predict_fdm`: preset midpoints, the motion-system speeds,
      and the bed and fan reassigned for ABS on an enclosed machine. */
  method FdmStart(material: string, m: Profile) returns (t: FdmTable)
    requires Conforms(m)
    ensures t == FdmDefaults(m, material)
  {
    var preset := MaterialPreset(m, material);
    var nozzle := Midpoint(Get(preset, "nozzle_c"), 210.0);
    var bed := Midpoint(Get(preset, "bed_c"), 60.0);
    var fan := Midpoint(Get(preset, "fan_pct"), 70.0);
    var motion := Motion(m);
    var fast := motion == "CoreXY" || motion == "H-Bot";
    if material == "ABS" && Enclosed(m) {
      bed := Min(bed + 10.0, AsReal(Or(Get(m, "max_bed_temp_c"), Float(bed))));
      fan := Min(fan, 15.0);
    }
    t := FdmTable(nozzle, bed, fan, if fast then 120.0 else 90.0, if fast then 150.0 else 120.0,
                  if Supports(m, "input_shaping") then 5000.0 else 3000.0, if fast then 12.0 else 8.0,
                  if Supports(m, "ams") then 0.8 else 0.6);
  }

  /** The capability notes of `_predict_fdm`, appended one condition at a time. */
  method FdmCapabilityNotes(material: string, m: Profile) returns (notes: seq<string>)
    requires Conforms(m)
    ensures notes == FdmNotes(m, material)
  {
    notes := [MotionNotePrefix + Motion(m)];
    if Supports(m, "input_shaping") {
      notes := notes + [InputShapingNote];
    }
    if Enclosed(m) {
      notes := notes + [EnclosureNote];
    }
    if material == "ABS" && Enclosed(m) {
      notes := notes + [AbsNote];
    }
  }

  /** The ringing branch of `_predict_fdm`: the acceleration and jerk reassigned and the
      recommendation that goes with the motion system. */
  method RingingModifier(accel: real, jerk: real, motion: string, ringing: bool)
    returns (a: real, j: real, recs: seq<string>)
    ensures (a, j) == RingingScaled(accel, jerk, motion, ringing)
    ensures recs == if ringing then [if motion == "BedSlinger" then BedSlingerRingingRec else FrameRingingRec] else []
  {
    a, j, recs := accel, jerk, [];
    if ringing {
      if motion == "BedSlinger" {
        a := a * 0.6;
        j := j * 0.7;
        recs := [BedSlingerRingingRec];
      } else {
        a := a * 0.85;
        recs := [FrameRingingRec];
      }
    }
  }

  /** `_predict_fdm`: the starting table, then the acceleration and jerk reassigned for a
      ringing issue, and the recommendations appended for ringing and under-extrusion. */
  method PredictFdm(material: string, issue: string, m: Profile) returns (o: Outcome)
    requires Conforms(m)
    ensures o == FdmOutcome(m, material, issue)
  {
    var t := FdmStart(material, m);
    var notes := FdmCapabilityNotes(material, m);
    var motion := Motion(m);
    var lowered := Lower(issue);
    var accel, jerk, ringingRecs := RingingModifier(t.accel, t.jerk, motion, Contains(lowered, RingingWord));
    var recs := [BeltsRec, LevellingRec] + ringingRecs;
    if Contains(lowered, UnderExtrusionWord) {
      recs := recs + [UnderExtrusionRec];
    }
    var targets := TargetTable(t, accel, jerk);
    o := Outcome(targets, recs, notes);
  }

  /** Without a ringing issue the FDM targets are the suggestion planner's FDM baseline; with
      one only the acceleration and jerk differ, by the motion system's factors. */
  lemma FdmTargetsMatchBaseline(m: Profile, material: string, issue: string)
    requires Conforms(m)
    ensures var t := FdmTargets(m, material, issue); var b := Suggest.BaselineFdm(m, material);
      && t.Keys == b.Keys
      && (forall k :: k in t && k != "accel" && k != "jerk" ==> t[k] == b[k])
      && (!IsRinging(issue) ==> t == b)
      && (IsRinging(issue) && Motion(m) == "BedSlinger" ==> t["accel"] == 0.6 * b["accel"] && t["jerk"] == 0.7 * b["jerk"])
      && (IsRinging(issue) && Motion(m) != "BedSlinger" ==> t["accel"] == 0.85 * b["accel"] && t["jerk"] == b["jerk"])
  {
    Suggest.BaselineFdmTable(m, material);
  }

  // ---- resin -------------------------------------------------------------------------

  const VatRec: string := "Ensure the vat film is clean before printing."
  const AgitateRec: string := "Agitate resin vats periodically to maintain consistency."
  const PeelRec: string := "Slow the lift speed to reduce peel forces."
  const ResinNote: string := "Resin printer assumes mid-volume MSLA profile."

  function MslaOutcome(material: string, issue: string): Outcome {
    var peel := Contains(Lower(issue), PeelWord);
    Outcome(
      map["exposure_time" := if StartsWith(material, "RESIN") then 2.5 else 2.0,
          "lift_speed" := if peel then 60.0 * 0.8 else 60.0],
      [VatRec, AgitateRec] + (if peel then [PeelRec] else []),
      [ResinNote])
  }

  /** `_predict_msla` */
  method PredictMsla(material: string, issue: string) returns (o: Outcome)
    ensures o == MslaOutcome(material, issue)
    ensures o.targets.Keys == {"exposure_time", "lift_speed"}
    ensures o.targets["exposure_time"] == (if StartsWith(material, "RESIN") then 2.5 else 2.0)
    ensures o.targets["lift_speed"] == (if Contains(Lower(issue), PeelWord) then 48.0 else 60.0)
  {
    var exposure := if StartsWith(material, "RESIN") then 2.5 else 2.0;
    var liftSpeed := 60.0;
    var recs := [VatRec, AgitateRec];
    if Contains(Lower(issue), PeelWord) {
      liftSpeed := liftSpeed * 0.8;
      recs := recs + [PeelRec];
    }
    o := Outcome(map["exposure_time" := exposure, "lift_speed" := liftSpeed], recs, [ResinNote]);
  }

  // ---- CNC ---------------------------------------------------------------------------

  const WorkholdingRec: string := "Check workholding rigidity before increasing DOC."
  const ClimbRec: string := "Use climb milling for finishing passes when possible."
  const ChatterRec: string := "Reduce feed and DOC to mitigate chatter."
  const RigidityNotePrefix: string := "Rigidity class: "

  /** The feed before the chatter modifier: the maximum feed, but at most half the spindle mean. */
  function CncFeed(m: Profile): real
    requires Conforms(m)
  {
    Min(MaxFeed(m), Mean(SpindleRange(m)) * 0.5)
  }

  /** The depth of cut before the chatter modifier: a case-sensitive substring test on the
      rigidity class, unlike the planner's. */
  function CncDepth(m: Profile): real
    requires Conforms(m)
  {
    if Contains(Rigidity(m), IndustrialWord) then 2.0 else 1.2
  }

  function CncOutcome(m: Profile, issue: string): Outcome
    requires Conforms(m)
  {
    var chatter := Contains(Lower(issue), ChatterWord);
    Outcome(
      map["spindle_rpm" := Mean(SpindleRange(m)),
          "feed_rate" := if chatter then CncFeed(m) * 0.8 else CncFeed(m),
          "doc" := if chatter then CncDepth(m) * 0.7 else CncDepth(m),
          "stepover" := 40.0],
      [WorkholdingRec, ClimbRec] + (if chatter then [ChatterRec] else []),
      [RigidityNotePrefix + Rigidity(m)])
  }

  /** The starting values of `_predict_cnc`: the spindle mean, the capped feed and the
      rigidity depth of cut. */
  method CncStart(m: Profile) returns (spindle: real, feedRate: real, doc: real)
    requires Conforms(m)
    ensures spindle == Mean(SpindleRange(m)) && feedRate == CncFeed(m) && doc == CncDepth(m)
  {
    var rigidity := Rigidity(m);
    var spindleRange := SpindleRange(m);
    spindle := Mean(spindleRange);
    feedRate := Min(MaxFeed(m), spindle * 0.5);
    doc := if Contains(rigidity, IndustrialWord) then 2.0 else 1.2;
  }

  /** `_predict_cnc`: the starting values, then the feed and depth of cut reassigned for chatter. */
  method PredictCnc(issue: string, m: Profile) returns (o: Outcome)
    requires Conforms(m)
    ensures o == CncOutcome(m, issue)
  {
    var spindle, feedRate, doc := CncStart(m);
    var recs := [WorkholdingRec, ClimbRec];
    if Contains(Lower(issue), ChatterWord) {
      feedRate := feedRate * 0.8;
      doc := doc * 0.7;
      recs := recs + [ChatterRec];
    }
    o := Outcome(map["spindle_rpm" := spindle, "feed_rate" := feedRate, "doc" := doc, "stepover" := 40.0],
                 recs, [RigidityNotePrefix + Rigidity(m)]);
  }

  /** The CNC feed never exceeds the machine's maximum feed nor half the spindle speed, and
      the chatter modifier only lowers the feed and the depth of cut. */
  lemma CncLimits(m: Profile, issue: string)
    requires Conforms(m)
    requires MaxFeed(m) >= 0.0
    requires forall i :: 0 <= i < |SpindleRange(m)| ==> AsReal(SpindleRange(m)[i]) >= 0.0
    ensures var t := CncOutcome(m, issue).targets;
      && t.Keys == {"spindle_rpm", "feed_rate", "doc", "stepover"}
      && 0.0 <= t["feed_rate"] <= CncFeed(m) && CncFeed(m) <= MaxFeed(m)
      && CncFeed(m) <= t["spindle_rpm"] * 0.5
      && t["doc"] <= CncDepth(m) && (CncDepth(m) == 2.0 <==> Contains(Rigidity(m), IndustrialWord))
      && (Contains(Lower(issue), ChatterWord) <==> t["doc"] < CncDepth(m))
  {
    var rng := SpindleRange(m);
    MeanBounds(rng, 0.0, AsReal(rng[0]) + Sum(rng) + 1.0) by {
      SumNonNegative(rng);
      forall i | 0 <= i < |rng| ensures AsReal(rng[i]) <= AsReal(rng[0]) + Sum(rng) + 1.0 {
        SumAtLeastElement(rng, i);
      }
    }
  }

  lemma {:induction false} SumNonNegative(xs: seq<Value>)
    requires forall i :: 0 <= i < |xs| ==> IsNumber(xs[i]) && AsReal(xs[i]) >= 0.0
    ensures Sum(xs) >= 0.0
  {
    if xs != [] {
      SumNonNegative(xs[..|xs| - 1]);
    }
  }

  lemma {:induction false} SumAtLeastElement(xs: seq<Value>, i: nat)
    requires i < |xs|
    requires forall j :: 0 <= j < |xs| ==> IsNumber(xs[j]) && AsReal(xs[j]) >= 0.0
    ensures AsReal(xs[i]) <= Sum(xs)
  {
    var init := xs[..|xs| - 1];
    if i == |xs| - 1 {
      SumNonNegative(init);
    } else {
      SumAtLeastElement(init, i);
    }
  }

  // ---- predict -----------------------------------------------------------------------

  /** The branch `predict` takes: exactly "FDM", then "MSLA"/"SLA", and CNC for anything else. */
  function BranchOutcome(m: Profile, material: string, issue: string): Outcome
    requires Conforms(m)
  {
    var t := Get(m, "type");
    if t == Str("FDM") then FdmOutcome(m, material, issue)
    else if Suggest.IsResinType(t) then MslaOutcome(material, issue)
    else CncOutcome(m, issue)
  }

  function Confidence(issue: string): real {
    if issue != GeneralTuning then 0.75 else 0.6
  }

  ghost function PredictSpec(payload: map<string, Value>, m: Profile, order: map<string, Value> -> seq<string>,
                             repr: Value -> string): Result<Prediction, PipelineError>
    requires Conforms(m)
  {
    var issues :- IssueItems(payload, order);
    var issue := FirstIssue(issues, repr);
    Ok(PredictionFor(issue, BranchOutcome(m, PayloadMaterial(payload, repr), issue)))
  }

  /** The prediction for a resolved issue and the outcome of its branch. */
  function PredictionFor(issue: string, o: Outcome): Prediction {
    Prediction(issue, Confidence(issue), o.recommendations, o.targets, o.notes)
  }

  /** The machine-type dispatch of `predict`. */
  method Branch(material: string, issue: string, m: Profile) returns (o: Outcome)
    requires Conforms(m)
    ensures o == BranchOutcome(m, material, issue)
  {
    var t := Get(m, "type");
    if t == Str("FDM") {
      o := PredictFdm(material, issue, m);
    } else if t == Str("MSLA") || t == Str("SLA") {
      o := PredictMsla(material, issue);
    } else {
      o := PredictCnc(issue, m);
    }
  }

  /** `DiagnosticPipeline.predict` */
  method Predict(payload: map<string, Value>, m: Profile, order: map<string, Value> -> seq<string>,
                 repr: Value -> string) returns (r: Result<Prediction, PipelineError>)
    requires Conforms(m)
    ensures r == PredictSpec(payload, m, order, repr)
  {
    var items := IssueItems(payload, order);
    if items.Err? {
      return Err(NotIterable);
    }
    var issue := ResolveIssue(items.value, repr);
    var material := PayloadMaterial(payload, repr);
    var o := Branch(material, issue, m);
    var prediction := Assemble(issue, o);
    r := Ok(prediction);
  }

  /** The prediction `predict` returns for the resolved issue and the branch's outcome: the
      notes are copied into a fresh list. */
  method Assemble(issue: string, o: Outcome) returns (p: Prediction)
    ensures p == PredictionFor(issue, o)
  {
    var notes := [];
    notes := notes + o.notes;
    assert notes == o.notes;
    var confidence := if issue != GeneralTuning then 0.75 else 0.6;
    p := Prediction(issue, confidence, o.recommendations, o.targets, notes);
  }

  /** The prediction fails only when the issues cannot be iterated; otherwise it carries the
      resolved issue, a confidence of 0.6 exactly for "general_tuning" and 0.75 otherwise,
      and the outcome of the branch for the machine type. */
  lemma PredictFields(payload: map<string, Value>, m: Profile, order: map<string, Value> -> seq<string>,
                      repr: Value -> string)
    requires Conforms(m)
    ensures var r := PredictSpec(payload, m, order, repr);
      && (r.Err? <==> "issues" in payload && !payload["issues"].List? && !payload["issues"].Str?
                      && !payload["issues"].Dict?)
      && (r.Ok? ==> var issue := FirstIssue(IssueItems(payload, order).value, repr);
           && r.value.issue == issue
           && (r.value.confidence == 0.6 <==> issue == GeneralTuning)
           && (r.value.confidence == 0.75 <==> issue != GeneralTuning)
           && r.value.parameterTargets == BranchOutcome(m, PayloadMaterial(payload, repr), issue).targets)
  {
  }

  /** A payload without issues resolves to "general_tuning" with confidence 0.6. */
  lemma NoIssuesGeneral(payload: map<string, Value>, m: Profile, order: map<string, Value> -> seq<string>,
                        repr: Value -> string)
    requires Conforms(m) && "issues" !in payload
    ensures PredictSpec(payload, m, order, repr).Ok?
    ensures PredictSpec(payload, m, order, repr).value.issue == GeneralTuning
    ensures PredictSpec(payload, m, order, repr).value.confidence == 0.6
  {
  }

  /** Only type "FDM" reaches the FDM table; resin types get the two resin parameters and
      every other type, a missing one included, the four CNC parameters. */
  lemma BranchKeys(m: Profile, material: string, issue: string)
    requires Conforms(m)
    ensures var t := Get(m, "type"); var keys := BranchOutcome(m, material, issue).targets.Keys;
      && (t == Str("FDM") ==> keys == Suggest.FdmKeys)
      && (Suggest.IsResinType(t) ==> keys == {"exposure_time", "lift_speed"})
      && (t != Str("FDM") && !Suggest.IsResinType(t) ==> keys == {"spindle_rpm", "feed_rate", "doc", "stepover"})
  {
    if Get(m, "type") == Str("FDM") {
      Suggest.BaselineFdmTable(m, material);
      FdmTargetsMatchBaseline(m, material, issue);
    }
  }
}
