/** The records exchanged between the API layer and the inference code. Fields with a
    declared range get a validity predicate, and the records that validate their input
    on construction get a constructor function that rejects an out-of-range value. */
module Api {
  import opened Values

  /** The metadata posted with an image. */
  datatype AnalyzeRequestMeta = AnalyzeRequestMeta(
    machineId: string,
    experience: string,
    material: Option<string>,
    baseProfile: Option<map<string, real>>,
    appVersion: Option<string>)

  /** `AnalyzeRequestMeta(machine_id=..., experience=...)`: the two required fields; the rest default to None. */
  function NewMeta(machineId: string, experience: string): (m: AnalyzeRequestMeta)
    ensures m.machineId == machineId && m.experience == experience
    ensures m.material.None? && m.baseProfile.None? && m.appVersion.None?
  {
    AnalyzeRequestMeta(machineId, experience, None, None, None)
  }

  /** A pydantic validation failure: the field whose value is out of range. */
  datatype ValidationError = OutOfRange(field: string)

  predicate InUnit(x: real) {
    0.0 <= x <= 1.0
  }

  datatype Prediction = Prediction(issueId: string, confidence: real)

  predicate ValidPrediction(p: Prediction) {
    InUnit(p.confidence)
  }

  /** `Prediction(issue_id=..., confidence=...)`, which rejects a confidence outside [0, 1]. */
  function MakePrediction(issueId: string, confidence: real): (r: Result<Prediction, ValidationError>)
    ensures r.Ok? <==> InUnit(confidence)
    ensures r.Ok? ==> ValidPrediction(r.value) && r.value.issueId == issueId && r.value.confidence == confidence
    ensures r.Err? ==> r.error == OutOfRange("confidence")
  {
    if InUnit(confidence) then Ok(Prediction(issueId, confidence)) else Err(OutOfRange("confidence"))
  }

  /** A box in image coordinates normalised to the unit square. */
  datatype BoundingBox = BoundingBox(issueId: string, confidence: real, x: real, y: real, width: real, height: real)

  predicate ValidBox(b: BoundingBox) {
    InUnit(b.confidence) && InUnit(b.x) && InUnit(b.y) && 0.0 < b.width <= 1.0 && 0.0 < b.height <= 1.0
  }

  /** `BoundingBox(...)`: the first field out of range, in declaration order, is reported. */
  function MakeBox(issueId: string, confidence: real, x: real, y: real, width: real, height: real)
    : (r: Result<BoundingBox, ValidationError>)
    ensures r.Ok? <==> ValidBox(BoundingBox(issueId, confidence, x, y, width, height))
    ensures r.Ok? ==> r.value == BoundingBox(issueId, confidence, x, y, width, height)
    ensures r.Err? && !InUnit(confidence) ==> r.error == OutOfRange("confidence")
  {
    if !InUnit(confidence) then Err(OutOfRange("confidence"))
    else if !InUnit(x) then Err(OutOfRange("x"))
    else if !InUnit(y) then Err(OutOfRange("y"))
    else if !(0.0 < width <= 1.0) then Err(OutOfRange("width"))
    else if !(0.0 < height <= 1.0) then Err(OutOfRange("height"))
    else Ok(BoundingBox(issueId, confidence, x, y, width, height))
  }

  datatype HeatmapPayload = HeatmapPayload(encoding: string, width: int, height: int, dataUrl: string)

  /** The encoding is the literal "svg". */
  predicate ValidHeatmap(h: HeatmapPayload) {
    h.encoding == "svg"
  }

  /** `HeatmapPayload(data_url=...)`: svg, 256 by 256. */
  function NewHeatmap(dataUrl: string): (h: HeatmapPayload)
    ensures ValidHeatmap(h) && h.width == 256 && h.height == 256 && h.dataUrl == dataUrl
  {
    HeatmapPayload("svg", 256, 256, dataUrl)
  }

  /** The boxes and the optional heatmap of one image. */
  datatype LocalizationPayload = LocalizationPayload(boxes: seq<BoundingBox>, heatmap: Option<HeatmapPayload>)

  datatype SuggestionChange = SuggestionChange(
    param: string,
    delta: Option<real>,
    unit: Option<string>,
    newTarget: Option<real>,
    rangeHint: Option<(real, real)>)

  /** `SuggestionChange(param=...)`: only the name is required. */
  function NewChange(param: string): (c: SuggestionChange)
    ensures c.param == param && c.delta.None? && c.unit.None? && c.newTarget.None? && c.rangeHint.None?
  {
    SuggestionChange(param, None, None, None, None)
  }

  datatype Suggestion = Suggestion(
    issueId: string,
    changes: seq<SuggestionChange>,
    why: string,
    risk: string,
    confidence: real,
    beginnerNote: Option<string>,
    advancedNote: Option<string>,
    clampedToMachineLimits: Option<bool>)

  /** `Suggestion(...)` with the required fields: no notes, and not clamped. */
  function NewSuggestion(issueId: string, changes: seq<SuggestionChange>, why: string, risk: string, confidence: real)
    : (s: Suggestion)
    ensures s.issueId == issueId && s.changes == changes && s.why == why && s.risk == risk && s.confidence == confidence
    ensures s.beginnerNote.None? && s.advancedNote.None? && s.clampedToMachineLimits == Some(false)
  {
    Suggestion(issueId, changes, why, risk, confidence, None, None, Some(false))
  }

  datatype AppliedClamp = AppliedClamp(
    parameters: map<string, real>,
    hiddenParameters: seq<string>,
    experienceLevel: string,
    clampedToMachineLimits: bool,
    explanations: seq<string>)
}
