/** Defect localisation heuristics: boxes and a heatmap derived from hash digests of the
    image key and the predicted issues. The digests are inputs of the model. */
module Localize {
  import opened Values
  import opened Api

  type Byte = b: int | 0 <= b < 256

  /** The four leading bytes of a SHA-256 digest, the only ones a box reads. */
  datatype Digest = Digest(b0: Byte, b1: Byte, b2: Byte, b3: Byte)

  /** `_clamp(value, min_value, max_value)`: `max(lo, min(hi, value))`. */
  function Clamp(value: real, lo: real, hi: real): (r: real)
    ensures lo <= hi ==> lo <= r <= hi
    ensures lo <= value <= hi ==> r == value
    ensures value < lo ==> r == lo
    ensures lo <= hi < value ==> r == hi
  {
    var inner := if hi <= value then hi else value;
    if lo >= inner then lo else inner
  }

  datatype LocalizationConfig = LocalizationConfig(heatmapSize: int, maxBoxes: int)

  /** `LocalizationConfig()`: 256-pixel heatmaps and at most three boxes. */
  const DefaultConfig: LocalizationConfig := LocalizationConfig(256, 3)

  /** `predictions[:k]` has `PySliceEnd(n, k)` elements: a negative bound counts from the end. */
  function PySliceEnd(n: nat, k: int): (r: nat)
    ensures r <= n
    ensures k >= 0 ==> r == (if k < n then k else n)
  {
    if k >= 0 then (if k < n then k else n) else if n + k >= 0 then n + k else 0
  }

  /** A byte scaled to the unit interval. */
  function Unit(b: Byte): (r: real)
    ensures 0.0 <= r <= 1.0
  {
    (b as real) / 255.0
  }

  lemma MulNonNegative(a: real, b: real)
    requires 0.0 <= a && 0.0 <= b
    ensures 0.0 <= a * b
  {
  }

  /** A size `lo + u * span` for `u` in the unit interval, clamped to it. */
  function Extent(u: real, lo: real, span: real): (r: real)
    requires 0.0 <= u <= 1.0 && 0.0 <= lo && 0.0 <= span && lo + span <= 1.0
    ensures lo <= r <= lo + span
  {
    assert 0.0 <= u * span <= span;
    Clamp(lo + u * span, 0.0, 1.0)
  }

  /** A corner `u * (1 - size)` for `u` in the unit interval, clamped to it: the room the size leaves. */
  function Corner(u: real, size: real): (r: real)
    requires 0.0 <= u <= 1.0 && 0.0 <= size <= 1.0
    ensures 0.0 <= r && r + size <= 1.0
  {
    var room := 1.0 - size;
    MulNonNegative(u, room);
    MulNonNegative(1.0 - u, room);
    assert u * room == room - (1.0 - u) * room;
    Clamp(u * (1.0 - size), 0.0, 1.0)
  }

  /** The box geometry of `_build_boxes` for one digest, as (x, y, width, height): width and
      height from bytes 2 and 3, the corner from bytes 0 and 1. */
  function BoxGeometry(d: Digest): (g: (real, real, real, real))
  {
    var width := Extent(Unit(d.b2), 0.25, 0.45);
    var height := Extent(Unit(d.b3), 0.2, 0.5);
    (Corner(Unit(d.b0), width), Corner(Unit(d.b1), height), width, height)
  }

  /** The width lies in [0.25, 0.70] and the height in [0.20, 0.70], and the box stays inside
      the unit square. */
  lemma BoxGeometryBounds(d: Digest)
    ensures var g := BoxGeometry(d);
      && 0.25 <= g.2 <= 0.70 && 0.2 <= g.3 <= 0.70
      && 0.0 <= g.0 && 0.0 <= g.1
      && g.0 + g.2 <= 1.0 && g.1 + g.3 <= 1.0
  {
  }

  function BoxFor(p: Prediction, d: Digest): BoundingBox {
    var g := BoxGeometry(d);
    BoundingBox(p.issueId, p.confidence, g.0, g.1, g.2, g.3)
  }

  /** `_build_boxes`: one box per prediction among the first `max_boxes`, each made from the
      digest of the image key, the issue and the index; `digestOf` stands for that hash. */
  method BuildBoxes(config: LocalizationConfig, imageKey: string, predictions: seq<Prediction>,
                    digestOf: (string, string, nat) -> Digest)
    returns (boxes: seq<BoundingBox>)
    requires forall i :: 0 <= i < |predictions| ==> ValidPrediction(predictions[i])
    ensures |boxes| == PySliceEnd(|predictions|, config.maxBoxes)
    ensures forall i :: 0 <= i < |boxes| ==>
      boxes[i] == BoxFor(predictions[i], digestOf(imageKey, predictions[i].issueId, i)) && ValidBox(boxes[i])
  {
    var selected := predictions[..PySliceEnd(|predictions|, config.maxBoxes)];
    boxes := [];
    for index := 0 to |selected|
      invariant |boxes| == index
      invariant forall i :: 0 <= i < index ==>
        boxes[i] == BoxFor(predictions[i], digestOf(imageKey, predictions[i].issueId, i)) && ValidBox(boxes[i])
    {
      var prediction := selected[index];
      var digest := digestOf(imageKey, prediction.issueId, index);
      var g := BoxGeometry(digest);
      BoxGeometryBounds(digest);
      var box := MakeBox(prediction.issueId, prediction.confidence, g.0, g.1, g.2, g.3);
      boxes := boxes + [box.value];
    }
  }

  /** `_build_heatmap`: nothing without predictions, otherwise a square overlay of the
      configured size whose data URL `render` builds from the image key and the top issue. */
  function BuildHeatmap(config: LocalizationConfig, imageKey: string, predictions: seq<Prediction>,
                        render: (string, string) -> string): (h: Option<HeatmapPayload>)
    ensures h.None? <==> predictions == []
    ensures h.Some? ==> (ValidHeatmap(h.value) && h.value.width == config.heatmapSize
      && h.value.height == config.heatmapSize && h.value.dataUrl == render(imageKey, predictions[0].issueId))
  {
    if predictions == [] then None
    else Some(HeatmapPayload("svg", config.heatmapSize, config.heatmapSize, render(imageKey, predictions[0].issueId)))
  }

  /** `localize`: the boxes and the heatmap together. */
  method Localize(config: LocalizationConfig, imageKey: string, predictions: seq<Prediction>,
                  digestOf: (string, string, nat) -> Digest, render: (string, string) -> string)
    returns (payload: LocalizationPayload)
    requires forall i :: 0 <= i < |predictions| ==> ValidPrediction(predictions[i])
    ensures |payload.boxes| == PySliceEnd(|predictions|, config.maxBoxes)
    ensures forall i :: 0 <= i < |payload.boxes| ==> (ValidBox(payload.boxes[i])
      && payload.boxes[i].issueId == predictions[i].issueId && payload.boxes[i].confidence == predictions[i].confidence)
    ensures payload.heatmap == BuildHeatmap(config, imageKey, predictions, render)
  {
    var boxes := BuildBoxes(config, imageKey, predictions, digestOf);
    payload := LocalizationPayload(boxes, BuildHeatmap(config, imageKey, predictions, render));
  }
}
