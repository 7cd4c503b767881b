/** The inference facade: deterministic stub predictions rotated by a seed, the
    post-processing of a backend's class probabilities, and per-prediction explanations
    from the issue taxonomy. Hashing, model loading and the tensor pipeline are inputs. */
module Inference {
  import opened Values
  import opened Api
  import Sorting

  /** The fallback issue list when the taxonomy names no issues. */
  const GeneralTuning: string := "general_tuning"

  /** The cue list an explanation carries for one prediction. */
  datatype Explanation = Explanation(issueId: string, cues: Value)

  /** `ordering[index:] + ordering[:index]` with `index = seed % len(ordering)`. */
  function Rotate<T>(s: seq<T>, seed: nat): (r: seq<T>)
  {
    if s == [] then [] else s[seed % |s|..] + s[..seed % |s|]
  }

  /** The rotation keeps every element with its multiplicity; with `k = seed % n` it starts
      at element `k` and wraps around to element 0 after the last one. */
  lemma RotatePermutes<T>(s: seq<T>, seed: nat)
    ensures multiset(Rotate(s, seed)) == multiset(s)
    ensures |Rotate(s, seed)| == |s|
    ensures s != [] ==> var k := seed % |s|;
      && (forall i :: 0 <= i < |s| - k ==> Rotate(s, seed)[i] == s[i + k])
      && (forall i :: |s| - k <= i < |s| ==> Rotate(s, seed)[i] == s[i + k - |s|])
  {
    if s != [] {
      var k := seed % |s|;
      assert s == s[..k] + s[k..];
    }
  }

  /** One value of `_confidence_sequence`: `max(0.1, min(0.95, 0.75 - idx * 0.18 + base))`. */
  function ConfidenceAt(seed: nat, idx: nat): real {
    var raw := 0.75 - (idx as real) * 0.18 + ((seed % 30) as real) / 100.0;
    var capped := if 0.95 <= raw then 0.95 else raw;
    if 0.1 >= capped then 0.1 else capped
  }

  /** The scores lie in [0.1, 0.95] and never increase along the sequence. */
  lemma ConfidenceBounds(seed: nat, i: nat, j: nat)
    requires i <= j
    ensures 0.1 <= ConfidenceAt(seed, i) <= 0.95
    ensures ConfidenceAt(seed, j) <= ConfidenceAt(seed, i)
  {
    assert (i as real) * 0.18 <= (j as real) * 0.18;
  }

  /** `_confidence_sequence(seed, count)`: the generator's values, one per index. */
  method ConfidenceSequence(seed: nat, count: nat) returns (scores: seq<real>)
    ensures |scores| == count
    ensures forall i :: 0 <= i < count ==> scores[i] == ConfidenceAt(seed, i)
  {
    var base := ((seed % 30) as real) / 100.0;
    scores := [];
    for idx := 0 to count
      invariant |scores| == idx
      invariant forall i :: 0 <= i < idx ==> scores[i] == ConfidenceAt(seed, i)
    {
      var raw := 0.75 - (idx as real) * 0.18 + base;
      var confidence := if 0.1 >= (if 0.95 <= raw then 0.95 else raw) then 0.1 else (if 0.95 <= raw then 0.95 else raw);
      scores := scores + [confidence];
    }
  }

  /** `sorted(predictions, key=confidence, reverse=True)`: stable, so ties keep their order. */
  predicate ConfidenceNotLower(a: Prediction, b: Prediction) {
    a.confidence >= b.confidence
  }

  lemma ConfidenceOrder()
    ensures Sorting.TotalPreorder(ConfidenceNotLower)
  {
  }

  /** The probabilities `_predict_with_torch` keeps from index `idx` on: it stops at the
      first index without an issue id and skips scores below 0.05. */
  function KeptFrom(issueIds: seq<string>, probabilities: seq<real>, idx: nat): (r: seq<Prediction>)
    decreases |probabilities| - idx
  {
    if idx >= |probabilities| || idx >= |issueIds| then []
    else if probabilities[idx] < 0.05 then KeptFrom(issueIds, probabilities, idx + 1)
    else [Prediction(issueIds[idx], probabilities[idx])] + KeptFrom(issueIds, probabilities, idx + 1)
  }

  /** A prediction is kept exactly when its index has an issue id and a score of at least 0.05. */
  lemma {:induction false} KeptFromMembers(issueIds: seq<string>, probabilities: seq<real>, idx: nat, p: Prediction)
    ensures p in KeptFrom(issueIds, probabilities, idx) <==>
      exists j :: idx <= j < |probabilities| && j < |issueIds| && probabilities[j] >= 0.05
        && p == Prediction(issueIds[j], probabilities[j])
    decreases |probabilities| - idx
  {
    if idx < |probabilities| && idx < |issueIds| {
      KeptFromMembers(issueIds, probabilities, idx + 1, p);
    }
  }

  /** `_predict_with_torch` after the probabilities: the kept predictions, or the first issue
      at 0.4 when none is kept, sorted by descending confidence. */
  function PostProcessed(issueIds: seq<string>, probabilities: seq<real>): seq<Prediction>
    requires issueIds != []
  {
    var kept := KeptFrom(issueIds, probabilities, 0);
    Sorting.Sort(if kept == [] then [Prediction(issueIds[0], 0.4)] else kept, ConfidenceNotLower)
  }

  /** The result is never empty, is in descending order of confidence, and holds the kept
      predictions (or the fallback alone) with their multiplicities. */
  lemma PostProcessedSpec(issueIds: seq<string>, probabilities: seq<real>)
    requires issueIds != []
    ensures var r := PostProcessed(issueIds, probabilities); var kept := KeptFrom(issueIds, probabilities, 0);
      && r != []
      && Sorting.SortedBy(r, ConfidenceNotLower)
      && (kept != [] ==> multiset(r) == multiset(kept))
      && (kept == [] ==> r == [Prediction(issueIds[0], 0.4)])
  {
    var kept := KeptFrom(issueIds, probabilities, 0);
    var input := if kept == [] then [Prediction(issueIds[0], 0.4)] else kept;
    ConfidenceOrder();
    Sorting.SortIsSorted(input, ConfidenceNotLower);
  }

  /** For probabilities in [0, 1] every entry is a valid prediction of a known issue. */
  lemma PostProcessedValid(issueIds: seq<string>, probabilities: seq<real>)
    requires issueIds != []
    requires forall i :: 0 <= i < |probabilities| ==> 0.0 <= probabilities[i] <= 1.0
    ensures var r := PostProcessed(issueIds, probabilities);
      forall i :: 0 <= i < |r| ==> ValidPrediction(r[i]) && r[i].issueId in issueIds
  {
    var kept := KeptFrom(issueIds, probabilities, 0);
    var input := if kept == [] then [Prediction(issueIds[0], 0.4)] else kept;
    var r := PostProcessed(issueIds, probabilities);
    Sorting.SortMembers(input, ConfidenceNotLower);
    forall i | 0 <= i < |r| ensures ValidPrediction(r[i]) && r[i].issueId in issueIds {
      assert r[i] in input;
      if kept != [] {
        KeptFromMembers(issueIds, probabilities, 0, r[i]);
      }
    }
  }

  /** The taxonomy issue ids and their entries, in the taxonomy's order. */
  class InferenceEngine {
    const issueIds: seq<string>
    const taxonomyIssues: map<string, Value>

    predicate Valid() {
      issueIds != []
    }

    /** `__init__`: the taxonomy's issue ids, or just "general_tuning" when it names none.
        `issueKeys` is `list(issues.keys())`: each key of the issues once, in the taxonomy's order. */
    constructor (issueKeys: seq<string>, taxonomyIssues: map<string, Value>)
      requires forall k :: k in issueKeys <==> k in taxonomyIssues
      requires forall i, j :: 0 <= i < j < |issueKeys| ==> issueKeys[i] != issueKeys[j]
      ensures Valid()
      ensures issueKeys != [] ==> issueIds == issueKeys
      ensures issueKeys == [] ==> issueIds == [GeneralTuning]
      ensures this.taxonomyIssues == taxonomyIssues
    {
      issueIds := if issueKeys != [] then issueKeys else [GeneralTuning];
      this.taxonomyIssues := taxonomyIssues;
    }

    /** `_predict_stub`: the issue ids rotated by the seed, paired with the confidence
        sequence, at most three of them. */
    method PredictStub(seed: nat) returns (predictions: seq<Prediction>)
      requires Valid()
      ensures |predictions| == (if |issueIds| < 3 then |issueIds| else 3)
      ensures forall i :: 0 <= i < |predictions| ==>
        predictions[i] == Prediction(Rotate(issueIds, seed)[i], ConfidenceAt(seed, i)) && ValidPrediction(predictions[i])
    {
      var ordering := issueIds;
      if ordering != [] {
        var index := seed % |ordering|;
        ordering := ordering[index..] + ordering[..index];
      }
      var scores := ConfidenceSequence(seed, |ordering|);
      var n := if |ordering| < 3 then |ordering| else 3;
      predictions := seq(n, i requires 0 <= i < n => Prediction(ordering[i], scores[i]));
      forall i | 0 <= i < n ensures ValidPrediction(predictions[i]) {
        ConfidenceBounds(seed, i, i);
      }
    }

    /** The post-processing of `_predict_with_torch`: keeps the scores of at least 0.05 for
        known issues, falls back to the first issue at 0.4, and sorts by descending confidence. */
    method PostProcess(probabilities: seq<real>) returns (predictions: seq<Prediction>)
      requires Valid()
      requires forall i :: 0 <= i < |probabilities| ==> 0.0 <= probabilities[i] <= 1.0
      ensures predictions == PostProcessed(issueIds, probabilities)
    {
      var collected: seq<Prediction> := [];
      var idx := 0;
      while idx < |probabilities|
        invariant 0 <= idx <= |probabilities|
        invariant collected + KeptFrom(issueIds, probabilities, idx) == KeptFrom(issueIds, probabilities, 0)
      {
        if idx >= |issueIds| {
          break;
        }
        var confidence := probabilities[idx];
        if confidence < 0.05 {
          idx := idx + 1;
          continue;
        }
        collected := collected + [Prediction(issueIds[idx], confidence)];
        idx := idx + 1;
      }
      assert KeptFrom(issueIds, probabilities, idx) == [];
      assert collected == KeptFrom(issueIds, probabilities, 0);
      if collected == [] {
        collected := collected + [Prediction(issueIds[0], 0.4)];
      }
      predictions := Sorting.Sort(collected, ConfidenceNotLower);
    }

    /** The taxonomy lists truthy cues for the issue. */
    predicate ListsCues(issueId: string) {
      && issueId in taxonomyIssues
      && taxonomyIssues[issueId].Dict?
      && "cues" in taxonomyIssues[issueId].entries
      && Truthy(taxonomyIssues[issueId].entries["cues"])
    }

    /** The cue lookup of `_build_explanations` for one issue: `taxonomy.get(issue_id, {})`
        is `{}` for an issue the taxonomy does not list, and `.get("cues") or []` gives the
        entry's truthy cues or []. An entry that is not a dict has no `.get`: the lookup
        raises AttributeError, modelled as an error naming the issue. */
    function CuesFor(issueId: string): (r: Result<Value, string>)
      ensures r.Err? <==> issueId in taxonomyIssues && !taxonomyIssues[issueId].Dict?
      ensures r.Err? ==> r.error == issueId
      ensures r.Ok? && ListsCues(issueId) ==> r.value == taxonomyIssues[issueId].entries["cues"]
      ensures r.Ok? && !ListsCues(issueId) ==> r.value == List([])
    {
      if issueId !in taxonomyIssues then Ok(List([]))
      else if !taxonomyIssues[issueId].Dict? then Err(issueId)
      else Ok(Or(Get(taxonomyIssues[issueId].entries, "cues"), List([])))
    }

    /** `predict`: the backend's probabilities when a model is loaded, the stub otherwise,
        with one explanation per prediction. An `Err` explanation result means the call
        raises the AttributeError of `_build_explanations` instead of returning. */
    method Predict(seed: nat, probabilities: Option<seq<real>>) returns (predictions: seq<Prediction>, explanations: Result<seq<Explanation>, string>)
      requires Valid()
      requires probabilities.Some? ==> forall i :: 0 <= i < |probabilities.value| ==> 0.0 <= probabilities.value[i] <= 1.0
      ensures probabilities.Some? ==> predictions == PostProcessed(issueIds, probabilities.value)
      ensures probabilities.None? ==> (|predictions| == (if |issueIds| < 3 then |issueIds| else 3)
        && forall i :: 0 <= i < |predictions| ==> predictions[i] == Prediction(Rotate(issueIds, seed)[i], ConfidenceAt(seed, i)))
      ensures explanations.Err? <==> exists i :: 0 <= i < |predictions| && CuesFor(predictions[i].issueId).Err?
      ensures explanations.Err? ==> exists i ::
        && 0 <= i < |predictions|
        && CuesFor(predictions[i].issueId).Err?
        && explanations.error == predictions[i].issueId
        && forall j :: 0 <= j < i ==> CuesFor(predictions[j].issueId).Ok?
      ensures explanations.Ok? ==> |explanations.value| == |predictions|
      ensures explanations.Ok? ==> forall i :: 0 <= i < |predictions| ==>
        explanations.value[i] == Explanation(predictions[i].issueId, CuesFor(predictions[i].issueId).value)
    {
      if probabilities.Some? {
        predictions := PostProcess(probabilities.value);
      } else {
        predictions := PredictStub(seed);
      }
      explanations := BuildExplanations(predictions);
    }

    /** `_build_explanations`: one explanation per prediction, in order, or the AttributeError
        of the first prediction whose taxonomy entry is not a dict. */
    method BuildExplanations(predictions: seq<Prediction>) returns (result: Result<seq<Explanation>, string>)
      ensures result.Err? <==> exists i :: 0 <= i < |predictions| && CuesFor(predictions[i].issueId).Err?
      ensures result.Err? ==> exists i ::
        && 0 <= i < |predictions|
        && CuesFor(predictions[i].issueId).Err?
        && result.error == predictions[i].issueId
        && forall j :: 0 <= j < i ==> CuesFor(predictions[j].issueId).Ok?
      ensures result.Ok? ==> |result.value| == |predictions|
      ensures result.Ok? ==> forall i :: 0 <= i < |predictions| ==>
        result.value[i] == Explanation(predictions[i].issueId, CuesFor(predictions[i].issueId).value)
    {
      var explained: seq<Explanation> := [];
      for i := 0 to |predictions|
        invariant |explained| == i
        invariant forall j :: 0 <= j < i ==> CuesFor(predictions[j].issueId).Ok?
        invariant forall j :: 0 <= j < i ==> explained[j] == Explanation(predictions[j].issueId, CuesFor(predictions[j].issueId).value)
      {
        var cues := CuesFor(predictions[i].issueId);
        if cues.Err? {
          return Err(cues.error);
        }
        explained := explained + [Explanation(predictions[i].issueId, cues.value)];
      }
      result := Ok(explained);
    }
  }
}
