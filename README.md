# Diagnostics parameter decisions, modelled in Dafny

The diagnostics server takes an image of a failed print (or a machined part), predicts the
defects it shows, and answers with slicer parameter changes that are safe for the machine,
the material and the user's experience level. This project models the parameter-decision
layer of that server, and the small parsers and transforms around it, and proves what
they promise:

- `rules.dfy` (`Rules`): the clamp engine. It filters parameters by the experience tier's
  allow-list. It clamps each value to the machine's bounds, scaling the maximum by the tier
  factor. It records the hidden names, the explanations and the clamped flag.
- `suggest.dfy` (`Suggest`): the suggestion planner. It covers the low-confidence fallback,
  the substring dispatch, the baseline tables cached per machine type, the recipes, and
  changes filtered against the clamp with their deltas.
- `pipeline.dfy` (`Pipeline`): the heuristic per-type parameter tables with issue modifiers.
- `localize.dfy` (`Localize`) and `inference.dfy` (`Inference`): boxes from digest bytes,
  the heatmap size, the stub predictor's rotation and confidence schedule, the
  post-processing of backend probabilities, and the explanations.
- `yaml.dfy` (`MiniYaml`) and `schema.dfy` (`Schema`): the YAML subset reader and the
  JSON-Schema subset validator used by the machine catalogue scripts.
- `diff.dfy` (`SlicerDiff`), `export.dfy` (`Export`) and `build_machines.dfy`
  (`BuildMachines`): the suggestion diff, the slicer profile export and the family merge of
  machine entries.
- `registry.dfy` (`Registry`): the machine indexes and identifier resolution.
- `rate_limit.dfy` (`RateLimit`): the sliding-window rate limiter.
- `settings.dfy` (`Settings`): the CORS origin list and the upload-size reconciliation.
- `api.dfy` (`Api`): the API records and their field ranges.
- `values.dfy`, `text.dfy`, `sorting.dfy` and `machine.dfy` hold the shared pieces. These
  are Python's dynamic values and equality, string helpers (`strip`, `lower`, `split`,
  `title`), a stable insertion sort, and the machine profile shape.

Objects whose fields the source updates in place are classes:

- `Suggest.SuggestionPlanner`, with the baseline cache;
- `Inference.InferenceEngine`;
- `Registry.Registry`, with the module-level indexes;
- `RateLimit.RateLimiter`, with the request-time bucket.

Loops of the source are methods with loop invariants. Each is proved equal to a
specification function, and the properties are lemmas about that function.

Two behaviours of the code are worth stating outright:

- The stringing recipe lowers the nozzle temperature by 10 (server/rules/suggest.py:67).
  `Suggest.StringingTargets` states it.
- `merge_family` reads each simple field as `entry.get(k, data.get(k))`
  (scripts/build_machines.py:69-73). An entry that holds an explicit `None` for a field
  therefore removes that field, even when the family defaults give it a value. The model
  does the same.

## Model

| member | source | states |
|---|---|---|
| Rules.Settings | server/app/rules.py:14-39 | every tier factor lies in (0, 1]; only the Advanced tier allows every parameter |
| Rules.AllowListsNested | server/app/rules.py:15-35 | a parameter the Beginner tier allows is allowed by Intermediate, and one Intermediate allows is allowed by Advanced |
| Rules.TierOf | server/app/rules.py:47 | "Beginner" and "Advanced" select their own tiers; every other string, unknown ones included, selects Intermediate |
| Rules.ToFloat | server/app/rules.py:153-156 | a bound exists iff the value is an int or float (bool included), and it is that value as a real |
| Rules.RangeFromList | server/app/rules.py:137-141 | an empty list gives no bounds; otherwise the bounds are the first and the last element |
| Rules.RangeFromSafe | server/app/rules.py:131-135 | bounds only when `safe[key]` is a non-empty list, and then its first and last element |
| Rules.DocLimit | server/app/rules.py:121-129 | the depth-of-cut limit is the table entry of the lower-cased rigidity class, 3.0 for an unknown class, and always within [2, 8] |
| Rules.MinOver | server/app/rules.py:143-151 | the result is the least first element over the named presets, or None when none of them has a non-empty list |
| Rules.PresetMin | server/app/rules.py:143-151 | the temperature minimum is the least first element over all presets, or None |
| Rules.LeastUnique | server/app/rules.py:149-151 | the least element of a set of candidates is unique, so the minimum does not depend on the order of the presets |
| Rules.MinSeq | server/app/rules.py:150 | `min` of a non-empty list is an element of it and at most every element |
| Rules.MinFromPresets | server/app/rules.py:143-151 | the loop that collects first elements returns exactly the least one, or None |
| Rules.FixedBounds | server/app/rules.py:103-108 | fan speed has bounds [0, 100], flow rate [80, 120] and retraction [0.2, 8] on every machine |
| Rules.CncBounds | server/app/rules.py:112-118 | stepover has bounds [1, 60], feed rate has minimum 100 and the machine's max feed as maximum, and depth of cut has [0.1, the rigidity limit] |
| Rules.StepoverBounds | server/app/rules.py:117-118 | stepover has bounds [1, 60] |
| Rules.DocBounds | server/app/rules.py:115-116 | depth of cut has bounds [0.1, the rigidity limit] |
| Rules.UnknownBounds | server/app/rules.py:119 | a parameter the engine does not know has neither a minimum nor a maximum |
| Rules.BoundsFor | server/app/rules.py:85-119 | the dispatch over parameter names returns the bounds the machine declares for that parameter |
| Rules.ClampValueWith | server/app/rules.py:63-72 | a non-number or a parameter without bounds passes unchanged; a number stays a number, ends at most the effective maximum and at least the minimum when the minimum does not exceed it; an in-bounds number is unchanged; at most two notes, and a note exactly when the number lay outside a bound |
| Rules.HiddenKeys | server/app/rules.py:56-57 | at most one hidden name per input item |
| Rules.ClampParameter | server/app/rules.py:59-75 | one visible parameter gets its machine bounds, the maximum scaled by the tier factor, and its value clamped as the specification says |
| Rules.ClampBetween | server/app/rules.py:63-72 | raise to the minimum, then lower to the effective maximum, with one note per adjustment |
| Rules.ClampStep | server/app/rules.py:55-75 | one more input item adds its clamped value and its notes when the tier allows its name, and otherwise adds its name to the hidden list and nothing else |
| Rules.ClampAll | server/app/rules.py:50-75 | the loop builds the clamped map, the hidden names and the notes of the specification, and the flag is set iff some note was recorded |
| Rules.ClampToMachine | server/app/rules.py:41-83 | the returned record is the specified one: clamped parameters, sorted hidden names, the experience string as given, the flag and the tier note followed by the notes |
| Rules.ClampItemsKeys | server/app/rules.py:55-58 | the output names are exactly the input names the tier allows |
| Rules.HiddenKeysContent | server/app/rules.py:56-57 | a name is hidden iff it is an input name the tier does not allow; distinct input names give no duplicate |
| Rules.ClampPartitionsKeysWith | server/app/rules.py:55-79 | output names and hidden names split the input names by the allow-list; the hidden list is sorted and free of duplicates |
| Rules.ClampPartitionsKeys | server/app/rules.py:41-83 | the same partition for `clamp_to_machine` itself, for any experience string |
| Rules.ClampItemsAt | server/app/rules.py:59-75 | each allowed input item's output value is its own clamped value |
| Rules.ClampRespectsBoundsWith | server/app/rules.py:59-75 | each visible value: non-numbers and unbounded parameters pass unchanged, numbers stay numbers, end at most max times factor, and at least the unscaled minimum when that does not exceed the effective maximum |
| Rules.ClampRespectsBounds | server/app/rules.py:41-83 | for `clamp_to_machine` at the tier its experience string selects: a non-number or a parameter without bounds passes through unchanged; a number stays a number, at most the tier-scaled maximum and at least the minimum when that fits below it |
| Rules.ClampExplanations | server/app/rules.py:52-82 | the first explanation is the tier note, the experience is echoed as given, and the clamped flag is set iff there is more than the tier note |
| Rules.NotesIffOutOfBounds | server/app/rules.py:65-72 | some note is recorded iff some visible item's value was adjusted |
| Rules.ClampValueIdempotent | server/app/rules.py:59-72 | clamping a clamped value again with the same bounds changes nothing, when the minimum does not exceed the effective maximum |
| Rules.ClampIdempotent | server/app/rules.py:55-75 | re-clamping an output parameter list with the same machine and tier returns the same list |
| Rules.AllVisible | server/app/rules.py:55-75 | every item of a clamped list is one the tier allows, so a second clamp hides nothing |
| Suggest.BaselineFdmTable | server/rules/suggest.py:300-334 | the FDM baseline holds exactly the nine FDM parameters: preset midpoints with fallbacks, motion-dependent speeds and jerk, input-shaping acceleration, the enclosed-ABS bed and fan adjustment, and flow 100 |
| Suggest.BaselineResin | server/rules/suggest.py:336-343 | the resin baseline holds exposure and lift speed only: exposure 2.3 for a material starting with RESIN, else 2.0, and lift 60 |
| Suggest.CncDocExamples | server/rules/suggest.py:350-355 | "light_industrial" gets the industrial depth 4.0, because the substring test for "industrial" comes first, and a plain "light" gets 3.0 |
| Suggest.BaselineCncTable | server/rules/suggest.py:345-362 | the CNC baseline holds exactly spindle, feed, doc and stepover: the spindle range's mean, 0.7 times the max feed, the rigidity depth and 40 |
| Suggest.CncSpindleWithinRange | server/rules/suggest.py:346-347 | the spindle baseline lies within any bounds of the spindle range's values |
| Suggest.FirstMissing | server/rules/suggest.py:61-188 | the key a recipe fails on is present iff some key it reads is missing, and it is the first missing one in reading order |
| Suggest.ParamsOf | server/rules/suggest.py:61-285 | one parameter name per adjustment, in order |
| Suggest.Lookup | server/rules/suggest.py:67 | `baseline[key]` succeeds iff the key is present, with its value, and otherwise fails with a KeyError naming the key |
| Suggest.DispatchOrder | server/rules/suggest.py:46-58 | each handler is chosen iff its substring occurs in the lower-cased id and no earlier one does, in the order string, under, ring, peel, chatter, general |
| Suggest.StringingBeforeRinging | server/rules/suggest.py:48-53 | "Stringing" contains "ring" yet goes to the stringing recipe |
| Suggest.StringingRecipe | server/rules/suggest.py:61-104 | fails iff nozzle, retraction or travel is missing, with a KeyError on the first missing one; otherwise adjusts those three and the drying recommendation, in that order |
| Suggest.UnderExtrusionRecipe | server/rules/suggest.py:106-146 | fails iff nozzle or print speed is missing, with a KeyError on the first missing one; otherwise adjusts nozzle, speed and flow, with the nozzle target above the baseline |
| Suggest.RingingRecipe | server/rules/suggest.py:148-188 | fails iff acceleration, jerk or print speed is missing, with a KeyError on the first missing one; otherwise adjusts those three in that order |
| Suggest.ResinPeelRecipe | server/rules/suggest.py:190-218 | adjusts lift speed below and exposure above the resin baseline |
| Suggest.CncChatterRecipe | server/rules/suggest.py:220-255 | adjusts feed, depth of cut and spindle speed, in that order |
| Suggest.CncChatterShallower | server/rules/suggest.py:230-236 | the chatter recipe's depth target is below the CNC baseline depth |
| Suggest.GeneralRecipe | server/rules/suggest.py:257-285 | nozzle and bed temperature adjustments iff the baseline has a nozzle temperature, each clamped with hint (0, 0) and the baseline's value, or none |
| Suggest.RecipeAvailability | server/rules/suggest.py:61-285 | on an FDM baseline every recipe exists; the peel, chatter and general recipes exist on every machine |
| Suggest.MissingFdmKeys | server/rules/suggest.py:67-156 | a baseline without nozzle temperature and acceleration makes the stringing and under-extrusion recipes fail on "nozzle_temp" and the ringing recipe on "accel" |
| Suggest.ResinLacksFdmKeys | server/rules/suggest.py:61-293 | on an MSLA or SLA machine the three FDM recipes fail with those KeyErrors |
| Suggest.CncBaselineKeys | server/rules/suggest.py:357-362 | the CNC baseline has neither a nozzle temperature nor an acceleration |
| Suggest.CncLacksFdmKeys | server/rules/suggest.py:61-295 | on a CNC router or mill the three FDM recipes fail with those KeyErrors |
| Suggest.StringingTargets | server/rules/suggest.py:61-91 | the stringing recipe lowers the nozzle by 10, raises retraction by 1 and travel by 10, and recommends drying, unclamped, unless the machine has an AMS |
| Suggest.RingingTargets | server/rules/suggest.py:148-175 | the ringing recipe scales acceleration and jerk by 0.6 and 0.65 on a bed slinger and by 0.8 and 0.85 otherwise, and print speed by 0.9 |
| Suggest.ClampInputs | server/rules/suggest.py:375-379 | the clamp inputs have distinct names |
| Suggest.ClampedParamSnoc | server/rules/suggest.py:375-379 | a name needs clamping in a longer adjustment list iff it did before or the new adjustment needs clamping under that name |
| Suggest.ClampInputsKeys | server/rules/suggest.py:375-379 | the clamp inputs name exactly the adjustments that need clamping and have a target |
| Suggest.ChangeForFilters | server/rules/suggest.py:386-413 | a clamped adjustment yields a change only if its name survived the clamp, and then with the clamped value; an unclamped one yields a change iff it has a target; a change keeps param, unit and hint, and has a delta iff the baseline has the param, equal to new target minus baseline |
| Suggest.Changes | server/rules/suggest.py:385-413 | at most one change per adjustment |
| Suggest.ChangesStep | server/rules/suggest.py:386-413 | each further adjustment appends its change, if it yields one |
| Suggest.ChangesFromAdjustments | server/rules/suggest.py:386-413 | a change is listed iff some adjustment yields it |
| Suggest.Rationale | server/rules/suggest.py:415-419 | the rationale starts with the recipe text and equals it iff there is no explanation after the tier note |
| Suggest.SuggestionIds | server/rules/suggest.py:416-421 | a suggestion copies the prediction's issue id and confidence |
| Suggest.SuggestionFields | server/rules/suggest.py:380-425 | a suggestion also carries the recipe's risk and notes, the clamp flag, and the text followed by the clamp explanations after the tier note |
| Suggest.ClampedChangesWithinBounds | server/rules/suggest.py:380-391 | every clamped change of a suggestion has a target within the machine's bounds for its param |
| Suggest.ClampInputsFloat | server/rules/suggest.py:376 | each clamp input is a float |
| Suggest.AllFloat | server/rules/suggest.py:376 | every clamp input is a float |
| Suggest.SuggestOneIds | server/rules/suggest.py:40-41 | a suggestion built for a prediction answers that prediction |
| Suggest.PlanLowConfidence | server/rules/suggest.py:29-36 | no prediction, or none at 0.5 or above, gives exactly one general_tuning suggestion with confidence 0.45 and the flag set |
| Suggest.PlanPerPrediction | server/rules/suggest.py:38-43 | otherwise one suggestion per prediction, in order, copying issue and confidence, with the flag clear; on an FDM baseline the plan never fails |
| Suggest.SuggestAllShape | server/rules/suggest.py:38-43 | a successful pass over the predictions gives one suggestion per prediction, in order |
| Suggest.SuggestAllFdm | server/rules/suggest.py:38-43 | on an FDM baseline the pass never fails |
| Suggest.SuggestOneError | server/rules/suggest.py:40-41 | a prediction fails iff its handler's recipe fails, and with the same error |
| Suggest.SuggestAllFirstError | server/rules/suggest.py:39-42 | a failed pass fails with the error of the first failing prediction |
| Suggest.ExperienceOf | server/rules/suggest.py:19 | an empty experience defaults to "Intermediate"; any other is kept |
| Suggest.SuggestionPlanner.constructor | server/rules/suggest.py:15-24 | the planner keeps the request and the machine, reads supports and enclosure, and starts with an empty baseline cache |
| Suggest.SuggestionPlanner.GetBaseline | server/rules/suggest.py:288-298 | the cached baseline is computed on first use (resin for MSLA/SLA, CNC for CNC_Router/CNC_Mill, FDM otherwise) and then served unchanged |
| Suggest.SuggestionPlanner.Stringing | server/rules/suggest.py:61-104 | the stringing recipe over the cached baseline |
| Suggest.SuggestionPlanner.UnderExtrusion | server/rules/suggest.py:106-146 | the under-extrusion recipe over the cached baseline |
| Suggest.SuggestionPlanner.Ringing | server/rules/suggest.py:148-188 | the ringing recipe over the cached baseline |
| Suggest.SuggestionPlanner.General | server/rules/suggest.py:257-285 | the general recipe: the baseline temperatures if the baseline has a nozzle temperature, else no adjustment |
| Suggest.SuggestionPlanner.Recipe | server/rules/suggest.py:46-255 | the handler's recipe; peel and chatter read their own tables |
| Suggest.SuggestionPlanner.ChangeOf | server/rules/suggest.py:387-413 | one pass of the change loop gives the specified change |
| Suggest.SuggestionPlanner.ChangesOf | server/rules/suggest.py:385-413 | the change loop gives the specified changes, in order |
| Suggest.SuggestionPlanner.BuildSuggestion | server/rules/suggest.py:365-425 | the specified suggestion: clamp inputs, clamp, changes and rationale |
| Suggest.SuggestionPlanner.Handle | server/rules/suggest.py:40-41 | the dispatched handler applied to the prediction |
| Suggest.SuggestionPlanner.SuggestEach | server/rules/suggest.py:38-43 | the loop over predictions gives the specified suggestions or the first error |
| Suggest.SuggestionPlanner.Fallback | server/rules/suggest.py:34-35 | the general suggestion for a general_tuning prediction of confidence 0.45 |
| Suggest.SuggestionPlanner.Plan | server/rules/suggest.py:27-43 | `plan` returns the specified suggestions and flag |
| Suggest.SuggestFor | server/rules/suggest.py:428-431 | `suggest` plans with the request's upper-cased material, defaulting to PLA, and its experience |
| Pipeline.Render | server/app/ml/pipeline.py:51 | `str` of a textual value is its Python text; any other value is rendered by the given `repr` |
| Pipeline.FirstIssueSpec | server/app/ml/pipeline.py:48-52 | with no truthy item the issue is "general_tuning"; otherwise it is the `str` of the first truthy item, whatever its type |
| Pipeline.ResolveIssue | server/app/ml/pipeline.py:48-52 | the loop returns the `str` of the first truthy item, or "general_tuning" |
| Pipeline.IssueItems | server/app/ml/pipeline.py:23-49 | iterating the issues fails iff they are present and not a list, string or dict; absent issues give no items, a list its items, a string its characters, a dict its keys in insertion order |
| Pipeline.DictIssuesFirstKey | server/app/ml/pipeline.py:23-52 | issues given as a dict resolve to its first non-empty key in insertion order |
| Pipeline.PayloadMaterial | server/app/ml/pipeline.py:24 | a missing or falsy material gives "PLA"; a non-empty string material is upper-cased |
| Pipeline.FdmStart | server/app/ml/pipeline.py:57-88 | the starting FDM table is the shared one: preset midpoints with fallbacks 210/60/70, motion speeds and jerk, input-shaping acceleration, and the enclosed-ABS bed and fan |
| Pipeline.FdmCapabilityNotes | server/app/ml/pipeline.py:80-89 | the capability notes are appended one condition at a time, in order |
| Pipeline.PredictFdm | server/app/ml/pipeline.py:54-119 | `_predict_fdm` returns the specified targets, recommendations and notes |
| Pipeline.RingingModifier | server/app/ml/pipeline.py:96-103 | a ringing issue multiplies acceleration by 0.6 and jerk by 0.7 on a bed slinger, and acceleration alone by 0.85 elsewhere, adding that motion system's recommendation; without ringing nothing changes and nothing is added |
| Pipeline.FdmTargetsMatchBaseline | server/app/ml/pipeline.py:96-117 | the FDM targets have the planner baseline's keys and values except acceleration and jerk; without ringing they equal the baseline; ringing on a bed slinger scales them by 0.6 and 0.7, and elsewhere scales acceleration by 0.85 only |
| Pipeline.PredictMsla | server/app/ml/pipeline.py:121-138 | exposure 2.5 for a material starting with RESIN, else 2.0; a "peel" issue gives lift speed 48, otherwise 60 |
| Pipeline.CncStart | server/app/ml/pipeline.py:143-148 | the spindle is the range's mean, the feed is capped, and the depth follows the rigidity class |
| Pipeline.PredictCnc | server/app/ml/pipeline.py:140-164 | `_predict_cnc` returns the specified targets and notes |
| Pipeline.CncLimits | server/app/ml/pipeline.py:143-163 | the feed stays within [0, the max feed] and at most half the spindle mean; depth is 2.0 iff the rigidity contains "industrial", else 1.2; the chatter modifier fires iff the lower-cased issue contains "chatter", and then it lowers the depth |
| Pipeline.SumNonNegative | server/app/ml/pipeline.py:145 | a sum of non-negative numbers is non-negative |
| Pipeline.SumAtLeastElement | server/app/ml/pipeline.py:145 | a sum of non-negative numbers is at least each of them |
| Pipeline.Branch | server/app/ml/pipeline.py:27-32 | exactly "FDM" takes the FDM branch, MSLA and SLA the resin branch, anything else the CNC branch |
| Pipeline.Predict | server/app/ml/pipeline.py:22-44 | `predict` gives the specified prediction for every payload, failing only where iterating the issues fails |
| Pipeline.Assemble | server/app/ml/pipeline.py:34-44 | the prediction carries the issue, confidence 0.75 unless the issue is "general_tuning" and 0.6 if it is, and the branch's recommendations, targets and notes |
| Pipeline.PredictFields | server/app/ml/pipeline.py:22-44 | the prediction fails iff the issues are present and not a list, string or dict; otherwise it carries the resolved issue, confidence 0.6 iff that issue is "general_tuning" and 0.75 iff not, and the branch's targets |
| Pipeline.NoIssuesGeneral | server/app/ml/pipeline.py:23-52 | a payload without issues gives "general_tuning" with confidence 0.6 |
| Pipeline.BranchKeys | server/app/ml/pipeline.py:27-163 | the FDM branch outputs the nine FDM parameters, the resin branch exposure and lift speed, the CNC branch spindle, feed, doc and stepover |
| Machines.SumBounds | server/rules/suggest.py:306 | a sum of n values in [lo, hi] lies within [n·lo, n·hi] |
| Machines.MeanBounds | server/rules/suggest.py:306 | the mean of a non-empty list lies between any lower and upper bound of its values |
| Machines.Midpoint | server/rules/suggest.py:304-307 | the mean of a non-empty list; anything else gives the fallback |
| Machines.MidpointWithin | server/rules/suggest.py:304-307 | the midpoint of a preset range lies within the range's bounds |
| Machines.MaterialPreset | server/rules/suggest.py:301-302 | the material's own preset when it is truthy, else PLA's, else the empty dict; list fields hold numbers |
| Machines.SpindleRange | server/rules/suggest.py:346 | the spindle range is never empty (default 8000 to 18000) and holds numbers |
| Machines.MaxFeed | server/rules/suggest.py:348 | the machine's max feed when truthy, else 6000 |
| Machines.FdmDefaultsTable | server/rules/suggest.py:309-320 | nozzle, bed and fan are preset midpoints with fallbacks 210, 60 and 70; CoreXY and H-Bot get 120/150/12 and other motion systems 90/120/8; acceleration 5000 with input shaping, else 3000; retraction 0.8 with an AMS, else 0.6 |
| Machines.Min | server/rules/suggest.py:322-323 | `min` is at most both arguments and equals one of them |
| Machines.EnclosedAbs | server/rules/suggest.py:321-323 | ABS on an enclosed machine raises the bed by at most 10, never above a truthy max bed temperature, and caps the fan at 15 |
| Localize.Clamp | server/inference/localize.py:12-13 | for lo ≤ hi the result lies in [lo, hi]; a value inside is unchanged, one below becomes lo and one above becomes hi |
| Localize.PySliceEnd | server/inference/localize.py:42 | `predictions[:k]` keeps min(n, k) elements for k ≥ 0 and never more than n |
| Localize.Unit | server/inference/localize.py:44-47 | a byte divided by 255 lies in [0, 1] |
| Localize.Extent | server/inference/localize.py:46-50 | a clamped base size lies in [lo, lo + span] |
| Localize.Corner | server/inference/localize.py:52-53 | a clamped corner leaves room for the size: x ≥ 0 and x + size ≤ 1 |
| Localize.BoxGeometryBounds | server/inference/localize.py:44-53 | width lies in [0.25, 0.70] and height in [0.20, 0.70]; x, y ≥ 0, x + width ≤ 1 and y + height ≤ 1 |
| Localize.BuildBoxes | server/inference/localize.py:40-65 | min(len(predictions), max_boxes) boxes; box i is built from prediction i and the digest of (image key, issue id, i), and it is a valid box |
| Localize.BuildHeatmap | server/inference/localize.py:68-93 | no heatmap iff there is no prediction; otherwise a valid heatmap of the configured size for the first issue |
| Localize.Localize | server/inference/localize.py:29-37 | the payload's boxes carry the predictions' issue ids and confidences, as many as `_build_boxes` keeps, and its heatmap is `_build_heatmap`'s |
| Inference.RotatePermutes | server/inference/predict.py:127-130 | the stub ordering is a permutation of the issue ids that starts at index seed mod n and wraps around |
| Inference.ConfidenceBounds | server/inference/predict.py:138-142 | every score lies in [0.1, 0.95], and a later score is never higher |
| Inference.ConfidenceSequence | server/inference/predict.py:138-142 | the generator yields `count` scores, each the formula at its index |
| Inference.ConfidenceOrder | server/inference/predict.py:120 | ordering by descending confidence is a total preorder, so the sort is well defined |
| Inference.KeptFromMembers | server/inference/predict.py:111-117 | a prediction is kept iff its index has an issue id and a probability of at least 0.05 |
| Inference.PostProcessedSpec | server/inference/predict.py:111-120 | the result is never empty and sorted by descending confidence; it is a permutation of the kept predictions, or the single (first issue, 0.4) when none is kept |
| Inference.PostProcessedValid | server/inference/predict.py:111-120 | for probabilities in [0, 1] every result is a valid prediction of a known issue |
| Inference.InferenceEngine.constructor | server/inference/predict.py:38-42 | the issue ids are the taxonomy's, or ["general_tuning"] when the taxonomy names none |
| Inference.InferenceEngine.PredictStub | server/inference/predict.py:123-136 | min(3, n) predictions, pairing the rotated issue ids with the scores, all valid |
| Inference.InferenceEngine.PostProcess | server/inference/predict.py:111-120 | the loop and sort give the specified post-processed predictions |
| Inference.InferenceEngine.Predict | server/inference/predict.py:49-56 | backend probabilities are post-processed and otherwise the stub runs; then either one explanation per prediction, in order, or the AttributeError of the first prediction whose taxonomy entry is not a dict |
| Inference.InferenceEngine.CuesFor | server/inference/predict.py:147 | an unlisted issue has cues []; a listed entry that is not a dict raises AttributeError; a dict entry gives its truthy "cues" or [] |
| Inference.InferenceEngine.BuildExplanations | server/inference/predict.py:144-150 | an error iff some prediction's taxonomy entry is not a dict, naming the first such issue; otherwise one explanation per prediction, in order, with its cues |
| MiniYaml.TruncateClean | scripts/_mini_yaml.py:27-29 | cutting a stripped line at the first " #" and right-stripping leaves non-empty content without surrounding whitespace |
| MiniYaml.LineOf | scripts/_mini_yaml.py:19-30 | a raw line is dropped iff it is blank or starts with "#" after stripping; a kept line records its count of leading spaces and clean content |
| MiniYaml.LineOfContent | scripts/_mini_yaml.py:27-29 | a kept line's content is the whole stripped line when it has no " #", and otherwise the part before the first " #" without the spaces that end it |
| MiniYaml.LinesOf | scripts/_mini_yaml.py:18-30 | at most one line per raw line, all clean, and none at all iff every raw line is dropped |
| MiniYaml.IterLines | scripts/_mini_yaml.py:18-30 | the loop over the text's lines yields the specified lines |
| MiniYaml.NonEmpty | scripts/_mini_yaml.py:107 | the filter keeps only non-empty items, each one taken from the input |
| MiniYaml.StripAll | scripts/_mini_yaml.py:101-106 | each item is the stripped piece |
| MiniYaml.ScanShape | scripts/_mini_yaml.py:76-104 | no piece of the scan is longer than the text |
| MiniYaml.ItemsOf | scripts/_mini_yaml.py:70-107 | `_split_items` never returns an empty or unstripped item, nor one longer than the text |
| MiniYaml.SplitItems | scripts/_mini_yaml.py:70-107 | the character loop gives the specified items |
| MiniYaml.SplitsOnlyAtTopLevelComma | scripts/_mini_yaml.py:100-103 | a piece is closed iff the character is a comma at depth 0 outside quotes, and then the current piece is appended |
| MiniYaml.ScanFromAppend | scripts/_mini_yaml.py:76-104 | scanning a concatenation is scanning the first part, then the second |
| MiniYaml.InsideQuote | scripts/_mini_yaml.py:77-87 | inside a quote, characters other than the closing quote and backslash are copied and nothing is split |
| MiniYaml.QuotedSegment | scripts/_mini_yaml.py:85-91 | a quoted segment is copied whole, commas included |
| MiniYaml.PlainStep | scripts/_mini_yaml.py:100-104 | at depth 0, an ordinary character is copied and a comma ends the piece |
| MiniYaml.InsideBracket | scripts/_mini_yaml.py:92-99 | inside brackets, commas are copied and do not split |
| MiniYaml.BracketSegment | scripts/_mini_yaml.py:92-99 | a bracketed segment is copied whole |
| MiniYaml.PlainScan | scripts/_mini_yaml.py:70-107 | text without quotes or brackets is split at every comma, like `str.split(",")` |
| MiniYaml.PlainItems | scripts/_mini_yaml.py:70-107 | for such text the items are the stripped non-empty pieces of that split |
| MiniYaml.SplitPair | scripts/_mini_yaml.py:110-114 | fails with the mapping-token error iff there is no ':'; the value is shorter than the item |
| MiniYaml.SplitPairJoin | scripts/_mini_yaml.py:110-114 | a trimmed key without ':' and quote ends, a ':' and a trimmed value split back into that key and value |
| MiniYaml.ParseNumber | scripts/_mini_yaml.py:62-67 | a token with '.' becomes a float, one without an int, and a token neither accepts stays the token |
| MiniYaml.Inner | scripts/_mini_yaml.py:44-53 | `token[1:-1]` drops the two ends |
| MiniYaml.ListOf | scripts/_mini_yaml.py:50 | the parsed elements, or the first error |
| MiniYaml.ParseAllShape | scripts/_mini_yaml.py:50 | parsing the items succeeds iff every item parses, and then gives one value per item, in order |
| MiniYaml.ParseValueKeywords | scripts/_mini_yaml.py:34-42 | "" gives None, true and false give booleans and null or none give None, case-insensitively |
| MiniYaml.QuotedToken | scripts/_mini_yaml.py:43-44 | a token wrapped in matching quotes gives its inner text |
| MiniYaml.EmptyList | scripts/_mini_yaml.py:46-49 | "[]", with nothing but whitespace inside, gives the empty list |
| MiniYaml.EmptyMap | scripts/_mini_yaml.py:52-56 | "{}" gives the empty map |
| MiniYaml.PlainList | scripts/_mini_yaml.py:46-50 | a list of plain items parses iff every comma-separated piece does, giving their values in order |
| MiniYaml.ListToken | scripts/_mini_yaml.py:46-50 | a non-empty bracketed token parses as the inline list of its stripped inner text |
| MiniYaml.InlineListShape | scripts/_mini_yaml.py:50 | an inline list parses iff every split item does, giving one value per item |
| MiniYaml.ParseMapItemsCollects | scripts/_mini_yaml.py:52-60 | the inline map loop is the collection of its items' key and value pairs into a dict, for any pair splitter and value parser |
| MiniYaml.CollectPairsOk | scripts/_mini_yaml.py:56-60 | collecting pairs succeeds iff every item splits into a pair and its value parses |
| MiniYaml.CollectPairsContents | scripts/_mini_yaml.py:56-60 | the collected dict holds the earlier keys and exactly the items' keys; an earlier key no item sets keeps its value; an item whose key no later item repeats gives that key its parsed value |
| MiniYaml.InlineMapOk | scripts/_mini_yaml.py:52-60 | a non-empty inline map parses iff every top-level item has a ':' and a value that parses |
| MiniYaml.InlineMapContents | scripts/_mini_yaml.py:52-60 | then the map's keys are exactly the items' keys, and each key holds the parsed value of the last item naming it |
| MiniYaml.KeysAtDeeper | scripts/_mini_yaml.py:121-151 | deeper lines contribute no key to a block |
| MiniYaml.KeysAtStep | scripts/_mini_yaml.py:146-148 | a key line followed by its nested block adds just that key |
| MiniYaml.ConsumedStep | scripts/_mini_yaml.py:121-151 | a key line and its nested block extend the run of consumed lines |
| MiniYaml.KeysAtSplit | scripts/_mini_yaml.py:121-151 | the keys of a run of lines are the keys of its two parts |
| MiniYaml.KeysAtFront | scripts/_mini_yaml.py:146-151 | a key line, its nested lines and the rest contribute its key and the keys of the rest |
| MiniYaml.KeysAtSkip | scripts/_mini_yaml.py:143-148 | nested lines deeper than the block add no key to it |
| MiniYaml.BlockFrom | scripts/_mini_yaml.py:117-152 | a block is a dict; it consumes only lines at its indent or deeper, and stops at the end or at a less indented line |
| MiniYaml.EntryAt | scripts/_mini_yaml.py:129-151 | a key line gives its key and consumes its nested lines; with an inline value it succeeds iff that value parses, holds the parsed value and consumes one line; without one it holds the list below when a deeper "- " line follows, else the block below |
| MiniYaml.BlockFromSpec | scripts/_mini_yaml.py:117-152 | a parsed block holds exactly the keys of its lines at the indent; no such line is a "- " line, each one's entry parses, a line after an inline value is not deeper, and a key that no later line repeats holds that line's value, so the later duplicate wins |
| MiniYaml.BlockEntry | scripts/_mini_yaml.py:129-151 | the key-line step of the loop equals EntryAt |
| MiniYaml.ParseBlock | scripts/_mini_yaml.py:117-152 | the loop over the block's lines equals BlockFrom, including its errors on an over-indented line and on a "- " line without a key |
| MiniYaml.CleanItemToken | scripts/_mini_yaml.py:164-165 | a clean "- " line has a non-empty token |
| MiniYaml.ListFrom | scripts/_mini_yaml.py:155-183 | a list is a list value and consumes only lines at its indent or deeper |
| MiniYaml.ItemAt | scripts/_mini_yaml.py:164-182 | one item consumes its line and only deeper lines after it |
| MiniYaml.ListFromStops | scripts/_mini_yaml.py:158-162 | the list ends at the end, a less indented line or a line that is not an item, and keeps the items read before it in front |
| MiniYaml.ListFromShift | scripts/_mini_yaml.py:164-182 | a clean item line the list reads past has a token that parses, and the list goes on from the next line with that value appended |
| MiniYaml.ListFromReach | scripts/_mini_yaml.py:158-183 | after a run of clean item lines the list has appended one value per line |
| MiniYaml.ListFromHead | scripts/_mini_yaml.py:164-182 | the next item of the list is the parsed token of the line it reads |
| MiniYaml.ListFromItem | scripts/_mini_yaml.py:155-183 | every clean line the list reads holds a token that parses, and the item at its position is that token's value |
| MiniYaml.ListEntry | scripts/_mini_yaml.py:164-182 | the item step of the loop equals ItemAt |
| MiniYaml.ParseList | scripts/_mini_yaml.py:155-183 | the loop over the list's lines equals ListFrom |
| MiniYaml.LoadLines | scripts/_mini_yaml.py:186-196 | loading significant lines gives a dict |
| MiniYaml.LoadLinesContents | scripts/_mini_yaml.py:190-196 | the result holds the keys of the first block and, when lines remain, of the second; each second-block line is read into it, and so is each first-block line whose key the second block does not set |
| MiniYaml.SafeLoad | scripts/_mini_yaml.py:186-196 | the loader equals LoadLines over the significant lines of the text |
| Schema.Child | scripts/_schema.py:26 | a property's path is the key alone at the root, and otherwise ends with the key |
| Schema.ValidIffNoViolations | scripts/_schema.py:16-58 | `_validate` returns without raising iff no check fails, at any depth, so the error it raises names a failed check |
| Schema.ObjectValidIff | scripts/_schema.py:18-30 | the object case of that equivalence |
| Schema.ArrayValidIff | scripts/_schema.py:31-43 | the array case of that equivalence |
| Schema.NestedEmpty | scripts/_schema.py:24-26 | the properties report nothing iff each property validated recursively reports nothing |
| Schema.ObjectChecks | scripts/_schema.py:18-29 | an object schema rejects a non-dict and nothing else is checked; a dict is flagged for each missing required field and, with `additionalProperties: false`, each key not in `properties` |
| Schema.ArrayChecks | scripts/_schema.py:31-42 | an array schema rejects a non-list alone and flags a list outside `minItems`/`maxItems`; without an item schema those are the only checks |
| Schema.ScalarChecks | scripts/_schema.py:44-58 | "boolean" accepts exactly booleans, "number" accepts ints, floats and booleans, "string" only strings, and a schema with no known type and no enum accepts anything |
| Schema.UnlistedValueIgnored | scripts/_schema.py:24-26 | only keys present in both instance and `properties` are validated recursively: the value at any other key does not affect the verdict |
| SlicerDiff.Target | server/slicer/diff.py:22-26 | a given new target is kept; without one, a delta over a numeric base value gives base plus delta; a target exists only if the change has a target or a delta |
| SlicerDiff.EntryFor | server/slicer/diff.py:27-37 | an entry never holds both a value and a delta; the value is the target; a delta only when there is no target; the unit only when non-empty; the range hint as given; the clamped mark exactly for a flagged suggestion |
| SlicerDiff.Tagged | server/slicer/diff.py:20-36 | each change of a suggestion is paired with that suggestion's clamped flag, in order |
| SlicerDiff.DiffOfSnoc | server/slicer/diff.py:38 | each further change replaces its parameter's entry wholesale |
| SlicerDiff.DiffKeys | server/slicer/diff.py:19-38 | the parameters are exactly the params of all changes |
| SlicerDiff.DiffLast | server/slicer/diff.py:38 | a parameter's entry is built from its last change |
| SlicerDiff.InsertChanges | server/slicer/diff.py:20-38 | the inner loop adds one suggestion's changes to the diff in order |
| SlicerDiff.Apply | server/slicer/diff.py:9-40 | the result names the slicer and holds the diff of all changes of all suggestions, in order |
| Export.KeyMapNozzle | server/app/routers/export.py:11-55 | every slicer map defines nozzle_temp, and Cura maps it to material_print_temperature |
| Export.Translate | server/app/routers/export.py:95 | an unmapped key passes through unchanged |
| Export.BaseValue | server/app/routers/export.py:96 | without a base profile there is no base value; a key of the base profile gives its value |
| Export.DiffKeys | server/app/routers/export.py:93-98 | a translated key is in the diff iff some change translating to it differs from the base value there |
| Export.DiffLast | server/app/routers/export.py:94-98 | the value at a key is the last differing change's, so when two keys translate to the same one, the later wins |
| Export.DiffWithoutBase | server/app/routers/export.py:93-98 | without a base profile every translated key is in the diff |
| Export.DiffChanges | server/app/routers/export.py:93-98 | the loop builds the specified diff |
| Export.KeyLines | server/app/routers/export.py:73-82 | one line per key |
| Export.RenderLines | server/app/routers/export.py:73-82 | the loop renders one line per key, in the order given, in the "base → value" form where the base has a value |
| Export.RenderMarkdown | server/app/routers/export.py:67-84 | an empty diff renders as the header, a blank line and the no-change note; otherwise the header and one line per key in sorted order |
| Export.ExportProfile | server/app/routers/export.py:87-106 | an unsupported slicer is an error naming it, and only then; otherwise the diff through that slicer's key map; its markdown is the header and the no-changes line for an empty diff, else the header and one line per diff key in sorted order |
| Export.DiffOf | server/app/routers/export.py:93-98 | when every request value is a scalar, so is every value of the diff |
| BuildMachines.FieldListsDisjoint | scripts/build_machines.py:42-68 | the simple fields, the merged dict fields and the identity fields are three disjoint lists |
| BuildMachines.Identity | scripts/build_machines.py:41-47 | the start is a copy of the family defaults with id and model from the entry and brand and type from the family written over them |
| BuildMachines.MergeDicts | scripts/build_machines.py:49-52 | each of material_presets, supports and safe_speed_ranges becomes the family's dict updated by the entry's, and nothing else changes |
| BuildMachines.MergeFields | scripts/build_machines.py:49-52 | for any list of fields: each listed field becomes the family's dict updated by the entry's, and every other key keeps its value |
| BuildMachines.CopySimple | scripts/build_machines.py:54-73 | each simple field takes the entry's value if not None, else keeps the current one, and is removed when both are None; nothing else changes |
| BuildMachines.CopyFields | scripts/build_machines.py:54-73 | for any list of distinct fields: each takes the entry's value, or else keeps the current one, and is absent when both are missing or None; every other key is unchanged |
| BuildMachines.MergeFamily | scripts/build_machines.py:39-74 | `merge_family` fails with a KeyError naming the first missing key (id, model, brand, type, defaults) iff one is missing, and otherwise returns the merged profile; entry and family are values, so neither is changed |
| BuildMachines.IdentityKeys | scripts/build_machines.py:42-47 | the four identity keys are distinct and none of them is a simple or merged field |
| BuildMachines.MergeSteps | scripts/build_machines.py:39-74 | the three steps in sequence give the merged profile |
| BuildMachines.IdentityFields | scripts/build_machines.py:42-47 | id and model come from the entry and brand and type from the family, and they override the defaults |
| BuildMachines.MergedFieldsKept | scripts/build_machines.py:49-52 | the three dict fields are always present, as the shallow merge in which entry keys win |
| BuildMachines.SimpleFieldsChosen | scripts/build_machines.py:54-73 | a simple field is present iff the entry's value, or failing that the default, is not None, and then holds that value |
| BuildMachines.OtherFields | scripts/build_machines.py:41 | every other key is exactly the family default's |
| Registry.Show | server/machines/registry.py:41-52 | `str()` of an id, alias, brand or model the profile holds is Python's rendering of that value |
| Registry.LowerAll | server/machines/registry.py:46-47 | one key per alias, in order, each the lower-cased `str()` of that alias |
| Registry.FuzzyKeysOf | server/machines/registry.py:41-60 | a profile's fuzzy keys start with its lower-cased id (the aliases and the brand/model keys follow) |
| Registry.Bind | server/machines/registry.py:43-60 | assigning a run of keys to one profile: the dict gains exactly those keys, each naming the profile, and every other key keeps its entry |
| Registry.BindSnoc | server/machines/registry.py:48-50 | binding one more key is one more dict assignment |
| Registry.BindAppend | server/machines/registry.py:42-60 | binding the id, then the aliases, then the brand/model keys is binding their concatenation |
| Registry.IndexBySnoc | server/machines/registry.py:40 | indexing one more profile binds that profile's keys over the previous dict and appends them to the key list |
| Registry.IndexByAt | server/machines/registry.py:40-60 | a key names the last profile that has it: a later profile takes over a key |
| Registry.IndexByKeys | server/machines/registry.py:40-60 | a dict built this way holds exactly the keys of the key list, and every value is one of the profiles |
| Registry.KeysByCover | server/machines/registry.py:40-60 | every key of every profile is in the key list |
| Registry.KeysByFrom | server/machines/registry.py:40-60 | every key in the key list comes from some profile |
| Registry.LowerIdIndexAt | server/machines/registry.py:28-36 | with lower-cased ids distinct, as the loader's dict guarantees, each profile is found under its lower-cased id |
| Registry.LowerIdIndexKeys | server/machines/registry.py:35-36 | a string is a key of `_by_id_lower` iff it is some profile's lower-cased id |
| Registry.AliasIndexAt | server/machines/registry.py:44-48 | an alias names the last profile that lists it, up to case |
| Registry.IndexedAreRegistered | server/machines/registry.py:36-60 | every entry of the id, alias and fuzzy indexes is a loaded profile |
| Registry.FuzzyKeysIndexed | server/machines/registry.py:40-60 | each key of a profile (id, aliases, "brand model", model) is in `_fuzzy_keys` and `_fuzzy_map`, and the two hold the same keys |
| Registry.LexLeReflexive | server/machines/registry.py:84 | string comparison is reflexive |
| Registry.PairLeTransitive | server/machines/registry.py:84 | tuple comparison of the two-string sort keys is transitive |
| Registry.SummaryLeTotalPreorder | server/machines/registry.py:84 | the summary order (lower-cased brand, then model) is total and transitive, so sorting by it is well defined |
| Registry.Summaries | server/machines/registry.py:74-83 | one summary per profile, in order, holding its id, brand, model and aliases |
| Registry.Registry.constructor | server/machines/registry.py:15-19 | the registry starts empty, its indexes consistent |
| Registry.Registry.BuildIndexes | server/machines/registry.py:33-60 | afterwards the registry holds the given profiles and every index is the one those profiles determine |
| Registry.IndexAll | server/machines/registry.py:37-60 | the loop over the profiles builds exactly the alias index, the fuzzy key list and the fuzzy map of all of them |
| Registry.IndexProfile | server/machines/registry.py:41-60 | one iteration binds the profile's aliases in the alias index, appends all its fuzzy keys in order and binds them in the fuzzy map |
| Registry.AddAliases | server/machines/registry.py:44-50 | each alias is bound in the alias index and the fuzzy map and appended to the fuzzy keys, in order |
| Registry.AddKeys | server/machines/registry.py:53-60 | the brand/model keys are appended and bound in the fuzzy map, in order |
| Registry.Registry.MachineSummaries | server/machines/registry.py:73-85 | a permutation of the profiles' summaries, sorted by lower-cased brand then model, and equal to the stable sort of them; the profiles must be identified loader output, so brand and model render as `str()` does |
| Sorting.SortStable | server/machines/registry.py:84 | the sort is stable: for every key, the elements with that key leave the sort in their input order, as `list.sort` and `sorted(..., reverse=True)` keep them |
| Registry.Registry.Resolve | server/machines/registry.py:88-104 | an empty identifier is an error; a failure reports the identifier; a match by lower-cased, stripped id wins; a result is never an empty profile and always comes from one of the indexes |
| Registry.ResolveById | server/machines/registry.py:91-94 | an identifier equal to a profile's id up to case and surrounding whitespace resolves to that profile, whatever the matcher does |
| Registry.ResolveByAlias | server/machines/registry.py:95-97 | an identifier that is no profile's id but an alias of one (listed by no later profile) resolves to it, whatever the matcher does |
| Registry.ResolvedIsRegistered | server/machines/registry.py:88-104 | a resolved identifier always names a loaded profile |
| RateLimit.Pruned | server/main.py:45-46 | pruning never grows the bucket, and what is left starts inside the window |
| RateLimit.PrunedSuffix | server/main.py:45-46 | pruning drops only a prefix of times before the window start, and keeps the rest unchanged |
| RateLimit.InWindow | server/main.py:44-46 | the times that fall within the window are at or after its start |
| RateLimit.PrunedIsWindow | server/main.py:45-46 | on a bucket in clock order, popping from the front keeps exactly the times inside the window |
| RateLimit.AllInWindow | server/main.py:45-46 | a bucket wholly inside the window is left as it is |
| RateLimit.SuffixAscending | server/main.py:45-46 | what pruning leaves of a bucket in clock order is still in clock order |
| RateLimit.AppendAscending | server/main.py:49 | appending the current monotonic time keeps the bucket in clock order |
| RateLimit.KeptWindow | server/main.py:43-49 | the pruned bucket is the window's times, in order, and the current time can be appended in order |
| RateLimit.RateLimiter.constructor | server/main.py:34 | the bucket starts empty |
| RateLimit.RateLimiter.Enforce | server/main.py:42-49 | a request is allowed iff fewer than the limit of requests remain in the window; a rejected request is not recorded; the bucket becomes the window's times plus the new one when allowed, and never holds more than the limit |
| Settings.StripClean | server/settings.py:26 | `strip()` leaves clean text alone and turns any non-empty result into clean text |
| Settings.Cleaned | server/settings.py:26 | the kept pieces are non-empty, without surrounding whitespace, and no more than the pieces |
| Settings.CleanedWithout | server/settings.py:26 | stripping brings no comma into a piece |
| Settings.CleanedSnoc | server/settings.py:26 | a further piece is appended stripped exactly when it is not blank |
| Settings.CleanedAppend | server/settings.py:26 | cleaning keeps the order of the pieces |
| Settings.CommaSeparatedList | server/settings.py:23-26 | no value or an empty one gives no items; every item is non-empty, stripped and free of commas |
| Settings.StripWithin | server/settings.py:26 | stripping adds no character |
| Settings.CommaListRoundTrip | server/settings.py:23-31 | a non-empty list of clean, comma-free origins joined with commas parses back to itself |
| Settings.JoinNonEmpty | server/settings.py:24 | such a join is a non-empty setting |
| Settings.CleanedClean | server/settings.py:26 | clean pieces are kept as they are |
| Settings.SplitJoinInverse | server/settings.py:26 | splitting a comma join of comma-free pieces gives the pieces back |
| Settings.CeilDiv | server/settings.py:52 | `math.ceil(n / d)` is the least q with n <= q * d |
| Settings.Reconciled | server/settings.py:49-52 | the byte limit is raised to the megabyte limit when below it and otherwise kept; the megabyte limit never falls and covers the byte limit, rounded up by less than a megabyte |
| Settings.ReconciledRoundsUp | server/settings.py:52 | 10 MB with 10 MiB plus one byte gives 11 MB, so the byte limit is then below the megabyte limit |
| Settings.ReconciledWhole | server/settings.py:49-52 | a byte setting that is a whole number of megabytes ends equal to the megabyte limit |
| Settings.UploadLimits | server/settings.py:47-52 | the two limits are the reconciliation of the settings, the byte limit defaulting to the megabyte limit; with neither set they are 10 MB and 10 MiB |
| Api.NewMeta | server/models/api.py:9-18 | the machine id and experience as given; material, base profile and app version absent |
| Api.MakePrediction | server/models/api.py:21-25 | accepted iff the confidence lies in [0, 1], and then holding the fields as given; otherwise the confidence is reported |
| Api.MakeBox | server/models/api.py:28-36 | accepted iff confidence, x and y lie in [0, 1] and width and height in (0, 1], and then holding the fields as given |
| Api.NewHeatmap | server/models/api.py:39-45 | the encoding is "svg", 256 by 256, with the given data URL |
| Api.NewChange | server/models/api.py:55-62 | only the parameter name is set |
| Api.NewSuggestion | server/models/api.py:65-75 | the required fields as given, no notes, and not marked clamped |

## Left out

- HTTP plumbing is not modelled: the FastAPI routes, exception handlers, multipart parsing, upload storage, pydantic's own validation machinery and the HTTP wrapper of the export endpoint. An HTTP 400 or 429 is an error value (`Export.UnsupportedSlicer`, `allowed == false`).
- `round(x, 3)` and `round(x, 4)` are left out everywhere (server/app/rules.py:74, server/rules/suggest.py:404, server/slicer/diff.py:29-31, server/inference/predict.py:142). Values are reals, so binary floating point is not modelled either.
- Python's float repr is a parameter (`floatText`, or the formatter of the clamp explanations). `str()` of floats and containers is rendered only through it.
- The `int()` and `float()` conversions of YAML scalars are the `MiniYaml.Numbers` parameter (scripts/_mini_yaml.py:62-67).
- SHA-256 digests are inputs: the image key's digest and the seed of the stub predictor. So are the SVG and base64 rendering of the heatmap and the data URL it produces.
- The torch backend is not modelled: model loading, preprocessing, the forward pass and softmax. Only the post-processing of a given probability list is (server/inference/predict.py:111-120).
- `difflib.get_close_matches` is the `closest` parameter of `Registry.Registry.Resolve`, standing for any matcher.
- `time.monotonic()` is the `now` parameter of `RateLimit.RateLimiter.Enforce`. A clock that never runs backwards is its precondition, as a monotonic clock guarantees.
- File and environment input is not modelled. That covers `_load_profiles`, `load_taxonomy`, the directory globbing, `build_machines.main`, `stream.read()`/`str(stream)` in `safe_load`, and reading environment variables. Settings take the variables' values already converted by `int()`.
- `ENV`, `ENVIRONMENT`, `UPLOAD_DIR`, the model paths and `INFERENCE_MODE` in server/settings.py are left out; they are plain environment reads.
- `reload_registry` and `all_machine_profiles` are left out (server/machines/registry.py:63-70). The first is `_load_profiles` followed by `_build_indexes`; the second returns the profiles.
- Registry.Registry.BuildIndexes: it takes the values of the loaded dict in order and requires ids that are strings and differ after lower-casing. The loader keys its dict by lower-cased id (server/machines/registry.py:28-29), which gives the second requirement. A non-textual id, for which `str()` would need Python's repr, is not modelled.
- Registry.ResolveById: requires distinct lower-cased ids, which the loader's dict guarantees (server/machines/registry.py:28-29).
- `Text.Lower`, `Text.Upper` and `Text.Title` map ASCII letters only. Python's full Unicode case mapping is not modelled.
- `str.splitlines()` is modelled as a split at `'\n'`. The other line boundaries Python recognises (`\r`, `\r\n`, form feed and the rest) are not.
- Dict key order is not modelled. Python dicts keep insertion order, and model dicts are maps; this shows in the YAML loader's result and in the diff maps. Where order is observable the model keeps it explicitly: the fuzzy key list, the profile sequence, and the sorted markdown lines.
- The two look-ahead loops of `_parse_block` compute values that are never used (scripts/_mini_yaml.py:133-141), so they are left out.
- Schema.ValidIffNoViolations: the validator raises at the first failing check, with a message. The model has it return iff no check fails anywhere, and collects the failures in `Schema.Violations` with their paths. Which failure is reported first, and the message texts, are not modelled.
- Schema.Valid: requires a well-formed schema (`Schema.WellFormed`), meaning keywords of the shapes the validator indexes (a list of strings under `required`, dicts under `properties`). On a malformed schema Python raises a TypeError or AttributeError, which the model does not reproduce.
- BuildMachines.MergeFamily: requires `defaults` and the merged fields, where present, to be dicts (`BuildMachines.Shaped`). On other values `dict(...)` or `update` raise in Python, and that is not modelled.
- The clamp engine the suggestion planner imports lives in a file that is not part of this model (server/rules/clamp.py). `Suggest` uses `Rules.ClampToMachine` in its place.
- Machine profiles are assumed to have the field types the machine catalogue's schema gives them (`Machines.Conforms`): dicts where dicts are read, numeric lists for ranges, textual names. Bad input then fails in Python's own operators, which is not modelled.
- `math.ceil` of a float division can round wrongly for byte counts beyond 2^53. `Settings.CeilDiv` is the exact ceiling.
- Api.MakeBox: reports only the first field out of range, in declaration order. Pydantic collects every failing field.
- Pipeline.IssueItems: a dict of issues yields its keys in the order the `order` parameter gives, standing for the dict's insertion order, which a model map does not record. The model does not require `order` to list exactly the dict's keys.
- Pipeline.Render: `str()` of a float, a list or a dict is the `repr` parameter, standing for Python's own rendering; `Pipeline.FirstIssueSpec`, `Pipeline.PayloadMaterial`, `Pipeline.Predict` and `Pipeline.PredictFields` take their text of such values from it.
- Suggest.SuggestionPlanner.constructor and Suggest.SuggestFor take the machine profile already resolved. `resolve_machine` (server/rules/suggest.py:17) raises a KeyError for an unknown machine id; that lookup is `Registry.Registry.Resolve`, and its error is not composed into these two members.
- Logging, metrics (server/observability.py) and the process-wide singletons are left out; they affect no decision.
