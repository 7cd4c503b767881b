/** Conversion of suggestions into a slicer profile diff: one entry per changed parameter,
    the last change of a parameter replacing the earlier ones. */
module SlicerDiff {
  import opened Values
  import opened Api

  /** One parameter's entry: the `"value"`, `"delta"`, `"unit"`, `"range_hint"` and
      `"clamped"` keys of the Python dict, each absent when `None` (or `false`). */
  datatype DiffEntry = DiffEntry(
    value: Option<real>,
    delta: Option<real>,
    unit: Option<string>,
    rangeHint: Option<(real, real)>,
    clamped: bool)

  /** The returned mapping: the slicer name and the parameters. */
  datatype ProfileDiff = ProfileDiff(slicer: string, parameters: map<string, DiffEntry>)

  /** `bool(suggestion.clamped_to_machine_limits)` */
  predicate Flagged(s: Suggestion) {
    s.clampedToMachineLimits == Some(true)
  }

  /** The target of a change: its own, or the base value plus the delta when the base value
      is a number. */
  function Target(change: SuggestionChange, base: map<string, Value>): (t: Option<real>)
    ensures change.newTarget.Some? ==> t == change.newTarget
    ensures change.newTarget.None? && change.delta.Some? && IsNumber(Get(base, change.param)) ==>
      t == Some(AsReal(Get(base, change.param)) + change.delta.value)
    ensures t.Some? ==> change.newTarget.Some? || change.delta.Some?
  {
    if change.newTarget.None? && change.delta.Some? then
      var b := Get(base, change.param);
      if IsNumber(b) then Some(AsReal(b) + change.delta.value) else None
    else change.newTarget
  }

  /** The entry one change produces within a suggestion flagged `clamped` or not. */
  function EntryFor(change: SuggestionChange, clamped: bool, base: map<string, Value>): (e: DiffEntry)
    ensures e.value.None? || e.delta.None?
    ensures e.value == Target(change, base)
    ensures e.delta.Some? <==> Target(change, base).None? && change.delta.Some?
    ensures e.delta.Some? ==> e.delta == change.delta
    ensures e.unit.Some? <==> change.unit.Some? && change.unit.value != []
    ensures e.unit.Some? ==> e.unit == change.unit
    ensures e.rangeHint == change.rangeHint
    ensures e.clamped == clamped
  {
    var t := Target(change, base);
    DiffEntry(
      t,
      if t.None? && change.delta.Some? then change.delta else None,
      if change.unit.Some? && change.unit.value != [] then change.unit else None,
      change.rangeHint,
      clamped)
  }

  /** The changes of the suggestions in order, each with its suggestion's flag. */
  function Tagged(changes: seq<SuggestionChange>, clamped: bool): (r: seq<(SuggestionChange, bool)>)
    ensures |r| == |changes|
    ensures forall j :: 0 <= j < |r| ==> r[j] == (changes[j], clamped)
  {
    seq(|changes|, j requires 0 <= j < |changes| => (changes[j], clamped))
  }

  function Flatten(suggestions: seq<Suggestion>): seq<(SuggestionChange, bool)> {
    if suggestions == [] then []
    else
      var last := suggestions[|suggestions| - 1];
      Flatten(suggestions[..|suggestions| - 1]) + Tagged(last.changes, Flagged(last))
  }

  /** The parameters dict after inserting the entry of every change in order. */
  function DiffOf(changes: seq<(SuggestionChange, bool)>, base: map<string, Value>): map<string, DiffEntry> {
    if changes == [] then map[]
    else
      var last := changes[|changes| - 1];
      DiffOf(changes[..|changes| - 1], base)[last.0.param := EntryFor(last.0, last.1, base)]
  }

  lemma DiffOfSnoc(changes: seq<(SuggestionChange, bool)>, x: (SuggestionChange, bool), base: map<string, Value>)
    ensures DiffOf(changes + [x], base) == DiffOf(changes, base)[x.0.param := EntryFor(x.0, x.1, base)]
  {
    assert (changes + [x])[..|changes|] == changes;
  }

  /** The keys of the diff are exactly the changed parameters. */
  lemma {:induction false} DiffKeys(changes: seq<(SuggestionChange, bool)>, base: map<string, Value>)
    ensures DiffOf(changes, base).Keys == set i | 0 <= i < |changes| :: changes[i].0.param
  {
    if changes != [] {
      var init := changes[..|changes| - 1];
      DiffKeys(init, base);
      assert forall i :: 0 <= i < |init| ==> init[i] == changes[i];
      assert (set i | 0 <= i < |changes| :: changes[i].0.param)
        == (set i | 0 <= i < |init| :: init[i].0.param) + {changes[|changes| - 1].0.param};
    }
  }

  /** The entry of a parameter is the one its last change produces: a later change replaces
      an earlier one wholesale. */
  lemma {:induction false} DiffLast(changes: seq<(SuggestionChange, bool)>, base: map<string, Value>, i: nat)
    requires i < |changes|
    requires forall j :: i < j < |changes| ==> changes[j].0.param != changes[i].0.param
    ensures var p := changes[i].0.param;
      p in DiffOf(changes, base) && DiffOf(changes, base)[p] == EntryFor(changes[i].0, changes[i].1, base)
  {
    if i < |changes| - 1 {
      var init := changes[..|changes| - 1];
      DiffLast(init, base, i);
    }
  }

  lemma TaggedSnoc(done: seq<(SuggestionChange, bool)>, changes: seq<SuggestionChange>, j: nat, flag: bool)
    requires j < |changes|
    ensures done + Tagged(changes[..j + 1], flag) == (done + Tagged(changes[..j], flag)) + [(changes[j], flag)]
  {
    var a, b := Tagged(changes[..j + 1], flag), Tagged(changes[..j], flag);
    assert a == b + [(changes[j], flag)] by {
      assert |a| == |b| + 1;
      forall k | 0 <= k < |a| ensures a[k] == (b + [(changes[j], flag)])[k] {
        if k < j {
          assert a[k] == (changes[k], flag) == b[k];
        }
      }
    }
  }

  /** The inner loop of `apply`: the entries of one suggestion's changes, inserted in order. */
  method InsertChanges(parameters: map<string, DiffEntry>, changes: seq<SuggestionChange>, flag: bool,
                       base: map<string, Value>, ghost done: seq<(SuggestionChange, bool)>)
    returns (updated: map<string, DiffEntry>)
    requires parameters == DiffOf(done, base)
    ensures updated == DiffOf(done + Tagged(changes, flag), base)
  {
    updated := parameters;
    assert done + Tagged(changes[..0], flag) == done;
    for j := 0 to |changes|
      invariant updated == DiffOf(done + Tagged(changes[..j], flag), base)
    {
      var change := changes[j];
      var entry := EntryFor(change, flag, base);
      TaggedSnoc(done, changes, j, flag);
      DiffOfSnoc(done + Tagged(changes[..j], flag), (change, flag), base);
      updated := updated[change.param := entry];
    }
    assert changes[..|changes|] == changes;
  }

  /** `apply(suggestions, base_profile=base, slicer=slicer)`; a `base_profile` of `None` is
      the empty map. */
  method Apply(suggestions: seq<Suggestion>, base: map<string, Value>, slicer: string) returns (diff: ProfileDiff)
    ensures diff.slicer == slicer
    ensures diff.parameters == DiffOf(Flatten(suggestions), base)
  {
    var parameters: map<string, DiffEntry> := map[];
    for i := 0 to |suggestions|
      invariant parameters == DiffOf(Flatten(suggestions[..i]), base)
    {
      var suggestion := suggestions[i];
      var flag := suggestion.clampedToMachineLimits == Some(true);
      assert suggestions[..i + 1][..i] == suggestions[..i];
      parameters := InsertChanges(parameters, suggestion.changes, flag, base, Flatten(suggestions[..i]));
    }
    assert suggestions[..|suggestions|] == suggestions;
    diff := ProfileDiff(slicer, parameters);
  }
}
