/** The machine registry: the lookup indexes built from the loaded profiles, identifier
    resolution (exact id, then alias, then a fuzzy match) and the sorted summaries. */
module Registry {
  import opened Text
  import opened Values
  import Sorting

  type Profile = map<string, Value>

  const IdKey := "id"
  const AliasesKey := "aliases"
  const BrandKey := "brand"
  const ModelKey := "model"

  /** A profile as the loader produces it: a string `"id"`, and fields whose `str()` the
      model renders. */
  predicate Identified(p: Profile) {
    && IdKey in p && p[IdKey].Str?
    && (AliasesKey in p && p[AliasesKey].List? ==>
          forall j :: 0 <= j < |p[AliasesKey].items| ==> IsTextual(p[AliasesKey].items[j]))
    && (BrandKey in p ==> IsTextual(p[BrandKey]))
    && (ModelKey in p ==> IsTextual(p[ModelKey]))
  }

  predicate AllIdentified(ps: seq<Profile>) {
    forall i :: 0 <= i < |ps| ==> Identified(ps[i])
  }

  /** `str(v)` for the values an identified profile holds. */
  function Show(v: Value): (r: string)
    ensures IsTextual(v) ==> r == PyStr(v)
  {
    if IsTextual(v) then PyStr(v) else ""
  }

  /** `str(profile["id"])` */
  function IdOf(p: Profile): string {
    Show(Get(p, IdKey))
  }

  function LowerId(p: Profile): string {
    Lower(IdOf(p))
  }

  /** The loader keys profiles by lower-cased id, so no two share one. */
  predicate DistinctLowerIds(ps: seq<Profile>) {
    forall i, j :: 0 <= i < j < |ps| ==> LowerId(ps[i]) != LowerId(ps[j])
  }

  /** `str(alias).lower()` for each alias. */
  function LowerAll(aliases: seq<Value>): (r: seq<string>)
    ensures |r| == |aliases|
    ensures forall j :: 0 <= j < |r| ==> r[j] == Lower(Show(aliases[j]))
  {
    seq(|aliases|, j requires 0 <= j < |aliases| => Lower(Show(aliases[j])))
  }

  /** The aliases of a profile, when `profile.get("aliases") or []` is a list. */
  function AliasList(p: Profile): seq<Value> {
    if AliasesKey in p && p[AliasesKey].List? then p[AliasesKey].items else []
  }

  function AliasKeys(p: Profile): seq<string> {
    LowerAll(AliasList(p))
  }

  /** `str(profile.get(key, "")).strip()` */
  function FieldText(p: Profile, key: string): string {
    Strip(if key in p then Show(p[key]) else "")
  }

  /** The fuzzy keys after the aliases: `"brand model"` and the model, each when present. */
  function NameKeys(p: Profile): seq<string> {
    var brand := FieldText(p, BrandKey);
    var model := FieldText(p, ModelKey);
    if brand == [] && model == [] then []
    else
      var combo := Lower(Strip(brand + " " + model));
      (if combo != [] then [combo] else []) + (if model != [] then [Lower(model)] else [])
  }

  /** Every fuzzy key of one profile, in insertion order. */
  function FuzzyKeysOf(p: Profile): (r: seq<string>)
    ensures |r| >= 1 && r[0] == LowerId(p)
  {
    [LowerId(p)] + AliasKeys(p) + NameKeys(p)
  }

  /** `m[k] = p` for every key in order. */
  function Bind<K(!new), V>(m: map<K, V>, keys: seq<K>, p: V): (r: map<K, V>)
    ensures forall k :: k in r <==> k in m || k in keys
    ensures forall k :: k in keys ==> r[k] == p
    ensures forall k :: k in m && k !in keys ==> r[k] == m[k]
  {
    if keys == [] then m
    else
      var init := keys[..|keys| - 1];
      assert forall k :: k in keys <==> k in init || k == keys[|keys| - 1] by {
        assert keys == init + [keys[|keys| - 1]];
      }
      Bind(m, init, p)[keys[|keys| - 1] := p]
  }

  lemma BindSnoc<K(!new), V>(m: map<K, V>, keys: seq<K>, k: K, p: V)
    ensures Bind(m, keys + [k], p) == Bind(m, keys, p)[k := p]
  {
    assert (keys + [k])[..|keys|] == keys;
  }

  /** Binding two runs of keys in turn is binding their concatenation. */
  lemma BindAppend<K(!new), V>(m: map<K, V>, a: seq<K>, b: seq<K>, p: V)
    ensures Bind(Bind(m, a, p), b, p) == Bind(m, a + b, p)
  {
    var l, r := Bind(Bind(m, a, p), b, p), Bind(m, a + b, p);
    assert forall k :: k in a + b <==> k in a || k in b;
    assert l.Keys == r.Keys;
    assert forall k :: k in l ==> l[k] == r[k];
  }

  /** The dict built by binding every key of every item, item by item: a later item takes
      over a key. */
  function IndexBy<P, K(!new)>(ps: seq<P>, keysOf: P -> seq<K>): map<K, P> {
    if ps == [] then map[]
    else Bind(IndexBy(ps[..|ps| - 1], keysOf), keysOf(ps[|ps| - 1]), ps[|ps| - 1])
  }

  /** The keys of every item, item by item. */
  function KeysBy<P, K>(ps: seq<P>, keysOf: P -> seq<K>): seq<K> {
    if ps == [] then [] else KeysBy(ps[..|ps| - 1], keysOf) + keysOf(ps[|ps| - 1])
  }

  lemma IndexBySnoc<P, K(!new)>(ps: seq<P>, keysOf: P -> seq<K>, x: P)
    ensures IndexBy(ps + [x], keysOf) == Bind(IndexBy(ps, keysOf), keysOf(x), x)
    ensures KeysBy(ps + [x], keysOf) == KeysBy(ps, keysOf) + keysOf(x)
  {
    assert (ps + [x])[..|ps|] == ps;
  }

  /** A key names the last item that has it. */
  lemma {:induction false} IndexByAt<P, K(!new)>(ps: seq<P>, keysOf: P -> seq<K>, i: nat, k: K)
    requires i < |ps| && k in keysOf(ps[i])
    requires forall j :: i < j < |ps| ==> k !in keysOf(ps[j])
    ensures k in IndexBy(ps, keysOf) && IndexBy(ps, keysOf)[k] == ps[i]
  {
    var init := ps[..|ps| - 1];
    if i < |ps| - 1 {
      assert forall j :: 0 <= j < |init| ==> init[j] == ps[j];
      IndexByAt(init, keysOf, i, k);
    }
  }

  /** The dict holds exactly the keys of the key list, and each names one of the items. */
  lemma {:induction false} IndexByKeys<P, K(!new)>(ps: seq<P>, keysOf: P -> seq<K>, k: K)
    ensures k in IndexBy(ps, keysOf) <==> k in KeysBy(ps, keysOf)
    ensures k in IndexBy(ps, keysOf) ==> IndexBy(ps, keysOf)[k] in ps
  {
    if ps != [] {
      var init := ps[..|ps| - 1];
      IndexByKeys(init, keysOf, k);
      assert forall x :: x in init ==> x in ps;
    }
  }

  /** Every key of every item is in the key list. */
  lemma {:induction false} KeysByCover<P, K>(ps: seq<P>, keysOf: P -> seq<K>, i: nat, k: K)
    requires i < |ps| && k in keysOf(ps[i])
    ensures k in KeysBy(ps, keysOf)
  {
    var init := ps[..|ps| - 1];
    if i < |init| {
      assert init[i] == ps[i];
      KeysByCover(init, keysOf, i, k);
    }
  }

  /** A key in the key list comes from some item. */
  lemma {:induction false} KeysByFrom<P, K>(ps: seq<P>, keysOf: P -> seq<K>, k: K)
    requires k in KeysBy(ps, keysOf)
    ensures exists i :: 0 <= i < |ps| && k in keysOf(ps[i])
  {
    var init := ps[..|ps| - 1];
    if k in KeysBy(init, keysOf) {
      KeysByFrom(init, keysOf, k);
      var i :| 0 <= i < |init| && k in keysOf(init[i]);
      assert init[i] == ps[i];
    } else {
      assert k in keysOf(ps[|ps| - 1]);
    }
  }

  function IdKeys(p: Profile): seq<string> {
    [IdOf(p)]
  }

  function LowerIdKeys(p: Profile): seq<string> {
    [LowerId(p)]
  }

  /** `_by_id`: profile by id. */
  function IdIndex(ps: seq<Profile>): map<string, Profile> {
    IndexBy(ps, IdKeys)
  }

  /** `_by_id_lower`: profile by lower-cased id. */
  function LowerIdIndex(ps: seq<Profile>): map<string, Profile> {
    IndexBy(ps, LowerIdKeys)
  }

  /** `_by_alias_lower`: profile by lower-cased alias; a later profile takes over an alias. */
  function AliasIndex(ps: seq<Profile>): map<string, Profile> {
    IndexBy(ps, AliasKeys)
  }

  /** `_fuzzy_keys` */
  function FuzzyKeys(ps: seq<Profile>): seq<string> {
    KeysBy(ps, FuzzyKeysOf)
  }

  /** `_fuzzy_map` */
  function FuzzyIndex(ps: seq<Profile>): map<string, Profile> {
    IndexBy(ps, FuzzyKeysOf)
  }

  /** Each profile is found under its lower-cased id. */
  lemma LowerIdIndexAt(ps: seq<Profile>, i: nat)
    requires DistinctLowerIds(ps) && i < |ps|
    ensures LowerId(ps[i]) in LowerIdIndex(ps) && LowerIdIndex(ps)[LowerId(ps[i])] == ps[i]
  {
    assert forall j :: i < j < |ps| ==> LowerId(ps[i]) !in LowerIdKeys(ps[j]);
    IndexByAt(ps, LowerIdKeys, i, LowerId(ps[i]));
  }

  /** A lower-cased id names a profile iff some profile has it. */
  lemma LowerIdIndexKeys(ps: seq<Profile>, k: string)
    ensures k in LowerIdIndex(ps) <==> exists i :: 0 <= i < |ps| && LowerId(ps[i]) == k
  {
    IndexByKeys(ps, LowerIdKeys, k);
    if k in LowerIdIndex(ps) {
      KeysByFrom(ps, LowerIdKeys, k);
    }
    if exists i :: 0 <= i < |ps| && LowerId(ps[i]) == k {
      var i :| 0 <= i < |ps| && LowerId(ps[i]) == k;
      KeysByCover(ps, LowerIdKeys, i, k);
    }
  }

  /** Each alias names the last profile that lists it. */
  lemma AliasIndexAt(ps: seq<Profile>, i: nat, a: string)
    requires i < |ps| && a in AliasKeys(ps[i])
    requires forall j :: i < j < |ps| ==> a !in AliasKeys(ps[j])
    ensures a in AliasIndex(ps) && AliasIndex(ps)[a] == ps[i]
  {
    IndexByAt(ps, AliasKeys, i, a);
  }

  /** Every index entry is a registered profile. */
  lemma IndexedAreRegistered(ps: seq<Profile>)
    ensures forall k :: k in LowerIdIndex(ps) ==> LowerIdIndex(ps)[k] in ps
    ensures forall k :: k in AliasIndex(ps) ==> AliasIndex(ps)[k] in ps
    ensures forall k :: k in FuzzyIndex(ps) ==> FuzzyIndex(ps)[k] in ps
  {
    forall k | k in LowerIdIndex(ps) ensures LowerIdIndex(ps)[k] in ps { IndexByKeys(ps, LowerIdKeys, k); }
    forall k | k in AliasIndex(ps) ensures AliasIndex(ps)[k] in ps { IndexByKeys(ps, AliasKeys, k); }
    forall k | k in FuzzyIndex(ps) ensures FuzzyIndex(ps)[k] in ps { IndexByKeys(ps, FuzzyKeysOf, k); }
  }

  /** The fuzzy key list and the fuzzy map hold the same keys, and each key of a profile
      (its id, aliases, "brand model" and model) is among them. */
  lemma FuzzyKeysIndexed(ps: seq<Profile>, i: nat, k: string)
    requires i < |ps| && k in FuzzyKeysOf(ps[i])
    ensures k in FuzzyKeys(ps) && k in FuzzyIndex(ps)
    ensures forall x :: x in FuzzyIndex(ps) <==> x in FuzzyKeys(ps)
  {
    KeysByCover(ps, FuzzyKeysOf, i, k);
    forall x ensures x in FuzzyIndex(ps) <==> x in FuzzyKeys(ps) { IndexByKeys(ps, FuzzyKeysOf, x); }
  }

  datatype LookupError = EmptyIdentifier | NotFound(identifier: string)

  /** The machine summary: `id`, `brand` and `model` as stored (None when absent) and the
      aliases (`[]` when absent). */
  datatype Summary = Summary(id: Value, brand: Value, model: Value, aliases: Value)

  function SummaryOf(p: Profile): Summary {
    Summary(Get(p, IdKey), Get(p, BrandKey), Get(p, ModelKey), if AliasesKey in p then p[AliasesKey] else List([]))
  }

  /** The sort key `(str(brand or "").lower(), str(model or ""))`. */
  function SortKey(s: Summary): (string, string) {
    (Lower(Show(Or(s.brand, Str("")))), Show(Or(s.model, Str(""))))
  }

  /** Python's tuple comparison `a <= b` on two-string keys. */
  predicate PairLe(a: (string, string), b: (string, string)) {
    (LexLe(a.0, b.0) && a.0 != b.0) || (a.0 == b.0 && LexLe(a.1, b.1))
  }

  lemma {:induction false} LexLeReflexive(a: string)
    ensures LexLe(a, a)
  {
    if a != [] {
      LexLeReflexive(a[1..]);
    }
  }

  lemma PairLeTransitive(x: (string, string), y: (string, string), z: (string, string))
    requires PairLe(x, y) && PairLe(y, z)
    ensures PairLe(x, z)
  {
    if x.0 == y.0 && y.0 == z.0 {
      LexLeTransitive(x.1, y.1, z.1);
    } else {
      LexLeReflexive(x.0);
      LexLeReflexive(y.0);
      LexLeTransitive(x.0, y.0, z.0);
      if x.0 == z.0 {
        LexLeAntisymmetric(x.0, y.0);
      }
    }
  }

  function SummaryLe(a: Summary, b: Summary): bool {
    PairLe(SortKey(a), SortKey(b))
  }

  lemma SummaryLeTotalPreorder()
    ensures Sorting.TotalPreorder(SummaryLe)
  {
    forall a, b ensures SummaryLe(a, b) || SummaryLe(b, a) {
      LexLeTotal(SortKey(a).0, SortKey(b).0);
      LexLeTotal(SortKey(a).1, SortKey(b).1);
    }
    forall a, b, c | SummaryLe(a, b) && SummaryLe(b, c) ensures SummaryLe(a, c) {
      PairLeTransitive(SortKey(a), SortKey(b), SortKey(c));
    }
  }

  function Summaries(ps: seq<Profile>): (r: seq<Summary>)
    ensures |r| == |ps| && forall i :: 0 <= i < |ps| ==> r[i] == SummaryOf(ps[i])
  {
    seq(|ps|, i requires 0 <= i < |ps| => SummaryOf(ps[i]))
  }

  /** The five indexes `_build_indexes` derives from the profiles. */
  predicate IndexesOf(ps: seq<Profile>, byId: map<string, Profile>, byIdLower: map<string, Profile>,
                      byAliasLower: map<string, Profile>, fuzzyKeys: seq<string>, fuzzyMap: map<string, Profile>) {
    && byId == IdIndex(ps)
    && byIdLower == LowerIdIndex(ps)
    && byAliasLower == AliasIndex(ps)
    && fuzzyKeys == FuzzyKeys(ps)
    && fuzzyMap == FuzzyIndex(ps)
  }

  /** The module-level indexes of the registry. */
  class Registry {
    var profiles: seq<Profile>
    var byId: map<string, Profile>
    var byIdLower: map<string, Profile>
    var byAliasLower: map<string, Profile>
    var fuzzyKeys: seq<string>
    var fuzzyMap: map<string, Profile>

    /** The profiles are identified loader output, and the indexes are those of `profiles`,
        the values of `_by_id` in order. */
    predicate Indexed() reads this {
      && AllIdentified(profiles)
      && DistinctLowerIds(profiles)
      && IndexesOf(profiles, byId, byIdLower, byAliasLower, fuzzyKeys, fuzzyMap)
    }

    constructor ()
      ensures profiles == [] && Indexed()
    {
      profiles, byId, byIdLower, byAliasLower := [], map[], map[], map[];
      fuzzyKeys, fuzzyMap := [], map[];
    }

    /** `_build_indexes(profiles)`, given the values of the loaded dict in order; the dict is
        keyed by lower-cased id, so iterating them is iterating `_by_id.values()`. */
    method BuildIndexes(ps: seq<Profile>)
      requires AllIdentified(ps) && DistinctLowerIds(ps)
      modifies this
      ensures profiles == ps && Indexed()
    {
      var aliasMap, keys, fuzzy := IndexAll(ps);
      var ids, lowerIds := IdIndex(ps), LowerIdIndex(ps);
      assert IndexesOf(ps, ids, lowerIds, aliasMap, keys, fuzzy);
      profiles, byId, byIdLower, byAliasLower, fuzzyKeys, fuzzyMap := ps, ids, lowerIds, aliasMap, keys, fuzzy;
    }

    /** `resolve_machine(name_or_id)`: the stripped, lower-cased identifier is looked up as an
        id, then as an alias, then through `closest`, which stands for
        `difflib.get_close_matches(token, _fuzzy_keys, n=1, cutoff=0.6)`; an empty profile
        counts as not found. */
    function Resolve(nameOrId: string, closest: (string, seq<string>) -> Option<string>): (r: Result<Profile, LookupError>)
      reads this
      ensures nameOrId == [] ==> r == Err(EmptyIdentifier)
      ensures r.Err? && nameOrId != [] ==> r.error == NotFound(nameOrId)
      ensures r.Ok? ==> r.value != map[]
      ensures nameOrId != [] && Lower(Strip(nameOrId)) in byIdLower && byIdLower[Lower(Strip(nameOrId))] != map[] ==>
        r == Ok(byIdLower[Lower(Strip(nameOrId))])
      ensures r.Ok? ==> r.value in byIdLower.Values || r.value in byAliasLower.Values || r.value in fuzzyMap.Values
    {
      if nameOrId == [] then Err(EmptyIdentifier)
      else
        var token := Lower(Strip(nameOrId));
        if token in byIdLower && byIdLower[token] != map[] then Ok(byIdLower[token])
        else if token in byAliasLower && byAliasLower[token] != map[] then Ok(byAliasLower[token])
        else match closest(token, fuzzyKeys)
          case Some(m) => if m in fuzzyMap && fuzzyMap[m] != map[] then Ok(fuzzyMap[m]) else Err(NotFound(nameOrId))
          case None => Err(NotFound(nameOrId))
    }

    /** `machine_summaries()`: one summary per profile, stably sorted by lower-cased brand and
        then model. */
    method MachineSummaries() returns (r: seq<Summary>)
      requires Indexed()
      ensures |r| == |profiles|
      ensures multiset(r) == multiset(Summaries(profiles))
      ensures Sorting.SortedBy(r, SummaryLe)
      ensures r == Sorting.Sort(Summaries(profiles), SummaryLe)
    {
      var summaries: seq<Summary> := [];
      for i := 0 to |profiles|
        invariant summaries == Summaries(profiles[..i])
      {
        summaries := summaries + [SummaryOf(profiles[i])];
      }
      assert profiles[..|profiles|] == profiles;
      SummaryLeTotalPreorder();
      Sorting.SortIsSorted(summaries, SummaryLe);
      r := Sorting.Sort(summaries, SummaryLe);
    }
  }

  lemma TakeSnoc<T>(s: seq<T>, i: nat)
    requires i < |s|
    ensures s[..i + 1] == s[..i] + [s[i]]
  {
  }

  lemma TakeAll<T>(s: seq<T>)
    ensures s[..|s|] == s
  {
  }

  /** The loop of `_build_indexes` over the profiles. */
  method IndexAll(ps: seq<Profile>) returns (aliasMap: map<string, Profile>, keys: seq<string>, fuzzy: map<string, Profile>)
    ensures aliasMap == AliasIndex(ps) && keys == FuzzyKeys(ps) && fuzzy == FuzzyIndex(ps)
  {
    aliasMap, keys, fuzzy := map[], [], map[];
    for i := 0 to |ps|
      invariant aliasMap == AliasIndex(ps[..i])
      invariant keys == FuzzyKeys(ps[..i])
      invariant fuzzy == FuzzyIndex(ps[..i])
    {
      TakeSnoc(ps, i);
      IndexBySnoc(ps[..i], AliasKeys, ps[i]);
      IndexBySnoc(ps[..i], FuzzyKeysOf, ps[i]);
      aliasMap, keys, fuzzy := IndexProfile(aliasMap, keys, fuzzy, ps[i]);
    }
    TakeAll(ps);
  }

  /** The body of the loop of `_build_indexes` for one profile: its id, its aliases and its
      brand/model keys go into the indexes, in that order. */
  method IndexProfile(aliasMap: map<string, Profile>, keys: seq<string>, fuzzy: map<string, Profile>, p: Profile)
    returns (aliasMap': map<string, Profile>, keys': seq<string>, fuzzy': map<string, Profile>)
    ensures aliasMap' == Bind(aliasMap, AliasKeys(p), p)
    ensures keys' == keys + FuzzyKeysOf(p)
    ensures fuzzy' == Bind(fuzzy, FuzzyKeysOf(p), p)
  {
    var id := LowerId(p);
    keys', fuzzy' := keys + [id], fuzzy[id := p];
    BindSnoc(fuzzy, [], id, p);
    aliasMap', keys', fuzzy' := AddAliases(aliasMap, keys', fuzzy', AliasList(p), p);
    BindAppend(fuzzy, [id], AliasKeys(p), p);
    keys', fuzzy' := AddKeys(keys', fuzzy', NameKeys(p), p);
    BindAppend(fuzzy, [id] + AliasKeys(p), NameKeys(p), p);
    ConcatAssoc4(keys, [id], AliasKeys(p), NameKeys(p));
  }

  lemma ConcatAssoc4<T>(a: seq<T>, b: seq<T>, c: seq<T>, d: seq<T>)
    ensures ((a + b) + c) + d == a + ((b + c) + d)
  {
  }

  /** The alias loop of `_build_indexes`: each alias goes into the alias index and the fuzzy
      keys, in order. */
  method AddAliases<V>(aliasMap: map<string, V>, keys: seq<string>, fuzzy: map<string, V>,
                       aliases: seq<Value>, p: V)
    returns (aliasMap': map<string, V>, keys': seq<string>, fuzzy': map<string, V>)
    ensures aliasMap' == Bind(aliasMap, LowerAll(aliases), p)
    ensures keys' == keys + LowerAll(aliases)
    ensures fuzzy' == Bind(fuzzy, LowerAll(aliases), p)
  {
    aliasMap', keys', fuzzy' := aliasMap, keys, fuzzy;
    ghost var all := LowerAll(aliases);
    for j := 0 to |aliases|
      invariant aliasMap' == Bind(aliasMap, all[..j], p)
      invariant keys' == keys + all[..j]
      invariant fuzzy' == Bind(fuzzy, all[..j], p)
    {
      var key := Lower(Show(aliases[j]));
      assert key == all[j];
      AliasStep(aliasMap, fuzzy, keys, all, j, p);
      aliasMap' := aliasMap'[key := p];
      keys' := keys' + [key];
      fuzzy' := fuzzy'[key := p];
    }
    TakeAll(all);
  }

  lemma AliasStep<K(!new), V>(m1: map<K, V>, m2: map<K, V>, keys: seq<K>, all: seq<K>, j: nat, p: V)
    requires j < |all|
    ensures Bind(m1, all[..j + 1], p) == Bind(m1, all[..j], p)[all[j] := p]
    ensures Bind(m2, all[..j + 1], p) == Bind(m2, all[..j], p)[all[j] := p]
    ensures keys + all[..j + 1] == (keys + all[..j]) + [all[j]]
  {
    TakeSnoc(all, j);
    BindSnoc(m1, all[..j], all[j], p);
    BindSnoc(m2, all[..j], all[j], p);
  }

  /** The brand/model keys of `_build_indexes`, appended and mapped in order. */
  method AddKeys<V>(keys: seq<string>, fuzzy: map<string, V>, names: seq<string>, p: V)
    returns (keys': seq<string>, fuzzy': map<string, V>)
    ensures keys' == keys + names
    ensures fuzzy' == Bind(fuzzy, names, p)
  {
    keys', fuzzy' := keys, fuzzy;
    for j := 0 to |names|
      invariant keys' == keys + names[..j]
      invariant fuzzy' == Bind(fuzzy, names[..j], p)
    {
      assert names[..j + 1] == names[..j] + [names[j]];
      BindSnoc(fuzzy, names[..j], names[j], p);
      keys' := keys' + [names[j]];
      fuzzy' := fuzzy'[names[j] := p];
    }
    assert names[..|names|] == names;
  }

  /** An identifier that matches a profile's id up to case and surrounding whitespace
      resolves to that profile, whatever the aliases and the fuzzy matcher say. */
  lemma ResolveById(reg: Registry, i: nat, nameOrId: string, closest: (string, seq<string>) -> Option<string>)
    requires reg.Indexed() && DistinctLowerIds(reg.profiles) && i < |reg.profiles| && Identified(reg.profiles[i])
    requires nameOrId != [] && Lower(Strip(nameOrId)) == LowerId(reg.profiles[i])
    ensures reg.Resolve(nameOrId, closest) == Ok(reg.profiles[i])
  {
    LowerIdIndexAt(reg.profiles, i);
    assert IdKey in reg.profiles[i];
  }

  /** An identifier that is no profile's id and is an alias of a profile, listed by no later
      one, resolves to that profile. */
  lemma ResolveByAlias(reg: Registry, i: nat, nameOrId: string, closest: (string, seq<string>) -> Option<string>)
    requires reg.Indexed() && i < |reg.profiles| && Identified(reg.profiles[i])
    requires nameOrId != [] && Lower(Strip(nameOrId)) in AliasKeys(reg.profiles[i])
    requires forall j :: 0 <= j < |reg.profiles| ==> LowerId(reg.profiles[j]) != Lower(Strip(nameOrId))
    requires forall j :: i < j < |reg.profiles| ==> Lower(Strip(nameOrId)) !in AliasKeys(reg.profiles[j])
    ensures reg.Resolve(nameOrId, closest) == Ok(reg.profiles[i])
  {
    var token := Lower(Strip(nameOrId));
    LowerIdIndexKeys(reg.profiles, token);
    AliasIndexAt(reg.profiles, i, token);
    assert IdKey in reg.profiles[i];
  }

  /** A resolved identifier always names a registered profile. */
  lemma ResolvedIsRegistered(reg: Registry, nameOrId: string, closest: (string, seq<string>) -> Option<string>)
    requires reg.Indexed()
    ensures reg.Resolve(nameOrId, closest).Ok? ==> reg.Resolve(nameOrId, closest).value in reg.profiles
  {
    IndexedAreRegistered(reg.profiles);
  }
}
