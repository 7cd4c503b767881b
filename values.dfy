/** Python's dynamically typed values as the core sees them (JSON/YAML documents,
    machine profiles, parameter maps), with Python's truthiness and equality. */
module Values {
  import opened Text

  datatype Option<+T> = None | Some(value: T)

  datatype Result<+T, +E> = Ok(value: T) | Err(error: E) {
    predicate IsFailure() {
      Err?
    }

    function PropagateFailure<U>(): Result<U, E>
      requires Err?
    {
      Err(error)
    }

    function Extract(): T
      requires Ok?
    {
      value
    }
  }

  /** A Python object of the kinds the core handles. `Float` is a real number:
      binary rounding is not modelled. Dicts are compared by content, as Python does. */
  datatype Value =
    | Null
    | Bool(b: bool)
    | Int(i: int)
    | Float(r: real)
    | Str(s: string)
    | List(items: seq<Value>)
    | Dict(entries: map<string, Value>)

  /** `bool(v)` */
  predicate Truthy(v: Value) {
    match v
    case Null => false
    case Bool(b) => b
    case Int(i) => i != 0
    case Float(r) => r != 0.0
    case Str(s) => s != []
    case List(xs) => xs != []
    case Dict(m) => m != map[]
  }

  /** `isinstance(v, (int, float))`; `bool` is a subclass of `int` in Python. */
  predicate IsNumber(v: Value) {
    v.Bool? || v.Int? || v.Float?
  }

  /** `float(v)` for a number. */
  function AsReal(v: Value): real
    requires IsNumber(v)
  {
    match v
    case Bool(b) => if b then 1.0 else 0.0
    case Int(i) => i as real
    case Float(r) => r
  }

  /** `d.get(key)` */
  function Get(d: map<string, Value>, key: string): (v: Value)
    ensures key !in d ==> v == Null
  {
    if key in d then d[key] else Null
  }

  /** `v or fallback` */
  function Or(v: Value, fallback: Value): (r: Value)
    ensures Truthy(v) ==> r == v
    ensures !Truthy(v) ==> r == fallback
  {
    if Truthy(v) then v else fallback
  }

  /** `(d.get(key) or {})` seen as a dict, for a value that is a dict when truthy. */
  function DictOr(v: Value): map<string, Value> {
    if v.Dict? then v.entries else map[]
  }

  /** Python `a == b`: numbers compare by value across int, float and bool. */
  predicate PyEq(a: Value, b: Value) {
    if IsNumber(a) || IsNumber(b) then IsNumber(a) && IsNumber(b) && AsReal(a) == AsReal(b)
    else match a
      case Null => b.Null?
      case Str(s) => b.Str? && b.s == s
      case List(xs) => b.List? && |xs| == |b.items| && forall i :: 0 <= i < |xs| ==> PyEq(xs[i], b.items[i])
      case Dict(m) => b.Dict? && m.Keys == b.entries.Keys && forall k :: k in m ==> PyEq(m[k], b.entries[k])
  }

  lemma {:induction false} PyEqReflexive(a: Value)
    ensures PyEq(a, a)
  {
    match a
    case List(xs) =>
      forall i | 0 <= i < |xs| ensures PyEq(xs[i], xs[i]) { PyEqReflexive(xs[i]); }
    case Dict(m) =>
      forall k | k in m ensures PyEq(m[k], m[k]) { PyEqReflexive(m[k]); }
    case _ =>
  }

  lemma {:induction false} PyEqSymmetric(a: Value, b: Value)
    requires PyEq(a, b)
    ensures PyEq(b, a)
  {
    if !IsNumber(a) && !IsNumber(b) {
      match a
      case List(xs) =>
        forall i | 0 <= i < |xs| ensures PyEq(b.items[i], xs[i]) { PyEqSymmetric(xs[i], b.items[i]); }
      case Dict(m) =>
        forall k | k in b.entries ensures PyEq(b.entries[k], m[k]) { PyEqSymmetric(m[k], b.entries[k]); }
      case _ =>
    }
  }

  /** A value whose `str()` the model renders exactly: None, a bool, an int or a string. */
  predicate IsTextual(v: Value) {
    v.Null? || v.Bool? || v.Int? || v.Str?
  }

  /** A value Python can hash, so that `v in {...}` does not raise. */
  predicate Hashable(v: Value) {
    !v.List? && !v.Dict?
  }

  /** `str(v)` for a textual value. */
  function PyStr(v: Value): string
    requires IsTextual(v)
  {
    match v
    case Null => "None"
    case Bool(b) => if b then "True" else "False"
    case Int(i) => IntToString(i)
    case Str(s) => s
  }

  /** `x in lst` for a Python list. */
  predicate InList(x: Value, lst: seq<Value>) {
    exists i :: 0 <= i < |lst| && PyEq(lst[i], x)
  }

  /** The items of a Python dict, in insertion order. */
  type Items = seq<(string, Value)>

  function KeysOf(items: Items): set<string> {
    set i | 0 <= i < |items| :: items[i].0
  }

  predicate DistinctKeys(items: Items) {
    forall i, j :: 0 <= i < j < |items| ==> items[i].0 != items[j].0
  }

  /** The dict built by inserting the items in order: a later item for a key replaces an earlier one. */
  function ItemsToMap(items: Items): (m: map<string, Value>)
    ensures m.Keys == KeysOf(items)
  {
    if items == [] then map[]
    else
      var init := items[..|items| - 1];
      assert KeysOf(items) == KeysOf(init) + {items[|items| - 1].0} by {
        assert forall i :: 0 <= i < |init| ==> init[i] == items[i];
      }
      ItemsToMap(init)[items[|items| - 1].0 := items[|items| - 1].1]
  }

  lemma KeysOfSnoc(items: Items, x: (string, Value))
    ensures KeysOf(items + [x]) == KeysOf(items) + {x.0}
  {
    var all := items + [x];
    assert forall i :: 0 <= i < |items| ==> all[i] == items[i];
    assert all[|items|] == x;
  }

  lemma ItemsToMapSnoc(items: Items, x: (string, Value))
    ensures ItemsToMap(items + [x]) == ItemsToMap(items)[x.0 := x.1]
  {
    assert (items + [x])[..|items|] == items;
  }

  lemma {:induction false} ItemsToMapAt(items: Items, i: nat)
    requires DistinctKeys(items) && i < |items|
    ensures items[i].0 in ItemsToMap(items) && ItemsToMap(items)[items[i].0] == items[i].1
  {
    var init := items[..|items| - 1];
    if i < |items| - 1 {
      ItemsToMapAt(init, i);
    }
  }

  /** Every item with key `k` takes the value `v`; the order is kept. */
  function ReplaceValue(items: Items, k: string, v: Value): (r: Items)
    ensures |r| == |items|
    ensures KeysOf(r) == KeysOf(items)
  {
    if items == [] then []
    else
      var init, last := items[..|items| - 1], items[|items| - 1];
      assert items == init + [last];
      var r0 := ReplaceValue(init, k, v);
      var x := if last.0 == k then (k, v) else last;
      KeysOfSnoc(init, last);
      KeysOfSnoc(r0, x);
      r0 + [x]
  }

  lemma {:induction false} ReplaceValueMap(items: Items, k: string, v: Value)
    requires k in KeysOf(items)
    ensures ItemsToMap(ReplaceValue(items, k, v)) == ItemsToMap(items)[k := v]
  {
    var init, last := items[..|items| - 1], items[|items| - 1];
    assert items == init + [last];
    var r0 := ReplaceValue(init, k, v);
    var x := if last.0 == k then (k, v) else last;
    assert ReplaceValue(items, k, v) == r0 + [x];
    ItemsToMapSnoc(r0, x);
    ItemsToMapSnoc(init, last);
    KeysOfSnoc(init, last);
    var m0 := ItemsToMap(init);
    if k in KeysOf(init) {
      ReplaceValueMap(init, k, v);
      assert ItemsToMap(r0) == m0[k := v];
    } else {
      ReplaceUnchanged(init, k, v);
      assert ItemsToMap(r0) == m0;
      assert last.0 == k;
    }
    if last.0 == k {
      UpdateTwice(m0, k, last.1, v);
      UpdateTwice(m0, k, v, v);
    } else {
      UpdateSwap(m0, k, v, last.0, last.1);
    }
  }

  lemma UpdateTwice(m: map<string, Value>, k: string, a: Value, b: Value)
    ensures m[k := a][k := b] == m[k := b]
  {
  }

  lemma UpdateSwap(m: map<string, Value>, k1: string, a: Value, k2: string, b: Value)
    requires k1 != k2
    ensures m[k1 := a][k2 := b] == m[k2 := b][k1 := a]
  {
  }

  lemma ReplaceKeepsDistinct(items: Items, k: string, v: Value)
    requires DistinctKeys(items)
    ensures DistinctKeys(ReplaceValue(items, k, v))
  {
    var r := ReplaceValue(items, k, v);
    ReplaceKeys(items, k, v);
  }

  lemma {:induction false} ReplaceKeys(items: Items, k: string, v: Value)
    ensures forall i :: 0 <= i < |items| ==> ReplaceValue(items, k, v)[i].0 == items[i].0
  {
    if items != [] {
      var init, last := items[..|items| - 1], items[|items| - 1];
      assert items == init + [last];
      ReplaceKeys(init, k, v);
    }
  }

  lemma {:induction false} ReplaceValueAt(items: Items, k: string, v: Value)
    ensures forall i :: 0 <= i < |items| ==>
      ReplaceValue(items, k, v)[i] == (if items[i].0 == k then (k, v) else items[i])
  {
    if items != [] {
      var init, last := items[..|items| - 1], items[|items| - 1];
      assert items == init + [last];
      ReplaceValueAt(init, k, v);
    }
  }

  lemma {:induction false} ReplaceUnchanged(items: Items, k: string, v: Value)
    requires k !in KeysOf(items)
    ensures ReplaceValue(items, k, v) == items
  {
    if items != [] {
      var init, last := items[..|items| - 1], items[|items| - 1];
      assert items == init + [last];
      KeysOfSnoc(init, last);
      ReplaceUnchanged(init, k, v);
    }
  }

  /** `d[k] = v` on an ordered dict: an existing key keeps its place and takes the new value,
      a new key goes to the end. */
  function Assign(items: Items, k: string, v: Value): (r: Items)
    ensures KeysOf(r) == KeysOf(items) + {k}
    ensures ItemsToMap(r) == ItemsToMap(items)[k := v]
    ensures DistinctKeys(items) ==> DistinctKeys(r)
    ensures k in KeysOf(items) ==> r == ReplaceValue(items, k, v)
    ensures k !in KeysOf(items) ==> r == items + [(k, v)]
  {
    if k in KeysOf(items) then
      ReplaceValueMap(items, k, v);
      if DistinctKeys(items) then ReplaceKeepsDistinct(items, k, v); ReplaceValue(items, k, v)
      else ReplaceValue(items, k, v)
    else
      KeysOfSnoc(items, (k, v));
      ItemsToMapSnoc(items, (k, v));
      items + [(k, v)]
  }
  /** The values of a list of results, or the first error in list order. */
  function AllOk<T, E>(rs: seq<Result<T, E>>): Result<seq<T>, E> {
    if rs == [] then Ok([])
    else
      var done :- AllOk(rs[..|rs| - 1]);
      var x :- rs[|rs| - 1];
      Ok(done + [x])
  }

  /** Success holds one value per result, in order. */
  lemma {:induction false} AllOkShape<T, E>(rs: seq<Result<T, E>>)
    ensures AllOk(rs).Ok? <==> forall i :: 0 <= i < |rs| ==> rs[i].Ok?
    ensures AllOk(rs).Ok? ==> |AllOk(rs).value| == |rs| && forall i :: 0 <= i < |rs| ==> rs[i] == Ok(AllOk(rs).value[i])
  {
    if rs != [] {
      var init := rs[..|rs| - 1];
      AllOkShape(init);
      assert forall i :: 0 <= i < |init| ==> init[i] == rs[i];
    }
  }

  /** A failure is the error of a result all of whose predecessors succeeded. */
  lemma {:induction false} AllOkFirstError<T, E>(rs: seq<Result<T, E>>)
    requires AllOk(rs).Err?
    ensures exists j :: 0 <= j < |rs| && rs[j] == Err(AllOk(rs).error) && forall k :: 0 <= k < j ==> rs[k].Ok?
  {
    var init := rs[..|rs| - 1];
    assert forall i :: 0 <= i < |init| ==> init[i] == rs[i];
    if AllOk(init).Err? {
      AllOkFirstError(init);
      var j :| 0 <= j < |init| && init[j] == Err(AllOk(init).error) && forall k :: 0 <= k < j ==> init[k].Ok?;
      assert rs[j] == init[j];
    } else {
      AllOkShape(init);
      assert rs[|rs| - 1] == Err(AllOk(rs).error);
    }
  }

  lemma AllOkStep<T, E>(rs: seq<Result<T, E>>, i: nat)
    requires i < |rs|
    ensures AllOk(rs[..i]).Ok? && rs[i].Err? ==> AllOk(rs[..i + 1]) == Err(rs[i].error)
    ensures AllOk(rs[..i]).Ok? && rs[i].Ok? ==> AllOk(rs[..i + 1]) == Ok(AllOk(rs[..i]).value + [rs[i].value])
  {
    assert rs[..i + 1][..i] == rs[..i];
  }

  /** Once a prefix fails, the whole list fails with the same error. */
  lemma {:induction false} AllOkKeepsError<T, E>(rs: seq<Result<T, E>>, n: nat)
    requires n <= |rs| && AllOk(rs[..n]).Err?
    ensures AllOk(rs) == AllOk(rs[..n])
    decreases |rs| - n
  {
    if n < |rs| {
      assert rs[..n + 1][..n] == rs[..n];
      AllOkKeepsError(rs, n + 1);
    } else {
      assert rs[..n] == rs;
    }
  }
}
