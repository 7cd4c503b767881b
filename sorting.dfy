/** The stable sort that Python's `sorted` and `list.sort` perform, over a
    "sorts no later than" relation. */
module Sorting {
  import opened Text

  ghost predicate TotalPreorder<T(!new)>(le: (T, T) -> bool) {
    && (forall a, b :: le(a, b) || le(b, a))
    && (forall a, b, c :: le(a, b) && le(b, c) ==> le(a, c))
  }

  predicate SortedBy<T>(s: seq<T>, le: (T, T) -> bool) {
    forall i, j :: 0 <= i < j < |s| ==> le(s[i], s[j])
  }

  /** Inserts `x` in front of the first element it may precede, so that `x`
      stays ahead of the elements it ties with. */
  function Insert<T>(x: T, s: seq<T>, le: (T, T) -> bool): (r: seq<T>)
    ensures multiset(r) == multiset(s) + multiset{x}
    ensures |r| == |s| + 1
  {
    if s == [] || le(x, s[0]) then [x] + s
    else assert s == [s[0]] + s[1..]; [s[0]] + Insert(x, s[1..], le)
  }

  /** Stable insertion sort: equal elements keep their input order. */
  function Sort<T>(s: seq<T>, le: (T, T) -> bool): (r: seq<T>)
    ensures multiset(r) == multiset(s)
    ensures |r| == |s|
  {
    if s == [] then [] else assert s == [s[0]] + s[1..]; Insert(s[0], Sort(s[1..], le), le)
  }

  /** `a` and `b` have equal sort keys: each may precede the other. */
  predicate Tied<T>(a: T, b: T, le: (T, T) -> bool) {
    le(a, b) && le(b, a)
  }

  /** The elements of `s` whose sort key equals that of `k`, in their order in `s`. */
  function TiedWith<T>(s: seq<T>, k: T, le: (T, T) -> bool): (r: seq<T>)
    ensures |r| <= |s|
  {
    if s == [] then [] else (if Tied(s[0], k, le) then [s[0]] else []) + TiedWith(s[1..], k, le)
  }

  /** Inserting `x` puts it ahead of every element it ties with. */
  lemma {:induction false} InsertTied<T(!new)>(x: T, s: seq<T>, k: T, le: (T, T) -> bool)
    requires TotalPreorder(le)
    ensures TiedWith(Insert(x, s, le), k, le) == (if Tied(x, k, le) then [x] else []) + TiedWith(s, k, le)
  {
    var r := Insert(x, s, le);
    var head := if Tied(x, k, le) then [x] else [];
    if s == [] || le(x, s[0]) {
      assert r == [x] + s;
      assert r[1..] == s;
      assert TiedWith(r, k, le) == head + TiedWith(s, k, le);
    } else {
      var t := Insert(x, s[1..], le);
      assert r == [s[0]] + t;
      assert r[1..] == t;
      InsertTied(x, s[1..], k, le);
      assert TiedWith(t, k, le) == head + TiedWith(s[1..], k, le);
      var first := if Tied(s[0], k, le) then [s[0]] else [];
      assert TiedWith(r, k, le) == first + TiedWith(t, k, le);
      assert TiedWith(s, k, le) == first + TiedWith(s[1..], k, le);
      if Tied(x, k, le) {
        var y := s[0];
        assert Tied(y, k, le) ==> le(x, k) && le(k, y);
        assert first == [];
      } else {
        assert head == [];
      }
    }
  }

  /** The sort is stable: for every key, the elements with that key come out in their input order. */
  lemma {:induction false} SortStable<T(!new)>(s: seq<T>, k: T, le: (T, T) -> bool)
    requires TotalPreorder(le)
    ensures TiedWith(Sort(s, le), k, le) == TiedWith(s, k, le)
  {
    if s != [] {
      SortStable(s[1..], k, le);
      InsertTied(s[0], Sort(s[1..], le), k, le);
    }
  }

  lemma {:induction false} InsertSorted<T(!new)>(x: T, s: seq<T>, le: (T, T) -> bool)
    requires TotalPreorder(le)
    requires SortedBy(s, le)
    ensures SortedBy(Insert(x, s, le), le)
  {
    if s != [] && !le(x, s[0]) {
      InsertSorted(x, s[1..], le);
      var r := Insert(x, s, le);
      var t := Insert(x, s[1..], le);
      assert r == [s[0]] + t;
      forall j | 0 < j < |r| ensures le(r[0], r[j]) {
        assert r[j] in multiset(t);
        assert r[j] in multiset(s[1..]) + multiset{x};
        if r[j] == x {
        } else {
          assert r[j] in s[1..];
        }
      }
    }
  }

  lemma {:induction false} SortIsSorted<T(!new)>(s: seq<T>, le: (T, T) -> bool)
    requires TotalPreorder(le)
    ensures SortedBy(Sort(s, le), le)
  {
    if s != [] {
      SortIsSorted(s[1..], le);
      InsertSorted(s[0], Sort(s[1..], le), le);
    }
  }

  /** Sorting a list that is already in order leaves it unchanged. */
  lemma {:induction false} SortOfSorted<T(!new)>(s: seq<T>, le: (T, T) -> bool)
    requires SortedBy(s, le)
    ensures Sort(s, le) == s
  {
    if s != [] {
      SortOfSorted(s[1..], le);
      assert Sort(s[1..], le) == s[1..];
      if |s| > 1 { assert le(s[0], s[1]); }
    }
  }

  predicate NoDuplicates<T(==)>(s: seq<T>) {
    forall i, j :: 0 <= i < j < |s| ==> s[i] != s[j]
  }

  lemma {:induction false} NoDuplicatesMultiplicity<T>(s: seq<T>, x: T)
    requires NoDuplicates(s)
    ensures multiset(s)[x] <= 1
  {
    if s != [] {
      var init := s[..|s| - 1];
      NoDuplicatesMultiplicity(init, x);
      assert s == init + [s[|s| - 1]];
      if x == s[|s| - 1] {
        assert x !in init;
      }
    }
  }

  lemma TwiceMultiplicity<T>(s: seq<T>, i: nat, j: nat)
    requires i < j < |s| && s[i] == s[j]
    ensures multiset(s)[s[i]] >= 2
  {
    assert s == s[..i] + [s[i]] + s[i + 1..j] + s[j..];
    assert s[j] in s[j..];
  }

  /** Sorting keeps the elements, and a list without duplicates stays without them. */
  lemma SortMembers<T>(s: seq<T>, le: (T, T) -> bool)
    ensures forall x :: x in Sort(s, le) <==> x in s
    ensures NoDuplicates(s) ==> NoDuplicates(Sort(s, le))
  {
    var r := Sort(s, le);
    forall x ensures x in r <==> x in s {
      assert x in r <==> x in multiset(r);
      assert x in s <==> x in multiset(s);
    }
    if NoDuplicates(s) {
      forall i, j | 0 <= i < j < |r| ensures r[i] != r[j] {
        if r[i] == r[j] {
          NoDuplicatesMultiplicity(s, r[i]);
          TwiceMultiplicity(r, i, j);
        }
      }
    }
  }

  /** Python's `<` order on strings, as a "sorts no later than" relation. */
  function StrLe(a: string, b: string): bool {
    LexLe(a, b)
  }

  lemma StrLeTotalPreorder()
    ensures TotalPreorder(StrLe)
  {
    forall a, b ensures StrLe(a, b) || StrLe(b, a) { LexLeTotal(a, b); }
    forall a, b, c | StrLe(a, b) && StrLe(b, c) ensures StrLe(a, c) { LexLeTransitive(a, b, c); }
  }

  /** The strings of a set, in some order. */
  ghost function Enumerate(s: set<string>): (r: seq<string>)
    ensures forall x :: x in r <==> x in s
    ensures NoDuplicates(r)
    decreases s
  {
    if s == {} then []
    else
      var x :| x in s;
      var rest := Enumerate(s - {x});
      assert x !in rest;
      [x] + rest
  }

  /** `sorted(s)` for a set of strings: its elements in ascending order. */
  ghost function SortedStrings(s: set<string>): (r: seq<string>)
    ensures SortedBy(r, StrLe) && NoDuplicates(r)
    ensures forall x :: x in r <==> x in s
  {
    StrLeTotalPreorder();
    SortIsSorted(Enumerate(s), StrLe);
    SortMembers(Enumerate(s), StrLe);
    Sort(Enumerate(s), StrLe)
  }

  /** Two ascending listings of the same strings without duplicates are the same list. */
  lemma {:induction false} SortedUnique(a: seq<string>, b: seq<string>)
    requires SortedBy(a, StrLe) && NoDuplicates(a)
    requires SortedBy(b, StrLe) && NoDuplicates(b)
    requires forall x :: x in a <==> x in b
    ensures a == b
  {
    assert b != [] ==> b[0] in a;
    if a != [] {
      assert a[0] in b;
      var i :| 0 <= i < |a| && a[i] == b[0];
      var j :| 0 <= j < |b| && b[j] == a[0];
      assert StrLe(a[0], b[0]) by {
        if i > 0 {
          assert StrLe(a[0], a[i]);
        } else {
          LexLeTotal(a[0], b[0]);
        }
      }
      assert StrLe(b[0], a[0]) by {
        if j > 0 {
          assert StrLe(b[0], b[j]);
        } else {
          LexLeTotal(a[0], b[0]);
        }
      }
      LexLeAntisymmetric(a[0], b[0]);
      forall x ensures x in a[1..] <==> x in b[1..] {
        if x in a[1..] {
          var k :| 1 <= k < |a| && a[k] == x;
          assert x in b;
          var m :| 0 <= m < |b| && b[m] == x;
          assert m != 0;
          assert b[1..][m - 1] == x;
        }
        if x in b[1..] {
          var k :| 1 <= k < |b| && b[k] == x;
          assert x in a;
          var m :| 0 <= m < |a| && a[m] == x;
          assert m != 0;
          assert a[1..][m - 1] == x;
        }
      }
      SortedUnique(a[1..], b[1..]);
      assert a == [a[0]] + a[1..] && b == [b[0]] + b[1..];
    }
  }

  /** `sorted(s)`: lists the set in some order and sorts the list. */
  method SortedKeys(s: set<string>) returns (r: seq<string>)
    ensures r == SortedStrings(s)
  {
    var rest := s;
    var xs: seq<string> := [];
    while rest != {}
      invariant rest <= s
      invariant forall x :: x in xs <==> x in s && x !in rest
      invariant NoDuplicates(xs)
      decreases rest
    {
      var k :| k in rest;
      xs := xs + [k];
      rest := rest - {k};
    }
    r := Sort(xs, StrLe);
    StrLeTotalPreorder();
    SortIsSorted(xs, StrLe);
    SortMembers(xs, StrLe);
    SortedUnique(r, SortedStrings(s));
  }
}
