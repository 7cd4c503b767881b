/** Runtime settings of the diagnostics server: the comma-separated allow-list of CORS
    origins and the reconciliation of the two upload-size settings. Environment variables
    arrive as parameters. */
module Settings {
  import opened Text
  import opened Values

  /** Non-empty text without surrounding whitespace. */
  predicate Clean(s: string) {
    s != [] && !IsSpace(s[0]) && !IsSpace(s[|s| - 1])
  }

  /** `strip()` leaves clean text alone and makes any non-empty result clean. */
  lemma StripClean(s: string)
    ensures Clean(s) ==> Strip(s) == s
    ensures Strip(s) != [] ==> Clean(Strip(s))
  {
  }

  /** The stripped, non-empty pieces of a split, in order. */
  function Cleaned(parts: seq<string>): (r: seq<string>)
    ensures |r| <= |parts|
    ensures forall i :: 0 <= i < |r| ==> Clean(r[i])
  {
    if parts == [] then []
    else
      var item := Strip(parts[|parts| - 1]);
      StripClean(parts[|parts| - 1]);
      Cleaned(parts[..|parts| - 1]) + (if item != [] then [item] else [])
  }

  /** A character missing from every piece is missing from every cleaned piece. */
  lemma {:induction false} CleanedWithout(parts: seq<string>, c: char)
    requires forall i :: 0 <= i < |parts| ==> c !in parts[i]
    ensures forall i :: 0 <= i < |Cleaned(parts)| ==> c !in Cleaned(parts)[i]
  {
    if parts != [] {
      CleanedWithout(parts[..|parts| - 1], c);
      StripWithin(parts[|parts| - 1], c);
    }
  }

  lemma CleanedSnoc(parts: seq<string>, x: string)
    ensures Cleaned(parts + [x]) == Cleaned(parts) + (if Strip(x) != [] then [Strip(x)] else [])
  {
    assert (parts + [x])[..|parts|] == parts;
  }

  lemma SnocSplit<T>(a: seq<T>, b: seq<T>)
    requires b != []
    ensures a + b == (a + b[..|b| - 1]) + [b[|b| - 1]] && b == b[..|b| - 1] + [b[|b| - 1]]
  {
  }

  /** Cleaning two runs of pieces is cleaning each and concatenating: the order is kept. */
  lemma {:induction false} CleanedAppend(a: seq<string>, b: seq<string>)
    ensures Cleaned(a + b) == Cleaned(a) + Cleaned(b)
  {
    if b == [] {
      assert a + b == a;
    } else {
      var b0, x := b[..|b| - 1], b[|b| - 1];
      var tail := if Strip(x) != [] then [Strip(x)] else [];
      SnocSplit(a, b);
      CleanedAppend(a, b0);
      CleanedSnoc(a + b0, x);
      CleanedSnoc(b0, x);
      calc {
        Cleaned(a + b);
        Cleaned((a + b0) + [x]);
        Cleaned(a + b0) + tail;
        (Cleaned(a) + Cleaned(b0)) + tail;
        { ConcatAssoc(Cleaned(a), Cleaned(b0), tail); }
        Cleaned(a) + (Cleaned(b0) + tail);
        Cleaned(a) + Cleaned(b0 + [x]);
        Cleaned(a) + Cleaned(b);
      }
    }
  }

  /** `_comma_separated_list(value)`: `None` or `""` gives no items; otherwise the stripped,
      non-empty pieces between the commas. */
  function CommaSeparatedList(value: Option<string>): (r: seq<string>)
    ensures value.None? || value == Some([]) ==> r == []
    ensures forall i :: 0 <= i < |r| ==> Clean(r[i]) && ',' !in r[i]
  {
    if value.None? || value.value == [] then []
    else
      var parts := SplitOn(value.value, ',');
      CleanedWithout(parts, ',');
      Cleaned(parts)
  }

  /** `strip()` removes characters and adds none. */
  lemma StripWithin(s: string, c: char)
    requires c !in s
    ensures c !in Strip(s)
  {
    var l := LStrip(s);
    SliceWithin(s, |s| - |l|, |s|, c);
    SliceWithin(l, 0, |RStrip(l)|, c);
  }

  lemma SliceWithin<T>(s: seq<T>, i: nat, j: nat, x: T)
    requires i <= j <= |s| && x !in s
    ensures x !in s[i..j]
  {
    assert forall k :: 0 <= k < j - i ==> s[i..j][k] == s[i + k];
  }

  /** Items without commas or surrounding whitespace survive a join and a parse unchanged. */
  lemma {:induction false} CommaListRoundTrip(items: seq<string>)
    requires items != []
    requires forall i :: 0 <= i < |items| ==> Clean(items[i]) && ',' !in items[i]
    ensures CommaSeparatedList(Some(Join(",", items))) == items
  {
    var text := Join(",", items);
    JoinNonEmpty(items);
    SplitJoinInverse(items);
    CleanedClean(items);
    assert CommaSeparatedList(Some(text)) == Cleaned(SplitOn(text, ','));
  }

  lemma {:induction false} JoinNonEmpty(items: seq<string>)
    requires items != [] && items[0] != []
    ensures Join(",", items) != []
  {
    if |items| > 1 {
      assert Join(",", items) == items[0] + "," + Join(",", items[1..]);
    }
  }

  /** Pieces that are already clean are kept as they are. */
  lemma {:induction false} CleanedClean(items: seq<string>)
    requires forall i :: 0 <= i < |items| ==> Clean(items[i])
    ensures Cleaned(items) == items
  {
    if items != [] {
      CleanedClean(items[..|items| - 1]);
      StripClean(items[|items| - 1]);
      assert items == items[..|items| - 1] + [items[|items| - 1]];
    }
  }

  /** Splitting a join of comma-free pieces gives the pieces back. */
  lemma {:induction false} SplitJoinInverse(items: seq<string>)
    requires items != []
    requires forall i :: 0 <= i < |items| ==> ',' !in items[i]
    ensures SplitOn(Join(",", items), ',') == items
  {
    if |items| > 1 {
      var rest := Join(",", items[1..]);
      assert Join(",", items) == items[0] + [','] + rest;
      SplitAtFirst(items[0], ',', rest);
      SplitJoinInverse(items[1..]);
      assert items == [items[0]] + items[1..];
    }
  }

  /** The first separator of `a + [c] + rest`, for `a` without one, ends `a`. */
  lemma SplitAtFirst(a: string, c: char, rest: string)
    requires c !in a
    ensures SplitOn(a + [c] + rest, c) == [a] + SplitOn(rest, c)
  {
    var s := a + [c] + rest;
    assert s[|a|] == c;
    FirstIndex(a, c, rest);
    assert s[..|a|] == a && s[|a| + 1..] == rest;
  }

  lemma {:induction false} FirstIndex(a: string, c: char, rest: string)
    requires c !in a
    ensures c in a + [c] + rest && IndexOf(a + [c] + rest, c) == |a|
  {
    var s := a + [c] + rest;
    assert s[|a|] == c;
    if a != [] {
      assert s[0] == a[0];
      assert s[1..] == a[1..] + [c] + rest;
      FirstIndex(a[1..], c, rest);
    }
  }

  const Mebibyte := 1024 * 1024
  const DefaultUploadMaxMb := 10

  /** `math.ceil(n / d)` for a positive divisor. */
  function CeilDiv(n: int, d: int): (q: int)
    requires d > 0
    ensures (q - 1) * d < n <= q * d
  {
    -((-n) / d)
  }

  /** The two upload limits after reconciliation: the byte limit is raised to cover the
      megabyte limit, or else the megabyte limit is rounded up to cover the byte limit. */
  function Reconciled(uploadMaxMb: int, maxUploadBytes: int): (r: (int, int))
    ensures r.1 == if maxUploadBytes < uploadMaxMb * Mebibyte then uploadMaxMb * Mebibyte else maxUploadBytes
    ensures r.1 >= uploadMaxMb * Mebibyte && r.1 >= maxUploadBytes
    ensures r.0 >= uploadMaxMb
    ensures r.1 <= r.0 * Mebibyte
    ensures r.0 > uploadMaxMb ==> (r.0 - 1) * Mebibyte < r.1
  {
    if maxUploadBytes < uploadMaxMb * Mebibyte then (uploadMaxMb, uploadMaxMb * Mebibyte)
    else
      var q := CeilDiv(maxUploadBytes, Mebibyte);
      (if uploadMaxMb >= q then uploadMaxMb else q, maxUploadBytes)
  }

  /** The byte limit can fall short of the megabyte limit once the latter is rounded up:
      10 MiB and one byte give an 11 MB limit. */
  lemma ReconciledRoundsUp()
    ensures Reconciled(10, 10 * Mebibyte + 1) == (11, 10 * Mebibyte + 1)
    ensures Reconciled(10, 10 * Mebibyte + 1).1 < Reconciled(10, 10 * Mebibyte + 1).0 * Mebibyte
  {
  }

  /** A byte setting that is a whole number of megabytes is never short of the megabyte limit. */
  lemma ReconciledWhole(uploadMaxMb: int, mb: int)
    ensures var r := Reconciled(uploadMaxMb, mb * Mebibyte); r.1 == r.0 * Mebibyte
  {
    var r := Reconciled(uploadMaxMb, mb * Mebibyte);
    if mb * Mebibyte >= uploadMaxMb * Mebibyte {
      assert CeilDiv(mb * Mebibyte, Mebibyte) == mb;
      assert mb >= uploadMaxMb;
    }
  }

  /** The module-level assignments of `UPLOAD_MAX_MB` and `MAX_UPLOAD_BYTES`, each variable's
      environment value already converted by `int()`; the byte limit defaults to the
      megabyte limit. */
  method UploadLimits(mbSetting: Option<int>, bytesSetting: Option<int>) returns (uploadMaxMb: int, maxUploadBytes: int)
    ensures var mb := if mbSetting.Some? then mbSetting.value else DefaultUploadMaxMb;
      var bytes := if bytesSetting.Some? then bytesSetting.value else mb * Mebibyte;
      (uploadMaxMb, maxUploadBytes) == Reconciled(mb, bytes)
    ensures mbSetting.None? && bytesSetting.None? ==> uploadMaxMb == 10 && maxUploadBytes == 10 * Mebibyte
  {
    uploadMaxMb := if mbSetting.Some? then mbSetting.value else DefaultUploadMaxMb;
    maxUploadBytes := if bytesSetting.Some? then bytesSetting.value else uploadMaxMb * Mebibyte;
    if maxUploadBytes < uploadMaxMb * Mebibyte {
      maxUploadBytes := uploadMaxMb * Mebibyte;
    } else {
      var q := CeilDiv(maxUploadBytes, Mebibyte);
      uploadMaxMb := if uploadMaxMb >= q then uploadMaxMb else q;
    }
    if mbSetting.None? && bytesSetting.None? {
      ReconciledWhole(DefaultUploadMaxMb, DefaultUploadMaxMb);
    }
  }
}
