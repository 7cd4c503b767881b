/** The minimal YAML loader used by the build scripts: significant lines with their
    indentation, scalars and inline `[...]` / `{...}` collections, a splitter that respects
    brackets and quotes, and indentation-driven blocks and lists.
    Python's `float(token)` and `int(token)` are the `Numbers` parameter. */
module MiniYaml {
  import opened Text
  import opened Values

  /** `_Line`: the count of leading spaces and the stripped text without its comment. */
  datatype Line = Line(indent: nat, content: string)

  /** The `ValueError`s the loader raises. */
  datatype YamlError =
    | UnexpectedIndentation(content: string)
    | ListItemWithoutKey
    | InvalidMappingToken(item: string)

  /** Python's `int(token)` and `float(token)`: `None` where Python raises `ValueError`. */
  datatype Numbers = Numbers(toInt: string -> Option<int>, toFloat: string -> Option<real>)

  const CommentMark: string := " #"
  const ItemMark: string := "- "
  const TrueWord: string := "true"
  const FalseWord: string := "false"
  const NullWord: string := "null"
  const NoneWord: string := "none"

  // ---------------------------------------------------------------------------------------
  // _iter_lines

  /** What `_iter_lines` yields as content: non-empty, not a comment, without surrounding
      whitespace and without a " #" comment marker. */
  predicate Clean(content: string) {
    && content != []
    && content[0] != '#'
    && !IsSpace(content[0]) && !IsSpace(content[|content| - 1])
    && !Contains(content, CommentMark)
  }

  /** Cutting a stripped, non-comment text at its first " #" and right-stripping leaves clean content. */
  lemma TruncateClean(stripped: string, h: int)
    requires stripped != [] && stripped[0] != '#' && !IsSpace(stripped[0]) && !IsSpace(stripped[|stripped| - 1])
    requires h == Find(stripped, CommentMark)
    ensures h == -1 ==> Clean(stripped)
    ensures h != -1 ==> 0 < h < |stripped| && Clean(RStrip(stripped[..h]))
  {
    if h != -1 {
      assert stripped[h] == CommentMark[0];
      var prefix := stripped[..h];
      var content := RStrip(prefix);
      assert content[0] == stripped[0];
      NoEarlierMark(stripped, h, content);
    }
  }

  /** The part of a text before its first " #" holds no " #". */
  lemma NoEarlierMark(stripped: string, h: int, content: string)
    requires h == Find(stripped, CommentMark) && h != -1
    requires |content| <= h && content == stripped[..|content|]
    ensures Find(content, CommentMark) == -1
  {
    var j := Find(content, CommentMark);
    if j != -1 {
      PrefixSlice(stripped, content, j, j + 2);
      assert OccursAt(stripped, CommentMark, j);
    }
  }

  lemma PrefixSlice<T>(s: seq<T>, p: seq<T>, a: nat, b: nat)
    requires a <= b <= |p| <= |s| && p == s[..|p|]
    ensures p[a..b] == s[a..b]
  {
  }

  /** One raw line as `_iter_lines` sees it: nothing for a blank or a comment line. */
  function LineOf(raw: string): (r: Option<Line>)
    ensures r.None? <==> (Strip(raw) == [] || Strip(raw)[0] == '#')
    ensures r.Some? ==> r.value.indent == LeadingCount(raw, ' ') && Clean(r.value.content)
  {
    var stripped := Strip(raw);
    if stripped == [] || stripped[0] == '#' then None
    else
      var h := Find(stripped, CommentMark);
      TruncateClean(stripped, h);
      Some(Line(LeadingCount(raw, ' '), if h != -1 then RStrip(stripped[..h]) else stripped))
  }

  /** A kept line's content is its stripped text cut at the first " #", without the spaces
      before the mark; a line without the mark keeps all its stripped text. */
  lemma LineOfContent(raw: string)
    requires LineOf(raw).Some?
    ensures var s := Strip(raw); var h := Find(s, CommentMark); var c := LineOf(raw).value.content;
              && (h == -1 ==> c == s)
              && (h != -1 ==> c <= s[..h] && forall i :: |c| <= i < h ==> IsSpace(s[i]))
  {
    var s := Strip(raw);
    var h := Find(s, CommentMark);
    if h != -1 {
      var p := s[..h];
      var c := RStrip(p);
      assert LineOf(raw).value.content == c;
      forall i | |c| <= i < h ensures IsSpace(s[i]) {
        assert p[i] == s[i];
      }
    }
  }

  /** The lines `_iter_lines` yields for the given raw lines, in order. */
  function LinesOf(raws: seq<string>): (lines: seq<Line>)
    ensures |lines| <= |raws|
    ensures forall i :: 0 <= i < |lines| ==> Clean(lines[i].content)
    ensures lines == [] <==> forall i :: 0 <= i < |raws| ==> LineOf(raws[i]).None?
  {
    if raws == [] then []
    else
      var init := LinesOf(raws[..|raws| - 1]);
      var last := LineOf(raws[|raws| - 1]);
      assert raws == raws[..|raws| - 1] + [raws[|raws| - 1]];
      LinesOfStep(raws[..|raws| - 1], raws[|raws| - 1], init, last, LineOf);
      init + (if last.Some? then [last.value] else [])
  }

  /** The contract of `LinesOf` carries over from all raw lines but the last to all of them. */
  lemma LinesOfStep(init: seq<string>, x: string, lines: seq<Line>, last: Option<Line>, f: string -> Option<Line>)
    requires last == f(x) && (last.Some? ==> Clean(last.value.content))
    requires |lines| <= |init| && forall i :: 0 <= i < |lines| ==> Clean(lines[i].content)
    requires lines == [] <==> forall i :: 0 <= i < |init| ==> f(init[i]).None?
    ensures var r := lines + (if last.Some? then [last.value] else []);
      && |r| <= |init + [x]|
      && (forall i :: 0 <= i < |r| ==> Clean(r[i].content))
      && (r == [] <==> forall i :: 0 <= i < |init + [x]| ==> f((init + [x])[i]).None?)
  {
    var r := lines + (if last.Some? then [last.value] else []);
    assert forall i :: 0 <= i < |init| ==> (init + [x])[i] == init[i];
    assert (init + [x])[|init|] == x;
    assert forall i :: 0 <= i < |lines| ==> r[i] == lines[i];
  }

  /** `_iter_lines(text)` over the text's lines. */
  method IterLines(text: string) returns (lines: seq<Line>)
    ensures lines == LinesOf(SplitOn(text, '\n'))
  {
    var raws := SplitOn(text, '\n');
    lines := [];
    for i := 0 to |raws|
      invariant lines == LinesOf(raws[..i])
    {
      assert raws[..i + 1][..i] == raws[..i];
      var line := LineOf(raws[i]);
      if line.Some? {
        lines := lines + [line.value];
      }
    }
    assert raws[..|raws|] == raws;
  }

  // ---------------------------------------------------------------------------------------
  // _split_items

  /** The loop state of `_split_items`, with the finished items kept unstripped: `items` of
      the loop is `StripAll(pieces)`. */
  datatype ScanState = ScanState(pieces: seq<string>, current: string, depth: int, quote: Option<char>, escape: bool)

  const Start: ScanState := ScanState([], [], 0, None, false)

  predicate IsQuote(c: char) {
    c == '"' || c == '\''
  }

  /** One character of the `_split_items` loop. */
  function Step(st: ScanState, ch: char): ScanState {
    if st.quote.Some? then
      var st' := st.(current := st.current + [ch]);
      if st.escape then st'.(escape := false)
      else if ch == '\\' then st'.(escape := true)
      else if ch == st.quote.value then st'.(quote := None)
      else st'
    else if IsQuote(ch) then st.(quote := Some(ch), current := st.current + [ch])
    else if ch == '[' || ch == '{' then st.(depth := st.depth + 1, current := st.current + [ch])
    else if ch == ']' || ch == '}' then st.(depth := st.depth - 1, current := st.current + [ch])
    else if ch == ',' && st.depth == 0 then st.(pieces := st.pieces + [st.current], current := [])
    else st.(current := st.current + [ch])
  }

  /** The state after scanning `text` from `st`. */
  function ScanFrom(st: ScanState, text: string): ScanState
    decreases |text|
  {
    if text == [] then st else Step(ScanFrom(st, text[..|text| - 1]), text[|text| - 1])
  }

  function Scan(text: string): ScanState {
    ScanFrom(Start, text)
  }

  /** The non-empty strings of `xs`, in order. */
  function NonEmpty(xs: seq<string>): (r: seq<string>)
    ensures |r| <= |xs|
    ensures forall i :: 0 <= i < |r| ==> r[i] != [] && r[i] in xs
  {
    if xs == [] then []
    else
      var init := NonEmpty(xs[..|xs| - 1]);
      assert forall i :: 0 <= i < |init| ==> init[i] in xs;
      if xs[|xs| - 1] != [] then init + [xs[|xs| - 1]] else init
  }

  lemma NonEmptySnoc(xs: seq<string>, y: string)
    ensures NonEmpty(xs + [y]) == if y != [] then NonEmpty(xs) + [y] else NonEmpty(xs)
  {
    assert (xs + [y])[..|xs|] == xs;
  }

  /** A string with no whitespace at either end. */
  predicate Trimmed(s: string) {
    s == [] || (!IsSpace(s[0]) && !IsSpace(s[|s| - 1]))
  }

  function StripAll(xs: seq<string>): (r: seq<string>)
    ensures |r| == |xs| && forall i :: 0 <= i < |xs| ==> r[i] == Strip(xs[i]) && Trimmed(r[i])
  {
    seq(|xs|, i requires 0 <= i < |xs| => Strip(xs[i]))
  }

  lemma StripAllSnoc(xs: seq<string>, y: string)
    ensures StripAll(xs + [y]) == StripAll(xs) + [Strip(y)]
  {
  }

  /** A step either extends the current item by one character or finishes it. */
  lemma StepShape(st: ScanState, ch: char)
    ensures var r := Step(st, ch);
      || (r.pieces == st.pieces && |r.current| == |st.current| + 1)
      || (r.pieces == st.pieces + [st.current] && r.current == [])
  {
  }

  /** No piece of a scan is longer than the text. */
  lemma {:induction false} ScanShape(text: string)
    ensures |Scan(text).current| <= |text|
    ensures forall i :: 0 <= i < |Scan(text).pieces| ==> |Scan(text).pieces[i]| <= |text|
    decreases |text|
  {
    if text != [] {
      var init := text[..|text| - 1];
      ScanShape(init);
      StepShape(Scan(init), text[|text| - 1]);
      assert Scan(text) == Step(Scan(init), text[|text| - 1]);
    }
  }

  /** `_split_items(text)`: the non-empty, stripped items between top-level commas. */
  function ItemsOf(text: string): (r: seq<string>)
    ensures forall i :: 0 <= i < |r| ==> r[i] != [] && Trimmed(r[i]) && |r[i]| <= |text|
  {
    var st := Scan(text);
    ScanShape(text);
    NonEmpty(StripAll(st.pieces + [st.current]))
  }

  /** `_split_items`: the character loop over `text`. */
  method SplitItems(text: string) returns (result: seq<string>)
    ensures result == ItemsOf(text)
  {
    var items: seq<string> := [];
    var current: string := [];
    var depth := 0;
    var quote: Option<char> := None;
    var escape := false;
    ghost var pieces: seq<string> := [];
    for i := 0 to |text|
      invariant ScanState(pieces, current, depth, quote, escape) == Scan(text[..i])
      invariant items == StripAll(pieces)
    {
      var ch := text[i];
      assert text[..i + 1][..i] == text[..i];
      if quote.Some? {
        current := current + [ch];
        if escape {
          escape := false;
        } else if ch == '\\' {
          escape := true;
        } else if ch == quote.value {
          quote := None;
        }
      } else if IsQuote(ch) {
        quote := Some(ch);
        current := current + [ch];
      } else if ch == '[' || ch == '{' {
        depth := depth + 1;
        current := current + [ch];
      } else if ch == ']' || ch == '}' {
        depth := depth - 1;
        current := current + [ch];
      } else if ch == ',' && depth == 0 {
        StripAllSnoc(pieces, current);
        items := items + [Strip(current)];
        pieces := pieces + [current];
        current := [];
      } else {
        current := current + [ch];
      }
    }
    assert text[..|text|] == text;
    StripAllSnoc(pieces, current);
    NonEmptySnoc(items, Strip(current));
    if current != [] {
      items := items + [Strip(current)];
    }
    result := NonEmpty(items);
  }

  /** A character finishes an item only when it is a comma outside quotes and brackets. */
  lemma SplitsOnlyAtTopLevelComma(st: ScanState, ch: char)
    ensures Step(st, ch).pieces != st.pieces <==> (ch == ',' && st.quote.None? && st.depth == 0)
    ensures Step(st, ch).pieces != st.pieces ==> Step(st, ch).pieces == st.pieces + [st.current]
  {
  }

  lemma {:induction false} ScanFromAppend(st: ScanState, a: string, b: string)
    ensures ScanFrom(st, a + b) == ScanFrom(ScanFrom(st, a), b)
    decreases |b|
  {
    if b == [] {
      assert a + b == a;
    } else {
      assert (a + b)[..|a + b| - 1] == a + b[..|b| - 1];
      ScanFromAppend(st, a, b[..|b| - 1]);
    }
  }

  /** Inside an open quote, text without that quote and without backslashes is only collected. */
  lemma {:induction false} InsideQuote(st: ScanState, body: string)
    requires st.quote.Some? && !st.escape
    requires forall i :: 0 <= i < |body| ==> body[i] != st.quote.value && body[i] != '\\'
    ensures ScanFrom(st, body) == st.(current := st.current + body)
    decreases |body|
  {
    if body != [] {
      InsideQuote(st, body[..|body| - 1]);
      assert st.current + body[..|body| - 1] + [body[|body| - 1]] == st.current + body;
    } else {
      assert st.current + body == st.current;
    }
  }

  /** A quoted segment is added to the current item whole: its commas do not split. */
  lemma QuotedSegment(st: ScanState, q: char, body: string)
    requires st.quote.None? && !st.escape && IsQuote(q)
    requires forall i :: 0 <= i < |body| ==> body[i] != q && body[i] != '\\'
    ensures ScanFrom(st, [q] + body + [q]) == st.(current := st.current + [q] + body + [q])
  {
    var start := Step(st, q);
    assert ScanFrom(st, [q]) == start by {
      assert [q][..0] == [];
    }
    InsideQuote(start, body);
    ScanFromAppend(st, [q], body);
    ScanFromAppend(st, [q] + body, [q]);
    assert [q][..0] == [];
  }

  /** Characters that neither quote nor bracket. */
  predicate Plain(text: string) {
    forall i :: 0 <= i < |text| ==> !IsQuote(text[i]) && !IsBracket(text[i])
  }

  predicate IsBracket(c: char) {
    c == '[' || c == ']' || c == '{' || c == '}'
  }

  /** Outside quotes and brackets, a comma finishes the item and anything else extends it. */
  lemma PlainStep(st: ScanState, ch: char)
    requires st.depth == 0 && st.quote.None? && !IsQuote(ch) && !IsBracket(ch)
    ensures Step(st, ch) == if ch == ',' then st.(pieces := st.pieces + [st.current], current := [])
      else st.(current := st.current + [ch])
  {
  }

  /** Inside an open bracket, plain text is only collected: its commas do not split. */
  lemma {:induction false} InsideBracket(st: ScanState, body: string)
    requires st.quote.None? && st.depth > 0 && Plain(body)
    ensures ScanFrom(st, body) == st.(current := st.current + body)
    decreases |body|
  {
    if body != [] {
      InsideBracket(st, body[..|body| - 1]);
      assert st.current + body[..|body| - 1] + [body[|body| - 1]] == st.current + body;
    } else {
      assert st.current + body == st.current;
    }
  }

  /** A bracketed plain segment is added to the current item whole, at the same depth. */
  lemma BracketSegment(st: ScanState, body: string)
    requires st.quote.None? && st.depth >= 0 && Plain(body)
    ensures ScanFrom(st, "[" + body + "]") == st.(current := st.current + "[" + body + "]")
  {
    var start := Step(st, '[');
    assert ScanFrom(st, "[") == start by {
      assert "["[..0] == [];
    }
    InsideBracket(start, body);
    ScanFromAppend(st, "[", body);
    ScanFromAppend(st, "[" + body, "]");
    assert "]"[..0] == [];
  }

  lemma IndexOfUnique(s: string, c: char, i: nat)
    requires i < |s| && s[i] == c && c !in s[..i]
    ensures IndexOf(s, c) == i
  {
  }

  /** Text extended by one character splits at the same first separator. */
  lemma SplitOnSnocHead(s: string, ch: char, c: char, k: nat)
    requires k < |s| && s[k] == c && c !in s[..k]
    ensures SplitOn(s + [ch], c) == [s[..k]] + SplitOn(s[k + 1..] + [ch], c)
  {
    assert (s + [ch])[..k] == s[..k];
    IndexOfUnique(s + [ch], c, k);
    assert (s + [ch])[k + 1..] == s[k + 1..] + [ch];
  }

  /** Text extended by the separator splits into one more, empty, piece. */
  lemma {:induction false} SplitOnSnocSep(s: string, c: char)
    ensures SplitOn(s + [c], c) == SplitOn(s, c) + [[]]
    decreases |s|
  {
    if c in s {
      var k := IndexOf(s, c);
      SplitOnSnocHead(s, c, c, k);
      SplitOnSnocSep(s[k + 1..], c);
      ConcatAssoc([s[..k]], SplitOn(s[k + 1..], c), [[]]);
    } else {
      assert (s + [c])[..|s|] == s;
      IndexOfUnique(s + [c], c, |s|);
      assert (s + [c])[|s| + 1..] == [];
    }
  }

  /** Text extended by another character extends the last piece of its split. */
  lemma {:induction false} SplitOnSnocOther(s: string, ch: char, c: char)
    requires ch != c
    ensures var p := SplitOn(s, c);
      SplitOn(s + [ch], c) == p[..|p| - 1] + [p[|p| - 1] + [ch]]
    decreases |s|
  {
    if c in s {
      var k := IndexOf(s, c);
      SplitOnSnocHead(s, ch, c, k);
      SplitOnSnocOther(s[k + 1..], ch, c);
      var q := SplitOn(s[k + 1..], c);
      var p := [s[..k]] + q;
      assert p[..|p| - 1] == [s[..k]] + q[..|q| - 1];
      assert p[|p| - 1] == q[|q| - 1];
      ConcatAssoc([s[..k]], q[..|q| - 1], [q[|q| - 1] + [ch]]);
    } else {
      assert c !in s + [ch];
    }
  }

  /** On plain text the scan holds the stripped comma-separated pieces so far and the last piece. */
  lemma {:induction false} PlainScan(text: string)
    requires Plain(text)
    ensures var st := Scan(text);
      && st.pieces + [st.current] == SplitOn(text, ',')
      && st.depth == 0 && st.quote.None?
    decreases |text|
  {
    if text != [] {
      var s := text[..|text| - 1];
      var ch := text[|text| - 1];
      assert s + [ch] == text;
      assert Plain(s) by {
        assert forall i :: 0 <= i < |s| ==> s[i] == text[i];
      }
      PlainScan(s);
      var st := Scan(s);
      PlainStep(st, ch);
      assert Scan(text) == Step(st, ch);
      if ch != ',' {
        SplitOnSnocOther(s, ch, ',');
        assert (st.pieces + [st.current])[..|st.pieces|] == st.pieces;
      } else {
        SplitOnSnocSep(s, ',');
      }
    } else {
      assert SplitOn(text, ',') == [[]];
    }
  }

  /** On text without quotes or brackets, `_split_items` is `str.split(",")` with each piece
      stripped and the empty ones dropped. */
  lemma PlainItems(text: string)
    requires Plain(text)
    ensures ItemsOf(text) == NonEmpty(StripAll(SplitOn(text, ',')))
  {
    PlainScan(text);
  }

  // ---------------------------------------------------------------------------------------
  // _split_pair

  /** `_split_pair(item)`: the key before the first ':' without surrounding whitespace and
      quotes, and the stripped value after it; an error without a ':'. */
  function SplitPair(item: string): (r: Result<(string, string), YamlError>)
    ensures r.Err? <==> ':' !in item
    ensures r.Err? ==> r.error == InvalidMappingToken(item)
    ensures r.Ok? ==> |r.value.1| < |item|
  {
    if ':' !in item then Err(InvalidMappingToken(item))
    else
      var k := IndexOf(item, ':');
      Ok((StripChar(StripChar(Strip(item[..k]), '"'), '\''), Strip(item[k + 1..])))
  }

  lemma StripTrimmed(s: string)
    requires Trimmed(s)
    ensures Strip(s) == s
  {
  }

  lemma StripCharNoEnds(s: string, c: char)
    requires s == [] || (s[0] != c && s[|s| - 1] != c)
    ensures StripChar(s, c) == s
  {
  }

  /** Splitting `key: value` gives back a clean key and a stripped value; the value may
      itself hold further colons. */
  lemma SplitPairJoin(key: string, value: string)
    requires ':' !in key && Trimmed(key) && Trimmed(value)
    requires key == [] || (!IsQuote(key[0]) && !IsQuote(key[|key| - 1]))
    ensures SplitPair(key + ":" + value) == Ok((key, value))
  {
    var item := key + ":" + value;
    assert item[|key|] == ':';
    assert item[..|key|] == key;
    IndexOfUnique(item, ':', |key|);
    assert item[|key| + 1..] == value;
    StripTrimmed(key);
    StripTrimmed(value);
    StripCharNoEnds(key, '"');
    StripCharNoEnds(key, '\'');
  }

  // ---------------------------------------------------------------------------------------
  // _parse_value

  /** `float(token)` when the token holds a '.', `int(token)` otherwise; the token itself
      when Python rejects it. */
  function ParseNumber(token: string, numbers: Numbers): (v: Value)
    ensures v.Str? ==> v.s == token
    ensures v.Int? ==> '.' !in token && numbers.toInt(token) == Some(v.i)
    ensures v.Float? ==> '.' in token && numbers.toFloat(token) == Some(v.r)
  {
    if '.' in token then
      match numbers.toFloat(token)
      case Some(x) => Float(x)
      case None => Str(token)
    else
      match numbers.toInt(token)
      case Some(n) => Int(n)
      case None => Str(token)
  }

  predicate Quoted(token: string) {
    token != [] && IsQuote(token[0]) && token[|token| - 1] == token[0]
  }

  /** `token[1:-1]` */
  function Inner(token: string): (r: string)
    ensures |r| <= |token| && (|token| >= 2 ==> |r| == |token| - 2)
  {
    if |token| >= 2 then token[1..|token| - 1] else []
  }

  predicate Enclosed(token: string, open: char, close: char) {
    token != [] && token[0] == open && token[|token| - 1] == close
  }

  /** Parsed list elements as a list value, or the error that stopped them. */
  function ListOf(r: Result<seq<Value>, YamlError>): (v: Result<Value, YamlError>)
    ensures v.Ok? <==> r.Ok?
    ensures r.Ok? ==> v.value == List(r.value)
  {
    match r
    case Ok(vs) => Ok(List(vs))
    case Err(e) => Err(e)
  }

  /** `_parse_value(token)`. */
  function ParseValue(token: string, numbers: Numbers): (r: Result<Value, YamlError>)
    decreases |token| + 1, 0
  {
    var t := Strip(token);
    if t == [] then Ok(Null)
    else if Lower(t) == TrueWord then Ok(Bool(true))
    else if Lower(t) == FalseWord then Ok(Bool(false))
    else if Lower(t) == NullWord || Lower(t) == NoneWord then Ok(Null)
    else if Quoted(t) then Ok(Str(Inner(t)))
    else if Enclosed(t, '[', ']') then
      var inner := Strip(Inner(t));
      if inner == [] then Ok(List([])) else ParseInlineList(inner, numbers)
    else if Enclosed(t, '{', '}') then
      var inner := Strip(Inner(t));
      if inner == [] then Ok(Dict(map[])) else ParseInlineMap(inner, numbers)
    else Ok(ParseNumber(t, numbers))
  }

  /** The items of an inline list, each parsed. */
  function ParseInlineList(inner: string, numbers: Numbers): (r: Result<Value, YamlError>)
    decreases |inner| + 2, 0
  {
    ListOf(ParseAll(ItemsOf(inner), |inner| + 1, numbers))
  }

  /** The items of an inline map, each split into a key and a parsed value. */
  function ParseInlineMap(inner: string, numbers: Numbers): (r: Result<Value, YamlError>)
    decreases |inner| + 2, 0
  {
    ParseMapItems(ItemsOf(inner), |inner| + 1, map[], numbers)
  }

  /** The list comprehension of an inline list: every part parsed, the first error raised. */
  function ParseAll(parts: seq<string>, bound: nat, numbers: Numbers): (r: Result<seq<Value>, YamlError>)
    requires forall i :: 0 <= i < |parts| ==> |parts[i]| < bound
    decreases bound, |parts|
  {
    if parts == [] then Ok([])
    else
      var v :- ParseValue(parts[0], numbers);
      var rest :- ParseAll(parts[1..], bound, numbers);
      Ok([v] + rest)
  }

  /** The loop of an inline map: each item split at its ':' into `acc[key]`, in order. */
  function ParseMapItems(items: seq<string>, bound: nat, acc: map<string, Value>, numbers: Numbers)
    : (r: Result<Value, YamlError>)
    requires forall i :: 0 <= i < |items| ==> |items[i]| < bound
    decreases bound, |items|
  {
    if items == [] then Ok(Dict(acc))
    else
      var pair :- SplitPair(items[0]);
      var v :- ParseValue(pair.1, numbers);
      ParseMapItems(items[1..], bound, acc[pair.0 := v], numbers)
  }

  /** The inline list succeeds exactly when every part does, with one value per part. */
  lemma ParseAllShape(parts: seq<string>, bound: nat, numbers: Numbers)
    requires forall i :: 0 <= i < |parts| ==> |parts[i]| < bound
    ensures ParseAll(parts, bound, numbers).Ok? <==> forall i :: 0 <= i < |parts| ==> ParseValue(parts[i], numbers).Ok?
    ensures ParseAll(parts, bound, numbers).Ok? ==>
      var vs := ParseAll(parts, bound, numbers).value;
      |vs| == |parts| && forall i :: 0 <= i < |parts| ==> ParseValue(parts[i], numbers) == Ok(vs[i])
  {
    var parse := ParserOf(numbers);
    ParseAllCollects(parts, bound, numbers);
    CollectShape(parts, parse);
  }

  /** `_parse_value` with the number conversions fixed. */
  function ParserOf(numbers: Numbers): (parse: string -> Result<Value, YamlError>)
    ensures forall t :: parse(t) == ParseValue(t, numbers)
  {
    t => ParseValue(t, numbers)
  }

  /** Every part parsed by `parse`, the first error raised. */
  function Collect(parts: seq<string>, parse: string -> Result<Value, YamlError>): Result<seq<Value>, YamlError> {
    if parts == [] then Ok([])
    else
      var v :- parse(parts[0]);
      var rest :- Collect(parts[1..], parse);
      Ok([v] + rest)
  }

  /** The inline list comprehension is `Collect` with `_parse_value`. */
  lemma {:induction false} ParseAllCollects(parts: seq<string>, bound: nat, numbers: Numbers)
    requires forall i :: 0 <= i < |parts| ==> |parts[i]| < bound
    ensures ParseAll(parts, bound, numbers) == Collect(parts, ParserOf(numbers))
    decreases |parts|
  {
    if parts != [] {
      ParseAllCollects(parts[1..], bound, numbers);
    }
  }

  lemma {:induction false} CollectShape(parts: seq<string>, parse: string -> Result<Value, YamlError>)
    ensures Collect(parts, parse).Ok? <==> forall i :: 0 <= i < |parts| ==> parse(parts[i]).Ok?
    ensures Collect(parts, parse).Ok? ==>
      var vs := Collect(parts, parse).value;
      |vs| == |parts| && forall i :: 0 <= i < |parts| ==> parse(parts[i]) == Ok(vs[i])
    decreases |parts|
  {
    if parts != [] {
      CollectShape(parts[1..], parse);
      assert forall i :: 1 <= i < |parts| ==> parts[1..][i - 1] == parts[i];
    }
  }

  /** The scalar keywords, compared case-insensitively; the empty token is None. */
  lemma ParseValueKeywords(token: string, numbers: Numbers)
    ensures Strip(token) == [] ==> ParseValue(token, numbers) == Ok(Null)
    ensures Lower(Strip(token)) == TrueWord ==> ParseValue(token, numbers) == Ok(Bool(true))
    ensures Lower(Strip(token)) == FalseWord ==> ParseValue(token, numbers) == Ok(Bool(false))
    ensures Lower(Strip(token)) in {NullWord, NoneWord} ==> ParseValue(token, numbers) == Ok(Null)
  {
    if Strip(token) == [] {
    } else if Lower(Strip(token)) == TrueWord {
    } else if Lower(Strip(token)) == FalseWord {
    } else if Lower(Strip(token)) in {NullWord, NoneWord} {
      assert Lower(Strip(token)) == NullWord || Lower(Strip(token)) == NoneWord;
    }
  }

  /** A token that does not start with a letter is none of the keywords. */
  lemma NotKeyword(t: string)
    requires t != [] && !IsAlpha(t[0])
    ensures Lower(t) != TrueWord && Lower(t) != FalseWord && Lower(t) != NullWord && Lower(t) != NoneWord
  {
    assert Lower(t)[0] == t[0];
  }

  /** A token wrapped in matching quotes is its inner text. */
  lemma QuotedToken(token: string, numbers: Numbers)
    requires Quoted(token)
    ensures ParseValue(token, numbers) == Ok(Str(Inner(token)))
  {
    assert Trimmed(token);
    StripTrimmed(token);
    NotKeyword(token);
  }

  /** Brackets holding only whitespace are the empty list. */
  lemma EmptyList(token: string, numbers: Numbers)
    requires Enclosed(token, '[', ']') && Strip(Inner(token)) == []
    ensures ParseValue(token, numbers) == Ok(List([]))
  {
    BracketFacts(token, '[', ']');
  }

  /** Braces holding only whitespace are the empty map. */
  lemma EmptyMap(token: string, numbers: Numbers)
    requires Enclosed(token, '{', '}') && Strip(Inner(token)) == []
    ensures ParseValue(token, numbers) == Ok(Dict(map[]))
  {
    BracketFacts(token, '{', '}');
  }

  /** An inline list of plain text parses each comma-separated piece: it succeeds exactly
      when every piece parses, and holds their values in order. */
  lemma PlainList(token: string, numbers: Numbers)
    requires Enclosed(token, '[', ']')
    requires Inner(token) != [] && Trimmed(Inner(token)) && Plain(Inner(token))
    ensures var parts := NonEmpty(StripAll(SplitOn(Inner(token), ',')));
      var r := ParseValue(token, numbers);
      && (r.Ok? <==> forall i :: 0 <= i < |parts| ==> ParseValue(parts[i], numbers).Ok?)
      && (r.Ok? ==> (r.value.List? && |r.value.items| == |parts|
            && forall i :: 0 <= i < |parts| ==> ParseValue(parts[i], numbers) == Ok(r.value.items[i])))
  {
    var inner := Inner(token);
    StripTrimmed(inner);
    ListToken(token, numbers);
    PlainItems(inner);
    InlineListShape(inner, numbers);
  }

  /** Brackets around text that is not blank hold the parsed items of the stripped text. */
  lemma ListToken(token: string, numbers: Numbers)
    requires Enclosed(token, '[', ']') && Strip(Inner(token)) != []
    ensures ParseValue(token, numbers) == ParseInlineList(Strip(Inner(token)), numbers)
  {
    BracketFacts(token, '[', ']');
  }

  /** A token between two non-letter, non-quote delimiters is stripped already and none of
      the keywords. */
  lemma BracketFacts(token: string, open: char, close: char)
    requires Enclosed(token, open, close) && !IsAlpha(open) && !IsQuote(open) && !IsSpace(open) && !IsSpace(close)
    ensures Strip(token) == token && !Quoted(token)
    ensures Lower(token) != TrueWord && Lower(token) != FalseWord && Lower(token) != NullWord && Lower(token) != NoneWord
  {
    StripTrimmed(token);
    NotKeyword(token);
  }

  /** An inline list succeeds exactly when each of its items does, with their values in order. */
  lemma InlineListShape(inner: string, numbers: Numbers)
    ensures var parts := ItemsOf(inner);
      var r := ParseInlineList(inner, numbers);
      && (r.Ok? <==> forall i :: 0 <= i < |parts| ==> ParseValue(parts[i], numbers).Ok?)
      && (r.Ok? ==> (r.value.List? && |r.value.items| == |parts|
            && forall i :: 0 <= i < |parts| ==> ParseValue(parts[i], numbers) == Ok(r.value.items[i])))
  {
    ParseAllShape(ItemsOf(inner), |inner| + 1, numbers);
  }

  /** An item of an inline map that `split` splits at a ':' and whose value `parse` accepts. */
  predicate PairParses(item: string, split: string -> Result<(string, string), YamlError>,
                       parse: string -> Result<Value, YamlError>) {
    split(item).Ok? && parse(split(item).value.1).Ok?
  }

  /** The keys `split` finds in the items of an inline map. */
  function PairKeys(items: seq<string>, split: string -> Result<(string, string), YamlError>): set<string>
    requires forall i :: 0 <= i < |items| ==> split(items[i]).Ok?
  {
    if items == [] then {} else {split(items[0]).value.0} + PairKeys(items[1..], split)
  }

  /** Every item split by `split` into `acc[key]`, its value parsed by `parse`, in order; the
      first error raised. */
  function CollectPairs(items: seq<string>, split: string -> Result<(string, string), YamlError>,
                        parse: string -> Result<Value, YamlError>, acc: map<string, Value>)
    : Result<map<string, Value>, YamlError>
  {
    if items == [] then Ok(acc)
    else
      var pair :- split(items[0]);
      var v :- parse(pair.1);
      CollectPairs(items[1..], split, parse, acc[pair.0 := v])
  }

  /** The loop of an inline map is `CollectPairs` with `_split_pair` and `_parse_value`. */
  lemma {:induction false} ParseMapItemsCollects(items: seq<string>, bound: nat, acc: map<string, Value>, numbers: Numbers)
    requires forall i :: 0 <= i < |items| ==> |items[i]| < bound
    ensures var c := CollectPairs(items, SplitPair, ParserOf(numbers), acc);
      ParseMapItems(items, bound, acc, numbers) == if c.Ok? then Ok(Dict(c.value)) else Err(c.error)
    decreases |items|
  {
    if items != [] && SplitPair(items[0]).Ok? && ParseValue(SplitPair(items[0]).value.1, numbers).Ok? {
      var pair := SplitPair(items[0]).value;
      ParseMapItemsCollects(items[1..], bound, acc[pair.0 := ParseValue(pair.1, numbers).value], numbers);
    }
  }

  /** `CollectPairs` succeeds exactly when every item splits and its value parses. */
  lemma {:induction false} CollectPairsOk(items: seq<string>, split: string -> Result<(string, string), YamlError>,
                                          parse: string -> Result<Value, YamlError>, acc: map<string, Value>)
    ensures CollectPairs(items, split, parse, acc).Ok? <==> forall i :: 0 <= i < |items| ==> PairParses(items[i], split, parse)
    decreases |items|
  {
    if items != [] {
      var rest := items[1..];
      assert forall i :: 1 <= i < |items| ==> rest[i - 1] == items[i];
      if PairParses(items[0], split, parse) {
        var pair := split(items[0]).value;
        CollectPairsOk(rest, split, parse, acc[pair.0 := parse(pair.1).value]);
      }
    }
  }

  /** When every item splits and parses, the keys of `CollectPairs` are those of `acc` and of
      the items; a key of `acc` no item sets keeps its value, and an item whose key no later
      item repeats gives that key its parsed value. */
  lemma {:induction false} CollectPairsContents(items: seq<string>, split: string -> Result<(string, string), YamlError>,
                                                parse: string -> Result<Value, YamlError>, acc: map<string, Value>)
    requires forall i :: 0 <= i < |items| ==> split(items[i]).Ok? && parse(split(items[i]).value.1).Ok?
    ensures CollectPairs(items, split, parse, acc).Ok?
    ensures var d := CollectPairs(items, split, parse, acc).value;
      && d.Keys == acc.Keys + PairKeys(items, split)
      && (forall k :: k in acc && k !in PairKeys(items, split) ==> k in d && d[k] == acc[k])
      && (forall i :: 0 <= i < |items| && split(items[i]).value.0 !in PairKeys(items[i + 1..], split) ==>
            split(items[i]).value.0 in d && parse(split(items[i]).value.1) == Ok(d[split(items[i]).value.0]))
    decreases |items|
  {
    if items != [] {
      var rest := items[1..];
      assert forall i :: 1 <= i < |items| ==> rest[i - 1] == items[i];
      var pair := split(items[0]).value;
      var acc' := acc[pair.0 := parse(pair.1).value];
      CollectPairsContents(rest, split, parse, acc');
      var d := CollectPairs(items, split, parse, acc).value;
      forall i | 0 <= i < |items| && split(items[i]).value.0 !in PairKeys(items[i + 1..], split)
        ensures split(items[i]).value.0 in d && parse(split(items[i]).value.1) == Ok(d[split(items[i]).value.0])
      {
        if i > 0 {
          assert rest[i - 1..] == items[i..];
          assert rest[i..] == items[i + 1..];
        }
      }
    }
  }

  /** An inline map succeeds exactly when every item of its inner text has a ':' and a value
      that parses. */
  lemma InlineMapOk(inner: string, numbers: Numbers)
    ensures ParseInlineMap(inner, numbers).Ok? <==>
              forall i :: 0 <= i < |ItemsOf(inner)| ==> PairParses(ItemsOf(inner)[i], SplitPair, ParserOf(numbers))
  {
    ParseMapItemsCollects(ItemsOf(inner), |inner| + 1, map[], numbers);
    CollectPairsOk(ItemsOf(inner), SplitPair, ParserOf(numbers), map[]);
  }

  /** When every item has a ':' and a value that parses, an inline map holds the items' keys,
      and a key takes the parsed value of its last item. */
  lemma InlineMapContents(inner: string, numbers: Numbers)
    requires var items := ItemsOf(inner);
      forall i :: 0 <= i < |items| ==> SplitPair(items[i]).Ok? && ParseValue(SplitPair(items[i]).value.1, numbers).Ok?
    ensures var items := ItemsOf(inner);
      var r := ParseInlineMap(inner, numbers);
      && r.Ok? && r.value.Dict? && r.value.entries.Keys == PairKeys(items, SplitPair)
      && forall i :: 0 <= i < |items| && SplitPair(items[i]).value.0 !in PairKeys(items[i + 1..], SplitPair) ==>
           var pair := SplitPair(items[i]).value;
           pair.0 in r.value.entries && ParseValue(pair.1, numbers) == Ok(r.value.entries[pair.0])
  {
    var items := ItemsOf(inner);
    var parse := ParserOf(numbers);
    ParseMapItemsCollects(items, |inner| + 1, map[], numbers);
    CollectPairsContents(items, SplitPair, parse, map[]);
  }

  // ---------------------------------------------------------------------------------------
  // _parse_block, _parse_list, safe_load

  /** The key and the inline value of a block line: split at the first ':' when there is
      one, the whole line as the key otherwise. */
  function LinePair(content: string): (string, string) {
    if ':' in content then
      var pair := SplitPair(content).value;
      (Strip(pair.0), pair.1)
    else (Strip(content), [])
  }

  function KeyOf(content: string): string {
    LinePair(content).0
  }

  /** The keys of the lines in `[a, b)` at exactly `indent`. */
  function KeysAt(entries: seq<Line>, a: nat, b: nat, indent: int): set<string>
    requires a <= b <= |entries|
    decreases b - a
  {
    if a == b then {}
    else KeysAt(entries, a, b - 1, indent) + (if entries[b - 1].indent == indent then {KeyOf(entries[b - 1].content)} else {})
  }

  lemma {:induction false} KeysAtDeeper(entries: seq<Line>, a: nat, m: nat, b: nat, indent: int)
    requires a <= m <= b <= |entries|
    requires forall j :: m <= j < b ==> entries[j].indent > indent
    ensures KeysAt(entries, a, b, indent) == KeysAt(entries, a, m, indent)
    decreases b - m
  {
    if m < b {
      KeysAtDeeper(entries, a, m, b - 1, indent);
    }
  }

  /** A key line followed by its more indented value lines adds exactly its key. */
  lemma KeysAtStep(entries: seq<Line>, a: nat, i: nat, next: nat, indent: int)
    requires a <= i < next <= |entries| && entries[i].indent == indent
    requires Consumed(entries, i + 1, next, indent + 2)
    ensures KeysAt(entries, a, next, indent) == KeysAt(entries, a, i, indent) + {KeyOf(entries[i].content)}
  {
    KeysAtDeeper(entries, a, i + 1, next, indent);
  }

  /** The lines a block or a list consumed are at least as indented as it. */
  predicate Consumed(entries: seq<Line>, start: nat, end: nat, indent: int) {
    start <= end <= |entries| && forall j :: start <= j < end ==> entries[j].indent >= indent
  }

  /** A line at `indent` or deeper followed by lines consumed deeper extends a consumed range. */
  lemma ConsumedStep(entries: seq<Line>, start: nat, i: nat, next: nat, indent: int)
    requires Consumed(entries, start, i, indent) && i < |entries| && entries[i].indent >= indent
    requires Consumed(entries, i + 1, next, indent + 2)
    ensures Consumed(entries, start, next, indent)
  {
  }

  lemma {:induction false} KeysAtSplit(entries: seq<Line>, a: nat, m: nat, b: nat, indent: int)
    requires a <= m <= b <= |entries|
    ensures KeysAt(entries, a, b, indent) == KeysAt(entries, a, m, indent) + KeysAt(entries, m, b, indent)
    decreases b - m
  {
    if m < b {
      KeysAtSplit(entries, a, m, b - 1, indent);
    }
  }

  /** From a key line followed by its more indented value lines, the keys are that line's key
      and the keys after the value. */
  lemma KeysAtFront(entries: seq<Line>, i: nat, next: nat, end: nat, indent: int)
    requires i < next <= end <= |entries| && entries[i].indent == indent
    requires Consumed(entries, i + 1, next, indent + 2)
    ensures KeysAt(entries, i, end, indent) == {KeyOf(entries[i].content)} + KeysAt(entries, next, end, indent)
  {
    KeysAtSplit(entries, i, next, end, indent);
    KeysAtStep(entries, i, i, next, indent);
    assert KeysAt(entries, i, i, indent) == {};
  }

  /** Lines deeper than `indent` at the front of a range add no key. */
  lemma KeysAtSkip(entries: seq<Line>, a: nat, m: nat, b: nat, indent: int)
    requires a <= m <= b <= |entries|
    requires forall j :: a <= j < m ==> entries[j].indent > indent
    ensures KeysAt(entries, a, b, indent) == KeysAt(entries, m, b, indent)
  {
    KeysAtSplit(entries, a, m, b, indent);
    KeysAtDeeper(entries, a, a, m, indent);
    assert KeysAt(entries, a, a, indent) == {};
  }

  /** The line after a key line with no inline value is a more indented "- " item, so the
      value is a list. */
  predicate ListFollows(entries: seq<Line>, i: nat, indent: int) {
    i + 1 < |entries| && StartsWith(entries[i + 1].content, ItemMark) && entries[i + 1].indent > indent
  }

  /** `_parse_block` from line `i` on, `acc` holding the entries read so far: a line at
      `indent` is a key line, the end or a less indented line ends the block, and a more
      indented line or a "- " line at `indent` is an error. */
  function BlockFrom(entries: seq<Line>, i: nat, indent: int, acc: map<string, Value>, numbers: Numbers)
    : (r: Result<(Value, nat), YamlError>)
    requires i <= |entries|
    ensures r.Ok? ==> r.value.0.Dict? && Consumed(entries, i, r.value.1, indent)
    ensures r.Ok? && r.value.1 < |entries| ==> entries[r.value.1].indent < indent
    decreases |entries| - i, 1
  {
    if i == |entries| || entries[i].indent < indent then Ok((Dict(acc), i))
    else if entries[i].indent > indent then Err(UnexpectedIndentation(entries[i].content))
    else if StartsWith(entries[i].content, ItemMark) then Err(ListItemWithoutKey)
    else match EntryAt(entries, i, indent, numbers)
      case Err(e) => Err(e)
      case Ok(entry) => BlockFrom(entries, entry.2, indent, acc[entry.0 := entry.1], numbers)
  }

  /** One key line of `_parse_block`: its key, its value and the index after the value. An
      empty inline value is the list below it when `ListFollows`, else the block below it. */
  function EntryAt(entries: seq<Line>, i: nat, indent: int, numbers: Numbers)
    : (r: Result<(string, Value, nat), YamlError>)
    requires i < |entries|
    ensures r.Ok? ==> r.value.0 == KeyOf(entries[i].content) && i < r.value.2
                      && Consumed(entries, i + 1, r.value.2, indent + 2)
    ensures var value := LinePair(entries[i].content).1;
      value != [] ==> && (r.Ok? <==> ParseValue(value, numbers).Ok?)
                      && (r.Ok? ==> r.value.1 == ParseValue(value, numbers).value && r.value.2 == i + 1)
    ensures r.Ok? && LinePair(entries[i].content).1 == [] ==>
      if ListFollows(entries, i, indent) then r.value.1.List? else r.value.1.Dict?
    decreases |entries| - i, 0
  {
    var (key, value) := LinePair(entries[i].content);
    if value == [] then
      var sub := if ListFollows(entries, i, indent) then ListFrom(entries, i + 1, indent + 2, [], numbers)
                 else BlockFrom(entries, i + 1, indent + 2, map[], numbers);
      match sub
      case Err(e) => Err(e)
      case Ok(nested) => Ok((key, nested.0, nested.1))
    else
      match ParseValue(value, numbers)
      case Err(e) => Err(e)
      case Ok(v) => Ok((key, v, i + 1))
  }

  /** `_parse_list` from line `i` on, `acc` holding the items read so far: it takes the "- "
      lines at `indent` or deeper, and the end, a less indented line or a line that is not an
      item ends it. */
  function ListFrom(entries: seq<Line>, i: nat, indent: int, acc: seq<Value>, numbers: Numbers)
    : (r: Result<(Value, nat), YamlError>)
    requires i <= |entries|
    ensures r.Ok? ==> r.value.0.List? && Consumed(entries, i, r.value.1, indent)
    decreases |entries| - i, 1
  {
    if i == |entries| || entries[i].indent < indent || !StartsWith(entries[i].content, ItemMark) then
      Ok((List(acc), i))
    else match ItemAt(entries, i, indent, numbers)
      case Err(e) => Err(e)
      case Ok(item) =>
        ListFrom(entries, item.1, indent, acc + [item.0], numbers)
  }

  /** One "- " line of `_parse_list`: its value and the index after it. An empty token is the
      block below it; inline maps, inline lists and scalars are all parsed by `_parse_value`. */
  function ItemAt(entries: seq<Line>, i: nat, indent: int, numbers: Numbers): (r: Result<(Value, nat), YamlError>)
    requires i < |entries| && StartsWith(entries[i].content, ItemMark)
    ensures r.Ok? ==> i < r.value.1 && Consumed(entries, i + 1, r.value.1, indent + 2)
    decreases |entries| - i, 0
  {
    var token := ItemToken(entries[i].content);
    if token == [] then BlockFrom(entries, i + 1, indent + 2, map[], numbers)
    else match ParseValue(token, numbers)
      case Err(e) => Err(e)
      case Ok(v) => Ok((v, i + 1))
  }

  /** An item with an inline token is that token's value and consumes its line alone; it
      fails exactly when the token does not parse. An item without one holds a dict. */
  lemma ItemAtShape(entries: seq<Line>, i: nat, indent: int, numbers: Numbers)
    requires i < |entries| && StartsWith(entries[i].content, ItemMark)
    ensures var r := ItemAt(entries, i, indent, numbers); var token := ItemToken(entries[i].content);
      && (token != [] ==> && (r.Ok? <==> ParseValue(token, numbers).Ok?)
                          && (r.Ok? ==> r.value == (ParseValue(token, numbers).value, i + 1)))
      && (r.Ok? && token == [] ==> r.value.0.Dict?)
  {
  }

  /** The text of a list item after its "- ". */
  function ItemToken(content: string): string
    requires StartsWith(content, ItemMark)
  {
    Strip(content[|ItemMark|..])
  }

  /** A string that strips to nothing is all whitespace. */
  lemma StripEmpty(s: string)
    requires Strip(s) == []
    ensures forall i :: 0 <= i < |s| ==> IsSpace(s[i])
  {
    var l := LStrip(s);
    assert forall i :: 0 <= i < |l| ==> IsSpace(l[i]);
    assert l == [];
  }

  /** A clean item line always carries an inline token. */
  lemma CleanItemToken(content: string)
    requires Clean(content) && StartsWith(content, ItemMark)
    ensures ItemToken(content) != []
  {
    var rest := content[2..];
    assert content[1] == ItemMark[1];
    assert rest[|rest| - 1] == content[|content| - 1];
    if ItemToken(content) == [] {
      StripEmpty(rest);
    }
  }

  /** Line `j` of a block that ends at `end` was read as a key line: it is not a "- " line,
      its entry parses, a line right after an inline value is not deeper than `indent`, and
      when no later line of the block repeats its key, its entry's value is that key's value in `d`. */
  predicate LineRead(entries: seq<Line>, j: nat, end: nat, indent: int, d: map<string, Value>, numbers: Numbers)
    requires j < end <= |entries|
  {
    && !StartsWith(entries[j].content, ItemMark)
    && EntryAt(entries, j, indent, numbers).Ok?
    && (LinePair(entries[j].content).1 != [] && j + 1 < |entries| ==> entries[j + 1].indent <= indent)
    && (KeyOf(entries[j].content) !in KeysAt(entries, j + 1, end, indent) ==>
          KeyOf(entries[j].content) in d && d[KeyOf(entries[j].content)] == EntryAt(entries, j, indent, numbers).value.1)
  }

  /** What a block from line `i` holds, `acc` being the entries read before it (`ParseBlock`
      starts with none): the keys of `acc` and of the block's lines at `indent`, a key of `acc`
      that no such line repeats keeping its value, and every such line read as a key line. */
  lemma {:induction false} BlockFromSpec(entries: seq<Line>, i: nat, indent: int, acc: map<string, Value>,
                                         numbers: Numbers)
    requires i <= |entries|
    ensures var r := BlockFrom(entries, i, indent, acc, numbers);
      r.Ok? ==> var end := r.value.1; var d := r.value.0.entries;
        && d.Keys == acc.Keys + KeysAt(entries, i, end, indent)
        && (forall k :: k in acc && k !in KeysAt(entries, i, end, indent) ==> k in d && d[k] == acc[k])
        && (forall j :: i <= j < end && entries[j].indent == indent ==> LineRead(entries, j, end, indent, d, numbers))
    decreases |entries| - i
  {
    var r := BlockFrom(entries, i, indent, acc, numbers);
    if r.Ok? && i < |entries| && entries[i].indent >= indent {
      BlockFromHead(entries, i, indent, acc, numbers);
      var e := EntryAt(entries, i, indent, numbers).value;
      var next := e.2;
      var acc' := acc[e.0 := e.1];
      BlockFromSpec(entries, next, indent, acc', numbers);
      var end := r.value.1;
      var d := r.value.0.entries;
      KeysAtFront(entries, i, next, end, indent);
      KeysAtSkip(entries, i + 1, next, end, indent);
      forall j | i <= j < end && entries[j].indent == indent
        ensures LineRead(entries, j, end, indent, d, numbers)
      {
        if j != i {
          assert next <= j;
        }
      }
    }
  }

  /** The first line a parsed block reads is a key line at its indent whose entry parses; the
      block goes on after that entry, and a line right after an inline value is not deeper. */
  lemma BlockFromHead(entries: seq<Line>, i: nat, indent: int, acc: map<string, Value>, numbers: Numbers)
    requires i < |entries| && entries[i].indent >= indent && BlockFrom(entries, i, indent, acc, numbers).Ok?
    ensures entries[i].indent == indent && !StartsWith(entries[i].content, ItemMark)
    ensures EntryAt(entries, i, indent, numbers).Ok?
    ensures var e := EntryAt(entries, i, indent, numbers).value;
      BlockFrom(entries, i, indent, acc, numbers) == BlockFrom(entries, e.2, indent, acc[e.0 := e.1], numbers)
    ensures LinePair(entries[i].content).1 != [] && i + 1 < |entries| ==> entries[i + 1].indent <= indent
  {
    var e := EntryAt(entries, i, indent, numbers).value;
    if LinePair(entries[i].content).1 != [] {
      assert e.2 == i + 1;
    }
  }

  /** A list from line `i` ends at the end, at a less indented line or at a line that is not
      an item, and keeps the items read before it (`ParseList` starts with none) in front. */
  lemma {:induction false} ListFromStops(entries: seq<Line>, i: nat, indent: int, acc: seq<Value>, numbers: Numbers)
    requires i <= |entries|
    ensures var r := ListFrom(entries, i, indent, acc, numbers);
      r.Ok? ==> var end := r.value.1;
        && acc <= r.value.0.items
        && (end < |entries| ==> entries[end].indent < indent || !StartsWith(entries[end].content, ItemMark))
    decreases |entries| - i
  {
    var r := ListFrom(entries, i, indent, acc, numbers);
    if r.Ok? && i < |entries| && entries[i].indent >= indent && StartsWith(entries[i].content, ItemMark) {
      var item := ItemAt(entries, i, indent, numbers).value;
      assert r == ListFrom(entries, item.1, indent, acc + [item.0], numbers);
      ListFromStops(entries, item.1, indent, acc + [item.0], numbers);
    }
  }

  /** A clean item line the list reads past holds an inline token: the list goes on from the
      next line with that token's value appended. */
  lemma ListFromShift(entries: seq<Line>, i: nat, indent: int, acc: seq<Value>, numbers: Numbers)
    requires i <= |entries| && ListFrom(entries, i, indent, acc, numbers).Ok?
    requires i < ListFrom(entries, i, indent, acc, numbers).value.1
    requires Clean(entries[i].content)
    ensures StartsWith(entries[i].content, ItemMark)
    ensures ParseValue(ItemToken(entries[i].content), numbers).Ok?
    ensures ListFrom(entries, i, indent, acc, numbers)
              == ListFrom(entries, i + 1, indent, acc + [ParseValue(ItemToken(entries[i].content), numbers).value], numbers)
  {
    ItemAtShape(entries, i, indent, numbers);
    CleanItemToken(entries[i].content);
  }

  /** Over clean item lines the list advances one line and one item at a time: from line `i`
      it reaches any line `j` before its end having read `j - i` more items. */
  lemma {:induction false} ListFromReach(entries: seq<Line>, i: nat, indent: int, acc: seq<Value>, numbers: Numbers,
                                         j: nat)
    returns (reached: seq<Value>)
    requires i <= |entries| && ListFrom(entries, i, indent, acc, numbers).Ok?
    requires i <= j <= ListFrom(entries, i, indent, acc, numbers).value.1
    requires forall k :: i <= k < j ==> Clean(entries[k].content)
    ensures |reached| == |acc| + (j - i)
    ensures j <= |entries| && ListFrom(entries, j, indent, reached, numbers) == ListFrom(entries, i, indent, acc, numbers)
    decreases j - i
  {
    if j == i {
      reached := acc;
    } else {
      ListFromShift(entries, i, indent, acc, numbers);
      var acc' := acc + [ParseValue(ItemToken(entries[i].content), numbers).value];
      reached := ListFromReach(entries, i + 1, indent, acc', numbers, j);
    }
  }

  /** A clean item line the list reads past is the next item of the list. */
  lemma ListFromHead(entries: seq<Line>, i: nat, indent: int, acc: seq<Value>, numbers: Numbers)
    requires i <= |entries| && ListFrom(entries, i, indent, acc, numbers).Ok?
    requires i < ListFrom(entries, i, indent, acc, numbers).value.1
    requires Clean(entries[i].content)
    ensures StartsWith(entries[i].content, ItemMark)
    ensures ParseValue(ItemToken(entries[i].content), numbers).Ok?
    ensures |acc| < |ListFrom(entries, i, indent, acc, numbers).value.0.items|
    ensures ListFrom(entries, i, indent, acc, numbers).value.0.items[|acc|]
              == ParseValue(ItemToken(entries[i].content), numbers).value
  {
    ListFromShift(entries, i, indent, acc, numbers);
    var v := ParseValue(ItemToken(entries[i].content), numbers).value;
    ListFromStops(entries, i + 1, indent, acc + [v], numbers);
    assert (acc + [v])[|acc|] == v;
  }

  /** When the lines of a list are clean, as the loader's lines are, line `j` of it is one
      item: an item line whose value, parsed from its token, follows the items read before
      the list and those of the lines before `j`. */
  lemma ListFromItem(entries: seq<Line>, i: nat, indent: int, acc: seq<Value>, numbers: Numbers, j: nat)
    requires i <= |entries| && ListFrom(entries, i, indent, acc, numbers).Ok?
    requires i <= j < ListFrom(entries, i, indent, acc, numbers).value.1
    requires forall k :: i <= k <= j ==> Clean(entries[k].content)
    ensures StartsWith(entries[j].content, ItemMark)
    ensures ParseValue(ItemToken(entries[j].content), numbers).Ok?
    ensures |acc| + (j - i) < |ListFrom(entries, i, indent, acc, numbers).value.0.items|
    ensures ListFrom(entries, i, indent, acc, numbers).value.0.items[|acc| + (j - i)]
              == ParseValue(ItemToken(entries[j].content), numbers).value
  {
    var reached := ListFromReach(entries, i, indent, acc, numbers, j);
    ListFromHead(entries, j, indent, reached, numbers);
    var items := ListFrom(entries, i, indent, acc, numbers).value.0.items;
    assert items[|reached|] == items[|acc| + (j - i)];
  }

  /** One key line of `_parse_block`. */
  method BlockEntry(entries: seq<Line>, i: nat, indent: int, numbers: Numbers)
    returns (r: Result<(string, Value, nat), YamlError>)
    requires i < |entries|
    ensures r == EntryAt(entries, i, indent, numbers)
    decreases |entries| - i, 0
  {
    var (key, value) := LinePair(entries[i].content);
    if value == [] {
      var sub;
      if i + 1 < |entries| && StartsWith(entries[i + 1].content, ItemMark) && entries[i + 1].indent > indent {
        sub := ParseList(entries, i + 1, indent + 2, numbers);
      } else {
        sub := ParseBlock(entries, i + 1, indent + 2, numbers);
      }
      if sub.Err? {
        return Err(sub.error);
      }
      return Ok((key, sub.value.0, sub.value.1));
    }
    var v := ParseValue(value, numbers);
    if v.Err? {
      return Err(v.error);
    }
    return Ok((key, v.value, i + 1));
  }

  /** `_parse_block(entries, start, indent)`: the loop over the lines from `start`. */
  method ParseBlock(entries: seq<Line>, start: nat, indent: int, numbers: Numbers)
    returns (r: Result<(Value, nat), YamlError>)
    requires start <= |entries|
    ensures r == BlockFrom(entries, start, indent, map[], numbers)
    decreases |entries| - start, 1
  {
    var result: map<string, Value> := map[];
    var i := start;
    while i < |entries| && entries[i].indent >= indent
      invariant i <= |entries|
      invariant BlockFrom(entries, i, indent, result, numbers) == BlockFrom(entries, start, indent, map[], numbers)
      decreases |entries| - i
    {
      if entries[i].indent > indent {
        return Err(UnexpectedIndentation(entries[i].content));
      }
      if StartsWith(entries[i].content, ItemMark) {
        return Err(ListItemWithoutKey);
      }
      var entry := BlockEntry(entries, i, indent, numbers);
      if entry.Err? {
        return Err(entry.error);
      }
      result := result[entry.value.0 := entry.value.1];
      i := entry.value.2;
    }
    return Ok((Dict(result), i));
  }

  /** One "- " line of `_parse_list`. */
  method ListEntry(entries: seq<Line>, i: nat, indent: int, numbers: Numbers)
    returns (r: Result<(Value, nat), YamlError>)
    requires i < |entries| && StartsWith(entries[i].content, ItemMark)
    ensures r == ItemAt(entries, i, indent, numbers)
    decreases |entries| - i, 0
  {
    var token := ItemToken(entries[i].content);
    if token == [] {
      var sub := ParseBlock(entries, i + 1, indent + 2, numbers);
      if sub.Err? {
        return Err(sub.error);
      }
      return Ok(sub.value);
    }
    var v := ParseValue(token, numbers);
    if v.Err? {
      return Err(v.error);
    }
    return Ok((v.value, i + 1));
  }

  /** `_parse_list(entries, start, indent)`: the loop over the lines from `start`. */
  method ParseList(entries: seq<Line>, start: nat, indent: int, numbers: Numbers)
    returns (r: Result<(Value, nat), YamlError>)
    requires start <= |entries|
    ensures r == ListFrom(entries, start, indent, [], numbers)
    decreases |entries| - start, 1
  {
    var items: seq<Value> := [];
    var i := start;
    while i < |entries|
      invariant i <= |entries|
      invariant ListFrom(entries, i, indent, items, numbers) == ListFrom(entries, start, indent, [], numbers)
      decreases |entries| - i
    {
      var line := entries[i];
      if line.indent < indent || !StartsWith(line.content, ItemMark) {
        break;
      }
      var entry := ListEntry(entries, i, indent, numbers);
      if entry.Err? {
        return Err(entry.error);
      }
      items := items + [entry.value.0];
      i := entry.value.1;
    }
    return Ok((List(items), i));
  }

  /** `safe_load` over the significant lines: `{}` without any, else the first block, updated
      by a second block that starts where the first one stopped. */
  function LoadLines(lines: seq<Line>, numbers: Numbers): (r: Result<Value, YamlError>)
    ensures r.Ok? ==> r.value.Dict?
  {
    if lines == [] then Ok(Dict(map[]))
    else match BlockFrom(lines, 0, lines[0].indent, map[], numbers)
      case Err(e) => Err(e)
      case Ok(first) =>
        if first.1 < |lines| then
          match BlockFrom(lines, first.1, lines[first.1].indent, map[], numbers)
          case Err(e) => Err(e)
          case Ok(extra) => Ok(Dict(first.0.entries + extra.0.entries))
        else Ok(first.0)
  }

  /** A line read into `d` is read into any `d'` that keeps its key's value. */
  lemma LineReadKept(entries: seq<Line>, j: nat, end: nat, indent: int, d: map<string, Value>,
                     d': map<string, Value>, numbers: Numbers)
    requires j < end <= |entries| && LineRead(entries, j, end, indent, d, numbers)
    requires var key := KeyOf(entries[j].content); key in d ==> key in d' && d'[key] == d[key]
    ensures LineRead(entries, j, end, indent, d', numbers)
  {
  }

  /** What `safe_load` returns for significant lines: the keys of the first block's lines
      and, when lines remain after it, of the second block's lines; every line of the second
      block is read as a key line into the result, and so is every line of the first block
      whose key the second block does not set. Lines after the second block are not read. */
  lemma LoadLinesContents(lines: seq<Line>, numbers: Numbers)
    requires lines != [] && LoadLines(lines, numbers).Ok?
    ensures BlockFrom(lines, 0, lines[0].indent, map[], numbers).Ok?
    ensures var end1 := BlockFrom(lines, 0, lines[0].indent, map[], numbers).value.1;
            var d := LoadLines(lines, numbers).value.entries;
      end1 == |lines| ==>
        && d.Keys == KeysAt(lines, 0, end1, lines[0].indent)
        && forall j :: 0 <= j < end1 && lines[j].indent == lines[0].indent ==> LineRead(lines, j, end1, lines[0].indent, d, numbers)
    ensures var end1 := BlockFrom(lines, 0, lines[0].indent, map[], numbers).value.1;
            var d := LoadLines(lines, numbers).value.entries;
      end1 < |lines| ==>
        var second := BlockFrom(lines, end1, lines[end1].indent, map[], numbers);
        && second.Ok?
        && var end2 := second.value.1; var keys2 := KeysAt(lines, end1, end2, lines[end1].indent);
        && d.Keys == KeysAt(lines, 0, end1, lines[0].indent) + keys2
        && (forall j :: end1 <= j < end2 && lines[j].indent == lines[end1].indent ==>
              LineRead(lines, j, end2, lines[end1].indent, d, numbers))
        && (forall j :: 0 <= j < end1 && lines[j].indent == lines[0].indent && KeyOf(lines[j].content) !in keys2 ==>
              LineRead(lines, j, end1, lines[0].indent, d, numbers))
  {
    var first := BlockFrom(lines, 0, lines[0].indent, map[], numbers);
    BlockFromSpec(lines, 0, lines[0].indent, map[], numbers);
    var end1 := first.value.1;
    if end1 < |lines| {
      var second := BlockFrom(lines, end1, lines[end1].indent, map[], numbers);
      BlockFromSpec(lines, end1, lines[end1].indent, map[], numbers);
      var end2 := second.value.1;
      var f := first.value.0.entries;
      var g := second.value.0.entries;
      var d := LoadLines(lines, numbers).value.entries;
      assert d == f + g;
      forall j | end1 <= j < end2 && lines[j].indent == lines[end1].indent
        ensures LineRead(lines, j, end2, lines[end1].indent, d, numbers)
      {
        LineReadKept(lines, j, end2, lines[end1].indent, g, d, numbers);
      }
      forall j | 0 <= j < end1 && lines[j].indent == lines[0].indent && KeyOf(lines[j].content) !in g.Keys
        ensures LineRead(lines, j, end1, lines[0].indent, d, numbers)
      {
        LineReadKept(lines, j, end1, lines[0].indent, f, d, numbers);
      }
    }
  }

  /** `safe_load(text)`. Errors are the loader's `ValueError`s. */
  method SafeLoad(text: string, numbers: Numbers) returns (r: Result<Value, YamlError>)
    ensures r == LoadLines(LinesOf(SplitOn(text, '\n')), numbers)
  {
    var lines := IterLines(text);
    if lines == [] {
      return Ok(Dict(map[]));
    }
    var first := ParseBlock(lines, 0, lines[0].indent, numbers);
    if first.Err? {
      return Err(first.error);
    }
    var result := first.value.0.entries;
    var index := first.value.1;
    if index < |lines| {
      var extra := ParseBlock(lines, index, lines[index].indent, numbers);
      if extra.Err? {
        return Err(extra.error);
      }
      result := result + extra.value.0.entries;
    }
    return Ok(Dict(result));
  }
}
