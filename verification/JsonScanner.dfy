/** extractJSON of internal/infrastructure/llm/anthropic.go: the first balanced object in a model's answer. */
module JsonScanner {
  import opened Strings

  datatype State = State(depth: int, inStr: bool, escaped: bool)

  const START := State(0, false, false)

  /** One character of the scan. */
  function Feed(m: State, c: char): State {
    if m.inStr then
      if m.escaped then m.(escaped := false)
      else if c == '\\' then m.(escaped := true)
      else if c == '"' then m.(inStr := false)
      else m
    else if c == '"' then m.(inStr := true)
    else if c == '{' then m.(depth := m.depth + 1)
    else if c == '}' then m.(depth := m.depth - 1)
    else m
  }

  /** The character that brings the depth back to zero. */
  predicate Closes(m: State, c: char) {
    !m.inStr && c == '}' && m.depth == 1
  }

  /** How many characters come before the closing one; all of them when there is none. */
  function Offset(m: State, s: string): (k: nat)
    ensures k <= |s|
    decreases |s|
  {
    if |s| == 0 || Closes(m, s[0]) then 0 else 1 + Offset(Feed(m, s[0]), s[1..])
  }

  /** From the first opening brace to the brace that closes it, or the whole text. */
  function Extracted(s: string): string {
    var start := IndexOf(s, '{');
    var k := Offset(START, s[start..]);
    if start + k < |s| then s[start..start + k + 1] else s
  }

  method ExtractJSON(s: string) returns (r: string)
    ensures r == Extracted(s)
    ensures '{' !in s ==> r == s
  {
    var start := IndexOf(s, '{');
    if start == |s| {
      return s;
    }
    var depth, inStr, escaped := 0, false, false;
    var i := start;
    while i < |s|
      invariant start <= i <= |s|
      invariant Offset(START, s[start..]) == i - start + Offset(State(depth, inStr, escaped), s[i..])
    {
      var c := s[i];
      assert s[i..][1..] == s[i + 1..];
      if inStr {
        if escaped {
          escaped := false;
        } else if c == '\\' {
          escaped := true;
        } else if c == '"' {
          inStr := false;
        }
      } else if c == '"' {
        inStr := true;
      } else if c == '{' {
        depth := depth + 1;
      } else if c == '}' {
        depth := depth - 1;
        if depth == 0 {
          return s[start..i + 1];
        }
      }
      i := i + 1;
    }
    return s;
  }

  // ---- what is extracted is an object the scanner would extract again ----

  lemma {:induction false} OffsetOfPrefix(m: State, s: string)
    requires Offset(m, s) < |s|
    ensures Offset(m, s[..Offset(m, s) + 1]) == Offset(m, s)
    decreases |s|
  {
    var k := Offset(m, s);
    if k > 0 {
      OffsetOfPrefix(Feed(m, s[0]), s[1..]);
      assert s[..k + 1][1..] == s[1..][..k];
    }
  }

  /** Extracting twice extracts no more. */
  lemma ExtractTwice(s: string)
    ensures Extracted(Extracted(s)) == Extracted(s)
  {
    var start := IndexOf(s, '{');
    var k := Offset(START, s[start..]);
    if start + k < |s| {
      OffsetOfPrefix(START, s[start..]);
      var r := s[start..start + k + 1];
      assert r == s[start..][..k + 1];
      assert r[0] == '{';
      assert IndexOf(r, '{') == 0;
      assert r[0..] == r && r[0..0 + k + 1] == r;
    }
  }

  // ---- what the scanner looks for, without its depth ----

  /** The characters outside string literals. */
  function Unquoted(inStr: bool, escaped: bool, s: string): string
    decreases |s|
  {
    if |s| == 0 then ""
    else if inStr then
      if escaped then Unquoted(true, false, s[1..])
      else Unquoted(s[0] != '"', s[0] == '\\', s[1..])
    else if s[0] == '"' then Unquoted(true, false, s[1..])
    else [s[0]] + Unquoted(false, false, s[1..])
  }

  function Count(c: char, s: string): nat {
    if |s| == 0 then 0 else (if s[0] == c then 1 else 0) + Count(c, s[1..])
  }

  /** Opening braces less closing ones, outside string literals. */
  function Net(inStr: bool, escaped: bool, s: string): int {
    Count('{', Unquoted(inStr, escaped, s)) - Count('}', Unquoted(inStr, escaped, s))
  }

  /** As many closing as opening braces outside string literals. */
  predicate Balanced(s: string) {
    Net(false, false, s) == 0
  }

  predicate FirstBalanced(t: string, i: nat)
    requires i <= |t|
  {
    Balanced(t[..i]) && forall j :: 0 < j < i ==> !Balanced(t[..j])
  }

  lemma NetOfFirst(m: State, s: string)
    requires |s| > 0 && (m.escaped ==> m.inStr)
    ensures var n := Feed(m, s[0]);
      && (n.escaped ==> n.inStr)
      && m.depth + Net(m.inStr, m.escaped, s) == n.depth + Net(n.inStr, n.escaped, s[1..])
  {
    var n := Feed(m, s[0]);
    var rest := Unquoted(n.inStr, n.escaped, s[1..]);
    if !m.inStr && s[0] != '"' {
      assert Unquoted(m.inStr, m.escaped, s) == [s[0]] + rest;
      assert ([s[0]] + rest)[1..] == rest;
    }
  }

  /** Up to the closing character the depth stays positive, and there it is zero. */
  lemma {:induction false} DepthUpTo(m: State, s: string, i: nat)
    requires m.depth >= 1 && (m.escaped ==> m.inStr) && i <= |s|
    ensures i <= Offset(m, s) ==> m.depth + Net(m.inStr, m.escaped, s[..i]) >= 1
    ensures i == Offset(m, s) + 1 ==> m.depth + Net(m.inStr, m.escaped, s[..i]) == 0
    decreases |s|
  {
    if i > 0 {
      var n := Feed(m, s[0]);
      NetOfFirst(m, s[..i]);
      assert s[..i][0] == s[0] && s[..i][1..] == s[1..][..i - 1];
      if Closes(m, s[0]) {
        assert i == 1 ==> s[1..][..0] == "";
      } else {
        DepthUpTo(n, s[1..], i - 1);
      }
    }
  }

  /** The same for a text that starts with an opening brace. */
  lemma BalancedFirstAt(t: string, i: nat)
    requires |t| > 0 && t[0] == '{' && 0 < i <= |t|
    ensures i <= Offset(START, t) ==> !Balanced(t[..i])
    ensures i == Offset(START, t) + 1 ==> Balanced(t[..i])
  {
    NetOfFirst(START, t[..i]);
    assert t[..i][0] == '{' && t[..i][1..] == t[1..][..i - 1];
    DepthUpTo(State(1, false, false), t[1..], i - 1);
  }

  /**
  For every input with an opening brace: the shortest balanced text from the first one on, if there
  is one, and the input unchanged if there is none.
  */
  lemma ExtractedIsFirstBalanced(s: string)
    requires '{' in s
    ensures var t := s[IndexOf(s, '{')..];
      || (exists i :: 0 < i <= |t| && Extracted(s) == t[..i] && FirstBalanced(t, i))
      || (Extracted(s) == s && forall j :: 0 < j <= |t| ==> !Balanced(t[..j]))
  {
    var start := IndexOf(s, '{');
    var t := s[start..];
    var k := Offset(START, t);
    forall j | 0 < j <= |t| ensures j <= k ==> !Balanced(t[..j]) {
      BalancedFirstAt(t, j);
    }
    if k < |t| {
      BalancedFirstAt(t, k + 1);
      assert Extracted(s) == t[..k + 1];
    }
  }

  // ---- every JSON object is found ----

  /** A character of a string: itself, or any character behind a backslash. */
  datatype Glyph = Plain(c: char) | Escape(c: char)

  /** JSON values with their layout: every pad, before and after is white space. */
  datatype Value =
    | Literal(text: string)
    | Text(glyphs: seq<Glyph>)
    | Array(pad: string, items: Items)
    | Object(pad: string, members: Members)

  datatype Items = NoItems | Items(before: string, value: Value, after: string, rest: Items)

  datatype Members =
    | NoMembers
    | Members(before: string, key: seq<Glyph>, afterKey: string, beforeValue: string, value: Value, after: string,
              rest: Members)

  predicate IsSpace(s: string) {
    forall i :: 0 <= i < |s| ==> s[i] in " \t\r\n"
  }

  /** The words null, true and false, and everything spelt with the characters of a number. */
  predicate IsLiteral(s: string) {
    s == "null" || s == "true" || s == "false" || (|s| > 0 && forall i :: 0 <= i < |s| ==> s[i] in "0123456789+-.eE")
  }

  predicate AreGlyphs(g: seq<Glyph>) {
    forall i :: 0 <= i < |g| ==> g[i].Plain? ==> g[i].c != '"' && g[i].c != '\\'
  }

  predicate IsJson(v: Value) {
    match v
    case Literal(text) => IsLiteral(text)
    case Text(glyphs) => AreGlyphs(glyphs)
    case Array(pad, items) => IsSpace(pad) && AreItems(items)
    case Object(pad, members) => IsSpace(pad) && AreMembers(members)
  }

  predicate AreItems(items: Items) {
    match items
    case NoItems => true
    case Items(before, value, after, rest) => IsSpace(before) && IsJson(value) && IsSpace(after) && AreItems(rest)
  }

  predicate AreMembers(members: Members) {
    match members
    case NoMembers => true
    case Members(before, key, afterKey, beforeValue, value, after, rest) =>
      && IsSpace(before) && AreGlyphs(key) && IsSpace(afterKey)
      && IsSpace(beforeValue) && IsJson(value) && IsSpace(after) && AreMembers(rest)
  }

  function RenderGlyph(g: Glyph): string {
    if g.Plain? then [g.c] else ['\\', g.c]
  }

  function RenderGlyphs(g: seq<Glyph>): string {
    if |g| == 0 then "" else RenderGlyph(g[0]) + RenderGlyphs(g[1..])
  }

  function Quoted(g: seq<Glyph>): string {
    "\"" + (RenderGlyphs(g) + "\"")
  }

  function Render(v: Value): string {
    match v
    case Literal(text) => text
    case Text(glyphs) => Quoted(glyphs)
    case Array(pad, items) => ("[" + pad) + (RenderItems(items) + "]")
    case Object(pad, members) => "{" + ((pad + RenderMembers(members)) + "}")
  }

  function Body(v: Value): string
    requires v.Object?
  {
    v.pad + RenderMembers(v.members)
  }

  function RenderItems(items: Items): string {
    match items
    case NoItems => ""
    case Items(before, value, after, rest) =>
      before + (Render(value) + ((after + (if rest.NoItems? then "" else ",")) + RenderItems(rest)))
  }

  function RenderMembers(members: Members): string {
    match members
    case NoMembers => ""
    case Members(before, key, afterKey, beforeValue, value, after, rest) =>
      before + (Quoted(key) + ((afterKey + ":" + beforeValue) +
        (Render(value) + ((after + (if rest.NoMembers? then "" else ",")) + RenderMembers(rest)))))
  }

  function Outside(depth: nat): State {
    State(depth, false, false)
  }

  /** Nothing the scanner reacts to outside a string. */
  predicate Quiet(s: string) {
    forall i :: 0 <= i < |s| ==> s[i] != '"' && s[i] != '{' && s[i] != '}'
  }

  /** Scanning the text outside a string leaves the scan where it was. */
  predicate Passes(text: string, depth: nat, rest: string) {
    Offset(Outside(depth), text + rest) == |text| + Offset(Outside(depth), rest)
  }

  lemma Then(a: string, b: string, depth: nat, rest: string)
    requires Passes(a, depth, b + rest) && Passes(b, depth, rest)
    ensures Passes(a + b, depth, rest)
  {
    assert (a + b) + rest == a + (b + rest);
  }

  lemma {:induction false} ScanQuiet(s: string, depth: nat, rest: string)
    requires Quiet(s)
    ensures Passes(s, depth, rest)
  {
    if |s| == 0 {
      assert s + rest == rest;
    } else {
      assert (s + rest)[1..] == s[1..] + rest;
      ScanQuiet(s[1..], depth, rest);
    }
  }

  lemma OneChar(m: State, c: char, rest: string)
    requires !Closes(m, c)
    ensures Offset(m, [c] + rest) == 1 + Offset(Feed(m, c), rest)
  {
  }

  /** The same inside a string. */
  predicate PassesInString(text: string, depth: nat, rest: string) {
    Offset(State(depth, true, false), text + rest) == |text| + Offset(State(depth, true, false), rest)
  }

  lemma ScanGlyph(g: Glyph, depth: nat, rest: string)
    requires AreGlyphs([g])
    ensures PassesInString(RenderGlyph(g), depth, rest)
  {
    assert [g][0] == g;
    var m := State(depth, true, false);
    if g.Plain? {
      OneChar(m, g.c, rest);
    } else {
      assert ['\\', g.c] + rest == ['\\'] + ([g.c] + rest);
      OneChar(m, '\\', [g.c] + rest);
      OneChar(m.(escaped := true), g.c, rest);
    }
  }

  lemma {:induction false} ScanGlyphs(g: seq<Glyph>, depth: nat, rest: string)
    requires AreGlyphs(g)
    ensures PassesInString(RenderGlyphs(g), depth, rest)
  {
    if |g| == 0 {
      assert RenderGlyphs(g) + rest == rest;
    } else {
      var tail := RenderGlyphs(g[1..]);
      ScanGlyphs(g[1..], depth, rest);
      ScanGlyph(g[0], depth, tail + rest);
      assert (RenderGlyph(g[0]) + tail) + rest == RenderGlyph(g[0]) + (tail + rest);
    }
  }

  /** A string literal leaves the scan where it was, whatever braces it holds. */
  lemma ScanQuoted(g: seq<Glyph>, depth: nat, rest: string)
    requires AreGlyphs(g)
    ensures Passes(Quoted(g), depth, rest)
  {
    var body := RenderGlyphs(g);
    assert Quoted(g) + rest == ['"'] + (body + (['"'] + rest));
    OneChar(Outside(depth), '"', body + (['"'] + rest));
    ScanGlyphs(g, depth, ['"'] + rest);
    OneChar(State(depth, true, false), '"', rest);
  }

  /** So does a text in braces, as long as some brace before it is open. */
  lemma ScanBraces(body: string, depth: nat, rest: string)
    requires depth >= 1 && Passes(body, depth + 1, "}" + rest)
    ensures Passes("{" + (body + "}"), depth, rest)
  {
    assert ("{" + (body + "}")) + rest == ['{'] + (body + (['}'] + rest));
    OneChar(Outside(depth), '{', body + (['}'] + rest));
    OneChar(Outside(depth + 1), '}', rest);
  }

  lemma LiteralIsQuiet(text: string)
    requires IsLiteral(text)
    ensures Quiet(text)
  {
  }

  lemma ScanArray(pad: string, items: string, depth: nat, rest: string)
    requires IsSpace(pad) && Passes(items, depth, "]" + rest)
    ensures Passes(("[" + pad) + (items + "]"), depth, rest)
  {
    ScanQuiet("]", depth, rest);
    Then(items, "]", depth, rest);
    ScanQuiet("[" + pad, depth, (items + "]") + rest);
    Then("[" + pad, items + "]", depth, rest);
  }

  /** And so every value. */
  lemma {:induction false} ScanValue(v: Value, depth: nat, rest: string)
    requires IsJson(v) && depth >= 1
    ensures Passes(Render(v), depth, rest)
    decreases v
  {
    match v
    case Literal(text) =>
      LiteralIsQuiet(text);
      ScanQuiet(text, depth, rest);
    case Text(glyphs) =>
      ScanQuoted(glyphs, depth, rest);
    case Array(pad, items) =>
      ScanItems(items, depth, "]" + rest);
      ScanArray(pad, RenderItems(items), depth, rest);
    case Object(pad, members) =>
      ScanBody(pad, members, depth + 1, "}" + rest);
      ScanBraces(Body(v), depth, rest);
  }

  /** From behind an opening brace to its closing one. */
  lemma {:induction false} ScanBody(pad: string, members: Members, depth: nat, rest: string)
    requires IsSpace(pad) && AreMembers(members) && depth >= 1
    ensures Passes(pad + RenderMembers(members), depth, rest)
    decreases members, 1
  {
    ScanQuiet(pad, depth, RenderMembers(members) + rest);
    ScanMembers(members, depth, rest);
    Then(pad, RenderMembers(members), depth, rest);
  }

  lemma {:induction false} ScanItems(items: Items, depth: nat, rest: string)
    requires AreItems(items) && depth >= 1
    ensures Passes(RenderItems(items), depth, rest)
    decreases items
  {
    match items
    case NoItems =>
      ScanQuiet("", depth, rest);
    case Items(before, value, after, more) =>
      var comma := after + (if more.NoItems? then "" else ",");
      ScanItems(more, depth, rest);
      ScanValue(value, depth, comma + RenderItems(more) + rest);
      ScanEntry(before, Render(value), comma, RenderItems(more), depth, rest);
  }

  lemma {:induction false} ScanMembers(members: Members, depth: nat, rest: string)
    requires AreMembers(members) && depth >= 1
    ensures Passes(RenderMembers(members), depth, rest)
    decreases members, 0
  {
    match members
    case NoMembers =>
      ScanQuiet("", depth, rest);
    case Members(before, key, afterKey, beforeValue, value, after, more) =>
      var colon := afterKey + ":" + beforeValue;
      var comma := after + (if more.NoMembers? then "" else ",");
      var text, tail := Render(value), RenderMembers(more);
      SpacesAreQuiet(afterKey, ":" + beforeValue);
      SpacesAreQuiet(after, if more.NoMembers? then "" else ",");
      assert colon == afterKey + (":" + beforeValue);
      ScanMembers(more, depth, rest);
      ScanValue(value, depth, comma + tail + rest);
      ScanMember(before, key, colon, text, comma, tail, depth, rest);
  }

  lemma ScanMember(before: string, key: seq<Glyph>, colon: string, value: string, after: string, tail: string,
                   depth: nat, rest: string)
    requires Quiet(before) && AreGlyphs(key) && Quiet(colon)
    requires Passes(value, depth, after + tail + rest) && Quiet(after) && Passes(tail, depth, rest)
    ensures Passes(before + (Quoted(key) + (colon + (value + (after + tail)))), depth, rest)
  {
    ScanEntry(colon, value, after, tail, depth, rest);
    ScanKey(before, key, colon + (value + (after + tail)), depth, rest);
  }

  lemma SpacesAreQuiet(space: string, more: string)
    requires IsSpace(space) && Quiet(more)
    ensures Quiet(space + more)
  {
  }

  lemma ScanKey(before: string, key: seq<Glyph>, tail: string, depth: nat, rest: string)
    requires Quiet(before) && AreGlyphs(key) && Passes(tail, depth, rest)
    ensures Passes(before + (Quoted(key) + tail), depth, rest)
  {
    ScanQuoted(key, depth, tail + rest);
    Then(Quoted(key), tail, depth, rest);
    ScanQuiet(before, depth, (Quoted(key) + tail) + rest);
    Then(before, Quoted(key) + tail, depth, rest);
  }

  /** A value between quiet texts, and what follows. */
  lemma ScanEntry(before: string, value: string, after: string, tail: string, depth: nat, rest: string)
    requires Quiet(before) && Passes(value, depth, after + tail + rest) && Quiet(after) && Passes(tail, depth, rest)
    ensures Passes(before + (value + (after + tail)), depth, rest)
  {
    ScanQuiet(after, depth, tail + rest);
    Then(after, tail, depth, rest);
    Then(value, after + tail, depth, rest);
    ScanQuiet(before, depth, (value + (after + tail)) + rest);
    Then(before, value + (after + tail), depth, rest);
  }

  /** An object standing first is closed by its own last brace. */
  lemma ScanObject(v: Value, rest: string)
    requires v.Object? && IsJson(v)
    ensures Offset(START, Render(v) + rest) == |Render(v)| - 1
  {
    assert Render(v) + rest == ['{'] + (Body(v) + ("}" + rest));
    OneChar(START, '{', Body(v) + ("}" + rest));
    ScanBody(v.pad, v.members, 1, "}" + rest);
    assert ("}" + rest)[0] == '}';
  }

  /**
  Every JSON object, whatever its strings hold, is found behind any text free of opening
  braces and before any text at all; with a brace in the text before it the scan starts there.
  */
  lemma ObjectIsExtracted(prefix: string, v: Value, suffix: string)
    requires v.Object? && IsJson(v)
    ensures '{' !in prefix ==> Extracted(prefix + (Render(v) + suffix)) == Render(v)
    ensures IndexOf(prefix + (Render(v) + suffix), '{') == |prefix| <==> '{' !in prefix
  {
    var text := Render(v) + suffix;
    var s := prefix + text;
    assert text[0] == '{';
    assert s[|prefix|] == '{';
    if '{' !in prefix {
      assert IndexOf(s, '{') == |prefix|;
      assert s[|prefix|..] == text;
      ScanObject(v, suffix);
      assert s[|prefix|..|prefix| + |Render(v)|] == Render(v);
    } else {
      var i :| 0 <= i < |prefix| && prefix[i] == '{';
      assert s[i] == '{';
    }
  }
}
