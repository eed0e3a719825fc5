/**
The References header: the printer buildRefs of internal/infrastructure/email/smtp.go
against the parser splitReferences and trimAngles of
internal/delivery/emailingest/translate.go.

A string is a sequence of octets. strings.TrimSpace and strings.Fields are library
calls; they are parameters, so what is proved holds for any trimming at all.
*/
module References {

  const MAX_REFS: nat := 50
  const FOLD_OCTETS: nat := 900
  const MAX_MSG_ID: nat := 256
  const HEADER := "References: "
  const CRLF := "\r\n"

  // ---- the printer ----

  predicate Stripped(c: char) {
    c == '\r' || c == '\n' || c == '\t' || c == ' ' || c == '<' || c == '>'
  }

  function Strip(s: string): string {
    if |s| == 0 then ""
    else if Stripped(s[0]) then Strip(s[1..])
    else [s[0]] + Strip(s[1..])
  }

  function SanitizeMsgID(trim: string -> string, s: string): string {
    Strip(trim(s))
  }

  function MostRecent(references: seq<string>): seq<string> {
    if |references| > MAX_REFS then references[|references| - MAX_REFS..] else references
  }

  /** The ids worth printing: sanitised, not empty, not oversized. */
  function Ids(trim: string -> string, references: seq<string>): seq<string> {
    if |references| == 0 then []
    else
      var rest := Ids(trim, references[..|references| - 1]);
      var id := SanitizeMsgID(trim, references[|references| - 1]);
      if id != "" && |id| <= MAX_MSG_ID then rest + [id] else rest
  }

  function Token(id: string): string {
    "<" + id + ">"
  }

  function Tokens(ids: seq<string>): seq<string> {
    seq(|ids|, i requires 0 <= i < |ids| => Token(ids[i]))
  }

  function LastLine(lines: seq<string>): string
    requires |lines| >= 1
  {
    lines[|lines| - 1]
  }

  /** Where the next token goes: behind the header name, on the current line, or on a new one. */
  function Place(lines: seq<string>, first: bool, t: string): (placed: seq<string>)
    requires |lines| >= 1
    ensures |placed| >= 1
  {
    var last := lines[|lines| - 1];
    if first then lines[..|lines| - 1] + [last + t]
    else if |last| + 1 + |t| > FOLD_OCTETS then lines + [" " + t]
    else lines[..|lines| - 1] + [last + (" " + t)]
  }

  /** The folded header, line by line: the header name on the first, a leading space on the others. */
  function Lines(tokens: seq<string>): (lines: seq<string>)
    ensures |lines| >= 1
  {
    if |tokens| == 0 then [HEADER]
    else Place(Lines(tokens[..|tokens| - 1]), |tokens| == 1, tokens[|tokens| - 1])
  }

  /** The lines with a break between each two: CRLF as sent, nothing once unfolded (section 2.2.3 of RFC 5322). */
  function JoinLines(brk: string, lines: seq<string>): string {
    if |lines| == 0 then ""
    else if |lines| == 1 then lines[0]
    else lines[0] + brk + JoinLines(brk, lines[1..])
  }

  lemma {:induction false} GrowLastLine(brk: string, lines: seq<string>, more: string)
    requires |lines| >= 1
    ensures JoinLines(brk, lines[..|lines| - 1] + [lines[|lines| - 1] + more]) == JoinLines(brk, lines) + more
  {
    var grown := lines[..|lines| - 1] + [lines[|lines| - 1] + more];
    if |lines| > 1 {
      GrowLastLine(brk, lines[1..], more);
      var rest := JoinLines(brk, lines[1..]);
      assert grown[1..] == lines[1..][..|lines| - 2] + [lines[1..][|lines| - 2] + more];
      assert lines[0] + brk + (rest + more) == lines[0] + brk + rest + more;
    }
  }

  lemma {:induction false} AddLine(brk: string, lines: seq<string>, line: string)
    requires |lines| >= 1
    ensures JoinLines(brk, lines + [line]) == JoinLines(brk, lines) + (brk + line)
  {
    var longer := lines + [line];
    if |lines| > 1 {
      AddLine(brk, lines[1..], line);
      var rest := JoinLines(brk, lines[1..]);
      assert longer[1..] == lines[1..] + [line];
      assert lines[0] + brk + (rest + (brk + line)) == lines[0] + brk + rest + (brk + line);
    } else {
      assert longer[1..] == [line];
      assert lines[0] + brk + line == lines[0] + (brk + line);
    }
  }

  /** What is written for the next token, the last line being that long: its separator and the token. */
  function Piece(brk: string, lineLen: nat, first: bool, t: string): string {
    if first then t
    else if lineLen + 1 + |t| > FOLD_OCTETS then brk + (" " + t)
    else " " + t
  }

  lemma NextPiece(brk: string, lines: seq<string>, first: bool, t: string)
    requires |lines| >= 1
    ensures JoinLines(brk, Place(lines, first, t)) == JoinLines(brk, lines) + Piece(brk, |LastLine(lines)|, first, t)
  {
    if first {
      GrowLastLine(brk, lines, t);
    } else if |LastLine(lines)| + 1 + |t| > FOLD_OCTETS {
      AddLine(brk, lines, " " + t);
    } else {
      GrowLastLine(brk, lines, " " + t);
    }
  }

  /** The first loop of buildRefs. */
  method CollectTokens(trim: string -> string, references: seq<string>) returns (tokens: seq<string>)
    ensures tokens == Tokens(Ids(trim, references))
  {
    tokens := [];
    for i := 0 to |references|
      invariant tokens == Tokens(Ids(trim, references[..i]))
    {
      assert references[..i + 1][..i] == references[..i];
      var id := SanitizeMsgID(trim, references[i]);
      if id != "" && |id| <= MAX_MSG_ID {
        tokens := tokens + [Token(id)];
      }
    }
    assert references[..|references|] == references;
  }

  /** The text written so far reads, behind the header name, as these lines. */
  predicate Folded(value: string, lineLen: int, lines: seq<string>) {
    |lines| >= 1 && HEADER + value == JoinLines(CRLF, lines) && lineLen == |LastLine(lines)|
  }

  lemma FoldOne(value: string, lineLen: nat, lines: seq<string>, first: bool, t: string, piece: string)
    requires Folded(value, lineLen, lines) && piece == Piece(CRLF, lineLen, first, t)
    ensures HEADER + (value + piece) == JoinLines(CRLF, Place(lines, first, t))
  {
    NextPiece(CRLF, lines, first, t);
    assert HEADER + (value + piece) == (HEADER + value) + piece;
  }

  lemma LinesStep(tokens: seq<string>, i: nat)
    requires i < |tokens|
    ensures Lines(tokens[..i + 1]) == Place(Lines(tokens[..i]), i == 0, tokens[i])
  {
    assert tokens[..i + 1][..i] == tokens[..i];
  }

  /** The second loop of buildRefs. */
  method FoldTokens(tokens: seq<string>) returns (value: string)
    ensures HEADER + value == JoinLines(CRLF, Lines(tokens))
  {
    value := "";
    var lineLen := |HEADER|;
    for i := 0 to |tokens|
      invariant Folded(value, lineLen, Lines(tokens[..i]))
    {
      var t := tokens[i];
      var piece := t;
      ghost var width, lines := lineLen, Lines(tokens[..i]);
      if i == 0 {
      } else if lineLen + 1 + |t| > FOLD_OCTETS {
        piece := CRLF + (" " + t);
        lineLen := 1;
      } else {
        piece := " " + t;
        lineLen := lineLen + 1;
      }
      FoldOne(value, width, lines, i == 0, t, piece);
      LinesStep(tokens, i);
      value := value + piece;
      lineLen := lineLen + |t|;
    }
    assert tokens[..|tokens|] == tokens;
  }

  /** buildRefs: the folded value of the most recent usable ids. */
  method BuildRefs(trim: string -> string, references: seq<string>) returns (value: string)
    ensures HEADER + value == JoinLines(CRLF, Lines(Tokens(Ids(trim, MostRecent(references)))))
  {
    var recent := references;
    if |recent| > MAX_REFS {
      recent := recent[|recent| - MAX_REFS..];
    }
    var tokens := CollectTokens(trim, recent);
    if |tokens| == 0 {
      return "";
    }
    value := FoldTokens(tokens);
  }

  // ---- line lengths ----

  /** The first CRLF, or the length of the text. */
  function NextBreak(s: string): (k: nat)
    ensures k <= |s|
    ensures k < |s| ==> k + 1 < |s| && s[k] == '\r' && s[k + 1] == '\n'
  {
    if |s| < 2 then |s|
    else if s[0] == '\r' && s[1] == '\n' then 0
    else 1 + NextBreak(s[1..])
  }

  /** The physical lines of a header. */
  function SplitLines(s: string): seq<string>
    decreases |s|
  {
    var k := NextBreak(s);
    if k == |s| then [s] else [s[..k]] + SplitLines(s[k + 2..])
  }

  predicate Unbroken(line: string) {
    forall i :: 0 <= i < |line| ==> line[i] != '\r' && line[i] != '\n'
  }

  lemma {:induction false} BreakAfter(line: string, rest: string)
    requires Unbroken(line)
    ensures NextBreak(line + CRLF + rest) == |line|
    ensures NextBreak(line) == |line|
  {
    if |line| > 0 {
      BreakAfter(line[1..], rest);
      assert (line + CRLF + rest)[1..] == line[1..] + CRLF + rest;
    }
  }

  /** Splitting undoes joining. */
  lemma {:induction false} SplitOfJoin(lines: seq<string>)
    requires |lines| >= 1 && forall i :: 0 <= i < |lines| ==> Unbroken(lines[i])
    ensures SplitLines(JoinLines(CRLF, lines)) == lines
  {
    if |lines| == 1 {
      BreakAfter(lines[0], "");
    } else {
      var rest := JoinLines(CRLF, lines[1..]);
      BreakAfter(lines[0], rest);
      SplitOfJoin(lines[1..]);
      assert (lines[0] + CRLF + rest)[..|lines[0]|] == lines[0];
      assert (lines[0] + CRLF + rest)[|lines[0]| + 2..] == rest;
    }
  }

  lemma {:induction false} StripRemoves(s: string)
    ensures |Strip(s)| <= |s| && forall i :: 0 <= i < |Strip(s)| ==> !Stripped(Strip(s)[i])
  {
    if |s| > 0 {
      StripRemoves(s[1..]);
    }
  }

  /** Stripping goes character by character: line breaks, tabs, spaces and angle brackets go, all else stays. */
  lemma StripOne(c: char)
    ensures Strip([c]) == if c in {'\r', '\n', '\t', ' ', '<', '>'} then "" else [c]
  {
    assert [c][1..] == "";
  }

  lemma {:induction false} StripBoth(a: string, b: string)
    ensures Strip(a + b) == Strip(a) + Strip(b)
  {
    if |a| == 0 {
      assert a + b == b;
    } else {
      assert (a + b)[1..] == a[1..] + b;
      StripBoth(a[1..], b);
    }
  }

  /** A bare id: nothing a header or the parser could trip over. */
  predicate Bare(id: string) {
    0 < |id| <= MAX_MSG_ID && forall i :: 0 <= i < |id| ==> !Stripped(id[i])
  }

  lemma {:induction false} IdsAreBare(trim: string -> string, references: seq<string>)
    ensures forall i :: 0 <= i < |Ids(trim, references)| ==> Bare(Ids(trim, references)[i])
  {
    if |references| > 0 {
      IdsAreBare(trim, references[..|references| - 1]);
      StripRemoves(trim(references[|references| - 1]));
    }
  }

  lemma {:induction false} StripKeeps(s: string)
    requires forall i :: 0 <= i < |s| ==> !Stripped(s[i])
    ensures Strip(s) == s
  {
    if |s| > 0 {
      StripKeeps(s[1..]);
      assert s == [s[0]] + s[1..];
    }
  }

  /** Ids that need no sanitising are printed as they are. */
  lemma {:induction false} BareIdsStay(trim: string -> string, references: seq<string>)
    requires forall i :: 0 <= i < |references| ==> Bare(references[i]) && trim(references[i]) == references[i]
    ensures Ids(trim, references) == references
  {
    if |references| > 0 {
      var n := |references| - 1;
      BareIdsStay(trim, references[..n]);
      StripKeeps(references[n]);
      assert references == references[..n] + [references[n]];
    }
  }

  /** Each reference is sanitised and kept, or dropped, on its own. */
  lemma OneId(trim: string -> string, r: string)
    ensures var id := Strip(trim(r)); Ids(trim, [r]) == if 0 < |id| <= 256 then [id] else []
  {
    assert [r][..0] == [];
  }

  lemma {:induction false} IdsOfBoth(trim: string -> string, a: seq<string>, b: seq<string>)
    ensures Ids(trim, a + b) == Ids(trim, a) + Ids(trim, b)
  {
    if |b| == 0 {
      assert a + b == a;
    } else {
      var front, last := b[..|b| - 1], b[|b| - 1];
      IdsOfBoth(trim, a, front);
      assert (a + b)[..|a + b| - 1] == a + front && (a + b)[|a + b| - 1] == last;
    }
  }

  // ---- where the lines break ----

  /** The tokens with a space between each two. */
  function Spaced(tokens: seq<string>): string {
    if |tokens| == 0 then ""
    else if |tokens| == 1 then tokens[0]
    else Spaced(tokens[..|tokens| - 1]) + (" " + tokens[|tokens| - 1])
  }

  lemma PlainPiece(lineLen: nat, first: bool, t: string)
    ensures Piece("", lineLen, first, t) == if first then t else " " + t
  {
    assert "" + (" " + t) == " " + t;
  }

  lemma OnBehind(head: string, text: string, piece: string, joined: string)
    requires joined == head + text
    ensures joined + piece == head + (text + piece)
  {
  }

  lemma SpacedOn(tokens: seq<string>)
    requires |tokens| > 0
    ensures var n := |tokens| - 1;
      Spaced(tokens) == Spaced(tokens[..n]) + if n == 0 then tokens[n] else " " + tokens[n]
  {
  }

  /** Unfolded, the header is its name and the tokens, a space between each two. */
  lemma {:induction false} UnfoldedIsSpaced(tokens: seq<string>)
    ensures JoinLines("", Lines(tokens)) == "References: " + Spaced(tokens)
  {
    if |tokens| > 0 {
      var n := |tokens| - 1;
      var lines, t := Lines(tokens[..n]), tokens[n];
      UnfoldedIsSpaced(tokens[..n]);
      NextPiece("", lines, n == 0, t);
      PlainPiece(|LastLine(lines)|, n == 0, t);
      OnBehind(HEADER, Spaced(tokens[..n]), if n == 0 then t else " " + t, JoinLines("", lines));
      SpacedOn(tokens);
    }
  }

  /** The line starts with a space and this token. */
  predicate StartsWith(line: string, t: string) {
    |line| > |t| && line[0] == ' ' && line[1..1 + |t|] == t
  }

  /** The line is broken only where the next token would not have fitted. */
  ghost predicate BreaksLate(tokens: seq<string>, lines: seq<string>, i: nat)
    requires i + 1 < |lines|
  {
    exists t :: t in tokens && StartsWith(lines[i + 1], t) && |lines[i]| + 1 + |t| > 900
  }

  lemma PlaceBreaksLate(tokens: seq<string>, lines: seq<string>, first: bool, t: string, i: nat)
    requires |lines| >= 1 && (first ==> |lines| == 1) && i + 1 < |Place(lines, first, t)|
    requires i + 1 < |lines| ==> BreaksLate(tokens, lines, i)
    ensures BreaksLate(tokens + [t], Place(lines, first, t), i)
  {
    var placed := Place(lines, first, t);
    if i + 1 < |lines| {
      var u :| u in tokens && StartsWith(lines[i + 1], u) && |lines[i]| + 1 + |u| > 900;
      assert |placed[i + 1]| >= |lines[i + 1]| && placed[i + 1][..|lines[i + 1]|] == lines[i + 1];
      assert placed[i + 1][1..1 + |u|] == lines[i + 1][1..1 + |u|];
      assert u in tokens + [t] && StartsWith(placed[i + 1], u);
    } else {
      assert placed[i + 1] == " " + t;
      assert (" " + t)[1..1 + |t|] == t;
      assert t in tokens + [t] && StartsWith(placed[i + 1], t);
    }
  }

  ghost predicate AllBreakLate(tokens: seq<string>, lines: seq<string>) {
    forall i: nat :: i + 1 < |lines| ==> BreaksLate(tokens, lines, i)
  }

  lemma PlaceKeepsLate(tokens: seq<string>, lines: seq<string>, first: bool, t: string)
    requires |lines| >= 1 && (first ==> |lines| == 1) && AllBreakLate(tokens, lines)
    ensures AllBreakLate(tokens + [t], Place(lines, first, t))
  {
    forall i: nat | i + 1 < |Place(lines, first, t)| ensures BreaksLate(tokens + [t], Place(lines, first, t), i) {
      PlaceBreaksLate(tokens, lines, first, t, i);
    }
  }

  /** Every line holds as many tokens as fit. */
  lemma {:induction false} LinesBreakLate(tokens: seq<string>)
    ensures AllBreakLate(tokens, Lines(tokens)) && (|tokens| == 0 ==> |Lines(tokens)| == 1)
  {
    if |tokens| > 0 {
      var n := |tokens| - 1;
      var lines := Lines(tokens[..n]);
      LinesBreakLate(tokens[..n]);
      PlaceKeepsLate(tokens[..n], lines, n == 0, tokens[n]);
      assert tokens == tokens[..n] + [tokens[n]];
    }
  }

  predicate Fits(line: string) {
    Unbroken(line) && |line| <= FOLD_OCTETS
  }

  lemma PlaceFits(lines: seq<string>, first: bool, t: string)
    requires |lines| >= 1 && forall i :: 0 <= i < |lines| ==> Fits(lines[i])
    requires Unbroken(t) && |t| <= MAX_MSG_ID + 2 && (first ==> lines == [HEADER])
    ensures forall i :: 0 <= i < |Place(lines, first, t)| ==> Fits(Place(lines, first, t)[i])
  {
  }

  lemma {:induction false} LinesFit(tokens: seq<string>)
    requires forall i :: 0 <= i < |tokens| ==> Unbroken(tokens[i]) && |tokens[i]| <= MAX_MSG_ID + 2
    ensures forall i :: 0 <= i < |Lines(tokens)| ==> Fits(Lines(tokens)[i])
  {
    if |tokens| > 0 {
      LinesFit(tokens[..|tokens| - 1]);
      PlaceFits(Lines(tokens[..|tokens| - 1]), |tokens| == 1, tokens[|tokens| - 1]);
    }
  }

  /** Every physical line of the rendered header, header name included, stays within the fold limit. */
  lemma HeaderLinesFit(trim: string -> string, references: seq<string>, value: string)
    requires HEADER + value == JoinLines(CRLF, Lines(Tokens(Ids(trim, MostRecent(references)))))
    ensures forall line :: line in SplitLines(HEADER + value) ==> |line| <= 900
  {
    var ids := Ids(trim, MostRecent(references));
    IdsAreBare(trim, MostRecent(references));
    LinesFit(Tokens(ids));
    SplitOfJoin(Lines(Tokens(ids)));
  }
}
