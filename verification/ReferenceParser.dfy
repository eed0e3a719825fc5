/** splitReferences, trimAngle and trimAngles of internal/delivery/emailingest/translate.go. */
module ReferenceParser {
  import opened Strings

  datatype Found = Missing | Found(token: string, rest: string)

  /** The first bracketed id, brackets included, and what comes after it. */
  function NextBracket(v: string): (f: Found)
    ensures f.Found? ==> |f.rest| < |v|
  {
    var i := IndexOf(v, '<');
    var tail := v[i..];
    var j := IndexOf(tail, '>');
    if i == |v| || j == |tail| then Missing else Found(tail[..j + 1], tail[j + 1..])
  }

  /** Each bracketed id in turn. */
  function Brackets(v: string): seq<string>
    decreases |v|
  {
    match NextBracket(v)
    case Missing => []
    case Found(token, rest) => [token] + Brackets(rest)
  }

  predicate LooksLikeMsgID(f: string) {
    '@' in f && '<' !in f && '>' !in f
  }

  function MsgIDFields(fields: seq<string>): seq<string> {
    if |fields| == 0 then []
    else
      var rest := MsgIDFields(fields[..|fields| - 1]);
      if LooksLikeMsgID(fields[|fields| - 1]) then rest + [fields[|fields| - 1]] else rest
  }

  /** Bracketed ids, or failing any the words that look like ids. */
  function References(split: string -> seq<string>, v: string): seq<string> {
    if Brackets(v) == [] then MsgIDFields(split(v)) else Brackets(v)
  }

  /** There is a bracketed id exactly when some opening bracket has a closing one behind it. */
  lemma BracketsIff(v: string)
    ensures Brackets(v) != [] <==> exists i, j :: 0 <= i < j < |v| && v[i] == '<' && v[j] == '>'
  {
    var i := IndexOf(v, '<');
    var tail := v[i..];
    var j := IndexOf(tail, '>');
    if i < |v| && j < |tail| {
      assert v[i] == '<' && v[i + j] == '>' && j != 0;
    } else if i < |v| {
      assert forall k :: i <= k < |v| ==> v[k] == tail[k - i];
    }
  }

  lemma {:induction false} FieldsExactly(fields: seq<string>)
    ensures forall f :: f in MsgIDFields(fields) <==> f in fields && '@' in f && '<' !in f && '>' !in f
  {
    if |fields| > 0 {
      FieldsExactly(fields[..|fields| - 1]);
      assert fields == fields[..|fields| - 1] + [fields[|fields| - 1]];
    }
  }

  /** Without one, the words that hold an at sign and no angle bracket are taken. */
  lemma WordsAreTaken(split: string -> seq<string>, v: string)
    requires forall i, j :: 0 <= i < j < |v| ==> !(v[i] == '<' && v[j] == '>')
    ensures forall f :: f in References(split, v) <==> f in split(v) && '@' in f && '<' !in f && '>' !in f
  {
    BracketsIff(v);
    FieldsExactly(split(v));
  }

  lemma OneBracket(v: string, out: seq<string>)
    requires NextBracket(v).Found?
    ensures out + Brackets(v) == (out + [NextBracket(v).token]) + Brackets(NextBracket(v).rest)
  {
  }

  method ScanBrackets(v: string) returns (out: seq<string>)
    ensures out == Brackets(v)
  {
    out := [];
    var rest := v;
    while true
      invariant Brackets(v) == out + Brackets(rest)
      decreases |rest|
    {
      var next := NextBracket(rest);
      if next.Missing? {
        return;
      }
      OneBracket(rest, out);
      out := out + [next.token];
      rest := next.rest;
    }
  }

  method SplitReferences(split: string -> seq<string>, v: string) returns (out: seq<string>)
    ensures out == References(split, v)
  {
    out := ScanBrackets(v);
    if |out| == 0 {
      var words := split(v);
      for k := 0 to |words|
        invariant out == MsgIDFields(words[..k])
      {
        assert words[..k + 1][..k] == words[..k];
        if LooksLikeMsgID(words[k]) {
          out := out + [words[k]];
        }
      }
      assert words[..|words|] == words;
    }
  }

  predicate IsAngle(c: char) {
    c == '<' || c == '>'
  }

  function TrimLeft(s: string): string {
    if |s| > 0 && IsAngle(s[0]) then TrimLeft(s[1..]) else s
  }

  function TrimRight(s: string): string {
    if |s| > 0 && IsAngle(s[|s| - 1]) then TrimRight(s[..|s| - 1]) else s
  }

  /** strings.Trim(s, "<>") */
  function TrimAngle(s: string): string {
    TrimRight(TrimLeft(s))
  }

  function Trimmed(refs: seq<string>): seq<string> {
    if |refs| == 0 then []
    else
      var rest := Trimmed(refs[..|refs| - 1]);
      var id := TrimAngle(refs[|refs| - 1]);
      if id != "" then rest + [id] else rest
  }

  predicate AllAngles(s: string) {
    forall i :: 0 <= i < |s| ==> s[i] == '<' || s[i] == '>'
  }

  lemma {:induction false} LeftAngles(s: string) returns (left: string)
    ensures s == left + TrimLeft(s) && AllAngles(left)
    ensures TrimLeft(s) != "" ==> TrimLeft(s)[0] != '<' && TrimLeft(s)[0] != '>'
  {
    left := "";
    if |s| > 0 && IsAngle(s[0]) {
      var rest := LeftAngles(s[1..]);
      left := [s[0]] + rest;
      assert s == [s[0]] + s[1..];
    }
  }

  lemma {:induction false} RightAngles(s: string) returns (right: string)
    ensures s == TrimRight(s) + right && AllAngles(right)
    ensures var t := TrimRight(s); t != "" ==> t[|t| - 1] != '<' && t[|t| - 1] != '>' && t[0] == s[0]
  {
    right := "";
    if |s| > 0 && IsAngle(s[|s| - 1]) {
      var rest := RightAngles(s[..|s| - 1]);
      right := rest + [s[|s| - 1]];
      assert s == s[..|s| - 1] + [s[|s| - 1]];
    }
  }

  /** Angle brackets go at both ends and nothing else does: the rest neither starts nor ends with one. */
  lemma TrimAngleExactly(s: string) returns (left: string, right: string)
    ensures s == left + TrimAngle(s) + right && AllAngles(left) && AllAngles(right)
    ensures var t := TrimAngle(s); t != "" ==> t[0] !in {'<', '>'} && t[|t| - 1] !in {'<', '>'}
  {
    left := LeftAngles(s);
    right := RightAngles(TrimLeft(s));
    assert left + (TrimAngle(s) + right) == left + TrimAngle(s) + right;
  }

  method TrimAngles(refs: seq<string>) returns (out: seq<string>)
    ensures out == Trimmed(refs)
  {
    out := [];
    for k := 0 to |refs|
      invariant out == Trimmed(refs[..k])
    {
      assert refs[..k + 1][..k] == refs[..k];
      var id := TrimAngle(refs[k]);
      if id != "" {
        out := out + [id];
      }
    }
    assert refs[..|refs|] == refs;
  }
}

/** What the printer writes the parser reads back. */
module ReferenceRoundTrip {
  import opened Strings
  import opened References
  import opened ReferenceParser

  /** The parser reaches the end of the text with no bracket left open. */
  predicate Closed(v: string)
    decreases |v|
  {
    match NextBracket(v)
    case Missing => '<' !in v
    case Found(_, rest) => Closed(rest)
  }

  lemma CloserOfToken(id: string)
    requires Bare(id)
    ensures IndexOf(Token(id), '>') == |id| + 1
  {
    var k := IndexOf(Token(id), '>');
    assert Token(id)[|id| + 1] == '>';
    assert 0 < k <= |id| + 1;
    assert forall i :: 0 <= i < |id| ==> Token(id)[i + 1] == id[i];
  }

  lemma NextIsToken(sep: string, id: string)
    requires '<' !in sep && Bare(id)
    ensures NextBracket(sep + Token(id)) == Found(Token(id), "")
  {
    var v := sep + Token(id);
    IndexInConcat(sep, Token(id), '<');
    assert v[|sep|..] == Token(id);
    CloserOfToken(id);
    assert |Token(id)| == |id| + 2;
    assert Token(id)[..|id| + 2] == Token(id);
  }

  lemma NextInConcat(v: string, more: string)
    requires NextBracket(v).Found?
    ensures NextBracket(v + more) == NextBracket(v).(rest := NextBracket(v).rest + more)
  {
    var i := IndexOf(v, '<');
    IndexInConcat(v, more, '<');
    var tail := v[i..];
    assert (v + more)[i..] == tail + more;
    var j := IndexOf(tail, '>');
    IndexInConcat(tail, more, '>');
    assert (tail + more)[..j + 1] == tail[..j + 1];
    assert (tail + more)[j + 1..] == tail[j + 1..] + more;
  }

  lemma FirstToken(v: string, sep: string, id: string)
    requires '<' !in v && '<' !in sep && Bare(id)
    ensures NextBracket(v + (sep + Token(id))) == Found(Token(id), "")
  {
    NextIsToken(v + sep, id);
    assert v + (sep + Token(id)) == (v + sep) + Token(id);
  }

  lemma LastBracket(v: string)
    requires NextBracket(v).Found? && NextBracket(v).rest == ""
    ensures Brackets(v) == [NextBracket(v).token] && Closed(v)
  {
  }

  lemma {:induction false} AppendToken(v: string, sep: string, id: string)
    requires Closed(v) && '<' !in sep && Bare(id)
    ensures Brackets(v + (sep + Token(id))) == Brackets(v) + [Token(id)] && Closed(v + (sep + Token(id)))
    decreases |v|
  {
    var more := sep + Token(id);
    match NextBracket(v)
    case Missing =>
      FirstToken(v, sep, id);
      LastBracket(v + more);
    case Found(token, rest) =>
      NextInConcat(v, more);
      AppendToken(rest, sep, id);
      assert [token] + (Brackets(rest) + [Token(id)]) == ([token] + Brackets(rest)) + [Token(id)];
  }

  /** The parser finds exactly these tokens in the printed header. */
  predicate ReadsBack(brk: string, tokens: seq<string>) {
    var text := JoinLines(brk, Lines(tokens));
    Brackets(text) == tokens && Closed(text)
  }

  lemma HeaderAlone(brk: string)
    ensures ReadsBack(brk, [])
  {
  }

  lemma PrintOneMore(brk: string, tokens: seq<string>, id: string)
    requires '<' !in brk && Bare(id) && ReadsBack(brk, tokens)
    ensures ReadsBack(brk, tokens + [Token(id)])
  {
    var lines, first, t := Lines(tokens), |tokens| == 0, Token(id);
    assert (tokens + [t])[..|tokens|] == tokens;
    assert Lines(tokens + [t]) == Place(lines, first, t);
    NextPiece(brk, lines, first, t);
    var sep := Separator(brk, |LastLine(lines)|, first, t);
    AppendToken(JoinLines(brk, lines), sep, id);
  }

  function Separator(brk: string, lineLen: nat, first: bool, t: string): (sep: string)
    requires '<' !in brk
    ensures '<' !in sep && Piece(brk, lineLen, first, t) == sep + t
  {
    if first then assert "" + t == t; ""
    else if lineLen + 1 + |t| > FOLD_OCTETS then
      assert brk + (" " + t) == (brk + " ") + t; brk + " "
    else " "
  }

  lemma {:induction false} PrintedBrackets(brk: string, ids: seq<string>)
    requires forall i :: 0 <= i < |ids| ==> Bare(ids[i])
    requires '<' !in brk
    ensures ReadsBack(brk, Tokens(ids))
  {
    if |ids| == 0 {
      HeaderAlone(brk);
    } else {
      var front, id := ids[..|ids| - 1], ids[|ids| - 1];
      PrintedBrackets(brk, front);
      assert Tokens(ids)[..|ids| - 1] == Tokens(front);
      PrintOneMore(brk, Tokens(front), id);
      assert Tokens(ids) == Tokens(front) + [Token(id)];
    }
  }

  /** A prefix without an opening bracket does not change what is read. */
  lemma {:induction false} SkipPrefix(prefix: string, v: string)
    requires '<' !in prefix
    ensures Brackets(prefix + v) == Brackets(v)
  {
    IndexInConcat(prefix, v, '<');
    var i := IndexOf(v, '<');
    assert (prefix + v)[|prefix| + i..] == v[i..];
    assert NextBracket(prefix + v) == NextBracket(v);
  }

  lemma {:induction false} TrimToken(id: string)
    requires Bare(id)
    ensures TrimAngle(Token(id)) == id
  {
    assert Token(id)[1..] == id + ">";
    assert TrimLeft(Token(id)) == TrimLeft(id + ">");
    assert (id + ">")[0] == id[0];
    assert (id + ">")[..|id|] == id;
    assert TrimRight(id + ">") == TrimRight(id);
  }

  lemma {:induction false} TrimTokens(ids: seq<string>)
    requires forall i :: 0 <= i < |ids| ==> Bare(ids[i])
    ensures Trimmed(Tokens(ids)) == ids
  {
    if |ids| > 0 {
      TrimTokens(ids[..|ids| - 1]);
      assert Tokens(ids)[..|ids| - 1] == Tokens(ids[..|ids| - 1]);
      TrimToken(ids[|ids| - 1]);
    }
  }

  /**
  For every list of references and every trimming, parsing what buildRefs printed gives
  back exactly the sanitised, non-empty, not oversized ids among the last fifty, in order:
  whether the header arrives folded as it was sent or unfolded.
  */
  lemma RoundTrip(brk: string, trim: string -> string, split: string -> seq<string>, references: seq<string>,
                  value: string)
    requires '<' !in brk
    requires HEADER + value == JoinLines(brk, Lines(Tokens(Ids(trim, MostRecent(references)))))
    requires split("") == []
    ensures Trimmed(ReferenceParser.References(split, value)) == Ids(trim, MostRecent(references))
  {
    var ids := Ids(trim, MostRecent(references));
    IdsAreBare(trim, MostRecent(references));
    PrintedBrackets(brk, ids);
    assert '<' !in HEADER;
    SkipPrefix(HEADER, value);
    TrimTokens(ids);
    if |ids| == 0 {
      assert HEADER + value == HEADER;
      assert |value| == 0;
    }
  }

  /** The same, run: the printer's output through the parser. */
  method PrintAndParse(trim: string -> string, split: string -> seq<string>, references: seq<string>)
    returns (ids: seq<string>)
    requires split("") == []
    ensures ids == Ids(trim, MostRecent(references))
    ensures (forall i :: 0 <= i < |references| ==> Bare(references[i]) && trim(references[i]) == references[i]) ==>
      ids == if |references| <= 50 then references else references[|references| - 50..]
  {
    var value := BuildRefs(trim, references);
    RoundTrip(CRLF, trim, split, references, value);
    if forall i :: 0 <= i < |references| ==> Bare(references[i]) && trim(references[i]) == references[i] {
      BareIdsStay(trim, MostRecent(references));
    }
    var refs := SplitReferences(split, value);
    ids := TrimAngles(refs);
  }
}
