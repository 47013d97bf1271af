/**
 * What the scanner guarantees about the tokens and the error reports it
 * produces, for every input.
 */
module LexerProperties {
  import opened Strings
  import opened Lexer

  predicate IdentText(s: string) {
    |s| >= 1 && IsIdStart(s[0]) && forall i :: 0 <= i < |s| ==> IsIdChar(s[i])
  }

  /** `\d+(\.\d*)?`: one or more digits, then optionally a dot and zero or more digits. */
  predicate NumberText(s: string) {
    exists d :: 1 <= d <= |s| && AllDigits(s[..d]) && (d == |s| || (s[d] == '.' && AllDigits(s[d + 1..])))
  }

  /** What the text of a match of each alternative looks like. */
  predicate PatternText(k: Kind, s: string) {
    match k
    case COMMENT => |s| >= 2 && s[0] == '/' && s[1] == '/' && forall i :: 2 <= i < |s| ==> s[i] != '\n'
    case NUMBER => NumberText(s)
    case ID => IdentText(s)
    case OP => |s| == 1 && IsOpChar(s[0])
    case LPAREN => s == "("
    case RPAREN => s == ")"
    case LBRACE => s == "{"
    case RBRACE => s == "}"
    case SEMI => s == ";"
    case COMMA => s == ","
    case WS => |s| >= 1 && forall i :: 0 <= i < |s| ==> IsSpace(s[i])
    case _ => false
  }

  /** A token the lexer can emit: never whitespace, a comment or the end marker, and keywords reclassified. */
  predicate WellFormed(t: Token) {
    match t.kind
    case COMMENT => false
    case WS => false
    case EOF => false
    case ID => IdentText(t.value) && !IsKeyword(t.value)
    case INT => IsKeyword(t.value) && KindName(t.kind) == Upper(t.value)
    case FLOAT => IsKeyword(t.value) && KindName(t.kind) == Upper(t.value)
    case BOOL => IsKeyword(t.value) && KindName(t.kind) == Upper(t.value)
    case IF => IsKeyword(t.value) && KindName(t.kind) == Upper(t.value)
    case ELSE => IsKeyword(t.value) && KindName(t.kind) == Upper(t.value)
    case WHILE => IsKeyword(t.value) && KindName(t.kind) == Upper(t.value)
    case RETURN => IsKeyword(t.value) && KindName(t.kind) == Upper(t.value)
    case _ => PatternText(t.kind, t.value)
  }

  /** The text each alternative consumes has that alternative's shape. */
  lemma {:induction false} AlternativeText(code: string, pos: nat, k: Kind)
    requires pos < |code| && Alternative(code, pos, k).Some?
    ensures PatternText(k, code[pos..Alternative(code, pos, k).value])
  {
    var e := Alternative(code, pos, k).value;
    var s := code[pos..e];
    assert forall i :: 0 <= i < |s| ==> s[i] == code[pos + i];
    if k == NUMBER {
      var d := Span(code, pos, Digits);
      assert AllDigits(s[..d - pos]);
      if !(d < |code| && code[d] == '.') {
        assert e == d;
      } else {
        assert s[d - pos] == '.';
        assert AllDigits(s[d - pos + 1..]);
      }
    }
  }

  /** A match of a pattern other than whitespace and comments, once classified, is a well-formed token. */
  lemma {:induction false} ClassifiedWellFormed(k: Kind, text: string)
    requires k in TokenSpec && k != WS && k != COMMENT && PatternText(k, text)
    ensures WellFormed(Token(Classify(k, text), text))
  {
  }

  /** Every token of every input is well formed. */
  lemma {:induction false} TokensWellFormed(code: string, pos: nat)
    requires pos <= |code|
    ensures forall t :: t in TokensFrom(code, pos) ==> WellFormed(t)
    decreases |code| - pos
  {
    if pos < |code| {
      match MatchAt(code, pos)
      case None =>
        TokensWellFormed(code, pos + 1);
      case Some(m) =>
        TokensWellFormed(code, m.end);
        var text := code[pos..m.end];
        var rest := TokensFrom(code, m.end);
        if m.kind == WS || m.kind == COMMENT {
          assert TokensFrom(code, pos) == rest;
        } else {
          AlternativeText(code, pos, m.kind);
          ClassifiedWellFormed(m.kind, text);
          assert TokensFrom(code, pos) == [Token(Classify(m.kind, text), text)] + rest;
        }
    }
  }

  /** The second scan reports one error per offset in `InvalidOffsets`, for the character and position there. */
  lemma {:induction false} ErrorsAtOffsets(code: string, pos: nat)
    requires pos <= |code|
    ensures |ErrorsFrom(code, pos)| == |InvalidOffsets(code, pos)|
    ensures forall i :: 0 <= i < |InvalidOffsets(code, pos)| ==>
      InvalidOffsets(code, pos)[i] < |code| && ErrorsFrom(code, pos)[i] == ErrorAt(code, InvalidOffsets(code, pos)[i])
    decreases |code| - pos
  {
    if pos < |code| {
      var m := MatchAt(code, pos);
      if m.None? {
        ErrorsAtOffsets(code, pos + 1);
        var errs, offs := ErrorsFrom(code, pos + 1), InvalidOffsets(code, pos + 1);
        assert ErrorsFrom(code, pos) == [ErrorAt(code, pos)] + errs;
        assert InvalidOffsets(code, pos) == [pos] + offs;
        ReportsConsAligned(code, pos, errs, offs);
      } else {
        ErrorsAtOffsets(code, m.value.end);
      }
    }
  }

  /** One more report in front keeps reports and offsets paired. */
  lemma {:induction false} ReportsConsAligned(code: string, pos: nat, errs: seq<LexError>, offs: seq<nat>)
    requires pos < |code| && |errs| == |offs|
    requires forall i :: 0 <= i < |offs| ==> offs[i] < |code| && errs[i] == ErrorAt(code, offs[i])
    ensures forall i :: 0 <= i < |offs| + 1 ==>
      ([pos] + offs)[i] < |code| && ([ErrorAt(code, pos)] + errs)[i] == ErrorAt(code, ([pos] + offs)[i])
  {
    forall i | 0 <= i < |offs| + 1
      ensures ([pos] + offs)[i] < |code| && ([ErrorAt(code, pos)] + errs)[i] == ErrorAt(code, ([pos] + offs)[i])
    {
      if i > 0 {
        assert ([pos] + offs)[i] == offs[i - 1] && ([ErrorAt(code, pos)] + errs)[i] == errs[i - 1];
      }
    }
  }

  predicate Increasing(offs: seq<nat>) {
    forall i, j :: 0 <= i < j < |offs| ==> offs[i] < offs[j]
  }

  /** Every offset in `offs` lies in `code` from `pos` on, at a character no alternative can start. */
  predicate InvalidFrom(code: string, pos: nat, offs: seq<nat>) {
    forall i :: 0 <= i < |offs| ==> pos <= offs[i] < |code| && !StartsAlternative(code[offs[i]])
  }

  /**
   * The reported offsets are characters no alternative can start, and they
   * strictly increase: each one is reported once.
   */
  lemma {:induction false} InvalidOffsetsIncreasing(code: string, pos: nat)
    requires pos <= |code|
    ensures InvalidFrom(code, pos, InvalidOffsets(code, pos))
    ensures Increasing(InvalidOffsets(code, pos))
    decreases |code| - pos
  {
    if pos < |code| {
      MatchAtNone(code, pos);
      var m := MatchAt(code, pos);
      if m.None? {
        InvalidOffsetsIncreasing(code, pos + 1);
        InvalidCons(code, pos, InvalidOffsets(code, pos + 1));
      } else {
        InvalidOffsetsIncreasing(code, m.value.end);
        InvalidFromEarlier(code, pos, m.value.end, InvalidOffsets(code, m.value.end));
      }
    }
  }

  lemma {:induction false} InvalidCons(code: string, pos: nat, rest: seq<nat>)
    requires pos < |code| && !StartsAlternative(code[pos])
    requires InvalidFrom(code, pos + 1, rest) && Increasing(rest)
    ensures InvalidFrom(code, pos, [pos] + rest) && Increasing([pos] + rest)
  {
    var offs := [pos] + rest;
    assert forall i :: 1 <= i < |offs| ==> offs[i] == rest[i - 1];
  }

  lemma {:induction false} InvalidFromEarlier(code: string, pos: nat, end: nat, offs: seq<nat>)
    requires pos <= end && InvalidFrom(code, end, offs)
    ensures InvalidFrom(code, pos, offs)
  {
  }

  /** Input made only of characters that can start a token produces no lexical error. */
  lemma {:induction false} NoErrorsOnValidText(code: string, pos: nat)
    requires pos <= |code|
    requires forall i :: pos <= i < |code| ==> StartsAlternative(code[i])
    ensures ErrorsFrom(code, pos) == []
    decreases |code| - pos
  {
    if pos < |code| {
      MatchAtNone(code, pos);
      NoErrorsOnValidText(code, MatchAt(code, pos).value.end);
    }
  }

  /** The column is the distance from the last newline before the character (or from the start). */
  lemma {:induction false} ColumnFromLastNewline(code: string, pos: nat)
    requires pos <= |code|
    ensures var col := ColumnAt(code, pos);
      && 1 <= col <= pos + 1
      && (col <= pos ==> code[pos - col] == '\n')
      && forall k :: pos - col < k < pos ==> code[k] != '\n'
  {
  }

  /** A character no alternative matches yields exactly one error and no token. */
  lemma {:induction false} InvalidCharSkipped(code: string, pos: nat)
    requires pos < |code| && !StartsAlternative(code[pos])
    ensures TokensFrom(code, pos) == TokensFrom(code, pos + 1)
    ensures ErrorsFrom(code, pos) == [InvalidChar(code[pos], LineAt(code, pos), ColumnAt(code, pos))] + ErrorsFrom(code, pos + 1)
  {
    MatchAtNone(code, pos);
  }

  /** `//` always opens a comment (it is tried first), running up to the next newline; it yields no token. */
  lemma {:induction false} CommentToLineEnd(code: string, pos: nat)
    requires pos + 1 < |code| && code[pos] == '/' && code[pos + 1] == '/'
    ensures var e := Span(code, pos + 2, NotNewline);
      && MatchAt(code, pos) == Some(Match(COMMENT, e))
      && (e == |code| || code[e] == '\n')
      && TokensFrom(code, pos) == TokensFrom(code, e)
  {
  }

  /**
   * An identifier runs as far as identifier characters go, and becomes a keyword
   * only when the whole run is a reserved word.
   */
  lemma {:induction false} IdentifierOrKeyword(code: string, pos: nat)
    requires pos < |code| && IsIdStart(code[pos])
    ensures var e := Span(code, pos + 1, IdChars);
      var w := code[pos..e];
      TokensFrom(code, pos) == [Token(if IsKeyword(w) then KeywordKind(w) else ID, w)] + TokensFrom(code, e)
  {
    MatchAtUnrolled(code, pos);
  }

  /** A reserved word followed by a digit is one identifier. */
  lemma {:induction false} Int5IsIdentifier()
    ensures TokensFrom("int5", 0) == [Token(ID, "int5")]
  {
    var c := "int5";
    assert Span(c, 1, IdChars) == 4;
    IdentifierOrKeyword(c, 0);
    assert c[0..4] == "int5";
    assert !IsKeyword("int5");
    assert TokensFrom(c, 4) == [];
  }

  /** A number may end in its dot. */
  lemma {:induction false} TrailingDotNumber()
    ensures TokensFrom("5.", 0) == [Token(NUMBER, "5.")]
  {
    var c := "5.";
    assert Span(c, 0, Digits) == 1;
    assert Span(c, 2, Digits) == 2;
    assert c[0..2] == "5.";
  }

  /** `//` is never two division operators ... */
  lemma {:induction false} SlashSlashIsComment()
    ensures TokensFrom("//a/", 0) == []
  {
    var c := "//a/";
    assert Span(c, 2, NotNewline) == 4;
  }

  /** ... while a `/` not followed by another `/` is a division operator. */
  lemma {:induction false} LoneSlashIsOperator(code: string, pos: nat)
    requires pos < |code| && code[pos] == '/' && (pos + 1 == |code| || code[pos + 1] != '/')
    ensures TokensFrom(code, pos) == [Token(OP, "/")] + TokensFrom(code, pos + 1)
  {
    LoneSlashMatch(code, pos);
    TokenStep(code, pos, OP, pos + 1);
    assert code[pos..pos + 1] == "/";
  }

  lemma {:induction false} LoneSlashMatch(code: string, pos: nat)
    requires pos < |code| && code[pos] == '/' && (pos + 1 == |code| || code[pos + 1] != '/')
    ensures MatchAt(code, pos) == Some(Match(OP, pos + 1))
  {
    assert Alternative(code, pos, COMMENT) == None;
    assert Alternative(code, pos, NUMBER) == None;
    assert Alternative(code, pos, ID) == None;
    assert Alternative(code, pos, OP) == Some(pos + 1);
    MatchAtUnrolled(code, pos);
  }

  /** A match of a kind that is kept yields one token spelling the matched text. */
  lemma {:induction false} TokenStep(code: string, pos: nat, k: Kind, end: nat)
    requires pos < |code| && MatchAt(code, pos) == Some(Match(k, end)) && k != WS && k != COMMENT
    ensures end <= |code|
    ensures TokensFrom(code, pos) == [Token(Classify(k, code[pos..end]), code[pos..end])] + TokensFrom(code, end)
  {
  }
}
