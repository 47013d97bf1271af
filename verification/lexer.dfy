/**
 * The lexer (scripts/lexer.py). The source joins its token patterns into one
 * regular expression of named alternatives and lets Python's `re` engine find
 * the matches. Here that engine is an explicit scanner: at each position the
 * alternatives are tried in the listed order, each matching greedily, and the
 * first that matches wins. `re.finditer` moves on by one character where no
 * alternative matches; since no alternative matches the empty string, that is
 * exactly "match here, else skip one character".
 */
module Lexer {
  import opened Strings

  /** Token kinds. The first eleven are the pattern names; the rest are reserved words and the parser's end marker. */
  datatype Kind =
    | COMMENT | NUMBER | ID | OP | LPAREN | RPAREN | LBRACE | RBRACE | SEMI | COMMA | WS
    | INT | FLOAT | BOOL | IF | ELSE | WHILE | RETURN
    | EOF

  /** The kind's name as the source spells it. */
  function KindName(k: Kind): string {
    match k
    case COMMENT => "COMMENT" case NUMBER => "NUMBER" case ID => "ID" case OP => "OP"
    case LPAREN => "LPAREN" case RPAREN => "RPAREN" case LBRACE => "LBRACE" case RBRACE => "RBRACE"
    case SEMI => "SEMI" case COMMA => "COMMA" case WS => "WS"
    case INT => "INT" case FLOAT => "FLOAT" case BOOL => "BOOL" case IF => "IF" case ELSE => "ELSE"
    case WHILE => "WHILE" case RETURN => "RETURN" case EOF => "EOF"
  }

  datatype Token = Token(kind: Kind, value: string)

  /** The alternatives in the order the combined pattern lists them. */
  const TokenSpec: seq<Kind> := [COMMENT, NUMBER, ID, OP, LPAREN, RPAREN, LBRACE, RBRACE, SEMI, COMMA, WS]

  /** Membership in the set of reserved words. */
  predicate IsKeyword(w: string) {
    w == "int" || w == "float" || w == "bool" || w == "if" || w == "else" || w == "while" || w == "return"
  }

  predicate IsKeywordKind(k: Kind) {
    k in {INT, FLOAT, BOOL, IF, ELSE, WHILE, RETURN}
  }

  /** `value.upper()` as a kind, for a reserved word. */
  function KeywordKind(w: string): (k: Kind)
    requires IsKeyword(w)
    ensures IsKeywordKind(k) && KindName(k) == Upper(w)
  {
    if w == "int" then INT
    else if w == "float" then FLOAT
    else if w == "bool" then BOOL
    else if w == "if" then IF
    else if w == "else" then ELSE
    else if w == "while" then WHILE
    else RETURN
  }

  /** `\s` as under `re.ASCII`. */
  predicate IsSpace(c: char) {
    c == ' ' || c == '\t' || c == '\n' || c == '\r' || c == '\U{0B}' || c == '\U{0C}'
  }

  predicate IsIdStart(c: char) {
    IsLetter(c) || c == '_'
  }

  predicate IsIdChar(c: char) {
    IsLetter(c) || IsDigit(c) || c == '_'
  }

  predicate IsOpChar(c: char) {
    c in "+-*/=<>"
  }

  /** The character classes a greedy repetition runs over. */
  datatype CharClass = Digits | IdChars | Spaces | NotNewline

  predicate InClass(c: char, cls: CharClass) {
    match cls
    case Digits => IsDigit(c)
    case IdChars => IsIdChar(c)
    case Spaces => IsSpace(c)
    case NotNewline => c != '\n'
  }

  /** End of the longest run of `cls` characters starting at `i`. */
  function Span(code: string, i: nat, cls: CharClass): (j: nat)
    requires i <= |code|
    ensures i <= j <= |code|
    ensures forall k :: i <= k < j ==> InClass(code[k], cls)
    ensures j == |code| || !InClass(code[j], cls)
    decreases |code| - i
  {
    if i < |code| && InClass(code[i], cls) then Span(code, i + 1, cls) else i
  }

  /** Where alternative `k` ends when it matches at `pos` (each greedy), or `None`. */
  function Alternative(code: string, pos: nat, k: Kind): Option<nat>
    requires pos < |code|
  {
    var c := code[pos];
    match k
    case COMMENT =>
      if c == '/' && pos + 1 < |code| && code[pos + 1] == '/' then Some(Span(code, pos + 2, NotNewline)) else None
    case NUMBER =>
      if IsDigit(c) then
        var d := Span(code, pos, Digits);
        if d < |code| && code[d] == '.' then Some(Span(code, d + 1, Digits)) else Some(d)
      else None
    case ID => if IsIdStart(c) then Some(Span(code, pos + 1, IdChars)) else None
    case OP => if IsOpChar(c) then Some(pos + 1) else None
    case LPAREN => if c == '(' then Some(pos + 1) else None
    case RPAREN => if c == ')' then Some(pos + 1) else None
    case LBRACE => if c == '{' then Some(pos + 1) else None
    case RBRACE => if c == '}' then Some(pos + 1) else None
    case SEMI => if c == ';' then Some(pos + 1) else None
    case COMMA => if c == ',' then Some(pos + 1) else None
    case WS => if IsSpace(c) then Some(Span(code, pos, Spaces)) else None
    case _ => None
  }

  datatype Match = Match(kind: Kind, end: nat)

  /** The first of `alts` that matches at `pos`. */
  function FirstMatch(code: string, pos: nat, alts: seq<Kind>): Option<Match>
    requires pos < |code|
  {
    if |alts| == 0 then None
    else match Alternative(code, pos, alts[0])
      case Some(e) => Some(Match(alts[0], e))
      case None => FirstMatch(code, pos, alts[1..])
  }

  /**
   * The alternatives are tried in order: the match found is the one of the
   * first alternative that matches, and it fails only when all of them do.
   */
  lemma {:induction false} FirstMatchIsFirst(code: string, pos: nat, alts: seq<Kind>)
    requires pos < |code|
    ensures var r := FirstMatch(code, pos, alts);
      && (r.Some? ==> (exists i :: (0 <= i < |alts| && alts[i] == r.value.kind &&
            Alternative(code, pos, alts[i]) == Some(r.value.end) &&
            forall j :: 0 <= j < i ==> Alternative(code, pos, alts[j]).None?)))
      && (r.None? <==> forall i :: 0 <= i < |alts| ==> Alternative(code, pos, alts[i]).None?)
  {
    if |alts| > 0 && Alternative(code, pos, alts[0]).None? {
      FirstMatchIsFirst(code, pos, alts[1..]);
      var r := FirstMatch(code, pos, alts);
      if r.Some? {
        var i :| 0 <= i < |alts[1..]| && alts[1..][i] == r.value.kind &&
          Alternative(code, pos, alts[1..][i]) == Some(r.value.end) &&
          forall j :: 0 <= j < i ==> Alternative(code, pos, alts[1..][j]).None?;
        assert alts[i + 1] == r.value.kind;
        forall j | 0 <= j < i + 1 ensures Alternative(code, pos, alts[j]).None? {
          if j > 0 { assert alts[j] == alts[1..][j - 1]; }
        }
      }
      if r.None? {
        forall i | 0 <= i < |alts| ensures Alternative(code, pos, alts[i]).None? {
          if i > 0 { assert alts[i] == alts[1..][i - 1]; }
        }
      }
    }
  }

  function Try(code: string, pos: nat, k: Kind, otherwise: Option<Match>): Option<Match>
    requires pos < |code|
  {
    match Alternative(code, pos, k)
    case Some(e) => Some(Match(k, e))
    case None => otherwise
  }

  /**
   * The match the combined pattern finds at `pos`: the first alternative in
   * `TokenSpec` order that matches. It is never empty, so scanning always
   * moves on.
   */
  function MatchAt(code: string, pos: nat): (r: Option<Match>)
    requires pos < |code|
    ensures r.Some? ==> pos < r.value.end <= |code|
    ensures r.Some? ==> r.value.kind in TokenSpec && Alternative(code, pos, r.value.kind) == Some(r.value.end)
  {
    FirstMatchIsFirst(code, pos, TokenSpec);
    FirstMatch(code, pos, TokenSpec)
  }

  /** The same search written out: comment, number, identifier, operator, the six punctuation kinds, whitespace. */
  lemma {:induction false} MatchAtUnrolled(code: string, pos: nat)
    requires pos < |code|
    ensures MatchAt(code, pos) ==
      Try(code, pos, COMMENT,
      Try(code, pos, NUMBER,
      Try(code, pos, ID,
      Try(code, pos, OP,
      Try(code, pos, LPAREN,
      Try(code, pos, RPAREN,
      Try(code, pos, LBRACE,
      Try(code, pos, RBRACE,
      Try(code, pos, SEMI,
      Try(code, pos, COMMA,
      Try(code, pos, WS, None)))))))))))
  {
    var m: Option<Match> := None;
    assert FirstMatch(code, pos, []) == m;
    assert [WS][1..] == [];
    m := Try(code, pos, WS, m);
    assert FirstMatch(code, pos, [WS]) == m;
    assert [COMMA, WS][1..] == [WS];
    m := Try(code, pos, COMMA, m);
    assert FirstMatch(code, pos, [COMMA, WS]) == m;
    assert [SEMI, COMMA, WS][1..] == [COMMA, WS];
    m := Try(code, pos, SEMI, m);
    assert FirstMatch(code, pos, [SEMI, COMMA, WS]) == m;
    assert [RBRACE, SEMI, COMMA, WS][1..] == [SEMI, COMMA, WS];
    m := Try(code, pos, RBRACE, m);
    assert FirstMatch(code, pos, [RBRACE, SEMI, COMMA, WS]) == m;
    assert [LBRACE, RBRACE, SEMI, COMMA, WS][1..] == [RBRACE, SEMI, COMMA, WS];
    m := Try(code, pos, LBRACE, m);
    assert FirstMatch(code, pos, [LBRACE, RBRACE, SEMI, COMMA, WS]) == m;
    assert [RPAREN, LBRACE, RBRACE, SEMI, COMMA, WS][1..] == [LBRACE, RBRACE, SEMI, COMMA, WS];
    m := Try(code, pos, RPAREN, m);
    assert FirstMatch(code, pos, [RPAREN, LBRACE, RBRACE, SEMI, COMMA, WS]) == m;
    assert [LPAREN, RPAREN, LBRACE, RBRACE, SEMI, COMMA, WS][1..] == [RPAREN, LBRACE, RBRACE, SEMI, COMMA, WS];
    m := Try(code, pos, LPAREN, m);
    assert FirstMatch(code, pos, [LPAREN, RPAREN, LBRACE, RBRACE, SEMI, COMMA, WS]) == m;
    assert [OP, LPAREN, RPAREN, LBRACE, RBRACE, SEMI, COMMA, WS][1..] == [LPAREN, RPAREN, LBRACE, RBRACE, SEMI, COMMA, WS];
    m := Try(code, pos, OP, m);
    assert FirstMatch(code, pos, [OP, LPAREN, RPAREN, LBRACE, RBRACE, SEMI, COMMA, WS]) == m;
    assert [ID, OP, LPAREN, RPAREN, LBRACE, RBRACE, SEMI, COMMA, WS][1..] == [OP, LPAREN, RPAREN, LBRACE, RBRACE, SEMI, COMMA, WS];
    m := Try(code, pos, ID, m);
    assert FirstMatch(code, pos, [ID, OP, LPAREN, RPAREN, LBRACE, RBRACE, SEMI, COMMA, WS]) == m;
    assert [NUMBER, ID, OP, LPAREN, RPAREN, LBRACE, RBRACE, SEMI, COMMA, WS][1..] == [ID, OP, LPAREN, RPAREN, LBRACE, RBRACE, SEMI, COMMA, WS];
    m := Try(code, pos, NUMBER, m);
    assert FirstMatch(code, pos, [NUMBER, ID, OP, LPAREN, RPAREN, LBRACE, RBRACE, SEMI, COMMA, WS]) == m;
    assert [COMMENT, NUMBER, ID, OP, LPAREN, RPAREN, LBRACE, RBRACE, SEMI, COMMA, WS][1..] == [NUMBER, ID, OP, LPAREN, RPAREN, LBRACE, RBRACE, SEMI, COMMA, WS];
    m := Try(code, pos, COMMENT, m);
    assert FirstMatch(code, pos, [COMMENT, NUMBER, ID, OP, LPAREN, RPAREN, LBRACE, RBRACE, SEMI, COMMA, WS]) == m;
  }

  /** The characters at which some alternative can start. */
  predicate StartsAlternative(c: char) {
    IsDigit(c) || IsIdStart(c) || IsOpChar(c) || c in "(){};," || IsSpace(c)
  }

  lemma {:induction false} MatchAtNone(code: string, pos: nat)
    requires pos < |code|
    ensures MatchAt(code, pos).None? <==> !StartsAlternative(code[pos])
  {
    MatchAtUnrolled(code, pos);
  }

  /** The kind a match is reported under: an identifier spelling a reserved word becomes that word's kind. */
  function Classify(k: Kind, text: string): (r: Kind)
    ensures r == k || (k == ID && IsKeyword(text))
    ensures k == ID ==> (r == ID <==> !IsKeyword(text))
  {
    if k == ID && IsKeyword(text) then KeywordKind(text) else k
  }

  /** The tokens `tokenize` appends for the part of `code` scanned from `pos`. */
  function TokensFrom(code: string, pos: nat): (r: seq<Token>)
    requires pos <= |code|
    ensures |r| <= |code| - pos
    ensures forall t :: t in r ==> t.kind != WS && t.kind != COMMENT && t.kind != EOF
    decreases |code| - pos
  {
    if pos == |code| then []
    else match MatchAt(code, pos)
      case None => TokensFrom(code, pos + 1)
      case Some(m) =>
        var text := code[pos..m.end];
        (if m.kind == WS || m.kind == COMMENT then [] else [Token(Classify(m.kind, text), text)])
        + TokensFrom(code, m.end)
  }

  function NewlineCount(s: string): (r: nat)
    ensures r <= |s|
  {
    if |s| == 0 then 0 else (if s[0] == '\n' then 1 else 0) + NewlineCount(s[1..])
  }

  /** 1 + the number of newlines before `pos`. */
  function LineAt(code: string, pos: nat): (r: nat)
    requires pos <= |code|
    ensures 1 <= r <= pos + 1
  {
    NewlineCount(code[..pos]) + 1
  }

  /** `code.rfind('\n', 0, pos)`: the last newline before `pos`, or -1. */
  function LastNewline(code: string, pos: nat): (r: int)
    requires pos <= |code|
    ensures -1 <= r < pos
    ensures r >= 0 ==> code[r] == '\n'
    ensures forall k :: r < k < pos ==> code[k] != '\n'
  {
    if pos == 0 then -1 else if code[pos - 1] == '\n' then pos - 1 else LastNewline(code, pos - 1)
  }

  /** Column of `pos`, counted from 1 after the last newline. */
  function ColumnAt(code: string, pos: nat): (col: nat)
    requires pos <= |code|
    ensures col >= 1
  {
    pos - LastNewline(code, pos)
  }

  datatype LexError = InvalidChar(ch: char, line: nat, column: nat)

  function ErrorAt(code: string, pos: nat): LexError
    requires pos < |code|
  {
    InvalidChar(code[pos], LineAt(code, pos), ColumnAt(code, pos))
  }

  /** The invalid-character reports of the source's second scan, from `pos` on. */
  function ErrorsFrom(code: string, pos: nat): (r: seq<LexError>)
    requires pos <= |code|
    ensures |r| <= |code| - pos
    decreases |code| - pos
  {
    if pos == |code| then []
    else match MatchAt(code, pos)
      case None => [ErrorAt(code, pos)] + ErrorsFrom(code, pos + 1)
      case Some(m) => ErrorsFrom(code, m.end)
  }

  /** The offsets the second scan reports, in the order it reports them. */
  function InvalidOffsets(code: string, pos: nat): (r: seq<nat>)
    requires pos <= |code|
    ensures forall i :: 0 <= i < |r| ==> pos <= r[i] < |code|
    decreases |code| - pos
  {
    if pos == |code| then []
    else match MatchAt(code, pos)
      case None => [pos] + InvalidOffsets(code, pos + 1)
      case Some(m) => InvalidOffsets(code, m.end)
  }

  /**
   * `tokenize`: the first loop collects the tokens (dropping whitespace and
   * comments), the second reports each character no alternative matches.
   */
  method Tokenize(code: string) returns (tokens: seq<Token>, errors: seq<LexError>)
    ensures tokens == TokensFrom(code, 0)
    ensures errors == ErrorsFrom(code, 0)
  {
    tokens := [];
    var pos := 0;
    while pos < |code|
      invariant pos <= |code|
      invariant tokens + TokensFrom(code, pos) == TokensFrom(code, 0)
      decreases |code| - pos
    {
      var m := MatchAt(code, pos);
      if m.None? {
        pos := pos + 1;
      } else {
        var kind, value := m.value.kind, code[pos..m.value.end];
        var emitted := if kind == WS || kind == COMMENT then [] else [Token(Classify(kind, value), value)];
        var rest := TokensFrom(code, m.value.end);
        assert TokensFrom(code, pos) == emitted + rest;
        AppendAssoc(tokens, emitted, rest);
        tokens := tokens + emitted;
        pos := m.value.end;
      }
    }
    errors := [];
    pos := 0;
    while pos < |code|
      invariant pos <= |code|
      invariant errors + ErrorsFrom(code, pos) == ErrorsFrom(code, 0)
      decreases |code| - pos
    {
      var m := MatchAt(code, pos);
      if m.Some? {
        pos := m.value.end;
      } else {
        var e := InvalidChar(code[pos], LineAt(code, pos), ColumnAt(code, pos));
        var rest := ErrorsFrom(code, pos + 1);
        assert ErrorsFrom(code, pos) == [e] + rest;
        AppendAssoc(errors, [e], rest);
        errors := errors + [e];
        pos := pos + 1;
      }
    }
  }
}
