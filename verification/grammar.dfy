/**
 * What the recursive-descent parser of scripts/parser.py computes, as pure
 * functions of the token list and a position.
 *
 * Every parsing routine of the source reads `tokens[position]`, moves
 * `position` forward and appends messages to `errors`. Here each routine is a
 * function from `(toks, pos)` to a `Step`: the value the routine returns, the
 * position it leaves behind and the errors it appends, in order. The class in
 * parser.dfy runs the same routines on its mutable fields and is proved to
 * agree with these functions.
 */
module Grammar {
  import opened Strings
  import opened Lexer
  import opened Ast

  /** The messages the parser appends, by kind (their wording is not modelled). */
  datatype ParseError =
    | Expected(expected: Kind, got: Token)  // `match`: "Expected <kind> but got <kind> ('<value>')"
    | Unexpected(got: Token)                // `parse_primary`: "Unexpected token: ..."
    | NoReturnType(found: Kind)             // `parse_function` raises, `parse` reports it

  /** What one parsing routine returns, where it leaves the cursor and what it appends to `errors`. */
  datatype Step<T> = Step(val: T, pos: nat, errs: seq<ParseError>)

  /** `current()`: the token under the cursor, or `('EOF', '')` at or past the end. */
  function Cur(toks: seq<Token>, pos: nat): (t: Token)
    ensures t in toks || t == Token(EOF, "")
    ensures pos >= |toks| ==> t.kind == EOF
  {
    if pos < |toks| then toks[pos] else Token(EOF, "")
  }

  /** `advance()`: one token forward, never past the end. */
  function Adv(toks: seq<Token>, pos: nat): (r: nat)
    ensures pos <= |toks| ==> r <= |toks|
    ensures r > pos <==> pos < |toks|
    ensures r <= pos + 1
  {
    if pos < |toks| then pos + 1 else pos
  }

  /** `match(expected_type)`. */
  function MatchKind(toks: seq<Token>, pos: nat, k: Kind): (r: Step<Option<string>>)
    requires pos <= |toks|
    ensures pos <= r.pos <= |toks|
  {
    var t := Cur(toks, pos);
    if t.kind == k then Step(Some(t.value), Adv(toks, pos), [])
    else Step(None, pos, [Expected(k, t)])
  }

  /** `self.match(...) or default`: Python's `or` also falls back on an empty string. */
  function OrDefault(v: Option<string>, default: string): (r: string)
    ensures default != "" ==> r != ""
    ensures r == default || v == Some(r)
  {
    if v.Some? && v.value != "" then v.value else default
  }

  predicate IsTypeKind(k: Kind) {
    k == INT || k == FLOAT || k == BOOL
  }

  /** `tok_type.lower()` for a type keyword. */
  function TypeName(k: Kind): string
    requires IsTypeKind(k)
  {
    match k
    case INT => "int"
    case FLOAT => "float"
    case _ => "bool"
  }

  /** `+` or `-`, the operators of `parse_term`'s loop (compared one character at a time). */
  predicate AddOp(op: string) {
    |op| == 1 && (op[0] == '+' || op[0] == '-')
  }

  /** `*` or `/`, the operators of `parse_factor`'s loop. */
  predicate MulOp(op: string) {
    |op| == 1 && (op[0] == '*' || op[0] == '/')
  }

  /** The operator tokens each loop of the two precedence tiers accepts. */
  predicate IsAddOp(t: Token) {
    t.kind == OP && AddOp(t.value)
  }

  predicate IsMulOp(t: Token) {
    t.kind == OP && MulOp(t.value)
  }

  // ---------------------------------------------------------------- expressions

  /** `parse_expression`: an additive expression. */
  function Expression(toks: seq<Token>, pos: nat): (r: Step<Expr>)
    requires pos <= |toks|
    ensures pos <= r.pos <= |toks|
    ensures pos < |toks| ==> pos < r.pos
    decreases |toks| - pos, 6
  {
    Term(toks, pos)
  }

  /** `parse_term`: a product, then any number of `+`/`-` products, grouped to the left. */
  function Term(toks: seq<Token>, pos: nat): (r: Step<Expr>)
    requires pos <= |toks|
    ensures pos <= r.pos <= |toks|
    ensures pos < |toks| ==> pos < r.pos
    decreases |toks| - pos, 5
  {
    var f := Factor(toks, pos);
    var t := TermTail(toks, f.pos, f.val);
    Step(t.val, t.pos, f.errs + t.errs)
  }

  /** The `while` loop of `parse_term`, with `acc` the expression built so far. */
  function TermTail(toks: seq<Token>, pos: nat, acc: Expr): (r: Step<Expr>)
    requires pos <= |toks|
    ensures pos <= r.pos <= |toks|
    ensures !IsAddOp(Cur(toks, r.pos))
    decreases |toks| - pos, 4
  {
    var t := Cur(toks, pos);
    if IsAddOp(t) then
      var f := Factor(toks, pos + 1);
      var rest := TermTail(toks, f.pos, Binary(acc, t.value, f.val));
      Step(rest.val, rest.pos, f.errs + rest.errs)
    else Step(acc, pos, [])
  }

  /** `parse_factor`: a primary, then any number of `*`/`/` primaries, grouped to the left. */
  function Factor(toks: seq<Token>, pos: nat): (r: Step<Expr>)
    requires pos <= |toks|
    ensures pos <= r.pos <= |toks|
    ensures pos < |toks| ==> pos < r.pos
    decreases |toks| - pos, 3
  {
    var p := Primary(toks, pos);
    var t := FactorTail(toks, p.pos, p.val);
    Step(t.val, t.pos, p.errs + t.errs)
  }

  /** The `while` loop of `parse_factor`. */
  function FactorTail(toks: seq<Token>, pos: nat, acc: Expr): (r: Step<Expr>)
    requires pos <= |toks|
    ensures pos <= r.pos <= |toks|
    ensures !IsMulOp(Cur(toks, r.pos))
    decreases |toks| - pos, 2
  {
    var t := Cur(toks, pos);
    if IsMulOp(t) then
      var p := Primary(toks, pos + 1);
      var rest := FactorTail(toks, p.pos, Binary(acc, t.value, p.val));
      Step(rest.val, rest.pos, p.errs + rest.errs)
    else Step(acc, pos, [])
  }

  /**
   * `parse_primary`: an identifier, a number or a parenthesised expression;
   * anything else is reported, skipped, and read as the leaf "0".
   */
  function Primary(toks: seq<Token>, pos: nat): (r: Step<Expr>)
    requires pos <= |toks|
    ensures pos <= r.pos <= |toks|
    ensures pos < |toks| ==> pos < r.pos
    decreases |toks| - pos, 1
  {
    var t := Cur(toks, pos);
    if t.kind == ID || t.kind == NUMBER then Step(Leaf(t.value), pos + 1, [])
    else if t.kind == LPAREN then
      var e := Expression(toks, pos + 1);
      var close := MatchKind(toks, e.pos, RPAREN);
      Step(e.val, close.pos, e.errs + close.errs)
    else Step(Leaf("0"), Adv(toks, pos), [Unexpected(t)])
  }

  // ----------------------------------------------------------------- statements

  /**
   * The statement loops of `parse_function`, `parse_if_statement` and
   * `parse_while_statement`: statements up to a `}` or the end. (The
   * `try`/`except` around the call in `parse_function` fires only when
   * Python's recursion limit is reached on deeply nested input; that limit
   * is not modelled, so nesting of any depth parses here.)
   */
  function Block(toks: seq<Token>, pos: nat): (r: Step<seq<Stmt>>)
    requires pos <= |toks|
    ensures pos <= r.pos <= |toks|
    ensures Cur(toks, r.pos).kind == RBRACE || Cur(toks, r.pos).kind == EOF
    decreases |toks| - pos, 3
  {
    var k := Cur(toks, pos).kind;
    if k == RBRACE || k == EOF then Step([], pos, [])
    else
      var s := Statement(toks, pos);
      var rest := Block(toks, s.pos);
      Step([s.val] + rest.val, rest.pos, s.errs + rest.errs)
  }

  /** `parse_statement`: dispatch on the current token. */
  function Statement(toks: seq<Token>, pos: nat): (r: Step<Stmt>)
    requires pos <= |toks|
    ensures pos <= r.pos <= |toks|
    ensures pos < |toks| ==> pos < r.pos
    decreases |toks| - pos, 2
  {
    var k := Cur(toks, pos).kind;
    if IsTypeKind(k) then VarDecl(toks, pos)
    else if k == RETURN then ReturnStmt(toks, pos)
    else if k == IF then IfStmt(toks, pos)
    else if k == WHILE then WhileStmt(toks, pos)
    else ExprStmt(toks, pos)
  }

  /** `parse_var_decl`: type, name, any operator, expression, `;`. */
  function VarDecl(toks: seq<Token>, pos: nat): (r: Step<Stmt>)
    requires pos < |toks| && IsTypeKind(toks[pos].kind)
    ensures pos < r.pos <= |toks|
  {
    var name := MatchKind(toks, pos + 1, ID);
    var eq := MatchKind(toks, name.pos, OP);
    var e := Expression(toks, eq.pos);
    var semi := MatchKind(toks, e.pos, SEMI);
    Step(Declare(TypeName(toks[pos].kind), OrDefault(name.val, "var"), e.val), semi.pos,
      name.errs + eq.errs + e.errs + semi.errs)
  }

  /** `parse_return`. */
  function ReturnStmt(toks: seq<Token>, pos: nat): (r: Step<Stmt>)
    requires pos < |toks| && toks[pos].kind == RETURN
    ensures pos < r.pos <= |toks|
  {
    var e := Expression(toks, pos + 1);
    var semi := MatchKind(toks, e.pos, SEMI);
    Step(Return(e.val), semi.pos, e.errs + semi.errs)
  }

  /** `parse_expression_stmt`: name, any operator, expression, `;`. */
  function ExprStmt(toks: seq<Token>, pos: nat): (r: Step<Stmt>)
    requires pos <= |toks|
    ensures pos <= r.pos <= |toks|
    ensures pos < |toks| ==> pos < r.pos
  {
    var name := MatchKind(toks, pos, ID);
    var eq := MatchKind(toks, name.pos, OP);
    var e := Expression(toks, eq.pos);
    var semi := MatchKind(toks, e.pos, SEMI);
    Step(Assign(OrDefault(name.val, "unknown"), e.val), semi.pos,
      name.errs + eq.errs + e.errs + semi.errs)
  }

  /** `parse_if_statement`; the else part is only read when the token after the `}` is `else`. */
  function IfStmt(toks: seq<Token>, pos: nat): (r: Step<Stmt>)
    requires pos < |toks| && toks[pos].kind == IF
    ensures pos < r.pos <= |toks|
    decreases |toks| - pos, 1
  {
    var open := MatchKind(toks, pos + 1, LPAREN);
    var cond := Expression(toks, open.pos);
    var close := MatchKind(toks, cond.pos, RPAREN);
    var lbrace := MatchKind(toks, close.pos, LBRACE);
    var thenPart := Block(toks, lbrace.pos);
    var rbrace := MatchKind(toks, thenPart.pos, RBRACE);
    var els := ElsePartAt(toks, rbrace.pos);
    Step(If(cond.val, thenPart.val, els.val), els.pos,
      open.errs + cond.errs + close.errs + lbrace.errs + thenPart.errs + rbrace.errs + els.errs)
  }

  /** The optional `else { ... }` of `parse_if_statement`, read only when the next token is `else`. */
  function ElsePartAt(toks: seq<Token>, pos: nat): (r: Step<ElsePart>)
    requires pos <= |toks|
    ensures pos <= r.pos <= |toks|
    ensures r.val.NoElse? <==> Cur(toks, pos).kind != ELSE
    ensures r.val.NoElse? ==> r.pos == pos && r.errs == []
    decreases |toks| - pos, 0
  {
    if Cur(toks, pos).kind == ELSE then
      var lbrace := MatchKind(toks, pos + 1, LBRACE);
      var body := Block(toks, lbrace.pos);
      var rbrace := MatchKind(toks, body.pos, RBRACE);
      Step(Else(body.val), rbrace.pos, lbrace.errs + body.errs + rbrace.errs)
    else Step(NoElse, pos, [])
  }

  /** `parse_while_statement`. */
  function WhileStmt(toks: seq<Token>, pos: nat): (r: Step<Stmt>)
    requires pos < |toks| && toks[pos].kind == WHILE
    ensures pos < r.pos <= |toks|
    decreases |toks| - pos, 1
  {
    var open := MatchKind(toks, pos + 1, LPAREN);
    var cond := Expression(toks, open.pos);
    var close := MatchKind(toks, cond.pos, RPAREN);
    var lbrace := MatchKind(toks, close.pos, LBRACE);
    var body := Block(toks, lbrace.pos);
    var rbrace := MatchKind(toks, body.pos, RBRACE);
    Step(While(cond.val, body.val), rbrace.pos,
      open.errs + cond.errs + close.errs + lbrace.errs + body.errs + rbrace.errs)
  }

  // ------------------------------------------------------------------ functions

  /** `parse_params`: `type name` pairs separated by commas. */
  function Params(toks: seq<Token>, pos: nat): (r: Step<seq<Param>>)
    requires pos <= |toks|
    ensures pos <= r.pos <= |toks|
  {
    if Cur(toks, pos).kind == RPAREN then Step([], pos, []) else ParamLoop(toks, pos)
  }

  /** The `while True` loop of `parse_params`. */
  function ParamLoop(toks: seq<Token>, pos: nat): (r: Step<seq<Param>>)
    requires pos <= |toks|
    ensures pos <= r.pos <= |toks|
    decreases |toks| - pos
  {
    var k := Cur(toks, pos).kind;
    if !IsTypeKind(k) then Step([], pos, [])
    else
      var name := MatchKind(toks, pos + 1, ID);
      var p := Param(TypeName(k), OrDefault(name.val, "param"));
      if Cur(toks, name.pos).kind != COMMA then Step([p], name.pos, name.errs)
      else
        var rest := ParamLoop(toks, name.pos + 1);
        Step([p] + rest.val, rest.pos, name.errs + rest.errs)
  }

  /** `parse_function`, from a type keyword: it consumes at least that keyword. */
  function FunctionDef(toks: seq<Token>, pos: nat): (r: Step<Function>)
    requires pos < |toks| && IsTypeKind(toks[pos].kind)
    ensures pos < r.pos <= |toks|
  {
    var name := MatchKind(toks, pos + 1, ID);
    var open := MatchKind(toks, name.pos, LPAREN);
    var params := Params(toks, open.pos);
    var close := MatchKind(toks, params.pos, RPAREN);
    var lbrace := MatchKind(toks, close.pos, LBRACE);
    var body := Block(toks, lbrace.pos);
    var rbrace := MatchKind(toks, body.pos, RBRACE);
    Step(Function(TypeName(toks[pos].kind), OrDefault(name.val, "unnamed_func"), params.val, body.val), rbrace.pos,
      name.errs + open.errs + params.errs + close.errs + lbrace.errs + body.errs + rbrace.errs)
  }

  // ----------------------------------------------------------------- top level

  /** The kinds `synchronize` stops at. */
  const SyncKinds: set<Kind> := {INT, FLOAT, BOOL, ID, RETURN, IF, WHILE, RBRACE, SEMI}

  /** `synchronize`: skip to the first token in `SyncKinds`, or to the end. */
  function Synchronize(toks: seq<Token>, pos: nat): (r: nat)
    requires pos <= |toks|
    ensures pos <= r <= |toks|
    decreases |toks| - pos
  {
    var k := Cur(toks, pos).kind;
    if k in SyncKinds || k == EOF then pos else Synchronize(toks, pos + 1)
  }

  /**
   * Where `parse` ends up. `Loops(at, ...)` says that at position `at` the
   * source's loop makes no more progress: `parse_function` raises without
   * consuming anything, `synchronize` stops where it started, and the same
   * error is appended forever. `functions` and `errs` are what was gathered
   * before that point.
   */
  datatype Outcome =
    | Finished(functions: seq<Function>, errs: seq<ParseError>)
    | Loops(at: nat, functions: seq<Function>, errs: seq<ParseError>)

  /** `o` with functions `fs` and errors `es` gathered in front of it. */
  function Prefixed(fs: seq<Function>, es: seq<ParseError>, o: Outcome): (r: Outcome)
    ensures r.Finished? == o.Finished? && r.functions == fs + o.functions && r.errs == es + o.errs
    ensures r.Loops? ==> r.at == o.at
  {
    match o
    case Finished(f, e) => Finished(fs + f, es + e)
    case Loops(at, f, e) => Loops(at, fs + f, es + e)
  }

  lemma {:induction false} PrefixedAssoc(fs: seq<Function>, es: seq<ParseError>, fs2: seq<Function>, es2: seq<ParseError>, o: Outcome)
    ensures Prefixed(fs, es, Prefixed(fs2, es2, o)) == Prefixed(fs + fs2, es + es2, o)
  {
    AppendAssoc(fs, fs2, o.functions);
    AppendAssoc(es, es2, o.errs);
  }

  /** The loop of `parse`, as written. */
  function ProgramFrom(toks: seq<Token>, pos: nat): (r: Outcome)
    requires pos <= |toks|
    ensures r.Loops? ==>
      pos <= r.at < |toks| && toks[r.at].kind != EOF && !IsTypeKind(toks[r.at].kind) && Synchronize(toks, r.at) == r.at
    decreases |toks| - pos
  {
    var k := Cur(toks, pos).kind;
    if k == EOF then Finished([], [])
    else if IsTypeKind(k) then
      var f := FunctionDef(toks, pos);
      Prefixed([f.val], f.errs, ProgramFrom(toks, f.pos))
    else
      var next := Synchronize(toks, pos);
      if next == pos then Loops(pos, [], [NoReturnType(k)])
      else Prefixed([], [NoReturnType(k)], ProgramFrom(toks, next))
  }

  /**
   * The loop of `parse` with the evident intent restored: when `synchronize`
   * cannot move, the offending token is skipped. Always finishes.
   */
  function ProgramRecovering(toks: seq<Token>, pos: nat): (r: Outcome)
    requires pos <= |toks|
    ensures r.Finished?
    decreases |toks| - pos
  {
    var k := Cur(toks, pos).kind;
    if k == EOF then Finished([], [])
    else if IsTypeKind(k) then
      var f := FunctionDef(toks, pos);
      Prefixed([f.val], f.errs, ProgramRecovering(toks, f.pos))
    else
      var next := Synchronize(toks, pos);
      Prefixed([], [NoReturnType(k)], ProgramRecovering(toks, if next == pos then pos + 1 else next))
  }

  /** One iteration of `parse` that reads a function. */
  lemma {:induction false} ProgramFromFunction(toks: seq<Token>, pos: nat)
    requires pos < |toks| && IsTypeKind(toks[pos].kind)
    ensures var f := FunctionDef(toks, pos);
      ProgramFrom(toks, pos) == Prefixed([f.val], f.errs, ProgramFrom(toks, f.pos))
  {
  }

  /** One iteration of `parse` that reports a missing return type and resynchronises. */
  lemma {:induction false} ProgramFromSkip(toks: seq<Token>, pos: nat)
    requires pos <= |toks|
    requires Cur(toks, pos).kind != EOF && !IsTypeKind(Cur(toks, pos).kind)
    ensures var next, k := Synchronize(toks, pos), Cur(toks, pos).kind;
      ProgramFrom(toks, pos) ==
        if next == pos then Loops(pos, [], [NoReturnType(k)])
        else Prefixed([], [NoReturnType(k)], ProgramFrom(toks, next))
  {
  }

  lemma {:induction false} ProgramRecoveringFunction(toks: seq<Token>, pos: nat)
    requires pos < |toks| && IsTypeKind(toks[pos].kind)
    ensures var f := FunctionDef(toks, pos);
      ProgramRecovering(toks, pos) == Prefixed([f.val], f.errs, ProgramRecovering(toks, f.pos))
  {
  }

  lemma {:induction false} ProgramRecoveringSkip(toks: seq<Token>, pos: nat)
    requires pos <= |toks|
    requires Cur(toks, pos).kind != EOF && !IsTypeKind(Cur(toks, pos).kind)
    ensures var next, k := Synchronize(toks, pos), Cur(toks, pos).kind;
      ProgramRecovering(toks, pos) ==
        Prefixed([], [NoReturnType(k)], ProgramRecovering(toks, if next == pos then pos + 1 else next))
  {
  }
}
