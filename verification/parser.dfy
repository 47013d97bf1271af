/**
 * The `Parser` class of scripts/parser.py: a cursor over a fixed token list
 * and an error list, both updated in place. Every method is proved to leave
 * the cursor, the error list and its result exactly as the matching function
 * of `Grammar` says.
 */
module Parsing {
  import opened Strings
  import opened Lexer
  import opened Ast
  import opened Grammar

  class Parser {
    const tokens: seq<Token>
    var position: nat
    var errors: seq<ParseError>

    /** The cursor never leaves the token list. */
    predicate Valid()
      reads this
    {
      position <= |tokens|
    }

    constructor (toks: seq<Token>)
      ensures Valid()
      ensures tokens == toks && position == 0 && errors == []
    {
      tokens := toks;
      position := 0;
      errors := [];
    }

    /** `current()`. */
    function Current(): (t: Token)
      reads this
      ensures t in tokens || t == Token(EOF, "")
    {
      Cur(tokens, position)
    }

    /** `advance()`: one step forward unless already at the end. */
    method Advance()
      requires Valid()
      modifies this
      ensures Valid()
      ensures old(position) < |tokens| ==> position == old(position) + 1
      ensures old(position) == |tokens| ==> position == old(position)
      ensures errors == old(errors)
    {
      if position < |tokens| {
        position := position + 1;
      }
    }

    /**
     * `match(expected_type)`: on the expected kind, consume exactly that token
     * and return its value; otherwise append exactly one error, stay put and
     * return nothing.
     */
    method Match(k: Kind) returns (v: Option<string>)
      requires Valid()
      modifies this
      ensures Valid()
      ensures old(Current()).kind == k ==>
        v == Some(old(Current()).value) && errors == old(errors) &&
        position == if old(position) < |tokens| then old(position) + 1 else old(position)
      ensures old(Current()).kind != k ==>
        v == None && position == old(position) && errors == old(errors) + [Expected(k, old(Current()))]
      ensures var r := MatchKind(tokens, old(position), k);
        v == r.val && position == r.pos && errors == old(errors) + r.errs
    {
      var t := Current();
      if t.kind == k {
        Advance();
        v := Some(t.value);
      } else {
        errors := errors + [Expected(k, t)];
        v := None;
      }
    }

    // -------------------------------------------------------------- expressions

    /** `parse_expression`. */
    method ParseExpression() returns (e: Expr)
      requires Valid()
      modifies this
      ensures Valid()
      ensures var r := Expression(tokens, old(position));
        e == r.val && position == r.pos && errors == old(errors) + r.errs
      decreases |tokens| - position, 6
    {
      e := ParseTerm();
    }

    /** `parse_term`. */
    method ParseTerm() returns (e: Expr)
      requires Valid()
      modifies this
      ensures Valid()
      ensures var r := Term(tokens, old(position));
        e == r.val && position == r.pos && errors == old(errors) + r.errs
      decreases |tokens| - position, 5
    {
      ghost var p0, e0 := position, errors;
      e := ParseFactor();
      ghost var whole := TermTail(tokens, position, e);
      ghost var errs1 := errors;
      AppendAssoc(e0, errors[|e0|..], whole.errs);
      while IsAddOp(Current())
        invariant Valid() && p0 <= position
        invariant var r := TermTail(tokens, position, e);
          r.val == whole.val && r.pos == whole.pos && errors + r.errs == errs1 + whole.errs
        decreases |tokens| - position
      {
        ghost var before := errors;
        var op := Match(OP);
        var right := ParseFactor();
        e := Binary(e, op.value, right);
        AppendAssoc(before, errors[|before|..], TermTail(tokens, position, e).errs);
      }
    }

    /** `parse_factor`. */
    method ParseFactor() returns (e: Expr)
      requires Valid()
      modifies this
      ensures Valid()
      ensures var r := Factor(tokens, old(position));
        e == r.val && position == r.pos && errors == old(errors) + r.errs
      decreases |tokens| - position, 3
    {
      ghost var p0, e0 := position, errors;
      e := ParsePrimary();
      ghost var whole := FactorTail(tokens, position, e);
      ghost var errs1 := errors;
      AppendAssoc(e0, errors[|e0|..], whole.errs);
      while IsMulOp(Current())
        invariant Valid() && p0 <= position
        invariant var r := FactorTail(tokens, position, e);
          r.val == whole.val && r.pos == whole.pos && errors + r.errs == errs1 + whole.errs
        decreases |tokens| - position
      {
        ghost var before := errors;
        var op := Match(OP);
        var right := ParsePrimary();
        e := Binary(e, op.value, right);
        AppendAssoc(before, errors[|before|..], FactorTail(tokens, position, e).errs);
      }
    }

    /** `parse_primary`. */
    method ParsePrimary() returns (e: Expr)
      requires Valid()
      modifies this
      ensures Valid()
      ensures var r := Primary(tokens, old(position));
        e == r.val && position == r.pos && errors == old(errors) + r.errs
      decreases |tokens| - position, 1
    {
      var t := Current();
      if t.kind == ID {
        var v := Match(ID);
        e := Leaf(v.value);
      } else if t.kind == NUMBER {
        var v := Match(NUMBER);
        e := Leaf(v.value);
      } else if t.kind == LPAREN {
        var _ := Match(LPAREN);
        e := ParseExpression();
        var _ := Match(RPAREN);
      } else {
        errors := errors + [Unexpected(t)];
        Advance();
        e := Leaf("0");
      }
    }

    // --------------------------------------------------------------- statements

    /** `parse_statement`. */
    method ParseStatement() returns (s: Stmt)
      requires Valid()
      modifies this
      ensures Valid()
      ensures var r := Statement(tokens, old(position));
        s == r.val && position == r.pos && errors == old(errors) + r.errs
      decreases |tokens| - position, 2
    {
      var k := Current().kind;
      if IsTypeKind(k) {
        s := ParseVarDecl();
      } else if k == RETURN {
        s := ParseReturn();
      } else if k == IF {
        s := ParseIf();
      } else if k == WHILE {
        s := ParseWhile();
      } else {
        s := ParseExpressionStmt();
      }
    }

    /** `parse_var_decl`. */
    method ParseVarDecl() returns (s: Stmt)
      requires Valid() && position < |tokens| && IsTypeKind(tokens[position].kind)
      modifies this
      ensures Valid()
      ensures var r := VarDecl(tokens, old(position));
        s == r.val && position == r.pos && errors == old(errors) + r.errs
    {
      var k := Current().kind;
      var _ := Match(k);
      var varType := TypeName(k);
      var name := Match(ID);
      var _ := Match(OP);
      var e := ParseExpression();
      var _ := Match(SEMI);
      s := Declare(varType, OrDefault(name, "var"), e);
    }

    /** `parse_return`. */
    method ParseReturn() returns (s: Stmt)
      requires Valid() && position < |tokens| && tokens[position].kind == RETURN
      modifies this
      ensures Valid()
      ensures var r := ReturnStmt(tokens, old(position));
        s == r.val && position == r.pos && errors == old(errors) + r.errs
    {
      var _ := Match(RETURN);
      var e := ParseExpression();
      var _ := Match(SEMI);
      s := Return(e);
    }

    /** `parse_expression_stmt`. */
    method ParseExpressionStmt() returns (s: Stmt)
      requires Valid()
      modifies this
      ensures Valid()
      ensures var r := ExprStmt(tokens, old(position));
        s == r.val && position == r.pos && errors == old(errors) + r.errs
    {
      var left := Match(ID);
      var _ := Match(OP);
      var e := ParseExpression();
      var _ := Match(SEMI);
      s := Assign(OrDefault(left, "unknown"), e);
    }

    /**
     * The loop `while current is not RBRACE and not EOF: append parse_statement()`
     * that `parse_function`, `parse_if_statement` and `parse_while_statement`
     * each run over a body.
     */
    method ParseStatements() returns (body: seq<Stmt>)
      requires Valid()
      modifies this
      ensures Valid()
      ensures var r := Block(tokens, old(position));
        body == r.val && position == r.pos && errors == old(errors) + r.errs
      decreases |tokens| - position, 3
    {
      ghost var p0 := position;
      ghost var whole := Block(tokens, position);
      ghost var errs0 := errors;
      body := [];
      while Current().kind != RBRACE && Current().kind != EOF
        invariant Valid() && p0 <= position
        invariant var r := Block(tokens, position);
          body + r.val == whole.val && r.pos == whole.pos && errors + r.errs == errs0 + whole.errs
        decreases |tokens| - position
      {
        ghost var before := errors;
        var stmt := ParseStatement();
        AppendAssoc(before, errors[|before|..], Block(tokens, position).errs);
        AppendAssoc(body, [stmt], Block(tokens, position).val);
        body := body + [stmt];
      }
    }

    /** `parse_if_statement`. */
    method ParseIf() returns (s: Stmt)
      requires Valid() && position < |tokens| && tokens[position].kind == IF
      modifies this
      ensures Valid()
      ensures var r := IfStmt(tokens, old(position));
        s == r.val && position == r.pos && errors == old(errors) + r.errs
      decreases |tokens| - position, 1
    {
      ghost var e0 := errors;
      var _ := Match(IF);
      ghost var open := MatchKind(tokens, position, LPAREN);
      var _ := Match(LPAREN);
      ghost var cond := Expression(tokens, position);
      var condition := ParseExpression();
      AppendAssoc(e0, open.errs, cond.errs);
      ghost var close := MatchKind(tokens, position, RPAREN);
      var _ := Match(RPAREN);
      AppendAssoc(e0, open.errs + cond.errs, close.errs);
      ghost var lbrace := MatchKind(tokens, position, LBRACE);
      var _ := Match(LBRACE);
      ghost var head := open.errs + cond.errs + close.errs;
      AppendAssoc(e0, head, lbrace.errs);
      ghost var thenPart := Block(tokens, position);
      var trueBranch := ParseStatements();
      AppendAssoc(e0, head + lbrace.errs, thenPart.errs);
      ghost var rbrace := MatchKind(tokens, position, RBRACE);
      var _ := Match(RBRACE);
      ghost var errs := head + lbrace.errs + thenPart.errs;
      AppendAssoc(e0, errs, rbrace.errs);
      ghost var els := ElsePartAt(tokens, position);
      var falseBranch := ParseElse();
      AppendAssoc(e0, errs + rbrace.errs, els.errs);
      s := If(condition, trueBranch, falseBranch);
    }

    /** The `else` part of `parse_if_statement`, read only when the current token is `else`. */
    method ParseElse() returns (b: ElsePart)
      requires Valid()
      modifies this
      ensures Valid()
      ensures var r := ElsePartAt(tokens, old(position));
        b == r.val && position == r.pos && errors == old(errors) + r.errs
      decreases |tokens| - position, 0
    {
      b := NoElse;
      if Current().kind == ELSE {
        ghost var e0 := errors;
        var _ := Match(ELSE);
        ghost var lbrace := MatchKind(tokens, position, LBRACE);
        var _ := Match(LBRACE);
        ghost var body := Block(tokens, position);
        var stmts := ParseStatements();
        AppendAssoc(e0, lbrace.errs, body.errs);
        ghost var rbrace := MatchKind(tokens, position, RBRACE);
        var _ := Match(RBRACE);
        AppendAssoc(e0, lbrace.errs + body.errs, rbrace.errs);
        b := Else(stmts);
      }
    }

    /** `parse_while_statement`. */
    method ParseWhile() returns (s: Stmt)
      requires Valid() && position < |tokens| && tokens[position].kind == WHILE
      modifies this
      ensures Valid()
      ensures var r := WhileStmt(tokens, old(position));
        s == r.val && position == r.pos && errors == old(errors) + r.errs
      decreases |tokens| - position, 1
    {
      ghost var e0 := errors;
      var _ := Match(WHILE);
      ghost var open := MatchKind(tokens, position, LPAREN);
      var _ := Match(LPAREN);
      ghost var cond := Expression(tokens, position);
      var condition := ParseExpression();
      AppendAssoc(e0, open.errs, cond.errs);
      ghost var close := MatchKind(tokens, position, RPAREN);
      var _ := Match(RPAREN);
      AppendAssoc(e0, open.errs + cond.errs, close.errs);
      ghost var lbrace := MatchKind(tokens, position, LBRACE);
      var _ := Match(LBRACE);
      ghost var head := open.errs + cond.errs + close.errs;
      AppendAssoc(e0, head, lbrace.errs);
      ghost var whole := Block(tokens, position);
      var body := ParseStatements();
      AppendAssoc(e0, head + lbrace.errs, whole.errs);
      ghost var rbrace := MatchKind(tokens, position, RBRACE);
      var _ := Match(RBRACE);
      AppendAssoc(e0, head + lbrace.errs + whole.errs, rbrace.errs);
      s := While(condition, body);
    }

    // ---------------------------------------------------------------- functions

    /** `parse_params`. */
    method ParseParams() returns (params: seq<Param>)
      requires Valid()
      modifies this
      ensures Valid()
      ensures var r := Params(tokens, old(position));
        params == r.val && position == r.pos && errors == old(errors) + r.errs
    {
      params := [];
      if Current().kind == RPAREN {
        return;
      }
      ghost var whole := ParamLoop(tokens, position);
      ghost var e0 := errors;
      while true
        invariant Valid()
        invariant var r := ParamLoop(tokens, position);
          params + r.val == whole.val && r.pos == whole.pos && errors + r.errs == e0 + whole.errs
        decreases |tokens| - position
      {
        var k := Current().kind;
        if !IsTypeKind(k) {
          break;
        }
        ghost var before := errors;
        var p := ParseParam(k);
        params := params + [p];
        if Current().kind != COMMA {
          break;
        }
        var _ := Match(COMMA);
        AppendAssoc(before, errors[|before|..], ParamLoop(tokens, position).errs);
        AppendAssoc(params[..|params| - 1], [p], ParamLoop(tokens, position).val);
      }
    }

    /** One `type name` pair of the loop in `parse_params`, the name falling back to "param". */
    method ParseParam(k: Kind) returns (p: Param)
      requires Valid() && position < |tokens| && tokens[position].kind == k && IsTypeKind(k)
      modifies this
      ensures Valid()
      ensures var name := MatchKind(tokens, old(position) + 1, ID);
        p == Param(TypeName(k), OrDefault(name.val, "param")) && position == name.pos && errors == old(errors) + name.errs
    {
      var _ := Match(k);
      var paramName := Match(ID);
      p := Param(TypeName(k), OrDefault(paramName, "param"));
    }

    /**
     * `parse_function`. `None` stands for the `SyntaxError` it raises when the
     * current token is not a type keyword; it then changes nothing.
     */
    method ParseFunction() returns (f: Option<Function>)
      requires Valid()
      modifies this
      ensures Valid()
      ensures !IsTypeKind(old(Current()).kind) ==> f == None && position == old(position) && errors == old(errors)
      ensures IsTypeKind(old(Current()).kind) ==> var r := FunctionDef(tokens, old(position));
        f == Some(r.val) && position == r.pos && errors == old(errors) + r.errs
    {
      var k := Current().kind;
      if !IsTypeKind(k) {
        return None;
      }
      ghost var e0 := errors;
      var _ := Match(k);
      var returnType := TypeName(k);
      ghost var nameStep := MatchKind(tokens, position, ID);
      var name := Match(ID);
      ghost var open := MatchKind(tokens, position, LPAREN);
      var _ := Match(LPAREN);
      AppendAssoc(e0, nameStep.errs, open.errs);
      ghost var ps := Params(tokens, position);
      var params := ParseParams();
      ghost var head := nameStep.errs + open.errs;
      AppendAssoc(e0, head, ps.errs);
      ghost var close := MatchKind(tokens, position, RPAREN);
      var _ := Match(RPAREN);
      AppendAssoc(e0, head + ps.errs, close.errs);
      ghost var lbrace := MatchKind(tokens, position, LBRACE);
      var _ := Match(LBRACE);
      head := head + ps.errs + close.errs;
      AppendAssoc(e0, head, lbrace.errs);
      ghost var whole := Block(tokens, position);
      var body := ParseStatements();
      AppendAssoc(e0, head + lbrace.errs, whole.errs);
      ghost var rbrace := MatchKind(tokens, position, RBRACE);
      var _ := Match(RBRACE);
      AppendAssoc(e0, head + lbrace.errs + whole.errs, rbrace.errs);
      f := Some(Function(returnType, OrDefault(name, "unnamed_func"), params, body));
    }

    /** `synchronize`. */
    method Synchronize()
      requires Valid()
      modifies this
      ensures Valid()
      ensures position == Grammar.Synchronize(tokens, old(position)) && errors == old(errors)
    {
      while Current().kind !in SyncKinds && Current().kind != EOF
        invariant Valid() && errors == old(errors)
        invariant Grammar.Synchronize(tokens, position) == Grammar.Synchronize(tokens, old(position))
        decreases |tokens| - position
      {
        Advance();
      }
    }

    /**
     * `parse`. `None` stands for the run that never returns: a function start
     * where `parse_function` raises and `synchronize` cannot move, so the
     * same iteration repeats forever.
     */
    method Parse() returns (program: Option<Program>)
      requires Valid()
      modifies this
      ensures Valid()
      ensures match ProgramFrom(tokens, old(position))
        case Finished(fs, es) => program == Some(Program(fs)) && errors == old(errors) + es
        case Loops(_, _, _) => program == None
    {
      ghost var whole := ProgramFrom(tokens, position);
      ghost var e0 := errors;
      ghost var added: seq<ParseError> := [];
      var functions := [];
      while Current().kind != EOF
        invariant Valid()
        invariant errors == e0 + added && Prefixed(functions, added, ProgramFrom(tokens, position)) == whole
        decreases |tokens| - position
      {
        var start := position;
        var k := Current().kind;
        var func := ParseFunction();
        if func.Some? {
          ghost var r := FunctionDef(tokens, start);
          ProgramFromFunction(tokens, start);
          assert errors == (e0 + added) + r.errs;
          PrefixedAssoc(functions, added, [func.value], r.errs, ProgramFrom(tokens, position));
          functions := functions + [func.value];
          AppendAssoc(e0, added, r.errs);
          added := added + r.errs;
        } else {
          errors := errors + [NoReturnType(k)];
          Synchronize();
          ProgramFromSkip(tokens, start);
          if position == start {
            return None;
          }
          PrefixedAssoc(functions, added, [], [NoReturnType(k)], ProgramFrom(tokens, position));
          AppendAssoc(e0, added, [NoReturnType(k)]);
          assert functions + [] == functions;
          added := added + [NoReturnType(k)];
        }
      }
      assert functions + [] == functions && added + [] == added;
      program := Some(Program(functions));
    }

    /**
     * `parse` with the evident intent restored: when `synchronize` cannot
     * move, the offending token is skipped. Always returns.
     */
    method ParseRecovering() returns (program: Program)
      requires Valid()
      modifies this
      ensures Valid()
      ensures var o := ProgramRecovering(tokens, old(position));
        program == Program(o.functions) && errors == old(errors) + o.errs
    {
      ghost var whole := ProgramRecovering(tokens, position);
      ghost var e0 := errors;
      ghost var added: seq<ParseError> := [];
      var functions := [];
      while Current().kind != EOF
        invariant Valid()
        invariant errors == e0 + added && Prefixed(functions, added, ProgramRecovering(tokens, position)) == whole
        decreases |tokens| - position
      {
        var start := position;
        var k := Current().kind;
        var func := ParseFunction();
        if func.Some? {
          ghost var r := FunctionDef(tokens, start);
          ProgramRecoveringFunction(tokens, start);
          assert errors == (e0 + added) + r.errs;
          PrefixedAssoc(functions, added, [func.value], r.errs, ProgramRecovering(tokens, position));
          functions := functions + [func.value];
          AppendAssoc(e0, added, r.errs);
          added := added + r.errs;
        } else {
          errors := errors + [NoReturnType(k)];
          Synchronize();
          ghost var next := position;
          ProgramRecoveringSkip(tokens, start);
          if position == start {
            Advance();
          }
          assert position == if next == start then start + 1 else next;
          assert ProgramRecovering(tokens, start) == Prefixed([], [NoReturnType(k)], ProgramRecovering(tokens, position));
          PrefixedAssoc(functions, added, [], [NoReturnType(k)], ProgramRecovering(tokens, position));
          AppendAssoc(e0, added, [NoReturnType(k)]);
          assert functions + [] == functions;
          added := added + [NoReturnType(k)];
        }
      }
      assert functions + [] == functions && added + [] == added;
      program := Program(functions);
    }
  }
}
