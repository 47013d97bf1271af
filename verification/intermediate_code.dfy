/**
 * The three-address code generator (scripts/intermediate_code.py).
 *
 * `GenExpr`, `GenStmt`, `GenBlock` and `GenProgram` say which lines are
 * printed and where the temporary counter ends, given where it starts. The
 * `Generator` class holds the counter (`temp_count`, never reset) and the
 * printed lines, and its methods are proved to print exactly those lines.
 */
module IntermediateCode {
  import opened Strings
  import opened Ast

  /** The `k`-th temporary: `t1`, `t2`, ... */
  function Temp(k: nat): (r: string)
    ensures |r| >= 2 && r[0] == 't'
  {
    "t" + NatStr(k)
  }

  /** A label minted from the same counter: `"L" + new_temp()`, so `Lt1`, `Lt2`, ... */
  function Label(k: nat): (r: string)
    ensures |r| >= 3 && r[0] == 'L' && r[1..] == Temp(k)
  {
    "L" + Temp(k)
  }

  /** The lines that compute an expression, the operand that names its value, and the counter afterwards. */
  datatype ExprCode = ExprCode(code: seq<string>, value: string, next: nat)

  /** Printed lines and the counter afterwards. */
  datatype Code = Code(lines: seq<string>, next: nat)

  /**
   * `gen_expression`: a post-order walk. A leaf is its own value; an operator
   * node emits its operands' code, then one line into a fresh temporary.
   */
  function GenExpr(e: Expr, n: nat): (r: ExprCode)
    ensures |r.code| == OpCount(e) && r.next == n + OpCount(e)
    ensures e.Leaf? ==> r.value == e.text
    ensures e.Binary? ==> r.value == Temp(r.next)
  {
    match e
    case Leaf(t) => ExprCode([], t, n)
    case Binary(l, op, rt) =>
      var lc := GenExpr(l, n);
      var rc := GenExpr(rt, lc.next);
      var result := Temp(rc.next + 1);
      ExprCode(lc.code + rc.code + [result + " = " + lc.value + " " + op + " " + rc.value], result, rc.next + 1)
  }

  /**
   * How many values a statement takes from the counter: one per operator
   * node it flattens, one per call, two labels per `if` and `while`.
   */
  function Uses(s: Stmt): nat
    decreases s
  {
    match s
    case Declare(t, x, e) => if t == "" || x == "" then 0 else OpCount(e)
    case Assign(x, e) => if x == "" then 0 else OpCount(e)
    case Return(e) => OpCount(e)
    case Call(_, _) => 1
    case If(c, th, el) => 2 + OpCount(c) + UsesBlock(th) + if el.Else? && |el.stmts| > 0 then UsesBlock(el.stmts) else 0
    case While(c, body) => 2 + OpCount(c) + UsesBlock(body)
  }

  function UsesBlock(ss: seq<Stmt>): nat
    decreases ss
  {
    if |ss| == 0 then 0 else Uses(ss[0]) + UsesBlock(ss[1..])
  }

  /** An expression's code followed by one line that uses its value. */
  function Finish(c: ExprCode, line: string): Code {
    Code(c.code + [line], c.next)
  }

  /**
   * `gen_stmt`. The invalid-statement and missing-expression branches print
   * a diagnostic and no code, so they give no lines here.
   */
  function GenStmt(s: Stmt, n: nat): (r: Code)
    ensures r.next == n + Uses(s)
    decreases s, 1
  {
    match s
    case Declare(t, x, e) =>
      if t == "" || x == "" || !Truthy(e) then Code([], n)
      else var c := GenExpr(e, n); Finish(c, x + " = " + c.value)
    case Assign(x, e) =>
      if x == "" || !Truthy(e) then Code([], n)
      else var c := GenExpr(e, n); Finish(c, x + " = " + c.value)
    case Return(e) =>
      // With no value the text `return x` is split and its second word returned.
      if !Truthy(e) then Code(["return x"], n)
      else var c := GenExpr(e, n); Finish(c, "return " + c.value)
    case Call(target, call) =>
      var tmp := Temp(n + 1);
      Code([tmp + " = call " + call.name + ", " + JoinComma(call.args), CallTarget(target) + " = " + tmp], n + 1)
    case If(_, _, _) => GenIf(s, n)
    case While(_, _) => GenWhile(s, n)
  }

  /** A condition's code, then `if_false <value> goto <target>`. */
  function CondJump(cond: Expr, n: nat, target: string): (r: Code)
    ensures |r.lines| == OpCount(cond) + 1 && r.next == n + OpCount(cond)
  {
    var c := GenExpr(cond, n);
    Finish(c, "if_false " + c.value + " goto " + target)
  }

  /** The `if` branch of `gen_stmt`: two labels, then the condition, the branches and the jumps between them. */
  function GenIf(s: Stmt, n: nat): (r: Code)
    requires s.If?
    ensures r.next == n + Uses(s)
    decreases s, 0
  {
    var c := CondJump(s.cond, n + 2, Label(n + 1));
    var t := GenBlock(s.thenBranch, c.next);
    var e := if s.elseBranch.Else? && |s.elseBranch.stmts| > 0 then GenBlock(s.elseBranch.stmts, t.next) else Code([], t.next);
    Code(c.lines + t.lines + ["goto " + Label(n + 2), Label(n + 1) + ":"] + e.lines + [Label(n + 2) + ":"], e.next)
  }

  /** The `while` branch of `gen_stmt`: two labels, the condition at the top, the jump back at the bottom. */
  function GenWhile(s: Stmt, n: nat): (r: Code)
    requires s.While?
    ensures r.next == n + Uses(s)
    decreases s, 0
  {
    var c := CondJump(s.cond, n + 2, Label(n + 2));
    var b := GenBlock(s.body, c.next);
    Code([Label(n + 1) + ":"] + c.lines + b.lines + ["goto " + Label(n + 1), Label(n + 2) + ":"], b.next)
  }

  function GenBlock(ss: seq<Stmt>, n: nat): (r: Code)
    ensures r.next == n + UsesBlock(ss)
    decreases ss, 0
  {
    if |ss| == 0 then Code([], n)
    else
      var a := GenStmt(ss[0], n);
      var b := GenBlock(ss[1..], a.next);
      Code(a.lines + b.lines, b.next)
  }

  /** `generate_intermediate_code`: a header line per function, then its body's code. */
  function GenProgram(fs: seq<Function>, n: nat): (r: Code)
    ensures r.next == n + UsesProgram(fs)
    decreases |fs|
  {
    if |fs| == 0 then Code([], n)
    else
      var b := GenBlock(fs[0].body, n);
      var rest := GenProgram(fs[1..], b.next);
      Code(["# Function: " + fs[0].name] + b.lines + rest.lines, rest.next)
  }

  function UsesProgram(fs: seq<Function>): nat {
    if |fs| == 0 then 0 else UsesBlock(fs[0].body) + UsesProgram(fs[1..])
  }

  /** The generator's state: the temporary counter and every line printed so far. */
  class Generator {
    var counter: nat
    var output: seq<string>

    constructor ()
      ensures counter == 0 && output == []
    {
      counter := 0;
      output := [];
    }

    /** `new_temp`: the counter goes up by exactly one and names the new temporary. */
    method NewTemp() returns (t: string)
      modifies this
      ensures counter == old(counter) + 1 && t == Temp(counter)
      ensures output == old(output)
    {
      counter := counter + 1;
      t := Temp(counter);
    }

    /** `for line in code: print(line)`. */
    method Emit(code: seq<string>)
      modifies this
      ensures output == old(output) + code && counter == old(counter)
    {
      var i := 0;
      while i < |code|
        invariant 0 <= i <= |code|
        invariant output == old(output) + code[..i] && counter == old(counter)
      {
        assert code[..i + 1] == code[..i] + [code[i]];
        output := output + [code[i]];
        i := i + 1;
      }
      assert code[..i] == code;
    }

    /** `gen_expression`: prints nothing itself, only takes temporaries. */
    method GenExpression(e: Expr) returns (code: seq<string>, value: string)
      modifies this
      ensures ExprCode(code, value, counter) == GenExpr(e, old(counter))
      ensures output == old(output)
      decreases e
    {
      match e
      case Leaf(t) =>
        code, value := [], t;
      case Binary(l, op, r) =>
        var leftCode, leftTemp := GenExpression(l);
        var rightCode, rightTemp := GenExpression(r);
        var result := NewTemp();
        code := leftCode + rightCode + [result + " = " + leftTemp + " " + op + " " + rightTemp];
        value := result;
    }

    /** `gen_stmt`. */
    method GenStatement(s: Stmt)
      modifies this
      ensures output == old(output) + GenStmt(s, old(counter)).lines
      ensures counter == GenStmt(s, old(counter)).next
      decreases s, 1
    {
      match s
      case Declare(t, x, e) =>
        if t != "" && x != "" && Truthy(e) {
          var code, temp := GenExpression(e);
          Emit(code);
          output := output + [x + " = " + temp];
        }
      case Assign(x, e) =>
        if x != "" && Truthy(e) {
          var code, temp := GenExpression(e);
          Emit(code);
          output := output + [x + " = " + temp];
        }
      case Return(e) =>
        if Truthy(e) {
          var code, temp := GenExpression(e);
          Emit(code);
          output := output + ["return " + temp];
        } else {
          output := output + ["return x"];
        }
      case Call(target, call) =>
        var tmp := NewTemp();
        output := output + [tmp + " = call " + call.name + ", " + JoinComma(call.args)];
        output := output + [CallTarget(target) + " = " + tmp];
      case If(_, _, _) =>
        GenIfStatement(s);
      case While(_, _) =>
        GenWhileStatement(s);
    }

    /** The condition code and conditional jump shared by the `if` and `while` branches of `gen_stmt`. */
    method EmitCondJump(cond: Expr, target: string)
      modifies this
      ensures output == old(output) + CondJump(cond, old(counter), target).lines
      ensures counter == CondJump(cond, old(counter), target).next
    {
      var condCode, condTemp := GenExpression(cond);
      Emit(condCode);
      output := output + ["if_false " + condTemp + " goto " + target];
    }

    /** The `if` branch of `gen_stmt`. */
    method GenIfStatement(s: Stmt)
      requires s.If?
      modifies this
      ensures output == old(output) + GenIf(s, old(counter)).lines
      ensures counter == GenIf(s, old(counter)).next
      decreases s, 0
    {
      ghost var n := counter;
      var t1 := NewTemp();
      var labelElse := "L" + t1;
      var t2 := NewTemp();
      var labelEnd := "L" + t2;
      assert labelElse == Label(n + 1) && labelEnd == Label(n + 2);
      ghost var c := CondJump(s.cond, counter, labelElse);
      EmitCondJump(s.cond, labelElse);
      ghost var t := GenBlock(s.thenBranch, counter);
      GenStatements(s.thenBranch);
      output := output + ["goto " + labelEnd, labelElse + ":"];
      ghost var mid := c.lines + t.lines + ["goto " + labelEnd, labelElse + ":"];
      AppendAssoc(old(output), c.lines, t.lines);
      AppendAssoc(old(output), c.lines + t.lines, ["goto " + labelEnd, labelElse + ":"]);
      assert output == old(output) + mid;
      if s.elseBranch.Else? && |s.elseBranch.stmts| > 0 {
        ghost var e := GenBlock(s.elseBranch.stmts, counter);
        GenStatements(s.elseBranch.stmts);
        output := output + [labelEnd + ":"];
        AppendAssoc(old(output), mid, e.lines);
        AppendAssoc(old(output), mid + e.lines, [labelEnd + ":"]);
        assert GenIf(s, n) == Code(mid + e.lines + [labelEnd + ":"], e.next);
      } else {
        output := output + [labelEnd + ":"];
        assert GenIf(s, n) == Code(mid + [] + [labelEnd + ":"], counter);
      }
    }

    /** The `while` branch of `gen_stmt`. */
    method GenWhileStatement(s: Stmt)
      requires s.While?
      modifies this
      ensures output == old(output) + GenWhile(s, old(counter)).lines
      ensures counter == GenWhile(s, old(counter)).next
      decreases s, 0
    {
      ghost var n := counter;
      var t1 := NewTemp();
      var labelStart := "L" + t1;
      var t2 := NewTemp();
      var labelEnd := "L" + t2;
      output := output + [labelStart + ":"];
      ghost var c := CondJump(s.cond, counter, labelEnd);
      EmitCondJump(s.cond, labelEnd);
      ghost var b := GenBlock(s.body, counter);
      GenStatements(s.body);
      output := output + ["goto " + labelStart, labelEnd + ":"];
      AppendAssoc(old(output), [labelStart + ":"], c.lines);
      AppendAssoc(old(output), [labelStart + ":"] + c.lines, b.lines);
      AppendAssoc(old(output), [labelStart + ":"] + c.lines + b.lines, ["goto " + labelStart, labelEnd + ":"]);
      assert GenWhile(s, n) == Code([labelStart + ":"] + c.lines + b.lines + ["goto " + labelStart, labelEnd + ":"], b.next);
    }

    /** `for s in ...: gen_stmt(s)` over a body or a branch. */
    method GenStatements(ss: seq<Stmt>)
      modifies this
      ensures output == old(output) + GenBlock(ss, old(counter)).lines
      ensures counter == GenBlock(ss, old(counter)).next
      decreases ss, 0
    {
      ghost var whole := GenBlock(ss, counter);
      var i := 0;
      while i < |ss|
        invariant 0 <= i <= |ss|
        invariant GenBlock(ss[i..], counter).next == whole.next
        invariant output + GenBlock(ss[i..], counter).lines == old(output) + whole.lines
      {
        assert ss[i..][1..] == ss[i + 1..];
        ghost var a := GenStmt(ss[i], counter);
        ghost var rest := GenBlock(ss[i + 1..], a.next);
        assert GenBlock(ss[i..], counter) == Code(a.lines + rest.lines, rest.next);
        ghost var before := output;
        GenStatement(ss[i]);
        AppendAssoc(before, a.lines, rest.lines);
        i := i + 1;
      }
    }

    /** `generate_intermediate_code`: the counter goes on from wherever an earlier run left it. */
    method Generate(p: Program)
      modifies this
      ensures output == old(output) + GenProgram(p.functions, old(counter)).lines
      ensures counter == GenProgram(p.functions, old(counter)).next
    {
      var fs := p.functions;
      ghost var whole := GenProgram(fs, counter);
      var i := 0;
      while i < |fs|
        invariant 0 <= i <= |fs|
        invariant GenProgram(fs[i..], counter).next == whole.next
        invariant output + GenProgram(fs[i..], counter).lines == old(output) + whole.lines
      {
        assert fs[i..][1..] == fs[i + 1..];
        ghost var b := GenBlock(fs[i].body, counter);
        ghost var rest := GenProgram(fs[i + 1..], b.next);
        assert GenProgram(fs[i..], counter) == Code(["# Function: " + fs[i].name] + b.lines + rest.lines, rest.next);
        ghost var before := output;
        output := output + ["# Function: " + fs[i].name];
        GenStatements(fs[i].body);
        AppendAssoc(before, ["# Function: " + fs[i].name] + b.lines, rest.lines);
        AppendAssoc(before, ["# Function: " + fs[i].name], b.lines);
        i := i + 1;
      }
    }
  }
}
