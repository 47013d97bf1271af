/**
 * What the generator promises, stated over `GenExpr`, `GenStmt` and
 * `GenProgram` (which the `Generator` methods are proved to print).
 */
module IntermediateCodeProperties {
  import opened Strings
  import opened Ast
  import opened IntermediateCode

  // ------------------------------------------------------------------ names

  /** Different counter values give different temporaries. */
  lemma {:induction false} TempInjective(a: nat, b: nat)
    ensures Temp(a) == Temp(b) <==> a == b
  {
    if Temp(a) == Temp(b) {
      assert Temp(a)[1..] == NatStr(a) && Temp(b)[1..] == NatStr(b);
      NatStrInjective(a, b);
    }
  }

  /** Labels and temporaries share the counter but never a name; labels are as distinct as temporaries. */
  lemma {:induction false} LabelsAreNotTemps(a: nat, b: nat)
    ensures Label(a) != Temp(b)
    ensures Label(a) == Label(b) <==> a == b
  {
    assert Label(a)[0] == 'L' && Temp(b)[0] == 't';
    assert Label(a)[1..] == Temp(a) && Label(b)[1..] == Temp(b);
    TempInjective(a, b);
  }

  // ------------------------------------------------------------------ expressions

  lemma {:induction false} PrefixOfConcat(x: string, y: string)
    ensures StartsWith(x + y, x)
  {
    assert (x + y)[..|x|] == x;
  }

  /** The `i`-th line of `code` assigns the `i`-th temporary after `n`. */
  predicate MintsFrom(code: seq<string>, n: nat) {
    forall i :: 0 <= i < |code| ==> StartsWith(code[i], Temp(n + 1 + i) + " = ")
  }

  /**
   * Flattening mints temporaries in order: the `i`-th line of an
   * expression's code assigns the `i`-th new temporary, so no two of its
   * lines assign the same one.
   */
  lemma {:induction false} ExprMintsInOrder(e: Expr, n: nat)
    ensures MintsFrom(GenExpr(e, n).code, n)
    decreases e
  {
    if e.Binary? {
      var lc := GenExpr(e.left, n);
      var rc := GenExpr(e.right, lc.next);
      ExprMintsInOrder(e.left, n);
      ExprMintsInOrder(e.right, lc.next);
      var operands := lc.value + " " + e.op + " " + rc.value;
      var last := Temp(rc.next + 1) + " = " + lc.value + " " + e.op + " " + rc.value;
      assert last == (Temp(rc.next + 1) + " = ") + operands;
      PrefixOfConcat(Temp(rc.next + 1) + " = ", operands);
      MintsConcat(lc.code, rc.code, last, n);
      assert GenExpr(e, n).code == lc.code + rc.code + [last];
    }
  }

  /** Two runs of minted lines and one more line assigning the next temporary. */
  lemma {:induction false} MintsConcat(a: seq<string>, b: seq<string>, last: string, n: nat)
    requires MintsFrom(a, n) && MintsFrom(b, n + |a|)
    requires StartsWith(last, Temp(n + |a| + |b| + 1) + " = ")
    ensures MintsFrom(a + b + [last], n)
  {
    var code := a + b + [last];
    forall i | 0 <= i < |code| ensures StartsWith(code[i], Temp(n + 1 + i) + " = ") {
      if i < |a| {
        assert code[i] == a[i];
      } else if i < |a| + |b| {
        assert code[i] == b[i - |a|];
      } else {
        assert code[i] == last;
      }
    }
  }

  /** The number of every temporary an expression mints lies above the counter it started from. */
  lemma {:induction false} ExprTempsFresh(e: Expr, n: nat, i: nat, j: nat)
    requires i < j < |GenExpr(e, n).code|
    ensures StartsWith(GenExpr(e, n).code[i], Temp(n + 1 + i) + " = ")
    ensures StartsWith(GenExpr(e, n).code[j], Temp(n + 1 + j) + " = ")
    ensures Temp(n + 1 + i) != Temp(n + 1 + j)
  {
    ExprMintsInOrder(e, n);
    TempInjective(n + 1 + i, n + 1 + j);
  }

  // ------------------------------------------------------------------ statements

  /**
   * A declaration or assignment prints its value's code and then assigns
   * the value to its name; with an operator that value is the temporary
   * minted last.
   */
  lemma {:induction false} AssignmentLayout(s: Stmt, n: nat)
    requires (s.Declare? && s.varType != "" && s.name != "" && Truthy(s.init))
          || (s.Assign? && s.target != "" && Truthy(s.value))
    ensures var e := if s.Declare? then s.init else s.value;
      var x := if s.Declare? then s.name else s.target;
      GenStmt(s, n).lines == GenExpr(e, n).code + [x + " = " + GenExpr(e, n).value] &&
      (e.Binary? ==> GenExpr(e, n).value == Temp(n + OpCount(e)))
  {
  }

  /**
   * A return with a value prints the value's code and then `return <value>`;
   * without one it prints `return x`, the second word of its text.
   */
  lemma {:induction false} ReturnLayout(s: Stmt, n: nat)
    requires s.Return?
    ensures Truthy(s.value) ==>
      GenStmt(s, n).lines == GenExpr(s.value, n).code + ["return " + GenExpr(s.value, n).value] &&
      (s.value.Binary? ==> GenExpr(s.value, n).value == Temp(n + OpCount(s.value)))
    ensures !Truthy(s.value) ==> GenStmt(s, n) == Code(["return x"], n)
  {
  }

  /** Where the front parts of `a + [x] + b + [y, z] + c + [w]` sit, and its last line. */
  lemma {:induction false} IfFrontParts(l: seq<string>, a: seq<string>, x: string, b: seq<string>, y: string, z: string, c: seq<string>, w: string)
    requires l == a + [x] + b + [y, z] + c + [w]
    ensures |l| == |a| + |b| + |c| + 4
    ensures l[..|a|] == a && l[|a|] == x
    ensures l[|a| + 1..|a| + 1 + |b|] == b
    ensures l[|l| - 1] == w
  {
    assert l == a + ([x] + b + [y, z] + c + [w]);
    assert l[|a| + 1..] == b + ([y, z] + c + [w]);
  }

  /** Where the back parts of `a + [x] + b + [y, z] + c + [w]` sit. */
  lemma {:induction false} IfBackParts(l: seq<string>, a: seq<string>, x: string, b: seq<string>, y: string, z: string, c: seq<string>, w: string)
    requires l == a + [x] + b + [y, z] + c + [w]
    ensures |l| == |a| + |b| + |c| + 4
    ensures l[|a| + 1 + |b|] == y && l[|a| + 2 + |b|] == z
    ensures l[|a| + 3 + |b|..|l| - 1] == c
  {
    assert l == (a + [x] + b) + ([y, z] + c + [w]);
    assert l[|a| + 3 + |b|..] == c + [w];
  }

  lemma {:induction false} WhileParts(x: string, a: seq<string>, y: string, b: seq<string>, z: string, w: string)
    ensures ([x] + (a + [y]) + b + [z, w])[1..|a| + 1] == a
    ensures ([x] + (a + [y]) + b + [z, w])[|a| + 2..|a| + 2 + |b|] == b
  {
    var l := [x] + (a + [y]) + b + [z, w];
    assert l[1..] == a + ([y] + b + [z, w]);
    assert l[|a| + 2..] == b + [z, w];
  }

  /**
   * The `if` layout, up to the then-branch: the condition's code,
   * `if_false <c> goto <else>`, the then-branch; the last line is `<end>:`.
   */
  lemma {:induction false} IfLayout(s: Stmt, n: nat)
    requires s.If?
    ensures |GenStmt(s, n).lines| >= OpCount(s.cond) + |GenBlock(s.thenBranch, n + 2 + OpCount(s.cond)).lines| + 4
    ensures GenStmt(s, n).lines[..OpCount(s.cond)] == GenExpr(s.cond, n + 2).code
    ensures GenStmt(s, n).lines[OpCount(s.cond)] == "if_false " + GenExpr(s.cond, n + 2).value + " goto " + Label(n + 1)
    ensures GenStmt(s, n).lines[OpCount(s.cond) + 1..OpCount(s.cond) + 1 + |GenBlock(s.thenBranch, n + 2 + OpCount(s.cond)).lines|]
      == GenBlock(s.thenBranch, n + 2 + OpCount(s.cond)).lines
    ensures GenStmt(s, n).lines[|GenStmt(s, n).lines| - 1] == Label(n + 2) + ":"
  {
    var c := GenExpr(s.cond, n + 2);
    var t := GenBlock(s.thenBranch, n + 2 + OpCount(s.cond));
    var e := IfShape(s, n);
    IfFrontParts(GenStmt(s, n).lines, c.code, "if_false " + c.value + " goto " + Label(n + 1), t.lines,
      "goto " + Label(n + 2), Label(n + 1) + ":", e, Label(n + 2) + ":");
  }

  /**
   * The `if` layout after the then-branch: `goto <end>`, `<else>:`, the
   * else-branch, `<end>:`. The goto and both labels are there even
   * without an else-branch, which then adds no line.
   */
  lemma {:induction false} IfElseLayout(s: Stmt, n: nat)
    requires s.If?
    ensures var t := GenBlock(s.thenBranch, n + 2 + OpCount(s.cond));
      |GenStmt(s, n).lines| >= OpCount(s.cond) + |t.lines| + 4 &&
      GenStmt(s, n).lines[OpCount(s.cond) + 1 + |t.lines|] == "goto " + Label(n + 2) &&
      GenStmt(s, n).lines[OpCount(s.cond) + 2 + |t.lines|] == Label(n + 1) + ":"
    ensures var t := GenBlock(s.thenBranch, n + 2 + OpCount(s.cond));
      var e := if s.elseBranch.Else? && |s.elseBranch.stmts| > 0 then GenBlock(s.elseBranch.stmts, t.next).lines else [];
      |GenStmt(s, n).lines| == OpCount(s.cond) + |t.lines| + |e| + 4 &&
      GenStmt(s, n).lines[OpCount(s.cond) + 3 + |t.lines|..|GenStmt(s, n).lines| - 1] == e
  {
    var c := GenExpr(s.cond, n + 2);
    var t := GenBlock(s.thenBranch, n + 2 + OpCount(s.cond));
    var e := IfLines(s, n);
    IfBackParts(GenStmt(s, n).lines, c.code, "if_false " + c.value + " goto " + Label(n + 1), t.lines,
      "goto " + Label(n + 2), Label(n + 1) + ":", e, Label(n + 2) + ":");
  }

  /** `GenStmt` on an `if`, with the else-branch's lines left unnamed. */
  lemma {:induction false} IfShape(s: Stmt, n: nat) returns (e: seq<string>)
    requires s.If?
    ensures GenStmt(s, n).lines == GenExpr(s.cond, n + 2).code + ["if_false " + GenExpr(s.cond, n + 2).value + " goto " + Label(n + 1)]
      + GenBlock(s.thenBranch, n + 2 + OpCount(s.cond)).lines + ["goto " + Label(n + 2), Label(n + 1) + ":"] + e + [Label(n + 2) + ":"]
  {
    e := IfLines(s, n);
  }

  /** `GenStmt` on an `if`, with the condition's jump spelled out and the else-branch's lines named. */
  lemma {:induction false} IfLines(s: Stmt, n: nat) returns (e: seq<string>)
    requires s.If?
    ensures e == if s.elseBranch.Else? && |s.elseBranch.stmts| > 0
      then GenBlock(s.elseBranch.stmts, GenBlock(s.thenBranch, n + 2 + OpCount(s.cond)).next).lines else []
    ensures GenStmt(s, n).lines == GenExpr(s.cond, n + 2).code + ["if_false " + GenExpr(s.cond, n + 2).value + " goto " + Label(n + 1)]
      + GenBlock(s.thenBranch, n + 2 + OpCount(s.cond)).lines + ["goto " + Label(n + 2), Label(n + 1) + ":"] + e + [Label(n + 2) + ":"]
  {
    var c := GenExpr(s.cond, n + 2);
    var cj := CondJump(s.cond, n + 2, Label(n + 1));
    CondJumpLines(s.cond, n + 2, Label(n + 1));
    assert cj.lines == c.code + ["if_false " + c.value + " goto " + Label(n + 1)] && cj.next == n + 2 + OpCount(s.cond);
    var t := GenBlock(s.thenBranch, cj.next);
    var el := if s.elseBranch.Else? && |s.elseBranch.stmts| > 0 then GenBlock(s.elseBranch.stmts, t.next) else Code([], t.next);
    e := el.lines;
    IfIsGenIf(s, n);
    assert GenStmt(s, n).lines == cj.lines + t.lines + ["goto " + Label(n + 2), Label(n + 1) + ":"] + el.lines + [Label(n + 2) + ":"];
  }

  /** A conditional jump is the condition's code and then `if_false <value> goto <target>`. */
  lemma {:induction false} CondJumpLines(cond: Expr, n: nat, target: string)
    ensures CondJump(cond, n, target).lines == GenExpr(cond, n).code + ["if_false " + GenExpr(cond, n).value + " goto " + target]
  {
  }

  lemma {:induction false} WhileIsGenWhile(s: Stmt, n: nat)
    requires s.While?
    ensures GenStmt(s, n) == GenWhile(s, n)
  {
  }

  lemma {:induction false} IfIsGenIf(s: Stmt, n: nat)
    requires s.If?
    ensures GenStmt(s, n) == GenIf(s, n)
  {
  }

  /**
   * The `while` layout: `<start>:`, the condition's code,
   * `if_false <c> goto <end>`, the body, `goto <start>`, `<end>:`.
   */
  lemma {:induction false} WhileLayout(s: Stmt, n: nat)
    requires s.While?
    ensures |GenStmt(s, n).lines| == OpCount(s.cond) + |GenBlock(s.body, n + 2 + OpCount(s.cond)).lines| + 4
    ensures GenStmt(s, n).lines[0] == Label(n + 1) + ":"
    ensures GenStmt(s, n).lines[1..OpCount(s.cond) + 1] == GenExpr(s.cond, n + 2).code
    ensures GenStmt(s, n).lines[OpCount(s.cond) + 1] == "if_false " + GenExpr(s.cond, n + 2).value + " goto " + Label(n + 2)
    ensures GenStmt(s, n).lines[OpCount(s.cond) + 2..OpCount(s.cond) + 2 + |GenBlock(s.body, n + 2 + OpCount(s.cond)).lines|]
      == GenBlock(s.body, n + 2 + OpCount(s.cond)).lines
    ensures GenStmt(s, n).lines[|GenStmt(s, n).lines| - 2] == "goto " + Label(n + 1)
    ensures GenStmt(s, n).lines[|GenStmt(s, n).lines| - 1] == Label(n + 2) + ":"
  {
    var c := GenExpr(s.cond, n + 2);
    var b := GenBlock(s.body, c.next);
    var jump := "if_false " + c.value + " goto " + Label(n + 2);
    CondJumpLines(s.cond, n + 2, Label(n + 2));
    WhileIsGenWhile(s, n);
    assert GenStmt(s, n).lines == [Label(n + 1) + ":"] + (c.code + [jump]) + b.lines + ["goto " + Label(n + 1), Label(n + 2) + ":"];
    WhileParts(Label(n + 1) + ":", c.code, jump, b.lines, "goto " + Label(n + 1), Label(n + 2) + ":");
  }

  /**
   * A call takes exactly one temporary, the next counter value: the first
   * line assigns the call's result to it and the second copies it into the
   * target. With no arguments the first line still ends in `", "`; with one
   * argument it is that argument alone.
   */
  lemma {:induction false} CallLines(target: string, c: FunctionCall, n: nat)
    ensures GenStmt(Call(target, c), n).next == n + 1 && |GenStmt(Call(target, c), n).lines| == 2
    ensures StartsWith(GenStmt(Call(target, c), n).lines[0], Temp(n + 1) + " = call " + c.name + ", ")
    ensures c.args == [] ==> GenStmt(Call(target, c), n).lines[0] == Temp(n + 1) + " = call " + c.name + ", "
    ensures |c.args| == 1 ==> GenStmt(Call(target, c), n).lines[0] == Temp(n + 1) + " = call " + c.name + ", " + c.args[0]
    ensures target != "" ==> GenStmt(Call(target, c), n).lines[1] == target + " = " + Temp(n + 1)
    ensures target == "" ==> GenStmt(Call(target, c), n).lines[1] == "= = " + Temp(n + 1)
  {
    var head := Temp(n + 1) + " = call " + c.name + ", ";
    assert GenStmt(Call(target, c), n).lines[0] == head + JoinComma(c.args);
    assert (head + JoinComma(c.args))[..|head|] == head;
  }

  /** Two concrete calls from a fresh counter: `z = f(a, b)` and `z = f()`. */
  lemma {:induction false} CallExamples()
    ensures GenStmt(Call("z", FunctionCall("f", ["a", "b"])), 0) == Code(["t1 = call f, a, b", "z = t1"], 1)
    ensures GenStmt(Call("z", FunctionCall("f", [])), 0) == Code(["t1 = call f, ", "z = t1"], 1)
  {
    assert JoinComma(["a", "b"]) == "a, b" by {
      assert ["a", "b"][1..] == ["b"];
    }
    assert Temp(1) == "t1" by {
      assert NatStr(1) == "1";
    }
    assert JoinComma([]) == "";
    assert "t1" + " = call " + "f" + ", " + "a, b" == "t1 = call f, a, b";
    assert "t1" + " = call " + "f" + ", " + "" == "t1 = call f, ";
    assert CallTarget("z") + " = " + "t1" == "z = t1";
  }

  // ------------------------------------------------------------------ fresh names across a run

  /** Generating two blocks in a row prints what generating them as one block prints. */
  lemma {:induction false} GenBlockSplit(ss: seq<Stmt>, ts: seq<Stmt>, n: nat)
    ensures var a := GenBlock(ss, n); var b := GenBlock(ts, a.next);
      GenBlock(ss + ts, n) == Code(a.lines + b.lines, b.next)
    decreases |ss|
  {
    if |ss| == 0 {
      assert ss + ts == ts;
    } else {
      assert (ss + ts)[0] == ss[0] && (ss + ts)[1..] == ss[1..] + ts;
      GenBlockSplit(ss[1..], ts, GenStmt(ss[0], n).next);
      var h := GenStmt(ss[0], n).lines;
      var a := GenBlock(ss[1..], GenStmt(ss[0], n).next);
      var b := GenBlock(ts, a.next);
      assert h + (a.lines + b.lines) == (h + a.lines) + b.lines;
    }
  }

  /** Generating two function lists in a row prints what generating them as one list prints. */
  lemma {:induction false} GenProgramSplit(fs: seq<Function>, gs: seq<Function>, n: nat)
    ensures var a := GenProgram(fs, n); var b := GenProgram(gs, a.next);
      GenProgram(fs + gs, n) == Code(a.lines + b.lines, b.next)
    decreases |fs|
  {
    if |fs| == 0 {
      assert fs + gs == gs;
    } else {
      assert (fs + gs)[0] == fs[0] && (fs + gs)[1..] == fs[1..] + gs;
      var h := ["# Function: " + fs[0].name] + GenBlock(fs[0].body, n).lines;
      GenProgramSplit(fs[1..], gs, GenBlock(fs[0].body, n).next);
      var a := GenProgram(fs[1..], GenBlock(fs[0].body, n).next);
      var b := GenProgram(gs, a.next);
      assert h + (a.lines + b.lines) == (h + a.lines) + b.lines;
    }
  }

  /** The temporaries `t<m+1>`, ..., `t<m+k>`. */
  function Temps(m: nat, k: nat): seq<string> {
    seq(k, i requires 0 <= i < k => Temp(m + 1 + i))
  }

  /**
   * The temporaries and labels a statement mints, in the order it calls
   * `new_temp`: an operator node's temporary, a call's result, the two
   * labels an `if` or a `while` takes before its condition.
   */
  function Minted(s: Stmt, n: nat): seq<string>
    decreases s, 1
  {
    match s
    case Declare(t, x, e) => if t == "" || x == "" then [] else Temps(n, OpCount(e))
    case Assign(x, e) => if x == "" then [] else Temps(n, OpCount(e))
    case Return(e) => Temps(n, OpCount(e))
    case Call(_, _) => [Temp(n + 1)]
    case If(c, th, el) =>
      var m := n + 2 + OpCount(c);
      [Label(n + 1), Label(n + 2)] + Temps(n + 2, OpCount(c)) + MintedBlock(th, m)
        + if el.Else? && |el.stmts| > 0 then MintedBlock(el.stmts, m + UsesBlock(th)) else []
    case While(c, body) => [Label(n + 1), Label(n + 2)] + Temps(n + 2, OpCount(c)) + MintedBlock(body, n + 2 + OpCount(c))
  }

  function MintedBlock(ss: seq<Stmt>, n: nat): seq<string>
    decreases ss, 0
  {
    if |ss| == 0 then [] else Minted(ss[0], n) + MintedBlock(ss[1..], n + Uses(ss[0]))
  }

  function MintedProgram(fs: seq<Function>, n: nat): seq<string>
    decreases |fs|
  {
    if |fs| == 0 then [] else MintedBlock(fs[0].body, n) + MintedProgram(fs[1..], n + UsesBlock(fs[0].body))
  }

  /** The `i`-th name is the temporary or the label of counter value `n + 1 + i`. */
  predicate Numbered(names: seq<string>, n: nat) {
    forall i :: 0 <= i < |names| ==> names[i] == Temp(n + 1 + i) || names[i] == Label(n + 1 + i)
  }

  predicate Distinct(names: seq<string>) {
    forall i, j :: 0 <= i < j < |names| ==> names[i] != names[j]
  }

  lemma {:induction false} NumberedConcat(a: seq<string>, b: seq<string>, n: nat)
    requires Numbered(a, n) && Numbered(b, n + |a|)
    ensures Numbered(a + b, n)
  {
    forall i | 0 <= i < |a + b|
      ensures (a + b)[i] == Temp(n + 1 + i) || (a + b)[i] == Label(n + 1 + i)
    {
      if i >= |a| {
        assert (a + b)[i] == b[i - |a|];
      }
    }
  }

  /** Names drawn from distinct counter values are distinct. */
  lemma {:induction false} NumberedDistinct(names: seq<string>, n: nat)
    requires Numbered(names, n)
    ensures Distinct(names)
  {
    forall i, j | 0 <= i < j < |names|
      ensures names[i] != names[j]
    {
      TempInjective(n + 1 + i, n + 1 + j);
      LabelsAreNotTemps(n + 1 + i, n + 1 + j);
      LabelsAreNotTemps(n + 1 + j, n + 1 + i);
    }
  }

  /**
   * A statement mints one name per counter value it takes, in counter order:
   * the `i`-th is `t<n+1+i>` or `Lt<n+1+i>`, so all lie between the counter
   * before and after it.
   */
  lemma {:induction false} MintedNumbered(s: Stmt, n: nat)
    ensures |Minted(s, n)| == Uses(s) && Numbered(Minted(s, n), n)
    decreases s, 2
  {
    match s
    case Declare(_, _, _) =>
    case Assign(_, _) =>
    case Return(_) =>
    case Call(_, _) =>
    case If(_, _, _) => IfMintedNumbered(s, n);
    case While(_, _) => WhileMintedNumbered(s, n);
  }

  /** Two labels, a condition's temporaries and then what follows, each on the counter after the last. */
  lemma {:induction false} HeadNumbered(n: nat, k: nat, rest: seq<string>)
    requires Numbered(rest, n + 2 + k)
    ensures Numbered([Label(n + 1), Label(n + 2)] + Temps(n + 2, k) + rest, n)
  {
    var labels, temps := [Label(n + 1), Label(n + 2)], Temps(n + 2, k);
    assert Numbered(labels, n);
    NumberedConcat(labels, temps, n);
    NumberedConcat(labels + temps, rest, n);
  }

  /** The names of an `if`: its labels, its condition's temporaries, its then-branch's and its else-branch's names. */
  lemma {:induction false} IfNumberedFrom(names: seq<string>, n: nat, k: nat, th: seq<string>, el: seq<string>)
    requires names == [Label(n + 1), Label(n + 2)] + Temps(n + 2, k) + th + el
    requires Numbered(th, n + 2 + k) && Numbered(el, n + 2 + k + |th|)
    ensures |names| == 2 + k + |th| + |el| && Numbered(names, n)
  {
    HeadNumbered(n, k, th);
    NumberedConcat([Label(n + 1), Label(n + 2)] + Temps(n + 2, k) + th, el, n);
  }

  lemma {:induction false} IfMintedNumbered(s: Stmt, n: nat)
    requires s.If?
    ensures |Minted(s, n)| == Uses(s) && Numbered(Minted(s, n), n)
    decreases s, 1
  {
    if s.elseBranch.Else? && |s.elseBranch.stmts| > 0 {
      IfElseMintedNumbered(s, n);
    } else {
      IfThenMintedNumbered(s, n);
    }
  }

  lemma {:induction false} IfElseMintedNumbered(s: Stmt, n: nat)
    requires s.If? && s.elseBranch.Else? && |s.elseBranch.stmts| > 0
    ensures |Minted(s, n)| == Uses(s) && Numbered(Minted(s, n), n)
    decreases s, 0
  {
    var k := OpCount(s.cond);
    var m := n + 2 + k;
    MintedIfElse(s, n, m, m + UsesBlock(s.thenBranch));
    MintedBlockNumbered(s.thenBranch, m);
    MintedBlockNumbered(s.elseBranch.stmts, m + UsesBlock(s.thenBranch));
    IfNumberedFrom(Minted(s, n), n, k, MintedBlock(s.thenBranch, m), MintedBlock(s.elseBranch.stmts, m + UsesBlock(s.thenBranch)));
  }

  lemma {:induction false} IfThenMintedNumbered(s: Stmt, n: nat)
    requires s.If? && !(s.elseBranch.Else? && |s.elseBranch.stmts| > 0)
    ensures |Minted(s, n)| == Uses(s) && Numbered(Minted(s, n), n)
    decreases s, 0
  {
    var k := OpCount(s.cond);
    var m := n + 2 + k;
    MintedIfThen(s, n, m);
    MintedBlockNumbered(s.thenBranch, m);
    IfNumberedFrom(Minted(s, n), n, k, MintedBlock(s.thenBranch, m), []);
  }

  lemma {:induction false} WhileMintedNumbered(s: Stmt, n: nat)
    requires s.While?
    ensures |Minted(s, n)| == Uses(s) && Numbered(Minted(s, n), n)
    decreases s, 0
  {
    var k := OpCount(s.cond);
    MintedBlockNumbered(s.body, n + 2 + k);
    HeadNumbered(n, k, MintedBlock(s.body, n + 2 + k));
  }

  lemma {:induction false} MintedBlockNumbered(ss: seq<Stmt>, n: nat)
    ensures |MintedBlock(ss, n)| == UsesBlock(ss) && Numbered(MintedBlock(ss, n), n)
    decreases ss, 0
  {
    if |ss| > 0 {
      MintedNumbered(ss[0], n);
      MintedBlockNumbered(ss[1..], n + Uses(ss[0]));
      NumberedConcat(Minted(ss[0], n), MintedBlock(ss[1..], n + Uses(ss[0])), n);
    }
  }

  lemma {:induction false} MintedProgramNumbered(fs: seq<Function>, n: nat)
    ensures |MintedProgram(fs, n)| == UsesProgram(fs) && Numbered(MintedProgram(fs, n), n)
    decreases |fs|
  {
    if |fs| > 0 {
      MintedBlockNumbered(fs[0].body, n);
      MintedProgramNumbered(fs[1..], n + UsesBlock(fs[0].body));
      NumberedConcat(MintedBlock(fs[0].body, n), MintedProgram(fs[1..], n + UsesBlock(fs[0].body)), n);
    }
  }

  /** Some line assigns `x` (`x = ...`) or places it as a label (`x:`). */
  predicate Defines(lines: seq<string>, x: string) {
    exists j :: 0 <= j < |lines| && (StartsWith(lines[j], x + " = ") || lines[j] == x + ":")
  }

  predicate DefinesAll(lines: seq<string>, names: seq<string>) {
    forall x :: x in names ==> Defines(lines, x)
  }

  /** What a stretch of the lines defines, the lines define. */
  lemma {:induction false} SliceDefines(lines: seq<string>, off: nat, part: seq<string>, names: seq<string>)
    requires off + |part| <= |lines| && lines[off..off + |part|] == part
    requires DefinesAll(part, names)
    ensures DefinesAll(lines, names)
  {
    forall x | x in names
      ensures Defines(lines, x)
    {
      var j :| 0 <= j < |part| && (StartsWith(part[j], x + " = ") || part[j] == x + ":");
      assert lines[off + j] == part[j];
    }
  }

  /** An expression's code assigns every temporary it mints. */
  lemma {:induction false} ExprDefinesTemps(e: Expr, n: nat)
    ensures DefinesAll(GenExpr(e, n).code, Temps(n, OpCount(e)))
  {
    var code := GenExpr(e, n).code;
    ExprMintsInOrder(e, n);
    forall x | x in Temps(n, OpCount(e))
      ensures Defines(code, x)
    {
      var i :| 0 <= i < OpCount(e) && Temps(n, OpCount(e))[i] == x;
      assert StartsWith(code[i], x + " = ");
    }
  }

  /** Every name a statement mints is assigned or placed as a label by one of its lines. */
  lemma {:induction false} MintedDefined(s: Stmt, n: nat)
    ensures DefinesAll(GenStmt(s, n).lines, Minted(s, n))
    decreases s, 2
  {
    match s
    case Declare(t, x, e) =>
      if t != "" && x != "" && Truthy(e) {
        AssignmentLayout(s, n);
        ExprDefinesTemps(e, n);
        SliceDefines(GenStmt(s, n).lines, 0, GenExpr(e, n).code, Minted(s, n));
      }
    case Assign(x, e) =>
      if x != "" && Truthy(e) {
        AssignmentLayout(s, n);
        ExprDefinesTemps(e, n);
        SliceDefines(GenStmt(s, n).lines, 0, GenExpr(e, n).code, Minted(s, n));
      }
    case Return(e) =>
      if Truthy(e) {
        ExprDefinesTemps(e, n);
        SliceDefines(GenStmt(s, n).lines, 0, GenExpr(e, n).code, Minted(s, n));
      }
    case Call(target, call) =>
      var line := GenStmt(s, n).lines[0];
      assert line == (Temp(n + 1) + " = ") + ("call " + call.name + ", " + JoinComma(call.args));
      PrefixOfConcat(Temp(n + 1) + " = ", "call " + call.name + ", " + JoinComma(call.args));
    case If(_, _, _) =>
      IfDefinesMinted(s, n);
    case While(_, _) =>
      WhileDefinesMinted(s, n);
  }

  /** A label line defines its label. */
  lemma {:induction false} LabelLineDefines(lines: seq<string>, i: nat, x: string)
    requires i < |lines| && lines[i] == x + ":"
    ensures Defines(lines, x)
  {
  }

  /** What the parts of the `while` layout define, the whole layout defines. */
  lemma {:induction false} WhilePartsDefine(l1: string, a: seq<string>, jump: string, b: seq<string>, back: string,
                                            l2: string, na: seq<string>, nb: seq<string>)
    requires DefinesAll(a, na) && DefinesAll(b, nb)
    ensures DefinesAll([l1 + ":"] + (a + [jump]) + b + [back, l2 + ":"], [l1, l2] + na + nb)
  {
    var lines := [l1 + ":"] + (a + [jump]) + b + [back, l2 + ":"];
    WhileParts(l1 + ":", a, jump, b, back, l2 + ":");
    SliceDefines(lines, 1, a, na);
    SliceDefines(lines, |a| + 2, b, nb);
    LabelLineDefines(lines, 0, l1);
    LabelLineDefines(lines, |lines| - 1, l2);
  }

  lemma {:induction false} IfDefinesMinted(s: Stmt, n: nat)
    requires s.If?
    ensures DefinesAll(GenStmt(s, n).lines, Minted(s, n))
    decreases s, 1
  {
    if s.elseBranch.Else? && |s.elseBranch.stmts| > 0 {
      IfElseDefinesMinted(s, n);
    } else {
      IfThenDefinesMinted(s, n);
    }
  }

  /** An `if` whose else-branch has statements. */
  lemma {:induction false} IfElseDefinesMinted(s: Stmt, n: nat)
    requires s.If? && s.elseBranch.Else? && |s.elseBranch.stmts| > 0
    ensures DefinesAll(GenStmt(s, n).lines, Minted(s, n))
    decreases s, 0
  {
    var k := OpCount(s.cond);
    var cj := CondJump(s.cond, n + 2, Label(n + 1));
    var t := GenBlock(s.thenBranch, cj.next);
    var e := GenBlock(s.elseBranch.stmts, t.next);
    IfIsGenIf(s, n);
    assert GenIf(s, n).lines == cj.lines + t.lines + ["goto " + Label(n + 2), Label(n + 1) + ":"] + e.lines + [Label(n + 2) + ":"];
    MintedIfElse(s, n, cj.next, t.next);
    CondJumpDefines(s.cond, n + 2, Label(n + 1));
    MintedBlockDefined(s.thenBranch, cj.next);
    MintedBlockDefined(s.elseBranch.stmts, t.next);
    IfDefinesFrom(GenIf(s, n).lines, Minted(s, n), cj.lines, t.lines, "goto " + Label(n + 2), e.lines, Label(n + 1), Label(n + 2),
                  Temps(n + 2, k), MintedBlock(s.thenBranch, cj.next), MintedBlock(s.elseBranch.stmts, t.next));
  }

  /** An `if` with no else-branch, or an empty one. */
  lemma {:induction false} IfThenDefinesMinted(s: Stmt, n: nat)
    requires s.If? && !(s.elseBranch.Else? && |s.elseBranch.stmts| > 0)
    ensures DefinesAll(GenStmt(s, n).lines, Minted(s, n))
    decreases s, 0
  {
    var k := OpCount(s.cond);
    var cj := CondJump(s.cond, n + 2, Label(n + 1));
    var t := GenBlock(s.thenBranch, cj.next);
    IfIsGenIf(s, n);
    assert GenIf(s, n).lines == cj.lines + t.lines + ["goto " + Label(n + 2), Label(n + 1) + ":"] + [] + [Label(n + 2) + ":"];
    MintedIfThen(s, n, cj.next);
    CondJumpDefines(s.cond, n + 2, Label(n + 1));
    MintedBlockDefined(s.thenBranch, cj.next);
    IfDefinesFrom(GenIf(s, n).lines, Minted(s, n), cj.lines, t.lines, "goto " + Label(n + 2), [], Label(n + 1), Label(n + 2),
                  Temps(n + 2, k), MintedBlock(s.thenBranch, cj.next), []);
  }

  /** A conditional jump's lines assign the condition's temporaries. */
  lemma {:induction false} CondJumpDefines(cond: Expr, n: nat, target: string)
    ensures DefinesAll(CondJump(cond, n, target).lines, Temps(n, OpCount(cond)))
  {
    var c := GenExpr(cond, n);
    CondJumpLines(cond, n, target);
    ExprDefinesTemps(cond, n);
    assert (c.code + ["if_false " + c.value + " goto " + target])[..|c.code|] == c.code;
    SliceDefines(CondJump(cond, n, target).lines, 0, c.code, Temps(n, OpCount(cond)));
  }

  /** What the parts of the `if` layout define, the whole layout defines. */
  lemma {:induction false} IfDefinesFrom(lines: seq<string>, names: seq<string>, a: seq<string>, b: seq<string>, skip: string,
                                         c: seq<string>, l1: string, l2: string, na: seq<string>, nb: seq<string>, nc: seq<string>)
    requires lines == a + b + [skip, l1 + ":"] + c + [l2 + ":"]
    requires names == [l1, l2] + na + nb + nc
    requires DefinesAll(a, na) && DefinesAll(b, nb) && DefinesAll(c, nc)
    ensures DefinesAll(lines, names)
  {
    assert lines == a + (b + ([skip, l1 + ":"] + (c + [l2 + ":"])));
    assert lines[..|a|] == a;
    assert lines[|a|..] == b + ([skip, l1 + ":"] + (c + [l2 + ":"]));
    assert lines[|a|..|a| + |b|] == b;
    assert lines[|a| + |b| + 2..] == c + [l2 + ":"];
    assert lines[|a| + |b| + 2..|a| + |b| + 2 + |c|] == c;
    SliceDefines(lines, 0, a, na);
    SliceDefines(lines, |a|, b, nb);
    SliceDefines(lines, |a| + |b| + 2, c, nc);
    LabelLineDefines(lines, |a| + |b| + 1, l1);
    LabelLineDefines(lines, |lines| - 1, l2);
  }

  /** What an `if` with a non-empty else-branch mints; `m` and `k` are the counter before each branch. */
  lemma {:induction false} MintedIfElse(s: Stmt, n: nat, m: nat, k: nat)
    requires s.If? && s.elseBranch.Else? && |s.elseBranch.stmts| > 0
    requires m == n + 2 + OpCount(s.cond) && k == m + UsesBlock(s.thenBranch)
    ensures Minted(s, n) == [Label(n + 1), Label(n + 2)] + Temps(n + 2, OpCount(s.cond)) + MintedBlock(s.thenBranch, m)
      + MintedBlock(s.elseBranch.stmts, k)
  {
  }

  /** What an `if` without else-branch statements mints; `m` is the counter before the then-branch. */
  lemma {:induction false} MintedIfThen(s: Stmt, n: nat, m: nat)
    requires s.If? && !(s.elseBranch.Else? && |s.elseBranch.stmts| > 0)
    requires m == n + 2 + OpCount(s.cond)
    ensures Minted(s, n) == [Label(n + 1), Label(n + 2)] + Temps(n + 2, OpCount(s.cond)) + MintedBlock(s.thenBranch, m) + []
  {
  }

  lemma {:induction false} WhileDefinesMinted(s: Stmt, n: nat)
    requires s.While?
    ensures DefinesAll(GenStmt(s, n).lines, Minted(s, n))
    decreases s, 0
  {
    var k := OpCount(s.cond);
    var c := GenExpr(s.cond, n + 2);
    var b := GenBlock(s.body, n + 2 + k);
    var jump := "if_false " + c.value + " goto " + Label(n + 2);
    ExprDefinesTemps(s.cond, n + 2);
    MintedBlockDefined(s.body, n + 2 + k);
    CondJumpLines(s.cond, n + 2, Label(n + 2));
    WhileIsGenWhile(s, n);
    WhileDefinesFrom(GenStmt(s, n).lines, Minted(s, n), Label(n + 1), c.code, jump, b.lines, "goto " + Label(n + 1), Label(n + 2),
                     Temps(n + 2, k), MintedBlock(s.body, n + 2 + k));
  }

  lemma {:induction false} WhileDefinesFrom(lines: seq<string>, names: seq<string>, l1: string, a: seq<string>, jump: string,
                                            b: seq<string>, back: string, l2: string, na: seq<string>, nb: seq<string>)
    requires lines == [l1 + ":"] + (a + [jump]) + b + [back, l2 + ":"]
    requires names == [l1, l2] + na + nb
    requires DefinesAll(a, na) && DefinesAll(b, nb)
    ensures DefinesAll(lines, names)
  {
    WhilePartsDefine(l1, a, jump, b, back, l2, na, nb);
  }

  lemma {:induction false} MintedBlockDefined(ss: seq<Stmt>, n: nat)
    ensures DefinesAll(GenBlock(ss, n).lines, MintedBlock(ss, n))
    decreases ss, 0
  {
    if |ss| > 0 {
      var a := GenStmt(ss[0], n);
      var b := GenBlock(ss[1..], a.next);
      MintedDefined(ss[0], n);
      MintedBlockDefined(ss[1..], a.next);
      assert (a.lines + b.lines)[..|a.lines|] == a.lines;
      assert (a.lines + b.lines)[|a.lines|..|a.lines| + |b.lines|] == b.lines;
      SliceDefines(a.lines + b.lines, 0, a.lines, Minted(ss[0], n));
      SliceDefines(a.lines + b.lines, |a.lines|, b.lines, MintedBlock(ss[1..], a.next));
    }
  }

  lemma {:induction false} MintedProgramDefined(fs: seq<Function>, n: nat)
    ensures DefinesAll(GenProgram(fs, n).lines, MintedProgram(fs, n))
    decreases |fs|
  {
    if |fs| > 0 {
      var b := GenBlock(fs[0].body, n);
      var rest := GenProgram(fs[1..], b.next);
      var lines := ["# Function: " + fs[0].name] + b.lines + rest.lines;
      MintedBlockDefined(fs[0].body, n);
      MintedProgramDefined(fs[1..], b.next);
      assert lines[1..1 + |b.lines|] == b.lines;
      assert lines[1 + |b.lines|..1 + |b.lines| + |rest.lines|] == rest.lines;
      SliceDefines(lines, 1, b.lines, MintedBlock(fs[0].body, n));
      SliceDefines(lines, 1 + |b.lines|, rest.lines, MintedProgram(fs[1..], b.next));
    }
  }

  /**
   * One run of `generate_intermediate_code` from counter `n`: every name it
   * mints is assigned or placed by one of its lines, is `t<k>` or `Lt<k>`
   * for a `k` the run takes from the counter, and no name is minted twice.
   */
  lemma {:induction false} RunMintsFresh(fs: seq<Function>, n: nat)
    ensures |MintedProgram(fs, n)| == GenProgram(fs, n).next - n
    ensures Numbered(MintedProgram(fs, n), n)
    ensures Distinct(MintedProgram(fs, n))
    ensures DefinesAll(GenProgram(fs, n).lines, MintedProgram(fs, n))
  {
    MintedProgramNumbered(fs, n);
    NumberedDistinct(MintedProgram(fs, n), n);
    MintedProgramDefined(fs, n);
  }

  /** In a list without repeats, nothing in the front part is in the back part. */
  lemma {:induction false} DistinctHalves(a: seq<string>, b: seq<string>)
    requires Distinct(a + b)
    ensures forall x :: x in a ==> x !in b
  {
    forall x | x in a
      ensures x !in b
    {
      var i :| 0 <= i < |a| && a[i] == x;
      forall j | 0 <= j < |b|
        ensures b[j] != x
      {
        assert (a + b)[i] == a[i] && (a + b)[|a| + j] == b[j];
      }
    }
  }

  /**
   * Two runs in a row, the second going on from the counter the first left
   * (it is never reset): together they print what one run over both
   * programs prints, and no name the second mints was minted by the first.
   */
  lemma {:induction false} TwoRunsMintFresh(fs: seq<Function>, gs: seq<Function>, n: nat)
    ensures var m := GenProgram(fs, n).next;
      GenProgram(fs, n).lines + GenProgram(gs, m).lines == GenProgram(fs + gs, n).lines
    ensures var m := GenProgram(fs, n).next;
      Distinct(MintedProgram(fs, n) + MintedProgram(gs, m))
    ensures var m := GenProgram(fs, n).next;
      forall x :: x in MintedProgram(fs, n) ==> x !in MintedProgram(gs, m)
  {
    var m := GenProgram(fs, n).next;
    GenProgramSplit(fs, gs, n);
    RunMintsFresh(fs, n);
    RunMintsFresh(gs, m);
    NumberedConcat(MintedProgram(fs, n), MintedProgram(gs, m), n);
    NumberedDistinct(MintedProgram(fs, n) + MintedProgram(gs, m), n);
    DistinctHalves(MintedProgram(fs, n), MintedProgram(gs, m));
  }

  // ------------------------------------------------------------------ whole programs

  const AddProgram := [Function("int", "add", [Param("int", "a"), Param("int", "b")],
    [Return(Binary(Leaf("a"), "+", Leaf("b")))])]

  /** Generating `int add(int a, int b) { return a + b; }` with the counter at `n`. */
  lemma {:induction false} AddCodeFrom(n: nat)
    ensures GenProgram(AddProgram, n) == Code(["# Function: add", Temp(n + 1) + " = a + b", "return " + Temp(n + 1)], n + 1)
  {
    var e := Binary(Leaf("a"), "+", Leaf("b"));
    assert GenExpr(Leaf("a"), n) == ExprCode([], "a", n);
    assert GenExpr(Leaf("b"), n) == ExprCode([], "b", n);
    assert Temp(n + 1) + " = " + "a" + " " + "+" + " " + "b" == Temp(n + 1) + " = a + b";
    assert GenExpr(e, n) == ExprCode([] + [] + [Temp(n + 1) + " = a + b"], Temp(n + 1), n + 1);
    var body := [Return(e)];
    assert body[1..] == [];
    assert GenBlock(body, n) == Code([Temp(n + 1) + " = a + b", "return " + Temp(n + 1)], n + 1);
    assert AddProgram[1..] == [] && AddProgram[0].body == body;
    assert "# Function: " + "add" == "# Function: add";
    assert GenProgram(AddProgram, n) == Code(["# Function: add"] + GenBlock(body, n).lines + [], n + 1);
  }

  /** `int add(int a, int b) { return a + b; }` on a fresh counter. */
  lemma {:induction false} AddCode()
    ensures GenProgram(AddProgram, 0) == Code(["# Function: add", "t1 = a + b", "return t1"], 1)
  {
    AddCodeFrom(0);
    assert Temp(1) == "t1" by {
      assert NatStr(1) == "1";
    }
    assert Temp(1) + " = a + b" == "t1 = a + b" && "return " + Temp(1) == "return t1";
    assert ["# Function: add", Temp(1) + " = a + b", "return " + Temp(1)] == ["# Function: add", "t1 = a + b", "return t1"];
  }

  /** The counter is never reset: generating the same program again renames its temporaries. */
  lemma {:induction false} AddCodeAgain()
    ensures GenProgram(AddProgram, 1) == Code(["# Function: add", "t2 = a + b", "return t2"], 2)
  {
    AddCodeFrom(1);
    assert Temp(2) == "t2" by {
      assert NatStr(2) == "2";
    }
    assert Temp(2) + " = a + b" == "t2 = a + b" && "return " + Temp(2) == "return t2";
    assert ["# Function: add", Temp(2) + " = a + b", "return " + Temp(2)] == ["# Function: add", "t2 = a + b", "return t2"];
  }

  /** `int f() { int x = 5; if (x) { return x; } else { return x; } }`. */
  lemma {:induction false} IfElseCode()
    ensures GenBlock([Declare("int", "x", Leaf("5")), If(Leaf("x"), [Return(Leaf("x"))], Else([Return(Leaf("x"))]))], 0).lines
      == ["x = 5", "if_false x goto Lt1", "return x", "goto Lt2", "Lt1:", "return x", "Lt2:"]
  {
    var ret := [Return(Leaf("x"))];
    var s := If(Leaf("x"), ret, Else(ret));
    var ss := [Declare("int", "x", Leaf("5")), s];
    ScenarioIf();
    assert GenExpr(Leaf("5"), 0) == ExprCode([], "5", 0);
    assert "x" + " = " + "5" == "x = 5";
    assert GenStmt(ss[0], 0) == Code([] + ["x = 5"], 0);
    assert ss[1..] == [s] && [s][1..] == [];
    assert GenBlock(ss[1..], 0).lines == GenStmt(s, 0).lines + [];
  }

  /** The `if` of `int f() { int x = 5; if (x) … else … }`, with both labels and the jumps between the branches. */
  lemma {:induction false} ScenarioIf()
    ensures GenStmt(If(Leaf("x"), [Return(Leaf("x"))], Else([Return(Leaf("x"))])), 0).lines
      == ["if_false x goto Lt1", "return x", "goto Lt2", "Lt1:", "return x", "Lt2:"]
  {
    var ret := [Return(Leaf("x"))];
    var s := If(Leaf("x"), ret, Else(ret));
    ScenarioReturn();
    var e := IfLines(s, 0);
    assert GenExpr(Leaf("x"), 2) == ExprCode([], "x", 2);
    assert Label(1) == "Lt1" && Label(2) == "Lt2" by {
      assert NatStr(1) == "1" && NatStr(2) == "2";
    }
    assert "if_false " + "x" + " goto " + "Lt1" == "if_false x goto Lt1";
    assert "goto " + "Lt2" == "goto Lt2" && "Lt1" + ":" == "Lt1:" && "Lt2" + ":" == "Lt2:";
    assert GenStmt(s, 0).lines == [] + ["if_false x goto Lt1"] + ["return x"] + ["goto Lt2", "Lt1:"] + ["return x"] + ["Lt2:"];
  }

  /** The branches of that `if`: `return x` takes no temporary. */
  lemma {:induction false} ScenarioReturn()
    ensures GenBlock([Return(Leaf("x"))], 2) == Code(["return x"], 2)
  {
    var ret := [Return(Leaf("x"))];
    assert GenExpr(Leaf("x"), 2) == ExprCode([], "x", 2);
    assert "return " + "x" == "return x";
    assert GenStmt(ret[0], 2) == Code([] + ["return x"], 2);
    assert ret[1..] == [];
    assert GenBlock(ret, 2) == Code(["return x"] + [], 2);
  }
}
