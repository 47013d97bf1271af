/**
 * What the semantic analyzer promises, stated over `CheckStmt`, `CheckBlock`,
 * `Collect` and `CheckFunctions` (which the methods of `Semantics` are proved
 * to compute).
 */
module SemanticsProperties {
  import opened Strings
  import opened Ast
  import opened SymbolTables
  import opened Semantics

  // ------------------------------------------------------------------ numeric literals

  function FirstDot(s: string): (k: nat)
    requires '.' in s
    ensures k < |s| && s[k] == '.' && forall j :: 0 <= j < k ==> s[j] != '.'
  {
    if s[0] == '.' then 0 else 1 + FirstDot(s[1..])
  }

  lemma {:induction false} DropFirstDotAt(s: string, k: nat)
    requires k < |s| && s[k] == '.' && forall j :: 0 <= j < k ==> s[j] != '.'
    ensures DropFirstDot(s) == s[..k] + s[k + 1..]
    decreases k
  {
    if k > 0 {
      DropFirstDotAt(s[1..], k - 1);
      assert s[1..][..k - 1] == s[1..k] && s[1..][k..] == s[k + 1..];
      assert s[..k] == [s[0]] + s[1..k];
    }
  }

  lemma {:induction false} AllDigitsConcat(a: string, b: string)
    ensures AllDigits(a + b) <==> AllDigits(a) && AllDigits(b)
  {
    if AllDigits(a) && AllDigits(b) {
      forall i | 0 <= i < |a + b| ensures IsDigit((a + b)[i]) {
        if i >= |a| {
          assert (a + b)[i] == b[i - |a|];
        }
      }
    }
    if AllDigits(a + b) {
      forall i | 0 <= i < |a| ensures IsDigit(a[i]) {
        assert a[i] == (a + b)[i];
      }
      forall i | 0 <= i < |b| ensures IsDigit(b[i]) {
        assert b[i] == (a + b)[|a| + i];
      }
    }
  }

  /**
   * The returned-literal test: a non-empty run of digits, or digits with
   * exactly one dot somewhere among them (`1.`, `.5` and `1.5` are literals,
   * `.` and `1.2.3` are not).
   */
  lemma {:induction false} NumericLiteral(s: string)
    ensures IsNumeric(s) <==>
      (|s| > 0 && AllDigits(s)) ||
      (|s| > 1 && exists k :: 0 <= k < |s| && s[k] == '.' && AllDigits(s[..k]) && AllDigits(s[k + 1..]))
  {
    if '.' in s {
      var k := FirstDot(s);
      DropFirstDotAt(s, k);
      AllDigitsConcat(s[..k], s[k + 1..]);
      assert !AllDigits(s) by { assert !IsDigit(s[k]); }
      if IsNumeric(s) {
        assert s[k] == '.' && AllDigits(s[..k]) && AllDigits(s[k + 1..]);
      }
    } else {
      assert forall k :: 0 <= k < |s| ==> s[k] != '.';
    }
  }

  // ------------------------------------------------------------------ declarations

  /**
   * A declaration fails exactly when the innermost scope already holds the
   * name; a name declared only further out is shadowed. The float check looks
   * only at leaf initialisers, so a compound initialiser is never reported.
   */
  lemma {:induction false} DeclarationRules(t: string, n: string, init: Expr, scopes: seq<Scope>, ret: string, sigs: map<string, Signature>)
    requires |scopes| > 0 && t != "" && n != ""
    ensures Redeclared(n) in CheckStmt(Declare(t, n, init), scopes, ret, sigs).errs <==> n in scopes[|scopes| - 1]
    ensures FloatToInt(n) in CheckStmt(Declare(t, n, init), scopes, ret, sigs).errs <==> FloatIntoInt(t, init)
    ensures init.Binary? ==> FloatToInt(n) !in CheckStmt(Declare(t, n, init), scopes, ret, sigs).errs
    ensures |CheckStmt(Declare(t, n, init), scopes, ret, sigs).errs| > 0 <==> n in scopes[|scopes| - 1] || FloatIntoInt(t, init)
    ensures n !in scopes[|scopes| - 1] ==> Find(CheckStmt(Declare(t, n, init), scopes, ret, sigs).scopes, n) == Some(t)
    ensures n in scopes[|scopes| - 1] ==> CheckStmt(Declare(t, n, init), scopes, ret, sigs).scopes == scopes
  {
    if n !in scopes[|scopes| - 1] {
      DeclareThenFind(scopes, n, t);
    }
  }

  /**
   * Shadowing inside a loop body: redeclaring an outer name there is not an
   * error, and the outer binding is back once the body's scope is popped.
   */
  lemma {:induction false} ShadowInLoopBody(c: Expr, t: string, n: string, scopes: seq<Scope>, ret: string, sigs: map<string, Signature>)
    requires |scopes| > 0 && t != "" && n != "" && Find(scopes, n).Some?
    ensures CheckStmt(While(c, [Declare(t, n, Leaf(""))]), scopes, ret, sigs)
      == Check(scopes, ConditionErrors(c, scopes, WhileCondition))
  {
    var inner := scopes + [map[]];
    var d := CheckStmt(Declare(t, n, Leaf("")), inner, ret, sigs);
    assert d == Check(Bind(inner, n, t), []);
    assert CheckBlock([Declare(t, n, Leaf(""))], inner, ret, sigs) == d by {
      assert [Declare(t, n, Leaf(""))][1..] == [];
    }
    assert Bind(inner, n, t)[..|scopes|] == scopes;
  }

  // ------------------------------------------------------------------ assignments and returns

  /**
   * An assignment checks only that its target is declared: the value's type
   * is never compared with the target's, so any two non-empty values give the
   * same outcome.
   */
  lemma {:induction false} AssignmentChecksOnlyTarget(n: string, e1: Expr, e2: Expr, scopes: seq<Scope>, ret: string, sigs: map<string, Signature>)
    requires |scopes| > 0 && Truthy(e1) && Truthy(e2)
    ensures CheckStmt(Assign(n, e1), scopes, ret, sigs) == CheckStmt(Assign(n, e2), scopes, ret, sigs)
    ensures CheckStmt(Assign(n, e1), scopes, ret, sigs).scopes == scopes
    ensures CheckStmt(Assign(n, e1), scopes, ret, sigs).errs == [] <==> n != "" && Find(scopes, n).Some?
  {
  }

  /**
   * Returns: a compound value is always accepted; an undeclared identifier is
   * reported once and not compared; a declared one is compared with the
   * declared return type, and so is a numeric literal, taken as `float` when
   * it has a dot and `int` otherwise; with no declared type nothing is
   * compared; an empty value is not checked at all.
   */
  lemma {:induction false} ReturnRules(e: Expr, scopes: seq<Scope>, ret: string)
    ensures e.Binary? ==> ReturnErrors(e, scopes, ret) == []
    ensures e.Leaf? && e.text != "" && !IsNumeric(e.text) && Find(scopes, e.text).None? ==>
      ReturnErrors(e, scopes, ret) == [Undeclared(e.text)]
    ensures e.Leaf? && e.text != "" && !IsNumeric(e.text) && Find(scopes, e.text).Some? ==>
      (ReturnErrors(e, scopes, ret) == [] <==> ret == "" || Find(scopes, e.text).value == ret)
    ensures e.Leaf? && IsNumeric(e.text) ==>
      (ReturnErrors(e, scopes, ret) == [] <==> ret == "" || ret == (if '.' in e.text then "float" else "int"))
    ensures e.Leaf? && e.text == "" ==> ReturnErrors(e, scopes, ret) == []
    ensures ret == "" ==> forall x :: x in ReturnErrors(e, scopes, ret) ==> x.Undeclared?
  {
  }

  /** A float literal returned from an `int` function is a mismatch; a whole number is not. */
  lemma {:induction false} ReturnLiteral(scopes: seq<Scope>)
    ensures ReturnErrors(Leaf("1.5"), scopes, "int") == [ReturnMismatch("int", "float")]
    ensures ReturnErrors(Leaf("15"), scopes, "int") == []
    ensures ReturnErrors(Leaf("1.5"), scopes, "float") == []
  {
    NumericLiteral("1.5");
    assert AllDigits("1.5"[..1]) && AllDigits("1.5"[2..]);
    NumericLiteral("15");
    assert '.' in "1.5" by { assert "1.5"[1] == '.'; }
  }

  // ------------------------------------------------------------------ calls

  /** An unknown callee is reported once; the target is not declared and nothing else is checked. */
  lemma {:induction false} UnknownCalleeStops(target: string, c: FunctionCall, scopes: seq<Scope>, ret: string, sigs: map<string, Signature>)
    requires |scopes| > 0 && c.name !in sigs
    ensures CheckStmt(Call(target, c), scopes, ret, sigs) == Check(scopes, [UnknownFunction(c.name)])
  {
  }

  /** The argument loop reports nothing exactly when every argument is declared with its parameter's type. */
  lemma {:induction false} ArgumentsMatch(callee: string, args: seq<string>, params: seq<string>, scopes: seq<Scope>)
    requires |args| == |params|
    ensures ArgErrors(callee, args, params, scopes) == [] <==>
      forall i :: 0 <= i < |args| ==> Find(scopes, args[i]) == Some(params[i])
    ensures |ArgErrors(callee, args, params, scopes)| <= |args|
    ensures forall x :: x in ArgErrors(callee, args, params, scopes) ==> x.ArgUndeclared? || x.ArgTypeMismatch?
  {
    if |args| > 0 {
      ArgumentsMatch(callee, args[1..], params[1..], scopes);
      var rest := ArgErrors(callee, args[1..], params[1..], scopes);
      assert ArgErrors(callee, args, params, scopes) == ArgError(callee, args[0], params[0], scopes) + rest;
      if forall i :: 0 <= i < |args| ==> Find(scopes, args[i]) == Some(params[i]) {
        assert forall i :: 0 <= i < |args| - 1 ==> Find(scopes, args[1..][i]) == Some(params[1..][i]) by {
          forall i | 0 <= i < |args| - 1 ensures Find(scopes, args[1..][i]) == Some(params[1..][i]) {
            assert args[1..][i] == args[i + 1] && params[1..][i] == params[i + 1];
          }
        }
      }
      if ArgErrors(callee, args, params, scopes) == [] {
        forall i | 0 <= i < |args| ensures Find(scopes, args[i]) == Some(params[i]) {
          if i > 0 {
            assert args[1..][i - 1] == args[i] && params[1..][i - 1] == params[i];
          }
        }
      }
    }
  }

  /**
   * A known callee: an unseen target is declared with the callee's return
   * type before the count is compared, and that declaration never fails;
   * a wrong count is then the only diagnostic, otherwise only argument
   * diagnostics follow.
   */
  lemma {:induction false} CallRules(target: string, c: FunctionCall, scopes: seq<Scope>, ret: string, sigs: map<string, Signature>)
    requires |scopes| > 0 && c.name in sigs
    ensures Find(CheckStmt(Call(target, c), scopes, ret, sigs).scopes, CallTarget(target))
      == if Find(scopes, CallTarget(target)).None? then Some(sigs[c.name].returnType) else Find(scopes, CallTarget(target))
    ensures |c.args| != |sigs[c.name].paramTypes| ==>
      CheckStmt(Call(target, c), scopes, ret, sigs).errs == [ArgCountMismatch(c.name, |sigs[c.name].paramTypes|, |c.args|)]
    ensures |c.args| == |sigs[c.name].paramTypes| ==>
      (CheckStmt(Call(target, c), scopes, ret, sigs).errs == [] <==>
        forall i :: 0 <= i < |c.args| ==>
          Find(CheckStmt(Call(target, c), scopes, ret, sigs).scopes, c.args[i]) == Some(sigs[c.name].paramTypes[i]))
  {
    var left := CallTarget(target);
    if Find(scopes, left).None? {
      FindNone(scopes, left);
      DeclareThenFind(scopes, left, sigs[c.name].returnType);
    }
    var r := CheckStmt(Call(target, c), scopes, ret, sigs);
    if |c.args| == |sigs[c.name].paramTypes| {
      ArgumentsMatch(c.name, c.args, sigs[c.name].paramTypes, r.scopes);
    }
  }

  // ------------------------------------------------------------------ conditions

  /** A condition is accepted exactly when it is compound or a variable declared `int` or `bool`. */
  lemma {:induction false} ConditionRules(cond: Expr, scopes: seq<Scope>, construct: Construct)
    ensures ConditionErrors(cond, scopes, construct) == [] <==>
      cond.Binary? || Find(scopes, cond.text) == Some("int") || Find(scopes, cond.text) == Some("bool")
    ensures cond.Leaf? && Find(scopes, cond.text).None? ==>
      ConditionErrors(cond, scopes, construct) == [UndeclaredCondition(construct)]
  {
  }

  /** `if (1)`: a literal condition is looked up as a variable and so reported as undeclared. */
  lemma {:induction false} LiteralConditionUndeclared(scopes: seq<Scope>, thenBranch: seq<Stmt>, ret: string, sigs: map<string, Signature>)
    requires |scopes| > 0 && forall i :: 0 <= i < |scopes| ==> "1" !in scopes[i]
    ensures CheckStmt(If(Leaf("1"), thenBranch, NoElse), scopes, ret, sigs).errs
      == [UndeclaredCondition(IfCondition)] + CheckBlock(thenBranch, scopes + [map[]], ret, sigs).errs
  {
    FindNone(scopes, "1");
  }

  /** `if` and `while` give the table back as they found it: their bodies' names are gone. */
  lemma {:induction false} CompoundRestoresScopes(s: Stmt, scopes: seq<Scope>, ret: string, sigs: map<string, Signature>)
    requires |scopes| > 0 && (s.If? || s.While?)
    ensures CheckStmt(s, scopes, ret, sigs).scopes == scopes
  {
  }

  // ------------------------------------------------------------------ blocks

  /** A block's outcome is its first `k` statements' outcome followed by the rest's, from the table reached. */
  lemma {:induction false} BlockSplit(ss: seq<Stmt>, k: nat, scopes: seq<Scope>, ret: string, sigs: map<string, Signature>)
    requires |scopes| > 0 && k <= |ss|
    ensures CheckBlock(ss, scopes, ret, sigs).errs
      == CheckBlock(ss[..k], scopes, ret, sigs).errs + CheckBlock(ss[k..], CheckBlock(ss[..k], scopes, ret, sigs).scopes, ret, sigs).errs
    ensures CheckBlock(ss, scopes, ret, sigs).scopes
      == CheckBlock(ss[k..], CheckBlock(ss[..k], scopes, ret, sigs).scopes, ret, sigs).scopes
    decreases k
  {
    if k == 0 {
      assert ss[..0] == [] && ss[0..] == ss;
    } else {
      var a := CheckStmt(ss[0], scopes, ret, sigs);
      BlockSplit(ss[1..], k - 1, a.scopes, ret, sigs);
      assert ss[1..][..k - 1] == ss[..k][1..];
      assert ss[1..][k - 1..] == ss[k..];
      var pre := CheckBlock(ss[1..][..k - 1], a.scopes, ret, sigs);
      assert CheckBlock(ss[..k], scopes, ret, sigs) == Check(pre.scopes, a.errs + pre.errs);
      AppendAssoc(a.errs, pre.errs, CheckBlock(ss[k..], pre.scopes, ret, sigs).errs);
    }
  }

  /**
   * An error never stops the statements after it: the diagnostics of
   * statement `i`, checked against the table its predecessors left, appear
   * in the block's diagnostics right after theirs.
   */
  lemma {:induction false} LaterStatementsStillChecked(ss: seq<Stmt>, i: nat, scopes: seq<Scope>, ret: string, sigs: map<string, Signature>)
    requires |scopes| > 0 && i < |ss|
    ensures var pre := CheckBlock(ss[..i], scopes, ret, sigs);
      var one := CheckStmt(ss[i], pre.scopes, ret, sigs).errs;
      |pre.errs| + |one| <= |CheckBlock(ss, scopes, ret, sigs).errs| &&
      CheckBlock(ss, scopes, ret, sigs).errs[|pre.errs|..|pre.errs| + |one|] == one
  {
    BlockSplit(ss, i, scopes, ret, sigs);
    var pre := CheckBlock(ss[..i], scopes, ret, sigs);
    var a := CheckStmt(ss[i], pre.scopes, ret, sigs);
    assert ss[i..][0] == ss[i] && ss[i..][1..] == ss[i + 1..];
    var rest := CheckBlock(ss[i + 1..], a.scopes, ret, sigs);
    assert CheckBlock(ss[i..], pre.scopes, ret, sigs).errs == a.errs + rest.errs;
    assert CheckBlock(ss, scopes, ret, sigs).errs == pre.errs + (a.errs + rest.errs);
  }

  // ------------------------------------------------------------------ functions and the program

  /** No name is in `taken` and none repeats an earlier one. */
  predicate Fresh(names: seq<string>, taken: set<string>) {
    forall i :: 0 <= i < |names| ==> names[i] !in taken && forall j :: 0 <= j < i ==> names[j] != names[i]
  }

  lemma {:induction false} FreshCons(names: seq<string>, taken: set<string>)
    requires |names| > 0
    ensures Fresh(names, taken) <==> names[0] !in taken && Fresh(names[1..], taken + {names[0]})
  {
    if Fresh(names, taken) {
      forall i | 0 <= i < |names| - 1
        ensures names[1..][i] !in taken + {names[0]} && forall j :: 0 <= j < i ==> names[1..][j] != names[1..][i]
      {
        assert names[1..][i] == names[i + 1];
        forall j | 0 <= j < i ensures names[1..][j] != names[1..][i] {
          assert names[1..][j] == names[j + 1];
        }
      }
    }
    if names[0] !in taken && Fresh(names[1..], taken + {names[0]}) {
      forall i | 0 <= i < |names| ensures names[i] !in taken && forall j :: 0 <= j < i ==> names[j] != names[i] {
        if i > 0 {
          assert names[i] == names[1..][i - 1];
          forall j | 0 <= j < i ensures names[j] != names[i] {
            if j > 0 {
              assert names[j] == names[1..][j - 1];
            }
          }
        }
      }
    }
  }

  function ParamNames(ps: seq<Param>): (r: seq<string>)
    ensures |r| == |ps| && forall i :: 0 <= i < |ps| ==> r[i] == ps[i].name
  {
    if |ps| == 0 then [] else [ps[0].name] + ParamNames(ps[1..])
  }

  function FunctionNames(fs: seq<Function>): (r: seq<string>)
    ensures |r| == |fs| && forall i :: 0 <= i < |fs| ==> r[i] == fs[i].name
  {
    if |fs| == 0 then [] else [fs[0].name] + FunctionNames(fs[1..])
  }

  /** Declaring the parameters reports nothing exactly when their names are new to the scope and pairwise distinct. */
  lemma {:induction false} ParamsDeclaredOnce(ps: seq<Param>, scopes: seq<Scope>)
    requires |scopes| > 0
    ensures DeclareParams(ps, scopes).errs == [] <==> Fresh(ParamNames(ps), scopes[|scopes| - 1].Keys)
    decreases |ps|
  {
    if |ps| > 0 {
      var m := scopes[|scopes| - 1];
      var d := DeclareIn(scopes, ps[0].name, ps[0].paramType);
      ParamsDeclaredOnce(ps[1..], d.scopes);
      FreshCons(ParamNames(ps), m.Keys);
      assert ParamNames(ps)[1..] == ParamNames(ps[1..]);
      if ps[0].name !in m {
        assert d.scopes[|d.scopes| - 1].Keys == m.Keys + {ps[0].name};
      }
    }
  }

  /**
   * Each function is checked against the table it started from: one
   * function's locals never reach the next, so the diagnostics of a list of
   * functions are those of its parts, each checked alone.
   */
  lemma {:induction false} FunctionsIndependent(fs1: seq<Function>, fs2: seq<Function>, scopes: seq<Scope>, sigs: map<string, Signature>)
    requires |scopes| > 0
    ensures CheckFunctions(fs1 + fs2, scopes, sigs).errs
      == CheckFunctions(fs1, scopes, sigs).errs + CheckFunctions(fs2, scopes, sigs).errs
    decreases |fs1|
  {
    if |fs1| == 0 {
      assert fs1 + fs2 == fs2;
    } else {
      assert (fs1 + fs2)[0] == fs1[0] && (fs1 + fs2)[1..] == fs1[1..] + fs2;
      FunctionsIndependent(fs1[1..], fs2, scopes, sigs);
      var a := CheckFunction(fs1[0], scopes, sigs);
      AppendAssoc(a.errs, CheckFunctions(fs1[1..], scopes, sigs).errs, CheckFunctions(fs2, scopes, sigs).errs);
    }
  }

  /** `fs[i]` is the first function of `fs` with its name. */
  predicate FirstWithName(fs: seq<Function>, i: nat)
    requires i < |fs|
  {
    forall j :: 0 <= j < i ==> fs[j].name != fs[i].name
  }

  /**
   * The first pass never overwrites a signature: a name already recorded
   * keeps its signature, and a new name gets the signature of the first
   * function that carries it; the global scope and the signatures name the
   * same functions.
   */
  lemma {:induction false} CollectKeepsFirst(fs: seq<Function>, global: Scope, sigs: map<string, Signature>)
    requires global.Keys == sigs.Keys
    ensures Collect(fs, global, sigs).global.Keys == Collect(fs, global, sigs).sigs.Keys
    ensures forall n :: n in sigs ==> n in Collect(fs, global, sigs).sigs && Collect(fs, global, sigs).sigs[n] == sigs[n]
    ensures forall i :: 0 <= i < |fs| && fs[i].name !in global && FirstWithName(fs, i) ==>
      fs[i].name in Collect(fs, global, sigs).sigs && Collect(fs, global, sigs).sigs[fs[i].name] == SignatureOf(fs[i])
    decreases |fs|
  {
    if |fs| > 0 {
      var f := fs[0];
      var g := if f.name in global then global else global[f.name := f.returnType];
      var s := if f.name in global then sigs else sigs[f.name := SignatureOf(f)];
      assert Collect(fs, global, sigs).sigs == Collect(fs[1..], g, s).sigs;
      assert Collect(fs, global, sigs).global == Collect(fs[1..], g, s).global;
      CollectKeepsFirst(fs[1..], g, s);
      forall i | 0 <= i < |fs| && fs[i].name !in global && FirstWithName(fs, i)
        ensures fs[i].name in Collect(fs, global, sigs).sigs && Collect(fs, global, sigs).sigs[fs[i].name] == SignatureOf(fs[i])
      {
        if i > 0 {
          assert fs[i] == fs[1..][i - 1];
          assert fs[0].name != fs[i].name;
          assert FirstWithName(fs[1..], i - 1) by {
            forall j | 0 <= j < i - 1 ensures fs[1..][j].name != fs[1..][i - 1].name {
              assert fs[1..][j] == fs[j + 1];
            }
          }
        }
      }
    }
  }

  /** The first pass reports nothing exactly when the function names are new and pairwise distinct. */
  lemma {:induction false} CollectReportsDuplicates(fs: seq<Function>, global: Scope, sigs: map<string, Signature>)
    ensures Collect(fs, global, sigs).errs == [] <==> Fresh(FunctionNames(fs), global.Keys)
    decreases |fs|
  {
    if |fs| > 0 {
      FreshCons(FunctionNames(fs), global.Keys);
      assert FunctionNames(fs)[1..] == FunctionNames(fs[1..]);
      if fs[0].name !in global {
        var g := global[fs[0].name := fs[0].returnType];
        CollectReportsDuplicates(fs[1..], g, sigs[fs[0].name := SignatureOf(fs[0])]);
        assert g.Keys == global.Keys + {fs[0].name};
      }
    }
  }

  /** `int add(int a, int b) { return a + b; }` passes the analysis. */
  lemma {:induction false} AddAnalyzesCleanly()
    ensures AnalyzeProgram(Program([Function("int", "add", [Param("int", "a"), Param("int", "b")],
      [Return(Binary(Leaf("a"), "+", Leaf("b")))])])) == []
  {
    var f := Function("int", "add", [Param("int", "a"), Param("int", "b")], [Return(Binary(Leaf("a"), "+", Leaf("b")))]);
    var c := Collect([f], map[], map[]);
    assert [f][1..] == [];
    assert c == Collect([], map["add" := "int"], map["add" := SignatureOf(f)]);
    var p := DeclareParams(f.params, [c.global] + [map[]]);
    assert p.errs == [];
    assert CheckBlock(f.body, p.scopes, "int", c.sigs).errs == [];
  }

  /**
   * `y = foo(a);` with no function `foo` gives exactly one
   * diagnostic, and the analysis goes on with the next statement.
   */
  lemma {:induction false} UnknownFunctionScenario()
    ensures AnalyzeProgram(Program([Function("int", "main", [],
      [Declare("int", "a", Leaf("1")), Call("y", FunctionCall("foo", ["a"])), Assign("z", Leaf("a"))])]))
      == [UnknownFunction("foo"), Undeclared("z")]
  {
    var body := [Declare("int", "a", Leaf("1")), Call("y", FunctionCall("foo", ["a"])), Assign("z", Leaf("a"))];
    var f := Function("int", "main", [], body);
    var c := Collect([f], map[], map[]);
    assert [f][1..] == [];
    assert c == Collect([], map["main" := "int"], map["main" := SignatureOf(f)]);
    var s0 := [c.global] + [map[]];
    var a := CheckStmt(body[0], s0, "int", c.sigs);
    assert a == Check([c.global, map["a" := "int"]], []) by {
      assert !('.' in "1");
    }
    var b := CheckStmt(body[1], a.scopes, "int", c.sigs);
    assert b == Check(a.scopes, [UnknownFunction("foo")]);
    assert Find(a.scopes, "z") == None by {
      FindNone(a.scopes, "z");
    }
    var d := CheckStmt(body[2], b.scopes, "int", c.sigs);
    assert d.errs == [Undeclared("z")];
    assert body[1..][1..] == [body[2]] && body[2..][1..] == [];
    assert CheckBlock(body, s0, "int", c.sigs).errs == a.errs + (b.errs + (d.errs + []));
  }
}
