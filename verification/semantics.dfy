/**
 * The semantic analyzer (scripts/semantic_analyzer.py).
 *
 * `CheckStmt`, `CheckBlock` and `AnalyzeProgram` say what the analysis
 * computes: the symbol-table stack after each statement and the diagnostics
 * it reports, in order. The methods below do the same work on a mutable
 * `SymbolTable`, statement by statement, and are proved to agree with them.
 * A diagnostic is one of the `SemanticError` kinds instead of a printed line.
 */
module Semantics {
  import opened Strings
  import opened Ast
  import opened SymbolTables

  /** An entry of `function_signatures`: the parameter types and the return type. */
  datatype Signature = Signature(paramTypes: seq<string>, returnType: string)

  datatype Construct = IfCondition | WhileCondition

  /** What the analyzer reports. */
  datatype SemanticError =
    | Redeclared(name: string)                        // `declare` refused: function, parameter or variable
    | InvalidStatement(text: string)                  // a declaration or assignment text of fewer than three words
    | FloatToInt(name: string)                        // an `int` initialised with a literal holding a dot
    | Undeclared(name: string)                        // `lookup` failed: assignment target or returned identifier
    | ReturnMismatch(expected: string, got: string)
    | UnknownFunction(name: string)
    | ArgCountMismatch(callee: string, paramCount: nat, argCount: nat)
    | ArgTypeMismatch(callee: string, expected: string, got: string)
    | ArgUndeclared(arg: string, callee: string)
    | BadCondition(got: string)                       // a condition whose type is neither int nor bool
    | UndeclaredCondition(construct: Construct)

  /** The symbol-table stack after a step, and the diagnostics the step reported. */
  datatype Check = Check(scopes: seq<Scope>, errs: seq<SemanticError>)

  /** `[p.param_type for p in func.params]`. */
  function ParamTypes(ps: seq<Param>): (r: seq<string>)
    ensures |r| == |ps| && forall i :: 0 <= i < |ps| ==> r[i] == ps[i].paramType
  {
    if |ps| == 0 then [] else [ps[0].paramType] + ParamTypes(ps[1..])
  }

  function SignatureOf(f: Function): Signature {
    Signature(ParamTypes(f.params), f.returnType)
  }

  /** `s.replace(".", "", 1)`: the first dot removed. */
  function DropFirstDot(s: string): (r: string)
    ensures '.' in s ==> |r| == |s| - 1
    ensures '.' !in s ==> r == s
  {
    if |s| == 0 then s
    else if s[0] == '.' then s[1..]
    else [s[0]] + DropFirstDot(s[1..])
  }

  /** `s.replace(".", "", 1).isdigit()` on ASCII text. */
  predicate IsNumeric(s: string)
    ensures IsNumeric(s) ==> |s| > 0
    ensures |s| > 0 && AllDigits(s) ==> IsNumeric(s)
  {
    |DropFirstDot(s)| > 0 && AllDigits(DropFirstDot(s))
  }

  /** `symtab.declare(name, t)`, with the exception as a diagnostic. */
  function DeclareIn(scopes: seq<Scope>, name: string, t: string): (r: Check)
    requires |scopes| > 0
    ensures |r.scopes| == |scopes| && r.scopes[..|scopes| - 1] == scopes[..|scopes| - 1]
    ensures r.errs == [] <==> name !in scopes[|scopes| - 1]
  {
    if name in scopes[|scopes| - 1] then Check(scopes, [Redeclared(name)])
    else Check(Bind(scopes, name, t), [])
  }

  /** The type of an `if` / `while` condition: a leaf is looked up as a variable, anything else is `int`. */
  function ConditionType(cond: Expr, scopes: seq<Scope>): Option<string> {
    if cond.Leaf? then Find(scopes, cond.text) else Some("int")
  }

  function ConditionErrors(cond: Expr, scopes: seq<Scope>, construct: Construct): (r: seq<SemanticError>)
    ensures |r| <= 1
    ensures cond.Binary? ==> r == []
  {
    match ConditionType(cond, scopes)
    case None => [UndeclaredCondition(construct)]
    case Some(t) => if t == "int" || t == "bool" then [] else [BadCondition(t)]
  }

  /** The type a returned expression is taken to have, or `None` for an undeclared identifier. */
  function ReturnType(e: Expr, scopes: seq<Scope>, expected: string): Option<string> {
    if e.Binary? then Some(expected)
    else if IsNumeric(e.text) then Some(if '.' in e.text then "float" else "int")
    else Find(scopes, e.text)
  }

  function ReturnErrors(e: Expr, scopes: seq<Scope>, expected: string): (r: seq<SemanticError>)
    ensures |r| <= 1
    ensures e.Binary? ==> r == []
  {
    if !Truthy(e) then []
    else match ReturnType(e, scopes, expected)
      case None => [Undeclared(e.text)]
      case Some(t) => if expected != "" && t != expected then [ReturnMismatch(expected, t)] else []
  }

  /** The check of one argument against its parameter type. */
  function ArgError(callee: string, arg: string, param: string, scopes: seq<Scope>): seq<SemanticError> {
    match Find(scopes, arg)
    case None => [ArgUndeclared(arg, callee)]
    case Some(t) => if t != param then [ArgTypeMismatch(callee, param, t)] else []
  }

  function ArgErrors(callee: string, args: seq<string>, params: seq<string>, scopes: seq<Scope>): (r: seq<SemanticError>)
    requires |args| == |params|
    ensures |r| <= |args|
  {
    if |args| == 0 then []
    else ArgError(callee, args[0], params[0], scopes) + ArgErrors(callee, args[1..], params[1..], scopes)
  }

  /** A float literal assigned to an `int` declaration: the only initialiser the analyzer checks. */
  predicate FloatIntoInt(t: string, init: Expr) {
    Truthy(init) && init.Leaf? && t == "int" && '.' in init.text
  }

  /**
   * `analyze_statement`. Every statement changes at most the innermost scope:
   * branch and loop bodies run in a scope of their own that is popped again.
   */
  function CheckStmt(s: Stmt, scopes: seq<Scope>, ret: string, sigs: map<string, Signature>): (r: Check)
    requires |scopes| > 0
    ensures |r.scopes| == |scopes| && r.scopes[..|scopes| - 1] == scopes[..|scopes| - 1]
    decreases s
  {
    match s
    case Declare(t, n, init) =>
      if t == "" || n == "" then Check(scopes, [InvalidStatement(Text(s))])
      else
        var d := DeclareIn(scopes, n, t);
        Check(d.scopes, d.errs + if FloatIntoInt(t, init) then [FloatToInt(n)] else [])
    case Assign(n, e) =>
      if n == "" then Check(scopes, [InvalidStatement(Text(s))])
      else if Truthy(e) && Find(scopes, n).None? then Check(scopes, [Undeclared(n)])
      else Check(scopes, [])
    case Return(e) =>
      Check(scopes, ReturnErrors(e, scopes, ret))
    case Call(target, c) =>
      if c.name !in sigs then Check(scopes, [UnknownFunction(c.name)])
      else
        var sig := sigs[c.name];
        var left := CallTarget(target);
        var d := if Find(scopes, left).None? then DeclareIn(scopes, left, sig.returnType) else Check(scopes, []);
        if |c.args| != |sig.paramTypes| then
          Check(d.scopes, d.errs + [ArgCountMismatch(c.name, |sig.paramTypes|, |c.args|)])
        else Check(d.scopes, d.errs + ArgErrors(c.name, c.args, sig.paramTypes, d.scopes))
    case If(cond, thenBranch, elseBranch) =>
      var errs := ConditionErrors(cond, scopes, IfCondition);
      var t := CheckBlock(thenBranch, scopes + [map[]], ret, sigs);
      var afterThen := t.scopes[..|scopes|];
      if elseBranch.Else? && |elseBranch.stmts| > 0 then
        var e := CheckBlock(elseBranch.stmts, afterThen + [map[]], ret, sigs);
        Check(e.scopes[..|scopes|], errs + t.errs + e.errs)
      else Check(afterThen, errs + t.errs)
    case While(cond, body) =>
      var errs := ConditionErrors(cond, scopes, WhileCondition);
      var b := CheckBlock(body, scopes + [map[]], ret, sigs);
      Check(b.scopes[..|scopes|], errs + b.errs)
  }

  /** The statements of a block, one after the other; an error never stops the ones after it. */
  function CheckBlock(ss: seq<Stmt>, scopes: seq<Scope>, ret: string, sigs: map<string, Signature>): (r: Check)
    requires |scopes| > 0
    ensures |r.scopes| == |scopes| && r.scopes[..|scopes| - 1] == scopes[..|scopes| - 1]
    decreases ss
  {
    if |ss| == 0 then Check(scopes, [])
    else
      var a := CheckStmt(ss[0], scopes, ret, sigs);
      var b := CheckBlock(ss[1..], a.scopes, ret, sigs);
      Check(b.scopes, a.errs + b.errs)
  }

  /** What the first pass of `analyze` has gathered. */
  datatype Collected = Collected(global: Scope, sigs: map<string, Signature>, errs: seq<SemanticError>)

  /** The first pass of `analyze`: declare each function name globally and record its signature. */
  function Collect(fs: seq<Function>, global: Scope, sigs: map<string, Signature>): (r: Collected)
    ensures |r.errs| <= |fs|
    ensures forall x :: x in global ==> x in r.global && r.global[x] == global[x]
    ensures forall i :: 0 <= i < |fs| ==> fs[i].name in r.global
    decreases |fs|
  {
    if |fs| == 0 then Collected(global, sigs, [])
    else if fs[0].name in global then
      var rest := Collect(fs[1..], global, sigs);
      Collected(rest.global, rest.sigs, [Redeclared(fs[0].name)] + rest.errs)
    else Collect(fs[1..], global[fs[0].name := fs[0].returnType], sigs[fs[0].name := SignatureOf(fs[0])])
  }

  /** The parameters of a function, declared one by one in its scope. */
  function DeclareParams(ps: seq<Param>, scopes: seq<Scope>): (r: Check)
    requires |scopes| > 0
    ensures |r.scopes| == |scopes| && r.scopes[..|scopes| - 1] == scopes[..|scopes| - 1]
    decreases |ps|
  {
    if |ps| == 0 then Check(scopes, [])
    else
      var d := DeclareIn(scopes, ps[0].name, ps[0].paramType);
      var rest := DeclareParams(ps[1..], d.scopes);
      Check(rest.scopes, d.errs + rest.errs)
  }

  /** One iteration of the second pass: a scope for the function, its parameters, its body, and the pop. */
  function CheckFunction(f: Function, scopes: seq<Scope>, sigs: map<string, Signature>): (r: Check)
    requires |scopes| > 0
    ensures r.scopes == scopes
  {
    var p := DeclareParams(f.params, scopes + [map[]]);
    var b := CheckBlock(f.body, p.scopes, f.returnType, sigs);
    assert b.scopes[..|scopes|] == p.scopes[..|scopes|] == (scopes + [map[]])[..|scopes|];
    Check(b.scopes[..|scopes|], p.errs + b.errs)
  }

  function CheckFunctions(fs: seq<Function>, scopes: seq<Scope>, sigs: map<string, Signature>): (r: Check)
    requires |scopes| > 0
    ensures r.scopes == scopes
    decreases |fs|
  {
    if |fs| == 0 then Check(scopes, [])
    else
      var a := CheckFunction(fs[0], scopes, sigs);
      var rest := CheckFunctions(fs[1..], a.scopes, sigs);
      Check(rest.scopes, a.errs + rest.errs)
  }

  /** Every diagnostic `analyze` reports, in order: the first pass's, then the second's. */
  function AnalyzeProgram(p: Program): (r: seq<SemanticError>)
    ensures Collect(p.functions, map[], map[]).errs <= r
    ensures p.functions == [] ==> r == []
  {
    var c := Collect(p.functions, map[], map[]);
    c.errs + CheckFunctions(p.functions, [c.global], c.sigs).errs
  }

  // ------------------------------------------------------------------ the analyzer

  /**
   * `analyze_statement`: checks `s` against the table, changing it as the
   * statement declares names, and reports whether it found an error. Each
   * branch of the source's if/elif chain is one of the methods below.
   */
  method AnalyzeStatement(s: Stmt, symtab: SymbolTable, ret: string, sigs: map<string, Signature>)
    returns (error: bool, diags: seq<SemanticError>)
    requires |symtab.scopes| > 0
    modifies symtab
    ensures symtab.scopes == CheckStmt(s, old(symtab.scopes), ret, sigs).scopes
    ensures diags == CheckStmt(s, old(symtab.scopes), ret, sigs).errs
    ensures error <==> |diags| > 0
    decreases s, 1
  {
    match s
    case Declare(t, n, init) =>
      error, diags := AnalyzeDeclare(t, n, init, symtab);
    case Assign(n, e) =>
      error, diags := AnalyzeAssign(n, e, symtab);
    case Return(e) =>
      error, diags := AnalyzeReturn(e, symtab, ret);
    case Call(target, c) =>
      error, diags := AnalyzeCall(target, c, symtab, sigs);
    case If(_, _, _) =>
      error, diags := AnalyzeIf(s, symtab, ret, sigs);
    case While(_, _) =>
      error, diags := AnalyzeWhile(s, symtab, ret, sigs);
  }

  /** A declaration: declare the name in the innermost scope, then the float-into-int check. */
  method AnalyzeDeclare(t: string, n: string, init: Expr, symtab: SymbolTable)
    returns (error: bool, diags: seq<SemanticError>)
    requires |symtab.scopes| > 0
    modifies symtab
    ensures symtab.scopes == CheckStmt(Declare(t, n, init), old(symtab.scopes), "", map[]).scopes
    ensures diags == CheckStmt(Declare(t, n, init), old(symtab.scopes), "", map[]).errs
    ensures error <==> |diags| > 0
  {
    if t == "" || n == "" {
      return true, [InvalidStatement(Text(Declare(t, n, init)))];
    }
    error, diags := false, [];
    var ok := symtab.Declare(n, t);
    if !ok {
      error, diags := true, [Redeclared(n)];
    }
    if Truthy(init) && init.Leaf? && t == "int" && '.' in init.text {
      error, diags := true, diags + [FloatToInt(n)];
    }
  }

  /** An assignment: the target must be visible when there is a right-hand side. */
  method AnalyzeAssign(n: string, e: Expr, symtab: SymbolTable) returns (error: bool, diags: seq<SemanticError>)
    requires |symtab.scopes| > 0
    ensures CheckStmt(Assign(n, e), symtab.scopes, "", map[]).scopes == symtab.scopes
    ensures diags == CheckStmt(Assign(n, e), symtab.scopes, "", map[]).errs
    ensures error <==> |diags| > 0
  {
    if n == "" {
      return true, [InvalidStatement(Text(Assign(n, e)))];
    }
    error, diags := false, [];
    if Truthy(e) {
      var found := symtab.Lookup(n);
      if found.None? {
        error, diags := true, [Undeclared(n)];
      }
    }
  }

  /** A return: the returned value's type against the function's declared return type. */
  method AnalyzeReturn(e: Expr, symtab: SymbolTable, ret: string) returns (error: bool, diags: seq<SemanticError>)
    requires |symtab.scopes| > 0
    ensures CheckStmt(Return(e), symtab.scopes, ret, map[]).scopes == symtab.scopes
    ensures diags == CheckStmt(Return(e), symtab.scopes, ret, map[]).errs
    ensures error <==> |diags| > 0
  {
    if !Truthy(e) {
      return false, [];
    }
    var retType: Option<string>;
    if e.Leaf? {
      if IsNumeric(e.text) {
        retType := Some(if '.' in e.text then "float" else "int");
      } else {
        retType := symtab.Lookup(e.text);
        if retType.None? {
          return true, [Undeclared(e.text)];
        }
      }
    } else {
      retType := Some(ret);
    }
    if ret != "" && retType.value != ret {
      return true, [ReturnMismatch(ret, retType.value)];
    }
    return false, [];
  }

  /** A call: the callee must be known; the target is declared if unseen; then the arguments. */
  method AnalyzeCall(target: string, c: FunctionCall, symtab: SymbolTable, sigs: map<string, Signature>)
    returns (error: bool, diags: seq<SemanticError>)
    requires |symtab.scopes| > 0
    modifies symtab
    ensures symtab.scopes == CheckStmt(Call(target, c), old(symtab.scopes), "", sigs).scopes
    ensures diags == CheckStmt(Call(target, c), old(symtab.scopes), "", sigs).errs
    ensures error <==> |diags| > 0
  {
    if c.name !in sigs {
      return true, [UnknownFunction(c.name)];
    }
    var sig := sigs[c.name];
    ghost var scopes0 := symtab.scopes;
    var left := CallTarget(target);
    ghost var d0 := if Find(scopes0, left).None? then DeclareIn(scopes0, left, sig.returnType) else Check(scopes0, []);
    error, diags := false, [];
    var known := symtab.Exists(left);
    if !known {
      var ok := symtab.Declare(left, sig.returnType);
      if !ok {
        error, diags := true, [Redeclared(left)];
      }
    }
    assert symtab.scopes == d0.scopes && diags == d0.errs;
    if |c.args| != |sig.paramTypes| {
      return true, diags + [ArgCountMismatch(c.name, |sig.paramTypes|, |c.args|)];
    }
    error, diags := CheckArguments(c.name, c.args, sig.paramTypes, symtab, error, diags);
  }

  /** The `for i, arg in enumerate(func.args)` loop, after `diags` has been reported. */
  method CheckArguments(callee: string, args: seq<string>, params: seq<string>, symtab: SymbolTable,
                        error0: bool, diags0: seq<SemanticError>)
    returns (error: bool, diags: seq<SemanticError>)
    requires |args| == |params|
    requires error0 <==> |diags0| > 0
    ensures diags == diags0 + ArgErrors(callee, args, params, symtab.scopes)
    ensures error <==> |diags| > 0
  {
    error, diags := error0, diags0;
    var i := 0;
    while i < |args|
      invariant 0 <= i <= |args|
      invariant diags + ArgErrors(callee, args[i..], params[i..], symtab.scopes)
        == diags0 + ArgErrors(callee, args, params, symtab.scopes)
      invariant error <==> |diags| > 0
    {
      var argType := symtab.Lookup(args[i]);
      var one: seq<SemanticError> := [];
      if argType.None? {
        one := [ArgUndeclared(args[i], callee)];
      } else if argType.value != params[i] {
        one := [ArgTypeMismatch(callee, params[i], argType.value)];
      }
      assert one == ArgError(callee, args[i], params[i], symtab.scopes);
      assert args[i..][1..] == args[i + 1..] && params[i..][1..] == params[i + 1..];
      AppendAssoc(diags, one, ArgErrors(callee, args[i + 1..], params[i + 1..], symtab.scopes));
      error, diags := error || |one| > 0, diags + one;
      i := i + 1;
    }
    assert diags + [] == diags;
  }

  /** The `if` / `while` condition test. */
  method CheckCondition(cond: Expr, symtab: SymbolTable, construct: Construct) returns (error: bool, diags: seq<SemanticError>)
    ensures diags == ConditionErrors(cond, symtab.scopes, construct)
    ensures error <==> |diags| > 0
  {
    var condType: Option<string>;
    if cond.Leaf? {
      condType := symtab.Lookup(cond.text);
    } else {
      condType := Some("int");
    }
    if condType.None? {
      return true, [UndeclaredCondition(construct)];
    }
    if condType.value != "int" && condType.value != "bool" {
      return true, [BadCondition(condType.value)];
    }
    return false, [];
  }

  /** A block in a scope of its own, popped afterwards. */
  method AnalyzeScoped(ss: seq<Stmt>, symtab: SymbolTable, ret: string, sigs: map<string, Signature>)
    returns (error: bool, diags: seq<SemanticError>)
    requires |symtab.scopes| > 0
    modifies symtab
    ensures symtab.scopes == CheckBlock(ss, old(symtab.scopes) + [map[]], ret, sigs).scopes[..|old(symtab.scopes)|]
    ensures diags == CheckBlock(ss, old(symtab.scopes) + [map[]], ret, sigs).errs
    ensures error <==> |diags| > 0
    decreases ss, 1
  {
    symtab.EnterScope();
    error, diags := AnalyzeBlock(ss, symtab, ret, sigs);
    symtab.ExitScope();
  }

  /** An `if`: the condition, the then-branch, and a non-empty else-branch, each body in its own scope. */
  method AnalyzeIf(s: Stmt, symtab: SymbolTable, ret: string, sigs: map<string, Signature>)
    returns (error: bool, diags: seq<SemanticError>)
    requires s.If? && |symtab.scopes| > 0
    modifies symtab
    ensures symtab.scopes == CheckStmt(s, old(symtab.scopes), ret, sigs).scopes
    ensures diags == CheckStmt(s, old(symtab.scopes), ret, sigs).errs
    ensures error <==> |diags| > 0
    decreases s, 0
  {
    error, diags := CheckCondition(s.cond, symtab, IfCondition);
    var e1, d1 := AnalyzeScoped(s.thenBranch, symtab, ret, sigs);
    error, diags := error || e1, diags + d1;
    if s.elseBranch.Else? && |s.elseBranch.stmts| > 0 {
      var e2, d2 := AnalyzeScoped(s.elseBranch.stmts, symtab, ret, sigs);
      error, diags := error || e2, diags + d2;
    }
  }

  /** A `while`: the condition, then the body in its own scope. */
  method AnalyzeWhile(s: Stmt, symtab: SymbolTable, ret: string, sigs: map<string, Signature>)
    returns (error: bool, diags: seq<SemanticError>)
    requires s.While? && |symtab.scopes| > 0
    modifies symtab
    ensures symtab.scopes == CheckStmt(s, old(symtab.scopes), ret, sigs).scopes
    ensures diags == CheckStmt(s, old(symtab.scopes), ret, sigs).errs
    ensures error <==> |diags| > 0
    decreases s, 0
  {
    error, diags := CheckCondition(s.cond, symtab, WhileCondition);
    var e1, d1 := AnalyzeScoped(s.body, symtab, ret, sigs);
    error, diags := error || e1, diags + d1;
  }

  /** The `for s in ...` loops over a branch, a loop body or a function body. */
  method AnalyzeBlock(ss: seq<Stmt>, symtab: SymbolTable, ret: string, sigs: map<string, Signature>)
    returns (error: bool, diags: seq<SemanticError>)
    requires |symtab.scopes| > 0
    modifies symtab
    ensures symtab.scopes == CheckBlock(ss, old(symtab.scopes), ret, sigs).scopes
    ensures diags == CheckBlock(ss, old(symtab.scopes), ret, sigs).errs
    ensures error <==> |diags| > 0
    decreases ss, 0
  {
    ghost var whole := CheckBlock(ss, symtab.scopes, ret, sigs);
    ghost var depth := |symtab.scopes|;
    error, diags := false, [];
    var i := 0;
    while i < |ss|
      invariant 0 <= i <= |ss|
      invariant |symtab.scopes| == depth
      invariant CheckBlock(ss[i..], symtab.scopes, ret, sigs).scopes == whole.scopes
      invariant diags + CheckBlock(ss[i..], symtab.scopes, ret, sigs).errs == whole.errs
      invariant error <==> |diags| > 0
    {
      assert ss[i..][1..] == ss[i + 1..];
      ghost var a := CheckStmt(ss[i], symtab.scopes, ret, sigs);
      ghost var rest := CheckBlock(ss[i + 1..], a.scopes, ret, sigs);
      assert CheckBlock(ss[i..], symtab.scopes, ret, sigs) == Check(rest.scopes, a.errs + rest.errs);
      var e, d := AnalyzeStatement(ss[i], symtab, ret, sigs);
      AppendAssoc(diags, d, CheckBlock(ss[i + 1..], symtab.scopes, ret, sigs).errs);
      error, diags := error || e, diags + d;
      i := i + 1;
    }
    assert diags + [] == diags;
  }

  /** The first loop of `analyze`: function names into the global scope, signatures into the map. */
  method CollectSignatures(fs: seq<Function>, symtab: SymbolTable)
    returns (signatures: map<string, Signature>, hadError: bool, diags: seq<SemanticError>)
    requires symtab.scopes == [map[]]
    modifies symtab
    ensures symtab.scopes == [Collect(fs, map[], map[]).global]
    ensures signatures == Collect(fs, map[], map[]).sigs
    ensures diags == Collect(fs, map[], map[]).errs
    ensures hadError <==> |diags| > 0
  {
    ghost var pass1 := Collect(fs, map[], map[]);
    signatures, hadError, diags := map[], false, [];
    var i := 0;
    while i < |fs|
      invariant 0 <= i <= |fs|
      invariant |symtab.scopes| == 1
      invariant Collect(fs[i..], symtab.scopes[0], signatures).global == pass1.global
      invariant Collect(fs[i..], symtab.scopes[0], signatures).sigs == pass1.sigs
      invariant diags + Collect(fs[i..], symtab.scopes[0], signatures).errs == pass1.errs
      invariant hadError <==> |diags| > 0
    {
      var f := fs[i];
      assert fs[i..][1..] == fs[i + 1..];
      var ok := symtab.Declare(f.name, f.returnType);
      if ok {
        signatures := signatures[f.name := Signature(ParamTypes(f.params), f.returnType)];
      } else {
        AppendAssoc(diags, [Redeclared(f.name)], Collect(fs[i + 1..], symtab.scopes[0], signatures).errs);
        hadError, diags := true, diags + [Redeclared(f.name)];
      }
      i := i + 1;
    }
    assert diags + [] == diags;
  }

  /** `analyze`: both passes over the program, on a fresh table. */
  method Analyze(p: Program) returns (hadError: bool, diags: seq<SemanticError>)
    ensures diags == AnalyzeProgram(p)
    ensures hadError <==> |diags| > 0
  {
    var symtab := new SymbolTable();
    var signatures, e1, d1 := CollectSignatures(p.functions, symtab);
    var e2, d2 := AnalyzeFunctions(p.functions, symtab, signatures);
    hadError, diags := e1 || e2, d1 + d2;
  }

  /** The second loop of `analyze`: every function against the collected signatures. */
  method AnalyzeFunctions(fs: seq<Function>, symtab: SymbolTable, sigs: map<string, Signature>)
    returns (error: bool, diags: seq<SemanticError>)
    requires |symtab.scopes| > 0
    modifies symtab
    ensures symtab.scopes == old(symtab.scopes)
    ensures diags == CheckFunctions(fs, old(symtab.scopes), sigs).errs
    ensures error <==> |diags| > 0
  {
    ghost var global := symtab.scopes;
    error, diags := false, [];
    var i := 0;
    while i < |fs|
      invariant 0 <= i <= |fs|
      invariant symtab.scopes == global
      invariant diags + CheckFunctions(fs[i..], global, sigs).errs == CheckFunctions(fs, global, sigs).errs
      invariant error <==> |diags| > 0
    {
      assert fs[i..][1..] == fs[i + 1..];
      assert CheckFunctions(fs[i..], global, sigs).errs
        == CheckFunction(fs[i], global, sigs).errs + CheckFunctions(fs[i + 1..], global, sigs).errs;
      var e, d := AnalyzeFunction(fs[i], symtab, sigs);
      AppendAssoc(diags, d, CheckFunctions(fs[i + 1..], global, sigs).errs);
      error, diags := error || e, diags + d;
      i := i + 1;
    }
    assert diags + [] == diags;
  }

  /** One iteration of the second loop of `analyze`: scope, parameters, body, pop. */
  method AnalyzeFunction(f: Function, symtab: SymbolTable, sigs: map<string, Signature>)
    returns (error: bool, diags: seq<SemanticError>)
    requires |symtab.scopes| > 0
    modifies symtab
    ensures symtab.scopes == old(symtab.scopes)
    ensures diags == CheckFunction(f, old(symtab.scopes), sigs).errs
    ensures error <==> |diags| > 0
  {
    ghost var scopes0 := symtab.scopes;
    symtab.EnterScope();
    error, diags := DeclareParameters(f.params, symtab);
    var e, d := AnalyzeBlock(f.body, symtab, f.returnType, sigs);
    symtab.ExitScope();
    error, diags := error || e, diags + d;
  }

  /** The `for param in func.params` loop of `analyze`. */
  method DeclareParameters(ps: seq<Param>, symtab: SymbolTable) returns (error: bool, diags: seq<SemanticError>)
    requires |symtab.scopes| > 0
    modifies symtab
    ensures symtab.scopes == DeclareParams(ps, old(symtab.scopes)).scopes
    ensures diags == DeclareParams(ps, old(symtab.scopes)).errs
    ensures error <==> |diags| > 0
  {
    ghost var whole := DeclareParams(ps, symtab.scopes);
    ghost var depth := |symtab.scopes|;
    error, diags := false, [];
    var j := 0;
    while j < |ps|
      invariant 0 <= j <= |ps|
      invariant |symtab.scopes| == depth
      invariant DeclareParams(ps[j..], symtab.scopes).scopes == whole.scopes
      invariant diags + DeclareParams(ps[j..], symtab.scopes).errs == whole.errs
      invariant error <==> |diags| > 0
    {
      assert ps[j..][1..] == ps[j + 1..];
      ghost var step := DeclareIn(symtab.scopes, ps[j].name, ps[j].paramType);
      var ok := symtab.Declare(ps[j].name, ps[j].paramType);
      var one: seq<SemanticError> := if ok then [] else [Redeclared(ps[j].name)];
      assert one == step.errs && symtab.scopes == step.scopes;
      AppendAssoc(diags, one, DeclareParams(ps[j + 1..], symtab.scopes).errs);
      error, diags := error || !ok, diags + one;
      j := j + 1;
    }
    assert diags + [] == diags;
  }
}
