/**
 * The syntax tree every later stage consumes (scripts/ast.py).
 *
 * The source keeps one `Statement` record whose text `value` ("declare int x",
 * "expr x =", "return x", "if", "while") is both its description and the key
 * the analyzer and the generator dispatch on, with optional call / if / while /
 * expression payloads. Here each kind is its own variant carrying its fields;
 * `Text` rebuilds the source's `value` and `TextDispatch` shows that the
 * prefix tests of the consumers select exactly that variant.
 */
module Ast {
  import opened Strings

  /** `Union[str, Expression]`: a leaf is an identifier or numeric literal as text. */
  datatype Expr =
    | Leaf(text: string)
    | Binary(left: Expr, op: string, right: Expr)

  /** Number of operator nodes. */
  function OpCount(e: Expr): nat {
    match e
    case Leaf(_) => 0
    case Binary(l, _, r) => OpCount(l) + OpCount(r) + 1
  }

  /**
   * Python truthiness of `stmt.expression`: an `Expression` object is always
   * true, a leaf string only when it is non-empty.
   */
  predicate Truthy(e: Expr) {
    !(e.Leaf? && e.text == "")
  }

  datatype FunctionCall = FunctionCall(name: string, args: seq<string>)

  datatype Stmt =
    | Declare(varType: string, name: string, init: Expr)
    | Assign(target: string, value: Expr)
    | Return(value: Expr)
    | Call(target: string, call: FunctionCall)
    | If(cond: Expr, thenBranch: seq<Stmt>, elseBranch: ElsePart)
    | While(cond: Expr, body: seq<Stmt>)

  /** `Optional[List[Statement]]` for the else branch of an `if`. */
  datatype ElsePart = NoElse | Else(stmts: seq<Stmt>)

  datatype Param = Param(paramType: string, name: string)

  datatype Function = Function(returnType: string, name: string, params: seq<Param>, body: seq<Stmt>)

  datatype Program = Program(functions: seq<Function>)

  /** The `value` text the source's parser stores in each statement. */
  function Text(s: Stmt): (r: string)
    ensures s.Declare? ==> StartsWith(r, "declare ")
    ensures s.Assign? ==> StartsWith(r, "expr ")
    ensures s.Call? ==> StartsWith(r, "call ")
  {
    match s
    case Declare(t, n, _) => "declare " + t + " " + n
    case Assign(n, _) => "expr " + n + " ="
    case Return(_) => "return x"
    case Call(target, c) => "call " + target + " = " + c.name
    case If(_, _, _) => "if"
    case While(_, _) => "while"
  }

  /**
   * The second word of the text `call <target> = <name>`: the target,
   * or `=` when the target is empty and the words shift left.
   */
  function CallTarget(target: string): (r: string)
    ensures r != ""
    ensures target != "" ==> r == target
  {
    if target == "" then "=" else target
  }

  /** Which branch of the consumers' if/elif chain a statement text reaches first. */
  datatype Branch = DeclareBranch | ExprBranch | ReturnBranch | PayloadBranch

  function PrefixBranch(value: string): Branch {
    if StartsWith(value, "declare") then DeclareBranch
    else if StartsWith(value, "expr") then ExprBranch
    else if StartsWith(value, "return") then ReturnBranch
    else PayloadBranch
  }

  /** Dispatching on the text prefix selects the statement's own variant. */
  lemma {:induction false} TextDispatch(s: Stmt)
    ensures PrefixBranch(Text(s)) ==
      match s
      case Declare(_, _, _) => DeclareBranch
      case Assign(_, _) => ExprBranch
      case Return(_) => ReturnBranch
      case _ => PayloadBranch
  {
    match s
    case Declare(t, n, _) =>
      assert Text(s)[..7] == "declare";
    case Assign(n, _) =>
      assert Text(s)[..4] == "expr";
      assert Text(s)[0] == 'e';
    case Return(_) =>
    case Call(target, c) =>
      assert Text(s)[0] == 'c';
    case If(_, _, _) =>
    case While(_, _) =>
  }
}
