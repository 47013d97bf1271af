/**
 * What the parser guarantees: where `synchronize` stops, how the two
 * precedence tiers group (shown as a round trip through a printer), the
 * placeholder names and statement texts it produces, and when its top-level
 * loop stops making progress.
 */
module GrammarProperties {
  import opened Strings
  import opened Lexer
  import opened Ast
  import opened Grammar

  // ------------------------------------------------------------ synchronize

  /**
   * `synchronize` stops at the first token from `SyncKinds` or at the end, and
   * every token it skips is neither: it never consumes a synchronising token.
   */
  lemma {:induction false} SynchronizeStops(toks: seq<Token>, pos: nat)
    requires pos <= |toks|
    ensures var r := Synchronize(toks, pos);
      && pos <= r <= |toks|
      && (Cur(toks, r).kind in SyncKinds || Cur(toks, r).kind == EOF)
      && forall i :: pos <= i < r ==> toks[i].kind !in SyncKinds && toks[i].kind != EOF
    decreases |toks| - pos
  {
    var k := Cur(toks, pos).kind;
    if !(k in SyncKinds || k == EOF) {
      SynchronizeStops(toks, pos + 1);
    }
  }

  // ------------------------------------------------------------ expressions

  /** Expressions whose operators are the four the grammar knows. */
  predicate Arith(e: Expr) {
    match e
    case Leaf(_) => true
    case Binary(l, op, r) => (AddOp(op) || MulOp(op)) && Arith(l) && Arith(r)
  }

  /** The precedence tier of an operator: 2 for `*` and `/`, 1 otherwise. */
  function Prec(op: string): nat {
    if MulOp(op) then 2 else 1
  }

  /**
   * Tokens for `e` readable at tier `level` (1: a sum, 2: a product, 3: a
   * primary): a right operand sits one tier up, and an operator below
   * `level` is parenthesised.
   */
  function Print(e: Expr, level: nat): seq<Token> {
    match e
    case Leaf(t) => [Token(ID, t)]
    case Binary(l, op, r) =>
      var body := Print(l, Prec(op)) + [Token(OP, op)] + Print(r, Prec(op) + 1);
      if level <= Prec(op) then body else [Token(LPAREN, "(")] + body + [Token(RPAREN, ")")]
  }

  predicate InTier(e: Expr, tier: nat) {
    e.Binary? && Prec(e.op) == tier
  }

  /** The leftmost operand of the chain of tier-`tier` operators at the root of `e`. */
  function Head(e: Expr, tier: nat): Expr {
    if InTier(e, tier) then Head(e.left, tier) else e
  }

  /** The tokens of that chain after its leftmost operand. */
  function Tail(e: Expr, tier: nat): seq<Token> {
    if InTier(e, tier) then Tail(e.left, tier) + [Token(OP, e.op)] + Print(e.right, tier + 1) else []
  }

  /** `e` with the leftmost operand of its root chain replaced by `acc`. */
  function Graft(e: Expr, tier: nat, acc: Expr): Expr {
    if InTier(e, tier) then Binary(Graft(e.left, tier, acc), e.op, e.right) else acc
  }

  lemma {:induction false} GraftHead(e: Expr, tier: nat)
    ensures Graft(e, tier, Head(e, tier)) == e
  {
    if InTier(e, tier) {
      GraftHead(e.left, tier);
    }
  }

  lemma {:induction false} PrintSplit(e: Expr, tier: nat)
    requires tier == 1 || tier == 2
    ensures Print(e, tier) == Print(Head(e, tier), tier + 1) + Tail(e, tier)
    decreases e
  {
    if InTier(e, tier) {
      PrintSplit(e.left, tier);
      AppendAssoc(Print(Head(e.left, tier), tier + 1), Tail(e.left, tier), [Token(OP, e.op)]);
      AppendAssoc(Print(Head(e.left, tier), tier + 1), Tail(e.left, tier) + [Token(OP, e.op)], Print(e.right, tier + 1));
    } else {
      assert Tail(e, tier) == [];
    }
  }

  /** `s` sits in `toks` from `pos` on. */
  predicate At(toks: seq<Token>, pos: nat, s: seq<Token>) {
    pos + |s| <= |toks| && forall i {:trigger s[i]} :: 0 <= i < |s| ==> toks[pos + i] == s[i]
  }

  lemma {:induction false} AtSplit(toks: seq<Token>, pos: nat, a: seq<Token>, b: seq<Token>)
    requires At(toks, pos, a + b)
    ensures At(toks, pos, a) && At(toks, pos + |a|, b)
  {
    forall i | 0 <= i < |a|
      ensures toks[pos + i] == a[i]
    {
      assert (a + b)[i] == a[i];
    }
    forall i | 0 <= i < |b|
      ensures toks[pos + |a| + i] == b[i]
    {
      assert (a + b)[|a| + i] == b[i];
    }
  }

  /** A token between two runs, all three sitting in `toks` from `pos` on. */
  lemma {:induction false} AtSplit3(toks: seq<Token>, pos: nat, a: seq<Token>, x: Token, b: seq<Token>)
    requires At(toks, pos, a + [x] + b)
    ensures At(toks, pos, a) && pos + |a| < |toks| && toks[pos + |a|] == x && At(toks, pos + |a| + 1, b)
  {
    AtSplit(toks, pos, a + [x], b);
    AtSplit(toks, pos, a, [x]);
    assert [x][0] == x;
  }

  lemma {:induction false} GraftStep(e: Expr, tier: nat, acc: Expr)
    requires InTier(e, tier)
    ensures Graft(e, tier, acc) == Binary(Graft(e.left, tier, acc), e.op, e.right)
  {
  }

  /** Where the pieces of a tier's tail sit in `toks`. */
  lemma {:induction false} TailParts(e: Expr, tier: nat, toks: seq<Token>, pos: nat)
    requires InTier(e, tier) && At(toks, pos, Tail(e, tier))
    ensures |Tail(e, tier)| == |Tail(e.left, tier)| + 1 + |Print(e.right, tier + 1)|
    ensures At(toks, pos, Tail(e.left, tier))
    ensures pos + |Tail(e.left, tier)| < |toks| && toks[pos + |Tail(e.left, tier)|] == Token(OP, e.op)
    ensures At(toks, pos + |Tail(e.left, tier)| + 1, Print(e.right, tier + 1))
  {
    var a, b := Tail(e.left, tier), Print(e.right, tier + 1);
    assert Tail(e, tier) == a + [Token(OP, e.op)] + b;
    AtSplit3(toks, pos, a, Token(OP, e.op), b);
  }

  /** The last operator of a tier's tail, its operand, and the chain grafted before them. */
  lemma {:induction false} LastParts(e: Expr, tier: nat, toks: seq<Token>, pos: nat, acc: Expr) returns (q: nat, a: Expr, end: nat, g: Expr)
    requires InTier(e, tier) && At(toks, pos, Tail(e, tier))
    ensures q == pos + |Tail(e.left, tier)| && a == Graft(e.left, tier, acc)
    ensures end == pos + |Tail(e, tier)| && end == q + 1 + |Print(e.right, tier + 1)|
    ensures g == Graft(e, tier, acc) && g == Binary(a, e.op, e.right)
    ensures At(toks, pos, Tail(e.left, tier))
    ensures q < |toks| && toks[q] == Token(OP, e.op)
    ensures At(toks, q + 1, Print(e.right, tier + 1))
  {
    TailParts(e, tier, toks, pos);
    GraftStep(e, tier, acc);
    q, a, end, g := pos + |Tail(e.left, tier)|, Graft(e.left, tier, acc), pos + |Tail(e, tier)|, Graft(e, tier, acc);
  }

  /** The last operator of a 2's tail, its operand, and the chain grafted before them. */
  lemma {:induction false} FactorLastParts(e: Expr, toks: seq<Token>, pos: nat, acc: Expr) returns (q: nat, a: Expr, end: nat, g: Expr)
    requires Arith(e) && InTier(e, 2) && At(toks, pos, Tail(e, 2))
    ensures MulOp(e.op) && Arith(e.right) && |Print(e.right, 3)| < |Tail(e, 2)|
    ensures q == pos + |Tail(e.left, 2)| && a == Graft(e.left, 2, acc)
    ensures end == pos + |Tail(e, 2)| && end == q + 1 + |Print(e.right, 3)|
    ensures g == Graft(e, 2, acc) && g == Binary(a, e.op, e.right)
    ensures q < |toks| && toks[q] == Token(OP, e.op)
    ensures At(toks, q + 1, Print(e.right, 3))
  {
    q, a, end, g := LastParts(e, 2, toks, pos, acc);
  }

  /** Where the parentheses and the body of a printed operand sit in `toks`. */
  lemma {:induction false} ParenParts(e: Expr, toks: seq<Token>, pos: nat)
    requires e.Binary? && At(toks, pos, Print(e, 3))
    ensures |Print(e, 3)| == |Print(e, 1)| + 2
    ensures Cur(toks, pos) == Token(LPAREN, "(")
    ensures At(toks, pos + 1, Print(e, 1))
    ensures Cur(toks, pos + 1 + |Print(e, 1)|) == Token(RPAREN, ")")
  {
    var body := Print(e, 1);
    assert Print(e, 3) == [Token(LPAREN, "(")] + body + [Token(RPAREN, ")")];
    assert toks[pos] == Print(e, 3)[0];
    AtSplit(toks, pos, [Token(LPAREN, "(")] + body, [Token(RPAREN, ")")]);
    AtSplit(toks, pos, [Token(LPAREN, "(")], body);
    assert [Token(RPAREN, ")")][0] == Token(RPAREN, ")");
  }

  lemma {:induction false} PrimaryRoundTrip(e: Expr, toks: seq<Token>, pos: nat)
    requires Arith(e) && At(toks, pos, Print(e, 3))
    ensures Primary(toks, pos) == Step(e, pos + |Print(e, 3)|, [])
    decreases |Print(e, 3)|, 1
  {
    if e.Leaf? {
      assert toks[pos] == Print(e, 3)[0];
    } else {
      ParenRoundTrip(e, toks, pos);
    }
  }

  /** A parenthesised operand is read back through `parse_expression` and the `)` after it. */
  lemma {:induction false} ParenRoundTrip(e: Expr, toks: seq<Token>, pos: nat)
    requires e.Binary? && Arith(e) && At(toks, pos, Print(e, 3))
    ensures Primary(toks, pos) == Step(e, pos + |Print(e, 3)|, [])
    decreases |Print(e, 3)|, 0
  {
    ParenParts(e, toks, pos);
    TermRoundTrip(e, toks, pos + 1);
  }

  lemma {:induction false} FactorTailRoundTrip(e: Expr, toks: seq<Token>, pos: nat, acc: Expr)
    requires Arith(e) && At(toks, pos, Tail(e, 2))
    ensures FactorTail(toks, pos, acc) == FactorTail(toks, pos + |Tail(e, 2)|, Graft(e, 2, acc))
    decreases |Tail(e, 2)|, 2
  {
    if InTier(e, 2) {
      FactorTailLink(e, toks, pos, acc);
    } else {
      assert Tail(e, 2) == [] && Graft(e, 2, acc) == acc;
    }
  }

  /** The last operator of a product chain, read after the rest of the chain. */
  lemma {:induction false} FactorTailLink(e: Expr, toks: seq<Token>, pos: nat, acc: Expr)
    requires Arith(e) && InTier(e, 2) && At(toks, pos, Tail(e, 2))
    ensures FactorTail(toks, pos, acc) == FactorTail(toks, pos + |Tail(e, 2)|, Graft(e, 2, acc))
    decreases |Tail(e, 2)|, 1
  {
    TailParts(e, 2, toks, pos);
    FactorTailRoundTrip(e.left, toks, pos, acc);
    FactorTailLast(e, toks, pos, acc);
    FactorTailChain(e, toks, pos, acc);
  }

  lemma {:induction false} FactorTailChain(e: Expr, toks: seq<Token>, pos: nat, acc: Expr)
    requires InTier(e, 2) && pos + |Tail(e, 2)| <= |toks| && pos + |Tail(e.left, 2)| <= |toks|
    requires FactorTail(toks, pos, acc) == FactorTail(toks, pos + |Tail(e.left, 2)|, Graft(e.left, 2, acc))
    requires FactorTail(toks, pos + |Tail(e.left, 2)|, Graft(e.left, 2, acc))
      == FactorTail(toks, pos + |Tail(e, 2)|, Graft(e, 2, acc))
    ensures FactorTail(toks, pos, acc) == FactorTail(toks, pos + |Tail(e, 2)|, Graft(e, 2, acc))
  {
  }

  /** The turn of the `parse_factor` loop that reads the last operator and operand of `e`. */
  lemma {:induction false} FactorTailLast(e: Expr, toks: seq<Token>, pos: nat, acc: Expr)
    requires Arith(e) && InTier(e, 2) && At(toks, pos, Tail(e, 2))
    ensures pos + |Tail(e, 2)| <= |toks|
    ensures FactorTail(toks, pos + |Tail(e.left, 2)|, Graft(e.left, 2, acc))
      == FactorTail(toks, pos + |Tail(e, 2)|, Graft(e, 2, acc))
    decreases |Tail(e, 2)|, 0
  {
    var q, a, end, g := FactorLastParts(e, toks, pos, acc);
    FactorTailOperandTo(toks, q, a, e.op, e.right, end, g);
  }

  lemma {:induction false} FactorTailOperandTo(toks: seq<Token>, q: nat, acc: Expr, op: string, r: Expr, end: nat, g: Expr)
    requires q < |toks| && toks[q] == Token(OP, op) && MulOp(op)
    requires Arith(r) && At(toks, q + 1, Print(r, 3))
    requires end == q + 1 + |Print(r, 3)| && g == Binary(acc, op, r)
    ensures FactorTail(toks, q, acc) == FactorTail(toks, end, g)
    decreases |Print(r, 3)|, 3
  {
    FactorTailOperand(toks, q, acc, op, r);
  }

  /** One turn of the `parse_factor` loop over an operator and a printed operand. */
  lemma {:induction false} FactorTailOperand(toks: seq<Token>, q: nat, acc: Expr, op: string, r: Expr)
    requires q < |toks| && toks[q] == Token(OP, op) && MulOp(op)
    requires Arith(r) && At(toks, q + 1, Print(r, 3))
    ensures FactorTail(toks, q, acc) == FactorTail(toks, q + 1 + |Print(r, 3)|, Binary(acc, op, r))
    decreases |Print(r, 3)|, 2
  {
    PrimaryRoundTrip(r, toks, q + 1);
    FactorTailStep(toks, q, acc, op, r);
  }

  /** One round of the loop of `parse_factor` whose operand `r` is read without error. */
  lemma {:induction false} FactorTailStep(toks: seq<Token>, q: nat, acc: Expr, op: string, r: Expr)
    requires q < |toks| && toks[q] == Token(OP, op) && MulOp(op)
    requires Primary(toks, q + 1) == Step(r, q + 1 + |Print(r, 3)|, [])
    ensures q + 1 + |Print(r, 3)| <= |toks|
    ensures FactorTail(toks, q, acc) == FactorTail(toks, q + 1 + |Print(r, 3)|, Binary(acc, op, r))
  {
    assert IsMulOp(Cur(toks, q)) && Cur(toks, q).value == op;
    var rest := FactorTail(toks, q + 1 + |Print(r, 3)|, Binary(acc, op, r));
    assert [] + rest.errs == rest.errs;
  }

  /** Where the leftmost operand of a tier and the rest of the chain sit in `toks`. */
  lemma {:induction false} HeadParts(e: Expr, tier: nat, toks: seq<Token>, pos: nat) returns (h: Expr, q: nat, end: nat)
    requires tier == 1 || tier == 2
    requires Arith(e) && At(toks, pos, Print(e, tier))
    ensures h == Head(e, tier) && q == pos + |Print(Head(e, tier), tier + 1)|
    ensures end == pos + |Print(e, tier)| && end == q + |Tail(e, tier)|
    ensures Arith(Head(e, tier)) && Graft(e, tier, Head(e, tier)) == e
    ensures |Print(e, tier)| == |Print(Head(e, tier), tier + 1)| + |Tail(e, tier)|
    ensures At(toks, pos, Print(Head(e, tier), tier + 1))
    ensures At(toks, pos + |Print(Head(e, tier), tier + 1)|, Tail(e, tier))
  {
    PrintSplit(e, tier);
    HeadArith(e, tier);
    GraftHead(e, tier);
    AtSplit(toks, pos, Print(Head(e, tier), tier + 1), Tail(e, tier));
    h, q, end := Head(e, tier), pos + |Print(Head(e, tier), tier + 1)|, pos + |Print(e, tier)|;
  }

  lemma {:induction false} FactorRoundTrip(e: Expr, toks: seq<Token>, pos: nat)
    requires Arith(e) && At(toks, pos, Print(e, 2))
    requires !IsMulOp(Cur(toks, pos + |Print(e, 2)|))
    ensures Factor(toks, pos) == Step(e, pos + |Print(e, 2)|, [])
    decreases |Print(e, 2)|, 3
  {
    FactorHead(e, toks, pos);
    FactorChain(e, toks, pos);
    assert Primary(toks, pos).errs + FactorTail(toks, Primary(toks, pos).pos, Primary(toks, pos).val).errs == [];
  }

  /** The leftmost primary of a product chain. */
  lemma {:induction false} FactorHead(e: Expr, toks: seq<Token>, pos: nat)
    requires Arith(e) && At(toks, pos, Print(e, 2))
    ensures Primary(toks, pos) == Step(Head(e, 2), pos + |Print(Head(e, 2), 3)|, [])
    decreases |Print(e, 2)|, 2
  {
    var h, q, end := HeadParts(e, 2, toks, pos);
    PrimaryRoundTrip(h, toks, pos);
  }

  /** After the leftmost primary, the `parse_factor` loop reads the rest of the chain and rebuilds `e`. */
  lemma {:induction false} FactorChain(e: Expr, toks: seq<Token>, pos: nat)
    requires Arith(e) && At(toks, pos, Print(e, 2))
    requires !IsMulOp(Cur(toks, pos + |Print(e, 2)|))
    ensures pos + |Print(Head(e, 2), 3)| <= |toks|
    ensures FactorTail(toks, pos + |Print(Head(e, 2), 3)|, Head(e, 2)) == Step(e, pos + |Print(e, 2)|, [])
    decreases |Print(e, 2)|, 2
  {
    var h, q, end := HeadParts(e, 2, toks, pos);
    FactorTailEnds(e, toks, q, h, end);
  }

  /** The loop of `parse_factor` reads the whole chain and stops at a token that is not `*` or `/`. */
  lemma {:induction false} FactorTailEnds(e: Expr, toks: seq<Token>, pos: nat, acc: Expr, end: nat)
    requires Arith(e) && At(toks, pos, Tail(e, 2))
    requires end == pos + |Tail(e, 2)| && !IsMulOp(Cur(toks, end))
    ensures FactorTail(toks, pos, acc) == Step(Graft(e, 2, acc), end, [])
    decreases |Tail(e, 2)|, 3
  {
    FactorTailRoundTrip(e, toks, pos, acc);
    FactorTailStop(e, toks, pos, acc);
  }

  lemma {:induction false} FactorTailStop(e: Expr, toks: seq<Token>, pos: nat, acc: Expr)
    requires pos + |Tail(e, 2)| <= |toks| && !IsMulOp(Cur(toks, pos + |Tail(e, 2)|))
    ensures FactorTail(toks, pos + |Tail(e, 2)|, Graft(e, 2, acc)) == Step(Graft(e, 2, acc), pos + |Tail(e, 2)|, [])
  {
  }

  lemma {:induction false} TermTailRoundTrip(e: Expr, toks: seq<Token>, pos: nat, acc: Expr)
    requires Arith(e) && At(toks, pos, Tail(e, 1))
    requires !IsMulOp(Cur(toks, pos + |Tail(e, 1)|))
    ensures TermTail(toks, pos, acc) == TermTail(toks, pos + |Tail(e, 1)|, Graft(e, 1, acc))
    decreases |Tail(e, 1)|, 2
  {
    if InTier(e, 1) {
      TermTailLink(e, toks, pos, acc);
    } else {
      assert Tail(e, 1) == [] && Graft(e, 1, acc) == acc;
    }
  }

  /** The last operator of a sum chain, read after the rest of the chain. */
  lemma {:induction false} TermTailLink(e: Expr, toks: seq<Token>, pos: nat, acc: Expr)
    requires Arith(e) && InTier(e, 1) && At(toks, pos, Tail(e, 1))
    requires !IsMulOp(Cur(toks, pos + |Tail(e, 1)|))
    ensures TermTail(toks, pos, acc) == TermTail(toks, pos + |Tail(e, 1)|, Graft(e, 1, acc))
    decreases |Tail(e, 1)|, 1
  {
    TermTailLast(e, toks, pos, acc);
    TailParts(e, 1, toks, pos);
    TermTailRoundTrip(e.left, toks, pos, acc);
    TermTailChain(e, toks, pos, acc);
  }

  lemma {:induction false} TermTailChain(e: Expr, toks: seq<Token>, pos: nat, acc: Expr)
    requires InTier(e, 1) && pos + |Tail(e, 1)| <= |toks| && pos + |Tail(e.left, 1)| <= |toks|
    requires TermTail(toks, pos, acc) == TermTail(toks, pos + |Tail(e.left, 1)|, Graft(e.left, 1, acc))
    requires TermTail(toks, pos + |Tail(e.left, 1)|, Graft(e.left, 1, acc))
      == TermTail(toks, pos + |Tail(e, 1)|, Graft(e, 1, acc))
    ensures TermTail(toks, pos, acc) == TermTail(toks, pos + |Tail(e, 1)|, Graft(e, 1, acc))
  {
  }

  /** The turn of the `parse_term` loop that reads the last operator and operand of `e`. */
  lemma {:induction false} TermTailLast(e: Expr, toks: seq<Token>, pos: nat, acc: Expr)
    requires Arith(e) && InTier(e, 1) && At(toks, pos, Tail(e, 1))
    requires !IsMulOp(Cur(toks, pos + |Tail(e, 1)|))
    ensures pos + |Tail(e, 1)| <= |toks|
    ensures !IsMulOp(Cur(toks, pos + |Tail(e.left, 1)|))
    ensures TermTail(toks, pos + |Tail(e.left, 1)|, Graft(e.left, 1, acc))
      == TermTail(toks, pos + |Tail(e, 1)|, Graft(e, 1, acc))
    decreases |Tail(e, 1)|, 0
  {
    var q, a, end, g := LastParts(e, 1, toks, pos, acc);
    TermTailOperandTo(toks, q, a, e.op, e.right, end, g);
  }

  lemma {:induction false} TermTailOperandTo(toks: seq<Token>, q: nat, acc: Expr, op: string, r: Expr, end: nat, g: Expr)
    requires q < |toks| && toks[q] == Token(OP, op) && AddOp(op)
    requires Arith(r) && At(toks, q + 1, Print(r, 2))
    requires end == q + 1 + |Print(r, 2)| && g == Binary(acc, op, r) && !IsMulOp(Cur(toks, end))
    ensures TermTail(toks, q, acc) == TermTail(toks, end, g)
    decreases |Print(r, 2)|, 5
  {
    TermTailOperand(toks, q, acc, op, r);
  }

  /** One turn of the `parse_term` loop over an operator and a printed operand. */
  lemma {:induction false} TermTailOperand(toks: seq<Token>, q: nat, acc: Expr, op: string, r: Expr)
    requires q < |toks| && toks[q] == Token(OP, op) && AddOp(op)
    requires Arith(r) && At(toks, q + 1, Print(r, 2))
    requires !IsMulOp(Cur(toks, q + 1 + |Print(r, 2)|))
    ensures TermTail(toks, q, acc) == TermTail(toks, q + 1 + |Print(r, 2)|, Binary(acc, op, r))
    decreases |Print(r, 2)|, 4
  {
    FactorRoundTrip(r, toks, q + 1);
    TermTailStep(toks, q, acc, op, r);
  }

  /** One round of the loop of `parse_term` whose operand `r` is read without error. */
  lemma {:induction false} TermTailStep(toks: seq<Token>, q: nat, acc: Expr, op: string, r: Expr)
    requires q < |toks| && toks[q] == Token(OP, op) && AddOp(op)
    requires Factor(toks, q + 1) == Step(r, q + 1 + |Print(r, 2)|, [])
    ensures q + 1 + |Print(r, 2)| <= |toks|
    ensures TermTail(toks, q, acc) == TermTail(toks, q + 1 + |Print(r, 2)|, Binary(acc, op, r))
  {
    assert IsAddOp(Cur(toks, q)) && Cur(toks, q).value == op;
    var rest := TermTail(toks, q + 1 + |Print(r, 2)|, Binary(acc, op, r));
    assert [] + rest.errs == rest.errs;
  }

  lemma {:induction false} TermRoundTrip(e: Expr, toks: seq<Token>, pos: nat)
    requires Arith(e) && At(toks, pos, Print(e, 1))
    requires !IsMulOp(Cur(toks, pos + |Print(e, 1)|)) && !IsAddOp(Cur(toks, pos + |Print(e, 1)|))
    ensures Term(toks, pos) == Step(e, pos + |Print(e, 1)|, [])
    decreases |Print(e, 1)|, 5
  {
    TermHead(e, toks, pos);
    TermChain(e, toks, pos);
    assert Factor(toks, pos).errs + TermTail(toks, Factor(toks, pos).pos, Factor(toks, pos).val).errs == [];
  }

  /** The leftmost product of a sum chain, which stops before the first `+` or `-`. */
  lemma {:induction false} TermHead(e: Expr, toks: seq<Token>, pos: nat)
    requires Arith(e) && At(toks, pos, Print(e, 1))
    requires !IsMulOp(Cur(toks, pos + |Print(e, 1)|))
    ensures Factor(toks, pos) == Step(Head(e, 1), pos + |Print(Head(e, 1), 2)|, [])
    decreases |Print(e, 1)|, 4
  {
    var h, q, end := HeadParts(e, 1, toks, pos);
    if InTier(e, 1) {
      TailStartsWithOperator(e, 1);
      assert toks[q] == Tail(e, 1)[0];
    }
    FactorRoundTrip(h, toks, pos);
  }

  /** After the leftmost product, the `parse_term` loop reads the rest of the chain and rebuilds `e`. */
  lemma {:induction false} TermChain(e: Expr, toks: seq<Token>, pos: nat)
    requires Arith(e) && At(toks, pos, Print(e, 1))
    requires !IsMulOp(Cur(toks, pos + |Print(e, 1)|)) && !IsAddOp(Cur(toks, pos + |Print(e, 1)|))
    ensures pos + |Print(Head(e, 1), 2)| <= |toks|
    ensures TermTail(toks, pos + |Print(Head(e, 1), 2)|, Head(e, 1)) == Step(e, pos + |Print(e, 1)|, [])
    decreases |Print(e, 1)|, 4
  {
    var h, q, end := HeadParts(e, 1, toks, pos);
    TermTailEnds(e, toks, q, h, end);
  }

  /** The loop of `parse_term` reads the whole chain and stops at a token that is not `+` or `-`. */
  lemma {:induction false} TermTailEnds(e: Expr, toks: seq<Token>, pos: nat, acc: Expr, end: nat)
    requires Arith(e) && At(toks, pos, Tail(e, 1))
    requires end == pos + |Tail(e, 1)| && !IsMulOp(Cur(toks, end)) && !IsAddOp(Cur(toks, end))
    ensures TermTail(toks, pos, acc) == Step(Graft(e, 1, acc), end, [])
    decreases |Tail(e, 1)|, 3
  {
    TermTailRoundTrip(e, toks, pos, acc);
    TermTailStop(e, toks, pos, acc);
  }

  lemma {:induction false} TermTailStop(e: Expr, toks: seq<Token>, pos: nat, acc: Expr)
    requires pos + |Tail(e, 1)| <= |toks| && !IsAddOp(Cur(toks, pos + |Tail(e, 1)|))
    ensures TermTail(toks, pos + |Tail(e, 1)|, Graft(e, 1, acc)) == Step(Graft(e, 1, acc), pos + |Tail(e, 1)|, [])
  {
  }

  lemma {:induction false} HeadArith(e: Expr, tier: nat)
    requires Arith(e)
    ensures Arith(Head(e, tier))
  {
    if InTier(e, tier) {
      HeadArith(e.left, tier);
    }
  }

  lemma {:induction false} TailStartsWithOperator(e: Expr, tier: nat)
    requires Arith(e) && InTier(e, tier)
    ensures |Tail(e, tier)| > 0 && Tail(e, tier)[0].kind == OP && Prec(Tail(e, tier)[0].value) == tier
  {
    if InTier(e.left, tier) {
      TailStartsWithOperator(e.left, tier);
    }
  }

  /**
   * Printing an expression and parsing it back gives the same tree: `*` and
   * `/` bind tighter than `+` and `-`, and both tiers group to the left,
   * whatever token follows that is not itself one of the four operators.
   */
  lemma {:induction false} ExpressionRoundTrip(e: Expr, rest: seq<Token>)
    requires Arith(e)
    requires rest == [] || (!IsAddOp(rest[0]) && !IsMulOp(rest[0]))
    ensures Expression(Print(e, 1) + rest, 0) == Step(e, |Print(e, 1)|, [])
  {
    var toks := Print(e, 1) + rest;
    assert forall i :: 0 <= i < |Print(e, 1)| ==> toks[i] == Print(e, 1)[i];
    TermRoundTrip(e, toks, 0);
  }

  /** `a + b * c` groups the product first. */
  lemma {:induction false} ProductBindsTighter()
    ensures Expression([Token(ID, "a"), Token(OP, "+"), Token(ID, "b"), Token(OP, "*"), Token(ID, "c")], 0).val
      == Binary(Leaf("a"), "+", Binary(Leaf("b"), "*", Leaf("c")))
  {
    var e := Binary(Leaf("a"), "+", Binary(Leaf("b"), "*", Leaf("c")));
    assert Print(e, 1) == [Token(ID, "a"), Token(OP, "+"), Token(ID, "b"), Token(OP, "*"), Token(ID, "c")];
    ExpressionRoundTrip(e, []);
    assert Print(e, 1) + [] == Print(e, 1);
  }

  /** `a - b - c` is `(a - b) - c`. */
  lemma {:induction false} SubtractionGroupsLeft()
    ensures Expression([Token(ID, "a"), Token(OP, "-"), Token(ID, "b"), Token(OP, "-"), Token(ID, "c")], 0).val
      == Binary(Binary(Leaf("a"), "-", Leaf("b")), "-", Leaf("c"))
  {
    var e := Binary(Binary(Leaf("a"), "-", Leaf("b")), "-", Leaf("c"));
    assert Print(e, 1) == [Token(ID, "a"), Token(OP, "-"), Token(ID, "b"), Token(OP, "-"), Token(ID, "c")];
    ExpressionRoundTrip(e, []);
    assert Print(e, 1) + [] == Print(e, 1);
  }

  // ------------------------------------------------------------ fallbacks

  /** A name slot: the identifier's text when one is there and non-empty, `default` otherwise. */
  function NameOr(toks: seq<Token>, pos: nat, default: string): string {
    var t := Cur(toks, pos);
    if t.kind == ID && t.value != "" then t.value else default
  }

  /** The type of a type keyword is its kind's name in lower case. */
  lemma {:induction false} TypeNameIsLowerKind(k: Kind)
    requires IsTypeKind(k)
    ensures TypeName(k) == Lower(KindName(k))
  {
  }

  /** `parse_primary` on anything but an identifier, a number or `(` reports it, skips it and reads "0". */
  lemma {:induction false} PrimaryFallback(toks: seq<Token>, pos: nat)
    requires pos <= |toks|
    requires Cur(toks, pos).kind !in {ID, NUMBER, LPAREN}
    ensures Primary(toks, pos).val == Leaf("0")
    ensures Primary(toks, pos).pos == if pos < |toks| then pos + 1 else pos
    ensures Primary(toks, pos).errs == [Unexpected(Cur(toks, pos))]
  {
  }

  /** A function without a usable name is called "unnamed_func"; its return type is the keyword in lower case. */
  lemma {:induction false} FunctionNameFallback(toks: seq<Token>, pos: nat)
    requires pos < |toks| && IsTypeKind(toks[pos].kind)
    ensures FunctionDef(toks, pos).val.name == NameOr(toks, pos + 1, "unnamed_func")
    ensures FunctionDef(toks, pos).val.returnType == Lower(KindName(toks[pos].kind))
  {
    NameSlot(toks, pos + 1, "unnamed_func");
    TypeNameIsLowerKind(toks[pos].kind);
  }

  /** Each parameter is `type name`, the name falling back to "param". */
  lemma {:induction false} ParamFallback(toks: seq<Token>, pos: nat)
    requires pos <= |toks| && IsTypeKind(Cur(toks, pos).kind)
    ensures |ParamLoop(toks, pos).val| >= 1
    ensures ParamLoop(toks, pos).val[0] == Param(Lower(KindName(Cur(toks, pos).kind)), NameOr(toks, pos + 1, "param"))
  {
  }

  /** The name slot read by `match('ID') or default`. */
  lemma {:induction false} NameSlot(toks: seq<Token>, pos: nat, default: string)
    requires pos <= |toks|
    ensures OrDefault(MatchKind(toks, pos, ID).val, default) == NameOr(toks, pos, default)
  {
  }

  /** A declaration reads as "declare <type> <name>", the name falling back to "var". */
  lemma {:induction false} DeclarationText(toks: seq<Token>, pos: nat)
    requires pos < |toks| && IsTypeKind(toks[pos].kind)
    ensures Text(VarDecl(toks, pos).val) == "declare " + Lower(KindName(toks[pos].kind)) + " " + NameOr(toks, pos + 1, "var")
  {
    NameSlot(toks, pos + 1, "var");
    TypeNameIsLowerKind(toks[pos].kind);
  }

  /** Whatever operator stands in the `=` slot of a declaration is accepted without an error. */
  lemma {:induction false} DeclarationAnyOperator(toks: seq<Token>, pos: nat, op: string)
    requires pos + 2 < |toks| && IsTypeKind(toks[pos].kind)
    requires toks[pos + 1].kind == ID && toks[pos + 2] == Token(OP, op)
    ensures VarDecl(toks, pos).val.init == Expression(toks, pos + 3).val
    ensures VarDecl(toks, pos).errs == Expression(toks, pos + 3).errs + MatchKind(toks, Expression(toks, pos + 3).pos, SEMI).errs
  {
    var e := Expression(toks, pos + 3);
    assert MatchKind(toks, pos + 1, ID).pos == pos + 2;
    assert MatchKind(toks, pos + 2, OP) == Step(Some(op), pos + 3, []);
  }

  /** An expression statement reads as "expr <name> =", the name falling back to "unknown". */
  lemma {:induction false} AssignmentText(toks: seq<Token>, pos: nat)
    requires pos <= |toks|
    ensures Text(ExprStmt(toks, pos).val) == "expr " + NameOr(toks, pos, "unknown") + " ="
  {
    NameSlot(toks, pos, "unknown");
  }

  /** Any operator is accepted as the `=` of an expression statement. */
  lemma {:induction false} AssignmentAnyOperator(toks: seq<Token>, pos: nat, op: string)
    requires pos + 1 < |toks| && toks[pos].kind == ID && toks[pos + 1] == Token(OP, op)
    ensures ExprStmt(toks, pos).val.value == Expression(toks, pos + 2).val
    ensures ExprStmt(toks, pos).errs == Expression(toks, pos + 2).errs + MatchKind(toks, Expression(toks, pos + 2).pos, SEMI).errs
  {
    assert MatchKind(toks, pos, ID).pos == pos + 1;
    assert MatchKind(toks, pos + 1, OP) == Step(Some(op), pos + 2, []);
  }

  /** A return statement always reads "return x", whatever it returns. */
  lemma {:induction false} ReturnText(toks: seq<Token>, pos: nat)
    requires pos < |toks| && toks[pos].kind == RETURN
    ensures Text(ReturnStmt(toks, pos).val) == "return x"
    ensures ReturnStmt(toks, pos).val.value == Expression(toks, pos + 1).val
  {
  }

  // ------------------------------------------------------------ top level

  /**
   * The top-level loop of `parse` gets stuck only on a token of `SyncKinds`
   * that is not a type keyword: `parse_function` rejects it without consuming
   * it, and `synchronize` stops on it at once.
   */
  lemma {:induction false} LoopsOnlyAtStrayToken(toks: seq<Token>, pos: nat)
    requires pos <= |toks|
    ensures ProgramFrom(toks, pos).Loops? ==>
      pos <= ProgramFrom(toks, pos).at < |toks|
      && toks[ProgramFrom(toks, pos).at].kind in SyncKinds
      && !IsTypeKind(toks[ProgramFrom(toks, pos).at].kind)
    decreases |toks| - pos
  {
    var k := Cur(toks, pos).kind;
    if k == EOF {
    } else if IsTypeKind(k) {
      LoopsOnlyAtStrayToken(toks, FunctionDef(toks, pos).pos);
    } else {
      var next := Synchronize(toks, pos);
      if next != pos {
        LoopsOnlyAtStrayToken(toks, next);
      }
    }
  }

  /** ... and it does get stuck on every such token it reaches. */
  lemma {:induction false} StrayTokenLoops(toks: seq<Token>, pos: nat)
    requires pos < |toks| && toks[pos].kind in SyncKinds && !IsTypeKind(toks[pos].kind)
    ensures ProgramFrom(toks, pos) == Loops(pos, [], [NoReturnType(toks[pos].kind)])
  {
  }

  /** A lone `}` is enough to make the top-level loop spin. */
  lemma {:induction false} StrayBraceLoops()
    ensures ProgramFrom([Token(RBRACE, "}")], 0) == Loops(0, [], [NoReturnType(RBRACE)])
  {
    StrayTokenLoops([Token(RBRACE, "}")], 0);
  }

  /** With the stuck token skipped, the same input parses to the end with the one error. */
  lemma {:induction false} StrayBraceRecovers()
    ensures ProgramRecovering([Token(RBRACE, "}")], 0) == Finished([], [NoReturnType(RBRACE)])
  {
    var toks := [Token(RBRACE, "}")];
    assert Synchronize(toks, 0) == 0;
    ProgramRecoveringSkip(toks, 0);
    assert ProgramRecovering(toks, 1) == Finished([], []);
  }

  /** The fresh start of the recovering loop one token after the one `o` got stuck on. */
  function RestartOf(toks: seq<Token>, o: Outcome): Outcome {
    if o.Loops? && o.at < |toks| then ProgramRecovering(toks, o.at + 1) else Finished([], [])
  }

  /**
   * `ro` is what the recovering loop makes of a run of `parse` that ended in
   * `o`: the same result where `parse` finishes; where `parse` gets stuck on
   * a token, what was gathered so far followed by `rest`.
   */
  predicate AgreesWith(o: Outcome, ro: Outcome, rest: Outcome) {
    && (o.Finished? ==> ro == o)
    && (o.Loops? ==> ro == Prefixed(o.functions, o.errs, rest))
  }

  /** As `AgreesWith`, with `rest` the fresh start one token after the stuck one. */
  predicate Agrees(toks: seq<Token>, o: Outcome, ro: Outcome) {
    (o.Loops? ==> o.at < |toks|) && AgreesWith(o, ro, RestartOf(toks, o))
  }

  /**
   * The recovering loop agrees with `parse` wherever `parse` finishes; where
   * `parse` gets stuck, it keeps what was gathered so far, skips the stuck
   * token and carries on.
   */
  lemma {:induction false} RecoveringAgrees(toks: seq<Token>, pos: nat)
    requires pos <= |toks|
    ensures Agrees(toks, ProgramFrom(toks, pos), ProgramRecovering(toks, pos))
    decreases |toks| - pos, 2
  {
    var k := Cur(toks, pos).kind;
    if k == EOF {
    } else if IsTypeKind(k) {
      var f := FunctionDef(toks, pos);
      ProgramFromFunction(toks, pos);
      ProgramRecoveringFunction(toks, pos);
      RecoveringAgreesAfter(toks, pos, f.pos, [f.val], f.errs);
    } else {
      RecoveringAgreesSkip(toks, pos);
    }
  }

  /** The case of a token that is neither a type keyword nor the end. */
  lemma {:induction false} RecoveringAgreesSkip(toks: seq<Token>, pos: nat)
    requires pos <= |toks| && Cur(toks, pos).kind != EOF && !IsTypeKind(Cur(toks, pos).kind)
    ensures Agrees(toks, ProgramFrom(toks, pos), ProgramRecovering(toks, pos))
    decreases |toks| - pos, 1
  {
    var next := Synchronize(toks, pos);
    ProgramFromSkip(toks, pos);
    ProgramRecoveringSkip(toks, pos);
    if next != pos {
      RecoveringAgreesAfter(toks, pos, next, [], [NoReturnType(Cur(toks, pos).kind)]);
    } else {
      StuckAgrees(toks, pos, NoReturnType(Cur(toks, pos).kind));
    }
  }

  /** `parse` stuck on the token at `pos` with one error, and the loop that skips it. */
  lemma {:induction false} StuckAgrees(toks: seq<Token>, pos: nat, e: ParseError)
    requires pos < |toks|
    ensures Agrees(toks, Loops(pos, [], [e]), Prefixed([], [e], ProgramRecovering(toks, pos + 1)))
  {
    var o := Loops(pos, [], [e]);
    assert RestartOf(toks, o) == ProgramRecovering(toks, pos + 1);
  }

  /** One step of both loops that gathers `fs` and `es` and moves on to `next`. */
  lemma {:induction false} RecoveringAgreesAfter(toks: seq<Token>, pos: nat, next: nat, fs: seq<Function>, es: seq<ParseError>)
    requires pos < next <= |toks|
    requires ProgramFrom(toks, pos) == Prefixed(fs, es, ProgramFrom(toks, next))
    requires ProgramRecovering(toks, pos) == Prefixed(fs, es, ProgramRecovering(toks, next))
    ensures Agrees(toks, ProgramFrom(toks, pos), ProgramRecovering(toks, pos))
    decreases |toks| - next, 3
  {
    RecoveringAgrees(toks, next);
    PrefixedAgreesAt(toks, ProgramFrom(toks, next), ProgramRecovering(toks, next), fs, es);
  }

  lemma {:induction false} PrefixedAgreesAt(toks: seq<Token>, o: Outcome, ro: Outcome, fs: seq<Function>, es: seq<ParseError>)
    requires Agrees(toks, o, ro)
    ensures Agrees(toks, Prefixed(fs, es, o), Prefixed(fs, es, ro))
  {
    RestartPrefixed(toks, fs, es, o);
    PrefixedAgrees(fs, es, o, ro, RestartOf(toks, o));
  }

  /** Prepending functions and errors leaves where the loop gets stuck, and so the fresh start, alone. */
  lemma {:induction false} RestartPrefixed(toks: seq<Token>, fs: seq<Function>, es: seq<ParseError>, o: Outcome)
    ensures RestartOf(toks, Prefixed(fs, es, o)) == RestartOf(toks, o)
  {
    var p := Prefixed(fs, es, o);
    assert p.Loops? == o.Loops? && (p.Loops? ==> p.at == o.at);
  }

  /** Prepending the same functions and errors to both outcomes keeps them in agreement. */
  lemma {:induction false} PrefixedAgrees(fs: seq<Function>, es: seq<ParseError>, o: Outcome, ro: Outcome, rest: Outcome)
    requires AgreesWith(o, ro, rest)
    ensures AgreesWith(Prefixed(fs, es, o), Prefixed(fs, es, ro), rest)
  {
    if o.Loops? {
      PrefixedAssoc(fs, es, o.functions, o.errs, rest);
    }
  }

  // ------------------------------------------------------------ scenarios

  /** The tokens of `int f() { int x = ; }`. */
  const MissingOperand: seq<Token> := [Token(INT, "int"), Token(ID, "f"), Token(LPAREN, "("), Token(RPAREN, ")"),
    Token(LBRACE, "{"), Token(INT, "int"), Token(ID, "x"), Token(OP, "="), Token(SEMI, ";"), Token(RBRACE, "}")]

  lemma {:induction false} MissingOperandExpression()
    ensures Expression(MissingOperand, 8) == Step(Leaf("0"), 9, [Unexpected(Token(SEMI, ";"))])
  {
    var toks := MissingOperand;
    assert Primary(toks, 8) == Step(Leaf("0"), 9, [Unexpected(Token(SEMI, ";"))]);
    assert FactorTail(toks, 9, Leaf("0")) == Step(Leaf("0"), 9, []);
    assert TermTail(toks, 9, Leaf("0")) == Step(Leaf("0"), 9, []);
  }

  lemma {:induction false} MissingOperandDeclaration()
    ensures VarDecl(MissingOperand, 5) ==
      Step(Declare("int", "x", Leaf("0")), 9, [Unexpected(Token(SEMI, ";")), Expected(SEMI, Token(RBRACE, "}"))])
  {
    MissingOperandExpression();
    var toks := MissingOperand;
    assert MatchKind(toks, 6, ID) == Step(Some("x"), 7, []);
    assert MatchKind(toks, 7, OP) == Step(Some("="), 8, []);
    assert MatchKind(toks, 9, SEMI) == Step(None, 9, [Expected(SEMI, Token(RBRACE, "}"))]);
  }

  lemma {:induction false} MissingOperandBody()
    ensures Block(MissingOperand, 5) ==
      Step([Declare("int", "x", Leaf("0"))], 9, [Unexpected(Token(SEMI, ";")), Expected(SEMI, Token(RBRACE, "}"))])
  {
    var toks := MissingOperand;
    MissingOperandDeclaration();
    var s := Statement(toks, 5);
    assert s == VarDecl(toks, 5);
    assert Block(toks, 9) == Step([], 9, []);
    assert [s.val] + [] == [s.val];
    assert s.errs + [] == s.errs;
  }

  lemma {:induction false} MissingOperandFunction()
    ensures FunctionDef(MissingOperand, 0) == Step(Function("int", "f", [], [Declare("int", "x", Leaf("0"))]), 10,
      [Unexpected(Token(SEMI, ";")), Expected(SEMI, Token(RBRACE, "}"))])
  {
    MissingOperandHeader();
    MissingOperandBody();
  }

  lemma {:induction false} MissingOperandHeader()
    ensures MatchKind(MissingOperand, 1, ID) == Step(Some("f"), 2, [])
    ensures MatchKind(MissingOperand, 2, LPAREN) == Step(Some("("), 3, [])
    ensures Params(MissingOperand, 3) == Step([], 3, [])
    ensures MatchKind(MissingOperand, 3, RPAREN) == Step(Some(")"), 4, [])
    ensures MatchKind(MissingOperand, 4, LBRACE) == Step(Some("{"), 5, [])
    ensures MatchKind(MissingOperand, 9, RBRACE) == Step(Some("}"), 10, [])
  {
  }

  /**
   * `int f() { int x = ; }`: the missing operand is reported, read as "0",
   * and the missing `;` reported at the `}`; the function still parses.
   */
  lemma {:induction false} MissingOperandRecovers()
    ensures ProgramFrom(MissingOperand, 0) == Finished([Function("int", "f", [], [Declare("int", "x", Leaf("0"))])],
      [Unexpected(Token(SEMI, ";")), Expected(SEMI, Token(RBRACE, "}"))])
  {
    MissingOperandFunction();
    LastFunction(MissingOperand, 0);
  }

  /** A function definition that runs to the end of the input is the whole rest of the program. */
  lemma {:induction false} LastFunction(toks: seq<Token>, pos: nat)
    requires pos < |toks| && IsTypeKind(toks[pos].kind) && FunctionDef(toks, pos).pos == |toks|
    ensures ProgramFrom(toks, pos) == Finished([FunctionDef(toks, pos).val], FunctionDef(toks, pos).errs)
  {
    ProgramFromFunction(toks, pos);
    var f := FunctionDef(toks, pos);
    assert ProgramFrom(toks, |toks|) == Finished([], []);
    assert [f.val] + [] == [f.val] && f.errs + [] == f.errs;
  }
}
