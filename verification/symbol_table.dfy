/**
 * The scoped symbol table (scripts/symbol_table.py): a stack of
 * name -> type maps, innermost scope last. `declare` writes the innermost
 * scope only; `lookup` and `exists` search from the innermost scope
 * outwards. The source raises an exception from `declare` and `lookup`;
 * here those are a `false` / `None` result.
 */
module SymbolTables {
  import opened Strings

  type Scope = map<string, string>

  /** The binding `lookup` finds: the innermost scope holding `name` decides. */
  function Find(scopes: seq<Scope>, name: string): (r: Option<string>)
    ensures r.None? <==> forall i :: 0 <= i < |scopes| ==> name !in scopes[i]
  {
    if |scopes| == 0 then None
    else if name in scopes[|scopes| - 1] then Some(scopes[|scopes| - 1][name])
    else Find(scopes[..|scopes| - 1], name)
  }

  /** The stack after a successful `declare(name, t)`: only the innermost scope gains the binding. */
  function Bind(scopes: seq<Scope>, name: string, t: string): (r: seq<Scope>)
    requires |scopes| > 0
    ensures |r| == |scopes| && r[..|r| - 1] == scopes[..|scopes| - 1]
    ensures r[|r| - 1] == scopes[|scopes| - 1][name := t]
  {
    scopes[..|scopes| - 1] + [scopes[|scopes| - 1][name := t]]
  }

  /** Scope `i` binds `name` to `t`, and no scope entered after it holds `name`. */
  predicate InnermostAt(scopes: seq<Scope>, name: string, t: string, i: int) {
    0 <= i < |scopes| && name in scopes[i] && scopes[i][name] == t &&
    forall j :: i < j < |scopes| ==> name !in scopes[j]
  }

  /** `lookup(name) == t` exactly when `t` is bound in the innermost scope that holds `name`. */
  lemma {:induction false} FindInnermost(scopes: seq<Scope>, name: string, t: string)
    ensures Find(scopes, name) == Some(t) <==> exists i :: InnermostAt(scopes, name, t, i)
    decreases |scopes|
  {
    if |scopes| > 0 {
      var n := |scopes| - 1;
      var outer := scopes[..n];
      if name in scopes[n] {
        if Find(scopes, name) == Some(t) {
          assert InnermostAt(scopes, name, t, n);
        }
        forall i | InnermostAt(scopes, name, t, i)
          ensures Find(scopes, name) == Some(t)
        {
          assert i == n;
        }
      } else {
        FindInnermost(outer, name, t);
        forall i | InnermostAt(scopes, name, t, i)
          ensures InnermostAt(outer, name, t, i)
        {
          assert i < n && outer[i] == scopes[i];
        }
        forall i | InnermostAt(outer, name, t, i)
          ensures InnermostAt(scopes, name, t, i)
        {
          assert outer[i] == scopes[i];
        }
      }
    }
  }

  /** `lookup` fails, and `exists` is false, exactly when no active scope holds the name. */
  lemma {:induction false} FindNone(scopes: seq<Scope>, name: string)
    ensures Find(scopes, name) == None <==> forall i :: 0 <= i < |scopes| ==> name !in scopes[i]
    decreases |scopes|
  {
    if |scopes| > 0 {
      var n := |scopes| - 1;
      FindNone(scopes[..n], name);
      assert forall i :: 0 <= i < n ==> scopes[..n][i] == scopes[i];
    }
  }

  /** Right after `declare(name, t)` succeeds, `lookup(name)` yields `t`. */
  lemma {:induction false} DeclareThenFind(scopes: seq<Scope>, name: string, t: string)
    requires |scopes| > 0
    ensures Find(Bind(scopes, name, t), name) == Some(t)
  {
  }

  /** A declaration changes the lookup of no other name. */
  lemma {:induction false} DeclareKeepsOthers(scopes: seq<Scope>, name: string, t: string, other: string)
    requires |scopes| > 0 && other != name
    ensures Find(Bind(scopes, name, t), other) == Find(scopes, other)
  {
    var r := Bind(scopes, name, t);
    assert r[..|r| - 1] == scopes[..|scopes| - 1];
  }

  /**
   * The binding made by `declare(name, t)` is what `lookup(name)` sees for as long
   * as its scope is on the stack, unless a scope entered later declares `name` again.
   */
  lemma {:induction false} DeclaredVisibleUntilPopped(scopes: seq<Scope>, name: string, t: string, inner: seq<Scope>)
    requires |scopes| > 0
    requires forall k :: 0 <= k < |inner| ==> name !in inner[k]
    ensures Find(Bind(scopes, name, t) + inner, name) == Some(t)
    decreases |inner|
  {
    var b := Bind(scopes, name, t);
    if |inner| == 0 {
      assert b + inner == b;
    } else {
      var n := |inner| - 1;
      assert (b + inner)[..|b + inner| - 1] == b + inner[..n];
      DeclaredVisibleUntilPopped(scopes, name, t, inner[..n]);
    }
  }

  /**
   * Scope isolation: a name declared in a nested scope is gone once that scope
   * is popped; `lookup` then yields whatever the enclosing scopes bind, or fails.
   */
  lemma {:induction false} PopForgetsInner(scopes: seq<Scope>, name: string, t: string)
    ensures Find(Bind(scopes + [map[]], name, t)[..|scopes|], name) == Find(scopes, name)
  {
    assert Bind(scopes + [map[]], name, t)[..|scopes|] == scopes;
  }

  /** Entering a scope changes no lookup. */
  lemma {:induction false} EnterKeepsFind(scopes: seq<Scope>, name: string)
    ensures Find(scopes + [map[]], name) == Find(scopes, name)
  {
    assert (scopes + [map[]])[..|scopes|] == scopes;
  }

  class SymbolTable {
    var scopes: seq<Scope>

    /** A fresh table holds exactly one scope, and it is empty. */
    constructor ()
      ensures scopes == [map[]]
    {
      scopes := [map[]];
    }

    method EnterScope()
      modifies this
      ensures scopes == old(scopes) + [map[]]
    {
      scopes := scopes + [map[]];
    }

    /** `list.pop()`: the source raises on an empty stack, which its callers never reach. */
    method ExitScope()
      requires |scopes| > 0
      modifies this
      ensures scopes == old(scopes)[..|old(scopes)| - 1]
    {
      scopes := scopes[..|scopes| - 1];
    }

    /** Searches the scopes innermost first, like `lookup`, and reports only whether it found the name. */
    method Exists(name: string) returns (found: bool)
      ensures found <==> exists i :: 0 <= i < |scopes| && name in scopes[i]
      ensures found <==> Find(scopes, name).Some?
    {
      FindNone(scopes, name);
      var i := |scopes|;
      while i > 0
        invariant 0 <= i <= |scopes|
        invariant forall j :: i <= j < |scopes| ==> name !in scopes[j]
      {
        i := i - 1;
        if name in scopes[i] {
          return true;
        }
      }
      return false;
    }

    /**
     * Fails (leaving the table as it was) exactly when the innermost scope already
     * holds `name`; otherwise binds `name` to `t` there and nowhere else.
     */
    method Declare(name: string, t: string) returns (ok: bool)
      requires |scopes| > 0
      modifies this
      ensures ok <==> name !in old(scopes)[|old(scopes)| - 1]
      ensures scopes == if ok then Bind(old(scopes), name, t) else old(scopes)
    {
      if name in scopes[|scopes| - 1] {
        return false;
      }
      scopes := Bind(scopes, name, t);
      return true;
    }

    /** The type bound in the innermost scope holding `name`, or `None` when no scope holds it. */
    method Lookup(name: string) returns (r: Option<string>)
      ensures r == Find(scopes, name)
    {
      var i := |scopes|;
      assert scopes[..i] == scopes;
      while i > 0
        invariant 0 <= i <= |scopes|
        invariant Find(scopes, name) == Find(scopes[..i], name)
      {
        if name in scopes[i - 1] {
          return Some(scopes[i - 1][name]);
        }
        assert scopes[..i][..i - 1] == scopes[..i - 1];
        i := i - 1;
      }
      return None;
    }

    function CurrentScope(): (s: Scope)
      reads this
      requires |scopes| > 0
      ensures forall n :: n in s ==> Find(scopes, n) == Some(s[n])
    {
      scopes[|scopes| - 1]
    }
  }
}
