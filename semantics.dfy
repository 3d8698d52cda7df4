/**
 * The semantic analyzer: a stack of variable scopes (innermost last), a flat
 * table of function arities, and an error flag that goes from false to true
 * on the first reported error.  Every report is also recorded as a
 * `Diagnostic`, so that the flag can be tied to what was reported.
 */
module Semantics {
  import opened Tokens

  datatype Option<T> = None | Some(value: T)

  /** One variable scope: declared name to the type keyword it was declared with. */
  type Scope = map<string, string>

  datatype SemanticError =
    | DuplicateVariable(name: string)
    | UndeclaredVariable(name: string)
    | DuplicateFunction(name: string)
    | UndefinedFunction(name: string)
    | ArityMismatch(name: string, expected: int, got: int)

  /** A reported error with the line and lexeme of the token it was reported near. */
  datatype Diagnostic = Diagnostic(error: SemanticError, line: int, near: string)

  /** A report is made near a token: it carries that token's line and lexeme. */
  function Report(e: SemanticError, t: Token): (d: Diagnostic)
    ensures d.error == e && d.line == t.line && d.near == t.value
  {
    Diagnostic(e, t.line, t.value)
  }

  /** `name` is declared in some open scope. */
  ghost predicate Visible(scopes: seq<Scope>, name: string)
  {
    exists i :: 0 <= i < |scopes| && name in scopes[i]
  }

  /** `name` is declared in the innermost scope (false when no scope is open). */
  predicate InInnermost(scopes: seq<Scope>, name: string)
  {
    |scopes| > 0 && name in scopes[|scopes| - 1]
  }

  /**
   * Name lookup from the innermost scope outwards: the index of the scope
   * whose declaration of `name` is in effect.
   */
  function Resolve(scopes: seq<Scope>, name: string): (r: Option<nat>)
    ensures r.Some? <==> Visible(scopes, name)
    ensures r.Some? ==> r.value < |scopes| && name in scopes[r.value]
    ensures r.Some? ==> forall j :: r.value < j < |scopes| ==> name !in scopes[j]
    decreases |scopes|
  {
    if |scopes| == 0 then None
    else if name in scopes[|scopes| - 1] then Some(|scopes| - 1)
    else Resolve(scopes[..|scopes| - 1], name)
  }

  /** A pushed scope hides outer declarations of the names it declares and no others. */
  lemma {:induction false} ResolvePushed(scopes: seq<Scope>, inner: Scope, name: string)
    ensures Resolve(scopes + [inner], name) == if name in inner then Some(|scopes|) else Resolve(scopes, name)
  {
    assert (scopes + [inner])[..|scopes|] == scopes;
  }

  /**
   * `before` and `after` have the same depth and the same outer scopes, and
   * the innermost scope of `after` keeps every binding of that of `before`.
   */
  ghost predicate InnermostGrows(before: seq<Scope>, after: seq<Scope>)
  {
    && |before| > 0
    && |after| == |before|
    && after[..|after| - 1] == before[..|before| - 1]
    && KeepsBindings(before[|before| - 1], after[|after| - 1])
  }

  /** Every binding of `small` is also a binding of `big`. */
  ghost predicate KeepsBindings(small: Scope, big: Scope)
  {
    forall x :: x in small ==> x in big && big[x] == small[x]
  }

  /** The stack a declaration works on: one empty scope is opened first when none is. */
  function Opened(scopes: seq<Scope>): (s: seq<Scope>)
    ensures |s| > 0
    ensures |scopes| == 0 ==> s == [map[]]
    ensures |scopes| > 0 ==> s == scopes
  {
    if |scopes| == 0 then [map[]] else scopes
  }

  /** The scope stack after declaring `name` with type `typ`. */
  function Declare(scopes: seq<Scope>, name: string, typ: string): (s: seq<Scope>)
    ensures |s| > 0 && name in s[|s| - 1]
  {
    var o := Opened(scopes);
    var inner := o[|o| - 1];
    if name in inner then o else o[..|o| - 1] + [inner[name := typ]]
  }

  /**
   * What a declaration does to the stack: the name is bound in the innermost
   * scope afterwards; a duplicate leaves the stack as it was; otherwise the
   * depth and the outer scopes stay and only the new binding is added.
   */
  lemma DeclareSpec(scopes: seq<Scope>, name: string, typ: string)
    ensures var s := Declare(scopes, name, typ);
    && |s| > 0 && name in s[|s| - 1]
    && (InInnermost(scopes, name) ==> s == scopes)
    && (|scopes| > 0 ==> InnermostGrows(scopes, s))
    && (!InInnermost(scopes, name) ==> s[|s| - 1][name] == typ)
  {
  }

  /**
   * Declaring a name in a freshly entered scope is never a duplicate, even
   * when an outer scope declares it; the new declaration is the one in
   * effect, and the outer scopes are left as they were.
   */
  lemma {:induction false} ShadowingAllowed(outer: seq<Scope>, name: string, typ: string)
    ensures !InInnermost(outer + [map[]], name)
    ensures Declare(outer + [map[]], name, typ) == outer + [map[name := typ]]
    ensures Resolve(Declare(outer + [map[]], name, typ), name) == Some(|outer|)
  {
    var s := outer + [map[]];
    assert s[..|s| - 1] == outer;
    ResolvePushed(outer, map[name := typ], name);
  }

  /** A declaration changes the resolution of no other name. */
  lemma {:induction false} DeclareKeepsOthers(scopes: seq<Scope>, name: string, typ: string, other: string)
    requires |scopes| > 0 && other != name
    ensures Resolve(Declare(scopes, name, typ), other) == Resolve(scopes, other)
  {
    var outer := scopes[..|scopes| - 1];
    var inner := scopes[|scopes| - 1];
    assert scopes == outer + [inner];
    if name !in inner {
      ResolvePushed(outer, inner, other);
      ResolvePushed(outer, inner[name := typ], other);
    }
  }

  class SemanticAnalyzer {
    var scopes: seq<Scope>
    var funcs: map<string, int>
    var hasErr: bool
    var diagnostics: seq<Diagnostic>

    /** The error flag is set exactly when something has been reported. */
    ghost predicate Valid()
      reads this
    {
      hasErr <==> |diagnostics| > 0
    }

    /** A new analyzer: one empty global scope, no functions, no error. */
    constructor ()
      ensures Valid()
      ensures scopes == [map[]] && funcs == map[]
      ensures !hasErr && diagnostics == []
    {
      scopes := [map[]];
      funcs := map[];
      hasErr := false;
      diagnostics := [];
    }

    function HasErrors(): (b: bool)
      reads this
      requires Valid()
      ensures b <==> |diagnostics| > 0
    {
      hasErr
    }

    /** Sets the error flag and records the report; nothing else changes. */
    method ReportError(e: SemanticError, t: Token)
      modifies this`hasErr, this`diagnostics
      ensures Valid() && hasErr
      ensures diagnostics == old(diagnostics) + [Report(e, t)]
    {
      hasErr := true;
      diagnostics := diagnostics + [Report(e, t)];
    }

    method EnterScope()
      requires Valid()
      modifies this`scopes
      ensures Valid()
      ensures scopes == old(scopes) + [map[]]
    {
      scopes := scopes + [map[]];
    }

    /** Pops the innermost scope; an empty stack is left alone. */
    method LeaveScope()
      requires Valid()
      modifies this`scopes
      ensures Valid()
      ensures |old(scopes)| > 0 ==> scopes == old(scopes)[..|old(scopes)| - 1]
      ensures |old(scopes)| == 0 ==> scopes == []
    {
      if |scopes| > 0 {
        scopes := scopes[..|scopes| - 1];
      }
    }

    /**
     * Declares `name` in the innermost scope (opening one if none is open).
     * A name already declared in that scope is reported and nothing is bound.
     */
    method DeclareVariable(name: string, typ: string, t: Token)
      requires Valid()
      modifies this`scopes, this`hasErr, this`diagnostics
      ensures Valid() && old(diagnostics) <= diagnostics
      ensures scopes == Declare(old(scopes), name, typ)
      ensures diagnostics == old(diagnostics) +
        (if InInnermost(old(scopes), name) then [Report(DuplicateVariable(name), t)] else [])
    {
      if |scopes| == 0 {
        scopes := scopes + [map[]];
      }
      var curr := scopes[|scopes| - 1];
      if name in curr {
        ReportError(DuplicateVariable(name), t);
        return;
      }
      scopes := scopes[..|scopes| - 1] + [curr[name := typ]];
    }

    /** Checks that `name` is declared in some open scope, searching innermost first. */
    method AssignVariable(name: string, t: Token)
      requires Valid()
      modifies this`hasErr, this`diagnostics
      ensures Valid() && old(diagnostics) <= diagnostics
      ensures diagnostics == old(diagnostics) +
        (if Visible(scopes, name) then [] else [Report(UndeclaredVariable(name), t)])
    {
      var i := |scopes|;
      while i > 0
        invariant 0 <= i <= |scopes|
        invariant forall j :: i <= j < |scopes| ==> name !in scopes[j]
      {
        if name in scopes[i - 1] {
          return;
        }
        i := i - 1;
      }
      ReportError(UndeclaredVariable(name), t);
    }

    /** Whether `name` is declared in the innermost scope, i.e. resolves to it. */
    function IsDeclaredInCurrentScope(name: string): (b: bool)
      reads this
      ensures b <==> |scopes| > 0 && Resolve(scopes, name) == Some(|scopes| - 1)
    {
      if |scopes| == 0 then false else name in scopes[|scopes| - 1]
    }

    /** Registers a function with its parameter count; a second declaration is reported and dropped. */
    method DeclareFunction(name: string, paramCount: int, t: Token)
      requires Valid()
      modifies this`funcs, this`hasErr, this`diagnostics
      ensures Valid() && old(diagnostics) <= diagnostics
      ensures funcs == if name in old(funcs) then old(funcs) else old(funcs)[name := paramCount]
      ensures diagnostics == old(diagnostics) +
        (if name in old(funcs) then [Report(DuplicateFunction(name), t)] else [])
    {
      if name in funcs {
        ReportError(DuplicateFunction(name), t);
        return;
      }
      funcs := funcs[name := paramCount];
    }

    /** Checks a call: the function must be declared with exactly `argCount` parameters. */
    method CallFunction(name: string, argCount: int, t: Token)
      requires Valid()
      modifies this`hasErr, this`diagnostics
      ensures Valid()
      ensures diagnostics == old(diagnostics) +
        (if name !in funcs then [Report(UndefinedFunction(name), t)]
         else if funcs[name] != argCount then [Report(ArityMismatch(name, funcs[name], argCount), t)]
         else [])
    {
      if name !in funcs {
        ReportError(UndefinedFunction(name), t);
        return;
      }
      if funcs[name] != argCount {
        ReportError(ArityMismatch(name, funcs[name], argCount), t);
      }
    }
  }
}
