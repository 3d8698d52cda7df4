/**
 * Small fixed inputs run through the parser and the analyzer, with the
 * outcome each one is proved to have.
 */
module Scenarios {
  import opened Tokens
  import opened Semantics
  import opened Expressions
  import opened ExpressionGrammar
  import opened Parsing

  function Term1(t: Token): TermTree
  {
    TermTree(Operand(t), MulEnd)
  }

  /** The condition `X>5<3` followed by `)`: one report, and the cursor stops at the `)`. */
  method ChainedComparisonExample(line: int) returns (pos: nat, errors: seq<SyntaxDiagnostic>)
    ensures pos == 5
    ensures errors == [SyntaxDiagnostic(line, ChainedComparison)]
  {
    var toks := [Token(Identifier, "X", line), Token(Operator, ">", line), Token(Number, "5", line),
                 Token(Operator, "<", line), Token(Number, "3", line), Token(Symbol, ")", line)];
    var p := new Parser(toks);
    p.Expression();
    OccursSlice(toks, 0, 3);
    assert toks[0..3] == TermTokens(Term1(toks[0])) + [toks[1]] + TermTokens(Term1(toks[2]));
    ChainedComparisonRecovered(toks, 0, [], Term1(toks[0]), toks[1], Term1(toks[2]));
    assert SkipToStop(toks, 4) == 5 by {
      assert !IsStop(At(toks, 4)) && IsStop(At(toks, 5));
    }
    pos, errors := p.pos, p.syntaxErrors;
  }

  /** The condition `fuel < 30` followed by `)`: consumed whole, nothing reported. */
  method SingleComparisonExample(line: int) returns (pos: nat, errors: seq<SyntaxDiagnostic>)
    ensures pos == 3
    ensures errors == []
  {
    var toks := [Token(Identifier, "fuel", line), Token(Operator, "<", line), Token(Number, "30", line),
                 Token(Symbol, ")", line)];
    var p := new Parser(toks);
    p.Expression();
    var e := ExprTree(Term1(toks[0]), Compare(toks[1], Term1(toks[2])), AddEnd);
    assert TermTokens(Term1(toks[0])) == [toks[0]];
    assert TermTokens(Term1(toks[2])) == [toks[2]];
    assert ComparisonTokens(e.cmp) == [toks[1], toks[2]];
    assert AddTokens(e.adds) == [];
    assert WfMuls(MulEnd);
    assert IsRelOp(toks[1]) && WfTerm(Term1(toks[2]));
    assert WfComparison(e.cmp);
    assert ExprTokens(e) == toks[0..3];
    OccursSlice(toks, 0, 3);
    ExprAccepted(toks, 0, [], e);
    pos, errors := p.pos, p.syntaxErrors;
  }

  /** Declaring the same name twice in one scope: the second is reported and the first binding stays. */
  method RedeclarationExample() returns (scopes: seq<Scope>, errors: seq<Diagnostic>)
    ensures scopes == [map["fuel" := "gear"]]
    ensures errors == [Diagnostic(DuplicateVariable("fuel"), 3, "fuel")]
  {
    var a := new SemanticAnalyzer();
    a.DeclareVariable("fuel", "gear", Token(Identifier, "fuel", 2));
    a.DeclareVariable("fuel", "speed", Token(Identifier, "fuel", 3));
    scopes, errors := a.scopes, a.diagnostics;
  }

  /**
   * Declaring in an inner scope a name the global scope already has is no
   * error; leaving the inner scope brings the outer binding back in effect.
   */
  method ShadowingExample() returns (inner: seq<Scope>, outer: seq<Scope>, errors: seq<Diagnostic>)
    ensures inner == [map["fuel" := "gear"], map["fuel" := "speed"]]
    ensures Resolve(inner, "fuel") == Some(1)
    ensures outer == [map["fuel" := "gear"]] && Resolve(outer, "fuel") == Some(0)
    ensures errors == []
  {
    var a := new SemanticAnalyzer();
    a.DeclareVariable("fuel", "gear", Token(Identifier, "fuel", 2));
    a.EnterScope();
    a.DeclareVariable("fuel", "speed", Token(Identifier, "fuel", 4));
    inner := a.scopes;
    ShadowingAllowed([map["fuel" := "gear"]], "fuel", "speed");
    a.LeaveScope();
    outer, errors := a.scopes, a.diagnostics;
  }

  /**
   * A function declared twice keeps its first parameter count, and a call
   * with another argument count is reported with both counts.
   */
  method FunctionExample() returns (funcs: map<string, int>, errors: seq<Diagnostic>)
    ensures funcs == map["ignite" := 0]
    ensures errors == [Diagnostic(DuplicateFunction("ignite"), 9, "ignite"),
                       Diagnostic(ArityMismatch("ignite", 0, 2), 12, "ignite")]
  {
    var a := new SemanticAnalyzer();
    a.DeclareFunction("ignite", 0, Token(Keyword, "ignite", 1));
    a.DeclareFunction("ignite", 3, Token(Keyword, "ignite", 9));
    a.CallFunction("ignite", 0, Token(Identifier, "ignite", 11));
    a.CallFunction("ignite", 2, Token(Identifier, "ignite", 12));
    funcs, errors := a.funcs, a.diagnostics;
  }

  /**
   * A whole parse from a fresh parser: the analyzer ends with just its
   * global scope, and success is announced exactly when nothing at all was
   * reported; otherwise one line per component that reported something.
   */
  method ParseProgram(toks: seq<Token>)
    returns (summary: seq<Summary>, syntaxErrors: seq<SyntaxDiagnostic>, semanticErrors: seq<Diagnostic>, scopes: seq<Scope>)
    ensures scopes == [map[]]
    ensures summary == [Succeeded] <==> syntaxErrors == [] && semanticErrors == []
    ensures SyntaxErrorsFound in summary <==> syntaxErrors != []
    ensures SemanticErrorsFound in summary <==> semanticErrors != []
    ensures |summary| <= 2
  {
    var p := new Parser(toks);
    summary := p.Parse();
    syntaxErrors, semanticErrors, scopes := p.syntaxErrors, p.semantics.diagnostics, p.semantics.scopes;
  }
}
