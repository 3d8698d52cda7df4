/**
 * The expression rules of the parser (Expression, Term, Factor) as state
 * transformers.  These rules never call the semantic analyzer: all they
 * change is the cursor and the list of syntax diagnostics, so their effect
 * is a function of the token sequence and that pair.
 */
module Expressions {
  import opened Tokens

  datatype SyntaxMessage =
    | Expected(what: string, found: string)
    | MissingNamespaceName
    | MissingKeyKeyword
    | ChainedComparison
    | InvalidExpression

  /** A reported syntax error with the line of the token the cursor was on. */
  datatype SyntaxDiagnostic = SyntaxDiagnostic(line: int, message: SyntaxMessage)

  /** Cursor position and the syntax diagnostics reported so far. */
  datatype ParseState = ParseState(pos: nat, log: seq<SyntaxDiagnostic>)

  predicate IsRelOp(t: Token)
  {
    t.tokenType == Operator && (t.value == "<" || t.value == ">" || t.value == "==" || t.value == "!=")
  }

  predicate IsAddOp(t: Token)
  {
    t.tokenType == Operator && (t.value == "+" || t.value == "-")
  }

  predicate IsMulOp(t: Token)
  {
    t.tokenType == Operator && (t.value == "*" || t.value == "/" || t.value == "%")
  }

  /** A token a Factor accepts on its own. */
  predicate IsOperand(t: Token)
  {
    t.tokenType == Number || t.tokenType == String || t.tokenType == Identifier
  }

  /** Where the recovery from a chained comparison stops skipping. */
  predicate IsStop(t: Token)
  {
    t.value == ")" || t.value == ";" || t.tokenType == EndOfFile
  }

  /** Reporting an error at the cursor: record it with the current line, then skip one token. */
  function ErrorAt(toks: seq<Token>, s: ParseState, msg: SyntaxMessage): (r: ParseState)
    requires s.pos <= |toks|
    ensures r.pos <= |toks|
    ensures s.pos < |toks| ==> r.pos == s.pos + 1
    ensures s.pos == |toks| ==> r.pos == s.pos
    ensures |r.log| == |s.log| + 1 && s.log <= r.log
    ensures r.log[|s.log|] == SyntaxDiagnostic(At(toks, s.pos).line, msg)
  {
    ParseState(Next(toks, s.pos), s.log + [SyntaxDiagnostic(At(toks, s.pos).line, msg)])
  }

  /**
   * Expecting a token type: one token is consumed (if any is left) whether
   * or not it has the type, and an error is reported exactly when it has not.
   */
  function ExpectAt(toks: seq<Token>, s: ParseState, ty: TokenType, what: string): (r: ParseState)
    requires s.pos <= |toks|
    ensures r.pos == Next(toks, s.pos)
    ensures s.log <= r.log
    ensures At(toks, s.pos).tokenType == ty ==> r.log == s.log
    ensures At(toks, s.pos).tokenType != ty ==>
      r.log == s.log + [SyntaxDiagnostic(At(toks, s.pos).line, Expected(what, At(toks, s.pos).value))]
  {
    if At(toks, s.pos).tokenType == ty then ParseState(Next(toks, s.pos), s.log)
    else ErrorAt(toks, s, Expected(what, At(toks, s.pos).value))
  }

  /** The first position at or after `p` whose token stops the skip (end of input included). */
  function SkipToStop(toks: seq<Token>, p: nat): (r: nat)
    requires p <= |toks|
    ensures p <= r <= |toks|
    ensures IsStop(At(toks, r))
    ensures forall k :: p <= k < r ==> !IsStop(At(toks, k))
    decreases |toks| - p
  {
    if IsStop(At(toks, p)) then p else SkipToStop(toks, p + 1)
  }

  /** Factor := Number | String | Identifier | "(" Expression ")"; anything else: error, skip two. */
  function FactorF(toks: seq<Token>, s: ParseState): (r: ParseState)
    requires s.pos <= |toks|
    ensures s.pos <= r.pos <= |toks|
    ensures s.log <= r.log
    ensures s.pos < |toks| ==> s.pos < r.pos
    decreases |toks| - s.pos, 0
  {
    var t := At(toks, s.pos);
    if IsOperand(t) then
      ParseState(Next(toks, s.pos), s.log)
    else if t.value == "(" then
      var e := ExprF(toks, ParseState(Next(toks, s.pos), s.log));
      ExpectAt(toks, e, Symbol, ")")
    else
      var r := ErrorAt(toks, s, InvalidExpression);
      ParseState(Next(toks, r.pos), r.log)
  }

  /** The loop of Term: { ("*" | "/" | "%") Factor }. */
  function TermTail(toks: seq<Token>, s: ParseState): (r: ParseState)
    requires s.pos <= |toks|
    ensures s.pos <= r.pos <= |toks|
    ensures s.log <= r.log
    ensures !IsMulOp(At(toks, r.pos))
    decreases |toks| - s.pos, 1
  {
    if IsMulOp(At(toks, s.pos)) then
      TermTail(toks, FactorF(toks, ParseState(Next(toks, s.pos), s.log)))
    else
      s
  }

  /** Term := Factor { ("*" | "/" | "%") Factor }. */
  function TermF(toks: seq<Token>, s: ParseState): (r: ParseState)
    requires s.pos <= |toks|
    ensures s.pos <= r.pos <= |toks|
    ensures s.log <= r.log
    ensures s.pos < |toks| ==> s.pos < r.pos
    ensures !IsMulOp(At(toks, r.pos))
    decreases |toks| - s.pos, 2
  {
    TermTail(toks, FactorF(toks, s))
  }

  /**
   * The optional comparison after the first Term of an Expression: a
   * relational operator and a second Term.  A further relational operator is
   * an error, after which tokens are skipped up to a stop token.
   */
  function ComparisonF(toks: seq<Token>, s: ParseState): (r: ParseState)
    requires s.pos <= |toks|
    ensures s.pos <= r.pos <= |toks|
    ensures s.log <= r.log
    decreases |toks| - s.pos, 3
  {
    if IsRelOp(At(toks, s.pos)) then
      var t := TermF(toks, ParseState(Next(toks, s.pos), s.log));
      if IsRelOp(At(toks, t.pos)) then
        var e := ErrorAt(toks, t, ChainedComparison);
        ParseState(SkipToStop(toks, e.pos), e.log)
      else
        t
    else
      s
  }

  /** The loop of Expression: { ("+" | "-") Term }. */
  function ExprTail(toks: seq<Token>, s: ParseState): (r: ParseState)
    requires s.pos <= |toks|
    ensures s.pos <= r.pos <= |toks|
    ensures s.log <= r.log
    ensures !IsAddOp(At(toks, r.pos))
    decreases |toks| - s.pos, 3
  {
    if IsAddOp(At(toks, s.pos)) then
      ExprTail(toks, TermF(toks, ParseState(Next(toks, s.pos), s.log)))
    else
      s
  }

  /** Expression := Term [ RelOp Term ] { ("+" | "-") Term }. */
  function ExprF(toks: seq<Token>, s: ParseState): (r: ParseState)
    requires s.pos <= |toks|
    ensures s.pos <= r.pos <= |toks|
    ensures s.log <= r.log
    ensures s.pos < |toks| ==> s.pos < r.pos
    ensures !IsAddOp(At(toks, r.pos))
    decreases |toks| - s.pos, 4
  {
    ExprTail(toks, ComparisonF(toks, TermF(toks, s)))
  }
}
