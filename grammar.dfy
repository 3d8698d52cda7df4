/**
 * Well-formed expressions as syntax trees, the token sequences they are
 * written as, and what the expression rules do with those sequences: a
 * well-formed expression is consumed exactly and without a diagnostic, and
 * a chained comparison is reported once and skipped up to a stop token.
 */
module ExpressionGrammar {
  import opened Tokens
  import opened Expressions

  datatype FactorTree =
    | Operand(tok: Token)
    | Parens(open: Token, inner: ExprTree, close: Token)

  /** The `{ ("*" | "/" | "%") Factor }` part of a term. */
  datatype MulChain = MulEnd | MulMore(op: Token, factor: FactorTree, rest: MulChain)

  datatype TermTree = TermTree(first: FactorTree, muls: MulChain)

  /** The optional `RelOp Term` after the first term of an expression. */
  datatype Comparison = NoComparison | Compare(op: Token, right: TermTree)

  /** The `{ ("+" | "-") Term }` part of an expression. */
  datatype AddChain = AddEnd | AddMore(op: Token, term: TermTree, rest: AddChain)

  datatype ExprTree = ExprTree(head: TermTree, cmp: Comparison, adds: AddChain)

  // ---------------- well-formedness ----------------

  /**
   * An operand is a number, string or identifier token; a parenthesis opens
   * with a non-operand `(` and closes with any symbol token, since the
   * closing token is checked for its type only.
   */
  predicate WfFactor(f: FactorTree)
  {
    match f
    case Operand(t) => IsOperand(t)
    case Parens(o, e, c) => o.value == "(" && !IsOperand(o) && WfExpr(e) && c.tokenType == Symbol
  }

  predicate WfMuls(m: MulChain)
  {
    match m
    case MulEnd => true
    case MulMore(op, f, rest) => IsMulOp(op) && WfFactor(f) && WfMuls(rest)
  }

  predicate WfTerm(t: TermTree)
  {
    WfFactor(t.first) && WfMuls(t.muls)
  }

  predicate WfComparison(c: Comparison)
  {
    match c
    case NoComparison => true
    case Compare(op, t) => IsRelOp(op) && WfTerm(t)
  }

  predicate WfAdds(a: AddChain)
  {
    match a
    case AddEnd => true
    case AddMore(op, t, rest) => IsAddOp(op) && WfTerm(t) && WfAdds(rest)
  }

  predicate WfExpr(e: ExprTree)
  {
    WfTerm(e.head) && WfComparison(e.cmp) && WfAdds(e.adds)
  }

  // ---------------- the tokens a tree is written as ----------------

  function FactorTokens(f: FactorTree): seq<Token>
  {
    match f
    case Operand(t) => [t]
    case Parens(o, e, c) => [o] + ExprTokens(e) + [c]
  }

  function MulTokens(m: MulChain): seq<Token>
  {
    match m
    case MulEnd => []
    case MulMore(op, f, rest) => [op] + FactorTokens(f) + MulTokens(rest)
  }

  function TermTokens(t: TermTree): seq<Token>
  {
    FactorTokens(t.first) + MulTokens(t.muls)
  }

  function ComparisonTokens(c: Comparison): seq<Token>
  {
    match c
    case NoComparison => []
    case Compare(op, t) => [op] + TermTokens(t)
  }

  function AddTokens(a: AddChain): seq<Token>
  {
    match a
    case AddEnd => []
    case AddMore(op, t, rest) => [op] + TermTokens(t) + AddTokens(rest)
  }

  function ExprTokens(e: ExprTree): seq<Token>
  {
    TermTokens(e.head) + ComparisonTokens(e.cmp) + AddTokens(e.adds)
  }

  // ---------------- token sequences at a position ----------------

  /** `w` is written in `toks` starting at position `p`. */
  predicate Occurs(toks: seq<Token>, p: nat, w: seq<Token>)
    decreases |w|
  {
    p + |w| <= |toks| && (|w| > 0 ==> toks[p] == w[0] && Occurs(toks, p + 1, w[1..]))
  }

  lemma {:induction false} OccursSplit(toks: seq<Token>, p: nat, a: seq<Token>, b: seq<Token>)
    requires Occurs(toks, p, a + b)
    ensures Occurs(toks, p, a) && Occurs(toks, p + |a|, b)
    decreases |a|
  {
    if a == [] {
      assert a + b == b;
    } else {
      assert (a + b)[0] == a[0];
      assert (a + b)[1..] == a[1..] + b;
      OccursSplit(toks, p + 1, a[1..], b);
    }
  }

  /** Every slice of `toks` occurs where it was taken from. */
  lemma {:induction false} OccursSlice(toks: seq<Token>, p: nat, q: nat)
    requires p <= q <= |toks|
    ensures Occurs(toks, p, toks[p..q])
    decreases q - p
  {
    if p < q {
      assert toks[p..q][1..] == toks[p + 1..q];
      OccursSlice(toks, p + 1, q);
    }
  }

  lemma OccursFirst(toks: seq<Token>, p: nat, w: seq<Token>)
    requires Occurs(toks, p, w) && |w| > 0
    ensures At(toks, p) == w[0] && Next(toks, p) == p + 1
  {
  }

  /** A token after which the expression rules stop: no operator they would go on with. */
  predicate EndsExpression(t: Token)
  {
    !IsRelOp(t) && !IsAddOp(t) && !IsMulOp(t)
  }

  // ---------------- acceptance ----------------

  lemma {:induction false} FactorAccepted(toks: seq<Token>, p: nat, log: seq<SyntaxDiagnostic>, f: FactorTree)
    requires WfFactor(f) && Occurs(toks, p, FactorTokens(f))
    ensures FactorF(toks, ParseState(p, log)) == ParseState(p + |FactorTokens(f)|, log)
    decreases f, 0
  {
    OccursFirst(toks, p, FactorTokens(f));
    match f
    case Operand(t) =>
    case Parens(o, e, c) =>
      OccursSplit(toks, p, [o] + ExprTokens(e), [c]);
      OccursSplit(toks, p, [o], ExprTokens(e));
      var q := p + 1 + |ExprTokens(e)|;
      OccursFirst(toks, q, [c]);
      ExprAccepted(toks, p + 1, log, e);
  }

  lemma {:induction false} MulsAccepted(toks: seq<Token>, p: nat, log: seq<SyntaxDiagnostic>, m: MulChain)
    requires WfMuls(m) && Occurs(toks, p, MulTokens(m))
    requires !IsMulOp(At(toks, p + |MulTokens(m)|))
    ensures TermTail(toks, ParseState(p, log)) == ParseState(p + |MulTokens(m)|, log)
    decreases m
  {
    match m
    case MulEnd =>
    case MulMore(op, f, rest) =>
      OccursFirst(toks, p, MulTokens(m));
      OccursSplit(toks, p, [op] + FactorTokens(f), MulTokens(rest));
      OccursSplit(toks, p, [op], FactorTokens(f));
      var q := p + 1 + |FactorTokens(f)|;
      assert q + |MulTokens(rest)| == p + |MulTokens(m)|;
      FactorAccepted(toks, p + 1, log, f);
      MulsAccepted(toks, q, log, rest);
  }

  lemma {:induction false} TermAccepted(toks: seq<Token>, p: nat, log: seq<SyntaxDiagnostic>, t: TermTree)
    requires WfTerm(t) && Occurs(toks, p, TermTokens(t))
    requires !IsMulOp(At(toks, p + |TermTokens(t)|))
    ensures TermF(toks, ParseState(p, log)) == ParseState(p + |TermTokens(t)|, log)
    decreases t, 1
  {
    OccursSplit(toks, p, FactorTokens(t.first), MulTokens(t.muls));
    FactorAccepted(toks, p, log, t.first);
    MulsAccepted(toks, p + |FactorTokens(t.first)|, log, t.muls);
  }

  lemma {:induction false} AddsAccepted(toks: seq<Token>, p: nat, log: seq<SyntaxDiagnostic>, a: AddChain)
    requires WfAdds(a) && Occurs(toks, p, AddTokens(a))
    requires !IsAddOp(At(toks, p + |AddTokens(a)|)) && !IsMulOp(At(toks, p + |AddTokens(a)|))
    ensures ExprTail(toks, ParseState(p, log)) == ParseState(p + |AddTokens(a)|, log)
    decreases a
  {
    match a
    case AddEnd =>
    case AddMore(op, t, rest) =>
      OccursFirst(toks, p, AddTokens(a));
      OccursSplit(toks, p, [op] + TermTokens(t), AddTokens(rest));
      OccursSplit(toks, p, [op], TermTokens(t));
      var q := p + 1 + |TermTokens(t)|;
      assert q + |AddTokens(rest)| == p + |AddTokens(a)|;
      if |AddTokens(rest)| > 0 {
        OccursFirst(toks, q, AddTokens(rest));
      }
      TermAccepted(toks, p + 1, log, t);
      AddsAccepted(toks, q, log, rest);
  }

  lemma {:induction false} ComparisonAccepted(toks: seq<Token>, p: nat, log: seq<SyntaxDiagnostic>, c: Comparison)
    requires WfComparison(c) && Occurs(toks, p, ComparisonTokens(c))
    requires !IsRelOp(At(toks, p + |ComparisonTokens(c)|)) && !IsMulOp(At(toks, p + |ComparisonTokens(c)|))
    ensures ComparisonF(toks, ParseState(p, log)) == ParseState(p + |ComparisonTokens(c)|, log)
    decreases c
  {
    match c
    case NoComparison =>
    case Compare(op, t) =>
      OccursFirst(toks, p, ComparisonTokens(c));
      OccursSplit(toks, p, [op], TermTokens(t));
      TermAccepted(toks, p + 1, log, t);
  }

  /** The first term of an expression and the comparison after it. */
  lemma {:induction false} HeadAccepted(toks: seq<Token>, p: nat, log: seq<SyntaxDiagnostic>, e: ExprTree)
    requires WfExpr(e) && Occurs(toks, p, TermTokens(e.head) + ComparisonTokens(e.cmp))
    requires !IsRelOp(At(toks, p + |TermTokens(e.head)| + |ComparisonTokens(e.cmp)|))
    requires !IsMulOp(At(toks, p + |TermTokens(e.head)| + |ComparisonTokens(e.cmp)|))
    ensures ComparisonF(toks, TermF(toks, ParseState(p, log))) ==
            ParseState(p + |TermTokens(e.head)| + |ComparisonTokens(e.cmp)|, log)
    decreases e, 1
  {
    OccursSplit(toks, p, TermTokens(e.head), ComparisonTokens(e.cmp));
    var q := p + |TermTokens(e.head)|;
    if |ComparisonTokens(e.cmp)| > 0 {
      OccursFirst(toks, q, ComparisonTokens(e.cmp));
      assert !IsMulOp(At(toks, q));
    }
    TermAccepted(toks, p, log, e.head);
    ComparisonAccepted(toks, q, log, e.cmp);
  }

  /**
   * The expression rules consume a well-formed expression exactly and
   * report nothing, as long as the token after it is no operator they
   * would continue with.
   */
  lemma {:induction false} ExprAccepted(toks: seq<Token>, p: nat, log: seq<SyntaxDiagnostic>, e: ExprTree)
    requires WfExpr(e) && Occurs(toks, p, ExprTokens(e))
    requires EndsExpression(At(toks, p + |ExprTokens(e)|))
    ensures ExprF(toks, ParseState(p, log)) == ParseState(p + |ExprTokens(e)|, log)
    decreases e, 2
  {
    var hc := TermTokens(e.head) + ComparisonTokens(e.cmp);
    var a := AddTokens(e.adds);
    OccursSplit(toks, p, hc, a);
    var r := p + |hc|;
    if |a| > 0 {
      OccursFirst(toks, r, a);
      assert !IsRelOp(At(toks, r)) && !IsMulOp(At(toks, r));
    }
    HeadAccepted(toks, p, log, e);
    AddsAccepted(toks, r, log, e.adds);
  }

  // ---------------- rejection ----------------

  /**
   * A second relational operator after `left op right` is reported once, on
   * its own line, and the tokens from it up to the first `)`, `;` or end of
   * input are skipped; nothing after the stop token is parsed as part of
   * the expression.
   */
  lemma {:induction false} ChainedComparisonRecovered(toks: seq<Token>, p: nat, log: seq<SyntaxDiagnostic>,
                                                      left: TermTree, op: Token, right: TermTree)
    requires WfTerm(left) && IsRelOp(op) && WfTerm(right)
    requires Occurs(toks, p, TermTokens(left) + [op] + TermTokens(right))
    requires IsRelOp(At(toks, p + |TermTokens(left)| + 1 + |TermTokens(right)|))
    ensures
      var q := p + |TermTokens(left)| + 1 + |TermTokens(right)|;
      && q < |toks|
      && ExprF(toks, ParseState(p, log)) ==
         ParseState(SkipToStop(toks, q + 1), log + [SyntaxDiagnostic(toks[q].line, ChainedComparison)])
  {
    var m := p + |TermTokens(left)|;
    var q := m + 1 + |TermTokens(right)|;
    TermsAroundOperator(toks, p, log, left, op, right);
    ChainAfterTerms(toks, p, m, q, log);
  }

  /** Reading `left op right`: the two terms are consumed exactly, and `op` sits between them. */
  lemma TermsAroundOperator(toks: seq<Token>, p: nat, log: seq<SyntaxDiagnostic>,
                            left: TermTree, op: Token, right: TermTree)
    requires WfTerm(left) && IsRelOp(op) && WfTerm(right)
    requires Occurs(toks, p, TermTokens(left) + [op] + TermTokens(right))
    requires IsRelOp(At(toks, p + |TermTokens(left)| + 1 + |TermTokens(right)|))
    ensures
      var m := p + |TermTokens(left)|;
      var q := m + 1 + |TermTokens(right)|;
      && q < |toks| && toks[m] == op
      && TermF(toks, ParseState(p, log)) == ParseState(m, log)
      && TermF(toks, ParseState(m + 1, log)) == ParseState(q, log)
  {
    var m := p + |TermTokens(left)|;
    var q := m + 1 + |TermTokens(right)|;
    assert Occurs(toks, p, TermTokens(left) + [op]) && Occurs(toks, m + 1, TermTokens(right)) by {
      OccursSplit(toks, p, TermTokens(left) + [op], TermTokens(right));
      assert p + |TermTokens(left) + [op]| == m + 1;
    }
    TermBeforeOperator(toks, p, log, left, op);
    TermBeforeEnd(toks, m + 1, q, log, right);
  }

  /** The first term of `left op`: consumed exactly, stopping at `op`. */
  lemma TermBeforeOperator(toks: seq<Token>, p: nat, log: seq<SyntaxDiagnostic>, left: TermTree, op: Token)
    requires WfTerm(left) && IsRelOp(op)
    requires Occurs(toks, p, TermTokens(left) + [op])
    ensures
      var m := p + |TermTokens(left)|;
      && m < |toks| && toks[m] == op
      && TermF(toks, ParseState(p, log)) == ParseState(m, log)
  {
    OccursSplit(toks, p, TermTokens(left), [op]);
    OccursFirst(toks, p + |TermTokens(left)|, [op]);
    assert !IsMulOp(op);
    TermAccepted(toks, p, log, left);
  }

  /** A term followed by a relational operator: consumed exactly, stopping at that operator. */
  lemma TermBeforeEnd(toks: seq<Token>, p: nat, q: nat, log: seq<SyntaxDiagnostic>, t: TermTree)
    requires WfTerm(t)
    requires Occurs(toks, p, TermTokens(t))
    requires q == p + |TermTokens(t)|
    requires IsRelOp(At(toks, q))
    ensures q < |toks|
    ensures TermF(toks, ParseState(p, log)) == ParseState(q, log)
  {
    assert !IsMulOp(At(toks, q));
    TermAccepted(toks, p, log, t);
  }

  /** The chained-comparison recovery, once the two terms around the first operator have been read. */
  lemma ChainAfterTerms(toks: seq<Token>, p: nat, m: nat, q: nat, log: seq<SyntaxDiagnostic>)
    requires p <= m < q < |toks| && IsRelOp(toks[m]) && IsRelOp(toks[q])
    requires TermF(toks, ParseState(p, log)) == ParseState(m, log)
    requires TermF(toks, ParseState(m + 1, log)) == ParseState(q, log)
    ensures ExprF(toks, ParseState(p, log)) ==
            ParseState(SkipToStop(toks, q + 1), log + [SyntaxDiagnostic(toks[q].line, ChainedComparison)])
  {
    ComparisonChained(toks, m, log);
    StopEndsTail(toks, ComparisonF(toks, ParseState(m, log)));
  }

  /** One step of the comparison rule: a relational operator, a term, and a second relational operator. */
  lemma ComparisonChained(toks: seq<Token>, m: nat, log: seq<SyntaxDiagnostic>)
    requires m < |toks| && IsRelOp(toks[m])
    requires IsRelOp(At(toks, TermF(toks, ParseState(m + 1, log)).pos))
    ensures
      var t := TermF(toks, ParseState(m + 1, log));
      ComparisonF(toks, ParseState(m, log)) ==
      ParseState(SkipToStop(toks, Next(toks, t.pos)), t.log + [SyntaxDiagnostic(At(toks, t.pos).line, ChainedComparison)])
  {
  }

  /** A stop token is no `+` or `-`, so the additive loop never starts there. */
  lemma StopEndsTail(toks: seq<Token>, s: ParseState)
    requires s.pos <= |toks| && IsStop(At(toks, s.pos))
    ensures ExprTail(toks, s) == s
  {
  }

  /**
   * A factor that is neither an operand nor `(` is reported once, and two
   * tokens are skipped: the offending one and the one after it (fewer at
   * the end of input).
   */
  lemma FactorRejected(toks: seq<Token>, s: ParseState)
    requires s.pos <= |toks|
    requires !IsOperand(At(toks, s.pos)) && At(toks, s.pos).value != "("
    ensures
      var r := FactorF(toks, s);
      && r.log == s.log + [SyntaxDiagnostic(At(toks, s.pos).line, InvalidExpression)]
      && r.pos <= s.pos + 2
      && (s.pos + 2 <= |toks| ==> r.pos == s.pos + 2)
      && (s.pos + 2 > |toks| ==> r.pos == |toks|)
  {
  }

  /**
   * An expression that does not start with an operand or `(` is reported
   * as invalid on the line of its first token, before anything else the
   * expression rules report.
   */
  lemma InvalidStartReported(toks: seq<Token>, s: ParseState)
    requires s.pos <= |toks|
    requires !IsOperand(At(toks, s.pos)) && At(toks, s.pos).value != "("
    ensures
      var r := ExprF(toks, s);
      |r.log| > |s.log| && r.log[|s.log|] == SyntaxDiagnostic(At(toks, s.pos).line, InvalidExpression)
  {
    var f := FactorF(toks, s);
    assert f.log == s.log + [SyntaxDiagnostic(At(toks, s.pos).line, InvalidExpression)];
    var r := ExprF(toks, s);
    assert f.log <= TermF(toks, s).log <= r.log;
  }
}
