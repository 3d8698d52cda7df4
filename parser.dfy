/**
 * The recursive-descent parser: a cursor over a fixed token sequence, a
 * syntax-error flag, and the semantic analyzer it owns and drives.  One
 * method per nonterminal; errors are recovered from by skipping tokens.
 */
module Parsing {
  import opened Tokens
  import opened Semantics
  import opened Expressions

  /** The closing lines `parse` chooses between. */
  datatype Summary = Succeeded | SyntaxErrorsFound | SemanticErrorsFound

  /** A leading token that selects one of the statement forms. */
  predicate StartsStatement(t: Token)
  {
    || t.value == "announce" || t.value == "listen" || t.value == "track"
    || t.value == "looplap" || t.value == "finishline"
    || t.tokenType == Keyword || t.tokenType == Identifier
  }

  /**
   * The name a function header at `p` registers: the identifier after
   * `engine` when there is one, otherwise the leading token's own text.
   */
  function FunctionName(toks: seq<Token>, p: nat): (name: string)
    requires p <= |toks|
    ensures At(toks, p).value != "engine" ==> name == At(toks, p).value
    ensures At(toks, p).value == "engine" && At(toks, Next(toks, p)).tokenType == Identifier ==>
      name == At(toks, Next(toks, p)).value
    ensures name == At(toks, p).value || name == At(toks, p + 1).value
    ensures name != At(toks, p).value ==> At(toks, p + 1).tokenType == Identifier && p + 1 < |toks|
  {
    if At(toks, p).value == "engine" && At(toks, Next(toks, p)).tokenType == Identifier
    then At(toks, Next(toks, p)).value
    else At(toks, p).value
  }

  /** Where the cursor is after the leading keyword of a function header at `p` and its optional name. */
  function NameEnd(toks: seq<Token>, p: nat): (q: nat)
    requires p <= |toks|
    ensures p <= q <= |toks| && q <= p + 2
    ensures p < |toks| ==> p < q
    ensures At(toks, p).value == "engine" && At(toks, Next(toks, p)).tokenType == Identifier ==> q == p + 2
    ensures !(At(toks, p).value == "engine" && At(toks, Next(toks, p)).tokenType == Identifier) ==> q == Next(toks, p)
  {
    if At(toks, p).value == "engine" && At(toks, Next(toks, p)).tokenType == Identifier
    then Next(toks, Next(toks, p))
    else Next(toks, p)
  }

  class Parser {
    const tokens: seq<Token>
    var pos: nat
    var hasError: bool
    var syntaxErrors: seq<SyntaxDiagnostic>
    const semantics: SemanticAnalyzer

    /** The cursor is in range and each error flag is set exactly when its component reported something. */
    ghost predicate Valid()
      reads this, semantics
    {
      CursorValid() && semantics.Valid()
    }

    /** The parser's own part of `Valid`: the cursor is in range and `hasError` means a syntax error was reported. */
    ghost predicate CursorValid()
      reads this
    {
      pos <= |tokens| && (hasError <==> |syntaxErrors| > 0)
    }

    function State(): ParseState
      reads this
    {
      ParseState(pos, syntaxErrors)
    }

    /**
     * What every grammar rule keeps: the cursor never moves back, reports are
     * only appended, and neither error flag is cleared.
     */
    twostate predicate Monotone()
      reads this, semantics
    {
      && old(pos) <= pos
      && old(syntaxErrors) <= syntaxErrors
      && (old(hasError) ==> hasError)
      && old(semantics.diagnostics) <= semantics.diagnostics
      && (old(semantics.hasErr) ==> semantics.hasErr)
    }

    constructor (t: seq<Token>)
      ensures Valid()
      ensures tokens == t && pos == 0
      ensures !hasError && syntaxErrors == []
      ensures fresh(semantics)
      ensures semantics.scopes == [map[]] && semantics.funcs == map[] && semantics.diagnostics == []
    {
      tokens := t;
      pos := 0;
      hasError := false;
      syntaxErrors := [];
      semantics := new SemanticAnalyzer();
    }

    /** Whether the analyzer reported anything. */
    function SemanticErrors(): (b: bool)
      reads this, semantics
      requires Valid()
      ensures b <==> |semantics.diagnostics| > 0
    {
      semantics.HasErrors()
    }

    // ---------------- cursor helpers ----------------

    /** The token under the cursor; past the end, an end-of-file token on line -1. */
    function Current(): (t: Token)
      reads this
      ensures pos >= |tokens| ==> t == Token(EndOfFile, "EOF", -1)
      ensures pos < |tokens| ==> t == tokens[pos]
    {
      At(tokens, pos)
    }

    method Advance()
      requires CursorValid()
      modifies this`pos
      ensures CursorValid()
      ensures pos == Next(tokens, old(pos))
    {
      if pos < |tokens| {
        pos := pos + 1;
      }
    }

    /** Consumes the current token exactly when it has type `ty`. */
    method Match(ty: TokenType) returns (matched: bool)
      requires CursorValid()
      modifies this`pos
      ensures CursorValid()
      ensures matched <==> At(tokens, old(pos)).tokenType == ty
      ensures pos == if matched then Next(tokens, old(pos)) else old(pos)
    {
      if Current().tokenType == ty {
        Advance();
        return true;
      }
      return false;
    }

    /** Sets the syntax-error flag, records the report at the current line, and skips one token. */
    method Error(msg: SyntaxMessage)
      requires CursorValid()
      modifies this`pos, this`hasError, this`syntaxErrors
      ensures CursorValid() && hasError
      ensures State() == ErrorAt(tokens, old(State()), msg)
    {
      hasError := true;
      syntaxErrors := syntaxErrors + [SyntaxDiagnostic(Current().line, msg)];
      Advance();
    }

    /** Consumes one token, reporting an error when it is not of type `ty`. */
    method Expect(ty: TokenType, what: string)
      requires CursorValid()
      modifies this`pos, this`hasError, this`syntaxErrors
      ensures CursorValid()
      ensures State() == ExpectAt(tokens, old(State()), ty, what)
    {
      var matched := Match(ty);
      if !matched {
        Error(Expected(what, Current().value));
      }
    }

    // ---------------- top level ----------------

    /** Parses the whole token sequence and reports the verdict. */
    method Parse() returns (summary: seq<Summary>)
      requires Valid()
      modifies this, semantics
      ensures Valid() && Monotone()
      ensures semantics.scopes == old(semantics.scopes)
      ensures (Succeeded in summary) <==> !hasError && !semantics.hasErr
      ensures summary ==
        if !hasError && !semantics.hasErr then [Succeeded]
        else (if hasError then [SyntaxErrorsFound] else []) +
             (if semantics.hasErr then [SemanticErrorsFound] else [])
      ensures old(syntaxErrors) == [] && old(semantics.diagnostics) == [] ==>
        ((Succeeded in summary) <==> syntaxErrors == [] && semantics.diagnostics == [])
    {
      Program();
      if !hasError && !semantics.HasErrors() {
        summary := [Succeeded];
      } else {
        summary := [];
        if hasError {
          summary := summary + [SyntaxErrorsFound];
        }
        if semantics.HasErrors() {
          summary := summary + [SemanticErrorsFound];
        }
      }
    }

    /** Program := ImportSection NamespaceSection FunctionList. */
    method Program()
      requires Valid()
      modifies this, semantics
      ensures Valid() && Monotone()
      ensures semantics.scopes == old(semantics.scopes)
      ensures KeepsFunctions(old(semantics.funcs), semantics.funcs)
    {
      ImportSection();
      NamespaceSection();
      FunctionList();
    }

    /** { "#oil" ["<"] [Identifier] [">"] }: never reports an error. */
    method ImportSection()
      requires Valid()
      modifies this`pos
      ensures Valid()
      ensures old(pos) <= pos
      ensures At(tokens, pos).value != "#oil"
    {
      while Current().value == "#oil"
        invariant Valid() && old(pos) <= pos
        decreases |tokens| - pos
      {
        Advance();
        if Current().value == "<" {
          Advance();
        }
        if Current().tokenType == Identifier {
          Advance();
        }
        if Current().value == ">" {
          Advance();
        }
      }
    }

    /** "key" Identifier, with a distinct error for each missing part. */
    method NamespaceSection()
      requires Valid()
      modifies this`pos, this`hasError, this`syntaxErrors
      ensures Valid()
      ensures
        var p := old(pos);
        if At(tokens, p).value == "key" then
          if At(tokens, p + 1).tokenType == Identifier then
            State() == ParseState(p + 2, old(syntaxErrors))
          else
            State() == ErrorAt(tokens, ParseState(p + 1, old(syntaxErrors)), MissingNamespaceName)
        else
          State() == ErrorAt(tokens, old(State()), MissingKeyKeyword)
    {
      if Current().value == "key" {
        Advance();
        if Current().tokenType == Identifier {
          Advance();
        } else {
          Error(MissingNamespaceName);
        }
      } else {
        Error(MissingKeyKeyword);
      }
    }

    /** { Function } while the current token is `engine` or `ignite`. */
    method FunctionList()
      requires Valid()
      modifies this, semantics
      ensures Valid() && Monotone()
      ensures semantics.scopes == old(semantics.scopes)
      ensures KeepsFunctions(old(semantics.funcs), semantics.funcs)
      ensures At(tokens, pos).value != "engine" && At(tokens, pos).value != "ignite"
    {
      while Current().value == "engine" || Current().value == "ignite"
        invariant Valid() && Monotone()
        invariant semantics.scopes == old(semantics.scopes)
        invariant KeepsFunctions(old(semantics.funcs), semantics.funcs)
        decreases |tokens| - pos
      {
        Function();
      }
    }

    /**
     * ("engine" [Identifier] | "ignite") "(" ")" Block.  The name is
     * registered with no parameters before the body is parsed.
     */
    method Function()
      requires Valid()
      modifies this, semantics
      ensures Valid() && Monotone()
      ensures old(pos) < |tokens| ==> old(pos) < pos
      ensures semantics.scopes == old(semantics.scopes)
      ensures
        var name := FunctionName(tokens, old(pos));
        && semantics.funcs == (if name in old(semantics.funcs) then old(semantics.funcs) else old(semantics.funcs)[name := 0])
        && (name in old(semantics.funcs) ==>
              && |semantics.diagnostics| > |old(semantics.diagnostics)|
              && semantics.diagnostics[|old(semantics.diagnostics)|] == Report(DuplicateFunction(name), At(tokens, old(pos))))
    {
      var fnTok, fname := FunctionHeader();
      semantics.DeclareFunction(fname, 0, fnTok);
      Block();
    }

    /** The header of a function: its keyword, the optional name after `engine`, and "(" ")". */
    method FunctionHeader() returns (fnTok: Token, fname: string)
      requires CursorValid()
      modifies this`pos, this`hasError, this`syntaxErrors
      ensures CursorValid()
      ensures fnTok == At(tokens, old(pos)) && fname == FunctionName(tokens, old(pos))
      ensures State() == ExpectAt(tokens, ExpectAt(tokens, ParseState(NameEnd(tokens, old(pos)), old(syntaxErrors)), Symbol, "("), Symbol, ")")
      ensures old(hasError) ==> hasError
    {
      fnTok := Current();
      fname := fnTok.value;
      Advance();
      if fname == "engine" {
        if Current().tokenType == Identifier {
          fname := Current().value;
          Advance();
        }
      }
      Expect(Symbol, "(");
      Expect(Symbol, ")");
    }

    // ---------------- blocks and statements ----------------

    /**
     * "{" StatementList "}", with a scope entered before the statements and
     * left after them, whether or not the braces are there.
     */
    method Block()
      requires Valid()
      modifies this, semantics
      ensures Valid() && Monotone()
      ensures old(pos) < |tokens| ==> old(pos) < pos
      ensures semantics.scopes == old(semantics.scopes)
      ensures semantics.funcs == old(semantics.funcs)
      decreases |tokens| - pos, 3
    {
      Expect(Symbol, "{");
      semantics.EnterScope();
      StatementList();
      semantics.LeaveScope();
      Expect(Symbol, "}");
    }

    /** { Statement } up to a `}` or the end of input. */
    method StatementList()
      requires Valid() && |semantics.scopes| > 0
      modifies this, semantics
      ensures Valid() && Monotone()
      ensures InnermostGrows(old(semantics.scopes), semantics.scopes)
      ensures semantics.funcs == old(semantics.funcs)
      ensures At(tokens, pos).value == "}" || At(tokens, pos).tokenType == EndOfFile
      decreases |tokens| - pos, 2
    {
      while Current().value != "}" && Current().tokenType != EndOfFile
        invariant Valid() && Monotone()
        invariant InnermostGrows(old(semantics.scopes), semantics.scopes)
        invariant semantics.funcs == old(semantics.funcs)
        decreases |tokens| - pos
      {
        Statement();
      }
    }

    /**
     * Dispatches on the leading token; a token that starts no statement is
     * skipped silently.
     */
    method Statement()
      requires Valid() && |semantics.scopes| > 0
      modifies this, semantics
      ensures Valid() && Monotone()
      ensures old(pos) < |tokens| ==> old(pos) < pos
      ensures InnermostGrows(old(semantics.scopes), semantics.scopes)
      ensures semantics.funcs == old(semantics.funcs)
      ensures !StartsStatement(At(tokens, old(pos))) ==>
        && pos == Next(tokens, old(pos))
        && syntaxErrors == old(syntaxErrors)
        && semantics.scopes == old(semantics.scopes)
        && semantics.diagnostics == old(semantics.diagnostics)
      decreases |tokens| - pos, 1
    {
      var t := Current();
      if t.value == "announce" {
        OutputStmt();
      } else if t.value == "listen" {
        InputStmt();
      } else if t.value == "track" {
        ConditionalStmt();
      } else if t.value == "looplap" {
        LoopStmt();
      } else if t.value == "finishline" {
        ReturnStmt();
      } else if t.tokenType == Keyword {
        ghost var sc := semantics.scopes;
        DeclarationStmt();
        DeclareSpec(sc, At(tokens, old(pos) + 1).value, t.value);
      } else if t.tokenType == Identifier {
        AssignmentStmt();
      } else {
        Advance();
      }
    }

    /**
     * Keyword Identifier "=" Expression ";".  The token after the type
     * keyword is declared with it, even when it is not an identifier.
     */
    method DeclarationStmt()
      requires Valid() && At(tokens, pos).tokenType == Keyword
      modifies this, semantics
      ensures Valid() && Monotone()
      ensures old(pos) < pos
      ensures
        var varTok := At(tokens, old(pos) + 1);
        && semantics.scopes == Declare(old(semantics.scopes), varTok.value, tokens[old(pos)].value)
        && semantics.diagnostics == old(semantics.diagnostics) +
             (if InInnermost(old(semantics.scopes), varTok.value)
              then [Report(DuplicateVariable(varTok.value), varTok)] else [])
      ensures semantics.funcs == old(semantics.funcs)
    {
      var typeName := Current().value;
      Advance();
      var varTok := Current();
      Expect(Identifier, "variable name");
      semantics.DeclareVariable(varTok.value, typeName, varTok);
      Expect(Operator, "=");
      Expression();
      Expect(Symbol, ";");
    }

    /** Identifier "=" Expression ";": the target must be declared in an open scope. */
    method AssignmentStmt()
      requires Valid() && At(tokens, pos).tokenType == Identifier
      modifies this, semantics
      ensures Valid() && Monotone()
      ensures old(pos) < pos
      ensures semantics.scopes == old(semantics.scopes)
      ensures semantics.funcs == old(semantics.funcs)
      ensures
        var nameTok := tokens[old(pos)];
        semantics.diagnostics == old(semantics.diagnostics) +
          (if Visible(old(semantics.scopes), nameTok.value) then []
           else [Report(UndeclaredVariable(nameTok.value), nameTok)])
    {
      var nameTok := Current();
      Advance();
      semantics.AssignVariable(nameTok.value, nameTok);
      Expect(Operator, "=");
      Expression();
      Expect(Symbol, ";");
    }

    /** "track" "(" Expression ")" Block [ "pitstop" Block ]. */
    method ConditionalStmt()
      requires Valid() && At(tokens, pos).value == "track"
      modifies this, semantics
      ensures Valid() && Monotone()
      ensures old(pos) < pos
      ensures semantics.scopes == old(semantics.scopes)
      ensures semantics.funcs == old(semantics.funcs)
      decreases |tokens| - pos, 0
    {
      Advance();
      Expect(Symbol, "(");
      Expression();
      Expect(Symbol, ")");
      Block();
      if Current().value == "pitstop" {
        Advance();
        Block();
      }
    }

    /** "looplap" "(" Expression ")" Block. */
    method LoopStmt()
      requires Valid() && At(tokens, pos).value == "looplap"
      modifies this, semantics
      ensures Valid() && Monotone()
      ensures old(pos) < pos
      ensures semantics.scopes == old(semantics.scopes)
      ensures semantics.funcs == old(semantics.funcs)
      decreases |tokens| - pos, 0
    {
      Advance();
      Expect(Symbol, "(");
      Expression();
      Expect(Symbol, ")");
      Block();
    }

    /** "announce" Expression ";": no semantic check. */
    method OutputStmt()
      requires Valid() && At(tokens, pos).value == "announce"
      modifies this
      ensures Valid() && Monotone()
      ensures old(pos) < pos
    {
      Advance();
      Expression();
      Expect(Symbol, ";");
    }

    /** "listen" Identifier ";": the identifier is consumed without a semantic check. */
    method InputStmt()
      requires Valid() && At(tokens, pos).value == "listen"
      modifies this
      ensures Valid() && Monotone()
      ensures old(pos) < pos
      ensures State() == ExpectAt(tokens, ExpectAt(tokens, ParseState(old(pos) + 1, old(syntaxErrors)), Identifier, "variable name"), Symbol, ";")
    {
      Advance();
      Expect(Identifier, "variable name");
      Expect(Symbol, ";");
    }

    /** "finishline" Expression ";". */
    method ReturnStmt()
      requires Valid() && At(tokens, pos).value == "finishline"
      modifies this
      ensures Valid() && Monotone()
      ensures old(pos) < pos
    {
      Advance();
      Expression();
      Expect(Symbol, ";");
    }

    // ---------------- expressions ----------------

    /** Expression := Term [ RelOp Term ] { ("+" | "-") Term }, rejecting a chained comparison. */
    method Expression()
      requires CursorValid()
      modifies this
      ensures CursorValid()
      ensures State() == ExprF(tokens, old(State()))
      decreases |tokens| - pos, 4
    {
      ghost var s0 := State();
      Term();
      ghost var t1 := State();
      if IsRelOp(Current()) {
        Advance();
        Term();
        if IsRelOp(Current()) {
          Error(ChainedComparison);
          SkipToStopToken();
        }
      }
      assert State() == ComparisonF(tokens, t1);
      while IsAddOp(Current())
        invariant CursorValid() && s0.pos <= pos
        invariant ExprTail(tokens, State()) == ExprF(tokens, s0)
        decreases |tokens| - pos
      {
        Advance();
        Term();
      }
    }

    /** Skips tokens up to the next `)`, `;` or end of input. */
    method SkipToStopToken()
      requires CursorValid()
      modifies this`pos
      ensures CursorValid()
      ensures pos == SkipToStop(tokens, old(pos))
    {
      while !IsStop(Current())
        invariant CursorValid() && old(pos) <= pos
        invariant SkipToStop(tokens, pos) == SkipToStop(tokens, old(pos))
        decreases |tokens| - pos
      {
        Advance();
      }
    }

    /** Term := Factor { ("*" | "/" | "%") Factor }. */
    method Term()
      requires CursorValid()
      modifies this
      ensures CursorValid()
      ensures State() == TermF(tokens, old(State()))
      decreases |tokens| - pos, 2
    {
      ghost var s0 := State();
      Factor();
      while IsMulOp(Current())
        invariant CursorValid() && s0.pos <= pos
        invariant TermTail(tokens, State()) == TermF(tokens, s0)
        decreases |tokens| - pos
      {
        Advance();
        Factor();
      }
    }

    /**
     * Factor := Number | String | Identifier | "(" Expression ")".  An
     * identifier is consumed without a semantic check.
     */
    method Factor()
      requires CursorValid()
      modifies this
      ensures CursorValid()
      ensures State() == FactorF(tokens, old(State()))
      decreases |tokens| - pos, 0
    {
      var t := Current();
      if IsOperand(t) {
        Advance();
      } else if t.value == "(" {
        Advance();
        Expression();
        Expect(Symbol, ")");
      } else {
        Error(InvalidExpression);
        Advance();
      }
    }
  }

  /** Every function of `before` is still declared in `after` with the same parameter count. */
  ghost predicate KeepsFunctions(before: map<string, int>, after: map<string, int>)
  {
    forall f :: f in before ==> f in after && after[f] == before[f]
  }
}
