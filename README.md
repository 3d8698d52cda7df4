# Auto_Speed front end: parser and semantic analyzer

This project models the front end of the Auto_Speed toy language, a
racing-themed language with `#oil` imports, a `key` namespace, and
functions introduced by `ignite` or `engine`. The model covers its two
cooperating stateful parts:

- **`SemanticAnalyzer`** (`semantics.dfy`, module `Semantics`). The model
  is a class with these fields:
  - a stack of variable scopes (`seq<map<string, string>>`, innermost
    last);
  - a flat table of function parameter counts (`map<string, int>`);
  - the one-way error flag `hasErr`.

  Every report also appends a `Diagnostic` to `diagnostics`, so the flag
  can be tied to what was reported. The class invariant is that the flag
  is set exactly when something was reported. Name lookup from the
  innermost scope outwards is the pure function `Resolve`. The effect of a
  declaration on the stack is the pure function `Declare`.
- **`Parser`** (`parser.dfy`, module `Parsing`). This is a class with:
  - a cursor `pos` over a fixed token sequence, which reads an
    end-of-file token on line -1 once past the end;
  - the syntax-error flag `hasError`, with a recorded list of syntax
    diagnostics;
  - the analyzer it owns.

  There is one method per nonterminal, from `Program` down to `Factor`.
  The grammar methods from `Program` down to the statements preserve
  `Valid()` and state the two-state predicate `Monotone()`: the cursor
  never moves back, reports are only appended, and neither error flag is
  cleared. `ImportSection`, `NamespaceSection`, `Expression`, `Term` and
  `Factor` do not state `Monotone()` as a clause. They state their exact
  effect instead, and `Monotone()` follows from it. The three expression
  methods keep only the parser's own part of the invariant,
  `CursorValid()`, because they never touch the analyzer. Mutual recursion terminates by
  `|tokens| - pos` together with a rank per nonterminal. Every loop
  strictly advances the cursor.

- **Expression rules** (`expressions.dfy`, module `Expressions`).
  `Expression`, `Term` and `Factor` never call the analyzer. Each is
  proved to change the cursor and the syntax log exactly as a pure
  state-transformer function does (`ExprF`, `TermF`, `FactorF`).
- **Grammar** (`grammar.dfy`, module `ExpressionGrammar`). This module
  proves two things about those functions, against syntax trees of
  well-formed expressions and the token sequences they are written as:
  - a well-formed expression is consumed exactly and reports nothing;
  - a chained comparison `a < b < c` is reported once, on the line of
    the second operator, and the tokens are skipped up to the first `)`,
    `;` or end of input.
- **Tokens** (`tokens.dfy`, module `Tokens`). The `Token` record and
  `TokenType` enum, plus the end-of-file lookup under the cursor.
- **Scenarios** (`examples.dfy`). Fixed inputs with their proved
  outcomes:
  - the `X>5<3` condition of the demo program;
  - a redeclaration;
  - shadowing across scopes;
  - duplicate functions and a call with the wrong argument count;
  - the verdict of a whole parse.

Three behaviours of the C++ code are modelled as written, although a
reader might expect otherwise:

- `leaveScope` pops whenever the stack is non-empty, so it could pop the
  global scope. Parsing never does this, because `Block` pairs each pop
  with a push (`Parsing.Parser.Block`: the scopes after equal the scopes
  before).
- Only assignment targets are checked against the scope stack. An
  identifier read inside an expression or by `listen` gets no check.
- `expect` checks the token's type only, never its text. So
  `expect(SYMBOL, ")")` accepts any symbol token.

## Model

| member | source | states |
|---|---|---|
| Tokens.At | Auto_Speed/parser.cpp:11-14 | past the end of the tokens the end-of-file token (line -1), otherwise the token at the position |
| Tokens.Next | Auto_Speed/parser.cpp:16-18 | advancing never passes the end: one step forward before the end, no move at the end |
| Semantics.Resolve | Auto_Speed/semantics.cpp:43-47 | lookup from the innermost scope outwards finds a scope exactly when the name is declared in some open scope; the scope it finds declares the name, and no scope inside it does |
| Semantics.ResolvePushed | Auto_Speed/semantics.cpp:21-23 | a pushed scope hides the outer declarations of exactly the names it declares |
| Semantics.Opened | Auto_Speed/semantics.cpp:33 | a declaration works on a non-empty stack: one empty scope is opened first if none is, otherwise the stack is unchanged |
| Semantics.Declare | Auto_Speed/semantics.cpp:33-40 | the stack after `declareVariable`: non-empty, with the name bound in its innermost scope; its full effect is stated by `Semantics.DeclareSpec` |
| Semantics.DeclareSpec | Auto_Speed/semantics.cpp:32-41 | after a declaration the name is in the innermost scope; a duplicate leaves the stack unchanged; otherwise the depth and the outer scopes are kept, every earlier binding stays, and the name is bound to its type |
| Semantics.ShadowingAllowed | Auto_Speed/semantics.cpp:35-40 | in a freshly entered scope a name is never a duplicate, even when an outer scope declares it; the new binding is added to the inner scope only and is the one in effect |
| Semantics.DeclareKeepsOthers | Auto_Speed/semantics.cpp:35-40 | a declaration does not change how any other name resolves |
| Semantics.SemanticAnalyzer.constructor | Auto_Speed/semantics.cpp:6-9 | a new analyzer has exactly one empty scope, no functions and no error |
| Semantics.SemanticAnalyzer.HasErrors | Auto_Speed/semantics.cpp:11-13 | the flag is set exactly when some error has been reported |
| Semantics.Report | Auto_Speed/semantics.cpp:15-17 | a report made near a token carries the error together with that token's line and lexeme |
| Semantics.SemanticAnalyzer.ReportError | Auto_Speed/semantics.cpp:15-18 | sets the flag and records the report (error, line, lexeme); nothing else changes |
| Semantics.SemanticAnalyzer.EnterScope | Auto_Speed/semantics.cpp:21-23 | appends exactly one empty scope; the existing scopes are unchanged |
| Semantics.SemanticAnalyzer.LeaveScope | Auto_Speed/semantics.cpp:25-29 | removes exactly the innermost scope when there is one; an empty stack stays empty |
| Semantics.SemanticAnalyzer.DeclareVariable | Auto_Speed/semantics.cpp:32-41 | the new stack is `Declare` of the old one; exactly one duplicate-variable report when the name is already in the innermost scope, otherwise none; functions untouched |
| Semantics.SemanticAnalyzer.AssignVariable | Auto_Speed/semantics.cpp:43-49 | reports an undeclared variable exactly when the name is in no open scope; the scopes and the function table are untouched |
| Semantics.SemanticAnalyzer.IsDeclaredInCurrentScope | Auto_Speed/semantics.cpp:51-55 | false on an empty stack; otherwise true exactly when the name resolves to the innermost scope |
| Semantics.SemanticAnalyzer.DeclareFunction | Auto_Speed/semantics.cpp:58-64 | a new name is added with its parameter count; an existing one keeps its original count and is reported once as a duplicate |
| Semantics.SemanticAnalyzer.CallFunction | Auto_Speed/semantics.cpp:66-74 | reports an undefined function when the name is absent, an arity mismatch (with both counts) when the stored count differs, and nothing otherwise; the table is untouched |
| Expressions.ErrorAt | Auto_Speed/parser.cpp:31-35 | an error appends exactly one report, on the line of the token under the cursor, and then skips one token (none at the end of input) |
| Expressions.ExpectAt | Auto_Speed/parser.cpp:27-29 | expecting a type consumes exactly one token if any is left, match or not, and reports an error (with what was expected and what was found) exactly when the type differs |
| Expressions.SkipToStop | Auto_Speed/parser.cpp:296-300 | the recovery skip stops at the first `)`, `;` or end-of-file token at or after the start, and never passes the end |
| Expressions.FactorF | Auto_Speed/parser.cpp:329-345 | a factor never moves the cursor back or out of range, only appends to the log, and always consumes at least one token when any is left |
| Expressions.TermTail | Auto_Speed/parser.cpp:321-325 | the multiplicative loop stops at a token that is no `*`, `/` or `%` |
| Expressions.TermF | Auto_Speed/parser.cpp:317-327 | a term makes strict progress and stops at a token that is no multiplicative operator |
| Expressions.ComparisonF | Auto_Speed/parser.cpp:280-302 | the optional comparison never moves back and only appends to the log |
| Expressions.ExprTail | Auto_Speed/parser.cpp:305-311 | the additive loop stops at a token that is no `+` or `-` |
| Expressions.ExprF | Auto_Speed/parser.cpp:273-314 | an expression makes strict progress, stays in range and stops at a token that is no additive operator |
| ExpressionGrammar.FactorAccepted | Auto_Speed/parser.cpp:332-339 | a number, string or identifier, or a parenthesised well-formed expression, is consumed exactly, with no report |
| ExpressionGrammar.MulsAccepted | Auto_Speed/parser.cpp:321-325 | a chain of `* / %` factors is consumed exactly, with no report |
| ExpressionGrammar.TermAccepted | Auto_Speed/parser.cpp:317-327 | a well-formed term is consumed exactly, with no report |
| ExpressionGrammar.AddsAccepted | Auto_Speed/parser.cpp:305-311 | a chain of `+ -` terms is consumed exactly, with no report |
| ExpressionGrammar.ComparisonAccepted | Auto_Speed/parser.cpp:280-287 | a single relational operator and term raise no syntax error and are consumed exactly |
| ExpressionGrammar.HeadAccepted | Auto_Speed/parser.cpp:277-302 | the first term of an expression and its optional comparison are consumed exactly, with no report |
| ExpressionGrammar.ExprAccepted | Auto_Speed/parser.cpp:273-314 | a well-formed expression, followed by a token the rules do not continue with, is consumed exactly with no report |
| ExpressionGrammar.ChainedComparisonRecovered | Auto_Speed/parser.cpp:280-301 | after `left op right`, a second relational operator adds exactly one chained-comparison report on its own line, and the cursor ends at the first `)`, `;` or end of input after it |
| ExpressionGrammar.TermsAroundOperator | Auto_Speed/parser.cpp:277-287 | in `left op right` each term is consumed exactly, and `op` sits between them |
| ExpressionGrammar.TermBeforeOperator | Auto_Speed/parser.cpp:277 | the first term of `left op` is consumed exactly, stopping at `op` |
| ExpressionGrammar.TermBeforeEnd | Auto_Speed/parser.cpp:287 | a term followed by a relational operator is consumed exactly, stopping at that operator, which is in range |
| ExpressionGrammar.ChainAfterTerms | Auto_Speed/parser.cpp:289-301 | once both terms are read, a further relational operator is reported and skipped past, and the additive loop does not start at the stop token |
| ExpressionGrammar.ComparisonChained | Auto_Speed/parser.cpp:290-300 | a relational operator, a term, then another relational operator: one report at the second operator, then a skip to a stop token |
| ExpressionGrammar.StopEndsTail | Auto_Speed/parser.cpp:305-306 | at a stop token the additive loop consumes nothing |
| ExpressionGrammar.FactorRejected | Auto_Speed/parser.cpp:340-343 | a factor that is neither an operand nor `(` is reported once as invalid and skips two tokens (fewer at the end of input) |
| ExpressionGrammar.InvalidStartReported | Auto_Speed/parser.cpp:329-345 | an expression that starts with neither an operand nor `(` reports an invalid expression on that token's line, before anything else it reports |
| Parsing.NameEnd | Auto_Speed/parser.cpp:107-115 | the header's keyword and optional name take one or two tokens and stay in range: two tokens exactly when `engine` is followed by an identifier, otherwise one step as `advance` takes it |
| Parsing.FunctionName | Auto_Speed/parser.cpp:105-114 | the registered name is the leading token's text unless that token is `engine` followed by an identifier, in which case it is the identifier's text |
| Parsing.StartsStatement | Auto_Speed/parser.cpp:160-171 | the leading tokens that select a statement form: the five statement keywords, any type keyword, any identifier; every other token falls to the skip branch, whose effect `Parsing.Parser.Statement` states |
| Parsing.Parser.constructor | Auto_Speed/parser.cpp:7-9 | a new parser is at position 0 with no syntax error and a fresh analyzer in its initial state |
| Parsing.Parser.SemanticErrors | Auto_Speed/parser.h:49-51 | the analyzer's flag is set exactly when it reported something |
| Parsing.Parser.Current | Auto_Speed/parser.cpp:11-14 | past the end, the end-of-file token with line -1; otherwise the token under the cursor |
| Parsing.Parser.Advance | Auto_Speed/parser.cpp:16-18 | moves one token forward, never past the end |
| Parsing.Parser.Match | Auto_Speed/parser.cpp:20-25 | advances exactly when the current token has the requested type, and says whether it did |
| Parsing.Parser.Error | Auto_Speed/parser.cpp:31-35 | sets `hasError`, records the report at the current token's line, and skips one token |
| Parsing.Parser.Expect | Auto_Speed/parser.cpp:27-29 | the cursor and the log change exactly as `ExpectAt` says |
| Parsing.Parser.Parse | Auto_Speed/parser.cpp:43-53 | success is announced exactly when neither flag is set, and from a fresh parser exactly when nothing was reported; otherwise there is one line per flag that is set; the analyzer ends with the scopes it started with |
| Parsing.Parser.Program | Auto_Speed/parser.cpp:55-62 | monotone; the scope stack ends as it started; no function is lost or changes its parameter count |
| Parsing.Parser.ImportSection | Auto_Speed/parser.cpp:64-75 | never reports an error and stops at a token that is no `#oil` |
| Parsing.Parser.NamespaceSection | Auto_Speed/parser.cpp:77-90 | `key` followed by an identifier consumes both; a missing name and a missing `key` each give their own report and skip exactly as `error` does |
| Parsing.Parser.FunctionList | Auto_Speed/parser.cpp:92-99 | monotone; the scopes are unchanged; functions are kept; it stops at a token that is neither `engine` nor `ignite` |
| Parsing.Parser.Function | Auto_Speed/parser.cpp:101-126 | registers the name (the identifier after `engine`, else the keyword's text) with 0 parameters unless already declared; a redeclaration is reported first, at the header's token; the scopes are unchanged |
| Parsing.Parser.FunctionHeader | Auto_Speed/parser.cpp:105-119 | returns the header token and the registered name; the cursor and the log are exactly those after the name and the expected `(` and `)` |
| Parsing.Parser.Block | Auto_Speed/parser.cpp:128-144 | the scope stack after a block equals the stack before it, even when a brace is missing; functions untouched; strict progress |
| Parsing.Parser.StatementList | Auto_Speed/parser.cpp:146-153 | only the innermost scope changes, and only by gaining bindings; it stops at `}` or end of input |
| Parsing.Parser.Statement | Auto_Speed/parser.cpp:155-174 | strict progress; only the innermost scope gains bindings; a token that starts no statement is skipped by exactly one token with no report of either kind |
| Parsing.Parser.DeclarationStmt | Auto_Speed/parser.cpp:176-193 | the token after the type keyword is declared with that type (`Declare`), with a duplicate report exactly when it is already in the innermost scope |
| Parsing.Parser.AssignmentStmt | Auto_Speed/parser.cpp:195-209 | the target is reported as undeclared exactly when no open scope declares it; scopes and functions untouched |
| Parsing.Parser.ConditionalStmt | Auto_Speed/parser.cpp:211-224 | strict progress, monotone; the scopes and functions end as they started |
| Parsing.Parser.LoopStmt | Auto_Speed/parser.cpp:226-235 | strict progress, monotone; the scopes and functions end as they started |
| Parsing.Parser.OutputStmt | Auto_Speed/parser.cpp:237-249 | strict progress; the analyzer is not touched |
| Parsing.Parser.InputStmt | Auto_Speed/parser.cpp:251-260 | the keyword, the expected identifier and the expected `;` each consume one token, with no semantic check |
| Parsing.Parser.ReturnStmt | Auto_Speed/parser.cpp:262-271 | strict progress; the analyzer is not touched |
| Parsing.Parser.Expression | Auto_Speed/parser.cpp:273-314 | the cursor and the log change exactly as `ExprF` says |
| Parsing.Parser.SkipToStopToken | Auto_Speed/parser.cpp:296-300 | the cursor ends exactly at `SkipToStop` of where it started |
| Parsing.Parser.Term | Auto_Speed/parser.cpp:317-327 | the cursor and the log change exactly as `TermF` says |
| Parsing.Parser.Factor | Auto_Speed/parser.cpp:329-345 | the cursor and the log change exactly as `FactorF` says |
| Scenarios.ChainedComparisonExample | Auto_Speed/main.cpp:13 | the condition `X>5<3)` gives one chained-comparison report and the cursor stops at the `)` |
| Scenarios.SingleComparisonExample | Auto_Speed/parser.cpp:280-288 | the condition `fuel<30)` is consumed whole, with no report |
| Scenarios.RedeclarationExample | Auto_Speed/semantics.cpp:35-39 | a second declaration in one scope is reported and the first binding stays |
| Scenarios.ShadowingExample | Auto_Speed/semantics.cpp:32-40 | an inner declaration of an outer name gives no report and is in effect until its scope is left |
| Scenarios.FunctionExample | Auto_Speed/semantics.cpp:58-74 | a duplicate function keeps its first count; a call with another count is reported with both counts |
| Scenarios.ParseProgram | Auto_Speed/parser.cpp:43-53 | for any tokens, a whole parse ends with just the global scope, and announces success exactly when nothing was reported |

## Left out

- Lexer: `scan` and `tokenTypeToString` are not part of this model. The token sequence is an arbitrary input, and no fact about keyword classification or line order is assumed.
- Console output: the text written by `printNode`, `error`, `reportError` and `parse` is not modelled. Reports are recorded as diagnostic values, and `parse`'s closing lines are returned as a `Summary` list.
- `indentLevel`: not modelled, because it only sets the indentation of the trace that `printNode` prints.
- Auto_Speed/main.cpp, the demo harness, is not part of this model. Only its `X>5<3` condition reappears, as a scenario.
- The header's stale flat `vars` map and its duplicated `#pragma once` are not modelled. The model follows the scope-stack implementation.
- `unordered_map` hashing and iteration order: Dafny `map` is used instead, and nothing depends on order.
- Call parsing: the grammar never calls `callFunction`. Its contract is modelled in the analyzer only, and no call syntax is added to the parser.
- `size_t` and `int` widths are not modelled, because positions are bounded by the token count and no counter wraps.
- Parsing.Parser.FunctionHeader and Parsing.Parser.SkipToStopToken are factorings of the code of `Function` (lines 105-119) and of the skip loop in `Expression` (lines 296-300). They are not separate routines in the source.
- Parsing.Parser.ImportSection: states only that no error is reported, the cursor does not move back, and where the loop stops. It does not give the exact position after each import.
- Parsing.Parser.Program: states monotonicity, unchanged scopes and kept functions. It does not state the exact final cursor or which functions are added.
- Parsing.Parser.FunctionList: states kept functions rather than the exact table after the whole list.
- Parsing.Parser.Function: states the exact function-table effect and the first new report. It states only monotonicity and progress for the syntax state after the body.
- Parsing.Parser.Block: states balance of the scope stack and progress. It does not state the exact cursor or the diagnostics of the statements inside.
- Parsing.Parser.StatementList: states how the scopes and the cursor end. It does not state the exact reports.
- Parsing.Parser.Statement: exact only for a token that starts no statement. For the other forms it states progress and scope growth.
- Parsing.Parser.DeclarationStmt: exact for the analyzer. For the syntax state it states only progress and monotonicity.
- Parsing.Parser.AssignmentStmt: exact for the analyzer. For the syntax state it states only progress and monotonicity.
- Parsing.Parser.ConditionalStmt: states progress, monotonicity and unchanged analyzer scopes and functions. It does not state the exact cursor or the reports.
- Parsing.Parser.LoopStmt: states progress, monotonicity and unchanged analyzer scopes and functions. It does not state the exact cursor or the reports.
- Parsing.Parser.OutputStmt: states progress and monotonicity, not the exact cursor.
- Parsing.Parser.ReturnStmt: states progress and monotonicity, not the exact cursor.
