# Mini-Lang compiler front end, modelled in Dafny

This project models the front end of a small C-like language. It has five stages:

- a scanner that turns source text into `(kind, value)` tokens and reports invalid characters;
- a recursive-descent parser with error recovery that builds a syntax tree;
- a scoped symbol table;
- a two-pass semantic analyzer that checks declarations, assignments, returns, calls and conditions;
- a generator of three-address code that flattens expressions into temporaries and lays out jumps and labels for `if` and `while`.

Each stage keeps the form of its source:

- **Symbol table, parser, analyzer, generator.** These change state in place, so each is a `class` or a set of methods over one. Each method is proved against a pure specification function:
  - `SymbolTables.Find` and `Bind`;
  - `Grammar.Expression` … `Grammar.ProgramFrom`;
  - `Semantics.CheckStmt`, `CheckBlock`, `Collect`, `CheckFunctions`;
  - `IntermediateCode.GenExpr`, `GenStmt`, `GenBlock`, `GenProgram`.

  What the stage promises is then proved about those functions, in the `*Properties` modules.
- **Scanner.** Both of its loops are kept in `Lexer.Tokenize`.
- **AST.** The dataclasses become datatypes.

Diagnostics are values of an error datatype, not printed lines. Generated code is a sequence of lines.

| file | module | models |
|---|---|---|
| strings.dfy | `Strings` | decimal rendering, ASCII `upper`/`lower`, `", ".join` |
| ast.dfy | `Ast` | scripts/ast.py |
| symbol_table.dfy | `SymbolTables` | scripts/symbol_table.py |
| lexer.dfy, lexer_properties.dfy | `Lexer`, `LexerProperties` | scripts/lexer.py |
| grammar.dfy, parser.dfy, grammar_properties.dfy | `Grammar`, `Parsing`, `GrammarProperties` | scripts/parser.py |
| semantics.dfy, semantics_properties.dfy | `Semantics`, `SemanticsProperties` | scripts/semantic_analyzer.py |
| intermediate_code.dfy, intermediate_code_properties.dfy | `IntermediateCode`, `IntermediateCodeProperties` | scripts/intermediate_code.py |

Modelling choices:

- **Statements.** The source keeps one `Statement` record and dispatches on the prefix of its text. Here every statement kind is its own variant of `Ast.Stmt`. `Ast.Text` rebuilds the text, and `Ast.TextDispatch` proves that the prefix tests of the analyzer and the generator select that variant.
- **The temporary counter.** It is a module global in the source and is never reset, so a second run goes on numbering where the first stopped (`IntermediateCodeProperties.AddCodeAgain`). Here it is the `counter` field of `IntermediateCode.Generator`, and the specification functions take it as a parameter.
- **Labels.** They are `"L"` followed by a fresh temporary's name, so they read `Lt1`, `Lt2`, …, and they share the counter with the temporaries.
- **Names taken.** `IntermediateCodeProperties.Minted` lists the temporaries and labels a statement takes, in the order of its `new_temp` calls. The freshness lemmas are stated over that list: its names are numbered by successive counter values, pairwise distinct, and each is defined in the generated code.

## Model

| member | source | states |
|---|---|---|
| Strings.NatStr | scripts/intermediate_code.py:8 | the decimal text of a counter value is a non-empty run of digits |
| Strings.ParseNatStr | scripts/intermediate_code.py:8 | reading back the decimal text of `n` gives `n` |
| Strings.NatStrInjective | scripts/intermediate_code.py:3-8 | two counter values render to the same text exactly when they are equal |
| Strings.Upper | scripts/lexer.py:44 | `str.upper` keeps the length and maps each character through ASCII upper case |
| Strings.Lower | scripts/parser.py:50 | `str.lower` keeps the length and maps each character through ASCII lower case |
| Ast.TextDispatch | scripts/semantic_analyzer.py:40-145 | the prefix tests `declare` / `expr` / `return` / payload, in the analyzer's order, pick out exactly the statement's own kind |
| Ast.Text | scripts/parser.py:99-120 | a declaration's text starts with "declare ", an assignment's with "expr " and a call's with "call ", the prefixes the analyzer and the generator test |
| Ast.CallTarget | scripts/intermediate_code.py:65 | the second word of a call's text is never empty, and is the target itself whenever the call has one |
| SymbolTables.Find | scripts/symbol_table.py:22-26 | the search through the scope stack finds nothing exactly when no scope holds the name |
| SymbolTables.Bind | scripts/symbol_table.py:17-20 | a declaration changes only the innermost scope, adding the binding there, and keeps the number of scopes |
| SymbolTables.FindInnermost | scripts/symbol_table.py:22-25 | `lookup(name)` yields `t` exactly when `t` is bound in the innermost scope that holds `name` |
| SymbolTables.FindNone | scripts/symbol_table.py:22-26 | `lookup` fails exactly when no active scope holds the name |
| SymbolTables.DeclareThenFind | scripts/symbol_table.py:17-25 | right after a successful `declare(n, t)`, `lookup(n)` yields `t`, even when an outer scope binds `n` |
| SymbolTables.DeclareKeepsOthers | scripts/symbol_table.py:17-25 | a declaration changes the lookup of no other name |
| SymbolTables.DeclaredVisibleUntilPopped | scripts/symbol_table.py:17-25 | the new binding stays visible through any scopes pushed later that do not redeclare the name |
| SymbolTables.PopForgetsInner | scripts/symbol_table.py:8-25 | once a nested scope is popped, its names are gone and lookup yields the outer binding or fails |
| SymbolTables.EnterKeepsFind | scripts/symbol_table.py:5-6 | pushing a scope changes no lookup |
| SymbolTables.SymbolTable.constructor | scripts/symbol_table.py:2-3 | a fresh table has exactly one scope, and it is empty |
| SymbolTables.SymbolTable.EnterScope | scripts/symbol_table.py:5-6 | pushes one empty scope and changes nothing else |
| SymbolTables.SymbolTable.ExitScope | scripts/symbol_table.py:8-9 | pops the innermost scope, so entering and then exiting leaves the stack as it was |
| SymbolTables.SymbolTable.Exists | scripts/symbol_table.py:11-15 | true exactly when some scope holds the name, which is exactly when `lookup` succeeds; the table is not changed |
| SymbolTables.SymbolTable.Declare | scripts/symbol_table.py:17-20 | fails exactly when the innermost scope already holds the name, and then changes nothing; otherwise binds the name in the innermost scope only |
| SymbolTables.SymbolTable.Lookup | scripts/symbol_table.py:22-26 | the type from the innermost scope holding the name, or `None` when no scope does; the table is not changed |
| SymbolTables.SymbolTable.CurrentScope | scripts/symbol_table.py:28-29 | the innermost scope, and every binding in it is what `lookup` yields |
| Lexer.KeywordKind | scripts/lexer.py:43-44 | a reserved word's kind is a keyword kind whose name is the word in upper case |
| Lexer.Span | scripts/lexer.py:5-14 | a greedy repetition runs over class characters only and stops at the end or at the first character outside the class |
| Lexer.FirstMatchIsFirst | scripts/lexer.py:17 | the alternatives are tried in order: the match found is that of the first alternative that matches, and none matches exactly when every alternative fails |
| Lexer.MatchAt | scripts/lexer.py:3-17 | a match of the combined pattern is never empty and ends within the text, at the end of its alternative's own match |
| Lexer.MatchAtUnrolled | scripts/lexer.py:3-15 | the combined pattern tries comment, number, identifier, operator, the six punctuation kinds and whitespace, in that order |
| Lexer.MatchAtNone | scripts/lexer.py:49-55 | nothing matches at a position exactly when its character cannot start any alternative |
| Lexer.LastNewline | scripts/lexer.py:58 | `rfind('\n', 0, pos)`: the last newline before `pos`, or -1 when there is none |
| Lexer.ColumnAt | scripts/lexer.py:58 | the reported column is at least 1 |
| Lexer.Classify | scripts/lexer.py:43-44 | an identifier is reclassified exactly when its text is a reserved word; every other kind is kept |
| Lexer.TokensFrom | scripts/lexer.py:27-46 | the token list holds no whitespace, comment or end-of-input token, and at most one token per character scanned |
| Lexer.NewlineCount | scripts/lexer.py:57 | a text holds at most as many newlines as characters |
| Lexer.LineAt | scripts/lexer.py:57 | the reported line is at least 1 and at most the offset plus one |
| Lexer.ErrorsFrom | scripts/lexer.py:48-60 | the validation loop reports at most one error per character scanned |
| Lexer.InvalidOffsets | scripts/lexer.py:48-60 | every offset the validation loop reports lies between where it started and the end of the text |
| Lexer.Tokenize | scripts/lexer.py:22-62 | the token loop yields exactly `TokensFrom(code, 0)` and the validation loop reports exactly `ErrorsFrom(code, 0)` |
| LexerProperties.AlternativeText | scripts/lexer.py:3-15 | the text each alternative consumes has that alternative's shape; a number is digits, then optionally a dot and more digits |
| LexerProperties.ClassifiedWellFormed | scripts/lexer.py:40-46 | a classified match other than whitespace or a comment is a well-formed token, with reserved words reclassified |
| LexerProperties.TokensWellFormed | scripts/lexer.py:27-46 | no token is whitespace or a comment; identifiers are never reserved words; keyword kinds are their word in upper case |
| LexerProperties.ErrorsAtOffsets | scripts/lexer.py:49-60 | one error per invalid offset, in order, each for the character and the line and column at that offset |
| LexerProperties.InvalidOffsetsIncreasing | scripts/lexer.py:49-60 | each reported offset is a character no alternative can start, and the offsets strictly increase, so each is reported once |
| LexerProperties.NoErrorsOnValidText | scripts/lexer.py:49-60 | text made only of characters that can start a token gets no error |
| LexerProperties.ColumnFromLastNewline | scripts/lexer.py:57-58 | the column is the distance from the last newline before the character, or from the start |
| LexerProperties.InvalidCharSkipped | scripts/lexer.py:49-60 | an unmatched character yields exactly one error, at its line and column, and no token |
| LexerProperties.CommentToLineEnd | scripts/lexer.py:4-41 | `//` always opens a comment that runs to the next newline and yields no token |
| LexerProperties.IdentifierOrKeyword | scripts/lexer.py:43-44 | an identifier runs as far as identifier characters go, and becomes a keyword only when the whole run is a reserved word |
| LexerProperties.Int5IsIdentifier | scripts/lexer.py:43-44 | `int5` is one identifier, not a keyword |
| LexerProperties.TrailingDotNumber | scripts/lexer.py:5 | `5.` is one number token |
| LexerProperties.SlashSlashIsComment | scripts/lexer.py:4-7 | `//a/` yields no token: it is never two division operators |
| LexerProperties.LoneSlashIsOperator | scripts/lexer.py:4-7 | a `/` not followed by another `/` is one operator token |
| Grammar.Cur | scripts/parser.py:10-13 | the current token is one of the list's, or an end-of-input token once the cursor is past the end |
| Grammar.Adv | scripts/parser.py:15-17 | `advance` moves forward exactly when tokens are left, by one at most, and never past the end |
| Grammar.OrDefault | scripts/parser.py:52 | `value or default` is the default or the matched text, and is never empty when the default is not |
| Grammar.MatchKind | scripts/parser.py:19-26 | `match` never moves the cursor back or past the end |
| Grammar.Expression | scripts/parser.py:165-166 | reading an expression consumes at least one token when one is left, and stays within the list |
| Grammar.Term | scripts/parser.py:168-174 | the additive tier consumes at least one token when one is left |
| Grammar.TermTail | scripts/parser.py:170-173 | the `+`/`-` loop stops only at a token that is not `+` or `-` |
| Grammar.Factor | scripts/parser.py:176-182 | the multiplicative tier consumes at least one token when one is left |
| Grammar.FactorTail | scripts/parser.py:178-181 | the `*`/`/` loop stops only at a token that is not `*` or `/` |
| Grammar.Primary | scripts/parser.py:184-198 | a primary consumes at least one token when one is left |
| Grammar.Block | scripts/parser.py:58-66 | a statement loop stops only at `}` or at the end |
| Grammar.Statement | scripts/parser.py:86-97 | a statement consumes at least one token when one is left, so the body loops terminate |
| Grammar.VarDecl | scripts/parser.py:99-107 | a declaration always consumes its type keyword |
| Grammar.ReturnStmt | scripts/parser.py:109-113 | a return always consumes its keyword |
| Grammar.ExprStmt | scripts/parser.py:115-120 | an expression statement consumes at least one token when one is left |
| Grammar.IfStmt | scripts/parser.py:122-141 | an `if` always consumes its keyword |
| Grammar.ElsePartAt | scripts/parser.py:133-140 | there is an else branch exactly when the token after the `}` is `else`; without one nothing is read or reported |
| Grammar.WhileStmt | scripts/parser.py:143-153 | a `while` always consumes its keyword |
| Grammar.Params | scripts/parser.py:69-84 | the parameter list never moves the cursor back or past the end |
| Grammar.ParamLoop | scripts/parser.py:73-83 | the parameter loop never moves the cursor back or past the end |
| Grammar.FunctionDef | scripts/parser.py:45-67 | a function definition consumes at least its return-type keyword |
| Grammar.Synchronize | scripts/parser.py:40-43 | resynchronising never moves back or past the end |
| Grammar.ProgramFrom | scripts/parser.py:28-38 | the top-level loop can get stuck only at a token that is neither the end nor a type keyword and from which resynchronising does not move |
| Grammar.PrefixedAssoc | scripts/parser.py:29-38 | putting gathered results in front twice is the same as putting their concatenation in front once |
| Grammar.ProgramRecovering | scripts/parser.py:28-38 | the corrected top-level loop always finishes |
| Parsing.Parser.constructor | scripts/parser.py:5-8 | the cursor starts at 0 with no errors |
| Parsing.Parser.Current | scripts/parser.py:10-13 | the current token is one of the parser's tokens, or an end-of-input token once the cursor is past the end |
| Parsing.Parser.Advance | scripts/parser.py:15-17 | moves one token forward, never past the end, and reports nothing |
| Parsing.Parser.Match | scripts/parser.py:19-26 | on the expected kind, consumes exactly that token and returns its value; otherwise appends exactly one error, stays put and returns nothing |
| Parsing.Parser.ParseExpression | scripts/parser.py:165-166 | the result, the cursor and the appended errors are those of `Grammar.Expression` |
| Parsing.Parser.ParseTerm | scripts/parser.py:168-174 | the loop builds the left-grouped sum that `Grammar.Term` describes |
| Parsing.Parser.ParseFactor | scripts/parser.py:176-182 | the loop builds the left-grouped product that `Grammar.Factor` describes |
| Parsing.Parser.ParsePrimary | scripts/parser.py:184-198 | agrees with `Grammar.Primary`, including the reported fallback leaf "0" |
| Parsing.Parser.ParseStatement | scripts/parser.py:86-97 | dispatches on the current token as `Grammar.Statement` does |
| Parsing.Parser.ParseVarDecl | scripts/parser.py:99-107 | agrees with `Grammar.VarDecl` |
| Parsing.Parser.ParseReturn | scripts/parser.py:109-113 | agrees with `Grammar.ReturnStmt` |
| Parsing.Parser.ParseExpressionStmt | scripts/parser.py:115-120 | agrees with `Grammar.ExprStmt` |
| Parsing.Parser.ParseStatements | scripts/parser.py:58-66 | the body loop reads statements up to `}` or the end, as `Grammar.Block` does |
| Parsing.Parser.ParseIf | scripts/parser.py:122-141 | agrees with `Grammar.IfStmt` |
| Parsing.Parser.ParseElse | scripts/parser.py:133-140 | agrees with `Grammar.ElsePartAt` |
| Parsing.Parser.ParseWhile | scripts/parser.py:143-153 | agrees with `Grammar.WhileStmt` |
| Parsing.Parser.ParseParams | scripts/parser.py:69-84 | agrees with `Grammar.Params` |
| Parsing.Parser.ParseParam | scripts/parser.py:77-80 | one parameter: its type in lower case, and its name or "param" |
| Parsing.Parser.ParseFunction | scripts/parser.py:45-67 | not at a type keyword, it fails and changes nothing; otherwise it agrees with `Grammar.FunctionDef` |
| Parsing.Parser.Synchronize | scripts/parser.py:40-43 | moves the cursor to where `Grammar.Synchronize` says and reports nothing |
| Parsing.Parser.Parse | scripts/parser.py:28-38 | returns the functions and errors of `Grammar.ProgramFrom` when the loop finishes, and `None` exactly when it would spin forever |
| Parsing.Parser.ParseRecovering | scripts/parser.py:28-38 | the corrected top-level loop: returns what `Grammar.ProgramRecovering` gathers |
| GrammarProperties.SynchronizeStops | scripts/parser.py:40-43 | resynchronising stops at the first token from the set or at the end, and skips no token from the set |
| GrammarProperties.PrimaryRoundTrip | scripts/parser.py:184-198 | a printed operand is read back as the same tree, with no error |
| GrammarProperties.FactorRoundTrip | scripts/parser.py:176-182 | a printed product chain is read back as the same left-grouped tree, with no error |
| GrammarProperties.TermRoundTrip | scripts/parser.py:168-174 | a printed sum chain is read back as the same left-grouped tree, with no error |
| GrammarProperties.ExpressionRoundTrip | scripts/parser.py:165-182 | printing any expression and parsing it back gives the same tree: `*` and `/` bind tighter than `+` and `-`, and both tiers group to the left |
| GrammarProperties.ProductBindsTighter | scripts/parser.py:168-182 | `a + b * c` is read as `a + (b * c)` |
| GrammarProperties.SubtractionGroupsLeft | scripts/parser.py:168-174 | `a - b - c` is read as `(a - b) - c` |
| GrammarProperties.TypeNameIsLowerKind | scripts/parser.py:50 | a type keyword's type name is its kind's name in lower case |
| GrammarProperties.PrimaryFallback | scripts/parser.py:195-198 | a token other than an identifier, a number or `(` is reported once and skipped, and is read as the leaf "0" |
| GrammarProperties.FunctionNameFallback | scripts/parser.py:50-52 | a function without a usable name is called "unnamed_func"; its return type is the keyword in lower case |
| GrammarProperties.ParamFallback | scripts/parser.py:74-80 | a parameter is its keyword in lower case and its name, or "param" |
| GrammarProperties.NameSlot | scripts/parser.py:52 | `match('ID') or default` yields the identifier's text when present and non-empty, and the default otherwise |
| GrammarProperties.DeclarationText | scripts/parser.py:99-107 | a declaration's text is "declare <type> <name>", the name falling back to "var" |
| GrammarProperties.DeclarationAnyOperator | scripts/parser.py:104-106 | whatever operator stands in the `=` slot of a declaration is accepted without an error |
| GrammarProperties.AssignmentText | scripts/parser.py:115-120 | an assignment's text is "expr <name> =", the name falling back to "unknown" |
| GrammarProperties.AssignmentAnyOperator | scripts/parser.py:117-119 | any operator is accepted as the `=` of an assignment |
| GrammarProperties.ReturnText | scripts/parser.py:109-113 | a return's text is always "return x", whatever it returns |
| GrammarProperties.LoopsOnlyAtStrayToken | scripts/parser.py:30-48 | `parse` gets stuck only at a synchronising token that is not a type keyword |
| GrammarProperties.StrayTokenLoops | scripts/parser.py:30-48 | `parse` does get stuck at every such token it reaches |
| GrammarProperties.StrayBraceLoops | scripts/parser.py:30-48 | a lone `}` makes the top-level loop spin forever |
| GrammarProperties.StrayBraceRecovers | scripts/parser.py:28-38 | the corrected loop reads a lone `}` to the end with one error |
| GrammarProperties.RecoveringAgrees | scripts/parser.py:28-38 | wherever `parse` finishes, the corrected loop gives the same result; where it gets stuck, the corrected loop keeps what was gathered, skips the stuck token and carries on |
| GrammarProperties.MissingOperandRecovers | scripts/parser.py:99-107 | `int f() { int x = ; }` still parses: the missing operand is reported and read as "0", and the missing `;` is reported at the `}` |
| GrammarProperties.LastFunction | scripts/parser.py:30-34 | a function that runs to the end of the input is the rest of the program |
| Semantics.ParamTypes | scripts/semantic_analyzer.py:13 | the parameter types, in order |
| Semantics.DropFirstDot | scripts/semantic_analyzer.py:76 | `replace(".", "", 1)` removes exactly one character when there is a dot, and nothing otherwise |
| Semantics.IsNumeric | scripts/semantic_analyzer.py:76 | a numeric literal is never empty, and every non-empty run of digits is one |
| Semantics.ReturnErrors | scripts/semantic_analyzer.py:72-89 | a return reports at most one diagnostic, and none when its value is compound |
| Semantics.ArgErrors | scripts/semantic_analyzer.py:111-119 | the argument loop reports at most one diagnostic per argument |
| Semantics.ConditionErrors | scripts/semantic_analyzer.py:121-130 | a condition reports at most one diagnostic, and none when it is compound |
| Semantics.Collect | scripts/semantic_analyzer.py:10-17 | the first pass reports at most one diagnostic per function, keeps every binding already in the global scope and leaves every function name bound there |
| Semantics.AnalyzeProgram | scripts/semantic_analyzer.py:4-35 | the first pass's diagnostics come first in the report, and an empty program reports nothing |
| Semantics.DeclareIn | scripts/semantic_analyzer.py:46-50 | a declaration reports an error exactly when the innermost scope already holds the name; outer scopes are untouched |
| Semantics.CheckStmt | scripts/semantic_analyzer.py:37-162 | a statement changes at most the innermost scope and never the number of scopes |
| Semantics.CheckBlock | scripts/semantic_analyzer.py:27-29 | a block changes at most the innermost scope |
| Semantics.DeclareParams | scripts/semantic_analyzer.py:21-26 | declaring the parameters changes at most the innermost scope |
| Semantics.CheckFunction | scripts/semantic_analyzer.py:20-30 | checking a function gives the table back exactly as it found it |
| Semantics.CheckFunctions | scripts/semantic_analyzer.py:19-30 | checking all functions gives the table back exactly as it found it |
| Semantics.AnalyzeStatement | scripts/semantic_analyzer.py:37-162 | the table afterwards and the diagnostics are those of `CheckStmt`; the result is true exactly when a diagnostic was reported |
| Semantics.AnalyzeDeclare | scripts/semantic_analyzer.py:40-56 | the declaration branch agrees with `CheckStmt` |
| Semantics.AnalyzeAssign | scripts/semantic_analyzer.py:58-70 | the assignment branch agrees with `CheckStmt` and leaves the table alone |
| Semantics.AnalyzeReturn | scripts/semantic_analyzer.py:72-89 | the return branch agrees with `CheckStmt` and leaves the table alone |
| Semantics.AnalyzeCall | scripts/semantic_analyzer.py:91-119 | the call branch agrees with `CheckStmt` |
| Semantics.CheckArguments | scripts/semantic_analyzer.py:111-119 | the argument loop appends exactly `ArgErrors` to what was reported before |
| Semantics.CheckCondition | scripts/semantic_analyzer.py:122-154 | the condition test reports exactly `ConditionErrors` |
| Semantics.AnalyzeScoped | scripts/semantic_analyzer.py:132-160 | a body in a pushed scope agrees with `CheckBlock` on that scope, and the scope is popped again |
| Semantics.AnalyzeIf | scripts/semantic_analyzer.py:121-143 | the `if` branch agrees with `CheckStmt` |
| Semantics.AnalyzeWhile | scripts/semantic_analyzer.py:145-160 | the `while` branch agrees with `CheckStmt` |
| Semantics.AnalyzeBlock | scripts/semantic_analyzer.py:27-29 | the statement loop agrees with `CheckBlock`; an error never stops it |
| Semantics.CollectSignatures | scripts/semantic_analyzer.py:10-17 | the first pass leaves the global scope, the signatures and the diagnostics that `Collect` describes |
| Semantics.Analyze | scripts/semantic_analyzer.py:4-35 | reports exactly `AnalyzeProgram`, and an error is flagged exactly when something was reported |
| Semantics.AnalyzeFunctions | scripts/semantic_analyzer.py:19-30 | the second pass reports what `CheckFunctions` describes and gives the table back as it found it |
| Semantics.AnalyzeFunction | scripts/semantic_analyzer.py:20-30 | one function: a scope, its parameters, its body, the pop; the table comes back unchanged |
| Semantics.DeclareParameters | scripts/semantic_analyzer.py:21-26 | the parameter loop agrees with `DeclareParams` |
| SemanticsProperties.NumericLiteral | scripts/semantic_analyzer.py:76 | a returned leaf is a literal exactly when it is a non-empty run of digits, or digits with exactly one dot among them |
| SemanticsProperties.DeclarationRules | scripts/semantic_analyzer.py:40-56 | redeclaration in the same scope, and only that, is reported; a float literal for an `int` is reported; a compound initialiser never is; a fresh name is then found with its type |
| SemanticsProperties.ShadowInLoopBody | scripts/semantic_analyzer.py:145-160 | redeclaring an outer name in a loop body is no error, and the outer binding is back afterwards |
| SemanticsProperties.AssignmentChecksOnlyTarget | scripts/semantic_analyzer.py:58-70 | an assignment checks only that its target is declared, never the value's type |
| SemanticsProperties.ReturnRules | scripts/semantic_analyzer.py:72-89 | a compound value is always accepted; an empty value is not checked; an undeclared name is reported once and not compared; a declared name must have the declared return type, and a numeric literal must be `float` when it has a dot and `int` otherwise, whenever a return type is declared |
| SemanticsProperties.ReturnLiteral | scripts/semantic_analyzer.py:76-89 | returning `1.5` from an `int` function is a mismatch; `15` is not |
| SemanticsProperties.UnknownCalleeStops | scripts/semantic_analyzer.py:93-95 | an unknown callee is reported once, and nothing else is checked or declared |
| SemanticsProperties.ArgumentsMatch | scripts/semantic_analyzer.py:111-119 | the argument loop reports nothing exactly when each argument is declared with its parameter's type, and at most one diagnostic per argument |
| SemanticsProperties.CallRules | scripts/semantic_analyzer.py:97-119 | an unseen target is declared with the callee's return type before the count check; a wrong count is the only diagnostic; otherwise only argument diagnostics follow |
| SemanticsProperties.ConditionRules | scripts/semantic_analyzer.py:122-154 | a condition is accepted exactly when it is compound or a variable declared `int` or `bool` |
| SemanticsProperties.LiteralConditionUndeclared | scripts/semantic_analyzer.py:124-130 | `if (1)` reports its condition as undeclared, and still checks the branch |
| SemanticsProperties.CompoundRestoresScopes | scripts/semantic_analyzer.py:132-160 | `if` and `while` give the table back as they found it |
| SemanticsProperties.BlockSplit | scripts/semantic_analyzer.py:27-29 | a block's outcome is that of its first part followed by that of the rest, from the table reached |
| SemanticsProperties.LaterStatementsStillChecked | scripts/semantic_analyzer.py:27-29 | every statement's diagnostics appear in the block's, right after those of its predecessors |
| SemanticsProperties.ParamsDeclaredOnce | scripts/semantic_analyzer.py:21-26 | declaring the parameters reports nothing exactly when their names are new to the scope and pairwise distinct |
| SemanticsProperties.FunctionsIndependent | scripts/semantic_analyzer.py:19-30 | one function's locals never reach the next: a list of functions reports what its parts report alone |
| SemanticsProperties.CollectKeepsFirst | scripts/semantic_analyzer.py:10-17 | the first pass never overwrites a signature, and records each new name with its first function's signature |
| SemanticsProperties.CollectReportsDuplicates | scripts/semantic_analyzer.py:10-17 | the first pass reports nothing exactly when the function names are new and pairwise distinct |
| SemanticsProperties.AddAnalyzesCleanly | scripts/semantic_analyzer.py:4-35 | `int add(int a, int b) { return a + b; }` passes |
| SemanticsProperties.UnknownFunctionScenario | scripts/semantic_analyzer.py:91-95 | a call to an unknown function gives one diagnostic, and the next statement is still checked |
| IntermediateCode.Temp | scripts/intermediate_code.py:5-8 | a temporary's name is `t` followed by at least one more character |
| IntermediateCode.Label | scripts/intermediate_code.py:69-70 | a label is `L` followed by a temporary's name |
| IntermediateCode.GenExpr | scripts/intermediate_code.py:97-107 | a leaf gives no code and itself; a tree gives one line per operator node, takes as many temporaries, and its value is the temporary minted last |
| IntermediateCode.GenStmt | scripts/intermediate_code.py:17-95 | a statement takes one temporary per operator node, one per call and two per `if` or `while` |
| IntermediateCode.CondJump | scripts/intermediate_code.py:71-74 | a conditional jump is the condition's code and one more line |
| IntermediateCode.GenIf | scripts/intermediate_code.py:68-82 | an `if` takes two labels plus its condition's and branches' temporaries |
| IntermediateCode.GenWhile | scripts/intermediate_code.py:84-95 | a `while` takes two labels plus its condition's and body's temporaries |
| IntermediateCode.GenBlock | scripts/intermediate_code.py:14-15 | a body takes the sum of its statements' temporaries |
| IntermediateCode.GenProgram | scripts/intermediate_code.py:10-15 | a program takes the sum of its bodies' temporaries |
| IntermediateCode.Generator.constructor | scripts/intermediate_code.py:3 | the counter starts at 0 and nothing is printed |
| IntermediateCode.Generator.NewTemp | scripts/intermediate_code.py:5-8 | the counter goes up by exactly one, and the result names the new value |
| IntermediateCode.Generator.Emit | scripts/intermediate_code.py:27-28 | prints the lines in order |
| IntermediateCode.Generator.GenExpression | scripts/intermediate_code.py:97-107 | returns the code and value of `GenExpr` from the current counter, and prints nothing |
| IntermediateCode.Generator.GenStatement | scripts/intermediate_code.py:17-95 | prints exactly the lines of `GenStmt` and leaves the counter where it says |
| IntermediateCode.Generator.EmitCondJump | scripts/intermediate_code.py:71-74 | prints the condition's code and the jump |
| IntermediateCode.Generator.GenIfStatement | scripts/intermediate_code.py:68-82 | prints exactly the lines of `GenIf` |
| IntermediateCode.Generator.GenWhileStatement | scripts/intermediate_code.py:84-95 | prints exactly the lines of `GenWhile` |
| IntermediateCode.Generator.GenStatements | scripts/intermediate_code.py:14-15 | prints exactly the lines of `GenBlock` |
| IntermediateCode.Generator.Generate | scripts/intermediate_code.py:10-15 | prints exactly the lines of `GenProgram`, with the counter going on from where an earlier run left it |
| IntermediateCodeProperties.TempInjective | scripts/intermediate_code.py:3-8 | different counter values give different temporaries |
| IntermediateCodeProperties.LabelsAreNotTemps | scripts/intermediate_code.py:69-70 | a label is never a temporary's name, and labels are as distinct as the counter values behind them |
| IntermediateCodeProperties.ExprMintsInOrder | scripts/intermediate_code.py:100-105 | the i-th line of an expression's code assigns the i-th new temporary |
| IntermediateCodeProperties.ExprTempsFresh | scripts/intermediate_code.py:100-105 | no two lines of an expression's code assign the same temporary, and every one is above the starting counter |
| IntermediateCodeProperties.AssignmentLayout | scripts/intermediate_code.py:25-43 | a declaration or assignment prints its value's code, then assigns that value to its name |
| IntermediateCodeProperties.ReturnLayout | scripts/intermediate_code.py:47-57 | a return with a value prints the value's code, then `return` with that value, which is the temporary minted last when there is an operator; without a value it prints `return x` and takes no temporary |
| IntermediateCodeProperties.IfLayout | scripts/intermediate_code.py:68-82 | an `if` prints its condition code, then `if_false c goto Lelse` with the first label, then the then-branch, and ends with `Lend:` for the second label; this holds with or without an else-branch |
| IntermediateCodeProperties.IfLines | scripts/intermediate_code.py:68-82 | the whole `if` code, with the labels taken before the condition's temporaries, and with the else-branch's code between `Lelse:` and `Lend:`, or nothing there when the else-branch has no statements |
| IntermediateCodeProperties.IfElseLayout | scripts/intermediate_code.py:77-82 | after the then-branch come `goto Lend` and `Lelse:`, then exactly the else-branch's code (none without an else-branch), then `Lend:` as the last line |
| IntermediateCodeProperties.WhileLayout | scripts/intermediate_code.py:84-95 | `Lstart:`, condition code, `if_false c goto Lend`, body, `goto Lstart`, `Lend:` |
| IntermediateCodeProperties.CallLines | scripts/intermediate_code.py:61-66 | any call takes exactly one temporary, the next counter value; the first line assigns the call to it, ending in ", " when there are no arguments and in the argument itself when there is one; the second line copies it into the target, or into "=" when the target is empty |
| IntermediateCodeProperties.CallExamples | scripts/intermediate_code.py:61-66 | from a fresh counter, `z = f(a, b)` gives `t1 = call f, a, b` and `z = t1`, and `z = f()` gives `t1 = call f, ` and `z = t1` |
| IntermediateCodeProperties.GenBlockSplit | scripts/intermediate_code.py:14-15 | the code of two bodies in a row is the first's code, then the second's from where the counter was left |
| IntermediateCodeProperties.GenProgramSplit | scripts/intermediate_code.py:10-15 | the same for two lists of functions in a row |
| IntermediateCodeProperties.MintedNumbered | scripts/intermediate_code.py:17-95 | the names a statement takes, in the order of the `new_temp` calls, are one per counter step and use the values after the starting counter in turn |
| IntermediateCodeProperties.MintedBlockNumbered | scripts/intermediate_code.py:14-15 | the same for a body |
| IntermediateCodeProperties.MintedProgramNumbered | scripts/intermediate_code.py:10-15 | the same for a whole run |
| IntermediateCodeProperties.NumberedDistinct | scripts/intermediate_code.py:5-8 | names drawn from successive counter values are pairwise distinct |
| IntermediateCodeProperties.ExprDefinesTemps | scripts/intermediate_code.py:97-107 | every temporary an expression takes is assigned by a line of its code |
| IntermediateCodeProperties.MintedDefined | scripts/intermediate_code.py:17-95 | every name a statement takes is defined in its code: a temporary by an assignment, a label by its `L…:` line |
| IntermediateCodeProperties.IfDefinesMinted | scripts/intermediate_code.py:68-82 | the same for an `if`, with or without an else-branch |
| IntermediateCodeProperties.WhileDefinesMinted | scripts/intermediate_code.py:84-95 | the same for a `while` |
| IntermediateCodeProperties.MintedBlockDefined | scripts/intermediate_code.py:14-15 | the same for a body |
| IntermediateCodeProperties.MintedProgramDefined | scripts/intermediate_code.py:10-15 | the same for a whole run |
| IntermediateCodeProperties.RunMintsFresh | scripts/intermediate_code.py:10-15 | a run takes exactly as many names as the counter advances; they are pairwise distinct, all above the starting counter, and each is defined in the run's code |
| IntermediateCodeProperties.TwoRunsMintFresh | scripts/intermediate_code.py:3-15 | a second run without a reset prints what one run over both programs prints, and none of its names was taken by the first run |
| IntermediateCodeProperties.AddCodeFrom | scripts/intermediate_code.py:10-15 | `int add(int a, int b) { return a + b; }` gives a header, one temporary for `a + b`, and its return |
| IntermediateCodeProperties.AddCode | scripts/intermediate_code.py:3-15 | on a fresh counter that temporary is `t1` |
| IntermediateCodeProperties.AddCodeAgain | scripts/intermediate_code.py:3-8 | the counter is never reset: generating the same program again uses `t2` |
| IntermediateCodeProperties.IfElseCode | scripts/intermediate_code.py:68-82 | `int x = 5; if (x) { return x; } else { return x; }` gives the labels `Lt1` and `Lt2` and the jumps between the branches |
| IntermediateCodeProperties.ScenarioIf | scripts/intermediate_code.py:68-82 | the `if` of that scenario on its own |
| IntermediateCodeProperties.ScenarioReturn | scripts/intermediate_code.py:47-52 | `return x` takes no temporary |

## Left out

- Console output. The analyzer's and the parser's messages, and their emoji and wording, are not modelled; diagnostics are values of `Semantics.SemanticError`, `Grammar.ParseError` and `Lexer.LexError`. The lexer's invalid-character reports are returned as a list instead of printed.
- The generator's first header line ("Intermediate Code (TAC):") is not modelled. The per-function header `# Function: <name>` is.
- The module-level `parse()` wrapper in scripts/parser.py, which only prints the errors, and the driver main.py, which only reads a file and prints, are not part of this model.
- `Parser.parse_args` is never called, and no parser path builds a call statement. The analyzer's and the generator's call rules are modelled on hand-built trees instead.
- The line and column that the lexer's first loop computes and then discards are not modelled.
- Python's `re` engine is replaced by an explicit ASCII scanner that tries the alternatives in the listed order. Unicode behaviour of `\d`, `\s` and `str.isdigit` is not modelled.
- Exceptions become result values: `declare` returns false, and `lookup` returns `None`. Popping an empty scope stack is excluded by the precondition of `SymbolTables.SymbolTable.ExitScope`, since no caller reaches it.
- The `split()` of a statement's text is modelled only for words that are empty, which gives the source's invalid-statement branch. A name or type containing a space, which would split into more words, is not modelled: the lexer never produces one.
- The generator's branches for a missing expression and for an invalid statement print a message and no code. Here they give no lines, and their message is not modelled.
- The `try`/`except` around `parse_statement` in `parse_function` fires only when Python's recursion limit is reached on deeply nested input; that limit is not modelled.
- Parsing.Parser.Parse: where the source's top-level loop would run forever, the method returns `None` instead of diverging.

## Findings

| source | as written | input that shows it | evidently intended | confidence | as-written member | corrected member |
|---|---|---|---|---|---|---|
| scripts/parser.py:30-37 | at top level, a synchronising token that is not a type keyword makes `parse_function` raise without consuming anything, and `synchronize` stops on that same token, so `parse` appends the same error forever | the token list `[('RBRACE', '}')]`, e.g. a stray `}` after a function | report the token once, skip it, and carry on to the end | not executed | GrammarProperties.StrayBraceLoops | GrammarProperties.StrayBraceRecovers |

