# WinZig front end in Dafny

This project models the front end of a WinZig compiler:

- **Scanner** (`src/lexer/mod.rs`). It turns source text into tokens. The token and keyword vocabulary is the `Tokens` module; the keyword table has 33 reserved words (`src/lexer/mod.rs:75-112`). Each recogniser of the scanner (`identifier_or_keyword`, `operator`, `integer`, `char`, `string`, `comment`, `whitespace`, `special_token`) is a pure function in `ScanSpec`. So are the ordered chain `scan_token` and the whole pass `lex`.
- **`Lexer`** (`Lexing`). This is the Rust `Lexer` as a Dafny class with `start`, `current` and `line` fields. Each of its methods is proved to compute what the matching `ScanSpec` function prescribes.
- **Syntax tree** (`src/parser/mod.rs`). The `Ast` module has one datatype per struct or enum.
- **Recursive-descent parser** (`src/parser/parser.rs`). Each rule is a pure function of the token sequence and a cursor, in `ExprGrammar`, `StmtGrammar` and `DeclGrammar`. A rule returns either the node it built and the cursor after it, or the panic message that aborts the parse. The `Parser` class in `Parsing` is the Rust `Parser`, with its token vector and cursor. Each method is proved to agree with its rule: the same node and the same cursor afterwards, or the same failure.
- **Tree dump** (`src/parser/tree.rs`). `Tree` renders every node exactly as `get_string_tree` does. `Dump` and `TreeShape` prove that each renderer prints `Render` of a `Dump`. A `Dump` is one `label(count)` line per node, indented with `". "` once per level, followed by its children's lines. `TreeFacts` then proves which counts match the lines under them and which lines keep their indent.

`ScanFacts`, `GrammarFacts`, `ExprRoundTrip` and `DeclRoundTrip` prove what the scanner and the parser guarantee:

- the keyword rule and longest match for the operators;
- line counting;
- re-scanning a token's text gives back the same token;
- how `consts`, `statement`, `outexp` and `for` behave;
- the operator loops stop only where they must;
- parsing inverts writing an expression out as tokens;
- parsing inverts writing declarations, sections, signatures, functions and programs out as tokens.

`LexExamples` restates a few concrete scans, two of them from `src/lexer/test.rs`.

A Rust panic (`panic!`, `expect`, `unwrap`, an index out of bounds or an overflowing `current - 1`) becomes an `Err`/`Fail` carrying the panic message. It is propagated with `:-`, so the first panic ends the pass, as in the program.

## Defects in the code as written

The model keeps each of these as the code has it.

- **`consts`** (`src/parser/parser.rs:106-133`). The loop tests for `,` twice and never for `;`. So a `const` section never parses: every path through the loop ends in a failure (`GrammarFacts.ConstsLoopNeverEnds`). `consts` succeeds exactly when there is no `const` keyword (`GrammarFacts.ConstsOnlyEmpty`). Even `const a = 1 ;` is rejected (`GrammarFacts.ConstsRejectsSemicolon`). As a consequence, every program the parser returns has no constants (`TreeFacts.ParsedProgramCounted`).
- **`outexp`** (`src/parser/parser.rs:931-944`). It always parses an expression first and only then looks for a string. A string at the start of an output item is therefore rejected (`GrammarFacts.OutExpRejectsLeadingString`). A string is accepted only after a complete expression, which is then dropped (`GrammarFacts.OutExpShape`).
- **`parse`** (`src/parser/parser.rs:28-30`). It does not check that the input is used up. It does not compare the end name with the program name. The body `begin end` holds one empty statement, not none. All three are shown by `GrammarFacts.SmallestProgram`.
- **Dump headers.** The `/` line and the unary `-` line are printed without their indent (`src/parser/tree.rs:477`, `src/parser/tree.rs:508`). The lemmas `TreeFacts.DivideIsFlush` and `TreeFacts.NegateIsFlush` show this. An expression's dump is indented throughout exactly when it holds neither operator (`TreeFacts.ExpressionIndented`).
- **Dump of `consts`.** `consts` prints the number of constants but none of them (`src/parser/tree.rs:37-40`). This is the one count that can disagree with the lines under it (`TreeFacts.ProgramCounted`).

## Model

| member | source | states |
|---|---|---|
| Tokens.Spelling | src/lexer/mod.rs:36-72 | every keyword has one lower-case spelling of at least two letters |
| Tokens.ParseKeyword | src/lexer/mod.rs:75-112 | the keyword table: a whole-string lookup; a hit has the length of a reserved word |
| Tokens.ParsedIsSpelled | src/lexer/mod.rs:75-112 | a hit in the table is the keyword the whole text spells |
| Tokens.SpellingParses | src/lexer/mod.rs:75-112 | every keyword's spelling is found in the table as that keyword |
| Tokens.KeywordTableExact | src/lexer/mod.rs:75-112 | the table and the spellings are inverse: `s` is looked up as `k` iff `s` is `k`'s spelling |
| Tokens.KeywordFromStr | src/lexer/mod.rs:115-124 | `from_str` is `Found(k)` only for `k`'s spelling, and `NotAKeyword` only for a text that spells no keyword |
| Decimal.NatToString | src/parser/tree.rs:300-321 | the decimal text of a number is non-empty digits without a leading zero |
| Decimal.IntToString | src/parser/tree.rs:300-321 | `format!("{}", i)`: starts with `-` exactly for negative numbers |
| Decimal.DecimalRoundTrip | src/lexer/mod.rs:309-319 | reading back the decimal text of `n` gives `n` |
| Decimal.DecimalValueSnoc | src/lexer/mod.rs:309-319 | one more digit multiplies the value by ten and adds the digit |
| ScanSpec.RunEnd | src/lexer/mod.rs:247-249 | the end of the longest run of characters that satisfy a test: all before it pass, the one at it fails or is the end |
| ScanSpec.IdentifierOrKeyword | src/lexer/mod.rs:240-256 | applies exactly at a letter or `_`; never fails; moves forward when it applies |
| ScanSpec.OperatorAt | src/lexer/mod.rs:258-307 | never fails; any token it yields is an operator and counts no line |
| ScanSpec.IntegerAt | src/lexer/mod.rs:309-319 | applies exactly at a digit |
| ScanSpec.CharAt | src/lexer/mod.rs:321-335 | applies exactly at `'` |
| ScanSpec.StringRest | src/lexer/mod.rs:343-351 | the string loop always ends in a token or a failure, past where it started |
| ScanSpec.StringAt | src/lexer/mod.rs:337-352 | applies exactly at `"` |
| ScanSpec.CommentAt | src/lexer/mod.rs:354-376 | applies exactly at `#` or `{`; its token is `Comment` |
| ScanSpec.WhitespaceAt | src/lexer/mod.rs:378-388 | applies exactly at a blank; never fails |
| ScanSpec.SpecialAt | src/lexer/mod.rs:390-428 | never fails; counts one line exactly for the `Newline` token |
| ScanSpec.ScanToken | src/lexer/mod.rs:212-238 | always yields a token or a failure, and a token always moves the cursor forward |
| ScanFacts.RunEndStopsAt | src/lexer/mod.rs:247-249 | a run whose every character passes and which stops at a failing character or the end ends there |
| ScanFacts.CountNewlinesAppend | src/lexer/mod.rs:363-367 | line breaks of a concatenation add up |
| ScanFacts.ScanWord | src/lexer/mod.rs:240-256 | a word is the maximal identifier run; it is `Keyword(k)` iff the whole run spells `k`, and `Identifier(text)` iff it spells no keyword |
| ScanFacts.ScanColon | src/lexer/mod.rs:290-304 | `:=:` is Swap, `:=` is Assignment, and a bare `:` is rolled back and becomes Colon |
| ScanFacts.ScanLess | src/lexer/mod.rs:271-281 | longest match for `<`: `<=`, then `<>`, else `<` |
| ScanFacts.ScanGreater | src/lexer/mod.rs:282-289 | longest match for `>`: `>=`, else `>` |
| ScanFacts.ScanDot | src/lexer/mod.rs:413-421 | `..` is Dots, a single `.` is Dot |
| ScanFacts.ScanInteger | src/lexer/mod.rs:309-319 | an integer is the maximal digit run with its decimal value, or the overflow failure beyond `i64` |
| ScanFacts.ScanCharLiteral | src/lexer/mod.rs:321-335 | a char literal succeeds iff a quote closes it two places on, and is then the character between |
| ScanFacts.StringRestOutcome | src/lexer/mod.rs:343-351 | the string loop stops at the first quote or newline from where it is |
| ScanFacts.ScanString | src/lexer/mod.rs:337-352 | a string's payload is the source slice with both quotes; a newline before the closing quote fails |
| ScanFacts.ScanLineComment | src/lexer/mod.rs:356-361 | a `#` comment runs up to, not including, the next newline or the end |
| ScanFacts.ScanBlockComment | src/lexer/mod.rs:362-373 | a `{` comment runs through the next `}` and counts the newlines inside; an unclosed one fails |
| ScanFacts.ScanWhitespace | src/lexer/mod.rs:378-388 | blanks are taken maximally into one token |
| ScanFacts.ScanUnexpected | src/lexer/mod.rs:236-237 | a character no recogniser accepts aborts the scan, naming the character |
| ScanFacts.NewlinesOfToken | src/lexer/mod.rs:212-428 | every token counts all the newlines in its own text, except a `'\n'` char literal, which counts none |
| ScanFacts.LexLineCount | src/lexer/mod.rs:171-181 | a whole pass counts every newline of the text, except those inside `'\n'` char literals |
| ScanFacts.StringClosesAt | src/lexer/mod.rs:343-351 | the string loop closes at the first quote when no newline comes before it |
| ScanFacts.RescanWord | src/lexer/mod.rs:240-256 | a word or an integer re-scanned on its own is the same token |
| ScanFacts.RescanString | src/lexer/mod.rs:337-352 | a string re-scanned on its own is the same token |
| ScanFacts.RescanComment | src/lexer/mod.rs:354-388 | a comment or a blank run re-scanned on its own is the same token |
| ScanFacts.RescanPunctuation | src/lexer/mod.rs:258-428 | an operator, char literal or special token re-scanned on its own is the same token |
| ScanFacts.LexFromScan | src/lexer/mod.rs:171-181 | the pass from a position goes on from the token scanned there |
| ScanFacts.RelexToken | src/lexer/mod.rs:171-238 | scanning a token's own text gives back that token alone, with the same line count |
| LexExamples.ExampleSpecials | src/lexer/test.rs:56-60 | `";\n,"` scans to Semicolon, Newline, Comma |
| LexExamples.ExampleKeyword | src/lexer/test.rs:7-11 | `"program"` scans to the single keyword Program |
| LexExamples.ExampleUnexpected | src/lexer/mod.rs:236-237 | `"hello!"` aborts at the `!` |
| LexExamples.ExampleSwap | src/lexer/mod.rs:290-304 | `"a:=:b"` scans to a, Swap, b |
| LexExamples.ExampleSplitColon | src/lexer/mod.rs:290-304 | `": ="` scans to Colon, Whitespace, Equal |
| Lexing.Lexer.constructor | src/lexer/mod.rs:162-169 | a new lexer is at position 0 on line 1 |
| Lexing.Lexer.Advance | src/lexer/mod.rs:187-190 | moves the cursor one place and returns the character stepped over; past the end it panics |
| Lexing.Lexer.Commit | src/lexer/mod.rs:192-194 | the token start moves to the cursor |
| Lexing.Lexer.Rollback | src/lexer/mod.rs:196-198 | the cursor moves back to the token start |
| Lexing.Lexer.SkipWhile | src/lexer/mod.rs:247-249 | the loop leaves the cursor at the end of the run of passing characters |
| Lexing.Lexer.IdentifierOrKeyword | src/lexer/mod.rs:240-256 | yields what `ScanSpec.IdentifierOrKeyword` prescribes, with the same cursor and line |
| Lexing.Lexer.Operator | src/lexer/mod.rs:258-307 | yields what `ScanSpec.OperatorAt` prescribes, with the same cursor and line |
| Lexing.Lexer.Integer | src/lexer/mod.rs:309-319 | yields what `ScanSpec.IntegerAt` prescribes, with the same cursor and line |
| Lexing.Lexer.Char | src/lexer/mod.rs:321-335 | yields what `ScanSpec.CharAt` prescribes, with the same cursor and line |
| Lexing.Lexer.String | src/lexer/mod.rs:337-352 | yields what `ScanSpec.StringAt` prescribes, with the same cursor and line |
| Lexing.Lexer.Comment | src/lexer/mod.rs:354-376 | yields what `ScanSpec.CommentAt` prescribes, with the same cursor and line |
| Lexing.Lexer.LineComment | src/lexer/mod.rs:356-361 | consumes up to, not including, the next newline |
| Lexing.Lexer.BlockComment | src/lexer/mod.rs:362-373 | consumes through the next `}` counting lines, or panics at the end |
| Lexing.Lexer.Whitespace | src/lexer/mod.rs:378-388 | yields what `ScanSpec.WhitespaceAt` prescribes, with the same cursor and line |
| Lexing.Lexer.SpecialToken | src/lexer/mod.rs:390-428 | yields what `ScanSpec.SpecialAt` prescribes, with the same cursor and line |
| Lexing.Lexer.ScanToken | src/lexer/mod.rs:212-238 | yields the token, end and line count of `ScanSpec.ScanToken`, or its failure |
| Lexing.Lexer.Step | src/lexer/mod.rs:173-177 | one turn of the loop keeps the invariant that the tokens so far and the pass from the cursor make up the whole pass |
| Lexing.Lexer.Lex | src/lexer/mod.rs:171-181 | returns the tokens of `LexFrom`, ends at the end of the text and advances `line` by the lines counted, or fails as `LexFrom` does |
| Parsing.Significant | src/parser/parser.rs:9-26 | the filter of `new`: no comment, whitespace or newline is left |
| Parsing.SignificantAppend | src/parser/parser.rs:9-26 | filtering distributes over concatenation, keeping order |
| Parsing.SignificantKeeps | src/parser/parser.rs:9-26 | a token survives iff it occurs and is no comment, whitespace or newline |
| Parsing.SignificantKeepsAll | src/parser/parser.rs:9-26 | a stream without trivia passes unchanged |
| Parsing.SignificantIdempotent | src/parser/parser.rs:9-26 | filtering twice is filtering once |
| Parsing.Expected | src/parser/parser.rs:58 | `expect(msg)`: the value when there is one, the panic otherwise |
| Parsing.Parser.constructor | src/parser/parser.rs:9-26 | the parser holds the filtered tokens, with the cursor at 0 |
| Parsing.Parser.Peek | src/parser/parser.rs:32-34 | the token at the cursor, or the bounds panic past the last token |
| Parsing.Parser.Previous | src/parser/parser.rs:36-38 | the token before the cursor, defined exactly when the cursor is inside the tokens and not at 0 |
| Parsing.Parser.IsAtEnd | src/parser/parser.rs:40-42 | at the end exactly when `peek` would panic |
| Parsing.Parser.Advance | src/parser/parser.rs:44-52 | moves past the current token unless at the end, and returns the previous token |
| Parsing.Parser.Consume | src/parser/parser.rs:59-64 | consumes the expected token or panics with the given message, as `ExprGrammar.Punct` |
| Parsing.Parser.Name | src/parser/parser.rs:94-102 | agrees with `ExprGrammar.Name` |
| Parsing.Parser.Expression | src/parser/parser.rs:314-367 | agrees with `ExprGrammar.Expression` |
| Parsing.Parser.Term | src/parser/parser.rs:371-374 | agrees with `ExprGrammar.Term` |
| Parsing.Parser.TermTail | src/parser/parser.rs:380-408 | the `+ - or` loop agrees with `ExprGrammar.TermTail` |
| Parsing.Parser.Factor | src/parser/parser.rs:411-414 | agrees with `ExprGrammar.Factor` |
| Parsing.Parser.FactorTail | src/parser/parser.rs:421-457 | the `* / and mod` loop agrees with `ExprGrammar.FactorTail` |
| Parsing.Parser.Primary | src/parser/parser.rs:472-610 | agrees with `ExprGrammar.Primary` |
| Parsing.Parser.NameOrCall | src/parser/parser.rs:501-529 | agrees with `ExprGrammar.NameOrCall` |
| Parsing.Parser.CallArgs | src/parser/parser.rs:512-523 | the argument loop agrees with `ExprGrammar.CallArgs` |
| Parsing.Parser.Parenthesised | src/parser/parser.rs:530-538 | agrees with `ExprGrammar.Parenthesised` |
| Parsing.Parser.Builtin | src/parser/parser.rs:540-609 | agrees with `ExprGrammar.Builtin` |
| Parsing.Parser.ConstValue | src/parser/parser.rs:154-168 | agrees with `StmtGrammar.ConstValue` |
| Parsing.Parser.CaseExpression | src/parser/parser.rs:1003-1012 | agrees with `StmtGrammar.CaseExpression` |
| Parsing.Parser.Assignment | src/parser/parser.rs:948-977 | agrees with `StmtGrammar.Assignment` |
| Parsing.Parser.OutExp | src/parser/parser.rs:931-944 | agrees with `StmtGrammar.OutExp` |
| Parsing.Parser.OutExpList | src/parser/parser.rs:887-899 | agrees with `StmtGrammar.OutExpList` |
| Parsing.Parser.NameList | src/parser/parser.rs:915-927 | agrees with `StmtGrammar.NameList` |
| Parsing.Parser.Statement | src/parser/parser.rs:668-885 | agrees with `StmtGrammar.Statement` |
| Parsing.Parser.Body | src/parser/parser.rs:631-653 | agrees with `StmtGrammar.Body`: no body, cursor unmoved, exactly when `begin` is not at the cursor |
| Parsing.Parser.StatementList | src/parser/parser.rs:901-913 | agrees with `StmtGrammar.StatementList` |
| Parsing.Parser.OutputRest | src/parser/parser.rs:670-686 | agrees with `StmtGrammar.OutputRest` |
| Parsing.Parser.IfRest | src/parser/parser.rs:687-707 | agrees with `StmtGrammar.IfRest` |
| Parsing.Parser.WhileRest | src/parser/parser.rs:708-721 | agrees with `StmtGrammar.WhileRest` |
| Parsing.Parser.RepeatRest | src/parser/parser.rs:722-746 | agrees with `StmtGrammar.RepeatRest` |
| Parsing.Parser.ForCondition | src/parser/parser.rs:762-772 | agrees with `StmtGrammar.ForCondition` |
| Parsing.Parser.ForHeader | src/parser/parser.rs:749-787 | agrees with `StmtGrammar.ForHeaderAt` |
| Parsing.Parser.ForRest | src/parser/parser.rs:747-791 | agrees with `StmtGrammar.ForRest` |
| Parsing.Parser.LoopRest | src/parser/parser.rs:792-803 | agrees with `StmtGrammar.LoopRest` |
| Parsing.Parser.CaseRest | src/parser/parser.rs:804-844 | agrees with `StmtGrammar.CaseRest` |
| Parsing.Parser.CaseClauses | src/parser/parser.rs:815-827 | the clause loop agrees with `StmtGrammar.CaseClauses` |
| Parsing.Parser.CaseClause | src/parser/parser.rs:980-999 | agrees with `StmtGrammar.CaseClause` |
| Parsing.Parser.OtherwiseClause | src/parser/parser.rs:1016-1026 | agrees with `StmtGrammar.OtherwiseClause`: no clause, cursor unmoved, exactly when `otherwise` is not at the cursor |
| Parsing.Parser.ReadRest | src/parser/parser.rs:845-861 | agrees with `StmtGrammar.ReadRest` |
| Parsing.Parser.ConstExpr | src/parser/parser.rs:136-149 | agrees with `DeclGrammar.ConstExpr` |
| Parsing.Parser.Consts | src/parser/parser.rs:106-133 | agrees with `DeclGrammar.Consts`, with the repeated `,` test as written |
| Parsing.Parser.LitList | src/parser/parser.rs:221-243 | agrees with `DeclGrammar.LitList` |
| Parsing.Parser.TypeExpr | src/parser/parser.rs:202-218 | agrees with `DeclGrammar.TypeExpr`: no type, cursor unmoved, exactly when no identifier is at the cursor |
| Parsing.Parser.Types | src/parser/parser.rs:172-199 | agrees with `DeclGrammar.Types` |
| Parsing.Parser.Dcln | src/parser/parser.rs:276-305 | agrees with `DeclGrammar.Dcln`: no declaration, cursor unmoved, exactly when no identifier is at the cursor |
| Parsing.Parser.Dclns | src/parser/parser.rs:247-273 | agrees with `DeclGrammar.Dclns` |
| Parsing.Parser.Params | src/parser/parser.rs:613-628 | agrees with `DeclGrammar.Params` |
| Parsing.Parser.Func | src/parser/parser.rs:1043-1086 | agrees with `DeclGrammar.Func`: no function, cursor unmoved, exactly when `function` is not at the cursor |
| Parsing.Parser.Signature | src/parser/parser.rs:1047-1066 | agrees with `DeclGrammar.SignatureAt` |
| Parsing.Parser.Block | src/parser/parser.rs:1067-1070 | agrees with `DeclGrammar.BlockAt` |
| Parsing.Parser.SubProgs | src/parser/parser.rs:1029-1040 | agrees with `DeclGrammar.SubProgs` |
| Parsing.Parser.Winzig | src/parser/parser.rs:55-91 | agrees with `DeclGrammar.Winzig` |
| Parsing.Parser.Parse | src/parser/parser.rs:28-30 | agrees with `DeclGrammar.Winzig` from the cursor |
| ExprGrammar.Punct | src/parser/parser.rs:59-64 | succeeds iff the expected token is at the cursor, consuming it; otherwise the given panic, or the bounds panic at the end |
| ExprGrammar.Name | src/parser/parser.rs:94-102 | fails only at the end; a name iff an identifier is at the cursor, consuming exactly it; otherwise consumes nothing |
| ExprGrammar.Expect | src/parser/parser.rs:58 | succeeds iff the rule yields a value, and that value |
| ExprGrammar.Expression | src/parser/parser.rs:314-367 | a parsed expression consumes at least one token |
| ExprGrammar.Term | src/parser/parser.rs:371-374 | a parsed term consumes at least one token |
| ExprGrammar.TermTail | src/parser/parser.rs:380-408 | the `+ - or` loop never moves back |
| ExprGrammar.Factor | src/parser/parser.rs:411-414 | a parsed factor consumes at least one token |
| ExprGrammar.FactorTail | src/parser/parser.rs:421-457 | the `* / and mod` loop never moves back |
| ExprGrammar.Primary | src/parser/parser.rs:472-610 | a parsed primary consumes at least one token |
| ExprGrammar.NameOrCall | src/parser/parser.rs:501-529 | a name or call consumes at least one token |
| ExprGrammar.Builtin | src/parser/parser.rs:540-609 | a builtin call consumes at least one token |
| ExprGrammar.Parenthesised | src/parser/parser.rs:530-538 | a parenthesised expression consumes at least one token |
| ExprGrammar.CallArgs | src/parser/parser.rs:512-523 | the argument loop consumes tokens and adds at least one argument |
| ExprRoundTrip.ExpressionRoundTrip | src/parser/parser.rs:314-610 | a well-formed expression written out as tokens, followed by a token that ends expressions, is parsed back as itself, consuming exactly its tokens |
| ExprRoundTrip.MultiplyBindsTighter | src/parser/parser.rs:380-457 | `1 + 2 * 3` parses as `1 + (2 * 3)` |
| ExprRoundTrip.SubtractAssociatesLeft | src/parser/parser.rs:380-408 | `a - b - c` parses as `(a - b) - c` |
| ExprRoundTrip.ComparisonsDoNotChain | src/parser/parser.rs:314-367 | in `a < b < c` the expression stops before the second `<` |
| StmtGrammar.ConstValue | src/parser/parser.rs:154-168 | a constant value is exactly one token |
| StmtGrammar.CaseExpression | src/parser/parser.rs:1003-1012 | a case label consumes at least one token |
| StmtGrammar.CaseLabels | src/parser/parser.rs:982-993 | the label loop consumes tokens and adds at least one label |
| StmtGrammar.Assignment | src/parser/parser.rs:948-977 | yields an assignment iff an identifier is at the cursor; otherwise consumes nothing |
| StmtGrammar.OutExp | src/parser/parser.rs:931-944 | an output item consumes at least one token |
| StmtGrammar.OutExpList | src/parser/parser.rs:887-899 | the item loop consumes tokens and adds at least one item |
| StmtGrammar.NameList | src/parser/parser.rs:915-927 | the name loop consumes tokens and adds at least one name |
| StmtGrammar.Statement | src/parser/parser.rs:668-885 | a statement never moves the cursor back |
| StmtGrammar.Body | src/parser/parser.rs:631-653 | fails at the end of the tokens; any token but `begin` gives no body with the cursor unmoved; after `begin` it yields a body or fails; a body always consumes tokens |
| StmtGrammar.StatementList | src/parser/parser.rs:901-913 | the statement loop adds at least one statement |
| StmtGrammar.OutputRest | src/parser/parser.rs:670-686 | the `output` arm consumes tokens |
| StmtGrammar.IfRest | src/parser/parser.rs:687-707 | the `if` arm consumes tokens |
| StmtGrammar.WhileRest | src/parser/parser.rs:708-721 | the `while` arm consumes tokens |
| StmtGrammar.RepeatRest | src/parser/parser.rs:722-746 | the `repeat` arm consumes tokens |
| StmtGrammar.ForCondition | src/parser/parser.rs:762-772 | the `for` condition consumes tokens |
| StmtGrammar.ForHeaderAt | src/parser/parser.rs:749-787 | the `for` header consumes tokens |
| StmtGrammar.ForRest | src/parser/parser.rs:747-791 | the `for` arm consumes tokens |
| StmtGrammar.LoopRest | src/parser/parser.rs:792-803 | the `loop` arm consumes tokens |
| StmtGrammar.CaseRest | src/parser/parser.rs:804-844 | the `case` arm consumes tokens |
| StmtGrammar.CaseClauses | src/parser/parser.rs:815-827 | the clause loop consumes tokens and adds at least one clause |
| StmtGrammar.CaseClause | src/parser/parser.rs:980-999 | a case clause consumes tokens |
| StmtGrammar.OtherwiseClause | src/parser/parser.rs:1016-1026 | fails at the end of the tokens; any token but `otherwise` gives no clause with the cursor unmoved; after `otherwise` it yields a clause or fails; a clause always consumes tokens |
| StmtGrammar.ReadRest | src/parser/parser.rs:845-861 | the `read` arm consumes tokens |
| DeclGrammar.ConstExpr | src/parser/parser.rs:136-149 | a constant definition consumes tokens |
| DeclGrammar.ConstsLoop | src/parser/parser.rs:110-126 | a finished constant loop consumes tokens |
| DeclGrammar.Consts | src/parser/parser.rs:106-133 | `consts` never moves back |
| DeclGrammar.LitNames | src/parser/parser.rs:226-239 | the literal loop consumes tokens and adds at least one name |
| DeclGrammar.LitList | src/parser/parser.rs:221-243 | a literal list consumes tokens |
| DeclGrammar.TypeExpr | src/parser/parser.rs:202-218 | fails at the end of the tokens; a token that is not an identifier gives no type with the cursor unmoved; after an identifier it yields a type or fails; a type always consumes tokens |
| DeclGrammar.TypesLoop | src/parser/parser.rs:176-191 | the type loop never moves back or drops a type |
| DeclGrammar.Types | src/parser/parser.rs:172-199 | `types` never moves back |
| DeclGrammar.DclnNames | src/parser/parser.rs:285-297 | the name loop consumes tokens and adds at least one name |
| DeclGrammar.Dcln | src/parser/parser.rs:276-305 | fails at the end of the tokens; a token that is not an identifier gives no declaration with the cursor unmoved; after an identifier it yields a declaration or fails; a declaration always consumes tokens |
| DeclGrammar.DclnsLoop | src/parser/parser.rs:251-265 | the declaration loop never moves back or drops a declaration |
| DeclGrammar.Dclns | src/parser/parser.rs:247-273 | `dclns` never moves back |
| DeclGrammar.ParamsLoop | src/parser/parser.rs:615-626 | the parameter loop never moves back or drops a parameter |
| DeclGrammar.Params | src/parser/parser.rs:613-628 | `params` never moves back |
| DeclGrammar.SignatureAt | src/parser/parser.rs:1047-1066 | a signature consumes tokens |
| DeclGrammar.BlockAt | src/parser/parser.rs:1067-1070 | a function block consumes tokens |
| DeclGrammar.Func | src/parser/parser.rs:1043-1086 | fails at the end of the tokens; any token but `function` gives no function with the cursor unmoved; after `function` it yields a function or fails; a function always consumes tokens |
| DeclGrammar.SubProgsLoop | src/parser/parser.rs:1031-1036 | the function loop never moves back or drops a function |
| DeclGrammar.SubProgs | src/parser/parser.rs:1029-1040 | `sub_progs` never moves back |
| DeclGrammar.Winzig | src/parser/parser.rs:55-91 | a parsed program consumes tokens |
| DeclRoundTrip.DclnNamesReads | src/parser/parser.rs:285-297 | the names `n1 , … , nk :` written out are read back by the name loop as exactly those names, consuming `2k` tokens |
| DeclRoundTrip.LitNamesReads | src/parser/parser.rs:226-239 | the literals `l1 , … , lk )` written out are read back by the literal loop as exactly those names, consuming `2k` tokens |
| DeclRoundTrip.LitListReads | src/parser/parser.rs:221-243 | `( l1 , … , lk )` is read back as that literal list, consuming `2k + 1` tokens |
| DeclRoundTrip.TypeExprReads | src/parser/parser.rs:202-218 | a type definition `name = ( l1 , … , lk )` written out is read back as itself, consuming exactly its tokens, whatever follows |
| DeclRoundTrip.DclnReads | src/parser/parser.rs:276-305 | a declaration `n1 , … , nk : t` written out is read back as itself, consuming exactly its tokens, whatever follows |
| DeclRoundTrip.TypeListReads | src/parser/parser.rs:176-191 | the type loop reads back every written definition and its `;`, and stops at the first token that is not an identifier |
| DeclRoundTrip.VarListReads | src/parser/parser.rs:251-265 | the declaration loop reads back every written declaration and its `;`, and stops at the first token that is not an identifier |
| DeclRoundTrip.TypesReads | src/parser/parser.rs:172-199 | a written `type` section, or nothing for an empty one, is read back as itself, consuming exactly its tokens, when no identifier follows |
| DeclRoundTrip.DclnsReads | src/parser/parser.rs:247-273 | a written `var` section, or nothing for an empty one, is read back as itself, consuming exactly its tokens, when no identifier follows |
| DeclRoundTrip.ParamListReads | src/parser/parser.rs:615-626 | the parameter loop reads back declarations separated by `;` and stops at the first one not followed by `;` |
| DeclRoundTrip.ParamsReads | src/parser/parser.rs:613-628 | a written parameter list, possibly empty, is read back as itself before the `)` that closes it |
| DeclRoundTrip.SignatureReads | src/parser/parser.rs:1047-1066 | a written signature `name ( params ) : type ;` is read back as itself, consuming exactly its tokens |
| DeclRoundTrip.SectionsRead | src/parser/parser.rs:106-273 | written `type` and `var` sections before `begin` or `function` are read back as themselves, after an empty `consts` that consumes nothing |
| DeclRoundTrip.BodyLead | src/parser/parser.rs:631-653 | a body that is read starts with `begin` |
| DeclRoundTrip.BlockReads | src/parser/parser.rs:1067-1070 | written sections followed by a body that reads back give the function block of those sections and that body |
| DeclRoundTrip.FuncReads | src/parser/parser.rs:1043-1086 | a written function without constants, followed by a body that reads back, its end name and `;`, is read back as that function |
| DeclRoundTrip.SubProgsLoopCollects | src/parser/parser.rs:1031-1036 | functions read one after another, up to a token that is not `function`, are collected in order by the function loop |
| DeclRoundTrip.SubProgsFollow | src/parser/parser.rs:1029-1040 | when `begin` follows the function section, the section starts at `begin` or `function` |
| DeclRoundTrip.WinzigReads | src/parser/parser.rs:55-91 | a written program head without constants, followed by functions and a body that read back, its end name and `.`, is read back as that program |
| GrammarFacts.ConstsLoopNeverEnds | src/parser/parser.rs:110-126 | every path through the constant loop ends in a panic |
| GrammarFacts.ConstsOnlyEmpty | src/parser/parser.rs:106-133 | `consts` succeeds iff no `const` is at the cursor, and then yields no constants and consumes nothing |
| GrammarFacts.ConstsRejectsSemicolon | src/parser/parser.rs:104-133 | `const a = 1 ;`, the form the grammar comment describes, is rejected |
| GrammarFacts.StatementShape | src/parser/parser.rs:668-885 | the token at the cursor decides the form of the statement; a token that starts no form yields the empty statement without consuming it; only the empty statement consumes nothing |
| GrammarFacts.OutExpRejectsLeadingString | src/parser/parser.rs:931-944 | a string at the start of an output item is rejected as "Expected primary" |
| GrammarFacts.OutExpShape | src/parser/parser.rs:931-944 | an item is a string iff a string token follows a complete expression, which is dropped; otherwise it is that expression |
| GrammarFacts.ForConditionShape | src/parser/parser.rs:762-772 | an immediate `;` is the condition `true`, and only then; otherwise it is the expression before the `;` |
| GrammarFacts.EmptyForHeader | src/parser/parser.rs:749-787 | `( ; ; )` has no initialiser, the condition `true` and no update |
| GrammarFacts.TermTailStops | src/parser/parser.rs:380-408 | the `+ - or` loop stops only at a token that is none of them |
| GrammarFacts.FactorTailStops | src/parser/parser.rs:421-457 | the `* / and mod` loop stops only at a token that is none of them |
| GrammarFacts.ExpressionStops | src/parser/parser.rs:314-374 | a term ends only where it cannot continue, and an expression without a comparison ends only where no comparison follows |
| GrammarFacts.SmallestProgram | src/parser/parser.rs:55-91 | `program n1 : begin end n2 .` parses with one empty statement, with `n2` not compared with `n1` and the rest of the input not read |
| Dump.Indent | src/parser/tree.rs:10 | the indent of a level is two characters per level |
| Dump.Render | src/parser/tree.rs:8-20 | the first line of a dump is its node's header line |
| Dump.Deeper | src/parser/tree.rs:11-17 | each line one level deeper, with `". "` in front |
| Dump.RenderAllAppend | src/parser/tree.rs:11-17 | the lines of consecutive children are the children's lines in order |
| Dump.RenderSize | src/parser/tree.rs:8-20 | a dump prints one line per node |
| Dump.RenderAllSize | src/parser/tree.rs:8-20 | a list of dumps prints one line per node |
| Dump.RenderDeeper | src/parser/tree.rs:8-20 | a dump whose lines are all indented, printed one level deeper, is each line with `". "` in front |
| Dump.FlushIgnoresLevel | src/parser/tree.rs:477 | an unindented header line is the same at every level |
| Tree.ProgramTree | src/parser/tree.rs:7-20 | a program prints at least ten lines |
| Tree.IdentifierTree | src/parser/tree.rs:22-29 | an identifier prints two lines |
| Tree.ConstsTree | src/parser/tree.rs:31-43 | `consts` prints one line, whatever the number of constants |
| Tree.TypesTree | src/parser/tree.rs:45-57 | `types` prints at least its header line |
| Tree.TypeTree | src/parser/tree.rs:59-70 | a type prints at least four lines |
| Tree.LitListTree | src/parser/tree.rs:72-84 | a literal list prints one line plus two per name |
| Tree.DclnsTree | src/parser/tree.rs:86-98 | `dclns` prints at least its header line |
| Tree.VarTree | src/parser/tree.rs:100-113 | a declaration prints three lines plus two per name |
| Tree.SubProgsTree | src/parser/tree.rs:115-127 | `subprogs` prints at least its header line |
| Tree.FuncTree | src/parser/tree.rs:129-146 | a function prints at least twelve lines |
| Tree.ParamsTree | src/parser/tree.rs:148-160 | `params` prints at least its header line |
| Tree.BodyTree | src/parser/tree.rs:162-174 | a body prints at least its header line |
| Tree.StatementTree | src/parser/tree.rs:176-264 | a statement prints at least one line |
| Tree.CaseClauseTree | src/parser/tree.rs:266-279 | a case clause prints at least two lines |
| Tree.CaseExpressionTree | src/parser/tree.rs:281-298 | a case label prints at least two lines |
| Tree.ConstValueTree | src/parser/tree.rs:300-321 | a constant value prints two lines |
| Tree.OtherwiseClauseTree | src/parser/tree.rs:323-331 | an otherwise clause prints at least two lines |
| Tree.ForStatTree | src/parser/tree.rs:334-347 | a `for` initialiser or update prints at least one line |
| Tree.ForExpTree | src/parser/tree.rs:349-362 | a `for` condition prints at least one line |
| Tree.AssignmentTree | src/parser/tree.rs:364-382 | an assignment prints at least four lines |
| Tree.ExpressionTree | src/parser/tree.rs:384-431 | an expression prints at least one line |
| Tree.TermTree | src/parser/tree.rs:433-462 | a term prints at least one line |
| Tree.FactorTree | src/parser/tree.rs:464-499 | a factor prints at least one line |
| Tree.PrimaryTree | src/parser/tree.rs:501-567 | a primary prints at least one line |
| Tree.OutExpTree | src/parser/tree.rs:569-586 | an output item prints at least two lines |
| TreeShape.IdentifierRenders | src/parser/tree.rs:22-29 | an identifier prints `Render` of its dump |
| TreeShape.ConstValueRenders | src/parser/tree.rs:300-321 | a constant value prints `Render` of its dump |
| TreeShape.CaseExpressionRenders | src/parser/tree.rs:281-298 | a case label prints `Render` of its dump; a single value prints as itself |
| TreeShape.ExpressionRenders | src/parser/tree.rs:384-431 | an expression prints `Render` of its dump |
| TreeShape.TermRenders | src/parser/tree.rs:433-462 | a term prints `Render` of its dump |
| TreeShape.FactorRenders | src/parser/tree.rs:464-499 | a factor prints `Render` of its dump, with the `/` header unindented |
| TreeShape.PrimaryRenders | src/parser/tree.rs:501-567 | a primary prints `Render` of its dump, with the unary `-` header unindented and a parenthesised expression printed as itself |
| TreeShape.AssignmentRenders | src/parser/tree.rs:364-382 | an assignment or swap prints `Render` of its dump |
| TreeShape.ForStatRenders | src/parser/tree.rs:334-347 | a `for` initialiser or update prints `Render` of its dump |
| TreeShape.ForExpRenders | src/parser/tree.rs:349-362 | a `for` condition prints `Render` of its dump |
| TreeShape.OutExpRenders | src/parser/tree.rs:569-586 | an output item prints `Render` of its dump |
| TreeShape.StatementRenders | src/parser/tree.rs:176-264 | a statement prints `Render` of its dump; an assignment and a nested body print as what they hold |
| TreeShape.BodyRenders | src/parser/tree.rs:162-174 | a body prints `Render` of its dump |
| TreeShape.CaseClauseRenders | src/parser/tree.rs:266-279 | a case clause prints `Render` of its dump |
| TreeShape.OtherwiseClauseRenders | src/parser/tree.rs:323-331 | an otherwise clause prints `Render` of its dump |
| TreeShape.ConstsRenders | src/parser/tree.rs:31-43 | `consts` prints `Render` of a childless dump counting the constants |
| TreeShape.LitListRenders | src/parser/tree.rs:72-84 | a literal list prints `Render` of its dump |
| TreeShape.TypeRenders | src/parser/tree.rs:59-70 | a type prints `Render` of its dump |
| TreeShape.TypesRenders | src/parser/tree.rs:45-57 | `types` prints `Render` of its dump |
| TreeShape.VarRenders | src/parser/tree.rs:100-113 | a declaration prints `Render` of its dump |
| TreeShape.DclnsRenders | src/parser/tree.rs:86-98 | `dclns` prints `Render` of its dump |
| TreeShape.ParamsRenders | src/parser/tree.rs:148-160 | `params` prints `Render` of its dump |
| TreeShape.FuncRenders | src/parser/tree.rs:129-146 | a function prints `Render` of its dump |
| TreeShape.SubProgsRenders | src/parser/tree.rs:115-127 | `subprogs` prints `Render` of its dump |
| TreeShape.ProgramRenders | src/parser/tree.rs:7-20 | a program prints `Render` of its dump |
| TreeFacts.ExpressionCounted | src/parser/tree.rs:384-567 | every count in an expression's dump is the number of children printed under it |
| TreeFacts.StatementCounted | src/parser/tree.rs:176-382 | every count in a statement's dump is the number of children printed under it |
| TreeFacts.SectionsCounted | src/parser/tree.rs:45-174 | the counts of `types`, `dclns`, `params` and a body match their children |
| TreeFacts.FuncCounted | src/parser/tree.rs:129-146 | a function's counts all match iff it has no constants |
| TreeFacts.SubProgsCounted | src/parser/tree.rs:115-127 | the counts of `subprogs` all match iff no function has constants |
| TreeFacts.ProgramCounted | src/parser/tree.rs:7-43 | a program's counts all match iff neither it nor any of its functions has constants |
| TreeFacts.FuncHasNoConstants | src/parser/parser.rs:1043-1086 | a function the parser returns has no constants |
| TreeFacts.ParsedSections | src/parser/parser.rs:55-91 | a parsed program's `consts` and `sub_progs` come from the `consts` and `sub_progs` rules after `program name :` |
| TreeFacts.ParsedProgramCounted | src/parser/parser.rs:55-133 | every program the parser returns has no constants, so every count in its dump matches the lines under it |
| TreeFacts.ExpressionIndented | src/parser/tree.rs:384-567 | an expression's dump keeps every indent iff it holds no `/` and no unary `-` |
| TreeFacts.ExpressionShifts | src/parser/tree.rs:384-567 | an expression without `/` or unary `-` printed one level deeper is each line with `". "` in front |
| TreeFacts.DivideIsFlush | src/parser/tree.rs:477 | the `/` header is `/(2)` at every level, so one level deeper does not indent it |
| TreeFacts.NegateIsFlush | src/parser/tree.rs:508 | the unary `-` header is `-(1)` at every level, so one level deeper does not indent it |
| TreeFacts.ProgramLines | src/parser/tree.rs:7-20 | a program's dump prints one line per node of its tree |

## Left out

- `src/main.rs` (reading files, command-line handling, printing the dump) is not part of this model. `src/lexer/test.rs` and `src/parser/test.rs` are restated only where a lemma names them. The parser's test reads a file that is not part of this model.
- The `verbose` trace of the parser prints to standard output. `verbose` is always false, so the model keeps the flag as a constant and leaves the printing out.
- Lexer character classes: `is_alphabetic` and `is_alphanumeric` are modelled as ASCII letters and letters-or-digits. Non-ASCII letters are not modelled.
- Lexer positions: the Rust lexer mixes byte offsets (`len`, slicing) with character offsets (`chars().nth`). The model indexes a sequence of characters, so the two agree. This holds for ASCII text only.
- The parser's `Cell<usize>` cursor is an ordinary mutable field, and the token vector is an immutable sequence.
- The `Fcn` enum (`src/parser/mod.rs:64-66`) is never built by the program and is not modelled.
- Panics are modelled as an error value carrying the panic message. Unwinding and process exit are not modelled.
- `Lexing.Lexer.Advance` returns the panic past the end of the text as an error value. The char-literal recogniser reaches it when a `'` is the last character (`src/lexer/mod.rs:327`), and the string loop reaches it when a literal is not closed before the end (`src/lexer/mod.rs:344`). `ScanSpec.CharAt`, `ScanSpec.StringRest` and the `Lexer` methods that agree with them fail with that panic's message.
- `str::parse::<i64>` is modelled for digit runs only: their decimal value, or the overflow panic above `i64::MAX`.
- `Tree` functions state only how many lines they print. What they print is stated by the `TreeShape` lemmas about them.
- Grammar functions in `ExprGrammar`, `StmtGrammar` and `DeclGrammar` state in their own contracts how the cursor moves and, for the rules that may yield nothing, which token at the cursor decides that. What they build is stated by lemmas:
  - `ExprRoundTrip` for expressions;
  - `DeclRoundTrip` for names, literal lists, type definitions, declarations, the `type` and `var` sections, parameter lists, signatures, and whole functions and programs;
  - `GrammarFacts` for `consts`, `statement`, `outexp` and the `for` condition.
- Statements have no token writer. So `DeclRoundTrip.FuncReads` and `DeclRoundTrip.WinzigReads` take a body that reads back as given, rather than writing it out.
- `DeclRoundTrip` writes no `const` section: a non-empty one never parses (`GrammarFacts.ConstsOnlyEmpty`, `GrammarFacts.ConstsLoopNeverEnds`), so functions and programs are read back only without constants.
