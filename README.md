# PyTinyBasic in Dafny

A model of the core of PyTinyBasic, a Tiny BASIC interpreter written in
Python. It has three parts:

- **The tokenizer and the recursive-descent parser** (`pyTBasic/parser.py`).
  - `generate_tokens` scans one line with an ordered, first-match alternation of token patterns.
  - `BasicParser` turns the token stream into nested tuples, strings and ints.
- **The AST node classes** (`pyTBasic/basic_types.py`) and their `repr`s.
- **The tree-walking `Evaluator`** (`pyTBasic/evaluator.py`).
  - It visits nodes against a module-level symbol table of the letters A to Z.
  - It prints lines for `Print`.

The parser never builds the evaluator's nodes; each part is modelled as it stands.

## Files and modules

| file | module | what it holds |
|---|---|---|
| outcomes.dfy | Outcomes | `Option`; the Python exceptions the code raises; `Outcome` (a value, or the exception raised) |
| numerals.dfy | Numerals | decimal digit strings and their values; `str()` of an int |
| lexer.dfy | Lexer | the token groups and the scanner as functions; the imperative `GenerateTokens` loop, proved equal to `Tokenize` |
| lexer_props.dfy | LexerProps | what the scanner yields: first match, longest relational operator, keywords beating variables, scanning stopping at the first unmatched character |
| grammar.dfy | Grammar | each `BasicParser` rule as a function of a cursor (`tok`, `nexttok`, the tokens still to come), returning the parse or the exception |
| parser.dfy | Parser | class `BasicParser` with fields `tokens`, `tok` and `nexttok`; every method updates them in place and is proved to agree with its `Grammar` function |
| grammar_props.dfy | GrammarProps | precedence and left associativity of `+ - * /` for any sum of products of variables |
| parse_cases.dfy | ParseCases | the branches of `factor`, `expr_list`, `kw_let`, `statement` and `line`, one lemma each |
| parse_examples.dfy | ParseExamples | whole lines: `A-B-C`, `A+B*C`, the crashes of `PRINT 0`, `PRINT 1,`, a leading `THEN` and a fractional line number |
| basic_types.dfy | BasicTypes | the node classes as datatypes; `repr` |
| basic_types_props.dfy | BasicTypesProps | the six `Relop` classes; facts about `repr` |
| semantics.dfy | Semantics | the Python values; `Eval`, what each `visit_` method does to a node and the state (table and printed lines) |
| evaluator.dfy | Evaluation | class `Evaluator` holding the table and the printed lines; every `visit_` method proved to agree with `Eval` |
| semantics_props.dfy | SemanticsProps | the initial table; floor division; the arithmetic and comparison operators |
| state_props.dfy | StateProps | frame properties of the visits; `Assign`, `If`, `Print`, `Let`, the no-op keywords, `LineNum` |

### How Python is modelled

- **The scanner.** The `re` scanner object is modelled by the input it has not consumed yet. `Match` looks at the start of that input, and a match consumes its lexeme.
- **Exceptions.** A Python exception is `Raise(e)` of an `Outcome`. The model keeps the exception's class and the message the code gives it.
- **Crashes the code does not intend are modelled as they happen:**
  - `NameError` from the misspelt `SyntexError` in `try_int`;
  - `IndexError` when `expr_list` ends with an empty list;
  - `AttributeError` from `None.type` after a trailing comma;
  - `UnboundLocalError` for `ret_val` after the keyword `THEN`.
- **The parser's output.** It is a `Parsed` value: an int, a str, a tuple or None. Truthiness follows Python, so `0`, `''`, `()` and None are falsy.
- **Evaluator values.** A value is an int, a str, a bool or None, with Python's operator rules:
  - a bool counts as 0 or 1;
  - `str + str` concatenates;
  - `str * int` repeats;
  - `//` rounds towards minus infinity;
  - `<` between two strs compares code points;
  - any other mix raises `TypeError`.
- **Table keys.** A dict identifies `True` with `1`, so keys are normalised by `Key`.
- **State survives an exception.** Every visit yields its outcome together with the state after it, so a store made before an exception stays in the table.

### Where the code departs from its intended behaviour (the model follows the code)

- **Scanning.** Scanning stops silently at the first character no pattern matches; no lexical error is raised.
- **Table values.** The symbol table may hold any value, not only ints. `Assign` stores whatever its right side evaluates to, under whatever key its left side evaluates to.
- **Failed statements.** A failed statement does not always leave the table as it was. A store made by an `Assign` nested inside an operand stays there. Sides without effects do leave the table untouched (`StateProps.AssignEffectFree`).
- **Missing names.** A `Var` holding a name that is not a key raises `KeyError`; there is no default value.
- **PRINT alone.** `PRINT` with nothing after it gives `('PRINT', '')`, not an empty print list (`ParseCases.KwPrintCases`).
- **LIST alone.** `LIST` with nothing after it gives the bare str `'LIST'`, not a pair with an absent line number (`ParseCases.KwListCases`).
- **GOSUB at the end of the input.** `GOSUB` with nothing after it raises `SyntaxError('Expected NUMBER or LPAREN')` from `factor`, not `'Expected EXPRESSION'` (`ParseCases.KwGosubCases`).

## Model

| member | source | states |
|---|---|---|
| Numerals.DigitValue | pyTBasic/parser.py:340 | a digit character's value is below ten |
| Numerals.DigitChar | pyTBasic/parser.py:340 | the digit character for a value below ten is a digit with that value |
| Numerals.ShowNat | pyTBasic/evaluator.py:64 | str() of a natural number is a non-empty digit string without a leading zero |
| Numerals.ShowInt | pyTBasic/evaluator.py:64 | str() of an int is non-empty and starts with '-' exactly when the int is negative |
| Numerals.DigitsValueOfShowNat | pyTBasic/evaluator.py:64 | reading back str() of a natural number gives the number |
| Numerals.ShowIntInjective | pyTBasic/evaluator.py:64 | two ints with the same str() are equal |
| Lexer.KeywordLength | pyTBasic/parser.py:46 | the length of the matched keyword never exceeds the text |
| Lexer.KeywordLengthFinds | pyTBasic/parser.py:46 | a non-zero length is that of a keyword the text starts with, the first in order; zero means the text starts with none |
| Lexer.QuoteAt | pyTBasic/parser.py:47 | the closing quote found lies inside the text |
| Lexer.QuoteAtFinds | pyTBasic/parser.py:47 | the position found holds the first '"' after the opening one; with none found there is no '"' |
| Lexer.DigitRun | pyTBasic/parser.py:49 | a run of digits stays inside the text |
| Lexer.DigitRunIsGreedy | pyTBasic/parser.py:49 | the run holds only digits and is followed by a non-digit or the end |
| Lexer.SpaceRun | pyTBasic/parser.py:57 | a run of whitespace stays inside the text |
| Lexer.SpaceRunIsGreedy | pyTBasic/parser.py:57 | the run holds only whitespace and is followed by a non-space or the end |
| Lexer.NumLength | pyTBasic/parser.py:49 | the NUM match never exceeds the text |
| Lexer.RelopLength | pyTBasic/parser.py:56 | a relational operator match is one or two characters of the text |
| Lexer.FirstMatch | pyTBasic/parser.py:61-63 | a match of the alternation is non-empty and inside the text |
| Lexer.EmitAllCons | pyTBasic/parser.py:74-80 | the tokens yielded for a list of matches are those of the first match, then the rest |
| Lexer.ScanUnfold | pyTBasic/parser.py:74-75 | where a group matches at the start of the unread input, its lexeme, of positive length, is the next one of the scan and the scan goes on after it |
| Lexer.Match | pyTBasic/parser.py:74 | the method reports a match exactly when the alternation matches at the start of the unread input, with the group and length of the first group that matches |
| Lexer.EmitToken | pyTBasic/parser.py:75-80 | whitespace yields nothing, a variable is yielded renamed to `V_`, any other lexeme as it is |
| Lexer.StepKeepsYield | pyTBasic/parser.py:74-80 | yielding the first lexeme's tokens keeps the tokens yielded so far plus those still to come equal to the whole result |
| Lexer.GenerateTokens | pyTBasic/parser.py:68-80 | the scanning loop returns exactly the tokens of `Tokenize` |
| LexerProps.KeywordIsLexeme | pyTBasic/parser.py:46 | a keyword match is one of the twelve keywords |
| LexerProps.StringIsLexeme | pyTBasic/parser.py:47 | a STRNG match starts and ends with '"' and has none inside |
| LexerProps.NumberIsLexeme | pyTBasic/parser.py:49 | a NUM match is digits, or optional digits, a dot and digits |
| LexerProps.RelopIsLexeme | pyTBasic/parser.py:56 | a RELOP match is one of the seven operators |
| LexerProps.OperatorIsLexeme | pyTBasic/parser.py:50-59 | each single-character group matches exactly its character; WS a non-empty run of whitespace |
| LexerProps.FirstMatchIsLexeme | pyTBasic/parser.py:46-63 | whatever group matches, the matched text is a lexeme of that group |
| LexerProps.ScanIsLexemes | pyTBasic/parser.py:73-75 | every scanned token is a lexeme of its group |
| LexerProps.EmitAllYields | pyTBasic/parser.py:76-80 | from lexemes, no WS token is yielded and each VAR is yielded as `V_` and one capital letter |
| LexerProps.TokenizeYields | pyTBasic/parser.py:68-80 | every token generate_tokens yields is a non-WS lexeme, and every VAR has the value `V_` and one capital letter |
| LexerProps.KeywordsPrefixFree | pyTBasic/parser.py:46 | no keyword is a proper prefix of another |
| LexerProps.KeywordWins | pyTBasic/parser.py:46-61 | text starting with a keyword matches that whole keyword, not a VAR |
| LexerProps.VarOnlyOffKeywords | pyTBasic/parser.py:46-61 | a VAR match is one capital letter where no keyword starts |
| LexerProps.KeywordNeedsUpper | pyTBasic/parser.py:46 | no keyword matches unless the text starts with a capital letter |
| LexerProps.RelopLongest | pyTBasic/parser.py:56 | `<>`, `><`, `<=` and `>=` match as two-character operators, before `<` or `>` |
| LexerProps.ScanCoversPrefix | pyTBasic/parser.py:73-74 | the scanned tokens spell a prefix of the text, and nothing matches where they stop |
| LexerProps.TryIntOfNumLexeme | pyTBasic/parser.py:338-343 | a NUM lexeme is all digits exactly when it has no dot |
| Grammar.Advance | pyTBasic/parser.py:100-102 | the lookahead becomes `tok`, one pending token is consumed, and the generator stays exhausted once exhausted |
| Grammar.Accept | pyTBasic/parser.py:104-110 | true exactly when the lookahead has the type; then one token is consumed, otherwise nothing changes |
| Grammar.Expect | pyTBasic/parser.py:112-115 | raises SyntaxError('Expected ' + type) exactly when accept fails, and otherwise consumes as accept does |
| Grammar.TryInt | pyTBasic/parser.py:338-343 | succeeds exactly on digit strings, with the int the digits spell; otherwise raises NameError for `SyntexError` |
| Grammar.StripLeft | pyTBasic/parser.py:251-255 | removes exactly the leading quotes |
| Grammar.StripRight | pyTBasic/parser.py:251-255 | removes exactly the trailing quotes |
| Grammar.StripItems | pyTBasic/parser.py:251-252 | each str item is quote-stripped and every other item is kept |
| Grammar.Factor | pyTBasic/parser.py:301-336 | never consumes more tokens than are pending |
| Grammar.TermTail | pyTBasic/parser.py:292-298 | never consumes more tokens than are pending |
| Grammar.Term | pyTBasic/parser.py:287-299 | never consumes more tokens than are pending |
| Grammar.ExprTail | pyTBasic/parser.py:278-284 | never consumes more tokens than are pending |
| Grammar.Expr | pyTBasic/parser.py:272-285 | never consumes more tokens than are pending |
| Grammar.ExprListLoop | pyTBasic/parser.py:241-245 | keeps the items gathered so far as a prefix, and stops before a STRNG or COM |
| Grammar.ExprList | pyTBasic/parser.py:231-257 | on success no token is left pending |
| Grammar.ExprListEnd | pyTBasic/parser.py:247-257 | succeeds only with nothing pending |
| Grammar.VarListLoop | pyTBasic/parser.py:264-269 | keeps the names gathered so far as a prefix |
| Grammar.VarList | pyTBasic/parser.py:259-270 | returns a tuple |
| Grammar.KwPrint | pyTBasic/parser.py:172-178 | never consumes more tokens than are pending |
| Grammar.KwIf | pyTBasic/parser.py:180-189 | consumes at least the RELOP and the THEN |
| Grammar.KwGoto | pyTBasic/parser.py:191-196 | never consumes more tokens than are pending |
| Grammar.KwInput | pyTBasic/parser.py:198-201 | never consumes more tokens than are pending |
| Grammar.KwLet | pyTBasic/parser.py:203-212 | consumes at least the VAR and the RELOP |
| Grammar.KwGosub | pyTBasic/parser.py:214-219 | never consumes more tokens than are pending |
| Grammar.KwList | pyTBasic/parser.py:221-229 | never consumes more tokens than are pending |
| Grammar.Statement | pyTBasic/parser.py:131-170 | never consumes more tokens than are pending |
| Grammar.Line | pyTBasic/parser.py:119-129 | never consumes more tokens than are pending |
| Parser.BasicParser.constructor | pyTBasic/parser.py:84-91 | a parser starts with no token consumed and none pending |
| Parser.BasicParser.Parse | pyTBasic/parser.py:93-98 | loads the first lookahead and parses one line, with the result of `Grammar.Parse` |
| Parser.BasicParser.Advance | pyTBasic/parser.py:100-102 | moves the fields exactly as `Grammar.Advance` |
| Parser.BasicParser.Accept | pyTBasic/parser.py:104-110 | returns and moves the fields exactly as `Grammar.Accept` |
| Parser.BasicParser.Expect | pyTBasic/parser.py:112-115 | agrees with `Grammar.Expect` in the outcome and the fields |
| Parser.BasicParser.Line | pyTBasic/parser.py:119-129 | agrees with `Grammar.Line` in the outcome and the fields |
| Parser.BasicParser.Statement | pyTBasic/parser.py:131-170 | agrees with `Grammar.Statement` in the outcome and the fields |
| Parser.BasicParser.KwPrint | pyTBasic/parser.py:172-178 | agrees with `Grammar.KwPrint` in the outcome and the fields |
| Parser.BasicParser.KwIf | pyTBasic/parser.py:180-189 | agrees with `Grammar.KwIf` in the outcome and the fields |
| Parser.BasicParser.KwGoto | pyTBasic/parser.py:191-196 | agrees with `Grammar.KwGoto` in the outcome and the fields |
| Parser.BasicParser.KwInput | pyTBasic/parser.py:198-201 | agrees with `Grammar.KwInput` in the outcome and the fields |
| Parser.BasicParser.KwLet | pyTBasic/parser.py:203-212 | agrees with `Grammar.KwLet` in the outcome and the fields |
| Parser.BasicParser.KwGosub | pyTBasic/parser.py:214-219 | agrees with `Grammar.KwGosub` in the outcome and the fields |
| Parser.BasicParser.KwList | pyTBasic/parser.py:221-229 | agrees with `Grammar.KwList` in the outcome and the fields |
| Parser.BasicParser.ExprList | pyTBasic/parser.py:231-257 | the append loop agrees with `Grammar.ExprList` in the outcome and the fields |
| Parser.BasicParser.VarList | pyTBasic/parser.py:259-270 | the append loop agrees with `Grammar.VarList` in the outcome and the fields |
| Parser.BasicParser.Expr | pyTBasic/parser.py:272-285 | the accumulator loop agrees with `Grammar.Expr` in the outcome and the fields |
| Parser.BasicParser.Term | pyTBasic/parser.py:287-299 | the accumulator loop agrees with `Grammar.Term` in the outcome and the fields |
| Parser.BasicParser.Factor | pyTBasic/parser.py:301-336 | agrees with `Grammar.Factor` in the outcome and the fields |
| GrammarProps.NextOfPending | pyTBasic/parser.py:100-102 | with a token pending, it is the lookahead, and advancing leaves the rest pending |
| GrammarProps.NothingPending | pyTBasic/parser.py:102 | with nothing pending the lookahead is None |
| GrammarProps.FactorOfVar | pyTBasic/parser.py:325-326 | a VAR token is a factor by its value, and is consumed |
| GrammarProps.TermTailStep | pyTBasic/parser.py:292-298 | one `*` or `/` round wraps the accumulator as the left operand |
| GrammarProps.TermTailStops | pyTBasic/parser.py:292 | the term loop stops without change before anything but `*` and `/` |
| GrammarProps.ProductTreeSnoc | pyTBasic/parser.py:295-298 | the left-associative tree of a longer product has the last operator at its root |
| GrammarProps.TermTailRound | pyTBasic/parser.py:292-298 | one round of the term loop moves one operator and factor into the left-associated accumulator |
| GrammarProps.TermTailOfProduct | pyTBasic/parser.py:292-298 | the term loop over the rest of a product builds the left-associated tree |
| GrammarProps.TermOfProduct | pyTBasic/parser.py:287-299 | term parses any product of variables into its left-associated tree and stops at the first non-`*`/`/` |
| GrammarProps.ExprTailStops | pyTBasic/parser.py:278 | the expr loop stops without change before anything but the four operators |
| GrammarProps.SumTreeSnoc | pyTBasic/parser.py:281-284 | the left-associative tree of a longer sum has the last `+`/`-` at its root |
| GrammarProps.AddTokensEndProduct | pyTBasic/parser.py:292 | a product ends where a `+` or `-` follows |
| GrammarProps.ExprTailRound | pyTBasic/parser.py:278-284 | one round of the expr loop parses a whole product as the right operand |
| GrammarProps.ExprTailOfSum | pyTBasic/parser.py:278-284 | the expr loop over the rest of a sum builds the left-associated tree |
| GrammarProps.ExprOfSum | pyTBasic/parser.py:272-299 | expr parses any sum of products of variables with `*`/`/` binding tighter and all four operators left-associative |
| ParseCases.FactorNone | pyTBasic/parser.py:331-333 | factor returns None without consuming exactly when a token is pending that no other branch takes |
| ParseCases.FactorAtEnd | pyTBasic/parser.py:334-335 | at the end of input factor raises SyntaxError('Expected NUMBER or LPAREN') |
| ParseCases.FactorUnaryPlus | pyTBasic/parser.py:306-311 | a unary `+` before a NUM or VAR is dropped |
| ParseCases.FactorUnaryMinusNum | pyTBasic/parser.py:315-318 | `-` then NUM gives the negated int, or the same crash |
| ParseCases.FactorUnaryMinusVar | pyTBasic/parser.py:319-320 | `-` then VAR gives `'-'` followed by the variable's name |
| ParseCases.FactorSignNeedsOperand | pyTBasic/parser.py:306-322 | a sign before anything else raises SyntaxError('Expected NUM or VAR') |
| ParseCases.FactorParen | pyTBasic/parser.py:327-330 | a closed parenthesis gives the inner expression's value |
| ParseCases.FactorParenUnclosed | pyTBasic/parser.py:329 | a missing `)` raises SyntaxError('Expected RPAREN') |
| ParseCases.FactorParenRaises | pyTBasic/parser.py:328 | an exception inside the parentheses propagates |
| ParseCases.StripQuoted | pyTBasic/parser.py:251-255 | strip('"') of a literal gives back its inner text |
| ParseCases.Literals | pyTBasic/parser.py:243 | each literal item is the token's text, quotes included |
| ParseCases.Texts | pyTBasic/parser.py:251-252 | each item is the inner text |
| ParseCases.ExprOfNonOperand | pyTBasic/parser.py:272-333 | before a token that starts no operand, expr returns None without consuming |
| ParseCases.ExprOfNumber | pyTBasic/parser.py:323-343 | a lone digit NUM is an expression with its int value |
| ParseCases.ExprListLoopStep | pyTBasic/parser.py:241-243 | a comma then a string literal appends the literal |
| ParseCases.ExprListLoopOfStrings | pyTBasic/parser.py:241-245 | the loop over `, "s"` pairs appends every literal in order and consumes everything |
| ParseCases.ExprListItemsOfStrings | pyTBasic/parser.py:237-245 | a list of string literals gathers exactly the literals |
| ParseCases.StripLiterals | pyTBasic/parser.py:251-252 | stripping the gathered literals gives their inner texts |
| ParseCases.ExprListOfStrings | pyTBasic/parser.py:231-257 | PRINT's list of string literals is one bare string, or a tuple of the strings in order |
| ParseCases.ExprListNeedsComma | pyTBasic/parser.py:247-248 | a token left after the loop raises SyntaxError('Expected COMA') |
| ParseCases.ExprListNoItem | pyTBasic/parser.py:237-254 | a falsy first value with nothing after it raises IndexError |
| ParseCases.KwLetNeedsVar | pyTBasic/parser.py:205 | LET not followed by a VAR raises SyntaxError('Expected VAR') |
| ParseCases.KwLetNeedsRelop | pyTBasic/parser.py:207 | LET X not followed by a RELOP raises SyntaxError('Expected RELOP') |
| ParseCases.KwLetNeedsEqual | pyTBasic/parser.py:209-210 | a RELOP other than `=` raises SyntaxError('Expected EQUAL') |
| ParseCases.KwLetAssigns | pyTBasic/parser.py:203-212 | LET X = expr gives ('LET', ('=', X, expr)), or the expression's exception |
| ParseCases.KwPrintCases | pyTBasic/parser.py:172-178 | PRINT at the end of the input gives ('PRINT', ''); otherwise ('PRINT', expr_list), or expr_list's exception |
| ParseCases.KwPrintOfStrings | pyTBasic/parser.py:172-178 | PRINT over string literals gives ('PRINT', text) for one and ('PRINT', (texts...)) for several |
| ParseCases.KwIfThen | pyTBasic/parser.py:180-189 | IF l relop r kw s gives ('IF', (relop, l, r), 'THEN', s) for any keyword kw, or the THEN statement's exception |
| ParseCases.KwIfNeedsRelop | pyTBasic/parser.py:180-183 | the condition must go on with a RELOP, else SyntaxError('Expected RELOP') |
| ParseCases.KwIfNeedsKeyword | pyTBasic/parser.py:180-186 | the compared expressions must be followed by a KWORD, else SyntaxError('Expected KWORD') |
| ParseCases.KwGotoCases | pyTBasic/parser.py:191-196 | GOTO at the end of the input raises SyntaxError('Expected NUM'); otherwise ('GOTO', expr), or expr's exception |
| ParseCases.KwGotoNumber | pyTBasic/parser.py:191-196 | GOTO n gives ('GOTO', n) with the int value of the digits |
| ParseCases.KwGosubCases | pyTBasic/parser.py:214-219 | GOSUB raises 'Expected NUMBER or LPAREN' at the end of the input and 'Expected EXPRESSION' for a falsy or missing expression; otherwise ('GOSUB', e) |
| ParseCases.KwListCases | pyTBasic/parser.py:221-229 | LIST alone gives 'LIST', LIST n gives ('LIST', n); any other token raises 'Expected NUM', a fractional number NameError |
| ParseCases.VarListStops | pyTBasic/parser.py:259-270 | before a non-VAR token, var_list takes nothing and consumes nothing, and INPUT gets () |
| ParseCases.VarListNeedsComma | pyTBasic/parser.py:264-267 | a variable followed by a token other than a comma raises SyntaxError('Expected COM') in var_list and INPUT |
| ParseCases.VarListLoopStep | pyTBasic/parser.py:264-267 | one round over a variable and its comma appends the name and consumes both tokens |
| ParseCases.VarListLoopLast | pyTBasic/parser.py:264-269 | the last variable of the input is appended and ends the loop |
| ParseCases.VarListLoopOfNames | pyTBasic/parser.py:259-270 | over `x1, ..., xn` the loop appends every name in order and consumes all tokens |
| ParseCases.KwInputOfNames | pyTBasic/parser.py:198-201 | INPUT x1, ..., xn gives ('INPUT', (x1, ..., xn)) |
| ParseCases.StatementExpr | pyTBasic/parser.py:168-169 | a statement not starting with a keyword is an expression |
| ParseCases.LineOfStatement | pyTBasic/parser.py:127-128 | a line without a leading NUM is a statement |
| ParseCases.StatementDispatch | pyTBasic/parser.py:145-163 | each of PRINT, IF, GOTO, INPUT, LET, GOSUB and LIST goes to its own rule |
| ParseCases.StatementBare | pyTBasic/parser.py:158-167 | RETURN, CLEAR, RUN and END are returned as their bare names |
| ParseCases.StatementThen | pyTBasic/parser.py:145-170 | any other keyword raises UnboundLocalError for `ret_val` |
| ParseCases.OnlyThenUndispatched | pyTBasic/parser.py:145-167 | THEN is the one keyword the dispatch leaves out |
| ParseCases.LineNumbered | pyTBasic/parser.py:123-126 | a leading NUM pairs its int with the statement; a fractional one raises NameError |
| ParseExamples.Load | pyTBasic/parser.py:93-97 | loading a token list gives a cursor with exactly those tokens pending |
| ParseExamples.ParseIsParseTokens | pyTBasic/parser.py:93-98 | parsing a text is parsing its tokens |
| ParseExamples.KeywordLine | pyTBasic/parser.py:123-128 | a line starting with a keyword is that statement |
| ParseExamples.ABCSpelling | pyTBasic/parser.py:272-285 | `A - B - C` spells the sum of three single-variable products |
| ParseExamples.ABCGrouping | pyTBasic/parser.py:281-284 | the left-associated tree of that sum is (A - B) - C |
| ParseExamples.MinusGroupsLeft | pyTBasic/parser.py:272-285 | A-B-C parses to ('-', ('-', 'V_A', 'V_B'), 'V_C') |
| ParseExamples.APlusBTimesCSpelling | pyTBasic/parser.py:272-299 | `A + B * C` spells a sum of A and the product B * C |
| ParseExamples.TimesBindsTighter | pyTBasic/parser.py:272-299 | A+B*C parses to ('+', 'V_A', ('*', 'V_B', 'V_C')) |
| ParseExamples.PrintZeroIndexError | pyTBasic/parser.py:237-254 | PRINT followed by a zero NUM raises IndexError |
| ParseExamples.TrailingCommaAttributeError | pyTBasic/parser.py:241-244 | PRINT n, raises AttributeError |
| ParseExamples.ThenUnbound | pyTBasic/parser.py:145-170 | a line starting with THEN raises UnboundLocalError |
| ParseExamples.FractionalLineNumber | pyTBasic/parser.py:123-124 | a fractional leading line number raises NameError |
| ParseExamples.OnePointFive | pyTBasic/parser.py:338-343 | `1.5` is not a digit string |
| ParseExamples.MissingComma | pyTBasic/parser.py:247-248 | PRINT "q" X raises SyntaxError('Expected COMA') |
| ParseExamples.EndIgnoresRest | pyTBasic/parser.py:166-167 | END returns 'END' whatever follows it |
| ParseExamples.GosubZero | pyTBasic/parser.py:216-218 | GOSUB 0 raises SyntaxError('Expected EXPRESSION') |
| ParseExamples.LetNeedsEqual | pyTBasic/parser.py:209-210 | LET X < ... raises SyntaxError('Expected EQUAL') |
| ParseExamples.EmptyParens | pyTBasic/parser.py:327-333 | `()` parses to None |
| ParseExamples.ScanZero | pyTBasic/parser.py:68-80 | "0" scans as one NUM |
| ParseExamples.ScanSpaceZero | pyTBasic/parser.py:68-80 | " 0" scans as WS then NUM |
| ParseExamples.ScanPrintZero | pyTBasic/parser.py:61-63 | "PRINT 0" scans as KWORD, WS, NUM |
| ParseExamples.TokensOfPrintZero | pyTBasic/parser.py:68-80 | generate_tokens("PRINT 0") yields the KWORD and the NUM only |
| ParseExamples.ParsePrintZero | pyTBasic/parser.py:93-98 | parse("PRINT 0") raises IndexError |
| BasicTypes.CountRelops | pyTBasic/basic_types.py:37-88 | the count is the number of positions holding a relational class |
| BasicTypesProps.BinaryClassesComplete | pyTBasic/basic_types.py:37-156 | the list of binary classes holds each class exactly once |
| BasicTypesProps.SixRelops | pyTBasic/basic_types.py:37-156 | exactly six classes are Relops, and LineNum, Assign, If and the arithmetic ones are not |
| BasicTypesProps.BinaryNameInjective | pyTBasic/basic_types.py:37-156 | distinct binary classes have distinct names |
| BasicTypesProps.UnaryNameInjective | pyTBasic/basic_types.py:114-156 | distinct unary classes have distinct names |
| BasicTypesProps.ReprFramed | pyTBasic/basic_types.py:7-34 | repr of any node starts with its class name and '(' and ends with ')' |
| BasicTypesProps.ReprShowsLeft | pyTBasic/basic_types.py:32-34 | repr of a binary node with a node on the left shows that node's repr right after the '(' |
| BasicTypesProps.ReprHidesValueType | pyTBasic/basic_types.py:7-8 | String('1') and String(1) are different nodes with the same repr |
| BasicTypesProps.ReprOfString | pyTBasic/basic_types.py:7-8 | repr(String('hi')) is `String(hi)` |
| BasicTypesProps.Reprs | pyTBasic/basic_types.py:21-22 | the i-th entry is the repr of the i-th item |
| BasicTypesProps.JoinCommaCons | pyTBasic/basic_types.py:21-22 | joining a part in front of other parts puts one `, ` between them |
| BasicTypesProps.JoinReprsIsJoin | pyTBasic/basic_types.py:21-22 | the list's text is `', '.join` of its items' reprs |
| BasicTypesProps.ReprsCons | pyTBasic/basic_types.py:21-22 | the reprs of a list are the first item's repr, then the rest's |
| BasicTypesProps.ReprOfList | pyTBasic/basic_types.py:21-22 | a unary node over any list shows, in brackets, each item's repr in order, joined by ', ' |
| BasicTypesProps.ReprOfPlainOperands | pyTBasic/basic_types.py:21-34 | a binary node shows repr of plain operands, a unary node str |
| Semantics.Key | pyTBasic/evaluator.py:88 | a dict key is never a bool |
| Semantics.Repeat | pyTBasic/evaluator.py:39-40 | str * k has k copies' length, and is empty for k <= 0 |
| Evaluation.Evaluator.constructor | pyTBasic/evaluator.py:7 | starts with the table A to Z, all 0, and nothing printed |
| Evaluation.Evaluator.Visit | pyTBasic/evaluator.py:11-16 | dispatches on the node's class, with the outcome and state of `Eval` |
| Evaluation.Evaluator.VisitOperand | pyTBasic/evaluator.py:11-20 | a node operand is visited; a list or plain value raises RuntimeError('No visit_<type> method') |
| Evaluation.Evaluator.GenericVisit | pyTBasic/evaluator.py:18-20 | raises RuntimeError naming visit_ and the type, as Eval does for a node without a handler |
| Evaluation.Evaluator.VisitNum | pyTBasic/evaluator.py:27-28 | returns the stored value, agreeing with Eval |
| Evaluation.Evaluator.VisitString | pyTBasic/evaluator.py:24-25 | returns the stored value, agreeing with Eval |
| Evaluation.Evaluator.VisitVar | pyTBasic/evaluator.py:30-31 | returns the table entry of the name, or raises KeyError for a name that is not a key, agreeing with Eval |
| Evaluation.Evaluator.VisitOperator | pyTBasic/evaluator.py:33-61 | the left side, then the right side, then the operator, with the outcome and state of `Eval` |
| Evaluation.Evaluator.VisitAssign | pyTBasic/evaluator.py:87-88 | the right side first, then the key, then the store, as `Eval` |
| Evaluation.Evaluator.VisitIf | pyTBasic/evaluator.py:68-76 | agrees with `Eval` in the outcome and the state |
| Evaluation.Evaluator.VisitLet | pyTBasic/evaluator.py:84-85 | agrees with `Eval` in the outcome and the state |
| Evaluation.Evaluator.VisitPrint | pyTBasic/evaluator.py:63-66 | the loop over the items agrees with `Eval`: one printed line on success, none otherwise |
| SemanticsProps.InitialTableKeys | pyTBasic/evaluator.py:7 | the initial table has exactly the keys 'A' to 'Z', each 0 |
| SemanticsProps.ParserNamesMissing | pyTBasic/evaluator.py:7-31 | any longer name, such as `V_X` or `-X`, raises KeyError in a fresh table |
| SemanticsProps.FreshVarIsZero | pyTBasic/evaluator.py:7-31 | a letter reads 0 in a fresh table |
| SemanticsProps.BoolKeysAlias | pyTBasic/evaluator.py:88 | True and 1 are the same key; '1' and 1 are not |
| SemanticsProps.FloorDivIsFloor | pyTBasic/evaluator.py:42-43 | `//` gives the quotient rounded towards minus infinity |
| SemanticsProps.FloorDivUnique | pyTBasic/evaluator.py:42-43 | no other int has that property |
| SemanticsProps.FloorDivNegative | pyTBasic/evaluator.py:42-43 | -7 // 2 and 7 // -2 are -4, and -7 // -2 is 3 |
| SemanticsProps.IntArithmetic | pyTBasic/evaluator.py:33-43 | on ints, Add, Sub and Mul give + - *, and Div gives the floor quotient, failing exactly on a zero divisor |
| SemanticsProps.DivByZero | pyTBasic/evaluator.py:42-43 | a Div node whose right side is 0 raises ZeroDivisionError |
| SemanticsProps.RepeatContents | pyTBasic/evaluator.py:39-40 | str * k is k copies of the str, one after the other |
| SemanticsProps.StrArithmetic | pyTBasic/evaluator.py:33-43 | on strs, + concatenates and * repeats in either order; - and // raise TypeError |
| SemanticsProps.StrLessIrreflexive | pyTBasic/evaluator.py:57-58 | no str is less than itself |
| SemanticsProps.StrLessAsymmetric | pyTBasic/evaluator.py:57-58 | string order is asymmetric |
| SemanticsProps.StrLessTotal | pyTBasic/evaluator.py:57-58 | of two distinct strs one is less |
| SemanticsProps.StrLessTransitive | pyTBasic/evaluator.py:57-58 | string order is transitive |
| SemanticsProps.PyEqEquivalence | pyTBasic/evaluator.py:45-46 | == is an equivalence that identifies True with 1 but not '1' with 1 |
| SemanticsProps.RelopsConsistent | pyTBasic/evaluator.py:45-61 | == and != never fail and disagree; the order operators fail exactly on values Python cannot order, and otherwise exactly one of <, ==, > holds, with >= and <= their negations |
| SemanticsProps.IntRelops | pyTBasic/evaluator.py:45-61 | on ints each relational class gives the matching integer comparison |
| StateProps.EvalExtends | pyTBasic/evaluator.py:63-88 | no visit removes a key or a printed line |
| StateProps.EvalOperandExtends | pyTBasic/evaluator.py:11-16 | nor does the visit of an operand |
| StateProps.PrintItemsExtends | pyTBasic/evaluator.py:64 | nor does gathering what Print prints |
| StateProps.PrintLoopExtends | pyTBasic/evaluator.py:64 | nor does the item loop of Print |
| StateProps.EffectFreeKeepsState | pyTBasic/evaluator.py:24-106 | visiting a node with no Assign or Print inside leaves the whole state unchanged, even when it raises |
| StateProps.EffectFreeOperandKeepsState | pyTBasic/evaluator.py:11-20 | so does visiting such an operand |
| StateProps.AssignRightFirst | pyTBasic/evaluator.py:87-88 | a failing right side ends Assign before its left side is visited |
| StateProps.AssignStoresOneKey | pyTBasic/evaluator.py:87-88 | a successful Assign stores the right value under the key of the left value and changes no other entry and no output |
| StateProps.AssignEffectFree | pyTBasic/evaluator.py:87-88 | with effect-free sides Assign stores exactly one entry, or raises the right side's (or else the left side's) exception with the state untouched |
| StateProps.LetAssignString | pyTBasic/evaluator.py:84-88 | Let(Assign(String(name), e)) stores e's value under name |
| StateProps.AssignThroughVar | pyTBasic/evaluator.py:30-88 | with a Var on the left the key is the variable's current value |
| StateProps.LetVisitsOperand | pyTBasic/evaluator.py:84-85 | Let returns None after its operand's visit, or raises that visit's exception |
| StateProps.IfCases | pyTBasic/evaluator.py:68-76 | If without a handler for its left raises SyntaxError untouched; otherwise a truthy left gives visit(right) and a falsy one None |
| StateProps.IfSyntaxErrorOnlyWithoutHandler | pyTBasic/evaluator.py:68-76 | with a handler on the left, If's SyntaxError can only come from inside a side |
| StateProps.IfGreaterThenLet | pyTBasic/evaluator.py:51-88 | IF X > 2 THEN LET Y = 3 stores Y exactly when X > 2 |
| StateProps.ConcatSnoc | pyTBasic/evaluator.py:66 | ''.join of one more part ends with it |
| StateProps.ItemStrs | pyTBasic/evaluator.py:64 | one str per item |
| StateProps.ItemStrsAt | pyTBasic/evaluator.py:64 | the i-th str is str() of the i-th item's value |
| StateProps.PrintLoopKeepsState | pyTBasic/evaluator.py:64 | the item loop over effect-free items keeps the state |
| StateProps.PrintLoopCollects | pyTBasic/evaluator.py:64 | the loop succeeds exactly when every item has a value, and collects their strs in order |
| StateProps.PrintLoopFirstFailure | pyTBasic/evaluator.py:64 | a failing loop raises the first failing item's exception |
| StateProps.PrintEffectFree | pyTBasic/evaluator.py:63-66 | Print prints exactly one line, the concatenation of str() of each item's value without separator, or prints nothing |
| StateProps.PrintFirstFailure | pyTBasic/evaluator.py:63-66 | a failing Print raises its first failing item's exception and leaves the state |
| StateProps.PrintOperands | pyTBasic/evaluator.py:63-66 | Print([]) and Print('') print an empty line; a non-empty str operand raises RuntimeError, anything else TypeError |
| StateProps.PrintStringAndVar | pyTBasic/evaluator.py:63-66 | PRINT "B is ", B prints `B is ` followed by B's value |
| StateProps.ControlKeywordsNoOp | pyTBasic/evaluator.py:78-106 | Goto, Input, Gosub, Return, Clear, List, Run and End return None and change nothing |
| StateProps.LineNumRaises | pyTBasic/evaluator.py:11-20 | LineNum has no handler and raises RuntimeError('No visit_LineNum method') |
| StateProps.ListOperandRaises | pyTBasic/evaluator.py:11-20 | a list operand raises RuntimeError('No visit_list method') |
| StateProps.NoneOperandRaises | pyTBasic/evaluator.py:11-20 | a None operand raises RuntimeError('No visit_NoneType method') |

## Left out

- `main.py` is not part of this model. It is an interactive read-print loop and is pure I/O.
- `PrintParseTree` only prints nodes.
- The call to the builtin `print`: a printed line is appended to the `printed` field of the Evaluator (and to `out` in the semantics).
- Python's `re` engine is replaced by a hand-written scanner with the same ordered alternatives. `\d` is modelled as the ASCII digits only. `\s` is modelled as the characters `str.isspace()` accepts.
- Generator laziness: tokens are a sequence the parser's cursor walks. The result is the same, since the generator has no side effects.
- The parser's fields after an exception are not modelled; the exception ends the parse.
- Grammar.TryInt: `int()` is modelled on NUM lexemes only, which are all `try_int` is given. Digits are read as ASCII; the other inputs `int()` accepts are not modelled.
- BasicTypes.ReprValue: `repr` of a str is modelled as the str between single quotes. Python's choice of quote and its escaping of special characters are not modelled.
- Node identity: nodes have no `__eq__`, so Python compares them by identity. Datatypes compare by structure, so two nodes built alike are equal here. Nothing in the modelled code compares nodes.
- The abstract classes `Node`, `UnaryOperator`, `BinaryOperator` and `Relop` are not types of their own. They are the two node shapes and the `IsRelop` predicate.
- An operand is a node, a list of nodes or a plain value. A tuple, or a list holding non-nodes, is not modelled as an operand; nothing builds one.
- The module-level `symbol_table` is a field of the Evaluator. Separate Evaluator objects therefore do not share one table as they would in Python.
- Name-based dispatch through `getattr` is replaced by a match on the node's class. `LineNum` is the one class without a handler.
- Control flow for GOTO, GOSUB and the other control keywords is not modelled, because the code has none.
- Grammar.Factor, Grammar.Term, Grammar.Expr, Grammar.Statement, Grammar.Line and the other rule functions: their own contracts only bound how many tokens a rule consumes. What each rule returns is stated by the lemmas in ParseCases (for the keyword rules KwPrintCases, KwIfThen, KwGotoCases, KwGosubCases, KwListCases and KwInputOfNames, and for var_list VarListLoopOfNames and VarListNeedsComma), GrammarProps and ParseExamples, and by the parser methods that agree with them.
- GrammarProps.ExprOfSum: precedence and associativity are proved for sums of products of variables. Numbers, signs and parentheses as operands are covered separately, by ParseCases.ExprOfNumber and the Factor lemmas.
- StateProps.PrintEffectFree and StateProps.AssignEffectFree: the exact state after the visit is stated only for operands without effects. For other operands, StateProps.EvalExtends and StateProps.AssignStoresOneKey state what holds.
- The expected trees of `test/test_parser.py` are not facts about the parser, which builds tuples. They are used only for the node shapes of the evaluator examples (`Let(Assign(String('Y'), Num(3)))`, `Print([String('B is '), Var('B')])`).
