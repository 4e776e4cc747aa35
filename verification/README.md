# FFling in Dafny

FFling is a small indentation-sensitive scripting language. Its implementation has three stages, and this project models each one:

- **Lexer** (`Lexing`). It splits the source into lines at every boundary Python's `splitlines` knows, removing only a final `\n`, `\r` or `\r\n`: a line ending at another boundary (`\x0b`, `\x0c`, `\x1c`-`\x1e`, `\x85`, `\u2028`, `\u2029`) keeps that character, which the scanner skips as whitespace. It keeps a stack of indentation widths. It emits INDENT and DEDENT tokens as lines open and close levels. It scans each line into strings, numbers, keywords, identifiers and operators, and closes the stream with DEDENTs and one EOF.
- **Recursive-descent parser** (`Parsing`). It reads a statement list, blocks delimited by INDENT/DEDENT, and expressions. Expressions have two levels: `and`/`or` below a single binary level that holds all arithmetic and comparison operators with equal precedence.
- **Tree-walking interpreter** (`Interpreting`). It uses a chain of scopes and Python's operator semantics. The source carries `Break`, `Continue` and `Return` as exceptions; the model carries them as `Outcome` values (`Brk`, `Cont`, `Ret`).

Each stage is modelled twice:

- A functional specification: pure recursive functions over the token list or the program state. The lemmas are stated about these functions.
- A class whose fields the source mutates: `Lexer`, `Parser` or `Interpreter`. Its methods follow the source's loops and are proved equal to the specification.

The other modules are:

- `Ast`: the syntax tree.
- `Dicts`: Python dictionaries with insertion order, used for tables.
- `Results`: Option and Result.
- `LexerProps`, `ParserProps` and `InterpreterProps`: properties of each stage.
- `Pipeline`: properties that follow a word from the characters of a line through the lexer and the parser to the interpreter.

Errors the source raises as Python exceptions are values of the model:

- `LexError`: for `SyntaxError` in the lexer.
- `ParseError`: for `SyntaxError` in the parser. It also covers the `AttributeError` raised when a token is read past the end of the list.
- `RunError`, carried by `Outcome.Fail`: for the interpreter's `NameError`, `TypeError`, `ValueError` and `ZeroDivisionError`.

A token is a `Token`, the subset of token records whose value fits its kind (`Fits`): a NUMBER holds an integer, EOF holds None and every other kind holds its text.

Printing is modelled as an output log: one entry per `printline` call, holding the list of argument values. The model has no stdout.

Each `while` iteration and each user-function call spends one unit of a `fuel` parameter; a `for` loop over `range(n)` runs its `n` iterations without spending any. When the fuel runs out, the outcome is `Fail(OutOfFuel)`.

## Model

| member | source | states |
|---|---|---|
| Dicts.Keys | ffling/parser_ll.py:149-156 | the keys of a table, one per entry, in insertion order |
| Dicts.Get | ffling/parser_ll.py:154 | a lookup finds a value exactly when the key is one of the table's keys |
| Dicts.PutGet | ffling/parser_ll.py:154 | after `d[k] = v`, `d[k]` is `v` |
| Dicts.PutGetOther | ffling/parser_ll.py:154 | `d[k] = v` leaves every other key's value unchanged |
| Dicts.PutKeys | ffling/parser_ll.py:154 | `d[k] = v` keeps the key order; a new key goes last, an existing one keeps its place |
| Dicts.NewKeys | ffling/parser_ll.py:149-156 | the keys new to a dictionary among a list of keys: exactly those not already present, each once |
| Dicts.PutAllFirst | ffling/parser_ll.py:150-156 | assigning a first entry and then the rest is assigning all of them in order |
| Dicts.PutAllGet | ffling/parser_ll.py:154 | after assigning a list of entries, a key among them maps to the value of its last entry; every other key keeps its value |
| Dicts.PutAllKeys | ffling/parser_ll.py:154 | after assigning a list of entries, the keys are the old keys followed by the new ones, each once, in the order of their first entries |
| Dicts.PutUnique | ffling/parser_ll.py:154 | assignment never duplicates a key |
| Lexing.RunEnd | ffling/lexer.py:67-68 | a scanning loop stops inside the line, at or after its start |
| Lexing.RunEndSpec | ffling/lexer.py:67-68 | every character the loop passes satisfies the predicate, and the one it stops at (if any) does not |
| LexerProps.KeywordsAreWords | ffling/lexer.py:77-110 | every keyword of the table is shaped like a word, so the word scanner can reach each of them |
| LexerProps.OperatorShapes | ffling/lexer.py:114 | every operator has one character except `==`, and none starts with whitespace, a quote or a word character, so the scanner's earlier branches never hide one |
| Lexing.SplitLines | ffling/lexer.py:29-32 | no line holds a line feed or a carriage return, and only empty code has no lines |
| Lexing.ScanStart | ffling/lexer.py:48 | the scan of a line starts after its indentation and within the line |
| Lexing.PopCount | ffling/lexer.py:36-38 | the dedent loop pops at most the stack, and never the bottom level 0 |
| Lexing.PopCountSpec | ffling/lexer.py:36-38 | the popped levels are exactly the top levels deeper than the line; the level left on top is at most the line's width |
| Lexing.Dedents | ffling/lexer.py:44-45 | one DEDENT per popped level |
| Lexing.NewStack | ffling/lexer.py:36-42 | after a line, the stack is still rooted at 0 and its top is the line's width |
| Lexing.NewStackAscending | ffling/lexer.py:36-42 | the stack stays strictly increasing |
| Lexing.LayoutIs | ffling/lexer.py:36-45 | the new stack and the layout tokens: the unpopped levels, then an INDENT and a pushed level if the line is deeper than the top, then the DEDENTs |
| Lexing.StringStep | ffling/lexer.py:54-64 | a string literal that is scanned consumes at least its opening quote |
| Lexing.NumberStep | ffling/lexer.py:65-71 | a digit always starts a number, which consumes at least that digit |
| Lexing.WordStep | ffling/lexer.py:72-112 | a letter or underscore always starts a word, which consumes at least that character |
| Lexing.OperatorStep | ffling/lexer.py:114-125 | an operator that is found consumes at least one character |
| Lexing.ScanOne | ffling/lexer.py:50-125 | each pass of the scanning loop makes progress within the line |
| Lexing.LineStep | ffling/lexer.py:31-125 | a line that lexes leaves a stack rooted at 0 |
| Lexing.Lexer.constructor | ffling/lexer.py:13-18 | a new lexer is at line 1 with no tokens and the stack `[0]` |
| Lexing.Lexer.GetIndentLen | ffling/lexer.py:134-140 | `get_indent_len` computes the specified indentation width or tab error |
| Lexing.Lexer.OpenLine | ffling/lexer.py:36-45 | the layout code of a line updates the stack and the tokens as specified, and keeps the stack rooted and increasing |
| Lexing.Lexer.PopLevels | ffling/lexer.py:36-38 | the dedent loop pops the specified number of levels off the top and counts them |
| Lexing.Lexer.PushLevel | ffling/lexer.py:40-42 | a deeper line pushes its width and yields one INDENT; otherwise nothing changes |
| Lexing.Lexer.AppendDedents | ffling/lexer.py:44-45 | the tokens grow by exactly `n` DEDENTs |
| Lexing.Lexer.ScanLine | ffling/lexer.py:49-125 | the scanning loop appends the specified tokens of the line, or stops with its error |
| Lexing.Lexer.ScanAt | ffling/lexer.py:50-125 | one pass of the loop body agrees with the specification |
| Lexing.Lexer.ScanString | ffling/lexer.py:54-64 | the string branch agrees with the specification |
| Lexing.Lexer.ScanNumber | ffling/lexer.py:65-71 | the number branch agrees with the specification |
| Lexing.Lexer.ScanWord | ffling/lexer.py:72-112 | the word branch agrees with the specification |
| Lexing.Lexer.ScanOperator | ffling/lexer.py:114-125 | the operator branch agrees with the specification |
| Lexing.Lexer.ScanRun | ffling/lexer.py:74-75 | a `while` run loop stops where the specification says |
| Lexing.Lexer.LexLine | ffling/lexer.py:31-125 | one line updates the stack and the tokens as specified |
| Lexing.Lexer.NextLine | ffling/lexer.py:30-125 | one iteration of the loop over lines preserves the remaining result |
| Lexing.Lexer.CloseAll | ffling/lexer.py:128-131 | the end of input emits the specified DEDENTs and EOF and leaves the stack `[0]` |
| Lexing.Lexer.Tokenize | ffling/lexer.py:28-132 | `tokenize` returns the specified token stream, which is also left in `tokens` |
| LexerProps.RunEndIs | ffling/lexer.py:67-68 | a run loop's end is determined by where the predicate first fails |
| LexerProps.SplitLinesJoin | ffling/lexer.py:29-32 | the lines put back together are the code without its line feeds and carriage returns: nothing else is lost and nothing is reordered |
| LexerProps.ClassesDisjoint | ffling/lexer.py:51-72 | whitespace, the quote, digits and word starts do not overlap, and a word character is a word start or a digit |
| LexerProps.TabCheckNeverFires | ffling/lexer.py:136-139 | the tab check is dead: the width loop never passes a tab, so `get_indent_len` never raises |
| LexerProps.PopCountLevels | ffling/lexer.py:36-38 | when level `j` is the deepest one not above the line, the loop pops exactly the levels above `j` |
| LexerProps.LineStepAscending | ffling/lexer.py:31-125 | every line keeps the indentation stack strictly increasing |
| LexerProps.BetweenLevels | ffling/lexer.py:36-45 | a line whose width falls strictly between two open levels pops the deeper ones, pushes its own width, and emits an INDENT before the DEDENTs |
| LexerProps.WidthZeroClosesAll | ffling/lexer.py:36-45 | a line at width 0 closes every open level |
| LexerProps.EmptyLineClosesAll | ffling/lexer.py:33-48 | an empty line is not skipped: it closes every open level and adds no other token |
| LexerProps.StringRule | ffling/lexer.py:54-64 | a string token holds the text up to the next quote, with no quotes inside; an unterminated-string error means no closing quote follows on the line |
| LexerProps.DecimalString | ffling/lexer.py:69 | the decimal spelling of a number is a non-empty run of digits |
| LexerProps.DecimalRoundTrip | ffling/lexer.py:69 | reading back a number's decimal spelling gives the number |
| LexerProps.NumberRule | ffling/lexer.py:65-71 | a number token takes the whole maximal digit run and holds its decimal value |
| LexerProps.WordRule | ffling/lexer.py:72-112 | a word takes the maximal word-character run and keeps its text; it is a keyword exactly when the table lists it, otherwise an identifier |
| LexerProps.RangeIsKeyword | ffling/lexer.py:84 | `range` standing alone always lexes as the keyword RANGE |
| LexerProps.EqualsIsOneToken | ffling/lexer.py:116-122 | `==` is one EQ token, never two ASSIGNs, because two characters are tried before one |
| LexerProps.UnknownCharacterRule | ffling/lexer.py:125 | the unknown-character error is raised exactly for a character that is not whitespace, quote, digit, word start or one-character operator |
| LexerProps.Count | ffling/lexer.py:28-132 | counts tokens of one kind, never more than the stream has |
| LexerProps.ScanLexemes | ffling/lexer.py:49-125 | a scanned line yields only plain tokens on that line (no layout tokens, no EOF); its only errors are an unterminated string or an unknown character |
| LexerProps.LineStepKeeps | ffling/lexer.py:31-125 | every line keeps the stream invariant: lines non-decreasing, no EOF yet, INDENT/DEDENT nesting equal to the open levels |
| LexerProps.CloseKeeps | ffling/lexer.py:128-131 | closing the stream balances INDENT and DEDENT and ends with one EOF on the last line |
| LexerProps.LexLinesWellFormed | ffling/lexer.py:30-131 | from any state that keeps the lexer's invariant (stack rooted at 0, one open block per level above it, tokens numbered in order), a run of the loop over lines that succeeds ends, after closing the open blocks, in a well-formed stream |
| LexerProps.WellFormedMeans | ffling/lexer.py:28-132 | a well-formed stream: one final EOF, line numbers non-decreasing and between 1 and the last line, INDENT and DEDENT balanced, and no prefix with more DEDENTs than INDENTs |
| LexerProps.TokenizeWellFormed | ffling/lexer.py:28-132 | every token stream the lexer returns is well formed in that sense |
| LexerProps.LexLinesErrors | ffling/lexer.py:30-125 | the loop over lines only fails on an unterminated string or an unknown character |
| LexerProps.TokenizeErrors | ffling/lexer.py:139 | `tokenize` never fails with the tab error |
| Parsing.ExpectAt | ffling/parser_ll.py:235-241 | `expect` succeeds exactly when the current token has the kind, returning it and moving one token on; otherwise the error names the kind and the token found |
| Parsing.ParseTokens | ffling/parser_ll.py:4-24 | an empty token list is an error; a stream that starts at EOF is the empty program |
| Parsing.Statements | ffling/parser_ll.py:19-24 | the statement loop moves forward within the tokens |
| Parsing.Statement | ffling/parser_ll.py:26-55 | a statement consumes at least one token |
| Parsing.AssignmentStatement | ffling/parser_ll.py:57-62 | an assignment consumes at least one token |
| Parsing.PrintlineStatement | ffling/parser_ll.py:64-76 | a printline consumes at least one token |
| Parsing.Args | ffling/parser_ll.py:71-74 | the argument loop moves forward |
| Parsing.IfStatement | ffling/parser_ll.py:78-99 | an if statement consumes at least one token |
| Parsing.ElseClause | ffling/parser_ll.py:94-98 | the optional else clause moves forward |
| Parsing.Elifs | ffling/parser_ll.py:86-93 | the elif loop stops only where no `elif` follows |
| Parsing.ElifClause | ffling/parser_ll.py:87-92 | an elif clause consumes at least one token |
| Parsing.ForStatement | ffling/parser_ll.py:101-111 | a for statement consumes at least one token |
| Parsing.WhileStatement | ffling/parser_ll.py:113-120 | a while statement consumes at least one token |
| Parsing.FuncStatement | ffling/parser_ll.py:122-135 | a function definition consumes at least one token |
| Parsing.Params | ffling/parser_ll.py:127-131 | the parameter loop moves forward |
| Parsing.ReturnStatement | ffling/parser_ll.py:137-142 | a return consumes at least one token |
| Parsing.TableStatement | ffling/parser_ll.py:144-158 | a table statement consumes at least one token |
| Parsing.Pairs | ffling/parser_ll.py:150-156 | the entry loop moves forward |
| Parsing.Pair | ffling/parser_ll.py:151-154 | an entry consumes at least one token |
| Parsing.ImportStatement | ffling/parser_ll.py:160-168 | an import consumes at least one token |
| Parsing.Block | ffling/parser_ll.py:170-177 | a block consumes at least one token |
| Parsing.BlockBody | ffling/parser_ll.py:173-175 | the block loop moves forward |
| Parsing.Expression | ffling/parser_ll.py:179-180 | an expression consumes at least one token |
| Parsing.Logic | ffling/parser_ll.py:182-189 | the logic level consumes at least one token |
| Parsing.LogicRest | ffling/parser_ll.py:184-188 | the `and`/`or` loop moves forward |
| Parsing.Binary | ffling/parser_ll.py:191-198 | the binary level consumes at least one token |
| Parsing.BinaryRest | ffling/parser_ll.py:193-197 | the binary-operator loop moves forward |
| Parsing.Term | ffling/parser_ll.py:200-223 | a term consumes at least one token |
| Parsing.CallExpr | ffling/parser_ll.py:225-233 | a call's argument list consumes at least one token |
| Parsing.Parser.constructor | ffling/parser_ll.py:4-7 | a new parser is at position 0 of its tokens |
| Parsing.Parser.Advance | ffling/parser_ll.py:9-14 | `advance` moves one token on and refreshes the current token |
| Parsing.Parser.Expect | ffling/parser_ll.py:235-241 | the method agrees with the specification of `expect`, result and position |
| Parsing.Parser.Parse | ffling/parser_ll.py:19-24 | `parse` returns the specified program or error |
| Parsing.Parser.ParseStatement | ffling/parser_ll.py:26-55 | agrees with the specification, result and position |
| Parsing.Parser.ParseAssignment | ffling/parser_ll.py:57-62 | agrees with the specification, result and position |
| Parsing.Parser.ParsePrintline | ffling/parser_ll.py:64-76 | agrees with the specification, result and position |
| Parsing.Parser.ParseArgs | ffling/parser_ll.py:70-74 | the argument loop agrees with the specification |
| Parsing.Parser.ParseIf | ffling/parser_ll.py:78-99 | agrees with the specification, result and position |
| Parsing.Parser.ParseElse | ffling/parser_ll.py:94-98 | agrees with the specification, result and position |
| Parsing.Parser.ParseElifs | ffling/parser_ll.py:85-93 | the elif loop agrees with the specification |
| Parsing.Parser.ParseElifClause | ffling/parser_ll.py:87-93 | agrees with the specification, result and position |
| Parsing.Parser.ParseFor | ffling/parser_ll.py:101-111 | agrees with the specification, result and position |
| Parsing.Parser.ParseWhile | ffling/parser_ll.py:113-120 | agrees with the specification, result and position |
| Parsing.Parser.ParseFunc | ffling/parser_ll.py:122-135 | agrees with the specification, result and position |
| Parsing.Parser.ParseParams | ffling/parser_ll.py:126-131 | the parameter loop agrees with the specification |
| Parsing.Parser.ParseReturn | ffling/parser_ll.py:137-142 | agrees with the specification, result and position |
| Parsing.Parser.ParseTable | ffling/parser_ll.py:144-158 | agrees with the specification, result and position |
| Parsing.Parser.ParsePairs | ffling/parser_ll.py:149-156 | the entry loop agrees with the specification |
| Parsing.Parser.ParsePair | ffling/parser_ll.py:151-154 | agrees with the specification, result and position |
| Parsing.Parser.ParseImport | ffling/parser_ll.py:160-168 | agrees with the specification, result and position |
| Parsing.Parser.ParseBlock | ffling/parser_ll.py:170-177 | agrees with the specification, result and position |
| Parsing.Parser.ParseExpression | ffling/parser_ll.py:179-180 | agrees with the specification, result and position |
| Parsing.Parser.ParseLogic | ffling/parser_ll.py:182-189 | the `and`/`or` loop agrees with the specification |
| Parsing.Parser.ParseBinop | ffling/parser_ll.py:191-198 | the binary-operator loop agrees with the specification |
| Parsing.Parser.ParseTerm | ffling/parser_ll.py:200-223 | agrees with the specification, result and position |
| Parsing.Parser.ParseCall | ffling/parser_ll.py:225-233 | agrees with the specification, result and position |
| Parsing.ParseAll | ffling/parser_ll.py:4-24 | constructing a parser and calling `parse` gives the specified program or error, including the failure on an empty token list |
| ParserProps.TermExpression | ffling/parser_ll.py:179-198 | a term followed by no operator is the whole expression |
| ParserProps.AtomExpression | ffling/parser_ll.py:179-213 | an atom followed by no operator and no `(` is the whole expression |
| ParserProps.LeftNestedShift | ffling/parser_ll.py:193-197 | folding is left-nested: folding a chain after its first step is the same as folding the whole chain |
| ParserProps.ChainOps | ffling/parser_ll.py:193-197 | reads one operator per step of an operator chain |
| ParserProps.BinaryRestFolds | ffling/parser_ll.py:193-197 | the binary loop folds a whole chain of terms to the left |
| ParserProps.BinaryLeftAssociative | ffling/parser_ll.py:191-198 | `a op1 b op2 c ...` at the binary level is `((a op1 b) op2 c) ...`, for chains of any length |
| ParserProps.LogicRestFolds | ffling/parser_ll.py:184-188 | the `and`/`or` loop folds a whole chain of operands to the left |
| ParserProps.LogicLeftAssociative | ffling/parser_ll.py:179-189 | `a op1 b op2 c ...` with `and`/`or` operators is `((a op1 b) op2 c) ...` over binary-level operands, for chains of any length and any mix of `and` and `or` |
| ParserProps.NoPrecedence | ffling/parser_ll.py:193 | all binary operators share one precedence: `a + b * c` parses as `(a + b) * c` |
| ParserProps.LogicBelowBinary | ffling/parser_ll.py:182-198 | `a + b and c` parses as `(a + b) and c` |
| ParserProps.LogicAboveBinary | ffling/parser_ll.py:182-198 | `a and b + c` parses as `a and (b + c)` |
| ParserProps.ParenthesesAddNoNode | ffling/parser_ll.py:217-221 | parentheses yield the inner expression and add no node |
| ParserProps.RedundantParentheses | ffling/parser_ll.py:191-221 | `(a + b) * c` parses to the same tree as `a + b * c` |
| ParserProps.CallOrVariable | ffling/parser_ll.py:208-213 | an identifier is a call exactly when `(` follows it, a call of that name; otherwise it is a one-token variable |
| ParserProps.TermErrorIsExpressionError | ffling/parser_ll.py:179-198 | an expression fails with its first term's error |
| ParserProps.RangeStartsNoExpression | ffling/parser_ll.py:222-223 | the keyword `range` starts neither an expression nor a statement; the error is "expression expected" at that token |
| ParserProps.BooleanLiteral | ffling/parser_ll.py:214-216 | a TRUE or FALSE token is a bool literal that is true exactly when the token's text is "TRUE" |
| ParserProps.ArgListHead | ffling/parser_ll.py:71-74 | an argument list of atoms, commas optional, starts with an atom and continues as a shorter list |
| ParserProps.ArgsCommasOptional | ffling/parser_ll.py:71-74 | commas between atomic arguments are optional: `f(a b)` and `f(a, b)` parse to the same call |
| ParserProps.ParamsCommasOptional | ffling/parser_ll.py:127-131 | commas between parameters are optional: every identifier before `)` is a parameter, in order |
| ParserProps.StatementsInOrder | ffling/parser_ll.py:21-23 | `parse` keeps statements in source order: a parse from an accumulator is that accumulator followed by a fresh parse |
| ParserProps.StatementsStopAtEOF | ffling/parser_ll.py:21 | a successful `parse` ends at EOF or at the end of the tokens |
| ParserProps.BlockDelimited | ffling/parser_ll.py:170-177 | a block starts at an INDENT and its last token is a DEDENT |
| ParserProps.ReturnWithoutValue | ffling/parser_ll.py:137-142 | `return` has no value exactly when EOF, or nothing, follows it |
| ParserProps.BareReturnEndingBlock | ffling/parser_ll.py:137-142 | a bare `return` as the last statement of a block is a syntax error, because the DEDENT after it is parsed as its value |
| ParserProps.AssignmentForm | ffling/parser_ll.py:57-62 | `local NAME = e` is the assignment of `e` to NAME; otherwise the error names the first token out of place, or is the error of the value |
| ParserProps.ForHeader | ffling/parser_ll.py:101-106 | a for statement whose header `for NAME in range(` is incomplete fails naming the first token out of place |
| ParserProps.ForForm | ffling/parser_ll.py:106-111 | after the header, `for NAME in range(e): block` is the loop of NAME up to `e` over the block; a missing `)` or `:` is named, and an error in the bound or the block is the statement's error |
| ParserProps.WhileForm | ffling/parser_ll.py:113-120 | `while (c): block` is the loop on `c` over the block; otherwise the error names the first token out of place, or is the error of the condition or the block |
| ParserProps.ImportForm | ffling/parser_ll.py:160-168 | `import "path"` and `import NAME` import the text after the keyword; nothing after the keyword is a missing token, and any other token is reported where a name was expected |
| ParserProps.ElifsInOrder | ffling/parser_ll.py:86-93 | elif clauses keep source order |
| ParserProps.IfWithoutElse | ffling/parser_ll.py:78-99 | `if (c): block` followed by neither `elif` nor `else` parses to an if with no elif clauses and no else block, ending where the block ends |
| ParserProps.ElseWhenElse | ffling/parser_ll.py:94-98 | the if statement has an else block exactly when `else` follows the elifs; without one, nothing is consumed |
| ParserProps.PairsUniqueKeys | ffling/parser_ll.py:149-156 | a table's keys are distinct and include all keys read so far |
| ParserProps.TableIsAssignment | ffling/parser_ll.py:144-158 | `table NAME = {...}` is an assignment of a table with distinct keys to NAME |
| ParserProps.RepeatedKeyKeepsLastValue | ffling/parser_ll.py:154 | for instance `{"k": a, "k": b}` builds the single entry `"k": b` |
| ParserProps.PairsAssignsEntries | ffling/parser_ll.py:149-156 | the entry loop assigns the literal's entries in source order: it fails exactly when reading them fails, with the same error |
| ParserProps.TableKeepsLastValues | ffling/parser_ll.py:149-156 | in the table a literal builds, each key maps to the value of its last entry, and the keys are listed once each, in the order of their first entries |
| Interpreting.Lookup | ffling/interpreter.py:8-13 | a name is found exactly when some scope of the chain binds it |
| Interpreting.LitValue | ffling/interpreter.py:106-107 | a literal evaluates to an int, a string or a bool, never None |
| InterpreterProps.TruthyNumbers | ffling/interpreter.py:127-130 | a bool is as true as the integer it stands for: a number is true exactly when it is not zero |
| InterpreterProps.ApplyOutcomes | ffling/interpreter.py:113-134 | an operator fails only with a type error, a division by zero or an unknown operator; division by zero happens exactly for `/` and `%` on numbers with a zero divisor; `and` and `or` never fail and return an operand; comparisons give bools; `+`, `-` and `*` on numbers give ints |
| Interpreting.Globals | ffling/interpreter.py:19-25 | the global scope binds `printline`, `printlinef`, `range` and `inputline`, all host callables and none of them the clock |
| Interpreting.PyMod | ffling/interpreter.py:131-132 | Python's `%`: the remainder has the divisor's sign and completes the rounded-down quotient |
| Interpreting.Repeat | ffling/interpreter.py:117-118 | `s * n` has `n` times the length of `s` (none when `n` is not positive), and its characters repeat `s` in order |
| Interpreting.CallBuiltin | ffling/interpreter.py:90-93 | calling a host callable never changes the scope chain and can only fail with an error |
| Interpreting.Eval | ffling/interpreter.py:105-143 | evaluating an expression leaves the scope chain as it was and only appends output; it can be interrupted only by Break, Continue or an error |
| Interpreting.EvalList | ffling/interpreter.py:81 | evaluating arguments has the same guarantees |
| Interpreting.EvalPairs | ffling/interpreter.py:135-139 | evaluating a table has the same guarantees |
| Interpreting.EvalCall | ffling/interpreter.py:78-93 | a call has the same guarantees; Return never escapes it |
| Interpreting.CallFunction | ffling/interpreter.py:82-89 | a user function's frame is gone when it returns, and Return is caught at the call |
| Interpreting.Exec | ffling/interpreter.py:31-103 | a statement changes at most the innermost scope and only appends output |
| Interpreting.ExecBlock | ffling/interpreter.py:145-147 | a block has the same guarantees |
| Interpreting.ElifChain | ffling/interpreter.py:43-46 | the elif loop has the same guarantees, and changes nothing in scope when no clause is taken |
| Interpreting.ForLoop | ffling/interpreter.py:51-59 | a for loop leaves the scope chain as it was, and Break and Continue never escape it |
| Interpreting.WhileLoop | ffling/interpreter.py:60-68 | a while loop leaves the scope chain as it was and only appends output |
| Interpreting.Run | ffling/interpreter.py:27-29 | a program runs in the global scope alone and only appends output |
| Interpreting.Interpreter.constructor | ffling/interpreter.py:19-25 | a new interpreter has only the global scope, holding the builtins, and no output |
| Interpreting.Interpreter.Execute | ffling/interpreter.py:27-29 | `execute` agrees with the specification, outcome and final state |
| Interpreting.Interpreter.Set | ffling/interpreter.py:15-16 | `env.set` binds the name in the innermost scope |
| Interpreting.Interpreter.ExecuteBlock | ffling/interpreter.py:145-147 | `exec_block` agrees with the specification |
| Interpreting.Interpreter.ExecStmt | ffling/interpreter.py:31-103 | `eval_stmt` agrees with the specification |
| Interpreting.Interpreter.ExecPrintline | ffling/interpreter.py:32-35 | the Printline case agrees with the specification |
| Interpreting.Interpreter.ExecIf | ffling/interpreter.py:39-48 | the If case agrees with the specification |
| Interpreting.Interpreter.ExecElifs | ffling/interpreter.py:43-46 | the elif loop agrees with the specification |
| Interpreting.Interpreter.ExecFor | ffling/interpreter.py:49-59 | the For loop agrees with the specification |
| Interpreting.Interpreter.ExecWhile | ffling/interpreter.py:60-68 | the While loop agrees with the specification |
| Interpreting.Interpreter.EvalExpr | ffling/interpreter.py:105-143 | `eval_expr` agrees with the specification |
| Interpreting.Interpreter.EvalArgs | ffling/interpreter.py:81 | the argument list agrees with the specification |
| Interpreting.Interpreter.EvalTable | ffling/interpreter.py:135-139 | the table loop agrees with the specification |
| Interpreting.Interpreter.EvaluateCall | ffling/interpreter.py:78-93 | the Call case agrees with the specification |
| Interpreting.Interpreter.EnterFunction | ffling/interpreter.py:82-89 | a user-function call agrees with the specification |
| Interpreting.Interpreter.Invoke | ffling/interpreter.py:149-158 | a builtin call agrees with the specification |
| InterpreterProps.LookupPushed | ffling/interpreter.py:52-53 | a new inner scope shadows the outer ones for the names it binds and defers to them for the others; leaving it restores the state before it |
| InterpreterProps.LookupInnermost | ffling/interpreter.py:8-13 | a lookup answers from the innermost scope that binds the name |
| InterpreterProps.SetIsLocal | ffling/interpreter.py:15-16 | assignment touches only the innermost scope: the name now reads as the value and every other name reads as before |
| InterpreterProps.Choose | ffling/interpreter.py:39-46 | choosing an if branch never changes the scope chain |
| InterpreterProps.ElifChainChooses | ffling/interpreter.py:43-46 | the elif loop runs the block of the first truthy clause, or none |
| InterpreterProps.IfRunsFirstTruthyClause | ffling/interpreter.py:39-48 | an if statement runs exactly the block of its first truthy condition, else its else block, else nothing |
| InterpreterProps.FalseConditionSkips | ffling/interpreter.py:39-48 | an if on a false condition with no elif clauses and no else block finishes normally and leaves the state as it was |
| InterpreterProps.Counting | ffling/interpreter.py:51 | the lines `i`, `i+1`, ..., `n-1`, one per iteration |
| InterpreterProps.ForCountsUp | ffling/interpreter.py:51-59 | `for v in range(n): printline(v)` prints 0 to n-1 in order and leaves the scope unchanged |
| InterpreterProps.BreakEndsFor | ffling/interpreter.py:56-57 | a body starting with `break` ends the loop at once with nothing changed |
| InterpreterProps.ContinueSkipsRest | ffling/interpreter.py:58-59 | a body starting with `continue` never runs the rest of its statements |
| InterpreterProps.WhileBodyCannotFalsifyCondition | ffling/interpreter.py:60-64 | a while body's assignment goes to its own fresh scope, so `while (x): local x = False` never ends |
| InterpreterProps.BreakInConditionEscapesWhile | ffling/interpreter.py:61-68 | a Break raised while evaluating the condition is not caught by the loop |
| InterpreterProps.ZipBindPositional | ffling/interpreter.py:84-85 | a call binds the first min(params, args) parameters positionally; extra arguments and parameters are ignored |
| InterpreterProps.FunctionSeesCallerScope | ffling/interpreter.py:82-89 | a function body sees the caller's scope (dynamic scoping) |
| InterpreterProps.CalleeLookedUpFirst | ffling/interpreter.py:78-81 | the callee is looked up before the arguments: calling an undefined name fails with the state untouched, even when an argument would print |
| InterpreterProps.BuiltinEffects | ffling/interpreter.py:149-158 | `printline` and `printlinef` append their argument list to the log as one line and give None; every other builtin leaves the state as it was; `range` gives its single argument and fails on any other count; a value that is not callable fails as not callable |
| InterpreterProps.PrintlineAppends | ffling/interpreter.py:32-35 | the `printline` statement evaluates its arguments left to right and writes their values as one new line of the log; an argument that raises stops it before anything is written |
| InterpreterProps.PrintCallAppends | ffling/interpreter.py:78-91 | a call of `printline` or `printlinef` as an expression writes its argument values as one new line and gives None |
| InterpreterProps.NotCallableFails | ffling/interpreter.py:78-93 | calling a name bound to neither a function nor a builtin fails as not callable, after its arguments are evaluated and without writing anything more |
| InterpreterProps.LiteralsEvaluate | ffling/interpreter.py:33 | literal arguments evaluate to their values, in order, and leave the state untouched |
| InterpreterProps.PrintsLiterals | ffling/interpreter.py:32-35 | `printline(l1, ..., ln)` on literals writes exactly their values as one new line and changes nothing else |
| InterpreterProps.BreakEscapesCall | ffling/interpreter.py:86-89 | a `break` inside a called function breaks the caller's loop |
| InterpreterProps.ReturnLeavesLoop | ffling/interpreter.py:75-89 | a return inside a loop leaves the function with the value |
| InterpreterProps.LogicOperatorsTruth | ffling/interpreter.py:127-130 | `and`/`or` return one operand, and its truthiness is the conjunction, or the disjunction, of the operands' truthiness |
| InterpreterProps.AndEvaluatesBothOperands | ffling/interpreter.py:111-128 | `and` does not short-circuit: `False and f()` still runs `f` |
| InterpreterProps.UnknownOperatorRejected | ffling/interpreter.py:133-134 | any other operator kind is rejected as unknown |
| InterpreterProps.StrLessTotal | ffling/interpreter.py:123-126 | string `<` is a strict total order |
| InterpreterProps.StrLessTransitive | ffling/interpreter.py:123-126 | string `<` is transitive |
| InterpreterProps.PrefixComesFirst | ffling/interpreter.py:123-126 | a proper prefix is less than the longer string |
| InterpreterProps.ComparisonsAgree | ffling/interpreter.py:121-126 | `==` is symmetric, and `a > b` is `b < a` |
| InterpreterProps.BoolIsInt | ffling/interpreter.py:113-132 | a bool acts as 0 or 1 to every operator except `and` and `or` |
| InterpreterProps.DivisionRules | ffling/interpreter.py:119-132 | `/` and `%` on numbers fail exactly on a zero divisor; `%` has the divisor's sign and completes the floor division |
| InterpreterProps.StringRepetition | ffling/interpreter.py:117-118 | `s * n` equals `n * s`, has `n` times the length of `s`, and starts with `s` when `n` is positive |
| InterpreterProps.RepeatAdds | ffling/interpreter.py:117-118 | `s * (a + b)` equals `s * a + s * b` |
| InterpreterProps.TableKeepsKeyOrder | ffling/interpreter.py:135-139 | an evaluated table has the literal's keys in the literal's order |
| InterpreterProps.UncaughtSignalStopsProgram | ffling/interpreter.py:27-29 | a top-level break, continue or return stops the program before the next statement |
| Pipeline.ScansKeyword | ffling/lexer.py:72-111 | a keyword standing alone lexes as its keyword token, keeping the word as its text |
| Pipeline.BooleanWordsReadAsFalse | ffling/parser_ll.py:216 | `True` and `False` both become the literal false, because the lexer keeps the text "True" and the parser compares it with "TRUE" |
| Pipeline.TrueConditionSkipsThen | ffling/parser_ll.py:78-99 | so the tokens of `if (True): block` with nothing after the block parse to an `if` on the literal false, which never runs its block and changes nothing |
| Pipeline.RangeIsNeverCalled | ffling/interpreter.py:24 | the `range` builtin is installed, but no program can call it |

## Left out

- Standard input and the clock are not modelled. `inputline`, and the `time_time` and `time_sleep` functions installed by `import time`, fail with `Unmodelled` when called.
- Output is a log of argument lists, one entry per `printline`/`printlinef` call. The model does not produce `print`'s text: no `str()` of each value and no spaces or newline.
- `/` returns a float. The model keeps the exact quotient as `VQuotient(n, d)`. Only its truthiness is interpreted, as `n != 0`. Arithmetic and comparisons on it give `BadOperands`.
- Float rounding is not modelled. A quotient too small for a float underflows to `0.0` in the source, which is false, but it is true in the model (`1 / 10**400`). A quotient too large for a float raises `OverflowError` in the source but succeeds in the model.
- Lexing.NumberStep: accepts a digit run of any length. From Python 3.11 on, `int()` (lexer.py:69) raises `ValueError` for a literal of more than 4300 digits; that limit is not modelled.
- Operator combinations outside ints, bools and strings give `BadOperands`: string `%` formatting, operators on tables or functions, and `==` on tables, functions and quotients.
- Unbounded loops and recursion are bounded by fuel. A run that exhausts it ends with `Fail(OutOfFuel)`, so the model says nothing about programs that do not terminate.
- Python's `str.isdigit`, `isalpha` and `isalnum` are restricted to ASCII. The other Unicode digits and letters are not modelled.
  - A non-ASCII letter or digit, such as the `é` in `café`, makes the model fail with `UnknownCharacter`. The source lexes it as part of a word or a number.
  - A non-ASCII digit such as `²` passes `isdigit` in the source, and `int()` then raises `ValueError`. The model reports `UnknownCharacter` for it.
- The Python exceptions are modelled as error values: `LexError`, `ParseError` and `RunError`. Their message texts are not modelled.
- Parsing.Parser.constructor: requires a non-empty token list. The source raises `IndexError` there; `Parsing.ParseAll` models that case as `NoTokens`.
- Interpreting.WhileLoop: its contract does not exclude a Break or Continue escaping the loop. Such a signal can escape when the condition raises it (see `InterpreterProps.BreakInConditionEscapesWhile`).
- InterpreterProps.ComparisonsAgree: relates `>` and `<` only when they succeed. Errors name the operator, so they differ between the two.
- `main.py` and `terminal.py` are not part of this model. They are the command-line driver and the interactive terminal.
