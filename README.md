# SCL front end: recursive-descent parser and integer scanner

This project models, in Dafny, the two core pieces of a front end for a
small imperative language:

- `Part-2/parser.py`, class `Parser`: a recursive-descent parser. Over a
  token list it keeps a cursor `pos` and a grow-only set `symbols` of
  declared names, and it builds a tree in this grammar:
  - `Program := Statement*`
  - `Statement := Declaration | Assignment | If | While`
  - `Block := '{' Statement* '}'`
  - `Condition := Expr RelOp Expr`
  - `Expr := Term (('+'|'-') Term)*`
  - `Term := Factor (('*'|'/') Factor)*`
  - `Factor := INTEGER | IDENT | '(' Expr ')'`

  Names must be declared before use and declared only once. Every error
  path returns `None`. The statement loops of `_start` and `_block`
  recover by skipping one token.
- `Part-1/scl_scanner.py`, class `Scanner`: `tokenize` extracts every
  maximal run of decimal digits, left to right, as an `INTEGER` token and
  drops every other character.

## Layout

| file | module | contents |
|---|---|---|
| `wrappers.dfy` | `Wrappers` | `Option` (Python's `None` or a value) |
| `tokens.dfy` | `Tokens` | `Token(kind, value)` and the five token-type names |
| `ast.dfy` | `Ast` | the tree: `Expr`, `Cond`, `Stmt`, `Block`, `Program`, mirroring the tagged lists the parser builds; the names a tree declares and uses |
| `grammar.dfy` | `Grammar` | one pure function per parser rule, threading (cursor, declared names); the scoping lemmas; `Parse` |
| `parser.dfy` | `Parsing` | class `Parser` with fields `tokens`, `pos`, `symbols`, and one method per rule, each proved to agree with its `Grammar` function |
| `printer.dfy` | `Printer` | an independent printer from trees to tokens, and the theorem that parsing a printed well-formed program gives back the same program |
| `scanner.dfy` | `SclScanner` | maximal digit runs as a pure function, the scan that `re.findall` performs, class `Scanner` with `Tokenize`, and the properties of the tokens |
| `scenarios.dfy` | `Scenarios` | concrete token lists and what the parser makes of them |

The parser methods are imperative, as in the source. Each method `modifies`
only `pos` and `symbols`. Each states its result, new cursor and new name
set as one equation with the `Grammar` function for its rule, applied to the
old state. The heavy properties are then proved once about those functions:
- scoping, for any token list;
- the round trip through the printer, for every well-formed program.

## Model

| member | source | states |
|---|---|---|
| Parsing.Parser.constructor | Part-2/parser.py:7-10 | a new parser holds the given tokens, its cursor is 0 and no name is declared |
| Parsing.Parser.NextToken | Part-2/parser.py:13-18 | with a token left, returns it and advances the cursor by exactly one; at the end, returns None and leaves the cursor where it is; names untouched |
| Parsing.Parser.GetNextToken | Part-2/parser.py:22-23 | the same result and cursor movement as NextToken |
| Parsing.Parser.Peek | Part-2/parser.py:26-29 | returns a token exactly when the cursor is before the end, and then the token under the cursor; reads the state without changing it |
| Parsing.Parser.IdentifierExists | Part-2/parser.py:32-33 | true exactly when the name is in the declared set |
| Parsing.Parser.Start | Part-2/parser.py:60-75 | the loop ends with the cursor at the end of the tokens; the statements it returns and the final declared set are those of Grammar.StartItems from the starting state |
| Parsing.Parser.Statement | Part-2/parser.py:78-94 | result, cursor and declared names equal Grammar.ParseStatement of the old state |
| Parsing.Parser.Declaration | Part-2/parser.py:97-128 | result, cursor and declared names equal Grammar.ParseDeclaration of the old state |
| Parsing.Parser.Assignment | Part-2/parser.py:131-155 | result and cursor equal Grammar.ParseAssignment of the old state; the declared set is unchanged |
| Parsing.Parser.Expression | Part-2/parser.py:158-176 | the additive loop's result and cursor equal Grammar.ParseExpression; the declared set is unchanged |
| Parsing.Parser.Term | Part-2/parser.py:181-204 | the multiplicative loop's result and cursor equal Grammar.ParseTerm; the declared set is unchanged |
| Parsing.Parser.Factor | Part-2/parser.py:206-236 | result and cursor equal Grammar.ParseFactor; the declared set is unchanged |
| Parsing.Parser.Rel | Part-2/parser.py:240-255 | result and cursor equal Grammar.ParseRel; the declared set is unchanged |
| Parsing.Parser.IfStmt | Part-2/parser.py:258-291 | result, cursor and declared names equal Grammar.ParseIf of the old state |
| Parsing.Parser.IfBranches | Part-2/parser.py:280-291 | after the `)`, result, cursor and declared names equal Grammar.IfBody for that condition |
| Parsing.Parser.WhileStmt | Part-2/parser.py:294-321 | result, cursor and declared names equal Grammar.ParseWhile of the old state |
| Parsing.Parser.Block | Part-2/parser.py:324-348 | result, cursor and declared names equal Grammar.ParseBlock of the old state |
| Parsing.Parser.BlockBody | Part-2/parser.py:330-341 | the statement loop of `_block`: statements, cursor and declared names equal Grammar.BlockItems of the old state |
| Parsing.ParseTokens | Part-2/parser.py:52-57 | the construct-then-`_start` step of `begin`/`main`, without the printing and file I/O: a fresh parser run from the start returns Grammar.Parse of the tokens, and no two declaration nodes in the tree share a name |
| Grammar.ParseExpression | Part-2/parser.py:158-176 | the cursor stays in bounds; a success consumed input, is well formed (operators among `+ - * /`, identifiers declared) and stops where no `+ - * /` operator follows |
| Grammar.ExpressionTail | Part-2/parser.py:164-176 | the additive loop keeps the tree well formed and stops only where no `+`/`-` (nor `*`/`/`) operator comes next |
| Grammar.ParseTerm | Part-2/parser.py:181-204 | the cursor stays in bounds; a success consumed input, is well formed and is not followed by a `*`/`/` operator |
| Grammar.TermTail | Part-2/parser.py:187-204 | the multiplicative loop keeps the tree well formed and stops only where no `*`/`/` operator comes next |
| Grammar.ParseFactor | Part-2/parser.py:206-236 | the cursor stays in bounds; a success consumed input and is well formed; an identifier succeeds exactly when it is declared, and an undeclared one fails without being consumed |
| Grammar.ParseRel | Part-2/parser.py:240-255 | a success consumed input and is a well-formed condition whose operator is one of `==`, `<`, `>` |
| Grammar.ParseDeclaration | Part-2/parser.py:97-128 | the cursor advances; a failure leaves the names alone; a success is `Decl` or `DeclInit` (DeclInit exactly when `=` follows the name), of a new name that is then added, after the `;` was consumed; a redeclared name fails after two tokens |
| Grammar.ParseAssignment | Part-2/parser.py:131-155 | the names never change; an undeclared target fails after consuming only its name; a success assigns a declared name a well-formed expression and ends after a `;` |
| Grammar.ParseStatement | Part-2/parser.py:78-94 | the cursor stays put exactly when the lookahead is not KEYWORD `int`/`if`/`while` or an IDENTIFIER, and then the result is None with nothing changed; a success is a declaration iff the lookahead is KEYWORD `int`, an if iff KEYWORD `if`, a while iff KEYWORD `while`, and an assignment iff an IDENTIFIER; names only grow |
| Grammar.ParseIf | Part-2/parser.py:258-291 | the cursor advances while tokens remain; names only grow; a success is an `If` that started at KEYWORD `if` |
| Grammar.IfBody | Part-2/parser.py:280-291 | a success is an `If` carrying the given condition; its else slot is filled exactly when KEYWORD `else` follows the then-block |
| Grammar.ParseWhile | Part-2/parser.py:294-321 | the cursor advances while tokens remain; names only grow; a success is a `While` that started at KEYWORD `while` |
| Grammar.ParseBlock | Part-2/parser.py:324-348 | a success consumed an opening `{` and, as its last token, a closing `}` |
| Grammar.BlockItems | Part-2/parser.py:330-341 | the loop stops at the end of the tokens or at a PUNCTUATION `}`; names only grow |
| Grammar.StartItems | Part-2/parser.py:60-75 | the loop always consumes every token; names only grow |
| Grammar.StatementScoping | Part-2/parser.py:97-128 | the names a successful statement declares are pairwise distinct, new before it and present after it, and every name it uses is declared after it |
| Grammar.IfScoping | Part-2/parser.py:258-291 | the same for an if-statement: both blocks together declare distinct new names |
| Grammar.IfBodyScoping | Part-2/parser.py:280-291 | the same for the blocks of an if-statement, given a condition over declared names |
| Grammar.WhileScoping | Part-2/parser.py:294-321 | the same for a while-statement |
| Grammar.BlockScoping | Part-2/parser.py:324-348 | the same for a block |
| Grammar.BlockItemsScoping | Part-2/parser.py:330-341 | the statements kept by the block loop declare distinct new names and use declared ones |
| Grammar.StartScoping | Part-2/parser.py:60-75 | the statements kept by the program loop declare distinct new names and use declared ones |
| Grammar.BlockItemsStep | Part-2/parser.py:331-341 | one round of the block loop: a parsed statement is kept in front of the rest; a failure skips one token, or ends the loop at the end of input |
| Grammar.StartItemsStep | Part-2/parser.py:62-73 | one round of the program loop: a parsed statement is kept in front of the rest; a failure skips one token, or ends the loop at the end of input |
| Grammar.Parse | Part-2/parser.py:107-109 | in the tree of a whole parse no two declaration nodes carry the same name |
| Grammar.WellFormedUses | Part-2/parser.py:226-233 | a well-formed expression reads only declared names |
| Printer.ExpressionRoundTrip | Part-2/parser.py:157-236 | a printed well-formed expression parses back to the same tree and stops right after it: `*`/`/` bind tighter than `+`/`-`, both group to the left, and parentheses leave no node |
| Printer.ExpressionPrefix | Part-2/parser.py:158-176 | parsing from a printed expression reaches the additive loop holding exactly that tree |
| Printer.AdditivePrefix | Part-2/parser.py:164-176 | the same for a tree whose root is `+`/`-`: one more round of the additive loop |
| Printer.ExpressionTailStep | Part-2/parser.py:164-172 | one round of the additive loop turns `left op right` into the tree `BinOp(op, left, right)` |
| Printer.TermPrefix | Part-2/parser.py:181-204 | parsing from a printed term reaches the multiplicative loop holding exactly that tree |
| Printer.FactorRoundTrip | Part-2/parser.py:206-236 | a printed factor parses back to itself; a parenthesised tree comes back without a wrapper |
| Printer.CondRoundTrip | Part-2/parser.py:240-255 | a printed well-formed condition parses back to itself |
| Printer.RelStep | Part-2/parser.py:240-255 | an expression, a relational operator and an expression make the condition `RelOp(op, l, r)` |
| Printer.StmtStart | Part-2/parser.py:78-94 | a printed statement starts with a token `_statement` dispatches on, never `else` nor punctuation |
| Printer.DeclRoundTrip | Part-2/parser.py:97-128 | a printed `int n ;` parses back, adding `n` |
| Printer.DeclInitRoundTrip | Part-2/parser.py:97-128 | a printed `int n = e ;` parses back, adding `n` |
| Printer.AssignRoundTrip | Part-2/parser.py:131-155 | a printed `n = e ;` parses back, leaving the names alone |
| Printer.HeadRoundTrip | Part-2/parser.py:259-278 | the head `kw ( cond )` of an if- or while-statement is read back with its condition |
| Printer.IfStep | Part-2/parser.py:280-291 | after a then-block, the else slot is None when no KEYWORD `else` follows, and the else-block when one does |
| Printer.IfRoundTrip | Part-2/parser.py:258-291 | a printed well-formed if-statement, with or without else, parses back to itself with the names it declares |
| Printer.WhileRoundTrip | Part-2/parser.py:294-321 | a printed well-formed while-statement parses back to itself with the names it declares |
| Printer.StatementRoundTrip | Part-2/parser.py:78-94 | a printed well-formed statement, not followed by `else`, parses back to itself with the names it declares |
| Printer.BlockRoundTrip | Part-2/parser.py:324-348 | a printed well-formed block parses back to itself |
| Printer.ItemsHead | Part-2/parser.py:331-335 | the first statement of a printed sequence parses back, and the rest is well formed under the names declared so far |
| Printer.ItemsRoundTrip | Part-2/parser.py:330-341 | the block loop reads printed statements back, up to the closing brace |
| Printer.StartRoundTrip | Part-2/parser.py:60-75 | the program loop reads printed statements back, to the end of the tokens |
| Printer.ParsePrint | Part-2/parser.py:60-348 | for every well-formed program, parsing its printed tokens gives back the same program |
| SclScanner.RunEnd | Part-1/scl_scanner.py:27 | the run of digits from i ends at the first non-digit or the end, and is non-empty when i holds a digit |
| SclScanner.Spans | Part-1/scl_scanner.py:27-28 | the maximal runs are in bounds, non-empty, all digits, followed by a non-digit or the end, and strictly ordered with a gap between them |
| SclScanner.RunsFromSpans | Part-1/scl_scanner.py:28 | the left-to-right scan finds exactly the texts of the maximal runs, in order |
| SclScanner.FindDigitRuns | Part-1/scl_scanner.py:27-28 | the explicit scan returns exactly the matches of `\d+` (ASCII digits) |
| SclScanner.Scanner.constructor | Part-1/scl_scanner.py:21-22 | the scanner holds the given source |
| SclScanner.Scanner.Tokenize | Part-1/scl_scanner.py:25-35 | returns one INTEGER token per match, in order, equal to IntegerTokens of the source; the source is unchanged |
| SclScanner.AllIntegerDigits | Part-1/scl_scanner.py:27-32 | every token has type INTEGER and a non-empty value made only of digits |
| SclScanner.MaximalRuns | Part-1/scl_scanner.py:27-28 | each token is the text of its run, and that run is neither preceded nor followed by a digit |
| SclScanner.ConcatIsDigits | Part-1/scl_scanner.py:28-32 | the token values, concatenated in order, are the source with every non-digit deleted |
| SclScanner.NoDigitsNoTokens | Part-1/scl_scanner.py:27-33 | a source without digits gives no tokens |
| SclScanner.TokenCount | Part-1/scl_scanner.py:27-32 | there are exactly as many tokens as places where a digit run begins |
| Scenarios.Precedence | Part-2/parser.py:157-204 | `2 + 3 * 4` parses to `BinOp(+, 2, BinOp(*, 3, 4))` |
| Scenarios.Parentheses | Part-2/parser.py:212-220 | `( 2 + 3 ) * 4` parses to `BinOp(*, BinOp(+, 2, 3), 4)` |
| Scenarios.LeftAssociative | Part-2/parser.py:164-176 | `a - b - c` parses to `BinOp(-, BinOp(-, a, b), c)` |
| Scenarios.EmptyParentheses | Part-2/parser.py:212-220 | for `( )` the inner expression fails, yet the `)` is consumed |
| Scenarios.DeclareThenAssign | Part-2/parser.py:60-155 | `int x ; x = 2 + 3 * 4 ;` gives a declaration and an assignment |
| Scenarios.UndeclaredAssignmentDropped | Part-2/parser.py:131-135 | an assignment to an undeclared name is dropped and its tokens are skipped one at a time |
| Scenarios.Redeclaration | Part-2/parser.py:106-109 | a second declaration of a name is refused and the parse goes on |
| Scenarios.IfElse | Part-2/parser.py:258-291 | an if-statement with an else keeps both blocks |
| Scenarios.UnclosedBlock | Part-2/parser.py:343-346 | a while whose block never closes is lost entirely |
| Scenarios.LostDeclarationKeepsName | Part-2/parser.py:124 | a declaration inside a statement that later fails leaves its name declared |
| Scenarios.ScanExample | Part-1/scl_scanner.py:27-32 | `a12 b3` gives the tokens `12` and `3` |

## Left out

- Printing and I/O are not modelled. Of `begin` and `main` only the step that builds a parser and runs `_start` is modelled (Parsing.ParseTokens); their printing, file reading and writing are not, nor are `read_source_file`, the `__main__` drivers, JSON reading and writing, and argument handling. Diagnostics the parser prints become `None` results, and console output and its text are dropped.
- `Part-3/Executor.java` is not part of this model: it is outside the parser and scanner core, and almost every operation in it is an unimplemented stub.
- The unused helpers `_expect_value` and `_expect_type` (`Part-2/parser.py:36-49`) are not modelled, because no rule calls them.
- `\d` in Python matches every Unicode decimal digit. The model takes it to mean ASCII `0`-`9`.
- The scanner recognises only integers, so the model does not scan keywords, identifiers, operators or punctuation. The parser runs over an arbitrary token list.
- `_declaration` and `_assignment` index their first token without a check, and would crash on a missing token. Their only caller, `_statement`, calls them only when a token is there. So Grammar.ParseDeclaration and Grammar.ParseAssignment, and the matching methods, require a token under the cursor.
- One would expect the symbol set to hold a name only while a declaration node for it is in the tree. The code adds the name as soon as the declaration's own `;` is read, even when an enclosing `if`/`while` later fails and the declaration node is dropped. The model follows the code; Scenarios.LostDeclarationKeepsName shows the case. As a result, Grammar.Parse promises distinct names for the declaration nodes in the tree, not that every declared name has a node.
- Grammar.ParseStatement: its own contract states bounds, the dispatch on the first token and growth of the name set only; what each kind of statement declares and uses is stated by Grammar.StatementScoping.
- The model has no nesting bound: every token list gives a tree (Grammar.StartItems, Parsing.ParseTokens). The Python parser recurses three frames per level of parentheses (`_factor`, `_expression`, `_term`) and per nested `if`/`while` (`_statement`, `_if_stmt`/`_while_stmt`, `_block`), so input nested a few hundred levels deep raises `RecursionError`, which neither `begin` nor `main` catches.
- Python truthiness is modelled through `Option`. Every node the parser builds is a non-empty list, so it is true, and `None` is false.
