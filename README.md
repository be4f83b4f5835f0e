# sqlfmt front end in Dafny

This project models the core of `sqlfmt`, a small formatter for SQL SELECT
statements written in Go. The formatter has five parts.

- **Tokens** (`token.dfy`, module `Tokens`): the token kinds and their
  spellings; the keyword map that `init` fills and the case-insensitive
  `Lookup`; the precedence table of binary operators; and the position
  registry. In the registry, a `FileSet` hands out base positions and each
  `File` keeps a table of line-start offsets. `FileSet` and `File` are
  classes whose methods update their fields in place.
- **Scanner** (`scanner.dfy`, module `Scanning`): the byte cursor `Scanner`
  (`ch`, `offset`, `rdOffset`, `lineOffset`). Each `Scan` skips white space
  and yields one `(pos, tok, lit)` triple: an identifier or keyword, a
  single-quoted string, one punctuation character, `ILLEGAL`, or `EOF`.
  While doing so it reports every line start to its file. The pure function
  `ScanAt` states what one scan yields, and each method of the class is
  proved to follow it. `Stream` is the sequence of lexemes that repeated
  scans deliver.
- **Syntax tree** (`ast.dfy`, module `Ast`): one datatype per node kind,
  each with `Pos`/`End`. An absent optional clause reports position 0.
  Where the Go code panics (an empty list, a nil expression) the function
  has a precondition.
- **Parser** (`grammar.dfy`, `parser.dfy`, `parse_properties.dfy`): a
  recursive-descent parser with precedence climbing for binary operators.
  - module `Grammar` states what each parsing routine computes, as pure
    functions over the scanner's stream and the index of the current token;
  - module `Parsing` holds the parser itself: a class with the one-token
    lookahead `pos`/`tok`/`lit` over a shared `Scanner`, whose every method
    is proved equal to the corresponding `Grammar` function;
  - module `ParseProperties` proves that every node the parser builds lies
    in source order.
  A panic of the Go code is an `Err` result, so an error never comes with
  a statement.
- **Printer** (`printer.dfy`, module `Printing`): the `Printer` class appends
  the formatted statement to its `output` while it tracks `indent` and the
  output line and column. `StmtOut` specifies the text it writes, and
  `StmtLayout` states that layout in closed form.

The modules `ScannerExamples`, `ParserExamples` and `FormatExamples` derive,
from the model, the results that the repository's tests expect. The last of
them traces `select * from table1` from its bytes through the scanner and the
parser to the printed text.

Source bytes are characters below 256 (`Tokens.Byte`), because the scanner
reads each byte as one rune. For this reason `isLetter` and `isDigit` are
given their exact Unicode answer on the Latin-1 range, and `isDigit` is true
only for `0`-`9`. Positions are unbounded integers.

The model follows the code where a test expects something else. The scanner
test for `1 11` expects INT, but the scanner has no number rule, so the model
yields three ILLEGAL lexemes (`ScannerExamples.Digits`). The code's own defects
are listed under "Findings". For each one, the model keeps the code as written
in a member named `...AsWritten` and uses the corrected definition everywhere
else.

## Model

| member | source | states |
|---|---|---|
| `Tokens.InitKeywords` | token/token.go:106-113 | The `init` loop builds the keyword map. The map holds a word exactly when the reference keyword table names a keyword for it, and maps the word to that keyword |
| `Tokens.KeywordOfSpelling` | token/token.go:64-104 | Reading a keyword's spelling back through the reference table gives the keyword again, so no two keywords share a spelling |
| `Tokens.SpellingOfKeywordOf` | token/token.go:64-104 | Every word the reference table treats as a keyword is that keyword's spelling |
| `Tokens.KeywordsBelowAt` | token/token.go:110-112 | After the loop has run over the tokens below `n`, the map holds `w` exactly when a keyword below `n` is spelled `w`, and maps `w` to that keyword |
| `Tokens.KeywordTable` | token/token.go:106-113 | The finished map and the reference table agree on every word, in both directions |
| `Tokens.ToUpper` | token/token.go:121 | Upper-casing keeps the length and maps each character through the ASCII upper-case function |
| `Tokens.Lookup` | token/token.go:119-125 | The result is the keyword spelled by the upper-cased word, or IDENT when there is none; a keyword result is spelled exactly as the upper-cased word |
| `Tokens.LookupSpelling` | token/token.go:119-125 | Every keyword except NOT is found from its spelling, in upper or in lower case |
| `Tokens.LookupAlias` | token/token.go:80 | "as" and "AS" are both ALIAS |
| `Tokens.LookupMixedCase` | token/token.go:121 | "Select" is SELECT |
| `Tokens.LookupNot` | token/token.go:33 | "not" is IDENT, because NOT has no spelling in the table, and the empty word is NOT |
| `Tokens.LookupUnderscore` | token/token.go:124 | "id_mst" is IDENT |
| `Tokens.Spelling` | token/token.go:64-117 | A token's spelling is empty exactly for the kinds the table omits: NOT, REM, NEQ, GEQ, LEQ and the four range markers. The wildcard and the product are both `*` |
| `Tokens.SpellingUpper` | token/token.go:74-89 | Every keyword is spelled in upper-case letters |
| `Tokens.UpperOfSpelling` | token/token.go:121 | Upper-casing a keyword's spelling, or its lower-case form, gives the spelling back |
| `Tokens.UpperFixed` | token/token.go:121 | Upper-casing a word of upper-case letters, or its lower-case form, gives the word back |
| `Tokens.Precedence` | token/token.go:255-273 | The result is in 0..5. It is above LowestPrec exactly for the thirteen binary operators OR, AND, `= != < <= > >=`, `+ -` and `* / %` |
| `Tokens.PrecedenceLevels` | token/token.go:259-272 | OR binds weaker than AND, AND than the comparisons, the comparisons than `+ -`, and those than `* / %`. The six comparisons share one level, `+` and `-` one, and `*`, `/` and `%` one |
| `Tokens.AddLineTo` | token/token.go:169-179 | An offset is appended exactly when it is beyond the last entry and inside the file; otherwise the table is unchanged. A valid line table stays valid, that is strictly increasing from 0 and below the file size |
| `Tokens.File.constructor` | token/token.go:224 | A new file has the set, name, base and size it was given, and the line table `[0]` |
| `Tokens.File.Pos` | token/token.go:158-167 | The position minus the base is the offset. An offset past the size is a panic in the code and a precondition here |
| `Tokens.File.AddLine` | token/token.go:173-179 | The new line table is the old one after `AddLineTo` |
| `Tokens.FileSet.constructor` | token/token.go:195-200 | A new set is valid, has base 1 and holds no files |
| `Tokens.FileSet.Base` | token/token.go:202-210 | The base is at least 1 and lies past every position of every registered file |
| `Tokens.FileSet.AddFile` | token/token.go:212-233 | A negative base stands for the current base. A base below the current base or a negative size is refused and leaves the set unchanged. Otherwise a fresh file with that base, size and line table `[0]` is appended and becomes `last`, the next base is `b + size + 1`, and the set stays valid |
| `Tokens.FileSet.OrderedBases` | token/token.go:224-231 | In a valid set, every file's positions end before the next file's base and before the set's next base |
| `Tokens.FileSet.BasesFrom` | token/token.go:225-229 | An earlier file ends before a later one begins |
| `Tokens.FilesDisjoint` | token/token.go:127-133 | Positions of two different files of one set never coincide: the earlier file's lie strictly below the later file's |
| `Tokens.FirstFile` | token/token_test.go:17-27 | Registering a file of size 20 at base 1 in a new set moves the next base to 22 |
| `Scanning.IsLetter` | scanner/scanner.go:183-185 | A letter is a byte value. It is neither a digit, white space, the quote nor one of the punctuation characters `Scan` dispatches on |
| `Scanning.IsDigit` | scanner/scanner.go:187-189 | A digit is an ASCII byte `'0'` plus 0 to 9, no other byte being a Unicode decimal digit. It is neither white space nor the quote |
| `Scanning.SkipSpaces` | scanner/scanner.go:132-136 | The result is the first offset at or after the start that does not hold a space, tab, newline or carriage return, and only such characters are passed over |
| `Scanning.IdentEnd` | scanner/scanner.go:151-157 | The result ends the maximal run of letters and digits |
| `Scanning.QuoteIndex` | scanner/scanner.go:141-146 | The result is the first single quote at or after the offset, or none when there is no quote to the end |
| `Scanning.Punctuation` | scanner/scanner.go:99-127 | EOF is exactly the end of input. Each of `* ( ) ; , = > .` is its own literal, and any other character is ILLEGAL with an empty literal |
| `Scanning.WordAt` | scanner/scanner.go:86-93 | An identifier is the maximal letter/digit run, and its literal is that exact slice. A run of one character is IDENT, and a longer run gets the token `Lookup` gives |
| `Scanning.QuotedAt` | scanner/scanner.go:94-96 | A string runs from its quote to the next one, both included; it fails with the panic's message exactly when no quote follows |
| `Scanning.OtherAt` | scanner/scanner.go:97-128 | A one-character lexeme consumes exactly one byte; at the end of input it is EOF and consumes nothing |
| `Scanning.ScanAt` | scanner/scanner.go:75-130 | A scan never moves the cursor back and never past the end |
| `Scanning.ScanAtShape` | scanner/scanner.go:80-130 | A scan starts its lexeme at the first non-space byte, at position `base` plus offset, and its literal is the text there. It fails exactly at a quote without a partner, yields EOF exactly at the end with an empty literal, and otherwise advances |
| `Scanning.StreamOrdered` | scanner/scanner.go:73-130 | The lexemes of repeated scans lie one after the other, none overlapping the next. The stream ends at EOF at `base + len(src)`, or stops only on an unterminated string |
| `Scanning.OrderedCons` | scanner/scanner.go:83 | A lexeme that ends before an ordered stream begins keeps the stream ordered when placed in front of it |
| `Scanning.StreamCons` | scanner/scanner.go:75-130 | A scan yielding a lexeme other than EOF puts that lexeme in front of the stream that follows it |
| `Scanning.StreamStep` | scanner/scanner.go:75-130 | The stream is empty after an error or EOF, and otherwise is one lexeme followed by the rest |
| `Scanning.LineStart` | scanner/scanner.go:165-166 | The result is the start of the line holding the offset: 0 or just after a newline, with no newline between it and the offset |
| `Scanning.LinesRecorded` | scanner/scanner.go:165-178 | Once the cursor reaches offset `o`, the line table is valid and holds 0 and exactly the in-file offsets up to `o` that follow a newline |
| `Scanning.Scanner.Init` | scanner/scanner.go:50-71 | The file's size must equal the source's length (the code panics otherwise). The cursor then stands on the first byte with every invariant established, and the file's line table is the one it had |
| `Scanning.Scanner.Next` | scanner/scanner.go:159-181 | The cursor moves one byte, or stays at the end, and `ch`, `rdOffset`, `lineOffset` and the file's line table follow it |
| `Scanning.Scanner.SkipWhitespace` | scanner/scanner.go:132-136 | The cursor ends at `SkipSpaces` of where it started |
| `Scanning.Scanner.ScanIdentifier` | scanner/scanner.go:151-157 | The cursor ends at `IdentEnd`, and the literal is the text passed over |
| `Scanning.Scanner.ScanString` | scanner/scanner.go:138-149 | The literal runs from the quote to the next quote, both included, and the cursor ends after it; with no closing quote the result is the panic's error |
| `Scanning.Scanner.ScanWord` | scanner/scanner.go:86-93 | The lexeme and the new offset are those of `WordAt` |
| `Scanning.Scanner.ScanQuoted` | scanner/scanner.go:94-96 | The lexeme or error, and the new offset, are those of `QuotedAt` |
| `Scanning.Scanner.ScanOther` | scanner/scanner.go:97-127 | The lexeme and the new offset are those of `OtherAt` |
| `Scanning.Scanner.Scan` | scanner/scanner.go:73-130 | The lexeme or error, and the new offset, are those of `ScanAt` from the old offset; all cursor invariants are kept |
| `Ast.AbsentClauses` | ast/ast.go:111-185 | An absent WHERE, GROUP BY, ORDER BY or ELSE clause has Pos and End 0 |
| `Ast.StatementEnd` | ast/ast.go:36-51 | A statement begins at its stored begin. It ends where the last group ends if GROUP BY is present, else where the WHERE condition ends if it is present, else at the last table's end. ORDER BY never changes the end |
| `Ast.NodeWidths` | ast/ast.go:224-433 | An identifier, a basic literal and a table name each span exactly their text. A call ends one past its `)`, a CASE expression three past END and an IS NULL test four past NULL |
| `Ast.SpanOrdered` | ast/ast.go:367-394 | An expression with no nil operand whose parts are in source order starts no later than it ends |
| `Ast.CompleteReaches` | ast/ast.go:263-394 | On an expression with no nil operand, neither `Pos` nor `End` reaches a nil operand |
| `Ast.ExprSpans` | ast/ast.go:263-431 | A prefix expression starts at its operator and ends with its operand. A binary expression runs from its left operand's start to its right operand's end. An IS NULL test starts with its operand. A call, a CASE expression, an identifier and a literal start at their first token, and a call ends past its `(` exactly when `(` is not after `)` |
| `Ast.CaseParts` | ast/ast.go:304-334 | A WHEN clause runs from its keyword to the end of its result, and so does a present ELSE clause |
| `Ast.ListedItems` | ast/ast.go:195-245 | A table begins at its table name and a column at its expression. Both end at their stored end, which lies past the alias when there is one |
| `Ast.ClauseSpans` | ast/ast.go:68-185 | SELECT and FROM begin at their keyword and end where their last column or table ends. A present WHERE, GROUP BY or ORDER BY clause begins at its keyword and ends where its condition or last expression ends |
| `Grammar.Cur` | parser/parser.go:28-31 | The current token is lexeme `i`, or EOF with an empty literal past the last lexeme |
| `Grammar.Next` | parser/parser.go:292-294 | Advancing moves to the next lexeme, or stays on EOF. It fails exactly when the next scan hits the lexical error that ends the stream |
| `Grammar.ParsePrimary` | parser/parser.go:262-290 | `x` is an unqualified Ident, and `x.y` the Ident `y` qualified by table `x` and placed at `x`. A period not followed by IDENT is the panic's error. Nothing is consumed exactly when the result is the nil expression, which only tokens other than IDENT and STRING give |
| `Grammar.ParsePrimaryAsWritten` | parser/parser.go:283-284 | As written, a STRING yields its literal and stays on it; every other token is parsed as in the corrected version |
| `Grammar.ParseUnary` | parser/parser.go:247-260 | The result is never a binary expression, and nothing is consumed exactly when it is nil. The operand under `+`/`-` holds no binary operator at its top |
| `Grammar.ParseBinary` | parser/parser.go:232-245 | Precedence climbing. Every operator at the top binds at least `prec1`; a left operand binds at least its operator, and a right operand binds strictly more, so equal precedences associate to the left. Parsing stops at a token binding below `prec1` |
| `Grammar.BinaryLoop` | parser/parser.go:234-244 | The loop returns `x` when it takes no operator and a binary expression otherwise. It stops below `prec1` and keeps the precedence shape of `x` |
| `Grammar.BinaryStart` | parser/parser.go:232-233 | The binary parse is the unary parse's error, or the loop started from the unary operand |
| `Grammar.BinaryLoopStep` | parser/parser.go:239-243 | At an operator binding at least `prec1`, a failed advance or right operand is the loop's error; otherwise the loop continues from the combined expression |
| `Grammar.ParseExpr` | parser/parser.go:196-198 | An expression is a climb at precedence 1 and ends at a token that is no binary operator |
| `Grammar.ParseColumn` | parser/parser.go:218-230 | A column always consumes at least one token |
| `Grammar.ColumnAlias` | parser/parser.go:218-230 | With `AS name`, the column ends after the name, carries it as alias and consumes it. Without `AS`, it ends where the expression ends, and a nil expression is an error exactly then |
| `Grammar.ParseColumns` | parser/parser.go:200-216 | The list stops at FROM without consuming it and extends the columns collected so far |
| `Grammar.ParseSelect` | parser/parser.go:117-125 | A SELECT clause begins at the SELECT token and stops at FROM. Any other first token is the panic's error |
| `Grammar.ParseTableExpr` | parser/parser.go:179-181 | A table expression is the current IDENT as a table name, consumed; it succeeds exactly at an IDENT that can be advanced past |
| `Grammar.ParseTable` | parser/parser.go:167-177 | A table consumes at least its name and is named after it |
| `Grammar.TableAlias` | parser/parser.go:167-177 | With `AS alias`, the table ends after the alias, carries it and consumes it. Without `AS`, the alias is empty and the table ends after its name |
| `Grammar.ParseTableAsWritten` | parser/parser.go:172-175 | As written, after `AS` the alias is taken but the parser stays on the alias name |
| `Grammar.ParseTableList` | parser/parser.go:147-165 | The list stops at WHERE, EOF or `;` without consuming it and extends the tables collected so far |
| `Grammar.EndsTableList` | parser/parser.go:152-157 | A token that ends the table list is never the comma or an identifier, so the loop's three cases do not overlap. The set is WHERE and EOF, as in the code, and `;` as corrected under Findings |
| `Grammar.ParseTableListAsWritten` | parser/parser.go:150-162 | As written, the list stops only at WHERE or EOF |
| `Grammar.ParseFrom` | parser/parser.go:137-145 | A FROM clause begins at the FROM token and stops where the table list stops. Any other token is the panic's error |
| `Grammar.ParseWhere` | parser/parser.go:183-194 | Without WHERE the clause is absent and nothing is consumed. With WHERE it begins at that token and holds the expression parsed after it |
| `Grammar.ParseStmt` | parser/parser.go:88-115 | A first token other than SELECT is "cannot parsed", and a lexical error before it is that error. A statement and its SELECT clause begin at the SELECT token, and GROUP BY and ORDER BY come out absent |
| `ParseProperties.PosMonotone` | scanner/scanner.go:83 | In an ordered stream, a token ends no later than any later token starts |
| `ParseProperties.PosOrder` | scanner/scanner.go:83 | Positions never decrease along an ordered stream |
| `ParseProperties.PrimaryPlaced` | parser/parser.go:262-290 | A primary expression starts at its first token and ends before the token after it |
| `ParseProperties.UnaryPlaced` | parser/parser.go:247-260 | A unary expression starts at its first token, ends before the token after it, and has its operator before its operand |
| `ParseProperties.BinaryPlaced` | parser/parser.go:232-245 | A binary parse starts at its first token, ends before the token after it, and every operator lies between its operands |
| `ParseProperties.LoopPlaced` | parser/parser.go:234-244 | The operator loop keeps the expression built so far in source order while extending it to the right |
| `ParseProperties.LoopOn` | parser/parser.go:239-243 | One turn of the loop keeps the combined expression in source order |
| `ParseProperties.CombinedPlaced` | parser/parser.go:243 | An operator token between two placed operands gives a placed binary expression |
| `ParseProperties.ExprPlaced` | parser/parser.go:196-198 | An expression lies in source order from its first token |
| `ParseProperties.ColumnPlaced` | parser/parser.go:218-230 | A column starts at its first token and ends no later than the token after it, alias included |
| `ParseProperties.ColumnsPlaced` | parser/parser.go:200-216 | Every column collected lies within the list's range, each after the one before |
| `ParseProperties.TablePlaced` | parser/parser.go:167-177 | A table starts at its name and ends no later than the token after it, alias included |
| `ParseProperties.TablesPlaced` | parser/parser.go:147-165 | Every table collected lies within the list's range, each after the one before |
| `ParseProperties.CurBounded` | scanner/scanner.go:100-101 | No token lies beyond the last position of the stream |
| `ParseProperties.SelectPlaced` | parser/parser.go:117-125 | The columns of a SELECT clause lie after SELECT and before FROM |
| `ParseProperties.FromPlaced` | parser/parser.go:137-145 | The tables of a FROM clause lie after FROM and before the token that ends the list |
| `ParseProperties.WherePlaced` | parser/parser.go:183-194 | A WHERE condition lies after WHERE, in source order |
| `ParseProperties.StmtParts` | parser/parser.go:95-108 | A parsed statement is made of the SELECT, FROM and WHERE clauses parsed one after the other |
| `ParseProperties.StmtPlaced` | parser/parser.go:88-115 | In a parsed statement, columns lie between SELECT and FROM; tables lie between FROM and WHERE, or the last token when WHERE is absent; and the condition follows WHERE, each element after the one before |
| `ParseProperties.ScannedStmtPlaced` | parser/parser.go:68-86 | In the statement parsed from any source text, the columns lie between SELECT and FROM and the tables between FROM and WHERE or the last token. A WHERE condition is in source order, after its keyword and not past the last token |
| `Parsing.OffsetsScan` | scanner/scanner.go:73-130 | The scans starting at the recorded offsets yield the scanner's stream one lexeme each, and the first starts at the given offset |
| `Parsing.ScanEnds` | scanner/scanner.go:172-179 | A scan that yields EOF ends the stream, and the scan after it yields EOF again |
| `Parsing.ScansCons` | scanner/scanner.go:73-130 | A scan yielding a lexeme extends the recorded scans by that lexeme and its offset |
| `Parsing.EndScan` | scanner/scanner.go:100-101 | At the end of input a scan yields EOF at `base + len(src)` and stays there |
| `Parsing.AliasedTable` | parser/parser.go:172-176 | The grammar's table after `AS alias` carries the alias, ends after it and resumes after it |
| `Parsing.AliasedColumn` | parser/parser.go:222-229 | The grammar's column after `AS name` carries the name, ends after it and resumes after it |
| `Parsing.Parser.constructor` | parser/parser.go:76-79 | A parser over a fresh scanner reads the scanner's stream from offset 0 and has no current token yet |
| `Parsing.Parser.Next` | parser/parser.go:292-294 | The next token becomes current, with EOF repeating; the lexical error that ends the stream is returned exactly when that token is unreadable |
| `Parsing.Parser.Expect` | parser/parser.go:127-135 | A token other than `t` leaves the parser where it was and answers false. On `t` the parser advances and answers true, or returns the lexical error |
| `Parsing.Parser.TokPrec` | parser/parser.go:296-299 | The result is the current token and its precedence |
| `Parsing.Parser.ParsePrimaryExpr` | parser/parser.go:262-290 | Result and final token are those of `Grammar.ParsePrimary` |
| `Parsing.Parser.ParseUnaryExpr` | parser/parser.go:247-260 | Result and final token are those of `Grammar.ParseUnary` |
| `Parsing.Parser.ParseBinaryExpr` | parser/parser.go:232-245 | Result and final token are those of `Grammar.ParseBinary`; the loop keeps that result equal to the grammar's loop from the expression built so far |
| `Parsing.Parser.ParseOperand` | parser/parser.go:239-243 | One loop turn consumes the operator and the right operand. It returns the grammar loop's error, or an expression from which the grammar's loop gives the same result |
| `Parsing.Parser.ParseExpr` | parser/parser.go:196-198 | Result and final token are those of `Grammar.ParseExpr` |
| `Parsing.Parser.ParseColumn` | parser/parser.go:218-230 | Result and final token are those of `Grammar.ParseColumn` |
| `Parsing.Parser.ParseColumns` | parser/parser.go:200-216 | Result and final token are those of `Grammar.ParseColumns` from an empty list |
| `Parsing.Parser.ParseSelect` | parser/parser.go:117-125 | Result and final token are those of `Grammar.ParseSelect` |
| `Parsing.Parser.ParseTableExpr` | parser/parser.go:179-181 | Result and final token are those of `Grammar.ParseTableExpr` |
| `Parsing.Parser.ParseTable` | parser/parser.go:167-177 | Result and final token are those of `Grammar.ParseTable` |
| `Parsing.Parser.ParseTableList` | parser/parser.go:147-165 | Result and final token are those of `Grammar.ParseTableList` from an empty list |
| `Parsing.Parser.ParseFrom` | parser/parser.go:137-145 | Result and final token are those of `Grammar.ParseFrom` |
| `Parsing.Parser.ParseWhere` | parser/parser.go:183-194 | Result and final token are those of `Grammar.ParseWhere` |
| `Parsing.Parser.ParseStmt` | parser/parser.go:88-115 | The result is `Grammar.ParseStmt` of the scanner's whole stream |
| `Parsing.Parse` | parser/parser.go:68-86 | The result is the grammar's statement for the stream of the source in a file whose base is 1, whatever file set the caller holds |
| `Parsing.ParseFile` | parser/parser.go:34-66 | A string or byte slice is parsed. A value of another type is an error naming that type. With no source, the file's contents are parsed or its read error is returned |
| `ParserExamples.PlainUnary` | parser/parser.go:264-282 | An identifier not followed by a period is an unqualified Ident and consumes one token |
| `ParserExamples.QualifiedUnary` | parser/parser.go:272-280 | `x . y` is the Ident `y` of table `x`, placed at `x`, and consumes three tokens |
| `ParserExamples.StringUnary` | parser/parser.go:283-284 | A string operand is a STRING literal, consumed (corrected) |
| `ParserExamples.StarUnary` | parser/parser.go:254-257 | `*` is the literal `*` of kind ASTA |
| `ParserExamples.OperandOnly` | parser/parser.go:235-238 | An operand followed by a token binding below `prec1` is the whole binary parse |
| `ParserExamples.OperandExpr` | parser/parser.go:196-198 | An operand followed by a non-operator is the whole expression |
| `ParserExamples.LoopStops` | parser/parser.go:236-238 | The loop returns its expression at a token binding below `prec1` |
| `ParserExamples.LoopTakes` | parser/parser.go:239-243 | The loop combines its expression with the operator and the right operand parsed one level tighter |
| `ParserExamples.PlainColumn` | parser/parser.go:226-228 | A column without `AS` ends at its expression's end |
| `ParserExamples.AliasedColumn` | parser/parser.go:222-225 | A column with `AS name` carries the name and ends after it |
| `ParserExamples.ColumnsMore` | parser/parser.go:210-212 | The column loop appends the column parsed at a token that is neither `,` nor FROM |
| `ParserExamples.ColumnsComma` | parser/parser.go:206-207 | The column loop skips a comma |
| `ParserExamples.ColumnsEnd` | parser/parser.go:208-209 | The column loop stops at FROM with the columns so far |
| `ParserExamples.OneColumn` | parser/parser.go:200-216 | A single column before FROM is a one-element list |
| `ParserExamples.TwoColumns` | parser/parser.go:200-216 | Two columns separated by a comma before FROM form a two-element list |
| `ParserExamples.SelectOf` | parser/parser.go:117-125 | SELECT followed by a column list is a SELECT clause at the SELECT token |
| `ParserExamples.PlainTable` | parser/parser.go:167-177 | A table name without `AS` is a table ending after its name |
| `ParserExamples.AliasedTable` | parser/parser.go:172-175 | A table name with `AS alias` carries the alias and ends after it (corrected) |
| `ParserExamples.TablesMore` | parser/parser.go:158-160 | The table loop appends the table parsed at a token that does not end the list |
| `ParserExamples.TablesComma` | parser/parser.go:152-154 | The table loop skips a comma |
| `ParserExamples.TablesEnd` | parser/parser.go:156-157 | The table loop stops at a token that ends the list |
| `ParserExamples.OneTable` | parser/parser.go:147-165 | A single table is a one-element list |
| `ParserExamples.TwoTables` | parser/parser.go:147-165 | Two tables separated by a comma form a two-element list |
| `ParserExamples.FromOf` | parser/parser.go:137-145 | FROM followed by a table list is a FROM clause at the FROM token |
| `ParserExamples.WhereOf` | parser/parser.go:183-194 | WHERE followed by an expression is a present WHERE clause at the WHERE token |
| `ParserExamples.StmtOf` | parser/parser.go:95-108 | The three clauses make the statement, beginning at SELECT |
| `ParserExamples.SelectStarAt` | parser/parser_test.go:181-207 | Any stream laid out as `select * from table1` parses to the statement the test expects |
| `ParserExamples.SelectStarParsed` | parser/parser_test.go:181-208 | The tokens of `select * from table1` parse to one ASTA column ending at 9 and one table `table1` ending at 21 |
| `ParserExamples.JoinLeftAt` | parser/parser_test.go:68-83 | In `id_mst.id = user_mst.id and ...`, the right operand of `=` stops at AND |
| `ParserExamples.JoinRightAt` | parser/parser_test.go:86-100 | `user_mst.dt > '2015-12-01'` is a GTR expression ending before `;` |
| `ParserExamples.JoinCondAt` | parser/parser_test.go:67-101 | The condition is AND of the EQL and GTR comparisons, each operator at its token's position |
| `ParserExamples.JoinCondParsed` | parser/parser_test.go:64-102 | The WHERE condition of the test statement parses as the test expects |
| `ParserExamples.JoinColumnsAt` | parser/parser_test.go:35-49 | The columns `id` and `username` end at 12 and 22 |
| `ParserExamples.JoinTablesAt` | parser/parser_test.go:50-63 | The tables `id_mst` and `user_mst` end at 34 and 44 |
| `ParserExamples.JoinAt` | parser/parser_test.go:32-103 | A stream laid out as the first test statement parses to the expected statement |
| `ParserExamples.JoinParsed` | parser/parser_test.go:31-104 | The first test statement parses exactly as the test expects |
| `ParserExamples.AliasColumnsAt` | parser/parser_test.go:110-124 | `col1 as id, col2 as name` gives columns with aliases `id` and `name`, ending at 18 and 32 |
| `ParserExamples.AliasTablesAt` | parser/parser_test.go:125-147 | `tbl1 as user, tbl2 as item` gives tables with aliases `user` and `item`, ending at 50 and 64 (corrected) |
| `ParserExamples.AliasAt` | parser/parser_test.go:107-149 | A stream laid out as the alias test statement parses to the expected statement |
| `ParserExamples.AliasParsed` | parser/parser_test.go:105-150 | The alias test statement parses exactly as the test expects (corrected) |
| `ParserExamples.AliasAsWritten` | parser/parser.go:172-175 | As written, each alias is read again as a table, so the list reaches the closing `;` with four tables, `tbl1`, `user`, `tbl2` and `item`, and that `;` then makes the alias test statement an error |
| `ParserExamples.SemicolonAsWritten` | parser/parser.go:156 | As written, `select * from table1;` fails at `;`; corrected, the table list stops there |
| `ParserExamples.StringAsWritten` | parser/parser.go:283-284 | As written, a string operand is a whole expression that consumes nothing |
| `ParserExamples.StringConsumed` | parser/parser.go:283-284 | Corrected, a string operand is consumed |
| `ParserExamples.StringAt` | parser/parser.go:283-284 | A stream laid out as `select 'a' from t` parses to one string column (corrected) |
| `ParserExamples.StringParsed` | parser/parser.go:262-290 | `select 'a' from t` parses to one string column and one table (corrected) |
| `ScannerExamples.LookupTblCol` | scanner/scanner_test.go:57-61 | "tbl" and "col" are IDENT |
| `ScannerExamples.LookupAndOr` | scanner/scanner_test.go:62-65 | "and" and "or" are AND and OR |
| `ScannerExamples.LookupSelect` | scanner/scanner_test.go:130-131 | "select" is SELECT |
| `ScannerExamples.LookupFrom` | scanner/scanner_test.go:151-152 | "from" is FROM |
| `ScannerExamples.LookupTable1` | token/token.go:124 | "table1" is IDENT |
| `ScannerExamples.WordRun` | scanner/scanner.go:153-155 | A run of letters and digits ends at the first byte that is neither |
| `ScannerExamples.QuoteRun` | scanner/scanner.go:141-146 | The first quote at or after an offset is found |
| `ScannerExamples.WordCons` | scanner/scanner.go:86-93 | A word at the first non-space byte heads the stream |
| `ScannerExamples.OtherCons` | scanner/scanner.go:97-127 | A one-character lexeme at the first non-space byte heads the stream |
| `ScannerExamples.QuoteCons` | scanner/scanner.go:94-96 | A closed string at the first non-space byte heads the stream |
| `ScannerExamples.QuoteFails` | scanner/scanner.go:141-144 | An unclosed string ends the stream with the scanner's error |
| `ScannerExamples.EofStream` | scanner/scanner.go:100-101 | White space only is EOF at the end of the file |
| `ScannerExamples.TblColTail` | scanner/scanner_test.go:57-61 | From the period on, `tbl.col` is PERIOD at 4 and IDENT `col` at 5 |
| `ScannerExamples.TblCol` | scanner/scanner_test.go:57-61 | `tbl.col` scans to IDENT at 1, PERIOD at 4 and IDENT at 5, then EOF |
| `ScannerExamples.AndOr` | scanner/scanner_test.go:62-65 | `and or` scans to AND at 1 and OR at 5, keeping the lower-case literals |
| `ScannerExamples.Digits` | scanner/scanner_test.go:38-41 | `1 11` scans to three ILLEGAL lexemes with empty literals, at 1, 3 and 4, not to INT |
| `ScannerExamples.DateString` | scanner/scanner_test.go:66-68 | `'2015-11-11'` scans to one STRING at 1, quotes included |
| `ScannerExamples.OpenString` | scanner/scanner.go:141-144 | `x 'abc` yields IDENT `x` and then the unterminated-string error |
| `ScannerExamples.SelectStarLast` | parser/parser_test.go:197-203 | The last word of `select * from table1` is IDENT `table1`, followed by EOF |
| `ScannerExamples.SelectStarTail` | parser/parser_test.go:193-203 | After `*` come FROM and `table1` |
| `ScannerExamples.SelectStarRest` | parser/parser_test.go:186-203 | After `select` come MUL `*`, FROM and `table1` |
| `ScannerExamples.SelectStarFirst` | scanner/scanner.go:86-93 | The first word of the text is `select`, scanned as SELECT |
| `ScannerExamples.SelectStar` | parser/parser_test.go:181-207 | `select * from table1` scans to SELECT, MUL, FROM and IDENT at base + 0, 7, 9 and 14, then EOF at base + 20 |
| `Printing.Spaces` | printer/printer.go:146 | `n` spaces |
| `Printing.ColumnTexts` | printer/printer.go:88-98 | The text of each column: its literal kind's spelling for a basic literal, nothing otherwise |
| `Printing.TableTexts` | printer/printer.go:119-126 | The text of each table: its name |
| `Printing.ListStep` | printer/printer.go:100-107 | One loop iteration appends the element and its separator to what the first `k` iterations wrote |
| `Printing.ListLayout` | printer/printer.go:86-109 | A list is its elements joined by a comma and a break at the list's indent, then a break one level out. Part way through, the elements written so far are each followed by the separator |
| `Printing.DefaultBreaks` | printer/printer.go:28-30 | With the default configuration a break is a newline and four spaces per indent level |
| `Printing.SelectLayout` | printer/printer.go:64-72 | SELECT, then the columns one per line indented by four spaces and joined by commas, then a break |
| `Printing.FromLayout` | printer/printer.go:74-84 | FROM, then the tables in the same layout |
| `Printing.StmtLayout` | printer/printer.go:56-62 | The SELECT clause, the FROM clause and `;` on a line of its own; WHERE is not printed |
| `Printing.Printer.constructor` | printer/printer.go:25-34 | The default configuration, indent 0, empty output, line 1 and column 1 |
| `Printing.Printer.AppendNewline` | printer/printer.go:138-148 | The newline and `indent * IndentWidth` spaces are appended, the line goes up by one and the column becomes `1 + indent * IndentWidth` |
| `Printing.Printer.InsertSemi` | printer/printer.go:150-155 | With ImpliedSemi, `;` is appended and the column goes up by one; otherwise nothing changes |
| `Printing.Printer.EndItem` | printer/printer.go:100-107 | A comma and a break after every element but the last, and after the last one a break after indenting one level out |
| `Printing.Printer.ColumnValue` | printer/printer.go:88-98 | The column's text is appended and the output column moves on by its length |
| `Printing.Printer.ColumnItem` | printer/printer.go:87-108 | One loop turn appends the column's text and its separator, extending the list layout by one element and adding one line |
| `Printing.Printer.ColumnList` | printer/printer.go:86-109 | The output grows by the list layout of the column texts, the indent drops by one exactly when the list is non-empty, and one line is added per column |
| `Printing.Printer.TableList` | printer/printer.go:117-136 | The output grows by the list layout of the table names, the indent drops by one exactly when the list is non-empty, and one line is added per table |
| `Printing.Printer.Keyword` | printer/printer.go:66-68 | The keyword is appended, the indent goes one level in, and a break at the new indent follows |
| `Printing.Printer.SelectClause` | printer/printer.go:64-72 | The output grows by SELECT, a break one level in, and the column list. The line advances once per line written, and the column is the margin of the final indent |
| `Printing.Printer.FromClause` | printer/printer.go:74-84 | The output grows by FROM, a break one level in, and the table list. The line advances once per line written, and the column is the margin of the final indent |
| `Printing.Printer.SelectStmt` | printer/printer.go:56-62 | The output grows by `StmtOut`: the SELECT clause, the FROM clause and the implied `;`. The indent, the line and the column end where the clauses leave them, one column further after `;` |
| `Printing.Printer.PrintNode` | printer/printer.go:46-54 | A SELECT statement is printed as `StmtOut` and leaves the indent, line and column of `SelectStmt`. Any other node gives an error naming its type and leaves the printer unchanged |
| `Printing.Fprint` | printer/printer.go:23-44 | The output for a statement is `StmtOut` under the default configuration from indent 0; another node is the `printNode` error |
| `FormatExamples.SelectStarTexts` | printer/printer.go:88-126 | The one column of `select * from table1` prints as `*` and its table as `table1` |
| `FormatExamples.SelectStarPrinted` | printer/printer_test.go:35-49 | The statement prints as exactly "SELECT\n    *\nFROM\n    table1\n;" |
| `FormatExamples.SelectStarFormatted` | printer/printer_test.go:27-49 | Scanning and parsing `select * from table1` gives the statement the parser test expects, and printing that statement gives the layout the printer test expects |

Lemmas about string and sequence concatenation, and the lemmas that lay out
the example texts and token sources (`...Text`, `...Shape`, `...Hold`, `Cons0`
to `Cons2`, `One`, `Two`, `PrependOne`, `Assoc`, `AppendEmpty`, `Regroup`,
`JoinedSnoc`, `ClauseText`, `TablesWiden`, `Lower`, `AgreesOn`, `LayoutText`), are helpers
and have no row.

## Left out

- Reading the named file when `ParseFile` gets no source (parser/parser.go:47-59) is I/O. `Parsing.ParseFile` takes what reading produced as its `contents` parameter.
- The error handler that prints to stderr (parser/parser.go:73-75) and the `log.Printf` of the table count (parser/parser.go:163) produce output only and are left out.
- The `io.Writer` of `Fprint` and its write error (printer/printer.go:40-42) are I/O. `Printing.Fprint` returns the bytes it would write.
- The mutex locking in `AddLine`, `Base` and `AddFile` (token/token.go:174-178, 206-208 and 215-216) matters only under concurrency. The model is single-threaded.
- The 2G overflow panic of `AddFile` (token/token.go:226-228) is left out. Positions and offsets are unbounded integers.
- `lineInfo`, `infos`, `Position`, and the `Name`/`Size` accessors are not modelled as operations. Name and size are constant fields of `Tokens.File`.
- The BOM check in `Init` (scanner/scanner.go:68-70) can never fire, because `ch` holds one byte. `dir`, the error handler, the mode flags and `ErrorCount` of the scanner are never used, so they are left out. `insertSemi` is never set, so a newline is always white space.
- Number, comment, `<`, `+`, `-` and `/` scanning do not exist in the scanner. The example for `1 11` therefore shows ILLEGAL where scanner/scanner_test.go:38-41 expects INT.
- CASE, IS NULL, function calls, GROUP BY and ORDER BY are never parsed. Their syntax-tree types and `Pos`/`End` are modelled.
- `parseTableExpr` has an empty body (parser/parser.go:179-181). The model takes the behaviour the tests expect: the current IDENT becomes a `TableBasicLit` and is consumed, and any other token is an error.
- A primary that is neither IDENT nor STRING gives the nil expression and consumes nothing, as the code does (parser/parser.go:287-289). Taking the `End` of a nil column expression is a nil dereference in the code, and the model turns it into an error. Each loop turn therefore either consumes a token or fails.
- Panics are modelled in four ways. In the parser and in `Scan`, an explicit panic (parser/parser.go:120, 140 and 278, scanner/scanner.go:143) becomes an `Err` result that keeps its message. The nil dereference of a parsed column becomes an `Err` carrying the text of its `runtime.Error`, "runtime error: invalid memory address or nil pointer dereference". `Tokens.File.Pos` (token/token.go:164) and `Scanning.Scanner.Init` (scanner/scanner.go:52) turn theirs into preconditions. `Tokens.FileSet.AddFile` returns `None` for the panic at token/token.go:221. The syntax-tree `End` functions require their lists to be non-empty in place of the panics at ast/ast.go:75, 96, 152 and 182.
- `select from` with empty lists parses without error, as in the code. Asking the empty clauses for their end is a precondition violation.
- The `fset` argument of `ParseFile` and of `Fprint` is never used, in the code as in the model.
- testdata/select_test.sql is not part of this model. Its text `select * from table1` is inferred from the positions the parser test expects.
- `Printing.Printer.Alias` has an empty body in the code and therefore no contract.
- `Grammar.ParseColumn`: its own contract states only progress. `Grammar.ColumnAlias` states what the column is.
- Tokens.ToUpper: upper-cases the ASCII letters only and keeps every other character, where `strings.ToUpper` decodes the word as UTF-8. The only characters outside ASCII that upper-case to an ASCII letter are ı (U+0131, to I) and ſ (U+017F, to S). Their UTF-8 forms C4 B1 and C5 BF end in bytes that `isLetter` and `isDigit` reject, so no scanned word contains them. Any other non-ASCII byte leaves the upper-cased word non-ASCII, and no keyword matches it, so `Lookup` yields the code's token on every scanned word.

## Findings

| source | as written | input that shows it | evidently intended | confidence | as-written member | corrected member |
|---|---|---|---|---|---|---|
| parser/parser.go:172-175 | After `AS` the table takes the alias but does not advance past it, so the loop parses the alias again as a table | `select col1 as id, col2 as name from tbl1 as user, tbl2 as item;` (the alias test statement) gives four tables, `tbl1`, `user`, `tbl2` and `item`, instead of two, and then, through the `;` defect below, an error | Consume the alias name, as `parseColumn` does at parser/parser.go:222-225 | not executed | `ParserExamples.AliasAsWritten` over `Grammar.ParseTableAsWritten` | `ParserExamples.AliasParsed` over `Grammar.ParseTable` |
| parser/parser.go:283-284 | A STRING primary is returned without advancing, and the operator loop then sees the string where it expects an operator | `select 'a' from t`: the column loop parses the same string for ever | Advance past the string, as the IDENT branch does | not executed | `ParserExamples.StringAsWritten` over `Grammar.ParsePrimaryAsWritten` | `ParserExamples.StringParsed` over `Grammar.ParsePrimary` |
| parser/parser.go:156 | The table list stops only at WHERE or EOF, so a closing `;` is parsed as a table and is no table name | `select * from table1;` gives an error | Stop the list at `;` as well, which both test statements end with | not executed | `ParserExamples.SemicolonAsWritten` over `Grammar.ParseTableListAsWritten` | `Grammar.ParseTableList`, with `ParserExamples.SemicolonAsWritten` and `ParserExamples.JoinParsed` |
