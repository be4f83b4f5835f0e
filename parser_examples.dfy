/** The parser on the statements of its own tests, from hand-written token
    sources laid out as the scanner lays out the text. */
module ParserExamples {
  import opened Wrappers
  import opened Tokens
  import opened Scanning
  import opened Ast
  import opened Grammar

  // Single steps of the grammar over a token source that ends at EOF

  /** The token source holds `n` lexemes and then EOF. */
  predicate EndsAt(ts: TokenSource, n: nat)
  {
    ts.tail.AtEof? && |ts.lexemes| == n
  }

  lemma PlainUnary(ts: TokenSource, i: int)
    requires ts.tail.AtEof? && 0 <= i < |ts.lexemes| && Cur(ts, i).tok == IDENT && Cur(ts, i + 1).tok != PERIOD
    ensures ParseUnary(ts, i) == Ok(Parsed(Ident("", Cur(ts, i).pos, IDENT, Cur(ts, i).lit), i + 1))
  {
  }

  lemma QualifiedUnary(ts: TokenSource, i: int)
    requires ts.tail.AtEof? && 0 <= i && i + 3 <= |ts.lexemes|
    requires Cur(ts, i).tok == IDENT && Cur(ts, i + 1).tok == PERIOD && Cur(ts, i + 2).tok == IDENT
    ensures ParseUnary(ts, i) == Ok(Parsed(Ident(Cur(ts, i).lit, Cur(ts, i).pos, IDENT, Cur(ts, i + 2).lit), i + 3))
  {
  }

  lemma StringUnary(ts: TokenSource, i: int)
    requires ts.tail.AtEof? && 0 <= i < |ts.lexemes| && Cur(ts, i).tok == STRING
    ensures ParseUnary(ts, i) == Ok(Parsed(BasicLit(Cur(ts, i).pos, Cur(ts, i).lit, STRING), i + 1))
  {
  }

  lemma StarUnary(ts: TokenSource, i: int)
    requires ts.tail.AtEof? && 0 <= i < |ts.lexemes| && Cur(ts, i).tok == MUL
    ensures ParseUnary(ts, i) == Ok(Parsed(BasicLit(Cur(ts, i).pos, "*", ASTA), i + 1))
  {
  }

  /** An operand followed by a token binding more loosely than `prec1` is
      the whole binary expression. */
  lemma OperandOnly(ts: TokenSource, i: int, x: Expr, n: nat, prec1: int)
    requires Readable(ts, i) && 1 <= prec1 && ParseUnary(ts, i) == Ok(Parsed(x, n))
    requires Precedence(Cur(ts, n).tok) < prec1
    ensures ParseBinary(ts, i, prec1) == Ok(Parsed(x, n))
  {
    BinaryStart(ts, i, prec1);
    LoopStops(ts, x, n, prec1);
  }

  /** An operand followed by a token that is no operator is a whole expression. */
  lemma OperandExpr(ts: TokenSource, i: int, x: Expr, n: nat)
    requires Readable(ts, i) && ParseUnary(ts, i) == Ok(Parsed(x, n)) && Precedence(Cur(ts, n).tok) == LowestPrec
    ensures ParseExpr(ts, i) == Ok(Parsed(x, n))
  {
    OperandOnly(ts, i, x, n, LowestPrec + 1);
  }

  /** The loop stops at a token binding more loosely than `prec1`. */
  lemma LoopStops(ts: TokenSource, x: Expr, i: int, prec1: int)
    requires Readable(ts, i) && 1 <= prec1 && Precedence(Cur(ts, i).tok) < prec1
    ensures BinaryLoop(ts, x, i, prec1) == Ok(Parsed(x, i))
  {
  }

  /** The loop takes the operator at `i` and the right operand parsed after it. */
  lemma LoopTakes(ts: TokenSource, x: Expr, i: int, prec1: int, y: Expr, next: nat)
    requires Readable(ts, i) && 1 <= prec1 && Precedence(Cur(ts, i).tok) >= prec1 && Next(ts, i) == Ok(i + 1)
    requires ParseBinary(ts, i + 1, Precedence(Cur(ts, i).tok) + 1) == Ok(Parsed(y, next))
    ensures BinaryLoop(ts, x, i, prec1) == BinaryLoop(ts, BinaryExpr(x, Cur(ts, i).pos, Cur(ts, i).tok, y), next, prec1)
  {
    BinaryLoopStep(ts, x, i, prec1);
  }

  lemma PlainColumn(ts: TokenSource, i: int, x: Expr, n: nat)
    requires Readable(ts, i) && ParseExpr(ts, i) == Ok(Parsed(x, n)) && Cur(ts, n).tok != ALIAS && x.HasEnd()
    ensures ParseColumn(ts, i) == Ok(Parsed(Column(x, "", x.End()), n))
  {
  }

  lemma AliasedColumn(ts: TokenSource, i: int, x: Expr, n: nat)
    requires ts.tail.AtEof? && Readable(ts, i) && ParseExpr(ts, i) == Ok(Parsed(x, n))
    requires Cur(ts, n).tok == ALIAS && n + 2 <= |ts.lexemes|
    ensures ParseColumn(ts, i) == Ok(Parsed(Column(x, Cur(ts, n + 1).lit, Cur(ts, n + 1).pos + |Cur(ts, n + 1).lit|), n + 2))
  {
  }

  lemma ColumnsMore(ts: TokenSource, i: int, cols: seq<Column>, c: Column, n: nat)
    requires Readable(ts, i) && Cur(ts, i).tok != COMMA && Cur(ts, i).tok != FROM
    requires ParseColumn(ts, i) == Ok(Parsed(c, n))
    ensures ParseColumns(ts, i, cols) == ParseColumns(ts, n, cols + [c])
  {
  }

  lemma ColumnsComma(ts: TokenSource, i: int, cols: seq<Column>)
    requires ts.tail.AtEof? && 0 <= i < |ts.lexemes| && Cur(ts, i).tok == COMMA
    ensures ParseColumns(ts, i, cols) == ParseColumns(ts, i + 1, cols)
  {
  }

  lemma ColumnsEnd(ts: TokenSource, i: int, cols: seq<Column>)
    requires Readable(ts, i) && Cur(ts, i).tok == FROM
    ensures ParseColumns(ts, i, cols) == Ok(Parsed(cols, i))
  {
  }

  lemma OneColumn(ts: TokenSource, i: int, c: Column, n: nat)
    requires Readable(ts, i) && Cur(ts, i).tok != COMMA && Cur(ts, i).tok != FROM
    requires ParseColumn(ts, i) == Ok(Parsed(c, n)) && Cur(ts, n).tok == FROM
    ensures ParseColumns(ts, i, []) == Ok(Parsed([c], n))
  {
    ColumnsMore(ts, i, [], c, n);
    One(c);
  }

  lemma TwoColumns(ts: TokenSource, i: int, c1: Column, n1: nat, c2: Column, n2: nat)
    requires ts.tail.AtEof? && Readable(ts, i) && Cur(ts, i).tok != COMMA && Cur(ts, i).tok != FROM
    requires ParseColumn(ts, i) == Ok(Parsed(c1, n1)) && n1 < |ts.lexemes| && Cur(ts, n1).tok == COMMA
    requires Cur(ts, n1 + 1).tok != COMMA && Cur(ts, n1 + 1).tok != FROM
    requires ParseColumn(ts, n1 + 1) == Ok(Parsed(c2, n2)) && Cur(ts, n2).tok == FROM
    ensures ParseColumns(ts, i, []) == Ok(Parsed([c1, c2], n2))
  {
    ColumnsMore(ts, i, [], c1, n1);
    One(c1);
    ColumnsComma(ts, n1, [c1]);
    ColumnsMore(ts, n1 + 1, [c1], c2, n2);
    Two(c1, c2);
  }

  lemma SelectOf(ts: TokenSource, i: int, cols: seq<Column>, n: nat)
    requires ts.tail.AtEof? && 0 <= i < |ts.lexemes| && Cur(ts, i).tok == SELECT
    requires ParseColumns(ts, i + 1, []) == Ok(Parsed(cols, n))
    ensures ParseSelect(ts, i) == Ok(Parsed(SelectClause(Cur(ts, i).pos, cols), n))
  {
  }

  lemma PlainTable(ts: TokenSource, i: int)
    requires ts.tail.AtEof? && 0 <= i < |ts.lexemes| && Cur(ts, i).tok == IDENT && Cur(ts, i + 1).tok != ALIAS
    ensures ParseTable(ts, i) ==
      Ok(Parsed(Table(TableBasicLit(Cur(ts, i).pos, IDENT, Cur(ts, i).lit), "", Cur(ts, i).pos + |Cur(ts, i).lit|), i + 1))
  {
  }

  lemma AliasedTable(ts: TokenSource, i: int)
    requires ts.tail.AtEof? && 0 <= i && i + 3 <= |ts.lexemes| && Cur(ts, i).tok == IDENT && Cur(ts, i + 1).tok == ALIAS
    ensures ParseTable(ts, i) ==
      Ok(Parsed(Table(TableBasicLit(Cur(ts, i).pos, IDENT, Cur(ts, i).lit), Cur(ts, i + 2).lit,
                      Cur(ts, i + 2).pos + |Cur(ts, i + 2).lit|), i + 3))
  {
  }

  lemma TablesMore(ts: TokenSource, i: int, tables: seq<Table>, t: Table, n: nat)
    requires Readable(ts, i) && Cur(ts, i).tok != COMMA && !EndsTableList(Cur(ts, i).tok)
    requires ParseTable(ts, i) == Ok(Parsed(t, n))
    ensures ParseTableList(ts, i, tables) == ParseTableList(ts, n, tables + [t])
  {
  }

  lemma TablesComma(ts: TokenSource, i: int, tables: seq<Table>)
    requires ts.tail.AtEof? && 0 <= i < |ts.lexemes| && Cur(ts, i).tok == COMMA
    ensures ParseTableList(ts, i, tables) == ParseTableList(ts, i + 1, tables)
  {
  }

  lemma TablesEnd(ts: TokenSource, i: int, tables: seq<Table>)
    requires Readable(ts, i) && EndsTableList(Cur(ts, i).tok)
    ensures ParseTableList(ts, i, tables) == Ok(Parsed(tables, i))
  {
  }

  lemma OneTable(ts: TokenSource, i: int, t: Table, n: nat)
    requires Readable(ts, i) && Cur(ts, i).tok != COMMA && !EndsTableList(Cur(ts, i).tok)
    requires ParseTable(ts, i) == Ok(Parsed(t, n)) && EndsTableList(Cur(ts, n).tok)
    ensures ParseTableList(ts, i, []) == Ok(Parsed([t], n))
  {
    TablesMore(ts, i, [], t, n);
    One(t);
  }

  lemma TwoTables(ts: TokenSource, i: int, t1: Table, n1: nat, t2: Table, n2: nat)
    requires ts.tail.AtEof? && Readable(ts, i) && Cur(ts, i).tok != COMMA && !EndsTableList(Cur(ts, i).tok)
    requires ParseTable(ts, i) == Ok(Parsed(t1, n1)) && n1 < |ts.lexemes| && Cur(ts, n1).tok == COMMA
    requires Cur(ts, n1 + 1).tok != COMMA && !EndsTableList(Cur(ts, n1 + 1).tok)
    requires ParseTable(ts, n1 + 1) == Ok(Parsed(t2, n2)) && EndsTableList(Cur(ts, n2).tok)
    ensures ParseTableList(ts, i, []) == Ok(Parsed([t1, t2], n2))
  {
    TablesMore(ts, i, [], t1, n1);
    One(t1);
    TablesComma(ts, n1, [t1]);
    TablesMore(ts, n1 + 1, [t1], t2, n2);
    Two(t1, t2);
  }

  lemma FromOf(ts: TokenSource, i: int, tables: seq<Table>, n: nat)
    requires ts.tail.AtEof? && 0 <= i < |ts.lexemes| && Cur(ts, i).tok == FROM
    requires ParseTableList(ts, i + 1, []) == Ok(Parsed(tables, n))
    ensures ParseFrom(ts, i) == Ok(Parsed(FromClause(Cur(ts, i).pos, tables), n))
  {
  }

  lemma WhereOf(ts: TokenSource, i: int, e: Expr, n: nat)
    requires ts.tail.AtEof? && 0 <= i < |ts.lexemes| && Cur(ts, i).tok == WHERE
    requires ParseExpr(ts, i + 1) == Ok(Parsed(e, n))
    ensures ParseWhere(ts, i) == Ok(Parsed(WhereClause(Cur(ts, i).pos, e, true), n))
  {
  }

  lemma StmtOf(ts: TokenSource, s: SelectClause, a: nat, f: FromClause, b: nat, w: WhereClause, c: nat)
    requires Readable(ts, 0) && Cur(ts, 0).tok == SELECT
    requires ParseSelect(ts, 0) == Ok(Parsed(s, a)) && ParseFrom(ts, a) == Ok(Parsed(f, b))
    requires ParseWhere(ts, b) == Ok(Parsed(w, c))
    ensures ParseStmt(ts) == Ok(SelectStmt(Cur(ts, 0).pos, s, f, w, NoGroupby, NoOrderby))
  {
  }

  lemma One<T>(x: T)
    ensures [] + [x] == [x]
  {
  }

  lemma Two<T>(x: T, y: T)
    ensures [x] + [y] == [x, y]
  {
  }

  /** The tokens of `select * from table1` in a file whose base is 1. */
  const SelectStarTokens := TokenSource([Lexeme(1, SELECT, "select"), Lexeme(8, MUL, "*"), Lexeme(10, FROM, "from"),
                                         Lexeme(15, IDENT, "table1")], AtEof(21))

  /** The statement the test expects: one wildcard column, one table. */
  const SelectStarStmt := SelectStmt(1, SelectClause(1, [Column(BasicLit(8, "*", ASTA), "", 9)]),
                                     FromClause(10, [Table(TableBasicLit(15, IDENT, "table1"), "", 21)]),
                                     NoWhere, NoGroupby, NoOrderby)

  lemma SelectStarShape()
    ensures EndsAt(SelectStarTokens, 4)
  {
  }

  predicate SelectStarWords(ts: TokenSource)
    requires EndsAt(ts, 4)
  {
    Cur(ts, 0) == Lexeme(1, SELECT, "select") && Cur(ts, 1) == Lexeme(8, MUL, "*") &&
    Cur(ts, 2) == Lexeme(10, FROM, "from") && Cur(ts, 3) == Lexeme(15, IDENT, "table1")
  }

  lemma SelectStarWordsHold()
    ensures EndsAt(SelectStarTokens, 4) && SelectStarWords(SelectStarTokens)
  {
    SelectStarShape();
  }

  lemma SelectStarAt(ts: TokenSource)
    requires EndsAt(ts, 4) && SelectStarWords(ts)
    ensures ParseStmt(ts) == Ok(SelectStarStmt)
  {
    var star := BasicLit(8, "*", ASTA);
    StarUnary(ts, 1);
    OperandExpr(ts, 1, star, 2);
    var col := Column(star, "", 9);
    PlainColumn(ts, 1, star, 2);
    OneColumn(ts, 1, col, 2);
    SelectOf(ts, 0, [col], 2);
    var tbl := Table(TableBasicLit(15, IDENT, "table1"), "", 21);
    PlainTable(ts, 3);
    OneTable(ts, 3, tbl, 4);
    FromOf(ts, 2, [tbl], 4);
    StmtOf(ts, SelectClause(1, [col]), 2, FromClause(10, [tbl]), 4, NoWhere, 4);
  }

  lemma SelectStarParsed()
    ensures ParseStmt(SelectStarTokens) == Ok(SelectStarStmt)
  {
    SelectStarShape();
    SelectStarWordsHold();
    SelectStarAt(SelectStarTokens);
  }

  /** The tokens of
      `  select id, username from id_mst, user_mst where id_mst.id = user_mst.id and user_mst.dt > '2015-12-01';` */
  const JoinTokens := TokenSource([
    Lexeme(3, SELECT, "select"), Lexeme(10, IDENT, "id"), Lexeme(12, COMMA, ","), Lexeme(14, IDENT, "username"),
    Lexeme(23, FROM, "from"), Lexeme(28, IDENT, "id_mst"), Lexeme(34, COMMA, ","), Lexeme(36, IDENT, "user_mst"),
    Lexeme(45, WHERE, "where"), Lexeme(51, IDENT, "id_mst"), Lexeme(57, PERIOD, "."), Lexeme(58, IDENT, "id"),
    Lexeme(61, EQL, "="), Lexeme(63, IDENT, "user_mst"), Lexeme(71, PERIOD, "."), Lexeme(72, IDENT, "id"),
    Lexeme(75, AND, "and"), Lexeme(79, IDENT, "user_mst"), Lexeme(87, PERIOD, "."), Lexeme(88, IDENT, "dt"),
    Lexeme(91, GTR, ">"), Lexeme(93, STRING, "'2015-12-01'"), Lexeme(105, SEMICOLON, ";")], AtEof(106))

  /** AND binds more loosely than `=` and `>`, so the condition is the
      conjunction of the two comparisons. */
  const JoinCond := BinaryExpr(BinaryExpr(Ident("id_mst", 51, IDENT, "id"), 61, EQL, Ident("user_mst", 63, IDENT, "id")),
                               75, AND,
                               BinaryExpr(Ident("user_mst", 79, IDENT, "dt"), 91, GTR, BasicLit(93, "'2015-12-01'", STRING)))

  const JoinStmt := SelectStmt(3, SelectClause(3, [Column(Ident("", 10, IDENT, "id"), "", 12),
                                                   Column(Ident("", 14, IDENT, "username"), "", 22)]),
                               FromClause(23, [Table(TableBasicLit(28, IDENT, "id_mst"), "", 34),
                                               Table(TableBasicLit(36, IDENT, "user_mst"), "", 44)]),
                               WhereClause(45, JoinCond, true), NoGroupby, NoOrderby)

  lemma JoinShape()
    ensures EndsAt(JoinTokens, 23)
  {
  }

  predicate JoinColumnWords(ts: TokenSource)
    requires EndsAt(ts, 23)
  {
    Cur(ts, 0) == Lexeme(3, SELECT, "select") && Cur(ts, 1) == Lexeme(10, IDENT, "id") &&
    Cur(ts, 2) == Lexeme(12, COMMA, ",") && Cur(ts, 3) == Lexeme(14, IDENT, "username")
  }

  lemma JoinColumnWordsHold()
    ensures EndsAt(JoinTokens, 23) && JoinColumnWords(JoinTokens)
  {
    JoinShape();
  }

  predicate JoinTableWords(ts: TokenSource)
    requires EndsAt(ts, 23)
  {
    Cur(ts, 4) == Lexeme(23, FROM, "from") && Cur(ts, 5) == Lexeme(28, IDENT, "id_mst") &&
    Cur(ts, 6).tok == COMMA && Cur(ts, 7) == Lexeme(36, IDENT, "user_mst")
  }

  lemma JoinTableWordsHold()
    ensures EndsAt(JoinTokens, 23) && JoinTableWords(JoinTokens)
  {
    JoinShape();
  }

  predicate JoinWhereWord(ts: TokenSource)
    requires EndsAt(ts, 23)
  {
    Cur(ts, 8) == Lexeme(45, WHERE, "where")
  }

  lemma JoinWhereWordHold()
    ensures EndsAt(JoinTokens, 23) && JoinWhereWord(JoinTokens)
  {
    JoinShape();
  }

  predicate JoinEqLeft(ts: TokenSource)
    requires EndsAt(ts, 23)
  {
    Cur(ts, 9) == Lexeme(51, IDENT, "id_mst") && Cur(ts, 10).tok == PERIOD && Cur(ts, 11) == Lexeme(58, IDENT, "id") &&
    Cur(ts, 12) == Lexeme(61, EQL, "=")
  }

  lemma JoinEqLeftHold()
    ensures EndsAt(JoinTokens, 23) && JoinEqLeft(JoinTokens)
  {
    JoinShape();
  }

  predicate JoinEqRight(ts: TokenSource)
    requires EndsAt(ts, 23)
  {
    Cur(ts, 13) == Lexeme(63, IDENT, "user_mst") && Cur(ts, 14).tok == PERIOD && Cur(ts, 15) == Lexeme(72, IDENT, "id") &&
    Cur(ts, 16) == Lexeme(75, AND, "and")
  }

  lemma JoinEqRightHold()
    ensures EndsAt(JoinTokens, 23) && JoinEqRight(JoinTokens)
  {
    JoinShape();
  }

  predicate JoinGtLeft(ts: TokenSource)
    requires EndsAt(ts, 23)
  {
    Cur(ts, 17) == Lexeme(79, IDENT, "user_mst") && Cur(ts, 18).tok == PERIOD && Cur(ts, 19) == Lexeme(88, IDENT, "dt")
  }

  lemma JoinGtLeftHold()
    ensures EndsAt(JoinTokens, 23) && JoinGtLeft(JoinTokens)
  {
    JoinShape();
  }

  predicate JoinGtRight(ts: TokenSource)
    requires EndsAt(ts, 23)
  {
    Cur(ts, 20) == Lexeme(91, GTR, ">") && Cur(ts, 21) == Lexeme(93, STRING, "'2015-12-01'") &&
    Cur(ts, 22) == Lexeme(105, SEMICOLON, ";")
  }

  lemma JoinGtRightHold()
    ensures EndsAt(JoinTokens, 23) && JoinGtRight(JoinTokens)
  {
    JoinShape();
  }

  /** `id_mst.id = user_mst.id`: the right operand of `=` stops at AND,
      which binds more loosely. */
  lemma JoinLeftAt(ts: TokenSource)
    requires EndsAt(ts, 23) && JoinEqLeft(ts) && JoinEqRight(ts)
    ensures ParseUnary(ts, 9) == Ok(Parsed(Ident("id_mst", 51, IDENT, "id"), 12))
    ensures ParseBinary(ts, 13, 4) == Ok(Parsed(Ident("user_mst", 63, IDENT, "id"), 16))
  {
    QualifiedUnary(ts, 9);
    QualifiedUnary(ts, 13);
    OperandOnly(ts, 13, Ident("user_mst", 63, IDENT, "id"), 16, 4);
  }

  /** `user_mst.dt > '2015-12-01'`, the right operand of AND. */
  lemma JoinRightAt(ts: TokenSource)
    requires EndsAt(ts, 23) && JoinGtLeft(ts) && JoinGtRight(ts)
    ensures ParseBinary(ts, 17, 3) ==
      Ok(Parsed(BinaryExpr(Ident("user_mst", 79, IDENT, "dt"), 91, GTR, BasicLit(93, "'2015-12-01'", STRING)), 22))
  {
    var c := Ident("user_mst", 79, IDENT, "dt");
    var d := BasicLit(93, "'2015-12-01'", STRING);
    QualifiedUnary(ts, 17);
    BinaryStart(ts, 17, 3);
    StringUnary(ts, 21);
    OperandOnly(ts, 21, d, 22, 4);
    LoopTakes(ts, c, 20, 3, d, 22);
    LoopStops(ts, BinaryExpr(c, 91, GTR, d), 22, 3);
  }

  lemma JoinCondAt(ts: TokenSource)
    requires EndsAt(ts, 23) && JoinEqLeft(ts) && JoinEqRight(ts) && JoinGtLeft(ts) && JoinGtRight(ts)
    ensures ParseExpr(ts, 9) == Ok(Parsed(JoinCond, 22))
  {
    JoinLeftAt(ts);
    JoinRightAt(ts);
    var a := Ident("id_mst", 51, IDENT, "id");
    var b := Ident("user_mst", 63, IDENT, "id");
    var cd := BinaryExpr(Ident("user_mst", 79, IDENT, "dt"), 91, GTR, BasicLit(93, "'2015-12-01'", STRING));
    BinaryStart(ts, 9, 1);
    LoopTakes(ts, a, 12, 1, b, 16);
    LoopTakes(ts, BinaryExpr(a, 61, EQL, b), 16, 1, cd, 22);
    LoopStops(ts, BinaryExpr(BinaryExpr(a, 61, EQL, b), 75, AND, cd), 22, 1);
  }

  /** The WHERE condition of the first test statement. */
  lemma JoinCondParsed()
    ensures ParseExpr(JoinTokens, 9) == Ok(Parsed(JoinCond, 22))
  {
    JoinShape();
    JoinEqLeftHold();
    JoinEqRightHold();
    JoinGtLeftHold();
    JoinGtRightHold();
    JoinCondAt(JoinTokens);
  }

  lemma JoinColumnsAt(ts: TokenSource)
    requires EndsAt(ts, 23) && JoinColumnWords(ts) && JoinTableWords(ts)
    ensures ParseSelect(ts, 0) == Ok(Parsed(JoinStmt.select, 4))
  {
    var id, un := Ident("", 10, IDENT, "id"), Ident("", 14, IDENT, "username");
    var c1, c2 := Column(id, "", 12), Column(un, "", 22);
    PlainUnary(ts, 1);
    OperandExpr(ts, 1, id, 2);
    PlainColumn(ts, 1, id, 2);
    PlainUnary(ts, 3);
    OperandExpr(ts, 3, un, 4);
    PlainColumn(ts, 3, un, 4);
    TwoColumns(ts, 1, c1, 2, c2, 4);
    SelectOf(ts, 0, [c1, c2], 4);
  }

  lemma JoinTablesAt(ts: TokenSource)
    requires EndsAt(ts, 23) && JoinTableWords(ts) && JoinWhereWord(ts)
    ensures ParseFrom(ts, 4) == Ok(Parsed(JoinStmt.from, 8))
  {
    var t1, t2 := Table(TableBasicLit(28, IDENT, "id_mst"), "", 34), Table(TableBasicLit(36, IDENT, "user_mst"), "", 44);
    PlainTable(ts, 5);
    PlainTable(ts, 7);
    TwoTables(ts, 5, t1, 6, t2, 8);
    FromOf(ts, 4, [t1, t2], 8);
  }

  lemma JoinAt(ts: TokenSource)
    requires EndsAt(ts, 23) && JoinColumnWords(ts) && JoinTableWords(ts) && JoinWhereWord(ts)
    requires JoinEqLeft(ts) && JoinEqRight(ts) && JoinGtLeft(ts) && JoinGtRight(ts)
    ensures ParseStmt(ts) == Ok(JoinStmt)
  {
    JoinColumnsAt(ts);
    JoinTablesAt(ts);
    JoinCondAt(ts);
    WhereOf(ts, 8, JoinCond, 22);
    StmtOf(ts, JoinStmt.select, 4, JoinStmt.from, 8, JoinStmt.where, 22);
  }

  /** The first statement of the parser's test suite, with its two columns,
      two tables and the WHERE condition at the positions it expects. */
  lemma JoinParsed()
    ensures ParseStmt(JoinTokens) == Ok(JoinStmt)
  {
    JoinShape();
    JoinColumnWordsHold();
    JoinTableWordsHold();
    JoinWhereWordHold();
    JoinEqLeftHold();
    JoinEqRightHold();
    JoinGtLeftHold();
    JoinGtRightHold();
    JoinAt(JoinTokens);
  }

  /** The tokens of `select col1 as id, col2 as name from tbl1 as user, tbl2 as item;` */
  const AliasTokens := TokenSource([
    Lexeme(1, SELECT, "select"), Lexeme(8, IDENT, "col1"), Lexeme(13, ALIAS, "as"), Lexeme(16, IDENT, "id"),
    Lexeme(18, COMMA, ","), Lexeme(20, IDENT, "col2"), Lexeme(25, ALIAS, "as"), Lexeme(28, IDENT, "name"),
    Lexeme(33, FROM, "from"), Lexeme(38, IDENT, "tbl1"), Lexeme(43, ALIAS, "as"), Lexeme(46, IDENT, "user"),
    Lexeme(50, COMMA, ","), Lexeme(52, IDENT, "tbl2"), Lexeme(57, ALIAS, "as"), Lexeme(60, IDENT, "item"),
    Lexeme(64, SEMICOLON, ";")], AtEof(65))

  /** What the test expects: each alias is kept and each item ends after
      its alias. */
  const AliasStmt := SelectStmt(1, SelectClause(1, [Column(Ident("", 8, IDENT, "col1"), "id", 18),
                                                    Column(Ident("", 20, IDENT, "col2"), "name", 32)]),
                                FromClause(33, [Table(TableBasicLit(38, IDENT, "tbl1"), "user", 50),
                                                Table(TableBasicLit(52, IDENT, "tbl2"), "item", 64)]),
                                NoWhere, NoGroupby, NoOrderby)

  lemma AliasShape()
    ensures EndsAt(AliasTokens, 17)
  {
  }

  predicate AliasFirstColumn(ts: TokenSource)
    requires EndsAt(ts, 17)
  {
    Cur(ts, 0) == Lexeme(1, SELECT, "select") && Cur(ts, 1) == Lexeme(8, IDENT, "col1") &&
    Cur(ts, 2).tok == ALIAS && Cur(ts, 3) == Lexeme(16, IDENT, "id")
  }

  lemma AliasFirstColumnHold()
    ensures EndsAt(AliasTokens, 17) && AliasFirstColumn(AliasTokens)
  {
    AliasShape();
  }

  predicate AliasSecondColumn(ts: TokenSource)
    requires EndsAt(ts, 17)
  {
    Cur(ts, 4).tok == COMMA && Cur(ts, 5) == Lexeme(20, IDENT, "col2") &&
    Cur(ts, 6).tok == ALIAS && Cur(ts, 7) == Lexeme(28, IDENT, "name")
  }

  lemma AliasSecondColumnHold()
    ensures EndsAt(AliasTokens, 17) && AliasSecondColumn(AliasTokens)
  {
    AliasShape();
  }

  predicate AliasFirstTable(ts: TokenSource)
    requires EndsAt(ts, 17)
  {
    Cur(ts, 8) == Lexeme(33, FROM, "from") && Cur(ts, 9) == Lexeme(38, IDENT, "tbl1") &&
    Cur(ts, 10).tok == ALIAS && Cur(ts, 11) == Lexeme(46, IDENT, "user")
  }

  lemma AliasFirstTableHold()
    ensures EndsAt(AliasTokens, 17) && AliasFirstTable(AliasTokens)
  {
    AliasShape();
  }

  predicate AliasSecondTable(ts: TokenSource)
    requires EndsAt(ts, 17)
  {
    Cur(ts, 12).tok == COMMA && Cur(ts, 13) == Lexeme(52, IDENT, "tbl2") &&
    Cur(ts, 14).tok == ALIAS && Cur(ts, 15) == Lexeme(60, IDENT, "item") && Cur(ts, 16).tok == SEMICOLON
  }

  lemma AliasSecondTableHold()
    ensures EndsAt(AliasTokens, 17) && AliasSecondTable(AliasTokens)
  {
    AliasShape();
  }

  lemma AliasColumnsAt(ts: TokenSource)
    requires EndsAt(ts, 17) && AliasFirstColumn(ts) && AliasSecondColumn(ts) && AliasFirstTable(ts)
    ensures ParseSelect(ts, 0) == Ok(Parsed(AliasStmt.select, 8))
  {
    var e1, e2 := Ident("", 8, IDENT, "col1"), Ident("", 20, IDENT, "col2");
    var c1, c2 := Column(e1, "id", 18), Column(e2, "name", 32);
    PlainUnary(ts, 1);
    OperandExpr(ts, 1, e1, 2);
    AliasedColumn(ts, 1, e1, 2);
    PlainUnary(ts, 5);
    OperandExpr(ts, 5, e2, 6);
    AliasedColumn(ts, 5, e2, 6);
    TwoColumns(ts, 1, c1, 4, c2, 8);
    SelectOf(ts, 0, [c1, c2], 8);
  }

  lemma AliasTablesAt(ts: TokenSource)
    requires EndsAt(ts, 17) && AliasFirstTable(ts) && AliasSecondTable(ts)
    ensures ParseFrom(ts, 8) == Ok(Parsed(AliasStmt.from, 16))
  {
    var t1, t2 := Table(TableBasicLit(38, IDENT, "tbl1"), "user", 50), Table(TableBasicLit(52, IDENT, "tbl2"), "item", 64);
    AliasedTable(ts, 9);
    AliasedTable(ts, 13);
    TwoTables(ts, 9, t1, 12, t2, 16);
    FromOf(ts, 8, [t1, t2], 16);
  }

  lemma AliasAt(ts: TokenSource)
    requires EndsAt(ts, 17) && AliasFirstColumn(ts) && AliasSecondColumn(ts) && AliasFirstTable(ts) && AliasSecondTable(ts)
    ensures ParseStmt(ts) == Ok(AliasStmt)
  {
    AliasColumnsAt(ts);
    AliasTablesAt(ts);
    StmtOf(ts, AliasStmt.select, 8, AliasStmt.from, 16, NoWhere, 16);
  }

  /** The second statement of the parser's test suite parses as the test
      expects. */
  lemma AliasParsed()
    ensures ParseStmt(AliasTokens) == Ok(AliasStmt)
  {
    AliasShape();
    AliasFirstColumnHold();
    AliasSecondColumnHold();
    AliasFirstTableHold();
    AliasSecondTableHold();
    AliasAt(AliasTokens);
  }

  /** The table list as written reads each alias a second time as a table,
      so four tables come before the closing `;`, which it then rejects:
      the test statement is an error. */
  lemma AliasAsWritten()
    ensures ParseTableAsWritten(AliasTokens, 9) == Ok(Parsed(Table(TableBasicLit(38, IDENT, "tbl1"), "user", 50), 11))
    ensures ParseTableAsWritten(AliasTokens, 11) == Ok(Parsed(Table(TableBasicLit(46, IDENT, "user"), "", 50), 12))
    ensures Cur(AliasTokens, 12).tok == COMMA
    ensures ParseTableAsWritten(AliasTokens, 13) == Ok(Parsed(Table(TableBasicLit(52, IDENT, "tbl2"), "item", 64), 15))
    ensures ParseTableAsWritten(AliasTokens, 15) == Ok(Parsed(Table(TableBasicLit(60, IDENT, "item"), "", 64), 16))
    ensures Cur(AliasTokens, 16).tok == SEMICOLON
    ensures ParseTableListAsWritten(AliasTokens, 16, [Table(TableBasicLit(38, IDENT, "tbl1"), "user", 50),
      Table(TableBasicLit(46, IDENT, "user"), "", 50), Table(TableBasicLit(52, IDENT, "tbl2"), "item", 64),
      Table(TableBasicLit(60, IDENT, "item"), "", 64)]) == Err(MissingTable + ";")
    ensures ParseTableListAsWritten(AliasTokens, 9, []) == Err(MissingTable + ";")
  {
    var ts := AliasTokens;
    var t1 := Table(TableBasicLit(38, IDENT, "tbl1"), "user", 50);
    var u := Table(TableBasicLit(46, IDENT, "user"), "", 50);
    var t2 := Table(TableBasicLit(52, IDENT, "tbl2"), "item", 64);
    var i := Table(TableBasicLit(60, IDENT, "item"), "", 64);
    assert ParseTableExpr(ts, 9) == Ok(Parsed(TableBasicLit(38, IDENT, "tbl1"), 10));
    assert ParseTableAsWritten(ts, 9) == Ok(Parsed(t1, 11));
    assert ParseTableExpr(ts, 11) == Ok(Parsed(TableBasicLit(46, IDENT, "user"), 12));
    assert ParseTableAsWritten(ts, 11) == Ok(Parsed(u, 12));
    assert ParseTableExpr(ts, 13) == Ok(Parsed(TableBasicLit(52, IDENT, "tbl2"), 14));
    assert ParseTableAsWritten(ts, 13) == Ok(Parsed(t2, 15));
    assert ParseTableExpr(ts, 15) == Ok(Parsed(TableBasicLit(60, IDENT, "item"), 16));
    assert ParseTableAsWritten(ts, 15) == Ok(Parsed(i, 16));
    assert String(SEMICOLON) == ";";
    assert ParseTableAsWritten(ts, 16) == Err(MissingTable + ";");
    assert [t1] + [u] == [t1, u] && [t1, u] + [t2] == [t1, u, t2] && [t1, u, t2] + [i] == [t1, u, t2, i];
    assert ParseTableListAsWritten(ts, 16, [t1, u, t2, i]) == Err(MissingTable + ";");
    assert ParseTableListAsWritten(ts, 15, [t1, u, t2]) == Err(MissingTable + ";");
    assert ParseTableListAsWritten(ts, 13, [t1, u]) == Err(MissingTable + ";");
    assert ParseTableListAsWritten(ts, 12, [t1, u]) == Err(MissingTable + ";");
    assert ParseTableListAsWritten(ts, 11, [t1]) == Err(MissingTable + ";");
    assert [] + [t1] == [t1];
  }

  /** `select * from table1;`: the statement closed by `;`. */
  const ClosedTokens := TokenSource([Lexeme(1, SELECT, "select"), Lexeme(8, MUL, "*"), Lexeme(10, FROM, "from"),
                                     Lexeme(15, IDENT, "table1"), Lexeme(21, SEMICOLON, ";")], AtEof(22))

  /** As written, the table list does not stop at `;` and asks for one more
      table; corrected, it stops there and leaves `;` unconsumed. */
  lemma SemicolonAsWritten()
    ensures ParseTableListAsWritten(ClosedTokens, 3, []) == Err(MissingTable + ";")
    ensures ParseTableList(ClosedTokens, 3, []) == Ok(Parsed([Table(TableBasicLit(15, IDENT, "table1"), "", 21)], 4))
  {
    var ts := ClosedTokens;
    var t := Table(TableBasicLit(15, IDENT, "table1"), "", 21);
    assert ParseTableExpr(ts, 3) == Ok(Parsed(TableBasicLit(15, IDENT, "table1"), 4));
    assert ParseTableAsWritten(ts, 3) == Ok(Parsed(t, 4));
    assert ParseTable(ts, 3) == Ok(Parsed(t, 4));
    assert String(SEMICOLON) == ";";
    assert ParseTableAsWritten(ts, 4) == Err(MissingTable + ";");
    assert ParseTableListAsWritten(ts, 4, [t]) == Err(MissingTable + ";");
    assert ParseTableList(ts, 4, [t]) == Ok(Parsed([t], 4));
    assert [] + [t] == [t];
  }

  /** As written, a string literal is returned without moving past it, and
      the operator loop, which finds the string itself where it expects an
      operator, stops there too: a whole expression is parsed without
      consuming a token, so the column loop comes back to the same string
      for ever. */
  lemma StringAsWritten(ts: TokenSource, i: int)
    requires Readable(ts, i) && Cur(ts, i).tok == STRING
    ensures var lit := BasicLit(Cur(ts, i).pos, Cur(ts, i).lit, STRING);
      ParsePrimaryAsWritten(ts, i) == Ok(Parsed(lit, i)) &&
      BinaryLoop(ts, lit, i, LowestPrec + 1) == Ok(Parsed(lit, i))
  {
  }

  /** Corrected, the string is consumed like an identifier. */
  lemma StringConsumed(ts: TokenSource, i: int)
    requires Readable(ts, i) && Cur(ts, i).tok == STRING && Next(ts, i).Ok?
    ensures ParsePrimary(ts, i) == Ok(Parsed(BasicLit(Cur(ts, i).pos, Cur(ts, i).lit, STRING), i + 1))
  {
  }

  /** `select 'a' from t`. */
  const StringTokens := TokenSource([Lexeme(1, SELECT, "select"), Lexeme(8, STRING, "'a'"), Lexeme(12, FROM, "from"),
                                     Lexeme(17, IDENT, "t")], AtEof(18))

  const StringStmt := SelectStmt(1, SelectClause(1, [Column(BasicLit(8, "'a'", STRING), "", 11)]),
                                 FromClause(12, [Table(TableBasicLit(17, IDENT, "t"), "", 18)]), NoWhere, NoGroupby, NoOrderby)

  lemma StringShape()
    ensures EndsAt(StringTokens, 4)
  {
  }

  predicate StringWords(ts: TokenSource)
    requires EndsAt(ts, 4)
  {
    Cur(ts, 0) == Lexeme(1, SELECT, "select") && Cur(ts, 1) == Lexeme(8, STRING, "'a'") &&
    Cur(ts, 2) == Lexeme(12, FROM, "from") && Cur(ts, 3) == Lexeme(17, IDENT, "t")
  }

  lemma StringWordsHold()
    ensures EndsAt(StringTokens, 4) && StringWords(StringTokens)
  {
    StringShape();
  }

  lemma StringAt(ts: TokenSource)
    requires EndsAt(ts, 4) && StringWords(ts)
    ensures ParseStmt(ts) == Ok(StringStmt)
  {
    var a := BasicLit(8, "'a'", STRING);
    StringUnary(ts, 1);
    OperandExpr(ts, 1, a, 2);
    var col := Column(a, "", 11);
    PlainColumn(ts, 1, a, 2);
    OneColumn(ts, 1, col, 2);
    SelectOf(ts, 0, [col], 2);
    var tbl := Table(TableBasicLit(17, IDENT, "t"), "", 18);
    PlainTable(ts, 3);
    OneTable(ts, 3, tbl, 4);
    FromOf(ts, 2, [tbl], 4);
    StmtOf(ts, SelectClause(1, [col]), 2, FromClause(12, [tbl]), 4, NoWhere, 4);
  }

  /** Corrected, the statement with a string column parses. */
  lemma StringParsed()
    ensures ParseStmt(StringTokens) == Ok(StringStmt)
  {
    StringShape();
    StringWordsHold();
    StringAt(StringTokens);
  }
}
