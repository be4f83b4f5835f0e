/** What the recursive-descent parser computes, as functions over the
    scanner's token source. Index `i` names the current token (the parser's
    one token of lookahead); index `|lexemes|` is EOF, which repeats. A
    panic of the source is an error result here. The functions follow the
    source with the corrections listed in README under "Findings"; the
    members named `...AsWritten` keep the code as written. */
module Grammar {
  import opened Wrappers
  import opened Tokens
  import opened Scanning
  import opened Ast

  /** A parsed node and the index of the token after it. */
  datatype Parsed<T> = Parsed(node: T, next: nat)

  /** Token `i` has been scanned without error. */
  predicate Readable(ts: TokenSource, i: int)
  {
    0 <= i && (i < |ts.lexemes| || (i == |ts.lexemes| && ts.tail.AtEof?))
  }

  /** The current token `(p.pos, p.tok, p.lit)` at index `i`. */
  function Cur(ts: TokenSource, i: int): (l: Lexeme)
    requires Readable(ts, i)
    ensures i == |ts.lexemes| ==> l.tok == EOF && l.lit == ""
    ensures i < |ts.lexemes| ==> l == ts.lexemes[i]
  {
    if i < |ts.lexemes| then ts.lexemes[i] else Lexeme(ts.tail.eofPos, EOF, "")
  }

  /** `next`: scans one more token; at EOF the scanner keeps returning EOF,
      and scanning an unterminated string fails. */
  function Next(ts: TokenSource, i: int): (r: Result<nat>)
    requires Readable(ts, i)
    ensures r.Ok? ==> Readable(ts, r.value) && r.value == (if i < |ts.lexemes| then i + 1 else i)
    ensures r.Err? <==> i + 1 == |ts.lexemes| && ts.tail.Failure?
  {
    if i == |ts.lexemes| then Ok(i)
    else if i + 1 < |ts.lexemes| || ts.tail.AtEof? then Ok(i + 1)
    else Err(ts.tail.msg)
  }

  /** Tokens not yet consumed: the termination measure of every loop. */
  function Rem(ts: TokenSource, i: int): int
  {
    |ts.lexemes| - i
  }

  const CannotParse := "cannot parsed"
  const NilDereference := "runtime error: invalid memory address or nil pointer dereference"
  const MissingColumn := "expect column name after table name. but got "
  const MissingSelect := "select token expected but given "
  const MissingFrom := "from keyword is expected but get "
  const MissingTable := "table name expected but got "

  /** `parsePrimaryExpr`: an identifier, possibly qualified by a table name,
      or a string literal; any other token yields the nil expression and
      consumes nothing. */
  function ParsePrimary(ts: TokenSource, i: int): (r: Result<Parsed<Expr>>)
    requires Readable(ts, i)
    ensures r.Ok? ==> i <= r.value.next && Readable(ts, r.value.next)
    ensures r.Ok? ==> (r.value.next == i <==> r.value.node == Nil)
    ensures r.Ok? && r.value.node == Nil ==> Cur(ts, i).tok != IDENT && Cur(ts, i).tok != STRING
    ensures r.Ok? && Cur(ts, i).tok == IDENT ==>
      Readable(ts, i + 1) &&
      if Cur(ts, i + 1).tok == PERIOD then
        Readable(ts, i + 2) && Cur(ts, i + 2).tok == IDENT &&
        r.value.node == Ident(Cur(ts, i).lit, Cur(ts, i).pos, IDENT, Cur(ts, i + 2).lit)
      else
        r.value == Parsed(Ident("", Cur(ts, i).pos, IDENT, Cur(ts, i).lit), i + 1)
    ensures Cur(ts, i).tok == IDENT && Readable(ts, i + 2) && Cur(ts, i + 1).tok == PERIOD && Cur(ts, i + 2).tok != IDENT ==>
      r == Err(MissingColumn + String(Cur(ts, i + 2).tok))
  {
    var l := Cur(ts, i);
    if l.tok == IDENT then
      var j :- Next(ts, i);
      if Cur(ts, j).tok == PERIOD then
        var k :- Next(ts, j);
        var col := Cur(ts, k);
        if col.tok == IDENT then
          var m :- Next(ts, k);
          Ok(Parsed(Ident(l.lit, l.pos, IDENT, col.lit), m))
        else
          Err(MissingColumn + String(col.tok))
      else
        Ok(Parsed(Ident("", l.pos, IDENT, l.lit), j))
    else if l.tok == STRING then
      var j :- Next(ts, i);
      Ok(Parsed(BasicLit(l.pos, l.lit, STRING), j))
    else
      Ok(Parsed(Nil, i))
  }

  /** `parsePrimaryExpr` as written: a string literal is returned without
      advancing past it. */
  function ParsePrimaryAsWritten(ts: TokenSource, i: int): (r: Result<Parsed<Expr>>)
    requires Readable(ts, i)
    ensures r.Ok? ==> i <= r.value.next && Readable(ts, r.value.next)
    ensures Cur(ts, i).tok == STRING ==> r == Ok(Parsed(BasicLit(Cur(ts, i).pos, Cur(ts, i).lit, STRING), i))
    ensures Cur(ts, i).tok != STRING ==> r == ParsePrimary(ts, i)
  {
    var l := Cur(ts, i);
    if l.tok == STRING then Ok(Parsed(BasicLit(l.pos, l.lit, STRING), i))
    else ParsePrimary(ts, i)
  }

  /** The expressions `parseBinaryExpr(prec)` can return: every binary
      operator at the top binds at least as tightly as `prec`, a left
      operand at least as tightly as its operator and a right operand
      strictly more tightly (so equal precedences associate to the left),
      and the operand of a unary operator holds no binary operator at its
      top. */
  predicate Climbed(e: Expr, prec: int)
  {
    match e
    case BinaryExpr(x, _, op, y) =>
      prec <= Precedence(op) && Climbed(x, Precedence(op)) && Climbed(y, Precedence(op) + 1)
    case UnaryExpr(_, _, x) => Climbed(x, UnaryPrec)
    case _ => true
  }

  /** `parseUnaryExpr`: `+` and `-` wrap the unary expression after them,
      `*` is the wildcard literal of kind ASTA. */
  function ParseUnary(ts: TokenSource, i: int): (r: Result<Parsed<Expr>>)
    requires Readable(ts, i)
    ensures r.Ok? ==> i <= r.value.next && Readable(ts, r.value.next)
    ensures r.Ok? ==> (r.value.next == i <==> r.value.node == Nil)
    ensures r.Ok? ==> !r.value.node.BinaryExpr? && Climbed(r.value.node, UnaryPrec)
    decreases Rem(ts, i)
  {
    var l := Cur(ts, i);
    if l.tok == ADD || l.tok == SUB then
      var j :- Next(ts, i);
      var x :- ParseUnary(ts, j);
      Ok(Parsed(UnaryExpr(l.pos, l.tok, x.node), x.next))
    else if l.tok == MUL then
      var j :- Next(ts, i);
      Ok(Parsed(BasicLit(l.pos, "*", ASTA), j))
    else
      ParsePrimary(ts, i)
  }

  /** `parseBinaryExpr(prec1)`, precedence climbing: the result obeys
      `Climbed(_, prec1)` and parsing stops at a token whose precedence is
      below `prec1`. A `prec1` below 1 would let EOF count as an operator,
      which the callers never pass. */
  function ParseBinary(ts: TokenSource, i: int, prec1: int): (r: Result<Parsed<Expr>>)
    requires Readable(ts, i) && 1 <= prec1
    ensures r.Ok? ==> i <= r.value.next && Readable(ts, r.value.next)
    ensures r.Ok? ==> (r.value.next == i <==> r.value.node == Nil)
    ensures r.Ok? ==> Climbed(r.value.node, prec1) && Precedence(Cur(ts, r.value.next).tok) < prec1
    decreases Rem(ts, i), 1
  {
    var x :- ParseUnary(ts, i);
    BinaryLoop(ts, x.node, x.next, prec1)
  }

  /** The `for` loop of `parseBinaryExpr` with `x` parsed so far and `i`
      at the candidate operator. */
  function BinaryLoop(ts: TokenSource, x: Expr, i: int, prec1: int): (r: Result<Parsed<Expr>>)
    requires Readable(ts, i) && 1 <= prec1
    ensures r.Ok? ==> i <= r.value.next && Readable(ts, r.value.next)
    ensures r.Ok? && r.value.next == i ==> r.value.node == x
    ensures r.Ok? && r.value.next > i ==> r.value.node.BinaryExpr?
    ensures r.Ok? ==> Precedence(Cur(ts, r.value.next).tok) < prec1
    ensures r.Ok? && Climbed(x, prec1) && Climbed(x, Precedence(Cur(ts, i).tok)) ==> Climbed(r.value.node, prec1)
    decreases Rem(ts, i), 0
  {
    var op := Cur(ts, i).tok;
    var opPrec := Precedence(op);
    if opPrec < prec1 then Ok(Parsed(x, i))
    else
      var j :- Next(ts, i);
      var y :- ParseBinary(ts, j, opPrec + 1);
      BinaryLoop(ts, BinaryExpr(x, Cur(ts, i).pos, op, y.node), y.next, prec1)
  }

  /** The grammar's binary parse is the unary parse's error, or the loop
      from the unary operand. */
  lemma BinaryStart(ts: TokenSource, i: int, prec1: int)
    requires Readable(ts, i) && 1 <= prec1
    ensures ParseUnary(ts, i).Err? ==> ParseBinary(ts, i, prec1) == Err(ParseUnary(ts, i).error)
    ensures ParseUnary(ts, i).Ok? ==>
      ParseBinary(ts, i, prec1) == BinaryLoop(ts, ParseUnary(ts, i).value.node, ParseUnary(ts, i).value.next, prec1)
  {
  }

  /** One turn of the binary loop in the grammar: at an operator binding at
      least `prec1`, a failed advance or right operand is the loop's error,
      and otherwise the loop goes on from the combined expression. */
  lemma BinaryLoopStep(ts: TokenSource, x: Expr, i: int, prec1: int)
    requires Readable(ts, i) && 1 <= prec1 && Precedence(Cur(ts, i).tok) >= prec1
    ensures Next(ts, i).Err? ==> BinaryLoop(ts, x, i, prec1) == Err(Next(ts, i).error)
    ensures Next(ts, i).Ok? ==>
      var y := ParseBinary(ts, Next(ts, i).value, Precedence(Cur(ts, i).tok) + 1);
      (y.Err? ==> BinaryLoop(ts, x, i, prec1) == Err(y.error)) &&
      (y.Ok? ==>
         BinaryLoop(ts, x, i, prec1) ==
         BinaryLoop(ts, BinaryExpr(x, Cur(ts, i).pos, Cur(ts, i).tok, y.value.node), y.value.next, prec1))
  {
  }

  /** `parseExpr`. */
  function ParseExpr(ts: TokenSource, i: int): (r: Result<Parsed<Expr>>)
    requires Readable(ts, i)
    ensures r.Ok? ==> i <= r.value.next && Readable(ts, r.value.next)
    ensures r.Ok? ==> (r.value.next == i <==> r.value.node == Nil)
    ensures r.Ok? ==> Climbed(r.value.node, LowestPrec + 1) && Precedence(Cur(ts, r.value.next).tok) == LowestPrec
  {
    ParseBinary(ts, i, LowestPrec + 1)
  }

  /** `parseColumn`: an expression with an optional `AS name`; the name is
      consumed and the column ends after it, otherwise at the end of the
      expression. Ending a nil expression is a nil dereference. */
  function ParseColumn(ts: TokenSource, i: int): (r: Result<Parsed<Column>>)
    requires Readable(ts, i)
    ensures r.Ok? ==> i < r.value.next && Readable(ts, r.value.next)
  {
    var e :- ParseExpr(ts, i);
    if Cur(ts, e.next).tok == ALIAS then
      var j :- Next(ts, e.next);
      var name := Cur(ts, j);
      var k :- Next(ts, j);
      Ok(Parsed(Column(e.node, name.lit, name.pos + |name.lit|), k))
    else if e.node.HasEnd() then
      Ok(Parsed(Column(e.node, "", e.node.End()), e.next))
    else
      Err(NilDereference)
  }

  /** A column is the expression followed by an optional `AS name`: with
      the alias it ends after the name, which is consumed; without it, it
      ends where the expression ends, and a nil expression is an error. */
  lemma ColumnAlias(ts: TokenSource, i: int)
    requires Readable(ts, i)
    ensures ParseColumn(ts, i).Ok? ==> ParseExpr(ts, i).Ok? && ParseColumn(ts, i).value.node.value == ParseExpr(ts, i).value.node
    ensures ParseExpr(ts, i).Ok? ==>
      var e := ParseExpr(ts, i).value;
      var r := ParseColumn(ts, i);
      if Cur(ts, e.next).tok == ALIAS then
        (r.Ok? ==>
           Readable(ts, e.next + 1) && r.value.node.alias == Cur(ts, e.next + 1).lit &&
           r.value.node.endPos == Cur(ts, e.next + 1).pos + |Cur(ts, e.next + 1).lit| &&
           Next(ts, e.next + 1) == Ok(r.value.next))
      else
        (r.Ok? <==> e.node.HasEnd()) &&
        (r.Ok? ==> r.value == Parsed(Column(e.node, "", e.node.End()), e.next))
  {
  }

  /** `parseColumns`: columns separated by commas up to FROM, which is not
      consumed; `cols` are the columns collected so far. */
  function ParseColumns(ts: TokenSource, i: int, cols: seq<Column>): (r: Result<Parsed<seq<Column>>>)
    requires Readable(ts, i)
    ensures r.Ok? ==> i <= r.value.next && Readable(ts, r.value.next) && Cur(ts, r.value.next).tok == FROM
    ensures r.Ok? ==> |cols| <= |r.value.node| && r.value.node[..|cols|] == cols
    decreases Rem(ts, i)
  {
    var l := Cur(ts, i);
    if l.tok == COMMA then
      var j :- Next(ts, i);
      ParseColumns(ts, j, cols)
    else if l.tok == FROM then
      Ok(Parsed(cols, i))
    else
      var c :- ParseColumn(ts, i);
      ParseColumns(ts, c.next, cols + [c.node])
  }

  /** `parseSelect`. */
  function ParseSelect(ts: TokenSource, i: int): (r: Result<Parsed<SelectClause>>)
    requires Readable(ts, i)
    ensures r.Ok? ==> Cur(ts, i).tok == SELECT && r.value.node.begin == Cur(ts, i).pos
    ensures r.Ok? ==> i < r.value.next && Readable(ts, r.value.next) && Cur(ts, r.value.next).tok == FROM
    ensures Cur(ts, i).tok != SELECT ==> r == Err(MissingSelect + String(Cur(ts, i).tok))
  {
    var l := Cur(ts, i);
    if l.tok != SELECT then Err(MissingSelect + String(l.tok))
    else
      var j :- Next(ts, i);
      var cols :- ParseColumns(ts, j, []);
      Ok(Parsed(SelectClause(l.pos, cols.node), cols.next))
  }

  /** `parseTableExpr`, whose body the source leaves empty: the current
      identifier becomes a table name and is consumed; any other token is
      an error. */
  function ParseTableExpr(ts: TokenSource, i: int): (r: Result<Parsed<TableExpr>>)
    requires Readable(ts, i)
    ensures r.Ok? <==> Cur(ts, i).tok == IDENT && Next(ts, i).Ok?
    ensures r.Ok? ==> r.value == Parsed(TableBasicLit(Cur(ts, i).pos, IDENT, Cur(ts, i).lit), i + 1)
    ensures r.Ok? ==> Readable(ts, r.value.next)
  {
    var l := Cur(ts, i);
    if l.tok != IDENT then Err(MissingTable + String(l.tok))
    else
      var j :- Next(ts, i);
      Ok(Parsed(TableBasicLit(l.pos, IDENT, l.lit), j))
  }

  /** `parseTable`, with the alias name consumed as `parseColumn` does. */
  function ParseTable(ts: TokenSource, i: int): (r: Result<Parsed<Table>>)
    requires Readable(ts, i)
    ensures r.Ok? ==> i < r.value.next && Readable(ts, r.value.next)
    ensures r.Ok? ==> Cur(ts, i).tok == IDENT && r.value.node.value.name == Cur(ts, i).lit
  {
    var e :- ParseTableExpr(ts, i);
    if Cur(ts, e.next).tok == ALIAS then
      var j :- Next(ts, e.next);
      var name := Cur(ts, j);
      var k :- Next(ts, j);
      Ok(Parsed(Table(e.node, name.lit, name.pos + |name.lit|), k))
    else
      Ok(Parsed(Table(e.node, "", e.node.End()), e.next))
  }

  /** A table is a name followed by an optional `AS alias`: with the alias
      it ends after the alias, which is consumed; without it, it ends after
      the name. */
  lemma TableAlias(ts: TokenSource, i: int)
    requires Readable(ts, i)
    ensures var r := ParseTable(ts, i);
      r.Ok? && Cur(ts, i + 1).tok == ALIAS ==>
        Readable(ts, i + 2) && Next(ts, i + 2) == Ok(r.value.next) && r.value.node.alias == Cur(ts, i + 2).lit &&
        r.value.node.endPos == Cur(ts, i + 2).pos + |Cur(ts, i + 2).lit|
    ensures var r := ParseTable(ts, i);
      r.Ok? && Cur(ts, i + 1).tok != ALIAS ==>
        r.value.next == i + 1 && r.value.node.alias == "" && r.value.node.endPos == r.value.node.value.End()
  {
  }

  /** `parseTable` as written: after `AS` the alias is read but the parser
      stays on the alias name. */
  function ParseTableAsWritten(ts: TokenSource, i: int): (r: Result<Parsed<Table>>)
    requires Readable(ts, i)
    ensures r.Ok? ==> i < r.value.next && Readable(ts, r.value.next)
    ensures r.Ok? && Cur(ts, i + 1).tok == ALIAS ==>
      r.value.next == i + 2 && r.value.node.alias == Cur(ts, i + 2).lit
  {
    var e :- ParseTableExpr(ts, i);
    if Cur(ts, e.next).tok == ALIAS then
      var j :- Next(ts, e.next);
      var name := Cur(ts, j);
      Ok(Parsed(Table(e.node, name.lit, name.pos + |name.lit|), j))
    else
      Ok(Parsed(Table(e.node, "", e.node.End()), e.next))
  }

  /** The tokens that end the table list: WHERE, EOF and the statement's
      closing `;`. */
  predicate EndsTableList(t: Token)
    ensures EndsTableList(t) ==> t != COMMA && t != IDENT
  {
    t == WHERE || t == EOF || t == SEMICOLON
  }

  /** `parseTableList`: tables separated by commas up to a token that ends
      the list, which is not consumed. */
  function ParseTableList(ts: TokenSource, i: int, tables: seq<Table>): (r: Result<Parsed<seq<Table>>>)
    requires Readable(ts, i)
    ensures r.Ok? ==> i <= r.value.next && Readable(ts, r.value.next) && EndsTableList(Cur(ts, r.value.next).tok)
    ensures r.Ok? ==> |tables| <= |r.value.node| && r.value.node[..|tables|] == tables
    decreases Rem(ts, i)
  {
    var l := Cur(ts, i);
    if l.tok == COMMA then
      var j :- Next(ts, i);
      ParseTableList(ts, j, tables)
    else if EndsTableList(l.tok) then
      Ok(Parsed(tables, i))
    else
      var t :- ParseTable(ts, i);
      ParseTableList(ts, t.next, tables + [t.node])
  }

  /** `parseTableList` as written: the loop ends only at WHERE or EOF, and
      each table is parsed by `parseTable` as written. */
  function ParseTableListAsWritten(ts: TokenSource, i: int, tables: seq<Table>): (r: Result<Parsed<seq<Table>>>)
    requires Readable(ts, i)
    ensures r.Ok? ==> i <= r.value.next && Readable(ts, r.value.next)
    ensures r.Ok? ==> Cur(ts, r.value.next).tok == WHERE || Cur(ts, r.value.next).tok == EOF
    decreases Rem(ts, i)
  {
    var l := Cur(ts, i);
    if l.tok == COMMA then
      var j :- Next(ts, i);
      ParseTableListAsWritten(ts, j, tables)
    else if l.tok == WHERE || l.tok == EOF then
      Ok(Parsed(tables, i))
    else
      var t :- ParseTableAsWritten(ts, i);
      ParseTableListAsWritten(ts, t.next, tables + [t.node])
  }

  /** `parseFrom`. */
  function ParseFrom(ts: TokenSource, i: int): (r: Result<Parsed<FromClause>>)
    requires Readable(ts, i)
    ensures r.Ok? ==> Cur(ts, i).tok == FROM && r.value.node.begin == Cur(ts, i).pos
    ensures r.Ok? ==> i < r.value.next && Readable(ts, r.value.next) && EndsTableList(Cur(ts, r.value.next).tok)
    ensures Cur(ts, i).tok != FROM ==> r == Err(MissingFrom + String(Cur(ts, i).tok))
  {
    var l := Cur(ts, i);
    if l.tok != FROM then Err(MissingFrom + String(l.tok))
    else
      var j :- Next(ts, i);
      var tables :- ParseTableList(ts, j, []);
      Ok(Parsed(FromClause(l.pos, tables.node), tables.next))
  }

  /** `parseWhere`: without WHERE nothing is consumed and the clause is
      absent; otherwise it begins at WHERE and holds the expression after it. */
  function ParseWhere(ts: TokenSource, i: int): (r: Result<Parsed<WhereClause>>)
    requires Readable(ts, i)
    ensures Cur(ts, i).tok != WHERE ==> r == Ok(Parsed(NoWhere, i))
    ensures Cur(ts, i).tok == WHERE && r.Ok? ==>
      r.value.node.present && r.value.node.begin == Cur(ts, i).pos && i < r.value.next &&
      Readable(ts, i + 1) && ParseExpr(ts, i + 1) == Ok(Parsed(r.value.node.condExpr, r.value.next))
  {
    var l := Cur(ts, i);
    if l.tok != WHERE then Ok(Parsed(NoWhere, i))
    else
      var j :- Next(ts, i);
      var e :- ParseExpr(ts, j);
      Ok(Parsed(WhereClause(l.pos, e.node, true), e.next))
  }

  /** `parseStmt` on the whole token source: a statement must start with
      SELECT; GROUP BY and ORDER BY are never parsed, so they come out
      absent. */
  function ParseStmt(ts: TokenSource): (r: Result<SelectStmt>)
    ensures !Readable(ts, 0) ==> r == Err(ts.tail.msg)
    ensures Readable(ts, 0) && Cur(ts, 0).tok != SELECT ==> r == Err(CannotParse)
    ensures r.Ok? ==> (Readable(ts, 0) && Cur(ts, 0).tok == SELECT &&
                       r.value.begin == r.value.select.begin == Cur(ts, 0).pos)
    ensures r.Ok? ==> !r.value.groupby.present && !r.value.orderby.present
  {
    if !Readable(ts, 0) then Err(ts.tail.msg)
    else
      var l := Cur(ts, 0);
      if l.tok != SELECT then Err(CannotParse)
      else
        var s :- ParseSelect(ts, 0);
        var f :- ParseFrom(ts, s.next);
        var w :- ParseWhere(ts, f.next);
        Ok(SelectStmt(l.pos, s.node, f.node, w.node, NoGroupby, NoOrderby))
  }
}
