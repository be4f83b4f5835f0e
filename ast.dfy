/** The syntax tree of a SELECT statement and the positions of its nodes.
    `Pos` is the position of a node's first character and `End` the
    position just after it; an absent optional clause reports 0 for both.
    Where the source panics (an empty list, a nil expression) the function
    carries a precondition. */
module Ast {
  import opened Tokens

  /** An expression. `Nil` is the nil `Expr` interface value, which the
      parser leaves where no primary expression was recognised; asking it
      for a position is a nil dereference in the source. */
  datatype Expr =
    | Nil
    | Ident(tblName: string, litPos: int, kind: Token, lit: string)
    | BasicLit(begin: int, value: string, kind: Token)
    | UnaryExpr(opPos: int, op: Token, x: Expr)
    | BinaryExpr(x: Expr, opPos: int, op: Token, y: Expr)
    | CallExpr(begin: int, funcName: string, lparen: int, args: seq<Expr>, rparen: int)
    | CaseExpr(begin: int, hasSwitchKey: bool, switchKey: Expr, whens: seq<WhenClause>, elseClause: ElseClause, endPos: int)
    | IsNullExpr(operand: Expr, isPos: int, nullPos: int)
  {
    /** `Pos` does not reach a nil expression. */
    predicate HasPos()
    {
      match this
      case Nil => false
      case BinaryExpr(x, _, _, _) => x.HasPos()
      case IsNullExpr(operand, _, _) => operand.HasPos()
      case _ => true
    }

    /** `End` does not reach a nil expression. */
    predicate HasEnd()
    {
      match this
      case Nil => false
      case UnaryExpr(_, _, x) => x.HasEnd()
      case BinaryExpr(_, _, _, y) => y.HasEnd()
      case _ => true
    }

    function Pos(): int
      requires HasPos()
    {
      match this
      case Ident(_, litPos, _, _) => litPos
      case BasicLit(begin, _, _) => begin
      case UnaryExpr(opPos, _, _) => opPos
      case BinaryExpr(x, _, _, _) => x.Pos()
      case CallExpr(begin, _, _, _, _) => begin
      case CaseExpr(begin, _, _, _, _, _) => begin
      case IsNullExpr(operand, _, _) => operand.Pos()
    }

    function End(): int
      requires HasEnd()
    {
      match this
      case Ident(_, litPos, _, lit) => litPos + |lit|
      case BasicLit(begin, value, _) => begin + |value|
      case UnaryExpr(_, _, x) => x.End()
      case BinaryExpr(_, _, _, y) => y.End()
      case CallExpr(_, _, _, _, rparen) => rparen + 1
      case CaseExpr(_, _, _, _, _, endPos) => endPos + |String(END)|
      case IsNullExpr(_, _, nullPos) => nullPos + |String(NULL)|
    }

    /** Neither `Pos` nor `End` of this node or of an operand reaches nil. */
    predicate Complete()
    {
      match this
      case Nil => false
      case UnaryExpr(_, _, x) => x.Complete()
      case BinaryExpr(x, _, _, y) => x.Complete() && y.Complete()
      case IsNullExpr(operand, _, _) => operand.Complete()
      case _ => true
    }

    /** The operands and keywords of a node appear in source order: an
        operator after its left operand and before its right one, a closing
        keyword after the opening one. */
    predicate WellPlaced()
    {
      match this
      case Nil => true
      case Ident(_, _, _, _) => true
      case BasicLit(_, _, _) => true
      case UnaryExpr(opPos, _, x) =>
        x.WellPlaced() && (x.HasPos() ==> opPos < x.Pos())
      case BinaryExpr(x, opPos, _, y) =>
        x.WellPlaced() && y.WellPlaced() &&
        (x.HasEnd() ==> x.End() <= opPos) && (y.HasPos() ==> opPos < y.Pos())
      case CallExpr(begin, _, lparen, _, rparen) => begin <= lparen < rparen
      case CaseExpr(begin, _, _, _, _, endPos) => begin <= endPos
      case IsNullExpr(operand, isPos, nullPos) =>
        operand.WellPlaced() && (operand.HasEnd() ==> operand.End() <= isPos) && isPos < nullPos
    }
  }

  /** `WhenClause`. */
  datatype WhenClause = WhenClause(begin: int, condExpr: Expr, thenPos: int, resultExpr: Expr)
  {
    function Pos(): int { begin }

    function End(): int
      requires resultExpr.HasEnd()
    {
      resultExpr.End()
    }
  }

  /** `ElseClause`; `present` is the `Exists` flag, and an absent clause
      reports position 0. */
  datatype ElseClause = ElseClause(begin: int, resultExpr: Expr, present: bool)
  {
    function Pos(): int { if !present then 0 else begin }

    function End(): int
      requires present ==> resultExpr.HasEnd()
    {
      if !present then 0 else resultExpr.End()
    }
  }

  /** `TableBasicLit`, the only table expression. */
  datatype TableExpr = TableBasicLit(begin: int, kind: Token, name: string)
  {
    function Pos(): int { begin }
    function End(): int { begin + |name| }
  }

  /** A table of the FROM list; its end is stored, after the alias if any. */
  datatype Table = Table(value: TableExpr, alias: string, endPos: int)
  {
    function Pos(): int { value.Pos() }
    function End(): int { endPos }
  }

  /** A column of the SELECT list; its end is stored, after the alias if any. */
  datatype Column = Column(value: Expr, alias: string, endPos: int)
  {
    function Pos(): int
      requires value.HasPos()
    {
      value.Pos()
    }

    function End(): int { endPos }
  }

  datatype SelectClause = SelectClause(begin: int, cols: seq<Column>)
  {
    function Pos(): int { begin }

    /** An empty column list is a panic in the source. */
    function End(): int
      requires |cols| > 0
    {
      cols[|cols| - 1].End()
    }
  }

  datatype FromClause = FromClause(begin: int, tables: seq<Table>)
  {
    function Pos(): int { begin }

    /** An empty table list is a panic in the source. */
    function End(): int
      requires |tables| > 0
    {
      tables[|tables| - 1].End()
    }
  }

  datatype WhereClause = WhereClause(begin: int, condExpr: Expr, present: bool)
  {
    function Pos(): int { if !present then 0 else begin }

    function End(): int
      requires present ==> condExpr.HasEnd()
    {
      if !present then 0 else condExpr.End()
    }
  }

  datatype GroupbyClause = GroupbyClause(begin: int, byPos: int, groups: seq<Expr>, present: bool)
  {
    function Pos(): int { if !present then 0 else begin }

    /** A present clause with no groups is a panic in the source. */
    function End(): int
      requires present ==> |groups| > 0 && groups[|groups| - 1].HasEnd()
    {
      if !present then 0 else groups[|groups| - 1].End()
    }
  }

  datatype OrderbyClause = OrderbyClause(begin: int, byPos: int, orders: seq<Expr>, present: bool)
  {
    function Pos(): int { if !present then 0 else begin }

    /** A present clause with no orders is a panic in the source. */
    function End(): int
      requires present ==> |orders| > 0 && orders[|orders| - 1].HasEnd()
    {
      if !present then 0 else orders[|orders| - 1].End()
    }
  }

  const NoGroupby := GroupbyClause(0, 0, [], false)
  const NoOrderby := OrderbyClause(0, 0, [], false)
  const NoWhere := WhereClause(0, Nil, false)

  datatype SelectStmt = SelectStmt(begin: int, select: SelectClause, from: FromClause, where: WhereClause,
                                   groupby: GroupbyClause, orderby: OrderbyClause)
  {
    function Pos(): int { begin }

    /** `End` consults the GROUP BY clause if present, else the WHERE
        clause if present, else the FROM clause. */
    predicate HasEnd()
    {
      if groupby.present then |groupby.groups| > 0 && groupby.groups[|groupby.groups| - 1].HasEnd()
      else if where.present then where.condExpr.HasEnd()
      else |from.tables| > 0
    }

    function End(): int
      requires HasEnd()
    {
      if groupby.present then groupby.End()
      else if where.present then where.End()
      else from.End()
    }
  }

  /** Absent optional clauses report position 0 at both ends. */
  lemma AbsentClauses(w: WhereClause, g: GroupbyClause, o: OrderbyClause, e: ElseClause)
    ensures !w.present ==> w.Pos() == 0 && w.End() == 0
    ensures !g.present ==> g.Pos() == 0 && g.End() == 0
    ensures !o.present ==> o.Pos() == 0 && o.End() == 0
    ensures !e.present ==> e.Pos() == 0 && e.End() == 0
  {
  }

  /** The end of a statement comes from the last clause present among
      GROUP BY, WHERE and FROM; ORDER BY is not consulted. */
  lemma StatementEnd(s: SelectStmt)
    requires s.HasEnd()
    ensures s.groupby.present ==> s.End() == s.groupby.groups[|s.groupby.groups| - 1].End()
    ensures !s.groupby.present && s.where.present ==> s.End() == s.where.condExpr.End()
    ensures !s.groupby.present && !s.where.present ==> s.End() == s.from.tables[|s.from.tables| - 1].endPos
    ensures forall o: OrderbyClause :: s.(orderby := o).HasEnd() && s.(orderby := o).End() == s.End()
    ensures s.Pos() == s.begin
  {
  }

  /** Neither `Pos` nor `End` of an expression with no nil operand reaches
      the nil value. */
  lemma {:induction false} CompleteReaches(e: Expr)
    requires e.Complete()
    ensures e.HasPos() && e.HasEnd()
  {
    match e
    case UnaryExpr(_, _, x) =>
      CompleteReaches(x);
    case BinaryExpr(x, _, _, y) =>
      CompleteReaches(x);
      CompleteReaches(y);
    case IsNullExpr(operand, _, _) =>
      CompleteReaches(operand);
    case _ =>
  }

  /** A compound expression begins with its first part and ends with its
      last: a prefix operator at the operator and with its operand, a binary
      expression with its two operands, an IS NULL test with its operand and
      a call and a CASE expression at their first token. */
  lemma ExprSpans(e: Expr)
    ensures e.UnaryExpr? ==> e.Pos() == e.opPos && (e.x.HasEnd() ==> e.End() == e.x.End())
    ensures e.BinaryExpr? && e.x.HasPos() ==> e.Pos() == e.x.Pos()
    ensures e.BinaryExpr? && e.y.HasEnd() ==> e.End() == e.y.End()
    ensures e.IsNullExpr? && e.operand.HasPos() ==> e.Pos() == e.operand.Pos()
    ensures e.CallExpr? ==> e.Pos() == e.begin && (e.lparen < e.End() <==> e.lparen <= e.rparen)
    ensures e.CaseExpr? ==> e.Pos() == e.begin
    ensures e.Ident? ==> e.Pos() == e.litPos
    ensures e.BasicLit? ==> e.Pos() == e.begin
  {
  }

  /** A WHEN clause runs from its keyword to the end of its result; a
      present ELSE clause likewise. */
  lemma CaseParts(w: WhenClause, c: ElseClause)
    ensures w.Pos() == w.begin
    ensures w.resultExpr.HasEnd() ==> w.End() == w.resultExpr.End()
    ensures c.present ==> c.Pos() == c.begin
    ensures c.present && c.resultExpr.HasEnd() ==> c.End() == c.resultExpr.End()
  {
  }

  /** A listed table or column begins where its expression begins and ends
      at its stored end, which lies past the alias when there is one. */
  lemma ListedItems(t: Table, c: Column)
    ensures t.Pos() == t.value.begin && t.End() == t.endPos
    ensures c.value.HasPos() ==> c.Pos() == c.value.Pos()
    ensures c.End() == c.endPos
  {
  }

  /** A clause begins at its keyword and ends where its last element ends. */
  lemma ClauseSpans(s: SelectClause, f: FromClause, w: WhereClause, g: GroupbyClause, o: OrderbyClause)
    ensures s.Pos() == s.begin && (|s.cols| > 0 ==> s.End() == s.cols[|s.cols| - 1].endPos)
    ensures f.Pos() == f.begin && (|f.tables| > 0 ==> f.End() == f.tables[|f.tables| - 1].endPos)
    ensures w.present ==> w.Pos() == w.begin && (w.condExpr.HasEnd() ==> w.End() == w.condExpr.End())
    ensures g.present ==> g.Pos() == g.begin
    ensures g.present && |g.groups| > 0 && g.groups[|g.groups| - 1].HasEnd() ==>
      g.End() == g.groups[|g.groups| - 1].End()
    ensures o.present ==> o.Pos() == o.begin
    ensures o.present && |o.orders| > 0 && o.orders[|o.orders| - 1].HasEnd() ==>
      o.End() == o.orders[|o.orders| - 1].End()
  {
  }

  /** A leaf spans exactly its text; a call ends one past its `)`, and a
      CASE expression and an IS NULL test end past the spelling of their
      closing keyword, three and four positions on. */
  lemma NodeWidths(e: Expr, t: TableExpr)
    ensures e.Ident? ==> e.End() - e.Pos() == |e.lit|
    ensures e.BasicLit? ==> e.End() - e.Pos() == |e.value|
    ensures t.End() - t.Pos() == |t.name|
    ensures e.CallExpr? ==> e.End() == e.rparen + 1
    ensures e.CaseExpr? ==> e.End() == e.endPos + 3
    ensures e.IsNullExpr? ==> e.End() == e.nullPos + 4
  {
    assert String(END) == "END" && String(NULL) == "NULL";
  }

  /** A complete expression whose parts are in source order starts no later
      than it ends. */
  lemma {:induction false} SpanOrdered(e: Expr)
    requires e.Complete() && e.WellPlaced()
    ensures e.HasPos() && e.HasEnd()
    ensures e.Pos() <= e.End()
  {
    match e
    case UnaryExpr(_, _, x) =>
      SpanOrdered(x);
    case BinaryExpr(x, _, _, y) =>
      SpanOrdered(x);
      SpanOrdered(y);
    case IsNullExpr(operand, _, _) =>
      SpanOrdered(operand);
    case _ =>
  }
}
