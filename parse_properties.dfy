/** Source order of the syntax tree: over a token source whose lexemes lie
    one after the other, every node the parser builds starts at the token
    it was parsed from and ends no later than the token after it, and its
    parts appear in the order of the text. */
module ParseProperties {
  import opened Wrappers
  import opened Tokens
  import opened Scanning
  import opened Ast
  import opened Grammar

  /** Tokens further on lie further on: a token ends no later than any
      later token starts. */
  lemma {:induction false} PosMonotone(ts: TokenSource, from: int, j: int, k: int)
    requires Ordered(ts, from) && Readable(ts, j) && Readable(ts, k) && j < k
    ensures Cur(ts, j).pos + |Cur(ts, j).lit| <= Cur(ts, k).pos
    decreases k - j
  {
    if j + 1 < k {
      PosMonotone(ts, from, j, k - 1);
      assert Cur(ts, k - 1).pos + |Cur(ts, k - 1).lit| <= Cur(ts, k).pos;
    }
  }

  /** Positions never decrease along the source. */
  lemma PosOrder(ts: TokenSource, from: int, j: int, k: int)
    requires Ordered(ts, from) && Readable(ts, j) && Readable(ts, k) && j <= k
    ensures Cur(ts, j).pos <= Cur(ts, k).pos
  {
    if j < k {
      PosMonotone(ts, from, j, k);
    }
  }

  /** Expression `e`, parsed from token `i` with token `next` after it,
      starts at token `i`, ends between the start of token `i` and the start
      of token `next`, and keeps its parts in source order. */
  predicate Placed(ts: TokenSource, e: Expr, i: int, next: int)
    requires Readable(ts, i) && Readable(ts, next)
  {
    e.WellPlaced() && (e.HasPos() ==> e.Pos() == Cur(ts, i).pos) &&
    (e.HasEnd() ==> Cur(ts, i).pos <= e.End() <= Cur(ts, next).pos)
  }

  lemma PrimaryPlaced(ts: TokenSource, from: int, i: int)
    requires Ordered(ts, from) && Readable(ts, i)
    ensures var r := ParsePrimary(ts, i); r.Ok? ==> Placed(ts, r.value.node, i, r.value.next)
  {
    var r := ParsePrimary(ts, i);
    if r.Ok? && r.value.next > i {
      PosMonotone(ts, from, i, r.value.next);
      if Cur(ts, i).tok == IDENT && Cur(ts, i + 1).tok == PERIOD {
        PosMonotone(ts, from, i + 2, r.value.next);
      }
    }
  }

  lemma {:induction false} UnaryPlaced(ts: TokenSource, from: int, i: int)
    requires Ordered(ts, from) && Readable(ts, i)
    ensures var r := ParseUnary(ts, i); r.Ok? ==> Placed(ts, r.value.node, i, r.value.next)
    decreases Rem(ts, i), 0
  {
    var l := Cur(ts, i);
    if l.tok == ADD || l.tok == SUB {
      var j := Next(ts, i);
      if j.Ok? {
        var x := ParseUnary(ts, j.value);
        if x.Ok? {
          UnaryPlaced(ts, from, j.value);
          PosMonotone(ts, from, i, j.value);
          PosOrder(ts, from, j.value, x.value.next);
        }
      }
    } else if l.tok == MUL {
      var j := Next(ts, i);
      if j.Ok? {
        PosMonotone(ts, from, i, j.value);
      }
    } else {
      PrimaryPlaced(ts, from, i);
    }
  }

  lemma {:induction false} BinaryPlaced(ts: TokenSource, from: int, i: int, prec1: int)
    requires Ordered(ts, from) && Readable(ts, i) && 1 <= prec1
    ensures var r := ParseBinary(ts, i, prec1); r.Ok? ==> Placed(ts, r.value.node, i, r.value.next)
    decreases Rem(ts, i), 3
  {
    var x := ParseUnary(ts, i);
    if x.Ok? {
      UnaryPlaced(ts, from, i);
      LoopPlaced(ts, from, x.value.node, i, x.value.next, prec1);
    }
  }

  /** The loop keeps `x` placed from `b` and extends it to the right. */
  lemma {:induction false} LoopPlaced(ts: TokenSource, from: int, x: Expr, b: int, i: int, prec1: int)
    requires Ordered(ts, from) && Readable(ts, b) && Readable(ts, i) && b <= i && 1 <= prec1
    requires Placed(ts, x, b, i)
    ensures var r := BinaryLoop(ts, x, i, prec1); r.Ok? ==> Placed(ts, r.value.node, b, r.value.next)
    decreases Rem(ts, i), 2
  {
    if Precedence(Cur(ts, i).tok) < prec1 {
      assert BinaryLoop(ts, x, i, prec1) == Ok(Parsed(x, i));
    } else {
      LoopOn(ts, from, x, b, i, prec1);
    }
  }

  /** One turn of the loop at an operator binding at least `prec1`. */
  lemma {:induction false} LoopOn(ts: TokenSource, from: int, x: Expr, b: int, i: int, prec1: int)
    requires Ordered(ts, from) && Readable(ts, b) && Readable(ts, i) && b <= i && 1 <= prec1
    requires Placed(ts, x, b, i) && Precedence(Cur(ts, i).tok) >= prec1
    ensures var r := BinaryLoop(ts, x, i, prec1); r.Ok? ==> Placed(ts, r.value.node, b, r.value.next)
    decreases Rem(ts, i), 1
  {
    var op := Cur(ts, i).tok;
    var opPrec := Precedence(op);
    BinaryLoopStep(ts, x, i, prec1);
    var j := Next(ts, i);
    if j.Ok? {
      var y := ParseBinary(ts, j.value, opPrec + 1);
      if y.Ok? {
        BinaryPlaced(ts, from, j.value, opPrec + 1);
        var z := BinaryExpr(x, Cur(ts, i).pos, op, y.value.node);
        CombinedPlaced(ts, from, x, b, i, j.value, y.value.node, y.value.next);
        LoopPlaced(ts, from, z, b, y.value.next, prec1);
      }
    }
  }

  /** An operator at token `i` between an operand placed from `b` to `i`
      and an operand placed from `j`, the token after `i`, to `next`. */
  lemma CombinedPlaced(ts: TokenSource, from: int, x: Expr, b: int, i: int, j: int, y: Expr, next: int)
    requires Ordered(ts, from) && Readable(ts, b) && Readable(ts, i) && Readable(ts, j) && Readable(ts, next)
    requires b <= i < j <= next && Precedence(Cur(ts, i).tok) > LowestPrec
    requires Placed(ts, x, b, i) && Placed(ts, y, j, next)
    ensures Placed(ts, BinaryExpr(x, Cur(ts, i).pos, Cur(ts, i).tok, y), b, next)
  {
    assert i < |ts.lexemes| && LexemeShape(ts.lexemes[i]);
    PosMonotone(ts, from, i, j);
    PosOrder(ts, from, b, i);
    PosOrder(ts, from, j, next);
  }

  lemma ExprPlaced(ts: TokenSource, from: int, i: int)
    requires Ordered(ts, from) && Readable(ts, i)
    ensures var r := ParseExpr(ts, i); r.Ok? ==> Placed(ts, r.value.node, i, r.value.next)
  {
    BinaryPlaced(ts, from, i, LowestPrec + 1);
  }

  /** Column `c`, parsed from token `i` with token `next` after it. */
  predicate ColumnAt(ts: TokenSource, c: Column, i: int, next: int)
    requires Readable(ts, i) && Readable(ts, next)
  {
    c.value.WellPlaced() && (c.value.HasPos() ==> c.Pos() == Cur(ts, i).pos) &&
    Cur(ts, i).pos <= c.End() <= Cur(ts, next).pos
  }

  lemma ColumnPlaced(ts: TokenSource, from: int, i: int)
    requires Ordered(ts, from) && Readable(ts, i)
    ensures var r := ParseColumn(ts, i); r.Ok? ==> ColumnAt(ts, r.value.node, i, r.value.next)
  {
    var r := ParseColumn(ts, i);
    if r.Ok? {
      ColumnAlias(ts, i);
      ExprPlaced(ts, from, i);
      var e := ParseExpr(ts, i).value;
      if Cur(ts, e.next).tok == ALIAS {
        PosOrder(ts, from, i, e.next + 1);
        if r.value.next > e.next + 1 {
          PosMonotone(ts, from, e.next + 1, r.value.next);
        }
      }
    }
  }

  /** Columns between `lo` and `hi`, each after the one before. */
  predicate ColumnsWithin(cols: seq<Column>, lo: int, hi: int)
  {
    (forall k :: 0 <= k < |cols| ==>
       cols[k].value.WellPlaced() && lo <= cols[k].End() <= hi &&
       (cols[k].value.HasPos() ==> lo <= cols[k].Pos() <= cols[k].End())) &&
    (forall k :: 0 < k < |cols| ==>
       cols[k - 1].End() <= cols[k].End() && (cols[k].value.HasPos() ==> cols[k - 1].End() <= cols[k].Pos()))
  }

  lemma {:induction false} ColumnsPlaced(ts: TokenSource, from: int, i: int, cols: seq<Column>, lo: int)
    requires Ordered(ts, from) && Readable(ts, i)
    requires lo <= Cur(ts, i).pos && ColumnsWithin(cols, lo, Cur(ts, i).pos)
    ensures var r := ParseColumns(ts, i, cols); r.Ok? ==> ColumnsWithin(r.value.node, lo, Cur(ts, r.value.next).pos)
    decreases Rem(ts, i)
  {
    var l := Cur(ts, i);
    if l.tok == COMMA {
      var j := Next(ts, i);
      if j.Ok? {
        PosOrder(ts, from, i, j.value);
        ColumnsPlaced(ts, from, j.value, cols, lo);
      }
    } else if l.tok != FROM {
      var c := ParseColumn(ts, i);
      if c.Ok? {
        ColumnPlaced(ts, from, i);
        var more := cols + [c.value.node];
        assert ColumnsWithin(more, lo, Cur(ts, c.value.next).pos);
        ColumnsPlaced(ts, from, c.value.next, more, lo);
      }
    }
  }

  /** Table `t`, parsed from token `i` with token `next` after it. */
  predicate TableAt(ts: TokenSource, t: Table, i: int, next: int)
    requires Readable(ts, i) && Readable(ts, next)
  {
    t.Pos() == Cur(ts, i).pos <= t.End() <= Cur(ts, next).pos
  }

  lemma TablePlaced(ts: TokenSource, from: int, i: int)
    requires Ordered(ts, from) && Readable(ts, i)
    ensures var r := ParseTable(ts, i); r.Ok? ==> TableAt(ts, r.value.node, i, r.value.next)
  {
    var r := ParseTable(ts, i);
    if r.Ok? {
      TableAlias(ts, i);
      PosMonotone(ts, from, i, i + 1);
      if Cur(ts, i + 1).tok == ALIAS {
        PosOrder(ts, from, i + 1, i + 2);
        if r.value.next > i + 2 {
          PosMonotone(ts, from, i + 2, r.value.next);
        }
      }
    }
  }

  /** Tables between `lo` and `hi`, each after the one before. */
  predicate TablesWithin(tables: seq<Table>, lo: int, hi: int)
  {
    (forall k :: 0 <= k < |tables| ==> lo <= tables[k].Pos() <= tables[k].End() <= hi) &&
    (forall k :: 0 < k < |tables| ==> tables[k - 1].End() <= tables[k].Pos())
  }

  lemma {:induction false} TablesPlaced(ts: TokenSource, from: int, i: int, tables: seq<Table>, lo: int)
    requires Ordered(ts, from) && Readable(ts, i)
    requires lo <= Cur(ts, i).pos && TablesWithin(tables, lo, Cur(ts, i).pos)
    ensures var r := ParseTableList(ts, i, tables); r.Ok? ==> TablesWithin(r.value.node, lo, Cur(ts, r.value.next).pos)
    decreases Rem(ts, i)
  {
    var l := Cur(ts, i);
    if l.tok == COMMA {
      var j := Next(ts, i);
      if j.Ok? {
        PosOrder(ts, from, i, j.value);
        TablesPlaced(ts, from, j.value, tables, lo);
      }
    } else if !EndsTableList(l.tok) {
      var t := ParseTable(ts, i);
      if t.Ok? {
        TablePlaced(ts, from, i);
        var more := tables + [t.value.node];
        assert TablesWithin(more, lo, Cur(ts, t.value.next).pos);
        TablesPlaced(ts, from, t.value.next, more, lo);
      }
    }
  }

  /** The position of the last token: EOF when the source reaches it,
      otherwise the last lexeme before the lexical error. */
  function LastPos(ts: TokenSource): int
  {
    if ts.tail.AtEof? then ts.tail.eofPos
    else if |ts.lexemes| > 0 then ts.lexemes[|ts.lexemes| - 1].pos
    else 0
  }

  lemma CurBounded(ts: TokenSource, from: int, k: int)
    requires Ordered(ts, from) && Readable(ts, k)
    ensures Cur(ts, k).pos <= LastPos(ts)
  {
    if ts.tail.AtEof? {
      PosOrder(ts, from, k, |ts.lexemes|);
    } else {
      PosOrder(ts, from, k, |ts.lexemes| - 1);
    }
  }

  lemma TablesWiden(tables: seq<Table>, lo: int, hi: int, hi2: int)
    requires TablesWithin(tables, lo, hi) && hi <= hi2
    ensures TablesWithin(tables, lo, hi2)
  {
  }

  /** The columns of a SELECT clause lie after SELECT and before FROM. */
  lemma SelectPlaced(ts: TokenSource, from: int, i: int)
    requires Ordered(ts, from) && Readable(ts, i)
    ensures var r := ParseSelect(ts, i); r.Ok? ==>
      ColumnsWithin(r.value.node.cols, r.value.node.begin + 1, Cur(ts, r.value.next).pos)
  {
    var r := ParseSelect(ts, i);
    if r.Ok? {
      var j := Next(ts, i).value;
      PosMonotone(ts, from, i, j);
      ColumnsPlaced(ts, from, j, [], Cur(ts, i).pos + 1);
    }
  }

  /** The tables of a FROM clause lie after FROM and before the token that
      ends the list. */
  lemma FromPlaced(ts: TokenSource, from: int, i: int)
    requires Ordered(ts, from) && Readable(ts, i)
    ensures var r := ParseFrom(ts, i); r.Ok? ==>
      TablesWithin(r.value.node.tables, r.value.node.begin + 1, Cur(ts, r.value.next).pos)
  {
    var r := ParseFrom(ts, i);
    if r.Ok? {
      var j := Next(ts, i).value;
      PosMonotone(ts, from, i, j);
      TablesPlaced(ts, from, j, [], Cur(ts, i).pos + 1);
    }
  }

  /** The condition of a WHERE clause lies after WHERE. */
  lemma WherePlaced(ts: TokenSource, from: int, i: int)
    requires Ordered(ts, from) && Readable(ts, i)
    ensures var r := ParseWhere(ts, i); r.Ok? && r.value.node.present ==>
      var c := r.value.node.condExpr;
      c.WellPlaced() && (c.HasPos() ==> r.value.node.begin < c.Pos()) &&
      (c.HasEnd() ==> c.End() <= Cur(ts, r.value.next).pos)
  {
    var r := ParseWhere(ts, i);
    if r.Ok? && r.value.node.present {
      ExprPlaced(ts, from, i + 1);
      PosMonotone(ts, from, i, i + 1);
    }
  }

  /** A parsed statement is made of its three parsed clauses. */
  lemma StmtParts(ts: TokenSource)
    requires ParseStmt(ts).Ok?
    ensures Readable(ts, 0) && ParseSelect(ts, 0).Ok?
    ensures var s := ParseSelect(ts, 0).value; ParseFrom(ts, s.next).Ok?
    ensures var s := ParseSelect(ts, 0).value; var f := ParseFrom(ts, s.next).value;
      ParseWhere(ts, f.next).Ok? &&
      ParseStmt(ts).value.select == s.node && ParseStmt(ts).value.from == f.node &&
      ParseStmt(ts).value.where == ParseWhere(ts, f.next).value.node
  {
  }

  /** Source order of a parsed statement: every column lies after SELECT
      and ends no later than FROM starts, each after the one before; every
      table lies after FROM and ends no later than WHERE starts (or the last
      token, without WHERE), each after the one before; the WHERE condition
      lies after WHERE. */
  lemma StmtPlaced(ts: TokenSource, from: int)
    requires Ordered(ts, from)
    ensures var r := ParseStmt(ts); r.Ok? ==>
      var s := r.value;
      ColumnsWithin(s.select.cols, s.select.begin + 1, s.from.begin) &&
      TablesWithin(s.from.tables, s.from.begin + 1, if s.where.present then s.where.begin else LastPos(ts)) &&
      (s.where.present ==>
         s.where.condExpr.WellPlaced() &&
         (s.where.condExpr.HasPos() ==> s.where.begin < s.where.condExpr.Pos()) &&
         (s.where.condExpr.HasEnd() ==> s.where.condExpr.End() <= LastPos(ts)))
  {
    var r := ParseStmt(ts);
    if r.Ok? {
      StmtParts(ts);
      var sc := ParseSelect(ts, 0).value;
      SelectPlaced(ts, from, 0);
      var fc := ParseFrom(ts, sc.next).value;
      FromPlaced(ts, from, sc.next);
      var wc := ParseWhere(ts, fc.next).value;
      WherePlaced(ts, from, fc.next);
      if wc.node.present {
        CurBounded(ts, from, wc.next);
      } else {
        CurBounded(ts, from, fc.next);
        TablesWiden(fc.node.tables, fc.node.begin + 1, Cur(ts, fc.next).pos, LastPos(ts));
      }
    }
  }

  /** The statement parsed from the scanner's own stream is in source order. */
  lemma ScannedStmtPlaced(src: seq<Byte>, base: int)
    ensures var ts := Stream(src, base, 0); var r := ParseStmt(ts); r.Ok? ==>
      var s := r.value;
      ColumnsWithin(s.select.cols, s.select.begin + 1, s.from.begin) &&
      TablesWithin(s.from.tables, s.from.begin + 1, if s.where.present then s.where.begin else LastPos(ts)) &&
      (s.where.present ==>
         s.where.condExpr.WellPlaced() &&
         (s.where.condExpr.HasPos() ==> s.where.begin < s.where.condExpr.Pos()) &&
         (s.where.condExpr.HasEnd() ==> s.where.condExpr.End() <= LastPos(ts)))
  {
    StreamOrdered(src, base, 0);
    StmtPlaced(Stream(src, base, 0), base);
  }
}
