/** The parser of `parser.go` as a class: the fields `pos`, `tok` and `lit`
    hold the one token of lookahead and every method advances the shared
    scanner. Each method is proved to compute what the function of the
    same name in `Grammar` computes from the token index it starts at, and
    a panic of the source is an error result. */
module Parsing {
  import opened Wrappers
  import opened Tokens
  import opened Scanning
  import opened Ast
  import opened Grammar

  /** The index of the token after `i`: EOF repeats. */
  function Succ(ts: TokenSource, i: int): int
  {
    if i < |ts.lexemes| then i + 1 else i
  }

  /** The offsets at which the scans of `Stream(src, base, o)` start, one
      per lexeme, then the offset of the scan that ends the stream; after
      an EOF also the offset it leaves, from which every later scan starts
      again. */
  function Offsets(src: seq<Byte>, base: int, o: nat): (r: seq<nat>)
    requires o <= |src|
    decreases |src| - o
  {
    [o] +
      match ScanAt(src, base, o)
      case Err(_) => []
      case Ok(step) =>
        if step.lex.tok == EOF then [step.next] else Offsets(src, base, step.next)
  }

  /** What the scan from offset `k` of `offs` yields when `offs` are the
      offsets of the scans of `ts`: lexeme `k` and the offset of the next
      scan, EOF at the end (again and again once it has been read), or the
      error that ends the stream. */
  function Scanned(ts: TokenSource, offs: seq<nat>, k: nat): Result<Step>
    requires |offs| == |ts.lexemes| + (if ts.tail.AtEof? then 2 else 1) && k < |offs|
  {
    if k < |ts.lexemes| then Ok(Step(ts.lexemes[k], offs[k + 1]))
    else if ts.tail.AtEof? then Ok(Step(Lexeme(ts.tail.eofPos, EOF, ""), offs[|offs| - 1]))
    else Err(ts.tail.msg)
  }

  /** The scans that start at the offsets `offs` of `src` yield the token
      source `ts`, one lexeme each. */
  ghost predicate Scans(src: seq<Byte>, base: int, ts: TokenSource, offs: seq<nat>)
  {
    |offs| == |ts.lexemes| + (if ts.tail.AtEof? then 2 else 1) &&
    (forall k :: 0 <= k < |offs| ==> offs[k] <= |src|) &&
    forall k {:trigger ScanAt(src, base, offs[k])} :: 0 <= k < |offs| ==>
      ScanAt(src, base, offs[k]) == Scanned(ts, offs, k)
  }

  /** The scanner's stream from `o` is what the scans at `Offsets` yield,
      the first of which starts at `o`. */
  lemma {:induction false} OffsetsScan(src: seq<Byte>, base: int, o: nat)
    requires o <= |src|
    ensures Offsets(src, base, o)[0] == o
    ensures Scans(src, base, Stream(src, base, o), Offsets(src, base, o))
    decreases |src| - o
  {
    StreamStep(src, base, o);
    ScanAtShape(src, base, o);
    match ScanAt(src, base, o)
    case Err(_) =>
      assert ScanAt(src, base, Offsets(src, base, o)[0]) == Scanned(Stream(src, base, o), Offsets(src, base, o), 0);
    case Ok(step) =>
      if step.lex.tok == EOF {
        ScanEnds(src, base, o, step);
      } else {
        OffsetsScan(src, base, step.next);
        ScansCons(src, base, o, step, Stream(src, base, step.next), Offsets(src, base, step.next));
      }
  }

  /** A scan that yields EOF ends the stream; the scan after it yields EOF
      again. */
  lemma ScanEnds(src: seq<Byte>, base: int, o: nat, step: Step)
    requires o <= |src| && ScanAt(src, base, o) == Ok(step) && step.lex.tok == EOF
    ensures Offsets(src, base, o) == [o, step.next]
    ensures Scans(src, base, Stream(src, base, o), Offsets(src, base, o))
  {
    StreamStep(src, base, o);
    ScanAtShape(src, base, o);
    EndScan(src, base, step.next);
    var offs, t := Offsets(src, base, o), Stream(src, base, o);
    assert t == TokenSource([], AtEof(base + |src|));
    assert ScanAt(src, base, offs[0]) == Scanned(t, offs, 0);
    assert ScanAt(src, base, offs[1]) == Scanned(t, offs, 1);
  }

  /** A scan that yields a lexeme puts it and its offset in front of the
      scans that follow. */
  lemma ScansCons(src: seq<Byte>, base: int, o: nat, step: Step, t: TokenSource, offs: seq<nat>)
    requires o <= |src| && ScanAt(src, base, o) == Ok(step) && step.lex.tok != EOF
    requires Scans(src, base, t, offs) && offs[0] == step.next
    ensures Scans(src, base, TokenSource([step.lex] + t.lexemes, t.tail), [o] + offs)
  {
    var t', offs' := TokenSource([step.lex] + t.lexemes, t.tail), [o] + offs;
    forall k | 0 <= k < |offs'|
      ensures ScanAt(src, base, offs'[k]) == Scanned(t', offs', k)
    {
      if 0 < k {
        assert offs'[k] == offs[k - 1];
        assert ScanAt(src, base, offs[k - 1]) == Scanned(t, offs, k - 1);
      }
    }
  }

  /** At the end of the file the scanner yields EOF and stays there. */
  lemma EndScan(src: seq<Byte>, base: int, o: nat)
    requires o == |src|
    ensures ScanAt(src, base, o) == Ok(Step(Lexeme(base + o, EOF, ""), o))
  {
    ScanAtShape(src, base, o);
  }

  /** The grammar's result for a table with an alias, one step at a time. */
  lemma AliasedTable(ts: TokenSource, i: int, e: TableExpr, j: nat, k: nat, m: nat, alias: string, endPos: int)
    requires Readable(ts, i) && ParseTableExpr(ts, i) == Ok(Parsed(e, j))
    requires Cur(ts, j).tok == ALIAS && Grammar.Next(ts, j) == Ok(k) && Grammar.Next(ts, k) == Ok(m)
    requires alias == Cur(ts, k).lit && endPos == Cur(ts, k).pos + |alias|
    ensures ParseTable(ts, i) == Ok(Parsed(Table(e, alias, endPos), m))
  {
  }

  /** The grammar's result for a column with an alias, one step at a time. */
  lemma AliasedColumn(ts: TokenSource, i: int, e: Expr, j: nat, k: nat, m: nat, alias: string, endPos: int)
    requires Readable(ts, i) && Grammar.ParseExpr(ts, i) == Ok(Parsed(e, j))
    requires Cur(ts, j).tok == ALIAS && Grammar.Next(ts, j) == Ok(k) && Grammar.Next(ts, k) == Ok(m)
    requires alias == Cur(ts, k).lit && endPos == Cur(ts, k).pos + |alias|
    ensures Grammar.ParseColumn(ts, i) == Ok(Parsed(Column(e, alias, endPos), m))
  {
  }

  /** The outcome of a parsing method agrees with the grammar's result `g`
      and the method leaves token `idx` current. */
  predicate Agrees<T(==)>(r: Result<T>, g: Result<Parsed<T>>, idx: int)
  {
    match g
    case Ok(p) => r == Ok(p.node) && idx == p.next
    case Err(e) => r == Err(e)
  }

  /** A result that agrees with the grammar's is an error exactly when the
      grammar's is, and then the same one. */
  lemma AgreesOn<T>(r: Result<T>, g: Result<Parsed<T>>, idx: int)
    requires Agrees(r, g, idx)
    ensures r.Err? ==> g == Err(r.error)
    ensures r.Ok? ==> g == Ok(Parsed(r.value, idx))
  {
  }

  class Parser {
    const sc: Scanner
    var pos: int
    var tok: Token
    var lit: string
    /** The tokens the scanner yields from the start of the file. */
    ghost const ts: TokenSource
    /** The offset each scan of `ts` starts at. */
    ghost const offsets: seq<nat>
    /** The index of the current token in `ts`, or -1 before the first scan. */
    ghost var idx: int

    /** `(pos, tok, lit)` is token `idx` and the scanner stands where the
        scan of the next token starts. */
    ghost predicate Valid()
      reads this, sc, sc.file
    {
      sc.Valid() && Scans(sc.src, sc.file.base, ts, offsets) &&
      -1 <= idx && idx + 1 < |offsets| && (0 <= idx ==> Readable(ts, idx) && Cur(ts, idx) == Lexeme(pos, tok, lit)) &&
      sc.offset == offsets[idx + 1]
    }

    /** A parser over a scanner that has not yet produced a token. */
    constructor (sc: Scanner)
      requires sc.Valid() && sc.offset == 0
      ensures this.sc == sc && ts == Stream(sc.src, sc.file.base, 0)
      ensures Valid() && idx == -1
    {
      this.sc := sc;
      pos := 0;
      tok := ILLEGAL;
      lit := "";
      ts := Stream(sc.src, sc.file.base, 0);
      offsets := Offsets(sc.src, sc.file.base, 0);
      idx := -1;
      OffsetsScan(sc.src, sc.file.base, 0);
    }

    /** `next`: the scanner's next token becomes current. */
    method Next() returns (r: Result<()>)
      requires Valid()
      modifies this, sc, sc.file
      ensures r.Err? <==> !Readable(ts, Succ(ts, old(idx)))
      ensures r.Err? ==> r.error == ts.tail.msg
      ensures r.Ok? ==> Valid() && idx == Succ(ts, old(idx))
    {
      ghost var scanned := ScanAt(sc.src, sc.file.base, offsets[idx + 1]);
      assert scanned == Scanned(ts, offsets, idx + 1);
      ghost var j := Succ(ts, idx);
      var s := sc.Scan();
      if s.Err? {
        return Err(s.error);
      }
      assert s.value == Cur(ts, j) && sc.offset == offsets[j + 1] by {
        assert scanned.Ok? && s.value == scanned.value.lex && sc.offset == scanned.value.next;
      }
      pos, tok, lit := s.value.pos, s.value.tok, s.value.lit;
      idx := j;
      r := Ok(());
    }

    /** `expect`: advances when the current token is `t`, and says whether
        it was. */
    method Expect(t: Token) returns (r: Result<bool>)
      requires Valid() && 0 <= idx
      modifies this, sc, sc.file
      ensures old(tok) != t ==> r == Ok(false) && idx == old(idx) && tok == old(tok) && Valid()
      ensures old(tok) == t ==>
        (r.Ok? <==> Grammar.Next(ts, old(idx)).Ok?) &&
        (r.Err? ==> r.error == ts.tail.msg) &&
        (r.Ok? ==> r == Ok(true) && Valid() && idx == Grammar.Next(ts, old(idx)).value)
    {
      if t == tok {
        var n := Next();
        if n.Err? {
          return Err(n.error);
        }
        return Ok(true);
      }
      return Ok(false);
    }

    /** `tokPrec`. */
    method TokPrec() returns (op: Token, prec: int)
      requires Valid()
      ensures op == tok && prec == Precedence(tok)
    {
      op := tok;
      prec := Precedence(tok);
    }

    /** `parsePrimaryExpr`, as `Grammar.ParsePrimary`. */
    method ParsePrimaryExpr() returns (r: Result<Expr>)
      requires Valid() && 0 <= idx
      modifies this, sc, sc.file
      ensures Agrees(r, ParsePrimary(ts, old(idx)), idx)
      ensures r.Ok? ==> Valid()
    {
      if tok == IDENT {
        var p, kind, l, tbl := pos, tok, lit, "";
        var n := Next();
        if n.Err? {
          return Err(n.error);
        }
        if tok == PERIOD {
          n := Next();
          if n.Err? {
            return Err(n.error);
          }
          tbl := l;
          l := lit;
          var e := Expect(IDENT);
          if e.Err? {
            return Err(e.error);
          }
          if !e.value {
            return Err(MissingColumn + String(tok));
          }
        }
        return Ok(Ident(tbl, p, kind, l));
      } else if tok == STRING {
        var b, v, k := pos, lit, tok;
        var n := Next();
        if n.Err? {
          return Err(n.error);
        }
        return Ok(BasicLit(b, v, k));
      }
      return Ok(Nil);
    }

    /** `parseUnaryExpr`, as `Grammar.ParseUnary`. */
    method ParseUnaryExpr() returns (r: Result<Expr>)
      requires Valid() && 0 <= idx
      modifies this, sc, sc.file
      ensures Agrees(r, ParseUnary(ts, old(idx)), idx)
      ensures r.Ok? ==> Valid()
      decreases Rem(ts, idx), 0
    {
      ghost var i0 := idx;
      if tok == ADD || tok == SUB {
        var p, op := pos, tok;
        var n := Next();
        if n.Err? {
          return Err(n.error);
        }
        var x := ParseUnaryExpr();
        if x.Err? {
          return Err(x.error);
        }
        return Ok(UnaryExpr(p, op, x.value));
      } else if tok == MUL {
        var p := pos;
        var n := Next();
        if n.Err? {
          return Err(n.error);
        }
        return Ok(BasicLit(p, "*", ASTA));
      }
      r := ParsePrimaryExpr();
    }

    /** `parseBinaryExpr`, as `Grammar.ParseBinary`: the loop keeps the
        grammar's result from the entry point equal to the result of
        `Grammar.BinaryLoop` from the expression built so far. */
    method ParseBinaryExpr(prec1: int) returns (r: Result<Expr>)
      requires Valid() && 0 <= idx && 1 <= prec1
      modifies this, sc, sc.file
      ensures Agrees(r, ParseBinary(ts, old(idx), prec1), idx)
      ensures r.Ok? ==> Valid()
      decreases Rem(ts, idx), 2
    {
      ghost var i0 := idx;
      BinaryStart(ts, i0, prec1);
      var u := ParseUnaryExpr();
      AgreesOn(u, ParseUnary(ts, i0), idx);
      if u.Err? {
        return Err(u.error);
      }
      var x := u.value;
      while true
        invariant Valid() && i0 <= idx
        invariant ParseBinary(ts, i0, prec1) == BinaryLoop(ts, x, idx, prec1)
        decreases Rem(ts, idx)
      {
        var op, opPrec := TokPrec();
        if opPrec < prec1 {
          assert BinaryLoop(ts, x, idx, prec1) == Ok(Parsed(x, idx));
          return Ok(x);
        }
        var y := ParseOperand(x, prec1);
        if y.Err? {
          return Err(y.error);
        }
        x := y.value;
      }
    }

    /** One turn of the `for` loop of `parseBinaryExpr` at an operator that
        binds at least `prec1`: the operator is consumed with `expect`, the
        right operand parsed one level tighter, and the grammar's loop from
        the combined expression is the loop from `x`. */
    method ParseOperand(x: Expr, prec1: int) returns (r: Result<Expr>)
      requires Valid() && 0 <= idx && 1 <= prec1 && Precedence(tok) >= prec1
      modifies this, sc, sc.file
      ensures r.Err? ==> BinaryLoop(ts, x, old(idx), prec1) == Err(r.error)
      ensures r.Ok? ==> Valid() && old(idx) < idx && BinaryLoop(ts, x, old(idx), prec1) == BinaryLoop(ts, r.value, idx, prec1)
      decreases Rem(ts, idx), 0
    {
      var op, opPrec := TokPrec();
      var p := pos;
      ghost var i := idx;
      var e := Expect(op);
      if e.Err? {
        assert BinaryLoop(ts, x, i, prec1) == Err(e.error) by {
          BinaryLoopStep(ts, x, i, prec1);
        }
        return Err(e.error);
      }
      ghost var g := ParseBinary(ts, idx, opPrec + 1);
      assert (g.Err? ==> BinaryLoop(ts, x, i, prec1) == Err(g.error)) &&
        (g.Ok? ==> BinaryLoop(ts, x, i, prec1) == BinaryLoop(ts, BinaryExpr(x, p, op, g.value.node), g.value.next, prec1)) by {
        BinaryLoopStep(ts, x, i, prec1);
      }
      var y := ParseBinaryExpr(opPrec + 1);
      AgreesOn(y, g, idx);
      if y.Err? {
        return Err(y.error);
      }
      r := Ok(BinaryExpr(x, p, op, y.value));
    }

    /** `parseExpr`. */
    method ParseExpr() returns (r: Result<Expr>)
      requires Valid() && 0 <= idx
      modifies this, sc, sc.file
      ensures Agrees(r, Grammar.ParseExpr(ts, old(idx)), idx)
      ensures r.Ok? ==> Valid()
    {
      r := ParseBinaryExpr(LowestPrec + 1);
    }

    /** `parseColumn`, as `Grammar.ParseColumn`. */
    method ParseColumn() returns (r: Result<Column>)
      requires Valid() && 0 <= idx
      modifies this, sc, sc.file
      ensures Agrees(r, Grammar.ParseColumn(ts, old(idx)), idx)
      ensures r.Ok? ==> Valid()
    {
      ghost var i0 := idx;
      var e := ParseExpr();
      if e.Err? {
        assert Grammar.ParseColumn(ts, i0) == Err(e.error);
        return Err(e.error);
      }
      var expr := e.value;
      ghost var j := idx;
      assert Grammar.ParseExpr(ts, i0) == Ok(Parsed(expr, j));
      var alias := "";
      var endPos;
      var a := Expect(ALIAS);
      if a.Err? {
        assert Grammar.ParseColumn(ts, i0) == Err(a.error);
        return Err(a.error);
      }
      if a.value {
        alias := lit;
        endPos := pos + |alias|;
        ghost var k := idx;
        assert Cur(ts, j).tok == ALIAS && Grammar.Next(ts, j) == Ok(k);
        assert alias == Cur(ts, k).lit && endPos == Cur(ts, k).pos + |Cur(ts, k).lit|;
        var n := Next();
        if n.Err? {
          assert Grammar.ParseColumn(ts, i0) == Err(n.error);
          return Err(n.error);
        }
        assert Grammar.Next(ts, k) == Ok(idx);
        AliasedColumn(ts, i0, expr, j, k, idx, alias, endPos);
      } else {
        if !expr.HasEnd() {
          assert Grammar.ParseColumn(ts, i0) == Err(NilDereference);
          return Err(NilDereference);
        }
        endPos := expr.End();
        assert Grammar.ParseColumn(ts, i0) == Ok(Parsed(Column(expr, alias, endPos), idx));
      }
      r := Ok(Column(expr, alias, endPos));
    }

    /** `parseColumns`: the loop keeps the grammar's result from the entry
        point equal to the result from the current token with the columns
        collected so far. */
    method ParseColumns() returns (r: Result<seq<Column>>)
      requires Valid() && 0 <= idx
      modifies this, sc, sc.file
      ensures Agrees(r, Grammar.ParseColumns(ts, old(idx), []), idx)
      ensures r.Ok? ==> Valid()
    {
      ghost var i0 := idx;
      var cols: seq<Column> := [];
      while true
        invariant Valid() && 0 <= idx
        invariant Grammar.ParseColumns(ts, i0, []) == Grammar.ParseColumns(ts, idx, cols)
        decreases Rem(ts, idx)
      {
        if tok == COMMA {
          var n := Next();
          if n.Err? {
            return Err(n.error);
          }
        } else if tok == FROM {
          return Ok(cols);
        } else {
          var c := ParseColumn();
          if c.Err? {
            return Err(c.error);
          }
          cols := cols + [c.value];
        }
      }
    }

    /** `parseSelect`, as `Grammar.ParseSelect`. */
    method ParseSelect() returns (r: Result<SelectClause>)
      requires Valid() && 0 <= idx
      modifies this, sc, sc.file
      ensures Agrees(r, Grammar.ParseSelect(ts, old(idx)), idx)
      ensures r.Ok? ==> Valid()
    {
      var p := pos;
      var e := Expect(SELECT);
      if e.Err? {
        return Err(e.error);
      }
      if !e.value {
        return Err(MissingSelect + String(tok));
      }
      var cols := ParseColumns();
      if cols.Err? {
        return Err(cols.error);
      }
      return Ok(SelectClause(p, cols.value));
    }

    /** `parseTableExpr`, as `Grammar.ParseTableExpr`. */
    method ParseTableExpr() returns (r: Result<TableExpr>)
      requires Valid() && 0 <= idx
      modifies this, sc, sc.file
      ensures Agrees(r, Grammar.ParseTableExpr(ts, old(idx)), idx)
      ensures r.Ok? ==> Valid()
    {
      if tok != IDENT {
        return Err(MissingTable + String(tok));
      }
      var b, name := pos, lit;
      var n := Next();
      if n.Err? {
        return Err(n.error);
      }
      return Ok(TableBasicLit(b, IDENT, name));
    }

    /** `parseTable`, as `Grammar.ParseTable`: the alias name is consumed. */
    method ParseTable() returns (r: Result<Table>)
      requires Valid() && 0 <= idx
      modifies this, sc, sc.file
      ensures Agrees(r, Grammar.ParseTable(ts, old(idx)), idx)
      ensures r.Ok? ==> Valid()
    {
      ghost var i0 := idx;
      var e := ParseTableExpr();
      if e.Err? {
        return Err(e.error);
      }
      var expr := e.value;
      ghost var j := idx;
      assert Grammar.ParseTableExpr(ts, i0) == Ok(Parsed(expr, j));
      var alias := "";
      var endPos := expr.End();
      var a := Expect(ALIAS);
      if a.Err? {
        assert Grammar.ParseTable(ts, i0) == Err(a.error);
        return Err(a.error);
      }
      if a.value {
        alias := lit;
        endPos := pos + |alias|;
        ghost var k := idx;
        assert Cur(ts, j).tok == ALIAS && Grammar.Next(ts, j) == Ok(k);
        assert alias == Cur(ts, k).lit && endPos == Cur(ts, k).pos + |Cur(ts, k).lit|;
        var n := Next();
        if n.Err? {
          assert Grammar.ParseTable(ts, i0) == Err(n.error);
          return Err(n.error);
        }
        assert Grammar.Next(ts, k) == Ok(idx);
        AliasedTable(ts, i0, expr, j, k, idx, alias, endPos);
      } else {
        assert Grammar.ParseTable(ts, i0) == Ok(Parsed(Table(expr, alias, endPos), idx));
      }
      return Ok(Table(expr, alias, endPos));
    }

    /** `parseTableList`, as `Grammar.ParseTableList`. */
    method ParseTableList() returns (r: Result<seq<Table>>)
      requires Valid() && 0 <= idx
      modifies this, sc, sc.file
      ensures Agrees(r, Grammar.ParseTableList(ts, old(idx), []), idx)
      ensures r.Ok? ==> Valid()
    {
      ghost var i0 := idx;
      var tables: seq<Table> := [];
      while true
        invariant Valid() && 0 <= idx
        invariant Grammar.ParseTableList(ts, i0, []) == Grammar.ParseTableList(ts, idx, tables)
        decreases Rem(ts, idx)
      {
        if tok == COMMA {
          var n := Next();
          if n.Err? {
            return Err(n.error);
          }
        } else if EndsTableList(tok) {
          return Ok(tables);
        } else {
          var t := ParseTable();
          if t.Err? {
            return Err(t.error);
          }
          tables := tables + [t.value];
        }
      }
    }

    /** `parseFrom`, as `Grammar.ParseFrom`. */
    method ParseFrom() returns (r: Result<FromClause>)
      requires Valid() && 0 <= idx
      modifies this, sc, sc.file
      ensures Agrees(r, Grammar.ParseFrom(ts, old(idx)), idx)
      ensures r.Ok? ==> Valid()
    {
      var p := pos;
      var e := Expect(FROM);
      if e.Err? {
        return Err(e.error);
      }
      if !e.value {
        return Err(MissingFrom + String(tok));
      }
      var tables := ParseTableList();
      if tables.Err? {
        return Err(tables.error);
      }
      return Ok(FromClause(p, tables.value));
    }

    /** `parseWhere`, as `Grammar.ParseWhere`. */
    method ParseWhere() returns (r: Result<WhereClause>)
      requires Valid() && 0 <= idx
      modifies this, sc, sc.file
      ensures Agrees(r, Grammar.ParseWhere(ts, old(idx)), idx)
      ensures r.Ok? ==> Valid()
    {
      var p := pos;
      var present := Expect(WHERE);
      if present.Err? {
        return Err(present.error);
      }
      if !present.value {
        return Ok(NoWhere);
      }
      var e := ParseExpr();
      if e.Err? {
        return Err(e.error);
      }
      return Ok(WhereClause(p, e.value, true));
    }

    /** `parseStmt`, as `Grammar.ParseStmt`: it scans the first token
        itself. */
    method ParseStmt() returns (r: Result<SelectStmt>)
      requires Valid() && idx == -1
      modifies this, sc, sc.file
      ensures r == Grammar.ParseStmt(ts)
    {
      var n := Next();
      if n.Err? {
        return Err(n.error);
      }
      if tok != SELECT {
        return Err(CannotParse);
      }
      var begin := pos;
      var s := ParseSelect();
      if s.Err? {
        return Err(s.error);
      }
      var f := ParseFrom();
      if f.Err? {
        return Err(f.error);
      }
      var w := ParseWhere();
      if w.Err? {
        return Err(w.error);
      }
      return Ok(SelectStmt(begin, s.value, f.value, w.value, NoGroupby, NoOrderby));
    }
  }

  /** `parse`: a fresh file set, so the file's base and its first position
      are 1 whatever the caller's file set holds. */
  method Parse(src: seq<Byte>, filename: string) returns (r: Result<SelectStmt>)
    ensures r == Grammar.ParseStmt(Stream(src, 1, 0))
  {
    var fs := new FileSet();
    var f := fs.AddFile(filename, -1, |src|);
    var file := f.value;
    var s := new Scanner.Init(file, src);
    var p := new Parser(s);
    r := p.ParseStmt();
  }

  /** The dynamic type of `ParseFile`'s `src` argument: a string or a byte
      slice (both carry the bytes to parse), a value of some other type,
      or nil, in which case the named file is read. */
  datatype Source = Text(text: seq<Byte>) | Bytes(bytes: seq<Byte>) | Other(typeName: string) | NoSource

  const WrongSourceType := "src expect string or []byte but got "

  /** `ParseFile`. Reading the file when `src` is nil is outside the model:
      `contents` is what reading it produced. The file set passed in is
      never used. */
  method ParseFile(fset: FileSet, filename: string, src: Source, contents: Result<seq<Byte>>)
    returns (r: Result<SelectStmt>)
    ensures src.Other? ==> r == Err(WrongSourceType + src.typeName)
    ensures src.Text? ==> r == Grammar.ParseStmt(Stream(src.text, 1, 0))
    ensures src.Bytes? ==> r == Grammar.ParseStmt(Stream(src.bytes, 1, 0))
    ensures src.NoSource? && contents.Err? ==> r == Err(contents.error)
    ensures src.NoSource? && contents.Ok? ==> r == Grammar.ParseStmt(Stream(contents.value, 1, 0))
  {
    var text;
    match src {
      case Text(t) => text := t;
      case Bytes(b) => text := b;
      case Other(typeName) => return Err(WrongSourceType + typeName);
      case NoSource =>
        if contents.Err? {
          return Err(contents.error);
        }
        text := contents.value;
    }
    r := Parse(text, filename);
  }
}
