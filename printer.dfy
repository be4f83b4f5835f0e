/** The printer of `printer.go`: it appends the formatted statement to an
    output buffer, one clause keyword per line and one list element per
    indented line, while tracking the indent and the output line and
    column. What the printer writes is specified by `StmtOut`. */
module Printing {
  import opened Wrappers
  import opened Tokens
  import opened Ast

  /** `Config`: whether a `;` ends the statement, the spaces per indent
      level, and the line break. */
  datatype Config = Config(impliedSemi: bool, indentWidth: nat, newlineChar: string)

  /** The configuration `Fprint` sets. */
  const DefaultConfig := Config(true, 4, "\n")

  /** `n` spaces, as `strings.Repeat(" ", n)`. */
  function Spaces(n: nat): (r: string)
    ensures |r| == n && forall k :: 0 <= k < n ==> r[k] == ' '
  {
    if n == 0 then "" else Spaces(n - 1) + " "
  }

  /** What `appendNewline` writes at indent level `ind`. */
  function Break(cfg: Config, ind: nat): string
  {
    cfg.newlineChar + Spaces(ind * cfg.indentWidth)
  }

  /** The text of a column: the spelling of a basic literal's kind, or
      nothing for any other expression; the alias is never printed. */
  function ColumnText(c: Column): string
  {
    match c.value
    case BasicLit(_, _, kind) => String(kind)
    case _ => ""
  }

  /** The text of a table: its name; the alias is never printed. */
  function TableText(t: Table): string
  {
    t.value.name
  }

  function ColumnTexts(cols: seq<Column>): (r: seq<string>)
    ensures |r| == |cols| && forall k :: 0 <= k < |cols| ==> r[k] == ColumnText(cols[k])
  {
    seq(|cols|, k requires 0 <= k < |cols| => ColumnText(cols[k]))
  }

  function TableTexts(tables: seq<Table>): (r: seq<string>)
    ensures |r| == |tables| && forall k :: 0 <= k < |tables| ==> r[k] == TableText(tables[k])
  {
    seq(|tables|, k requires 0 <= k < |tables| => TableText(tables[k]))
  }

  /** What follows element `k` of a list of `n` at indent `ind`: a comma
      and a break at the same indent after all but the last, and a break
      one level out after the last. */
  function Separator(cfg: Config, n: nat, k: nat, ind: nat): string
    requires k < n && 1 <= ind
  {
    if k < n - 1 then "," + Break(cfg, ind) else Break(cfg, ind - 1)
  }

  /** What the list loop writes for element `k` of `items` at indent `ind`. */
  function ItemOut(cfg: Config, items: seq<string>, k: nat, ind: nat): string
    requires k < |items| && 1 <= ind
  {
    items[k] + Separator(cfg, |items|, k, ind)
  }

  /** What the list loop has written after its first `k` iterations. */
  function ListOut(cfg: Config, items: seq<string>, ind: nat, k: nat): string
    requires k <= |items| && 1 <= ind
  {
    if k == 0 then "" else ListOut(cfg, items, ind, k - 1) + ItemOut(cfg, items, k - 1, ind)
  }

  /** One iteration of the list loop: after the first `k` elements have
      been written, appending element `k` and its separator gives the first
      `k + 1`. */
  lemma ListStep(cfg: Config, items: seq<string>, ind: nat, k: nat, out0: string, before: string, after: string)
    requires k < |items| && 1 <= ind
    requires before == out0 + ListOut(cfg, items, ind, k)
    requires after == (before + items[k]) + Separator(cfg, |items|, k, ind)
    ensures after == out0 + ListOut(cfg, items, ind, k + 1)
  {
    Assoc(before, items[k], Separator(cfg, |items|, k, ind));
    Assoc(out0, ListOut(cfg, items, ind, k), ItemOut(cfg, items, k, ind));
  }

  lemma AppendEmpty(s: string)
    ensures s + "" == s
  {
  }

  lemma Assoc(a: string, b: string, c: string)
    ensures (a + b) + c == a + (b + c)
  {
  }

  /** The indent after a list printed at `ind`: one level out, unless the
      list was empty and the loop never ran. */
  function AfterList(ind: nat, n: nat): nat
    requires 1 <= ind
  {
    if n == 0 then ind else ind - 1
  }

  /** The elements joined by `sep`, as a reference for the list layout. */
  function Joined(items: seq<string>, sep: string): string
    requires |items| >= 1
  {
    if |items| == 1 then items[0] else items[0] + sep + Joined(items[1..], sep)
  }

  /** Appending an element to a joined list appends the separator and the
      element. */
  lemma {:induction false} JoinedSnoc(items: seq<string>, x: string, sep: string)
    requires |items| >= 1
    ensures Joined(items + [x], sep) == Joined(items, sep) + sep + x
    decreases |items|
  {
    var longer := items + [x];
    if |items| == 1 {
      assert longer[1..] == [x];
    } else {
      assert longer[1..] == items[1..] + [x];
      JoinedSnoc(items[1..], x, sep);
      calc {
        Joined(longer, sep);
        items[0] + sep + Joined(items[1..] + [x], sep);
        items[0] + sep + (Joined(items[1..], sep) + sep + x);
        { Assoc(items[0] + sep, Joined(items[1..], sep) + sep, x);
          Assoc(items[0] + sep, Joined(items[1..], sep), sep); }
        Joined(items, sep) + sep + x;
      }
    }
  }

  /** The list loop lays a non-empty list out as its elements joined by a
      comma and a break at the list's indent, followed by a break one level
      out; part way through, the first `k` elements have been written, each
      followed by the separator. */
  lemma {:induction false} ListLayout(cfg: Config, items: seq<string>, ind: nat, k: nat)
    requires 1 <= k <= |items| && 1 <= ind
    ensures k < |items| ==> ListOut(cfg, items, ind, k) == Joined(items[..k], "," + Break(cfg, ind)) + ("," + Break(cfg, ind))
    ensures k == |items| ==> ListOut(cfg, items, ind, k) == Joined(items, "," + Break(cfg, ind)) + Break(cfg, ind - 1)
    decreases k
  {
    var sep := "," + Break(cfg, ind);
    var tail := if k < |items| then sep else Break(cfg, ind - 1);
    assert ItemOut(cfg, items, k - 1, ind) == items[k - 1] + tail;
    if k == 1 {
      assert items[..1] == [items[0]];
    } else {
      ListLayout(cfg, items, ind, k - 1);
      assert items[..k - 1] + [items[k - 1]] == items[..k];
      JoinedSnoc(items[..k - 1], items[k - 1], sep);
      calc {
        ListOut(cfg, items, ind, k);
        (Joined(items[..k - 1], sep) + sep) + (items[k - 1] + tail);
        { Assoc(Joined(items[..k - 1], sep) + sep, items[k - 1], tail); }
        Joined(items[..k], sep) + tail;
      }
    }
    if k == |items| {
      assert items[..k] == items;
    }
  }

  /** Regrouping what a clause method appends after the existing output. */
  lemma ClauseText(o: string, kw: string, b: string, l: string, out: string)
    requires out == o + kw + b + l
    ensures out == o + (kw + b + l)
  {
    Assoc(o, kw, b);
    Assoc(o, kw + b, l);
  }

  /** What `selectClause` writes at indent `ind`. */
  function SelectOut(cfg: Config, node: SelectClause, ind: nat): string
  {
    String(SELECT) + Break(cfg, ind + 1) + ListOut(cfg, ColumnTexts(node.cols), ind + 1, |node.cols|)
  }

  /** What `fromClause` writes at indent `ind`. */
  function FromOut(cfg: Config, node: FromClause, ind: nat): string
  {
    String(FROM) + Break(cfg, ind + 1) + ListOut(cfg, TableTexts(node.tables), ind + 1, |node.tables|)
  }

  /** What `selectStmt` writes from indent `ind`: the SELECT clause, the
      FROM clause and the implied semicolon; WHERE is not printed. */
  function StmtOut(cfg: Config, node: SelectStmt, ind: nat): string
  {
    var ind1 := AfterList(ind + 1, |node.select.cols|);
    SelectOut(cfg, node.select, ind) + FromOut(cfg, node.from, ind1) + if cfg.impliedSemi then ";" else ""
  }

  /** The default configuration's breaks and list separator. */
  lemma DefaultBreaks()
    ensures Break(DefaultConfig, 1) == "\n    " && Break(DefaultConfig, 0) == "\n"
    ensures "," + Break(DefaultConfig, 1) == ",\n    "
  {
    assert Spaces(4) == "    ";
  }

  /** With the default configuration a SELECT clause with columns is the
      keyword, then the columns one per line indented by four spaces and
      separated by commas, then a line break. */
  lemma SelectLayout(node: SelectClause)
    requires |node.cols| >= 1
    ensures SelectOut(DefaultConfig, node, 0) == "SELECT\n    " + (Joined(ColumnTexts(node.cols), ",\n    ") + "\n")
  {
    DefaultBreaks();
    ListLayout(DefaultConfig, ColumnTexts(node.cols), 1, |node.cols|);
    assert String(SELECT) + "\n    " == "SELECT\n    ";
  }

  /** The same layout for a FROM clause with tables. */
  lemma FromLayout(node: FromClause)
    requires |node.tables| >= 1
    ensures FromOut(DefaultConfig, node, 0) == "FROM\n    " + (Joined(TableTexts(node.tables), ",\n    ") + "\n")
  {
    DefaultBreaks();
    ListLayout(DefaultConfig, TableTexts(node.tables), 1, |node.tables|);
    assert String(FROM) + "\n    " == "FROM\n    ";
  }

  lemma Regroup(x: string, c: string, n: string, f: string, t: string, e: string)
    ensures (x + (c + n)) + (f + (t + n)) + e == x + c + (n + f) + t + (n + e)
  {
    Assoc(x, c, n);
    Assoc(x + c + n, f, t + n);
    Assoc(x + c + n + f, t, n);
    Assoc(x + c, n, f);
    Assoc(x + c + (n + f) + t, n, e);
  }

  /** The layout `Fprint` produces for a statement with columns and tables:
      each keyword on its own line, the list elements below it one per line,
      indented by four spaces and separated by commas, and the `;` on a line
      of its own. */
  lemma StmtLayout(node: SelectStmt)
    requires |node.select.cols| >= 1 && |node.from.tables| >= 1
    ensures StmtOut(DefaultConfig, node, 0) ==
      "SELECT\n    " + Joined(ColumnTexts(node.select.cols), ",\n    ") + "\nFROM\n    " +
      Joined(TableTexts(node.from.tables), ",\n    ") + "\n;"
  {
    SelectLayout(node.select);
    FromLayout(node.from);
    var c, t := Joined(ColumnTexts(node.select.cols), ",\n    "), Joined(TableTexts(node.from.tables), ",\n    ");
    assert "\n" + "FROM\n    " == "\nFROM\n    " && "\n" + ";" == "\n;";
    Regroup("SELECT\n    ", c, "\n", "FROM\n    ", t, ";");
  }

  /** The indent `selectStmt` leaves behind, starting from `ind`. */
  function StmtIndent(node: SelectStmt, ind: nat): nat
  {
    AfterList(AfterList(ind + 1, |node.select.cols|) + 1, |node.from.tables|)
  }

  /** A node `printNode` is handed: a SELECT statement, or a value of some
      other type. */
  datatype Node = StmtNode(stmt: SelectStmt) | OtherNode(typeName: string)

  const UnsupportedNode := "gofmt/ast: unsupported node type "

  class Printer {
    const cfg: Config
    var indent: int
    var output: string
    /** `outputPos`: the line and column the output has reached. */
    var line: int
    var column: int

    /** Indent levels never go below zero, so every break is well formed. */
    ghost predicate Valid()
      reads this
    {
      indent >= 0
    }

    /** The printer as `Fprint` sets it up. */
    constructor ()
      ensures cfg == DefaultConfig && Valid()
      ensures indent == 0 && output == "" && line == 1 && column == 1
    {
      cfg := DefaultConfig;
      indent := 0;
      output := "";
      line := 1;
      column := 1;
    }

    /** `appendNewline`: a line break followed by the indent. */
    method AppendNewline()
      requires Valid()
      modifies this`output, this`line, this`column
      ensures output == old(output) + Break(cfg, indent)
      ensures line == old(line) + 1 && column == 1 + indent * cfg.indentWidth
    {
      output := output + cfg.newlineChar;
      line := line + 1;
      column := 1 + indent * cfg.indentWidth;
      output := output + Spaces(column - 1);
    }

    /** `insertSemi`: the statement's `;` when the configuration asks for it. */
    method InsertSemi()
      modifies this`output, this`column
      ensures cfg.impliedSemi ==> output == old(output) + ";" && column == old(column) + 1
      ensures !cfg.impliedSemi ==> output == old(output) && column == old(column)
    {
      if cfg.impliedSemi {
        output := output + ";";
        column := column + 1;
      }
    }

    /** `alias`: its body is empty, so an alias is never printed. */
    method Alias(name: string)
    {
      if name != "" {
      }
    }

    /** The end of one list iteration, as both list loops write it: the
        separator after element `i` of `n`, and the indent one level out
        after the last. */
    method EndItem(i: nat, n: nat)
      requires Valid() && indent >= 1 && i < n
      modifies this`output, this`line, this`column, this`indent
      ensures Valid() && indent == if i == n - 1 then old(indent) - 1 else old(indent)
      ensures output == old(output) + Separator(cfg, n, i, old(indent))
      ensures line == old(line) + 1 && column == 1 + indent * cfg.indentWidth
    {
      ghost var o := output;
      if i < n - 1 {
        output := output + ",";
      } else {
        indent := indent - 1;
      }
      AppendNewline();
      if i < n - 1 {
        Assoc(o, ",", Break(cfg, indent));
      }
    }

    /** The type switch in the column loop: a basic literal's text is
        written and moves the column on; any other expression writes
        nothing. */
    method ColumnValue(c: Column)
      modifies this`output, this`column
      ensures output == old(output) + ColumnText(c)
      ensures column == old(column) + |ColumnText(c)|
    {
      if c.value.BasicLit? {
        var expr := String(c.value.kind);
        output := output + expr;
        column := column + |expr|;
        Alias(c.alias);
      } else {
        AppendEmpty(output);
      }
    }

    /** `columnList`: each column on its own line, a comma after all but the
        last, and the indent one level out after the last. A basic
        literal's text moves the column on, until the next break resets it. */
    method ColumnList(cols: seq<Column>)
      requires Valid() && indent >= 1
      modifies this`output, this`line, this`column, this`indent
      ensures Valid() && indent == AfterList(old(indent), |cols|)
      ensures output == old(output) + ListOut(cfg, ColumnTexts(cols), old(indent), |cols|)
      ensures line == old(line) + |cols|
      ensures column == if |cols| == 0 then old(column) else 1 + indent * cfg.indentWidth
    {
      ghost var ind := indent;
      ghost var out0 := output;
      for i := 0 to |cols|
        invariant indent == if 0 < i == |cols| then ind - 1 else ind
        invariant output == out0 + ListOut(cfg, ColumnTexts(cols), ind, i)
        invariant line == old(line) + i
        invariant column == if i == 0 then old(column) else 1 + indent * cfg.indentWidth
      {
        ColumnItem(cols, i, ind, out0);
      }
    }

    /** One iteration of the column loop: the column's text and the
        separator after it. */
    method ColumnItem(cols: seq<Column>, i: nat, ghost ind: nat, ghost out0: string)
      requires Valid() && indent == ind >= 1 && i < |cols|
      requires output == out0 + ListOut(cfg, ColumnTexts(cols), ind, i)
      modifies this`output, this`line, this`column, this`indent
      ensures Valid() && indent == if i == |cols| - 1 then ind - 1 else ind
      ensures output == out0 + ListOut(cfg, ColumnTexts(cols), ind, i + 1)
      ensures line == old(line) + 1 && column == 1 + indent * cfg.indentWidth
    {
      ghost var before := output;
      ColumnValue(cols[i]);
      EndItem(i, |cols|);
      ListStep(cfg, ColumnTexts(cols), ind, i, out0, before, output);
    }

    /** `tableList`: each table name on its own line, a comma after all but
        the last, and the indent one level out after the last. */
    method TableList(tables: seq<Table>)
      requires Valid() && indent >= 1
      modifies this`output, this`line, this`column, this`indent
      ensures Valid() && indent == AfterList(old(indent), |tables|)
      ensures output == old(output) + ListOut(cfg, TableTexts(tables), old(indent), |tables|)
      ensures line == old(line) + |tables|
      ensures column == if |tables| == 0 then old(column) else 1 + indent * cfg.indentWidth
    {
      ghost var ind := indent;
      ghost var out0 := output;
      for i := 0 to |tables|
        invariant indent == if 0 < i == |tables| then ind - 1 else ind
        invariant output == out0 + ListOut(cfg, TableTexts(tables), ind, i)
        invariant line == old(line) + i
        invariant column == if i == 0 then old(column) else 1 + indent * cfg.indentWidth
      {
        ghost var before := output;
        output := output + tables[i].value.name;
        Alias(tables[i].alias);
        EndItem(i, |tables|);
        ListStep(cfg, TableTexts(tables), ind, i, out0, before, output);
      }
    }

    /** The start of both clauses: the keyword, then a break one level in. */
    method Keyword(kw: string)
      requires Valid()
      modifies this`output, this`line, this`column, this`indent
      ensures Valid() && indent == old(indent) + 1
      ensures output == old(output) + kw + Break(cfg, indent)
      ensures line == old(line) + 1 && column == 1 + indent * cfg.indentWidth
    {
      output := output + kw;
      indent := indent + 1;
      AppendNewline();
    }

    /** `selectClause`: the SELECT keyword, one level in, then the columns. */
    method SelectClause(node: SelectClause)
      requires Valid()
      modifies this`output, this`line, this`column, this`indent
      ensures Valid() && indent == AfterList(old(indent) + 1, |node.cols|)
      ensures output == old(output) + SelectOut(cfg, node, old(indent))
      ensures line == old(line) + 1 + |node.cols|
      ensures column == 1 + indent * cfg.indentWidth
    {
      ghost var o := output;
      Keyword(String(SELECT));
      ColumnList(node.cols);
      ClauseText(o, String(SELECT), Break(cfg, old(indent) + 1), ListOut(cfg, ColumnTexts(node.cols), old(indent) + 1, |node.cols|), output);
    }

    /** `fromClause`: the FROM keyword, one level in, then the tables. */
    method FromClause(node: FromClause)
      requires Valid()
      modifies this`output, this`line, this`column, this`indent
      ensures Valid() && indent == AfterList(old(indent) + 1, |node.tables|)
      ensures output == old(output) + FromOut(cfg, node, old(indent))
      ensures line == old(line) + 1 + |node.tables|
      ensures column == 1 + indent * cfg.indentWidth
    {
      ghost var o := output;
      Keyword(String(FROM));
      TableList(node.tables);
      ClauseText(o, String(FROM), Break(cfg, old(indent) + 1), ListOut(cfg, TableTexts(node.tables), old(indent) + 1, |node.tables|), output);
    }

    /** `selectStmt`. */
    method SelectStmt(node: SelectStmt)
      requires Valid()
      modifies this`output, this`line, this`column, this`indent
      ensures Valid() && indent == StmtIndent(node, old(indent))
      ensures output == old(output) + StmtOut(cfg, node, old(indent))
      ensures line == old(line) + 2 + |node.select.cols| + |node.from.tables|
      ensures column == 1 + indent * cfg.indentWidth + (if cfg.impliedSemi then 1 else 0)
    {
      ghost var o := output;
      SelectClause(node.select);
      ghost var sel := SelectOut(cfg, node.select, old(indent));
      FromClause(node.from);
      ghost var fr := FromOut(cfg, node.from, AfterList(old(indent) + 1, |node.select.cols|));
      Assoc(o, sel, fr);
      ghost var semi := if cfg.impliedSemi then ";" else "";
      InsertSemi();
      assert output == o + (sel + fr) + semi;
      Assoc(o, sel + fr, semi);
    }

    /** `printNode`: only a SELECT statement is printed; any other node is
        an error and leaves the printer as it was. */
    method PrintNode(node: Node) returns (r: Result<()>)
      requires Valid()
      modifies this`output, this`line, this`column, this`indent
      ensures Valid()
      ensures node.OtherNode? ==> r == Err(UnsupportedNode + node.typeName) && output == old(output)
      ensures node.OtherNode? ==> indent == old(indent) && line == old(line) && column == old(column)
      ensures node.StmtNode? ==> r == Ok(()) && output == old(output) + StmtOut(cfg, node.stmt, old(indent))
      ensures node.StmtNode? ==> indent == StmtIndent(node.stmt, old(indent))
      ensures node.StmtNode? ==> line == old(line) + 2 + |node.stmt.select.cols| + |node.stmt.from.tables|
      ensures node.StmtNode? ==> column == 1 + indent * cfg.indentWidth + (if cfg.impliedSemi then 1 else 0)
    {
      match node {
        case StmtNode(stmt) =>
          SelectStmt(stmt);
          return Ok(());
        case OtherNode(typeName) =>
          return Err(UnsupportedNode + typeName);
      }
    }
  }

  /** `Fprint`: the bytes it hands to the writer, or the error of
      `printNode`. */
  method Fprint(node: Node) returns (r: Result<string>)
    ensures node.OtherNode? ==> r == Err(UnsupportedNode + node.typeName)
    ensures node.StmtNode? ==> r == Ok(StmtOut(DefaultConfig, node.stmt, 0))
  {
    var p := new Printer();
    var e := p.PrintNode(node);
    if e.Err? {
      return Err(e.error);
    }
    assert p.output == "" + StmtOut(DefaultConfig, node.stmt, 0);
    assert p.output == StmtOut(DefaultConfig, node.stmt, 0);
    return Ok(p.output);
  }
}
