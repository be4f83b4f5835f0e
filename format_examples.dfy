/** The statement of the printer's own test, from its text through the
    scanner and the parser to the formatted output. */
module FormatExamples {
  import opened Wrappers
  import opened Tokens
  import opened Scanning
  import opened Ast
  import opened Grammar
  import opened Printing
  import opened ScannerExamples
  import opened ParserExamples

  /** The layout the printer's test expects for `select * from table1`. */
  const SelectStarLayout := "SELECT\n    *\nFROM\n    table1\n;"

  lemma SelectStarTexts(cols: seq<Column>, tables: seq<Table>)
    requires cols == SelectStarStmt.select.cols && tables == SelectStarStmt.from.tables
    ensures ColumnTexts(cols) == ["*"] && TableTexts(tables) == ["table1"]
  {
    assert String(ASTA) == "*";
    assert ColumnText(cols[0]) == "*";
    assert TableText(tables[0]) == "table1";
  }

  lemma SelectStarPrinted()
    ensures StmtOut(DefaultConfig, SelectStarStmt, 0) == SelectStarLayout
  {
    var node := SelectStarStmt;
    StmtLayout(node);
    SelectStarTexts(node.select.cols, node.from.tables);
    assert Joined(["*"], ",\n    ") == "*" && Joined(["table1"], ",\n    ") == "table1";
    LayoutText();
  }

  lemma LayoutText()
    ensures "SELECT\n    " + "*" + "\nFROM\n    " + "table1" + "\n;" == SelectStarLayout
  {
  }

  /** Scanning and parsing `select * from table1` gives the statement the
      parser's test expects, and printing that statement gives the layout
      the printer's test expects. */
  lemma SelectStarFormatted(src: seq<Byte>)
    requires src == "select * from table1"
    ensures ParseStmt(Stream(src, 1, 0)) == Ok(SelectStarStmt)
    ensures StmtOut(DefaultConfig, SelectStarStmt, 0) == SelectStarLayout
  {
    SelectStar(src, 1);
    assert Stream(src, 1, 0) == SelectStarTokens;
    SelectStarParsed();
    SelectStarPrinted();
  }
}
