/** The scanner's behaviour on the inputs of its own test suite, derived
    from the model one step at a time. Each step lemma says how the stream
    at an offset unfolds into one lexeme and the stream after it. */
module ScannerExamples {
  import opened Wrappers
  import opened Tokens
  import opened Scanning

  lemma LookupTblCol()
    ensures Lookup("tbl") == IDENT && Lookup("col") == IDENT
  {
    assert ToUpper("tbl") == "TBL";
    assert ToUpper("col") == "COL";
  }

  lemma LookupAndOr()
    ensures Lookup("and") == AND && Lookup("or") == OR
  {
    assert ToUpper("and") == "AND";
    assert ToUpper("or") == "OR";
  }

  lemma LookupSelect()
    ensures Lookup("select") == SELECT
  {
    assert ToUpper("select") == "SELECT";
  }

  lemma LookupFrom()
    ensures Lookup("from") == FROM
  {
    assert ToUpper("from") == "FROM";
  }

  lemma LookupTable1()
    ensures Lookup("table1") == IDENT
  {
    assert ToUpper("table1") == "TABLE1";
  }

  /** A run of letters and digits from `s` up to a byte that is neither
      ends exactly there. */
  lemma {:induction false} WordRun(src: seq<Byte>, s: nat, e: nat)
    requires s <= e <= |src|
    requires forall k :: s <= k < e ==> IsIdentChar(src[k] as int)
    requires !IsIdentChar(Ch(src, e))
    ensures IdentEnd(src, s) == e
    decreases e - s
  {
    if s < e {
      WordRun(src, s + 1, e);
    }
  }

  /** The first quote at or after `o` is the one at `q`. */
  lemma {:induction false} QuoteRun(src: seq<Byte>, o: nat, q: nat)
    requires o <= q < |src| && src[q] == '\''
    requires forall k :: o <= k < q ==> src[k] != '\''
    ensures QuoteIndex(src, o) == Some(q)
    decreases q - o
  {
    if o < q {
      QuoteRun(src, o + 1, q);
    }
  }

  /** A word at the first non-space offset `s`, ending at `e`. */
  lemma WordCons(src: seq<Byte>, base: int, o: nat, s: nat, e: nat, tok: Token, lit: string)
    requires o <= s < e <= |src|
    requires SkipSpaces(src, o) == s && IdentEnd(src, s) == e && IsLetter(src[s] as int)
    requires lit == src[s..e] && tok == if e - s > 1 then Lookup(lit) else IDENT
    ensures Stream(src, base, o) ==
      TokenSource([Lexeme(base + s, tok, lit)] + Stream(src, base, e).lexemes, Stream(src, base, e).tail)
  {
    assert WordAt(src, base, s) == Step(Lexeme(base + s, tok, lit), e);
    assert ScanAt(src, base, o) == Ok(WordAt(src, base, s));
    StreamCons(src, base, o, Lexeme(base + s, tok, lit), e);
  }

  /** A one-character lexeme (or an ILLEGAL byte) at offset `s`. */
  lemma OtherCons(src: seq<Byte>, base: int, o: nat, s: nat, tok: Token, lit: string)
    requires o <= s < |src|
    requires SkipSpaces(src, o) == s && !IsLetter(src[s] as int) && src[s] != '\''
    requires (tok, lit) == Punctuation(src[s] as int)
    ensures Stream(src, base, o) ==
      TokenSource([Lexeme(base + s, tok, lit)] + Stream(src, base, s + 1).lexemes, Stream(src, base, s + 1).tail)
  {
    assert OtherAt(src, base, s) == Step(Lexeme(base + s, tok, lit), s + 1);
    assert ScanAt(src, base, o) == Ok(OtherAt(src, base, s));
    StreamCons(src, base, o, Lexeme(base + s, tok, lit), s + 1);
  }

  /** A string from the quote at `s` to the quote at `q`. */
  lemma QuoteCons(src: seq<Byte>, base: int, o: nat, s: nat, q: nat)
    requires o <= s < q < |src|
    requires SkipSpaces(src, o) == s && src[s] == '\'' && QuoteIndex(src, s + 1) == Some(q)
    ensures Stream(src, base, o) ==
      TokenSource([Lexeme(base + s, STRING, src[s..q + 1])] + Stream(src, base, q + 1).lexemes, Stream(src, base, q + 1).tail)
  {
    assert QuotedAt(src, base, s) == Ok(Step(Lexeme(base + s, STRING, src[s..q + 1]), q + 1));
    assert ScanAt(src, base, o) == QuotedAt(src, base, s);
    StreamCons(src, base, o, Lexeme(base + s, STRING, src[s..q + 1]), q + 1);
  }

  /** A quote with no partner ends the stream with the scanner's error. */
  lemma QuoteFails(src: seq<Byte>, base: int, o: nat, s: nat)
    requires o <= s < |src|
    requires SkipSpaces(src, o) == s && src[s] == '\'' && QuoteIndex(src, s + 1) == None
    ensures Stream(src, base, o) == TokenSource([], Failure(UnterminatedString))
  {
    StreamStep(src, base, o);
  }

  /** Only white space is left: the stream is EOF at the end of the file. */
  lemma EofStream(src: seq<Byte>, base: int, o: nat)
    requires o <= |src| && SkipSpaces(src, o) == |src|
    ensures Stream(src, base, o) == TokenSource([], AtEof(base + |src|))
  {
    StreamStep(src, base, o);
  }

  lemma Cons0(l: Lexeme)
    ensures [l] + [] == [l]
  {
  }

  lemma Cons1(l: Lexeme, a: Lexeme)
    ensures [l] + [a] == [l, a]
  {
  }

  lemma Cons2(l: Lexeme, a: Lexeme, b: Lexeme)
    ensures [l] + [a, b] == [l, a, b]
  {
  }

  lemma TblColText(src: seq<Byte>)
    requires src == "tbl.col"
    ensures IdentEnd(src, 0) == 3 && src[0..3] == "tbl" && SkipSpaces(src, 3) == 3 && src[3] == '.'
    ensures SkipSpaces(src, 4) == 4 && IdentEnd(src, 4) == 7 && src[4..7] == "col" && SkipSpaces(src, 7) == 7
  {
    WordRun(src, 0, 3);
    WordRun(src, 4, 7);
  }

  /** `tbl.col` from the period on. */
  lemma TblColTail(src: seq<Byte>)
    requires src == "tbl.col"
    ensures Stream(src, 1, 3) == TokenSource([Lexeme(4, PERIOD, "."), Lexeme(5, IDENT, "col")], AtEof(8))
  {
    TblColText(src);
    LookupTblCol();
    EofStream(src, 1, 7);
    WordCons(src, 1, 4, 4, 7, IDENT, "col");
    Cons0(Lexeme(5, IDENT, "col"));
    OtherCons(src, 1, 3, 3, PERIOD, ".");
    Cons1(Lexeme(4, PERIOD, "."), Lexeme(5, IDENT, "col"));
  }

  /** `tbl.col`: two identifiers around a period. */
  lemma TblCol(src: seq<Byte>)
    requires src == "tbl.col"
    ensures Stream(src, 1, 0) == TokenSource([Lexeme(1, IDENT, "tbl"), Lexeme(4, PERIOD, "."), Lexeme(5, IDENT, "col")], AtEof(8))
  {
    TblColTail(src);
    TblColText(src);
    LookupTblCol();
    WordCons(src, 1, 0, 0, 3, IDENT, "tbl");
    Cons2(Lexeme(1, IDENT, "tbl"), Lexeme(4, PERIOD, "."), Lexeme(5, IDENT, "col"));
  }

  lemma AndOrText(src: seq<Byte>)
    requires src == "and or"
    ensures IdentEnd(src, 0) == 3 && src[0..3] == "and" && SkipSpaces(src, 0) == 0
    ensures SkipSpaces(src, 3) == 4 && IdentEnd(src, 4) == 6 && src[4..6] == "or" && SkipSpaces(src, 6) == 6
  {
    WordRun(src, 0, 3);
    WordRun(src, 4, 6);
  }

  /** `and or`: keywords in lower case keep their spelling in the literal. */
  lemma AndOr(src: seq<Byte>)
    requires src == "and or"
    ensures Stream(src, 1, 0) == TokenSource([Lexeme(1, AND, "and"), Lexeme(5, OR, "or")], AtEof(7))
  {
    AndOrText(src);
    LookupAndOr();
    EofStream(src, 1, 6);
    WordCons(src, 1, 3, 4, 6, OR, "or");
    Cons0(Lexeme(5, OR, "or"));
    WordCons(src, 1, 0, 0, 3, AND, "and");
    Cons1(Lexeme(1, AND, "and"), Lexeme(5, OR, "or"));
  }

  /** `1 11`: the scanner has no number rule, so each digit is an ILLEGAL
      byte with an empty literal. */
  lemma Digits(src: seq<Byte>)
    requires src == "1 11"
    ensures Stream(src, 1, 0) == TokenSource([Lexeme(1, ILLEGAL, ""), Lexeme(3, ILLEGAL, ""), Lexeme(4, ILLEGAL, "")], AtEof(5))
  {
    assert SkipSpaces(src, 0) == 0 && SkipSpaces(src, 1) == 2 && SkipSpaces(src, 3) == 3 && SkipSpaces(src, 4) == 4;
    EofStream(src, 1, 4);
    OtherCons(src, 1, 3, 3, ILLEGAL, "");
    Cons0(Lexeme(4, ILLEGAL, ""));
    OtherCons(src, 1, 1, 2, ILLEGAL, "");
    Cons1(Lexeme(3, ILLEGAL, ""), Lexeme(4, ILLEGAL, ""));
    OtherCons(src, 1, 0, 0, ILLEGAL, "");
    Cons2(Lexeme(1, ILLEGAL, ""), Lexeme(3, ILLEGAL, ""), Lexeme(4, ILLEGAL, ""));
  }

  /** `'2015-11-11'`: one string, quotes included. */
  lemma DateString(src: seq<Byte>)
    requires src == "'2015-11-11'"
    ensures Stream(src, 1, 0) == TokenSource([Lexeme(1, STRING, "'2015-11-11'")], AtEof(13))
  {
    QuoteRun(src, 1, 11);
    assert SkipSpaces(src, 0) == 0 && SkipSpaces(src, 12) == 12;
    EofStream(src, 1, 12);
    QuoteCons(src, 1, 0, 0, 11);
    assert src[0..12] == src;
    Cons0(Lexeme(1, STRING, src));
  }

  lemma OpenStringText(src: seq<Byte>)
    requires src == "x 'abc"
    ensures SkipSpaces(src, 0) == 0 && IdentEnd(src, 0) == 1 && src[0..1] == "x"
    ensures SkipSpaces(src, 1) == 2 && src[2] == '\'' && QuoteIndex(src, 3) == None
  {
  }

  /** `x 'abc`: the identifier is delivered, then the stream stops with
      the scanner's error. */
  lemma OpenString(src: seq<Byte>)
    requires src == "x 'abc"
    ensures Stream(src, 1, 0) == TokenSource([Lexeme(1, IDENT, "x")], Failure(UnterminatedString))
  {
    OpenStringText(src);
    QuoteFails(src, 1, 1, 2);
    WordCons(src, 1, 0, 0, 1, IDENT, "x");
    Cons0(Lexeme(1, IDENT, "x"));
  }

  /** Where the words and gaps of `select * from table1` lie. */
  lemma SelectWordText(src: seq<Byte>)
    requires src == "select * from table1"
    ensures IdentEnd(src, 0) == 6 && src[0..6] == "select"
  {
    WordRun(src, 0, 6);
  }

  lemma StarText(src: seq<Byte>)
    requires src == "select * from table1"
    ensures SkipSpaces(src, 6) == 7 && src[7] == '*'
  {
  }

  lemma FromWordText(src: seq<Byte>)
    requires src == "select * from table1"
    ensures SkipSpaces(src, 8) == 9 && IdentEnd(src, 9) == 13 && src[9..13] == "from"
  {
    WordRun(src, 9, 13);
  }

  lemma TableWordText(src: seq<Byte>)
    requires src == "select * from table1"
    ensures SkipSpaces(src, 13) == 14 && IdentEnd(src, 14) == 20 && src[14..20] == "table1"
  {
    WordRun(src, 14, 20);
  }

  /** `select * from table1` from the offset after `from` on. */
  lemma SelectStarLast(src: seq<Byte>, base: int)
    requires src == "select * from table1"
    ensures Stream(src, base, 13) == TokenSource([Lexeme(base + 14, IDENT, "table1")], AtEof(base + 20))
  {
    TableWordText(src);
    LookupTable1();
    EofStream(src, base, 20);
    WordCons(src, base, 13, 14, 20, IDENT, "table1");
  }

  /** `select * from table1` from the offset after `*` on. */
  lemma SelectStarTail(src: seq<Byte>, base: int)
    requires src == "select * from table1"
    ensures Stream(src, base, 8) == TokenSource([Lexeme(base + 9, FROM, "from"), Lexeme(base + 14, IDENT, "table1")], AtEof(base + 20))
  {
    SelectStarLast(src, base);
    FromWordText(src);
    LookupFrom();
    WordCons(src, base, 8, 9, 13, FROM, "from");
  }

  /** `select * from table1` from the offset after `select` on. */
  lemma SelectStarRest(src: seq<Byte>, base: int)
    requires src == "select * from table1"
    ensures Stream(src, base, 6) ==
      TokenSource([Lexeme(base + 7, MUL, "*"), Lexeme(base + 9, FROM, "from"), Lexeme(base + 14, IDENT, "table1")], AtEof(base + 20))
  {
    SelectStarTail(src, base);
    StarText(src);
    OtherCons(src, base, 6, 7, MUL, "*");
  }

  /** The first word of `select * from table1` is the keyword SELECT, at
      the start of the file. */
  lemma SelectStarFirst(src: seq<Byte>)
    requires src == "select * from table1"
    ensures src[0..6] == "select" && SkipSpaces(src, 0) == 0 && IsLetter(src[0] as int) && IdentEnd(src, 0) == 6
    ensures Lookup("select") == SELECT
  {
    SelectWordText(src);
    LookupSelect();
  }

  /** `select * from table1`, the statement of the parser's own test, in a
      file whose base is `base`. */
  lemma SelectStar(src: seq<Byte>, base: int)
    requires src == "select * from table1"
    ensures Stream(src, base, 0) ==
      TokenSource([Lexeme(base, SELECT, "select"), Lexeme(base + 7, MUL, "*"), Lexeme(base + 9, FROM, "from"),
                   Lexeme(base + 14, IDENT, "table1")], AtEof(base + 20))
  {
    SelectStarRest(src, base);
    SelectStarFirst(src);
    WordCons(src, base, 0, 0, 6, SELECT, "select");
    PrependOne(Stream(src, base, 0), Lexeme(base, SELECT, "select"), Stream(src, base, 6));
  }

  /** A lexeme in front of a three-lexeme stream. */
  lemma PrependOne(s0: TokenSource, first: Lexeme, s1: TokenSource)
    requires |s1.lexemes| == 3 && s0 == TokenSource([first] + s1.lexemes, s1.tail)
    ensures s0 == TokenSource([first, s1.lexemes[0], s1.lexemes[1], s1.lexemes[2]], s1.tail)
  {
  }
}
