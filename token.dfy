/** Lexical tokens, the keyword table, operator precedence and the
    position registry (file set) of the SQL front end. */
module Tokens {
  import opened Wrappers

  /** One byte of source text, held as the character with that code
      (the scanner reads `rune(src[i])`, one byte per character). */
  type Byte = c: char | c as int < 256

  /** A token kind; the values are the ordinals of the Go `iota` block. */
  newtype Token = t: int | 0 <= t < 44

  const ILLEGAL: Token := 0
  const IDENT: Token := 1
  const INT: Token := 2
  const ASTA: Token := 3
  const STRING: Token := 4
  const KeywordBeg: Token := 5
  const SELECT: Token := 6
  const FROM: Token := 7
  const WHERE: Token := 8
  const GROUP: Token := 9
  const ORDER: Token := 10
  const BY: Token := 11
  const ALIAS: Token := 12
  const CASE: Token := 13
  const WHEN: Token := 14
  const THEN: Token := 15
  const ELSE: Token := 16
  const END: Token := 17
  const NOT: Token := 18
  const AND: Token := 19
  const OR: Token := 20
  const IS: Token := 21
  const NULL: Token := 22
  const KeywordEnd: Token := 23
  const OperatorBeg: Token := 24
  const ADD: Token := 25
  const SUB: Token := 26
  const MUL: Token := 27
  const QUO: Token := 28
  const REM: Token := 29
  const EQL: Token := 30
  const NEQ: Token := 31
  const GTR: Token := 32
  const GEQ: Token := 33
  const LSS: Token := 34
  const LEQ: Token := 35
  const LPAREN: Token := 36
  const RPAREN: Token := 37
  const SEMICOLON: Token := 38
  const COMMA: Token := 39
  const PERIOD: Token := 40
  const OperatorEnd: Token := 41
  const EOF: Token := 42
  const COMMENT: Token := 43

  /** The spelling table `tokens`, indexed by token; kinds without an entry
      in the Go composite literal (NOT, NEQ, GEQ, LEQ, REM and the range
      markers) have the empty spelling. */
  const Spellings: seq<string> := [
    "ILLEGAL", "IDENT", "INT", "*", "STRING",
    "", "SELECT", "FROM", "WHERE", "GROUP", "ORDER", "BY", "AS", "CASE",
    "WHEN", "THEN", "ELSE", "END", "", "AND", "OR", "IS", "NULL", "",
    "", "+", "-", "*", "/", "", "=", "", ">", "", "<", "", "(", ")", ";",
    ",", ".", "", "EOF", "COMMENT"]

  /** `Token.String`. */
  function String(t: Token): string
  {
    Spellings[t]
  }

  /** `Token.String` yields the empty spelling exactly for the kinds the
      table leaves out, and the wildcard and the product share `*`. */
  lemma Spelling(t: Token)
    ensures String(t) == "" <==> t in {KeywordBeg, NOT, KeywordEnd, OperatorBeg, REM, NEQ, GEQ, LEQ, OperatorEnd}
    ensures t == ASTA || t == MUL ==> String(t) == "*"
  {
    assert String(t) == Spellings[t];
  }

  predicate IsKeyword(t: Token)
  {
    KeywordBeg < t < KeywordEnd
  }

  /** The keyword map after the `init` loop has run for every token below `n`. */
  function KeywordsBelow(n: int): map<string, Token>
    requires KeywordBeg as int + 1 <= n <= KeywordEnd as int
    decreases n
  {
    if n == KeywordBeg as int + 1 then map[]
    else KeywordsBelow(n - 1)[Spellings[n - 1] := (n - 1) as Token]
  }

  /** The keyword map as `init` leaves it. */
  const Keywords: map<string, Token> := KeywordsBelow(KeywordEnd as int)

  /** `init`: fills the keyword map from the spelling of every keyword token. */
  method InitKeywords() returns (keywords: map<string, Token>)
    ensures keywords == Keywords
    ensures forall w :: w in keywords <==> KeywordOf(w) != IDENT
    ensures forall w :: w in keywords ==> keywords[w] == KeywordOf(w)
  {
    keywords := map[];
    var i := KeywordBeg as int + 1;
    while i < KeywordEnd as int
      invariant KeywordBeg as int + 1 <= i <= KeywordEnd as int
      invariant keywords == KeywordsBelow(i)
    {
      keywords := keywords[Spellings[i] := i as Token];
      i := i + 1;
    }
    KeywordTable();
  }

  /** The keyword table written out as a reference: the keyword spelled `w`,
      or IDENT when there is none. NOT is spelled by the empty word. */
  function KeywordOf(w: string): Token
  {
    if w == "SELECT" then SELECT
    else if w == "FROM" then FROM
    else if w == "WHERE" then WHERE
    else if w == "GROUP" then GROUP
    else if w == "ORDER" then ORDER
    else if w == "BY" then BY
    else if w == "AS" then ALIAS
    else if w == "CASE" then CASE
    else if w == "WHEN" then WHEN
    else if w == "THEN" then THEN
    else if w == "ELSE" then ELSE
    else if w == "END" then END
    else if w == "" then NOT
    else if w == "AND" then AND
    else if w == "OR" then OR
    else if w == "IS" then IS
    else if w == "NULL" then NULL
    else IDENT
  }

  /** The reference table and the spelling table are inverse on keywords;
      in particular no two keywords share a spelling. */
  lemma KeywordOfSpelling(t: Token)
    requires IsKeyword(t)
    ensures KeywordOf(String(t)) == t
  {
    assert t == 6 || t == 7 || t == 8 || t == 9 || t == 10 || t == 11 || t == 12 || t == 13
      || t == 14 || t == 15 || t == 16 || t == 17 || t == 18 || t == 19 || t == 20
      || t == 21 || t == 22;
  }

  lemma SpellingOfKeywordOf(w: string)
    ensures KeywordOf(w) == IDENT || (IsKeyword(KeywordOf(w)) && String(KeywordOf(w)) == w)
  {
  }

  /** After the loop has run below `n`, the map holds `w` exactly when some
      keyword below `n` is spelled `w`, and sends it to that keyword. */
  lemma {:induction false} KeywordsBelowAt(n: int, w: string)
    requires KeywordBeg as int + 1 <= n <= KeywordEnd as int
    ensures w in KeywordsBelow(n) <==> exists t: Token :: KeywordBeg < t && t as int < n && String(t) == w
    ensures w in KeywordsBelow(n) ==> KeywordsBelow(n)[w] == KeywordOf(w)
    decreases n
  {
    if n > KeywordBeg as int + 1 {
      var last := (n - 1) as Token;
      KeywordsBelowAt(n - 1, w);
      if String(last) == w {
        KeywordOfSpelling(last);
        assert KeywordsBelow(n)[w] == last;
      } else {
        assert KeywordsBelow(n) == KeywordsBelow(n - 1)[String(last) := last];
        if t: Token :| KeywordBeg < t && t as int < n && String(t) == w {
          assert t != last;
        }
      }
    }
  }

  /** The keyword map holds a word exactly when the reference table names a
      keyword for it, and then sends it to that keyword. */
  lemma KeywordTable()
    ensures forall w :: w in Keywords <==> KeywordOf(w) != IDENT
    ensures forall w :: w in Keywords ==> Keywords[w] == KeywordOf(w)
  {
    forall w ensures w in Keywords <==> KeywordOf(w) != IDENT
      ensures w in Keywords ==> Keywords[w] == KeywordOf(w)
    {
      KeywordsBelowAt(KeywordEnd as int, w);
      SpellingOfKeywordOf(w);
      if KeywordOf(w) != IDENT {
        assert String(KeywordOf(w)) == w;
      }
    }
  }

  /** `strings.ToUpper` on one character, for the ASCII letters. */
  function UpperChar(c: char): char
  {
    if 'a' <= c <= 'z' then (c as int - 'a' as int + 'A' as int) as char else c
  }

  function ToUpper(s: string): (r: string)
    ensures |r| == |s|
    ensures forall k :: 0 <= k < |s| ==> r[k] == UpperChar(s[k])
  {
    if s == [] then [] else [UpperChar(s[0])] + ToUpper(s[1..])
  }

  /** `Lookup`: the keyword whose spelling is the upper-cased word, else IDENT. */
  function Lookup(ident: string): (r: Token)
    ensures r == KeywordOf(ToUpper(ident))
    ensures r == IDENT || (IsKeyword(r) && String(r) == ToUpper(ident))
  {
    KeywordTable();
    SpellingOfKeywordOf(ToUpper(ident));
    var u := ToUpper(ident);
    if u in Keywords then Keywords[u] else IDENT
  }

  /** Every keyword with a spelling is found again from that spelling, in
      either case; NOT, whose spelling is empty, is not. */
  lemma LookupSpelling(t: Token)
    requires IsKeyword(t) && t != NOT
    ensures Lookup(String(t)) == t
    ensures Lookup(Lower(String(t))) == t
  {
    KeywordOfSpelling(t);
    UpperOfSpelling(t);
  }

  /** "as" and "AS" are both ALIAS. */
  lemma LookupAlias()
    ensures Lookup("as") == ALIAS && Lookup("AS") == ALIAS
  {
    assert ToUpper("as") == "AS";
  }

  /** Keywords are found in mixed case too. */
  lemma LookupMixedCase()
    ensures Lookup("Select") == SELECT
  {
    assert ToUpper("Select") == "SELECT";
  }

  /** "not" is an identifier, for NOT has no spelling, and the empty word
      is NOT. */
  lemma LookupNot()
    ensures Lookup("not") == IDENT && Lookup("") == NOT
  {
    assert ToUpper("not") == "NOT";
  }

  /** A word with an underscore is an identifier. */
  lemma LookupUnderscore()
    ensures Lookup("id_mst") == IDENT
  {
    assert ToUpper("id_mst") == "ID_MST";
  }

  function LowerChar(c: char): char
  {
    if 'A' <= c <= 'Z' then (c as int - 'A' as int + 'a' as int) as char else c
  }

  function Lower(s: string): (r: string)
    ensures |r| == |s|
    ensures forall k :: 0 <= k < |s| ==> r[k] == LowerChar(s[k])
  {
    if s == [] then [] else [LowerChar(s[0])] + Lower(s[1..])
  }

  predicate AllUpper(s: string)
  {
    forall k :: 0 <= k < |s| ==> 'A' <= s[k] <= 'Z'
  }

  /** Every keyword is spelled in upper-case letters. */
  lemma SpellingUpper(t: Token)
    requires IsKeyword(t)
    ensures AllUpper(String(t))
  {
    if t <= END {
      if t <= ALIAS {
        assert t == SELECT || t == FROM || t == WHERE || t == GROUP || t == ORDER || t == BY || t == ALIAS;
      } else {
        assert t == CASE || t == WHEN || t == THEN || t == ELSE || t == END;
      }
    } else {
      assert t == NOT || t == AND || t == OR || t == IS || t == NULL;
    }
  }

  /** Keyword spellings are upper case, so upper-casing them or their
      lower-case form gives them back. */
  lemma UpperOfSpelling(t: Token)
    requires IsKeyword(t)
    ensures ToUpper(String(t)) == String(t)
    ensures ToUpper(Lower(String(t))) == String(t)
  {
    SpellingUpper(t);
    UpperFixed(String(t));
  }

  /** Upper-casing a word of upper-case letters, or its lower-case form,
      gives the word back. */
  lemma UpperFixed(s: string)
    requires AllUpper(s)
    ensures ToUpper(s) == s && ToUpper(Lower(s)) == s
  {
    assert forall k :: 0 <= k < |s| ==> ToUpper(Lower(s))[k] == UpperChar(LowerChar(s[k])) == s[k];
  }

  const LowestPrec := 0
  const UnaryPrec := 6
  const HighestPrec := 7

  /** `Token.Precedence`: the binding strength of a binary operator. */
  function Precedence(t: Token): (r: int)
    ensures LowestPrec <= r < UnaryPrec
    ensures r > LowestPrec <==> t in {OR, AND, EQL, NEQ, LSS, LEQ, GTR, GEQ, ADD, SUB, MUL, QUO, REM}
  {
    if t == OR then 1
    else if t == AND then 2
    else if t == EQL || t == NEQ || t == LSS || t == LEQ || t == GTR || t == GEQ then 3
    else if t == ADD || t == SUB then 4
    else if t == MUL || t == QUO || t == REM then 5
    else LowestPrec
  }

  /** The binding levels of `Token.Precedence`, weakest first: OR, AND, the
      six comparisons, the additive and the multiplicative operators. */
  lemma PrecedenceLevels()
    ensures Precedence(OR) < Precedence(AND) < Precedence(EQL) < Precedence(ADD) < Precedence(MUL)
    ensures Precedence(EQL) == Precedence(NEQ) == Precedence(LSS) == Precedence(LEQ)
         == Precedence(GTR) == Precedence(GEQ)
    ensures Precedence(ADD) == Precedence(SUB)
    ensures Precedence(MUL) == Precedence(QUO) == Precedence(REM)
  {
  }

  // Position registry

  /** A Pos-list is a valid line table for a file of `size` bytes: it starts
      with offset 0 and every later entry is larger than the one before and
      smaller than the size. */
  ghost predicate LineTable(lines: seq<int>, size: int)
  {
    |lines| >= 1 && lines[0] == 0 &&
    (forall k :: 0 < k < |lines| ==> lines[k - 1] < lines[k] && lines[k] < size)
  }

  /** The line table after `AddLine(offset)`. */
  function AddLineTo(lines: seq<int>, offset: int, size: int): (r: seq<int>)
    ensures r == lines || r == lines + [offset]
    ensures r == lines + [offset] <==> (|lines| == 0 || lines[|lines| - 1] < offset) && offset < size
    ensures LineTable(lines, size) ==> LineTable(r, size)
  {
    if (|lines| == 0 || lines[|lines| - 1] < offset) && offset < size then lines + [offset] else lines
  }

  class File {
    const fset: FileSet
    const name: string
    const base: int
    const size: int
    var lines: seq<int>

    constructor (fset: FileSet, name: string, base: int, size: int)
      ensures this.fset == fset && this.name == name && this.base == base && this.size == size
      ensures lines == [0]
    {
      this.fset := fset;
      this.name := name;
      this.base := base;
      this.size := size;
      lines := [0];
    }

    /** `File.Pos`: the global position of a byte offset; an offset past the
        end of the file is a panic in the source and a precondition here. */
    function Pos(offset: int): (p: int)
      requires offset <= size
      ensures p - base == offset
    {
      base + offset
    }

    /** `File.AddLine`: records a line start if it lies after the last one
        and inside the file, and otherwise does nothing. */
    method AddLine(offset: int)
      modifies this
      ensures lines == AddLineTo(old(lines), offset, size)
    {
      var i := |lines|;
      if (i == 0 || lines[i - 1] < offset) && offset < size {
        lines := lines + [offset];
      }
    }
  }

  class FileSet {
    var base: int
    var files: seq<File>
    var last: File?

    /** Files are registered in increasing base order with a one-position gap
        after each, and the next base lies just past the last file. */
    ghost predicate Valid()
      reads this
    {
      base >= 1 &&
      (forall k :: 0 <= k < |files| ==> files[k].fset == this && files[k].base >= 1 && files[k].size >= 0) &&
      (forall k :: 0 < k < |files| ==> files[k - 1].base + files[k - 1].size < files[k].base) &&
      (if |files| == 0 then last == null
       else last == files[|files| - 1] && base == last.base + last.size + 1)
    }

    /** `NewFileSet`. */
    constructor ()
      ensures Valid()
      ensures base == 1 && files == [] && last == null
    {
      base := 1;
      files := [];
      last := null;
    }

    /** `FileSet.Base`: the smallest base the next `AddFile` accepts. */
    function Base(): (b: int)
      reads this
      requires Valid()
      ensures b >= 1
      ensures forall k :: 0 <= k < |files| ==> files[k].base + files[k].size < b
    {
      OrderedBases();
      base
    }

    /** `FileSet.AddFile`: a negative base means the current base; a base
        below the current base or a negative size is refused (a panic in the
        source) and leaves the set as it was. */
    method AddFile(filename: string, base: int, size: int) returns (r: Option<File>)
      requires Valid()
      modifies this
      ensures Valid()
      ensures var b := if base < 0 then old(this.base) else base;
        (r.None? <==> (b < old(this.base) || size < 0)) &&
        (r.None? ==> this.base == old(this.base) && files == old(files) && last == old(last)) &&
        (r.Some? ==>
          fresh(r.value) && r.value.fset == this && r.value.name == filename &&
          r.value.base == b && r.value.size == size && r.value.lines == [0] &&
          this.base == b + size + 1 && files == old(files) + [r.value] && last == r.value)
    {
      var b := base;
      if b < 0 {
        b := this.base;
      }
      if b < this.base || size < 0 {
        return None;
      }
      var f := new File(this, filename, b, size);
      this.base := b + size + 1;
      files := files + [f];
      last := f;
      r := Some(f);
    }

    /** Positions of an earlier file lie strictly before those of any later
        file and before the next base. */
    lemma OrderedBases()
      requires Valid()
      ensures forall j, k :: 0 <= j < k < |files| ==> files[j].base + files[j].size < files[k].base
      ensures forall k :: 0 <= k < |files| ==> files[k].base + files[k].size < base
    {
      forall j, k | 0 <= j < k < |files|
        ensures files[j].base + files[j].size < files[k].base
      {
        BasesFrom(j, k);
      }
      forall k | 0 <= k < |files|
        ensures files[k].base + files[k].size < base
      {
        if k < |files| - 1 {
          BasesFrom(k, |files| - 1);
        }
      }
    }

    lemma {:induction false} BasesFrom(j: int, k: int)
      requires Valid()
      requires 0 <= j < k < |files|
      ensures files[j].base + files[j].size < files[k].base
      decreases k - j
    {
      if j + 1 < k {
        BasesFrom(j + 1, k);
      }
    }
  }

  /** Any two files of one set occupy disjoint position ranges. */
  lemma FilesDisjoint(s: FileSet, j: int, k: int, oj: int, ok: int)
    requires s.Valid()
    requires 0 <= j < k < |s.files|
    requires 0 <= oj <= s.files[j].size && 0 <= ok <= s.files[k].size
    ensures s.files[j].Pos(oj) < s.files[k].Pos(ok)
  {
    s.OrderedBases();
  }

  /** A new set hands out base 1, and a file registered there with size 20
      moves the next base to 22. */
  method FirstFile() returns (b: int)
    ensures b == 22
  {
    var s := new FileSet();
    var r := s.AddFile("test2", s.Base(), 20);
    assert r.Some?;
    b := s.Base();
  }
}
