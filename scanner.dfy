/** The byte-level scanner: a cursor over the source that produces
    (position, token, literal) triples and records line starts. The pure
    functions below say what one scan step yields; the `Scanner` class is
    the cursor itself, proved to follow them. */
module Scanning {
  import opened Wrappers
  import opened Tokens

  /** What the cursor holds in `ch`: a byte value, or -1 at end of input. */
  type ScanChar = c: int | -1 <= c < 0x100

  /** The letters among byte values 0x80..0xFF according to the Unicode
      letter categories (ª, µ, º and the Latin-1 letters except × and ÷). */
  predicate IsLatin1Letter(ch: int)
  {
    ch == 0xAA || ch == 0xB5 || ch == 0xBA || (0xC0 <= ch <= 0xFF && ch != 0xD7 && ch != 0xF7)
  }

  /** `isLetter`: a letter is a byte value that starts no other kind of
      token, neither a digit, white space, the quote nor punctuation. */
  predicate IsLetter(ch: int)
    ensures IsLetter(ch) ==> 0 <= ch < 0x100 && !IsDigit(ch) && !IsSpace(ch) && ch != '\'' as int
    ensures IsLetter(ch) ==> ch !in {'*' as int, '(' as int, ')' as int, ';' as int, ',' as int, '=' as int, '>' as int, '.' as int}
  {
    ('a' as int <= ch <= 'z' as int) || ('A' as int <= ch <= 'Z' as int) || ch == '_' as int
    || (ch >= 0x80 && IsLatin1Letter(ch))
  }

  /** `isDigit`: no byte value above 0x7F is a Unicode decimal digit, so
      a digit is an ASCII byte whose value is `'0'` plus 0 to 9. */
  predicate IsDigit(ch: int)
    ensures IsDigit(ch) ==> 0 <= ch - '0' as int < 10 && ch < 0x80
    ensures IsDigit(ch) ==> !IsSpace(ch) && ch != '\'' as int
  {
    '0' as int <= ch <= '9' as int
  }

  predicate IsIdentChar(ch: int)
  {
    IsLetter(ch) || IsDigit(ch)
  }

  /** The characters `skipWhitespace` passes over. */
  predicate IsSpace(ch: int)
  {
    ch == ' ' as int || ch == '\t' as int || ch == '\n' as int || ch == '\r' as int
  }

  /** The character at offset `o`, or -1 past the end. */
  function Ch(src: seq<Byte>, o: int): ScanChar
    requires 0 <= o
  {
    if o < |src| then src[o] as int else -1
  }

  /** The first offset at or after `o` that does not hold white space. */
  function SkipSpaces(src: seq<Byte>, o: nat): (r: nat)
    requires o <= |src|
    ensures o <= r <= |src|
    ensures forall k :: o <= k < r ==> IsSpace(src[k] as int)
    ensures !IsSpace(Ch(src, r))
    decreases |src| - o
  {
    if o < |src| && IsSpace(src[o] as int) then SkipSpaces(src, o + 1) else o
  }

  /** The end of the run of letters and digits that starts at `o`. */
  function IdentEnd(src: seq<Byte>, o: nat): (r: nat)
    requires o <= |src|
    ensures o <= r <= |src|
    ensures forall k :: o <= k < r ==> IsIdentChar(src[k] as int)
    ensures !IsIdentChar(Ch(src, r))
    decreases |src| - o
  {
    if o < |src| && IsIdentChar(src[o] as int) then IdentEnd(src, o + 1) else o
  }

  /** The offset of the first single quote at or after `o`, if any. */
  function QuoteIndex(src: seq<Byte>, o: nat): (r: Option<nat>)
    requires o <= |src|
    ensures r.Some? ==> o <= r.value < |src| && src[r.value] == '\''
    ensures r.Some? ==> forall k :: o <= k < r.value ==> src[k] != '\''
    ensures r.None? ==> forall k :: o <= k < |src| ==> src[k] != '\''
    decreases |src| - o
  {
    if o == |src| then None
    else if src[o] == '\'' then Some(o)
    else QuoteIndex(src, o + 1)
  }

  /** The token and literal of the one-character branch of `Scan`; a
      character with no rule is ILLEGAL with an empty literal. */
  function Punctuation(c: ScanChar): (r: (Token, string))
    ensures c == -1 <==> r.0 == EOF
    ensures r.1 == "" <==> r.0 == EOF || r.0 == ILLEGAL
    ensures r.1 != "" ==> |r.1| == 1 && r.1[0] as int == c
    ensures r.0 != ILLEGAL ==> c in {-1, '*' as int, '(' as int, ')' as int, ';' as int, ',' as int, '=' as int, '>' as int, '.' as int}
  {
    if c == -1 then (EOF, "")
    else if c == '*' as int then (MUL, "*")
    else if c == '(' as int then (LPAREN, "(")
    else if c == ')' as int then (RPAREN, ")")
    else if c == ';' as int then (SEMICOLON, ";")
    else if c == ',' as int then (COMMA, ",")
    else if c == '=' as int then (EQL, "=")
    else if c == '>' as int then (GTR, ">")
    else if c == '.' as int then (PERIOD, ".")
    else (ILLEGAL, "")
  }

  /** One (position, token, literal) triple. */
  datatype Lexeme = Lexeme(pos: int, tok: Token, lit: string)

  /** A scanned lexeme and the offset the cursor stops at. */
  datatype Step = Step(lex: Lexeme, next: nat)

  const UnterminatedString := "right single quote couldn't be found while scanning string"

  /** The identifier branch of `Scan` at offset `s`: the maximal run of
      letters and digits; a run of one character is always IDENT, a longer
      one goes through `Lookup` and keeps its case in the literal. */
  function WordAt(src: seq<Byte>, base: int, s: nat): (r: Step)
    requires s < |src| && IsLetter(src[s] as int)
    ensures s < r.next <= |src| && r.lex.lit == src[s..r.next] && r.lex.pos == base + s
    ensures forall k :: s <= k < r.next ==> IsIdentChar(src[k] as int)
    ensures !IsIdentChar(Ch(src, r.next))
    ensures r.lex.tok == (if r.next - s > 1 then Lookup(r.lex.lit) else IDENT)
  {
    var e := IdentEnd(src, s);
    var lit := src[s..e];
    Step(Lexeme(base + s, if |lit| > 1 then Lookup(lit) else IDENT, lit), e)
  }

  /** The string branch of `Scan` at offset `s`: from the quote to the next
      quote inclusive, without escapes; an error when there is none. */
  function QuotedAt(src: seq<Byte>, base: int, s: nat): (r: Result<Step>)
    requires s < |src| && src[s] == '\''
    ensures r.Err? <==> forall k :: s < k < |src| ==> src[k] != '\''
    ensures r.Err? ==> r.error == UnterminatedString
    ensures r.Ok? ==> var l := r.value.lex;
      s + 2 <= r.value.next <= |src| && l == Lexeme(base + s, STRING, src[s..r.value.next]) &&
      src[r.value.next - 1] == '\'' && forall k :: s < k < r.value.next - 1 ==> src[k] != '\''
  {
    match QuoteIndex(src, s + 1)
    case None => Err(UnterminatedString)
    case Some(q) => Ok(Step(Lexeme(base + s, STRING, src[s..q + 1]), q + 1))
  }

  /** The one-character branch of `Scan` at offset `s`, including EOF. */
  function OtherAt(src: seq<Byte>, base: int, s: nat): (r: Step)
    requires s <= |src| && !IsLetter(Ch(src, s)) && Ch(src, s) != '\'' as int
    ensures r.next == if s < |src| then s + 1 else |src|
    ensures r.lex.pos == base + s && s + |r.lex.lit| <= r.next && r.lex.lit == src[s..s + |r.lex.lit|]
    ensures r.lex.tok == EOF <==> s == |src|
    ensures r.lex.tok != IDENT && r.lex.tok != STRING && (r.lex.tok == MUL ==> r.lex.lit == "*")
    ensures r.lex.lit == "" <==> r.lex.tok == EOF || r.lex.tok == ILLEGAL
  {
    var (tok, lit) := Punctuation(Ch(src, s));
    Step(Lexeme(base + s, tok, lit), if s < |src| then s + 1 else |src|)
  }

  /** What `Scan` yields when the cursor is at offset `o` of a file whose
      base is `base`: white space is skipped and the token starts at the
      first other byte. */
  function ScanAt(src: seq<Byte>, base: int, o: nat): (r: Result<Step>)
    requires o <= |src|
    ensures r.Ok? ==> o <= r.value.next <= |src|
  {
    var s := SkipSpaces(src, o);
    var c := Ch(src, s);
    if IsLetter(c) then Ok(WordAt(src, base, s))
    else if c == '\'' as int then QuotedAt(src, base, s)
    else Ok(OtherAt(src, base, s))
  }

  /** A scan fails exactly at a quote with no partner; otherwise the lexeme
      starts at the first byte after the white space, its literal is the
      text there, EOF comes exactly at the end of the file, and every other
      lexeme moves the cursor on. */
  lemma ScanAtShape(src: seq<Byte>, base: int, o: nat)
    requires o <= |src|
    ensures var r, s := ScanAt(src, base, o), SkipSpaces(src, o);
      (r.Err? <==> Ch(src, s) == '\'' as int && forall k :: s < k < |src| ==> src[k] != '\'') &&
      (r.Ok? ==>
        var l := r.value.lex;
        l.pos == base + s && s + |l.lit| <= r.value.next <= |src| &&
        l.lit == src[s..s + |l.lit|] &&
        (l.tok == EOF <==> s == |src|) &&
        (l.tok == EOF ==> r.value.next == |src| && l.lit == "") &&
        (l.tok != EOF ==> s < r.value.next) &&
        (l.tok == STRING <==> Ch(src, s) == '\'' as int))
    ensures ScanAt(src, base, o).Ok? ==> LexemeShape(ScanAt(src, base, o).value.lex) || ScanAt(src, base, o).value.lex.tok == EOF
  {
  }

  /** How a stream of scans ends: at EOF, whose position is given, or at a
      lexical error. */
  datatype Tail = AtEof(eofPos: int) | Failure(msg: string)

  /** Every lexeme `Scan` returns before the first EOF or error, and how
      it stops. */
  datatype TokenSource = TokenSource(lexemes: seq<Lexeme>, tail: Tail)

  /** The lexemes the scanner yields from offset `o` on. */
  function Stream(src: seq<Byte>, base: int, o: nat): (r: TokenSource)
    requires o <= |src|
    decreases |src| - o
  {
    match ScanAt(src, base, o)
    case Err(e) => TokenSource([], Failure(e))
    case Ok(step) =>
      if step.lex.tok == EOF then TokenSource([], AtEof(step.lex.pos))
      else
        var rest := Stream(src, base, step.next);
        TokenSource([step.lex] + rest.lexemes, rest.tail)
  }

  /** What the parser relies on of a single lexeme. */
  predicate LexemeShape(l: Lexeme)
  {
    l.tok != EOF && (l.tok != ILLEGAL ==> |l.lit| >= 1) && (l.tok == MUL ==> l.lit == "*")
  }

  /** A token source whose lexemes lie one after the other from position
      `from` to the EOF position, none overlapping the next. */
  predicate Ordered(ts: TokenSource, from: int)
  {
    var n := |ts.lexemes|;
    (forall k :: 0 <= k < n ==> LexemeShape(ts.lexemes[k])) &&
    (n > 0 ==> from <= ts.lexemes[0].pos) &&
    (forall k :: 0 < k < n ==> ts.lexemes[k - 1].pos + |ts.lexemes[k - 1].lit| <= ts.lexemes[k].pos) &&
    (ts.tail.AtEof? ==> (if n == 0 then from else ts.lexemes[n - 1].pos + |ts.lexemes[n - 1].lit|) <= ts.tail.eofPos)
  }

  /** The scanner's stream is ordered, ends at EOF at `base + |src|`, and
      stops at an error only on an unterminated string. */
  lemma {:induction false} StreamOrdered(src: seq<Byte>, base: int, o: nat)
    requires o <= |src|
    ensures Ordered(Stream(src, base, o), base + o)
    ensures Stream(src, base, o).tail.AtEof? ==> Stream(src, base, o).tail.eofPos == base + |src|
    ensures Stream(src, base, o).tail.Failure? ==> Stream(src, base, o).tail.msg == UnterminatedString
    decreases |src| - o
  {
    ScanAtShape(src, base, o);
    match ScanAt(src, base, o)
    case Err(e) =>
    case Ok(step) =>
      if step.lex.tok != EOF {
        StreamOrdered(src, base, step.next);
        OrderedCons(step.lex, Stream(src, base, step.next), base + o, base + step.next);
      }
  }

  /** A lexeme placed before an ordered source keeps it ordered. */
  lemma OrderedCons(l: Lexeme, rest: TokenSource, from: int, mid: int)
    requires LexemeShape(l) && from <= l.pos && l.pos + |l.lit| <= mid && Ordered(rest, mid)
    ensures Ordered(TokenSource([l] + rest.lexemes, rest.tail), from)
  {
    var r := TokenSource([l] + rest.lexemes, rest.tail);
    assert forall k :: 0 < k < |r.lexemes| ==> r.lexemes[k] == rest.lexemes[k - 1];
  }

  /** A scan that yields a lexeme other than EOF puts it in front of the
      stream from where the scan stopped. */
  lemma StreamCons(src: seq<Byte>, base: int, o: nat, l: Lexeme, n: nat)
    requires o <= |src| && ScanAt(src, base, o) == Ok(Step(l, n)) && l.tok != EOF
    ensures n <= |src|
    ensures Stream(src, base, o) == TokenSource([l] + Stream(src, base, n).lexemes, Stream(src, base, n).tail)
  {
  }

  /** Appending the one scan at `o` to the stream that follows it. */
  lemma StreamStep(src: seq<Byte>, base: int, o: nat)
    requires o <= |src|
    ensures ScanAt(src, base, o).Err? ==> Stream(src, base, o) == TokenSource([], Failure(ScanAt(src, base, o).error))
    ensures ScanAt(src, base, o).Ok? && ScanAt(src, base, o).value.lex.tok == EOF ==>
      Stream(src, base, o) == TokenSource([], AtEof(ScanAt(src, base, o).value.lex.pos))
    ensures ScanAt(src, base, o).Ok? && ScanAt(src, base, o).value.lex.tok != EOF ==>
      var step := ScanAt(src, base, o).value;
      Stream(src, base, o) == TokenSource([step.lex] + Stream(src, base, step.next).lexemes, Stream(src, base, step.next).tail)
  {
  }

  /** The line start of the line that holds offset `o`. */
  function LineStart(src: seq<Byte>, o: nat): (r: nat)
    requires o <= |src|
    ensures r <= o
    ensures r == 0 || src[r - 1] == '\n'
    ensures forall k :: r <= k < o ==> src[k] != '\n'
  {
    if o == 0 then 0 else if src[o - 1] == '\n' then o else LineStart(src, o - 1)
  }

  /** The line table after the cursor has moved from offset 0 to `o`:
      each step over a newline calls `AddLine` with the offset after it. */
  function LinesAfter(lines0: seq<int>, src: seq<Byte>, o: nat): seq<int>
    requires o <= |src|
  {
    if o == 0 then lines0
    else
      var prev := LinesAfter(lines0, src, o - 1);
      if src[o - 1] == '\n' then AddLineTo(prev, o, |src|) else prev
  }

  /** Starting from a new file's table, the table after offset `o` is a
      valid line table that holds exactly 0 and every offset up to `o` that
      follows a newline and lies inside the file. */
  lemma {:induction false} LinesRecorded(src: seq<Byte>, o: nat)
    requires o <= |src|
    ensures var t := LinesAfter([0], src, o);
      LineTable(t, |src|) &&
      t[|t| - 1] < (if o == 0 then 1 else o + 1) &&
      (forall k :: 0 < k < |t| ==> 0 < t[k] <= o && src[t[k] - 1] == '\n') &&
      (forall j :: 0 < j <= o && j < |src| && src[j - 1] == '\n' ==> j in t)
  {
    if o > 0 {
      LinesRecorded(src, o - 1);
      var prev := LinesAfter([0], src, o - 1);
      var t := LinesAfter([0], src, o);
      if src[o - 1] == '\n' && o < |src| {
        assert t == prev + [o];
      } else {
        assert t == prev;
      }
    } else {
      assert |src| == 0 ==> LineTable([0], |src|);
    }
  }

  /** The cursor of `scanner.go`. `lines0` is the line table of the file
      when scanning began. */
  class Scanner {
    const file: File
    const src: seq<Byte>
    ghost const lines0: seq<int>
    var ch: int
    var offset: int
    var rdOffset: int
    var lineOffset: int

    /** The cursor stands at `offset`: `ch` is the byte there (or -1),
        `rdOffset` the offset after it, `lineOffset` the start of its line,
        and the file's line table has recorded every newline before it. */
    ghost predicate Valid()
      reads this, file
    {
      file.size == |src| && 0 <= offset <= |src| &&
      rdOffset == (if offset < |src| then offset + 1 else |src|) &&
      ch == Ch(src, offset) &&
      lineOffset == LineStart(src, offset) &&
      file.lines == LinesAfter(lines0, src, offset)
    }

    /** The state `Init` sets before reading the first character. */
    ghost predicate Starting()
      reads this, file
    {
      file.size == |src| && offset == 0 && rdOffset == 0 && ch == ' ' as int &&
      lineOffset == 0 && file.lines == lines0
    }

    /** `Init`: a file whose size differs from the source is a panic in the
        source and a precondition here. */
    constructor Init(file: File, src: seq<Byte>)
      requires file.size == |src|
      modifies file
      ensures this.file == file && this.src == src && lines0 == old(file.lines)
      ensures Valid() && offset == 0
    {
      this.file := file;
      this.src := src;
      lines0 := file.lines;
      ch := ' ' as int;
      offset := 0;
      rdOffset := 0;
      lineOffset := 0;
      new;
      Next();
    }

    /** `next`: reads the following byte into `ch`, reporting a line start
        to the file when the byte just passed was a newline. */
    method Next()
      requires Valid() || Starting()
      modifies this`ch, this`offset, this`rdOffset, this`lineOffset, file
      ensures Valid()
      ensures offset == if old(Starting()) then 0 else if old(offset) < |src| then old(offset) + 1 else |src|
    {
      if rdOffset < |src| {
        offset := rdOffset;
        if ch == '\n' as int {
          lineOffset := offset;
          file.AddLine(offset);
        }
        ch := src[rdOffset] as int;
        rdOffset := rdOffset + 1;
      } else {
        offset := |src|;
        if ch == '\n' as int {
          lineOffset := offset;
          file.AddLine(offset);
        }
        ch := -1;
      }
    }

    /** `skipWhitespace`. */
    method SkipWhitespace()
      requires Valid()
      modifies this`ch, this`offset, this`rdOffset, this`lineOffset, file
      ensures Valid() && offset == SkipSpaces(src, old(offset))
    {
      ghost var o0 := offset;
      while IsSpace(ch)
        invariant Valid() && o0 <= offset
        invariant SkipSpaces(src, o0) == SkipSpaces(src, offset)
        decreases |src| - offset
      {
        Next();
      }
    }

    /** `scanIdentifier`: the run of letters and digits at the cursor. */
    method ScanIdentifier() returns (lit: string)
      requires Valid()
      modifies this`ch, this`offset, this`rdOffset, this`lineOffset, file
      ensures Valid() && offset == IdentEnd(src, old(offset))
      ensures lit == src[old(offset)..offset]
    {
      var offs := offset;
      while IsLetter(ch) || IsDigit(ch)
        invariant Valid() && offs <= offset
        invariant IdentEnd(src, offs) == IdentEnd(src, offset)
        decreases |src| - offset
      {
        Next();
      }
      lit := src[offs..offset];
    }

    /** `scanString`: from the opening quote to the next quote inclusive;
        running out of input first is a panic in the source and an error
        result here. */
    method ScanString() returns (r: Result<string>)
      requires Valid() && ch == '\'' as int
      modifies this`ch, this`offset, this`rdOffset, this`lineOffset, file
      ensures Valid()
      ensures old(offset) < |src|
      ensures match QuoteIndex(src, old(offset) + 1)
        case None => r == Err(UnterminatedString)
        case Some(q) => r == Ok(src[old(offset)..q + 1]) && offset == q + 1
    {
      var offs := offset;
      Next();
      while ch != '\'' as int
        invariant Valid() && offs < offset
        invariant QuoteIndex(src, offs + 1) == QuoteIndex(src, offset)
        decreases |src| - offset
      {
        if ch == -1 {
          return Err(UnterminatedString);
        }
        Next();
      }
      Next();
      r := Ok(src[offs..offset]);
    }

    /** The identifier branch of `Scan`, at a letter. */
    method ScanWord() returns (l: Lexeme)
      requires Valid() && IsLetter(ch)
      modifies this`ch, this`offset, this`rdOffset, this`lineOffset, file
      ensures Valid() && Step(l, offset) == WordAt(src, file.base, old(offset))
    {
      var pos := file.Pos(offset);
      var lit := ScanIdentifier();
      var tok := if |lit| > 1 then Lookup(lit) else IDENT;
      l := Lexeme(pos, tok, lit);
    }

    /** The string branch of `Scan`, at a quote. */
    method ScanQuoted() returns (r: Result<Lexeme>)
      requires Valid() && ch == '\'' as int
      modifies this`ch, this`offset, this`rdOffset, this`lineOffset, file
      ensures Valid()
      ensures match QuotedAt(src, file.base, old(offset))
        case Ok(step) => r == Ok(step.lex) && offset == step.next
        case Err(e) => r == Err(e)
    {
      var pos := file.Pos(offset);
      var q := ScanString();
      if q.Err? {
        r := Err(q.error);
      } else {
        r := Ok(Lexeme(pos, STRING, q.value));
      }
    }

    /** The one-character branch of `Scan`, including EOF. */
    method ScanOther() returns (l: Lexeme)
      requires Valid() && !IsLetter(ch) && ch != '\'' as int
      modifies this`ch, this`offset, this`rdOffset, this`lineOffset, file
      ensures Valid() && Step(l, offset) == OtherAt(src, file.base, old(offset))
    {
      var pos := file.Pos(offset);
      var c := ch;
      Next();
      var (tok, lit) := Punctuation(c);
      l := Lexeme(pos, tok, lit);
    }

    /** `Scan`: the next lexeme, as `ScanAt` describes it. */
    method Scan() returns (r: Result<Lexeme>)
      requires Valid()
      modifies this`ch, this`offset, this`rdOffset, this`lineOffset, file
      ensures Valid()
      ensures match ScanAt(src, file.base, old(offset))
        case Ok(step) => r == Ok(step.lex) && offset == step.next
        case Err(e) => r == Err(e)
    {
      ghost var o0 := offset;
      SkipWhitespace();
      ghost var s := offset;
      if IsLetter(ch) {
        assert ScanAt(src, file.base, o0) == Ok(WordAt(src, file.base, s));
        var l := ScanWord();
        r := Ok(l);
      } else if ch == '\'' as int {
        assert ScanAt(src, file.base, o0) == QuotedAt(src, file.base, s);
        r := ScanQuoted();
      } else {
        assert ScanAt(src, file.base, o0) == Ok(OtherAt(src, file.base, s));
        var l := ScanOther();
        r := Ok(l);
      }
    }
  }
}
