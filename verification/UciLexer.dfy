/** The lexer of `uci.rs` as it runs: one line buffer that is rewritten in place, a
    read cursor `pos`, a write cursor `dest`, and lines appended to the buffer when a
    quoted value goes on. It reads what `Uci` says, its write cursor never passes
    its read cursor, and every loop ends. */
module UciLexer {
  import opened Common
  import opened Json
  import opened Uci

  lemma PrependTwice(a: seq<Byte>, b: seq<Byte>, r: Lexed)
    ensures Prepend(a, Prepend(b, r)) == Prepend(a + b, r)
  {
    if r.Ok? { assert a + (b + r.value.1) == a + b + r.value.1; }
  }

  lemma PrependNothing(r: Lexed)
    ensures Prepend([], r) == r
  {
    if r.Ok? { assert [] + r.value.1 == r.value.1; }
  }

  lemma NoKeyword()
    ensures Keyword([]) == []
  {
  }

  // ---- one turn of the loop inside apostrophes ------------------------------------------

  lemma SingleEnds(t: Text, got: seq<Byte>)
    requires t.line != [] && t.line[0] == APOSTROPHE
    ensures Prepend(got, InSingle(t)) == Ok((t.Drop(1), got))
  {
    assert got + [] == got;
  }

  lemma SingleGoesOn(t: Text, got: seq<Byte>)
    requires t.line == []
    ensures Prepend(got, InSingle(t)) ==
              if t.rest == [] then Err(ParseError(t.no, OpenSingle)) else Prepend(got, InSingle(More(t)))
  {
  }

  lemma SingleTakes(t: Text, got: seq<Byte>)
    requires t.line != [] && t.line[0] != APOSTROPHE
    ensures Prepend(got, InSingle(t)) == Prepend(got + [t.line[0]], InSingle(t.Drop(1)))
  {
    PrependTwice(got, [t.line[0]], InSingle(t.Drop(1)));
  }

  // ---- one turn of the loop inside quotation marks -----------------------------------------

  lemma DoubleEnds(t: Text, got: seq<Byte>)
    requires t.line != [] && t.line[0] == QUOTATION
    ensures Prepend(got, InDouble(t)) == Ok((t.Drop(1), got))
  {
    assert got + [] == got;
  }

  lemma DoubleGoesOn(t: Text, got: seq<Byte>)
    requires t.line == []
    ensures Prepend(got, InDouble(t)) ==
              if t.rest == [] then Err(ParseError(t.no, OpenDouble)) else Prepend(got, InDouble(More(t)))
  {
  }

  /** A byte or an escape outside apostrophes: what follows it and what it stands for. */
  ghost function Taken(t: Text): (Text, seq<Byte>)
    requires t.line != []
  {
    if t.line[0] != BACKSLASH then (t.Drop(1), [t.line[0]])
    else if Continues(t.line[1..]) then (More(t.Drop(1)), [])
    else (t.Drop(2), [t.line[1]])
  }

  lemma DoubleTakes(t: Text, got: seq<Byte>)
    requires t.line != [] && t.line[0] != QUOTATION
    ensures Prepend(got, InDouble(t)) == Prepend(got + Taken(t).1, InDouble(Taken(t).0))
  {
    PrependTwice(got, Taken(t).1, InDouble(Taken(t).0));
    PrependNothing(InDouble(Taken(t).0));
  }

  // ---- one turn of the loop over a word -------------------------------------------------------

  lemma WordTakes(t: Text, exact: bool, got: seq<Byte>)
    requires t.line != [] && t.line[0] != HASH && t.line[0] != SEMICOLON
    ensures Prepend(got, Word(t, exact)) ==
              match Piece(t)
              case Err(e) => Err(e)
              case Ok((u, s)) => Prepend(got + s, Rest(u, exact && Ordinary(t.line[0])))
  {
    hide Piece;
    if Piece(t).Ok? {
      PrependTwice(got, Piece(t).value.1, Rest(Piece(t).value.0, exact && Ordinary(t.line[0])));
    }
  }

  lemma WordStops(t: Text, exact: bool, got: seq<Byte>)
    requires t.line == [] || t.line[0] == HASH || t.line[0] == SEMICOLON
    ensures Prepend(got, Word(t, exact)) ==
              Ok((if t.line == [] || (t.line[0] == SEMICOLON && !exact) then t else t.(line := []), got))
  {
    assert got + [] == got;
  }

  lemma RestStops(t: Text, exact: bool, got: seq<Byte>)
    ensures Prepend(got, Rest(t, exact)) ==
              if t.line == [] then Ok((t, got))
              else if IsSpace(t.line[0]) then Ok((t.Drop(1), got))
              else Prepend(got, Word(t, exact))
  {
    assert got + [] == got;
  }

  /** The text left when a word has ended. */
  ghost function Finish(t: Text, next: bool, exact: bool): Text {
    if next && t.line != [] then t.Drop(1) else if !next && exact then t.(line := []) else t
  }

  lemma {:induction false} UpToNulIs(w: seq<Byte>, rest: seq<Byte>)
    requires 0 !in w && (rest == [] || rest[0] == 0)
    ensures UpToNul(w + rest) == w
  {
    if w != [] {
      assert (w + rest)[1..] == w[1..] + rest;
      UpToNulIs(w[1..], rest);
    } else {
      assert w + rest == rest;
    }
  }

  lemma LineTaken(input: seq<Byte>, ipos: nat, n: nat, kept: seq<Byte>, dest: nat)
    requires 0 !in input && ipos + n <= |input| && dest <= |kept|
    ensures var buf := kept + input[ipos..][..n];
            && buf[|kept|..] == input[ipos..][..n] && 0 !in buf[|kept|..] && buf[..dest] == kept[..dest]
            && input[ipos + n..] == input[ipos..][n..]
  {
    assert forall x | x in input[ipos..][..n] :: x in input;
  }

  /** The keyword ends at the mark, and the text goes on after it. */
  lemma MarkSplits(tail: seq<Byte>, line: seq<Byte>, k: nat)
    requires k <= |line| && tail == (if k < |line| then line[k := 0] else line) && 0 !in line
    ensures UpToNul(tail) == line[..k]
    ensures k < |line| ==> tail[k + 1..] == line[k + 1..] && 0 !in line[k + 1..]
  {
    hide UpToNul;
    assert tail == line[..k] + tail[k..];
    UpToNulIs(line[..k], tail[k..]);
  }

  class Lexer {
    const input: seq<Byte>
    var ipos: nat
    var buf: seq<Byte>
    var pos: nat
    var filled: nat
    var line: nat

    /** The cursors are inside the buffer; after the last line was cut off, nothing is left to read. */
    ghost predicate Bounds()
      reads this
    {
      && 0 !in input && ipos <= |input|
      && pos <= |buf| <= filled && (filled == |buf| || pos == |buf|)
    }

    /** What is still to be read has no NUL, or starts with the one that ended the line. */
    ghost predicate Valid()
      reads this
    {
      Bounds() && (0 !in buf[pos..] || buf[pos] == 0)
    }

    ghost predicate Open()
      reads this
    {
      Bounds() && 0 !in buf[pos..]
    }

    ghost function Now(): Text
      reads this
      requires Bounds()
    {
      Text(if pos < |buf| && buf[pos] == 0 then [] else buf[pos..], input[ipos..], line)
    }

    constructor (input: seq<Byte>)
      requires 0 !in input
      ensures Valid() && Now() == Text([], input, 0) && this.input == input && fresh(this)
      ensures ipos == 0 && line == 0
    {
      this.input := input;
      ipos, buf, pos, filled, line := 0, [], 0, 0, 0;
    }

    function Cur(): Byte
      reads this
    {
      CharAt(buf, pos)
    }

    lemma CurIsHead()
      requires Valid()
      ensures Now().no == line && (Cur() == 0 <==> Now().line == [])
      ensures Cur() != 0 ==> Open() && Now().line != [] && Now().line[0] == Cur()
    {
    }

    method Set(i: nat, c: Byte)
      requires Bounds()
      modifies this`buf
      ensures buf == if i < |old(buf)| then old(buf)[i := c] else old(buf)
      ensures Bounds()
    {
      if i < |buf| { buf := buf[i := c]; }
    }

    method Advance()
      requires Valid() && Cur() != 0
      modifies this`pos
      ensures Open() && pos == old(pos) + 1
      ensures old(Now()).line != [] && old(Now()).line[0] == old(Cur()) && Now() == old(Now()).Drop(1)
    {
      assert buf[pos..][1..] == buf[pos + 1..];
      pos := pos + 1;
    }

    /** `getln` at the read cursor. */
    method GetLn(ghost dest: nat)
      requires Open() && dest <= pos
      modifies this
      ensures Open() && pos == old(pos) && buf[..dest] == old(buf[..dest])
      ensures Now() == More(old(Now()))
      ensures ipos > old(ipos) || (ipos == old(ipos) && |buf| == pos)
    {
      hide LineLen;
      var kept := buf[..pos];
      assert kept[..dest] == buf[..dest];
      buf := kept;
      if ipos >= |input| { return; }
      var rest := input[ipos..];
      var n := LineLen(rest);
      LineTaken(input, ipos, n, kept, dest);
      buf := buf + rest[..n];
      ipos := ipos + n;
      filled := |buf|;
      if buf[|buf| - 1] == NEWLINE { line := line + 1; }
    }

    method SkipWhite()
      requires Valid()
      modifies this`pos
      ensures Valid() && Now() == SkipSpace(old(Now())) && pos >= old(pos)
    {
      while Cur() != 0 && IsSpace(Cur())
        invariant Valid() && pos >= old(pos)
        invariant SkipSpace(Now()) == SkipSpace(old(Now()))
        decreases |buf| - pos
      {
        ghost var before := Now();
        pos := pos + 1;
        assert Now() == before.Drop(1);
      }
    }

    /** Copies the byte at the read cursor to the write cursor. */
    method AddC(dest: nat)
      requires Valid() && dest <= pos && Cur() != 0
      modifies this`buf, this`pos
      ensures Open() && pos == old(pos) + 1 && |buf| == |old(buf)| && dest + 1 <= pos
      ensures old(Now()).line != [] && old(Now()).line[0] == old(Cur()) && Now() == old(Now()).Drop(1)
      ensures buf[..dest + 1] == old(buf[..dest]) + [old(Cur())]
    {
      var c := Cur();
      Set(dest, c);
      pos := pos + 1;
      assert buf[pos..] == old(buf[pos..])[1..];
    }

    /** After a backslash: is the next byte taken as it is? Otherwise the line goes on. */
    method Backslash(ghost dest: nat) returns (keep: bool)
      requires Valid() && dest <= pos && Cur() == BACKSLASH
      modifies this
      ensures Open() && pos == old(pos) + 1
      ensures old(Now()).line != [] && old(Now()).line[0] == BACKSLASH && keep == !Continues(old(Now()).line[1..])
      ensures keep ==> Cur() != 0 && Now() == old(Now()).Drop(1) && |buf| == |old(buf)| && ipos == old(ipos)
      ensures !keep ==> Now() == More(old(Now()).Drop(1))
      ensures !keep ==> ipos > old(ipos) || (ipos == old(ipos) && |buf| == pos)
      ensures buf[..dest] == old(buf[..dest])
    {
      ghost var tail := buf[pos..];
      pos := pos + 1;
      assert buf[pos..] == tail[1..];
      var c := Cur();
      if c == 0 || c == NEWLINE || (c == RETURN && CharAt(buf, pos + 1) == NEWLINE && CharAt(buf, pos + 2) == 0) {
        GetLn(dest);
        return false;
      }
      return true;
    }

    /** Takes one byte, or a backslash and what it stands for. */
    method TakeOne(start: nat) returns (dest: nat)
      requires Open() && start <= pos && Cur() != 0
      modifies this
      ensures Open() && start <= dest <= pos && old(Now()).line != [] && old(Now()).line[0] == old(Cur())
      ensures var (u, w) := Taken(old(Now()));
              Now() == u && 0 !in w && buf[..dest] == old(buf[..start]) + w
      ensures dest == pos <==> start == old(pos) && old(Cur()) != BACKSLASH
      ensures ipos > old(ipos) || (ipos == old(ipos) && |buf| - pos < old(|buf| - pos))
    {
      hide More, Continues;
      dest := start;
      if Cur() == BACKSLASH {
        var keep := Backslash(dest);
        if keep {
          ghost var t := old(Now());
          assert t.Drop(1).Drop(1) == t.Drop(2);
          AddC(dest);
          dest := dest + 1;
        }
      } else {
        AddC(dest);
        dest := dest + 1;
      }
    }

    method SingleQuote(start: nat) returns (r: Outcome<nat, ParseError>)
      requires Open() && start <= pos && Cur() == APOSTROPHE
      modifies this
      ensures Bounds() && old(Now()).line != []
      ensures match InSingle(old(Now()).Drop(1))
              case Err(e) => r == Err(e)
              case Ok((u, w)) =>
                && r.Ok? && Open() && Now() == u && start <= r.value < pos
                && buf[..r.value] == old(buf[..start]) + w && 0 !in w
                && (ipos > old(ipos) || (ipos == old(ipos) && |buf| - pos < old(|buf| - pos)))
    {
      hide InSingle, Prepend, More, Lexer.Now;
      ghost var got: seq<Byte> := [];
      var dest := start;
      CurIsHead();
      Advance();
      PrependNothing(InSingle(Now()));
      while true
        invariant Open() && start <= dest < pos
        invariant buf[..dest] == old(buf[..start]) + got && 0 !in got
        invariant InSingle(old(Now()).Drop(1)) == Prepend(got, InSingle(Now()))
        invariant ipos > old(ipos) || (ipos == old(ipos) && |buf| - pos < old(|buf| - pos))
        decreases |input| - ipos, |buf| - pos
      {
        CurIsHead();
        var c := Cur();
        if c == APOSTROPHE {
          SingleEnds(Now(), got);
          Advance();
          return Ok(dest);
        } else if c == 0 {
          SingleGoesOn(Now(), got);
          GetLn(dest);
          CurIsHead();
          if Cur() == 0 {
            return Err(ParseError(line, OpenSingle));
          }
        } else {
          SingleTakes(Now(), got);
          AddC(dest);
          dest := dest + 1;
          got := got + [c];
        }
      }
    }

    method DoubleQuote(start: nat) returns (r: Outcome<nat, ParseError>)
      requires Open() && start <= pos && Cur() == QUOTATION
      modifies this
      ensures Bounds() && old(Now()).line != []
      ensures match InDouble(old(Now()).Drop(1))
              case Err(e) => r == Err(e)
              case Ok((u, w)) =>
                && r.Ok? && Open() && Now() == u && start <= r.value < pos
                && buf[..r.value] == old(buf[..start]) + w && 0 !in w
                && (ipos > old(ipos) || (ipos == old(ipos) && |buf| - pos < old(|buf| - pos)))
    {
      hide InDouble, Prepend, More, Taken, Lexer.Now;
      ghost var got: seq<Byte> := [];
      var dest := start;
      CurIsHead();
      Advance();
      PrependNothing(InDouble(Now()));
      while true
        invariant Open() && start <= dest < pos
        invariant buf[..dest] == old(buf[..start]) + got && 0 !in got
        invariant InDouble(old(Now()).Drop(1)) == Prepend(got, InDouble(Now()))
        invariant ipos > old(ipos) || (ipos == old(ipos) && |buf| - pos < old(|buf| - pos))
        decreases |input| - ipos, |buf| - pos
      {
        CurIsHead();
        var c := Cur();
        if c == QUOTATION {
          DoubleEnds(Now(), got);
          Advance();
          return Ok(dest);
        } else if c == 0 {
          DoubleGoesOn(Now(), got);
          GetLn(dest);
          CurIsHead();
          if Cur() == 0 {
            return Err(ParseError(line, OpenDouble));
          }
        } else {
          DoubleTakes(Now(), got);
          got := got + Taken(Now()).1;
          dest := TakeOne(dest);
        }
      }
    }

    /** One turn of `parse_str` that does not end the word. */
    method TakePiece(start: nat) returns (r: Outcome<nat, ParseError>)
      requires Open() && start <= pos && Cur() != 0 && Cur() != HASH && Cur() != SEMICOLON
      modifies this
      ensures Bounds() && old(Now()).line != [] && old(Now()).line[0] == old(Cur())
      ensures match Piece(old(Now()))
              case Err(e) => r == Err(e)
              case Ok((u, w)) =>
                && r.Ok? && Open() && Now() == u && start <= r.value <= pos
                && buf[..r.value] == old(buf[..start]) + w && 0 !in w
                && (r.value == pos <==> start == old(pos) && Ordinary(old(Cur())))
                && (ipos > old(ipos) || (ipos == old(ipos) && |buf| - pos < old(|buf| - pos)))
    {
      hide InSingle, InDouble, More, Continues;
      var c := Cur();
      if c == APOSTROPHE {
        r := SingleQuote(start);
      } else if c == QUOTATION {
        r := DoubleQuote(start);
      } else {
        var dest := TakeOne(start);
        r := Ok(dest);
      }
    }

    /** The loop of `parse_str`: gives the write cursor, and whether the byte that ended
        the word is to be skipped. */
    method Collect() returns (r: Outcome<(nat, bool), ParseError>)
      requires Valid()
      modifies this
      ensures Bounds()
      ensures match Word(old(Now()), true)
              case Err(e) => r == Err(e)
              case Ok((u, w)) =>
                && r.Ok? && Valid() && Ended(r.value.0, r.value.1)
                && old(pos) <= r.value.0 <= pos && buf[..r.value.0] == old(buf[..pos]) + w && 0 !in w
                && u == Finish(Now(), r.value.1, r.value.0 == pos)
    {
      hide Word, Rest, Prepend, Piece, Ordinary, Lexer.Now;
      var dest := pos;
      ghost var got: seq<Byte> := [];
      PrependNothing(Word(Now(), true));
      while true
        invariant Valid() && old(pos) <= dest <= pos
        invariant buf[..dest] == old(buf[..pos]) + got && 0 !in got
        invariant Word(old(Now()), true) == Prepend(got, Word(Now(), dest == pos))
        decreases |input| - ipos, |buf| - pos
      {
        CurIsHead();
        var c := Cur();
        if c == HASH || c == 0 || c == SEMICOLON {
          WordStops(Now(), dest == pos, got);
          if c == HASH { EndLine(dest); CurIsHead(); }
          return Ok((dest, c != SEMICOLON));
        }
        WordTakes(Now(), dest == pos, got);
        got := got + (if Piece(Now()).Ok? then Piece(Now()).value.1 else []);
        var q := TakePiece(dest);
        if q.Err? { return Err(q.error); }
        dest := q.value;
        RestStops(Now(), dest == pos, got);
        CurIsHead();
        if Cur() == 0 || IsSpace(Cur()) { return Ok((dest, true)); }
      }
    }

    ghost predicate Ended(dest: nat, next: bool)
      reads this
    {
      && (next || Cur() == SEMICOLON)
      && (dest == pos && next ==> Cur() == 0 || IsSpace(Cur()))
    }

    /** A `#` ends the line. */
    method EndLine(ghost dest: nat)
      requires Open() && Cur() != 0 && dest <= pos
      modifies this`buf
      ensures Valid() && Cur() == 0 && buf[..dest] == old(buf[..dest]) && Now() == old(Now()).(line := [])
    {
      Set(pos, 0);
    }

    /** `parse_str`: the word ends up at the place where it started. */
    method ParseStr() returns (r: Option<ParseError>)
      requires Valid()
      modifies this
      ensures Bounds()
      ensures match Word(old(Now()), true)
              case Err(e) => r == Some(e)
              case Ok((u, w)) =>
                r.None? && Valid() && Now() == u && old(pos) <= pos && UpToNul(buf[old(pos)..]) == w
    {
      hide Word, UpToNul;
      ghost var start := pos;
      ghost var word := Word(Now(), true);
      var q := Collect();
      if q.Err? { return Some(q.error); }
      var (dest, next) := q.value;
      assert buf[start..dest] == word.value.1;
      FinishWord(dest, next, start, word.value.1);
      return None;
    }

    /** The end of `parse_str`: the terminator is written at the write cursor, which
        drops the rest of the line if an unread `;` stands there. */
    method FinishWord(dest: nat, next: bool, ghost start: nat, ghost got: seq<Byte>)
      requires Valid() && start <= dest <= pos && buf[start..dest] == got && 0 !in got
      requires Ended(dest, next)
      modifies this`buf, this`pos
      ensures Valid() && start <= pos && UpToNul(buf[start..]) == got
      ensures Now() == Finish(old(Now()), next, dest == old(pos))
    {
      hide UpToNul;
      if Cur() != 0 && next { Advance(); }
      ghost var tail := buf[pos..];
      Set(dest, 0);
      assert dest < pos ==> buf[pos..] == tail;
      assert buf[start..] == got + buf[dest..];
      UpToNulIs(got, buf[dest..]);
    }

    method TakeSemicolon()
      requires Valid() && Cur() == SEMICOLON
      modifies this`buf, this`pos
      ensures Valid() && pos == old(pos) + 1 && UpToNul(buf[old(pos)..]) == []
      ensures old(Now()).line != [] && Now() == old(Now()).Drop(1)
    {
      ghost var t := Now();
      Set(pos, 0);
      assert buf[pos..][1..] == buf[pos + 1..] == t.line[1..];
      pos := pos + 1;
    }

    /** `next_arg`. */
    method Arg(required: bool, name: bool, package: bool) returns (r: Outcome<seq<Byte>, ParseError>)
      requires Valid()
      modifies this
      ensures Bounds()
      ensures match NextArg(old(Now()), required, name, package)
              case Err(e) => r == Err(e)
              case Ok((u, w)) => r == Ok(w) && Valid() && Now() == u
    {
      hide Word, UpToNul, SkipSpace, ValidStr, Lexer.Now;
      SkipWhite();
      var start := pos;
      CurIsHead();
      if Cur() == SEMICOLON {
        TakeSemicolon();
      } else {
        var q := ParseStr();
        if q.Some? { return Err(q.value); }
      }
      CurIsHead();
      var s := UpToNul(buf[start..]);
      if s == [] {
        if required { return Err(ParseError(line, TooFew)); }
        return Ok(s);
      }
      if name && !ValidStr(s, name, package) { return Err(ParseError(line, BadName)); }
      return Ok(s);
    }

    method AssertEol() returns (r: Option<ParseError>)
      requires Valid()
      modifies this
      ensures Bounds()
      ensures match Eol(old(Now()))
              case Err(e) => r == Some(e)
              case Ok(u) => r.None? && Valid() && Now() == u
    {
      SpacesTwice(Now());
      SkipWhite();
      var s := Arg(false, false, false);
      if s.Err? { return Some(s.error); }
      if s.value != [] { return Some(ParseError(line, TooMany)); }
      return None;
    }

    /** The buffer after `strtok` has written its terminator into the text `t`. */
    ghost predicate Marked(t: Text)
      reads this
    {
      && Bounds() && input[ipos..] == t.rest && line == t.no
      && 0 !in t.line && t.line != [] && |t.line| == |buf| - pos
      && buf[pos..] == (if KeywordEnd(t.line) < |t.line| then t.line[KeywordEnd(t.line) := 0] else t.line)
    }

    method Strtok() returns (word: seq<Byte>)
      requires Valid()
      modifies this`buf
      ensures Bounds() && word == Keyword(old(Now()).line)
      ensures if word == [] then buf == old(buf) else Marked(old(Now()))
    {
      hide Keyword, KeywordEnd, Blanks, WordLen, Lexer.Now;
      CurIsHead();
      if Cur() == 0 {
        NoKeyword();
        return [];
      }
      word := KeywordHere();
    }

    method KeywordHere() returns (word: seq<Byte>)
      requires Open() && Cur() != 0
      modifies this`buf
      ensures Bounds() && word == Keyword(old(Now()).line)
      ensures if word == [] then buf == old(buf) else Marked(old(Now()))
    {
      hide Blanks, WordLen;
      ghost var t := Now();
      var start := BlanksEnd(pos);
      assert buf[start..] == t.line[start - pos..];
      var end := WordEnd(start);
      word := buf[start..end];
      assert word == t.line[start - pos..end - pos];
      assert KeywordEnd(t.line) == end - pos;
      if word != [] {
        Set(end, 0);
        assert buf[pos..] == if end - pos < |t.line| then t.line[end - pos := 0] else t.line;
      }
    }

    method BlanksEnd(from: nat) returns (i: nat)
      requires from <= |buf|
      ensures i == from + Blanks(buf[from..])
    {
      i := from;
      while IsBlank(CharAt(buf, i))
        invariant from <= i <= |buf| && Blanks(buf[from..]) == i - from + Blanks(buf[i..])
        decreases |buf| - i
      {
        assert buf[i..][1..] == buf[i + 1..];
        i := i + 1;
      }
    }

    method WordEnd(from: nat) returns (i: nat)
      requires from <= |buf| && 0 !in buf[from..]
      ensures i == from + WordLen(buf[from..])
    {
      i := from;
      while CharAt(buf, i) != 0 && !IsBlank(CharAt(buf, i))
        invariant from <= i <= |buf| && WordLen(buf[from..]) == i - from + WordLen(buf[i..])
        decreases |buf| - i
      {
        assert buf[i..][1..] == buf[i + 1..];
        i := i + 1;
      }
    }

    /** A new line begins: the buffer is empty. */
    method Restart()
      requires Bounds()
      modifies this`buf, this`pos, this`filled
      ensures Open() && pos == 0 && Now() == Text([], input[ipos..], line)
    {
      buf, pos, filled := [], 0, 0;
    }

    method SkipWord(ghost t: Text, reason: Reason) returns (r: Option<ParseError>)
      requires Marked(t)
      modifies this`pos
      ensures Bounds()
      ensures match SkipKeyword(t, reason)
              case Err(e) => r == Some(e)
              case Ok(u) => r.None? && Valid() && Now() == u
    {
      hide UpToNul, KeywordEnd;
      ghost var k := KeywordEnd(t.line);
      var s := UpToNul(buf[pos..]);
      MarkSplits(buf[pos..], t.line, k);
      if pos + |s| + 1 > filled { return Some(ParseError(line, reason)); }
      assert buf[pos + k + 1..] == buf[pos..][k + 1..];
      pos := pos + |s| + 1;
      return None;
    }
  }

  lemma {:induction false} SpacesTwice(t: Text)
    ensures NextArg(SkipSpace(t), false, false, false) == NextArg(t, false, false, false)
  {
    assert SkipSpace(SkipSpace(t)) == SkipSpace(t);
  }

  class Parser {
    var sections: seq<Section>
    var current: Option<nat>

    function State(): Pkg
      reads this
    {
      Pkg(sections, current)
    }

    constructor ()
      ensures State() == Pkg([], None) && fresh(this)
    {
      sections, current := [], None;
    }

    method Config(lx: Lexer, ghost t: Text) returns (r: Option<ParseError>)
      requires lx.Marked(t)
      modifies this, lx
      ensures lx.Bounds()
      ensures match Uci.Config(old(State()), t)
              case Err(e) => r == Some(e)
              case Ok((q, u)) => r.None? && State() == q && lx.Valid() && lx.Now() == u
    {
      hide NextArg, Eol, SkipKeyword, ValidStr;
      r := lx.SkipWord(t, NoConfigName);
      if r.Some? { return; }
      var stype := lx.Arg(true, false, false);
      if stype.Err? { return Some(stype.error); }
      if !ValidStr(stype.value, false, false) { return Some(ParseError(lx.line, BadType)); }
      var name := lx.Arg(false, true, false);
      if name.Err? { return Some(name.error); }
      r := lx.AssertEol();
      if r.Some? { return; }
      if name.value == [] {
        sections := sections + [Section(None, stype.value, [])];
        current := Some(|sections| - 1);
        return;
      }
      var found := FindSection(sections, name.value);
      if found.Some? {
        if sections[found.value].stype != stype.value { return Some(ParseError(lx.line, OtherType)); }
        current := found;
      } else {
        sections := sections + [Section(Some(name.value), stype.value, [])];
        current := Some(|sections| - 1);
      }
    }

    method Option(lx: Lexer, list: bool, ghost t: Text) returns (r: Option<ParseError>)
      requires lx.Marked(t) && PkgOk(State())
      modifies this, lx
      ensures lx.Bounds()
      ensures match OptionLine(old(State()), t, list)
              case Err(e) => r == Some(e)
              case Ok((q, u)) => r.None? && State() == q && lx.Valid() && lx.Now() == u
    {
      hide NextArg, Eol, SkipKeyword;
      if current.None? { return Some(ParseError(lx.line, NoSection)); }
      r := lx.SkipWord(t, NoOptionName);
      if r.Some? { return; }
      var name := lx.Arg(true, true, false);
      if name.Err? { return Some(name.error); }
      var value := lx.Arg(false, false, false);
      if value.Err? { return Some(value.error); }
      r := lx.AssertEol();
      if r.Some? { return; }
      var s := sections[current.value];
      var changed := AddOption(s.options, list, name.value, value.value);
      sections := sections[current.value := s.(options := changed)];
    }

    method Package(lx: Lexer, ghost t: Text) returns (r: Option<ParseError>)
      requires lx.Marked(t)
      modifies lx
      ensures lx.Bounds()
      ensures match PackageLine(State(), t)
              case Err(e) => r == Some(e)
              case Ok((q, u)) => r.None? && lx.Valid() && lx.Now() == u
    {
      hide NextArg, Eol, SkipKeyword;
      r := lx.SkipWord(t, NoPackageName);
      if r.Some? { return; }
      var name := lx.Arg(true, true, true);
      if name.Err? { return Some(name.error); }
      r := lx.AssertEol();
    }

    method Line(lx: Lexer) returns (r: Option<ParseError>)
      requires lx.Valid() && PkgOk(State())
      modifies this, lx
      ensures lx.Bounds()
      ensures match Commands(old(State()), SkipSpace(old(lx.Now())))
              case Err(e) => r == Some(e)
              case Ok((q, u)) => r.None? && State() == q && PkgOk(q) && lx.input[lx.ipos..] == u.rest && lx.line == u.no
    {
      hide SkipSpace, PackageLine, OptionLine, Uci.Config, Keyword;
      lx.SkipWhite();
      while true
        invariant lx.Valid() && PkgOk(State())
        invariant Commands(old(State()), SkipSpace(old(lx.Now()))) == Commands(State(), lx.Now())
        decreases |lx.Now().rest|, |lx.Now().line|
      {
        ghost var t := lx.Now();
        var word := lx.Strtok();
        if word == [] || word[0] == HASH { return None; }
        if Means(word, PACKAGE) {
          r := Package(lx, t);
        } else if Means(word, CONFIG) {
          r := Config(lx, t);
        } else if Means(word, OPTION) {
          r := Option(lx, false, t);
        } else if Means(word, LIST) {
          r := Option(lx, true, t);
        } else {
          return Some(ParseError(lx.line, BadCommand));
        }
        if r.Some? { return; }
      }
    }
  }

  lemma LinesStep(p: Pkg, t: Text)
    requires PkgOk(p) && t.rest != []
    ensures Lines(p, t) ==
              match Commands(p, SkipSpace(More(t)))
              case Err(e) => Err(e)
              case Ok((q, u)) => Lines(q, Text([], u.rest, u.no))
  {
    hide Commands, SkipSpace;
    match Commands(p, SkipSpace(More(t)))
    case Err(_) =>
    case Ok((q, u)) => assert u.rest != [] ==> More(u) == More(Text([], u.rest, u.no));
  }

  /** `parse`, for every input. */
  method Parse(input: seq<Byte>) returns (r: Outcome<seq<Section>, ParseError>)
    ensures r == ParseFile(input)
  {
    hide Commands, SkipSpace, More, Lexer.Now, Lines;
    if 0 in input { return Err(ParseError(0, NulByte)); }
    var lx := new Lexer(input);
    var p := new Parser();
    assert input[lx.ipos..] == input;
    while lx.ipos < |input|
      invariant fresh(lx) && fresh(p)
      invariant lx.Bounds() && lx.input == input && PkgOk(p.State())
      invariant Lines(Pkg([], None), Text([], input, 0)) == Lines(p.State(), Text([], input[lx.ipos..], lx.line))
      decreases |input| - lx.ipos
    {
      LinesStep(p.State(), Text([], input[lx.ipos..], lx.line));
      lx.Restart();
      lx.GetLn(0);
      var e := p.Line(lx);
      if e.Some? { return Err(e.value); }
    }
    LinesEnd(p.State(), Text([], input[lx.ipos..], lx.line));
    return Ok(p.sections);
  }

  lemma LinesEnd(p: Pkg, t: Text)
    requires PkgOk(p) && t.rest == []
    ensures Lines(p, t) == Ok(p)
  {
  }
}
