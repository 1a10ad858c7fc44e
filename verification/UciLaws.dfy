/** The lexer undoes the printer. */
module UciLaws {
  import opened Common
  import opened Json
  import opened Uci

  /** Everything still to be read. */
  function Left(t: Text): seq<Byte> { t.line + t.rest }

  /** A line in the buffer reaches to its newline, unless the file ends first. */
  predicate WholeLine(t: Text) {
    t.line != [] && t.rest != [] ==> t.line[|t.line| - 1] == NEWLINE
  }

  /** A line in the buffer has no newline before its end. */
  predicate OneLine(t: Text) {
    forall i :: 0 <= i < |t.line| - 1 ==> t.line[i] != NEWLINE
  }

  /** What the buffer and the unread file always look like. */
  predicate Tidy(t: Text) { WholeLine(t) && OneLine(t) }

  predicate EndsWord(tail: seq<Byte>) { tail == [] || IsSpace(tail[0]) }

  /** The word read is `v`; of `tail` the white space that ended it is gone, and the rest of
      its line is in the buffer. */
  predicate Gives(r: Lexed, v: seq<Byte>, tail: seq<Byte>) {
    r.Ok? && r.value.1 == v &&
    var u := r.value.0;
    && Left(u) == (if tail == [] then [] else tail[1..]) && Tidy(u)
    && (tail != [] && tail[0] == NEWLINE ==> u.line == [])
    && (|tail| > 1 && tail[0] != NEWLINE ==> u.line != [])
  }

  lemma {:induction false} LineLenEnds(rest: seq<Byte>)
    ensures LineLen(rest) < |rest| ==> LineLen(rest) > 0 && rest[LineLen(rest) - 1] == NEWLINE
    ensures forall i :: 0 <= i < LineLen(rest) - 1 ==> rest[i] != NEWLINE
  {
    if rest != [] && rest[0] != NEWLINE { LineLenEnds(rest[1..]); }
  }

  lemma MoreKeeps(t: Text)
    requires t.line == []
    ensures Tidy(More(t)) && Left(More(t)) == Left(t)
  {
    LineLenEnds(t.rest);
  }

  function Newlines(s: seq<Byte>): nat {
    if s == [] then 0 else (if s[0] == NEWLINE then 1 else 0) + Newlines(s[1..])
  }

  lemma {:induction false} NewlinesBoth(a: seq<Byte>, b: seq<Byte>)
    ensures Newlines(a + b) == Newlines(a) + Newlines(b)
  {
    if a == [] {
      assert a + b == b;
    } else {
      assert (a + b)[1..] == a[1..] + b;
      NewlinesBoth(a[1..], b);
    }
  }

  lemma {:induction false} NoNewlines(s: seq<Byte>)
    requires forall i :: 0 <= i < |s| ==> s[i] != NEWLINE
    ensures Newlines(s) == 0
  {
    if s != [] { NoNewlines(s[1..]); }
  }

  /** The line number that errors are reported with counts the newlines that were read: with those still to come it
      is always the same. */
  lemma LinesAreCounted(t: Text)
    ensures More(t).no + Newlines(More(t).rest) == t.no + Newlines(t.rest)
  {
    if t.rest != [] {
      var n := LineLen(t.rest);
      LineLenEnds(t.rest);
      var body, last := t.rest[..n - 1], [t.rest[n - 1]];
      assert t.rest == body + last + t.rest[n..];
      NewlinesBoth(body + last, t.rest[n..]);
      NewlinesBoth(body, last);
      NoNewlines(body);
    }
  }

  /** A backslash continues its line if and only if nothing but the end of the line follows it. */
  lemma ContinuesIff(t: Text)
    requires OneLine(t) && t.line != [] && 0 !in t.line
    ensures var s := t.line[1..]; Continues(s) <==> s == [] || s == [NEWLINE] || s == [RETURN, NEWLINE]
  {
    var s := t.line[1..];
    assert forall i :: 0 <= i < |s| ==> s[i] == t.line[i + 1] && s[i] in t.line;
    assert |s| == 1 ==> s == [s[0]];
    assert |s| == 2 ==> s == [s[0], s[1]];
  }

  /** A name is letters, digits and underscores, the name of a package also hyphens; a type is any visible ASCII. */
  lemma NamesAre(s: seq<Byte>, package: bool)
    ensures ValidStr(s, true, package) <==> s != [] && forall i :: 0 <= i < |s| ==> NameByte(s[i], package)
    ensures ValidStr(s, false, false) <==> s != [] && forall i :: 0 <= i < |s| ==> ' ' as int < s[i] <= '~' as int
  {
  }

  predicate NameByte(c: Byte, package: bool) {
    || 'a' as int <= c <= 'z' as int || 'A' as int <= c <= 'Z' as int || '0' as int <= c <= '9' as int
    || c == '_' as int || (package && c == '-' as int)
  }

  function AfterSingle(t: Text): Lexed {
    match InSingle(t)
    case Err(e) => Err(e)
    case Ok((u, s)) => Prepend(s, Rest(u, false))
  }

  lemma AfterSingleStep(t: Text, v: seq<Byte>, tail: seq<Byte>)
    requires t.line != [] && t.line[0] != APOSTROPHE && v != [] && v[0] == t.line[0]
    requires Gives(AfterSingle(t.Drop(1)), v[1..], tail)
    ensures Gives(AfterSingle(t), v, tail)
  {
    var r := InSingle(t.Drop(1));
    var (u, s) := r.value;
    var c := [t.line[0]];
    var rest := Rest(u, false).value.1;
    assert c + s + rest == c + (s + rest);
    assert v == c + v[1..];
  }

  /** The escaped apostrophe: quote closed, one byte taken, quote opened again. */
  lemma AfterSingleEscape(t: Text, v: seq<Byte>, tail: seq<Byte>)
    requires |t.line| >= 4 && t.line[..4] == [APOSTROPHE, BACKSLASH, APOSTROPHE, APOSTROPHE]
    requires v != [] && v[0] == APOSTROPHE
    requires Gives(AfterSingle(t.Drop(4)), v[1..], tail)
    ensures Gives(AfterSingle(t), v, tail)
  {
    var l := t.line;
    assert l[0] == APOSTROPHE && l[1] == BACKSLASH && l[2] == APOSTROPHE && l[3] == APOSTROPHE;
    var t1, t3 := t.Drop(1), t.Drop(3);
    assert t1.Drop(2) == t3 && t3.Drop(1) == t.Drop(4);
    assert InSingle(t) == Ok((t1, []));
    assert Word(t3, false) == AfterSingle(t.Drop(4));
    assert Word(t1, false) == Prepend([APOSTROPHE], Rest(t3, false));
    assert v == [APOSTROPHE] + v[1..];
  }

  lemma AfterSingleMore(t: Text)
    requires t.line == [] && t.rest != []
    ensures AfterSingle(t) == AfterSingle(More(t))
  {
    assert InSingle(t) == InSingle(More(t));
  }

  lemma {:induction false} QuotedBody(t: Text, v: seq<Byte>, tail: seq<Byte>)
    requires Tidy(t) && EndsWord(tail) && Left(t) == QuoteBody(v) + [APOSTROPHE] + tail
    ensures Gives(AfterSingle(t), v, tail)
    decreases |t.rest|, |t.line|
  {
    hide InSingle, Rest, Word, AfterSingle, Gives, More, QuoteBody, EndsWord;
    if t.line == [] {
      MoreKeeps(t);
      QuotedBody(More(t), v, tail);
      AfterSingleMore(t);
    } else if v == [] {
      QuotedNothing(t, tail);
      QuotedEnd(t, tail);
    } else if v[0] != APOSTROPHE {
      PlainHead(t, v, tail);
      QuotedBody(t.Drop(1), v[1..], tail);
      AfterSingleStep(t, v, tail);
    } else {
      ApostropheHead(t, v, tail);
      QuotedBody(t.Drop(4), v[1..], tail);
      AfterSingleEscape(t, v, tail);
    }
  }

  /** The bytes that stand for the first byte of a value. */
  function FirstBytes(c: Byte): seq<Byte> {
    if c == APOSTROPHE then [APOSTROPHE, BACKSLASH, APOSTROPHE, APOSTROPHE] else [c]
  }

  lemma BodyStarts(v: seq<Byte>, tail: seq<Byte>)
    requires v != []
    ensures QuoteBody(v) + [APOSTROPHE] + tail == FirstBytes(v[0]) + (QuoteBody(v[1..]) + [APOSTROPHE] + tail)
  {
    var head, rest := FirstBytes(v[0]), QuoteBody(v[1..]);
    assert QuoteBody(v) == head + rest;
    hide QuoteBody, FirstBytes;
    assert head + rest + [APOSTROPHE] + tail == head + (rest + [APOSTROPHE] + tail);
  }

  lemma HeadOnLine(t: Text, head: seq<Byte>, rest: seq<Byte>)
    requires Left(t) == head + rest && |head| <= |t.line|
    ensures t.line[..|head|] == head && Left(t.Drop(|head|)) == rest
  {
    assert Left(t)[..|head|] == head && Left(t)[|head|..] == rest;
    assert t.line[..|head|] == Left(t)[..|head|];
    assert Left(t.Drop(|head|)) == Left(t)[|head|..];
  }

  lemma PlainHead(t: Text, v: seq<Byte>, tail: seq<Byte>)
    requires t.line != [] && v != [] && v[0] != APOSTROPHE && Left(t) == QuoteBody(v) + [APOSTROPHE] + tail
    ensures t.line[0] == v[0] && Left(t.Drop(1)) == QuoteBody(v[1..]) + [APOSTROPHE] + tail
  {
    hide QuoteBody, Left;
    BodyStarts(v, tail);
    HeadOnLine(t, [v[0]], QuoteBody(v[1..]) + [APOSTROPHE] + tail);
    assert t.line[..1][0] == v[0];
  }

  lemma ApostropheHead(t: Text, v: seq<Byte>, tail: seq<Byte>)
    requires WholeLine(t) && t.line != [] && v != [] && v[0] == APOSTROPHE
    requires Left(t) == QuoteBody(v) + [APOSTROPHE] + tail
    ensures |t.line| >= 4 && t.line[..4] == [APOSTROPHE, BACKSLASH, APOSTROPHE, APOSTROPHE]
    ensures Left(t.Drop(4)) == QuoteBody(v[1..]) + [APOSTROPHE] + tail
  {
    hide QuoteBody, Left;
    var four := [APOSTROPHE, BACKSLASH, APOSTROPHE, APOSTROPHE];
    var rest := QuoteBody(v[1..]) + [APOSTROPHE] + tail;
    BodyStarts(v, tail);
    assert forall i :: 0 <= i < 4 ==> (four + rest)[i] == four[i];
    SameLine(t, 4);
    HeadOnLine(t, four, rest);
  }

  lemma QuotedNothing(t: Text, tail: seq<Byte>)
    requires Left(t) == QuoteBody([]) + [APOSTROPHE] + tail
    ensures Left(t) == [APOSTROPHE] + tail
  {
  }

  /** Bytes without a newline are on one line. */
  lemma SameLine(t: Text, n: nat)
    requires WholeLine(t) && t.line != [] && |Left(t)| >= n
    requires forall i :: 0 <= i < n ==> Left(t)[i] != NEWLINE
    ensures |t.line| >= n
  {
    assert Left(t)[|t.line| - 1] == t.line[|t.line| - 1];
  }

  lemma QuotedEnd(t: Text, tail: seq<Byte>)
    requires Tidy(t) && EndsWord(tail) && t.line != [] && Left(t) == [APOSTROPHE] + tail
    ensures Gives(AfterSingle(t), [], tail)
  {
    var u := t.Drop(1);
    assert Left(t)[0] == t.line[0];
    assert Left(u) == Left(t)[1..] == tail;
    assert InSingle(t) == Ok((u, []));
    if u.line == [] {
      assert t.line[|t.line| - 1] == APOSTROPHE;
    } else {
      assert u.line[0] == tail[0];
      assert Left(u.Drop(1)) == Left(u)[1..];
    }
  }

  /** Reading a printed value, whatever bytes it holds and however many lines it
      spans, gives the value back and leaves the text after it. */
  lemma QuoteRound(t: Text, v: seq<Byte>, tail: seq<Byte>)
    requires Tidy(t) && t.line != [] && EndsWord(tail) && Left(t) == Quote(v) + tail
    ensures Gives(NextArg(t, false, false, false), v, tail)
  {
    hide InSingle, Rest, Word, AfterSingle, Gives, NextArg;
    assert Left(t)[0] == APOSTROPHE && t.line[0] == APOSTROPHE;
    assert Left(t.Drop(1)) == Left(t)[1..] == QuoteBody(v) + [APOSTROPHE] + tail;
    QuotedBody(t.Drop(1), v, tail);
    ArgOfQuoted(t);
  }

  lemma ArgOfQuoted(t: Text)
    requires t.line != [] && t.line[0] == APOSTROPHE
    ensures NextArg(t, false, false, false) == AfterSingle(t.Drop(1))
  {
    assert SkipSpace(t) == t;
    assert Word(t, true) == AfterSingle(t.Drop(1));
  }

  // ---- quotation marks ---------------------------------------------------------------------

  /** A value between quotation marks, as a person may write it: `"` and `\` are escaped. */
  function Escaped(v: seq<Byte>): seq<Byte> {
    if v == [] then []
    else (if v[0] == QUOTATION || v[0] == BACKSLASH then [BACKSLASH, v[0]] else [v[0]]) + Escaped(v[1..])
  }

  function AfterDouble(t: Text): Lexed {
    match InDouble(t)
    case Err(e) => Err(e)
    case Ok((u, s)) => Prepend(s, Rest(u, false))
  }

  /** `n` bytes stand for the one byte `c`. */
  lemma AfterDoubleStep(t: Text, c: Byte, n: nat, v: seq<Byte>, tail: seq<Byte>)
    requires n <= |t.line| && InDouble(t) == Prepend([c], InDouble(t.Drop(n)))
    requires v != [] && v[0] == c && Gives(AfterDouble(t.Drop(n)), v[1..], tail)
    ensures Gives(AfterDouble(t), v, tail)
  {
    hide InDouble, Rest;
    var (u, s) := InDouble(t.Drop(n)).value;
    var rest := Rest(u, false).value.1;
    assert [c] + s + rest == [c] + (s + rest);
    assert v == [c] + v[1..];
  }

  lemma AfterDoubleMore(t: Text)
    requires t.line == [] && t.rest != []
    ensures AfterDouble(t) == AfterDouble(More(t))
  {
    assert InDouble(t) == InDouble(More(t));
  }

  lemma DoubleEnd(t: Text, tail: seq<Byte>)
    requires Tidy(t) && EndsWord(tail) && t.line != [] && Left(t) == [QUOTATION] + tail
    ensures Gives(AfterDouble(t), [], tail)
  {
    var u := t.Drop(1);
    assert Left(t)[0] == t.line[0];
    assert Left(u) == Left(t)[1..] == tail;
    assert InDouble(t) == Ok((u, []));
    if u.line == [] {
      assert t.line[|t.line| - 1] == QUOTATION;
    } else {
      assert u.line[0] == tail[0];
      assert Left(u.Drop(1)) == Left(u)[1..];
    }
  }

  /** The first byte or escape of a value, on its line. */
  lemma EscapedHead(t: Text, v: seq<Byte>, tail: seq<Byte>) returns (n: nat)
    requires Tidy(t) && t.line != [] && v != [] && Left(t) == Escaped(v) + [QUOTATION] + tail
    ensures 0 < n <= |t.line| && InDouble(t) == Prepend([v[0]], InDouble(t.Drop(n)))
    ensures Left(t.Drop(n)) == Escaped(v[1..]) + [QUOTATION] + tail
  {
    hide InDouble, Escaped, Left, WholeLine, OneLine;
    var rest := Escaped(v[1..]) + [QUOTATION] + tail;
    EscapedStarts(v, tail);
    var head := if v[0] == QUOTATION || v[0] == BACKSLASH then [BACKSLASH, v[0]] else [v[0]];
    n := |head|;
    if n == 2 {
      assert forall i :: 0 <= i < 2 ==> (head + rest)[i] == head[i];
      SameLine(t, 2);
    }
    HeadOnLine(t, head, rest);
    assert t.line[..n][n - 1] == v[0] && t.line[..n][0] == head[0];
    TakesOne(t, n);
  }

  lemma EscapedStarts(v: seq<Byte>, tail: seq<Byte>)
    requires v != []
    ensures Escaped(v) + [QUOTATION] + tail ==
              (if v[0] == QUOTATION || v[0] == BACKSLASH then [BACKSLASH, v[0]] else [v[0]]) +
              (Escaped(v[1..]) + [QUOTATION] + tail)
  {
    var head := if v[0] == QUOTATION || v[0] == BACKSLASH then [BACKSLASH, v[0]] else [v[0]];
    var rest := Escaped(v[1..]);
    assert Escaped(v) == head + rest;
    hide Escaped;
    assert head + rest + [QUOTATION] + tail == head + (rest + [QUOTATION] + tail);
  }

  lemma TakesOne(t: Text, n: nat)
    requires 0 < n <= |t.line|
    requires n == 1 ==> t.line[0] != QUOTATION && t.line[0] != BACKSLASH
    requires n > 1 ==> n == 2 && t.line[0] == BACKSLASH && (t.line[1] == QUOTATION || t.line[1] == BACKSLASH)
    ensures InDouble(t) == Prepend([t.line[n - 1]], InDouble(t.Drop(n)))
  {
    if n == 2 { assert t.line[1..][0] == t.line[1]; }
  }

  lemma {:induction false} DoubleBody(t: Text, v: seq<Byte>, tail: seq<Byte>)
    requires Tidy(t) && EndsWord(tail) && Left(t) == Escaped(v) + [QUOTATION] + tail
    ensures Gives(AfterDouble(t), v, tail)
    decreases |t.rest|, |t.line|
  {
    hide InDouble, Rest, Word, AfterDouble, Gives, More, Escaped;
    if t.line == [] {
      MoreKeeps(t);
      DoubleBody(More(t), v, tail);
      AfterDoubleMore(t);
    } else if v == [] {
      EscapedNothing();
      DoubleEnd(t, tail);
    } else {
      var n := EscapedHead(t, v, tail);
      DoubleBody(t.Drop(n), v[1..], tail);
      AfterDoubleStep(t, v[0], n, v, tail);
    }
  }

  lemma EscapedNothing()
    ensures Escaped([]) == []
  {
  }

  /** The same law for quotation marks. */
  lemma DoubleRound(t: Text, v: seq<Byte>, tail: seq<Byte>)
    requires Tidy(t) && t.line != [] && EndsWord(tail)
    requires Left(t) == [QUOTATION] + Escaped(v) + [QUOTATION] + tail
    ensures Gives(NextArg(t, false, false, false), v, tail)
  {
    hide InDouble, Rest, Word, AfterDouble, Gives, NextArg;
    assert Left(t)[0] == QUOTATION && t.line[0] == QUOTATION;
    assert Left(t.Drop(1)) == Left(t)[1..] == Escaped(v) + [QUOTATION] + tail;
    DoubleBody(t.Drop(1), v, tail);
    ArgOfDouble(t);
  }

  lemma ArgOfDouble(t: Text)
    requires t.line != [] && t.line[0] == QUOTATION
    ensures NextArg(t, false, false, false) == AfterDouble(t.Drop(1))
  {
    assert SkipSpace(t) == t;
    assert Word(t, true) == AfterDouble(t.Drop(1));
  }

  // ---- words without quotes -----------------------------------------------------------------

  predicate Bare(w: seq<Byte>) { forall i :: 0 <= i < |w| ==> Ordinary(w[i]) && !IsSpace(w[i]) }

  /** What is left of a line after a bare word: a comment drops it, and so does a semicolon,
      because the end of the word is written over it. */
  function AfterBare(rest: seq<Byte>): seq<Byte> {
    if rest != [] && IsSpace(rest[0]) then rest[1..] else []
  }

  lemma BareEnds(u: Text)
    requires u.line == [] || IsSpace(u.line[0]) || u.line[0] == HASH || u.line[0] == SEMICOLON
    ensures Rest(u, true) == Ok((u.(line := AfterBare(u.line)), []))
  {
  }

  lemma {:induction false} BareWord(t: Text, w: seq<Byte>, rest: seq<Byte>)
    requires Bare(w) && w != [] && t.line == w + rest
    requires rest == [] || IsSpace(rest[0]) || rest[0] == HASH || rest[0] == SEMICOLON
    ensures Word(t, true) == Ok((t.(line := AfterBare(rest)), w))
    decreases |w|
  {
    var u := t.Drop(1);
    assert t.line[0] == w[0] && u.line == w[1..] + rest;
    assert Word(t, true) == Prepend([w[0]], Rest(u, true));
    if |w| == 1 {
      BareEnds(u);
      assert u.line == rest;
      assert [w[0]] + [] == w;
    } else {
      assert u.line[0] == w[1] && Bare(w[1..]);
      BareWord(u, w[1..], rest);
      assert [w[0]] + w[1..] == w;
    }
  }
}
