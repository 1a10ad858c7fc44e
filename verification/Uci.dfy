/** The UCI file format of `uci.rs`, said as functions on the text that is still to
    be read: the rest of the present line and the rest of the file. `UciLexer` does
    the same in place in one line buffer. */
module Uci {
  import opened Common
  import opened Json

  // ---- data -------------------------------------------------------------------------

  datatype Value = Single(v: seq<Byte>) | List(items: seq<seq<Byte>>)

  datatype Opt = Opt(name: seq<Byte>, value: Value)

  datatype Section = Section(name: Option<seq<Byte>>, stype: seq<Byte>, options: seq<Opt>)

  datatype Reason =
    | OpenDouble | OpenSingle | TooFew | BadName | TooMany
    | NoConfigName | BadType | OtherType | NoSection | NoOptionName | NoPackageName
    | BadCommand | NulByte

  datatype ParseError = ParseError(line: nat, reason: Reason)

  /** `no` counts the lines that were read to their end. */
  datatype Text = Text(line: seq<Byte>, rest: seq<Byte>, no: nat)
  {
    function Drop(n: nat): Text
      requires n <= |line|
    {
      this.(line := line[n..])
    }
  }

  const SPACE: Byte := 0x20
  const TAB: Byte := 0x09
  const NEWLINE: Byte := 0x0a
  const RETURN: Byte := 0x0d
  const HASH: Byte := 0x23
  const SEMICOLON: Byte := 0x3b
  const APOSTROPHE: Byte := 0x27
  const QUOTATION: Byte := 0x22
  const BACKSLASH: Byte := 0x5c

  predicate IsSpace(c: Byte) {
    c == SPACE || c == TAB || c == NEWLINE || c == 0x0b || c == 0x0c || c == RETURN
  }

  predicate IsBlank(c: Byte) { c == SPACE || c == TAB }

  predicate IsAlnum(c: Byte) {
    0x30 <= c <= 0x39 || 0x41 <= c <= 0x5a || 0x61 <= c <= 0x7a
  }

  predicate ValidStr(s: seq<Byte>, name: bool, package: bool) {
    s != [] && forall i :: 0 <= i < |s| ==>
      IsAlnum(s[i]) || s[i] == 0x5f || (s[i] == 0x2d && package) || (!name && 33 <= s[i] <= 126)
  }

  // ---- lines ------------------------------------------------------------------------

  /** The length of the first line of `rest`, its newline included. */
  function LineLen(rest: seq<Byte>): (n: nat)
    ensures n <= |rest| && (rest != [] ==> n > 0)
  {
    if rest == [] then 0 else if rest[0] == NEWLINE then 1 else 1 + LineLen(rest[1..])
  }

  /** The present line is used up (or dropped): the next one takes its place. */
  function More(t: Text): (r: Text)
    ensures t.rest != [] ==> r.line != [] && |r.rest| < |t.rest|
    ensures t.rest == [] ==> r == t.(line := [])
  {
    if t.rest == [] then t.(line := [])
    else
      var n := LineLen(t.rest);
      Text(t.rest[..n], t.rest[n..], if t.rest[n - 1] == NEWLINE then t.no + 1 else t.no)
  }

  function SkipSpace(t: Text): (r: Text)
    ensures r.rest == t.rest && |r.line| <= |t.line|
    ensures r.line == [] || !IsSpace(r.line[0])
    decreases |t.line|
  {
    if t.line != [] && IsSpace(t.line[0]) then SkipSpace(t.Drop(1)) else t
  }

  // ---- words -------------------------------------------------------------------------

  /** No text comes back. */
  predicate NoMore(u: Text, t: Text) {
    |u.rest| < |t.rest| || (u.rest == t.rest && |u.line| <= |t.line|)
  }

  /** Some text was used up. */
  predicate Less(u: Text, t: Text) {
    |u.rest| < |t.rest| || (u.rest == t.rest && |u.line| < |t.line|)
  }

  type Lexed = Outcome<(Text, seq<Byte>), ParseError>

  function Prepend(c: seq<Byte>, r: Lexed): Lexed {
    match r
    case Ok((t, s)) => Ok((t, c + s))
    case Err(e) => Err(e)
  }

  function CharAt(s: seq<Byte>, i: nat): Byte { if i < |s| then s[i] else 0 }

  /** Does the backslash continue the line? `s` is what follows it. */
  predicate Continues(s: seq<Byte>) {
    var c := CharAt(s, 0);
    c == 0 || c == NEWLINE || (c == RETURN && CharAt(s, 1) == NEWLINE && CharAt(s, 2) == 0)
  }

  /** The text after the opening apostrophe, up to the closing one. */
  function InSingle(t: Text): (r: Lexed)
    ensures r.Ok? ==> Less(r.value.0, t)
    decreases |t.rest|, |t.line|
  {
    if t.line == [] then
      if t.rest == [] then Err(ParseError(t.no, OpenSingle)) else InSingle(More(t))
    else if t.line[0] == APOSTROPHE then Ok((t.Drop(1), []))
    else Prepend([t.line[0]], InSingle(t.Drop(1)))
  }

  function InDouble(t: Text): (r: Lexed)
    ensures r.Ok? ==> Less(r.value.0, t)
    decreases |t.rest|, |t.line|
  {
    if t.line == [] then
      if t.rest == [] then Err(ParseError(t.no, OpenDouble)) else InDouble(More(t))
    else if t.line[0] == QUOTATION then Ok((t.Drop(1), []))
    else if t.line[0] == BACKSLASH then
      if Continues(t.line[1..]) then InDouble(More(t.Drop(1)))
      else Prepend([t.line[1]], InDouble(t.Drop(2)))
    else Prepend([t.line[0]], InDouble(t.Drop(1)))
  }

  predicate Ordinary(c: Byte) {
    c != APOSTROPHE && c != QUOTATION && c != BACKSLASH && c != HASH && c != SEMICOLON
  }

  /** One piece of a word: a quoted part, an escaped byte, a continued line, or a byte. */
  function Piece(t: Text): (r: Lexed)
    requires t.line != []
    ensures r.Ok? ==> Less(r.value.0, t)
  {
    var c := t.line[0];
    if c == APOSTROPHE then InSingle(t.Drop(1))
    else if c == QUOTATION then InDouble(t.Drop(1))
    else if c == BACKSLASH then
      if Continues(t.line[1..]) then Ok((More(t.Drop(1)), [])) else Ok((t.Drop(2), [t.line[1]]))
    else Ok((t.Drop(1), [c]))
  }

  /** `parse_str`. `exact` says that every byte of the word so far stands for itself, so
      that its terminator falls on the byte after it. */
  function Word(t: Text, exact: bool): (r: Lexed)
    ensures r.Ok? ==> NoMore(r.value.0, t)
    decreases |t.rest|, |t.line|, 0
  {
    if t.line == [] then Ok((t, []))
    else if t.line[0] == HASH then Ok((t.(line := []), []))
    else if t.line[0] == SEMICOLON then Ok((if exact then t.(line := []) else t, []))
    else
      match Piece(t)
      case Err(e) => Err(e)
      case Ok((u, s)) => Prepend(s, Rest(u, exact && Ordinary(t.line[0])))
  }

  /** The end of the loop: a word ends at white space, which is skipped, or at the end of the line. */
  function Rest(t: Text, exact: bool): (r: Lexed)
    ensures r.Ok? ==> NoMore(r.value.0, t)
    decreases |t.rest|, |t.line|, 1
  {
    if t.line == [] then Ok((t, []))
    else if IsSpace(t.line[0]) then Ok((t.Drop(1), []))
    else Word(t, exact)
  }

  /** `next_arg`. */
  function NextArg(t: Text, required: bool, name: bool, package: bool): (a: Lexed)
    ensures a.Ok? ==> NoMore(a.value.0, t)
  {
    var u := SkipSpace(t);
    var r: Lexed := if u.line != [] && u.line[0] == SEMICOLON then Ok((u.Drop(1), [])) else Word(u, true);
    match r
    case Err(e) => Err(e)
    case Ok((w, s)) =>
      if s == [] && required then Err(ParseError(w.no, TooFew))
      else if s != [] && name && !ValidStr(s, name, package) then Err(ParseError(w.no, BadName))
      else r
  }

  /** `assert_eol`: nothing but an empty argument may follow. */
  function Eol(t: Text): (r: Outcome<Text, ParseError>)
    ensures r.Ok? ==> NoMore(r.value, t)
  {
    match NextArg(t, false, false, false)
    case Err(e) => Err(e)
    case Ok((u, s)) => if s == [] then Ok(u) else Err(ParseError(u.no, TooMany))
  }

  // ---- printing ------------------------------------------------------------------------

  /** An apostrophe is closed, escaped and opened again. */
  function QuoteBody(v: seq<Byte>): seq<Byte> {
    if v == [] then []
    else (if v[0] == APOSTROPHE then [APOSTROPHE, BACKSLASH, APOSTROPHE, APOSTROPHE] else [v[0]]) + QuoteBody(v[1..])
  }

  function Quote(v: seq<Byte>): seq<Byte> { [APOSTROPHE] + QuoteBody(v) + [APOSTROPHE] }

  // ---- commands --------------------------------------------------------------------------

  /** `current` is the section that options go to. */
  datatype Pkg = Pkg(sections: seq<Section>, current: Option<nat>)

  type Parsed = Outcome<(Pkg, Text), ParseError>

  const PACKAGE: seq<Byte> := [0x70, 0x61, 0x63, 0x6b, 0x61, 0x67, 0x65]
  const CONFIG: seq<Byte> := [0x63, 0x6f, 0x6e, 0x66, 0x69, 0x67]
  const OPTION: seq<Byte> := [0x6f, 0x70, 0x74, 0x69, 0x6f, 0x6e]
  const LIST: seq<Byte> := [0x6c, 0x69, 0x73, 0x74]

  function Blanks(s: seq<Byte>): (n: nat)
    ensures n <= |s| && (n < |s| ==> !IsBlank(s[n]))
  {
    if s == [] || !IsBlank(s[0]) then 0 else 1 + Blanks(s[1..])
  }

  function WordLen(s: seq<Byte>): (n: nat)
    ensures n <= |s| && (n < |s| ==> IsBlank(s[n]))
  {
    if s == [] || IsBlank(s[0]) then 0 else 1 + WordLen(s[1..])
  }

  /** Where the first keyword of the line starts and ends. */
  function KeywordEnd(line: seq<Byte>): (n: nat)
    ensures Blanks(line) <= n <= |line|
  {
    Blanks(line) + WordLen(line[Blanks(line)..])
  }

  function Keyword(line: seq<Byte>): seq<Byte> { line[Blanks(line)..KeywordEnd(line)] }

  /** The full keyword or its first letter. */
  predicate Means(word: seq<Byte>, full: seq<Byte>)
    requires full != []
  {
    word == full || word == [full[0]]
  }

  /** Past the keyword and the one byte that ends it. */
  function SkipKeyword(t: Text, reason: Reason): (r: Outcome<Text, ParseError>)
    ensures r.Ok? ==> Less(r.value, t)
  {
    if KeywordEnd(t.line) >= |t.line| then Err(ParseError(t.no, reason)) else Ok(t.Drop(KeywordEnd(t.line) + 1))
  }

  function FindSection(sections: seq<Section>, name: seq<Byte>): (r: Option<nat>)
    ensures r.Some? ==> r.value < |sections| && sections[r.value].name == Some(name)
    ensures r.Some? ==> forall j :: 0 <= j < r.value ==> sections[j].name != Some(name)
    ensures r.None? ==> forall j :: 0 <= j < |sections| ==> sections[j].name != Some(name)
  {
    if sections == [] then None
    else if sections[0].name == Some(name) then Some(0)
    else
      var r := FindSection(sections[1..], name);
      if r.None? then None else Some(r.value + 1)
  }

  function FindOption(options: seq<Opt>, name: seq<Byte>): (r: Option<nat>)
    ensures r.Some? ==> r.value < |options| && options[r.value].name == name
    ensures r.Some? ==> forall j :: 0 <= j < r.value ==> options[j].name != name
    ensures r.None? ==> forall j :: 0 <= j < |options| ==> options[j].name != name
  {
    if options == [] then None
    else if options[0].name == name then Some(0)
    else
      var r := FindOption(options[1..], name);
      if r.None? then None else Some(r.value + 1)
  }

  function AddSection(p: Pkg, stype: seq<Byte>, name: Option<seq<Byte>>): Pkg {
    Pkg(p.sections + [Section(name, stype, [])], Some(|p.sections|))
  }

  function Config(p: Pkg, t: Text): (r: Parsed)
    ensures r.Ok? ==> Less(r.value.1, t)
  {
    match SkipKeyword(t, NoConfigName)
    case Err(e) => Err(e)
    case Ok(t1) =>
      match NextArg(t1, true, false, false)
      case Err(e) => Err(e)
      case Ok((t2, stype)) =>
        if !ValidStr(stype, false, false) then Err(ParseError(t2.no, BadType))
        else
          match NextArg(t2, false, true, false)
          case Err(e) => Err(e)
          case Ok((t3, name)) =>
            match Eol(t3)
            case Err(e) => Err(e)
            case Ok(t4) =>
              if name == [] then Ok((AddSection(p, stype, None), t4))
              else
                var found := FindSection(p.sections, name);
                if found.None? then Ok((AddSection(p, stype, Some(name)), t4))
                else if p.sections[found.value].stype != stype then Err(ParseError(t4.no, OtherType))
                else Ok((p.(current := found), t4))
  }

  /** What an `option` or `list` line does to the options of its section. */
  function AddOption(options: seq<Opt>, list: bool, name: seq<Byte>, value: seq<Byte>): seq<Opt> {
    var found := FindOption(options, name);
    if list then
      if found.None? then options + [Opt(name, List([value]))]
      else
        match options[found.value].value
        case List(items) => options[found.value := Opt(name, List(items + [value]))]
        case Single(v) => options[found.value := Opt(name, List([v, value]))]
    else if value == [] then options
    else if found.None? then options + [Opt(name, Single(value))]
    else options[found.value := Opt(name, Single(value))]
  }

  function OptionLine(p: Pkg, t: Text, list: bool): (r: Parsed)
    requires p.current.Some? ==> p.current.value < |p.sections|
    ensures r.Ok? ==> Less(r.value.1, t) && r.value.0.current == p.current
    ensures r.Ok? ==> |r.value.0.sections| == |p.sections|
  {
    if p.current.None? then Err(ParseError(t.no, NoSection))
    else
      match SkipKeyword(t, NoOptionName)
      case Err(e) => Err(e)
      case Ok(t1) =>
        match NextArg(t1, true, true, false)
        case Err(e) => Err(e)
        case Ok((t2, name)) =>
          match NextArg(t2, false, false, false)
          case Err(e) => Err(e)
          case Ok((t3, value)) =>
            match Eol(t3)
            case Err(e) => Err(e)
            case Ok(t4) =>
              var s := p.sections[p.current.value];
              var changed := s.(options := AddOption(s.options, list, name, value));
              Ok((p.(sections := p.sections[p.current.value := changed]), t4))
  }

  function PackageLine(p: Pkg, t: Text): (r: Parsed)
    ensures r.Ok? ==> Less(r.value.1, t) && r.value.0 == p
  {
    match SkipKeyword(t, NoPackageName)
    case Err(e) => Err(e)
    case Ok(t1) =>
      match NextArg(t1, true, true, true)
      case Err(e) => Err(e)
      case Ok((t2, _)) =>
        match Eol(t2)
        case Err(e) => Err(e)
        case Ok(t3) => Ok((p, t3))
  }

  predicate PkgOk(p: Pkg) { p.current.Some? ==> p.current.value < |p.sections| }

  function Command(p: Pkg, t: Text, word: seq<Byte>): (r: Parsed)
    requires PkgOk(p) && word != []
    ensures r.Ok? ==> Less(r.value.1, t) && PkgOk(r.value.0)
  {
    if Means(word, PACKAGE) then PackageLine(p, t)
    else if Means(word, CONFIG) then Config(p, t)
    else if Means(word, OPTION) then OptionLine(p, t, false)
    else if Means(word, LIST) then OptionLine(p, t, true)
    else Err(ParseError(t.no, BadCommand))
  }

  /** The commands on a line and its continuations. */
  function Commands(p: Pkg, t: Text): (r: Parsed)
    requires PkgOk(p)
    ensures r.Ok? ==> NoMore(r.value.1, t) && PkgOk(r.value.0)
    decreases |t.rest|, |t.line|
  {
    var word := Keyword(t.line);
    if word == [] || word[0] == HASH then Ok((p, t))
    else
      match Command(p, t, word)
      case Err(e) => Err(e)
      case Ok((q, u)) => Commands(q, u)
  }

  function Lines(p: Pkg, t: Text): (r: Outcome<Pkg, ParseError>)
    requires PkgOk(p)
    ensures r.Ok? ==> PkgOk(r.value)
    decreases |t.rest|
  {
    if t.rest == [] then Ok(p)
    else
      match Commands(p, SkipSpace(More(t)))
      case Err(e) => Err(e)
      case Ok((q, u)) => Lines(q, u)
  }

  /** `parse`. */
  function ParseFile(input: seq<Byte>): Outcome<seq<Section>, ParseError> {
    if 0 in input then Err(ParseError(0, NulByte))
    else
      match Lines(Pkg([], None), Text([], input, 0))
      case Err(e) => Err(e)
      case Ok(p) => Ok(p.sections)
  }
}
