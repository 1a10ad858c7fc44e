/** Whole files: a package written out with `config`, `option` and `list` lines and quoted
    values is parsed back to exactly that package. */
module UciFile {
  import opened Common
  import opened Json
  import opened Uci
  import opened UciLaws
  import opened UciRefs

  // ---- writing a package ---------------------------------------------------------------------

  function OptionText(list: bool, name: seq<Byte>, value: seq<Byte>): seq<Byte> {
    (if list then LIST else OPTION) + [SPACE] + Quote(name) + [SPACE] + Quote(value) + [NEWLINE]
  }

  function ItemsText(name: seq<Byte>, items: seq<seq<Byte>>): seq<Byte> {
    if items == [] then [] else OptionText(true, name, items[0]) + ItemsText(name, items[1..])
  }

  function OptText(o: Opt): seq<Byte> {
    match o.value
    case Single(v) => OptionText(false, o.name, v)
    case List(items) => ItemsText(o.name, items)
  }

  function OptionsText(options: seq<Opt>): seq<Byte> {
    if options == [] then [] else OptText(options[0]) + OptionsText(options[1..])
  }

  function ConfigText(stype: seq<Byte>, name: Option<seq<Byte>>): seq<Byte> {
    CONFIG + [SPACE] + Quote(stype) + (if name.Some? then [SPACE] + Quote(name.value) else []) + [NEWLINE]
  }

  function FileText(sections: seq<Section>): seq<Byte> {
    if sections == [] then []
    else ConfigText(sections[0].stype, sections[0].name) + OptionsText(sections[0].options) + FileText(sections[1..])
  }

  // ---- one line -----------------------------------------------------------------------------------

  /** The text between two lines of the file. */
  predicate Between(u: Text, more: seq<Byte>) { u.line == [] && u.rest == more }

  lemma ArgFlags(t: Text, v: seq<Byte>, tail: seq<Byte>, required: bool, name: bool)
    requires Tidy(t) && t.line != [] && tail != [] && IsSpace(tail[0]) && Left(t) == Quote(v) + tail
    requires required ==> v != []
    requires name && v != [] ==> ValidStr(v, true, false)
    ensures Gives(NextArg(t, required, name, false), v, tail)
  {
    hide Word, Quote, ValidStr, SkipSpace;
    QuoteRound(t, v, tail);
  }

  lemma NothingLeft(u: Text, name: bool)
    requires u.line == []
    ensures NextArg(u, false, name, false) == Ok((u, [])) && Eol(u) == Ok(u)
  {
  }

  lemma {:induction false} WordLenIs(kw: seq<Byte>, s: seq<Byte>)
    requires |kw| < |s| && s[..|kw|] == kw && IsBlank(s[|kw|]) && forall i :: 0 <= i < |kw| ==> !IsBlank(kw[i])
    ensures WordLen(s) == |kw|
  {
    if kw != [] {
      assert s[0] == kw[0];
      assert s[1..][..|kw| - 1] == kw[1..];
      WordLenIs(kw[1..], s[1..]);
    }
  }

  predicate KeywordText(kw: seq<Byte>) {
    kw != [] && forall i :: 0 <= i < |kw| ==> !IsSpace(kw[i])
  }

  /** A keyword at the start of a line, and the text after it. */
  lemma KeywordRead(t: Text, kw: seq<Byte>, tail: seq<Byte>, reason: Reason)
    requires Tidy(t) && t.line != [] && KeywordText(kw) && tail != [] && tail[0] == APOSTROPHE
    requires Left(t) == kw + [SPACE] + tail
    ensures Keyword(t.line) == kw && SkipSpace(t) == t
    ensures var r := SkipKeyword(t, reason);
            r.Ok? && r.value.line != [] && Tidy(r.value) && Left(r.value) == tail
  {
    var n := |kw|;
    KeywordOnLine(t, kw, tail);
    KeywordAlone(t.line, kw);
    hide Blanks, WordLen;
    assert !IsSpace(t.line[0]) by { assert t.line[..n][0] == kw[0]; }
    assert SkipSpace(t) == t;
  }

  lemma KeywordOnLine(t: Text, kw: seq<Byte>, tail: seq<Byte>)
    requires Tidy(t) && t.line != [] && KeywordText(kw) && tail != [] && tail[0] == APOSTROPHE
    requires Left(t) == kw + [SPACE] + tail
    ensures var n := |kw|;
            && |t.line| > n + 1 && t.line[..n] == kw && t.line[n] == SPACE
            && Tidy(t.Drop(n + 1)) && Left(t.Drop(n + 1)) == tail
  {
    var n := |kw|;
    assert Left(t)[..n] == kw && Left(t)[n] == SPACE && Left(t)[n + 1] == tail[0];
    assert forall i :: 0 <= i < n ==> Left(t)[i] == kw[i];
    SameLine(t, n + 2);
    assert Left(t.Drop(n + 1)) == Left(t)[n + 1..] == tail;
  }

  lemma KeywordAlone(line: seq<Byte>, kw: seq<Byte>)
    requires KeywordText(kw) && |kw| < |line| && line[..|kw|] == kw && line[|kw|] == SPACE
    ensures Blanks(line) == 0 && KeywordEnd(line) == |kw| && Keyword(line) == kw
  {
    assert line[0] == line[..|kw|][0] == kw[0];
    WordLenIs(kw, line);
    assert line[0..] == line;
  }

  function Current(p: Pkg): seq<Opt>
    requires PkgOk(p) && p.current.Some?
  {
    p.sections[p.current.value].options
  }

  function WithOptions(p: Pkg, options: seq<Opt>): (r: Pkg)
    requires PkgOk(p) && p.current.Some?
    ensures PkgOk(r) && r.current == p.current && Current(r) == options && |r.sections| == |p.sections|
  {
    p.(sections := p.sections[p.current.value := p.sections[p.current.value].(options := options)])
  }

  lemma OptionRead(p: Pkg, t: Text, list: bool, name: seq<Byte>, value: seq<Byte>, more: seq<Byte>) returns (u: Text)
    requires PkgOk(p) && p.current.Some? && ValidStr(name, true, false)
    requires Tidy(t) && t.line != [] && Left(t) == OptionText(list, name, value) + more
    ensures Between(u, more)
    ensures SkipSpace(t) == t
    ensures Keyword(t.line) == if list then LIST else OPTION
    ensures OptionLine(p, t, list) == Ok((WithOptions(p, AddOption(Current(p), list, name, value)), u))
  {
    hide Quote, NextArg, Eol, SkipKeyword, Keyword, SkipSpace, AddOption;
    var kw := if list then LIST else OPTION;
    var tail2 := [NEWLINE] + more;
    var tail1 := [SPACE] + Quote(value) + tail2;
    assert Left(t) == kw + [SPACE] + (Quote(name) + tail1);
    QuoteStarts(name);
    KeywordRead(t, kw, Quote(name) + tail1, NoOptionName);
    var t1 := SkipKeyword(t, NoOptionName).value;
    ArgFlags(t1, name, tail1, true, true);
    var t2 := NextArg(t1, true, true, false).value.0;
    assert tail1[1..] == Quote(value) + tail2;
    ArgFlags(t2, value, tail2, false, false);
    u := NextArg(t2, false, false, false).value.0;
    assert tail2[1..] == more;
    NothingLeft(u, false);
  }

  lemma QuoteStarts(v: seq<Byte>)
    ensures Quote(v) != [] && Quote(v)[0] == APOSTROPHE
  {
  }

  /** What a `config` line comes to: a new section, a section of that name and type again, or an error. */
  function Opened(p: Pkg, stype: seq<Byte>, name: Option<seq<Byte>>): Option<Pkg> {
    var found := if name.Some? then FindSection(p.sections, name.value) else None;
    if found.None? then Some(AddSection(p, stype, name))
    else if p.sections[found.value].stype == stype then Some(Pkg(p.sections, found))
    else None
  }

  /** The arguments of a `config` line, one after another. */
  lemma ConfigSteps(p: Pkg, t: Text, t1: Text, t2: Text, u: Text, stype: seq<Byte>, name: Option<seq<Byte>>)
    requires SkipKeyword(t, NoConfigName) == Ok(t1) && NextArg(t1, true, false, false) == Ok((t2, stype))
    requires NextArg(t2, false, true, false) == Ok((u, if name.Some? then name.value else [])) && Eol(u) == Ok(u)
    requires ValidStr(stype, false, false) && (name.Some? ==> name.value != [])
    ensures Config(p, t) == match Opened(p, stype, name)
                            case Some(q) => Ok((q, u))
                            case None => Err(ParseError(u.no, OtherType))
  {
    hide NextArg, Eol, SkipKeyword, ValidStr, FindSection;
  }

  lemma ConfigType(t: Text, stype: seq<Byte>, tail: seq<Byte>) returns (t1: Text, t2: Text)
    requires stype != [] && tail != [] && IsSpace(tail[0])
    requires Tidy(t) && t.line != [] && Left(t) == CONFIG + [SPACE] + (Quote(stype) + tail)
    ensures SkipSpace(t) == t && Keyword(t.line) == CONFIG
    ensures SkipKeyword(t, NoConfigName) == Ok(t1) && NextArg(t1, true, false, false) == Ok((t2, stype))
    ensures Tidy(t2) && Left(t2) == tail[1..] && (tail[0] == NEWLINE ==> t2.line == [])
    ensures |tail| > 1 && tail[0] != NEWLINE ==> t2.line != []
  {
    hide Quote, NextArg, SkipKeyword, Keyword, SkipSpace, Tidy;
    QuoteStarts(stype);
    KeywordRead(t, CONFIG, Quote(stype) + tail, NoConfigName);
    t1 := SkipKeyword(t, NoConfigName).value;
    ArgFlags(t1, stype, tail, true, false);
    t2 := NextArg(t1, true, false, false).value.0;
  }

  /** What follows the type on a `config` line. */
  function NameTail(name: Option<seq<Byte>>, end: seq<Byte>): seq<Byte> {
    if name.Some? then [SPACE] + Quote(name.value) + end else end
  }

  lemma ConfigTextIs(stype: seq<Byte>, name: Option<seq<Byte>>, more: seq<Byte>)
    ensures ConfigText(stype, name) + more == CONFIG + [SPACE] + (Quote(stype) + NameTail(name, [NEWLINE] + more))
  {
    hide Quote;
    var named := if name.Some? then [SPACE] + Quote(name.value) else [];
    var end := [NEWLINE] + more;
    assert named + end == NameTail(name, end);
    Chain(CONFIG + [SPACE], Quote(stype), named, [NEWLINE], more);
  }

  lemma ConfigName(t: Text, name: Option<seq<Byte>>, more: seq<Byte>) returns (u: Text)
    requires name.Some? ==> name.value != [] && ValidStr(name.value, true, false) && t.line != []
    requires name.None? ==> t.line == []
    requires Tidy(t) && Left(t) == NameTail(name, [NEWLINE] + more)[1..]
    ensures NextArg(t, false, true, false) == Ok((u, if name.Some? then name.value else []))
    ensures Eol(u) == Ok(u) && Between(u, more)
  {
    hide Quote, NextArg, Eol, Tidy, ValidStr;
    var end := [NEWLINE] + more;
    if name.Some? {
      assert NameTail(name, end)[1..] == Quote(name.value) + end;
      ArgFlags(t, name.value, end, false, true);
      u := NextArg(t, false, true, false).value.0;
    } else {
      u := t;
      NothingLeft(u, true);
    }
    assert end[1..] == more;
    NothingLeft(u, false);
  }

  lemma Chain(a: seq<Byte>, b: seq<Byte>, c: seq<Byte>, d: seq<Byte>, e: seq<Byte>)
    ensures a + b + c + d + e == a + (b + (c + (d + e)))
  {
  }

  lemma ConfigRead(p: Pkg, t: Text, stype: seq<Byte>, name: Option<seq<Byte>>, more: seq<Byte>) returns (u: Text)
    requires ValidStr(stype, false, false) && (name.Some? ==> ValidStr(name.value, true, false))
    requires Tidy(t) && t.line != [] && Left(t) == ConfigText(stype, name) + more
    ensures Between(u, more) && SkipSpace(t) == t && Keyword(t.line) == CONFIG
    ensures Config(p, t) == match Opened(p, stype, name)
                            case Some(q) => Ok((q, u))
                            case None => Err(ParseError(u.no, OtherType))
  {
    assert stype != [] && (name.Some? ==> name.value != []);
    hide Quote, NextArg, Eol, SkipKeyword, Keyword, SkipSpace, ValidStr, Config, Opened, Tidy, ConfigText, Left;
    var tail := NameTail(name, [NEWLINE] + more);
    ConfigTextIs(stype, name, more);
    var t1, t2 := ConfigType(t, stype, tail);
    u := ConfigName(t2, name, more);
    ConfigSteps(p, t, t1, t2, u, stype, name);
  }

  // ---- lines of the file --------------------------------------------------------------------------

  /** A line that is one command, up to the next line. */
  lemma LineRead(p: Pkg, t: Text, q: Pkg, u: Text)
    requires PkgOk(p) && PkgOk(q) && t.rest != [] && u.line == []
    requires var l := More(t);
             && SkipSpace(l) == l && Keyword(l.line) != [] && Keyword(l.line)[0] != HASH
             && Command(p, l, Keyword(l.line)) == Ok((q, u))
    ensures Lines(p, t) == Lines(q, u)
  {
    hide Command, SkipSpace;
    NoneLeft(q, u);
  }

  lemma NoneLeft(q: Pkg, u: Text)
    requires PkgOk(q) && u.line == []
    ensures Commands(q, u) == Ok((q, u))
  {
    assert Keyword([]) == [];
  }

  lemma NextLine(t: Text)
    requires t.rest != []
    ensures var l := More(t); Tidy(l) && l.line != [] && Left(l) == t.rest
  {
    MoreKeeps(t.(line := []));
    assert More(t) == More(t.(line := []));
  }

  lemma OptionInFile(p: Pkg, t: Text, list: bool, name: seq<Byte>, value: seq<Byte>, more: seq<Byte>) returns (u: Text)
    requires PkgOk(p) && p.current.Some? && ValidStr(name, true, false)
    requires t.rest == OptionText(list, name, value) + more
    ensures Between(u, more)
    ensures Lines(p, t) == Lines(WithOptions(p, AddOption(Current(p), list, name, value)), u)
  {
    hide OptionLine, Keyword, SkipSpace, More, Lines, AddOption, ValidStr;
    NextLine(t);
    u := OptionRead(p, More(t), list, name, value, more);
    LineRead(p, t, WithOptions(p, AddOption(Current(p), list, name, value)), u);
  }

  lemma ConfigInFile(p: Pkg, t: Text, stype: seq<Byte>, name: Option<seq<Byte>>, more: seq<Byte>) returns (u: Text)
    requires PkgOk(p) && ValidStr(stype, false, false) && (name.Some? ==> ValidStr(name.value, true, false))
    requires name.Some? ==> FindSection(p.sections, name.value).None?
    requires t.rest == ConfigText(stype, name) + more
    ensures Between(u, more) && Lines(p, t) == Lines(AddSection(p, stype, name), u)
  {
    hide Config, Keyword, SkipSpace, More, Lines, ValidStr;
    NextLine(t);
    u := ConfigRead(p, More(t), stype, name, more);
    LineRead(p, t, AddSection(p, stype, name), u);
  }

  lemma LineFails(p: Pkg, t: Text, e: ParseError)
    requires PkgOk(p) && t.rest != []
    requires var l := More(t);
             && SkipSpace(l) == l && Keyword(l.line) != [] && Keyword(l.line)[0] != HASH
             && Command(p, l, Keyword(l.line)) == Err(e)
    ensures Lines(p, t) == Err(e)
  {
    hide Command, SkipSpace;
  }

  /** A `config` line with the name of an earlier section goes on with that section, and is an error if it gives
      another type. */
  lemma ConfigAgain(p: Pkg, t: Text, stype: seq<Byte>, name: seq<Byte>, i: nat, more: seq<Byte>) returns (u: Text)
    requires PkgOk(p) && ValidStr(stype, false, false) && ValidStr(name, true, false)
    requires i < |p.sections| && p.sections[i].name == Some(name)
    requires forall j :: 0 <= j < i ==> p.sections[j].name != Some(name)
    requires t.rest == ConfigText(stype, Some(name)) + more
    ensures Between(u, more)
    ensures p.sections[i].stype == stype ==> Lines(p, t) == Lines(Pkg(p.sections, Some(i)), u)
    ensures p.sections[i].stype != stype ==> Lines(p, t) == Err(ParseError(u.no, OtherType))
  {
    hide Config, Keyword, SkipSpace, More, Lines, ValidStr;
    NextLine(t);
    u := ConfigRead(p, More(t), stype, Some(name), more);
    assert FindSection(p.sections, name) == Some(i);
    if p.sections[i].stype == stype {
      LineRead(p, t, Pkg(p.sections, Some(i)), u);
    } else {
      LineFails(p, t, ParseError(u.no, OtherType));
    }
  }

  lemma PackageRead(p: Pkg, t: Text, name: seq<Byte>, more: seq<Byte>) returns (u: Text)
    requires ValidStr(name, true, true)
    requires Tidy(t) && t.line != [] && Left(t) == PACKAGE + [SPACE] + Quote(name) + [NEWLINE] + more
    ensures Between(u, more) && SkipSpace(t) == t && Keyword(t.line) == PACKAGE
    ensures PackageLine(p, t) == Ok((p, u))
  {
    hide Quote, NextArg, Eol, SkipKeyword, Keyword, SkipSpace, ValidStr;
    var tail := [NEWLINE] + more;
    assert Left(t) == PACKAGE + [SPACE] + (Quote(name) + tail);
    QuoteStarts(name);
    KeywordRead(t, PACKAGE, Quote(name) + tail, NoPackageName);
    var t1 := SkipKeyword(t, NoPackageName).value;
    QuoteRound(t1, name, tail);
    PackageArg(t1, name, tail);
    u := NextArg(t1, true, true, true).value.0;
    assert tail[1..] == more;
    NothingLeft(u, false);
  }

  lemma PackageArg(t: Text, name: seq<Byte>, tail: seq<Byte>)
    requires ValidStr(name, true, true) && Gives(NextArg(t, false, false, false), name, tail)
    ensures Gives(NextArg(t, true, true, true), name, tail)
  {
    hide Word, SkipSpace;
  }

  /** A `package` line changes nothing. */
  lemma PackageInFile(p: Pkg, t: Text, name: seq<Byte>, more: seq<Byte>) returns (u: Text)
    requires PkgOk(p) && ValidStr(name, true, true) && t.rest == PACKAGE + [SPACE] + Quote(name) + [NEWLINE] + more
    ensures Between(u, more) && Lines(p, t) == Lines(p, u)
  {
    hide PackageLine, Keyword, SkipSpace, More, Lines, ValidStr, Quote;
    NextLine(t);
    u := PackageRead(p, More(t), name, more);
    LineRead(p, t, p, u);
  }

  /** Nor does a line that starts with `#`. */
  lemma CommentInFile(p: Pkg, t: Text, words: seq<Byte>, more: seq<Byte>)
    requires PkgOk(p) && (forall i :: 0 <= i < |words| ==> words[i] != NEWLINE)
    requires t.rest == [HASH] + words + [NEWLINE] + more
    ensures Lines(p, t) == Lines(p, Text([], more, t.no + 1))
  {
    var n := |words| + 2;
    FirstLine([HASH] + words, more);
    var l := More(t);
    assert t.rest == ([HASH] + words) + [NEWLINE] + more;
    assert l.rest == more && l.line[0] == HASH && l.no == t.no + 1;
    assert SkipSpace(l) == l;
    CommentSkipped(p, l);
    assert Commands(p, l) == Ok((p, l));
    OnlyTheRest(p, l);
  }

  lemma {:induction false} FirstLine(words: seq<Byte>, more: seq<Byte>)
    requires forall i :: 0 <= i < |words| ==> words[i] != NEWLINE
    ensures LineLen(words + [NEWLINE] + more) == |words| + 1
  {
    if words != [] {
      FirstLine(words[1..], more);
      assert (words + [NEWLINE] + more)[1..] == words[1..] + [NEWLINE] + more;
    }
  }

  lemma CommentSkipped(p: Pkg, l: Text)
    requires PkgOk(p) && l.line != [] && l.line[0] == HASH
    ensures Commands(p, l) == Ok((p, l))
  {
    assert Blanks(l.line) == 0 && WordLen(l.line) > 0 && l.line[0..] == l.line;
    assert Keyword(l.line)[0] == HASH;
  }

  lemma OnlyTheRest(p: Pkg, t: Text)
    requires PkgOk(p)
    ensures Lines(p, t) == Lines(p, t.(line := []))
  {
    assert More(t) == More(t.(line := []));
    hide Commands, SkipSpace, More;
  }

  // ---- options --------------------------------------------------------------------------------------

  /** A list so far, after the options before it. */
  function WithItems(done: seq<Opt>, name: seq<Byte>, items: seq<seq<Byte>>): seq<Opt> {
    if items == [] then done else done + [Opt(name, List(items))]
  }

  lemma AddsItem(done: seq<Opt>, name: seq<Byte>, items: seq<seq<Byte>>, value: seq<Byte>)
    requires FindOption(done, name).None?
    ensures AddOption(WithItems(done, name, items), true, name, value) == WithItems(done, name, items + [value])
  {
    var now := WithItems(done, name, items);
    var found := FindOption(now, name);
    if items != [] {
      assert now[|done|].name == name;
      assert forall j :: 0 <= j < |done| ==> now[j] == done[j];
      assert found.value == |done|;
    } else {
      assert items + [value] == [value];
    }
  }

  /** What an `option` or `list` line does to the options of its section: all others stay where they are; the one of that
      name is set, or grows into a list; if there is none it comes last. An option without a value changes nothing. */
  lemma OptionEffect(options: seq<Opt>, list: bool, name: seq<Byte>, value: seq<Byte>, j: nat)
    requires j <= |options| && (forall i :: 0 <= i < j ==> options[i].name != name)
    requires j < |options| ==> options[j].name == name
    ensures var r := AddOption(options, list, name, value);
            if !list && value == [] then r == options
            else
              && |r| == (if j < |options| then |options| else |options| + 1)
              && (forall i :: 0 <= i < |options| && i != j ==> r[i] == options[i])
              && r[j].name == name
              && r[j].value == if !list then Single(value)
                               else if j == |options| then List([value])
                               else if options[j].value.List? then List(options[j].value.items + [value])
                               else List([options[j].value.v, value])
  {
    var found := FindOption(options, name);
    assert found == if j < |options| then Some(j) else None;
  }

  lemma {:induction false} ItemsInFile(p: Pkg, t: Text, done: seq<Opt>, name: seq<Byte>, had: seq<seq<Byte>>,
                                       items: seq<seq<Byte>>, more: seq<Byte>) returns (u: Text)
    requires PkgOk(p) && p.current.Some? && ValidStr(name, true, false) && FindOption(done, name).None?
    requires Current(p) == WithItems(done, name, had) && t.line == [] && t.rest == ItemsText(name, items) + more
    ensures Between(u, more)
    ensures Lines(p, t) == Lines(WithOptions(p, WithItems(done, name, had + items)), u)
    decreases |items|
  {
    hide Lines, AddOption, ValidStr, OptionText, FindOption, WithItems;
    if items == [] {
      assert had + items == had && ItemsText(name, items) + more == more;
      SameOptions(p);
      u := t;
    } else {
      var rest := ItemsText(name, items[1..]) + more;
      assert t.rest == OptionText(true, name, items[0]) + rest;
      var v := OptionInFile(p, t, true, name, items[0], rest);
      AddsItem(done, name, had, items[0]);
      var q := WithOptions(p, WithItems(done, name, had + [items[0]]));
      u := ItemsInFile(q, v, done, name, had + [items[0]], items[1..], more);
      assert had + [items[0]] + items[1..] == had + items;
      OptionsTwice(p, WithItems(done, name, had + [items[0]]), WithItems(done, name, had + items));
    }
  }

  lemma SameOptions(p: Pkg)
    requires PkgOk(p) && p.current.Some?
    ensures WithOptions(p, Current(p)) == p
  {
  }

  lemma OptionsTwice(p: Pkg, a: seq<Opt>, b: seq<Opt>)
    requires PkgOk(p) && p.current.Some?
    ensures WithOptions(WithOptions(p, a), b) == WithOptions(p, b)
  {
  }

  lemma OptInFile(p: Pkg, t: Text, o: Opt, more: seq<Byte>) returns (u: Text)
    requires PkgOk(p) && p.current.Some? && OptOk(o) && FindOption(Current(p), o.name).None?
    requires t.line == [] && t.rest == OptText(o) + more
    ensures Between(u, more)
    ensures Lines(p, t) == Lines(WithOptions(p, Current(p) + [o]), u)
  {
    hide Lines, ValidStr, OptionText, FindOption, ItemsText;
    match o.value
    case Single(v) =>
      u := OptionInFile(p, t, false, o.name, v, more);
    case List(items) =>
      u := ItemsInFile(p, t, Current(p), o.name, [], items, more);
      assert [] + items == items;
  }

  lemma {:induction false} OptionsInFile(p: Pkg, t: Text, options: seq<Opt>, more: seq<Byte>) returns (u: Text)
    requires PkgOk(p) && p.current.Some? && OptionsOk(Current(p) + options)
    requires t.line == [] && t.rest == OptionsText(options) + more
    ensures Between(u, more)
    ensures Lines(p, t) == Lines(WithOptions(p, Current(p) + options), u)
    decreases |options|
  {
    hide Lines, OptText, OptOk;
    var done := Current(p);
    if options == [] {
      assert done + options == done && OptionsText(options) + more == more;
      SameOptions(p);
      u := t;
    } else {
      var o, rest := options[0], OptionsText(options[1..]) + more;
      assert t.rest == OptText(o) + rest;
      assert (done + options)[|done|] == o;
      NotYet(done, options);
      var v := OptInFile(p, t, o, rest);
      var q := WithOptions(p, done + [o]);
      assert done + [o] + options[1..] == done + options;
      u := OptionsInFile(q, v, options[1..], more);
      OptionsTwice(p, done + [o], done + options);
    }
  }

  lemma NotYet(done: seq<Opt>, options: seq<Opt>)
    requires OptionsOk(done + options) && options != []
    ensures FindOption(done, options[0].name).None?
  {
    var all := done + options;
    assert all[|done|] == options[0];
    assert forall j :: 0 <= j < |done| ==> all[j] == done[j];
  }

  // ---- sections ----------------------------------------------------------------------------------------

  lemma {:induction false} SectionsInFile(p: Pkg, t: Text, sections: seq<Section>)
    requires PkgOk(p) && WellFormed(p.sections + sections)
    requires t.line == [] && t.rest == FileText(sections)
    ensures Lines(p, t).Ok? && Lines(p, t).value.sections == p.sections + sections
    decreases |sections|, 1
  {
    if sections == [] {
      assert p.sections + sections == p.sections;
    } else {
      SectionInFile(p, t, sections);
    }
  }

  lemma SectionInFile(p: Pkg, t: Text, sections: seq<Section>)
    requires PkgOk(p) && WellFormed(p.sections + sections) && sections != []
    requires t.line == [] && t.rest == FileText(sections)
    ensures Lines(p, t).Ok? && Lines(p, t).value.sections == p.sections + sections
    decreases |sections|, 0
  {
    hide Lines, ConfigText, OptionsText, WellFormed;
    var s := sections[0];
    var tail := FileText(sections[1..]);
    assert t.rest == ConfigText(s.stype, s.name) + (OptionsText(s.options) + tail);
    NewSection(p.sections, sections);
    var u := ConfigInFile(p, t, s.stype, s.name, OptionsText(s.options) + tail);
    var p1 := AddSection(p, s.stype, s.name);
    assert Current(p1) + s.options == s.options;
    var v := OptionsInFile(p1, u, s.options, tail);
    var q := WithOptions(p1, s.options);
    assert q.sections == p.sections + [s];
    assert p.sections + [s] + sections[1..] == p.sections + sections;
    SectionsInFile(q, v, sections[1..]);
  }

  lemma NewSection(done: seq<Section>, sections: seq<Section>)
    requires WellFormed(done + sections) && sections != []
    ensures SectionOk(sections[0])
    ensures sections[0].name.Some? ==> FindSection(done, sections[0].name.value).None?
  {
    var all := done + sections;
    assert all[|done|] == sections[0];
    assert forall j :: 0 <= j < |done| ==> all[j] == done[j];
  }

  // ---- the whole file -------------------------------------------------------------------------------------

  predicate OptClean(o: Opt) {
    match o.value
    case Single(v) => 0 !in v
    case List(items) => forall v | v in items :: 0 !in v
  }

  /** No value has a NUL in it. */
  predicate Clean(sections: seq<Section>) {
    forall s | s in sections :: forall o | o in s.options :: OptClean(o)
  }

  lemma {:induction false} QuoteClean(v: seq<Byte>)
    requires 0 !in v
    ensures 0 !in QuoteBody(v) && 0 !in Quote(v)
    decreases |v|
  {
    if v != [] { QuoteClean(v[1..]); }
  }

  lemma ValidClean(s: seq<Byte>, name: bool)
    requires ValidStr(s, name, false)
    ensures 0 !in s
  {
  }

  lemma OptionClean(list: bool, name: seq<Byte>, value: seq<Byte>)
    requires 0 !in name && 0 !in value
    ensures 0 !in OptionText(list, name, value)
  {
    hide Quote;
    QuoteClean(name);
    QuoteClean(value);
  }

  lemma {:induction false} ItemsClean(name: seq<Byte>, items: seq<seq<Byte>>)
    requires 0 !in name && forall v | v in items :: 0 !in v
    ensures 0 !in ItemsText(name, items)
    decreases |items|
  {
    hide OptionText;
    if items != [] {
      OptionClean(true, name, items[0]);
      ItemsClean(name, items[1..]);
    }
  }

  lemma {:induction false} OptionsClean(options: seq<Opt>)
    requires forall o | o in options :: OptOk(o) && OptClean(o)
    ensures 0 !in OptionsText(options)
    decreases |options|
  {
    hide OptionText, ItemsText, ValidStr;
    if options != [] {
      var o := options[0];
      assert o in options;
      ValidClean(o.name, true);
      match o.value {
        case Single(v) => OptionClean(false, o.name, v);
        case List(items) => ItemsClean(o.name, items);
      }
      OptionsClean(options[1..]);
    }
  }

  lemma {:induction false} FileClean(sections: seq<Section>)
    requires Clean(sections) && forall s | s in sections :: SectionOk(s)
    ensures 0 !in FileText(sections)
    decreases |sections|
  {
    hide Quote, OptionsText, ValidStr, OptClean;
    if sections != [] {
      var s := sections[0];
      assert s in sections;
      ValidClean(s.stype, false);
      QuoteClean(s.stype);
      if s.name.Some? {
        ValidClean(s.name.value, true);
        QuoteClean(s.name.value);
      }
      assert 0 !in ConfigText(s.stype, s.name);
      OptionsClean(s.options);
      FileClean(sections[1..]);
    }
  }

  /** Writing out any well-formed package and parsing the file gives the package back: sections
      and options in their order, named and anonymous sections, single values and lists, values
      with quotes, backslashes and newlines in them. */
  lemma FileRound(sections: seq<Section>)
    requires WellFormed(sections) && Clean(sections)
    ensures ParseFile(FileText(sections)) == Ok(sections)
  {
    hide FileText, Lines;
    FileClean(sections);
    SectionsInFile(Pkg([], None), Text([], FileText(sections), 0), sections);
    assert [] + sections == sections;
  }

  // ---- a list as `get` shows it ---------------------------------------------------------------------

  predicate Spaced(item: seq<Byte>) {
    ' ' as int in item || '\t' as int in item || '\r' as int in item || '\n' as int in item
  }

  function Shown(item: seq<Byte>): seq<Byte> { if Spaced(item) then Quote(item) else item }

  lemma JoinedBack(items: seq<seq<Byte>>)
    requires items != []
    ensures var last := Shown(items[|items| - 1]);
            Joined(items) == if |items| == 1 then last else Joined(items[..|items| - 1]) + [SPACE] + last
  {
    assert HasWhite(items[|items| - 1]) <==> Spaced(items[|items| - 1]);
  }

  lemma Regroup(a: seq<Byte>, b: seq<Byte>, c: seq<Byte>)
    ensures a + ([SPACE] + b) + [SPACE] + c == a + ([SPACE] + (b + [SPACE] + c))
    ensures a + [SPACE] + c == a + ([SPACE] + c) && a + [] == a
  {
  }

  /** The items one after another with one space between two of them. */
  lemma {:induction false} JoinedFront(items: seq<seq<Byte>>)
    requires items != []
    ensures Joined(items) == Shown(items[0]) + if |items| == 1 then [] else [SPACE] + Joined(items[1..])
    decreases |items|
  {
    hide Joined, Shown;
    JoinedBack(items);
    var head, last := Shown(items[0]), Shown(items[|items| - 1]);
    if |items| == 1 {
      Regroup(head, [], []);
    } else {
      var front, rest := items[..|items| - 1], items[1..];
      JoinedFront(front);
      JoinedBack(rest);
      assert front[1..] == rest[..|rest| - 1];
      Regroup(head, Joined(front[1..]), last);
    }
  }

  /** An item that a reader takes as it was: quoted because of its white space, or bare. */
  predicate Readable(item: seq<Byte>) { Spaced(item) || (item != [] && Bare(item)) }

  /** The next `n` arguments. */
  function ReadArgs(t: Text, n: nat): Outcome<seq<seq<Byte>>, ParseError>
    decreases n
  {
    if n == 0 then Ok([])
    else
      match NextArg(t, false, false, false)
      case Err(e) => Err(e)
      case Ok((u, v)) =>
        match ReadArgs(u, n - 1)
        case Err(e) => Err(e)
        case Ok(more) => Ok([v] + more)
  }

  lemma BareGives(t: Text, w: seq<Byte>, tail: seq<Byte>)
    requires Tidy(t) && t.line != [] && w != [] && Bare(w) && Left(t) == w + tail
    requires tail == [] || tail[0] == SPACE
    ensures Gives(NextArg(t, false, false, false), w, tail)
  {
    hide Word;
    var n := |w|;
    assert forall i :: 0 <= i < n ==> Left(t)[i] == w[i];
    SameLine(t, n);
    var rest := t.line[n..];
    assert t.line[..n] == Left(t)[..n] == w && t.line == w + rest;
    assert rest + t.rest == Left(t)[n..] == tail;
    assert t.line[0] == w[0] && SkipSpace(t) == t;
    assert t.rest != [] ==> rest != [] by { assert t.line[n - 1] == w[n - 1]; }
    BareWord(t, w, rest);
    var u := t.(line := AfterBare(rest));
    if rest != [] {
      assert rest[0] == tail[0];
      assert Left(u) == tail[1..];
      assert forall i :: 0 <= i < |u.line| ==> u.line[i] == t.line[n + 1 + i];
    }
  }

  lemma ItemGives(t: Text, item: seq<Byte>, tail: seq<Byte>)
    requires Tidy(t) && t.line != [] && Readable(item) && Left(t) == Shown(item) + tail
    requires tail == [] || tail[0] == SPACE
    ensures Gives(NextArg(t, false, false, false), item, tail)
  {
    hide NextArg, Gives, Tidy, Bare;
    if Spaced(item) { QuoteRound(t, item, tail); } else { BareGives(t, item, tail); }
  }

  lemma ShownStarts(items: seq<seq<Byte>>)
    requires items != [] && Readable(items[0])
    ensures Joined(items) != []
  {
    JoinedFront(items);
  }

  /** A list whose items are quoted or bare is read back as it was, item by item. */
  lemma {:induction false} ListReadsBack(t: Text, items: seq<seq<Byte>>)
    requires Tidy(t) && Left(t) == Joined(items) && (items != [] ==> t.line != [])
    requires forall i :: 0 <= i < |items| ==> Readable(items[i])
    ensures ReadArgs(t, |items|) == Ok(items)
    decreases |items|
  {
    hide NextArg, Tidy, Readable, Shown, Joined;
    if items != [] {
      JoinedFront(items);
      var rest := items[1..];
      var tail := if rest == [] then [] else [SPACE] + Joined(rest);
      ItemGives(t, items[0], tail);
      var (u, v) := NextArg(t, false, false, false).value;
      if rest == [] {
        assert ReadArgs(u, 0) == Ok([]);
      } else {
        ShownStarts(rest);
        assert tail[1..] == Joined(rest);
        ListReadsBack(u, rest);
      }
      assert items == [items[0]] + rest;
    }
  }
}
