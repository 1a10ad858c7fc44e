/** What a parsed file always looks like, and the names that `uci show` and `uci get` use
    for its sections: a section is found again under the name it is shown by. */
module UciRefs {
  import opened Common
  import opened Json
  import opened Uci

  // ---- every parsed file is well formed --------------------------------------------------

  predicate OptOk(o: Opt) {
    ValidStr(o.name, true, false) && (match o.value case Single(v) => v != [] case List(items) => items != [])
  }

  predicate OptionsOk(options: seq<Opt>) {
    && (forall i :: 0 <= i < |options| ==> OptOk(options[i]))
    && (forall i, j :: 0 <= i < j < |options| ==> options[i].name != options[j].name)
  }

  predicate SectionOk(s: Section) {
    && (s.name.Some? ==> ValidStr(s.name.value, true, false))
    && ValidStr(s.stype, false, false) && OptionsOk(s.options)
  }

  predicate WellFormed(sections: seq<Section>) {
    && (forall i :: 0 <= i < |sections| ==> SectionOk(sections[i]))
    && (forall i, j :: 0 <= i < j < |sections| && sections[i].name.Some? ==> sections[i].name != sections[j].name)
  }

  lemma ArgIsName(t: Text, required: bool, package: bool)
    ensures var r := NextArg(t, required, true, package);
            r.Ok? ==> (r.value.1 == [] && !required) || ValidStr(r.value.1, true, package)
  {
  }

  lemma AddOptionKeeps(options: seq<Opt>, list: bool, name: seq<Byte>, value: seq<Byte>)
    requires OptionsOk(options) && ValidStr(name, true, false)
    ensures OptionsOk(AddOption(options, list, name, value))
  {
    hide ValidStr;
    var found := FindOption(options, name);
    var r := AddOption(options, list, name, value);
    forall i | 0 <= i < |r|
      ensures OptOk(r[i])
    {
      assert i < |options| ==> OptOk(options[i]);
    }
  }

  lemma ConfigKeeps(p: Pkg, t: Text)
    requires WellFormed(p.sections) && Config(p, t).Ok?
    ensures WellFormed(Config(p, t).value.0.sections)
  {
    hide NextArg, Eol, SkipKeyword, ValidStr;
    var t1 := SkipKeyword(t, NoConfigName).value;
    var (t2, stype) := NextArg(t1, true, false, false).value;
    ArgIsName(t2, false, false);
  }

  lemma OptionKeeps(p: Pkg, t: Text, list: bool)
    requires WellFormed(p.sections) && PkgOk(p) && OptionLine(p, t, list).Ok?
    ensures WellFormed(OptionLine(p, t, list).value.0.sections)
  {
    hide NextArg, Eol, SkipKeyword, ValidStr, AddOption;
    var t1 := SkipKeyword(t, NoOptionName).value;
    ArgIsName(t1, true, false);
    var (t2, name) := NextArg(t1, true, true, false).value;
    var (t3, value) := NextArg(t2, false, false, false).value;
    var s := p.sections[p.current.value];
    assert SectionOk(s);
    AddOptionKeeps(s.options, list, name, value);
  }

  lemma {:induction false} CommandsKeep(p: Pkg, t: Text)
    requires WellFormed(p.sections) && PkgOk(p)
    ensures Commands(p, t).Ok? ==> WellFormed(Commands(p, t).value.0.sections)
    decreases |t.rest|, |t.line|
  {
    hide Config, OptionLine, PackageLine, WellFormed;
    var word := Keyword(t.line);
    if word != [] && word[0] != HASH && Command(p, t, word).Ok? {
      if Means(word, PACKAGE) {
      } else if Means(word, CONFIG) {
        ConfigKeeps(p, t);
      } else {
        OptionKeeps(p, t, !Means(word, OPTION));
      }
      var (q, u) := Command(p, t, word).value;
      CommandsKeep(q, u);
    }
  }

  lemma {:induction false} LinesKeep(p: Pkg, t: Text)
    requires WellFormed(p.sections) && PkgOk(p)
    ensures Lines(p, t).Ok? ==> WellFormed(Lines(p, t).value.sections)
    decreases |t.rest|
  {
    hide Commands, SkipSpace, WellFormed;
    if t.rest != [] && Commands(p, SkipSpace(More(t))).Ok? {
      CommandsKeep(p, SkipSpace(More(t)));
      var (q, u) := Commands(p, SkipSpace(More(t))).value;
      LinesKeep(q, u);
    }
  }

  /** Whatever the file holds, a parsed package has valid and distinct names and no
      empty single value. */
  lemma ParsedWellFormed(input: seq<Byte>)
    ensures ParseFile(input).Ok? ==> WellFormed(ParseFile(input).value)
  {
    LinesKeep(Pkg([], None), Text([], input, 0));
  }

  // ---- references ---------------------------------------------------------------------------

  const AT: Byte := 0x40
  const OPENING: Byte := 0x5b
  const CLOSING: Byte := 0x5d

  function Decimal(n: nat): (r: seq<Byte>)
    ensures r != [] && forall i :: 0 <= i < |r| ==> 0x30 <= r[i] <= 0x39
  {
    (if n < 10 then [] else Decimal(n / 10)) + [0x30 + n % 10]
  }

  lemma {:induction false} DecimalInjective(n: nat, m: nat)
    requires Decimal(n) == Decimal(m)
    ensures n == m
  {
    var a, b := Decimal(n), Decimal(m);
    assert a[|a| - 1] == 0x30 + n % 10 && b[|b| - 1] == 0x30 + m % 10;
    if n >= 10 && m >= 10 {
      assert a[..|a| - 1] == Decimal(n / 10) && b[..|b| - 1] == Decimal(m / 10);
      DecimalInjective(n / 10, m / 10);
    }
  }

  /** How many of the sections have this type; named ones count too. */
  function OfType(sections: seq<Section>, stype: seq<Byte>): nat {
    if sections == [] then 0
    else OfType(sections[..|sections| - 1], stype) + if sections[|sections| - 1].stype == stype then 1 else 0
  }

  function Bracketed(stype: seq<Byte>, n: nat): seq<Byte> {
    [AT] + stype + [OPENING] + Decimal(n) + [CLOSING]
  }

  function TypeRef(sections: seq<Section>, i: nat): seq<Byte>
    requires i < |sections|
  {
    Bracketed(sections[i].stype, OfType(sections[..i], sections[i].stype))
  }

  function TypeRefs(sections: seq<Section>): seq<seq<Byte>> {
    seq(|sections|, i requires 0 <= i < |sections| => TypeRef(sections, i))
  }

  /** The name a section is shown by. */
  function SectionRef(sections: seq<Section>, i: nat): seq<Byte>
    requires i < |sections|
  {
    if sections[i].name.Some? then sections[i].name.value else TypeRef(sections, i)
  }

  function Position(refs: seq<seq<Byte>>, want: seq<Byte>): (r: Option<nat>)
    ensures r.Some? ==> r.value < |refs| && refs[r.value] == want
    ensures r.Some? ==> forall j :: 0 <= j < r.value ==> refs[j] != want
    ensures r.None? ==> forall j :: 0 <= j < |refs| ==> refs[j] != want
  {
    if refs == [] then None
    else if refs[0] == want then Some(0)
    else
      var r := Position(refs[1..], want);
      if r.None? then None else Some(r.value + 1)
  }

  /** `get` looks for a name first, then for a type reference. */
  function Locate(sections: seq<Section>, want: seq<Byte>): (r: Option<nat>)
    ensures r.Some? ==> r.value < |sections|
  {
    var named := FindSection(sections, want);
    if named.Some? then named else Position(TypeRefs(sections), want)
  }

  lemma BracketedInjective(s: seq<Byte>, n: nat, t: seq<Byte>, m: nat)
    requires Bracketed(s, n) == Bracketed(t, m)
    ensures s == t && n == m
  {
    var r := Bracketed(s, n);
    DigitsAtEnd(s, n);
    DigitsAtEnd(t, m);
    var a, b := |r| - 2 - |Decimal(n)|, |r| - 2 - |Decimal(m)|;
    assert a == b;
    assert r[1..a] == s && r[1..b] == t;
    assert r[a + 1..|r| - 1] == Decimal(n) == Decimal(m);
    DecimalInjective(n, m);
  }

  /** Only digits stand between the last bracket pair. */
  lemma DigitsAtEnd(s: seq<Byte>, n: nat)
    ensures var r := Bracketed(s, n);
            var k := |r| - 2 - |Decimal(n)|;
            && k == |s| + 1 && r[k] == OPENING && r[1..k] == s && r[k + 1..|r| - 1] == Decimal(n)
            && forall i :: k < i < |r| - 1 ==> r[i] != OPENING
  {
    var r := Bracketed(s, n);
    var k := |r| - 2 - |Decimal(n)|;
    assert r[k + 1..|r| - 1] == Decimal(n);
    forall i | k < i < |r| - 1
      ensures r[i] != OPENING
    {
      assert r[i] == Decimal(n)[i - k - 1];
    }
  }

  lemma {:induction false} OfTypeGrows(sections: seq<Section>, i: nat, j: nat)
    requires i < j <= |sections|
    ensures OfType(sections[..i], sections[i].stype) < OfType(sections[..j], sections[i].stype)
    decreases j
  {
    assert sections[..j][..j - 1] == sections[..j - 1];
    if i < j - 1 { OfTypeGrows(sections, i, j - 1); }
  }

  /** Two sections never share a type reference. */
  lemma TypeRefsDistinct(sections: seq<Section>, i: nat, j: nat)
    requires i < j < |sections|
    ensures TypeRef(sections, i) != TypeRef(sections, j)
  {
    hide Bracketed;
    if TypeRef(sections, i) == TypeRef(sections, j) {
      BracketedInjective(sections[i].stype, OfType(sections[..i], sections[i].stype),
                         sections[j].stype, OfType(sections[..j], sections[j].stype));
      OfTypeGrows(sections, i, j);
    }
  }

  /** The name that `uci show` prints for a section leads `uci get` to that section. */
  lemma ShownIsFound(sections: seq<Section>, i: nat)
    requires WellFormed(sections) && i < |sections|
    ensures Locate(sections, SectionRef(sections, i)) == Some(i)
  {
    hide TypeRef;
    var want := SectionRef(sections, i);
    var named := FindSection(sections, want);
    if sections[i].name.Some? {
      assert named.Some?;
    } else {
      if named.Some? { NameIsNotARef(sections, named.value, i); }
      var refs := TypeRefs(sections);
      assert refs[i] == want;
      var r := Position(refs, want);
      if r.value < i { TypeRefsDistinct(sections, r.value, i); }
    }
  }

  lemma NameIsNotARef(sections: seq<Section>, i: nat, j: nat)
    requires WellFormed(sections) && i < |sections| && j < |sections| && sections[i].name.Some?
    ensures sections[i].name.value != TypeRef(sections, j)
  {
    assert SectionOk(sections[i]);
    assert TypeRef(sections, j)[0] == AT;
  }

  // ---- `get` -----------------------------------------------------------------------------------

  /** A list is joined by spaces, and an item with white space in it is quoted. */
  function Joined(items: seq<seq<Byte>>): seq<Byte> {
    if items == [] then []
    else
      var last := items[|items| - 1];
      Joined(items[..|items| - 1]) + (if |items| > 1 then [SPACE] else []) + (if HasWhite(last) then Quote(last) else last)
  }

  predicate HasWhite(v: seq<Byte>) {
    exists i :: 0 <= i < |v| && (v[i] == SPACE || v[i] == TAB || v[i] == RETURN || v[i] == NEWLINE)
  }

  function Get(sections: seq<Section>, section: seq<Byte>, option: seq<Byte>): Option<seq<Byte>> {
    match Locate(sections, section)
    case None => None
    case Some(i) =>
      match FindOption(sections[i].options, option)
      case None => None
      case Some(j) =>
        match sections[i].options[j].value
        case Single(v) => Some(v)
        case List(items) => Some(Joined(items))
  }

  /** `get` with the name a section is shown by and the name of one of its options gives that
      option's value, in every parsed file. */
  lemma GetFindsShown(input: seq<Byte>, i: nat, j: nat)
    requires ParseFile(input).Ok? && i < |ParseFile(input).value| && j < |ParseFile(input).value[i].options|
    ensures var sections := ParseFile(input).value;
            var o := sections[i].options[j];
            Get(sections, SectionRef(sections, i), o.name) ==
              Some(match o.value case Single(v) => v case List(items) => Joined(items))
  {
    hide ParseFile, TypeRef, Locate;
    ParsedWellFormed(input);
    var sections := ParseFile(input).value;
    ShownIsFound(sections, i);
    assert SectionOk(sections[i]);
    assert FindOption(sections[i].options, sections[i].options[j].name) == Some(j);
  }

  method JoinItems(items: seq<seq<Byte>>) returns (out: seq<Byte>)
    ensures out == Joined(items)
  {
    out := [];
    var i := 0;
    while i < |items|
      invariant i <= |items| && out == Joined(items[..i])
    {
      assert items[..i + 1][..i] == items[..i];
      if i > 0 { out := out + [SPACE]; }
      if HasWhite(items[i]) {
        out := AppendQuoted(out, items[i]);
      } else {
        out := out + items[i];
      }
      i := i + 1;
    }
    assert items[..i] == items;
  }

  /** `quote`: appends the printed value. */
  method AppendQuoted(before: seq<Byte>, v: seq<Byte>) returns (out: seq<Byte>)
    ensures out == before + Quote(v)
  {
    out := before + [APOSTROPHE];
    var i := 0;
    while i < |v|
      invariant i <= |v| && out + QuoteBody(v[i..]) == before + [APOSTROPHE] + QuoteBody(v)
    {
      assert v[i..][1..] == v[i + 1..];
      if v[i] == APOSTROPHE {
        out := out + [APOSTROPHE, BACKSLASH, APOSTROPHE, APOSTROPHE];
      } else {
        out := out + [v[i]];
      }
      i := i + 1;
    }
    assert out + [] == out;
    out := out + [APOSTROPHE];
  }

  // ---- the loop of `type_refs` ----------------------------------------------------------------

  datatype Counter = Counter(stype: seq<Byte>, n: nat)

  /** The counters hold one entry per type met so far, with its number of sections. */
  ghost predicate Counted(counts: seq<Counter>, done: seq<Section>) {
    && (forall k :: 0 <= k < |counts| ==> counts[k].n == OfType(done, counts[k].stype))
    && (forall k, l :: 0 <= k < l < |counts| ==> counts[k].stype != counts[l].stype)
    && (forall t: seq<Byte> | !Known(counts, t) :: OfType(done, t) == 0)
  }

  predicate Known(counts: seq<Counter>, t: seq<Byte>) {
    exists k :: 0 <= k < |counts| && counts[k].stype == t
  }

  lemma CountedUp(counts: seq<Counter>, done: seq<Section>, s: Section, k: nat)
    requires Counted(counts, done) && k < |counts| && counts[k].stype == s.stype
    ensures Counted(counts[k := Counter(s.stype, counts[k].n + 1)], done + [s])
  {
    var r := counts[k := Counter(s.stype, counts[k].n + 1)];
    assert (done + [s])[..|done|] == done;
    forall t: seq<Byte> | !Known(r, t)
      ensures OfType(done + [s], t) == 0
    {
      assert r[k].stype != t;
      assert forall l | 0 <= l < |counts| :: counts[l].stype == r[l].stype;
    }
  }

  lemma CountedNew(counts: seq<Counter>, done: seq<Section>, s: Section)
    requires Counted(counts, done) && !Known(counts, s.stype)
    ensures Counted(counts + [Counter(s.stype, 1)], done + [s]) && OfType(done, s.stype) == 0
  {
    var r := counts + [Counter(s.stype, 1)];
    assert (done + [s])[..|done|] == done;
    forall t: seq<Byte> | !Known(r, t)
      ensures OfType(done + [s], t) == 0
    {
      assert r[|counts|].stype != t;
      assert forall l | 0 <= l < |counts| :: counts[l].stype == r[l].stype;
    }
  }

  method FindCounter(counts: seq<Counter>, t: seq<Byte>) returns (k: nat)
    ensures k <= |counts| && (k < |counts| ==> counts[k].stype == t)
    ensures k == |counts| ==> forall l :: 0 <= l < |counts| ==> counts[l].stype != t
  {
    k := 0;
    while k < |counts| && counts[k].stype != t
      invariant k <= |counts| && forall l :: 0 <= l < k ==> counts[l].stype != t
    {
      k := k + 1;
    }
  }

  method ListTypeRefs(sections: seq<Section>) returns (refs: seq<seq<Byte>>)
    ensures refs == TypeRefs(sections)
  {
    hide Bracketed;
    var counts: seq<Counter> := [];
    refs := [];
    var i := 0;
    while i < |sections|
      invariant i <= |sections| && |refs| == i && Counted(counts, sections[..i])
      invariant forall j :: 0 <= j < i ==> refs[j] == TypeRef(sections, j)
    {
      var t := sections[i].stype;
      assert sections[..i + 1] == sections[..i] + [sections[i]];
      var k := FindCounter(counts, t);
      var n := 0;
      if k < |counts| {
        n := counts[k].n;
        CountedUp(counts, sections[..i], sections[i], k);
        counts := counts[k := Counter(t, n + 1)];
      } else {
        CountedNew(counts, sections[..i], sections[i]);
        counts := counts + [Counter(t, 1)];
      }
      refs := refs + [Bracketed(t, n)];
      i := i + 1;
    }
    assert sections[..i] == sections;
  }
}
