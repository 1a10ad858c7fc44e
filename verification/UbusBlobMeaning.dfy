/** What bytes mean, said without a decoder: which attributes a buffer consists of, and which field each of them
    holds. For every buffer whatsoever, decoding gives a value exactly if the bytes mean that value. */
module UbusBlobMeaning {
  import opened Common
  import opened Json
  import opened UbusBlob
  import opened UbusBlobLaws

  // ---- the order of names ------------------------------------------------------------------

  /** At the first place where they differ, `a` has the smaller byte or has ended. */
  ghost predicate Lexical(a: seq<Byte>, b: seq<Byte>) {
    exists k :: 0 <= k <= |a| && k < |b| && a[..k] == b[..k] && (k == |a| || a[k] < b[k])
  }

  lemma {:induction false} BelowIsLexical(a: seq<Byte>, b: seq<Byte>)
    ensures Below(a, b) <==> Lexical(a, b)
    decreases |a|
  {
    if a != [] && b != [] && a[0] == b[0] {
      BelowIsLexical(a[1..], b[1..]);
      if Below(a, b) {
        var k :| 0 <= k <= |a[1..]| && k < |b[1..]| && a[1..][..k] == b[1..][..k] && (k == |a[1..]| || a[1..][k] < b[1..][k]);
        assert a[..k + 1] == [a[0]] + a[1..][..k] && b[..k + 1] == [b[0]] + b[1..][..k];
      }
      if Lexical(a, b) {
        var k :| 0 <= k <= |a| && k < |b| && a[..k] == b[..k] && (k == |a| || a[k] < b[k]);
        assert a[1..][..k - 1] == a[..k][1..] && b[1..][..k - 1] == b[..k][1..];
      }
    } else {
      assert a[..0] == b[..0];
      assert forall k :: 0 < k <= |a| ==> a[..k][0] == a[0];
      assert forall k :: 0 < k <= |b| ==> b[..k][0] == b[0];
    }
  }

  lemma {:induction false} BelowTotal(a: seq<Byte>, b: seq<Byte>)
    ensures a == b || Below(a, b) || Below(b, a)
    decreases |a|
  {
    if a != [] && b != [] && a[0] == b[0] {
      BelowTotal(a[1..], b[1..]);
      assert a == [a[0]] + a[1..] && b == [b[0]] + b[1..];
    }
  }

  lemma {:induction false} BelowChain(a: seq<Byte>, b: seq<Byte>, c: seq<Byte>)
    requires Below(a, b) && Below(b, c)
    ensures Below(a, c)
    decreases |a|
  {
    if a != [] && a[0] == b[0] == c[0] { BelowChain(a[1..], b[1..], c[1..]); }
  }

  // ---- maps ------------------------------------------------------------------------------------

  /** No later field has the name of field `i`. */
  predicate LastNamed(found: seq<Field>, i: nat)
    requires i < |found|
  {
    forall j :: i < j < |found| ==> found[j].name != found[i].name
  }

  /** Sorted by name, the last field found with each name and nothing else. */
  ghost predicate MapOf(fields: seq<Field>, found: seq<Field>) {
    && Ascending(fields)
    && (forall i: nat | i < |found| && LastNamed(found, i) :: found[i] in fields)
    && (forall g | g in fields :: exists i: nat :: i < |found| && LastNamed(found, i) && found[i] == g)
  }

  /** Insertion into a sorted list: the new field is there, and of the old ones exactly those of other names. */
  lemma {:induction false} InsertExact(fields: seq<Field>, f: Field)
    requires Ascending(fields)
    ensures Ascending(Insert(fields, f))
    ensures forall g :: g in Insert(fields, f) <==> g == f || (g in fields && g.name != f.name)
  {
    if fields != [] {
      var head, tail := fields[0], fields[1..];
      assert fields == [head] + tail;
      assert forall g | g in tail :: Below(head.name, g.name);
      NamesBelow(head.name, tail);
      if f.name == head.name {
        assert forall i :: 1 <= i < |fields| ==> tail[i - 1] == fields[i];
      } else if Below(f.name, head.name) {
        forall g | g in tail ensures Below(f.name, g.name) { BelowChain(f.name, head.name, g.name); }
        NamesBelow(f.name, fields);
      } else {
        BelowTotal(f.name, head.name);
        InsertExact(tail, f);
        var more := Insert(tail, f);
        assert forall g | g in more :: Below(head.name, g.name);
      }
    }
  }

  lemma NamesBelow(name: seq<Byte>, fields: seq<Field>)
    requires forall g | g in fields :: Below(name, g.name)
    ensures forall g | g in fields :: g.name != name
  {
    forall g | g in fields ensures g.name != name { BelowOneWay(name, g.name); }
  }

  lemma MapGrows(fields: seq<Field>, found: seq<Field>, f: Field, more: seq<Field>)
    requires MapOf(fields, found) && Ascending(more)
    requires forall g :: g in more <==> g == f || (g in fields && g.name != f.name)
    ensures MapOf(more, found + [f])
  {
    hide Ascending;
    var n, all := |found|, found + [f];
    assert all[n] == f && LastNamed(all, n);
    forall i: nat | i < |all| && LastNamed(all, i)
      ensures all[i] in more
    {
      if i < n {
        assert forall j :: i < j < n ==> all[j] == found[j];
        assert LastNamed(found, i) && all[n].name != all[i].name;
      }
    }
    forall g | g in more
      ensures exists i: nat :: i < |all| && LastNamed(all, i) && all[i] == g
    {
      if g != f {
        var i: nat :| i < |found| && LastNamed(found, i) && found[i] == g;
        assert LastNamed(all, i);
      }
    }
  }

  /** Whatever was found, in whatever order and with whatever names repeated. */
  lemma {:induction false} InsertAllExact(found: seq<Field>)
    ensures MapOf(InsertAll(found), found)
  {
    hide Insert, Below, Ascending, MapOf;
    if found == [] {
      MapOfNothing();
    } else {
      var front, f := found[..|found| - 1], found[|found| - 1];
      assert found == front + [f];
      InsertAllExact(front);
      MapAscends(InsertAll(front), front);
      InsertExact(InsertAll(front), f);
      MapGrows(InsertAll(front), front, f, InsertAll(found));
    }
  }

  lemma MapOfNothing()
    ensures MapOf([], [])
  {
  }

  lemma MapAscends(fields: seq<Field>, found: seq<Field>)
    requires MapOf(fields, found)
    ensures Ascending(fields)
  {
  }

  /** The map's names are the names found. */
  lemma {:induction false} EveryNameIsThere(fields: seq<Field>, found: seq<Field>, i: nat)
    requires MapOf(fields, found) && i < |found|
    ensures exists g :: g in fields && g.name == found[i].name
    decreases |found| - i
  {
    hide Ascending;
    if LastNamed(found, i) {
      assert found[i] in fields;
    } else {
      var j :| i < j < |found| && found[j].name == found[i].name;
      EveryNameIsThere(fields, found, j);
    }
  }

  /** Sorted lists with the same fields are the same. */
  lemma {:induction false} AscendingSame(a: seq<Field>, b: seq<Field>)
    requires Ascending(a) && Ascending(b) && forall g :: g in a <==> g in b
    ensures a == b
    decreases |a|
  {
    assert b != [] ==> b[0] in b;
    if a != [] {
      assert a[0] in a && a[0] in b && b[0] in a;
      if a[0] != b[0] {
        assert Below(a[0].name, b[0].name) && Below(b[0].name, a[0].name);
        BelowOneWay(a[0].name, b[0].name);
      } else {
        assert a == [a[0]] + a[1..] && b == [b[0]] + b[1..];
        assert forall g | g in a[1..] || g in b[1..] :: Below(a[0].name, g.name);
        NamesBelow(a[0].name, a[1..]);
        NamesBelow(a[0].name, b[1..]);
        forall g ensures g in a[1..] <==> g in b[1..] {
          assert g in a <==> g in b;
        }
        AscendingSame(a[1..], b[1..]);
      }
    }
  }

  lemma MapIs(fields: seq<Field>, found: seq<Field>)
    ensures MapOf(fields, found) <==> fields == InsertAll(found)
  {
    InsertAllExact(found);
    if MapOf(fields, found) {
      var a := InsertAll(found);
      forall g ensures g in fields <==> g in a {
        if g in fields { var i: nat :| i < |found| && LastNamed(found, i) && found[i] == g; }
        if g in a { var i: nat :| i < |found| && LastNamed(found, i) && found[i] == g; }
      }
      AscendingSame(fields, a);
    }
  }

  // ---- attributes ------------------------------------------------------------------------------

  /** The buffer is these attributes one after another: a head word with the extension flag, the type and the
      length, the data, and padding to a whole number of words that may be missing at the end. */
  predicate Splits(buf: seq<Byte>, attrs: seq<Attr>)
    decreases |attrs|
  {
    if attrs == [] then buf == []
    else
      var a := attrs[0];
      var len := 4 + |a.data|;
      && len <= |buf| && len < 0x100_0000 && a.id < 128
      && FromBe(buf[..4]) == (if a.extended then 0x8000_0000 else 0) + a.id * 0x100_0000 + len
      && buf[4..len] == a.data
      && Splits(buf[Min((len + 3) / 4 * 4, |buf|)..], attrs[1..])
  }

  lemma WordIs(w: nat, id: nat, extended: bool, len: nat)
    requires w < 0x1_0000_0000
    ensures w % ID_UNIT == len && w / ID_UNIT % 128 == id && (w >= EXTENDED <==> extended)
            <==> && len < 0x100_0000 && id < 128
                 && w == (if extended then 0x8000_0000 else 0) + id * 0x100_0000 + len
  {
  }

  /** The first attribute, and where the next one starts. */
  lemma NextIs(buf: seq<Byte>, a: Attr, rest: seq<Byte>)
    requires buf != []
    ensures NextAttr(buf) == Ok((a, rest)) <==>
              var len := 4 + |a.data|;
              && len <= |buf| && len < 0x100_0000 && a.id < 128
              && FromBe(buf[..4]) == (if a.extended then 0x8000_0000 else 0) + a.id * 0x100_0000 + len
              && buf[4..len] == a.data
              && rest == buf[Min((len + 3) / 4 * 4, |buf|)..]
  {
    hide FromBe;
    if |buf| >= 4 {
      SpanValues();
      FromBeBound(buf[..4]);
      WordIs(FromBe(buf[..4]), a.id, a.extended, 4 + |a.data|);
    }
  }

  lemma {:induction false} SplitsIsParse(buf: seq<Byte>, attrs: seq<Attr>)
    ensures ParseAttrs(buf) == Ok(attrs) <==> Splits(buf, attrs)
    decreases |buf|
  {
    hide NextAttr, FromBe;
    if buf != [] && attrs != [] {
      var len := 4 + |attrs[0].data|;
      var rest := buf[Min((len + 3) / 4 * 4, |buf|)..];
      NextIs(buf, attrs[0], rest);
      SplitsIsParse(rest, attrs[1..]);
      assert attrs == [attrs[0]] + attrs[1..];
      if ParseAttrs(buf) == Ok(attrs) {
        var (a, r) := NextAttr(buf).value;
        NextIs(buf, a, r);
      }
    }
  }

  // ---- values ---------------------------------------------------------------------------------------

  /** A signed number of `2 * half` values. */
  predicate Signed(i: int, d: seq<Byte>, size: nat, half: int) {
    |d| == size && -half <= i < half && (FromBe(d) == i || FromBe(d) == i + 2 * half)
  }

  /** The bytes up to the first NUL, or all. */
  predicate Text(s: seq<Byte>, d: seq<Byte>) {
    s <= d && 0 !in s && (|s| < |d| ==> d[|s|] == 0)
  }

  predicate ScalarMeans(ty: nat, d: seq<Byte>, v: Json) {
    match v
    case Null => ty == UNSPEC || (ty == DOUBLE && |d| == 8 && !Finite(FromBe(d)))
    case Bool(b) => ty == INT8 && |d| == 1 && (b <==> d[0] != 0)
    case Int(i) =>
      || (ty == INT16 && Signed(i, d, 2, 0x8000))
      || (ty == INT32 && Signed(i, d, 4, 0x8000_0000))
      || (ty == INT64 && Signed(i, d, 8, 0x8000_0000_0000_0000))
    case Double(bits) => ty == DOUBLE && |d| == 8 && FromBe(d) == bits && Finite(bits)
    case Str(s) => ty == STRING && Text(s, d)
    case _ => false
  }

  lemma {:induction false} TextIs(s: seq<Byte>, d: seq<Byte>)
    ensures Text(s, d) <==> s == UpToNul(d)
    decreases |d|
  {
    if d != [] && d[0] != 0 && s != [] {
      TextIs(s[1..], d[1..]);
      assert s == [s[0]] + s[1..] && d == [d[0]] + d[1..];
      if Text(s, d) { assert s[1..] == d[1..][..|s| - 1]; }
    }
  }

  lemma ScalarIs(ty: nat, d: seq<Byte>, v: Json)
    ensures ScalarOf(ty, d) == Some(Ok(v)) <==> ScalarMeans(ty, d, v)
  {
    hide FromBe, UpToNul, Text;
    SpanValues();
    FromBeBound(d);
    if v.Str? { TextIs(v.bytes, d); }
    assert ty == STRING ==> Text(UpToNul(d), d) by { TextIs(UpToNul(d), d); }
  }

  /** The attribute's data: a name with its length before it, padded with at least one byte to a whole number of
      words, and `d`. */
  predicate Named(p: seq<Byte>, name: seq<Byte>, d: seq<Byte>) {
    var k := (|name| + 6) / 4 * 4;
    k <= |p| && FromBe(p[..2]) == |name| && p[2..2 + |name|] == name && p[k..] == d
  }

  predicate ItemsOf(items: seq<Json>, found: seq<Field>) {
    |items| == |found| && forall i :: 0 <= i < |items| ==> items[i] == found[i].value
  }

  /** The attribute holds this field, `depth` containers inside the message. */
  ghost predicate Holds(a: Attr, f: Field, depth: nat)
    requires depth <= MAX_DEPTH
    decreases MAX_DEPTH - depth, 0
  {
    && a.extended
    && exists d :: Named(a.data, f.name, d) && Means(a.id, d, f.value, depth)
  }

  ghost predicate Means(ty: nat, d: seq<Byte>, v: Json, depth: nat)
    requires depth <= MAX_DEPTH
    decreases MAX_DEPTH - depth, 0, 0
  {
    match v
    case Arr(items) =>
      ty == ARRAY && depth < MAX_DEPTH && exists found :: Contains(d, found, depth + 1) && ItemsOf(items, found)
    case Obj(fields) =>
      ty == TABLE && depth < MAX_DEPTH && exists found :: Contains(d, found, depth + 1) && MapOf(fields, found)
    case _ => ScalarMeans(ty, d, v)
  }

  /** The buffer's attributes hold these fields, in this order. */
  ghost predicate Contains(buf: seq<Byte>, found: seq<Field>, depth: nat)
    requires depth <= MAX_DEPTH
    decreases MAX_DEPTH - depth, 2
  {
    exists attrs :: Splits(buf, attrs) && Each(attrs, found, depth)
  }

  ghost predicate Each(attrs: seq<Attr>, found: seq<Field>, depth: nat)
    requires depth <= MAX_DEPTH
    decreases MAX_DEPTH - depth, 1
  {
    |attrs| == |found| && forall i :: 0 <= i < |attrs| ==> Holds(attrs[i], found[i], depth)
  }

  // ---- decoding is meaning ----------------------------------------------------------------------------

  /** The data has a name and what follows it. */
  predicate HasName(p: seq<Byte>) { |p| >= 3 && Align(2 + NameLen(p) + 1) <= |p| }

  lemma PaddingIs(n: nat)
    ensures Align(2 + n + 1) == (n + 6) / 4 * 4 && Align(2 + n + 1) >= n + 3
  {
  }

  lemma NameThere(p: seq<Byte>)
    requires HasName(p)
    ensures Named(p, p[2..2 + NameLen(p)], p[Align(2 + NameLen(p) + 1)..])
  {
    hide FromBe, Align;
    PaddingIs(NameLen(p));
  }

  lemma NameOnly(p: seq<Byte>, name: seq<Byte>, d: seq<Byte>)
    requires Named(p, name, d)
    ensures HasName(p) && name == p[2..2 + NameLen(p)] && d == p[Align(2 + NameLen(p) + 1)..]
  {
    hide FromBe, Align;
    PaddingIs(|name|);
  }

  /** What is in an attribute's data under the name that is there. */
  lemma NameIs(p: seq<Byte>)
    ensures HasName(p) ==> Named(p, p[2..2 + NameLen(p)], p[Align(2 + NameLen(p) + 1)..])
    ensures forall name, d | Named(p, name, d) ::
              HasName(p) && name == p[2..2 + NameLen(p)] && d == p[Align(2 + NameLen(p) + 1)..]
  {
    hide FromBe, Align, Named;
    if HasName(p) { NameThere(p); }
    forall name, d | Named(p, name, d)
      ensures HasName(p) && name == p[2..2 + NameLen(p)] && d == p[Align(2 + NameLen(p) + 1)..]
    {
      NameOnly(p, name, d);
    }
  }

  lemma {:induction false} DecodesMeaning(a: Attr, f: Field, depth: nat)
    requires depth <= MAX_DEPTH
    ensures DecodeAt(a, depth) == Ok(f) <==> Holds(a, f, depth)
    decreases MAX_DEPTH - depth, 1
  {
    hide FromBe, ScalarOf, ScalarMeans, Named, InsertAll, FieldsAt, Contains, MapOf;
    NameIs(a.data);
    if a.extended && HasName(a.data) {
      var d := a.data[Align(2 + NameLen(a.data) + 1)..];
      ValueMeaning(a.id, d, f.value, depth);
    }
  }

  /** The value part of `DecodeAt`. */
  function ValueAt(ty: nat, d: seq<Byte>, depth: nat): Option<Json>
    requires depth <= MAX_DEPTH
  {
    if ty == ARRAY || ty == TABLE then
      if depth >= MAX_DEPTH then None
      else
        match FieldsAt(d, depth + 1)
        case Err(_) => None
        case Ok(found) => Some(if ty == ARRAY then Arr(ValuesOf(found)) else Obj(InsertAll(found)))
    else
      match ScalarOf(ty, d)
      case Some(Ok(v)) => Some(v)
      case _ => None
  }

  lemma {:induction false} ValueMeaning(ty: nat, d: seq<Byte>, v: Json, depth: nat)
    requires depth <= MAX_DEPTH
    ensures ValueAt(ty, d, depth) == Some(v) <==> Means(ty, d, v, depth)
    decreases MAX_DEPTH - depth, 0
  {
    hide FromBe, InsertAll, FieldsAt, Contains, MapOf, ScalarOf;
    ScalarIs(ty, d, v);
    if depth < MAX_DEPTH {
      if FieldsAt(d, depth + 1).Ok? {
        var found := FieldsAt(d, depth + 1).value;
        FieldsMeaning(d, found, depth + 1);
        assert ItemsOf(ValuesOf(found), found);
        if v.Obj? { MapIs(v.fields, found); }
      }
      if Means(ty, d, v, depth) && v.Obj? {
        var found :| Contains(d, found, depth + 1) && MapOf(v.fields, found);
        FieldsMeaning(d, found, depth + 1);
      }
      if Means(ty, d, v, depth) && v.Arr? {
        var found :| Contains(d, found, depth + 1) && ItemsOf(v.items, found);
        FieldsMeaning(d, found, depth + 1);
        assert v.items == ValuesOf(found);
      }
    }
  }

  lemma {:induction false} FieldsMeaning(buf: seq<Byte>, found: seq<Field>, depth: nat)
    requires depth <= MAX_DEPTH
    ensures FieldsAt(buf, depth) == Ok(found) <==> Contains(buf, found, depth)
    decreases MAX_DEPTH - depth, 3
  {
    hide Each, DecodeAll, ParseAttrs, Splits;
    forall attrs ensures ParseAttrs(buf) == Ok(attrs) <==> Splits(buf, attrs) { SplitsIsParse(buf, attrs); }
    if ParseAttrs(buf).Ok? { EachMeaning(ParseAttrs(buf).value, found, depth); }
  }

  lemma {:induction false} EachMeaning(attrs: seq<Attr>, found: seq<Field>, depth: nat)
    requires depth <= MAX_DEPTH
    ensures DecodeAll(attrs, depth) == Ok(found) <==> Each(attrs, found, depth)
    decreases MAX_DEPTH - depth, 2, |attrs|
  {
    hide DecodeAt, Holds;
    if attrs != [] && found != [] {
      var m, n := |attrs| - 1, |found| - 1;
      EachMeaning(attrs[..m], found[..n], depth);
      DecodesMeaning(attrs[m], found[n], depth);
      assert found == found[..n] + [found[n]];
    }
  }

  /** For every buffer: decoding gives `v` exactly if the buffer's attributes hold some fields and `v` is the map
      of them, at every level of nesting; it fails exactly if the bytes mean nothing. */
  lemma DecodingIsMeaning(buf: seq<Byte>, v: Json)
    ensures DecodeObject(buf) == Ok(v) <==>
              v.Obj? && exists found :: Contains(buf, found, 0) && MapOf(v.fields, found)
    ensures DecodeObject(buf).Ok? <==> exists found :: Contains(buf, found, 0)
  {
    hide FieldsAt, Contains, MapOf, InsertAll;
    if FieldsAt(buf, 0).Ok? {
      var found := FieldsAt(buf, 0).value;
      FieldsMeaning(buf, found, 0);
      if v.Obj? { MapIs(v.fields, found); }
    }
    forall found | Contains(buf, found, 0) ensures FieldsAt(buf, 0) == Ok(found) { FieldsMeaning(buf, found, 0); }
  }

  // ---- numbers -----------------------------------------------------------------------------------------

  /** The first of the bytes weighs most. */
  lemma {:induction false} BigEndFirst(x: Byte, s: seq<Byte>)
    ensures FromBe([x] + s) == x * Span(|s|) + FromBe(s)
  {
    if s == [] {
      assert [x][..0] == [];
    } else {
      var n := |s| - 1;
      BigEndFirst(x, s[..n]);
      assert ([x] + s)[..n + 1] == [x] + s[..n];
      assert 256 * (x * Span(n)) == x * Span(n + 1);
    }
  }

  /** The integer that a double with exponent 63 stands for: 2^63 and 2048 for each unit of the mantissa. */
  function LargeDouble(mantissa: nat): nat { I64_SPAN + 2048 * mantissa }

  /** An integer beyond 63 bits is sent as the nearest double, at a tie the one with an even mantissa. */
  lemma NearestDouble(i: nat, other: nat)
    requires I64_SPAN <= i < 2 * I64_SPAN
    ensures var m := BitsOfLarge(i) - 0x43E0_0000_0000_0000; var x, y := LargeDouble(m), LargeDouble(other);
            && 0 <= m <= 0x10_0000_0000_0000
            && Gap(x, i) <= Gap(y, i)
            && (Gap(x, i) == Gap(y, i) && m != other ==> m % 2 == 0)
  {
    var q := (i - I64_SPAN) / 2048;
    assert other <= q || other >= q + 1;
  }

  function Gap(a: nat, b: nat): nat { if a < b then b - a else a - b }

  /** Infinities and what is not a number have all bits of the exponent set. */
  lemma FiniteIs(bits: nat)
    ensures Finite(bits) <==> bits < 0x1_0000_0000_0000_0000 && bits % 0x8000_0000_0000_0000 < 0x7FF0_0000_0000_0000
  {
    var half, rest := bits / 0x8000_0000_0000_0000, bits % 0x8000_0000_0000_0000;
    assert bits == half * 0x8000_0000_0000_0000 + rest;
    assert bits / 0x10_0000_0000_0000 == half * 2048 + rest / 0x10_0000_0000_0000;
  }

  // ---- what the encoder takes ---------------------------------------------------------------------------

  /** The bytes of a value without its name. */
  function Size(v: Json): nat
    decreases v, 0
  {
    match v
    case Null => 0
    case Bool(_) => 1
    case Int(i) => if -0x8000_0000 <= i < 0x8000_0000 then 4 else 8
    case Double(_) => 8
    case Str(s) => |s| + 1
    case Arr(items) => SizeOfItems(items)
    case Obj(fields) => SizeOfFields(fields)
  }

  /** With its name and head, before padding. */
  function Length(name: seq<Byte>, v: Json): nat
    decreases v, 1
  {
    4 + (|name| + 6) / 4 * 4 + Size(v)
  }

  function SizeOfItems(items: seq<Json>): nat
    decreases items, 0
  {
    if items == [] then 0 else SizeOfItems(items[..|items| - 1]) + (Length([], items[|items| - 1]) + 3) / 4 * 4
  }

  function SizeOfFields(fields: seq<Field>): nat
    decreases fields, 0
  {
    if fields == [] then 0
    else
      var f := fields[|fields| - 1];
      SizeOfFields(fields[..|fields| - 1]) + (Length(f.name, f.value) + 3) / 4 * 4
  }

  /** No attribute in it is longer than `n`. */
  predicate UpTo(name: seq<Byte>, v: Json, n: nat)
    decreases v, 1
  {
    Length(name, v) <= n && InsideUpTo(v, n)
  }

  predicate InsideUpTo(v: Json, n: nat)
    decreases v, 0
  {
    match v
    case Arr(items) => forall x | x in items :: UpTo([], x, n)
    case Obj(fields) => forall f | f in fields :: UpTo(f.name, f.value, n)
    case _ => true
  }

  const LONGEST: nat := 0xff_ffff
  const UNWRAPPED: nat := 0xffff_ffff

  /** A value without attributes whose length wraps is taken if and only if none is longer than 24 bits can say, and
      then takes exactly its length, padded to whole words. */
  lemma {:induction false} EncodesIff(name: seq<Byte>, v: Json)
    requires Exists(v) && UpTo(name, v, UNWRAPPED)
    ensures PutValue(name, v).Some? <==> UpTo(name, v, LONGEST)
    ensures PutValue(name, v).Some? ==> |PutValue(name, v).value| == (Length(name, v) + 3) / 4 * 4
    decreases v, 1
  {
    hide PutItems, PutFields, SizeOfItems, SizeOfFields, Be, Exists, UpTo, InsideUpTo, Payload, PutAttr;
    DataSize(name, v);
    if DataOf(v).Some? { AttrSize(TypeOf(v), name, DataOf(v).value); }
    UpToIs(name, v, UNWRAPPED);
    UpToIs(name, v, LONGEST);
  }

  lemma UpToIs(name: seq<Byte>, v: Json, n: nat)
    ensures UpTo(name, v, n) <==> Length(name, v) <= n && InsideUpTo(v, n)
  {
  }

  lemma AttrSize(ty: nat, name: seq<Byte>, data: seq<Byte>)
    requires ty < 128
    ensures var n := 4 + (|name| + 6) / 4 * 4 + |data|;
            var r := PutAttr(ty, true, Payload(name, data));
            && (n < 0x1_0000_0000 ==> (r.Some? <==> n <= 0xff_ffff))
            && (r.Some? ==> |r.value| == (n + 3) / 4 * 4)
  {
    hide Be, HeadWord;
    PaddingIs(|name|);
  }

  lemma {:induction false} DataSize(name: seq<Byte>, v: Json)
    requires Exists(v) && UpTo(name, v, UNWRAPPED)
    ensures DataOf(v).Some? <==> InsideUpTo(v, LONGEST)
    ensures DataOf(v).Some? ==> |DataOf(v).value| == Size(v)
    decreases v, 0
  {
    hide PutItems, PutFields, SizeOfItems, SizeOfFields, Be;
    match v
    case Arr(items) => ItemsSize(items);
    case Obj(fields) => FieldsSize(fields);
    case _ =>
  }

  lemma {:induction false} ItemsSize(items: seq<Json>)
    requires forall x | x in items :: Exists(x) && UpTo([], x, UNWRAPPED)
    ensures PutItems(items).Some? <==> forall x | x in items :: UpTo([], x, LONGEST)
    ensures PutItems(items).Some? ==> |PutItems(items).value| == SizeOfItems(items)
    decreases items, 0
  {
    hide Exists, UpTo, PutValue, Length;
    if items != [] {
      var front, last := items[..|items| - 1], items[|items| - 1];
      assert items == front + [last];
      ItemsSize(front);
      EncodesIff([], last);
    }
  }

  lemma {:induction false} FieldsSize(fields: seq<Field>)
    requires forall f | f in fields :: Exists(f.value) && UpTo(f.name, f.value, UNWRAPPED)
    ensures PutFields(fields).Some? <==> forall f | f in fields :: UpTo(f.name, f.value, LONGEST)
    ensures PutFields(fields).Some? ==> |PutFields(fields).value| == SizeOfFields(fields)
    decreases fields, 0
  {
    hide Exists, UpTo, PutValue, Length;
    if fields != [] {
      var front, last := fields[..|fields| - 1], fields[|fields| - 1];
      assert fields == front + [last];
      FieldsSize(front);
      EncodesIff(last.name, last.value);
    }
  }

  // ---- what was received can be sent on ----------------------------------------------------------------

  /** A value that exists and is nested no deeper than `n`. */
  predicate Known(v: Json, n: int) { Exists(v) && Levels(v) <= n }

  lemma {:induction false} ItemsLevels(items: seq<Json>, n: nat)
    requires forall x | x in items :: Levels(x) <= n
    ensures LevelsOfItems(items) <= n
  {
    if items != [] { ItemsLevels(items[..|items| - 1], n); }
  }

  lemma {:induction false} MapLevels(fields: seq<Field>, n: nat)
    requires forall f | f in fields :: Levels(f.value) <= n
    ensures LevelsOfFields(fields) <= n
  {
    if fields != [] { MapLevels(fields[..|fields| - 1], n); }
  }

  lemma ArrayKnown(items: seq<Json>, n: nat)
    requires forall x | x in items :: Known(x, n)
    ensures Known(Arr(items), n + 1)
  {
    ItemsLevels(items, n);
  }

  lemma MapKnown(fields: seq<Field>, n: nat)
    requires Ascending(fields) && forall f | f in fields :: Known(f.value, n)
    ensures Known(Obj(fields), n + 1) && LevelsOfFields(fields) <= n
  {
    hide Ascending;
    MapLevels(fields, n);
  }

  lemma ContainersKnown(found: seq<Field>, n: nat)
    requires forall f | f in found :: Known(f.value, n)
    ensures Known(Arr(ValuesOf(found)), n + 1) && Known(Obj(InsertAll(found)), n + 1)
    ensures LevelsOfFields(InsertAll(found)) <= n
  {
    hide Ascending, Known, InsertAll, LevelsOfFields;
    InsertAllExact(found);
    var items, fields := ValuesOf(found), InsertAll(found);
    forall x | x in items ensures Known(x, n) {
      var i :| 0 <= i < |found| && items[i] == x;
      assert found[i] in found;
    }
    forall g | g in fields ensures Known(g.value, n) { InsertAllHas(found, g); }
    ArrayKnown(items, n);
    MapKnown(fields, n);
  }

  lemma ScalarKnown(ty: nat, d: seq<Byte>)
    requires ScalarOf(ty, d).Some? && ScalarOf(ty, d).value.Ok?
    ensures forall n: nat :: Known(ScalarOf(ty, d).value.value, n)
  {
    hide FromBe;
    SpanValues();
    FromBeBound(d);
  }

  lemma {:induction false} DecodedKnown(a: Attr, depth: nat)
    requires depth <= MAX_DEPTH && DecodeAt(a, depth).Ok?
    ensures Known(DecodeAt(a, depth).value.value, MAX_DEPTH - depth)
    decreases MAX_DEPTH - depth, 0
  {
    hide FieldsAt, FromBe, InsertAll, ScalarOf, Known;
    var d := a.data[Align(2 + NameLen(a.data) + 1)..];
    if a.id == ARRAY || a.id == TABLE {
      var found := FieldsAt(d, depth + 1).value;
      FieldsKnown(d, depth + 1);
      ContainersKnown(found, MAX_DEPTH - depth - 1);
    } else {
      ScalarKnown(a.id, d);
    }
  }

  lemma {:induction false} FieldsKnown(buf: seq<Byte>, depth: nat)
    requires depth <= MAX_DEPTH && FieldsAt(buf, depth).Ok?
    ensures forall f | f in FieldsAt(buf, depth).value :: Known(f.value, MAX_DEPTH - depth)
    decreases MAX_DEPTH - depth, 2, 0
  {
    AllKnown(ParseAttrs(buf).value, depth);
  }

  lemma {:induction false} AllKnown(attrs: seq<Attr>, depth: nat)
    requires depth <= MAX_DEPTH && DecodeAll(attrs, depth).Ok?
    ensures forall f | f in DecodeAll(attrs, depth).value :: Known(f.value, MAX_DEPTH - depth)
    decreases MAX_DEPTH - depth, 1, |attrs|
  {
    hide DecodeAt, Known;
    if attrs != [] {
      AllKnown(attrs[..|attrs| - 1], depth);
      DecodedKnown(attrs[|attrs| - 1], depth);
    }
  }

  /** Whatever was decoded, from whatever bytes: if the encoder takes it, decoding the encoding gives it again. */
  lemma ReceivedCanBeSentOn(buf: seq<Byte>)
    requires DecodeObject(buf).Ok?
    ensures var v := DecodeObject(buf).value;
            && v.Obj? && Exists(v)
            && (PutFields(v.fields).Some? ==> DecodeObject(PutFields(v.fields).value) == Ok(v))
  {
    hide DecodeAll, ParseAttrs, InsertAll, Plain, ShortNames, FitsInside, PutFields, LevelsOfFields;
    var attrs := ParseAttrs(buf).value;
    var found := DecodeAll(attrs, 0).value;
    AllKnown(attrs, 0);
    FieldsClean(buf, 0);
    ContainersClean(found);
    ContainersKnown(found, MAX_DEPTH);
    var fields := InsertAll(found);
    if PutFields(fields).Some? {
      DecodedFits(buf);
      RoundTripIff(fields);
    }
  }

  /** No field that was decoded is too long to be encoded. */
  lemma DecodedFits(buf: seq<Byte>)
    requires FieldsAt(buf, 0).Ok?
    requires var fields := InsertAll(FieldsAt(buf, 0).value); Exists(Obj(fields)) && PutFields(fields).Some?
    ensures FitsInside(Obj(InsertAll(FieldsAt(buf, 0).value)))
  {
    hide PutFields, InsertAll, DecodeAll, ParseAttrs, Fits, FieldWeight;
    var found := FieldsAt(buf, 0).value;
    ParsedBulk(buf);
    FieldsLight(ParseAttrs(buf).value, 0);
    forall f | f in InsertAll(found) ensures Fits(f.name, f.value) {
      InsertAllHas(found, f);
      FieldPut(InsertAll(found), f);
      if !Fits(f.name, f.value) {
        UnfitIsHeavy(f.name, f.value);
        HeavyField(f);
      }
    }
  }
}
