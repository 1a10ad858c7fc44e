/** Decoding undoes encoding, and exactly when. */
module UbusBlobLaws {
  import opened Common
  import opened Json
  import opened UbusBlob

  // ---- numbers ---------------------------------------------------------------------

  function Span(k: nat): nat {
    if k == 0 then 1 else 256 * Span(k - 1)
  }

  lemma SpanValues()
    ensures Span(2) == 0x1_0000 && Span(4) == 0x1_0000_0000 && Span(8) == 2 * I64_SPAN
  {
    assert Span(3) == 256 * Span(2) && Span(5) == 256 * Span(4) && Span(6) == 256 * Span(5) && Span(7) == 256 * Span(6);
  }

  lemma {:induction false} BeRound(n: nat, k: nat)
    requires n < Span(k)
    ensures FromBe(Be(n, k)) == n
  {
    if k > 0 {
      var front := Be(n / 256, k - 1);
      assert Be(n, k)[..k - 1] == front;
      BeRound(n / 256, k - 1);
    }
  }

  lemma {:induction false} FromBeBound(s: seq<Byte>)
    ensures FromBe(s) < Span(|s|)
  {
    if s != [] { FromBeBound(s[..|s| - 1]); }
  }

  // ---- one attribute ------------------------------------------------------------------

  predicate Small(n: nat) { n < 0x1_0000_0000 }

  lemma WordParts(id: nat, len: nat, top: nat)
    requires id < 128 && len < 0x100_0000 && top <= 1
    ensures var w := id * 0x100_0000 + len + top * 0x8000_0000;
            && w % 0x100_0000 == len && w / 0x100_0000 == id + 128 * top
            && (w >= 0x8000_0000 <==> top == 1) && w < 0x1_0000_0000
  {
  }

  lemma HeadRound(id: nat, extended: bool, payload: seq<Byte>)
    requires AttrFits(id, payload) && Small(HDR_LEN + |payload|)
    ensures var w := HeadWord(id, extended, payload);
            && FromBe(Be(w, 4)) == w
            && w % ID_UNIT == HDR_LEN + |payload| && w / ID_UNIT % 128 == id && (w >= EXTENDED <==> extended)
  {
    hide Be, FromBe;
    SpanValues();
    WordParts(id, HDR_LEN + |payload|, if extended then 1 else 0);
    BeRound(HeadWord(id, extended, payload), 4);
  }

  /** Parsing what was just put gives that attribute. */
  lemma ParsePut(id: nat, extended: bool, payload: seq<Byte>)
    requires AttrFits(id, payload) && Small(HDR_LEN + |payload|)
    ensures var b := PutAttr(id, extended, payload).value;
            ParseAttrs(b) == Ok([Attr(id, extended, payload)]) && |b| % 4 == 0 && |b| >= HDR_LEN + |payload|
  {
    hide Be, FromBe, HeadWord;
    HeadRound(id, extended, payload);
    var raw := HDR_LEN + |payload|;
    var w := Be(HeadWord(id, extended, payload), 4);
    var b := PutAttr(id, extended, payload).value;
    assert b[..HDR_LEN] == w;
    assert b[HDR_LEN..raw] == payload;
    assert |b| == Align(raw);
    assert b[|b|..] == [];
    var x := Attr(id, extended, payload);
    assert NextAttr(b) == Ok((x, []));
    assert ParseAttrs([]) == Ok([]) && [x] + [] == [x];
  }

  /** What follows the first attribute does not change it. */
  lemma NextAppend(a: seq<Byte>, b: seq<Byte>)
    requires a != [] && |a| % 4 == 0 && NextAttr(a).Ok?
    ensures NextAttr(a + b) == Ok((NextAttr(a).value.0, NextAttr(a).value.1 + b))
    ensures |NextAttr(a).value.1| % 4 == 0
  {
    hide FromBe;
    var c := a + b;
    assert c[..HDR_LEN] == a[..HDR_LEN];
    var raw := FromBe(a[..HDR_LEN]) % ID_UNIT;
    var k := Align(raw);
    assert k <= |a|;
    assert c[HDR_LEN..raw] == a[HDR_LEN..raw];
    assert c[k..] == a[k..] + b;
  }

  /** Attributes after a whole number of words are parsed independently. */
  lemma {:induction false} ParseAppend(a: seq<Byte>, b: seq<Byte>)
    requires |a| % 4 == 0 && ParseAttrs(a).Ok?
    ensures ParseAttrs(a + b) ==
              match ParseAttrs(b)
              case Ok(rest) => Ok(ParseAttrs(a).value + rest)
              case Err(e) => Err(e)
    decreases |a|
  {
    hide NextAttr;
    if a == [] {
      assert a + b == b;
      assert ParseAttrs(b).Ok? ==> [] + ParseAttrs(b).value == ParseAttrs(b).value;
    } else {
      NextAppend(a, b);
      var (x, rest) := NextAttr(a).value;
      ParseAppend(rest, b);
      if ParseAttrs(b).Ok? {
        assert [x] + (ParseAttrs(rest).value + ParseAttrs(b).value) == ParseAttrs(a).value + ParseAttrs(b).value;
      }
    }
  }

  // ---- what a value becomes ---------------------------------------------------------------

  /** How many containers are nested in a value. */
  function Levels(v: Json): nat {
    match v
    case Arr(items) => 1 + LevelsOfItems(items)
    case Obj(fields) => 1 + LevelsOfFields(fields)
    case _ => 0
  }

  function LevelsOfItems(items: seq<Json>): nat {
    if items == [] then 0 else Max(LevelsOfItems(items[..|items| - 1]), Levels(items[|items| - 1]))
  }

  function LevelsOfFields(fields: seq<Field>): nat {
    if fields == [] then 0 else Max(LevelsOfFields(fields[..|fields| - 1]), Levels(fields[|fields| - 1].value))
  }

  /** What the other side makes of a value: a string ends at its first NUL, an
      integer beyond 63 bits arrives as the nearest double. */
  function Received(v: Json): Json
    requires Exists(v)
  {
    match v
    case Int(i) => if i < I64_SPAN then v else Double(BitsOfLarge(i))
    case Str(s) => Str(UpToNul(s))
    case Arr(items) => Arr(ReceivedItems(items))
    case Obj(fields) => Obj(ReceivedFields(fields))
    case _ => v
  }

  function ReceivedItems(items: seq<Json>): (r: seq<Json>)
    requires forall x | x in items :: Exists(x)
    ensures |r| == |items|
  {
    if items == [] then [] else ReceivedItems(items[..|items| - 1]) + [Received(items[|items| - 1])]
  }

  function ReceivedFields(fields: seq<Field>): (r: seq<Field>)
    requires forall f | f in fields :: Exists(f.value)
    ensures |r| == |fields| && forall i :: 0 <= i < |r| ==> r[i].name == fields[i].name
  {
    if fields == [] then []
    else
      var f := fields[|fields| - 1];
      ReceivedFields(fields[..|fields| - 1]) + [Field(f.name, Received(f.value))]
  }

  /** All names fit the 16-bit length field. */
  predicate ShortNames(v: Json) {
    match v
    case Arr(items) => forall x | x in items :: ShortNames(x)
    case Obj(fields) => forall f | f in fields :: |f.name| < 65536 && ShortNames(f.value)
    case _ => true
  }

  /** Strings without NUL and integers of 64 bits with a sign. */
  predicate Plain(v: Json) {
    match v
    case Int(i) => -I64_SPAN <= i < I64_SPAN
    case Str(s) => 0 !in s
    case Arr(items) => forall x | x in items :: Plain(x)
    case Obj(fields) => forall f | f in fields :: Plain(f.value)
    case _ => true
  }

  // ---- scalars ---------------------------------------------------------------------------------

  lemma {:induction false} UpToNulEnds(s: seq<Byte>)
    ensures UpToNul(s + [0]) == UpToNul(s)
  {
    if s != [] && s[0] != 0 {
      assert (s + [0])[1..] == s[1..] + [0];
      UpToNulEnds(s[1..]);
    }
  }

  lemma ScalarRound(v: Json)
    requires Exists(v) && !v.Arr? && !v.Obj?
    ensures DataOf(v).Some? && ScalarOf(TypeOf(v), DataOf(v).value) == Some(Ok(Received(v)))
  {
    SpanValues();
    match v
    case Int(i) =>
      if -I32_SPAN <= i < I32_SPAN {
        BeRound(Twos(i, I32_SPAN), 4);
      } else if -I64_SPAN <= i < I64_SPAN {
        BeRound(Twos(i, I64_SPAN), 8);
      } else {
        BeRound(BitsOfLarge(i), 8);
      }
    case Double(bits) => BeRound(bits, 8);
    case Str(s) => UpToNulEnds(s);
    case _ =>
  }

  // ---- names and one field -------------------------------------------------------------------------

  lemma PayloadParts(name: seq<Byte>, data: seq<Byte>)
    requires |name| < 65536
    ensures var p := Payload(name, data);
            var hdr := Align(2 + |name| + 1);
            |p| == hdr + |data| && |p| >= 3 && NameLen(p) == |name| && p[2..2 + |name|] == name && p[hdr..] == data
  {
    SpanValues();
    BeRound(|name|, 2);
    var p := Payload(name, data);
    assert p[..2] == Be(|name|, 2);
  }

  ghost function Cut(r: Outcome<seq<Field>, BlobError>, a: Attr, depth: nat): Outcome<seq<Field>, BlobError>
    requires depth <= MAX_DEPTH
  {
    match r
    case Err(e) => Err(e)
    case Ok(front) =>
      match DecodeAt(a, depth)
      case Err(e) => Err(e)
      case Ok(f) => Ok(front + [f])
  }

  /** Decoding the fields of a buffer with one more attribute at its end. */
  lemma FieldsAppend(a: seq<Byte>, b: seq<Byte>, x: Attr, depth: nat)
    requires depth <= MAX_DEPTH && |a| % 4 == 0 && ParseAttrs(a).Ok? && ParseAttrs(b) == Ok([x])
    ensures FieldsAt(a + b, depth) == Cut(FieldsAt(a, depth), x, depth)
  {
    ParseAppend(a, b);
    var attrs := ParseAttrs(a).value;
    assert (attrs + [x])[..|attrs|] == attrs;
  }

  // ---- the round trip ---------------------------------------------------------------------------------

  ghost predicate Parsed(bytes: seq<Byte>) {
    |bytes| % 4 == 0 && ParseAttrs(bytes).Ok?
  }

  /** What decoding gives for a value at a depth. */
  ghost function Expected(name: seq<Byte>, v: Json, depth: nat): Outcome<Field, BlobError>
    requires Exists(v)
  {
    if Levels(v) + depth <= MAX_DEPTH then Ok(Field(name, Received(v))) else Err(TooDeep)
  }

  ghost predicate FieldRound(name: seq<Byte>, v: Json, depth: nat)
    requires Exists(v) && PutValue(name, v).Some? && depth <= MAX_DEPTH
  {
    var a := Attr(TypeOf(v), true, Payload(name, DataOf(v).value));
    && ParseAttrs(PutValue(name, v).value) == Ok([a])
    && |PutValue(name, v).value| % 4 == 0
    && DecodeAt(a, depth) == Expected(name, v, depth)
  }

  function Unnamed(items: seq<Json>): seq<Field> {
    seq(|items|, i requires 0 <= i < |items| => Field([], items[i]))
  }

  /** The attribute of a value and all attributes inside it are within the 32 bits of a length, so
      that the check for 24 bits sees their true lengths. */
  predicate Fits(name: seq<Byte>, v: Json)
    requires Exists(v)
    decreases v, 1
  {
    DataOf(v).Some? && Small(HDR_LEN + |Payload(name, DataOf(v).value)|) && FitsInside(v)
  }

  predicate FitsInside(v: Json)
    requires Exists(v)
    decreases v, 0
  {
    match v
    case Arr(items) => forall x | x in items :: Fits([], x)
    case Obj(fields) => forall f | f in fields :: Fits(f.name, f.value)
    case _ => true
  }

  /** Decoding takes the name off and decodes the data by its type. */
  lemma DecodePayload(ty: nat, name: seq<Byte>, data: seq<Byte>, depth: nat)
    requires |name| < 65536 && depth <= MAX_DEPTH
    ensures var r := DecodeAt(Attr(ty, true, Payload(name, data)), depth);
            if ty == ARRAY || ty == TABLE then
              if depth == MAX_DEPTH then r == Err(TooDeep)
              else
                match FieldsAt(data, depth + 1)
                case Err(e) => r == Err(e)
                case Ok(found) => r == Ok(Field(name, if ty == ARRAY then Arr(ValuesOf(found)) else Obj(InsertAll(found))))
            else
              ScalarOf(ty, data).Some? && ScalarOf(ty, data).value.Ok? ==>
                r == Ok(Field(name, ScalarOf(ty, data).value.value))
  {
    hide FieldsAt, DecodeAll, Payload, ScalarOf, InsertAll, ValuesOf;
    PayloadParts(name, data);
  }

  lemma {:induction false} RoundValue(name: seq<Byte>, v: Json, depth: nat)
    requires Exists(v) && ShortNames(v) && |name| < 65536 && depth <= MAX_DEPTH
    requires PutValue(name, v).Some? && Fits(name, v)
    ensures FieldRound(name, v, depth)
    decreases v, 1
  {
    hide FieldsAt, DecodeAt, ParseAttrs, Payload, ScalarOf, InsertAll, PutAttr, Fits;
    ValueParses(name, v);
    var data := DataOf(v).value;
    DecodePayload(TypeOf(v), name, data, depth);
    match v {
      case Arr(items) =>
        if depth < MAX_DEPTH {
          RoundItems(items, depth + 1);
          ItemsDecode(items);
        }
      case Obj(fields) =>
        if depth < MAX_DEPTH {
          RoundFields(fields, depth + 1);
          InsertAscending(ReceivedFields(fields));
        }
      case _ => ScalarRound(v);
    }
  }

  /** The bytes of a value are one attribute whose data is no longer than they are. */
  lemma ValueParses(name: seq<Byte>, v: Json)
    requires Exists(v) && |name| < 65536
    requires PutValue(name, v).Some? && Fits(name, v)
    ensures DataOf(v).Some? && FitsInside(v)
    ensures ParseAttrs(PutValue(name, v).value) == Ok([Attr(TypeOf(v), true, Payload(name, DataOf(v).value))])
    ensures |PutValue(name, v).value| % 4 == 0
  {
    hide ParseAttrs, Payload, PutAttr, DataOf, TypeOf, Exists;
    var data := DataOf(v).value;
    var p := Payload(name, data);
    PutFits(TypeOf(v), p);
    ParsePut(TypeOf(v), true, p);
  }

  lemma ItemsDecode(items: seq<Json>)
    requires forall x | x in items :: Exists(x)
    ensures ValuesOf(Unnamed(ReceivedItems(items))) == ReceivedItems(items)
  {
  }

  lemma PutFits(id: nat, p: seq<Byte>)
    requires PutAttr(id, true, p).Some?
    ensures AttrFits(id, p)
  {
  }

  lemma FieldsOfNothing(depth: nat)
    requires depth <= MAX_DEPTH
    ensures Parsed([]) && FieldsAt([], depth) == Ok([])
  {
  }

  lemma {:induction false} RoundItems(items: seq<Json>, depth: nat)
    requires forall x | x in items :: Exists(x) && ShortNames(x) && Fits([], x)
    requires depth <= MAX_DEPTH && PutItems(items).Some?
    ensures Parsed(PutItems(items).value)
    ensures FieldsAt(PutItems(items).value, depth) ==
              if LevelsOfItems(items) + depth <= MAX_DEPTH then Ok(Unnamed(ReceivedItems(items))) else Err(TooDeep)
    decreases items, 0
  {
    hide FieldsAt, DecodeAt, DecodeAll, ParseAttrs, Payload, TypeOf, DataOf, PutValue, Levels, Received, Exists, ShortNames, Fits;
    if items == [] {
      FieldsOfNothing(depth);
      assert Unnamed(ReceivedItems(items)) == [];
    } else {
      var front, last := items[..|items| - 1], items[|items| - 1];
      assert last in items;
      var a, b := PutItems(front).value, PutValue([], last).value;
      RoundItems(front, depth);
      RoundValue([], last, depth);
      FieldsAppend(a, b, ParseAttrs(b).value[0], depth);
      ParseAppend(a, b);
      assert Unnamed(ReceivedItems(items)) == Unnamed(ReceivedItems(front)) + [Field([], Received(last))];
    }
  }

  lemma {:induction false} RoundFields(fields: seq<Field>, depth: nat)
    requires forall f | f in fields :: Exists(f.value) && ShortNames(f.value) && |f.name| < 65536 && Fits(f.name, f.value)
    requires depth <= MAX_DEPTH && PutFields(fields).Some?
    ensures Parsed(PutFields(fields).value)
    ensures FieldsAt(PutFields(fields).value, depth) ==
              if LevelsOfFields(fields) + depth <= MAX_DEPTH then Ok(ReceivedFields(fields)) else Err(TooDeep)
    decreases fields, 0
  {
    hide FieldsAt, DecodeAt, DecodeAll, ParseAttrs, Payload, TypeOf, DataOf, PutValue, Levels, Received, Exists, ShortNames, Fits;
    if fields == [] {
      FieldsOfNothing(depth);
    } else {
      var front, last := fields[..|fields| - 1], fields[|fields| - 1];
      assert last in fields;
      var a, b := PutFields(front).value, PutValue(last.name, last.value).value;
      RoundFields(front, depth);
      RoundValue(last.name, last.value, depth);
      FieldsAppend(a, b, ParseAttrs(b).value[0], depth);
      ParseAppend(a, b);
    }
  }

  // ---- maps -------------------------------------------------------------------------------------------

  lemma {:induction false} BelowOneWay(a: seq<Byte>, b: seq<Byte>)
    requires Below(a, b)
    ensures a != b && !Below(b, a)
    decreases |a|
  {
    if a != [] && a[0] == b[0] {
      BelowOneWay(a[1..], b[1..]);
    }
  }

  lemma {:induction false} InsertLast(fields: seq<Field>, f: Field)
    requires forall i :: 0 <= i < |fields| ==> Below(fields[i].name, f.name)
    ensures Insert(fields, f) == fields + [f]
  {
    if fields != [] {
      BelowOneWay(fields[0].name, f.name);
      InsertLast(fields[1..], f);
      assert fields == [fields[0]] + fields[1..];
    }
  }

  /** Inserting the fields of a map in order builds the map again. */
  lemma {:induction false} InsertAscending(fields: seq<Field>)
    requires Ascending(fields)
    ensures InsertAll(fields) == fields
  {
    if fields != [] {
      InsertAscending(fields[..|fields| - 1]);
      InsertLast(fields[..|fields| - 1], fields[|fields| - 1]);
    }
  }

  // ---- when a value survives -----------------------------------------------------------------------------

  lemma {:induction false} UpToNulSame(s: seq<Byte>)
    ensures UpToNul(s) == s <==> 0 !in s
  {
    if s != [] && s[0] != 0 {
      UpToNulSame(s[1..]);
      assert s == [s[0]] + s[1..];
    }
  }

  /** The other side gets the same value exactly when it is plain. */
  lemma {:induction false} ReceivedSame(v: Json)
    requires Exists(v)
    ensures Received(v) == v <==> Plain(v)
    decreases v, 1
  {
    match v
    case Str(s) => UpToNulSame(s);
    case Arr(items) => ReceivedSameItems(items);
    case Obj(fields) => ReceivedSameFields(fields);
    case _ =>
  }

  lemma {:induction false} ReceivedSameItems(items: seq<Json>)
    requires forall x | x in items :: Exists(x)
    ensures ReceivedItems(items) == items <==> forall x | x in items :: Plain(x)
    decreases items, 0
  {
    hide Received, Plain, Exists;
    if items != [] {
      var front, last := items[..|items| - 1], items[|items| - 1];
      assert items == front + [last];
      ReceivedSameItems(front);
      ReceivedSame(last);
    }
  }

  lemma {:induction false} ReceivedSameFields(fields: seq<Field>)
    requires forall f | f in fields :: Exists(f.value)
    ensures ReceivedFields(fields) == fields <==> forall f | f in fields :: Plain(f.value)
    decreases fields, 0
  {
    hide Received, Plain, Exists;
    if fields != [] {
      var front, last := fields[..|fields| - 1], fields[|fields| - 1];
      assert fields == front + [last];
      ReceivedSameFields(front);
      ReceivedSame(last.value);
    }
  }

  // ---- what decoding can give ------------------------------------------------------------------------------

  lemma {:induction false} InsertHas(fields: seq<Field>, f: Field, g: Field)
    requires g in Insert(fields, f)
    ensures g == f || g in fields
  {
    if fields != [] && f.name != fields[0].name && !Below(f.name, fields[0].name) && g != fields[0] {
      InsertHas(fields[1..], f, g);
    }
  }

  lemma {:induction false} InsertAllHas(found: seq<Field>, g: Field)
    requires g in InsertAll(found)
    ensures g in found
  {
    if found != [] {
      var front := found[..|found| - 1];
      InsertHas(InsertAll(front), found[|found| - 1], g);
      if g != found[|found| - 1] { InsertAllHas(front, g); }
    }
  }

  /** What a decoded field always satisfies. */
  predicate Clean(f: Field) {
    |f.name| < 65536 && ShortNames(f.value) && Plain(f.value)
  }

  lemma ScalarClean(ty: nat, d: seq<Byte>)
    requires ScalarOf(ty, d).Some? && ScalarOf(ty, d).value.Ok?
    ensures ShortNames(ScalarOf(ty, d).value.value) && Plain(ScalarOf(ty, d).value.value)
  {
    SpanValues();
    FromBeBound(d);
  }

  lemma ContainersClean(found: seq<Field>)
    requires forall f | f in found :: Clean(f)
    ensures Plain(Arr(ValuesOf(found))) && ShortNames(Arr(ValuesOf(found)))
    ensures Plain(Obj(InsertAll(found))) && ShortNames(Obj(InsertAll(found)))
  {
    forall x | x in ValuesOf(found)
      ensures Plain(x) && ShortNames(x)
    {
      var i :| 0 <= i < |found| && ValuesOf(found)[i] == x;
      assert found[i] in found;
    }
    forall g | g in InsertAll(found)
      ensures Clean(g)
    {
      InsertAllHas(found, g);
    }
  }

  lemma {:induction false} DecodedClean(a: Attr, depth: nat)
    requires depth <= MAX_DEPTH && DecodeAt(a, depth).Ok?
    ensures Clean(DecodeAt(a, depth).value)
    decreases MAX_DEPTH - depth, 0
  {
    hide FieldsAt, FromBe, InsertAll;
    SpanValues();
    FromBeBound(a.data[..2]);
    var hdr := Align(2 + NameLen(a.data) + 1);
    var d := a.data[hdr..];
    if a.id == ARRAY || a.id == TABLE {
      var found := FieldsAt(d, depth + 1).value;
      FieldsClean(d, depth + 1);
      ContainersClean(found);
    } else {
      ScalarClean(a.id, d);
    }
  }

  lemma {:induction false} FieldsClean(buf: seq<Byte>, depth: nat)
    requires depth <= MAX_DEPTH && FieldsAt(buf, depth).Ok?
    ensures forall f | f in FieldsAt(buf, depth).value :: Clean(f)
    decreases MAX_DEPTH - depth, 2, 0
  {
    AllClean(ParseAttrs(buf).value, depth);
  }

  lemma {:induction false} AllClean(attrs: seq<Attr>, depth: nat)
    requires depth <= MAX_DEPTH && DecodeAll(attrs, depth).Ok?
    ensures forall f | f in DecodeAll(attrs, depth).value :: Clean(f)
    decreases MAX_DEPTH - depth, 1, |attrs|
  {
    hide DecodeAt, Clean;
    if attrs != [] {
      AllClean(attrs[..|attrs| - 1], depth);
      DecodedClean(attrs[|attrs| - 1], depth);
    }
  }

  // ---- values too large for the wire -------------------------------------------------------------------------

  /** A lower bound of the bytes that a value must have come from. */
  function Weight(v: Json): nat {
    match v
    case Str(s) => |s|
    case Arr(items) => WeightOfItems(items)
    case Obj(fields) => WeightOfFields(fields)
    case _ => 0
  }

  function WeightOfItems(items: seq<Json>): nat {
    if items == [] then 0 else WeightOfItems(items[..|items| - 1]) + 4 + Weight(items[|items| - 1])
  }

  function FieldWeight(f: Field): nat { |f.name| + Weight(f.value) }

  function WeightOfFields(fields: seq<Field>): nat {
    if fields == [] then 0 else WeightOfFields(fields[..|fields| - 1]) + 4 + FieldWeight(fields[|fields| - 1])
  }

  // -- decoded values are light

  lemma {:induction false} WeightJoins(a: seq<Field>, b: seq<Field>)
    ensures WeightOfFields(a + b) == WeightOfFields(a) + WeightOfFields(b)
    decreases |b|
  {
    hide FieldWeight;
    if b == [] {
      assert a + b == a;
    } else {
      assert (a + b)[..|a + b| - 1] == a + b[..|b| - 1];
      WeightJoins(a, b[..|b| - 1]);
    }
  }

  lemma WeightOfOne(f: Field)
    ensures WeightOfFields([f]) == 4 + FieldWeight(f)
  {
    hide FieldWeight;
    assert [f][..0] == [];
  }

  lemma {:induction false} InsertWeight(fields: seq<Field>, f: Field)
    ensures WeightOfFields(Insert(fields, f)) <= WeightOfFields(fields) + 4 + FieldWeight(f)
  {
    hide FieldWeight, WeightOfFields;
    WeightOfOne(f);
    if fields == [] {
      NoWeight();
    } else {
      var head, tail := fields[0], fields[1..];
      assert fields == [head] + tail;
      WeightJoins([head], tail);
      WeightOfOne(head);
      WeightJoins([f], tail);
      WeightJoins([f], fields);
      InsertWeight(tail, f);
      WeightJoins([head], Insert(tail, f));
    }
  }

  lemma NoWeight()
    ensures WeightOfFields([]) == 0
  {
  }

  lemma {:induction false} InsertAllWeight(found: seq<Field>)
    ensures WeightOfFields(InsertAll(found)) <= WeightOfFields(found)
  {
    if found != [] {
      InsertAllWeight(found[..|found| - 1]);
      InsertWeight(InsertAll(found[..|found| - 1]), found[|found| - 1]);
    }
  }

  lemma {:induction false} ValuesWeight(found: seq<Field>)
    ensures WeightOfItems(ValuesOf(found)) <= WeightOfFields(found)
  {
    if found != [] {
      var front := found[..|found| - 1];
      assert ValuesOf(found)[..|found| - 1] == ValuesOf(front);
      ValuesWeight(front);
    }
  }

  /** The bytes that a list of attributes takes up at least. */
  function Bulk(attrs: seq<Attr>): nat {
    if attrs == [] then 0 else Bulk(attrs[..|attrs| - 1]) + 4 + |attrs[|attrs| - 1].data|
  }

  lemma {:induction false} BulkJoins(a: Attr, rest: seq<Attr>)
    ensures Bulk([a] + rest) == 4 + |a.data| + Bulk(rest)
    decreases |rest|
  {
    if rest == [] {
      assert [a] + rest == [a] && [a][..0] == [];
    } else {
      assert ([a] + rest)[..|rest|] == [a] + rest[..|rest| - 1];
      BulkJoins(a, rest[..|rest| - 1]);
    }
  }

  lemma {:induction false} ParsedBulk(buf: seq<Byte>)
    requires ParseAttrs(buf).Ok?
    ensures Bulk(ParseAttrs(buf).value) <= |buf|
    ensures forall a | a in ParseAttrs(buf).value :: |a.data| <= LEN_MASK
    decreases |buf|
  {
    hide Bulk, FromBe;
    if buf == [] {
      NoBulk();
    } else {
      var (a, rest) := NextAttr(buf).value;
      ParsedBulk(rest);
      BulkJoins(a, ParseAttrs(rest).value);
    }
  }

  lemma NoBulk()
    ensures Bulk([]) == 0
  {
  }

  lemma {:induction false} DecodedWeight(a: Attr, depth: nat)
    requires depth <= MAX_DEPTH && DecodeAt(a, depth).Ok?
    ensures FieldWeight(DecodeAt(a, depth).value) <= |a.data|
    decreases MAX_DEPTH - depth, 0
  {
    hide FieldsAt, FromBe, InsertAll, ValuesOf;
    var d := a.data[Align(2 + NameLen(a.data) + 1)..];
    if a.id == ARRAY || a.id == TABLE {
      var found := FieldsAt(d, depth + 1).value;
      FieldsWeight(d, depth + 1);
      InsertAllWeight(found);
      ValuesWeight(found);
    }
  }

  lemma {:induction false} FieldsWeight(buf: seq<Byte>, depth: nat)
    requires depth <= MAX_DEPTH && FieldsAt(buf, depth).Ok?
    ensures WeightOfFields(FieldsAt(buf, depth).value) <= |buf|
    decreases MAX_DEPTH - depth, 2, 0
  {
    hide DecodeAll, ParseAttrs;
    ParsedBulk(buf);
    AllWeight(ParseAttrs(buf).value, depth);
  }

  lemma {:induction false} AllWeight(attrs: seq<Attr>, depth: nat)
    requires depth <= MAX_DEPTH && DecodeAll(attrs, depth).Ok?
    ensures WeightOfFields(DecodeAll(attrs, depth).value) <= Bulk(attrs)
    decreases MAX_DEPTH - depth, 1, |attrs|
  {
    hide DecodeAt, FieldWeight;
    if attrs != [] {
      AllWeight(attrs[..|attrs| - 1], depth);
      DecodedWeight(attrs[|attrs| - 1], depth);
    }
  }

  /** No field that is decoded from a message weighs more than an attribute can hold. */
  lemma {:induction false} FieldsLight(attrs: seq<Attr>, depth: nat)
    requires depth <= MAX_DEPTH && DecodeAll(attrs, depth).Ok? && forall a | a in attrs :: |a.data| <= LEN_MASK
    ensures forall f | f in DecodeAll(attrs, depth).value :: FieldWeight(f) <= LEN_MASK
    decreases |attrs|
  {
    hide DecodeAt, FieldWeight;
    if attrs != [] {
      FieldsLight(attrs[..|attrs| - 1], depth);
      DecodedWeight(attrs[|attrs| - 1], depth);
    }
  }

  // -- values whose attributes are too long are heavy

  lemma PutBound(name: seq<Byte>, v: Json, n: nat)
    requires Exists(v) && PutValue(name, v).Some? && |DataOf(v).value| <= n
    ensures |PutValue(name, v).value| <= |name| + n + 16
  {
    hide DataOf, TypeOf, Exists, Be;
  }

  lemma {:induction false} DataBound(v: Json)
    requires Exists(v) && DataOf(v).Some?
    ensures |DataOf(v).value| <= 8 + 6 * Weight(v)
    decreases v, 1
  {
    match v
    case Arr(items) => ItemsBound(items);
    case Obj(fields) => FieldsBound(fields);
    case _ =>
  }

  lemma {:induction false} ItemsBound(items: seq<Json>)
    requires (forall x | x in items :: Exists(x)) && PutItems(items).Some?
    ensures |PutItems(items).value| <= 6 * WeightOfItems(items)
    decreases items, 0
  {
    hide Exists, DataOf, Weight;
    if items != [] {
      var front, last := items[..|items| - 1], items[|items| - 1];
      assert last in items;
      ItemsBound(front);
      DataBound(last);
      PutBound([], last, 8 + 6 * Weight(last));
    }
  }

  lemma {:induction false} FieldsBound(fields: seq<Field>)
    requires (forall f | f in fields :: Exists(f.value)) && PutFields(fields).Some?
    ensures |PutFields(fields).value| <= 6 * WeightOfFields(fields)
    decreases fields, 0
  {
    hide Exists, DataOf, Weight;
    if fields != [] {
      var front, last := fields[..|fields| - 1], fields[|fields| - 1];
      assert last in fields;
      FieldsBound(front);
      DataBound(last.value);
      PutBound(last.name, last.value, 8 + 6 * Weight(last.value));
    }
  }

  lemma {:induction false} ItemWeighs(items: seq<Json>, x: Json)
    requires x in items
    ensures Weight(x) <= WeightOfItems(items)
  {
    hide Weight;
    if x != items[|items| - 1] { ItemWeighs(items[..|items| - 1], x); }
  }

  lemma {:induction false} FieldWeighs(fields: seq<Field>, f: Field)
    requires f in fields
    ensures FieldWeight(f) <= WeightOfFields(fields)
  {
    hide FieldWeight;
    if f != fields[|fields| - 1] { FieldWeighs(fields[..|fields| - 1], f); }
  }

  lemma PayloadBound(name: seq<Byte>, v: Json)
    requires Exists(v) && DataOf(v).Some?
    ensures HDR_LEN + |Payload(name, DataOf(v).value)| <= 18 + 6 * (|name| + Weight(v))
  {
    DataBound(v);
    hide DataOf, Be;
  }

  /** What the encoder accepts although it does not fit is heavier than an attribute can hold. */
  lemma {:induction false} UnfitIsHeavy(name: seq<Byte>, v: Json)
    requires Exists(v) && DataOf(v).Some? && !Fits(name, v)
    ensures |name| + Weight(v) > LEN_MASK
    decreases v
  {
    PayloadBound(name, v);
    if !FitsInside(v) {
      match v
      case Arr(items) =>
        var x :| x in items && !Fits([], x);
        ItemPut(items, x);
        UnfitIsHeavy([], x);
        ItemWeighs(items, x);
      case Obj(fields) =>
        var f :| f in fields && !Fits(f.name, f.value);
        FieldPut(fields, f);
        UnfitIsHeavy(f.name, f.value);
        FieldWeighs(fields, f);
    }
  }

  lemma {:induction false} ItemPut(items: seq<Json>, x: Json)
    requires (forall y | y in items :: Exists(y)) && PutItems(items).Some? && x in items
    ensures DataOf(x).Some?
  {
    hide Exists, DataOf;
    if x != items[|items| - 1] { ItemPut(items[..|items| - 1], x); }
  }

  lemma {:induction false} FieldPut(fields: seq<Field>, f: Field)
    requires (forall g | g in fields :: Exists(g.value)) && PutFields(fields).Some? && f in fields
    ensures DataOf(f.value).Some?
  {
    hide Exists, DataOf;
    if f != fields[|fields| - 1] { FieldPut(fields[..|fields| - 1], f); }
  }

  // ---- the theorems --------------------------------------------------------------------------------------------

  /** Decoding what was encoded gives what the other side can represent, or the
      nesting is refused: 32 containers inside the object pass, 33 do not. */
  lemma DecodeEncode(fields: seq<Field>)
    requires Exists(Obj(fields)) && ShortNames(Obj(fields)) && FitsInside(Obj(fields))
    requires PutFields(fields).Some?
    ensures DecodeObject(PutFields(fields).value) ==
              if LevelsOfFields(fields) <= 32 then Ok(Received(Obj(fields))) else Err(TooDeep)
  {
    hide Fits;
    RoundFields(fields, 0);
    InsertAscending(ReceivedFields(fields));
  }

  /** The round trip, for every object that the encoder accepts. */
  lemma RoundTripIff(fields: seq<Field>)
    requires Exists(Obj(fields)) && PutFields(fields).Some?
    ensures DecodeObject(PutFields(fields).value) == Ok(Obj(fields)) <==>
              && Plain(Obj(fields)) && ShortNames(Obj(fields)) && FitsInside(Obj(fields))
              && LevelsOfFields(fields) <= 32
  {
    hide FieldsAt, InsertAll, PutFields, FitsInside, Plain, ShortNames;
    var bytes := PutFields(fields).value;
    if ShortNames(Obj(fields)) && FitsInside(Obj(fields)) {
      DecodeEncode(fields);
      ReceivedSame(Obj(fields));
    } else if FieldsAt(bytes, 0).Ok? {
      var found := FieldsAt(bytes, 0).value;
      FieldsClean(bytes, 0);
      ContainersClean(found);
      if !FitsInside(Obj(fields)) { UnfitIsLost(fields, found); }
    }
  }

  lemma UnfitIsLost(fields: seq<Field>, found: seq<Field>)
    requires Exists(Obj(fields)) && PutFields(fields).Some? && !FitsInside(Obj(fields))
    requires FieldsAt(PutFields(fields).value, 0) == Ok(found)
    ensures InsertAll(found) != fields
  {
    hide PutFields, InsertAll, DecodeAll, ParseAttrs, Fits, FieldWeight;
    var attrs := ParseAttrs(PutFields(fields).value).value;
    ParsedBulk(PutFields(fields).value);
    FieldsLight(attrs, 0);
    var f :| f in fields && !Fits(f.name, f.value);
    FieldPut(fields, f);
    UnfitIsHeavy(f.name, f.value);
    assert FieldWeight(f) > LEN_MASK by { HeavyField(f); }
    if f in InsertAll(found) { InsertAllHas(found, f); }
  }

  lemma HeavyField(f: Field)
    requires |f.name| + Weight(f.value) > LEN_MASK
    ensures FieldWeight(f) > LEN_MASK
  {
  }

  // ---- frames ----------------------------------------------------------------------------------------------------

  lemma HeadOfFrame(hdr: MsgHdr, body: seq<Byte>)
    requires HDR_LEN + |body| <= LEN_MASK
    ensures EncodeFrame(hdr, body).Some?
    ensures var f := EncodeFrame(hdr, body).value; var raw := HDR_LEN + |body|;
            |f| >= 12 && DecodeHead(f[..12]) == if raw > 1_048_576 then Err(FrameTooLarge(raw)) else Ok((hdr, raw))
  {
    hide Be, FromBe, HeadWord;
    HeadRound(0, false, body);
    SpanValues();
    BeRound(hdr.no, 2);
    BeRound(hdr.peer, 4);
    var w := Be(HeadWord(0, false, body), 4);
    var raw := HDR_LEN + |body|;
    var rest := body + Zeros(Align(raw) - raw);
    assert w + body + Zeros(Align(raw) - raw) == w + rest;
    FrameParts([hdr.version, hdr.msgType], Be(hdr.no, 2), Be(hdr.peer, 4), w, rest);
  }

  lemma FrameParts(a: seq<Byte>, b: seq<Byte>, c: seq<Byte>, w: seq<Byte>, rest: seq<Byte>)
    requires |a| == 2 && |b| == 2 && |c| == 4 && |w| == 4
    ensures var head := (a + b + c + (w + rest))[..12];
            |head| == 12 && head[0] == a[0] && head[1] == a[1] && head[2..4] == b && head[4..8] == c && head[8..12] == w
  {
    var head := (a + b + c + (w + rest))[..12];
    assert head == a + b + c + w;
  }

  lemma BodyOfFrame(hdr: MsgHdr, body: seq<Byte>)
    requires EncodeFrame(hdr, body).Some?
    ensures var f := EncodeFrame(hdr, body).value;
            |f| >= 12 + |body| && f[12..12 + |body|] == body && f[12 + |body|..] == Zeros(Align(|body|) - |body|)
  {
    hide Be, HeadWord;
  }

  /** A frame read back from a stream is the frame that was written. What remains in
      the stream is the rest, exactly when the body is a whole number of words. */
  lemma FrameRound(hdr: MsgHdr, body: seq<Byte>, rest: seq<Byte>)
    requires 4 + |body| <= 1_048_576
    ensures EncodeFrame(hdr, body).Some?
    ensures var r := ReadFrame(EncodeFrame(hdr, body).value + rest);
            && r.Some? && r.value.Ok? && r.value.value.0 == Frame(hdr, body)
            && r.value.value.1 == Zeros(Align(|body|) - |body|) + rest
            && (r.value.value.1 == rest <==> |body| % 4 == 0)
  {
    hide EncodeFrame, DecodeHead;
    HeadOfFrame(hdr, body);
    BodyOfFrame(hdr, body);
    var f := EncodeFrame(hdr, body).value;
    var stream := f + rest;
    var end := 12 + |body|;
    assert stream[..12] == f[..12];
    assert stream[12..end] == f[12..end];
    assert stream[end..] == f[end..] + rest;
    if |body| % 4 == 0 {
      assert Zeros(Align(|body|) - |body|) + rest == rest;
    } else {
      assert |Zeros(Align(|body|) - |body|) + rest| > |rest|;
    }
  }

  /** A frame longer than a megabyte can be written, and is refused by the reader before its body. */
  lemma LargeFrameRefused(hdr: MsgHdr, body: seq<Byte>, rest: seq<Byte>)
    requires 1_048_576 < 4 + |body| <= 0xff_ffff
    ensures EncodeFrame(hdr, body).Some?
    ensures ReadFrame(EncodeFrame(hdr, body).value + rest) == Some(Err(FrameTooLarge(4 + |body|)))
  {
    hide EncodeFrame, DecodeHead;
    HeadOfFrame(hdr, body);
    var f := EncodeFrame(hdr, body).value;
    assert (f + rest)[..12] == f[..12];
  }

  function WriteAll(frames: seq<Frame>): seq<Byte>
    requires forall f | f in frames :: EncodeFrame(f.hdr, f.body).Some?
  {
    if frames == [] then [] else EncodeFrame(frames[0].hdr, frames[0].body).value + WriteAll(frames[1..])
  }

  /** Reads frames until the stream ends inside one or breaks the format. */
  function ReadAll(stream: seq<Byte>): seq<Frame>
    decreases |stream|
  {
    var r := ReadFrame(stream);
    if r.Some? && r.value.Ok? then [r.value.value.0] + ReadAll(r.value.value.1) else []
  }

  /** Frames with attributes in them follow each other in a stream and come out again. */
  lemma {:induction false} StreamRound(frames: seq<Frame>)
    requires forall f | f in frames :: HDR_LEN + |f.body| <= MAX_MSGLEN && |f.body| % 4 == 0
    ensures forall f | f in frames :: EncodeFrame(f.hdr, f.body).Some?
    ensures ReadAll(WriteAll(frames)) == frames
  {
    hide EncodeFrame, ReadFrame;
    forall f | f in frames
      ensures EncodeFrame(f.hdr, f.body).Some?
    {
      FrameRound(f.hdr, f.body, []);
    }
    if frames == [] {
      NoFrame();
    } else {
      StreamRound(frames[1..]);
      FrameRound(frames[0].hdr, frames[0].body, WriteAll(frames[1..]));
    }
  }

  lemma NoFrame()
    ensures ReadFrame([]).None?
  {
  }

  lemma AttrsAreWords(id: nat, extended: bool, payload: seq<Byte>)
    ensures var b := PutAttr(id, extended, payload); b.Some? ==> |b.value| % 4 == 0
  {
  }

  /** Bodies made of attributes are whole words, so frames follow each other in a stream. */
  lemma {:induction false} BodiesAreWords(fields: seq<Field>)
    requires forall f | f in fields :: Exists(f.value)
    requires PutFields(fields).Some?
    ensures |PutFields(fields).value| % 4 == 0
  {
    hide PutAttr, DataOf, Payload;
    if fields != [] {
      var last := fields[|fields| - 1];
      BodiesAreWords(fields[..|fields| - 1]);
      AttrsAreWords(TypeOf(last.value), true, Payload(last.name, DataOf(last.value).value));
    }
  }
}
