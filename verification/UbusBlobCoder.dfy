/** The coder as `ubus/blob.rs` runs it: encoders append to a growing buffer, the
    parser and the object decoder loop. */
module UbusBlobCoder {
  import opened Common
  import opened Json
  import opened UbusBlob
  import opened UbusBlobLaws
  import opened UbusBlobMeaning

  class Buffer {
    var bytes: seq<Byte>

    constructor ()
      ensures bytes == []
    {
      bytes := [];
    }

    /** Appends one attribute; `false` stands for the panic on one that is too large. */
    method Attribute(id: nat, extended: bool, payload: seq<Byte>) returns (ok: bool)
      modifies this
      ensures ok == PutAttr(id, extended, payload).Some?
      ensures bytes == old(bytes) + if ok then PutAttr(id, extended, payload).value else []
    {
      var raw := HDR_LEN + |payload|;
      var wrapped := raw % 0x1_0000_0000;
      if !(wrapped <= LEN_MASK && id <= 0x7f) { return false; }
      var word := id * ID_UNIT + wrapped;
      if extended { word := word + EXTENDED; }
      bytes := bytes + Be(word, 4);
      bytes := bytes + payload;
      bytes := bytes + Zeros(Align(raw) - raw);
      return true;
    }

    /** `blobmsg_put_raw`. */
    method Named(ty: nat, name: seq<Byte>, data: seq<Byte>) returns (ok: bool)
      modifies this
      ensures ok == PutAttr(ty, true, Payload(name, data)).Some?
      ensures bytes == old(bytes) + if ok then PutAttr(ty, true, Payload(name, data)).value else []
    {
      var hdr := Align(2 + |name| + 1);
      var p := Be(|name| % 65536, 2);
      p := p + name;
      p := p + Zeros(hdr - |p|);
      p := p + data;
      ok := Attribute(ty, true, p);
    }

    /** `blobmsg_put_json`. */
    method Value(name: seq<Byte>, v: Json) returns (ok: bool)
      requires Exists(v)
      modifies this
      ensures ok == PutValue(name, v).Some?
      ensures ok ==> bytes == old(bytes) + PutValue(name, v).value
      decreases v, 1
    {
      match v {
        case Null => ok := Named(UNSPEC, name, []);
        case Bool(b) => ok := Named(INT8, name, [if b then 1 else 0]);
        case Int(i) =>
          if -I32_SPAN <= i < I32_SPAN {
            ok := Named(INT32, name, Be(Twos(i, I32_SPAN), 4));
          } else if -I64_SPAN <= i < I64_SPAN {
            ok := Named(INT64, name, Be(Twos(i, I64_SPAN), 8));
          } else {
            ok := Named(DOUBLE, name, Be(BitsOfLarge(i), 8));
          }
        case Double(bits) => ok := Named(DOUBLE, name, Be(bits, 8));
        case Str(s) => ok := Named(STRING, name, s + [0]);
        case Arr(items) =>
          var inner := new Buffer();
          ok := inner.Items(items);
          if ok { ok := Named(ARRAY, name, inner.bytes); }
        case Obj(fields) =>
          var inner := new Buffer();
          ok := inner.Table(fields);
          if ok { ok := Named(TABLE, name, inner.bytes); }
      }
    }

    method Items(items: seq<Json>) returns (ok: bool)
      requires bytes == [] && forall x | x in items :: Exists(x)
      modifies this
      ensures ok == PutItems(items).Some?
      ensures ok ==> bytes == PutItems(items).value
      decreases items, 0
    {
      var i := 0;
      ok := true;
      while i < |items|
        invariant i <= |items|
        invariant ok == PutItems(items[..i]).Some?
        invariant ok ==> bytes == PutItems(items[..i]).value
      {
        assert items[..i + 1][..i] == items[..i];
        var more := Value([], items[i]);
        ok := ok && more;
        i := i + 1;
      }
      assert items[..i] == items;
    }

    /** `blobmsg_table`. */
    method Table(fields: seq<Field>) returns (ok: bool)
      requires bytes == [] && forall f | f in fields :: Exists(f.value)
      modifies this
      ensures ok == PutFields(fields).Some?
      ensures ok ==> bytes == PutFields(fields).value
      decreases fields, 0
    {
      var i := 0;
      ok := true;
      while i < |fields|
        invariant i <= |fields|
        invariant ok == PutFields(fields[..i]).Some?
        invariant ok ==> bytes == PutFields(fields[..i]).value
      {
        assert fields[..i + 1][..i] == fields[..i];
        var more := Value(fields[i].name, fields[i].value);
        ok := ok && more;
        i := i + 1;
      }
      assert fields[..i] == fields;
    }
  }

  /** `parse_attrs`. */
  method Parse(buf: seq<Byte>) returns (r: Outcome<seq<Attr>, BlobError>)
    ensures r == ParseAttrs(buf)
    ensures r.Ok? ==> Splits(buf, r.value)
  {
    hide Splits, FromBe, Align;
    var out: seq<Attr> := [];
    var rest := buf;
    assert ParseAttrs(buf).Ok? ==> out + ParseAttrs(buf).value == ParseAttrs(buf).value;
    while rest != []
      invariant ParseAttrs(buf) ==
                match ParseAttrs(rest)
                case Ok(more) => Ok(out + more)
                case Err(e) => Err(e)
      decreases |rest|
    {
      if |rest| < HDR_LEN { return Err(TruncatedHeader); }
      var w := FromBe(rest[..HDR_LEN]);
      var raw := w % ID_UNIT;
      if raw < HDR_LEN { return Err(ShorterThanHeader); }
      if raw > |rest| { return Err(LongerThanContainer); }
      var a := Attr(w / ID_UNIT % 128, w >= EXTENDED, rest[HDR_LEN..raw]);
      var after := rest[Min(Align(raw), |rest|)..];
      assert NextAttr(rest) == Ok((a, after));
      assert ParseAttrs(after).Ok? ==> out + ([a] + ParseAttrs(after).value) == (out + [a]) + ParseAttrs(after).value;
      out := out + [a];
      rest := after;
    }
    assert out + [] == out;
    SplitsIsParse(buf, out);
    return Ok(out);
  }

  /** `decode_at`. */
  method Decode(a: Attr, depth: nat) returns (r: Outcome<Field, BlobError>)
    requires depth <= MAX_DEPTH
    ensures r == DecodeAt(a, depth)
    ensures r.Ok? ==> Holds(a, r.value, depth)
    decreases MAX_DEPTH - depth, 0
  {
    hide Holds, FromBe, ScalarOf, InsertAll, FieldsAt, ValuesOf, Contains;
    if !a.extended { return Err(NotExtended); }
    var p := a.data;
    if |p| < 3 { return Err(TruncatedName); }
    var len := FromBe(p[..2]);
    var hdr := Align(2 + len + 1);
    if hdr > |p| { return Err(NameTooLong); }
    var name, d := p[2..2 + len], p[hdr..];
    if a.id == ARRAY || a.id == TABLE {
      if depth >= MAX_DEPTH { return Err(TooDeep); }
      if a.id == ARRAY {
        var items := DecodeArray(d, depth + 1);
        r := if items.Ok? then Ok(Field(name, Arr(items.value))) else Err(items.error);
      } else {
        var fields := DecodeTable(d, depth + 1);
        r := if fields.Ok? then Ok(Field(name, Obj(fields.value))) else Err(fields.error);
      }
    } else {
      r := match ScalarOf(a.id, d) {
        case None => Err(UnknownType(a.id))
        case Some(Err(e)) => Err(e)
        case Some(Ok(v)) => Ok(Field(name, v))
      };
    }
    if r.Ok? { DecodesMeaning(a, r.value, depth); }
  }

  /** `object_at`: inserts each decoded field into the map. */
  method DecodeTable(buf: seq<Byte>, depth: nat) returns (r: Outcome<seq<Field>, BlobError>)
    requires depth <= MAX_DEPTH
    ensures r == match FieldsAt(buf, depth)
                 case Ok(found) => Ok(InsertAll(found))
                 case Err(e) => Err(e)
    ensures r.Ok? ==> exists found :: Contains(buf, found, depth) && MapOf(r.value, found)
    decreases MAX_DEPTH - depth, 2, 0
  {
    hide Holds, Contains, Splits, MapOf, DecodeAt, Insert, ParseAttrs;
    var parsed := Parse(buf);
    if parsed.Err? { return Err(parsed.error); }
    var attrs := parsed.value;
    var m: seq<Field> := [];
    var i := 0;
    while i < |attrs|
      invariant i <= |attrs|
      invariant DecodeAll(attrs[..i], depth).Ok? && m == InsertAll(DecodeAll(attrs[..i], depth).value)
    {
      assert attrs[..i + 1][..i] == attrs[..i];
      ghost var front := DecodeAll(attrs[..i], depth).value;
      var f := Decode(attrs[i], depth);
      if f.Err? {
        FirstErrorWins(attrs, i + 1, depth);
        return Err(f.error);
      }
      assert (front + [f.value])[..|front|] == front;
      m := Insert(m, f.value);
      i := i + 1;
    }
    assert attrs[..i] == attrs;
    TableFound(buf, m, depth);
    return Ok(m);
  }

  /** `array_at`: keeps the values and drops the names. */
  method DecodeArray(buf: seq<Byte>, depth: nat) returns (r: Outcome<seq<Json>, BlobError>)
    requires depth <= MAX_DEPTH
    ensures r == match FieldsAt(buf, depth)
                 case Ok(found) => Ok(ValuesOf(found))
                 case Err(e) => Err(e)
    ensures r.Ok? ==> exists found :: Contains(buf, found, depth) && ItemsOf(r.value, found)
    decreases MAX_DEPTH - depth, 2, 0
  {
    hide Holds, Contains, Splits, DecodeAt, ParseAttrs;
    var parsed := Parse(buf);
    if parsed.Err? { return Err(parsed.error); }
    var attrs := parsed.value;
    var items: seq<Json> := [];
    var i := 0;
    while i < |attrs|
      invariant i <= |attrs|
      invariant DecodeAll(attrs[..i], depth).Ok? && items == ValuesOf(DecodeAll(attrs[..i], depth).value)
    {
      assert attrs[..i + 1][..i] == attrs[..i];
      var f := Decode(attrs[i], depth);
      if f.Err? {
        FirstErrorWins(attrs, i + 1, depth);
        return Err(f.error);
      }
      items := items + [f.value.value];
      i := i + 1;
    }
    assert attrs[..i] == attrs;
    ItemsFound(buf, items, depth);
    return Ok(items);
  }

  lemma ItemsFound(buf: seq<Byte>, items: seq<Json>, depth: nat)
    requires depth <= MAX_DEPTH && FieldsAt(buf, depth).Ok? && items == ValuesOf(FieldsAt(buf, depth).value)
    ensures exists found :: Contains(buf, found, depth) && ItemsOf(items, found)
  {
    hide Contains, FieldsAt;
    var found := FieldsAt(buf, depth).value;
    FieldsMeaning(buf, found, depth);
    assert ItemsOf(items, found);
  }

  lemma TableFound(buf: seq<Byte>, fields: seq<Field>, depth: nat)
    requires depth <= MAX_DEPTH && FieldsAt(buf, depth).Ok? && fields == InsertAll(FieldsAt(buf, depth).value)
    ensures exists found :: Contains(buf, found, depth) && MapOf(fields, found)
  {
    hide Contains, FieldsAt, InsertAll, MapOf;
    var found := FieldsAt(buf, depth).value;
    FieldsMeaning(buf, found, depth);
    MapIs(fields, found);
  }

  lemma {:induction false} FirstErrorWins(attrs: seq<Attr>, n: nat, depth: nat)
    requires depth <= MAX_DEPTH && n <= |attrs| && DecodeAll(attrs[..n], depth).Err?
    ensures DecodeAll(attrs, depth) == DecodeAll(attrs[..n], depth)
    decreases |attrs|
  {
    if n < |attrs| {
      assert attrs[..|attrs| - 1][..n] == attrs[..n];
      FirstErrorWins(attrs[..|attrs| - 1], n, depth);
    } else {
      assert attrs[..n] == attrs;
    }
  }

  /** `encode_frame`. */
  method Frame(hdr: MsgHdr, body: seq<Byte>) returns (r: Option<seq<Byte>>)
    ensures r == EncodeFrame(hdr, body)
  {
    var out := new Buffer();
    out.bytes := [hdr.version, hdr.msgType];
    out.bytes := out.bytes + Be(hdr.no, 2);
    out.bytes := out.bytes + Be(hdr.peer, 4);
    var ok := out.Attribute(0, false, body);
    r := if ok then Some(out.bytes) else None;
  }
}
