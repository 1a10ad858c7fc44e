/** The blob / blobmsg wire format of `ubus/blob.rs`: aligned attributes with a
    24-bit length, named values inside them, nested tables and arrays with a
    depth limit, and the ubus frame head. `UbusBlobLaws` proves the round trip and
    `UbusBlobCoder` does the appending and the looping. */
module UbusBlob {
  import opened Common
  import opened Json

  const ID_UNIT: nat := 0x100_0000
  const LEN_MASK: nat := 0xff_ffff
  const EXTENDED: nat := 0x8000_0000
  const HDR_LEN: nat := 4
  const MAX_DEPTH: nat := 32
  const MSGHDR_LEN: nat := 8
  const MAX_MSGLEN: nat := 1_048_576

  const I16_SPAN: int := 0x8000
  const I32_SPAN: int := 0x8000_0000
  const I64_SPAN: int := 0x8000_0000_0000_0000

  const UNSPEC: nat := 0
  const ARRAY: nat := 1
  const TABLE: nat := 2
  const STRING: nat := 3
  const INT64: nat := 4
  const INT32: nat := 5
  const INT16: nat := 6
  const INT8: nat := 7
  const DOUBLE: nat := 8

  datatype BlobError =
    | TruncatedHeader | ShorterThanHeader | LongerThanContainer
    | NotExtended | TruncatedName | NameTooLong | TooDeep
    | WrongLength(ty: nat, len: nat) | UnknownType(ty: nat)
    | FrameTooShort | FrameTooLarge(len: nat)

  datatype Attr = Attr(id: nat, extended: bool, data: seq<Byte>)

  // ---- bytes ------------------------------------------------------------------------

  function Align(n: nat): (r: nat)
    ensures n <= r < n + 4 && r % 4 == 0
  {
    (n + 3) / 4 * 4
  }

  function Zeros(n: nat): (r: seq<Byte>)
    ensures |r| == n
  {
    seq(n, _ => 0)
  }

  /** `n` in `k` bytes, big end first; higher bytes are dropped. */
  function Be(n: nat, k: nat): (r: seq<Byte>)
    ensures |r| == k
  {
    if k == 0 then [] else Be(n / 256, k - 1) + [n % 256]
  }

  function FromBe(s: seq<Byte>): nat {
    if s == [] then 0 else FromBe(s[..|s| - 1]) * 256 + s[|s| - 1]
  }

  /** Two's complement, both ways; `half` is the number of non-negative values. */
  function Twos(i: int, half: nat): nat
    requires 0 <= i + half
  {
    if i < 0 then i + 2 * half else i
  }

  function FromTwos(n: nat, half: nat): int {
    if n < half then n else n - 2 * half
  }

  // ---- attributes ------------------------------------------------------------------

  /** The head word of an attribute; the length wraps at 32 bits before it is checked. */
  function AttrFits(id: nat, payload: seq<Byte>): bool {
    (HDR_LEN + |payload|) % 0x1_0000_0000 <= LEN_MASK && id <= 0x7f
  }

  function HeadWord(id: nat, extended: bool, payload: seq<Byte>): nat {
    id * ID_UNIT + (HDR_LEN + |payload|) % 0x1_0000_0000 + if extended then EXTENDED else 0
  }

  /** `None` is the source's panic on an attribute that is too large. */
  function PutAttr(id: nat, extended: bool, payload: seq<Byte>): Option<seq<Byte>> {
    if !AttrFits(id, payload) then None
    else
      var raw := HDR_LEN + |payload|;
      Some(Be(HeadWord(id, extended, payload), 4) + payload + Zeros(Align(raw) - raw))
  }

  /** The first attribute of a buffer that is not empty, and what follows its padding. */
  function NextAttr(buf: seq<Byte>): (r: Outcome<(Attr, seq<Byte>), BlobError>)
    requires buf != []
    ensures r.Ok? ==> |r.value.1| < |buf|
  {
    if |buf| < HDR_LEN then Err(TruncatedHeader)
    else
      var w := FromBe(buf[..HDR_LEN]);
      var raw := w % ID_UNIT;
      if raw < HDR_LEN then Err(ShorterThanHeader)
      else if raw > |buf| then Err(LongerThanContainer)
      else Ok((Attr(w / ID_UNIT % 128, w >= EXTENDED, buf[HDR_LEN..raw]), buf[Min(Align(raw), |buf|)..]))
  }

  /** The attributes in a buffer; the last one may lack its padding. */
  function ParseAttrs(buf: seq<Byte>): Outcome<seq<Attr>, BlobError>
    decreases |buf|
  {
    if buf == [] then Ok([])
    else
      match NextAttr(buf)
      case Err(e) => Err(e)
      case Ok((a, rest)) =>
        match ParseAttrs(rest)
        case Ok(more) => Ok([a] + more)
        case Err(e) => Err(e)
  }

  // ---- values to bytes ---------------------------------------------------------------


  /** The double nearest to an integer between 2^63 and 2^64, ties to even. The carry
      out of the mantissa runs into the exponent, as it should. */
  function BitsOfLarge(i: nat): nat
    requires I64_SPAN <= i < 2 * I64_SPAN
  {
    var d := i - I64_SPAN;
    var q := d / 2048;
    var up := d % 2048 > 1024 || (d % 2048 == 1024 && q % 2 == 1);
    0x43E0_0000_0000_0000 + q + if up then 1 else 0
  }

  /** A double that is neither infinite nor a NaN. */
  predicate Finite(bits: nat) {
    bits < 2 * I64_SPAN && bits / 0x10_0000_0000_0000 % 2048 != 2047
  }

  predicate Below(a: seq<Byte>, b: seq<Byte>) {
    b != [] && (a == [] || a[0] < b[0] || (a[0] == b[0] && Below(a[1..], b[1..])))
  }

  predicate Ascending(fields: seq<Field>) {
    forall i, j :: 0 <= i < j < |fields| ==> Below(fields[i].name, fields[j].name)
  }

  /** The values that exist in the source: 64-bit numbers, finite doubles, objects
      that are maps sorted by name. */
  predicate Exists(v: Json) {
    match v
    case Int(i) => -I64_SPAN <= i < 2 * I64_SPAN
    case Double(bits) => Finite(bits)
    case Arr(items) => forall x | x in items :: Exists(x)
    case Obj(fields) => Ascending(fields) && forall f | f in fields :: Exists(f.value)
    case _ => true
  }

  function TypeOf(v: Json): nat {
    match v
    case Null => UNSPEC
    case Bool(_) => INT8
    case Int(i) => if -I32_SPAN <= i < I32_SPAN then INT32 else if -I64_SPAN <= i < I64_SPAN then INT64 else DOUBLE
    case Double(_) => DOUBLE
    case Str(_) => STRING
    case Arr(_) => ARRAY
    case Obj(_) => TABLE
  }

  function Payload(name: seq<Byte>, data: seq<Byte>): seq<Byte> {
    Be(|name| % 65536, 2) + name + Zeros(Align(2 + |name| + 1) - 2 - |name|) + data
  }

  /** The bytes of a value without its name. */
  function DataOf(v: Json): Option<seq<Byte>>
    requires Exists(v)
    decreases v, 0
  {
    match v
    case Null => Some([])
    case Bool(b) => Some([if b then 1 else 0])
    case Int(i) =>
      if -I32_SPAN <= i < I32_SPAN then Some(Be(Twos(i, I32_SPAN), 4))
      else if -I64_SPAN <= i < I64_SPAN then Some(Be(Twos(i, I64_SPAN), 8))
      else Some(Be(BitsOfLarge(i), 8))
    case Double(bits) => Some(Be(bits, 8))
    case Str(s) => Some(s + [0])
    case Arr(items) => PutItems(items)
    case Obj(fields) => PutFields(fields)
  }

  function PutValue(name: seq<Byte>, v: Json): Option<seq<Byte>>
    requires Exists(v)
    decreases v, 1
  {
    match DataOf(v)
    case None => None
    case Some(data) => PutAttr(TypeOf(v), true, Payload(name, data))
  }

  function Join(a: Option<seq<Byte>>, b: Option<seq<Byte>>): Option<seq<Byte>> {
    if a.Some? && b.Some? then Some(a.value + b.value) else None
  }

  function PutItems(items: seq<Json>): Option<seq<Byte>>
    requires forall x | x in items :: Exists(x)
    decreases items, 0
  {
    if items == [] then Some([])
    else Join(PutItems(items[..|items| - 1]), PutValue([], items[|items| - 1]))
  }

  /** `blobmsg_table`. */
  function PutFields(fields: seq<Field>): Option<seq<Byte>>
    requires forall f | f in fields :: Exists(f.value)
    decreases fields, 0
  {
    if fields == [] then Some([])
    else
      var f := fields[|fields| - 1];
      Join(PutFields(fields[..|fields| - 1]), PutValue(f.name, f.value))
  }

  // ---- bytes to values -----------------------------------------------------------------

  function NameLen(p: seq<Byte>): nat
    requires |p| >= 3
  {
    FromBe(p[..2])
  }

  /** The values without containers; `None` is a type that is none of them. */
  function ScalarOf(ty: nat, d: seq<Byte>): Option<Outcome<Json, BlobError>> {
    if ty == UNSPEC then Some(Ok(Null))
    else if ty == STRING then Some(Ok(Str(UpToNul(d))))
    else if ty == INT64 then Some(if |d| == 8 then Ok(Int(FromTwos(FromBe(d), I64_SPAN))) else Err(WrongLength(ty, |d|)))
    else if ty == INT32 then Some(if |d| == 4 then Ok(Int(FromTwos(FromBe(d), I32_SPAN))) else Err(WrongLength(ty, |d|)))
    else if ty == INT16 then Some(if |d| == 2 then Ok(Int(FromTwos(FromBe(d), I16_SPAN))) else Err(WrongLength(ty, |d|)))
    else if ty == INT8 then Some(if |d| == 1 then Ok(Bool(d[0] != 0)) else Err(WrongLength(ty, |d|)))
    else if ty == DOUBLE then
      Some(if |d| != 8 then Err(WrongLength(ty, |d|))
           else if Finite(FromBe(d)) then Ok(Double(FromBe(d))) else Ok(Null))
    else None
  }

  /** Map insertion: sorted by name, a repeated name replaces the value. */
  function Insert(fields: seq<Field>, f: Field): seq<Field> {
    if fields == [] then [f]
    else if f.name == fields[0].name then [f] + fields[1..]
    else if Below(f.name, fields[0].name) then [f] + fields
    else [fields[0]] + Insert(fields[1..], f)
  }

  function InsertAll(found: seq<Field>): seq<Field> {
    if found == [] then [] else Insert(InsertAll(found[..|found| - 1]), found[|found| - 1])
  }

  function ValuesOf(found: seq<Field>): seq<Json> {
    seq(|found|, i requires 0 <= i < |found| => found[i].value)
  }

  /** `depth` counts the containers around this attribute. */
  function DecodeAt(a: Attr, depth: nat): Outcome<Field, BlobError>
    requires depth <= MAX_DEPTH
    decreases MAX_DEPTH - depth, 0
  {
    if !a.extended then Err(NotExtended)
    else if |a.data| < 3 then Err(TruncatedName)
    else
      var hdr := Align(2 + NameLen(a.data) + 1);
      if hdr > |a.data| then Err(NameTooLong)
      else
        var name := a.data[2..2 + NameLen(a.data)];
        var d := a.data[hdr..];
        if a.id == ARRAY || a.id == TABLE then
          if depth >= MAX_DEPTH then Err(TooDeep)
          else
            match FieldsAt(d, depth + 1)
            case Err(e) => Err(e)
            case Ok(found) => Ok(Field(name, if a.id == ARRAY then Arr(ValuesOf(found)) else Obj(InsertAll(found))))
        else
          match ScalarOf(a.id, d)
          case None => Err(UnknownType(a.id))
          case Some(Err(e)) => Err(e)
          case Some(Ok(v)) => Ok(Field(name, v))
  }

  /** All fields of a buffer in their order; the first error wins. */
  function FieldsAt(buf: seq<Byte>, depth: nat): Outcome<seq<Field>, BlobError>
    requires depth <= MAX_DEPTH
    decreases MAX_DEPTH - depth, 2, 0
  {
    match ParseAttrs(buf)
    case Err(e) => Err(e)
    case Ok(attrs) => DecodeAll(attrs, depth)
  }

  function DecodeAll(attrs: seq<Attr>, depth: nat): Outcome<seq<Field>, BlobError>
    requires depth <= MAX_DEPTH
    decreases MAX_DEPTH - depth, 1, |attrs|
  {
    if attrs == [] then Ok([])
    else
      match DecodeAll(attrs[..|attrs| - 1], depth)
      case Err(e) => Err(e)
      case Ok(front) =>
        match DecodeAt(attrs[|attrs| - 1], depth)
        case Err(e) => Err(e)
        case Ok(f) => Ok(front + [f])
  }

  /** `blobmsg_object`. */
  function DecodeObject(buf: seq<Byte>): Outcome<Json, BlobError> {
    match FieldsAt(buf, 0)
    case Err(e) => Err(e)
    case Ok(found) => Ok(Obj(InsertAll(found)))
  }

  // ---- frames ----------------------------------------------------------------------------

  type U16 = x: int | 0 <= x < 65536
  type U32 = x: int | 0 <= x < 0x1_0000_0000

  datatype MsgHdr = MsgHdr(version: Byte, msgType: Byte, no: U16, peer: U32)

  datatype Frame = Frame(hdr: MsgHdr, body: seq<Byte>)

  function EncodeFrame(hdr: MsgHdr, body: seq<Byte>): Option<seq<Byte>> {
    match PutAttr(0, false, body)
    case None => None
    case Some(blob) => Some([hdr.version, hdr.msgType] + Be(hdr.no, 2) + Be(hdr.peer, 4) + blob)
  }

  /** The head and the raw length of the blob after it. */
  function DecodeHead(head: seq<Byte>): Outcome<(MsgHdr, nat), BlobError>
    requires |head| == MSGHDR_LEN + HDR_LEN
  {
    var raw := FromBe(head[8..12]) % ID_UNIT;
    if raw < HDR_LEN then Err(FrameTooShort)
    else if raw > MAX_MSGLEN then Err(FrameTooLarge(raw))
    else
      var no, peer := FromBe(head[2..4]), FromBe(head[4..8]);
      Ok((MsgHdr(head[0], head[1], no % 65536, peer % 0x1_0000_0000), raw))
  }

  /** What reading one frame from a stream gives: the frame and the bytes left in
      the stream. `None` means the stream ends inside the frame. */
  function ReadFrame(stream: seq<Byte>): Option<Outcome<(Frame, seq<Byte>), BlobError>> {
    if |stream| < MSGHDR_LEN + HDR_LEN then None
    else
      match DecodeHead(stream[..12])
      case Err(e) => Some(Err(e))
      case Ok((hdr, raw)) =>
        if |stream| < MSGHDR_LEN + raw then None
        else Some(Ok((Frame(hdr, stream[12..MSGHDR_LEN + raw]), stream[MSGHDR_LEN + raw..])))
  }
}
