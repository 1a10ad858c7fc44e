/** JSON values. Strings are their bytes; a double is its bit pattern. */
module Json {
  import opened Common

  type Byte = x: int | 0 <= x < 256

  datatype Json =
    | Null
    | Bool(b: bool)
    | Int(i: int)
    | Double(bits: nat)
    | Str(bytes: seq<Byte>)
    | Arr(items: seq<Json>)
    | Obj(fields: seq<Field>)

  datatype Field = Field(name: seq<Byte>, value: Json)

  /** A C string: the bytes before the first NUL. */
  function UpToNul(s: seq<Byte>): (r: seq<Byte>)
    ensures |r| <= |s| && 0 !in r
  {
    if s == [] || s[0] == 0 then [] else [s[0]] + UpToNul(s[1..])
  }
}
