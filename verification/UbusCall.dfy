/** The retrying request protocol of `ubus/client.rs`, against a ubusd that may do anything:
    `script` is whatever happens on the connection, and silence is a deadline that passes. The
    functions say what each operation makes of the client and of the script; `UbusClient` performs
    them in place. */
module UbusCall {
  import opened Common
  import opened Json
  import opened UbusBlob

  // ---- vocabulary --------------------------------------------------------------------

  const NOT_FOUND: int := 4
  const METHOD_NOT_FOUND: int := 3
  const HELLO: Byte := 0
  const STATUS: Byte := 1
  const DATA: Byte := 2
  const ATTR_STATUS: nat := 1
  const ATTR_OBJPATH: nat := 2
  const ATTR_OBJID: nat := 3
  const ATTR_DATA: nat := 7

  type Name = seq<Byte>

  datatype Error =
    | InvalidArgument | Timeout(target: Name) | NotFound(target: Name)
    | Status(code: int) | NoData | Io | Protocol

  /** One thing that happens when the client connects, writes or reads. */
  datatype Happening = Silence | Refused | Accepted | Incoming(f: Frame) | Garbage

  datatype Kind = Lookup | Invoke

  /** A request that may have reached ubusd, and the status that was taken as its answer. */
  datatype Sent = Sent(kind: Kind, no: nat, peer: U32, answer: Option<int>)

  datatype Reply = Reply(data: seq<seq<Byte>>, status: int)

  // ---- request numbers ---------------------------------------------------------------------

  function NextNo(no: U16): U16 {
    var n := (no + 1) % 65536;
    if n == 0 then 1 else n
  }

  /** The number of the `k`-th request; 0 is never used. */
  function NumberOf(k: nat): U16 {
    if k == 0 then 0 else (k - 1) % 65535 + 1
  }

  // ---- reading replies -----------------------------------------------------------------------

  /** The last attribute with this id. */
  function Slot(attrs: seq<Attr>, id: nat): Option<Attr> {
    if attrs == [] then None
    else if attrs[|attrs| - 1].id == id then Some(attrs[|attrs| - 1])
    else Slot(attrs[..|attrs| - 1], id)
  }

  function U32Of(a: Attr): Option<U32> {
    if |a.data| != 4 then None else Some(FromBe(a.data) % 0x1_0000_0000)
  }

  /** `None` is a reply that breaks the format. */
  function StatusOf(body: seq<Byte>): Option<int> {
    match ParseAttrs(body)
    case Err(_) => None
    case Ok(attrs) =>
      match Slot(attrs, ATTR_STATUS)
      case None => None
      case Some(a) => if U32Of(a).None? then None else Some(FromTwos(U32Of(a).value, I32_SPAN))
  }

  /** The id of `target` in one reply frame to a lookup: `Ok(None)` says that the frame is about another object. */
  function IdIn(body: seq<Byte>, target: Name): Outcome<Option<U32>, Error> {
    match ParseAttrs(body)
    case Err(_) => Err(Protocol)
    case Ok(attrs) =>
      var path, id := Slot(attrs, ATTR_OBJPATH), Slot(attrs, ATTR_OBJID);
      if path.None? || id.None? || UpToNul(path.value.data) != target then Ok(None)
      else if U32Of(id.value).None? then Err(Protocol)
      else Ok(U32Of(id.value))
  }

  function ValueIn(body: seq<Byte>): Outcome<Option<Json>, Error> {
    match ParseAttrs(body)
    case Err(_) => Err(Protocol)
    case Ok(attrs) =>
      match Slot(attrs, ATTR_DATA)
      case None => Ok(None)
      case Some(a) =>
        match DecodeObject(a.data)
        case Err(_) => Err(Protocol)
        case Ok(v) => Ok(Some(v))
  }

  /** The id in the first frame that is about `target`; a frame that breaks the format is an error. */
  function FirstId(data: seq<seq<Byte>>, target: Name): Outcome<U32, Error> {
    if data == [] then Err(NotFound(target))
    else
      match IdIn(data[0], target)
      case Err(e) => Err(e)
      case Ok(Some(id)) => Ok(id)
      case Ok(None) => FirstId(data[1..], target)
  }

  /** The object in the first frame that has one. */
  function FirstValue(data: seq<seq<Byte>>): Outcome<Option<Json>, Error> {
    if data == [] then Ok(None)
    else
      match ValueIn(data[0])
      case Err(e) => Err(e)
      case Ok(Some(v)) => Ok(Some(v))
      case Ok(None) => FirstValue(data[1..])
  }

  // ---- one request --------------------------------------------------------------------------------

  /** `stale` says that a write failed on an old connection, `maybeSent` that an INVOKE of this call
      may have been delivered. */
  datatype Client = Client(
    conn: bool, no: U16, ids: map<Name, U32>, stale: bool, maybeSent: bool, script: seq<Happening>)

  /** The client afterwards, the result, and the requests that may have been delivered. */
  datatype Ans<T> = Ans(c: Client, r: Outcome<T, Error>, d: seq<Sent>)

  function Head(script: seq<Happening>): Happening { if script == [] then Silence else script[0] }

  function Tail(script: seq<Happening>): seq<Happening> { if script == [] then [] else script[1..] }

  function Passed(c: Client): Client { c.(script := Tail(c.script)) }

  function TimedOut(c: Client, target: Name): Client { c.(conn := false, ids := c.ids - {target}) }

  /** The connection broke: ubusd may have restarted, and no id can be trusted. */
  function Lost(c: Client): Client { c.(conn := false, ids := map[]) }

  function Connect(c: Client, target: Name): (Client, Option<Error>) {
    match Head(c.script)
    case Silence => (TimedOut(Passed(c), target), Some(Timeout(target)))
    case Accepted => Hello(Passed(c), target)
    case _ => (Passed(c), Some(Io))
  }

  function Hello(c: Client, target: Name): (Client, Option<Error>) {
    match Head(c.script)
    case Silence => (TimedOut(Passed(c), target), Some(Timeout(target)))
    case Garbage => (Passed(c), Some(Protocol))
    case Incoming(f) => if f.hdr.msgType == HELLO then (Passed(c).(conn := true), None) else (Passed(c), Some(Protocol))
    case _ => (Passed(c), Some(Io))
  }

  /** Writes the request on the connection. A write that fails is taken as not delivered, one that is
      cut off by the deadline as possibly delivered. */
  function Send(c: Client, target: Name, kind: Kind, peer: U32, old_: bool): (Client, Option<Error>, seq<Sent>) {
    var h := Head(c.script);
    var p := Passed(c).(maybeSent := c.maybeSent || (kind.Invoke? && (h == Accepted || h == Silence)));
    match h
    case Accepted => (p, None, [])
    case Silence => (TimedOut(p, target), Some(Timeout(target)), [Sent(kind, c.no, peer, None)])
    case _ => (Lost(p).(stale := old_), Some(Io), [])
  }

  function Write(c: Client, target: Name, kind: Kind, peer: U32): (Client, Option<Error>, seq<Sent>) {
    if c.conn then Send(c, target, kind, peer, true)
    else
      var (p, e) := Connect(c, target);
      if e.Some? then (p, e, []) else Send(p, target, kind, peer, false)
  }

  /** Is this frame part of the answer to request `no`? */
  predicate Ours(f: Frame, no: U16, peer: U32) {
    f.hdr.no == no && f.hdr.peer == peer && (f.hdr.msgType == DATA || f.hdr.msgType == STATUS)
  }

  /** Reads until the STATUS of this request; other frames are dropped. */
  function Frames(c: Client, target: Name, kind: Kind, peer: U32, data: seq<seq<Byte>>): Ans<Reply>
    decreases |c.script|
  {
    var none := [Sent(kind, c.no, peer, None)];
    var p := Passed(c);
    if c.script == [] then Ans(TimedOut(p, target), Err(Timeout(target)), none)
    else
      match c.script[0]
      case Silence => Ans(TimedOut(p, target), Err(Timeout(target)), none)
      case Garbage => Ans(p.(conn := false), Err(Protocol), none)
      case Refused => Ans(Lost(p), Err(Io), none)
      case Accepted => Ans(Lost(p), Err(Io), none)
      case Incoming(f) =>
        if !Ours(f, c.no, peer) then Frames(p, target, kind, peer, data)
        else if f.hdr.msgType == DATA then Frames(p, target, kind, peer, data + [f.body])
        else
          match StatusOf(f.body)
          case None => Ans(p.(conn := false), Err(Protocol), none)
          case Some(code) => Ans(p, Ok(Reply(data, code)), [Sent(kind, c.no, peer, Some(code))])
  }

  function Request(c: Client, target: Name, kind: Kind, peer: U32): Ans<Reply> {
    var (p, e, d) := Write(c.(no := NextNo(c.no)), target, kind, peer);
    if e.Some? then Ans(p, Err(e.value), d) else Frames(p, target, kind, peer, [])
  }

  function LookUp(c: Client, target: Name): Ans<U32> {
    var q := Request(c, target, Lookup, 0);
    match q.r
    case Err(e) => Ans(q.c, Err(e), q.d)
    case Ok(reply) =>
      if reply.status == NOT_FOUND then Ans(q.c, Err(NotFound(target)), q.d)
      else if reply.status != 0 then Ans(q.c, Err(Status(reply.status)), q.d)
      else
        match FirstId(reply.data, target)
        case Ok(id) => Ans(q.c.(ids := q.c.ids[target := id]), Ok(id), q.d)
        case Err(Protocol) => Ans(q.c.(conn := false), Err(Protocol), q.d)
        case Err(e) => Ans(q.c, Err(e), q.d)
  }

  function DoInvoke(c: Client, target: Name, id: U32): Ans<Option<Json>> {
    var q := Request(c, target, Invoke, id);
    match q.r
    case Err(e) => Ans(q.c, Err(e), q.d)
    case Ok(reply) =>
      if reply.status != 0 then Ans(q.c, Err(Status(reply.status)), q.d)
      else
        match FirstValue(reply.data)
        case Ok(v) => Ans(q.c, Ok(v), q.d)
        case Err(e) => Ans(q.c.(conn := false), Err(e), q.d)
  }

  // ---- one call ------------------------------------------------------------------------------------

  /** An INVOKE, after a lookup if the id is not known. `id` is `None` if that lookup failed. */
  datatype Attempt = Attempt(id: Option<U32>, a: Ans<Option<Json>>)

  function TryOnce(c: Client, target: Name): Attempt {
    if target in c.ids then Attempt(Some(c.ids[target]), DoInvoke(c, target, c.ids[target]))
    else
      var l := LookUp(c, target);
      match l.r
      case Err(e) => Attempt(None, Ans(l.c, Err(e), l.d))
      case Ok(id) =>
        var a := DoInvoke(l.c, target, id);
        Attempt(Some(id), a.(d := l.d + a.d))
  }

  /** An attempt in its pass, with the lookup that followed it, if one did. */
  datatype Try = Try(pass: nat, made: Attempt, next: Option<Ans<U32>>)

  /** A pass: its tries, and what it gives. */
  datatype Pass = Pass(tries: seq<Try>, a: Ans<Option<Json>>)

  /** The object's id is dropped after an answer that says it is not what it was. */
  function Forgets(a: Ans<Option<Json>>, target: Name): Ans<Option<Json>> {
    if a.r == Err(Status(NOT_FOUND)) || a.r == Err(Status(METHOD_NOT_FOUND))
    then a.(c := a.c.(ids := a.c.ids - {target})) else a
  }

  /** `call_once`. */
  function OnePass(c: Client, target: Name, pass: nat): Pass {
    var m := TryOnce(c, target);
    if m.a.r.Ok? || m.id.None? then Pass([Try(pass, m, None)], m.a)
    else if m.a.r != Err(Status(NOT_FOUND)) then Pass([Try(pass, m, None)], Forgets(m.a, target))
    else
      var l := LookUp(m.a.c.(ids := m.a.c.ids - {target}), target);
      var d := m.a.d + l.d;
      match l.r
      case Err(e) => Pass([Try(pass, m, Some(l))], Ans(l.c, Err(e), d))
      case Ok(id) =>
        if id == m.id.value then Pass([Try(pass, m, Some(l))], Ans(l.c, m.a.r, d))
        else
          var n := TryOnce(l.c, target);
          var b := if n.id.None? then n.a else Forgets(n.a, target);
          Pass([Try(pass, m, Some(l)), Try(pass, n, None)], b.(d := d + b.d))
  }

  /** `call`: a pass that failed to write on an old connection is repeated once. `valid` says that the
      names and the arguments pass the checks. */
  function Call(c: Client, target: Name, valid: bool): Pass {
    if !valid then Pass([], Ans(c.(maybeSent := false), Err(InvalidArgument), []))
    else
      var p := OnePass(c.(maybeSent := false, stale := false), target, 1);
      if p.a.r.Err? && p.a.c.stale then
        var q := OnePass(p.a.c.(stale := false), target, 2);
        Pass(p.tries + q.tries, q.a.(d := p.a.d + q.a.d))
      else p
  }
}
