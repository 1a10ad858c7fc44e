/** The client of `ubus/client.rs` and the falling-back backend of `ubus/backend.rs` as they run: objects
    whose connection, request number, id cache and flags are changed in place by retry and read
    loops. Each method makes of the client what the function of `UbusCall` says. */
module UbusClient {
  import opened Common
  import opened Json
  import opened UbusBlob
  import C = UbusCall
  import opened UbusCallLaws
  import opened UbusCallMeaning

  type Name = C.Name

  class Client {
    var conn: bool
    var no: U16
    var ids: map<Name, U32>
    var stale: bool
    var maybeSent: bool
    /** What is going to happen on the connection. */
    var script: seq<C.Happening>
    /** Every request that may have been delivered, and how many requests were made. */
    ghost var sent: seq<C.Sent>
    ghost var count: nat

    ghost predicate Valid()
      reads this`no, this`count
    {
      no == C.NumberOf(count)
    }

    ghost function Value(): C.Client
      reads this
    {
      C.Client(conn, no, ids, stale, maybeSent, script)
    }

    constructor (script: seq<C.Happening>)
      ensures Valid() && sent == [] && Value() == C.Client(false, 0, map[], false, false, script)
    {
      conn, no, ids, stale, maybeSent := false, 0, map[], false, false;
      this.script := script;
      sent, count := [], 0;
    }

    method Next() returns (h: C.Happening)
      modifies this`script
      ensures h == C.Head(old(script)) && script == C.Tail(old(script))
    {
      if script == [] { return C.Silence; }
      h := script[0];
      script := script[1..];
    }

    method NextNo()
      requires Valid()
      modifies this`no, this`count
      ensures Valid() && no == C.NextNo(old(no))
    {
      NextNumber(count);
      no := (no + 1) % 65536;
      if no == 0 { no := 1; }
      count := count + 1;
    }

    method TimedOut(target: Name) returns (e: C.Error)
      modifies this`conn, this`ids
      ensures e == C.Timeout(target) && Value() == C.TimedOut(old(Value()), target)
    {
      conn := false;
      ids := ids - {target};
      e := C.Timeout(target);
    }

    method Connect(target: Name) returns (e: Option<C.Error>)
      modifies this`conn, this`ids, this`script
      ensures (Value(), e) == C.Connect(old(Value()), target)
    {
      var c := Next();
      if c == C.Silence {
        var t := TimedOut(target);
        return Some(t);
      }
      if c != C.Accepted { return Some(C.Io); }
      var h := Next();
      if h == C.Silence {
        var t := TimedOut(target);
        return Some(t);
      }
      if h == C.Garbage { return Some(C.Protocol); }
      if !h.Incoming? { return Some(C.Io); }
      if h.f.hdr.msgType != C.HELLO { return Some(C.Protocol); }
      conn := true;
      return None;
    }

    /** Connects if there is no connection, and writes the request. */
    method Write(target: Name, kind: C.Kind, peer: U32) returns (e: Option<C.Error>, ghost d: seq<C.Sent>)
      modifies this`conn, this`ids, this`script, this`stale, this`maybeSent
      ensures (Value(), e, d) == C.Write(old(Value()), target, kind, peer)
    {
      d := [];
      var fresh_ := !conn;
      if fresh_ {
        e := Connect(target);
        if e.Some? { return; }
      }
      var w := Next();
      if kind.Invoke? && (w == C.Accepted || w == C.Silence) { maybeSent := true; }
      if w == C.Accepted { return None, d; }
      if w == C.Silence {
        d := [C.Sent(kind, no, peer, None)];
        var t := TimedOut(target);
        return Some(t), d;
      }
      stale := !fresh_;
      conn, ids := false, map[];
      return Some(C.Io), d;
    }

    /** Reads until the STATUS of this request. */
    method Frames(target: Name, kind: C.Kind, peer: U32) returns (r: Outcome<C.Reply, C.Error>, ghost d: seq<C.Sent>)
      modifies this`conn, this`ids, this`script
      ensures C.Ans(Value(), r, d) == C.Frames(old(Value()), target, kind, peer, [])
    {
      hide C.StatusOf;
      var data: seq<seq<Byte>> := [];
      d := [C.Sent(kind, no, peer, None)];
      while true
        invariant C.Frames(Value(), target, kind, peer, data) == C.Frames(old(Value()), target, kind, peer, [])
        invariant d == [C.Sent(kind, no, peer, None)]
        decreases |script|
      {
        var h := Next();
        if h.Incoming? {
          var f := h.f;
          if C.Ours(f, no, peer) {
            if f.hdr.msgType == C.DATA {
              data := data + [f.body];
            } else {
              var code := C.StatusOf(f.body);
              if code.None? {
                conn := false;
                return Err(C.Protocol), d;
              }
              return Ok(C.Reply(data, code.value)), [C.Sent(kind, no, peer, code)];
            }
          }
        } else if h == C.Silence {
          var t := TimedOut(target);
          return Err(t), d;
        } else {
          conn := false;
          if h == C.Garbage { return Err(C.Protocol), d; }
          ids := map[];
          return Err(C.Io), d;
        }
      }
    }

    /** Sends one request and collects its DATA frames and its STATUS. */
    method Request(target: Name, kind: C.Kind, peer: U32) returns (r: Outcome<C.Reply, C.Error>, ghost d: seq<C.Sent>)
      requires Valid()
      modifies this
      ensures Valid() && sent == old(sent) + d
      ensures C.Ans(Value(), r, d) == C.Request(old(Value()), target, kind, peer)
    {
      hide C.Write, C.Frames;
      NextNo();
      var e;
      e, d := Write(target, kind, peer);
      if e.Some? {
        sent := sent + d;
        return Err(e.value), d;
      }
      r, d := Frames(target, kind, peer);
      sent := sent + d;
    }

    method LookUp(target: Name) returns (r: Outcome<U32, C.Error>, ghost d: seq<C.Sent>)
      requires Valid()
      modifies this
      ensures Valid() && sent == old(sent) + d
      ensures C.Ans(Value(), r, d) == C.LookUp(old(Value()), target)
    {
      hide C.Request, C.IdIn;
      var q;
      q, d := Request(target, C.Lookup, 0);
      if q.Err? { return Err(q.error), d; }
      if q.value.status == C.NOT_FOUND { return Err(C.NotFound(target)), d; }
      if q.value.status != 0 { return Err(C.Status(q.value.status)), d; }
      var data := q.value.data;
      ghost var now := Value();
      var i := 0;
      while i < |data|
        invariant Valid() && sent == old(sent) + d && Value() == now
        invariant i <= |data| && C.FirstId(data, target) == C.FirstId(data[i..], target)
      {
        assert data[i..][1..] == data[i + 1..];
        IdInErrs(data[i], target);
        var id := C.IdIn(data[i], target);
        if id.Err? {
          conn := false;
          return Err(id.error), d;
        }
        if id.value.Some? {
          ids := ids[target := id.value.value];
          return Ok(id.value.value), d;
        }
        i := i + 1;
      }
      return Err(C.NotFound(target)), d;
    }

    method DoInvoke(target: Name, id: U32) returns (r: Outcome<Option<Json>, C.Error>, ghost d: seq<C.Sent>)
      requires Valid()
      modifies this
      ensures Valid() && sent == old(sent) + d
      ensures C.Ans(Value(), r, d) == C.DoInvoke(old(Value()), target, id)
    {
      hide C.Request, C.ValueIn;
      var q;
      q, d := Request(target, C.Invoke, id);
      if q.Err? { return Err(q.error), d; }
      if q.value.status != 0 { return Err(C.Status(q.value.status)), d; }
      var data := q.value.data;
      ghost var now := Value();
      var i := 0;
      while i < |data|
        invariant Valid() && sent == old(sent) + d && Value() == now
        invariant i <= |data| && C.FirstValue(data) == C.FirstValue(data[i..])
      {
        assert data[i..][1..] == data[i + 1..];
        var v := C.ValueIn(data[i]);
        if v.Err? {
          conn := false;
          return Err(v.error), d;
        }
        if v.value.Some? { return Ok(v.value), d; }
        i := i + 1;
      }
      return Ok(None), d;
    }

    /** Looks the object up if it must, and invokes it. `id` is `None` if the lookup failed. */
    method TryOnce(target: Name) returns (r: Outcome<Option<Json>, C.Error>, id: Option<U32>, ghost d: seq<C.Sent>)
      requires Valid()
      modifies this
      ensures Valid() && sent == old(sent) + d
      ensures C.Attempt(id, C.Ans(Value(), r, d)) == C.TryOnce(old(Value()), target)
    {
      hide C.LookUp, C.DoInvoke;
      id, d := None, [];
      if target !in ids {
        var found;
        found, d := LookUp(target);
        if found.Err? { return Err(found.error), id, d; }
        id := Some(found.value);
      } else {
        id := Some(ids[target]);
      }
      ghost var more;
      r, more := DoInvoke(target, id.value);
      assert old(sent) + d + more == old(sent) + (d + more) && [] + more == more;
      d := d + more;
    }

    /** `call_once`: tries again if the object was not found and has got another id. */
    method CallOnce(target: Name, ghost pass: nat) returns (r: Outcome<Option<Json>, C.Error>, ghost d: seq<C.Sent>)
      requires Valid()
      modifies this
      ensures Valid() && sent == old(sent) + d
      ensures C.Ans(Value(), r, d) == C.OnePass(old(Value()), target, pass).a
    {
      hide C.LookUp, C.TryOnce;
      var retried := false;
      d := [];
      ghost var m := C.TryOnce(Value(), target);
      ghost var l := C.LookUp(m.a.c.(ids := m.a.c.ids - {target}), target);
      while true
        invariant Valid() && sent == old(sent) + d
        invariant !retried ==> Value() == old(Value()) && d == []
        invariant retried ==>
                    && m.id.Some? && m.a.r == Err(C.Status(C.NOT_FOUND)) && l.r.Ok? && l.r.value != m.id.value
                    && Value() == l.c && d == m.a.d + l.d
        decreases !retried
      {
        ghost var more;
        var id;
        r, id, more := TryOnce(target);
        Appended(old(sent), d, more);
        d := d + more;
        if r.Ok? || id.None? { return; }
        if r.error == C.Status(C.NOT_FOUND) && !retried {
          ids := ids - {target};
          var again;
          again, more := LookUp(target);
          Appended(old(sent), d, more);
          d := d + more;
          if again.Err? { return Err(again.error), d; }
          if again.value == id.value { return; }
          retried := true;
        } else {
          if r.error == C.Status(C.NOT_FOUND) || r.error == C.Status(C.METHOD_NOT_FOUND) {
            ids := ids - {target};
          }
          return;
        }
      }
    }

    lemma Appended(before: seq<C.Sent>, d: seq<C.Sent>, more: seq<C.Sent>)
      ensures before + d + more == before + (d + more) && [] + more == more
    {
    }

    /** `call`: a pass that failed to write on an old connection is repeated once. */
    method Call(target: Name, valid: bool) returns (r: Outcome<Option<Json>, C.Error>, ghost d: seq<C.Sent>)
      requires Valid()
      modifies this
      ensures Valid() && sent == old(sent) + d
      ensures C.Ans(Value(), r, d) == C.Call(old(Value()), target, valid).a
      ensures OnlyLast(d) && |Invoked(d)| <= 3 && (maybeSent <==> !NoInvoke(d)) && (r.Ok? ==> LastAnswered(d, 0))
      ensures r.Ok? ==> AnsweredWith(old(script), d, r.value)
    {
      hide C.OnePass, OnlyLast, NoInvoke, Invoked, LastAnswered, AnsweredWith;
      CallPromises(Value(), target, valid);
      d := [];
      maybeSent := false;
      if !valid { return Err(C.InvalidArgument), d; }
      ghost var first := C.OnePass(Value().(stale := false), target, 1);
      var resent := false;
      while true
        invariant Valid() && sent == old(sent) + d
        invariant !resent ==> Value() == old(Value()).(maybeSent := false, stale := stale) && d == []
        invariant resent ==> first.a.r.Err? && first.a.c.stale && Value() == first.a.c && d == first.a.d
        decreases !resent
      {
        stale := false;
        ghost var more;
        r, more := CallOnce(target, if resent then 2 else 1);
        Appended(old(sent), d, more);
        d := d + more;
        if r.Err? && stale && !resent {
          resent := true;
        } else {
          return;
        }
      }
    }
  }

  // ---- the backend that falls back to the command line ------------------------------------------

  const CLI_TIMEOUT: nat := 8_000
  const FALLBACK_RETRY: nat := 30_000
  const FALLBACK_MIN: nat := 500

  /** The kinds of failure that may be the connection's. */
  predicate Unreachable(q: Outcome<Option<Json>, C.Error>) {
    q.Err? && (q.error == C.Io || q.error.Timeout? || q.error == C.Protocol)
  }

  /** `SocketBackend::call`: an answer without data is an error. */
  function Given(q: Outcome<Option<Json>, C.Error>): Outcome<Json, C.Error> {
    match q
    case Err(e) => Err(e)
    case Ok(None) => Err(C.NoData)
    case Ok(Some(v)) => Ok(v)
  }

  class AutoBackend {
    const client: Client
    var cliUntil: Option<nat>
    var fallbacks: nat
    var cliTimeout: nat
    /** The time limits of the command-line runs so far. */
    ghost var cliRuns: seq<nat>

    constructor (client: Client)
      ensures this.client == client && cliUntil.None? && cliTimeout == CLI_TIMEOUT && cliRuns == []
    {
      this.client := client;
      cliUntil, fallbacks, cliTimeout, cliRuns := None, 0, CLI_TIMEOUT, [];
    }

    predicate OnCli(now: nat)
      reads this
    {
      cliUntil.Some? && now < cliUntil.value
    }

    /** `before`, `start` and `end` are clock readings around the socket call; `cli` is what a
        command-line run would give. The command line runs if and only if the socket is out of use
        for now, or failed by an error of the connection, a timeout or a broken format with no INVOKE
        of this call possibly delivered; the socket is then out of use for 30 seconds, and the run gets what is left of
        the time limit, but half a second at least. A value that the socket gives came in as the answer to the
        last INVOKE. */
    method Call(target: Name, valid: bool, before: nat, start: nat, end: nat, cli: Outcome<Json, C.Error>)
      returns (r: Outcome<Json, C.Error>, ghost d: seq<C.Sent>)
      requires client.Valid() && before <= start <= end
      modifies this, client
      ensures client.Valid() && cliTimeout == old(cliTimeout)
      ensures client.sent == old(client.sent) + d && OnlyLast(d)
      ensures old(OnCli(before)) ==>
                && d == [] && client.Value() == old(client.Value()) && r == cli
                && cliRuns == old(cliRuns) + [cliTimeout] && cliUntil == old(cliUntil) && fallbacks == old(fallbacks)
      ensures !old(OnCli(before)) ==>
                var a := C.Call(old(client.Value()), target, valid).a;
                && client.Value() == a.c && d == a.d
                && (if a.r.Err? && (a.r.error == C.Io || a.r.error.Timeout? || a.r.error == C.Protocol) && NoInvoke(d) then
                      && r == cli && cliUntil == Some(end + 30_000) && fallbacks == old(fallbacks) + 1
                      && cliRuns == old(cliRuns) + [if cliTimeout < end - start + 500 then 500 else cliTimeout - (end - start)]
                    else
                      && cliUntil.None? && fallbacks == old(fallbacks) && cliRuns == old(cliRuns)
                      && (r.Ok? ==> a.r == Ok(Some(r.value)) && AnsweredWith(old(client.script), d, Some(r.value)))
                      && (r.Err? ==> if a.r.Ok? then a.r.value.None? && r.error == C.NoData else r.error == a.r.error))
    {
      hide C.Call, NoInvoke, OnlyLast, Invoked, LastAnswered, AnsweredWith;
      NothingSent();
      if OnCli(before) {
        cliRuns := cliRuns + [cliTimeout];
        return cli, [];
      }
      cliUntil := None;
      var q;
      q, d := client.Call(target, valid);
      if Unreachable(q) && !client.maybeSent {
        fallbacks := fallbacks + 1;
        cliUntil := Some(end + FALLBACK_RETRY);
        var full := cliTimeout;
        cliTimeout := Max(SatSub(full, end - start), FALLBACK_MIN);
        cliRuns := cliRuns + [cliTimeout];
        r := cli;
        cliTimeout := full;
      } else {
        r := Given(q);
      }
    }
  }
}
