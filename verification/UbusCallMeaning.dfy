/** What a reply says, without naming the functions that read it, and where the value that a call returns
    comes from: which frames, which attribute of them, and what its bytes mean. */
module UbusCallMeaning {
  import opened Common
  import opened Json
  import opened UbusBlob
  import opened UbusBlobMeaning
  import opened UbusBlobLaws
  import opened UbusCall
  import opened UbusCallLaws

  // ---- one frame -------------------------------------------------------------------------------

  /** Attribute `i` is the last one with this id. */
  predicate LastAt(attrs: seq<Attr>, id: nat, i: nat) {
    i < |attrs| && attrs[i].id == id && forall j :: i < j < |attrs| ==> attrs[j].id != id
  }

  ghost predicate LastWith(attrs: seq<Attr>, id: nat, a: Attr) {
    exists i: nat :: LastAt(attrs, id, i) && attrs[i] == a
  }

  predicate NoneWith(attrs: seq<Attr>, id: nat) {
    forall i :: 0 <= i < |attrs| ==> attrs[i].id != id
  }

  lemma {:induction false} SlotAt(attrs: seq<Attr>, id: nat) returns (i: nat)
    ensures Slot(attrs, id).None? ==> NoneWith(attrs, id)
    ensures Slot(attrs, id).Some? ==> LastAt(attrs, id, i) && Slot(attrs, id) == Some(attrs[i])
  {
    i := 0;
    if attrs != [] {
      var n := |attrs| - 1;
      if attrs[n].id == id {
        i := n;
      } else {
        i := SlotAt(attrs[..n], id);
        assert forall j :: 0 <= j < n ==> attrs[..n][j] == attrs[j];
      }
    }
  }

  lemma SlotExact(attrs: seq<Attr>, id: nat)
    ensures Slot(attrs, id).None? <==> NoneWith(attrs, id)
    ensures forall a :: Slot(attrs, id) == Some(a) <==> LastWith(attrs, id, a)
  {
    hide Slot;
    var i := SlotAt(attrs, id);
    forall j: nat | LastAt(attrs, id, j)
      ensures Slot(attrs, id) == Some(attrs[j])
    {
      assert Slot(attrs, id).Some? && (i < j || j < i || i == j);
    }
  }

  /** The frame's attributes give this status: the last one of type 1 is a signed number of 32 bits. */
  ghost predicate SaysStatus(body: seq<Byte>, code: int) {
    exists attrs, a :: Splits(body, attrs) && LastWith(attrs, 1, a) && Signed(code, a.data, 4, 0x8000_0000)
  }

  /** The frame gives this object: its last attribute of type 7 means it. */
  ghost predicate Carries(body: seq<Byte>, v: Json) {
    exists attrs, a :: Splits(body, attrs) && LastWith(attrs, 7, a) && MeansObject(a.data, v)
  }

  ghost predicate MeansObject(buf: seq<Byte>, v: Json) {
    v.Obj? && exists found :: Contains(buf, found, 0) && MapOf(v.fields, found)
  }

  /** The frame is well formed and gives no object. */
  ghost predicate Empty(body: seq<Byte>) {
    exists attrs :: Splits(body, attrs) && NoneWith(attrs, 7)
  }

  /** The frame says that the object of this name has this id. */
  ghost predicate Offers(body: seq<Byte>, target: Name, id: U32) {
    exists attrs, path, a ::
      && Splits(body, attrs) && LastWith(attrs, 2, path) && LastWith(attrs, 3, a)
      && Text(target, path.data) && |a.data| == 4 && FromBe(a.data) == id
  }

  /** The frame is well formed and about no object, or another one. */
  ghost predicate AboutOthers(body: seq<Byte>, target: Name) {
    exists attrs :: Splits(body, attrs) &&
      (|| NoneWith(attrs, 2) || NoneWith(attrs, 3)
       || exists path :: LastWith(attrs, 2, path) && !Text(target, path.data))
  }

  lemma Attributes(body: seq<Byte>)
    ensures forall attrs :: ParseAttrs(body) == Ok(attrs) <==> Splits(body, attrs)
  {
    forall attrs ensures ParseAttrs(body) == Ok(attrs) <==> Splits(body, attrs) { SplitsIsParse(body, attrs); }
  }

  lemma StatusExact(body: seq<Byte>, code: int)
    ensures StatusOf(body) == Some(code) <==> SaysStatus(body, code)
  {
    hide ParseAttrs, Splits, Slot, LastWith, FromBe;
    Attributes(body);
    if ParseAttrs(body).Ok? {
      var attrs := ParseAttrs(body).value;
      SlotExact(attrs, 1);
      var s := Slot(attrs, 1);
      if s.Some? {
        SpanValues();
        FromBeBound(s.value.data);
        assert LastWith(attrs, 1, s.value);
      }
    }
  }

  lemma ValueExact(body: seq<Byte>, v: Json)
    ensures ValueIn(body) == Ok(Some(v)) <==> Carries(body, v)
    ensures ValueIn(body) == Ok(None) <==> Empty(body)
  {
    hide ParseAttrs, Splits, Slot, LastWith, NoneWith, DecodeObject, MeansObject;
    Attributes(body);
    if ParseAttrs(body).Ok? {
      var attrs := ParseAttrs(body).value;
      SlotExact(attrs, 7);
      var s := Slot(attrs, 7);
      if s.Some? {
        ObjectExact(s.value.data, v);
        assert LastWith(attrs, 7, s.value);
      }
    }
  }

  lemma ObjectExact(buf: seq<Byte>, v: Json)
    ensures DecodeObject(buf) == Ok(v) <==> MeansObject(buf, v)
  {
    hide DecodeObject, Contains, MapOf;
    DecodingIsMeaning(buf, v);
  }

  lemma IdExact(body: seq<Byte>, target: Name, id: U32)
    ensures IdIn(body, target) == Ok(Some(id)) <==> Offers(body, target, id)
    ensures IdIn(body, target) == Ok(None) <==> AboutOthers(body, target)
  {
    hide ParseAttrs, Splits, Slot, LastWith, NoneWith, FromBe, Text, UpToNul;
    Attributes(body);
    if ParseAttrs(body).Ok? {
      var attrs := ParseAttrs(body).value;
      SlotExact(attrs, 2);
      SlotExact(attrs, 3);
      var p, a := Slot(attrs, 2), Slot(attrs, 3);
      if p.Some? { TextIs(target, p.value.data); }
      if p.Some? && a.Some? {
        SpanValues();
        FromBeBound(a.value.data);
        assert LastWith(attrs, 2, p.value) && LastWith(attrs, 3, a.value);
      }
    }
  }

  // ---- all frames of a reply ----------------------------------------------------------------------

  /** The first of the frames that gives an object gives this one; `None` if none does. */
  ghost predicate Gives(data: seq<seq<Byte>>, v: Option<Json>) {
    if v.None? then forall j :: 0 <= j < |data| ==> Empty(data[j])
    else exists i :: 0 <= i < |data| && Carries(data[i], v.value) && forall j :: 0 <= j < i ==> Empty(data[j])
  }

  lemma {:induction false} FirstValueExact(data: seq<seq<Byte>>, v: Option<Json>)
    ensures FirstValue(data) == Ok(v) <==> Gives(data, v)
  {
    hide ValueIn, Carries, Empty;
    if data != [] {
      var rest := data[1..];
      assert forall j :: 1 <= j < |data| ==> data[j] == rest[j - 1];
      FirstValueExact(rest, v);
      ValueExact(data[0], if v.Some? then v.value else Null);
      NotBoth(data[0]);
      if v.Some? {
        if Empty(data[0]) && Gives(rest, v) {
          var i :| 0 <= i < |rest| && Carries(rest[i], v.value) && forall j :: 0 <= j < i ==> Empty(rest[j]);
          assert Carries(data[i + 1], v.value);
        }
        if Gives(data, v) {
          var i :| 0 <= i < |data| && Carries(data[i], v.value) && forall j :: 0 <= j < i ==> Empty(data[j]);
          if i > 0 { assert Carries(rest[i - 1], v.value); }
        }
      }
    }
  }

  lemma NotBoth(body: seq<Byte>)
    ensures forall v :: Carries(body, v) ==> !Empty(body) && ValueIn(body) == Ok(Some(v))
    ensures Empty(body) ==> ValueIn(body) == Ok(None)
    ensures ValueIn(body) == Ok(None) ==> Empty(body)
  {
    hide ValueIn, Carries, Empty;
    forall v | Carries(body, v) ensures !Empty(body) && ValueIn(body) == Ok(Some(v)) { ValueExact(body, v); }
    ValueExact(body, Null);
  }

  /** The first of the frames that is about the object says that it has this id. */
  ghost predicate Tells(data: seq<seq<Byte>>, target: Name, id: U32) {
    exists i :: 0 <= i < |data| && Offers(data[i], target, id) && forall j :: 0 <= j < i ==> AboutOthers(data[j], target)
  }

  lemma {:induction false} FirstIdExact(data: seq<seq<Byte>>, target: Name, id: U32)
    requires FirstId(data, target) == Ok(id)
    ensures Tells(data, target, id)
  {
    hide IdIn, Offers, AboutOthers;
    var rest := data[1..];
    IdExact(data[0], target, id);
    if IdIn(data[0], target) == Ok(None) {
      FirstIdExact(rest, target, id);
      var i :| 0 <= i < |rest| && Offers(rest[i], target, id) && forall j :: 0 <= j < i ==> AboutOthers(rest[j], target);
      assert forall j :: 1 <= j < |data| ==> data[j] == rest[j - 1];
      assert Offers(data[i + 1], target, id);
    } else {
      assert Offers(data[0], target, id);
    }
  }

  // ---- where a call's value comes from ----------------------------------------------------------------

  predicate Inside(a: seq<Happening>, b: seq<Happening>) { forall h | h in a :: h in b }

  /** DATA frames and then a STATUS, all of which came in, with this number and peer. */
  ghost predicate CameIn(script: seq<Happening>, no: U16, peer: U32, data: seq<seq<Byte>>, code: int) {
    exists frames :: IsReply(script, no, peer, frames, data, code)
  }

  ghost predicate IsReply(script: seq<Happening>, no: U16, peer: U32, frames: seq<Frame>, data: seq<seq<Byte>>, code: int) {
    && |frames| == |data| + 1
    && (forall i :: 0 <= i < |frames| ==>
          Incoming(frames[i]) in script && frames[i].hdr.no == no && frames[i].hdr.peer == peer)
    && (forall i :: 0 <= i < |data| ==> frames[i].hdr.msgType == 2 && frames[i].body == data[i])
    && frames[|data|].hdr.msgType == 1 && SaysStatus(frames[|data|].body, code)
  }

  lemma {:induction false} FramesInside(c: Client, target: Name, kind: Kind, peer: U32, data: seq<seq<Byte>>)
    ensures Inside(Frames(c, target, kind, peer, data).c.script, c.script)
    decreases |c.script|
  {
    hide StatusOf, Ours;
    if c.script != [] && c.script[0].Incoming? {
      var f := c.script[0].f;
      if !Ours(f, c.no, peer) {
        FramesInside(Passed(c), target, kind, peer, data);
      } else if f.hdr.msgType == DATA {
        FramesInside(Passed(c), target, kind, peer, data + [f.body]);
      }
    }
  }

  lemma SendInside(c: Client, target: Name, kind: Kind, peer: U32, old_: bool)
    ensures Inside(Send(c, target, kind, peer, old_).0.script, c.script)
  {
  }

  lemma ConnectInside(c: Client, target: Name)
    ensures Inside(Connect(c, target).0.script, c.script)
  {
    hide Hello;
    HelloInside(Passed(c), target);
  }

  lemma HelloInside(c: Client, target: Name)
    ensures Inside(Hello(c, target).0.script, c.script)
  {
  }

  lemma WriteInside(c: Client, target: Name, kind: Kind, peer: U32)
    ensures Inside(Write(c, target, kind, peer).0.script, c.script)
  {
    hide Send, Connect;
    SendInside(c, target, kind, peer, true);
    ConnectInside(c, target);
    SendInside(Connect(c, target).0, target, kind, peer, false);
  }

  lemma RequestInside(c: Client, target: Name, kind: Kind, peer: U32)
    ensures Inside(Request(c, target, kind, peer).c.script, c.script)
  {
    hide Write, Frames;
    var n := c.(no := NextNo(c.no));
    WriteInside(n, target, kind, peer);
    FramesInside(Write(n, target, kind, peer).0, target, kind, peer, []);
  }

  /** The reply to a request came in with the request's number and peer. */
  lemma ReplyCameIn(c: Client, target: Name, kind: Kind, peer: U32)
    requires Request(c, target, kind, peer).r.Ok?
    ensures var a := Request(c, target, kind, peer);
            && a.d == [Sent(kind, NextNo(c.no), peer, Some(a.r.value.status))]
            && CameIn(c.script, NextNo(c.no), peer, a.r.value.data, a.r.value.status)
  {
    hide Request, StatusOf, SaysStatus, Write;
    RequestLaws(c, target, kind, peer);
    ReplyIsOurs(c, target, kind, peer);
    var n := c.(no := NextNo(c.no));
    WriteInside(n, target, kind, peer);
    var script := Write(n, target, kind, peer).0.script;
    var frames := Mine(script, n.no, peer);
    MineIsOurs(script, n.no, peer);
    var reply := Request(c, target, kind, peer).r.value;
    StatusExact(frames[|frames| - 1].body, reply.status);
    assert IsReply(c.script, n.no, peer, frames, reply.data, reply.status);
  }

  /** The last request delivered was an INVOKE, and its reply, with status 0, gives `v`. */
  ghost predicate AnsweredWith(script: seq<Happening>, d: seq<Sent>, v: Option<Json>) {
    && d != []
    && var s := d[|d| - 1];
    && s.kind.Invoke? && s.answer == Some(0) && s.no < 65536
    && exists data :: CameIn(script, s.no, s.peer, data, 0) && Gives(data, v)
  }

  lemma InvokeGives(c: Client, target: Name, id: U32)
    requires DoInvoke(c, target, id).r.Ok?
    ensures var a := DoInvoke(c, target, id); AnsweredWith(c.script, a.d, a.r.value)
  {
    hide Request, FirstValue, CameIn, Gives;
    ReplyCameIn(c, target, Invoke, id);
    var reply := Request(c, target, Invoke, id).r.value;
    FirstValueExact(reply.data, DoInvoke(c, target, id).r.value);
  }

  /** A lookup returns the id that the first frame about the object tells, and keeps it. */
  lemma LookUpTells(c: Client, target: Name)
    requires LookUp(c, target).r.Ok?
    ensures var a := LookUp(c, target);
            && a.c.ids[target := a.r.value] == a.c.ids
            && exists data :: CameIn(c.script, NextNo(c.no), 0, data, 0) && Tells(data, target, a.r.value)
  {
    hide Request, FirstId, CameIn, Tells;
    ReplyCameIn(c, target, Lookup, 0);
    var q := Request(c, target, Lookup, 0);
    FirstIdExact(q.r.value.data, target, LookUp(c, target).r.value);
  }

  lemma LookUpInside(c: Client, target: Name)
    ensures Inside(LookUp(c, target).c.script, c.script)
  {
    hide Request, FirstId;
    RequestInside(c, target, Lookup, 0);
  }

  lemma InvokeInside(c: Client, target: Name, id: U32)
    ensures Inside(DoInvoke(c, target, id).c.script, c.script)
  {
    hide Request, FirstValue;
    RequestInside(c, target, Invoke, id);
  }

  /** What came in later came in. */
  lemma LaterGives(early: seq<Happening>, late: seq<Happening>, d: seq<Sent>, e: seq<Sent>, v: Option<Json>)
    requires Inside(late, early) && AnsweredWith(late, e, v)
    ensures AnsweredWith(early, d + e, v)
  {
    hide Gives, SaysStatus;
    var s := e[|e| - 1];
    assert (d + e)[|d + e| - 1] == s;
    var data :| CameIn(late, s.no, s.peer, data, 0) && Gives(data, v);
    var frames :| IsReply(late, s.no, s.peer, frames, data, 0);
    assert IsReply(early, s.no, s.peer, frames, data, 0);
    assert CameIn(early, s.no, s.peer, data, 0);
  }

  lemma TryGives(c: Client, target: Name)
    ensures var m := TryOnce(c, target);
            Inside(m.a.c.script, c.script) && (m.a.r.Ok? ==> AnsweredWith(c.script, m.a.d, m.a.r.value))
  {
    hide LookUp, DoInvoke, AnsweredWith;
    if target in c.ids {
      InvokeInside(c, target, c.ids[target]);
      if DoInvoke(c, target, c.ids[target]).r.Ok? { InvokeGives(c, target, c.ids[target]); }
    } else {
      LookUpInside(c, target);
      var l := LookUp(c, target);
      if l.r.Ok? {
        var a := DoInvoke(l.c, target, l.r.value);
        InvokeInside(l.c, target, l.r.value);
        if a.r.Ok? {
          InvokeGives(l.c, target, l.r.value);
          LaterGives(c.script, l.c.script, l.d, a.d, a.r.value);
        }
      }
    }
  }

  lemma PassGives(c: Client, target: Name, pass: nat)
    ensures var p := OnePass(c, target, pass);
            Inside(p.a.c.script, c.script) && (p.a.r.Ok? ==> AnsweredWith(c.script, p.a.d, p.a.r.value))
  {
    hide LookUp, TryOnce, AnsweredWith, Forgets;
    TryGives(c, target);
    var m := TryOnce(c, target);
    ForgetsOnly(m.a, target);
    if m.id.Some? && m.a.r == Err(Status(NOT_FOUND)) {
      var e := m.a.c.(ids := m.a.c.ids - {target});
      LookUpInside(e, target);
      var l := LookUp(e, target);
      if l.r.Ok? && l.r.value != m.id.value {
        TryGives(l.c, target);
        var n := TryOnce(l.c, target);
        ForgetsOnly(n.a, target);
        if n.a.r.Ok? { LaterGives(c.script, l.c.script, m.a.d + l.d, n.a.d, n.a.r.value); }
      }
    }
  }

  /** Whatever ubusd does: a call that returns `v` has delivered an INVOKE last, and among the frames that came in
      are DATA frames and a STATUS 0 with the number and the object of that INVOKE, the first of them with an
      object giving `v`. */
  lemma CallGives(c: Client, target: Name, valid: bool)
    requires Call(c, target, valid).a.r.Ok?
    ensures var a := Call(c, target, valid).a; AnsweredWith(c.script, a.d, a.r.value)
  {
    hide OnePass, AnsweredWith;
    var c0 := c.(maybeSent := false, stale := false);
    PassGives(c0, target, 1);
    var p := OnePass(c0, target, 1);
    if p.a.r.Err? && p.a.c.stale {
      var c1 := p.a.c.(stale := false);
      PassGives(c1, target, 2);
      var q := OnePass(c1, target, 2);
      if q.a.r.Ok? { LaterGives(c.script, c1.script, p.a.d, q.a.d, q.a.r.value); }
    }
  }

  /** `CallLaws` and `CallGives` together. */
  lemma CallPromises(c: Client, target: Name, valid: bool)
    ensures var a := Call(c, target, valid).a;
            && OnlyLast(a.d) && |Invoked(a.d)| <= 3 && (a.c.maybeSent <==> !NoInvoke(a.d))
            && (a.r.Ok? ==> LastAnswered(a.d, 0) && AnsweredWith(c.script, a.d, a.r.value))
  {
    hide Call, OnlyLast, NoInvoke, Invoked, LastAnswered, AnsweredWith;
    CallLaws(c, target, valid);
    if Call(c, target, valid).a.r.Ok? { CallGives(c, target, valid); }
  }

  /** A connection is there if and only if it was accepted and the first frame says hello. */
  lemma ConnectIff(c: Client, target: Name)
    ensures Connect(c, target).1.None? <==>
              |c.script| > 1 && c.script[0] == Accepted && c.script[1].Incoming? && c.script[1].f.hdr.msgType == 0
  {
  }

  // ---- the cache of ids -------------------------------------------------------------------------------------

  /** After a timeout the id of the object asked for is forgotten, after a broken connection every id, and no
      other failure changes the cache. */
  predicate CacheAfter(c: Client, target: Name, a: Ans<Reply>) {
    if a.r.Ok? then a.c.ids == c.ids
    else match a.r.error
         case Timeout(_) => a.c.ids == c.ids - {target}
         case Io => a.c.ids == map[] || (!c.conn && a.c.ids == c.ids && a.d == [])
         case _ => a.c.ids == c.ids
  }

  lemma {:induction false} FramesCache(c: Client, target: Name, kind: Kind, peer: U32, data: seq<seq<Byte>>)
    requires c.conn
    ensures CacheAfter(c, target, Frames(c, target, kind, peer, data))
    decreases |c.script|
  {
    hide StatusOf, Ours;
    if c.script != [] && c.script[0].Incoming? {
      var f := c.script[0].f;
      if !Ours(f, c.no, peer) {
        FramesCache(Passed(c), target, kind, peer, data);
      } else if f.hdr.msgType == DATA {
        FramesCache(Passed(c), target, kind, peer, data + [f.body]);
      }
    }
  }

  lemma WriteCache(c: Client, target: Name, kind: Kind, peer: U32)
    ensures var (p, e, d) := Write(c, target, kind, peer);
            if e.None? then p.ids == c.ids && p.conn
            else CacheAfter(c, target, Ans(p, Err(e.value), d))
  {
    hide Send, Connect;
    SendCache(c, target, kind, peer, true);
    if !c.conn {
      ConnectCache(c, target);
      SendCache(Connect(c, target).0, target, kind, peer, false);
    }
  }

  lemma SendCache(c: Client, target: Name, kind: Kind, peer: U32, old_: bool)
    ensures var (p, e, d) := Send(c, target, kind, peer, old_);
            if e.None? then p.ids == c.ids && p.conn == c.conn
            else (e.value == Timeout(target) && p.ids == c.ids - {target}) || (e.value == Io && p.ids == map[])
  {
  }

  lemma ConnectCache(c: Client, target: Name)
    requires !c.conn
    ensures var (p, e) := Connect(c, target);
            && (p.conn <==> e.None?)
            && if e == Some(Timeout(target)) then p.ids == c.ids - {target}
               else (e.None? || e == Some(Io) || e == Some(Protocol)) && p.ids == c.ids
  {
  }

  lemma RequestCache(c: Client, target: Name, kind: Kind, peer: U32)
    ensures CacheAfter(c, target, Request(c, target, kind, peer))
  {
    hide Write, Frames;
    var n := c.(no := NextNo(c.no));
    WriteCache(n, target, kind, peer);
    var (p, e, d) := Write(n, target, kind, peer);
    if e.None? { FramesCache(p, target, kind, peer, []); }
  }

  /** The conversation was cut short: by the connection, the time or the format. */
  predicate CutShort<T>(r: Outcome<T, Error>) { r.Err? && (r.error == Io || r.error == Protocol || r.error.Timeout?) }

  lemma LookUpLeaves(c: Client, target: Name)
    ensures var a := LookUp(c, target);
            && (a.c.conn <==> !CutShort(a.r))
            && (a.r.Ok? ==> a.c.ids == c.ids[target := a.r.value])
            && (a.r.Err? && target !in c.ids ==> target !in a.c.ids)
            && (a.r.Err? ==> a.r.error != InvalidArgument && a.r.error != NoData)
  {
    hide Request, FirstId;
    RequestLaws(c, target, Lookup, 0);
    RequestCache(c, target, Lookup, 0);
    var q := Request(c, target, Lookup, 0);
    if q.r.Ok? { FirstIdErrs(q.r.value.data, target); }
  }

  lemma InvokeLeaves(c: Client, target: Name, id: U32)
    ensures var a := DoInvoke(c, target, id);
            && (a.c.conn <==> !CutShort(a.r))
            && (!CutShort(a.r) ==> a.c.ids == c.ids)
            && (a.r.Err? && !CutShort(a.r) ==> a.r.error.Status?)
  {
    hide Request, FirstValue;
    RequestLaws(c, target, Invoke, id);
    RequestCache(c, target, Invoke, id);
    var q := Request(c, target, Invoke, id);
    if q.r.Ok? { FirstValueErrs(q.r.value.data); }
  }

  lemma TryLeaves(c: Client, target: Name)
    ensures var m := TryOnce(c, target);
            && (m.a.c.conn <==> !CutShort(m.a.r)) && (m.id.None? ==> m.a.r.Err? && target !in m.a.c.ids)
            && (m.id.Some? && !CutShort(m.a.r) ==> target in m.a.c.ids && m.a.c.ids[target] == m.id.value)
            && (m.id.Some? && m.a.r.Err? && !CutShort(m.a.r) ==> m.a.r.error.Status?)
            && (m.a.r == Err(Status(NOT_FOUND)) ==> m.id.Some?)
            && (target in c.ids ==> m.id == Some(c.ids[target]))
  {
    hide LookUp, DoInvoke;
    if target in c.ids {
      InvokeLeaves(c, target, c.ids[target]);
    } else {
      LookUpLeaves(c, target);
      LookUpLaws(c, target);
      var l := LookUp(c, target);
      if l.r.Ok? { InvokeLeaves(l.c, target, l.r.value); }
    }
  }

  /** What a pass leaves in the cache for its object: the id that it invoked last after success and after a failure that the
      object itself answered with; nothing after "method not found", nor after "not found" unless a lookup then gave the
      same id again. */
  predicate PassLeaves(p: Pass, target: Name) {
    p.tries != [] &&
    var last := p.tries[|p.tries| - 1];
    var kept := target in p.a.c.ids && Some(p.a.c.ids[target]) == last.made.id;
    && (p.a.c.conn <==> !CutShort(p.a.r))
    && (p.a.r.Ok? ==> kept)
    && (p.a.r.Err? && p.a.r.error.Status? ==>
          if p.a.r.error.code == 3 then target !in p.a.c.ids
          else if p.a.r.error.code == 4 then (if last.next.Some? then kept else target !in p.a.c.ids)
          else last.made.id.Some? && last.next.None? ==> kept)
  }

  lemma ForgetsExactly(a: Ans<Option<Json>>, target: Name)
    ensures var b := Forgets(a, target);
            && b.r == a.r && b.d == a.d && b.c == a.c.(ids := b.c.ids)
            && b.c.ids == if a.r == Err(Status(3)) || a.r == Err(Status(4)) then a.c.ids - {target} else a.c.ids
  {
  }

  lemma PassKeeps(c: Client, target: Name, pass: nat)
    ensures PassLeaves(OnePass(c, target, pass), target)
  {
    hide TryOnce, LookUp, Forgets;
    TryLeaves(c, target);
    var m := TryOnce(c, target);
    ForgetsExactly(m.a, target);
    if m.id.Some? && m.a.r == Err(Status(NOT_FOUND)) {
      var e := m.a.c.(ids := m.a.c.ids - {target});
      LookUpLeaves(e, target);
      LookUpLaws(e, target);
      var l := LookUp(e, target);
      if l.r.Ok? && l.r.value != m.id.value {
        TryLeaves(l.c, target);
        ForgetsExactly(TryOnce(l.c, target).a, target);
      }
    }
  }

  /** After a call the connection is open if and only if the conversation was not cut short, and the cache holds for the
      object what its last pass leaves. */
  lemma CallKeeps(c: Client, target: Name)
    ensures var p := Call(c, target, true); PassLeaves(p, target)
  {
    hide OnePass;
    var c0 := c.(maybeSent := false, stale := false);
    PassKeeps(c0, target, 1);
    var p := OnePass(c0, target, 1);
    if p.a.r.Err? && p.a.c.stale {
      var c1 := p.a.c.(stale := false);
      PassKeeps(c1, target, 2);
      var q := OnePass(c1, target, 2);
      assert (p.tries + q.tries)[|p.tries + q.tries| - 1] == q.tries[|q.tries| - 1];
    }
  }
}
