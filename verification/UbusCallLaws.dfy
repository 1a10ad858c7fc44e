/** What every call keeps, whatever ubusd does. */
module UbusCallLaws {
  import opened Common
  import opened Json
  import opened UbusBlob
  import opened UbusBlobLaws
  import opened UbusCall

  // ---- request numbers --------------------------------------------------------------------

  lemma NextNumber(k: nat)
    ensures NumberOf(k + 1) == NextNo(NumberOf(k))
  {
    if k > 0 {
      var q, m := (k - 1) / 65535, (k - 1) % 65535;
      assert k - 1 == 65535 * q + m;
      if m == 65534 {
        assert k == 65535 * (q + 1);
      } else {
        assert k % 65535 == m + 1;
      }
    }
  }

  /** A number is not used again within the next 65,534 requests, and is used again
      by the one after. */
  lemma NumbersDiffer(j: nat, k: nat)
    requires 0 < j < k
    ensures k - j <= 65534 ==> NumberOf(j) != NumberOf(k)
    ensures k - j == 65535 ==> NumberOf(j) == NumberOf(k)
  {
    var a, b := j - 1, k - 1;
    assert a == 65535 * (a / 65535) + a % 65535 && b == 65535 * (b / 65535) + b % 65535;
    if k - j == 65535 {
      assert b == 65535 * (a / 65535 + 1) + a % 65535;
    }
  }

  // ---- replies ---------------------------------------------------------------------------------

  /** A reply is its DATA frames in order, ended by its STATUS. */
  predicate MadeOf(reply: Reply, frames: seq<Frame>) {
    && frames != [] && |reply.data| == |frames| - 1
    && frames[|frames| - 1].hdr.msgType == STATUS
    && StatusOf(frames[|frames| - 1].body) == Some(reply.status)
    && forall i :: 0 <= i < |reply.data| ==> frames[i].hdr.msgType == DATA && reply.data[i] == frames[i].body
  }

  /** The frames of the script that belong to the request, up to its STATUS. */
  function Mine(script: seq<Happening>, no: U16, peer: U32): seq<Frame> {
    if script == [] || !script[0].Incoming? then []
    else
      var f := script[0].f;
      if !Ours(f, no, peer) then Mine(script[1..], no, peer)
      else if f.hdr.msgType == STATUS then [f]
      else [f] + Mine(script[1..], no, peer)
  }

  lemma {:induction false} MineIsOurs(script: seq<Happening>, no: U16, peer: U32)
    ensures forall f | f in Mine(script, no, peer) :: Ours(f, no, peer) && Incoming(f) in script
  {
    if script != [] && script[0].Incoming? && !(Ours(script[0].f, no, peer) && script[0].f.hdr.msgType == STATUS) {
      MineIsOurs(script[1..], no, peer);
    }
  }

  /** A reply after the frames already seen. */
  predicate Completes(reply: Reply, data: seq<seq<Byte>>, frames: seq<Frame>) {
    && frames != [] && |reply.data| == |data| + |frames| - 1 && reply.data[..|data|] == data
    && frames[|frames| - 1].hdr.msgType == STATUS
    && StatusOf(frames[|frames| - 1].body) == Some(reply.status)
    && forall i :: 0 <= i < |frames| - 1 ==> frames[i].hdr.msgType == DATA && reply.data[|data| + i] == frames[i].body
  }

  lemma {:induction false} FramesComplete(c: Client, target: Name, kind: Kind, peer: U32, data: seq<seq<Byte>>)
    requires Frames(c, target, kind, peer, data).r.Ok?
    ensures Completes(Frames(c, target, kind, peer, data).r.value, data, Mine(c.script, c.no, peer))
    decreases |c.script|
  {
    hide StatusOf, Completes;
    assert c.script != [] && c.script[0].Incoming?;
    var f := c.script[0].f;
    if !Ours(f, c.no, peer) {
      FramesComplete(Passed(c), target, kind, peer, data);
    } else if f.hdr.msgType == DATA {
      FramesComplete(Passed(c), target, kind, peer, data + [f.body]);
      CompletesMore(Frames(c, target, kind, peer, data).r.value, data, f, Mine(c.script[1..], c.no, peer));
    } else {
      CompletesNow(Frames(c, target, kind, peer, data).r.value, data, f);
    }
  }

  lemma CompletesMore(reply: Reply, data: seq<seq<Byte>>, f: Frame, rest: seq<Frame>)
    requires Completes(reply, data + [f.body], rest) && f.hdr.msgType == DATA
    ensures Completes(reply, data, [f] + rest)
  {
    hide StatusOf;
    var n := |data|;
    assert reply.data[..n] == reply.data[..n + 1][..n];
    assert reply.data[n] == reply.data[..n + 1][n] == f.body;
    assert ([f] + rest)[|rest|] == rest[|rest| - 1];
    assert forall i :: 0 < i < |rest| ==> ([f] + rest)[i] == rest[i - 1];
    assert forall i :: 0 <= i < |rest| - 1 ==> reply.data[|data + [f.body]| + i] == rest[i].body;
  }

  lemma CompletesNow(reply: Reply, data: seq<seq<Byte>>, f: Frame)
    requires reply.data == data && f.hdr.msgType == STATUS && StatusOf(f.body) == Some(reply.status)
    ensures Completes(reply, data, [f])
  {
  }

  /** A reply is the DATA bodies and the STATUS of frames with this request's number and peer,
      in the order in which they came. */
  lemma ReplyIsOurs(c: Client, target: Name, kind: Kind, peer: U32)
    requires Request(c, target, kind, peer).r.Ok?
    ensures var (p, e, d) := Write(c.(no := NextNo(c.no)), target, kind, peer);
            var mine := Mine(p.script, NextNo(c.no), peer);
            && MadeOf(Request(c, target, kind, peer).r.value, mine)
            && forall f | f in mine :: Ours(f, NextNo(c.no), peer)
  {
    hide Frames, StatusOf, Write, Mine, Ours;
    var n := c.(no := NextNo(c.no));
    WriteLaws(n, target, kind, peer);
    var (p, e, d) := Write(n, target, kind, peer);
    FramesComplete(p, target, kind, peer, []);
    MineIsOurs(p.script, p.no, peer);
  }

  // ---- what was delivered -----------------------------------------------------------------------

  /** An INVOKE that may have been delivered and was not answered NOT_FOUND. */
  predicate MayHaveRun(s: Sent) { s.kind.Invoke? && s.answer != Some(NOT_FOUND) }

  predicate NoneRan(s: seq<Sent>) { forall i :: 0 <= i < |s| ==> !MayHaveRun(s[i]) }

  predicate NoInvoke(s: seq<Sent>) { forall i :: 0 <= i < |s| ==> s[i].kind.Lookup? }

  /** Only the very last request may have run. */
  predicate OnlyLast(s: seq<Sent>) { s == [] || NoneRan(s[..|s| - 1]) }

  /** The ids that were invoked, in order. */
  function Invoked(s: seq<Sent>): seq<U32> {
    if s == [] then []
    else Invoked(s[..|s| - 1]) + if s[|s| - 1].kind.Invoke? then [s[|s| - 1].peer] else []
  }

  predicate LastAnswered(s: seq<Sent>, code: int) {
    s != [] && s[|s| - 1].kind.Invoke? && s[|s| - 1].answer == Some(code)
  }

  // ---- one request --------------------------------------------------------------------------------

  lemma {:induction false} FramesLaws(c: Client, target: Name, kind: Kind, peer: U32, data: seq<seq<Byte>>)
    ensures var a := Frames(c, target, kind, peer, data);
            && a.d == [Sent(kind, c.no, peer, if a.r.Ok? then Some(a.r.value.status) else None)]
            && a.c.no == c.no && a.c.stale == c.stale && a.c.maybeSent == c.maybeSent
            && (a.r.Ok? ==> a.c.conn == c.conn && a.c.ids == c.ids)
            && (a.r.Err? ==> !a.c.conn && (a.r.error == Io || a.r.error == Protocol || a.r.error == Timeout(target)))
    decreases |c.script|
  {
    hide StatusOf;
    if c.script != [] && c.script[0].Incoming? {
      var f := c.script[0].f;
      if !Ours(f, c.no, peer) {
        FramesLaws(Passed(c), target, kind, peer, data);
      } else if f.hdr.msgType == DATA {
        FramesLaws(Passed(c), target, kind, peer, data + [f.body]);
      }
    }
  }

  lemma SendLaws(c: Client, target: Name, kind: Kind, peer: U32, old_: bool)
    ensures var (p, e, d) := Send(c, target, kind, peer, old_);
            && p.no == c.no && (d == [] || d == [Sent(kind, c.no, peer, None)])
            && (e.None? ==> d == [] && p.conn == c.conn && p.stale == c.stale)
            && (d != [] ==> p.stale == c.stale)
            && (p.maybeSent <==> c.maybeSent || (kind.Invoke? && (d != [] || e.None?)))
            && (p.stale && !c.stale ==> old_ && e == Some(Io) && d == [] && p.ids == map[])
            && (e.Some? ==> !p.conn && (e.value == Io || e.value == Timeout(target)))
  {
  }

  lemma ConnectLaws(c: Client, target: Name)
    requires !c.conn
    ensures var (p, e) := Connect(c, target);
            && p.no == c.no && p.stale == c.stale && p.maybeSent == c.maybeSent && (p.conn <==> e.None?)
            && (e.Some? ==> e.value == Io || e.value == Protocol || e.value == Timeout(target))
  {
  }

  lemma WriteLaws(c: Client, target: Name, kind: Kind, peer: U32)
    ensures var (p, e, d) := Write(c, target, kind, peer);
            && p.no == c.no && (d == [] || d == [Sent(kind, c.no, peer, None)])
            && (e.None? ==> d == [] && p.conn && p.stale == c.stale)
            && (d != [] ==> p.stale == c.stale)
            && (p.maybeSent <==> c.maybeSent || (kind.Invoke? && (d != [] || e.None?)))
            && (p.stale && !c.stale ==> c.conn && e == Some(Io) && d == [] && p.ids == map[] && !p.conn)
            && (e.Some? ==> !p.conn && (e.value == Io || e.value == Protocol || e.value == Timeout(target)))
  {
    hide Send, Connect;
    if c.conn {
      SendLaws(c, target, kind, peer, true);
    } else {
      ConnectLaws(c, target);
      SendLaws(Connect(c, target).0, target, kind, peer, false);
    }
  }

  /** One request is sent at most once, and a write that failed on an old connection sends nothing
      and leaves no id. */
  lemma RequestLaws(c: Client, target: Name, kind: Kind, peer: U32)
    ensures var a := Request(c, target, kind, peer);
            && (a.d == [] || a.d == [Sent(kind, NextNo(c.no), peer, if a.r.Ok? then Some(a.r.value.status) else None)])
            && a.c.no == NextNo(c.no)
            && (a.r.Ok? ==> a.d != [] && a.c.conn) && (a.d != [] ==> a.c.stale == c.stale)
            && (a.c.maybeSent <==> c.maybeSent || (kind.Invoke? && a.d != []))
            && (a.c.stale && !c.stale ==> c.conn && a.r == Err(Io) && a.d == [] && a.c.ids == map[] && !a.c.conn)
            && (a.r.Err? ==> !a.c.conn && (a.r.error == Io || a.r.error == Protocol || a.r.error == Timeout(target)))
  {
    hide Write, Frames;
    var n := c.(no := NextNo(c.no));
    WriteLaws(n, target, kind, peer);
    var (p, e, d) := Write(n, target, kind, peer);
    FramesLaws(p, target, kind, peer, []);
  }

  // ---- requests one after another -----------------------------------------------------------------

  datatype Req = Req(target: Name, kind: Kind, peer: U32)

  /** The client after these requests, whatever came of them. */
  function Asked(c: Client, reqs: seq<Req>): Client {
    if reqs == [] then c
    else
      var last := reqs[|reqs| - 1];
      Request(Asked(c, reqs[..|reqs| - 1]), last.target, last.kind, last.peer).c
  }

  /** The number under which request `i` of these goes out. */
  function NoOf(c: Client, reqs: seq<Req>, i: nat): U16
    requires i < |reqs|
  {
    NextNo(Asked(c, reqs[..i]).no)
  }

  lemma {:induction false} AskedNumber(c: Client, count: nat, reqs: seq<Req>)
    requires c.no == NumberOf(count)
    ensures Asked(c, reqs).no == NumberOf(count + |reqs|)
  {
    hide Request, NumberOf;
    if reqs != [] {
      var front, last := reqs[..|reqs| - 1], reqs[|reqs| - 1];
      AskedNumber(c, count, front);
      RequestLaws(Asked(c, front), last.target, last.kind, last.peer);
      NextNumber(count + |front|);
    }
  }

  /** Whatever happens on the connection, no frame with the number of one of the previous 65,534 requests of
      this client becomes part of the answer to a request. */
  lemma OldRepliesDropped(c: Client, count: nat, reqs: seq<Req>, j: nat, k: nat, f: Frame)
    requires c.no == NumberOf(count) && j < k < |reqs| && k - j <= 65534
    requires f.hdr.no == NoOf(c, reqs, j)
    ensures var now, r := Asked(c, reqs[..k]), reqs[k];
            var p := Write(now.(no := NextNo(now.no)), r.target, r.kind, r.peer).0;
            && f !in Mine(p.script, NoOf(c, reqs, k), r.peer)
            && (Request(now, r.target, r.kind, r.peer).r.Ok? ==>
                  MadeOf(Request(now, r.target, r.kind, r.peer).r.value, Mine(p.script, NoOf(c, reqs, k), r.peer)))
  {
    hide Request, Write, MadeOf, NumberOf;
    var now, r := Asked(c, reqs[..k]), reqs[k];
    AskedNumber(c, count, reqs[..j]);
    AskedNumber(c, count, reqs[..k]);
    NextNumber(count + j);
    NextNumber(count + k);
    NumbersDiffer(count + j + 1, count + k + 1);
    var p := Write(now.(no := NextNo(now.no)), r.target, r.kind, r.peer).0;
    MineIsOurs(p.script, NextNo(now.no), r.peer);
    if Request(now, r.target, r.kind, r.peer).r.Ok? { ReplyIsOurs(now, r.target, r.kind, r.peer); }
  }

  lemma LookUpLaws(c: Client, target: Name)
    ensures var a := LookUp(c, target);
            && NoInvoke(a.d) && a.c.maybeSent == c.maybeSent
            && (a.c.stale && !c.stale ==> c.conn && a.r == Err(Io) && a.d == [])
            && (a.r.Ok? ==> a.c.stale == c.stale && target in a.c.ids && a.c.ids[target] == a.r.value)
            && (a.r.Err? ==> a.r.error != Status(NOT_FOUND))
  {
    hide Request, FirstId;
    RequestLaws(c, target, Lookup, 0);
    var q := Request(c, target, Lookup, 0);
    if q.r.Ok? { FirstIdErrs(q.r.value.data, target); }
  }

  lemma IdInErrs(body: seq<Byte>, target: Name)
    ensures IdIn(body, target).Err? ==> IdIn(body, target).error == Protocol
  {
    hide ParseAttrs, Slot, U32Of;
  }

  lemma {:induction false} FirstIdErrs(data: seq<seq<Byte>>, target: Name)
    ensures var r := FirstId(data, target); r.Err? ==> r.error == Protocol || r.error == NotFound(target)
  {
    hide ParseAttrs, Slot, U32Of;
    if data != [] { FirstIdErrs(data[1..], target); }
  }

  lemma {:induction false} FirstValueErrs(data: seq<seq<Byte>>)
    ensures var r := FirstValue(data); r.Err? ==> r.error == Protocol
  {
    hide ParseAttrs, Slot, DecodeObject;
    if data != [] { FirstValueErrs(data[1..]); }
  }

  lemma InvokeLaws(c: Client, target: Name, id: U32)
    ensures var a := DoInvoke(c, target, id);
            && (a.d == [] || (|a.d| == 1 && a.d[0].kind.Invoke? && a.d[0].peer == id))
            && (a.c.maybeSent <==> c.maybeSent || a.d != [])
            && (a.c.stale && !c.stale ==> a.r == Err(Io) && a.d == [])
            && (a.r.Ok? ==> a.d != [] && a.d[0].answer == Some(0))
            && (a.r.Err? && a.r.error.Status? ==> a.d != [] && a.d[0].answer == Some(a.r.error.code))
            && (a.d != [] ==> a.c.stale == c.stale)
            && (a.d != [] && a.d[0].answer == Some(NOT_FOUND) ==> a.r == Err(Status(NOT_FOUND)))
  {
    hide Request, FirstValue;
    RequestLaws(c, target, Invoke, id);
    var q := Request(c, target, Invoke, id);
    if q.r.Ok? { FirstValueErrs(q.r.value.data); }
  }

  // ---- lists of requests ---------------------------------------------------------------------------

  lemma {:induction false} InvokedBoth(a: seq<Sent>, b: seq<Sent>)
    ensures Invoked(a + b) == Invoked(a) + Invoked(b)
    decreases |b|
  {
    if b == [] {
      assert a + b == a;
    } else {
      assert (a + b)[..|a + b| - 1] == a + b[..|b| - 1];
      InvokedBoth(a, b[..|b| - 1]);
    }
  }

  lemma {:induction false} NotInvoked(s: seq<Sent>)
    ensures NoInvoke(s) <==> Invoked(s) == []
  {
    if s != [] {
      NotInvoked(s[..|s| - 1]);
      assert forall i :: 0 <= i < |s| - 1 ==> s[i] == s[..|s| - 1][i];
    }
  }

  /** Requests of which only the last may have run, after requests of which none ran. */
  lemma Joined(a: seq<Sent>, b: seq<Sent>)
    requires NoneRan(a) && OnlyLast(b)
    ensures OnlyLast(a + b) && (NoneRan(b) ==> NoneRan(a + b))
    ensures LastAnswered(b, 0) ==> LastAnswered(a + b, 0)
    ensures Invoked(a + b) == Invoked(a) + Invoked(b)
    ensures NoInvoke(a + b) <==> NoInvoke(a) && NoInvoke(b)
  {
    InvokedBoth(a, b);
    NotInvoked(a);
    NotInvoked(b);
    NotInvoked(a + b);
    assert forall i :: 0 <= i < |a| ==> (a + b)[i] == a[i];
    assert forall i :: 0 <= i < |b| ==> (a + b)[|a| + i] == b[i];
    if b == [] {
      assert a + b == a;
    } else {
      assert (a + b)[..|a| + |b| - 1] == a + b[..|b| - 1];
    }
  }

  lemma LookupsRunNothing(d: seq<Sent>)
    requires NoInvoke(d)
    ensures NoneRan(d) && OnlyLast(d) && Invoked(d) == []
  {
    NotInvoked(d);
  }

  lemma SingleInvoke(d: seq<Sent>)
    requires d == [] || (|d| == 1 && d[0].kind.Invoke?)
    ensures OnlyLast(d) && Invoked(d) == (if d == [] then [] else [d[0].peer])
    ensures d == [] || d[0].answer == Some(NOT_FOUND) ==> NoneRan(d)
    ensures NoInvoke(d) <==> d == []
  {
    if d != [] { assert d[..0] == []; }
  }

  // ---- one call --------------------------------------------------------------------------------------

  /** What an attempt is: at most one INVOKE, and nothing may have run if it was answered NOT_FOUND or
      failed on an old connection. */
  predicate AttemptOk(c: Client, m: Attempt) {
    && OnlyLast(m.a.d)
    && (m.a.c.maybeSent <==> c.maybeSent || !NoInvoke(m.a.d))
    && (m.a.r.Ok? ==> LastAnswered(m.a.d, 0))
    && (m.id.None? ==> m.a.r.Err?)
    && (m.a.c.stale ==> m.a.r == Err(Io) && NoneRan(m.a.d) && Invoked(m.a.d) == [])
    && (m.id.Some? && m.a.r == Err(Status(NOT_FOUND)) ==> NoneRan(m.a.d))
    && (Invoked(m.a.d) == [] || (m.id.Some? && Invoked(m.a.d) == [m.id.value]))
  }

  lemma AttemptLaws(c: Client, target: Name)
    requires !c.stale
    ensures AttemptOk(c, TryOnce(c, target))
    ensures target in c.ids ==> TryOnce(c, target).id == Some(c.ids[target])
  {
    hide LookUp, DoInvoke, OnlyLast, NoneRan, NoInvoke, Invoked, LastAnswered;
    if target in c.ids {
      InvokeLaws(c, target, c.ids[target]);
      InvokedAlone(c, DoInvoke(c, target, c.ids[target]), c.ids[target]);
    } else {
      LookUpLaws(c, target);
      var l := LookUp(c, target);
      LookupsRunNothing(l.d);
      if l.r.Ok? {
        InvokeLaws(l.c, target, l.r.value);
        var a := DoInvoke(l.c, target, l.r.value);
        InvokedAlone(l.c, a, l.r.value);
        Joined(l.d, a.d);
        assert [] + Invoked(a.d) == Invoked(a.d);
      }
    }
  }

  lemma InvokedAlone(c: Client, a: Ans<Option<Json>>, id: U32)
    requires a.d == [] || (|a.d| == 1 && a.d[0].kind.Invoke? && a.d[0].peer == id)
    requires a.r.Ok? ==> a.d != [] && a.d[0].answer == Some(0)
    ensures OnlyLast(a.d) && (NoInvoke(a.d) <==> a.d == []) && Invoked(a.d) == (if a.d == [] then [] else [id])
    ensures a.d == [] || a.d[0].answer == Some(NOT_FOUND) ==> NoneRan(a.d)
    ensures a.r.Ok? ==> LastAnswered(a.d, 0)
  {
    SingleInvoke(a.d);
  }

  predicate PassOk(c: Client, p: Pass) {
    && OnlyLast(p.a.d)
    && (p.a.c.maybeSent <==> c.maybeSent || !NoInvoke(p.a.d))
    && (p.a.r.Ok? ==> LastAnswered(p.a.d, 0))
    && (p.a.c.stale ==> p.a.r.Err? && NoneRan(p.a.d) && |Invoked(p.a.d)| <= 1)
    && |Invoked(p.a.d)| <= 2 && (|Invoked(p.a.d)| == 2 ==> Invoked(p.a.d)[0] != Invoked(p.a.d)[1])
  }

  /** `Forgets` changes nothing but the cache. */
  lemma ForgetsOnly(a: Ans<Option<Json>>, target: Name)
    ensures var b := Forgets(a, target);
            b.r == a.r && b.d == a.d && b.c == a.c.(ids := b.c.ids)
  {
  }

  lemma PassLaws(c: Client, target: Name, pass: nat)
    requires !c.stale
    ensures PassOk(c, OnePass(c, target, pass))
  {
    hide TryOnce, LookUp, Forgets, OnlyLast, NoneRan, NoInvoke, Invoked, LastAnswered;
    AttemptLaws(c, target);
    var m := TryOnce(c, target);
    ForgetsOnly(m.a, target);
    if m.id.Some? && m.a.r == Err(Status(NOT_FOUND)) {
      var e := m.a.c.(ids := m.a.c.ids - {target});
      LookUpLaws(e, target);
      var l := LookUp(e, target);
      LookupsRunNothing(l.d);
      Joined(m.a.d, l.d);
      if l.r.Ok? && l.r.value != m.id.value {
        SecondTry(c, m, l, target);
      }
    }
  }

  lemma SecondTry(c: Client, m: Attempt, l: Ans<U32>, target: Name)
    requires !m.a.c.stale && !l.c.stale && AttemptOk(c, m) && NoneRan(m.a.d + l.d) && l.c.maybeSent == m.a.c.maybeSent
    requires m.id.Some? && l.r.Ok? && target in l.c.ids && l.c.ids[target] == l.r.value != m.id.value
    requires NoInvoke(m.a.d + l.d) <==> NoInvoke(m.a.d)
    requires Invoked(m.a.d + l.d) == Invoked(m.a.d)
    ensures var n := TryOnce(l.c, target);
            var b := if n.id.None? then n.a else Forgets(n.a, target);
            forall tries :: PassOk(c, Pass(tries, b.(d := m.a.d + l.d + b.d)))
  {
    hide TryOnce, Forgets, OnlyLast, NoneRan, NoInvoke, Invoked, LastAnswered;
    AttemptLaws(l.c, target);
    var n := TryOnce(l.c, target);
    ForgetsOnly(n.a, target);
    Joined(m.a.d + l.d, n.a.d);
  }

  /** Against any behaviour of ubusd: of the requests that one call may have delivered, only the very last
      can be an INVOKE that was not answered NOT_FOUND; at most three were INVOKEs; the flag for the
      backend is exact; success means that the last one was answered OK. */
  lemma CallLaws(c: Client, target: Name, valid: bool)
    ensures var p := Call(c, target, valid);
            && OnlyLast(p.a.d) && |Invoked(p.a.d)| <= 3
            && (p.a.c.maybeSent <==> !NoInvoke(p.a.d))
            && (p.a.r.Ok? ==> LastAnswered(p.a.d, 0))
            && (!valid ==> p.a.r == Err(InvalidArgument) && p.a.d == [])
  {
    hide OnePass, OnlyLast, NoneRan, NoInvoke, Invoked, LastAnswered;
    NothingSent();
    if valid {
      var c0 := c.(maybeSent := false, stale := false);
      PassLaws(c0, target, 1);
      var p := OnePass(c0, target, 1);
      if p.a.r.Err? && p.a.c.stale {
        var c1 := p.a.c.(stale := false);
        PassLaws(c1, target, 2);
        Joined(p.a.d, OnePass(c1, target, 2).a.d);
      }
    }
  }

  lemma NothingSent()
    ensures OnlyLast([]) && NoInvoke([]) && Invoked([]) == []
  {
  }

  /** How many INVOKEs of these may have run. */
  function Runs(s: seq<Sent>): nat {
    if s == [] then 0 else Runs(s[..|s| - 1]) + if MayHaveRun(s[|s| - 1]) then 1 else 0
  }

  lemma {:induction false} NoneRanCount(s: seq<Sent>)
    requires NoneRan(s)
    ensures Runs(s) == 0
  {
    if s != [] { NoneRanCount(s[..|s| - 1]); }
  }

  /** Of the requests of one call at most one may have run. */
  lemma AtMostOneRuns(c: Client, target: Name, valid: bool)
    ensures Runs(Call(c, target, valid).a.d) <= 1
  {
    hide Call;
    CallLaws(c, target, valid);
    var d := Call(c, target, valid).a.d;
    if d != [] { NoneRanCount(d[..|d| - 1]); }
  }

  // ---- when an INVOKE is followed by another ------------------------------------------------------------

  /** The object was not found, and a new lookup gave another id. */
  predicate OtherId(t: Try) {
    && t.made.id.Some? && t.made.a.r == Err(Status(NOT_FOUND)) && t.next.Some?
    && t.next.value.r.Ok? && t.next.value.r.value != t.made.id.value
  }

  /** The object was not found, and the new lookup could not be written on the old connection. */
  predicate BrokeOff(t: Try) {
    && t.made.id.Some? && t.made.a.r == Err(Status(NOT_FOUND)) && t.next.Some?
    && t.next.value.c.stale
  }

  predicate Delivered(t: Try) { Invoked(t.made.a.d) != [] }

  predicate TriesOk(p: Pass, pass: nat) {
    && 1 <= |p.tries| <= 2 && (forall i :: 0 <= i < |p.tries| ==> p.tries[i].pass == pass)
    && (p.a.c.stale ==> p.a.r.Err?)
    && (|p.tries| == 2 ==> OtherId(p.tries[0]) && !BrokeOff(p.tries[0]) && !OtherId(p.tries[1]))
    && (|p.tries| == 1 ==> !OtherId(p.tries[0]))
    && var last := p.tries[|p.tries| - 1];
       Delivered(last) ==> (p.a.c.stale <==> BrokeOff(last))
  }

  lemma PassTries(c: Client, target: Name, pass: nat)
    requires !c.stale
    ensures TriesOk(OnePass(c, target, pass), pass)
  {
    hide TryOnce, LookUp, Forgets, OnlyLast, NoneRan, NoInvoke, Invoked, LastAnswered;
    AttemptLaws(c, target);
    var m := TryOnce(c, target);
    ForgetsOnly(m.a, target);
    if m.id.Some? && m.a.r == Err(Status(NOT_FOUND)) {
      var e := m.a.c.(ids := m.a.c.ids - {target});
      LookUpLaws(e, target);
      var l := LookUp(e, target);
      if l.r.Ok? && l.r.value != m.id.value {
        AttemptLaws(l.c, target);
        ForgetsOnly(TryOnce(l.c, target).a, target);
      }
    }
  }

  /** A delivered INVOKE is followed by another attempt if and only if it was answered NOT_FOUND and
      the lookup after it gave another id, or, in the first pass, could not be written on the old
      connection. */
  lemma RepeatIff(c: Client, target: Name, i: nat)
    requires i < |Call(c, target, true).tries| && Delivered(Call(c, target, true).tries[i])
    ensures var tries := Call(c, target, true).tries;
            i + 1 < |tries| <==> OtherId(tries[i]) || (tries[i].pass == 1 && BrokeOff(tries[i]))
  {
    hide OnePass, Delivered, OtherId, BrokeOff;
    var c0 := c.(maybeSent := false, stale := false);
    PassTries(c0, target, 1);
    var p := OnePass(c0, target, 1);
    if p.a.r.Err? && p.a.c.stale {
      var q := OnePass(p.a.c.(stale := false), target, 2);
      PassTries(p.a.c.(stale := false), target, 2);
      var n := |p.tries|;
      if i < n {
        assert (p.tries + q.tries)[i] == p.tries[i];
      } else {
        assert (p.tries + q.tries)[i] == q.tries[i - n];
      }
    }
  }

  predicate Twice(s: seq<U32>) { exists i, j :: 0 <= i < j < |s| && s[i] == s[j] }

  /** The same id is invoked twice in one call if and only if the first pass, after an INVOKE that was
      delivered and answered NOT_FOUND, failed to write on the old connection, and the second pass
      delivers an INVOKE to that id. */
  lemma SameIdIff(c: Client, target: Name)
    ensures var p := OnePass(c.(maybeSent := false, stale := false), target, 1);
            var q := OnePass(p.a.c.(stale := false), target, 2);
            && (p.a.c.stale ==> p.a.r.Err? && NoneRan(p.a.d) && |Invoked(p.a.d)| <= 1)
            && (Twice(Invoked(Call(c, target, true).a.d)) <==>
                  p.a.c.stale && Invoked(p.a.d) != [] && Invoked(p.a.d)[0] in Invoked(q.a.d))
  {
    hide OnePass, OnlyLast, NoneRan, NoInvoke, Invoked, LastAnswered;
    var c0 := c.(maybeSent := false, stale := false);
    var p := OnePass(c0, target, 1);
    PassLaws(c0, target, 1);
    var c1 := p.a.c.(stale := false);
    var q := OnePass(c1, target, 2);
    PassLaws(c1, target, 2);
    if p.a.c.stale {
      InvokedBoth(p.a.d, q.a.d);
      TwiceOf(Invoked(p.a.d), Invoked(q.a.d));
    } else {
      NotTwice(Invoked(p.a.d));
    }
  }

  lemma NotTwice(a: seq<U32>)
    requires |a| <= 2 && (|a| == 2 ==> a[0] != a[1])
    ensures !Twice(a)
  {
  }

  lemma TwiceOf(a: seq<U32>, b: seq<U32>)
    requires |a| <= 1 && |b| <= 2 && (|b| == 2 ==> b[0] != b[1])
    ensures Twice(a + b) <==> a != [] && a[0] in b
  {
    if a != [] && a[0] in b {
      var j :| 0 <= j < |b| && b[j] == a[0];
      assert (a + b)[0] == (a + b)[1 + j];
    }
  }

  // ---- a run that invokes the same id twice ----------------------------------------------------------------

  function StatusBody(code: nat): seq<Byte> { PutAttr(ATTR_STATUS, false, Be(code, 4)).value }

  function IdBody(target: Name, id: U32): seq<Byte>
    requires |target| <= 128
  {
    PutAttr(ATTR_OBJPATH, false, target + [0]).value + PutAttr(ATTR_OBJID, false, Be(id, 4)).value
  }

  function Told(ty: Byte, no: U16, peer: U32, body: seq<Byte>): Happening {
    Incoming(Frame(MsgHdr(0, ty, no, peer), body))
  }

  lemma StatusReads(code: nat)
    requires code < 0x8000_0000
    ensures StatusOf(StatusBody(code)) == Some(code)
  {
    hide ParseAttrs, PutAttr, Be, FromBe;
    ParsePut(ATTR_STATUS, false, Be(code, 4));
    SpanValues();
    BeRound(code, 4);
  }

  lemma IdParses(target: Name, id: U32)
    requires |target| <= 128
    ensures ParseAttrs(IdBody(target, id)) ==
              Ok([Attr(ATTR_OBJPATH, false, target + [0]), Attr(ATTR_OBJID, false, Be(id, 4))])
  {
    hide ParseAttrs, Be;
    TwoParse(ATTR_OBJPATH, target + [0], ATTR_OBJID, Be(id, 4));
  }

  lemma TwoParse(i: nat, a: seq<Byte>, j: nat, b: seq<Byte>)
    requires AttrFits(i, a) && AttrFits(j, b) && Small(HDR_LEN + |a|) && Small(HDR_LEN + |b|)
    ensures ParseAttrs(PutAttr(i, false, a).value + PutAttr(j, false, b).value) == Ok([Attr(i, false, a), Attr(j, false, b)])
  {
    ParsePut(i, false, a);
    ParsePut(j, false, b);
    var x, y := PutAttr(i, false, a).value, PutAttr(j, false, b).value;
    hide ParseAttrs, PutAttr, AttrFits;
    ParseAppend(x, y);
    assert [Attr(i, false, a)] + [Attr(j, false, b)] == [Attr(i, false, a), Attr(j, false, b)];
  }

  lemma IdReads(target: Name, id: U32)
    requires |target| <= 128 && 0 !in target
    ensures FirstId([IdBody(target, id)], target) == Ok(id)
  {
    hide ParseAttrs, IdBody, Be, FromBe, UpToNul, Slot;
    IdParses(target, id);
    var a, b := Attr(ATTR_OBJPATH, false, target + [0]), Attr(ATTR_OBJID, false, Be(id, 4));
    SpanValues();
    BeRound(id, 4);
    UpToNulEnds(target);
    UpToNulSame(target);
    SlotsOfTwo(a, b);
    assert IdIn(IdBody(target, id), target) == Ok(Some(id));
  }

  lemma SlotsOfTwo(a: Attr, b: Attr)
    requires a.id != b.id
    ensures Slot([a, b], a.id) == Some(a) && Slot([a, b], b.id) == Some(b)
  {
    assert [a, b][..1] == [a];
  }

  /** Written on the connection and answered with a status alone. */
  lemma Answered(c: Client, target: Name, kind: Kind, peer: U32, code: nat, rest: seq<Happening>)
    requires c.conn && code < 0x8000_0000
    requires c.script == [Accepted, Told(STATUS, NextNo(c.no), peer, StatusBody(code))] + rest
    ensures Request(c, target, kind, peer) ==
              Ans(c.(no := NextNo(c.no), script := rest, maybeSent := c.maybeSent || kind.Invoke?),
                  Ok(Reply([], code)), [Sent(kind, NextNo(c.no), peer, Some(code))])
  {
    hide StatusOf;
    StatusReads(code);
    var n := c.(no := NextNo(c.no));
    var p := n.(script := c.script[1..], maybeSent := c.maybeSent || kind.Invoke?);
    assert Write(n, target, kind, peer) == (p, None, []);
    assert p.script[0] == Told(STATUS, p.no, peer, StatusBody(code)) && p.script[1..] == rest;
  }

  /** The lookup of a client without a connection. */
  lemma Found(c: Client, target: Name, id: U32, rest: seq<Happening>)
    requires !c.conn && |target| <= 128 && 0 !in target
    requires c.script == [Accepted, Told(HELLO, 0, 0, []), Accepted, Told(DATA, NextNo(c.no), 0, IdBody(target, id)),
                          Told(STATUS, NextNo(c.no), 0, StatusBody(0))] + rest
    ensures LookUp(c, target) ==
              Ans(c.(conn := true, no := NextNo(c.no), script := rest, ids := c.ids[target := id]), Ok(id),
                  [Sent(Lookup, NextNo(c.no), 0, Some(0))])
  {
    hide StatusOf, FirstId;
    StatusReads(0);
    IdReads(target, id);
    hide StatusBody, IdBody;
    var n := c.(no := NextNo(c.no));
    var p := n.(conn := true, script := c.script[3..]);
    assert Passed(Passed(n)).script == c.script[2..];
    assert Connect(n, target) == (n.(conn := true, script := c.script[2..]), None);
    assert Write(n, target, Lookup, 0) == (p, None, []);
    var body := IdBody(target, id);
    assert p.script[0] == Told(DATA, p.no, 0, body);
    var q := Passed(p);
    assert q.script[0] == Told(STATUS, p.no, 0, StatusBody(0)) && Tail(q.script) == rest;
    assert [] + [body] == [body];
    assert Frames(p, target, Lookup, 0, []) == Frames(q, target, Lookup, 0, [body]);
  }

  /** A client with an open connection and a known id. */
  function Ready(target: Name, id: U32, script: seq<Happening>): Client {
    Client(true, 0, map[target := id], false, false, script)
  }

  /** The service answers NOT_FOUND of its own accord; then ubusd restarts, so that the lookup cannot be
      written; the object has the same id again. */
  function Restarted(target: Name, id: U32): seq<Happening>
    requires |target| <= 128
  {
    [Accepted, Told(STATUS, 1, id, StatusBody(4)), Refused,
     Accepted, Told(HELLO, 0, 0, []), Accepted, Told(DATA, 3, 0, IdBody(target, id)), Told(STATUS, 3, 0, StatusBody(0)),
     Accepted, Told(STATUS, 4, id, StatusBody(0))]
  }

  /** The same id is invoked twice in one call, and both INVOKEs are delivered and answered. */
  lemma SameIdTwice(target: Name, id: U32)
    requires |target| <= 128 && 0 !in target
    ensures var p := Call(Ready(target, id, Restarted(target, id)), target, true);
            Invoked(p.a.d) == [id, id] && p.a.r == Ok(None)
  {
    hide StatusBody, IdBody, Request, LookUp;
    var script := Restarted(target, id);
    var c := Ready(target, id, script);
    var c1 := c.(no := 1, script := script[2..], maybeSent := true);
    Answered(c, target, Invoke, id, 4, script[2..]);
    assert TryOnce(c, target).a == Ans(c1, Err(Status(NOT_FOUND)), [Sent(Invoke, 1, id, Some(4))]);
    var c2 := c1.(ids := c1.ids - {target});
    var c3 := c2.(no := 2, script := script[3..], conn := false, ids := map[], stale := true);
    BreaksOff(c2, target);
    assert script[2..][1..] == script[3..];
    var p := OnePass(c, target, 1);
    assert p.a == Ans(c3, Err(Io), [Sent(Invoke, 1, id, Some(4))] + []);
    SecondPass(c3.(stale := false), target, id);
    var q := OnePass(c3.(stale := false), target, 2);
    var d := [Sent(Invoke, 1, id, Some(4))] + [];
    assert c == c.(maybeSent := false, stale := false);
    InvokedBoth(d, q.a.d);
    SingleInvoke(d);
  }

  lemma BreaksOff(c: Client, target: Name)
    requires c.conn && c.script != [] && c.script[0] == Refused
    ensures LookUp(c, target) ==
              Ans(c.(no := NextNo(c.no), script := c.script[1..], conn := false, ids := map[], stale := true), Err(Io), [])
  {
  }

  lemma SecondPass(c: Client, target: Name, id: U32)
    requires |target| <= 128 && 0 !in target && !c.conn && c.no == 2 && c.ids == map[] && c.script == Restarted(target, id)[3..]
    ensures var q := OnePass(c, target, 2);
            Invoked(q.a.d) == [id] && q.a.r == Ok(None)
  {
    hide StatusBody, IdBody, Request, LookUp;
    var rest := c.script[5..];
    assert c.script == c.script[..5] + rest;
    Found(c, target, id, rest);
    var l := LookUp(c, target);
    assert rest == rest[..2] + [];
    Answered(l.c, target, Invoke, id, 0, []);
    assert FirstValue([]) == Ok(None);
    var a := DoInvoke(l.c, target, id);
    assert a.r == Ok(None) && a.d == [Sent(Invoke, 4, id, Some(0))];
    InvokedBoth(l.d, a.d);
    SingleInvoke(a.d);
    NotInvoked(l.d);
  }
}
