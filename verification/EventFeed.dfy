/** The event stream of `v2.rs`: the hub's sink is a bounded broadcast channel; a
    subscriber joins and takes its snapshot under the hub's lock, then receives
    events at its own pace, and its stream ends when it falls too far behind. */
module EventFeed {
  import opened Common
  import opened Json
  import opened BlockHub
  import opened BlockHubLaws

  const CAPACITY: nat := 64

  /** What a client holds about one block. */
  datatype Row = Row(revision: nat, observedAt: nat, stale: bool, data: Json)

  type Replica = map<string, Row>

  /** `next` is the receiver's cursor: how many events were sent before the one it
      reads next. `snapshot` and `got` are what the client has received, `rows` what it made of it. */
  datatype Subscriber = Subscriber(
    cut: nat, snapshot: Replica, next: nat, got: seq<Event>, rows: Replica, ended: bool)

  /** The channel keeps the newest events in `ring`; `sent` counts all of them. */
  datatype Feed = Feed(hub: Hub, ring: seq<Event>, sent: nat, subs: seq<Subscriber>)

  datatype Step =
    | HubStep(op: Op)
    | Subscribe
    | Receive(k: nat)

  // ---- the client ----------------------------------------------------------------------

  function RowOf(b: Block): Row { Row(b.revision, b.observedAt, b.stale, b.Shown()) }

  /** The snapshot of the first `n` blocks, collected by name. */
  function SnapshotOf(h: Hub, n: nat): Replica
    requires n <= |h.blocks| == |h.specs|
  {
    if n == 0 then map[] else SnapshotOf(h, n - 1)[h.specs[n - 1].name := RowOf(h.blocks[n - 1])]
  }

  function TakeTimes(rows: Replica, times: seq<(string, nat)>): Replica {
    if times == [] then rows
    else
      var front := TakeTimes(rows, times[..|times| - 1]);
      var (name, at) := times[|times| - 1];
      if name in front then front[name := front[name].(observedAt := at)] else front
  }

  function Apply(rows: Replica, e: Event): Replica {
    match e
    case BlockEvent(_, name, revision, observedAt, stale, data) =>
      rows[name := Row(revision, observedAt, stale, data)]
    case Heartbeat(_, times, _) => TakeTimes(rows, times)
  }

  function Replay(rows: Replica, events: seq<Event>): Replica {
    if events == [] then rows
    else Apply(Replay(rows, events[..|events| - 1]), events[|events| - 1])
  }

  // ---- steps -------------------------------------------------------------------------------

  function Newest(events: seq<Event>): seq<Event> {
    if |events| <= CAPACITY then events else events[|events| - CAPACITY..]
  }

  /** `FeedSink::emit` for every event of the operation. */
  function Emit(f: Feed, h: Hub): Feed
    requires |f.hub.log| <= |h.log|
  {
    var more := h.log[|f.hub.log|..];
    f.(hub := h, ring := Newest(f.ring + more), sent := f.sent + |more|)
  }

  /** `subscribe`: both under the hub's lock. */
  function Join(f: Feed): Feed
    requires |f.hub.blocks| == |f.hub.specs|
  {
    var rows := SnapshotOf(f.hub, |f.hub.blocks|);
    f.(subs := f.subs + [Subscriber(f.hub.no, rows, f.sent, [], rows, false)])
  }

  /** The receiver is polled: lagging behind the ring ends the stream. */
  function Polled(f: Feed, s: Subscriber): Subscriber
    requires |f.ring| <= f.sent
  {
    var oldest := f.sent - |f.ring|;
    if s.ended || s.next >= f.sent then s
    else if s.next < oldest then s.(ended := true)
    else
      var e := f.ring[s.next - oldest];
      s.(next := s.next + 1, got := s.got + [e], rows := Apply(s.rows, e))
  }

  ghost predicate Possible(f: Feed, step: Step) {
    match step
    case HubStep(op) => |f.hub.blocks| == |f.hub.specs| && |f.hub.log| <= |Do(f.hub, op).log|
    case Subscribe => |f.hub.blocks| == |f.hub.specs|
    case Receive(k) => k < |f.subs| && |f.ring| <= f.sent
  }

  ghost function Take(f: Feed, step: Step): Feed
    requires Possible(f, step)
  {
    match step
    case HubStep(op) => Emit(f, Do(f.hub, op))
    case Subscribe => Join(f)
    case Receive(k) => f.(subs := f.subs[k := Polled(f, f.subs[k])])
  }

  // ---- the invariant -------------------------------------------------------------------------

  /** The subscriber received exactly the events after its cut, without a gap, and replayed them on
      its snapshot. */
  predicate SubOk(log: seq<Event>, s: Subscriber) {
    && s.next == s.cut + |s.got| <= |log|
    && s.got == log[s.cut..s.next]
    && s.rows == Replay(s.snapshot, s.got)
  }

  /** Its rows agree with what the log says after the last event it received. */
  predicate Mirrors(log: seq<Event>, specs: seq<Spec>, s: Subscriber) {
    s.next <= |log| &&
    forall i :: 0 <= i < |specs| ==> Agrees(log[..s.next], specs[i].name, s.rows)
  }

  predicate Agrees(log: seq<Event>, name: string, rows: Replica) {
    name in rows && View(rows[name].revision, rows[name].stale, rows[name].data) == Seen(log, name)
  }

  /** Entry `i` is the last one for its name. */
  predicate LastOf(times: seq<(string, nat)>, i: nat)
    requires i < |times|
  {
    forall j :: i < j < |times| ==> times[j].0 != times[i].0
  }

  /** Right after a heartbeat the rows hold its observation times. */
  ghost predicate Timed(s: Subscriber) {
    s.got != [] && s.got[|s.got| - 1].Heartbeat? ==>
      var times := s.got[|s.got| - 1].times;
      forall i: nat | i < |times| && LastOf(times, i) && times[i].0 in s.rows ::
        s.rows[times[i].0].observedAt == times[i].1
  }

  ghost predicate Joined(f: Feed) {
    && HubInv(f.hub) && f.sent == |f.hub.log| && f.ring == Newest(f.hub.log)
    && (forall k: nat | k < |f.subs| :: SubOk(f.hub.log, f.subs[k]) && Mirrors(f.hub.log, f.hub.specs, f.subs[k]))
    && forall k: nat | k < |f.subs| :: Timed(f.subs[k])
  }

  // ---- logs only grow ---------------------------------------------------------------------------

  predicate Extends(a: seq<Event>, b: seq<Event>) {
    |a| <= |b| && b[..|a|] == a
  }

  lemma {:induction false} ReshapeGrows(h: Hub, i: nat, j: nat, now: nat)
    requires i < |h.blocks| == |h.specs|
    ensures Extends(h.log, Reshape(h, i, j, now).log)
    decreases |h.blocks| - j
  {
    if j < |h.blocks| { ReshapeGrows(ReshapeOne(h, i, j, now), i, j + 1, now); }
  }

  lemma {:induction false} ExpireGrows(h: Hub, j: nat, now: nat, sample: nat)
    requires |h.blocks| == |h.specs|
    ensures Extends(h.log, Expire(h, j, now, sample).log)
    decreases |h.blocks| - j
  {
    if j < |h.blocks| { ExpireGrows(ExpireOne(h, j, now, sample), j + 1, now, sample); }
  }

  lemma {:induction false} HooksGrow(h: Hub, j: nat, now: nat)
    requires |h.blocks| == |h.specs|
    ensures Extends(h.log, Hooks(h, j, now).log)
    decreases |h.blocks| - j
  {
    if j < |h.blocks| { HooksGrow(HookOne(h, j, now), j + 1, now); }
  }

  lemma RecordReadGrows(h: Hub, i: nat, result: Outcome<Json, string>, now: nat, wall: nat)
    requires i < |h.blocks| == |h.specs|
    ensures Extends(h.log, RecordRead(h, i, result, now, wall).log)
  {
    if result.Ok? && result.value.Obj? {
      var o := h.blocks[i];
      var b := o.(lastAttempt := Some(now), immediate := false, lastFailed := false,
                  lastSuccess := Some(now), observedAt := wall, raw := Some(result.value),
                  data := Some(Shape(h.specs, h.blocks, i, result.value)), stale := false, judgedAt := now);
      ReshapeGrows(Put(h, i, b, Judged(h.specs[i], b, now), o.stale, now), i, 0, now);
    }
  }

  lemma DoGrows(h: Hub, op: Op)
    requires |h.blocks| == |h.specs|
    ensures Extends(h.log, Do(h, op).log)
  {
    match op
    case Read(i, result, now, wall) => if i < |h.blocks| { RecordReadGrows(h, i, result, now, wall); }
    case Named(name, result, now, wall) =>
      var i := IndexOf(h.specs, name);
      if i.Some? { RecordReadGrows(h, i.value, result, now, wall); }
    case Age(now, sample) => ExpireGrows(h, 0, now, sample);
    case EndRound(now, sample) =>
      ExpireGrows(h, 0, now, sample);
      HooksGrow(Expire(h, 0, now, sample), 0, now);
    case _ =>
  }

  // ---- replicas ------------------------------------------------------------------------------------

  lemma {:induction false} SnapshotHas(h: Hub, n: nat, i: nat)
    requires SpecsOk(h.specs) && i < n <= |h.blocks| == |h.specs|
    ensures h.specs[i].name in SnapshotOf(h, n) && SnapshotOf(h, n)[h.specs[i].name] == RowOf(h.blocks[i])
  {
    if i < n - 1 { SnapshotHas(h, n - 1, i); }
  }

  /** A heartbeat changes nothing but the observation times. */
  lemma {:induction false} TimesKeep(rows: Replica, times: seq<(string, nat)>, name: string)
    requires name in rows
    ensures var r := TakeTimes(rows, times);
            name in r && r[name] == rows[name].(observedAt := r[name].observedAt)
  {
    if times != [] { TimesKeep(rows, times[..|times| - 1], name); }
  }

  /** The last time given for a name is the one kept. */
  lemma {:induction false} TimesTaken(rows: Replica, times: seq<(string, nat)>, i: nat)
    requires i < |times| && LastOf(times, i) && times[i].0 in TakeTimes(rows, times)
    ensures TakeTimes(rows, times)[times[i].0].observedAt == times[i].1
  {
    var front := times[..|times| - 1];
    if i < |front| {
      assert LastOf(front, i);
      TimesTaken(rows, front, i);
    }
  }

  lemma ApplyAgrees(log: seq<Event>, e: Event, name: string, rows: Replica)
    requires Agrees(log, name, rows)
    ensures Agrees(log + [e], name, Apply(rows, e))
  {
    SeenAppend(log, e, name);
    if e.Heartbeat? { TimesKeep(rows, e.times, name); }
  }

  // ---- every step keeps the invariant ---------------------------------------------------------------

  lemma HubStepKeeps(f: Feed, op: Op)
    requires Joined(f)
    ensures Possible(f, HubStep(op)) && Joined(Take(f, HubStep(op)))
  {
    var h := Do(f.hub, op);
    DoGrows(f.hub, op);
    DoKeeps(f.hub, op);
    DoSpecs(f.hub, op);
    var v := Emit(f, h);
    RingKeeps(f.hub.log, h.log);
    forall k: nat | k < |v.subs|
      ensures SubOk(h.log, v.subs[k]) && Mirrors(h.log, h.specs, v.subs[k])
    {
      var s := f.subs[k];
      assert SubOk(f.hub.log, s) && Mirrors(f.hub.log, f.hub.specs, s);
      assert h.log[s.cut..s.next] == f.hub.log[s.cut..s.next];
      assert h.log[..s.next] == f.hub.log[..s.next];
    }
  }

  lemma RingKeeps(a: seq<Event>, b: seq<Event>)
    requires Extends(a, b)
    ensures Newest(Newest(a) + b[|a|..]) == Newest(b)
  {
    if |a| <= CAPACITY {
      assert a + b[|a|..] == b;
    } else {
      var from := |a| - CAPACITY;
      assert Newest(a) == b[from..|a|];
      assert b[from..|a|] + b[|a|..] == b[from..];
      assert b[from..][|b| - from - CAPACITY..] == b[|b| - CAPACITY..];
    }
  }

  lemma SubscribeKeeps(f: Feed)
    requires Joined(f)
    ensures Joined(Join(f))
  {
    var s := Join(f).subs[|f.subs|];
    assert f.hub.log[..s.next] == f.hub.log;
    forall i | 0 <= i < |f.hub.specs|
      ensures Agrees(f.hub.log[..s.next], f.hub.specs[i].name, s.rows)
    {
      SnapshotHas(f.hub, |f.hub.blocks|, i);
      assert ViewOk(f.hub.log, f.hub.specs[i], f.hub.blocks[i]);
    }
  }

  lemma PolledSub(f: Feed, s: Subscriber)
    requires f.sent == |f.hub.log| && f.ring == Newest(f.hub.log) && SubOk(f.hub.log, s)
    ensures |f.ring| <= f.sent && SubOk(f.hub.log, Polled(f, s))
    ensures Polled(f, s).next != s.next ==>
              Polled(f, s).next == s.next + 1 <= |f.hub.log| && Polled(f, s).rows == Apply(s.rows, f.hub.log[s.next])
  {
    hide Apply;
    var t := Polled(f, s);
    var log := f.hub.log;
    if t.next != s.next {
      var e := log[s.next];
      assert f.ring[s.next - (f.sent - |f.ring|)] == e;
      assert log[s.cut..t.next] == log[s.cut..s.next] + [e];
      assert t.got[..|s.got|] == s.got;
    }
  }

  lemma PolledMirrors(log: seq<Event>, specs: seq<Spec>, s: Subscriber, t: Subscriber)
    requires Mirrors(log, specs, s) && t.next == s.next + 1 <= |log| && t.rows == Apply(s.rows, log[s.next])
    ensures Mirrors(log, specs, t)
  {
    hide Apply, Agrees;
    assert log[..t.next] == log[..s.next] + [log[s.next]];
    forall i | 0 <= i < |specs|
      ensures Agrees(log[..t.next], specs[i].name, t.rows)
    {
      ApplyAgrees(log[..s.next], log[s.next], specs[i].name, s.rows);
    }
  }

  lemma ReceiveKeeps(f: Feed, k: nat)
    requires Joined(f) && k < |f.subs|
    ensures Possible(f, Receive(k)) && Joined(Take(f, Receive(k)))
  {
    hide SubOk, Mirrors, Timed, HubInv;
    var s := f.subs[k];
    assert SubOk(f.hub.log, s) && Mirrors(f.hub.log, f.hub.specs, s) && Timed(s);
    PolledSub(f, s);
    var t := Polled(f, s);
    if t.next != s.next {
      PolledMirrors(f.hub.log, f.hub.specs, s, t);
    } else {
      SameMirror(f, s);
    }
    PolledTimed(f, s);
  }

  lemma SameMirror(f: Feed, s: Subscriber)
    requires |f.ring| <= f.sent && Polled(f, s).next == s.next && Mirrors(f.hub.log, f.hub.specs, s)
    ensures Mirrors(f.hub.log, f.hub.specs, Polled(f, s))
  {
  }

  lemma PolledTimed(f: Feed, s: Subscriber)
    requires Timed(s) && |f.ring| <= f.sent
    ensures Timed(Polled(f, s))
  {
    var t := Polled(f, s);
    if t.got != s.got && t.got[|t.got| - 1].Heartbeat? {
      var times := t.got[|t.got| - 1].times;
      forall i: nat | i < |times| && LastOf(times, i) && times[i].0 in t.rows
        ensures t.rows[times[i].0].observedAt == times[i].1
      {
        TimesTaken(s.rows, times, i);
      }
    }
  }

  // ---- whole runs ---------------------------------------------------------------------------------------

  ghost predicate Runs(f: Feed, steps: seq<Step>)
    decreases |steps|
  {
    steps == [] || (Possible(f, steps[0]) && Runs(Take(f, steps[0]), steps[1..]))
  }

  ghost function After(f: Feed, steps: seq<Step>): Feed
    requires Runs(f, steps)
    decreases |steps|
  {
    if steps == [] then f else After(Take(f, steps[0]), steps[1..])
  }

  lemma {:induction false} RunJoined(f: Feed, steps: seq<Step>)
    requires Joined(f) && Runs(f, steps)
    ensures Joined(After(f, steps))
    decreases |steps|
  {
    if steps != [] {
      match steps[0] {
        case HubStep(op) => HubStepKeeps(f, op);
        case Subscribe => SubscribeKeeps(f);
        case Receive(k) => ReceiveKeeps(f, k);
      }
      RunJoined(Take(f, steps[0]), steps[1..]);
    }
  }

  function Start(specs: seq<Spec>): Feed { Feed(BlockHub.New(specs), [], 0, []) }

  /** The events are numbered without a gap. */
  lemma GotNumbered(h: Hub, s: Subscriber, n: nat)
    requires LogOk(h) && SubOk(h.log, s) && n < |s.got|
    ensures s.got[n].no == s.cut + 1 + n
  {
    assert EventOk(h.log, s.cut + n);
  }

  lemma RowsEqual(h: Hub, s: Subscriber, i: nat)
    requires Steady(h) && SubOk(h.log, s) && Mirrors(h.log, h.specs, s) && s.next == |h.log| && i < |h.specs|
    ensures h.specs[i].name in s.rows
    ensures var r := s.rows[h.specs[i].name]; r == RowOf(h.blocks[i]).(observedAt := r.observedAt)
  {
    assert Agrees(h.log[..s.next], h.specs[i].name, s.rows);
    assert ViewOk(h.log, h.specs[i], h.blocks[i]);
    assert h.log[..s.next] == h.log;
  }

  lemma TimesEqual(h: Hub, s: Subscriber, i: nat)
    requires |h.blocks| == |h.specs| && SpecsOk(h.specs) && i < |h.specs|
    requires SubOk(h.log, s) && Timed(s) && s.next == |h.log|
    requires s.got != [] && EndsWithBeat(h) && h.specs[i].name in s.rows
    ensures s.rows[h.specs[i].name].observedAt == h.blocks[i].observedAt
  {
    assert s.got[|s.got| - 1] == h.log[|h.log| - 1];
    var times := Times(h);
    assert times[i] == (h.specs[i].name, h.blocks[i].observedAt);
    assert LastOf(times, i);
  }

  /** Any subscriber of any run has received the events numbered `cut + 1`,
      `cut + 2`, … without a gap. */
  lemma NoGap(specs: seq<Spec>, steps: seq<Step>, k: nat, n: nat)
    requires SpecsOk(specs) && Runs(Start(specs), steps)
    requires k < |After(Start(specs), steps).subs| && n < |After(Start(specs), steps).subs[k].got|
    ensures var s := After(Start(specs), steps).subs[k];
            s.got[n].no == s.cut + 1 + n
  {
    hide Possible, Take, BlockHubLaws.Do, BlockHubLaws.EventOk;
    NewInv(specs);
    RunJoined(Start(specs), steps);
    var f := After(Start(specs), steps);
    GotNumbered(f.hub, f.subs[k], n);
  }

  /** A subscriber that has received everything sent so far holds the hub's
      revision, stale flag and published data of every block; right after a
      heartbeat, the observation time too. */
  lemma CaughtUp(specs: seq<Spec>, steps: seq<Step>, k: nat, i: nat)
    requires SpecsOk(specs) && Runs(Start(specs), steps) && i < |specs|
    requires k < |After(Start(specs), steps).subs|
    ensures var f := After(Start(specs), steps);
            var s := f.subs[k];
            && |f.hub.blocks| == |f.hub.specs| == |specs|
            && s.rows == Replay(s.snapshot, s.got)
            && (s.next == f.sent ==>
                 && specs[i].name in s.rows
                 && var r := s.rows[specs[i].name];
                 && r == RowOf(f.hub.blocks[i]).(observedAt := r.observedAt)
                 && (s.got != [] && EndsWithBeat(f.hub) ==> r == RowOf(f.hub.blocks[i])))
  {
    hide Possible, Take, BlockHubLaws.Do, BlockHubLaws.EventOk, EndsWithBeat;
    NewInv(specs);
    RunJoined(Start(specs), steps);
    RunSpecs(Start(specs), steps);
    var f := After(Start(specs), steps);
    var s := f.subs[k];
    assert SubOk(f.hub.log, s) && Mirrors(f.hub.log, f.hub.specs, s) && Timed(s);
    if s.next == f.sent {
      RowsEqual(f.hub, s, i);
      if s.got != [] && EndsWithBeat(f.hub) { TimesEqual(f.hub, s, i); }
    }
  }

  lemma {:induction false} RunSpecs(f: Feed, steps: seq<Step>)
    requires Joined(f) && Runs(f, steps)
    ensures After(f, steps).hub.specs == f.hub.specs
    decreases |steps|
  {
    if steps != [] {
      match steps[0] {
        case HubStep(op) =>
          HubStepKeeps(f, op);
          DoSpecs(f.hub, op);
        case Subscribe => SubscribeKeeps(f);
        case Receive(k) => ReceiveKeeps(f, k);
      }
      RunSpecs(Take(f, steps[0]), steps[1..]);
    }
  }

  /** A stream ends exactly when more than 64 events are waiting for it. */
  lemma EndsOnlyByLag(f: Feed, k: nat)
    requires Joined(f) && k < |f.subs| && !f.subs[k].ended
    ensures Possible(f, Receive(k)) && SubOk(f.hub.log, f.subs[k])
    ensures Take(f, Receive(k)).subs[k].ended <==> |f.hub.log| - f.subs[k].next > 64
    ensures !Take(f, Receive(k)).subs[k].ended ==>
              Take(f, Receive(k)).subs[k].next == if f.subs[k].next < |f.hub.log| then f.subs[k].next + 1 else f.subs[k].next
  {
    assert SubOk(f.hub.log, f.subs[k]);
  }

  /** A new stream has not ended and has received nothing yet; one that has ended receives nothing more; and no step but a receive
      of its own changes a stream. */
  lemma StreamsApart(f: Feed, step: Step, k: nat)
    requires Joined(f) && Possible(f, step)
    ensures var g := Take(f, step);
            && |g.subs| == |f.subs| + (if step.Subscribe? then 1 else 0)
            && (k < |f.subs| && (f.subs[k].ended || step != Receive(k)) ==> g.subs[k] == f.subs[k])
            && (step.Subscribe? ==>
                 var s := g.subs[|f.subs|];
                 !s.ended && s.got == [] && s.cut == s.next == |f.hub.log| && s.rows == s.snapshot)
  {
  }

  /** The hub's last event is a heartbeat with the present observation times. */
  predicate EndsWithBeat(h: Hub) {
    && |h.blocks| == |h.specs| && h.log != []
    && h.log[|h.log| - 1].Heartbeat? && h.log[|h.log| - 1].times == Times(h)
  }

  /** Every round ends that way, and so does every heartbeat of the timer. */
  lemma RoundEndsWithBeat(h: Hub, now: nat, sample: nat, age: nat)
    requires HubInv(h)
    ensures EndsWithBeat(Do(h, EndRound(now, sample))) && EndsWithBeat(Do(h, Quiet(now, age, 0)))
  {
    RoundEndLaws(h, now, sample);
  }
}
