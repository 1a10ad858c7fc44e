/** Exactly what one operation does to every block of the hub, in terms of the block's own fields, and where
    a block's reply came from over a whole run. `BlockHubLaws` says what the operations keep. */
module BlockHubExact {
  import opened Common
  import opened Json
  import opened BlockHub
  import opened BlockHubLaws

  // ---- what goes out -----------------------------------------------------------------------

  /** Data that differs from what block `o` shows and that its policy lets out at a read. */
  predicate Wanted(s: Spec, o: Block, data: Json, now: nat) {
    && o.published != Some(data)
    && match s.policy
       case OnChange => true
       case Live => false
       case Signal(key) =>
         || o.published.None? || o.publishedAt.None? || o.publishedAt.value + 30_000 <= now
         || !Alike(key(o.published.value), key(data))
  }

  /** Block `o` became `n`, with data: it is published exactly if it was stale or the data is wanted. */
  predicate Followed(s: Spec, o: Block, n: Block, now: nat) {
    && n.data.Some? && !n.stale
    && if o.stale || Wanted(s, o, n.data.value, now)
       then n.published == n.data && n.publishedAt == Some(now) && n.revision == o.revision + 1
       else n.published == o.published && n.publishedAt == o.publishedAt && n.revision == o.revision
  }

  lemma JudgedFollows(s: Spec, o: Block, b: Block, now: nat)
    requires b.data.Some? && !b.stale
    requires b.published == o.published && b.publishedAt == o.publishedAt && b.revision == o.revision
    ensures Followed(s, o, Published(b, Judged(s, b, now), o.stale, now), now)
  {
    hide SignalCrosses, Alike;
    if s.policy.Signal? && b.published.Some? {
      CrossesIff(s.policy.key(b.published.value), s.policy.key(b.data.value));
    }
  }

  /** Block `n` differs from `o` in nothing but its data and what is shown of it. */
  predicate OnlyData(o: Block, n: Block) {
    n == o.(data := n.data, judgedAt := n.judgedAt, published := n.published,
            publishedAt := n.publishedAt, revision := n.revision)
  }

  /** A fresh block that names `name` was recomputed, or nothing happened to it. */
  predicate Recomputed(name: string, s: Spec, o: Block, n: Block, now: nat) {
    || n == o
    || (!o.stale && name in s.deps && n.data != o.data && OnlyData(o, n) && Followed(s, o, n, now))
  }

  lemma ReshapeOneExact(h: Hub, i: nat, j: nat, now: nat)
    requires i < |h.blocks| == |h.specs| && j < |h.blocks|
    ensures var r := ReshapeOne(h, i, j, now);
            && r.specs == h.specs && |r.blocks| == |h.blocks|
            && (forall l | 0 <= l < |h.blocks| && l != j :: r.blocks[l] == h.blocks[l])
            && (j == i ==> r == h)
            && Recomputed(h.specs[i].name, h.specs[j], h.blocks[j], r.blocks[j], now)
  {
    hide Judged, Followed, Shape;
    var b := h.blocks[j];
    if b.raw.Some? && !b.stale {
      var c := b.(data := Some(Shape(h.specs, h.blocks, j, b.raw.value)), judgedAt := now);
      JudgedFollows(h.specs[j], b, c, now);
    }
  }

  lemma {:induction false} ReshapeExact(h: Hub, i: nat, j: nat, now: nat)
    requires i < |h.blocks| == |h.specs|
    ensures var r := Reshape(h, i, j, now);
            && r.blocks[i] == h.blocks[i]
            && (forall l | 0 <= l < |h.blocks| :: l < j ==> r.blocks[l] == h.blocks[l])
            && forall l | 0 <= l < |h.blocks| :: Recomputed(h.specs[i].name, h.specs[l], h.blocks[l], r.blocks[l], now)
    decreases |h.blocks| - j
  {
    hide ReshapeOne, Recomputed;
    if j < |h.blocks| {
      ReshapeOneExact(h, i, j, now);
      ReshapeExact(ReshapeOne(h, i, j, now), i, j + 1, now);
    } else {
      SameIsRecomputed(h, i, now);
    }
  }

  lemma SameIsRecomputed(h: Hub, i: nat, now: nat)
    requires i < |h.blocks| == |h.specs|
    ensures forall l | 0 <= l < |h.blocks| :: Recomputed(h.specs[i].name, h.specs[l], h.blocks[l], h.blocks[l], now)
  {
  }

  // ---- reads -----------------------------------------------------------------------------------

  /** A good read: the block holds the reply and is published exactly if it was stale or its policy wants it;
      of the others only fresh dependents change, and only if their data does. */
  lemma ReadOkExact(h: Hub, i: nat, v: Json, now: nat, wall: nat)
    requires i < |h.blocks| == |h.specs|
    ensures var r := ReadOk(h, i, v, now, wall); var n := r.blocks[i];
            && r.specs == h.specs && |r.blocks| == |h.blocks|
            && n.raw == Some(v) && n.observedAt == wall && n.lastAttempt == Some(now) && n.lastSuccess == Some(now)
            && !n.immediate && !n.lastFailed
            && Followed(h.specs[i], h.blocks[i], n, now)
            && forall l | 0 <= l < |h.blocks| && l != i ::
                 Recomputed(h.specs[i].name, h.specs[l], h.blocks[l], r.blocks[l], now)
  {
    hide Judged, Followed, Shape, Recomputed;
    var o := h.blocks[i];
    var b := o.(lastAttempt := Some(now), immediate := false, lastFailed := false,
                lastSuccess := Some(now), observedAt := wall, raw := Some(v),
                data := Some(Shape(h.specs, h.blocks, i, v)), stale := false, judgedAt := now);
    JudgedFollows(h.specs[i], o, b, now);
    var h1 := Put(h, i, b, Judged(h.specs[i], b, now), o.stale, now);
    ReshapeExact(h1, i, 0, now);
    SameIsRecomputed(h, i, now);
  }

  /** A failed read: the block is stale, keeps its data and what it shows, and a block that was fresh says so;
      no other block changes. */
  lemma ReadFailedExact(h: Hub, i: nat, now: nat)
    requires i < |h.blocks| == |h.specs|
    ensures var r := ReadFailed(h, i, now); var o, n := h.blocks[i], r.blocks[i];
            && n == o.(lastAttempt := Some(now), immediate := false, lastFailed := true, stale := true,
                       publishedAt := if o.stale then o.publishedAt else Some(now),
                       revision := if o.stale then o.revision else o.revision + 1)
            && r.blocks == h.blocks[i := n]
            && |r.log| == |h.log| + if o.stale then 0 else 1
  {
  }

  // ---- the end of a round ---------------------------------------------------------------------------

  /** Three intervals, or three sample intervals where the block has none, and at least fifteen seconds. */
  lemma MaxAgeIs(s: Spec, sample: nat)
    ensures var three := 3 * (if s.interval == 0 then sample else s.interval);
            MaxAge(s, sample) == if three < 15_000 then 15_000 else three
  {
  }

  predicate Outdated(s: Spec, b: Block, now: nat, sample: nat) {
    !b.stale && b.lastSuccess.Some? && b.lastSuccess.value + MaxAge(s, sample) < now
  }

  function Marked(s: Spec, b: Block, now: nat, sample: nat): Block {
    if Outdated(s, b, now, sample) then b.(stale := true, publishedAt := Some(now), revision := b.revision + 1) else b
  }

  lemma {:induction false} ExpireExact(h: Hub, j: nat, now: nat, sample: nat)
    requires |h.blocks| == |h.specs|
    ensures forall l | 0 <= l < |h.blocks| ::
              Expire(h, j, now, sample).blocks[l] ==
                if l < j then h.blocks[l] else Marked(h.specs[l], h.blocks[l], now, sample)
    decreases |h.blocks| - j
  {
    hide MaxAge;
    if j < |h.blocks| { ExpireExact(ExpireOne(h, j, now, sample), j + 1, now, sample); }
  }

  function Caught(s: Spec, b: Block, now: nat): Block {
    if !b.stale && s.policy.Live? && b.published != b.data
    then b.(published := b.data, publishedAt := Some(now), revision := b.revision + 1) else b
  }

  lemma {:induction false} HooksExact(h: Hub, j: nat, now: nat)
    requires |h.blocks| == |h.specs|
    ensures forall l | 0 <= l < |h.blocks| ::
              Hooks(h, j, now).blocks[l] == if l < j then h.blocks[l] else Caught(h.specs[l], h.blocks[l], now)
    decreases |h.blocks| - j
  {
    if j < |h.blocks| { HooksExact(HookOne(h, j, now), j + 1, now); }
  }

  /** At the end of a round exactly the fresh blocks past their age become stale, and exactly the fresh live
      blocks whose data is not yet shown are published. */
  lemma RoundEndExact(h: Hub, now: nat, sample: nat, l: nat)
    requires l < |h.blocks| == |h.specs|
    ensures RoundEnd(h, now, sample).blocks[l] ==
              Caught(h.specs[l], Marked(h.specs[l], h.blocks[l], now, sample), now)
  {
    hide Marked, Caught;
    ExpireExact(h, 0, now, sample);
    HooksExact(Expire(h, 0, now, sample), 0, now);
  }

  /** A heartbeat goes out unless there was one less than the quiet time ago, and it tells when each block was
      observed. */
  lemma QuietBeatIff(h: Hub, now: nat, age: nat, quiet: nat)
    requires |h.blocks| == |h.specs|
    ensures var r := BeatIfQuiet(h, now, age, quiet);
            && r.blocks == h.blocks && r.specs == h.specs
            && if h.lastHeartbeat.Some? && quiet > 0 && now < h.lastHeartbeat.value + quiet then r == h
               else
                 && r.lastHeartbeat == Some(now) && r.no == h.no + 1 && |r.log| == |h.log| + 1
                 && r.log[..|h.log|] == h.log
                 && var e := r.log[|h.log|];
                 && e.Heartbeat? && e.no == r.no && e.execAgeMs == age && |e.times| == |h.blocks|
                 && forall l :: 0 <= l < |h.blocks| ==> e.times[l] == (h.specs[l].name, h.blocks[l].observedAt)
  {
  }

  // ---- a block's reply over a run -----------------------------------------------------------------------

  /** The object that this operation brings for block `i`. */
  function ReplyIn(specs: seq<Spec>, op: Op, i: nat): Option<Json>
    requires i < |specs|
  {
    if (op.Read? && op.i == i) || (op.Named? && op.name == specs[i].name)
    then (if op.result.Ok? && op.result.value.Obj? then Some(op.result.value) else None)
    else None
  }

  /** The last one of a run, if any. */
  function LastReply(specs: seq<Spec>, ops: seq<Op>, i: nat): Option<Json>
    requires i < |specs|
  {
    if ops == [] then None
    else
      var e := ReplyIn(specs, ops[|ops| - 1], i);
      if e.Some? then e else LastReply(specs, ops[..|ops| - 1], i)
  }

  lemma {:induction false} IndexOfIs(specs: seq<Spec>, i: nat)
    requires SpecsOk(specs) && i < |specs|
    ensures IndexOf(specs, specs[i].name) == Some(i)
  {
    if IndexOf(specs, specs[i].name).None? {
      NameIsFound(specs, i);
    }
  }

  lemma {:induction false} NameIsFound(specs: seq<Spec>, i: nat)
    requires i < |specs|
    ensures IndexOf(specs, specs[i].name).Some?
  {
    if i > 0 { NameIsFound(specs[1..], i - 1); }
  }

  lemma ReadKeepsReplies(h: Hub, i: nat, result: Outcome<Json, string>, now: nat, wall: nat, l: nat)
    requires i < |h.blocks| == |h.specs| && l < |h.blocks|
    ensures var r := RecordRead(h, i, result, now, wall);
            && |r.blocks| == |h.blocks|
            && r.blocks[l].raw == if l == i && result.Ok? && result.value.Obj? then Some(result.value) else h.blocks[l].raw
  {
    hide ReadOk, ReadFailed, Followed, Alike;
    if result.Ok? && result.value.Obj? {
      ReadOkExact(h, i, result.value, now, wall);
    } else {
      ReadFailedExact(h, i, now);
    }
  }

  lemma StepReply(h: Hub, op: Op, i: nat)
    requires HubInv(h) && i < |h.blocks|
    ensures var e := ReplyIn(h.specs, op, i); var r := Do(h, op);
            |r.blocks| == |h.blocks| && r.blocks[i].raw == if e.Some? then e else h.blocks[i].raw
  {
    hide RecordRead, Expire, Hooks, Marked, Caught, ReplyIn, LogOk, ViewOk, FreshOk, Coherent;
    match op
    case Read(k, result, now, wall) =>
      if k < |h.blocks| { ReadKeepsReplies(h, k, result, now, wall, i); }
      ReplyOfRead(h.specs, op, i);
    case Named(name, result, now, wall) =>
      var k := IndexOf(h.specs, name);
      if k.Some? { ReadKeepsReplies(h, k.value, result, now, wall, i); }
      ReplyOfRead(h.specs, op, i);
    case Age(now, sample) =>
      ExpireExact(h, 0, now, sample);
      RoundKeepsRaw(h, now, sample, i);
      NoReply(h.specs, op, i);
    case EndRound(now, sample) =>
      RoundKeepsRaw(h, now, sample, i);
      NoReply(h.specs, op, i);
    case Quiet(now, age, quiet) => NoReply(h.specs, op, i);
    case Mark(names) => NoReply(h.specs, op, i);
  }

  lemma ReplyOfRead(specs: seq<Spec>, op: Op, i: nat)
    requires SpecsOk(specs) && i < |specs| && (op.Read? || op.Named?)
    ensures var k := if op.Read? then Some(op.i) else IndexOf(specs, op.name);
            ReplyIn(specs, op, i) ==
              if k == Some(i) && op.result.Ok? && op.result.value.Obj? then Some(op.result.value) else None
  {
    if op.Named? && op.name == specs[i].name { IndexOfIs(specs, i); }
  }

  lemma NoReply(specs: seq<Spec>, op: Op, i: nat)
    requires i < |specs| && !op.Read? && !op.Named?
    ensures ReplyIn(specs, op, i).None?
  {
  }

  lemma RoundKeepsRaw(h: Hub, now: nat, sample: nat, i: nat)
    requires i < |h.blocks| == |h.specs|
    ensures Marked(h.specs[i], h.blocks[i], now, sample).raw == h.blocks[i].raw
    ensures RoundEnd(h, now, sample).blocks[i].raw == h.blocks[i].raw
  {
    hide RoundEnd;
    RoundEndExact(h, now, sample, i);
  }

  lemma {:induction false} AfterSplit(h: Hub, ops: seq<Op>)
    requires HubInv(h) && ops != []
    ensures After(h, ops) == Do(After(h, ops[..|ops| - 1]), ops[|ops| - 1])
    decreases |ops|
  {
    hide Do, LogOk, ViewOk, FreshOk, Coherent;
    DoKeeps(h, ops[0]);
    if |ops| > 1 {
      AfterSplit(Do(h, ops[0]), ops[1..]);
      assert ops[1..][..|ops| - 2] == ops[..|ops| - 1][1..];
    }
  }

  /** Over every run, a block's reply is the last object that came for it. */
  lemma {:induction false} ReplyIsLast(specs: seq<Spec>, ops: seq<Op>, i: nat)
    requires SpecsOk(specs) && i < |specs|
    ensures HubInv(New(specs))
    ensures var h := After(New(specs), ops);
            |h.blocks| == |specs| && h.blocks[i].raw == LastReply(specs, ops, i)
  {
    hide Do, ReplyIn;
    NewInv(specs);
    if ops != [] {
      var front := ops[..|ops| - 1];
      ReplyIsLast(specs, front, i);
      AfterSpecs(New(specs), front);
      AfterSplit(New(specs), ops);
      StepReply(After(New(specs), front), ops[|ops| - 1], i);
    }
  }

  // ---- when blocks are read -----------------------------------------------------------------------------

  /** A block that is due again without being marked was left alone for its interval, or after a failed read for
      its interval or so long that the check after this one would come more than five seconds later. */
  lemma NotReadTooOften(s: Spec, b: Block, now: nat, sample: nat)
    requires Due(s, b, now, true, sample) && s.interval > 0 && !b.immediate
    requires b.lastAttempt.Some? && b.lastAttempt.value <= now
    ensures !s.derived
    ensures b.lastAttempt.value + s.interval <= now || (b.lastFailed && b.lastAttempt.value + 5_000 <= now + sample)
  {
  }
}
