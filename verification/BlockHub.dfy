/** The block hub of `block.rs`: blocks with a revision and a stale flag, data
    derived from raw replies, publish policies, and one sequence of events. The
    functions say what each operation does to the hub under its lock;
    `BlockHubObject` performs them in place. */
module BlockHub {
  import opened Common
  import opened Json

  const MIN_MAX_AGE: nat := 15_000
  const FAILURE_RETRY: nat := 5_000
  const SIGNAL_FORCE: nat := 30_000

  /** A level in dB as a double holds it. */
  datatype Level = Number(x: real) | Infinite(positive: bool) | NotANumber

  /** What the signal block is compared by: identity fields and levels in dB. */
  datatype SignalKey = SignalKey(ident: seq<string>, db: seq<Option<Level>>)

  /** Do two levels differ by at least 1 dB? Nothing does from what is not a number, nor an
      infinite level from itself. */
  predicate Apart(a: Level, b: Level) {
    if a.NotANumber? || b.NotANumber? then false
    else if a.Number? && b.Number? then (if a.x >= b.x then a.x - b.x else b.x - a.x) >= 1.0
    else a != b
  }

  predicate LevelMoved(a: Option<Level>, b: Option<Level>) {
    if a.Some? && b.Some? then Apart(a.value, b.value) else a != b
  }

  /** A change worth publishing at once. */
  predicate SignalCrosses(p: SignalKey, c: SignalKey) {
    || p.ident != c.ident || |p.db| != |c.db|
    || exists i :: 0 <= i < |p.db| && LevelMoved(p.db[i], c.db[i])
  }

  /** When a block's data is considered for publishing. `key` reads the signal
      block's fields out of its data. */
  datatype Policy = OnChange | Live | Signal(key: Json -> SignalKey)

  /** `shape` turns the block's raw reply and the raw replies of its `deps`, in
      that order, into the data; `None` leaves the reply as it is. */
  datatype Spec = Spec(
    name: string, interval: nat, derived: bool, policy: Policy,
    shape: Option<(Json, seq<Option<Json>>) -> Json>, deps: seq<string>)

  /** `judgedAt` is when the policy last saw this block's data; it is a history variable. */
  datatype Block = Block(
    revision: nat, observedAt: nat, stale: bool,
    raw: Option<Json>, data: Option<Json>,
    published: Option<Json>, publishedAt: Option<nat>,
    lastAttempt: Option<nat>, lastSuccess: Option<nat>, lastFailed: bool, immediate: bool,
    judgedAt: nat)
  {
    function Shown(): Json { if published.Some? then published.value else Null }
  }

  const NEW_BLOCK := Block(0, 0, true, None, None, None, None, None, None, false, false, 0)

  datatype Event =
    | BlockEvent(no: nat, name: string, revision: nat, observedAt: nat, stale: bool, data: Json)
    | Heartbeat(no: nat, times: seq<(string, nat)>, execAgeMs: nat)

  /** `log` is every event handed to the sink, in order. */
  datatype Hub = Hub(
    specs: seq<Spec>, blocks: seq<Block>, no: nat, lastHeartbeat: Option<nat>, log: seq<Event>)

  function New(specs: seq<Spec>): Hub {
    Hub(specs, seq(|specs|, _ => NEW_BLOCK), 0, None, [])
  }

  datatype Decision = No | IfChanged

  function OnRead(p: Policy, published: Option<Json>, current: Option<Json>, since: Option<nat>): Decision {
    match p
    case OnChange => IfChanged
    case Live => No
    case Signal(key) =>
      if published.None? || current.None? then IfChanged
      else if SignalCrosses(key(published.value), key(current.value)) || since.None? || since.value >= SIGNAL_FORCE
      then IfChanged
      else No
  }

  function OnRoundEnd(p: Policy): Decision { if p.Live? then IfChanged else No }

  function Since(b: Block, now: nat): Option<nat> {
    if b.publishedAt.Some? then Some(SatSub(now, b.publishedAt.value)) else None
  }

  function MaxAge(s: Spec, sample: nat): nat {
    Max(3 * (if s.interval == 0 then sample else s.interval), MIN_MAX_AGE)
  }

  /** Is it time to read this block? */
  predicate Due(s: Spec, b: Block, now: nat, cache: bool, sample: nat) {
    if s.derived then false
    else if b.lastAttempt.None? then true
    else if b.immediate || !cache || s.interval == 0 then true
    else
      var elapsed := SatSub(now, b.lastAttempt.value);
      elapsed >= if b.lastFailed then Min(SatSub(FAILURE_RETRY, sample), s.interval) else s.interval
  }

  // ---- shapes ----------------------------------------------------------------------

  function RawOf(specs: seq<Spec>, blocks: seq<Block>, name: string): Option<Json>
    requires |blocks| == |specs|
  {
    if specs == [] then None
    else if specs[0].name == name then blocks[0].raw
    else RawOf(specs[1..], blocks[1..], name)
  }

  function DepRaws(specs: seq<Spec>, blocks: seq<Block>, deps: seq<string>): seq<Option<Json>>
    requires |blocks| == |specs|
  {
    seq(|deps|, i requires 0 <= i < |deps| => RawOf(specs, blocks, deps[i]))
  }

  function Shape(specs: seq<Spec>, blocks: seq<Block>, i: nat, raw: Json): Json
    requires |blocks| == |specs| && i < |specs|
  {
    match specs[i].shape
    case None => raw
    case Some(f) => f(raw, DepRaws(specs, blocks, specs[i].deps))
  }

  // ---- publishing --------------------------------------------------------------------

  function GoesOut(b: Block, d: Decision, flipped: bool): bool {
    match d
    case IfChanged => b.published != b.data
    case No => flipped && !b.stale && b.published != b.data
  }

  /** The block after publishing; its revision tells whether anything went out. */
  function Published(b: Block, d: Decision, flipped: bool, now: nat): Block {
    if !flipped && !GoesOut(b, d, flipped) then b
    else b.(published := if GoesOut(b, d, flipped) then b.data else b.published,
            publishedAt := Some(now), revision := b.revision + 1)
  }

  /** Block `i` becomes `b`, and what publishing it does goes into the log. */
  function Put(h: Hub, i: nat, b: Block, d: Decision, flipped: bool, now: nat): Hub
    requires i < |h.blocks| == |h.specs|
  {
    var p := Published(b, d, flipped, now);
    if p.revision == b.revision then h.(blocks := h.blocks[i := p])
    else h.(blocks := h.blocks[i := p], no := h.no + 1,
            log := h.log + [BlockEvent(h.no + 1, h.specs[i].name, p.revision, p.observedAt, p.stale, p.Shown())])
  }

  function Judged(s: Spec, b: Block, now: nat): Decision {
    OnRead(s.policy, b.published, b.data, Since(b, now))
  }

  // ---- operations ------------------------------------------------------------------------

  /** A read that returned a JSON object. */
  function ReadOk(h: Hub, i: nat, v: Json, now: nat, wall: nat): Hub
    requires i < |h.blocks| == |h.specs|
  {
    var old_ := h.blocks[i];
    var b := old_.(lastAttempt := Some(now), immediate := false, lastFailed := false,
                   lastSuccess := Some(now), observedAt := wall, raw := Some(v),
                   data := Some(Shape(h.specs, h.blocks, i, v)), stale := false, judgedAt := now);
    var h1 := Put(h, i, b, Judged(h.specs[i], b, now), old_.stale, now);
    if old_.raw != Some(v) then Reshape(h1, i, 0, now) else h1
  }

  function ReadFailed(h: Hub, i: nat, now: nat): Hub
    requires i < |h.blocks| == |h.specs|
  {
    var b := h.blocks[i].(lastAttempt := Some(now), immediate := false, lastFailed := true);
    if b.stale then h.(blocks := h.blocks[i := b])
    else Put(h, i, b.(stale := true), No, true, now)
  }

  function RecordRead(h: Hub, i: nat, result: Outcome<Json, string>, now: nat, wall: nat): Hub
    requires i < |h.blocks| == |h.specs|
  {
    if result.Ok? && result.value.Obj? then ReadOk(h, i, result.value, now, wall)
    else ReadFailed(h, i, now)
  }

  /** Block `j` is recomputed after the raw reply of block `i` changed. */
  function ReshapeOne(h: Hub, i: nat, j: nat, now: nat): Hub
    requires i < |h.blocks| == |h.specs| && j < |h.blocks|
  {
    var b := h.blocks[j];
    if j == i || b.stale || h.specs[i].name !in h.specs[j].deps || b.raw.None? then h
    else
      var shaped := Some(Shape(h.specs, h.blocks, j, b.raw.value));
      if b.data == shaped then h
      else
        var b := b.(data := shaped, judgedAt := now);
        Put(h, j, b, Judged(h.specs[j], b, now), false, now)
  }

  function Reshape(h: Hub, i: nat, j: nat, now: nat): (r: Hub)
    requires i < |h.blocks| == |h.specs|
    ensures r.specs == h.specs && |r.blocks| == |h.blocks|
    decreases |h.blocks| - j
  {
    if j >= |h.blocks| then h else Reshape(ReshapeOne(h, i, j, now), i, j + 1, now)
  }

  predicate TooOld(s: Spec, b: Block, now: nat, sample: nat) {
    !b.stale && b.lastSuccess.Some? && SatSub(now, b.lastSuccess.value) > MaxAge(s, sample)
  }

  function ExpireOne(h: Hub, j: nat, now: nat, sample: nat): Hub
    requires j < |h.blocks| == |h.specs|
  {
    if TooOld(h.specs[j], h.blocks[j], now, sample)
    then Put(h, j, h.blocks[j].(stale := true), No, true, now) else h
  }

  function Expire(h: Hub, j: nat, now: nat, sample: nat): (r: Hub)
    requires |h.blocks| == |h.specs|
    ensures r.specs == h.specs && |r.blocks| == |h.blocks|
    decreases |h.blocks| - j
  {
    if j >= |h.blocks| then h else Expire(ExpireOne(h, j, now, sample), j + 1, now, sample)
  }

  function HookOne(h: Hub, j: nat, now: nat): Hub
    requires j < |h.blocks| == |h.specs|
  {
    if h.blocks[j].stale || OnRoundEnd(h.specs[j].policy).No? then h
    else Put(h, j, h.blocks[j], OnRoundEnd(h.specs[j].policy), false, now)
  }

  function Hooks(h: Hub, j: nat, now: nat): (r: Hub)
    requires |h.blocks| == |h.specs|
    ensures r.specs == h.specs && |r.blocks| == |h.blocks|
    decreases |h.blocks| - j
  {
    if j >= |h.blocks| then h else Hooks(HookOne(h, j, now), j + 1, now)
  }

  function Times(h: Hub): seq<(string, nat)>
    requires |h.blocks| == |h.specs|
  {
    seq(|h.blocks|, i requires 0 <= i < |h.blocks| => (h.specs[i].name, h.blocks[i].observedAt))
  }

  function Beat(h: Hub, now: nat, age: nat): Hub
    requires |h.blocks| == |h.specs|
  {
    h.(no := h.no + 1, lastHeartbeat := Some(now), log := h.log + [Heartbeat(h.no + 1, Times(h), age)])
  }

  function RoundEnd(h: Hub, now: nat, sample: nat): Hub
    requires |h.blocks| == |h.specs|
  {
    Beat(Hooks(Expire(h, 0, now, sample), 0, now), now, 0)
  }

  function BeatIfQuiet(h: Hub, now: nat, age: nat, quiet: nat): Hub
    requires |h.blocks| == |h.specs|
  {
    if h.lastHeartbeat.Some? && SatSub(now, h.lastHeartbeat.value) < quiet then h else Beat(h, now, age)
  }

  function MarkImmediate(h: Hub, names: Option<seq<string>>): Hub
    requires |h.blocks| == |h.specs|
  {
    h.(blocks := seq(|h.blocks|, i requires 0 <= i < |h.blocks| =>
         if names.None? || h.specs[i].name in names.value
         then h.blocks[i].(immediate := true) else h.blocks[i]))
  }
}
