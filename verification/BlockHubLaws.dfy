/** What every operation of the hub keeps, and what follows for whole runs. */
module BlockHubLaws {
  import opened Common
  import opened Json
  import opened BlockHub

  // ---- what the log says about a block ------------------------------------------------

  datatype View = View(revision: nat, stale: bool, data: Json)

  /** The state of a block according to its last event. */
  function Seen(log: seq<Event>, name: string): View {
    if log == [] then View(0, true, Null)
    else
      var e := log[|log| - 1];
      if e.BlockEvent? && e.name == name then View(e.revision, e.stale, e.data)
      else Seen(log[..|log| - 1], name)
  }

  /** Event `i` is numbered in sequence; a block event raises the revision by one
      and differs from the block's previous event in the stale flag or the data. */
  predicate EventOk(log: seq<Event>, i: nat)
    requires i < |log|
  {
    && log[i].no == i + 1
    && (log[i].BlockEvent? ==>
          var before := Seen(log[..i], log[i].name);
          && log[i].revision == before.revision + 1
          && (log[i].stale != before.stale || log[i].data != before.data))
  }

  ghost predicate LogOk(h: Hub) {
    h.no == |h.log| && forall i: nat | i < |h.log| :: EventOk(h.log, i)
  }

  // ---- the invariant --------------------------------------------------------------------

  /** Distinct names, and no block depends on itself. */
  predicate SpecsOk(specs: seq<Spec>) {
    && (forall i, j :: 0 <= i < j < |specs| ==> specs[i].name != specs[j].name)
    && (forall i :: 0 <= i < |specs| ==> specs[i].name !in specs[i].deps)
  }

  predicate ViewOk(log: seq<Event>, s: Spec, b: Block) {
    && Seen(log, s.name) == View(b.revision, b.stale, b.Shown())
    && (b.published.None? ==> b.stale && b.revision == 0)
  }

  /** Less than 1 dB apart. What is not a number is near everything, an infinite level only itself. */
  predicate Near(a: Level, b: Level) {
    a.NotANumber? || b.NotANumber? || a == b || (a.Number? && b.Number? && -1.0 < a.x - b.x < 1.0)
  }

  /** The same cell, and every level that one has, the other has too and near it. */
  predicate Alike(p: SignalKey, c: SignalKey) {
    && p.ident == c.ident && |p.db| == |c.db|
    && forall i :: 0 <= i < |p.db| ==>
         || (p.db[i].None? && c.db[i].None?)
         || (p.db[i].Some? && c.db[i].Some? && Near(p.db[i].value, c.db[i].value))
  }

  lemma CrossesIff(p: SignalKey, c: SignalKey)
    ensures SignalCrosses(p, c) <==> !Alike(p, c)
  {
    if p.ident == c.ident && |p.db| == |c.db| {
      forall i | 0 <= i < |p.db|
        ensures LevelMoved(p.db[i], c.db[i]) <==>
                  !(|| (p.db[i].None? && c.db[i].None?)
                    || (p.db[i].Some? && c.db[i].Some? && Near(p.db[i].value, c.db[i].value)))
      {
      }
    }
  }

  /** What a fresh block shows, as of the last time its policy saw its data. */
  predicate ShowsEnough(s: Spec, b: Block) {
    match s.policy
    case OnChange => b.published == b.data
    case Live => true
    case Signal(key) =>
      || b.published == b.data
      || (&& b.published.Some? && b.data.Some? && b.publishedAt.Some?
          && Alike(key(b.published.value), key(b.data.value))
          && b.judgedAt < b.publishedAt.value + 30_000)
  }

  predicate FreshOk(s: Spec, b: Block) {
    !b.stale ==>
      && b.raw.Some? && b.data.Some? && b.published.Some? && b.lastSuccess.Some?
      && ShowsEnough(s, b)
  }

  /** A fresh block's data is its shape function applied to the latest raw replies. */
  predicate Coherent(specs: seq<Spec>, blocks: seq<Block>, i: nat)
    requires |blocks| == |specs| && i < |specs|
  {
    !blocks[i].stale && blocks[i].raw.Some? ==>
      blocks[i].data == Some(Shape(specs, blocks, i, blocks[i].raw.value))
  }

  /** Block `l` still has to be recomputed for the new reply of block `i`. */
  predicate Pending(specs: seq<Spec>, i: nat, j: nat, l: nat)
    requires i < |specs| && l < |specs|
  {
    j <= l && l != i && specs[i].name in specs[l].deps
  }

  ghost predicate Steady(h: Hub) {
    && |h.blocks| == |h.specs| && SpecsOk(h.specs) && LogOk(h)
    && (forall l: nat | l < |h.blocks| :: ViewOk(h.log, h.specs[l], h.blocks[l]))
    && (forall l: nat | l < |h.blocks| :: FreshOk(h.specs[l], h.blocks[l]))
  }

  ghost predicate CoherentBut(h: Hub, i: nat, j: nat) {
    |h.blocks| == |h.specs| && i < |h.specs| &&
    forall l: nat | l < |h.blocks| && !Pending(h.specs, i, j, l) :: Coherent(h.specs, h.blocks, l)
  }

  ghost predicate HubInv(h: Hub) {
    Steady(h) && forall l: nat | l < |h.blocks| :: Coherent(h.specs, h.blocks, l)
  }

  // ---- raw replies and shapes ----------------------------------------------------------

  lemma {:induction false} RawOfSame(specs: seq<Spec>, a: seq<Block>, b: seq<Block>, name: string)
    requires |a| == |b| == |specs|
    requires forall l :: 0 <= l < |specs| && specs[l].name == name ==> a[l].raw == b[l].raw
    ensures RawOf(specs, a, name) == RawOf(specs, b, name)
    decreases |specs|
  {
    if specs != [] && specs[0].name != name {
      RawOfSame(specs[1..], a[1..], b[1..], name);
    }
  }

  lemma ShapeSame(specs: seq<Spec>, a: seq<Block>, b: seq<Block>, i: nat, raw: Json)
    requires |a| == |b| == |specs| && i < |specs|
    requires forall l :: 0 <= l < |specs| && specs[l].name in specs[i].deps ==> a[l].raw == b[l].raw
    ensures Shape(specs, a, i, raw) == Shape(specs, b, i, raw)
  {
    var deps := specs[i].deps;
    forall d | 0 <= d < |deps|
      ensures RawOf(specs, a, deps[d]) == RawOf(specs, b, deps[d])
    {
      RawOfSame(specs, a, b, deps[d]);
    }
    assert DepRaws(specs, a, deps) == DepRaws(specs, b, deps);
  }

  /** `replies` holds, for each of the names, the raw reply of the block with that name, nothing where there is
      no such block. */
  predicate RepliesOf(specs: seq<Spec>, blocks: seq<Block>, names: seq<string>, replies: seq<Option<Json>>)
    requires |blocks| == |specs|
  {
    && |replies| == |names|
    && (forall d, j :: 0 <= d < |names| && 0 <= j < |specs| && specs[j].name == names[d] ==> replies[d] == blocks[j].raw)
    && (forall d :: 0 <= d < |names| && (forall j :: 0 <= j < |specs| ==> specs[j].name != names[d]) ==> replies[d] == None)
  }

  /** The block's data comes from its own latest reply and those of the blocks it names. */
  ghost predicate Sees(specs: seq<Spec>, blocks: seq<Block>, i: nat)
    requires |blocks| == |specs| && i < |specs|
  {
    && blocks[i].raw.Some?
    && match specs[i].shape
       case None => blocks[i].data == blocks[i].raw
       case Some(f) => exists replies :: RepliesOf(specs, blocks, specs[i].deps, replies)
                                         && blocks[i].data == Some(f(blocks[i].raw.value, replies))
  }

  ghost predicate FreshSee(h: Hub) {
    |h.blocks| == |h.specs| && forall l: nat | l < |h.blocks| && !h.blocks[l].stale :: Sees(h.specs, h.blocks, l)
  }

  lemma {:induction false} RawOfIs(specs: seq<Spec>, blocks: seq<Block>, name: string)
    requires |blocks| == |specs| && forall i, j :: 0 <= i < j < |specs| ==> specs[i].name != specs[j].name
    ensures forall j :: 0 <= j < |specs| && specs[j].name == name ==> RawOf(specs, blocks, name) == blocks[j].raw
    ensures (forall j :: 0 <= j < |specs| ==> specs[j].name != name) ==> RawOf(specs, blocks, name) == None
    decreases |specs|
  {
    if specs != [] {
      RawOfIs(specs[1..], blocks[1..], name);
      assert forall j :: 1 <= j < |specs| ==> specs[j] == specs[1..][j - 1] && blocks[j] == blocks[1..][j - 1];
    }
  }

  lemma InvSees(h: Hub)
    requires HubInv(h)
    ensures FreshSee(h)
  {
    forall l: nat | l < |h.blocks| && !h.blocks[l].stale
      ensures Sees(h.specs, h.blocks, l)
    {
      assert FreshOk(h.specs[l], h.blocks[l]) && Coherent(h.specs, h.blocks, l);
      var deps := h.specs[l].deps;
      var replies := DepRaws(h.specs, h.blocks, deps);
      forall d | 0 <= d < |deps| { RawOfIs(h.specs, h.blocks, deps[d]); }
      assert RepliesOf(h.specs, h.blocks, deps, replies);
    }
  }

  // ---- one publication -----------------------------------------------------------------

  lemma SeenAppend(log: seq<Event>, e: Event, name: string)
    ensures Seen(log + [e], name) ==
              if e.BlockEvent? && e.name == name then View(e.revision, e.stale, e.data) else Seen(log, name)
  {
    assert (log + [e])[..|log|] == log;
  }

  lemma LogAppend(h: Hub, e: Event)
    requires LogOk(h) && e.no == h.no + 1
    requires e.BlockEvent? ==>
               var before := Seen(h.log, e.name);
               e.revision == before.revision + 1 && (e.stale != before.stale || e.data != before.data)
    ensures LogOk(h.(no := h.no + 1, log := h.log + [e]))
  {
    var log := h.log + [e];
    forall i: nat | i < |log|
      ensures EventOk(log, i)
    {
      if i < |h.log| {
        assert EventOk(h.log, i);
        assert log[..i] == h.log[..i];
      } else {
        assert log[..i] == h.log;
      }
    }
  }

  /** Block `i` as it may be handed to `Put`: nothing that the log shows has
      changed except the stale flag, and then it is published. */
  predicate MayPut(h: Hub, i: nat, b: Block, d: Decision, flipped: bool, now: nat)
    requires i < |h.blocks| == |h.specs|
  {
    var o := h.blocks[i];
    && b.revision == o.revision && b.published == o.published
    && (flipped <==> b.stale != o.stale)
    && (b.stale ==> flipped && d.No?)
    && (!b.stale ==> b.raw.Some? && b.data.Some? && b.lastSuccess.Some?)
    && (!b.stale ==> FreshOk(h.specs[i], Published(b, d, flipped, now)))
  }

  lemma PutSteady(h: Hub, i: nat, b: Block, d: Decision, flipped: bool, now: nat)
    requires Steady(h) && i < |h.blocks| && MayPut(h, i, b, d, flipped, now)
    ensures Steady(Put(h, i, b, d, flipped, now))
  {
    var p := Published(b, d, flipped, now);
    var v := Put(h, i, b, d, flipped, now);
    assert ViewOk(h.log, h.specs[i], h.blocks[i]) && FreshOk(h.specs[i], h.blocks[i]);
    if p.revision != b.revision {
      var e := BlockEvent(h.no + 1, h.specs[i].name, p.revision, p.observedAt, p.stale, p.Shown());
      LogAppend(h, e);
      forall l: nat | l < |v.blocks|
        ensures ViewOk(v.log, v.specs[l], v.blocks[l])
      {
        assert ViewOk(h.log, h.specs[l], h.blocks[l]);
        SeenAppend(h.log, e, h.specs[l].name);
        if l != i {
          assert h.specs[l].name != h.specs[i].name;
        }
      }
    } else {
      forall l: nat | l < |v.blocks|
        ensures ViewOk(v.log, v.specs[l], v.blocks[l])
      {
        assert ViewOk(h.log, h.specs[l], h.blocks[l]);
      }
    }
    forall l: nat | l < |v.blocks|
      ensures FreshOk(v.specs[l], v.blocks[l])
    {
      assert FreshOk(h.specs[l], h.blocks[l]);
    }
  }

  /** If the raw reply stays, only the block itself has to be coherent again. */
  lemma PutCoherent(h: Hub, i: nat, j: nat, m: nat, b: Block, d: Decision, flipped: bool, now: nat)
    requires CoherentBut(h, i, j) && m < |h.blocks| && b.raw == h.blocks[m].raw
    requires !b.stale && b.raw.Some? ==> b.data == Some(Shape(h.specs, h.blocks, m, b.raw.value))
    ensures var v := Put(h, m, b, d, flipped, now);
            CoherentBut(v, i, j) && Coherent(v.specs, v.blocks, m)
  {
    var v := Put(h, m, b, d, flipped, now);
    forall l: nat | l < |v.blocks| && (l == m || !Pending(h.specs, i, j, l))
      ensures Coherent(v.specs, v.blocks, l)
    {
      if v.blocks[l].raw.Some? {
        ShapeSame(h.specs, h.blocks, v.blocks, l, v.blocks[l].raw.value);
      }
      if l != m {
        assert Coherent(h.specs, h.blocks, l);
      }
    }
  }

  // ---- reading -----------------------------------------------------------------------

  /** Once its policy has seen the data, a fresh block shows enough of it. */
  lemma JudgedShows(s: Spec, b: Block, flipped: bool, now: nat)
    requires !b.stale && b.raw.Some? && b.data.Some? && b.lastSuccess.Some? && b.judgedAt == now
    requires flipped || b.published.Some?
    ensures FreshOk(s, Published(b, Judged(s, b, now), flipped, now))
  {
    hide SignalCrosses, Alike;
    if s.policy.Signal? && b.published.Some? {
      CrossesIff(s.policy.key(b.published.value), s.policy.key(b.data.value));
    }
  }

  /** A new raw reply leaves only the dependents of block `i` to be recomputed. */
  lemma NewRawCoherent(h: Hub, i: nat, b: Block, d: Decision, flipped: bool, now: nat)
    requires HubInv(h) && i < |h.blocks|
    requires b.raw.Some? && b.data == Some(Shape(h.specs, h.blocks, i, b.raw.value))
    ensures CoherentBut(Put(h, i, b, d, flipped, now), i, 0)
  {
    var v := Put(h, i, b, d, flipped, now);
    forall l: nat | l < |v.blocks| && !Pending(v.specs, i, 0, l)
      ensures Coherent(v.specs, v.blocks, l)
    {
      assert h.specs[i].name !in h.specs[l].deps;
      if v.blocks[l].raw.Some? {
        ShapeSame(h.specs, h.blocks, v.blocks, l, v.blocks[l].raw.value);
      }
      assert Coherent(h.specs, h.blocks, l);
    }
  }

  lemma ReshapeOneKeeps(h: Hub, i: nat, j: nat, now: nat)
    requires Steady(h) && CoherentBut(h, i, j) && j < |h.blocks|
    ensures var r := ReshapeOne(h, i, j, now);
            Steady(r) && CoherentBut(r, i, j + 1) && r.specs == h.specs && r.blocks[i] == h.blocks[i]
  {
    var b := h.blocks[j];
    assert FreshOk(h.specs[j], b);
    if j == i || b.stale || h.specs[i].name !in h.specs[j].deps {
      forall l: nat | l < |h.blocks| && !Pending(h.specs, i, j + 1, l)
        ensures Coherent(h.specs, h.blocks, l)
      {
        if l != j { assert !Pending(h.specs, i, j, l); }
      }
    } else {
      var shaped := Some(Shape(h.specs, h.blocks, j, b.raw.value));
      if b.data != shaped {
        var c := b.(data := shaped, judgedAt := now);
        JudgedShows(h.specs[j], c, false, now);
        PutSteady(h, j, c, Judged(h.specs[j], c, now), false, now);
        PutCoherent(h, i, j, j, c, Judged(h.specs[j], c, now), false, now);
      } 
      PendingDone(ReshapeOne(h, i, j, now), i, j);
    }
  }

  lemma PendingDone(h: Hub, i: nat, j: nat)
    requires CoherentBut(h, i, j) && j < |h.blocks| && Coherent(h.specs, h.blocks, j)
    ensures CoherentBut(h, i, j + 1)
  {
    forall l: nat | l < |h.blocks| && !Pending(h.specs, i, j + 1, l)
      ensures Coherent(h.specs, h.blocks, l)
    {
      if l != j { assert !Pending(h.specs, i, j, l); }
    }
  }

  lemma {:induction false} ReshapeKeeps(h: Hub, i: nat, j: nat, now: nat)
    requires Steady(h) && CoherentBut(h, i, j)
    ensures var r := Reshape(h, i, j, now); HubInv(r) && FreshSee(r) && r.blocks[i] == h.blocks[i]
    decreases |h.blocks| - j
  {
    hide Sees, FreshSee;
    if j < |h.blocks| {
      ReshapeOneKeeps(h, i, j, now);
      ReshapeKeeps(ReshapeOne(h, i, j, now), i, j + 1, now);
    } else {
      forall l: nat | l < |h.blocks|
        ensures Coherent(h.specs, h.blocks, l)
      {
        assert !Pending(h.specs, i, j, l);
      }
      InvSees(h);
    }
  }

  /** After a good read the block is fresh, holds the reply, and shows enough of its data. */
  lemma ReadOkKeeps(h: Hub, i: nat, v: Json, now: nat, wall: nat)
    requires HubInv(h) && i < |h.blocks|
    ensures var r := ReadOk(h, i, v, now, wall);
            && HubInv(r) && r.specs == h.specs && |r.blocks| == |h.blocks|
            && !r.blocks[i].stale && r.blocks[i].raw == Some(v) && r.blocks[i].observedAt == wall
            && r.blocks[i].lastSuccess == Some(now) && r.blocks[i].judgedAt == now
  {
    var o := h.blocks[i];
    assert FreshOk(h.specs[i], o);
    var b := o.(lastAttempt := Some(now), immediate := false, lastFailed := false,
                lastSuccess := Some(now), observedAt := wall, raw := Some(v),
                data := Some(Shape(h.specs, h.blocks, i, v)), stale := false, judgedAt := now);
    var d := Judged(h.specs[i], b, now);
    JudgedShows(h.specs[i], b, o.stale, now);
    PutSteady(h, i, b, d, o.stale, now);
    var h1 := Put(h, i, b, d, o.stale, now);
    if o.raw != Some(v) {
      NewRawCoherent(h, i, b, d, o.stale, now);
      ReshapeKeeps(h1, i, 0, now);
    } else {
      PutCoherent(h, i, 0, i, b, d, o.stale, now);
      PutInv(h, i, b, d, o.stale, now);
    }
  }

  /** A publication that keeps the raw reply and the coherence of its block keeps everything. */
  lemma PutInv(h: Hub, i: nat, b: Block, d: Decision, flipped: bool, now: nat)
    requires HubInv(h) && i < |h.blocks| && MayPut(h, i, b, d, flipped, now) && b.raw == h.blocks[i].raw
    requires !b.stale && b.raw.Some? ==> b.data == Some(Shape(h.specs, h.blocks, i, b.raw.value))
    ensures HubInv(Put(h, i, b, d, flipped, now))
  {
    PutSteady(h, i, b, d, flipped, now);
    var v := Put(h, i, b, d, flipped, now);
    forall l: nat | l < |v.blocks|
      ensures Coherent(v.specs, v.blocks, l)
    {
      if v.blocks[l].raw.Some? {
        ShapeSame(h.specs, h.blocks, v.blocks, l, v.blocks[l].raw.value);
      }
      assert Coherent(h.specs, h.blocks, l);
    }
  }

  /** Blocks may change freely in the fields that only the scheduler looks at. */
  lemma BookkeepingKeeps(h: Hub, blocks: seq<Block>)
    requires HubInv(h) && |blocks| == |h.blocks|
    requires forall l :: 0 <= l < |blocks| ==>
               blocks[l] == h.blocks[l].(lastAttempt := blocks[l].lastAttempt,
                                         lastFailed := blocks[l].lastFailed, immediate := blocks[l].immediate)
    ensures HubInv(h.(blocks := blocks))
  {
    var r := h.(blocks := blocks);
    forall l: nat | l < |blocks|
      ensures ViewOk(r.log, r.specs[l], blocks[l]) && FreshOk(r.specs[l], blocks[l]) && Coherent(r.specs, blocks, l)
    {
      assert ViewOk(h.log, h.specs[l], h.blocks[l]) && FreshOk(h.specs[l], h.blocks[l]);
      assert Coherent(h.specs, h.blocks, l);
      if blocks[l].raw.Some? {
        ShapeSame(h.specs, h.blocks, blocks, l, blocks[l].raw.value);
      }
    }
  }

  lemma ReadFailedKeeps(h: Hub, i: nat, now: nat)
    requires HubInv(h) && i < |h.blocks|
    ensures HubInv(ReadFailed(h, i, now)) && ReadFailed(h, i, now).blocks[i].stale
  {
    var b := h.blocks[i].(lastAttempt := Some(now), immediate := false, lastFailed := true);
    if b.stale {
      BookkeepingKeeps(h, h.blocks[i := b]);
    } else {
      PutInv(h, i, b.(stale := true), No, true, now);
    }
  }

  // ---- the end of a round ---------------------------------------------------------------

  lemma ExpireOneKeeps(h: Hub, j: nat, now: nat, sample: nat)
    requires HubInv(h) && j < |h.blocks|
    ensures var r := ExpireOne(h, j, now, sample);
            && HubInv(r) && r.specs == h.specs && |r.blocks| == |h.blocks|
            && !TooOld(r.specs[j], r.blocks[j], now, sample)
            && forall l | 0 <= l < |h.blocks| && l != j :: r.blocks[l] == h.blocks[l]
  {
    if TooOld(h.specs[j], h.blocks[j], now, sample) {
      assert FreshOk(h.specs[j], h.blocks[j]);
      PutInv(h, j, h.blocks[j].(stale := true), No, true, now);
    }
  }

  lemma {:induction false} ExpireKeeps(h: Hub, j: nat, now: nat, sample: nat)
    requires HubInv(h)
    ensures var r := Expire(h, j, now, sample);
            && HubInv(r)
            && (forall l | 0 <= l < |h.blocks| :: l < j ==> r.blocks[l] == h.blocks[l])
            && (forall l | 0 <= l < |h.blocks| :: l >= j ==> !TooOld(r.specs[l], r.blocks[l], now, sample))
    decreases |h.blocks| - j
  {
    if j < |h.blocks| {
      ExpireOneKeeps(h, j, now, sample);
      ExpireKeeps(ExpireOne(h, j, now, sample), j + 1, now, sample);
    }
  }

  lemma HookOneKeeps(h: Hub, j: nat, now: nat)
    requires HubInv(h) && j < |h.blocks|
    ensures var r := HookOne(h, j, now);
            && HubInv(r) && r.specs == h.specs && |r.blocks| == |h.blocks|
            && r.blocks[j].stale == h.blocks[j].stale && r.blocks[j].lastSuccess == h.blocks[j].lastSuccess
            && (!r.blocks[j].stale && r.specs[j].policy.Live? ==> r.blocks[j].published == r.blocks[j].data)
            && forall l | 0 <= l < |h.blocks| && l != j :: r.blocks[l] == h.blocks[l]
  {
    assert FreshOk(h.specs[j], h.blocks[j]) && Coherent(h.specs, h.blocks, j);
    if !h.blocks[j].stale && h.specs[j].policy.Live? {
      PutInv(h, j, h.blocks[j], IfChanged, false, now);
    }
  }

  lemma {:induction false} HooksKeeps(h: Hub, j: nat, now: nat)
    requires HubInv(h)
    ensures var r := Hooks(h, j, now);
            && HubInv(r)
            && (forall l | 0 <= l < |h.blocks| ::
                 r.blocks[l].stale == h.blocks[l].stale && r.blocks[l].lastSuccess == h.blocks[l].lastSuccess)
            && (forall l | 0 <= l < |h.blocks| :: l < j ==> r.blocks[l] == h.blocks[l])
            && (forall l | 0 <= l < |h.blocks| && !r.blocks[l].stale && r.specs[l].policy.Live? ::
                 l >= j ==> r.blocks[l].published == r.blocks[l].data)
    decreases |h.blocks| - j
  {
    if j < |h.blocks| {
      HookOneKeeps(h, j, now);
      HooksKeeps(HookOne(h, j, now), j + 1, now);
    }
  }

  lemma BeatKeeps(h: Hub, now: nat, age: nat)
    requires HubInv(h)
    ensures HubInv(Beat(h, now, age))
  {
    var e := Heartbeat(h.no + 1, Times(h), age);
    LogAppend(h, e);
    var r := Beat(h, now, age);
    forall l: nat | l < |h.blocks|
      ensures ViewOk(r.log, r.specs[l], r.blocks[l])
    {
      assert ViewOk(h.log, h.specs[l], h.blocks[l]);
      SeenAppend(h.log, e, h.specs[l].name);
    }
  }

  /** After the end of a round no fresh block is older than its `MaxAge`, a fresh
      live block shows its newest data, and the last event is a heartbeat. */
  lemma RoundEndLaws(h: Hub, now: nat, sample: nat)
    requires HubInv(h)
    ensures var r := RoundEnd(h, now, sample);
            && HubInv(r) && r.specs == h.specs && |r.blocks| == |h.blocks|
            && (forall l | 0 <= l < |r.blocks| && !r.blocks[l].stale ::
                 && r.blocks[l].lastSuccess.Some?
                 && SatSub(now, r.blocks[l].lastSuccess.value) <= MaxAge(r.specs[l], sample)
                 && (r.specs[l].policy.Live? ==> r.blocks[l].published == r.blocks[l].data))
            && r.log != [] && r.log[|r.log| - 1] == Heartbeat(|r.log|, Times(r), 0)
  {
    ExpireKeeps(h, 0, now, sample);
    var e := Expire(h, 0, now, sample);
    HooksKeeps(e, 0, now);
    var k := Hooks(e, 0, now);
    BeatKeeps(k, now, 0);
    forall l: nat | l < |k.blocks| && !k.blocks[l].stale
      ensures k.blocks[l].lastSuccess.Some? && SatSub(now, k.blocks[l].lastSuccess.value) <= MaxAge(k.specs[l], sample)
    {
      assert FreshOk(k.specs[l], k.blocks[l]) && !TooOld(e.specs[l], e.blocks[l], now, sample);
    }
  }

  // ---- whole runs --------------------------------------------------------------------------

  datatype Op =
    | Read(i: nat, result: Outcome<Json, string>, now: nat, wall: nat)
    | Named(name: string, result: Outcome<Json, string>, now: nat, wall: nat)
    | Age(now: nat, sample: nat)
    | EndRound(now: nat, sample: nat)
    | Quiet(now: nat, age: nat, quiet: nat)
    | Mark(names: Option<seq<string>>)

  function IndexOf(specs: seq<Spec>, name: string): (r: Option<nat>)
    ensures r.Some? ==> r.value < |specs| && specs[r.value].name == name
  {
    if specs == [] then None
    else if specs[0].name == name then Some(0)
    else
      var t := IndexOf(specs[1..], name);
      if t.Some? then Some(t.value + 1) else None
  }

  /** One operation; reading a block that does not exist is a panic in the
      source and changes nothing. */
  function Do(h: Hub, op: Op): Hub
    requires |h.blocks| == |h.specs|
  {
    match op
    case Read(i, result, now, wall) => if i < |h.blocks| then RecordRead(h, i, result, now, wall) else h
    case Named(name, result, now, wall) =>
      var i := IndexOf(h.specs, name);
      if i.Some? then RecordRead(h, i.value, result, now, wall) else h
    case Age(now, sample) => Expire(h, 0, now, sample)
    case EndRound(now, sample) => RoundEnd(h, now, sample)
    case Quiet(now, age, quiet) => BeatIfQuiet(h, now, age, quiet)
    case Mark(names) => MarkImmediate(h, names)
  }

  lemma DoKeeps(h: Hub, op: Op)
    requires HubInv(h)
    ensures HubInv(Do(h, op))
  {
    match op
    case Read(i, result, now, wall) =>
      if i < |h.blocks| { RecordReadKeeps(h, i, result, now, wall); }
    case Named(name, result, now, wall) =>
      var i := IndexOf(h.specs, name);
      if i.Some? { RecordReadKeeps(h, i.value, result, now, wall); }
    case Age(now, sample) => ExpireKeeps(h, 0, now, sample);
    case EndRound(now, sample) => RoundEndLaws(h, now, sample);
    case Quiet(now, age, quiet) => BeatKeeps(h, now, age);
    case Mark(names) => BookkeepingKeeps(h, MarkImmediate(h, names).blocks);
  }

  lemma RecordReadKeeps(h: Hub, i: nat, result: Outcome<Json, string>, now: nat, wall: nat)
    requires HubInv(h) && i < |h.blocks|
    ensures HubInv(RecordRead(h, i, result, now, wall))
  {
    if result.Ok? && result.value.Obj? {
      ReadOkKeeps(h, i, result.value, now, wall);
    } else {
      ReadFailedKeeps(h, i, now);
    }
  }

  ghost function After(h: Hub, ops: seq<Op>): (r: Hub)
    requires HubInv(h)
    ensures HubInv(r)
    decreases |ops|
  {
    if ops == [] then h
    else
      DoKeeps(h, ops[0]);
      After(Do(h, ops[0]), ops[1..])
  }

  lemma NewInv(specs: seq<Spec>)
    requires SpecsOk(specs)
    ensures HubInv(New(specs))
  {
  }

  /** How many events the log holds for a block. */
  function Events(log: seq<Event>, name: string): nat {
    if log == [] then 0
    else
      var e := log[|log| - 1];
      Events(log[..|log| - 1], name) + if e.BlockEvent? && e.name == name then 1 else 0
  }

  lemma {:induction false} RevisionCounts(log: seq<Event>, name: string)
    requires forall i: nat | i < |log| :: EventOk(log, i)
    ensures Seen(log, name).revision == Events(log, name)
  {
    if log != [] {
      var front := log[..|log| - 1];
      forall i: nat | i < |front|
        ensures EventOk(front, i)
      {
        assert EventOk(log, i);
        assert front[..i] == log[..i];
      }
      RevisionCounts(front, name);
      assert EventOk(log, |front|);
    }
  }

  /** Over every run of the hub and for every block: fresh data is what the shape
      function makes of the latest reply and those of the blocks it names, the block shows enough of it, and its
      revision is the number of its events, each of which differs from the one before. */
  lemma HubForever(specs: seq<Spec>, ops: seq<Op>, i: nat)
    requires SpecsOk(specs) && i < |specs|
    ensures HubInv(New(specs))
    ensures var h := After(New(specs), ops);
            && HubInv(h) && h.specs == specs && |h.blocks| == |specs|
            && (!h.blocks[i].stale ==>
                 && h.blocks[i].raw.Some?
                 && Sees(specs, h.blocks, i)
                 && ShowsEnough(specs[i], h.blocks[i]))
            && h.blocks[i].revision == Events(h.log, specs[i].name)
            && (forall n: nat | n < |h.log| :: EventOk(h.log, n))
  {
    NewInv(specs);
    AfterSpecs(New(specs), ops);
    var h := After(New(specs), ops);
    InvSees(h);
    assert Coherent(h.specs, h.blocks, i) && FreshOk(h.specs[i], h.blocks[i]) && ViewOk(h.log, h.specs[i], h.blocks[i]);
    RevisionCounts(h.log, specs[i].name);
  }

  lemma DoSpecs(h: Hub, op: Op)
    requires |h.blocks| == |h.specs|
    ensures Do(h, op).specs == h.specs
  {
  }

  lemma {:induction false} AfterSpecs(h: Hub, ops: seq<Op>)
    requires HubInv(h)
    ensures After(h, ops).specs == h.specs
    decreases |ops|
  {
    if ops != [] {
      DoKeeps(h, ops[0]);
      DoSpecs(h, ops[0]);
      AfterSpecs(Do(h, ops[0]), ops[1..]);
    }
  }

  // ---- when blocks are read ------------------------------------------------------------------

  /** If checks come at most a sample interval apart, a block that one check leaves alone is at the next
      check still within five seconds of its failed read, or within its interval and one
      sample interval of its good one. */
  lemma ReadInTime(s: Spec, b: Block, now: nat, next: nat, cache: bool, sample: nat)
    requires !s.derived && !Due(s, b, now, cache, sample)
    requires b.lastAttempt.Some? ==> b.lastAttempt.value <= now
    requires now <= next <= now + sample
    ensures b.lastAttempt.Some? && !b.immediate && cache && s.interval > 0
    ensures next - b.lastAttempt.value < if b.lastFailed then 5_000 else s.interval + sample
  {
  }

  /** A control request marks exactly the blocks it names, or all, and a marked block is due at once, unless
      it is derived. */
  lemma MarkedIsDue(h: Hub, names: Option<seq<string>>, i: nat, now: nat, cache: bool, sample: nat)
    requires i < |h.blocks| == |h.specs|
    ensures var r := MarkImmediate(h, names); var named := names.Some? ==> h.specs[i].name in names.value;
            && r == h.(blocks := r.blocks) && |r.blocks| == |h.blocks|
            && r.blocks[i] == h.blocks[i].(immediate := named || h.blocks[i].immediate)
            && (named ==> (Due(h.specs[i], r.blocks[i], now, cache, sample) <==> !h.specs[i].derived))
  {
  }
}
