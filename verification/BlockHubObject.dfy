/** The hub as `block.rs` runs it: one object whose blocks, event counter and
    heartbeat time are changed in place, with a loop over the blocks where the
    source has one. Every method does to `Value()` what `BlockHub` says. */
module BlockHubObject {
  import opened Common
  import opened Json
  import opened BlockHub
  import opened BlockHubLaws

  class HubObject {
    const specs: seq<Spec>
    var blocks: seq<Block>
    var no: nat
    var lastHeartbeat: Option<nat>
    var sink: seq<Event>

    ghost predicate Valid()
      reads this
    {
      |blocks| == |specs|
    }

    function Value(): Hub
      reads this
    {
      Hub(specs, blocks, no, lastHeartbeat, sink)
    }

    constructor (specs: seq<Spec>)
      ensures Valid() && Value() == New(specs)
      ensures SpecsOk(specs) ==> HubInv(Value())
    {
      this.specs := specs;
      blocks := seq(|specs|, _ => NEW_BLOCK);
      no, lastHeartbeat, sink := 0, None, [];
      new;
      assert blocks == New(specs).blocks;
      if SpecsOk(specs) { NewInv(specs); }
    }

    /** Publishes block `i` with its new contents `b`. */
    method Publish(i: nat, b: Block, d: Decision, flipped: bool, now: nat)
      requires Valid() && i < |blocks|
      modifies this
      ensures Valid() && Value() == Put(old(Value()), i, b, d, flipped, now)
    {
      blocks := blocks[i := b];
      var out := match d {
        case IfChanged => b.published != b.data
        case No => flipped && !b.stale && b.published != b.data
      };
      if !flipped && !out { return; }
      var p := b;
      if out { p := p.(published := p.data); }
      p := p.(publishedAt := Some(now), revision := p.revision + 1);
      blocks := blocks[i := p];
      no := no + 1;
      sink := sink + [BlockEvent(no, specs[i].name, p.revision, p.observedAt, p.stale, p.Shown())];
    }

    method Record(i: nat, result: Outcome<Json, string>, now: nat, wall: nat)
      requires Valid() && i < |blocks|
      modifies this
      ensures Valid() && Value() == RecordRead(old(Value()), i, result, now, wall)
      ensures old(HubInv(Value())) ==> HubInv(Value()) && FreshSee(Value())
    {
      ghost var before := Value();
      if result.Ok? && result.value.Obj? {
        var v := result.value;
        var b := blocks[i];
        var shaped := Shape(specs, blocks, i, v);
        var rawChanged := b.raw != Some(v);
        var wasStale := b.stale;
        b := b.(lastAttempt := Some(now), immediate := false, lastFailed := false, lastSuccess := Some(now),
                observedAt := wall, raw := Some(v), data := Some(shaped), stale := false, judgedAt := now);
        Publish(i, b, OnRead(specs[i].policy, b.published, b.data, Since(b, now)), wasStale, now);
        if rawChanged { ReshapeDependents(i, now); }
      } else {
        var b := blocks[i].(lastAttempt := Some(now), immediate := false, lastFailed := true);
        if b.stale {
          blocks := blocks[i := b];
        } else {
          Publish(i, b.(stale := true), No, true, now);
        }
      }
      if HubInv(before) {
        RecordReadKeeps(before, i, result, now, wall);
        InvSees(Value());
      }
    }

    method ReshapeDependents(i: nat, now: nat)
      requires Valid() && i < |blocks|
      modifies this
      ensures Valid() && Value() == Reshape(old(Value()), i, 0, now)
      ensures old(Steady(Value()) && CoherentBut(Value(), i, 0)) ==> HubInv(Value()) && FreshSee(Value())
    {
      ghost var start := Value();
      if Steady(start) && CoherentBut(start, i, 0) { ReshapeKeeps(start, i, 0, now); }
      var j := 0;
      while j < |blocks|
        invariant Valid() && i < |blocks| && |blocks| == old(|blocks|)
        invariant Reshape(Value(), i, j, now) == Reshape(old(Value()), i, 0, now)
      {
        ghost var before := Value();
        var b := blocks[j];
        if j != i && !b.stale && specs[i].name in specs[j].deps && b.raw.Some? {
          var shaped := Shape(specs, blocks, j, b.raw.value);
          if b.data != Some(shaped) {
            b := b.(data := Some(shaped), judgedAt := now);
            Publish(j, b, OnRead(specs[j].policy, b.published, b.data, Since(b, now)), false, now);
          }
        }
        assert Value() == ReshapeOne(before, i, j, now);
        j := j + 1;
      }
    }

    method ExpireAll(now: nat, sample: nat)
      requires Valid()
      modifies this
      ensures Valid() && Value() == Expire(old(Value()), 0, now, sample)
      ensures old(HubInv(Value())) ==> HubInv(Value())
    {
      ghost var start := Value();
      var j := 0;
      while j < |blocks|
        invariant Valid() && |blocks| == old(|blocks|)
        invariant Expire(Value(), j, now, sample) == Expire(start, 0, now, sample)
      {
        ghost var before := Value();
        var b := blocks[j];
        if !b.stale && b.lastSuccess.Some? && SatSub(now, b.lastSuccess.value) > MaxAge(specs[j], sample) {
          Publish(j, b.(stale := true), No, true, now);
        }
        assert Value() == ExpireOne(before, j, now, sample);
        j := j + 1;
      }
      if HubInv(start) { ExpireKeeps(start, 0, now, sample); }
    }

    method EmitHeartbeat(now: nat, age: nat)
      requires Valid()
      modifies this
      ensures Valid() && Value() == Beat(old(Value()), now, age)
    {
      no := no + 1;
      lastHeartbeat := Some(now);
      var times: seq<(string, nat)> := [];
      var j := 0;
      while j < |blocks|
        invariant j <= |blocks| && |times| == j
        invariant Valid() && Value() == old(Value()).(no := no, lastHeartbeat := Some(now))
        invariant forall l :: 0 <= l < j ==> times[l] == (specs[l].name, blocks[l].observedAt)
      {
        times := times + [(specs[j].name, blocks[j].observedAt)];
        j := j + 1;
      }
      assert times == Times(old(Value()));
      sink := sink + [Heartbeat(no, times, age)];
    }

    /** The end of a round: expiry, then the policies' hooks, then the heartbeat. */
    method FinishRound(now: nat, sample: nat)
      requires Valid()
      modifies this
      ensures Valid() && Value() == RoundEnd(old(Value()), now, sample)
      ensures old(HubInv(Value())) ==> HubInv(Value())
    {
      ghost var start := Value();
      ExpireAll(now, sample);
      ghost var expired := Value();
      var j := 0;
      while j < |blocks|
        invariant Valid() && |blocks| == old(|blocks|)
        invariant Hooks(Value(), j, now) == Hooks(expired, 0, now)
      {
        ghost var before := Value();
        if !blocks[j].stale {
          var d := OnRoundEnd(specs[j].policy);
          if d != No { Publish(j, blocks[j], d, false, now); }
        }
        assert Value() == HookOne(before, j, now);
        j := j + 1;
      }
      EmitHeartbeat(now, 0);
      if HubInv(start) { RoundEndLaws(start, now, sample); }
    }

    method HeartbeatIfQuiet(now: nat, age: nat, quiet: nat)
      requires Valid()
      modifies this
      ensures Valid() && Value() == BeatIfQuiet(old(Value()), now, age, quiet)
      ensures old(HubInv(Value())) ==> HubInv(Value())
    {
      ghost var start := Value();
      if HubInv(start) { BeatKeeps(start, now, age); }
      if lastHeartbeat.Some? && SatSub(now, lastHeartbeat.value) < quiet { return; }
      EmitHeartbeat(now, age);
    }

    method MarkForReading(names: Option<seq<string>>)
      requires Valid()
      modifies this
      ensures Valid() && Value() == MarkImmediate(old(Value()), names)
    {
      var j := 0;
      while j < |blocks|
        invariant j <= |blocks| == |specs|
        invariant Value() == old(Value()).(blocks := blocks)
        invariant |blocks| == old(|blocks|)
        invariant forall l :: 0 <= l < j ==> blocks[l] == MarkImmediate(old(Value()), names).blocks[l]
        invariant forall l :: j <= l < |blocks| ==> blocks[l] == old(blocks)[l]
      {
        if names.None? || specs[j].name in names.value {
          blocks := blocks[j := blocks[j].(immediate := true)];
        }
        j := j + 1;
      }
      assert blocks == MarkImmediate(old(Value()), names).blocks;
    }
  }
}
