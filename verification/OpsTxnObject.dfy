/** The transaction as `ops/txn.rs` runs it: one object whose fields every operation updates
    in place. Each operation leaves `Value()` as the function of `OpsTxn` says, keeps it sound,
    and answers what the driver has to do next. */
module OpsTxnObject {
  import opened Common
  import opened OpsTxn
  import opened OpsTxnLaws

  /** What the driver is told: a rollback is asked for exactly when one has just begun. */
  function NextOf(before: Txn, after: Txn): NextStep {
    if after.phase.IsFinal() then Finished
    else if after.phase.RollingBack? && !before.phase.RollingBack? then SendRollback(after.change.rollbackTo)
    else Wait
  }

  function SeenConn(t: Txn, r: Reading, now: nat): Txn {
    t.(clock := t.clock.(seenMs := now), found := t.found.(lastConn := t.ConnAfter(r)))
  }

  lemma NotedAgain(t: Txn, r: Reading, now: nat)
    ensures var u := SeenConn(t, r, now);
            u.Noted(r, now) == t.Noted(r, now) && u.found.lastConn == u.ConnAfter(r) && u.phase == t.phase
            && t.Noted(r, now).phase == t.phase
  {
  }

  class TxnObject {
    const change: Change
    var phase: Phase
    var reason: Option<Reason>
    var rollbackReason: Option<Reason>
    var intent: Option<Intent>
    var generation: nat
    var found: Findings
    var reference: Reference
    var probing: Probing
    var clock: Clock

    function Value(): Txn
      reads this
    {
      Txn(change, phase, reason, rollbackReason, intent, generation, found, reference, probing, clock)
    }

    constructor (c: Change, conn: Option<Conn>, bootId: string)
      ensures Value() == Create(c, conn, bootId) && fresh(this)
    {
      change := c;
      phase, reason, rollbackReason, intent, generation := Accepted, None, None, None, 0;
      found := Findings(false, false, None, false, conn, false, false, None);
      reference := Reference(conn, c.createdMs);
      probing := Probing(None, 0, None);
      clock := Clock(bootId, 0, 0, c.createdMs, c.createdMs);
    }

    method Step(p: Phase)
      modifies this`phase, this`generation
      ensures Value() == old(Value()).StepTo(p)
    {
      phase := p;
      generation := generation + 1;
    }

    method Finish(p: Phase, why: Reason) returns (n: NextStep)
      modifies this`phase, this`generation, this`reason, this`intent
      ensures Value() == old(Value()).Finish(p, why) && n == Finished
    {
      Step(p);
      reason := Some(why);
      intent := None;
      n := Finished;
    }

    method BeginApply()
      modifies this`phase, this`generation, this`intent
      ensures Value() == old(Value()).BeginApply()
    {
      Step(Applying);
      intent := Some(Apply);
    }

    method WriteReturned(outcome: Applied, now: nat)
      modifies this
      ensures Value() == old(Value()).WriteReturned(outcome, now)
      ensures old(Sound(Value())) ==> Sound(Value())
    {
      if Sound(Value()) { HandleKeepsSound(Value(), WriteBack(outcome, now)); }
      hide Sound;
      if phase != Applying { return; }
      intent := None;
      found := found.(applyFailed := outcome.Failed?);
      clock := clock.(waitStartMs := now, seenMs := now);
      Step(Verifying);
    }

    method StartRollback(why: Reason) returns (n: NextStep)
      modifies this`phase, this`generation, this`rollbackReason, this`intent
      ensures Value() == old(Value()).StartRollback(why) && n == SendRollback(change.rollbackTo)
    {
      Step(RollingBack);
      rollbackReason := Some(why);
      intent := Some(Rollback);
      n := SendRollback(change.rollbackTo);
    }

    method ResetProbe()
      modifies this`probing, this`found
      ensures Value() == old(Value()).ResetProbe()
    {
      probing := Probing(None, 0, None);
      found := found.(dataOk := false);
    }

    method RollbackSent(now: nat)
      modifies this
      ensures Value() == old(Value()).RollbackSent(now)
      ensures old(Sound(Value())) ==> Sound(Value())
    {
      if Sound(Value()) { HandleKeepsSound(Value(), RollbackWritten(now)); }
      hide Sound;
      if phase != RollingBack { return; }
      intent := None;
      clock := clock.(waitStartMs := now, seenMs := now);
      reference := Reference(found.lastConn, now);
      ResetProbe();
      generation := generation + 1;
    }

    method NoteProbe(r: Reading, now: nat)
      modifies this`probing
      ensures probing == old(Value()).NoteProbe(r, now)
    {
      if r.probe.None? || r.data.None? { return; }
      var c := r.data.value.conn;
      if !(probing.conn.Some? && probing.conn.value.Same(c)) || probing.fails >= PROBE_TRIES {
        probing := probing.(conn := Some(c), fails := 0);
      }
      probing := probing.(lastMs := Some(now));
      if !r.probe.value { probing := probing.(fails := probing.fails + 1); }
    }

    method JudgeData(r: Reading) returns (j: DataJudge)
      modifies this`found
      ensures j == old(Value()).Judge(r)
      ensures found == old(found).(dataOk := j != NotYet)
    {
      match Value().DataGate(r) {
        case Judged(d) => j := d;
        case NeedsProbe(_) => j := if r.probe == Some(true) then DataOk else NotYet;
        case Blocked => j := NotYet;
      }
      found := found.(dataOk := j != NotYet);
    }

    method Expire(why: Reason) returns (n: NextStep)
      requires !phase.RollingBack?
      modifies this`phase, this`generation, this`rollbackReason, this`intent, this`reason
      ensures Value() == old(Value()).Expire(why) && n == NextOf(old(Value()), Value())
    {
      if change.rollbackEnabled {
        n := StartRollback(why);
      } else {
        n := Finish(Unverified, NoRollback);
      }
    }

    method OnTick(now: nat) returns (n: NextStep)
      modifies this
      ensures Value() == old(Value()).OnTick(now) && n == NextOf(old(Value()), Value())
      ensures old(Sound(Value())) ==> Sound(Value())
    {
      if Sound(Value()) { HandleKeepsSound(Value(), Tick(now)); }
      hide Sound;
      if phase.IsFinal() { return Finished; }
      if !Value().Waiting() || intent.Some? { return Wait; }
      clock := clock.(seenMs := Max(clock.seenMs, now));
      if SatSub(now, clock.waitStartMs) < change.deadlineMs { return Wait; }
      if phase == RollingBack {
        n := Finish(RollbackFailed, RollbackTimeout);
      } else if found.readOk && !found.everMatched {
        n := Finish(NotApplied, Ignored);
      } else {
        n := Expire(Timeout);
      }
    }

    /** The readback is the target. */
    method OnTarget(r: Reading, now: nat) returns (n: NextStep)
      requires phase.Verifying? && intent.None?
      modifies this
      ensures Value() == old(Value()).OnConfigVerifying(r, change.target, now) && n == NextOf(old(Value()), Value())
    {
      found := found.(everMatched := true);
      if r.registered {
        var j := JudgeData(r);
        match j {
          case DataOk =>
            found := found.(tookMs := Some(clock.elapsedPrevMs + SatSub(now, clock.waitStartMs)));
            n := Finish(Confirmed, Verified);
            return;
          case NoDataApn =>
            n := Finish(Unverified, ApnNoData);
            return;
          case NotYet =>
        }
      }
      n := OnTick(now);
    }

    /** The readback is the value before the change, or something else. */
    method OffTarget(r: Reading, v: string, now: nat) returns (n: NextStep)
      requires phase.Verifying? && intent.None? && v != change.target
      modifies this
      ensures Value() == old(Value()).OnConfigVerifying(r, v, now) && n == NextOf(old(Value()), Value())
    {
      if v == change.before {
        if found.everMatched {
          n := Finish(Cancelled, ManualChange);
          return;
        }
        if found.applyFailed {
          n := Finish(NotApplied, Ignored);
          return;
        }
      } else if v != "" {
        n := Finish(Cancelled, ManualChange);
        return;
      }
      n := OnTick(now);
    }

    method WhileRollingBack(r: Reading, v: string, now: nat) returns (n: NextStep)
      requires phase.RollingBack? && intent.None?
      modifies this
      ensures Value() == old(Value()).OnConfigRollingBack(r, v, now) && n == NextOf(old(Value()), Value())
    {
      if v == change.rollbackTo {
        if r.registered {
          var j := JudgeData(r);
          if j != NotYet {
            n := Finish(RolledBack, if rollbackReason.Some? then rollbackReason.value else Timeout);
            return;
          }
        }
      } else if v != change.target && v != "" {
        n := Finish(Cancelled, ManualChange);
        return;
      }
      n := OnTick(now);
    }

    /** What a reading of an unchanged SIM leaves noted before it is judged. */
    method Note(r: Reading, now: nat)
      requires clock.seenMs == now && found.lastConn == Value().ConnAfter(r)
      modifies this`found, this`probing
      ensures Value() == old(Value()).Noted(r, now)
    {
      found := found.(registered := r.registered);
      NoteProbe(r, now);
      if r.value.Some? { found := found.(readOk := true, readback := r.value); }
    }

    method OnReading(r: Reading, now: nat) returns (n: NextStep)
      modifies this
      ensures Value() == old(Value()).OnReading(r, now) && n == NextOf(old(Value()), Value())
      ensures old(Sound(Value())) ==> Sound(Value())
    {
      ghost var before := Value();
      if Sound(before) { HandleKeepsSound(before, Read(r, now)); }
      hide Sound;
      if phase.IsFinal() { return Finished; }
      if !Value().Waiting() || intent.Some? { return Wait; }
      n := TakeReading(r, now);
    }

    /** Notes the moment and the connection of a reading. */
    method SeeConn(r: Reading, now: nat)
      modifies this`clock, this`found
      ensures Value() == SeenConn(old(Value()), r, now)
    {
      clock := clock.(seenMs := now);
      if r.data.Some? && r.data.value.conn.Addr() != "" {
        found := found.(lastConn := Some(r.data.value.conn));
      }
    }

    method TakeReading(r: Reading, now: nat) returns (n: NextStep)
      requires Value().Counting()
      modifies this
      ensures Value() == old(Value()).OnReading(r, now) && n == NextOf(old(Value()), Value())
    {
      hide Txn.Noted, Txn.OnTick, Txn.OnConfigVerifying, Txn.OnConfigRollingBack, CheckSim;
      SeeConn(r, now);
      NotedAgain(old(Value()), r, now);
      match CheckSim(change.sim, r.sim) {
        case Changed => n := Finish(Cancelled, SimChanged);
        case Unknown => n := OnTick(now);
        case Same => n := JudgeReading(r, now);
      }
    }

    method JudgeReading(r: Reading, now: nat) returns (n: NextStep)
      requires Value().Counting() && clock.seenMs == now && found.lastConn == Value().ConnAfter(r)
      modifies this
      ensures var t := old(Value()).Noted(r, now);
              Value() == (if r.value.None? then t.OnTick(now)
                          else if t.phase.Verifying? then t.OnConfigVerifying(r, r.value.value, now)
                          else t.OnConfigRollingBack(r, r.value.value, now))
      ensures n == NextOf(old(Value()), Value())
    {
      Note(r, now);
      if r.value.None? {
        n := OnTick(now);
      } else if phase == Verifying {
        if r.value.value == change.target {
          n := OnTarget(r, now);
        } else {
          n := OffTarget(r, r.value.value, now);
        }
      } else {
        n := WhileRollingBack(r, r.value.value, now);
      }
    }

    method Revert() returns (r: Outcome<NextStep, string>)
      modifies this
      ensures match old(Value()).Revert()
              case Ok(u) => Value() == u && r == Ok(SendRollback(change.rollbackTo))
              case Err(e) => Value() == old(Value()) && r == Err(e)
      ensures old(Sound(Value())) ==> Sound(Value())
    {
      if Sound(Value()) { HandleKeepsSound(Value(), UserReverts); }
      hide Sound;
      if phase == Verifying && intent.None? {
        var n := StartRollback(UserRevert);
        r := Ok(n);
      } else if phase == RollingBack {
        r := Err("already rolling back");
      } else if phase.IsFinal() {
        r := Err("change already finished");
      } else {
        r := Err("change is still being applied");
      }
    }

    method Keep() returns (r: Outcome<(), string>)
      modifies this
      ensures match old(Value()).Keep()
              case Ok(u) => Value() == u && r.Ok?
              case Err(e) => Value() == old(Value()) && r == Err(e)
      ensures old(Sound(Value())) ==> Sound(Value())
    {
      if Sound(Value()) { HandleKeepsSound(Value(), UserKeeps); }
      hide Sound;
      if phase == Verifying && intent.None? {
        var n := Finish(Confirmed, UserKeep);
        r := Ok(());
      } else if phase == RollingBack {
        r := Err("already rolling back");
      } else if phase.IsFinal() {
        r := Err("change already finished");
      } else {
        r := Err("change is still being applied");
      }
    }

    method Cancel(why: Reason)
      modifies this
      ensures Value() == old(Value()).Cancel(why)
      ensures old(Sound(Value())) && Interrupting(why) ==> Sound(Value())
    {
      if Sound(Value()) && Interrupting(why) { HandleKeepsSound(Value(), Cancels(why)); }
      hide Sound;
      if !phase.IsFinal() {
        var n := Finish(Cancelled, why);
      }
    }

    /** The device restarted: the clock started over and earlier moments mean nothing. */
    method Rebooted(boot: string)
      modifies this`clock, this`reference, this`probing, this`found
      ensures Value() == old(Value()).Rebooted(boot)
    {
      if Value().Waiting() && intent.None? {
        clock := clock.(elapsedPrevMs := clock.elapsedPrevMs + SatSub(clock.seenMs, clock.waitStartMs));
      }
      clock := clock.(boots := clock.boots + 1, bootId := boot);
      reference := reference.(ms := 0);
      ResetProbe();
    }

    method Settle(rebooted: bool, now: nat)
      modifies this`phase, this`intent, this`clock, this`generation
      ensures Value() == old(Value()).Settled(rebooted, now)
    {
      if phase == Applying || (phase == Verifying && intent == Some(Apply)) {
        intent := None;
        phase := Verifying;
        clock := clock.(waitStartMs := now);
      } else if phase == RollingBack && intent.Some? {
        intent := None;
        clock := clock.(waitStartMs := now);
      } else if rebooted {
        clock := clock.(waitStartMs := now);
      }
      clock := clock.(seenMs := now);
      generation := generation + 1;
    }

    method Resume(boot: string, now: nat) returns (n: NextStep)
      modifies this
      ensures Value() == old(Value()).Resume(boot, now) && n == NextOf(old(Value()), Value())
      ensures old(Sound(Value())) ==> Sound(Value())
    {
      ghost var before := Value();
      if Sound(before) { HandleKeepsSound(before, Restart(boot, now)); }
      hide Sound;
      n := TakeUp(boot, now);
    }

    method TakeUp(boot: string, now: nat) returns (n: NextStep)
      modifies this
      ensures Value() == old(Value()).Resume(boot, now) && n == NextOf(old(Value()), Value())
    {
      if phase.IsFinal() { return Finished; }
      var rebooted := boot != clock.bootId;
      if rebooted { Rebooted(boot); }
      if phase == Accepted {
        n := Finish(NotApplied, Ignored);
        return;
      }
      Settle(rebooted, now);
      if rebooted && phase == Verifying && (clock.boots >= 2 || clock.elapsedPrevMs >= change.deadlineMs) {
        n := Expire(RebootLoop);
      } else {
        n := Wait;
      }
    }
  }
}
