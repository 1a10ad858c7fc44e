/** What every life of a transaction keeps, whatever order of readings, ticks,
    user requests, process restarts and reboots it sees. */
module OpsTxnLaws {
  import opened Common
  import opened OpsTxn

  /** Everything that can happen to one transaction after its write was sent. */
  datatype Event =
    | WriteBack(outcome: Applied, now: nat)
    | Read(r: Reading, now: nat)
    | Tick(now: nat)
    | UserReverts
    | UserKeeps
    | Cancels(why: Reason)
    | RollbackWritten(now: nat)
    | Restart(boot: string, now: nat)

  function Handle(t: Txn, e: Event): Txn {
    match e
    case WriteBack(outcome, now) => t.WriteReturned(outcome, now)
    case Read(r, now) => t.OnReading(r, now)
    case Tick(now) => t.OnTick(now)
    case UserReverts => (match t.Revert() case Ok(u) => u case Err(_) => t)
    case UserKeeps => (match t.Keep() case Ok(u) => u case Err(_) => t)
    case Cancels(why) => t.Cancel(why)
    case RollbackWritten(now) => t.RollbackSent(now)
    case Restart(boot, now) => t.Resume(boot, now)
  }

  function Run(t: Txn, es: seq<Event>): Txn
    decreases |es|
  {
    if es == [] then t else Run(Handle(t, es[0]), es[1..])
  }

  /** The reasons with which the engine interrupts a transaction. */
  predicate Interrupting(why: Reason) {
    why.Superseded? || why.Preempted? || why.Takeover? || why.SimChanged? || why.OtherChange?
  }

  predicate Legal(e: Event) { e.Cancels? ==> Interrupting(e.why) }

  predicate AllLegal(es: seq<Event>) { forall i :: 0 <= i < |es| ==> Legal(es[i]) }

  predicate RollbackCause(why: Reason) { why.Timeout? || why.UserRevert? || why.RebootLoop? }

  /** The documented table of terminal phases and reasons. */
  predicate TableRow(p: Phase, why: Reason) {
    match p
    case Confirmed => why.Verified? || why.UserKeep?
    case Unverified => why.NoRollback? || why.ApnNoData?
    case RolledBack => RollbackCause(why)
    case NotApplied => why.Ignored?
    case RollbackFailed => why.RollbackTimeout?
    case Cancelled => Interrupting(why) || why.ManualChange?
    case _ => false
  }

  predicate AfterRollback(p: Phase) { p.RollingBack? || p.RolledBack? || p.RollbackFailed? }

  /** The invariant of one transaction, in memory or on disk. */
  predicate Sound(t: Txn) {
    && t.change.deadlineMs > 0
    && (t.reason.Some? <==> t.phase.IsFinal())
    && (t.phase.IsFinal() ==> TableRow(t.phase, t.reason.value))
    && (t.reason == Some(NoRollback) ==> !t.change.rollbackEnabled)
    && (t.reason == Some(ApnNoData) ==> t.change.confirm.Apn?)
    && (t.intent == Some(Apply) <==> t.phase.Applying?)
    && (t.intent == Some(Rollback) ==> t.phase.RollingBack?)
    && (t.intent.Some? ==> t.phase.Applying? || t.phase.RollingBack?)
    && (t.phase.Accepted? || t.phase.Applying? ==> t.clock.boots == 0 && t.clock.elapsedPrevMs == 0)
    && (t.phase.Verifying? ==> t.clock.boots < 2 && t.clock.elapsedPrevMs < t.change.deadlineMs)
    && (AfterRollback(t.phase) ==>
          && t.rollbackReason.Some?
          && RollbackCause(t.rollbackReason.value)
          && (!t.change.rollbackEnabled ==> t.rollbackReason.value.UserRevert?))
    && (t.phase.RolledBack? ==> t.reason == t.rollbackReason)
  }

  lemma CreateIsSound(c: Change, conn: Option<Conn>, boot: string)
    requires c.deadlineMs > 0
    ensures Sound(Create(c, conn, boot)) && Sound(Create(c, conn, boot).BeginApply())
  {
  }

  /** What one event can change: never the change itself, the generation only
      upwards, and phase and intent only together with the generation. */
  predicate Follows(t: Txn, u: Txn) {
    && u.change == t.change
    && u.generation >= t.generation
    && (u.generation == t.generation ==> u.phase == t.phase && u.intent == t.intent)
    && (u.phase.Accepted? ==> t.phase.Accepted?)
    && (t.phase.RollingBack? && !u.phase.IsFinal() ==>
          u.phase.RollingBack? && (t.intent.None? ==> u.intent.None?))
    && (t.found.everMatched ==> u.found.everMatched)
    && (t.found.everMatched && !t.phase.NotApplied? && !t.phase.Accepted? ==> !u.phase.NotApplied?)
  }

  lemma TickLaws(t: Txn, now: nat)
    requires Sound(t)
    ensures var u := t.OnTick(now); Sound(u) && Follows(t, u)
    ensures var u := t.OnTick(now); !u.phase.IsFinal() && !u.phase.RollingBack? && t.Counting() ==>
              u.clock == t.clock.(seenMs := u.clock.seenMs)
              && SatSub(now, t.clock.waitStartMs) < t.change.deadlineMs
    ensures t.OnTick(now).found == t.found
    ensures t.OnTick(now).clock.boots == t.clock.boots
  {
  }

  /** What a reading can do to a transaction. */
  predicate ReadingStep(t: Txn, u: Txn, now: nat) {
    && Sound(u) && Follows(t, u)
    && u.clock == t.clock.(seenMs := u.clock.seenMs)
    && (u.phase.Verifying? ==>
          t.phase.Verifying? && SatSub(now, t.clock.waitStartMs) < t.change.deadlineMs)
    && (|| u.found.tookMs == t.found.tookMs
        || (t.phase.Verifying? && u.found.tookMs == Some(TotalWait(t, now))))
    && (u.phase.RollingBack? && !t.phase.RollingBack? ==> t.change.rollbackEnabled)
  }

  lemma TickIsReadingStep(t: Txn, now: nat)
    requires Sound(t) && t.Counting()
    ensures ReadingStep(t, t.OnTick(now), now)
  {
  }

  lemma FinishIsReadingStep(t: Txn, p: Phase, why: Reason, now: nat)
    requires Sound(t) && t.Counting() && TableRow(p, why) && !p.NotApplied? && !AfterRollback(p)
    requires why.NoRollback? ==> !t.change.rollbackEnabled
    requires why.ApnNoData? ==> t.change.confirm.Apn?
    ensures ReadingStep(t, t.Finish(p, why), now)
  {
  }

  lemma ConfigVerifyingLaws(t: Txn, r: Reading, v: string, now: nat)
    requires Sound(t) && t.phase.Verifying?
    ensures ReadingStep(t, t.OnConfigVerifying(r, v, now), now)
  {
    if v == t.change.target {
      MatchedReadingLaws(t, r, now);
    } else {
      TickIsReadingStep(t, now);
      FinishIsReadingStep(t, Cancelled, ManualChange, now);
    }
  }

  lemma MatchedReadingLaws(t: Txn, r: Reading, now: nat)
    requires Sound(t) && t.phase.Verifying?
    ensures ReadingStep(t, t.OnConfigVerifying(r, t.change.target, now), now)
  {
    var u := t.OnConfigVerifying(r, t.change.target, now);
    var m := t.(found := t.found.(everMatched := true));
    var j := t.Judge(r);
    var d := m.(found := m.found.(dataOk := j != NotYet));
    if !r.registered {
      TickIsReadingStep(m, now);
    } else if j.NotYet? {
      TickIsReadingStep(d, now);
    } else if j.DataOk? {
      FinishIsReadingStep(d.(found := d.found.(tookMs := Some(TotalWait(t, now)))), Confirmed, Verified, now);
    } else {
      FinishIsReadingStep(d, Unverified, ApnNoData, now);
    }
  }

  lemma ConfigRollingBackLaws(t: Txn, r: Reading, v: string, now: nat)
    requires Sound(t) && t.phase.RollingBack? && t.intent.None?
    ensures ReadingStep(t, t.OnConfigRollingBack(r, v, now), now)
  {
    TickIsReadingStep(t, now);
    TickIsReadingStep(t.(found := t.found.(dataOk := false)), now);
  }

  lemma ReadingLaws(t: Txn, r: Reading, now: nat)
    requires Sound(t)
    ensures t.Counting() ==> ReadingStep(t, t.OnReading(r, now), now)
    ensures !t.Counting() ==> t.OnReading(r, now) == t
  {
    if t.Counting() {
      var n := t.Noted(r, now);
      if CheckSim(t.change.sim, r.sim) == Same {
        if r.value.None? {
          TickIsReadingStep(n, now);
        } else if t.phase.Verifying? {
          ConfigVerifyingLaws(n, r, r.value.value, now);
        } else {
          ConfigRollingBackLaws(n, r, r.value.value, now);
        }
      } else {
        var m := t.(clock := t.clock.(seenMs := now),
                    found := t.found.(lastConn := t.ConnAfter(r)));
        TickIsReadingStep(m, now);
      }
    }
  }

  lemma ResumeLaws(t: Txn, boot: string, now: nat)
    requires Sound(t)
    ensures var u := t.Resume(boot, now); Sound(u) && u.change == t.change && u.found.tookMs == t.found.tookMs
    ensures var u := t.Resume(boot, now); u.phase.Verifying? ==>
              u.clock.waitStartMs == if boot != t.clock.bootId || t.phase.Applying? then now
                                     else t.clock.waitStartMs
    ensures !t.phase.IsFinal() ==> t.Resume(boot, now).generation > t.generation
    ensures Follows(t, t.Resume(boot, now))
    ensures t.phase.RollingBack? ==> t.Resume(boot, now).phase.RollingBack? && t.Resume(boot, now).intent.None?
  {
  }

  lemma HandleKeepsSound(t: Txn, e: Event)
    requires Sound(t) && Legal(e)
    ensures Sound(Handle(t, e)) && Follows(t, Handle(t, e))
  {
    match e
    case Read(r, now) => ReadingLaws(t, r, now);
    case Tick(now) => TickLaws(t, now);
    case Restart(boot, now) => ResumeLaws(t, boot, now);
    case _ =>
  }

  /** No event sequence leaves the table, the intent rule or the two-boot rule. */
  lemma {:induction false} SoundForever(t: Txn, es: seq<Event>)
    requires Sound(t) && AllLegal(es)
    ensures Sound(Run(t, es))
    decreases |es|
  {
    if es != [] {
      HandleKeepsSound(t, es[0]);
      SoundForever(Handle(t, es[0]), es[1..]);
    }
  }

  /** Terminal states absorb every step. */
  lemma {:induction false} TerminalAbsorbs(t: Txn, es: seq<Event>)
    requires t.phase.IsFinal()
    ensures Run(t, es) == t
    decreases |es|
  {
    if es != [] {
      assert Handle(t, es[0]) == t;
      TerminalAbsorbs(t, es[1..]);
    }
  }

  /** With automatic rollback off, a rollback was asked for by the user. */
  lemma RollbackOffNeedsUser(t: Txn, es: seq<Event>)
    requires Sound(t) && AllLegal(es) && !t.change.rollbackEnabled && !AfterRollback(t.phase)
    requires AfterRollback(Run(t, es).phase)
    ensures exists k :: 0 <= k < |es| && es[k].UserReverts?
    decreases |es|
  {
    var u := Handle(t, es[0]);
    HandleKeepsSound(t, es[0]);
    if es[0].UserReverts? {
    } else {
      if es[0].Read? {
        ReadingLaws(t, es[0].r, es[0].now);
      }
      RollbackOffNeedsUser(u, es[1..]);
      var k :| 0 <= k < |es[1..]| && es[1..][k].UserReverts?;
      assert es[k + 1].UserReverts?;
    }
  }

  // ---- what it takes to be confirmed -------------------------------------

  /** The data path of a reading proves that data flows, or that none is due. */
  predicate DataProven(t: Txn, r: Reading) {
    && r.data.Some?
    && r.data.value.expected.Some?
    && (r.data.value.expected.value ==>
          && r.data.value.connected
          && AddressOf(r.data.value.conn) != ""
          && r.probe == Some(true)
          && (t.change.confirm.Apn? ==> NewerThanWrite(t, r.data.value.conn)))
  }

  /** The IPv4 address of a connection that has one, otherwise the IPv6 address. */
  function AddressOf(c: Conn): string { if c.ipv4 != "" then c.ipv4 else c.ipv6 }

  /** The same address, and up since the same moment give or take two seconds where both are known. */
  predicate SameConn(a: Conn, b: Conn) {
    && AddressOf(a) == AddressOf(b)
    && (a.upSince.Some? && b.upSince.Some? ==>
          a.upSince.value <= b.upSince.value + 2_000 && b.upSince.value <= a.upSince.value + 2_000)
  }

  /** After a reboot every connection is new; otherwise its address changed or
      it came up after the reference moment. */
  predicate NewerThanWrite(t: Txn, c: Conn) {
    || t.reference.ms == 0
    || (t.reference.conn.Some? && AddressOf(t.reference.conn.value) != AddressOf(c))
    || (c.upSince.Some? && t.reference.ms < c.upSince.value)
  }

  /** No card, or none that could be read. */
  predicate NoCard(s: SimId) { s.iccid == "" || s.slot == 0 }

  /** Both without a card, or the same card in the same slot. */
  predicate SameCard(a: SimId, b: SimId) {
    if NoCard(a) || NoCard(b) then NoCard(a) && NoCard(b) else a.iccid == b.iccid && a.slot == b.slot
  }

  /** A card is there, and it is not the one of the transaction or not where it was. */
  predicate OtherCard(captured: SimId, now: SimId) {
    !NoCard(now) && (captured.iccid != now.iccid || captured.slot != now.slot)
  }

  lemma CheckSimExact(captured: SimId, now: SimId)
    ensures CheckSim(captured, now) == Same <==> SameCard(captured, now)
    ensures CheckSim(captured, now) == Unknown <==> !NoCard(captured) && NoCard(now)
    ensures CheckSim(captured, now) == Changed <==> OtherCard(captured, now)
  {
  }

  predicate Shows(t: Txn, r: Reading, v: string) {
    r.value == Some(v) && r.registered && SameCard(t.change.sim, r.sim)
  }

  /** A transaction ends because of its card exactly when a reading, taken while it waits, shows another
      one, or a driver found another one before a rollback. */
  lemma SimChangedIff(t: Txn, e: Event)
    requires Sound(t) && Legal(e) && !t.phase.IsFinal()
    ensures Handle(t, e).reason == Some(SimChanged) <==>
              (e.Read? && t.Counting() && OtherCard(t.change.sim, e.r.sim)) || e == Cancels(SimChanged)
    ensures Handle(t, e).reason == Some(SimChanged) ==> Handle(t, e).phase.Cancelled?
  {
    match e
    case Read(r, now) =>
      CheckSimExact(t.change.sim, r.sim);
      if t.Counting() && SameCard(t.change.sim, r.sim) && r.value.Some? {
        NotBySim(t.Noted(r, now), r, r.value.value, now);
      }
      hide Txn.OnConfigVerifying, Txn.OnConfigRollingBack;
    case _ =>
  }

  lemma NotBySim(t: Txn, r: Reading, v: string, now: nat)
    requires t.reason.None?
    ensures t.OnConfigVerifying(r, v, now).reason != Some(SimChanged)
    ensures t.OnConfigRollingBack(r, v, now).reason != Some(SimChanged) || t.rollbackReason == Some(SimChanged)
  {
  }

  lemma OnlyReadingsProve(t: Txn, e: Event)
    requires Sound(t) && Legal(e) && !t.phase.IsFinal() && !e.Read?
    ensures Handle(t, e).reason != Some(Verified) && !Handle(t, e).phase.RolledBack?
  {
    match e
    case Tick(now) => TickLaws(t, now);
    case Restart(boot, now) => ResumeLaws(t, boot, now);
    case _ =>
  }

  /** A transaction is confirmed by evidence exactly on a reading that shows the
      target, a registration, the same SIM and proven data. */
  lemma VerifiedIff(t: Txn, e: Event)
    requires Sound(t) && Legal(e) && !t.phase.IsFinal()
    ensures Handle(t, e).reason == Some(Verified) <==>
              && e.Read? && t.phase.Verifying? && t.intent.None?
              && Shows(t, e.r, t.change.target) && DataProven(t, e.r)
              && (t.change.confirm.Apn? ==> e.r.data.value.expected.value)
    ensures Handle(t, e).reason == Some(Verified) ==> Handle(t, e).phase.Confirmed?
  {
    if !e.Read? {
      OnlyReadingsProve(t, e);
    } else if t.Counting() {
      var n := t.Noted(e.r, e.now);
      assert n.Judge(e.r) == t.Judge(e.r);
    }
  }

  /** A rollback counts as done exactly on the same kind of evidence for the
      value rolled back to. */
  lemma RolledBackIff(t: Txn, e: Event)
    requires Sound(t) && Legal(e) && !t.phase.IsFinal()
    ensures Handle(t, e).phase.RolledBack? <==>
              && e.Read? && t.phase.RollingBack? && t.intent.None?
              && Shows(t, e.r, t.change.rollbackTo) && DataProven(t, e.r)
  {
    if !e.Read? {
      OnlyReadingsProve(t, e);
    } else if t.Counting() {
      var n := t.Noted(e.r, e.now);
      assert n.Judge(e.r) == t.Judge(e.r);
    }
  }

  /** The wait ended with evidence. */
  predicate Succeeds(t: Txn, u: Txn) {
    if t.phase.Verifying? then u.reason == Some(Verified) else u.phase.RolledBack?
  }

  /** A successful probe makes the reading the evidence it is not without one. */
  predicate ProbeMatters(t: Txn, r: Reading, now: nat) {
    Succeeds(t, t.OnReading(r.(probe := Some(true)), now)) && !Succeeds(t, t.OnReading(r.(probe := None), now))
  }

  /** The last probe was too short a time ago: five seconds, or thirty after three failures on this connection. */
  predicate ProbedLately(t: Txn, c: Conn, now: nat) {
    var roundOver := t.probing.conn.Some? && SameConn(t.probing.conn.value, c) && t.probing.fails >= 3;
    t.probing.lastMs.Some? && now < t.probing.lastMs.value + if roundOver then 30_000 else 5_000
  }

  /** A probe is sent exactly for a reading that its success would make the evidence, unless
      one was sent lately; a failed probe is as good as none. */
  lemma ProbeDecides(t: Txn, r: Reading, now: nat, later: nat)
    requires Sound(t) && t.Counting()
    ensures t.WantsProbe(r, now).Some? <==>
              ProbeMatters(t, r, later) && r.data.Some? && !ProbedLately(t, r.data.value.conn, now)
    ensures Succeeds(t, t.OnReading(r.(probe := Some(false)), later)) <==> Succeeds(t, t.OnReading(r.(probe := None), later))
  {
    ReadingSucceeds(t, r, later, None);
    ReadingSucceeds(t, r, later, Some(true));
    ReadingSucceeds(t, r, later, Some(false));
    hide Txn.OnReading, Sound;
  }

  lemma ReadingSucceeds(t: Txn, r: Reading, now: nat, probe: Option<bool>)
    requires Sound(t) && t.Counting()
    ensures var q := r.(probe := probe);
            Succeeds(t, t.OnReading(q, now)) <==>
              && Shows(t, q, t.Goal()) && DataProven(t, q)
              && (t.phase.Verifying? && t.change.confirm.Apn? ==> q.data.value.expected.value)
  {
    var e := Read(r.(probe := probe), now);
    VerifiedIff(t, e);
    RolledBackIff(t, e);
    hide Txn.OnReading, Sound;
  }

  // ---- "not applied" -------------------------------------------------------

  /** The reading was taken into account and showed the target. */
  predicate ShowedTarget(t: Txn, e: Event) {
    && e.Read? && t.phase.Verifying? && t.intent.None?
    && SameCard(t.change.sim, e.r.sim) && e.r.value == Some(t.change.target)
  }

  lemma {:induction false} MatchedStays(t: Txn, es: seq<Event>)
    requires Sound(t) && AllLegal(es)
    requires t.found.everMatched && !t.phase.NotApplied? && !t.phase.Accepted?
    ensures Run(t, es).found.everMatched && !Run(t, es).phase.NotApplied?
    decreases |es|
  {
    if es != [] {
      var u := Handle(t, es[0]);
      assert Sound(u) && Follows(t, u) && !u.phase.Accepted? by {
        HandleKeepsSound(t, es[0]);
      }
      MatchedStays(u, es[1..]);
    }
  }

  // ---- how long it can take --------------------------------------------------

  predicate IsReboot(t: Txn, e: Event) {
    e.Restart? && e.boot != t.clock.bootId && !t.phase.IsFinal()
  }

  function Reboots(t: Txn, es: seq<Event>): nat
    decreases |es|
  {
    if es == [] then 0
    else (if IsReboot(t, es[0]) then 1 else 0) + Reboots(Handle(t, es[0]), es[1..])
  }

  lemma HandleCountsReboots(t: Txn, e: Event)
    requires Sound(t) && Legal(e)
    ensures Handle(t, e).clock.boots == t.clock.boots + if IsReboot(t, e) then 1 else 0
  {
    match e
    case Read(r, now) => ReadingLaws(t, r, now);
    case Tick(now) => TickLaws(t, now);
    case _ =>
  }

  lemma {:induction false} BootsCountReboots(t: Txn, es: seq<Event>)
    requires Sound(t) && AllLegal(es)
    ensures Run(t, es).clock.boots == t.clock.boots + Reboots(t, es)
    decreases |es|
  {
    if es != [] {
      HandleKeepsSound(t, es[0]);
      HandleCountsReboots(t, es[0]);
      BootsCountReboots(Handle(t, es[0]), es[1..]);
    }
  }

  /** A transaction is never still being verified after its second reboot. */
  lemma TwoRebootsEndVerifying(t: Txn, es: seq<Event>)
    requires Sound(t) && AllLegal(es) && Reboots(t, es) >= 2
    ensures !Run(t, es).phase.Verifying? && !Run(t, es).phase.Applying?
  {
    SoundForever(t, es);
    BootsCountReboots(t, es);
  }

  /** The moment of the last beat: the last tick, reading or recorded write, or
      the start of the wait after a reboot. A mere process restart is no beat. */
  function Beat(t: Txn, beat: nat, e: Event): nat {
    match e
    case WriteBack(_, now) => if t.phase.Applying? then now else beat
    case Read(_, now) => now
    case Tick(now) => now
    case RollbackWritten(now) => if t.phase.RollingBack? then now else beat
    case Restart(_, now) => if IsReboot(t, e) || t.phase.Applying? then now else beat
    case _ => beat
  }

  predicate OnTime(t: Txn, beat: nat, slack: nat, e: Event) {
    match e
    case WriteBack(_, now) => beat <= now <= beat + slack
    case Read(_, now) => beat <= now <= beat + slack
    case Tick(now) => beat <= now <= beat + slack
    case RollbackWritten(now) => beat <= now <= beat + slack
    case Restart(_, now) => IsReboot(t, e) || beat <= now <= beat + slack
    case _ => true
  }

  predicate WithinDeadline(t: Txn, beat: nat) {
    t.phase.Verifying? ==> t.clock.waitStartMs <= beat < t.clock.waitStartMs + t.change.deadlineMs
  }

  /** Time spent waiting for confirmation, earlier boots included. */
  function TotalWait(t: Txn, now: nat): nat {
    t.clock.elapsedPrevMs + SatSub(now, t.clock.waitStartMs)
  }

  predicate TookWithin(t: Txn, slack: nat) {
    t.found.tookMs.Some? ==> t.found.tookMs.value < 2 * t.change.deadlineMs + slack
  }

  lemma BeatKeepsBounds(t: Txn, beat: nat, slack: nat, e: Event)
    requires Sound(t) && Legal(e) && OnTime(t, beat, slack, e)
    requires WithinDeadline(t, beat) && TookWithin(t, slack)
    ensures WithinDeadline(Handle(t, e), Beat(t, beat, e)) && TookWithin(Handle(t, e), slack)
  {
    match e
    case Read(r, now) => ReadingLaws(t, r, now);
    case Tick(now) => TickLaws(t, now);
    case Restart(boot, now) => ResumeLaws(t, boot, now);
    case _ =>
  }
}
