/** The write transaction of `ops/txn.rs`: apply a change, confirm it by fresh
    readings, roll it back when it never works.

    A transaction is a value here and every operation is a function from the
    transaction before to the transaction after; `OpsTxnObject` holds the same
    operations as in-place updates and proves them equal to these functions. */
module OpsTxn {
  import opened Common

  datatype Source = Screen | Web | Legacy | Guard | Scenario | Scheduler | Auto {
    predicate IsUser() { Screen? || Web? || Legacy? }
    predicate MayOverride() { IsUser() || Guard? }
  }

  datatype Phase =
    | Accepted | Applying | Verifying | RollingBack
    | Confirmed | Unverified | RolledBack | NotApplied | RollbackFailed | Cancelled
  {
    predicate IsFinal() {
      !(Accepted? || Applying? || Verifying? || RollingBack?)
    }
  }

  datatype Reason =
    | Verified | UserKeep | NoRollback | Timeout | UserRevert | RebootLoop | Ignored
    | RollbackTimeout | Superseded | Preempted | ManualChange | Takeover | SimChanged
    | ApnNoData | OtherChange | NoVerify

  datatype Confirm = Registered | Apn

  /** One data connection: its address and the moment it came up. */
  datatype Conn = Conn(ipv4: string, ipv6: string, upSince: Option<nat>) {
    function Addr(): string { if ipv4 == "" then ipv6 else ipv4 }
    predicate V6Only() { ipv4 == "" && ipv6 != "" }
    predicate Same(other: Conn) {
      && Addr() == other.Addr()
      && (upSince.Some? && other.upSince.Some? ==>
            var a, b := upSince.value, other.upSince.value;
            (if a >= b then a - b else b - a) <= CONN_JITTER_MS)
    }
  }

  const CONN_JITTER_MS: nat := 2_000
  const PROBE_TRIES: nat := 3
  const PROBE_GAP_MS: nat := 5_000
  const PROBE_ROUND_GAP_MS: nat := 30_000

  datatype DataPath = DataPath(
    expected: Option<bool>, connected: bool, conn: Conn, iface: string, dns: seq<string>)

  datatype ProbeTarget = ProbeTarget(iface: string, dns: seq<string>, v6: bool)

  datatype SimId = SimId(iccid: string, slot: int) {
    predicate Blank() { iccid == "" || slot == 0 }
  }

  datatype SimCheck = Same | Changed | Unknown

  function CheckSim(captured: SimId, now: SimId): SimCheck {
    if captured.Blank() && now.Blank() then Same
    else if !captured.Blank() && now.Blank() then Unknown
    else if captured == now then Same
    else Changed
  }

  datatype Reading = Reading(
    value: Option<string>, registered: bool, sim: SimId,
    data: Option<DataPath>, probe: Option<bool>)

  datatype DataJudge = DataOk | NoDataApn | NotYet

  /** Everything about the data path except the probe itself. */
  datatype Gate = Judged(judge: DataJudge) | Blocked | NeedsProbe(target: ProbeTarget)

  datatype Intent = Apply | Rollback

  datatype Applied = Done | Failed | TimedOut

  datatype NextStep = Wait | Finished | SendRollback(value: string)

  /** What the transaction is about; no operation ever changes it. `serial`
      numbers the transactions of a run: it is a history variable, the source has
      no such field and no operation branches on it. */
  datatype Change = Change(
    serial: nat, opId: string, action: string, item: string, source: Source, undo: bool,
    target: string, before: string, rollbackTo: string, sim: SimId, confirm: Confirm,
    rollbackEnabled: bool, deadlineMs: nat, createdMs: nat)

  /** What the readings have shown so far. */
  datatype Findings = Findings(
    everMatched: bool, readOk: bool, readback: Option<string>, applyFailed: bool,
    lastConn: Option<Conn>, registered: bool, dataOk: bool, tookMs: Option<nat>)

  /** The reference for "a new connection". */
  datatype Reference = Reference(conn: Option<Conn>, ms: nat)

  /** DNS probes: on which connection, how many failed, when the last one was. */
  datatype Probing = Probing(conn: Option<Conn>, fails: nat, lastMs: Option<nat>)

  datatype Clock = Clock(
    bootId: string, boots: nat, elapsedPrevMs: nat, waitStartMs: nat, seenMs: nat)

  datatype Txn = Txn(
    change: Change, phase: Phase, reason: Option<Reason>, rollbackReason: Option<Reason>,
    intent: Option<Intent>, generation: nat,
    found: Findings, reference: Reference, probing: Probing, clock: Clock)
  {
    function StepTo(p: Phase): Txn {
      this.(phase := p, generation := generation + 1)
    }

    function Finish(p: Phase, why: Reason): Txn {
      this.(phase := p, generation := generation + 1, reason := Some(why), intent := None)
    }

    predicate Waiting() { phase.Verifying? || phase.RollingBack? }

    /** Waiting for readings, with no device write under way. */
    predicate Counting() { Waiting() && intent.None? }

    function BeginApply(): Txn {
      StepTo(Applying).(intent := Some(Apply))
    }

    function WriteReturned(outcome: Applied, now: nat): Txn {
      if !phase.Applying? then this
      else this.(intent := None, found := found.(applyFailed := outcome.Failed?),
                 clock := clock.(waitStartMs := now, seenMs := now)).StepTo(Verifying)
    }

    function StartRollback(why: Reason): Txn {
      StepTo(RollingBack).(rollbackReason := Some(why), intent := Some(Rollback))
    }

    function ResetProbe(): Txn {
      this.(probing := Probing(None, 0, None), found := found.(dataOk := false))
    }

    function RollbackSent(now: nat): Txn {
      if !phase.RollingBack? then this
      else this.(intent := None, clock := clock.(waitStartMs := now, seenMs := now),
                 reference := Reference(found.lastConn, now),
                 generation := generation + 1).ResetProbe()
    }

    /** Is this a connection made after the write (or after the rollback)? */
    predicate NewConn(c: Conn) {
      || reference.ms == 0
      || (reference.conn.Some? && reference.conn.value.Addr() != c.Addr())
      || (c.upSince.Some? && c.upSince.value > reference.ms)
    }

    /** The value this phase is waiting to see. */
    function Goal(): string { if phase.RollingBack? then change.rollbackTo else change.target }

    function DataGate(r: Reading): Gate {
      if r.data.None? then Blocked
      else
        var d := r.data.value;
        match d.expected
        case None => Blocked
        case Some(false) =>
          Judged(if change.confirm.Apn? && phase.Verifying? then NoDataApn else DataOk)
        case Some(true) =>
          if !d.connected || d.conn.Addr() == "" then Blocked
          else if change.confirm.Apn? && !NewConn(d.conn) then Blocked
          else NeedsProbe(ProbeTarget(d.iface, d.dns, d.conn.V6Only()))
    }

    function WantsProbe(r: Reading, now: nat): Option<ProbeTarget> {
      if !Counting() || !r.registered then None
      else if r.value != Some(Goal()) then None
      else if CheckSim(change.sim, r.sim) != Same then None
      else
        match DataGate(r)
        case NeedsProbe(target) =>
          var roundOver :=
            && probing.conn.Some?
            && probing.conn.value.Same(r.data.value.conn)
            && probing.fails >= PROBE_TRIES;
          var gap := if roundOver then PROBE_ROUND_GAP_MS else PROBE_GAP_MS;
          if probing.lastMs.Some? && SatSub(now, probing.lastMs.value) < gap then None
          else Some(target)
        case _ => None
    }

    function NoteProbe(r: Reading, now: nat): Probing {
      if r.probe.None? || r.data.None? then probing
      else
        var c := r.data.value.conn;
        var again :=
          !(probing.conn.Some? && probing.conn.value.Same(c)) || probing.fails >= PROBE_TRIES;
        var p := if again then Probing(Some(c), 0, probing.lastMs) else probing;
        Probing(p.conn, if r.probe.value then p.fails else p.fails + 1, Some(now))
    }

    function Judge(r: Reading): DataJudge {
      match DataGate(r)
      case Judged(j) => j
      case NeedsProbe(_) => if r.probe == Some(true) then DataOk else NotYet
      case Blocked => NotYet
    }

    function Expire(why: Reason): Txn {
      if change.rollbackEnabled then StartRollback(why) else Finish(Unverified, NoRollback)
    }

    function OnTick(now: nat): Txn {
      if phase.IsFinal() || !Counting() then this
      else
        var t := this.(clock := clock.(seenMs := Max(clock.seenMs, now)));
        if SatSub(now, clock.waitStartMs) < change.deadlineMs then t
        else if phase.RollingBack? then t.Finish(RollbackFailed, RollbackTimeout)
        else if found.readOk && !found.everMatched then t.Finish(NotApplied, Ignored)
        else t.Expire(Timeout)
    }

    /** The connection a reading leaves as the last one seen. */
    function ConnAfter(r: Reading): Option<Conn> {
      if r.data.Some? && r.data.value.conn.Addr() != "" then Some(r.data.value.conn)
      else found.lastConn
    }

    /** A reading of an unchanged SIM before it is judged: what it leaves noted. */
    function Noted(r: Reading, now: nat): Txn {
      this.(clock := clock.(seenMs := now),
            found := found.(
              lastConn := ConnAfter(r), registered := r.registered,
              readOk := found.readOk || r.value.Some?,
              readback := if r.value.Some? then r.value else found.readback),
            probing := NoteProbe(r, now))
    }

    function OnReading(r: Reading, now: nat): Txn {
      if phase.IsFinal() || !Counting() then this
      else
        var t := this.(clock := clock.(seenMs := now), found := found.(lastConn := ConnAfter(r)));
        match CheckSim(change.sim, r.sim)
        case Changed => t.Finish(Cancelled, SimChanged)
        case Unknown => t.OnTick(now)
        case Same =>
          var t := Noted(r, now);
          if r.value.None? then t.OnTick(now)
          else if phase.Verifying? then t.OnConfigVerifying(r, r.value.value, now)
          else t.OnConfigRollingBack(r, r.value.value, now)
    }

    function OnConfigVerifying(r: Reading, v: string, now: nat): Txn {
      if v == change.target then
        var t := this.(found := found.(everMatched := true));
        if !r.registered then t.OnTick(now)
        else
          var j := Judge(r);
          var t := t.(found := t.found.(dataOk := j != NotYet));
          match j
          case DataOk =>
            var took := clock.elapsedPrevMs + SatSub(now, clock.waitStartMs);
            t.(found := t.found.(tookMs := Some(took))).Finish(Confirmed, Verified)
          case NoDataApn => t.Finish(Unverified, ApnNoData)
          case NotYet => t.OnTick(now)
      else if v == change.before then
        if found.everMatched then Finish(Cancelled, ManualChange)
        else if found.applyFailed then Finish(NotApplied, Ignored)
        else OnTick(now)
      else if v != "" then Finish(Cancelled, ManualChange)
      else OnTick(now)
    }

    function OnConfigRollingBack(r: Reading, v: string, now: nat): Txn {
      if v == change.rollbackTo then
        if !r.registered then OnTick(now)
        else
          var j := Judge(r);
          var t := this.(found := found.(dataOk := j != NotYet));
          if j == NotYet then t.OnTick(now)
          else t.Finish(RolledBack, if rollbackReason.Some? then rollbackReason.value else Timeout)
      else if v != change.target && v != "" then Finish(Cancelled, ManualChange)
      else OnTick(now)
    }

    function Revert(): Outcome<Txn, string> {
      if phase.Verifying? && intent.None? then Ok(StartRollback(UserRevert))
      else if phase.RollingBack? then Err("already rolling back")
      else if phase.IsFinal() then Err("change already finished")
      else Err("change is still being applied")
    }

    function Keep(): Outcome<Txn, string> {
      if phase.Verifying? && intent.None? then Ok(Finish(Confirmed, UserKeep))
      else if phase.RollingBack? then Err("already rolling back")
      else if phase.IsFinal() then Err("change already finished")
      else Err("change is still being applied")
    }

    function Cancel(why: Reason): Txn {
      if phase.IsFinal() then this else Finish(Cancelled, why)
    }

    /** The whole device restarted: the clock started over. */
    function Rebooted(boot: string): Txn {
      this.(clock := clock.(
              elapsedPrevMs := if Counting()
                               then clock.elapsedPrevMs + SatSub(clock.seenMs, clock.waitStartMs)
                               else clock.elapsedPrevMs,
              boots := clock.boots + 1, bootId := boot),
            reference := reference.(ms := 0)).ResetProbe()
    }

    /** A write that was under way counts as done and is never sent again; the wait starts
        over after such a write and after a reboot. */
    function Settled(rebooted: bool, now: nat): Txn {
      var unsure := phase.Applying? || (phase.Verifying? && intent == Some(Apply));
      var restarts := unsure || (phase.RollingBack? && intent.Some?) || rebooted;
      this.(phase := if unsure then Verifying else phase,
            intent := if unsure || phase.RollingBack? then None else intent,
            generation := generation + 1,
            clock := clock.(seenMs := now, waitStartMs := if restarts then now else clock.waitStartMs))
    }

    /** The process started and found this transaction on disk. */
    function Resume(boot: string, now: nat): Txn {
      if phase.IsFinal() then this
      else
        var rebooted := boot != clock.bootId;
        var t := if rebooted then Rebooted(boot) else this;
        if phase.Accepted? then t.Finish(NotApplied, Ignored)
        else
          var t := t.Settled(rebooted, now);
          if rebooted && t.phase.Verifying?
             && (t.clock.boots >= 2 || t.clock.elapsedPrevMs >= change.deadlineMs)
          then t.Expire(RebootLoop)
          else t
    }
  }

  /** A new transaction: nothing done yet, `conn` is the connection before the write. */
  function Create(c: Change, conn: Option<Conn>, bootId: string): Txn {
    Txn(c, Accepted, None, None, None, 0,
        Findings(false, false, None, false, conn, false, false, None),
        Reference(conn, c.createdMs), Probing(None, 0, None),
        Clock(bootId, 0, 0, c.createdMs, c.createdMs))
  }
}
