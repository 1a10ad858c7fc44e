/** What each event does to a transaction, exactly and in terms of its fields: how a reading or a tick ends the
    wait, that no wait ends by timeout before its deadline, what a restart makes of it, and how probes are counted. */
module OpsTxnExact {
  import opened Common
  import opened OpsTxn
  import opened OpsTxnLaws

  // ---- readings and ticks ------------------------------------------------------------------

  /** The reading decides by itself what becomes of a waiting transaction. */
  predicate Decided(t: Txn, r: Reading) {
    || OtherCard(t.change.sim, r.sim)
    || (SameCard(t.change.sim, r.sim) && r.value.Some? && DecidedBy(t, r, r.value.value))
  }

  /** The value waited for decides with a registration and proven data, another value if it is not empty; the
      value before the change only after the target was seen or the write failed. */
  predicate DecidedBy(t: Txn, r: Reading, v: string) {
    if t.phase.Verifying? then
      if v == t.change.target then r.registered && DataProven(t, r)
      else if v == t.change.before then t.found.everMatched || t.found.applyFailed
      else v != ""
    else
      if v == t.change.rollbackTo then r.registered && DataProven(t, r)
      else v != t.change.target && v != ""
  }

  predicate Ended(u: Txn, p: Phase, why: Reason) {
    u.phase == p && u.reason == Some(why) && u.intent.None?
  }

  /** How a reading that decides ends the transaction. */
  predicate DecidedWell(t: Txn, r: Reading, u: Txn, now: nat) {
    if OtherCard(t.change.sim, r.sim) then Ended(u, Cancelled, SimChanged)
    else if r.value.None? then false
    else
      var v := r.value.value;
      if t.phase.RollingBack? then
        if v == t.change.rollbackTo then u.phase.RolledBack? && u.reason == t.rollbackReason
        else Ended(u, Cancelled, ManualChange)
      else if v == t.change.target then
        if t.change.confirm.Apn? && r.data.Some? && r.data.value.expected == Some(false)
        then Ended(u, Unverified, ApnNoData)
        else Ended(u, Confirmed, Verified) && u.found.tookMs == Some(TotalWait(t, now))
      else if v == t.change.before && !t.found.everMatched then Ended(u, NotApplied, Ignored)
      else Ended(u, Cancelled, ManualChange)
  }

  /** The value was read at least once during the wait, and the target never. */
  predicate NeverTaken(t: Txn, e: Event) {
    && (t.found.readOk || (e.Read? && SameCard(t.change.sim, e.r.sim) && e.r.value.Some?))
    && !t.found.everMatched && !ShowedTarget(t, e)
  }

  /** What becomes of a waiting transaction that nothing decided: before the deadline it goes on waiting. */
  predicate WaitedWell(t: Txn, e: Event, u: Txn, now: nat) {
    if now < t.clock.waitStartMs + t.change.deadlineMs then
      u.phase == t.phase && u.reason.None? && u.intent.None? && u.generation == t.generation
      && u.rollbackReason == t.rollbackReason
    else if t.phase.RollingBack? then Ended(u, RollbackFailed, RollbackTimeout)
    else if NeverTaken(t, e) then Ended(u, NotApplied, Ignored)
    else if t.change.rollbackEnabled then
      u.phase.RollingBack? && u.reason.None? && u.intent == Some(Rollback) && u.rollbackReason == Some(Timeout)
    else Ended(u, Unverified, NoRollback)
  }

  lemma TickOutcome(t: Txn, now: nat)
    requires Sound(t) && t.Counting()
    ensures WaitedWell(t, Tick(now), t.OnTick(now), now)
  {
  }

  /** A transaction that differs in nothing that the deadline looks at, except what the reading showed. */
  predicate SeenThrough(t: Txn, n: Txn, r: Reading, matched: bool) {
    && n.change == t.change && n.phase == t.phase && n.intent == t.intent && n.generation == t.generation
    && n.reason == t.reason && n.rollbackReason == t.rollbackReason
    && n.clock.waitStartMs == t.clock.waitStartMs
    && n.found.readOk == (t.found.readOk || (SameCard(t.change.sim, r.sim) && r.value.Some?))
    && n.found.everMatched == (t.found.everMatched || matched)
  }

  lemma TickAfterReading(t: Txn, n: Txn, r: Reading, now: nat)
    requires Sound(t) && t.Counting() && SeenThrough(t, n, r, ShowedTarget(t, Read(r, now)))
    ensures WaitedWell(t, Read(r, now), n.OnTick(now), now)
  {
    hide SameCard;
  }

  lemma VerifyingOutcome(t: Txn, r: Reading, v: string, now: nat)
    requires Sound(t) && t.phase.Verifying? && SameCard(t.change.sim, r.sim) && r.value == Some(v)
    ensures var u := t.Noted(r, now).OnConfigVerifying(r, v, now);
            if DecidedBy(t, r, v) then DecidedWell(t, r, u, now) else WaitedWell(t, Read(r, now), u, now)
  {
    hide WaitedWell, SameCard;
    var n := t.Noted(r, now);
    assert n.Judge(r) == t.Judge(r);
    JudgeIs(t, r);
    if v == t.change.target {
      var m := n.(found := n.found.(everMatched := true));
      TickAfterReading(t, m, r, now);
      TickAfterReading(t, m.(found := m.found.(dataOk := false)), r, now);
    } else {
      TickAfterReading(t, n, r, now);
    }
    assert !OtherCard(t.change.sim, r.sim) by { SameIsNotOther(t.change.sim, r.sim); }
    hide Txn.OnTick, Txn.Judge, DataProven, Txn.NoteProbe;
  }

  lemma SameIsNotOther(a: SimId, b: SimId)
    requires SameCard(a, b)
    ensures !OtherCard(a, b)
  {
  }

  /** What the data of a reading comes to. */
  lemma JudgeIs(t: Txn, r: Reading)
    ensures t.Judge(r) != NotYet <==> DataProven(t, r)
    ensures t.Judge(r) == NoDataApn <==>
              && t.phase.Verifying? && t.change.confirm.Apn?
              && r.data.Some? && r.data.value.expected == Some(false)
  {
  }

  lemma RollingOutcome(t: Txn, r: Reading, v: string, now: nat)
    requires Sound(t) && t.phase.RollingBack? && t.Counting() && SameCard(t.change.sim, r.sim) && r.value == Some(v)
    ensures var u := t.Noted(r, now).OnConfigRollingBack(r, v, now);
            if DecidedBy(t, r, v) then DecidedWell(t, r, u, now) else WaitedWell(t, Read(r, now), u, now)
  {
    hide WaitedWell, SameCard;
    var n := t.Noted(r, now);
    assert n.Judge(r) == t.Judge(r);
    JudgeIs(t, r);
    TickAfterReading(t, n, r, now);
    TickAfterReading(t, n.(found := n.found.(dataOk := false)), r, now);
    assert !OtherCard(t.change.sim, r.sim) by { SameIsNotOther(t.change.sim, r.sim); }
    hide Txn.OnTick, Txn.Judge, DataProven, Txn.NoteProbe;
  }

  /** What a reading or a tick makes of a waiting transaction, in every case: a reading that decides ends it in the
      way given by its value; anything else leaves it alone until the deadline has passed. */
  lemma WaitOutcome(t: Txn, e: Event)
    requires Sound(t) && t.Counting() && (e.Tick? || e.Read?)
    ensures if e.Read? && Decided(t, e.r) then DecidedWell(t, e.r, Handle(t, e), e.now)
            else WaitedWell(t, e, Handle(t, e), e.now)
  {
    if e.Tick? {
      TickOutcome(t, e.now);
    } else {
      var r, now := e.r, e.now;
      CheckSimExact(t.change.sim, r.sim);
      hide WaitedWell, DecidedBy, Txn.OnConfigVerifying, Txn.OnConfigRollingBack, Txn.NoteProbe, Txn.OnTick, CheckSim, SameCard, OtherCard;
      if CheckSim(t.change.sim, r.sim) == Same {
        if r.value.None? {
          TickAfterReading(t, t.Noted(r, now), r, now);
        } else if t.phase.Verifying? {
          VerifyingOutcome(t, r, r.value.value, now);
        } else {
          RollingOutcome(t, r, r.value.value, now);
        }
      } else {
        var m := t.(clock := t.clock.(seenMs := now), found := t.found.(lastConn := t.ConnAfter(r)));
        TickAfterReading(t, m, r, now);
      }
    }
  }

  // ---- what is noted -------------------------------------------------------------------------------

  /** What a reading leaves noted, whether or not it ends the wait: when it came, the last connection seen, and, if the
      card is the same, what it showed and how its probe counts. */
  predicate NotedWell(t: Txn, r: Reading, now: nat, u: Txn) {
    var same := SameCard(t.change.sim, r.sim);
    var goal := same && r.registered && r.value == Some(if t.phase.RollingBack? then t.change.rollbackTo else t.change.target);
    && u.change == t.change && u.reference == t.reference && u.clock == t.clock.(seenMs := now)
    && u.probing == (if same then t.NoteProbe(r, now) else t.probing)
    && u.found.lastConn == t.ConnAfter(r) && u.found.applyFailed == t.found.applyFailed
    && u.found.registered == (if same then r.registered else t.found.registered)
    && (u.found.readOk <==> t.found.readOk || (same && r.value.Some?))
    && u.found.readback == (if same && r.value.Some? then r.value else t.found.readback)
    && (u.found.everMatched <==> t.found.everMatched || ShowedTarget(t, Read(r, now)))
    && (u.found.dataOk <==> if goal then DataProven(t, r) else t.found.dataOk)
  }

  lemma TickNoted(t: Txn, now: nat)
    ensures var u := t.OnTick(now);
            && u.change == t.change && u.found == t.found && u.probing == t.probing && u.reference == t.reference
            && (t.Counting() ==> u.clock == t.clock.(seenMs := if now > t.clock.seenMs then now else t.clock.seenMs))
            && (!t.Counting() ==> u == t)
  {
  }

  lemma VerifyingNoted(t: Txn, r: Reading, v: string, now: nat)
    requires t.phase.Verifying? && t.intent.None? && SameCard(t.change.sim, r.sim) && r.value == Some(v)
    ensures NotedWell(t, r, now, t.Noted(r, now).OnConfigVerifying(r, v, now))
  {
    var n := t.Noted(r, now);
    assert n.Judge(r) == t.Judge(r);
    JudgeIs(t, r);
    var m := n.(found := n.found.(everMatched := true));
    TickNoted(n, now);
    TickNoted(m, now);
    TickNoted(m.(found := m.found.(dataOk := false)), now);
    hide Txn.OnTick, Txn.Judge, DataProven, Txn.NoteProbe, Txn.ConnAfter, SameCard;
  }

  lemma RollingNoted(t: Txn, r: Reading, v: string, now: nat)
    requires t.phase.RollingBack? && t.intent.None? && SameCard(t.change.sim, r.sim) && r.value == Some(v)
    ensures NotedWell(t, r, now, t.Noted(r, now).OnConfigRollingBack(r, v, now))
  {
    var n := t.Noted(r, now);
    assert n.Judge(r) == t.Judge(r);
    JudgeIs(t, r);
    TickNoted(n, now);
    TickNoted(n.(found := n.found.(dataOk := false)), now);
    hide Txn.OnTick, Txn.Judge, DataProven, Txn.NoteProbe, Txn.ConnAfter, SameCard;
  }

  /** A transaction that does not wait takes no notice of readings. */
  lemma ReadingNoted(t: Txn, r: Reading, now: nat)
    ensures t.Counting() ==> NotedWell(t, r, now, t.OnReading(r, now))
    ensures !t.Counting() ==> t.OnReading(r, now) == t
  {
    CheckSimExact(t.change.sim, r.sim);
    var n := t.Noted(r, now);
    var m := t.(clock := t.clock.(seenMs := now), found := t.found.(lastConn := t.ConnAfter(r)));
    TickNoted(n, now);
    TickNoted(m, now);
    if t.Counting() && CheckSim(t.change.sim, r.sim) == Same && r.value.Some? {
      if t.phase.Verifying? { VerifyingNoted(t, r, r.value.value, now); } else { RollingNoted(t, r, r.value.value, now); }
    }
    hide Txn.OnTick, Txn.OnConfigVerifying, Txn.OnConfigRollingBack, DataProven, Txn.NoteProbe, Txn.ConnAfter, SameCard, CheckSim, OtherCard;
  }

  // ---- restarts ------------------------------------------------------------------------------------

  /** A restart keeps a transaction as it is if it has ended; one whose write never began was not applied; a rollback
      goes on with its write taken as sent; and verifying goes on unless this is the second reboot, or the time waited
      before this reboot has reached the deadline. */
  lemma RestartOutcome(t: Txn, boot: string, now: nat)
    requires Sound(t)
    ensures var u := t.Resume(boot, now);
            var waited := t.clock.elapsedPrevMs +
              if t.Counting() && t.clock.waitStartMs <= t.clock.seenMs then t.clock.seenMs - t.clock.waitStartMs else 0;
            match t.phase
            case Accepted => Ended(u, NotApplied, Ignored)
            case RollingBack => u.phase.RollingBack? && u.intent.None? && u.rollbackReason == t.rollbackReason
            case _ =>
              if t.phase.IsFinal() then u == t
              else if boot != t.clock.bootId && (t.clock.boots > 0 || waited >= t.change.deadlineMs) then
                if t.change.rollbackEnabled
                then u.phase.RollingBack? && u.intent == Some(Rollback) && u.rollbackReason == Some(RebootLoop)
                else Ended(u, Unverified, NoRollback)
              else
                && u.phase.Verifying? && u.intent.None? && u.found.everMatched == t.found.everMatched
                && (boot != t.clock.bootId ==>
                      u.clock.elapsedPrevMs == waited && u.reference.ms == 0 && !u.found.dataOk && u.probing.conn.None?)
                && (boot == t.clock.bootId ==>
                      u.clock.elapsedPrevMs == t.clock.elapsedPrevMs && u.reference == t.reference && u.probing == t.probing)
    ensures !t.phase.IsFinal() ==>
              var u := t.Resume(boot, now);
              && u.clock.bootId == boot && u.clock.boots == t.clock.boots + (if boot != t.clock.bootId then 1 else 0)
              && (!t.phase.Accepted? ==> u.clock.seenMs == now)
              && (t.phase.RollingBack? ==>
                    u.clock.waitStartMs == if boot != t.clock.bootId || t.intent.Some? then now else t.clock.waitStartMs)
  {
  }

  // ---- the user and the writes ---------------------------------------------------------------------

  /** A user's request is taken exactly while the change is being verified; it is kept, or rolled back whatever
      the setting. */
  lemma RequestOutcome(t: Txn)
    requires Sound(t)
    ensures (Handle(t, UserKeeps) != t <==> t.phase.Verifying?) && (Handle(t, UserReverts) != t <==> t.phase.Verifying?)
    ensures t.phase.Verifying? ==>
              && Ended(Handle(t, UserKeeps), Confirmed, UserKeep)
              && var u := Handle(t, UserReverts);
                 u.phase.RollingBack? && u.intent == Some(Rollback) && u.rollbackReason == Some(UserRevert)
    ensures !t.phase.Verifying? ==>
              var why := if t.phase == Accepted || t.phase == Applying then "change is still being applied"
                         else if t.phase == RollingBack then "already rolling back" else "change already finished";
              t.Keep() == Err(why) && t.Revert() == Err(why)
  {
  }

  /** After a write the wait starts anew; a rollback also starts anew what counts as a new connection and the probes. */
  lemma WriteOutcome(t: Txn, outcome: Applied, now: nat)
    requires Sound(t)
    ensures var u := Handle(t, WriteBack(outcome, now));
            if !t.phase.Applying? then u == t
            else u.phase.Verifying? && u.intent.None? && u.clock.waitStartMs == now == u.clock.seenMs
                 && (u.found.applyFailed <==> outcome == Failed) && u.reference == t.reference
    ensures var u := Handle(t, RollbackWritten(now));
            if !t.phase.RollingBack? then u == t
            else u.phase.RollingBack? && u.intent.None? && u.clock.waitStartMs == now == u.clock.seenMs
                 && u.reference == Reference(t.found.lastConn, now) && u.probing == Probing(None, 0, None) && !u.found.dataOk
                 && u.generation > t.generation
  {
  }

  // ---- probes ----------------------------------------------------------------------------------------

  /** The last connection seen is that of the last reading that has one. */
  lemma ConnOutcome(t: Txn, r: Reading)
    ensures t.ConnAfter(r) ==
              if r.data.Some? && (r.data.value.conn.ipv4 != "" || r.data.value.conn.ipv6 != "")
              then Some(r.data.value.conn) else t.found.lastConn
  {
  }

  predicate Probed(r: Reading) { r.probe.Some? && r.data.Some? }

  /** A probe counts towards a round on its connection: another connection, or three failures, start a round. */
  lemma ProbeCounted(t: Txn, r: Reading, now: nat)
    requires t.probing.fails <= 3
    ensures var p := t.NoteProbe(r, now);
            && p.fails <= 3
            && (!Probed(r) ==> p == t.probing)
            && (Probed(r) ==>
                 var c := r.data.value.conn;
                 var goesOn := t.probing.conn.Some? && SameConn(t.probing.conn.value, c) && t.probing.fails < 3;
                 && p.lastMs == Some(now)
                 && (goesOn ==> p.conn == t.probing.conn) && (!goesOn ==> p.conn == Some(c))
                 && p.fails == (if goesOn then t.probing.fails else 0) + (if r.probe == Some(false) then 1 else 0))
  {
  }

  /** A probe goes out only while readings count, over the reading's interface to its name servers, by IPv6 where there is no IPv4 address. */
  lemma ProbeGoesTo(t: Txn, r: Reading, now: nat)
    requires t.WantsProbe(r, now).Some?
    ensures (t.phase.Verifying? || t.phase.RollingBack?) && t.intent.None?
    ensures r.data.Some? && var d, p := r.data.value, t.WantsProbe(r, now).value;
              p.iface == d.iface && p.dns == d.dns && (p.v6 <==> d.conn.ipv4 == "") && (p.v6 ==> d.conn.ipv6 != "")
  {
  }
}
