/** Exactly what each lock section leaves, field by field: what is live, what is on disk, what is remembered, and what
    becomes of a session. `OpsStateLaws` says what the sections keep. */
module OpsStateExact {
  import opened Common
  import opened OpsTxn
  import opened OpsTxnLaws
  import opened OpsState
  import opened OpsStateLaws

  // ---- transactions -------------------------------------------------------------------------

  /** `u` is the last one remembered, nothing is live and nothing on disk; at most sixteen are remembered. */
  predicate PutAway(st: St, v: St, u: Txn) {
    && v.active.None? && v.disk.None?
    && v.recent == (if |st.recent| < 16 then st.recent else st.recent[1..]) + [u]
    && v.session == st.session && v.legacy == st.legacy
  }

  /** `u` is live, and on disk if it has to be, with the time it was saved at. */
  predicate GoesOn(st: St, v: St, u: Txn, saved: bool) {
    && v.active == Some(u) && v.disk == (if saved then Some(u) else st.disk)
    && v.savedSeenMs == (if saved then u.clock.seenMs else st.savedSeenMs)
    && v.recent == st.recent && v.session == st.session && v.legacy == st.legacy
  }

  /** A reading or a failure to read counts exactly if the transaction is still the one, in the phase, that the driver set
      out for. One that ends is put away; one that goes on is saved at once if its phase or intent changed, and otherwise
      when the copy is ten seconds old. */
  lemma FeedExact(st: St, op: string, gen: nat, r: Option<Reading>, now: nat)
    requires MemOk(st)
    ensures var v := Feed(st, op, gen, r, now);
            if st.active.Some? && st.active.value.change.opId == op && st.active.value.generation == gen then
              var u := Handle(st.active.value, if r.Some? then Read(r.value, now) else Tick(now));
              if u.phase.IsFinal() then PutAway(st, v, u)
              else GoesOn(st, v, u, u.generation != gen || u.clock.seenMs >= st.savedSeenMs + 10_000)
            else v == st
  {
    hide Txn.OnReading, Txn.OnTick, Sound;
    if Live(st, op) && st.active.value.generation == gen {
      var u := Handle(st.active.value, if r.Some? then Read(r.value, now) else Tick(now));
      SaturatesTo(u.clock.seenMs, st.savedSeenMs, 10_000);
    }
  }

  lemma SaturatesTo(a: nat, b: nat, n: nat)
    requires n > 0
    ensures SatSub(a, b) >= n <==> a >= b + n
  {
  }

  /** A write that came back, the intent of a rollback, a rollback that was sent and a user's revert are on disk when
      their section ends; for another op_id nothing happens to the transaction. */
  lemma SavedAtOnce(st: St, op: string, outcome: Applied, now: nat)
    requires MemOk(st)
    ensures var mine := st.active.Some? && st.active.value.change.opId == op;
            if mine then
              && GoesOn(st, RecordWrite(st, op, outcome, now), Handle(st.active.value, WriteBack(outcome, now)), true)
              && GoesOn(st, SaveIntent(st, op), st.active.value, true)
              && GoesOn(st, RecordRollback(st, op, now), Handle(st.active.value, RollbackWritten(now)), true)
              && (if st.active.value.phase.Verifying?
                  then GoesOn(st, RevertNow(st, op), Handle(st.active.value, UserReverts), true)
                       && PutAway(st, KeepNow(st, op), Handle(st.active.value, UserKeeps))
                  else RevertNow(st, op) == st && KeepNow(st, op) == st)
            else
              && SaveIntent(st, op) == st && RecordRollback(st, op, now) == st
              && RevertNow(st, op) == st && KeepNow(st, op) == st && RecordWrite(st, op, outcome, now).active == st.active
  {
  }

  /** An interruption puts the transaction away as cancelled for its reason; a safety write also empties the queue. */
  lemma InterruptExact(st: St, why: Reason)
    requires MemOk(st)
    ensures if st.active.None? then Interrupt(st, why) == st
            else
              var u := st.active.value.(phase := Cancelled, reason := Some(why), intent := None,
                                        generation := st.active.value.generation + 1);
              PutAway(st, Interrupt(st, why), u)
    ensures Preempt(st) == Interrupt(st, Preempted).(legacy := [])
  {
  }

  /** An old request passes if no session is open and nothing is live, or if what is live is about its item and waits
      without a write under way; that one ends as superseded. Otherwise it is queued and nothing changes. */
  lemma GateExact(st: St, item: string)
    requires MemOk(st)
    ensures var (v, answer) := GateLegacy(st, item);
            var pass := st.session.None? &&
              (st.active.Some? ==> && st.active.value.change.item == item && st.active.value.intent.None?
                                   && (st.active.value.phase.Verifying? || st.active.value.phase.RollingBack?));
            && (answer.PassOn? <==> pass)
            && (pass && st.active.Some? ==> PutAway(st, v, st.active.value.Finish(Cancelled, Superseded)))
            && (!pass || st.active.None? ==> v == st)
  {
  }

  /** The transaction that a submit starts: everything it is about, the connection before its write as the reference,
      and rollback as it is set, but never for an old client. */
  lemma InstallExact(st: St, req: Request, serial: nat, before: string, sim: SimId,
                     conn: Option<Conn>, rollback: bool, boot: string, now: nat)
    requires MemOk(st) && Clear(st, req)
    ensures var v := Install(st, req, serial, before, sim, conn, rollback, boot, now);
            && v.active.Some? && v.disk == v.active
            && var t, c := v.active.value, v.active.value.change;
            && c.serial == serial && c.opId == req.opId && c.action == req.spec.action && c.item == req.spec.item
            && c.source == req.source && c.undo == req.undo && c.target == req.target && c.before == before && c.sim == sim
            && c.confirm == req.spec.confirm && c.deadlineMs == req.spec.deadlineMs && c.createdMs == now
            && (c.rollbackEnabled <==> rollback && req.source != Legacy)
            && t.phase == Applying && t.intent == Some(Apply) && t.reason.None?
            && t.reference == Reference(conn, now) && t.found.lastConn == conn && t.clock.bootId == boot && t.clock.boots == 0
            && !t.found.everMatched && !t.found.readOk && !t.found.applyFailed && t.probing.lastMs.None?
            && t.clock.elapsedPrevMs == 0 && !t.found.registered && !t.found.dataOk && t.found.readback.None? && t.found.tookMs.None?
  {
  }

  /** A start: nothing on disk, nothing live; after an emergency write the pending one is put away; otherwise it is taken
      up, put away if that ended it, and live and saved if not. */
  lemma StartExact(disk: Option<Txn>, takeover: bool, boot: string, now: nat)
    requires disk.Some? ==> LiveOk(disk.value)
    ensures var v := Start(disk, takeover, boot, now);
            && v.session.None? && v.legacy == []
            && if disk.None? then v.active.None? && v.disk.None? && v.recent == []
               else
                 var u := Handle(disk.value, if takeover then Cancels(Takeover) else Restart(boot, now));
                 if u.phase.IsFinal() then PutAway(Empty(disk), v, u) else GoesOn(Empty(disk), v, u, true)
    ensures takeover && disk.Some? ==> Start(disk, takeover, boot, now).active.None?
  {
    hide Txn.Resume, Sound;
  }

  // ---- sessions -------------------------------------------------------------------------------

  /** The session is seven minutes old, or was not renewed for a minute. */
  predicate RunOut(s: Session, now: nat) {
    s.openedMs + 420_000 <= now || s.renewedMs + 60_000 <= now
  }

  /** The session that is still there. */
  function Standing(st: St, now: nat): Option<Session> {
    if st.session.Some? && RunOut(st.session.value, now) then None else st.session
  }

  /** One that has run out is gone in any case. A session opens exactly if none stands and nothing is live; renewing and
      closing concern the session of that id alone; and nothing else of the state changes. */
  lemma SessionExact(st: St, id: string, source: Source, now: nat)
    ensures var old_ := Standing(st, now);
            var mine := old_.Some? && old_.value.id == id;
            && Reap(st, now) == st.(session := old_)
            && OpenSession(st, id, source, now) ==
                 st.(session := if old_.None? && st.active.None? then Some(Session(id, source, now, now)) else old_)
            && RenewSession(st, id, now) ==
                 st.(session := if mine then Some(Session(id, old_.value.source, old_.value.openedMs, now)) else old_)
            && CloseSession(st, id, now) == st.(session := if mine then None else old_)
  {
    if st.session.Some? {
      SaturatesTo(now, st.session.value.openedMs, 420_000);
      SaturatesTo(now, st.session.value.renewedMs, 60_000);
    }
  }
}
