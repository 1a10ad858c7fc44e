/** The theorems about whole runs of the write-operation layer. */
module OpsTheorems {
  import opened Common
  import opened OpsTxn
  import opened OpsTxnLaws
  import opened OpsState
  import opened OpsStateLaws
  import opened OpsProtocol
  import opened OpsSafety
  import opened OpsAllRuns
  import opened OpsEvidence

  // ---- every step, every run ---------------------------------------------------------

  lemma EnvKeeps(w: World, e: EnvStep)
    requires Inv(w) && Can(w, Env(e))
    ensures Inv(DoEnv(w, e))
  {
    hide Inv, DoBoot, Dead;
    match e
    case Boot => BootKeeps(w);
    case Crash => DeadKeeps(w, w.around); assert Dead(w) == Dead(w).(around := w.around) by { DeadAround(w); }
    case Reboot(boot) => DeadKeeps(w, w.around.(boot := boot, now := 0));
    case Pass(ms) => ClockKeeps(w, w.around.(now := w.around.now + ms));
    case TakeOver => ClockKeeps(w, w.around.(takeover := true));
  }

  lemma DeadAround(w: World)
    ensures Dead(w).around == w.around
  {
  }

  lemma ClockKeeps(w: World, around: Around)
    requires Inv(w)
    ensures Inv(w.(around := around))
  {
    hide TasksOk, StagesOk, PastOk, ToWriteOk, OnceOk, Sound;
  }

  lemma SubmitStepKeeps(w: World, k: nat, s: SubmitStep)
    requires Inv(w) && w.up && CanSubmit(w, k, s) && OpIdFree(w, Submits(k, s))
    ensures Inv(DoSubmit(w, k, s))
  {
    hide Inv, DoCaptured, DoApplyWrite, DoApplyRecord, OpIdFree;
    match s
    case Submit(req) => SubmitKeeps(w, k, req);
    case Captured(before, sim, conn) => CapturedKeeps(w, k, before, sim, conn);
    case CaptureFailed => EndsKeeps(w, k);
    case ApplyWrite(outcome) => ApplyWriteKeeps(w, k, outcome);
    case ApplyRecord => ApplyRecordKeeps(w, k);
  }

  lemma RollStepKeeps(w: World, k: nat, s: RollbackStep)
    requires Inv(w) && w.up && CanRoll(w, k, s)
    ensures Inv(DoRoll(w, k, s))
  {
    hide Inv, DoDriveTop, DoRollbackSave, DoRollbackCheck, DoRollbackWrite, DoRollbackRecord;
    match s
    case DriveTop => DriveTopKeeps(w, k);
    case RollbackSave => RollbackSaveKeeps(w, k);
    case RollbackCheck(check) => RollbackCheckKeeps(w, k, check);
    case RollbackWrite => RollbackWriteKeeps(w, k);
    case RollbackRecord => RollbackRecordKeeps(w, k);
  }

  lemma ReadStepKeeps(w: World, k: nat, s: ReadStep)
    requires Inv(w) && w.up && CanRead(w, k, s)
    ensures Inv(DoRead(w, k, s))
  {
    hide Inv, DoReadBegin, DoReadEnd, DoProbeEnd, DoFeedIn;
    match s
    case FeedIn => FeedInKeeps(w, k);
    case ReadEnd(got) => ReadEndKeeps(w, k, got);
    case _ => ReadKeeps(w, k, s);
  }

  lemma StepKeeps(w: World, s: Step)
    requires Inv(w) && Can(w, s) && OpIdFree(w, s)
    ensures Inv(Do(w, s))
  {
    hide Inv, DoEnv, DoSubmit, DoRoll, DoRead, DoAsk, DoQueue, DoSession, OpIdFree;
    match s
    case Env(e) => EnvKeeps(w, e);
    case Submits(k, a) => SubmitStepKeeps(w, k, a);
    case Rolls(k, a) => RollStepKeeps(w, k, a);
    case Listens(k, a) => ReadStepKeeps(w, k, a);
    case Asks(k, a) => AskKeeps(w, k, a);
    case Queues(k, a) => QueueKeeps(w, k, a);
    case Sessions(k, a) => SessionKeeps(w, k, a);
  }

  /** No submit goes ahead with an op_id while a task of an earlier use of it still runs. */
  ghost predicate OpIdsFree(w: World, steps: seq<Step>)
    requires Possible(w, steps)
    decreases |steps|
  {
    steps == [] || (OpIdFree(w, steps[0]) && OpIdsFree(Do(w, steps[0]), steps[1..]))
  }

  lemma {:induction false} RunKeeps(w: World, steps: seq<Step>)
    requires Inv(w) && Possible(w, steps) && OpIdsFree(w, steps)
    ensures Inv(After(w, steps))
    decreases |steps|
  {
    hide Inv, Do, Can, OpIdFree;
    if steps != [] {
      StepKeeps(w, steps[0]);
      RunKeeps(Do(w, steps[0]), steps[1..]);
    }
  }

  lemma InitIsOk(rollback: bool, ttl: nat, boot: string, now: nat)
    ensures Inv(Init(rollback, ttl, boot, now))
  {
  }

  /** Over every run, whatever op_ids the clients use: each transaction is applied at most once,
      none is live while a session is open, and what is live or on disk obeys the laws of a
      transaction and goes back to the value read before its chain of overriding submits began.
      If no submit goes ahead with an op_id while a task of an earlier use of it still runs, each
      transaction is also rolled back at most once, and to that value. */
  lemma AtMostOneWriteEachWay(rollback: bool, ttl: nat, boot: string, now: nat, steps: seq<Step>, serial: nat)
    requires Possible(Init(rollback, ttl, boot, now), steps)
    ensures var w := After(Init(rollback, ttl, boot, now), steps);
            && w.past.applied[serial] <= 1
            && ChainOk(w.past.chain)
            && !(w.st.active.Some? && w.st.session.Some?)
            && (w.st.active.Some? ==> TxnOk(w.past.chain, w.st.active.value))
            && (w.st.disk.Some? ==> TxnOk(w.past.chain, w.st.disk.value))
            && (OpIdsFree(Init(rollback, ttl, boot, now), steps) ==>
                  && w.past.rolledBack[serial] <= 1
                  && (w.past.rolledBack[serial] == 1 ==>
                        && serial < |w.past.chain| && serial in w.past.rolledTo
                        && w.past.rolledTo[serial] == RootBefore(w.past.chain, serial)))
            && (serial < |w.past.chain| ==>
                  w.past.chain[Root(w.past.chain, serial)].item == w.past.chain[serial].item)
  {
    hide OpIdsFree, TxnOk;
    InitCore(rollback, ttl, boot, now);
    RunCore(Init(rollback, ttl, boot, now), steps);
    if OpIdsFree(Init(rollback, ttl, boot, now), steps) {
      InitIsOk(rollback, ttl, boot, now);
      RunKeeps(Init(rollback, ttl, boot, now), steps);
    }
  }

  // ---- the sixteen transactions remembered, and what ends a transaction -----------------------

  /** In every run, `recent` is the last sixteen transactions that ended, each in a state of the table. */
  lemma RecentForever(rollback: bool, ttl: nat, boot: string, now: nat, steps: seq<Step>)
    requires Possible(Init(rollback, ttl, boot, now), steps)
    ensures RecentOk(After(Init(rollback, ttl, boot, now), steps).st)
  {
    InitCore(rollback, ttl, boot, now);
    RunCore(Init(rollback, ttl, boot, now), steps);
  }

  /** A submit that goes on to write carries an op_id that is neither live nor
      among the last sixteen retired; any other submit leaves no trace. */
  lemma KnownOpIdNeverApplies(w: World, k: nat, before: string, sim: SimId, conn: Option<Conn>)
    requires RecentOk(w.st) && CanSubmit(w, k, Captured(before, sim, conn))
    ensures var v := DoCaptured(w, k, before, sim, conn); var op := w.tasks[k].req.opId;
            || (v == Ends(w, k) && k !in v.tasks)
            || (&& !Live(w.st, op)
                && forall i :: |w.st.retired| - Min(RECENT, |w.st.retired|) <= i < |w.st.retired| ==>
                     w.st.retired[i] != op)
  {
    hide Install, Sound;
    var op := w.tasks[k].req.opId;
    if Clear(w.st, w.tasks[k].req) {
      var first := |w.st.retired| - |w.st.recent|;
      forall i | first <= i < |w.st.retired|
        ensures w.st.retired[i] != op
      {
        assert w.st.recent[i - first].change.opId != op;
      }
    }
  }

  // ---- the same over whole runs ---------------------------------------------------------------

  /** In every run without an accepted reuse of a busy op_id, whichever step ends a transaction as
      verified or rolled back hands in a fresh reading that proves it. */
  lemma EveryRunEndsOnProof(rollback: bool, ttl: nat, boot: string, now: nat, steps: seq<Step>, s: Step)
    requires Possible(Init(rollback, ttl, boot, now), steps)
    requires OpIdsFree(Init(rollback, ttl, boot, now), steps)
    requires Can(After(Init(rollback, ttl, boot, now), steps), s)
    ensures var w := After(Init(rollback, ttl, boot, now), steps);
            EndsProven(w, s) ==> s.Listens? && FreshProof(w, s.k) && EndsTheLive(w, s)
  {
    hide Inv, Do, Can, FreshProof, OpIdsFree;
    InitIsOk(rollback, ttl, boot, now);
    RunKeeps(Init(rollback, ttl, boot, now), steps);
    EveryRunEndsOnEvidence(rollback, ttl, boot, now, steps, s);
    var w := After(Init(rollback, ttl, boot, now), steps);
    if EndsProven(w, s) { OwnDriver(w, s); }
  }

  /** Where no busy op_id was reused, the driver of the live op_id is the live transaction's own. */
  lemma OwnDriver(w: World, s: Step)
    requires Inv(w) && Can(w, s) && s.Listens? && Live(w.st, w.tasks[s.k].op)
    ensures w.tasks[s.k].serial == w.st.active.value.change.serial
  {
    DriverOf(w, s.k);
  }

  /** In every run, a submit whose op_id is live or among the last sixteen retired ends
      without a write. */
  lemma EveryRunKnowsItsOpIds(rollback: bool, ttl: nat, boot: string, now: nat, steps: seq<Step>,
                              k: nat, before: string, sim: SimId, conn: Option<Conn>, i: nat)
    requires Possible(Init(rollback, ttl, boot, now), steps)
    requires CanSubmit(After(Init(rollback, ttl, boot, now), steps), k, Captured(before, sim, conn))
    ensures var w := After(Init(rollback, ttl, boot, now), steps);
            var op := w.tasks[k].req.opId;
            Live(w.st, op) || (|w.st.retired| - Min(RECENT, |w.st.retired|) <= i < |w.st.retired| && w.st.retired[i] == op) ==>
              DoCaptured(w, k, before, sim, conn) == Ends(w, k)
  {
    hide DoCaptured, RecentOk;
    RecentForever(rollback, ttl, boot, now, steps);
    KnownOpIdNeverApplies(After(Init(rollback, ttl, boot, now), steps), k, before, sim, conn);
  }
}
