/** What ends a transaction as verified or rolled back, over every run and whatever op_ids the
    clients use: a reading that proves it, handed in by a driver of its op_id; and the reading was
    begun in the current phase exactly if that driver is the transaction's own. */
module OpsEvidence {
  import opened Common
  import opened OpsTxn
  import opened OpsTxnLaws
  import opened OpsState
  import opened OpsStateLaws
  import opened OpsProtocol
  import opened OpsSafety
  import opened OpsAllRuns

  // ---- what a driver knows about its own transaction ----------------------------------------

  /** The generation and the phase that a driver has seen are not ahead of the transaction's. */
  predicate Behind(g: Stage, t: Txn) {
    && (g.Save? || g.Check? || g.Asleep? ==> g.gen <= t.generation)
    && (g.Reads? || g.Probes? || g.Feeds? ==>
          && g.gen <= g.begunGen <= t.generation
          && (g.begunGen == t.generation ==> g.begunPhase == t.phase))
  }

  /** A driver is about a transaction of the past or the live one. */
  predicate Fits(d: Task, n: nat, a: Option<Txn>)
    requires d.Drives?
  {
    && d.serial < n
    && (a.Some? && d.serial == a.value.change.serial ==> Behind(d.stage, a.value))
  }

  ghost predicate DriversOk(ts: Tasks, n: nat, a: Option<Txn>) {
    forall k | Drv(ts, k) :: Fits(ts[k], n, a)
  }

  lemma FitsStill(d: Task, n: nat, a: St, b: St)
    requires d.Drives? && Fits(d, n, a.active) && Goes(a, b)
    ensures Fits(d, n, b.active)
  {
    hide MemOk, Retires, SameRecent;
  }

  lemma AsideDrivers(w: World, v: World, k: nat)
    requires DriversOk(w.tasks, |w.past.chain|, w.st.active) && Aside(w, v, k)
    requires Drv(v.tasks, k) ==> (k in w.tasks && v.tasks[k] == w.tasks[k]) || Fits(v.tasks[k], |w.past.chain|, v.st.active)
    ensures DriversOk(v.tasks, |v.past.chain|, v.st.active)
  {
    hide Goes, Fits;
    forall l | Drv(v.tasks, l)
      ensures Fits(v.tasks[l], |v.past.chain|, v.st.active)
    {
      if l in w.tasks && v.tasks[l] == w.tasks[l] {
        assert Drv(w.tasks, l);
        FitsStill(w.tasks[l], |w.past.chain|, w.st, v.st);
      }
    }
  }

  /** The live transaction has a serial number of the chain. */
  lemma LiveSerial(w: World)
    requires Core(w)
    ensures w.st.active.Some? ==> w.st.active.value.change.serial < |w.past.chain|
    ensures w.st.disk.Some? ==> w.st.disk.value.change.serial < |w.past.chain|
    ensures forall k | Apl(w.tasks, k) :: w.tasks[k].serial < |w.past.chain|
  {
    hide RecentOk, Sound;
  }

  lemma RollDrivers(w: World, k: nat, s: RollbackStep)
    requires Core(w) && w.up && CanRoll(w, k, s) && DriversOk(w.tasks, |w.past.chain|, w.st.active)
    ensures var v := DoRoll(w, k, s); DriversOk(v.tasks, |v.past.chain|, v.st.active)
  {
    hide Core, Interrupt, SaveIntent, RecordRollback, Aside;
    LiveSerial(w);
    CoreIsMem(w);
    RollAside(w, k, s);
    assert Fits(w.tasks[k], |w.past.chain|, w.st.active);
    SavedSame(w.st, w.tasks[k].op);
    AsideDrivers(w, DoRoll(w, k, s), k);
  }

  lemma SavedSame(st: St, op: string)
    ensures SaveIntent(st, op).active == st.active
  {
  }

  lemma ReadDrivers(w: World, k: nat, s: ReadStep)
    requires Core(w) && w.up && CanRead(w, k, s) && DriversOk(w.tasks, |w.past.chain|, w.st.active)
    ensures var v := DoRead(w, k, s); DriversOk(v.tasks, |v.past.chain|, v.st.active)
  {
    hide Core, Feed, Txn.WantsProbe, Aside;
    CoreIsMem(w);
    ReadAside(w, k, s);
    assert Fits(w.tasks[k], |w.past.chain|, w.st.active);
    AsideDrivers(w, DoRead(w, k, s), k);
  }

  lemma SubmitDrivers(w: World, k: nat, s: SubmitStep)
    requires Core(w) && w.up && CanSubmit(w, k, s) && DriversOk(w.tasks, |w.past.chain|, w.st.active)
    ensures var v := DoSubmit(w, k, s); DriversOk(v.tasks, |v.past.chain|, v.st.active)
  {
    hide Core, Install, RecordWrite, Aside, Fits;
    LiveSerial(w);
    CoreIsMem(w);
    var v := DoSubmit(w, k, s);
    if s.ApplyRecord? {
      RecordAside(w, k);
      assert Apl(w.tasks, k);
      assert Drv(v.tasks, k) ==> Fits(v.tasks[k], |w.past.chain|, v.st.active) by { AtTopFits(v.tasks[k], |w.past.chain|, v.st.active); }
      AsideDrivers(w, v, k);
    } else if s.Captured? && Clear(w.st, w.tasks[k].req) {
      DeadlineOf(w, k);
      InstallLaws(w.st, w.tasks[k].req, |w.past.chain|, s.before, s.sim, s.conn, w.around.rollback, w.around.boot, w.around.now);
      forall l | Drv(v.tasks, l)
        ensures Fits(v.tasks[l], |v.past.chain|, v.st.active)
      {
        assert Drv(w.tasks, l) && v.tasks[l] == w.tasks[l];
        OlderFits(w.tasks[l], |w.past.chain|, w.st.active, v.st.active);
      }
    } else {
      assert forall l | Drv(v.tasks, l) :: Drv(w.tasks, l) && v.tasks[l] == w.tasks[l];
    }
  }

  lemma AtTopFits(d: Task, n: nat, a: Option<Txn>)
    ensures d.Drives? && d.stage.Top? && d.serial < n ==> Fits(d, n, a)
  {
  }

  lemma OlderFits(d: Task, n: nat, a: Option<Txn>, b: Option<Txn>)
    requires d.Drives? && Fits(d, n, a) && b.Some? && b.value.change.serial == n
    ensures Fits(d, n + 1, b)
  {
  }

  lemma DeadlineOf(w: World, k: nat)
    requires Core(w) && k in w.tasks && w.tasks[k].Submitting?
    ensures w.tasks[k].req.spec.deadlineMs > 0
  {
  }

  lemma EnvDrivers(w: World, e: EnvStep)
    requires Core(w) && Can(w, Env(e)) && DriversOk(w.tasks, |w.past.chain|, w.st.active)
    ensures var v := DoEnv(w, e); DriversOk(v.tasks, |v.past.chain|, v.st.active)
  {
    hide Core, Start;
    if e.Boot? {
      LiveSerial(w);
      DiskOf(w);
      StartKeeps(w.st.disk, w.around.takeover, w.around.boot, w.around.now);
    }
  }

  lemma DiskOf(w: World)
    requires Core(w)
    ensures w.st.disk.Some? ==> LiveOk(w.st.disk.value)
  {
    hide RecentOk, Sound;
  }

  ghost predicate Informed(w: World) { Core(w) && DriversOk(w.tasks, |w.past.chain|, w.st.active) }

  lemma StepInformed(w: World, s: Step)
    requires Informed(w) && Can(w, s)
    ensures Informed(Do(w, s))
  {
    hide Core, DoEnv, DoSubmit, DoRoll, DoRead, DoAsk, DoQueue, DoSession, Aside, DriversOk;
    StepCore(w, s);
    if w.up { CoreIsMem(w); }
    match s
    case Env(e) => EnvDrivers(w, e);
    case Submits(k, a) => SubmitDrivers(w, k, a);
    case Rolls(k, a) => RollDrivers(w, k, a);
    case Listens(k, a) => ReadDrivers(w, k, a);
    case Asks(k, a) => AskAside(w, k, a); AskedNoDriver(w, k, a); AsideDrivers(w, Do(w, s), k);
    case Queues(k, a) => QueueAside(w, k, a); QueuedNoDriver(w, k, a); AsideDrivers(w, Do(w, s), k);
    case Sessions(k, a) => SessionAside(w, k, a); SessionNoDriver(w, k, a); AsideDrivers(w, Do(w, s), k);
  }

  lemma AskedNoDriver(w: World, k: nat, s: AskStep)
    requires k !in w.tasks
    ensures !Drv(DoAsk(w, k, s).tasks, k)
  {
  }

  lemma QueuedNoDriver(w: World, k: nat, s: QueueStep)
    requires CanQueue(w, k, s)
    ensures Drv(DoQueue(w, k, s).tasks, k) ==> k in w.tasks && DoQueue(w, k, s).tasks[k] == w.tasks[k]
  {
    hide WithoutItem, FreshOnly, HasItem;
  }

  lemma SessionNoDriver(w: World, k: nat, s: SessionStep)
    requires CanSession(w, k, s)
    ensures !Drv(DoSession(w, k, s).tasks, k)
  {
  }

  lemma {:induction false} RunInformed(w: World, steps: seq<Step>)
    requires Informed(w) && Possible(w, steps)
    ensures Informed(After(w, steps))
    decreases |steps|
  {
    hide Informed, Do, Can;
    if steps != [] {
      StepInformed(w, steps[0]);
      RunInformed(Do(w, steps[0]), steps[1..]);
    }
  }

  // ---- steps that end a transaction without evidence ------------------------------------------

  /** Ended by evidence: confirmed as verified, or rolled back. */
  predicate Proven(t: Txn) { t.reason == Some(Verified) || t.phase.RolledBack? }

  function Newest(st: St): Txn
    requires st.recent != []
  {
    st.recent[|st.recent| - 1]
  }

  /** No transaction ended, or one ended without evidence. */
  predicate Quiet(a: St, b: St) {
    SameRecent(a, b) || (Retires(a, b) && !Proven(Newest(b)))
  }

  lemma InterruptQuiet(st: St, why: Reason)
    requires st.active.Some? ==> Sound(st.active.value) && !st.active.value.phase.IsFinal()
    requires Interrupting(why)
    ensures Quiet(st, Interrupt(st, why))
  {
  }

  lemma KeepQuiet(st: St, op: string)
    requires st.active.Some? ==> Sound(st.active.value) && !st.active.value.phase.IsFinal()
    ensures Quiet(st, KeepNow(st, op)) && SameRecent(st, RevertNow(st, op))
  {
  }

  lemma InstallQuiet(st: St, req: Request, serial: nat, before: string, sim: SimId,
                     conn: Option<Conn>, rollback: bool, boot: string, now: nat)
    requires Clear(st, req)
    requires st.active.Some? ==> Sound(st.active.value) && !st.active.value.phase.IsFinal()
    ensures Quiet(st, Install(st, req, serial, before, sim, conn, rollback, boot, now))
  {
  }

  lemma LiveOf(w: World)
    requires Core(w)
    ensures w.st.active.Some? ==> Sound(w.st.active.value) && !w.st.active.value.phase.IsFinal()
    ensures w.st.disk.Some? ==> Sound(w.st.disk.value) && !w.st.disk.value.phase.IsFinal()
    ensures !w.up ==> w.st == Empty(w.st.disk)
  {
    hide RecentOk, ApplyOk;
  }

  lemma SubmitQuiet(w: World, k: nat, s: SubmitStep)
    requires Core(w) && CanSubmit(w, k, s)
    ensures Quiet(w.st, DoSubmit(w, k, s).st)
  {
    hide Core, Install, Clear;
    LiveOf(w);
    if s.Captured? && Clear(w.st, w.tasks[k].req) {
      InstallQuiet(w.st, w.tasks[k].req, |w.past.chain|, s.before, s.sim, s.conn,
                   w.around.rollback, w.around.boot, w.around.now);
    }
  }

  lemma RollQuiet(w: World, k: nat, s: RollbackStep)
    requires Core(w) && CanRoll(w, k, s)
    ensures Quiet(w.st, DoRoll(w, k, s).st)
  {
    hide Core, Interrupt;
    LiveOf(w);
    InterruptQuiet(w.st, SimChanged);
  }

  lemma AskQuiet(w: World, k: nat, s: AskStep)
    requires Core(w)
    ensures Quiet(w.st, DoAsk(w, k, s).st)
  {
    hide Core, Interrupt, KeepNow, RevertNow;
    LiveOf(w);
    match s
    case AskRevert(op) => KeepQuiet(w.st, op);
    case AskKeep(op) => KeepQuiet(w.st, op);
    case SafetyWrite => InterruptQuiet(w.st, Preempted);
    case OtherWrite(_) => InterruptQuiet(w.st, OtherChange);
    case Gate(_) => InterruptQuiet(w.st, Superseded);
  }

  lemma OtherQuiet(w: World, s: Step)
    requires Core(w) && Can(w, s) && (s.Queues? || s.Sessions? || (s.Listens? && !s.read.FeedIn?))
    ensures SameRecent(w.st, Do(w, s).st)
  {
    hide Core, WithoutItem, FreshOnly, HasItem, Txn.WantsProbe;
    match s
    case Queues(k, a) => assert SameRecent(w.st, DoQueue(w, k, a).st);
    case Sessions(k, a) => assert SameRecent(w.st, DoSession(w, k, a).st);
    case Listens(k, a) => assert SameRecent(w.st, DoRead(w, k, a).st);
  }

  /** A start retires at most the transaction found on disk, without evidence. */
  lemma BootQuiet(w: World)
    requires Core(w) && !w.up
    ensures var st := DoBoot(w).st;
            RecentOk(st) && (st.recent == [] || (|st.recent| == 1 && !Proven(Newest(st))))
  {
    hide Core, Txn.Resume;
    LiveOf(w);
    if w.st.disk.Some? {
      var d := w.st.disk.value;
      OnlyReadingsProve(d, Restart(w.around.boot, w.around.now));
      HandleKeepsSound(d, Restart(w.around.boot, w.around.now));
      HandleKeepsSound(d, Cancels(Takeover));
    }
  }

  /** Every step but the hand-in of a reading ends transactions without evidence only. */
  lemma StepQuiet(w: World, s: Step)
    requires Core(w) && Can(w, s) && !(s.Listens? && s.read.FeedIn?)
    ensures var v := Do(w, s);
            if s.Env? && (s.env.Crash? || s.env.Reboot? || s.env.Boot?)
            then RecentOk(v.st) && (v.st.recent == [] || !Proven(Newest(v.st)))
            else Quiet(w.st, v.st)
  {
    hide Core, DoSubmit, DoRoll, DoRead, DoAsk, DoQueue, DoSession, DoBoot, Sound;
    match s
    case Env(e) => if e.Boot? { BootQuiet(w); }
    case Submits(k, a) => SubmitQuiet(w, k, a);
    case Rolls(k, a) => RollQuiet(w, k, a);
    case Asks(k, a) => AskQuiet(w, k, a);
    case _ => OtherQuiet(w, s);
  }

  // ---- the evidence -------------------------------------------------------------------------------

  /** This step ends a transaction as verified or rolled back. */
  predicate EndsProven(w: World, s: Step)
    requires Can(w, s)
  {
    var v := Do(w, s);
    !SameRecent(w.st, v.st) && v.st.recent != [] && Proven(Newest(v.st))
  }

  predicate EndsTheLive(w: World, s: Step)
    requires Can(w, s)
  {
    var v := Do(w, s);
    w.st.active.Some? && v.st.recent != [] && Newest(v.st).change == w.st.active.value.change
  }

  /** Driver `k` of the live op_id hands in a reading that shows the awaited value, a registration, the
      same SIM and proven data. */
  predicate Evidence(w: World, k: nat) {
    && Drv(w.tasks, k) && w.tasks[k].stage.Feeds? && w.tasks[k].stage.got.Some?
    && Live(w.st, w.tasks[k].op)
    && var t, g := w.st.active.value, w.tasks[k].stage;
       g.gen == t.generation && t.Counting() && Shows(t, g.got.value, t.Goal()) && DataProven(t, g.got.value)
  }

  /** Such a reading, begun for this transaction in the phase that is current when it is handed in. */
  predicate FreshProof(w: World, k: nat) {
    && Evidence(w, k)
    && w.tasks[k].serial == w.st.active.value.change.serial
    && w.tasks[k].stage.begunGen == w.st.active.value.generation
    && w.tasks[k].stage.begunPhase == w.st.active.value.phase
  }

  lemma FeedIsEvidence(w: World, k: nat)
    requires Core(w) && w.up && CanRead(w, k, FeedIn) && EndsProven(w, Listens(k, FeedIn))
    ensures Evidence(w, k) && EndsTheLive(w, Listens(k, FeedIn))
  {
    hide Core, Sound, Txn.OnReading, Txn.OnTick;
    LiveOf(w);
    var d, g := w.tasks[k], w.tasks[k].stage;
    assert Live(w.st, d.op) && w.st.active.value.generation == g.gen;
    var t := w.st.active.value;
    if g.got.Some? {
      var e := Read(g.got.value, w.around.now);
      VerifiedIff(t, e);
      RolledBackIff(t, e);
      HandleKeepsSound(t, e);
    } else {
      OnlyReadingsProve(t, Tick(w.around.now));
      HandleKeepsSound(t, Tick(w.around.now));
    }
  }

  lemma ProvenOnlyByEvidence(w: World, s: Step)
    requires Core(w) && Can(w, s) && EndsProven(w, s)
    ensures s.Listens? && s.read.FeedIn? && Evidence(w, s.k) && EndsTheLive(w, s)
  {
    hide Core, Evidence, EndsTheLive, DoSubmit, DoRoll, DoRead, DoAsk, DoQueue, DoSession, DoEnv, Sound;
    if s.Listens? && s.read.FeedIn? {
      FeedIsEvidence(w, s.k);
    } else {
      StepQuiet(w, s);
    }
  }

  /** The reading is fresh exactly if the driver is the transaction's own. */
  lemma FreshIffOwn(w: World, k: nat)
    requires Informed(w) && Evidence(w, k)
    ensures FreshProof(w, k) <==> w.tasks[k].serial == w.st.active.value.change.serial
  {
    hide Core, Shows, DataProven;
    assert Fits(w.tasks[k], |w.past.chain|, w.st.active);
  }

  /** In every run, whatever op_ids the clients use, whichever step ends a transaction as verified or
      rolled back hands in a reading that proves it; and that reading was begun for the
      transaction in its current phase if and only if the driver that hands it in is its own. */
  lemma EveryRunEndsOnEvidence(rollback: bool, ttl: nat, boot: string, now: nat, steps: seq<Step>, s: Step)
    requires Possible(Init(rollback, ttl, boot, now), steps)
    requires Can(After(Init(rollback, ttl, boot, now), steps), s)
    ensures var w := After(Init(rollback, ttl, boot, now), steps);
            EndsProven(w, s) ==>
              && s.Listens? && s.read.FeedIn? && Evidence(w, s.k) && EndsTheLive(w, s)
              && (FreshProof(w, s.k) <==> w.tasks[s.k].serial == w.st.active.value.change.serial)
  {
    hide Core, Do, Can, FreshProof, EndsProven, EndsTheLive;
    InitCore(rollback, ttl, boot, now);
    RunInformed(Init(rollback, ttl, boot, now), steps);
    var w := After(Init(rollback, ttl, boot, now), steps);
    if EndsProven(w, s) {
      ProvenOnlyByEvidence(w, s);
      FreshIffOwn(w, s.k);
    }
  }
}
