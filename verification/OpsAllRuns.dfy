/** What holds over every run, whatever op_ids the clients use: each transaction is
    applied at most once, none is live while a session is open, the rollback target of the
    live transaction is the value read before its chain began, and the last sixteen
    transactions are remembered. */
module OpsAllRuns {
  import opened Common
  import opened OpsTxn
  import opened OpsTxnLaws
  import opened OpsState
  import opened OpsStateLaws
  import opened OpsProtocol
  import opened OpsSafety

  // ---- the invariant --------------------------------------------------------------------

  predicate Apl(ts: Tasks, k: nat) { k in ts && ts[k].Applies? }

  ghost predicate DeadlinesOk(ts: Tasks) {
    forall k | k in ts && ts[k].Submitting? :: ts[k].req.spec.deadlineMs > 0
  }

  /** Every submit that goes ahead has a serial number of its own, and who may still
      write has not written yet. */
  ghost predicate ApplyOk(chain: seq<Link>, applied: multiset<nat>, ts: Tasks) {
    && (forall s :: applied[s] <= 1)
    && (forall s | s >= |chain| :: applied[s] == 0)
    && (forall k | Apl(ts, k) :: ts[k].serial < |chain| && (ts[k].wrote.None? ==> applied[ts[k].serial] == 0))
    && (forall k, l | Apl(ts, k) && Apl(ts, l) && k != l :: ts[k].serial != ts[l].serial)
  }

  ghost predicate Core(w: World) {
    && MemoryOk(w) && RecentOk(w.st) && DeadlinesOk(w.tasks)
    && ApplyOk(w.past.chain, w.past.applied, w.tasks)
  }

  lemma MemoryIsMem(w: World)
    requires MemoryOk(w) && w.up
    ensures MemOk(w.st)
  {
    hide Sound;
  }

  // ---- steps that start no transaction -----------------------------------------------------

  /** One task starts, ends or goes on, and does not come to apply anything. */
  predicate Sidesteps(ts: Tasks, us: Tasks, k: nat) {
    || us == ts || us == ts - {k}
    || (&& k in us && us == ts[k := us[k]] && !us[k].Applies?
        && (us[k].Submitting? ==> us[k].req.spec.deadlineMs > 0))
  }

  lemma SidestepApplies(chain: seq<Link>, applied: multiset<nat>, ts: Tasks, us: Tasks, k: nat)
    requires Sidesteps(ts, us, k) && DeadlinesOk(ts) && ApplyOk(chain, applied, ts)
    ensures DeadlinesOk(us) && ApplyOk(chain, applied, us)
  {
    assert forall l | Apl(us, l) :: Apl(ts, l) && us[l] == ts[l];
  }

  /** The chain decides nothing but the serial number and the rollback target. */
  lemma GoesMemory(w: World, v: World)
    requires MemoryOk(w) && w.up && v.up && v.past.chain == w.past.chain && Goes(w.st, v.st)
    ensures MemoryOk(v)
  {
    hide Sound, Retires;
  }

  predicate Aside(w: World, v: World, k: nat) {
    && v.up && v.past.chain == w.past.chain && v.past.applied == w.past.applied
    && Sidesteps(w.tasks, v.tasks, k) && Goes(w.st, v.st)
  }

  lemma AsideCore(w: World, v: World, k: nat)
    requires Core(w) && w.up && Aside(w, v, k)
    ensures Core(v)
  {
    hide MemoryOk, ApplyOk, Goes, Sidesteps, RecentOk, DeadlinesOk;
    GoesMemory(w, v);
    SidestepApplies(w.past.chain, w.past.applied, w.tasks, v.tasks, k);
    GoesRecent(w.st, v.st);
  }

  lemma RollAside(w: World, k: nat, s: RollbackStep)
    requires MemOk(w.st) && w.up && CanRoll(w, k, s)
    ensures Aside(w, DoRoll(w, k, s), k)
  {
    hide Goes, MemOk, SaveIntent, RecordRollback, Interrupt;
    StaysGoes(w.st);
    RollbackGoes(w.st, w.tasks[k].op, w.around.now);
    InterruptGoes(w.st, SimChanged);
  }

  lemma ReadAside(w: World, k: nat, s: ReadStep)
    requires MemOk(w.st) && w.up && CanRead(w, k, s)
    ensures Aside(w, DoRead(w, k, s), k)
  {
    hide Goes, MemOk, Feed, Txn.WantsProbe;
    StaysGoes(w.st);
    if s.FeedIn? {
      var g := w.tasks[k].stage;
      FeedGoes(w.st, w.tasks[k].op, g.gen, g.got, w.around.now);
    }
  }

  lemma AskAside(w: World, k: nat, s: AskStep)
    requires MemOk(w.st) && w.up
    ensures Aside(w, DoAsk(w, k, s), k)
  {
    hide Goes, MemOk, RevertNow, KeepNow, Preempt, Interrupt, GateLegacy;
    StaysGoes(w.st);
    match s
    case AskRevert(op) => AskGoes(w.st, op);
    case AskKeep(op) => AskGoes(w.st, op);
    case SafetyWrite => PreemptGoes(w.st);
    case OtherWrite(_) => InterruptGoes(w.st, OtherChange);
    case Gate(item) => GateGoes(w.st, item);
  }

  lemma QueueAside(w: World, k: nat, s: QueueStep)
    requires MemOk(w.st) && w.up && CanQueue(w, k, s)
    ensures Aside(w, DoQueue(w, k, s), k)
  {
    hide Goes, MemOk, WithoutItem, FreshOnly, HasItem;
    QueueGoes(w.st, DoQueue(w, k, s).st.legacy);
  }

  lemma SessionAside(w: World, k: nat, s: SessionStep)
    requires MemOk(w.st) && w.up && CanSession(w, k, s)
    ensures Aside(w, DoSession(w, k, s), k)
  {
    hide Goes, MemOk, OpenSession, RenewSession, CloseSession, Reap;
    match s
    case Open(id, source) => SessionGoes(w.st, id, source, w.around.now);
    case Renew(id) => SessionGoes(w.st, id, Screen, w.around.now);
    case Close(id) => SessionGoes(w.st, id, Screen, w.around.now);
    case Watch => SessionGoes(w.st, "", Screen, w.around.now);
  }

  lemma RecordAside(w: World, k: nat)
    requires MemOk(w.st) && w.up && CanSubmit(w, k, ApplyRecord)
    ensures Aside(w, DoApplyRecord(w, k), k)
  {
    hide Goes, MemOk, RecordWrite;
    RecordGoes(w.st, w.tasks[k].req.opId, w.tasks[k].wrote.value, w.around.now);
  }

  // ---- submits --------------------------------------------------------------------------------

  lemma ApplyWriteCore(w: World, k: nat, outcome: Applied)
    requires Core(w) && w.up && CanSubmit(w, k, ApplyWrite(outcome))
    ensures Core(DoApplyWrite(w, k, outcome))
  {
    hide RecentOk, Sound;
    var us := DoApplyWrite(w, k, outcome).tasks;
    assert Apl(w.tasks, k);
    assert forall l | Apl(us, l) :: Apl(w.tasks, l) && us[l].serial == w.tasks[l].serial;
  }

  lemma InstalledApplies(chain: seq<Link>, l: Link, applied: multiset<nat>, ts: Tasks, us: Tasks, k: nat)
    requires DeadlinesOk(ts) && ApplyOk(chain, applied, ts) && !Apl(ts, k)
    requires k in us && us == ts[k := us[k]] && us[k].Applies? && us[k].serial == |chain|
    ensures DeadlinesOk(us) && ApplyOk(chain + [l], applied, us)
  {
    assert forall m | Apl(us, m) && m != k :: Apl(ts, m) && us[m] == ts[m];
  }

  lemma CapturedCore(w: World, k: nat, before: string, sim: SimId, conn: Option<Conn>)
    requires Core(w) && w.up && CanSubmit(w, k, Captured(before, sim, conn)) && Clear(w.st, w.tasks[k].req)
    ensures Core(DoCaptured(w, k, before, sim, conn))
  {
    hide ApplyOk, RecentOk, Install, Sound;
    var req := w.tasks[k].req;
    var v := DoCaptured(w, k, before, sim, conn);
    var l := v.past.chain[|w.past.chain|];
    MemoryIsMem(w);
    InstallLaws(w.st, req, |w.past.chain|, before, sim, conn, w.around.rollback, w.around.boot, w.around.now);
    InstallKeeps(w.st, req, |w.past.chain|, before, sim, conn, w.around.rollback, w.around.boot, w.around.now);
    InstalledMemory(w, v, l);
    InstalledApplies(w.past.chain, l, w.past.applied, w.tasks, v.tasks, k);
    RetiresKeepRecent(w.st, v.st);
  }

  lemma SubmitCore(w: World, k: nat, s: SubmitStep)
    requires Core(w) && w.up && CanSubmit(w, k, s)
    ensures Core(DoSubmit(w, k, s))
  {
    hide Core, Goes, MemOk, RecordWrite;
    CoreIsMem(w);
    StaysGoes(w.st);
    match s
    case Submit(req) => AsideCore(w, DoSubmit(w, k, s), k);
    case Captured(before, sim, conn) =>
      if Clear(w.st, w.tasks[k].req) {
        CapturedCore(w, k, before, sim, conn);
      } else {
        AsideCore(w, DoSubmit(w, k, s), k);
      }
    case CaptureFailed => AsideCore(w, DoSubmit(w, k, s), k);
    case ApplyWrite(outcome) => ApplyWriteCore(w, k, outcome);
    case ApplyRecord =>
      RecordAside(w, k);
      AsideCore(w, DoSubmit(w, k, s), k);
  }

  lemma CoreIsMem(w: World)
    requires Core(w) && w.up
    ensures MemOk(w.st)
  {
    MemoryIsMem(w);
  }

  // ---- the world around ------------------------------------------------------------------------

  lemma BootCore(w: World)
    requires Core(w) && !w.up
    ensures Core(DoBoot(w))
  {
    hide RecentOk, Sound, Start;
    StartKeeps(w.st.disk, w.around.takeover, w.around.boot, w.around.now);
  }

  lemma DeadCore(w: World, around: Around)
    requires Core(w)
    ensures Core(Dead(w).(around := around))
  {
    hide Sound;
  }

  lemma AroundCore(w: World, around: Around)
    requires Core(w)
    ensures Core(w.(around := around))
  {
    hide Sound, RecentOk, ApplyOk;
  }

  lemma EnvCore(w: World, e: EnvStep)
    requires Core(w) && Can(w, Env(e))
    ensures Core(DoEnv(w, e))
  {
    hide Core, DoBoot;
    match e
    case Boot => BootCore(w);
    case Crash => DeadCore(w, w.around);
    case Reboot(boot) => DeadCore(w, w.around.(boot := boot, now := 0));
    case Pass(ms) => AroundCore(w, w.around.(now := w.around.now + ms));
    case TakeOver => AroundCore(w, w.around.(takeover := true));
  }

  // ---- every step, every run ---------------------------------------------------------------------

  lemma StepCore(w: World, s: Step)
    requires Core(w) && Can(w, s)
    ensures Core(Do(w, s))
  {
    hide Core, DoEnv, DoSubmit, DoRoll, DoRead, DoAsk, DoQueue, DoSession, Aside;
    if w.up { CoreIsMem(w); }
    match s
    case Env(e) => EnvCore(w, e);
    case Submits(k, a) => SubmitCore(w, k, a);
    case Rolls(k, a) => RollAside(w, k, a); AsideCore(w, Do(w, s), k);
    case Listens(k, a) => ReadAside(w, k, a); AsideCore(w, Do(w, s), k);
    case Asks(k, a) => AskAside(w, k, a); AsideCore(w, Do(w, s), k);
    case Queues(k, a) => QueueAside(w, k, a); AsideCore(w, Do(w, s), k);
    case Sessions(k, a) => SessionAside(w, k, a); AsideCore(w, Do(w, s), k);
  }

  lemma {:induction false} RunCore(w: World, steps: seq<Step>)
    requires Core(w) && Possible(w, steps)
    ensures Core(After(w, steps))
    decreases |steps|
  {
    hide Core, Do, Can;
    if steps != [] {
      StepCore(w, steps[0]);
      RunCore(Do(w, steps[0]), steps[1..]);
    }
  }

  lemma InitCore(rollback: bool, ttl: nat, boot: string, now: nat)
    ensures Core(Init(rollback, ttl, boot, now))
  {
  }

  lemma InvIsCore(w: World)
    requires Inv(w) && RecentOk(w.st)
    ensures Core(w)
  {
    hide StagesOk, OnceOk, Sound, RecentOk;
    assert forall k | Apl(w.tasks, k) :: Acts(w.tasks, k);
  }

  lemma RecentStep(w: World, s: Step)
    requires Inv(w) && RecentOk(w.st) && Can(w, s)
    ensures RecentOk(Do(w, s).st)
  {
    InvIsCore(w);
    StepCore(w, s);
  }
}
