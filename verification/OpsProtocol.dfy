/** The write-operation layer as a protocol: every task of the process (submits,
    drivers, session watchers, queue drainers), the device writes, the disk, and
    crashes and reboots at any point. One step is one section under the engine's
    lock, or one device call. */
module OpsProtocol {
  import opened Common
  import opened OpsTxn
  import opened OpsState

  /** Where a driver stands. `begun*` is what it could have seen when its reading began. */
  datatype Stage =
    | Top
    | Save(gen: nat, value: string)
    | Check(gen: nat, value: string)
    | Write(value: string)
    | Note
    | Asleep(gen: nat)
    | Reads(gen: nat, begunGen: nat, begunPhase: Phase)
    | Probes(gen: nat, begunGen: nat, begunPhase: Phase, r: Reading)
    | Feeds(gen: nat, begunGen: nat, begunPhase: Phase, got: Option<Reading>)

  datatype DrainStage = Looks | FoundNone | FlagDown | SawMore | Runs(req: LegacyReq)

  datatype Task =
    | Submitting(req: Request)
    | Applies(req: Request, serial: nat, wrote: Option<Applied>)
    | Drives(op: string, serial: nat, stage: Stage)
    | Watches(session: string)
    | Kick
    | Drains(at: DrainStage)

  /** How a transaction came to be: what it changes, the value of that item read before its
      write, and the transaction it overrode. */
  datatype Link = Link(item: string, before: string, parent: Option<nat>)

  type Tasks = map<nat, Task>

  /** The history of the whole run: the transactions in order of their serial
      numbers, the device writes for each, and what each was rolled back to. */
  datatype History = History(
    chain: seq<Link>, applied: multiset<nat>, rolledBack: multiset<nat>,
    rolledTo: map<nat, string>)

  /** Clock, boot number, the marker of an emergency write, and the settings. */
  datatype Around = Around(now: nat, boot: string, takeover: bool, rollback: bool, ttl: nat)

  /** `up` says whether the process runs; `draining` and `arrivals` belong to the queue. */
  datatype World = World(
    st: St, tasks: Tasks, past: History, around: Around,
    up: bool, draining: bool, arrivals: nat)

  /** What the world around the process does. */
  datatype EnvStep = Pass(ms: nat) | Crash | Reboot(newBoot: string) | TakeOver | Boot

  datatype SubmitStep =
    | Submit(req: Request)
    | Captured(before: string, sim: SimId, conn: Option<Conn>)
    | CaptureFailed
    | ApplyWrite(outcome: Applied)
    | ApplyRecord

  datatype RollbackStep =
    DriveTop | RollbackSave | RollbackCheck(check: SimCheck) | RollbackWrite | RollbackRecord

  datatype ReadStep =
    Wake | ReadBegin | ReadEnd(got: Option<Reading>) | ProbeEnd(ok: bool) | FeedIn

  datatype AskStep =
    AskRevert(op: string) | AskKeep(op: string) | SafetyWrite | OtherWrite(source: Source) | Gate(item: string)

  datatype QueueStep =
    | Enqueue(item: string, action: string, params: string)
    | ClearQueue
    | KickRun
    | DrainLook
    | DrainLower
    | DrainRecheck
    | DrainRegrab
    | DrainRan(accepted: bool)

  datatype SessionStep = Open(id: string, source: Source) | Renew(id: string) | Close(id: string) | Watch

  /** `k` is the task that takes the step, or the number of the task it starts. */
  datatype Step =
    | Env(env: EnvStep)
    | Submits(k: nat, submit: SubmitStep)
    | Rolls(k: nat, roll: RollbackStep)
    | Listens(k: nat, read: ReadStep)
    | Asks(k: nat, ask: AskStep)
    | Queues(k: nat, queue: QueueStep)
    | Sessions(k: nat, session: SessionStep)

  predicate Drv(ts: Tasks, k: nat) { k in ts && ts[k].Drives? }

  predicate Drn(ts: Tasks, k: nat) { k in ts && ts[k].Drains? }

  /** A device reading comes without a probe result. */
  predicate Unprobed(got: Option<Reading>) { got.Some? ==> got.value.probe.None? }

  predicate CanSubmit(w: World, k: nat, s: SubmitStep) {
    match s
    case Submit(req) => k !in w.tasks && Clear(w.st, req) && req.spec.deadlineMs > 0
    case Captured(_, _, _) => k in w.tasks && w.tasks[k].Submitting?
    case CaptureFailed => k in w.tasks && w.tasks[k].Submitting?
    case ApplyWrite(_) => k in w.tasks && w.tasks[k].Applies? && w.tasks[k].wrote.None?
    case ApplyRecord => k in w.tasks && w.tasks[k].Applies? && w.tasks[k].wrote.Some?
  }

  predicate CanRoll(w: World, k: nat, s: RollbackStep) {
    && Drv(w.tasks, k)
    && match s
       case DriveTop => w.tasks[k].stage.Top?
       case RollbackSave => w.tasks[k].stage.Save?
       case RollbackCheck(_) => w.tasks[k].stage.Check?
       case RollbackWrite => w.tasks[k].stage.Write?
       case RollbackRecord => w.tasks[k].stage.Note?
  }

  predicate CanRead(w: World, k: nat, s: ReadStep) {
    && Drv(w.tasks, k)
    && match s
       case Wake => w.tasks[k].stage.Asleep?
       case ReadBegin => w.tasks[k].stage.Asleep?
       case ReadEnd(got) => w.tasks[k].stage.Reads? && Unprobed(got)
       case ProbeEnd(_) => w.tasks[k].stage.Probes?
       case FeedIn => w.tasks[k].stage.Feeds?
  }

  predicate CanQueue(w: World, k: nat, s: QueueStep) {
    match s
    case Enqueue(_, _, _) => k !in w.tasks
    case ClearQueue => true
    case KickRun => k in w.tasks && w.tasks[k].Kick?
    case DrainLook => Drn(w.tasks, k) && w.tasks[k].at.Looks?
    case DrainLower => Drn(w.tasks, k) && w.tasks[k].at.FoundNone?
    case DrainRecheck => Drn(w.tasks, k) && w.tasks[k].at.FlagDown?
    case DrainRegrab => Drn(w.tasks, k) && w.tasks[k].at.SawMore?
    case DrainRan(_) => Drn(w.tasks, k) && w.tasks[k].at.Runs?
  }

  predicate CanSession(w: World, k: nat, s: SessionStep) {
    if s.Watch? then k in w.tasks && w.tasks[k].Watches? else k !in w.tasks
  }

  predicate Can(w: World, s: Step) {
    match s
    case Env(e) => if e.Boot? then !w.up else w.up || !e.Crash?
    case Submits(k, a) => w.up && CanSubmit(w, k, a)
    case Rolls(k, a) => w.up && CanRoll(w, k, a)
    case Listens(k, a) => w.up && CanRead(w, k, a)
    case Asks(k, a) => w.up && k !in w.tasks
    case Queues(k, a) => w.up && CanQueue(w, k, a)
    case Sessions(k, a) => w.up && CanSession(w, k, a)
  }

  function Do(w: World, s: Step): World
    requires Can(w, s)
  {
    match s
    case Env(e) => DoEnv(w, e)
    case Submits(k, a) => DoSubmit(w, k, a)
    case Rolls(k, a) => DoRoll(w, k, a)
    case Listens(k, a) => DoRead(w, k, a)
    case Asks(k, a) => DoAsk(w, k, a)
    case Queues(k, a) => DoQueue(w, k, a)
    case Sessions(k, a) => DoSession(w, k, a)
  }

  function Becomes(w: World, k: nat, t: Task): World { w.(tasks := w.tasks[k := t]) }

  function At(w: World, k: nat, g: Stage): World
    requires Drv(w.tasks, k)
  {
    w.(tasks := w.tasks[k := w.tasks[k].(stage := g)])
  }

  function Ends(w: World, k: nat): World { w.(tasks := w.tasks - {k}) }

  // ---- the world around the process ----------------------------------------------

  /** The process's memory is gone; disk, device and history stay. */
  function Dead(w: World): World {
    w.(st := Empty(w.st.disk), up := false, tasks := map[], draining := false)
  }

  function DoEnv(w: World, e: EnvStep): World {
    match e
    case Pass(ms) => w.(around := w.around.(now := w.around.now + ms))
    case Crash => Dead(w)
    case Reboot(boot) => Dead(w).(around := w.around.(boot := boot, now := 0))
    case TakeOver => w.(around := w.around.(takeover := true))
    case Boot => DoBoot(w)
  }

  function DoBoot(w: World): World {
    var st := Start(w.st.disk, w.around.takeover, w.around.boot, w.around.now);
    w.(st := st, up := true, draining := false, around := w.around.(takeover := false),
       tasks := if st.active.None? then map[]
                else map[0 := Drives(st.active.value.change.opId, st.active.value.change.serial, Top)])
  }

  // ---- submit ------------------------------------------------------------------------

  function DoSubmit(w: World, k: nat, s: SubmitStep): World
    requires CanSubmit(w, k, s)
  {
    match s
    case Submit(req) => Becomes(w, k, Submitting(req))
    case Captured(before, sim, conn) => DoCaptured(w, k, before, sim, conn)
    case CaptureFailed => Ends(w, k)
    case ApplyWrite(outcome) => DoApplyWrite(w, k, outcome)
    case ApplyRecord => DoApplyRecord(w, k)
  }

  function DoCaptured(w: World, k: nat, before: string, sim: SimId, conn: Option<Conn>): World
    requires k in w.tasks && w.tasks[k].Submitting?
  {
    var req := w.tasks[k].req;
    if !Clear(w.st, req) then Ends(w, k)
    else
      var serial := |w.past.chain|;
      var parent := if w.st.active.Some? then Some(w.st.active.value.change.serial) else None;
      Becomes(w.(st := Install(w.st, req, serial, before, sim, conn, w.around.rollback, w.around.boot, w.around.now),
                 past := w.past.(chain := w.past.chain + [Link(req.spec.item, before, parent)])),
              k, Applies(req, serial, None))
  }

  function DoApplyWrite(w: World, k: nat, outcome: Applied): World
    requires k in w.tasks && w.tasks[k].Applies?
  {
    Becomes(w, k, w.tasks[k].(wrote := Some(outcome)))
    .(past := w.past.(applied := w.past.applied + multiset{w.tasks[k].serial}))
  }

  function DoApplyRecord(w: World, k: nat): World
    requires k in w.tasks && w.tasks[k].Applies? && w.tasks[k].wrote.Some?
  {
    var t := w.tasks[k];
    var op := t.req.opId;
    Becomes(w.(st := RecordWrite(w.st, op, t.wrote.value, w.around.now)), k,
            if Live(w.st, op) then Drives(op, t.serial, Top) else Kick)
  }

  // ---- the driver sends a rollback ---------------------------------------------------

  function DoRoll(w: World, k: nat, s: RollbackStep): World
    requires CanRoll(w, k, s)
  {
    match s
    case DriveTop => DoDriveTop(w, k)
    case RollbackSave => DoRollbackSave(w, k)
    case RollbackCheck(check) => DoRollbackCheck(w, k, check)
    case RollbackWrite => DoRollbackWrite(w, k)
    case RollbackRecord => DoRollbackRecord(w, k)
  }

  function DoDriveTop(w: World, k: nat): World
    requires Drv(w.tasks, k)
  {
    var d := w.tasks[k];
    if !Live(w.st, d.op) then Becomes(w, k, Kick)
    else
      var t := w.st.active.value;
      var stage := if t.phase.RollingBack? && t.intent == Some(Rollback)
                   then Save(t.generation, t.change.rollbackTo) else Asleep(t.generation);
      Becomes(w, k, Drives(d.op, t.change.serial, stage))
  }

  function DoRollbackSave(w: World, k: nat): World
    requires Drv(w.tasks, k) && w.tasks[k].stage.Save?
  {
    var t := w.tasks[k];
    if Live(w.st, t.op)
    then At(w.(st := SaveIntent(w.st, t.op)), k, Check(t.stage.gen, t.stage.value))
    else At(w, k, Top)
  }

  function DoRollbackCheck(w: World, k: nat, check: SimCheck): World
    requires Drv(w.tasks, k) && w.tasks[k].stage.Check?
  {
    var d := w.tasks[k];
    if !Live(w.st, d.op) then At(w, k, Top)
    else
      match check
      case Same => At(w, k, Write(d.stage.value))
      case Changed => At(w.(st := Interrupt(w.st, SimChanged)), k, Top)
      case Unknown => At(w, k, Asleep(d.stage.gen))
  }

  function DoRollbackWrite(w: World, k: nat): World
    requires Drv(w.tasks, k) && w.tasks[k].stage.Write?
  {
    At(w, k, Note).(past := RolledBackTo(w.past, w.tasks[k].serial, w.tasks[k].stage.value))
  }

  function RolledBackTo(h: History, s: nat, value: string): History {
    h.(rolledBack := h.rolledBack + multiset{s}, rolledTo := h.rolledTo[s := value])
  }

  function DoRollbackRecord(w: World, k: nat): World
    requires Drv(w.tasks, k)
  {
    At(w.(st := RecordRollback(w.st, w.tasks[k].op, w.around.now)), k, Top)
  }

  // ---- the driver reads ----------------------------------------------------------------

  function DoRead(w: World, k: nat, s: ReadStep): World
    requires CanRead(w, k, s)
  {
    match s
    case Wake => At(w, k, Top)
    case ReadBegin => DoReadBegin(w, k)
    case ReadEnd(got) => DoReadEnd(w, k, got)
    case ProbeEnd(ok) => DoProbeEnd(w, k, ok)
    case FeedIn => DoFeedIn(w, k)
  }

  function DoReadBegin(w: World, k: nat): World
    requires Drv(w.tasks, k) && w.tasks[k].stage.Asleep?
  {
    var begun := if w.st.active.Some? then w.st.active.value.generation else 0;
    var phase := if w.st.active.Some? then w.st.active.value.phase else Accepted;
    At(w, k, Reads(w.tasks[k].stage.gen, begun, phase))
  }

  function DoReadEnd(w: World, k: nat, got: Option<Reading>): World
    requires Drv(w.tasks, k) && w.tasks[k].stage.Reads?
  {
    var d := w.tasks[k];
    var g := d.stage;
    if got.None? then At(w, k, Feeds(g.gen, g.begunGen, g.begunPhase, None))
    else if !Live(w.st, d.op) then Becomes(w, k, Kick)
    else if w.st.active.value.WantsProbe(got.value, w.around.now).Some?
    then At(w, k, Probes(g.gen, g.begunGen, g.begunPhase, got.value))
    else At(w, k, Feeds(g.gen, g.begunGen, g.begunPhase, got))
  }

  function DoProbeEnd(w: World, k: nat, ok: bool): World
    requires Drv(w.tasks, k) && w.tasks[k].stage.Probes?
  {
    var g := w.tasks[k].stage;
    At(w, k, Feeds(g.gen, g.begunGen, g.begunPhase, Some(g.r.(probe := Some(ok)))))
  }

  function DoFeedIn(w: World, k: nat): World
    requires Drv(w.tasks, k) && w.tasks[k].stage.Feeds?
  {
    var t := w.tasks[k];
    if Live(w.st, t.op)
    then At(w.(st := Feed(w.st, t.op, t.stage.gen, t.stage.got, w.around.now)), k, Top)
    else Becomes(w, k, Kick)
  }

  // ---- requests that end or turn the transaction -----------------------------------------

  function DoAsk(w: World, k: nat, s: AskStep): World {
    match s
    case AskRevert(op) => w.(st := RevertNow(w.st, op))
    case AskKeep(op) => DoAskKeep(w, k, op)
    case SafetyWrite => w.(st := Preempt(w.st))
    case OtherWrite(source) => DoOtherWrite(w, k, source)
    case Gate(item) => w.(st := GateLegacy(w.st, item).0)
  }

  function DoAskKeep(w: World, k: nat, op: string): World {
    if Live(w.st, op) && w.st.active.value.Keep().Ok?
    then Becomes(w.(st := KeepNow(w.st, op)), k, Kick)
    else w
  }

  function DoOtherWrite(w: World, k: nat, source: Source): World {
    if source.IsUser() && w.st.active.Some?
    then Becomes(w.(st := Interrupt(w.st, OtherChange)), k, Kick)
    else w
  }

  // ---- the queue of old requests ----------------------------------------------------------

  function DoQueue(w: World, k: nat, s: QueueStep): World
    requires CanQueue(w, k, s)
  {
    match s
    case Enqueue(item, action, params) =>
      DoEnqueue(w, k, LegacyReq(item, action, params, w.around.now, w.arrivals))
    case ClearQueue => w.(st := w.st.(legacy := []))
    case KickRun => Grab(w, k)
    case DrainLook => DoDrainLook(w, k)
    case DrainLower => Becomes(w.(draining := false), k, Drains(FlagDown))
    case DrainRecheck => DoDrainRecheck(w, k)
    case DrainRegrab => Grab(w, k)
    case DrainRan(accepted) => DoDrainRan(w, k, accepted)
  }

  function DoEnqueue(w: World, k: nat, r: LegacyReq): World {
    Becomes(w.(st := Queued(w.st, r), arrivals := w.arrivals + 1), k, Kick)
  }

  /** One atomic swap of the draining flag decides who drains. */
  function Grab(w: World, k: nat): World {
    if w.draining then Ends(w, k) else Becomes(w.(draining := true), k, Drains(Looks))
  }

  function DoDrainLook(w: World, k: nat): World {
    var (st, r) := DrainPop(w.st, w.around.now, w.around.ttl);
    Becomes(w.(st := st), k, Drains(if r.Some? then Runs(r.value) else FoundNone))
  }

  function DoDrainRecheck(w: World, k: nat): World {
    if Idle(w.st) && w.st.legacy != [] then Becomes(w, k, Drains(SawMore)) else Ends(w, k)
  }

  function DoDrainRan(w: World, k: nat, accepted: bool): World
    requires Drn(w.tasks, k) && w.tasks[k].at.Runs?
  {
    Becomes(if accepted then w else w.(st := PutBack(w.st, w.tasks[k].at.req)), k, Drains(Looks))
  }

  // ---- search sessions --------------------------------------------------------------------

  function DoSession(w: World, k: nat, s: SessionStep): World
    requires CanSession(w, k, s)
  {
    match s
    case Open(id, source) => DoOpen(w, k, id, source)
    case Renew(id) => w.(st := RenewSession(w.st, id, w.around.now))
    case Close(id) => DoClose(w, k, id)
    case Watch => DoWatch(w, k)
  }

  function DoOpen(w: World, k: nat, id: string, source: Source): World {
    var st := OpenSession(w.st, id, source, w.around.now);
    if Idle(Reap(w.st, w.around.now)) then Becomes(w.(st := st), k, Watches(id)) else w.(st := st)
  }

  function DoClose(w: World, k: nat, id: string): World {
    var st := CloseSession(w.st, id, w.around.now);
    if st.session.None? && Reap(w.st, w.around.now).session.Some?
    then Becomes(w.(st := st), k, Kick)
    else w.(st := st)
  }

  function DoWatch(w: World, k: nat): World
    requires k in w.tasks && w.tasks[k].Watches?
  {
    var st := Reap(w.st, w.around.now);
    if st.session.Some? && st.session.value.id == w.tasks[k].session then w.(st := st)
    else Becomes(w.(st := st), k, Kick)
  }

  function Init(rollback: bool, ttl: nat, boot: string, now: nat): World {
    World(Empty(None), map[], History([], multiset{}, multiset{}, map[]),
          Around(now, boot, false, rollback, ttl), false, false, 0)
  }

  // ---- runs -------------------------------------------------------------------------------

  /** The steps can be taken one after another. */
  predicate Possible(w: World, steps: seq<Step>)
    decreases |steps|
  {
    steps == [] || (Can(w, steps[0]) && Possible(Do(w, steps[0]), steps[1..]))
  }

  function After(w: World, steps: seq<Step>): World
    requires Possible(w, steps)
    decreases |steps|
  {
    if steps == [] then w else After(Do(w, steps[0]), steps[1..])
  }
}
