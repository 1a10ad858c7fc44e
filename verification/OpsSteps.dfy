/** What single steps of the protocol do, in terms of what a reader of the run sees, and that the history counts the
    device writes: the bounds on writes are about the steps themselves. */
module OpsSteps {
  import opened Common
  import opened OpsTxn
  import opened OpsTxnLaws
  import opened OpsState
  import opened OpsStateLaws
  import opened OpsStateExact
  import opened OpsProtocol
  import opened OpsTheorems

  // ---- writes ---------------------------------------------------------------------------------

  /** The step writes the change of transaction `s` to the device. */
  predicate WritesNow(w: World, step: Step, s: nat)
    requires Can(w, step)
  {
    step.Submits? && step.submit.ApplyWrite? && w.tasks[step.k].serial == s
  }

  /** The step writes the rollback of transaction `s` to the device. */
  predicate RollsNow(w: World, step: Step, s: nat)
    requires Can(w, step)
  {
    step.Rolls? && step.roll.RollbackWrite? && w.tasks[step.k].serial == s
  }

  function Writes(w: World, steps: seq<Step>, s: nat): nat
    requires Possible(w, steps)
    decreases |steps|
  {
    if steps == [] then 0 else (if WritesNow(w, steps[0], s) then 1 else 0) + Writes(Do(w, steps[0]), steps[1..], s)
  }

  function Rollbacks(w: World, steps: seq<Step>, s: nat): nat
    requires Possible(w, steps)
    decreases |steps|
  {
    if steps == [] then 0 else (if RollsNow(w, steps[0], s) then 1 else 0) + Rollbacks(Do(w, steps[0]), steps[1..], s)
  }

  lemma SubmitCounts(w: World, k: nat, a: SubmitStep)
    requires CanSubmit(w, k, a)
    ensures DoSubmit(w, k, a).past.rolledBack == w.past.rolledBack
    ensures DoSubmit(w, k, a).past.applied ==
              w.past.applied + if a.ApplyWrite? then multiset{w.tasks[k].serial} else multiset{}
  {
    hide Clear, Install, RecordWrite;
  }

  lemma RollCounts(w: World, k: nat, a: RollbackStep)
    requires CanRoll(w, k, a)
    ensures DoRoll(w, k, a).past.applied == w.past.applied
    ensures DoRoll(w, k, a).past.rolledBack ==
              w.past.rolledBack + if a.RollbackWrite? then multiset{w.tasks[k].serial} else multiset{}
  {
    hide SaveIntent, RecordRollback, Interrupt;
  }

  lemma OtherCounts(w: World, step: Step)
    requires Can(w, step) && !step.Submits? && !step.Rolls?
    ensures Do(w, step).past == w.past
  {
    hide Feed, RevertNow, KeepNow, Preempt, GateLegacy, Interrupt, Queued, DrainPop, PutBack, OpenSession, RenewSession,
         CloseSession, Reap, Start, Live, Idle, Txn.Keep, Txn.WantsProbe;
  }

  /** No other step touches the counts. */
  lemma StepCounts(w: World, step: Step, s: nat)
    requires Can(w, step)
    ensures Do(w, step).past.applied[s] == w.past.applied[s] + (if WritesNow(w, step, s) then 1 else 0)
    ensures Do(w, step).past.rolledBack[s] == w.past.rolledBack[s] + (if RollsNow(w, step, s) then 1 else 0)
  {
    hide DoEnv, DoSubmit, DoRoll, DoRead, DoAsk, DoQueue, DoSession;
    match step
    case Submits(k, a) => SubmitCounts(w, k, a);
    case Rolls(k, a) => RollCounts(w, k, a);
    case _ => OtherCounts(w, step);
  }

  lemma {:induction false} RunCounts(w: World, steps: seq<Step>, s: nat)
    requires Possible(w, steps)
    ensures After(w, steps).past.applied[s] == w.past.applied[s] + Writes(w, steps, s)
    ensures After(w, steps).past.rolledBack[s] == w.past.rolledBack[s] + Rollbacks(w, steps, s)
    decreases |steps|
  {
    hide Can, Do, WritesNow, RollsNow;
    if steps != [] {
      StepCounts(w, steps[0], s);
      RunCounts(Do(w, steps[0]), steps[1..], s);
    }
  }

  /** In every run at most one step writes the change of a transaction to the device; and at most one its rollback, if no
      submit goes ahead with an op_id while a task of an earlier use of it still runs. */
  lemma WriteStepsAtMostOnce(rollback: bool, ttl: nat, boot: string, now: nat, steps: seq<Step>, s: nat)
    requires Possible(Init(rollback, ttl, boot, now), steps)
    ensures Writes(Init(rollback, ttl, boot, now), steps, s) <= 1
    ensures OpIdsFree(Init(rollback, ttl, boot, now), steps) ==> Rollbacks(Init(rollback, ttl, boot, now), steps, s) <= 1
  {
    hide Possible, After, OpIdsFree, Writes, Rollbacks;
    AtMostOneWriteEachWay(rollback, ttl, boot, now, steps, s);
    RunCounts(Init(rollback, ttl, boot, now), steps, s);
  }

  // ---- the world around the process -----------------------------------------------------------------

  /** Time passes by any amount; the mark of an emergency write stays until the next start and is gone after it; a crash
      leaves the disk and the history, a reboot also changes the boot id and sets the clock back. */
  lemma EnvSteps(w: World, e: EnvStep)
    requires Can(w, Env(e))
    ensures var v := Do(w, Env(e));
            && v.past == w.past && v.arrivals == w.arrivals
            && match e
               case Pass(ms) => v == w.(around := v.around) && v.around == w.around.(now := w.around.now + ms)
               case TakeOver => v == w.(around := v.around) && v.around == w.around.(takeover := true)
               case Crash => !v.up && v.tasks == map[] && v.st.disk == w.st.disk && v.st.active.None? && v.around == w.around
               case Reboot(id) => !v.up && v.tasks == map[] && v.st.disk == w.st.disk && v.st.active.None?
                                  && v.around == w.around.(boot := id, now := 0)
               case Boot => v.up && !v.draining && v.around == w.around.(takeover := false)
                            && v.st == Start(w.st.disk, w.around.takeover, w.around.boot, w.around.now)
                            && (v.st.active.None? ==> v.tasks == map[])
                            && (v.st.active.Some? ==>
                                  v.tasks.Keys == {0} && v.tasks[0].Drives? && v.tasks[0].op == v.st.active.value.change.opId)
  {
    hide Start;
  }

  /** After a write that the process found taken over, nothing is resumed. */
  lemma TakenOverIsDropped(w: World)
    requires Can(w, Env(Boot)) && w.around.takeover && (w.st.disk.Some? ==> LiveOk(w.st.disk.value))
    ensures Do(w, Env(Boot)).st.active.None? && Do(w, Env(Boot)).st.disk.None? && Do(w, Env(Boot)).tasks == map[]
  {
    hide Start, Sound;
    EnvSteps(w, Boot);
    StartExact(w.st.disk, true, w.around.boot, w.around.now);
    StartKeeps(w.st.disk, true, w.around.boot, w.around.now);
  }

  // ---- requests ------------------------------------------------------------------------------------------

  lemma KeepStep(w: World, k: nat, op: string)
    requires MemOk(w.st)
    ensures var v := DoAskKeep(w, k, op);
            if w.st.active.Some? && w.st.active.value.change.opId == op && w.st.active.value.phase.Verifying?
            then v.st.active.None? && v.st.disk.None? && v.tasks == w.tasks[k := Kick] else v == w
  {
    hide KeepNow;
    SavedAtOnce(w.st, op, Applied.Done, 0);
  }

  /** A safety write leaves nothing live and nothing queued; a user's other write ends what is live, any other source's does
      not; an old request that passes leaves nothing live. */
  lemma AskSteps(w: World, k: nat, a: AskStep)
    requires Can(w, Asks(k, a)) && MemOk(w.st)
    ensures var v := Do(w, Asks(k, a));
            match a
            case SafetyWrite => v.st.active.None? && v.st.disk.None? && v.st.legacy == []
            case OtherWrite(source) =>
              if source == Screen || source == Web || source == Legacy
              then v.st.active.None? && v.st.disk.None? && (if w.st.active.Some? then v.tasks == w.tasks[k := Kick] else v == w)
              else v == w
            case Gate(item) =>
              if GateLegacy(w.st, item).1.PassOn? then v.st.active.None? && v.st.disk.None? else v == w
            case AskRevert(op) =>
              if w.st.active.Some? && w.st.active.value.change.opId == op && w.st.active.value.phase.Verifying?
              then v.st.disk == v.st.active == Some(Handle(w.st.active.value, UserReverts)) else v == w
            case AskKeep(op) =>
              if w.st.active.Some? && w.st.active.value.change.opId == op && w.st.active.value.phase.Verifying?
              then v.st.active.None? && v.st.disk.None? && v.tasks == w.tasks[k := Kick] else v == w
  {
    hide Sound, Interrupt, RevertNow, DoAskKeep, GateLegacy, Handle;
    match a
    case SafetyWrite => InterruptExact(w.st, Preempted);
    case OtherWrite(_) => InterruptExact(w.st, OtherChange);
    case Gate(item) => GateExact(w.st, item);
    case AskRevert(op) => SavedAtOnce(w.st, op, Applied.Done, 0);
    case AskKeep(op) => KeepStep(w, k, op);
  }

  // ---- drivers ---------------------------------------------------------------------------------------------

  /** A driver sends a rollback only for a live transaction that is to be rolled back, after its intent was saved and the
      card was found the same; another card ends the transaction, a card that cannot be read puts the rollback off. */
  lemma RollbackSteps(w: World, k: nat, s: RollbackStep)
    requires Can(w, Rolls(k, s)) && MemOk(w.st)
    ensures var v := Do(w, Rolls(k, s)); var d := w.tasks[k];
            var live := w.st.active.Some? && w.st.active.value.change.opId == d.op;
            && k in v.tasks
            && match s
               case DriveTop =>
                 if !live then v.tasks[k] == Kick
                 else
                   var t := w.st.active.value;
                   && v.tasks[k].Drives? && v.tasks[k].op == d.op && v.tasks[k].serial == t.change.serial
                   && v.tasks[k].stage == (if t.phase == RollingBack && t.intent == Some(Rollback)
                                           then Save(t.generation, t.change.rollbackTo) else Asleep(t.generation))
               case RollbackSave =>
                 && v.tasks[k] == d.(stage := if live then Check(d.stage.gen, d.stage.value) else Top)
                 && (live ==> v.st.disk == v.st.active == w.st.active)
               case RollbackCheck(check) =>
                 && v.tasks[k] == d.(stage := if !live || check == Changed then Top
                                              else if check == Same then Write(d.stage.value) else Asleep(d.stage.gen))
                 && (live && check == Changed ==> v.st.active.None? && v.st.disk.None?)
                 && (!live || check != Changed ==> v.st == w.st)
               case RollbackWrite => v.tasks[k] == d.(stage := Note) && v.st == w.st
               case RollbackRecord =>
                 && v.tasks[k] == d.(stage := Top)
                 && (live ==> v.st.disk == v.st.active == Some(Handle(w.st.active.value, RollbackWritten(w.around.now))))
  {
    hide Sound, SaveIntent, RecordRollback, Interrupt, MemOk, Handle;
    match s
    case RollbackSave => SavedAtOnce(w.st, w.tasks[k].op, Applied.Done, w.around.now);
    case RollbackRecord => SavedAtOnce(w.st, w.tasks[k].op, Applied.Done, w.around.now);
    case RollbackCheck(_) => InterruptExact(w.st, SimChanged);
    case _ =>
  }

  /** A reading is handed in with the result of its probe, for the generation the driver went to sleep with. */
  lemma ReadingSteps(w: World, k: nat, s: ReadStep)
    requires Can(w, Listens(k, s))
    ensures var v := Do(w, Listens(k, s)); var d := w.tasks[k];
            var live := w.st.active.Some? && w.st.active.value.change.opId == d.op;
            && k in v.tasks
            && match s
               case Wake => v.tasks[k] == d.(stage := Top) && v.st == w.st
               case ReadBegin => v.tasks[k].Drives? && v.tasks[k].stage.Reads? && v.tasks[k].stage.gen == d.stage.gen && v.st == w.st
               case ReadEnd(got) =>
                 && v.st == w.st
                 && (got.Some? && !live ==> v.tasks[k] == Kick)
                 && (got.None? || live ==> v.tasks[k].Drives? && v.tasks[k].stage.gen == d.stage.gen)
                 && (got.Some? && live ==>
                       if w.st.active.value.WantsProbe(got.value, w.around.now).Some?
                       then v.tasks[k].stage.Probes? && v.tasks[k].stage.r == got.value
                       else v.tasks[k].stage.Feeds? && v.tasks[k].stage.got == got)
                 && (got.None? ==> v.tasks[k].stage.Feeds? && v.tasks[k].stage.got.None?)
               case ProbeEnd(ok) =>
                 && v.tasks[k].Drives? && v.tasks[k].stage.Feeds? && v.tasks[k].stage.gen == d.stage.gen
                 && v.tasks[k].stage.got == Some(d.stage.r.(probe := Some(ok))) && v.st == w.st
               case FeedIn =>
                 if live then v.tasks[k] == d.(stage := Top) && v.st == Feed(w.st, d.op, d.stage.gen, d.stage.got, w.around.now)
                 else v.tasks[k] == Kick && v.st == w.st
  {
    hide Feed, Txn.WantsProbe;
  }

  // ---- the queue -------------------------------------------------------------------------------------------

  /** A request comes in with its time and starts a kick; a kick drains unless a drainer is at work; a drainer that found
      nothing puts the flag down, and looks again exactly if nothing holds the lock and something waits. */
  lemma QueueSteps(w: World, k: nat, s: QueueStep)
    requires Can(w, Queues(k, s))
    ensures var v := Do(w, Queues(k, s));
            match s
            case Enqueue(item, action, params) =>
              && v.tasks == w.tasks[k := Kick] && v.st == w.st.(legacy := v.st.legacy) && v.st.legacy != []
              && v.st.legacy[|v.st.legacy| - 1] == LegacyReq(item, action, params, w.around.now, w.arrivals)
              && v.arrivals == w.arrivals + 1 && v.draining == w.draining
            case ClearQueue => v == w.(st := v.st) && v.st == w.st.(legacy := [])
            case DrainLook => v == w.(st := v.st, tasks := v.tasks)
            case DrainLower => v == w.(draining := false, tasks := w.tasks[k := Drains(FlagDown)])
            case DrainRecheck =>
              v == w.(tasks := if w.st.active.None? && w.st.session.None? && w.st.legacy != []
                               then w.tasks[k := Drains(SawMore)] else w.tasks - {k})
            case DrainRan(accepted) =>
              v == w.(st := v.st, tasks := w.tasks[k := Drains(Looks)]) && (accepted ==> v.st == w.st)
            case _ =>
              v == if w.draining then w.(tasks := w.tasks - {k})
                   else w.(draining := true, tasks := w.tasks[k := Drains(Looks)])
  {
    hide WithoutItem, DrainPop, HasItem;
  }

  /** A session that opens has a watcher, and one that is closed or over kicks the queue. */
  lemma SessionSteps(w: World, k: nat, s: SessionStep)
    requires Can(w, Sessions(k, s))
    ensures var v := Do(w, Sessions(k, s)); var left := Standing(w.st, w.around.now);
            && v == w.(st := v.st, tasks := v.tasks) && v.st == w.st.(session := v.st.session)
            && match s
               case Open(id, source) =>
                 if left.None? && w.st.active.None?
                 then v.st.session == Some(Session(id, source, w.around.now, w.around.now)) && v.tasks == w.tasks[k := Watches(id)]
                 else v.st.session == left && v.tasks == w.tasks
               case Renew(id) =>
                 && v.tasks == w.tasks
                 && v.st.session == if left.Some? && left.value.id == id then Some(left.value.(renewedMs := w.around.now)) else left
               case Close(id) =>
                 if left.Some? && left.value.id == id then v.st.session.None? && v.tasks == w.tasks[k := Kick]
                 else v.st.session == left && v.tasks == w.tasks
               case Watch =>
                 && v.st.session == left
                 && v.tasks == if left.Some? && left.value.id == w.tasks[k].session then w.tasks else w.tasks[k := Kick]
  {
    hide Reap, OpenSession, RenewSession, CloseSession, RunOut;
    match s
    case Open(id, source) => SessionExact(w.st, id, source, w.around.now);
    case Renew(id) => SessionExact(w.st, id, Web, w.around.now);
    case Close(id) => SessionExact(w.st, id, Web, w.around.now);
    case Watch => SessionExact(w.st, "", Web, w.around.now);
  }
}
