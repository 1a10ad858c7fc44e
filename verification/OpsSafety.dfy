/** Safety of the write-operation layer over every run: at most one apply write
    and one rollback write for each transaction, always to the right value,
    whatever the interleaving of tasks, requests, crashes and reboots. */
module OpsSafety {
  import opened Common
  import opened OpsTxn
  import opened OpsTxnLaws
  import opened OpsState
  import opened OpsStateLaws
  import opened OpsProtocol

  // ---- chains of overriding submits ------------------------------------------

  /** A transaction overrides only an earlier one of the same item. */
  predicate ChainOk(chain: seq<Link>) {
    forall s :: 0 <= s < |chain| && chain[s].parent.Some? ==>
      chain[s].parent.value < s && chain[chain[s].parent.value].item == chain[s].item
  }

  /** The first transaction of the chain that `s` continues. */
  function Root(chain: seq<Link>, s: nat): (r: nat)
    requires s < |chain| && ChainOk(chain)
    ensures r <= s && chain[r].parent.None? && chain[r].item == chain[s].item
    decreases s
  {
    match chain[s].parent
    case None => s
    case Some(p) => Root(chain, p)
  }

  /** The value read before the first write of the chain that `s` continues. */
  function RootBefore(chain: seq<Link>, s: nat): string
    requires s < |chain| && ChainOk(chain)
  {
    chain[Root(chain, s)].before
  }

  lemma {:induction false} RootUnmoved(chain: seq<Link>, l: Link, s: nat)
    requires ChainOk(chain) && ChainOk(chain + [l]) && s < |chain|
    ensures Root(chain + [l], s) == Root(chain, s) && RootBefore(chain + [l], s) == RootBefore(chain, s)
    decreases s
  {
    if chain[s].parent.Some? {
      RootUnmoved(chain, l, chain[s].parent.value);
    }
  }

  // ---- the invariant -----------------------------------------------------------

  /** Tasks that act for one transaction. */
  predicate Bound(t: Task) { t.Applies? || t.Drives? }

  function OpOf(t: Task): string
    requires Bound(t)
  {
    if t.Applies? then t.req.opId else t.op
  }

  predicate TxnOk(chain: seq<Link>, t: Txn)
    requires ChainOk(chain)
  {
    && Sound(t) && !t.phase.IsFinal() && !t.phase.Accepted?
    && t.change.serial < |chain| && t.change.item == chain[t.change.serial].item
    && t.change.rollbackTo == RootBefore(chain, t.change.serial)
  }

  /** The live transaction and the file agree on which transaction is live, and
      none is live while a session is open. */
  predicate MemoryOk(w: World) {
    && ChainOk(w.past.chain)
    && (w.st.active.Some? ==> TxnOk(w.past.chain, w.st.active.value))
    && (w.st.disk.Some? ==> TxnOk(w.past.chain, w.st.disk.value))
    && (w.up ==> (w.st.active.Some? <==> w.st.disk.Some?))
    && (w.up && w.st.active.Some? ==> w.st.disk.value.change == w.st.active.value.change)
    && (!w.up ==> w.st == Empty(w.st.disk) && w.tasks == map[] && !w.draining)
    && !(w.st.active.Some? && w.st.session.Some?)
  }

  predicate Acts(ts: Tasks, k: nat) { k in ts && Bound(ts[k]) }

  /** At most one task acts for a transaction, and it acts for the live one
      exactly if it carries its op_id. */
  ghost predicate TasksOk(ts: Tasks, n: nat, a: Option<Txn>) {
    && (forall k | k in ts && ts[k].Submitting? :: ts[k].req.spec.deadlineMs > 0)
    && (forall k | Acts(ts, k) :: ts[k].serial < n)
    && (forall k, l | Acts(ts, k) && Acts(ts, l) && k != l ::
          OpOf(ts[k]) != OpOf(ts[l]) && ts[k].serial != ts[l].serial)
    && (a.Some? ==> forall k | Acts(ts, k) ::
          (OpOf(ts[k]) == a.value.change.opId <==> ts[k].serial == a.value.change.serial))
  }

  predicate Sending(g: Stage) { g.Save? || g.Check? || g.Write? || g.Note? }

  /** What a driver knows about the transaction it drives, while it is live. */
  predicate StageOk(g: Stage, t: Txn, d: Txn) {
    && (Sending(g) ==> t.phase.RollingBack? && t.intent == Some(Rollback))
    && (Sending(g) && !g.Save? ==> d.phase.RollingBack?)
    && (g.Save? || g.Check? || g.Asleep? ==> g.gen <= t.generation)
    && (g.Reads? || g.Probes? || g.Feeds? ==>
          && g.gen <= g.begunGen <= t.generation
          && (g.begunGen == t.generation ==> g.begunPhase == t.phase))
  }

  ghost predicate StagesOk(ts: Tasks, a: Option<Txn>, d: Option<Txn>) {
    a.Some? && d.Some? ==>
      forall k | Drv(ts, k) && ts[k].serial == a.value.change.serial ::
        StageOk(ts[k].stage, a.value, d.value)
  }

  /** A driver that may still send the rollback. */
  predicate MaySend(ts: Tasks, k: nat) {
    Drv(ts, k) && Sending(ts[k].stage) && !ts[k].stage.Note?
  }

  /** Each transaction was written at most once each way, and rolled back to the
      value read before its chain began. */
  ghost predicate PastOk(h: History) {
    && ChainOk(h.chain)
    && (forall s :: h.applied[s] <= 1 && h.rolledBack[s] <= 1)
    && (forall s | s >= |h.chain| :: h.applied[s] == 0 && h.rolledBack[s] == 0)
    && (forall s | s < |h.chain| && h.rolledBack[s] > 0 ::
          s in h.rolledTo && h.rolledTo[s] == RootBefore(h.chain, s))
  }

  /** Who may still write has not written yet. */
  ghost predicate ToWriteOk(h: History, ts: Tasks)
    requires ChainOk(h.chain)
  {
    && (forall k | k in ts && ts[k].Applies? && ts[k].wrote.None? :: h.applied[ts[k].serial] == 0)
    && (forall k | MaySend(ts, k) ::
          && h.rolledBack[ts[k].serial] == 0
          && ts[k].serial < |h.chain|
          && ts[k].stage.value == RootBefore(h.chain, ts[k].serial))
  }

  /** Once rolled back, a transaction never again carries a rollback intent that
      a driver has not already carried out. */
  ghost predicate OnceOk(rolled: multiset<nat>, ts: Tasks, a: Option<Txn>, d: Option<Txn>) {
    && (d.Some? && rolled[d.value.change.serial] > 0 ==> d.value.phase.RollingBack?)
    && (a.Some? && rolled[a.value.change.serial] > 0 ==>
          && a.value.phase.RollingBack?
          && (a.value.intent.None? || forall k | Acts(ts, k) ::
                ts[k].serial == a.value.change.serial ==> ts[k].Drives? && ts[k].stage.Note?))
  }

  ghost predicate Inv(w: World) {
    && MemoryOk(w)
    && TasksOk(w.tasks, |w.past.chain|, w.st.active)
    && StagesOk(w.tasks, w.st.active, w.st.disk)
    && PastOk(w.past)
    && ToWriteOk(w.past, w.tasks)
    && OnceOk(w.past.rolledBack, w.tasks, w.st.active, w.st.disk)
  }

  /** The one thing asked of clients: no submit goes ahead with an op_id while a task of
      an earlier transaction with that op_id still runs. A submit that is refused may carry any
      op_id; never using one for two transactions is enough. */
  ghost predicate OpIdFree(w: World, s: Step) {
    s.Submits? && s.submit.Captured? && s.k in w.tasks && w.tasks[s.k].Submitting? && Clear(w.st, w.tasks[s.k].req) ==>
      forall l | Acts(w.tasks, l) :: OpOf(w.tasks[l]) != w.tasks[s.k].req.opId
  }

  // ---- what the lock sections do to the live transaction ----------------------------

  /** The live transaction moved on, or ended and was retired. */
  predicate Moves(a: St, b: St) {
    && a.active.Some? && a.disk.Some?
    && b.session == a.session
    && (b.active.Some? ==>
          && Sound(b.active.value) && !b.active.value.phase.IsFinal()
          && Follows(a.active.value, b.active.value)
          && (a.active.value.intent == Some(Rollback) ==> b.active == a.active)
          && (b.disk == a.disk || b.disk == b.active)
          && b.recent == a.recent && b.retired == a.retired)
    && (b.active.None? ==> b.disk.None? && Retires(a, b))
  }

  lemma FeedMoves(st: St, op: string, gen: nat, r: Option<Reading>, now: nat)
    requires st.active.Some? && st.disk.Some? && Sound(st.active.value)
    requires !st.active.value.phase.IsFinal()
    ensures Feed(st, op, gen, r, now) == st || Moves(st, Feed(st, op, gen, r, now))
  {
    if r.Some? {
      ReadingLaws(st.active.value, r.value, now);
    } else {
      TickLaws(st.active.value, now);
    }
  }

  lemma AskMoves(st: St, op: string)
    requires st.active.Some? && st.disk.Some? && Sound(st.active.value)
    requires !st.active.value.phase.IsFinal()
    ensures RevertNow(st, op) == st || Moves(st, RevertNow(st, op))
    ensures KeepNow(st, op) == st || Moves(st, KeepNow(st, op))
  {
  }

  lemma InterruptMoves(st: St, why: Reason)
    requires st.active.Some? && st.disk.Some? && Sound(st.active.value)
    requires !st.active.value.phase.IsFinal() && Interrupting(why)
    ensures Moves(st, Interrupt(st, why))
  {
  }

  lemma RecordMoves(st: St, op: string, outcome: Applied, now: nat)
    requires st.active.Some? && st.disk.Some? && Sound(st.active.value)
    requires !st.active.value.phase.IsFinal()
    ensures Moves(st, RecordWrite(st, op, outcome, now)) && Moves(st, SaveIntent(st, op))
  {
    HandleKeepsSound(st.active.value, WriteBack(outcome, now));
  }

  // ---- frames that the steps are made of ---------------------------------------------

  /** Only clock, queue or sessions change. */
  predicate Sideline(w: World, v: World) {
    && v.tasks == w.tasks && v.past == w.past && v.up && w.up
    && v.st.active == w.st.active && v.st.disk == w.st.disk
    && !(v.st.active.Some? && v.st.session.Some?)
  }

  lemma SidelineKeeps(w: World, v: World)
    requires Inv(w) && Sideline(w, v)
    ensures Inv(v)
  {
    hide TasksOk, StagesOk, PastOk, ToWriteOk, OnceOk;
  }

  lemma MoveStages(ts: Tasks, a: St, b: St)
    requires Moves(a, b) && StagesOk(ts, a.active, a.disk)
    ensures StagesOk(ts, b.active, b.disk)
  {
    hide Sound;
  }

  lemma MoveOnce(rolled: multiset<nat>, ts: Tasks, a: St, b: St)
    requires Moves(a, b) && OnceOk(rolled, ts, a.active, a.disk)
    requires a.disk.value.change == a.active.value.change
    ensures OnceOk(rolled, ts, b.active, b.disk)
  {
    hide Sound;
  }

  /** The live transaction moves on, or ends. */
  lemma MoveKeeps(w: World, b: St)
    requires Inv(w) && w.up && Moves(w.st, b)
    ensures Inv(w.(st := b))
  {
    hide StagesOk, PastOk, ToWriteOk, OnceOk;
    MoveStages(w.tasks, w.st, b);
    MoveOnce(w.past.rolledBack, w.tasks, w.st, b);
  }

  /** One task starts, ends or goes on without being bound to a transaction. */
  predicate Loosens(ts: Tasks, us: Tasks, k: nat) {
    || us == ts - {k}
    || (&& k in us && us == ts[k := us[k]] && !Bound(us[k])
        && (us[k].Submitting? ==> us[k].req.spec.deadlineMs > 0))
  }

  lemma LooseTasks(ts: Tasks, us: Tasks, k: nat, n: nat, a: Option<Txn>, d: Option<Txn>)
    requires Loosens(ts, us, k) && TasksOk(ts, n, a) && StagesOk(ts, a, d)
    ensures TasksOk(us, n, a) && StagesOk(us, a, d)
  {
    assert forall l | Acts(us, l) :: Acts(ts, l) && us[l] == ts[l];
    assert forall l | Drv(us, l) :: Drv(ts, l) && us[l] == ts[l];
  }

  lemma LooseWrites(ts: Tasks, us: Tasks, k: nat, h: History, a: Option<Txn>, d: Option<Txn>)
    requires Loosens(ts, us, k) && ChainOk(h.chain) && ToWriteOk(h, ts)
    requires OnceOk(h.rolledBack, ts, a, d)
    ensures ToWriteOk(h, us) && OnceOk(h.rolledBack, us, a, d)
  {
    assert forall l | Acts(us, l) :: Acts(ts, l) && us[l] == ts[l];
    assert forall l | MaySend(us, l) :: MaySend(ts, l) && us[l] == ts[l];
  }

  lemma LooseKeeps(w: World, v: World, k: nat)
    requires Inv(w) && w.up && Loosens(w.tasks, v.tasks, k) && v == w.(tasks := v.tasks)
    ensures Inv(v)
  {
    hide TasksOk, StagesOk, PastOk, ToWriteOk, OnceOk, Loosens;
    LooseTasks(w.tasks, v.tasks, k, |w.past.chain|, w.st.active, w.st.disk);
    LooseWrites(w.tasks, v.tasks, k, w.past, w.st.active, w.st.disk);
  }

  lemma BecomesKeeps(w: World, k: nat, t: Task)
    requires Inv(w) && w.up && !Bound(t) && !t.Submitting?
    ensures Inv(Becomes(w, k, t))
  {
    hide Inv;
    LooseKeeps(w, Becomes(w, k, t), k);
  }

  lemma EndsKeeps(w: World, k: nat)
    requires Inv(w) && w.up
    ensures Inv(Ends(w, k))
  {
    hide Inv;
    LooseKeeps(w, Ends(w, k), k);
  }

  // ---- one bound task goes on for the same transaction ------------------------------------

  predicate Hops(ts: Tasks, us: Tasks, k: nat) {
    && Acts(ts, k) && Acts(us, k) && us == ts[k := us[k]]
    && OpOf(us[k]) == OpOf(ts[k]) && us[k].serial == ts[k].serial
  }

  lemma HopTasks(ts: Tasks, us: Tasks, k: nat, n: nat, a: Option<Txn>)
    requires Hops(ts, us, k) && TasksOk(ts, n, a)
    ensures TasksOk(us, n, a)
  {
    assert forall l | Acts(us, l) :: Acts(ts, l);
  }

  lemma HopStages(ts: Tasks, us: Tasks, k: nat, n: nat, a: Option<Txn>, d: Option<Txn>)
    requires Hops(ts, us, k) && TasksOk(ts, n, a) && StagesOk(ts, a, d)
    requires a.Some? && d.Some? && us[k].Drives? && us[k].serial == a.value.change.serial ==>
               StageOk(us[k].stage, a.value, d.value)
    ensures StagesOk(us, a, d)
  {
    assert forall l | Drv(us, l) && l != k :: Drv(ts, l) && us[l] == ts[l];
  }

  lemma HopWrites(ts: Tasks, us: Tasks, k: nat, h: History)
    requires Hops(ts, us, k) && ChainOk(h.chain) && ToWriteOk(h, ts)
    requires us[k].Applies? ==> us[k].wrote.Some?
    requires MaySend(us, k) ==> MaySend(ts, k) && us[k].stage.value == ts[k].stage.value
    ensures ToWriteOk(h, us)
  {
    assert forall l | MaySend(us, l) && l != k :: MaySend(ts, l) && us[l] == ts[l];
  }

  lemma HopOnce(ts: Tasks, us: Tasks, k: nat, rolled: multiset<nat>, a: Option<Txn>, d: Option<Txn>)
    requires Hops(ts, us, k) && OnceOk(rolled, ts, a, d)
    requires a.Some? && us[k].serial == a.value.change.serial && rolled[us[k].serial] > 0 ==>
               a.value.intent.None? || (us[k].Drives? && us[k].stage.Note?)
    ensures OnceOk(rolled, us, a, d)
  {
    assert forall l | Acts(us, l) && l != k :: Acts(ts, l) && us[l] == ts[l];
  }

  /** What the invariant says about the driver `k`. */
  lemma DriverOf(w: World, k: nat)
    requires Inv(w) && w.up && Drv(w.tasks, k)
    ensures w.tasks[k].serial < |w.past.chain|
    ensures Live(w.st, w.tasks[k].op) ==>
              && TxnOk(w.past.chain, w.st.active.value) && w.st.disk.Some?
              && w.tasks[k].serial == w.st.active.value.change.serial
              && StageOk(w.tasks[k].stage, w.st.active.value, w.st.disk.value)
              && (w.past.rolledBack[w.tasks[k].serial] > 0 ==>
                    && w.st.active.value.phase.RollingBack?
                    && (w.st.active.value.intent.None? || w.tasks[k].stage.Note?))
    ensures w.st.active.Some? && !Live(w.st, w.tasks[k].op) ==>
              w.tasks[k].serial != w.st.active.value.change.serial
    ensures MaySend(w.tasks, k) ==>
              && w.past.rolledBack[w.tasks[k].serial] == 0
              && w.tasks[k].stage.value == RootBefore(w.past.chain, w.tasks[k].serial)
  {
    assert Acts(w.tasks, k);
  }

  /** The driver goes on to a stage that fits the live transaction. */
  lemma StageKeeps(w: World, k: nat, g: Stage)
    requires Inv(w) && w.up && Drv(w.tasks, k)
    requires Live(w.st, w.tasks[k].op) && w.st.disk.Some? ==>
               && StageOk(g, w.st.active.value, w.st.disk.value)
               && (g.Note? || w.st.active.value.intent.None? || w.past.rolledBack[w.tasks[k].serial] == 0)
    requires g.Save? || g.Check? || g.Write? ==>
               MaySend(w.tasks, k) && g.value == w.tasks[k].stage.value
    ensures Inv(At(w, k, g))
  {
    hide TasksOk, StagesOk, PastOk, ToWriteOk, OnceOk, StageOk, TxnOk;
    DriverOf(w, k);
    var us := At(w, k, g).tasks;
    assert Hops(w.tasks, us, k);
    HopTasks(w.tasks, us, k, |w.past.chain|, w.st.active);
    HopStages(w.tasks, us, k, |w.past.chain|, w.st.active, w.st.disk);
    HopWrites(w.tasks, us, k, w.past);
    HopOnce(w.tasks, us, k, w.past.rolledBack, w.st.active, w.st.disk);
  }

  // ---- the driver ---------------------------------------------------------------------

  lemma DriveTopKeeps(w: World, k: nat)
    requires Inv(w) && w.up && CanRoll(w, k, DriveTop)
    ensures Inv(DoDriveTop(w, k))
  {
    hide TasksOk, StagesOk, PastOk, OnceOk, Sound;
    DriverOf(w, k);
    var v := DoDriveTop(w, k);
    if !Live(w.st, w.tasks[k].op) {
      BecomesKeeps(w, k, Kick);
    } else {
      var us := v.tasks;
      HopTasks(w.tasks, us, k, |w.past.chain|, w.st.active);
      HopStages(w.tasks, us, k, |w.past.chain|, w.st.active, w.st.disk);
      HopOnce(w.tasks, us, k, w.past.rolledBack, w.st.active, w.st.disk);
      assert ToWriteOk(v.past, us) by {
        assert forall l | MaySend(us, l) && l != k :: MaySend(w.tasks, l) && us[l] == w.tasks[l];
      }
    }
  }

  lemma RollbackSaveKeeps(w: World, k: nat)
    requires Inv(w) && w.up && CanRoll(w, k, RollbackSave)
    ensures Inv(DoRollbackSave(w, k))
  {
    hide TasksOk, StagesOk, PastOk, ToWriteOk, OnceOk;
    DriverOf(w, k);
    var g := w.tasks[k].stage;
    if Live(w.st, w.tasks[k].op) {
      RecordMoves(w.st, w.tasks[k].op, Applied.Done, w.around.now);
      MoveKeeps(w, SaveIntent(w.st, w.tasks[k].op));
      StageKeeps(w.(st := SaveIntent(w.st, w.tasks[k].op)), k, Check(g.gen, g.value));
    } else {
      StageKeeps(w, k, Top);
    }
  }

  lemma RollbackCheckKeeps(w: World, k: nat, check: SimCheck)
    requires Inv(w) && w.up && CanRoll(w, k, RollbackCheck(check))
    ensures Inv(DoRollbackCheck(w, k, check))
  {
    hide TasksOk, StagesOk, PastOk, ToWriteOk, OnceOk, Interrupt;
    DriverOf(w, k);
    if !Live(w.st, w.tasks[k].op) {
      StageKeeps(w, k, Top);
    } else {
      match check
      case Same => StageKeeps(w, k, Write(w.tasks[k].stage.value));
      case Unknown => StageKeeps(w, k, Asleep(w.tasks[k].stage.gen));
      case Changed => SimChangedKeeps(w, k);
    }
  }

  lemma SimChangedKeeps(w: World, k: nat)
    requires Inv(w) && w.up && Drv(w.tasks, k) && Live(w.st, w.tasks[k].op)
    ensures Inv(At(w.(st := Interrupt(w.st, SimChanged)), k, Top))
  {
    hide TasksOk, StagesOk, PastOk, ToWriteOk, OnceOk;
    DriverOf(w, k);
    InterruptMoves(w.st, SimChanged);
    MoveKeeps(w, Interrupt(w.st, SimChanged));
    StageKeeps(w.(st := Interrupt(w.st, SimChanged)), k, Top);
  }

  /** The write itself: from then on the transaction counts as rolled back. */
  lemma RollbackWriteKeeps(w: World, k: nat)
    requires Inv(w) && w.up && CanRoll(w, k, RollbackWrite)
    ensures Inv(DoRollbackWrite(w, k))
  {
    hide TasksOk, StagesOk, PastOk, ToWriteOk, OnceOk, Sound;
    DriverOf(w, k);
    StageKeeps(w, k, Note);
    var u := At(w, k, Note);
    CountRollback(u, k, w.tasks[k].stage.value);
  }

  lemma CountRollback(w: World, k: nat, value: string)
    requires Inv(w) && w.up && Drv(w.tasks, k) && w.tasks[k].stage.Note?
    requires w.past.rolledBack[w.tasks[k].serial] == 0
    requires ChainOk(w.past.chain) && w.tasks[k].serial < |w.past.chain|
    requires value == RootBefore(w.past.chain, w.tasks[k].serial)
    ensures Inv(w.(past := RolledBackTo(w.past, w.tasks[k].serial, value)))
  {
    hide TasksOk, StagesOk, PastOk, ToWriteOk, OnceOk, Sound;
    var s := w.tasks[k].serial;
    DriverOf(w, k);
    CountInPast(w.past, s, value);
    CountInTasks(w.past, w.tasks, k, value, w.st.active);
    CountOnce(w.past.rolledBack, w.tasks, k, |w.past.chain|, w.st.active, w.st.disk);
  }

  lemma CountInPast(h: History, s: nat, value: string)
    requires PastOk(h) && s < |h.chain| && h.rolledBack[s] == 0 && value == RootBefore(h.chain, s)
    ensures PastOk(RolledBackTo(h, s, value))
  {
  }

  lemma CountInTasks(h: History, ts: Tasks, k: nat, value: string, a: Option<Txn>)
    requires ChainOk(h.chain) && ToWriteOk(h, ts) && TasksOk(ts, |h.chain|, a)
    requires Drv(ts, k) && ts[k].stage.Note?
    ensures ToWriteOk(RolledBackTo(h, ts[k].serial, value), ts)
  {
    assert Acts(ts, k);
    assert forall l | MaySend(ts, l) :: Acts(ts, l) && l != k;
  }

  lemma CountOnce(rolled: multiset<nat>, ts: Tasks, k: nat, n: nat, a: Option<Txn>, d: Option<Txn>)
    requires TasksOk(ts, n, a) && StagesOk(ts, a, d) && OnceOk(rolled, ts, a, d)
    requires Drv(ts, k) && ts[k].stage.Note?
    requires a.Some? <==> d.Some?
    requires a.Some? ==> a.value.change == d.value.change
    ensures OnceOk(rolled + multiset{ts[k].serial}, ts, a, d)
  {
    assert Acts(ts, k);
  }

  lemma RollbackRecordKeeps(w: World, k: nat)
    requires Inv(w) && w.up && CanRoll(w, k, RollbackRecord)
    ensures Inv(DoRollbackRecord(w, k))
  {
    hide TasksOk, StagesOk, PastOk, ToWriteOk, OnceOk;
    DriverOf(w, k);
    if Live(w.st, w.tasks[k].op) {
      var st := RecordRollback(w.st, w.tasks[k].op, w.around.now);
      HandleKeepsSound(w.st.active.value, RollbackWritten(w.around.now));
      var us := DoRollbackRecord(w, k).tasks;
      assert Hops(w.tasks, us, k);
      HopTasks(w.tasks, us, k, |w.past.chain|, w.st.active);
      HopWrites(w.tasks, us, k, w.past);
      RecordedParts(w.tasks, us, k, |w.past.chain|, w.past.rolledBack, w.st, st);
    } else {
      StageKeeps(w, k, Top);
    }
  }

  lemma RecordedParts(ts: Tasks, us: Tasks, k: nat, n: nat, rolled: multiset<nat>, a: St, b: St)
    requires Hops(ts, us, k) && us[k].Drives? && us[k].stage.Top?
    requires a.active.Some? && b.active.Some? && b.disk == b.active
    requires b.active.value.change == a.active.value.change
    requires ts[k].serial == a.active.value.change.serial
    requires b.active.value.phase.RollingBack? && b.active.value.intent.None?
    requires TasksOk(ts, n, a.active) && TasksOk(us, n, a.active)
    ensures TasksOk(us, n, b.active)
    ensures StagesOk(us, b.active, b.disk)
    ensures OnceOk(rolled, us, b.active, b.disk)
  {
    assert forall l | Drv(us, l) && l != k :: Acts(ts, l) && us[l] == ts[l];
  }

  lemma ReadKeeps(w: World, k: nat, s: ReadStep)
    requires Inv(w) && w.up && CanRead(w, k, s) && !s.FeedIn? && !s.ReadEnd?
    ensures Inv(DoRead(w, k, s))
  {
    hide TasksOk, StagesOk, PastOk, ToWriteOk, OnceOk, Sound, Txn.WantsProbe, Feed;
    DriverOf(w, k);
    match s
    case Wake => StageKeeps(w, k, Top);
    case ReadBegin => StageKeeps(w, k, DoReadBegin(w, k).tasks[k].stage);
    case ProbeEnd(ok) => StageKeeps(w, k, DoProbeEnd(w, k, ok).tasks[k].stage);
  }

  lemma ReadEndKeeps(w: World, k: nat, got: Option<Reading>)
    requires Inv(w) && w.up && CanRead(w, k, ReadEnd(got))
    ensures Inv(DoReadEnd(w, k, got))
  {
    hide TasksOk, StagesOk, PastOk, ToWriteOk, OnceOk, Sound, Txn.WantsProbe;
    DriverOf(w, k);
    var v := DoReadEnd(w, k, got);
    if got.Some? && !Live(w.st, w.tasks[k].op) {
      BecomesKeeps(w, k, Kick);
    } else {
      StageKeeps(w, k, v.tasks[k].stage);
      assert v == At(w, k, v.tasks[k].stage);
    }
  }

  lemma FeedInKeeps(w: World, k: nat)
    requires Inv(w) && w.up && CanRead(w, k, FeedIn)
    ensures Inv(DoFeedIn(w, k))
  {
    hide TasksOk, StagesOk, PastOk, ToWriteOk, OnceOk, Feed, Follows;
    DriverOf(w, k);
    var d := w.tasks[k];
    if Live(w.st, d.op) {
      var st := Feed(w.st, d.op, d.stage.gen, d.stage.got, w.around.now);
      FeedMoves(w.st, d.op, d.stage.gen, d.stage.got, w.around.now);
      if st != w.st {
        MoveKeeps(w, st);
      }
      DriverOf(w.(st := st), k);
      StageKeeps(w.(st := st), k, Top);
    } else {
      BecomesKeeps(w, k, Kick);
    }
  }

  // ---- submit ---------------------------------------------------------------------------

  lemma SubmitKeeps(w: World, k: nat, req: Request)
    requires Inv(w) && w.up && CanSubmit(w, k, Submit(req))
    ensures Inv(Becomes(w, k, Submitting(req)))
  {
    hide Inv;
    LooseKeeps(w, Becomes(w, k, Submitting(req)), k);
  }

  lemma ApplyWriteKeeps(w: World, k: nat, outcome: Applied)
    requires Inv(w) && w.up && CanSubmit(w, k, ApplyWrite(outcome))
    ensures Inv(DoApplyWrite(w, k, outcome))
  {
    hide StagesOk, OnceOk, Sound;
    var us := DoApplyWrite(w, k, outcome).tasks;
    assert Hops(w.tasks, us, k);
    HopTasks(w.tasks, us, k, |w.past.chain|, w.st.active);
    HopStages(w.tasks, us, k, |w.past.chain|, w.st.active, w.st.disk);
    ApplierOf(w, k);
    HopOnce(w.tasks, us, k, w.past.rolledBack, w.st.active, w.st.disk);
    CountApply(w.past, w.tasks, us, k, |w.past.chain|, w.st.active);
  }

  lemma CountApply(h: History, ts: Tasks, us: Tasks, k: nat, n: nat, a: Option<Txn>)
    requires PastOk(h) && ToWriteOk(h, ts) && TasksOk(ts, |h.chain|, a)
    requires Hops(ts, us, k) && ts[k].Applies? && ts[k].wrote.None? && us[k].Applies? && us[k].wrote.Some?
    ensures PastOk(h.(applied := h.applied + multiset{ts[k].serial}))
    ensures ToWriteOk(h.(applied := h.applied + multiset{ts[k].serial}), us)
  {
    assert forall l | MaySend(us, l) :: MaySend(ts, l) && us[l] == ts[l];
    assert forall l | l in us && us[l].Applies? && us[l].wrote.None? :: Acts(ts, l) && l != k;
  }

  /** A transaction whose write is not recorded yet was never rolled back. */
  lemma ApplierOf(w: World, k: nat)
    requires Inv(w) && w.up && Acts(w.tasks, k) && w.tasks[k].Applies?
    ensures (&& w.st.active.Some? && w.tasks[k].serial == w.st.active.value.change.serial
             && w.past.rolledBack[w.tasks[k].serial] > 0) ==> w.st.active.value.intent.None?
    ensures w.st.active.Some? ==>
              (Live(w.st, w.tasks[k].req.opId) <==> w.tasks[k].serial == w.st.active.value.change.serial)
  {
  }

  lemma ApplyRecordKeeps(w: World, k: nat)
    requires Inv(w) && w.up && CanSubmit(w, k, ApplyRecord)
    ensures Inv(DoApplyRecord(w, k))
  {
    hide TasksOk, StagesOk, PastOk, ToWriteOk, OnceOk, RecordWrite;
    var t := w.tasks[k];
    var st := RecordWrite(w.st, t.req.opId, t.wrote.value, w.around.now);
    ApplierOf(w, k);
    if w.st.active.Some? {
      RecordMoves(w.st, t.req.opId, t.wrote.value, w.around.now);
      MoveKeeps(w, st);
    } else {
      assert st == w.st by { RecordNothing(w.st, t.req.opId, t.wrote.value, w.around.now); }
    }
    var u := w.(st := st);
    assert DoApplyRecord(w, k) == Becomes(u, k, if Live(w.st, t.req.opId) then Drives(t.req.opId, t.serial, Top) else Kick);
    if Live(w.st, t.req.opId) {
      SpawnKeeps(u, k);
    } else {
      BecomesKeeps(u, k, Kick);
    }
  }

  lemma RecordNothing(st: St, op: string, outcome: Applied, now: nat)
    requires st.active.None?
    ensures RecordWrite(st, op, outcome, now) == st
  {
  }

  /** The submit task goes on as the driver of its transaction. */
  lemma SpawnKeeps(w: World, k: nat)
    requires Inv(w) && w.up && Acts(w.tasks, k) && w.tasks[k].Applies?
    ensures Inv(Becomes(w, k, Drives(w.tasks[k].req.opId, w.tasks[k].serial, Top)))
  {
    hide TasksOk, StagesOk, PastOk, ToWriteOk, OnceOk, Sound;
    var us := Becomes(w, k, Drives(w.tasks[k].req.opId, w.tasks[k].serial, Top)).tasks;
    assert Hops(w.tasks, us, k);
    ApplierOf(w, k);
    HopTasks(w.tasks, us, k, |w.past.chain|, w.st.active);
    HopStages(w.tasks, us, k, |w.past.chain|, w.st.active, w.st.disk);
    HopWrites(w.tasks, us, k, w.past);
    HopOnce(w.tasks, us, k, w.past.rolledBack, w.st.active, w.st.disk);
  }

  lemma CapturedKeeps(w: World, k: nat, before: string, sim: SimId, conn: Option<Conn>)
    requires Inv(w) && w.up && CanSubmit(w, k, Captured(before, sim, conn))
    requires OpIdFree(w, Submits(k, Captured(before, sim, conn)))
    ensures Inv(DoCaptured(w, k, before, sim, conn))
  {
    hide StagesOk, PastOk, ToWriteOk, OnceOk, Install;
    var req := w.tasks[k].req;
    if !Clear(w.st, req) {
      EndsKeeps(w, k);
    } else {
      var v := DoCaptured(w, k, before, sim, conn);
      var l := v.past.chain[|w.past.chain|];
      InstallLaws(w.st, req, |w.past.chain|, before, sim, conn, w.around.rollback, w.around.boot, w.around.now);
      LinkKeeps(w.past, l);
      InstalledMemory(w, v, l);
      InstalledTasks(w.tasks, v.tasks, k, |w.past.chain|, w.st.active, v.st.active, v.st.disk);
      InstalledWrites(w.past, l, w.tasks, v.tasks, k);
      InstalledOnce(w.past, v.tasks, v.st.active.value);
    }
  }

  lemma LinkKeeps(h: History, l: Link)
    requires PastOk(h) && (l.parent.Some? ==> l.parent.value < |h.chain| && h.chain[l.parent.value].item == l.item)
    ensures PastOk(h.(chain := h.chain + [l]))
    ensures forall s: nat | s < |h.chain| :: RootBefore(h.chain + [l], s) == RootBefore(h.chain, s)
  {
    forall s: nat | s < |h.chain|
      ensures RootBefore(h.chain + [l], s) == RootBefore(h.chain, s)
    {
      RootUnmoved(h.chain, l, s);
    }
  }

  lemma InstalledMemory(w: World, v: World, l: Link)
    requires MemoryOk(w) && w.up && v.up
    requires v.past.chain == w.past.chain + [l] && ChainOk(v.past.chain)
    requires v.st.active.Some? && v.st.disk == v.st.active && v.st.session.None?
    requires Sound(v.st.active.value) && v.st.active.value.phase.Applying?
    requires v.st.active.value.change.serial == |w.past.chain| && v.st.active.value.change.item == l.item
    requires l.parent == if w.st.active.Some? then Some(w.st.active.value.change.serial) else None
    requires v.st.active.value.change.rollbackTo ==
               if w.st.active.Some? then w.st.active.value.change.rollbackTo else l.before
    ensures MemoryOk(v)
  {
    if w.st.active.Some? {
      RootUnmoved(w.past.chain, l, w.st.active.value.change.serial);
    }
  }

  lemma InstalledTasks(ts: Tasks, us: Tasks, k: nat, n: nat, old_: Option<Txn>, a: Option<Txn>, d: Option<Txn>)
    requires TasksOk(ts, n, old_) && k in us && us == ts[k := us[k]] && !Acts(ts, k)
    requires us[k].Applies? && us[k].serial == n
    requires a.Some? && a.value.change.serial == n && a.value.change.opId == us[k].req.opId
    requires forall l | Acts(ts, l) :: OpOf(ts[l]) != us[k].req.opId
    ensures TasksOk(us, n + 1, a) && StagesOk(us, a, d)
  {
    assert forall l | Acts(us, l) && l != k :: Acts(ts, l) && us[l] == ts[l];
    assert forall l | Drv(us, l) :: Acts(ts, l) && us[l] == ts[l];
  }

  lemma InstalledWrites(h: History, l: Link, ts: Tasks, us: Tasks, k: nat)
    requires PastOk(h) && ChainOk(h.chain + [l]) && ToWriteOk(h, ts)
    requires forall s: nat | s < |h.chain| :: RootBefore(h.chain + [l], s) == RootBefore(h.chain, s)
    requires k in us && us == ts[k := us[k]] && us[k].Applies? && us[k].serial == |h.chain|
    ensures ToWriteOk(h.(chain := h.chain + [l]), us)
  {
    assert forall m | MaySend(us, m) :: MaySend(ts, m) && us[m] == ts[m];
  }

  lemma InstalledOnce(h: History, us: Tasks, t: Txn)
    requires PastOk(h) && t.change.serial == |h.chain|
    ensures OnceOk(h.rolledBack, us, Some(t), Some(t))
  {
  }

  // ---- requests ---------------------------------------------------------------------------

  lemma AskedKeeps(w: World, st: St)
    requires Inv(w) && w.up
    requires st == w.st || Moves(w.st, st)
    ensures Inv(w.(st := st))
  {
    hide TasksOk, StagesOk, PastOk, ToWriteOk, OnceOk;
    if st != w.st {
      MoveKeeps(w, st);
    }
  }

  lemma RevertKeeps(w: World, k: nat, op: string)
    requires Inv(w) && w.up && k !in w.tasks
    ensures Inv(w.(st := RevertNow(w.st, op))) && Inv(DoAskKeep(w, k, op))
  {
    hide TasksOk, StagesOk, PastOk, ToWriteOk, OnceOk, RevertNow, KeepNow, Moves;
    if Live(w.st, op) {
      AskMoves(w.st, op);
    } else {
      AskUnknown(w.st, op);
    }
    AskedKeeps(w, RevertNow(w.st, op));
    AskedKeeps(w, KeepNow(w.st, op));
    BecomesKeeps(w.(st := KeepNow(w.st, op)), k, Kick);
  }

  lemma AskUnknown(st: St, op: string)
    requires !Live(st, op)
    ensures RevertNow(st, op) == st && KeepNow(st, op) == st
  {
  }

  lemma InterruptKeeps(w: World, why: Reason)
    requires Inv(w) && w.up && Interrupting(why)
    ensures Inv(w.(st := Interrupt(w.st, why)))
  {
    hide TasksOk, StagesOk, PastOk, ToWriteOk, OnceOk, Moves;
    if w.st.active.Some? {
      InterruptMoves(w.st, why);
    }
    AskedKeeps(w, Interrupt(w.st, why));
  }

  lemma SafetyWriteKeeps(w: World)
    requires Inv(w) && w.up
    ensures Inv(w.(st := Preempt(w.st)))
  {
    hide TasksOk, StagesOk, PastOk, ToWriteOk, OnceOk, Sound;
    InterruptKeeps(w, Preempted);
    SidelineKeeps(w.(st := Interrupt(w.st, Preempted)), w.(st := Preempt(w.st)));
  }

  lemma AskKeeps(w: World, k: nat, s: AskStep)
    requires Inv(w) && w.up && k !in w.tasks
    ensures Inv(DoAsk(w, k, s))
  {
    hide Inv, DoAskKeep, RevertNow, Preempt, Interrupt;
    match s
    case AskRevert(op) => RevertKeeps(w, k, op);
    case AskKeep(op) => RevertKeeps(w, k, op);
    case SafetyWrite => SafetyWriteKeeps(w);
    case OtherWrite(source) =>
      InterruptKeeps(w, OtherChange);
      BecomesKeeps(w.(st := Interrupt(w.st, OtherChange)), k, Kick);
    case Gate(item) =>
      InterruptKeeps(w, Superseded);
      assert GateLegacy(w.st, item).0 == w.st || GateLegacy(w.st, item).0 == Interrupt(w.st, Superseded);
  }

  // ---- queue and sessions ----------------------------------------------------------------

  /** A step of the queue or of a session: the state moves aside, then one loose
      task starts, ends or goes on. */
  lemma AsideKeeps(w: World, v: World, k: nat)
    requires Inv(w) && w.up && v.up && v.past == w.past
    requires v.st.active == w.st.active && v.st.disk == w.st.disk
    requires !(v.st.active.Some? && v.st.session.Some?)
    requires v.tasks == w.tasks || Loosens(w.tasks, v.tasks, k)
    ensures Inv(v)
  {
    hide TasksOk, StagesOk, PastOk, ToWriteOk, OnceOk, Loosens, Sound;
    if v.tasks == w.tasks {
      SidelineKeeps(w, v);
    } else {
      SidelineKeeps(w, v.(tasks := w.tasks));
      LooseKeeps(v.(tasks := w.tasks), v, k);
    }
  }

  lemma MemoryOf(w: World)
    requires Inv(w)
    ensures !(w.st.active.Some? && w.st.session.Some?)
  {
  }

  lemma QueueKeeps(w: World, k: nat, s: QueueStep)
    requires Inv(w) && w.up && CanQueue(w, k, s)
    ensures Inv(DoQueue(w, k, s))
  {
    hide Inv, WithoutItem, FreshOnly, HasItem;
    MemoryOf(w);
    AsideKeeps(w, DoQueue(w, k, s), k);
  }

  lemma OpenKeeps(w: World, k: nat, id: string, source: Source)
    requires Inv(w) && w.up && k !in w.tasks
    ensures Inv(DoOpen(w, k, id, source))
  {
    hide Inv;
    MemoryOf(w);
    AsideKeeps(w, DoOpen(w, k, id, source), k);
  }

  lemma CloseKeeps(w: World, k: nat, id: string)
    requires Inv(w) && w.up && k !in w.tasks
    ensures Inv(DoClose(w, k, id)) && Inv(w.(st := RenewSession(w.st, id, w.around.now)))
  {
    hide Inv;
    MemoryOf(w);
    AsideKeeps(w, DoClose(w, k, id), k);
    AsideKeeps(w, w.(st := RenewSession(w.st, id, w.around.now)), k);
  }

  lemma WatchKeeps(w: World, k: nat)
    requires Inv(w) && w.up && CanSession(w, k, Watch)
    ensures Inv(DoWatch(w, k))
  {
    hide Inv;
    MemoryOf(w);
    AsideKeeps(w, DoWatch(w, k), k);
  }

  lemma SessionKeeps(w: World, k: nat, s: SessionStep)
    requires Inv(w) && w.up && CanSession(w, k, s)
    ensures Inv(DoSession(w, k, s))
  {
    hide Inv, DoOpen, DoClose, DoWatch, RenewSession;
    match s
    case Open(id, source) => OpenKeeps(w, k, id, source);
    case Renew(id) => CloseKeeps(w, k, id);
    case Close(id) => CloseKeeps(w, k, id);
    case Watch => WatchKeeps(w, k);
  }

  // ---- crashes, reboots and starts -------------------------------------------------------------

  lemma DeadKeeps(w: World, around: Around)
    requires Inv(w)
    ensures Inv(Dead(w).(around := around))
  {
  }

  lemma BootKeeps(w: World)
    requires Inv(w) && !w.up
    ensures Inv(DoBoot(w))
  {
    hide TasksOk, StagesOk, OnceOk;
    var v := DoBoot(w);
    if w.st.disk.Some? {
      var d := w.st.disk.value;
      ResumeLaws(d, w.around.boot, w.around.now);
      HandleKeepsSound(d, Cancels(Takeover));
      BootedMemory(w, v);
      BootedTasks(v.tasks, w.past, v.st.active);
      assert OnceOk(w.past.rolledBack, v.tasks, v.st.active, v.st.disk) by {
        OnceOnDisk(w);
        BootedOnce(w.past.rolledBack, v.tasks, d, v.st.active, v.st.disk);
      }
    } else {
      BootedTasks(v.tasks, w.past, None);
      BootedNothing(w.past.rolledBack, v.tasks);
    }
  }

  lemma OnceOnDisk(w: World)
    requires Inv(w) && w.st.disk.Some?
    ensures w.past.rolledBack[w.st.disk.value.change.serial] > 0 ==> w.st.disk.value.phase.RollingBack?
  {
  }

  lemma BootedMemory(w: World, v: World)
    requires MemoryOk(w) && !w.up && w.st.disk.Some? && v == DoBoot(w)
    requires Sound(w.st.disk.value.Resume(w.around.boot, w.around.now))
    requires w.st.disk.value.Resume(w.around.boot, w.around.now).change == w.st.disk.value.change
    requires Follows(w.st.disk.value, w.st.disk.value.Resume(w.around.boot, w.around.now))
    ensures MemoryOk(v)
    ensures v.st.active.Some? ==>
              && v.st.disk == v.st.active
              && v.st.active.value == w.st.disk.value.Resume(w.around.boot, w.around.now)
  {
    hide Sound, Txn.Resume;
  }

  lemma BootedTasks(us: Tasks, h: History, a: Option<Txn>)
    requires PastOk(h)
    requires a.None? ==> us == map[]
    requires a.Some? ==> && us == map[0 := Drives(a.value.change.opId, a.value.change.serial, Top)]
                         && a.value.change.serial < |h.chain|
    ensures TasksOk(us, |h.chain|, a) && StagesOk(us, a, a) && ToWriteOk(h, us)
  {
    assert forall k | MaySend(us, k) :: false;
    BootedAlone(us, |h.chain|, a);
  }

  lemma BootedAlone(us: Tasks, n: nat, a: Option<Txn>)
    requires a.None? ==> us == map[]
    requires a.Some? ==> && us == map[0 := Drives(a.value.change.opId, a.value.change.serial, Top)]
                         && a.value.change.serial < n
    ensures TasksOk(us, n, a) && StagesOk(us, a, a)
  {
    assert forall k | Acts(us, k) :: k == 0 && a.Some?;
  }

  lemma BootedOnce(rolled: multiset<nat>, us: Tasks, was: Txn, a: Option<Txn>, d: Option<Txn>)
    requires d == a
    requires a.Some? ==> a.value.change == was.change
    requires a.Some? && was.phase.RollingBack? ==> a.value.phase.RollingBack? && a.value.intent.None?
    requires rolled[was.change.serial] > 0 ==> was.phase.RollingBack?
    ensures OnceOk(rolled, us, a, d)
  {
  }

  lemma BootedNothing(rolled: multiset<nat>, us: Tasks)
    ensures OnceOk(rolled, us, None, None) && StagesOk(us, None, None)
  {
  }
}
