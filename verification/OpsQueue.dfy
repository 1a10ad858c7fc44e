/** The queue of old requests, over every run and every interleaving: at most one
    entry per item, in order of arrival; at most one drainer; and while it holds
    anything, some task is going to look at it, so no request is stranded. */
module OpsQueue {
  import opened Common
  import opened OpsTxn
  import opened OpsState
  import opened OpsStateLaws
  import opened OpsProtocol
  import OpsSafety

  /** A drainer that has the flag. */
  predicate Holder(t: Task) { t.Drains? && (t.at.Looks? || t.at.FoundNone? || t.at.Runs?) }

  predicate Acting(t: Task) { t.Applies? || t.Drives? }

  predicate ActsOn(t: Task, op: string) {
    (t.Applies? && t.req.opId == op) || (t.Drives? && t.op == op)
  }

  /** Runs on to a look at the queue: a pending kick, a drainer at any point, and
      the submits, drivers and watchers, whose last act is a kick. */
  predicate Looker(t: Task) { t.Kick? || t.Drains? || Acting(t) || t.Watches? }

  /** One entry per item, in order of arrival; a request that is being run is
      older than all that wait. */
  ghost predicate OrderOk(ts: Tasks, q: seq<LegacyReq>, arrivals: nat) {
    && (forall i :: 0 <= i < |q| ==> q[i].arrival < arrivals)
    && (forall i, j :: 0 <= i < j < |q| ==> q[i].arrival < q[j].arrival && q[i].item != q[j].item)
    && (forall k | k in ts && ts[k].Drains? && ts[k].at.Runs? ::
          && ts[k].at.req.arrival < arrivals
          && forall i :: 0 <= i < |q| ==> ts[k].at.req.arrival < q[i].arrival)
  }

  /** The flag is up exactly while one drainer has it. */
  ghost predicate FlagOk(ts: Tasks, draining: bool) {
    && (draining ==> exists k :: k in ts && Holder(ts[k]))
    && (!draining ==> forall k | k in ts :: !Holder(ts[k]))
    && (forall k, l | k in ts && l in ts && Holder(ts[k]) && Holder(ts[l]) :: k == l)
  }

  /** Whatever holds the lock has a task that will end by kicking the queue. */
  ghost predicate OwnersOk(ts: Tasks, active: Option<Txn>, session: Option<Session>) {
    && (active.Some? ==> exists k :: k in ts && ActsOn(ts[k], active.value.change.opId))
    && (session.Some? ==> exists k :: k in ts && ts[k] == Watches(session.value.id))
  }

  ghost predicate LookersOk(ts: Tasks, q: seq<LegacyReq>) {
    q != [] ==> exists k :: k in ts && Looker(ts[k])
  }

  ghost predicate QueueInv(w: World) {
    && OrderOk(w.tasks, w.st.legacy, w.arrivals)
    && FlagOk(w.tasks, w.draining)
    && OwnersOk(w.tasks, w.st.active, w.st.session)
    && LookersOk(w.tasks, w.st.legacy)
    && (!w.up ==> w.st == Empty(w.st.disk) && w.tasks == map[] && !w.draining)
  }

  // ---- the queue operations keep the order ------------------------------------------------

  lemma EnqueueKeepsOrder(ts: Tasks, us: Tasks, k: nat, q: seq<LegacyReq>, arrivals: nat, r: LegacyReq)
    requires OrderOk(ts, q, arrivals) && r.arrival == arrivals && us == ts[k := Kick]
    ensures OrderOk(us, WithoutItem(q, r.item) + [r], arrivals + 1)
  {
    WithoutItemLaws(q, r.item);
    WithoutItemExact(q, r.item);
    var p := WithoutItem(q, r.item);
    assert forall i :: 0 <= i < |p| ==> p[i] in q;
    assert forall l | l in us && us[l].Drains? :: l in ts && us[l] == ts[l];
  }

  lemma PopKeepsOrder(ts: Tasks, us: Tasks, k: nat, q: seq<LegacyReq>, p: seq<LegacyReq>, arrivals: nat)
    requires OrderOk(ts, q, arrivals) && FlagOk(ts, true) && Ordered(p) && Within(p, q) && p != []
    requires k in ts && Holder(ts[k]) && us == ts[k := Drains(Runs(p[0]))]
    ensures OrderOk(us, p[1..], arrivals)
  {
    assert forall l | l in us && l != k && Holder(us[l]) :: l in ts && Holder(ts[l]);
    assert forall i :: 0 <= i < |p[1..]| ==> p[1..][i] == p[i + 1];
    assert forall i :: 0 <= i < |p| ==> p[i] in q;
  }

  lemma PutBackKeepsOrder(ts: Tasks, us: Tasks, k: nat, st: St, arrivals: nat, accepted: bool)
    requires OrderOk(ts, st.legacy, arrivals) && k in ts && ts[k].Drains? && ts[k].at.Runs?
    requires us == ts[k := Drains(Looks)]
    requires FlagOk(ts, true)
    ensures OrderOk(us, if accepted then st.legacy else PutBack(st, ts[k].at.req).legacy, arrivals)
  {
    assert Holder(ts[k]);
    assert forall l | l in us && us[l].Drains? && us[l].at.Runs? :: l != k && Holder(ts[l]);
  }

  /** Fewer runners and the same queue, or an empty one. */
  lemma KeepsOrder(ts: Tasks, us: Tasks, q: seq<LegacyReq>, p: seq<LegacyReq>, arrivals: nat)
    requires OrderOk(ts, q, arrivals) && (p == q || p == [])
    requires forall l | l in us && us[l].Drains? && us[l].at.Runs? :: l in ts && us[l] == ts[l]
    ensures OrderOk(us, p, arrivals)
  {
  }

  // ---- tasks that start, end and go on -----------------------------------------------------

  lemma FlagUntouched(ts: Tasks, us: Tasks, k: nat, draining: bool)
    requires FlagOk(ts, draining)
    requires us == ts - {k} || (k in us && us == ts[k := us[k]] && !Holder(us[k]))
    requires k !in ts || !Holder(ts[k])
    ensures FlagOk(us, draining)
  {
    if draining {
      var l :| l in ts && Holder(ts[l]);
      assert l in us && Holder(us[l]);
    }
    assert forall l | l in us && Holder(us[l]) :: l in ts && us[l] == ts[l];
  }

  lemma FlagHeld(ts: Tasks, us: Tasks, k: nat)
    requires FlagOk(ts, true) && k in ts && Holder(ts[k])
    requires k in us && us == ts[k := us[k]] && Holder(us[k])
    ensures FlagOk(us, true)
  {
    assert forall l | l in us && l != k :: l in ts && us[l] == ts[l];
  }

  lemma FlagTaken(ts: Tasks, us: Tasks, k: nat)
    requires FlagOk(ts, false) && k in us && us == ts[k := us[k]] && Holder(us[k])
    ensures FlagOk(us, true)
  {
    assert forall l | l in us && l != k :: l in ts && us[l] == ts[l];
  }

  lemma FlagDropped(ts: Tasks, us: Tasks, k: nat)
    requires FlagOk(ts, true) && k in ts && Holder(ts[k])
    requires k in us && us == ts[k := us[k]] && !Holder(us[k])
    ensures FlagOk(us, false)
  {
    assert forall l | l in us && l != k :: l in ts && us[l] == ts[l];
  }

  /** A task may change or end as long as it does not own what still holds the lock. */
  lemma OwnersStay(ts: Tasks, us: Tasks, k: nat, a: Option<Txn>, s: Option<Session>, b: Option<Txn>, r: Option<Session>)
    requires OwnersOk(ts, a, s)
    requires b.Some? ==> a.Some? && b.value.change.opId == a.value.change.opId
    requires r.Some? ==> s.Some? && r.value.id == s.value.id
    requires us == ts || us == ts - {k} || (k in us && us == ts[k := us[k]])
    requires b.Some? && k in ts && ActsOn(ts[k], b.value.change.opId) ==>
               us == ts || (k in us && ActsOn(us[k], b.value.change.opId))
    requires r.Some? && k in ts && ts[k] == Watches(r.value.id) ==>
               us == ts || (k in us && us[k] == ts[k])
    ensures OwnersOk(us, b, r)
  {
    if b.Some? {
      var l :| l in ts && ActsOn(ts[l], a.value.change.opId);
      assert l in us && ActsOn(us[l], b.value.change.opId);
    }
    if r.Some? {
      var l :| l in ts && ts[l] == Watches(s.value.id);
      assert l in us && us[l] == Watches(r.value.id);
    }
  }

  lemma LookersStay(ts: Tasks, us: Tasks, k: nat, q: seq<LegacyReq>, p: seq<LegacyReq>)
    requires LookersOk(ts, q) && (p != [] ==> q != [])
    requires us == ts || us == ts - {k} || (k in us && us == ts[k := us[k]])
    requires us == ts || k !in ts || !Looker(ts[k]) || (k in us && Looker(us[k]))
    ensures LookersOk(us, p)
  {
    if p != [] {
      var l :| l in ts && Looker(ts[l]);
      assert l in us && Looker(us[l]);
    }
  }

  lemma LookerHere(us: Tasks, k: nat, p: seq<LegacyReq>)
    requires k in us && Looker(us[k])
    ensures LookersOk(us, p)
  {
  }

  // ---- what the lock sections do to owner, session and queue ------------------------------------

  /** The same transaction or none, the same session, the same queue or an empty one. */
  predicate Calm(a: St, b: St) {
    && (b.active.Some? ==> a.active.Some? && b.active.value.change == a.active.value.change)
    && b.session == a.session && (b.legacy == a.legacy || b.legacy == [])
  }

  lemma TickCalm(t: Txn, now: nat)
    ensures t.OnTick(now).change == t.change
  {
  }

  lemma ReadingCalm(t: Txn, r: Reading, now: nat)
    ensures t.OnReading(r, now).change == t.change
  {
    hide Txn.Judge, Txn.NoteProbe;
  }

  lemma FeedCalm(st: St, op: string, gen: nat, r: Option<Reading>, now: nat)
    ensures Calm(st, Feed(st, op, gen, r, now))
  {
    hide Txn.OnReading, Txn.OnTick;
    if st.active.Some? {
      TickCalm(st.active.value, now);
      if r.Some? {
        ReadingCalm(st.active.value, r.value, now);
      }
    }
  }

  lemma WritesCalm(st: St, op: string, outcome: Applied, now: nat)
    ensures Calm(st, RecordWrite(st, op, outcome, now)) && Calm(st, SaveIntent(st, op))
    ensures Calm(st, RecordRollback(st, op, now))
  {
  }

  lemma AsksCalm(st: St, op: string, why: Reason)
    ensures Calm(st, RevertNow(st, op)) && Calm(st, KeepNow(st, op)) && Calm(st, Interrupt(st, why))
  {
  }

  /** A step that leaves the queue alone: one task goes on, and if it acted for
      the live transaction it still does. */
  lemma CalmStep(w: World, v: World, k: nat)
    requires QueueInv(w) && w.up && v.up && Calm(w.st, v.st)
    requires v.draining == w.draining && v.arrivals == w.arrivals
    requires v.tasks == w.tasks || (k in v.tasks && v.tasks == w.tasks[k := v.tasks[k]])
    requires v.tasks != w.tasks ==>
               && !v.tasks[k].Drains?
               && (k in w.tasks ==> !Holder(w.tasks[k]) && !w.tasks[k].Watches?)
               && (k in w.tasks && Looker(w.tasks[k]) ==> Looker(v.tasks[k]))
               && (v.st.active.Some? && k in w.tasks && ActsOn(w.tasks[k], v.st.active.value.change.opId)
                   ==> ActsOn(v.tasks[k], v.st.active.value.change.opId))
    ensures QueueInv(v)
  {
    hide OrderOk, FlagOk, OwnersOk, LookersOk;
    KeepsOrder(w.tasks, v.tasks, w.st.legacy, v.st.legacy, w.arrivals);
    if v.tasks != w.tasks {
      FlagUntouched(w.tasks, v.tasks, k, w.draining);
    }
    OwnersStay(w.tasks, v.tasks, k, w.st.active, w.st.session, v.st.active, v.st.session);
    LookersStay(w.tasks, v.tasks, k, w.st.legacy, v.st.legacy);
  }

  // ---- the steps ------------------------------------------------------------------------------

  lemma SubmitQueue(w: World, k: nat, s: SubmitStep)
    requires QueueInv(w) && w.up && CanSubmit(w, k, s) && !s.Captured? && !s.CaptureFailed?
    ensures QueueInv(DoSubmit(w, k, s))
  {
    hide QueueInv, RecordWrite, Clear;
    if s.ApplyRecord? {
      WritesCalm(w.st, w.tasks[k].req.opId, w.tasks[k].wrote.value, w.around.now);
    }
    CalmStep(w, DoSubmit(w, k, s), k);
  }

  lemma EndsQuietly(w: World, k: nat)
    requires QueueInv(w) && w.up && k in w.tasks && w.tasks[k].Submitting?
    ensures QueueInv(Ends(w, k))
  {
    hide OrderOk, FlagOk, OwnersOk, LookersOk;
    var us := Ends(w, k).tasks;
    KeepsOrder(w.tasks, us, w.st.legacy, w.st.legacy, w.arrivals);
    FlagUntouched(w.tasks, us, k, w.draining);
    OwnersStay(w.tasks, us, k, w.st.active, w.st.session, w.st.active, w.st.session);
    LookersStay(w.tasks, us, k, w.st.legacy, w.st.legacy);
  }

  lemma CapturedQueue(w: World, k: nat, before: string, sim: SimId, conn: Option<Conn>)
    requires QueueInv(w) && w.up && CanSubmit(w, k, Captured(before, sim, conn))
    ensures QueueInv(DoCaptured(w, k, before, sim, conn))
  {
    hide OrderOk, FlagOk, OwnersOk, LookersOk, Clear, Install;
    var req := w.tasks[k].req;
    if !Clear(w.st, req) {
      EndsQuietly(w, k);
    } else {
      var v := DoCaptured(w, k, before, sim, conn);
      InstallAside(w.st, req, |w.past.chain|, before, sim, conn, w.around.rollback, w.around.boot, w.around.now);
      KeepsOrder(w.tasks, v.tasks, w.st.legacy, v.st.legacy, w.arrivals);
      FlagUntouched(w.tasks, v.tasks, k, w.draining);
      OwnerHere(v.tasks, k, v.st.active);
      LookerHere(v.tasks, k, v.st.legacy);
    }
  }

  lemma InstallAside(st: St, req: Request, serial: nat, before: string, sim: SimId,
                     conn: Option<Conn>, rollback: bool, boot: string, now: nat)
    requires Clear(st, req)
    ensures var u := Install(st, req, serial, before, sim, conn, rollback, boot, now);
            && u.active.Some? && u.active.value.change.opId == req.opId
            && u.session.None? && u.legacy == st.legacy
  {
  }

  lemma OwnerHere(us: Tasks, k: nat, a: Option<Txn>)
    requires a.Some? ==> k in us && ActsOn(us[k], a.value.change.opId)
    ensures OwnersOk(us, a, None)
  {
  }

  lemma RollQueue(w: World, k: nat, s: RollbackStep)
    requires QueueInv(w) && w.up && CanRoll(w, k, s)
    ensures QueueInv(DoRoll(w, k, s))
  {
    hide QueueInv, DoDriveTop, DoRollbackSave, DoRollbackCheck, DoRollbackRecord;
    match s
    case DriveTop => DriveTopQueue(w, k);
    case RollbackSave => RollbackSaveQueue(w, k);
    case RollbackCheck(check) => RollbackCheckQueue(w, k, check);
    case RollbackWrite => CalmStep(w, DoRollbackWrite(w, k), k);
    case RollbackRecord => RollbackRecordQueue(w, k);
  }

  lemma DriveTopQueue(w: World, k: nat)
    requires QueueInv(w) && w.up && Drv(w.tasks, k)
    ensures QueueInv(DoDriveTop(w, k))
  {
    hide QueueInv;
    CalmStep(w, DoDriveTop(w, k), k);
  }

  lemma RollbackSaveQueue(w: World, k: nat)
    requires QueueInv(w) && w.up && CanRoll(w, k, RollbackSave)
    ensures QueueInv(DoRollbackSave(w, k))
  {
    hide QueueInv, SaveIntent;
    WritesCalm(w.st, w.tasks[k].op, Applied.Done, w.around.now);
    CalmStep(w, DoRollbackSave(w, k), k);
  }

  lemma RollbackCheckQueue(w: World, k: nat, check: SimCheck)
    requires QueueInv(w) && w.up && CanRoll(w, k, RollbackCheck(check))
    ensures QueueInv(DoRollbackCheck(w, k, check))
  {
    hide QueueInv, Interrupt;
    AsksCalm(w.st, w.tasks[k].op, SimChanged);
    CalmStep(w, DoRollbackCheck(w, k, check), k);
  }

  lemma RollbackRecordQueue(w: World, k: nat)
    requires QueueInv(w) && w.up && CanRoll(w, k, RollbackRecord)
    ensures QueueInv(DoRollbackRecord(w, k))
  {
    hide QueueInv, RecordRollback;
    WritesCalm(w.st, w.tasks[k].op, Applied.Done, w.around.now);
    CalmStep(w, DoRollbackRecord(w, k), k);
  }

  lemma ReadQueue(w: World, k: nat, s: ReadStep)
    requires QueueInv(w) && w.up && CanRead(w, k, s)
    ensures QueueInv(DoRead(w, k, s))
  {
    hide QueueInv, Feed, Txn.WantsProbe;
    if s.FeedIn? {
      FeedCalm(w.st, w.tasks[k].op, w.tasks[k].stage.gen, w.tasks[k].stage.got, w.around.now);
    }
    CalmStep(w, DoRead(w, k, s), k);
  }

  lemma AskQueue(w: World, k: nat, s: AskStep)
    requires QueueInv(w) && w.up && k !in w.tasks
    ensures QueueInv(DoAsk(w, k, s))
  {
    hide QueueInv, Interrupt, RevertNow, KeepNow;
    match s {
      case AskRevert(op) => AsksCalm(w.st, op, Preempted);
      case AskKeep(op) => AsksCalm(w.st, op, Preempted);
      case SafetyWrite => AsksCalm(w.st, "", Preempted);
      case OtherWrite(_) => AsksCalm(w.st, "", OtherChange);
      case Gate(_) => AsksCalm(w.st, "", Superseded);
    }
    CalmStep(w, DoAsk(w, k, s), k);
  }

  // ---- the queue's own steps --------------------------------------------------------------------

  lemma EnqueueQueue(w: World, k: nat, r: LegacyReq)
    requires QueueInv(w) && w.up && k !in w.tasks && r.arrival == w.arrivals
    ensures QueueInv(DoEnqueue(w, k, r))
  {
    hide OrderOk, FlagOk, OwnersOk, LookersOk, WithoutItem;
    var us := DoEnqueue(w, k, r).tasks;
    EnqueueKeepsOrder(w.tasks, us, k, w.st.legacy, w.arrivals, r);
    FlagUntouched(w.tasks, us, k, w.draining);
    OwnersStay(w.tasks, us, k, w.st.active, w.st.session, w.st.active, w.st.session);
    LookerHere(us, k, Queued(w.st, r).legacy);
  }

  lemma ClearKeepsQueue(w: World)
    requires QueueInv(w) && w.up
    ensures QueueInv(w.(st := w.st.(legacy := [])))
  {
    hide QueueInv;
    CalmStep(w, w.(st := w.st.(legacy := [])), 0);
  }

  /** A kick or a second try for the flag: it is taken, or someone else has it. */
  lemma GrabQueue(w: World, k: nat)
    requires QueueInv(w) && w.up && k in w.tasks
    requires w.tasks[k].Kick? || w.tasks[k] == Drains(SawMore)
    ensures QueueInv(Grab(w, k))
  {
    hide OrderOk, OwnersOk, LookersOk;
    var v := Grab(w, k);
    KeepsOrder(w.tasks, v.tasks, w.st.legacy, w.st.legacy, w.arrivals);
    OwnersStay(w.tasks, v.tasks, k, w.st.active, w.st.session, w.st.active, w.st.session);
    if w.draining {
      var l :| l in w.tasks && Holder(w.tasks[l]);
      FlagUntouched(w.tasks, v.tasks, k, true);
      LookerHere(v.tasks, l, w.st.legacy);
    } else {
      FlagTaken(w.tasks, v.tasks, k);
      LookerHere(v.tasks, k, w.st.legacy);
    }
  }

  /** A drainer that holds the flag goes on. */
  lemma HolderGoesOn(w: World, v: World, k: nat)
    requires QueueInv(w) && w.up && v.up && k in w.tasks && Holder(w.tasks[k])
    requires k in v.tasks && v.tasks == w.tasks[k := v.tasks[k]] && v.tasks[k].Drains?
    requires v.draining == Holder(v.tasks[k])
    requires v.st.active == w.st.active && v.st.session == w.st.session
    requires OrderOk(v.tasks, v.st.legacy, v.arrivals)
    ensures QueueInv(v)
  {
    hide OrderOk, OwnersOk, LookersOk;
    assert w.draining;
    if Holder(v.tasks[k]) {
      FlagHeld(w.tasks, v.tasks, k);
    } else {
      FlagDropped(w.tasks, v.tasks, k);
    }
    OwnersStay(w.tasks, v.tasks, k, w.st.active, w.st.session, v.st.active, v.st.session);
    LookerHere(v.tasks, k, v.st.legacy);
  }

  lemma HolderHasFlag(w: World, k: nat)
    requires QueueInv(w) && k in w.tasks && Holder(w.tasks[k])
    ensures w.draining
  {
  }

  lemma DrainLookQueue(w: World, k: nat)
    requires QueueInv(w) && w.up && CanQueue(w, k, DrainLook)
    ensures QueueInv(DoDrainLook(w, k))
  {
    hide FlagOk, OwnersOk, LookersOk;
    var v := DoDrainLook(w, k);
    HolderHasFlag(w, k);
    var q := w.st.legacy;
    assert OrderOk(v.tasks, v.st.legacy, v.arrivals) by {
      var p := FreshOnly(q, w.around.now, w.around.ttl);
      FreshOnlyLaws(q, w.around.now, w.around.ttl);
      if Idle(w.st) && p != [] {
        hide OrderOk, Ordered, Within, FreshOnly;
        PopKeepsOrder(w.tasks, v.tasks, k, q, p, w.arrivals);
      } else {
        hide OrderOk, Ordered, Within, FreshOnly;
        KeepsOrder(w.tasks, v.tasks, q, v.st.legacy, w.arrivals);
      }
    }
    hide OrderOk, FreshOnly;
    HolderGoesOn(w, v, k);
  }

  lemma DrainLowerQueue(w: World, k: nat)
    requires QueueInv(w) && w.up && CanQueue(w, k, DrainLower)
    ensures QueueInv(DoQueue(w, k, DrainLower))
  {
    hide OrderOk, FlagOk, OwnersOk, LookersOk;
    var v := Becomes(w.(draining := false), k, Drains(FlagDown));
    HolderHasFlag(w, k);
    KeepsOrder(w.tasks, v.tasks, w.st.legacy, v.st.legacy, w.arrivals);
    HolderGoesOn(w, v, k);
  }

  lemma DrainRanQueue(w: World, k: nat, accepted: bool)
    requires QueueInv(w) && w.up && CanQueue(w, k, DrainRan(accepted))
    ensures QueueInv(DoDrainRan(w, k, accepted))
  {
    hide OrderOk, FlagOk, OwnersOk, LookersOk;
    var v := DoDrainRan(w, k, accepted);
    HolderHasFlag(w, k);
    PutBackKeepsOrder(w.tasks, v.tasks, k, w.st, w.arrivals, accepted);
    HolderGoesOn(w, v, k);
  }

  /** The flag is down and the drainer looks once more: it stays, or the lock has
      an owner that will kick, or nothing waits. */
  lemma DrainRecheckQueue(w: World, k: nat)
    requires QueueInv(w) && w.up && CanQueue(w, k, DrainRecheck)
    ensures QueueInv(DoDrainRecheck(w, k))
  {
    hide OrderOk, FlagOk, LookersOk;
    var v := DoDrainRecheck(w, k);
    KeepsOrder(w.tasks, v.tasks, w.st.legacy, w.st.legacy, w.arrivals);
    FlagUntouched(w.tasks, v.tasks, k, w.draining);
    OwnersStay(w.tasks, v.tasks, k, w.st.active, w.st.session, w.st.active, w.st.session);
    if Idle(w.st) && w.st.legacy != [] {
      LookerHere(v.tasks, k, w.st.legacy);
    } else if w.st.active.Some? {
      var l :| l in v.tasks && ActsOn(v.tasks[l], w.st.active.value.change.opId);
      LookerHere(v.tasks, l, w.st.legacy);
    } else if w.st.session.Some? {
      var l :| l in v.tasks && v.tasks[l] == Watches(w.st.session.value.id);
      LookerHere(v.tasks, l, w.st.legacy);
    } else {
      NothingWaits(v.tasks);
    }
  }

  lemma NothingWaits(us: Tasks)
    ensures LookersOk(us, [])
  {
  }

  lemma QueueQueue(w: World, k: nat, s: QueueStep)
    requires QueueInv(w) && w.up && CanQueue(w, k, s)
    ensures QueueInv(DoQueue(w, k, s))
  {
    hide QueueInv, DoEnqueue, DoDrainLook, DoDrainRan, DoDrainRecheck, Grab;
    match s
    case Enqueue(item, action, params) =>
      EnqueueQueue(w, k, LegacyReq(item, action, params, w.around.now, w.arrivals));
    case ClearQueue => ClearKeepsQueue(w);
    case KickRun => GrabQueue(w, k);
    case DrainLook => DrainLookQueue(w, k);
    case DrainLower => DrainLowerQueue(w, k);
    case DrainRecheck => DrainRecheckQueue(w, k);
    case DrainRegrab => GrabQueue(w, k);
    case DrainRan(accepted) => DrainRanQueue(w, k, accepted);
  }

  // ---- sessions and restarts ----------------------------------------------------------------------

  /** A session may end or be renewed; the task `k` only turns into a kick or a
      watcher, and a watcher stops only when its session is over. */
  lemma SessionStep(w: World, v: World, k: nat)
    requires QueueInv(w) && w.up && v.up
    requires v.st.active == w.st.active && v.st.legacy == w.st.legacy
    requires v.draining == w.draining && v.arrivals == w.arrivals
    requires v.tasks == w.tasks || (k in v.tasks && v.tasks == w.tasks[k := v.tasks[k]])
    requires v.tasks != w.tasks ==> && (v.tasks[k].Kick? || v.tasks[k].Watches?)
                                    && (k in w.tasks ==> w.tasks[k].Watches?)
    requires v.st.session.Some? ==>
               || (k in v.tasks && v.tasks[k] == Watches(v.st.session.value.id))
               || (&& w.st.session.Some? && w.st.session.value.id == v.st.session.value.id
                   && (v.tasks == w.tasks || k !in w.tasks || w.tasks[k] != Watches(v.st.session.value.id)))
    ensures QueueInv(v)
  {
    hide OrderOk, FlagOk, LookersOk;
    KeepsOrder(w.tasks, v.tasks, w.st.legacy, v.st.legacy, w.arrivals);
    if v.tasks != w.tasks {
      FlagUntouched(w.tasks, v.tasks, k, w.draining);
    }
    LookersStay(w.tasks, v.tasks, k, w.st.legacy, v.st.legacy);
    if v.st.active.Some? {
      var l :| l in w.tasks && ActsOn(w.tasks[l], v.st.active.value.change.opId);
      assert l in v.tasks && ActsOn(v.tasks[l], v.st.active.value.change.opId);
    }
    if v.st.session.Some? && !(k in v.tasks && v.tasks[k] == Watches(v.st.session.value.id)) {
      var l :| l in w.tasks && w.tasks[l] == Watches(v.st.session.value.id);
      assert l in v.tasks && v.tasks[l] == Watches(v.st.session.value.id);
    }
  }

  lemma SessionQueue(w: World, k: nat, s: SessionStep)
    requires QueueInv(w) && w.up && CanSession(w, k, s)
    ensures QueueInv(DoSession(w, k, s))
  {
    hide QueueInv, DoOpen, DoClose, DoWatch;
    match s
    case Open(id, source) => OpenQueue(w, k, id, source);
    case Renew(id) => SessionStep(w, w.(st := RenewSession(w.st, id, w.around.now)), k);
    case Close(id) => CloseQueue(w, k, id);
    case Watch => WatchQueue(w, k);
  }

  lemma OpenQueue(w: World, k: nat, id: string, source: Source)
    requires QueueInv(w) && w.up && k !in w.tasks
    ensures QueueInv(DoOpen(w, k, id, source))
  {
    hide QueueInv;
    SessionStep(w, DoOpen(w, k, id, source), k);
  }

  lemma CloseQueue(w: World, k: nat, id: string)
    requires QueueInv(w) && w.up && k !in w.tasks
    ensures QueueInv(DoClose(w, k, id))
  {
    hide QueueInv;
    SessionStep(w, DoClose(w, k, id), k);
  }

  lemma WatchQueue(w: World, k: nat)
    requires QueueInv(w) && w.up && CanSession(w, k, Watch)
    ensures QueueInv(DoWatch(w, k))
  {
    hide QueueInv;
    SessionStep(w, DoWatch(w, k), k);
  }

  lemma BootQueue(w: World)
    requires QueueInv(w) && !w.up
    ensures QueueInv(DoBoot(w))
  {
    hide Txn.Resume;
    var v := DoBoot(w);
    OwnerHere(v.tasks, 0, v.st.active);
    assert v.st.legacy == [] && v.st.session.None?;
  }

  lemma EnvQueue(w: World, e: EnvStep)
    requires QueueInv(w) && Can(w, Env(e))
    ensures QueueInv(DoEnv(w, e))
  {
    hide DoBoot;
    if e.Boot? {
      hide QueueInv;
      BootQueue(w);
    }
  }

  lemma StepQueue(w: World, s: Step)
    requires QueueInv(w) && Can(w, s)
    ensures QueueInv(Do(w, s))
  {
    hide QueueInv, DoEnv, DoSubmit, DoRoll, DoRead, DoAsk, DoQueue, DoSession;
    match s
    case Env(e) => EnvQueue(w, e);
    case Submits(k, a) => SubmitStepQueue(w, k, a);
    case Rolls(k, a) => RollQueue(w, k, a);
    case Listens(k, a) => ReadQueue(w, k, a);
    case Asks(k, a) => AskQueue(w, k, a);
    case Queues(k, a) => QueueQueue(w, k, a);
    case Sessions(k, a) => SessionQueue(w, k, a);
  }

  lemma SubmitStepQueue(w: World, k: nat, s: SubmitStep)
    requires QueueInv(w) && w.up && CanSubmit(w, k, s)
    ensures QueueInv(DoSubmit(w, k, s))
  {
    hide QueueInv, DoCaptured;
    match s
    case Captured(before, sim, conn) => CapturedQueue(w, k, before, sim, conn);
    case CaptureFailed => EndsQuietly(w, k);
    case _ => SubmitQueue(w, k, s);
  }

  lemma {:induction false} RunQueue(w: World, steps: seq<Step>)
    requires QueueInv(w) && Possible(w, steps)
    ensures QueueInv(After(w, steps))
    decreases |steps|
  {
    hide QueueInv, Do, Can;
    if steps != [] {
      StepQueue(w, steps[0]);
      RunQueue(Do(w, steps[0]), steps[1..]);
    }
  }

  /** In every reachable state the queue holds at most one entry per item in order
      of arrival, at most one drainer has the flag, and if anything waits there is
      a task that runs on to a look at the queue; and whatever holds the lock is
      owned by a task whose last act is such a look. */
  lemma NoRequestStranded(rollback: bool, ttl: nat, boot: string, now: nat, steps: seq<Step>)
    requires Possible(Init(rollback, ttl, boot, now), steps)
    ensures var w := After(Init(rollback, ttl, boot, now), steps); var q := w.st.legacy;
            && (forall i, j :: 0 <= i < j < |q| ==> q[i].arrival < q[j].arrival && q[i].item != q[j].item)
            && (forall k, l | k in w.tasks && l in w.tasks && Holder(w.tasks[k]) && Holder(w.tasks[l]) :: k == l)
            && (q != [] ==> exists k :: k in w.tasks && Looker(w.tasks[k]))
            && (w.st.active.Some? ==> exists k :: k in w.tasks && ActsOn(w.tasks[k], w.st.active.value.change.opId))
            && (w.st.session.Some? ==> exists k :: k in w.tasks && w.tasks[k] == Watches(w.st.session.value.id))
  {
    RunQueue(Init(rollback, ttl, boot, now), steps);
  }

  // ---- how a request leaves the queue ----------------------------------------------------------

  /** The step gives the request to the runner, a newer one of its item comes in, the queue is cleared, or
      the process is gone. */
  predicate Dismissed(w: World, s: Step, r: LegacyReq)
    requires Can(w, s)
  {
    match s
    case Queues(k, DrainLook) =>
      || Do(w, s).tasks == w.tasks[k := Drains(Runs(r))]
      || (w.st.active.None? && w.st.session.None? && Waited(r, w.around.now) >= w.around.ttl)
    case Queues(_, Enqueue(item, _, _)) => item == r.item
    case Queues(_, ClearQueue) => true
    case Asks(_, SafetyWrite) => true
    case Env(e) => e.Crash? || e.Reboot?
    case _ => false
  }

  lemma LeavesByQueue(w: World, k: nat, s: QueueStep, r: LegacyReq)
    requires QueueInv(w) && Can(w, Queues(k, s)) && r in w.st.legacy && r !in DoQueue(w, k, s).st.legacy
    ensures Dismissed(w, Queues(k, s), r)
  {
    hide FreshOnly, WithoutItem, DrainPop;
    if s.DrainLook? { DrainPopExact(w.st, w.around.now, w.around.ttl); }
    if s.Enqueue? { WithoutItemExact(w.st.legacy, s.item); }
  }

  lemma SectionsKeepQueue(st: St, op: string, gen: nat, r: Option<Reading>, outcome: Applied, why: Reason, now: nat)
    ensures Feed(st, op, gen, r, now).legacy == st.legacy && RecordWrite(st, op, outcome, now).legacy == st.legacy
    ensures SaveIntent(st, op).legacy == st.legacy && RecordRollback(st, op, now).legacy == st.legacy
    ensures RevertNow(st, op).legacy == st.legacy && KeepNow(st, op).legacy == st.legacy
    ensures Interrupt(st, why).legacy == st.legacy
  {
    hide Txn.OnReading, Txn.OnTick;
  }

  lemma SubmitsKeepQueue(w: World, k: nat, s: SubmitStep)
    requires w.up && CanSubmit(w, k, s)
    ensures DoSubmit(w, k, s).st.legacy == w.st.legacy
  {
    hide Clear, Install, RecordWrite;
    match s
    case Captured(before, sim, conn) =>
      if Clear(w.st, w.tasks[k].req) {
        InstallAside(w.st, w.tasks[k].req, |w.past.chain|, before, sim, conn,
                     w.around.rollback, w.around.boot, w.around.now);
      }
    case ApplyRecord =>
      SectionsKeepQueue(w.st, w.tasks[k].req.opId, 0, None, w.tasks[k].wrote.value, SimChanged, w.around.now);
    case _ =>
  }

  lemma RollsKeepQueue(w: World, k: nat, s: RollbackStep)
    requires w.up && CanRoll(w, k, s)
    ensures DoRoll(w, k, s).st.legacy == w.st.legacy
  {
    hide SaveIntent, RecordRollback, Interrupt;
    SectionsKeepQueue(w.st, w.tasks[k].op, 0, None, Applied.Done, SimChanged, w.around.now);
  }

  lemma ReadsKeepQueue(w: World, k: nat, s: ReadStep)
    requires w.up && CanRead(w, k, s)
    ensures DoRead(w, k, s).st.legacy == w.st.legacy
  {
    hide Feed, Txn.WantsProbe;
    if s.FeedIn? {
      var g := w.tasks[k].stage;
      SectionsKeepQueue(w.st, w.tasks[k].op, g.gen, g.got, Applied.Done, SimChanged, w.around.now);
    }
  }

  lemma AsksKeepQueue(w: World, k: nat, s: AskStep)
    requires w.up && !s.SafetyWrite?
    ensures DoAsk(w, k, s).st.legacy == w.st.legacy
  {
    hide RevertNow, KeepNow, Interrupt;
    var op := match s case AskRevert(op) => op case AskKeep(op) => op case _ => "";
    SectionsKeepQueue(w.st, op, 0, None, Applied.Done, OtherChange, w.around.now);
    SectionsKeepQueue(w.st, op, 0, None, Applied.Done, Superseded, w.around.now);
  }

  lemma SessionsKeepQueue(w: World, k: nat, s: SessionStep)
    requires w.up && CanSession(w, k, s)
    ensures DoSession(w, k, s).st.legacy == w.st.legacy
  {
    hide SessionOver;
  }

  lemma LeavesByEnv(w: World, e: EnvStep, r: LegacyReq)
    requires QueueInv(w) && Can(w, Env(e)) && r in w.st.legacy && r !in DoEnv(w, e).st.legacy
    ensures Dismissed(w, Env(e), r)
  {
    hide DoBoot, OrderOk, FlagOk, OwnersOk, LookersOk;
  }

  /** In every run, a request leaves the queue only by being handed to the runner, by a newer one of its item,
      by a clear or a safety write, after waiting at least its time while nothing held the lock, or with the process. */
  lemma LeavesOnlySo(rollback: bool, ttl: nat, boot: string, now: nat, steps: seq<Step>, s: Step, r: LegacyReq)
    requires Possible(Init(rollback, ttl, boot, now), steps)
    requires var w := After(Init(rollback, ttl, boot, now), steps);
             Can(w, s) && r in w.st.legacy && r !in Do(w, s).st.legacy
    ensures Dismissed(After(Init(rollback, ttl, boot, now), steps), s, r)
  {
    var w := After(Init(rollback, ttl, boot, now), steps);
    RunQueue(Init(rollback, ttl, boot, now), steps);
    hide QueueInv, DoEnv, DoSubmit, DoRoll, DoRead, DoAsk, DoQueue, DoSession;
    match s
    case Queues(k, a) => LeavesByQueue(w, k, a, r);
    case Submits(k, a) => SubmitsKeepQueue(w, k, a);
    case Rolls(k, a) => RollsKeepQueue(w, k, a);
    case Listens(k, a) => ReadsKeepQueue(w, k, a);
    case Asks(k, a) => if !a.SafetyWrite? { AsksKeepQueue(w, k, a); }
    case Sessions(k, a) => SessionsKeepQueue(w, k, a);
    case Env(e) => LeavesByEnv(w, e, r);
  }

  /** In every run, a look at the queue while nothing holds the lock hands out the oldest request that has not
      waited too long, if there is one, and keeps all others that have not. */
  lemma LookHandsOutOldest(rollback: bool, ttl: nat, boot: string, now: nat, steps: seq<Step>, k: nat)
    requires Possible(Init(rollback, ttl, boot, now), steps)
    requires var w := After(Init(rollback, ttl, boot, now), steps);
             Can(w, Queues(k, DrainLook)) && w.st.active.None? && w.st.session.None?
    ensures var w := After(Init(rollback, ttl, boot, now), steps);
            var v := Do(w, Queues(k, DrainLook));
            && k in v.tasks && v.tasks[k].Drains?
            && (v.tasks[k].at.Runs? <==> exists x :: x in w.st.legacy && Waited(x, w.around.now) < w.around.ttl)
            && (v.tasks[k].at.Runs? ==>
                  var r := v.tasks[k].at.req;
                  && r in w.st.legacy && Waited(r, w.around.now) < w.around.ttl
                  && (forall x | x in w.st.legacy && Waited(x, w.around.now) < w.around.ttl :: r.arrival <= x.arrival)
                  && (forall x | x in w.st.legacy && Waited(x, w.around.now) < w.around.ttl && x != r :: x in v.st.legacy))
  {
    hide FreshOnly, DrainPop;
    RunQueue(Init(rollback, ttl, boot, now), steps);
    var w := After(Init(rollback, ttl, boot, now), steps);
    DrainPopExact(w.st, w.around.now, w.around.ttl);
  }

  /** A request that the runner could not take is back at the front, unless a newer one of its item waits. */
  lemma RefusedIsPutBack(w: World, k: nat)
    requires Can(w, Queues(k, DrainRan(false)))
    ensures var r := w.tasks[k].at.req;
            Do(w, Queues(k, DrainRan(false))).st.legacy ==
              if exists x :: x in w.st.legacy && x.item == r.item then w.st.legacy else [r] + w.st.legacy
  {
  }

  // ---- the task does get to the queue -----------------------------------------------------

  /** After these steps of tasks that are already there, and with nothing else changed, task `k`
      can look at the queue. */
  ghost predicate Reaches(w: World, steps: seq<Step>, k: nat) {
    && Possible(w, steps)
    && var v := After(w, steps);
       v.st == w.st && v.tasks.Keys <= w.tasks.Keys && Can(v, Queues(k, DrainLook))
  }

  lemma StepFirst(w: World, s: Step, steps: seq<Step>, k: nat)
    requires Can(w, s) && Do(w, s).st == w.st && Do(w, s).tasks.Keys <= w.tasks.Keys
    requires Reaches(Do(w, s), steps, k)
    ensures Reaches(w, [s] + steps, k)
  {
    hide Can, Do;
    assert ([s] + steps)[1..] == steps;
  }

  /** Nothing holds the lock. */
  predicate Free(w: World, k: nat) { w.up && Idle(w.st) && k in w.tasks }

  lemma HereNow(w: World, k: nat) returns (steps: seq<Step>)
    requires Free(w, k) && w.tasks[k] == Drains(Looks)
    ensures Reaches(w, steps, k) && |steps| == 0
  {
    steps := [];
  }

  lemma KickReaches(w: World, k: nat) returns (steps: seq<Step>)
    requires Free(w, k) && (w.tasks[k].Kick? || w.tasks[k] == Drains(SawMore)) && !w.draining
    ensures Reaches(w, steps, k) && |steps| == 1
  {
    hide Reaches;
    var s := Queues(k, if w.tasks[k].Kick? then KickRun else DrainRegrab);
    var rest := HereNow(Do(w, s), k);
    StepFirst(w, s, rest, k);
    steps := [s] + rest;
  }

  lemma RecheckReaches(w: World, k: nat) returns (steps: seq<Step>)
    requires Free(w, k) && w.tasks[k] == Drains(FlagDown) && !w.draining && w.st.legacy != []
    ensures Reaches(w, steps, k) && |steps| == 2
  {
    hide Reaches;
    var s := Queues(k, DrainRecheck);
    var rest := KickReaches(Do(w, s), k);
    StepFirst(w, s, rest, k);
    steps := [s] + rest;
  }

  lemma HolderReaches(w: World, k: nat) returns (steps: seq<Step>)
    requires Free(w, k) && Holder(w.tasks[k]) && w.st.legacy != []
    ensures Reaches(w, steps, k) && |steps| <= 3
  {
    hide Reaches;
    var at := w.tasks[k].at;
    if at.Looks? {
      steps := HereNow(w, k);
    } else if at.Runs? {
      var s := Queues(k, DrainRan(true));
      var rest := HereNow(Do(w, s), k);
      StepFirst(w, s, rest, k);
      steps := [s] + rest;
    } else {
      var s := Queues(k, DrainLower);
      var rest := RecheckReaches(Do(w, s), k);
      StepFirst(w, s, rest, k);
      steps := [s] + rest;
    }
  }

  /** Submits, drivers and watchers whose transaction or session is gone. */
  lemma RecordReaches(w: World, k: nat) returns (steps: seq<Step>)
    requires Free(w, k) && w.tasks[k].Applies? && w.tasks[k].wrote.Some? && !w.draining
    ensures Reaches(w, steps, k) && |steps| == 2
  {
    hide Reaches;
    var s := Submits(k, ApplyRecord);
    var rest := KickReaches(Do(w, s), k);
    StepFirst(w, s, rest, k);
    steps := [s] + rest;
  }

  lemma ApplierReaches(w: World, k: nat) returns (steps: seq<Step>)
    requires Free(w, k) && w.tasks[k].Applies? && !w.draining
    ensures Reaches(w, steps, k) && |steps| <= 3
  {
    hide Reaches;
    if w.tasks[k].wrote.Some? {
      steps := RecordReaches(w, k);
    } else {
      var s := Submits(k, ApplyWrite(Applied.Done));
      var rest := RecordReaches(Do(w, s), k);
      StepFirst(w, s, rest, k);
      steps := [s] + rest;
    }
  }

  lemma WatcherReaches(w: World, k: nat) returns (steps: seq<Step>)
    requires Free(w, k) && w.tasks[k].Watches? && !w.draining
    ensures Reaches(w, steps, k) && |steps| == 2
  {
    hide Reaches;
    var s := Sessions(k, Watch);
    var rest := KickReaches(Do(w, s), k);
    StepFirst(w, s, rest, k);
    steps := [s] + rest;
  }

  lemma FeederReaches(w: World, k: nat) returns (steps: seq<Step>)
    requires Free(w, k) && w.tasks[k].Drives? && (w.tasks[k].stage.Feeds? || w.tasks[k].stage.Top?) && !w.draining
    ensures Reaches(w, steps, k) && |steps| == 2
  {
    hide Reaches;
    var s := if w.tasks[k].stage.Feeds? then Listens(k, FeedIn) else Rolls(k, DriveTop);
    var rest := KickReaches(Do(w, s), k);
    StepFirst(w, s, rest, k);
    steps := [s] + rest;
  }

  /** The next step of a driver on its way to the top or to the hand-in of a reading. */
  function DriverStep(k: nat, g: Stage): Step
    requires !g.Feeds? && !g.Top? && !g.Write?
  {
    match g
    case Save(_, _) => Rolls(k, RollbackSave)
    case Check(_, _) => Rolls(k, RollbackCheck(SimCheck.Unknown))
    case Note => Rolls(k, RollbackRecord)
    case Asleep(_) => Listens(k, Wake)
    case Reads(_, _, _) => Listens(k, ReadEnd(None))
    case Probes(_, _, _, _) => Listens(k, ProbeEnd(false))
  }

  lemma NearReaches(w: World, k: nat) returns (steps: seq<Step>)
    requires Free(w, k) && w.tasks[k].Drives? && !w.tasks[k].stage.Write? && !w.draining
    ensures Reaches(w, steps, k) && |steps| <= 3
  {
    hide Reaches;
    var g := w.tasks[k].stage;
    if g.Feeds? || g.Top? {
      steps := FeederReaches(w, k);
    } else {
      var s := DriverStep(k, g);
      var rest := FeederReaches(Do(w, s), k);
      StepFirst(w, s, rest, k);
      steps := [s] + rest;
    }
  }

  lemma DriverReaches(w: World, k: nat) returns (steps: seq<Step>)
    requires Free(w, k) && w.tasks[k].Drives? && !w.draining
    ensures Reaches(w, steps, k) && |steps| <= 4
  {
    hide Reaches;
    if w.tasks[k].stage.Write? {
      var s := Rolls(k, RollbackWrite);
      var rest := NearReaches(Do(w, s), k);
      StepFirst(w, s, rest, k);
      steps := [s] + rest;
    } else {
      steps := NearReaches(w, k);
    }
  }

  /** In every reachable state in which requests wait and nothing holds the lock, at most four steps
      of tasks that are already there lead to a look at the queue. */
  lemma QueueIsReached(rollback: bool, ttl: nat, boot: string, now: nat, before: seq<Step>)
    returns (steps: seq<Step>, k: nat)
    requires Possible(Init(rollback, ttl, boot, now), before)
    requires var w := After(Init(rollback, ttl, boot, now), before); Idle(w.st) && w.st.legacy != []
    ensures Reaches(After(Init(rollback, ttl, boot, now), before), steps, k) && |steps| <= 4
  {
    hide Reaches;
    RunQueue(Init(rollback, ttl, boot, now), before);
    var w := After(Init(rollback, ttl, boot, now), before);
    if w.draining {
      k :| k in w.tasks && Holder(w.tasks[k]);
      steps := HolderReaches(w, k);
    } else {
      k :| k in w.tasks && Looker(w.tasks[k]);
      var t := w.tasks[k];
      if t.Applies? {
        steps := ApplierReaches(w, k);
      } else if t.Drives? {
        steps := DriverReaches(w, k);
      } else if t.Watches? {
        steps := WatcherReaches(w, k);
      } else if t == Drains(FlagDown) {
        steps := RecheckReaches(w, k);
      } else {
        steps := KickReaches(w, k);
      }
    }
  }

  // ---- under every schedule ---------------------------------------------------------------------

  /** Requests wait and nothing holds the lock. */
  predicate Waits(w: World) { w.up && Idle(w.st) && w.st.legacy != [] }

  /** How many steps of its own a task is from a look at the queue, at most. */
  function Rank(t: Task): nat
    requires Looker(t)
  {
    match t
    case Kick => 1
    case Drains(at) => (match at case Looks => 0 case SawMore => 1 case Runs(_) => 1 case FlagDown => 2 case FoundNone => 3)
    case Watches(_) => 2
    case Applies(_, _, wrote) => if wrote.Some? then 2 else 3
    case Drives(_, _, g) => if g.Top? || g.Feeds? then 2 else if g.Asleep? || g.Write? then 4 else 3
  }

  /** The step is one of task `k`, with whatever result. */
  predicate TakenBy(s: Step, k: nat) {
    match s
    case Submits(l, _) => l == k
    case Rolls(l, _) => l == k
    case Listens(l, _) => l == k
    case Queues(l, a) => l == k && !a.ClearQueue?
    case Sessions(l, _) => l == k
    case _ => false
  }

  /** Every step of such a task brings it closer, or it ends because another drainer has the flag. */
  lemma LookerAdvances(w: World, s: Step, k: nat)
    requires Waits(w) && k in w.tasks && Looker(w.tasks[k]) && w.tasks[k] != Drains(Looks)
    requires Can(w, s) && TakenBy(s, k)
    ensures var v := Do(w, s);
            || (k in v.tasks && Looker(v.tasks[k]) && Rank(v.tasks[k]) < Rank(w.tasks[k]))
            || (k !in v.tasks && v.draining)
  {
    hide RecordWrite, SaveIntent, RecordRollback, Interrupt, Feed, WithoutItem, FreshOnly, HasItem, PutBack, Txn.WantsProbe;
  }

  lemma OthersLeave(w: World, s: Step, k: nat)
    requires Can(w, s) && !TakenBy(s, k) && k in w.tasks && w.up && Do(w, s).up
    ensures k in Do(w, s).tasks && Do(w, s).tasks[k] == w.tasks[k]
  {
    hide RecordWrite, SaveIntent, RecordRollback, Interrupt, Feed, WithoutItem, FreshOnly, HasItem, Txn.WantsProbe, Install, Clear;
  }

  /** How many of the steps are the task's. */
  function Turns(steps: seq<Step>, k: nat): nat {
    if steps == [] then 0 else (if TakenBy(steps[0], k) then 1 else 0) + Turns(steps[1..], k)
  }

  predicate WaitsThroughout(w: World, steps: seq<Step>)
    requires Possible(w, steps)
    decreases |steps|
  {
    Waits(w) && (steps == [] || WaitsThroughout(Do(w, steps[0]), steps[1..]))
  }

  /** Task `k` is about to look, or it has ended and another drainer has the flag. */
  ghost predicate Arrived(w: World, k: nat) {
    || (k in w.tasks && w.tasks[k] == Drains(Looks))
    || (k !in w.tasks && exists h :: h in w.tasks && Holder(w.tasks[h]))
  }

  lemma {:induction false} ScheduleLooks(w: World, steps: seq<Step>, k: nat) returns (j: nat)
    requires QueueInv(w) && Possible(w, steps) && WaitsThroughout(w, steps)
    requires k in w.tasks && Looker(w.tasks[k]) && Turns(steps, k) >= Rank(w.tasks[k])
    ensures j <= |steps| && Possible(w, steps[..j]) && Arrived(After(w, steps[..j]), k)
    decreases |steps|
  {
    hide Do, Can, QueueInv, Waits, TakenBy;
    if w.tasks[k] == Drains(Looks) {
      j := 0;
      assert steps[..0] == [];
    } else {
      var s, v := steps[0], Do(w, steps[0]);
      StepQueue(w, s);
      StillUp(w, v, steps);
      if TakenBy(s, k) {
        LookerAdvances(w, s, k);
      } else {
        OthersLeave(w, s, k);
      }
      if k in v.tasks {
        var i := ScheduleLooks(v, steps[1..], k);
        j := i + 1;
        assert steps[..j][1..] == steps[1..][..i];
      } else {
        j := 1;
        HolderOf(v);
        assert steps[..1] == [s];
        assert Possible(w, [s]) && After(w, [s]) == v by { assert [s][1..] == []; }
      }
    }
  }

  lemma StillUp(w: World, v: World, steps: seq<Step>)
    requires Possible(w, steps) && WaitsThroughout(w, steps) && steps != [] && v == Do(w, steps[0])
    ensures w.up && v.up && WaitsThroughout(v, steps[1..])
  {
    hide Do, Can;
  }

  lemma HolderOf(w: World)
    requires QueueInv(w)
    ensures w.draining ==> exists h :: h in w.tasks && Holder(w.tasks[h])
  {
  }

  /** In every run and under every continuation during which requests wait and nothing holds the lock,
      whatever other tasks do and whatever calls bring: a driver, submit, watcher, kick or drainer that
      gets as many turns as its rank, four at most, comes to look at the queue, unless it ends because
      another drainer has the flag. */
  lemma EveryScheduleLooks(rollback: bool, ttl: nat, boot: string, now: nat, before: seq<Step>, steps: seq<Step>, k: nat)
    returns (j: nat)
    requires Possible(Init(rollback, ttl, boot, now), before)
    requires Possible(After(Init(rollback, ttl, boot, now), before), steps)
    requires WaitsThroughout(After(Init(rollback, ttl, boot, now), before), steps)
    requires var w := After(Init(rollback, ttl, boot, now), before);
             k in w.tasks && Looker(w.tasks[k]) && Turns(steps, k) >= Rank(w.tasks[k])
    ensures var w := After(Init(rollback, ttl, boot, now), before);
            j <= |steps| && Possible(w, steps[..j]) && Arrived(After(w, steps[..j]), k) && Rank(w.tasks[k]) <= 4
  {
    hide Do, Can, WaitsThroughout, Arrived;
    RunQueue(Init(rollback, ttl, boot, now), before);
    j := ScheduleLooks(After(Init(rollback, ttl, boot, now), before), steps, k);
  }
}
