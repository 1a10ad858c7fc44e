/** Why `OpIdFree` is asked for: once sixteen later transactions have pushed an
    op_id out of the recent list, a submit with the same op_id is accepted, and if
    the driver of its first use is still asleep, two drivers end up sending the
    rollback of one transaction, or the old driver ends the new transaction with a
    reading that was begun before its write. */
module OpsReuse {
  import opened Common
  import opened OpsTxn
  import opened OpsTxnLaws
  import opened OpsState
  import opened OpsStateLaws
  import opened OpsProtocol
  import opened OpsSafety
  import opened OpsAllRuns
  import opened OpsEvidence
  import opened OpsTheorems

  lemma {:induction false} RunsJoin(w: World, a: seq<Step>, b: seq<Step>)
    requires Possible(w, a) && Possible(After(w, a), b)
    ensures Possible(w, a + b) && After(w, a + b) == After(After(w, a), b)
    decreases |a|
  {
    hide Do, Can;
    if a == [] {
      assert a + b == b;
    } else {
      assert (a + b)[0] == a[0] && (a + b)[1..] == a[1..] + b;
      RunsJoin(Do(w, a[0]), a[1..], b);
    }
  }

  lemma RunOne(w: World, s: Step)
    requires Can(w, s)
    ensures Possible(w, [s]) && After(w, [s]) == Do(w, s)
  {
    hide Do, Can;
    assert [s][1..] == [];
  }

  /** One more step at the end of a run. */
  lemma RunMore(w: World, a: seq<Step>, s: Step)
    requires Possible(w, a) && Can(After(w, a), s)
    ensures Possible(w, a + [s]) && After(w, a + [s]) == Do(After(w, a), s)
  {
    hide Do, Can;
    RunOne(After(w, a), s);
    RunsJoin(w, a, [s]);
  }

  predicate Asleep(w: World, k: nat, op: string) {
    w.up && Drv(w.tasks, k) && w.tasks[k].op == op && w.tasks[k].stage.Asleep?
  }

  predicate AtTop(w: World, k: nat, op: string) {
    w.up && Drv(w.tasks, k) && w.tasks[k].op == op && w.tasks[k].stage.Top?
  }

  /** Two drivers carry the op_id of one transaction that is being verified. */
  predicate TwoDrivers(w: World, k: nat, l: nat) {
    && w.up && k != l && w.st.active.Some?
    && w.st.active.value.phase.Verifying? && w.st.active.value.intent.None?
    && AtTop(w, k, w.st.active.value.change.opId) && AtTop(w, l, w.st.active.value.change.opId)
  }

  /** One driver gets as far as the rollback write. */
  lemma DriverGetsReady(w: World, k: nat) returns (steps: seq<Step>)
    requires w.up && w.st.active.Some? && AtTop(w, k, w.st.active.value.change.opId)
    requires w.st.active.value.phase.RollingBack? && w.st.active.value.intent == Some(Rollback)
    ensures Possible(w, steps)
    ensures var v := After(w, steps); var t := w.st.active.value;
            && v.past == w.past && v.up && v.st.active == w.st.active
            && v.tasks == w.tasks[k := Drives(t.change.opId, t.change.serial, Write(t.change.rollbackTo))]
  {
    var t := w.st.active.value;
    var w1 := Do(w, Rolls(k, DriveTop));
    RunOne(w, Rolls(k, DriveTop));
    var w2 := Do(w1, Rolls(k, RollbackSave));
    RunMore(w, [Rolls(k, DriveTop)], Rolls(k, RollbackSave));
    steps := [Rolls(k, DriveTop)] + [Rolls(k, RollbackSave)];
    assert w2.st.active == w.st.active;
    RunMore(w, steps, Rolls(k, RollbackCheck(Same)));
    steps := steps + [Rolls(k, RollbackCheck(Same))];
  }

  /** With two drivers, a user's revert can be written to the device twice. */
  lemma TwoDriversWriteTwice(w: World, k: nat, l: nat, m: nat) returns (steps: seq<Step>)
    requires TwoDrivers(w, k, l) && m !in w.tasks
    ensures Possible(w, steps)
    ensures var s := w.st.active.value.change.serial;
            After(w, steps).past.rolledBack[s] == w.past.rolledBack[s] + 2
  {
    var t := w.st.active.value;
    var op := t.change.opId;
    var revert := Asks(m, AskRevert(op));
    RunOne(w, revert);
    var w1 := Do(w, revert);
    assert w1.tasks == w.tasks && w1.past == w.past && w1.st.active == Some(t.StartRollback(UserRevert));
    var first := DriverGetsReady(w1, k);
    var w2 := After(w1, first);
    var second := DriverGetsReady(w2, l);
    RunsJoin(w1, first, second);
    RunsJoin(w, [revert], first + second);
    steps := [revert] + (first + second);
    var w3 := After(w2, second);
    assert After(w, steps) == w3;
    RunMore(w, steps, Rolls(k, RollbackWrite));
    steps := steps + [Rolls(k, RollbackWrite)];
    RunMore(w, steps, Rolls(l, RollbackWrite));
    steps := steps + [Rolls(l, RollbackWrite)];
  }

  /** The steps of a submit, up to its recorded write. */
  function SubmitSteps(k: nat, req: Request): seq<Step> {
    [Submits(k, Submit(req)), Submits(k, Captured("", SimId("", 0), None)), Submits(k, ApplyWrite(Applied.Done)),
     Submits(k, ApplyRecord)]
  }

  /** Nothing stands in the way of this submit. */
  predicate Unhindered(w: World, k: nat, req: Request) {
    w.up && Idle(w.st) && !Knows(w.st, req.opId) && k !in w.tasks && req.spec.deadlineMs > 0
  }

  lemma FourSteps(w: World, a: Step, b: Step, c: Step, d: Step)
    requires Can(w, a) && Can(Do(w, a), b) && Can(Do(Do(w, a), b), c) && Can(Do(Do(Do(w, a), b), c), d)
    ensures Possible(w, [a, b, c, d]) && After(w, [a, b, c, d]) == Do(Do(Do(Do(w, a), b), c), d)
  {
    hide Do, Can;
    RunOne(w, a);
    RunMore(w, [a], b);
    RunMore(w, [a] + [b], c);
    RunMore(w, [a] + [b] + [c], d);
    assert [a] + [b] + [c] + [d] == [a, b, c, d];
  }

  /** A submit that nothing stands in the way of, up to its recorded write. */
  lemma SubmitRuns(w: World, k: nat, req: Request) returns (steps: seq<Step>)
    requires Unhindered(w, k, req)
    ensures Possible(w, steps)
    ensures var v := After(w, steps);
            && v.up && v.past.rolledBack == w.past.rolledBack && |v.past.chain| == |w.past.chain| + 1
            && v.tasks == w.tasks[k := Drives(req.opId, |w.past.chain|, Top)]
            && v.st.active.Some?
            && v.st.active.value.phase.Verifying? && v.st.active.value.intent.None?
            && v.st.active.value.generation == 2
            && v.st.active.value.change.opId == req.opId
            && v.st.active.value.change.serial == |w.past.chain|
            && v.st.recent == w.st.recent && v.st.retired == w.st.retired
    ensures Inv(w) && RecentOk(w.st) && (forall l | Acts(w.tasks, l) :: OpOf(w.tasks[l]) != req.opId) ==>
              Inv(After(w, steps)) && RecentOk(After(w, steps).st)
  {
    hide Knows, Inv, RecentOk, Possible, After;
    steps := SubmitSteps(k, req);
    var w1 := Do(w, steps[0]);
    var w2 := Do(w1, steps[1]);
    var w3 := Do(w2, steps[2]);
    FourSteps(w, steps[0], steps[1], steps[2], steps[3]);
    if Inv(w) && RecentOk(w.st) && (forall l | Acts(w.tasks, l) :: OpOf(w.tasks[l]) != req.opId) {
      FreeOfOthers(w, k, req, steps[1]);
      OneKeeps(w, steps[0]);
      OneKeeps(w1, steps[1]);
      OneKeeps(w2, steps[2]);
      OneKeeps(w3, steps[3]);
    }
  }

  lemma OneKeeps(w: World, s: Step)
    requires Inv(w) && RecentOk(w.st) && Can(w, s) && OpIdFree(w, s)
    ensures Inv(Do(w, s)) && RecentOk(Do(w, s).st)
  {
    hide Inv, RecentOk, Do, Can, OpIdFree;
    StepKeeps(w, s);
    RecentStep(w, s);
  }

  lemma FreeOfOthers(w: World, k: nat, req: Request, s: Step)
    requires forall l | Acts(w.tasks, l) :: OpOf(w.tasks[l]) != req.opId
    requires s.Submits? && s.k == k
    ensures OpIdFree(Becomes(w, k, Submitting(req)), s)
  {
    var ts := Becomes(w, k, Submitting(req)).tasks;
    assert forall l | Acts(ts, l) :: Acts(w.tasks, l) && ts[l] == w.tasks[l];
  }

  /** The driver `l` is back at the top of its loop; nothing else happened. */
  ghost predicate BackAtTop(w: World, v: World, l: nat, op: string) {
    && v.up && v.st.active == w.st.active && v.past.chain == w.past.chain
    && AtTop(v, l, op) && v.tasks == w.tasks[l := v.tasks[l]]
    && forall s :: v.past.rolledBack[s] >= w.past.rolledBack[s]
  }

  /** From wherever a driver stands, it gets back to the top of its loop without
      touching a transaction whose write is still under way. */
  lemma StaleDriverReturns(w: World, l: nat) returns (steps: seq<Step>)
    requires w.up && w.st.active.Some? && w.st.active.value.phase.Applying?
    requires Drv(w.tasks, l) && w.tasks[l].op == w.st.active.value.change.opId
    ensures Possible(w, steps) && BackAtTop(w, After(w, steps), l, w.tasks[l].op)
    decreases StepsToTop(w.tasks[l].stage)
  {
    if w.tasks[l].stage.Top? {
      steps := [];
      assert w.tasks[l := w.tasks[l]] == w.tasks;
    } else {
      var s := TowardsTop(w.tasks[l].stage, l);
      StaleDriverSteps(w, l);
      var v := Do(w, s);
      RunOne(w, s);
      var rest := StaleDriverReturns(v, l);
      RunsJoin(w, [s], rest);
      steps := [s] + rest;
    }
  }

  function StepsToTop(g: Stage): nat {
    match g
    case Top => 0
    case Asleep(_) => 1
    case Note => 1
    case Feeds(_, _, _, _) => 1
    case Check(_, _) => 2
    case Write(_) => 2
    case Probes(_, _, _, _) => 2
    case Reads(_, _, _) => 2
    case Save(_, _) => 3
  }

  function TowardsTop(g: Stage, l: nat): Step
    requires !g.Top?
  {
    match g
    case Asleep(_) => Listens(l, Wake)
    case Note => Rolls(l, RollbackRecord)
    case Feeds(_, _, _, _) => Listens(l, FeedIn)
    case Check(_, _) => Rolls(l, RollbackCheck(Unknown))
    case Write(_) => Rolls(l, RollbackWrite)
    case Probes(_, _, _, _) => Listens(l, ProbeEnd(false))
    case Reads(_, _, _) => Listens(l, ReadEnd(None))
    case Save(_, _) => Rolls(l, RollbackSave)
  }

  /** One step nearer to the top, with nothing else changed. */
  ghost predicate Nearer(w: World, v: World, l: nat)
    requires Drv(w.tasks, l)
  {
    && v.up && v.st.active == w.st.active && v.past.chain == w.past.chain
    && Drv(v.tasks, l) && v.tasks[l].op == w.tasks[l].op
    && v.tasks == w.tasks[l := v.tasks[l]]
    && StepsToTop(v.tasks[l].stage) < StepsToTop(w.tasks[l].stage)
    && forall s :: v.past.rolledBack[s] >= w.past.rolledBack[s]
  }

  lemma StaleRolls(w: World, l: nat, a: RollbackStep)
    requires w.up && w.st.active.Some? && w.st.active.value.phase.Applying?
    requires CanRoll(w, l, a) && w.tasks[l].op == w.st.active.value.change.opId
    requires !a.DriveTop? && (a.RollbackCheck? ==> a.check.Unknown?)
    ensures Nearer(w, DoRoll(w, l, a), l)
  {
    hide Interrupt;
  }

  lemma StaleReads(w: World, l: nat, a: ReadStep)
    requires w.up && w.st.active.Some? && w.st.active.value.phase.Applying?
    requires CanRead(w, l, a) && w.tasks[l].op == w.st.active.value.change.opId
    requires !a.ReadBegin? && (a.ReadEnd? ==> a.got.None?)
    ensures Nearer(w, DoRead(w, l, a), l)
  {
    hide Txn.WantsProbe;
  }

  lemma StaleDriverSteps(w: World, l: nat)
    requires w.up && w.st.active.Some? && w.st.active.value.phase.Applying?
    requires Drv(w.tasks, l) && w.tasks[l].op == w.st.active.value.change.opId
    requires !w.tasks[l].stage.Top?
    ensures var s := TowardsTop(w.tasks[l].stage, l); Can(w, s) && Nearer(w, Do(w, s), l)
  {
    hide Nearer, DoRoll, DoRead;
    var s := TowardsTop(w.tasks[l].stage, l);
    match s
    case Rolls(_, a) => StaleRolls(w, l, a);
    case Listens(_, a) => StaleReads(w, l, a);
  }

  /** A submit task of an earlier use of the op_id turns into a second driver. */
  lemma StaleSubmitReturns(w: World, l: nat) returns (steps: seq<Step>)
    requires w.up && w.st.active.Some? && !w.st.active.value.phase.IsFinal()
    requires w.st.active.value.phase.Applying? || (w.st.active.value.phase.Verifying? && w.st.active.value.intent.None?)
    requires l in w.tasks && w.tasks[l].Applies? && w.tasks[l].req.opId == w.st.active.value.change.opId
    ensures Possible(w, steps)
    ensures var v := After(w, steps);
            && v.up && v.st.active.Some? && v.st.active.value.change == w.st.active.value.change
            && v.st.active.value.phase.Verifying? && v.st.active.value.intent.None?
            && v.past.chain == w.past.chain && v.past.rolledBack == w.past.rolledBack
            && AtTop(v, l, w.tasks[l].req.opId) && v.tasks == w.tasks[l := v.tasks[l]]
  {
    var s1 := Submits(l, ApplyRecord);
    if w.tasks[l].wrote.Some? {
      RunOne(w, s1);
      steps := [s1];
    } else {
      var s0 := Submits(l, ApplyWrite(Applied.Done));
      RunOne(w, s0);
      RunMore(w, [s0], s1);
      steps := [s0] + [s1];
    }
  }

  /** The condition is exact: wherever an op_id is accepted while any task of an
      earlier use of it still runs, some continuation writes the rollback of the
      new transaction twice. */
  lemma ReuseWritesTwice(w: World, k: nat, l: nat, m: nat, before: string, sim: SimId, conn: Option<Conn>)
    returns (steps: seq<Step>)
    requires w.up && CanSubmit(w, k, Captured(before, sim, conn)) && Clear(w.st, w.tasks[k].req)
    requires w.tasks[k].req.spec.deadlineMs > 0
    requires Acts(w.tasks, l) && OpOf(w.tasks[l]) == w.tasks[k].req.opId && m !in w.tasks
    ensures var s := Submits(k, Captured(before, sim, conn));
            && Can(w, s) && !OpIdFree(w, s)
            && Possible(Do(w, s), steps)
            && After(Do(w, s), steps).past.rolledBack[|w.past.chain|] >= 2
  {
    hide Clear, Install, Possible, After;
    var s := Submits(k, Captured(before, sim, conn));
    var req := w.tasks[k].req;
    var w1 := Do(w, s);
    InstallLaws(w.st, req, |w.past.chain|, before, sim, conn, w.around.rollback, w.around.boot, w.around.now);
    assert l != k && w1.tasks[l] == w.tasks[l] && w1.tasks[k] == Applies(req, |w.past.chain|, None);
    var first;
    if w.tasks[l].Drives? {
      first := StaleDriverReturns(w1, l);
    } else {
      first := StaleSubmitReturns(w1, l);
    }
    var w2 := After(w1, first);
    var second := StaleSubmitReturns(w2, k);
    RunsJoin(w1, first, second);
    var w3 := After(w2, second);
    var third := TwoDriversWriteTwice(w3, k, l, m);
    RunsJoin(w1, first + second, third);
    steps := first + second + third;
  }

  // ---- and such a state is reached -----------------------------------------------------------

  /** The op_id of the n-th transaction of the run below. */
  function X(n: nat): string { seq(n, _ => 'x') }

  function XRequest(n: nat): Request {
    Request(Spec("network.set_mode", "network.mode", 120_000, Registered), "m", Web, X(n), false)
  }

  /** `n` transactions with op_ids of length 1 to n are over; the driver of the
      first is still asleep; task numbers are below `m`. */
  ghost predicate Aged(w: World, k: nat, n: nat, m: nat) {
    && Inv(w) && RecentOk(w.st) && Idle(w.st) && Asleep(w, k, X(1))
    && w.tasks[k].stage.gen == 2 && w.tasks[k].serial < |w.past.chain|
    && |w.st.retired| == n
    && (forall i :: 0 <= i < n ==> w.st.retired[i] == X(i + 1))
    && (forall l | Acts(w.tasks, l) :: |OpOf(w.tasks[l])| <= n)
    && (forall l | l in w.tasks :: l < m)
  }

  lemma NotKnown(st: St, op: string, n: nat)
    requires RecentOk(st) && st.active.None? && |st.retired| == n
    requires forall i :: 0 <= i < n ==> st.retired[i] == X(i + 1)
    requires |op| > n || (op == X(1) && n > RECENT)
    ensures !Knows(st, op)
  {
    forall i | 0 <= i < |st.recent|
      ensures st.recent[i].change.opId != op
    {
      var j := n - |st.recent| + i;
      assert st.recent[i].change.opId == X(j + 1) && |X(j + 1)| == j + 1;
      assert |X(1)| == 1;
    }
  }

  /** Another user write ends the transaction that is being verified. */
  lemma OtherWriteEnds(w: World, m: nat)
    requires w.up && m !in w.tasks && w.st.active.Some? && w.st.session.None?
    requires !w.st.active.value.phase.IsFinal()
    ensures var s := Asks(m, OtherWrite(Web)); var v := Do(w, s);
            && Can(w, s) && v.up && Idle(v.st) && v.tasks == w.tasks[m := Kick]
            && v.st.retired == w.st.retired + [w.st.active.value.change.opId] && v.past.chain == w.past.chain
    ensures Inv(w) && RecentOk(w.st) ==>
              var v := Do(w, Asks(m, OtherWrite(Web))); Inv(v) && RecentOk(v.st)
  {
    hide Inv, RecentOk;
    var s := Asks(m, OtherWrite(Web));
    if Inv(w) && RecentOk(w.st) {
      StepKeeps(w, s);
      RecentStep(w, s);
    }
  }

  lemma AgedAfter(w: World, v: World, k: nat, n: nat, m: nat, serial: nat)
    requires Aged(w, k, n, m) && Inv(v) && RecentOk(v.st) && Idle(v.st) && v.up
    requires v.st.retired == w.st.retired + [X(n + 1)] && |v.past.chain| >= |w.past.chain|
    requires v.tasks == w.tasks[m := Drives(X(n + 1), serial, Top)][m + 1 := Kick]
    ensures Aged(v, k, n + 1, m + 2)
  {
    hide Inv, RecentOk;
    assert |X(n + 1)| == n + 1;
    assert forall l | Acts(v.tasks, l) && l != m :: Acts(w.tasks, l) && v.tasks[l] == w.tasks[l];
  }

  /** One more transaction is submitted and then ended by another user write. */
  lemma OneMore(w: World, k: nat, n: nat, m: nat) returns (steps: seq<Step>)
    requires Aged(w, k, n, m)
    ensures Possible(w, steps) && Aged(After(w, steps), k, n + 1, m + 2)
  {
    hide Inv, RecentOk, Do, Can;
    var req := XRequest(n + 1);
    assert |req.opId| == n + 1;
    NotKnown(w.st, req.opId, n);
    var submit := SubmitRuns(w, m, req);
    var w1 := After(w, submit);
    InvIsCore(w1);
    LiveOf(w1);
    MemoryOf(w1);
    OtherWriteEnds(w1, m + 1);
    RunMore(w, submit, Asks(m + 1, OtherWrite(Web)));
    steps := submit + [Asks(m + 1, OtherWrite(Web))];
    AgedAfter(w, After(w, steps), k, n, m, |w.past.chain|);
  }

  lemma {:induction false} ManyMore(w: World, k: nat, n: nat, m: nat, count: nat)
    returns (steps: seq<Step>, top: nat)
    requires Aged(w, k, n, m)
    ensures Possible(w, steps) && Aged(After(w, steps), k, n + count, top)
    decreases count
  {
    hide Aged, Do, Can;
    if count == 0 {
      steps, top := [], m;
    } else {
      var a := OneMore(w, k, n, m);
      var b;
      b, top := ManyMore(After(w, a), k, n + 1, m + 2, count - 1);
      RunsJoin(w, a, b);
      steps := a + b;
    }
  }

  lemma FallsAsleep(w: World, k: nat)
    requires Inv(w) && RecentOk(w.st) && w.st.active.Some? && AtTop(w, k, w.st.active.value.change.opId)
    requires w.st.active.value.phase.Verifying?
    ensures var s := Rolls(k, DriveTop); var v := Do(w, s); var t := w.st.active.value;
            && Can(w, s) && v.up && v.st == w.st && v.past == w.past && Inv(v) && RecentOk(v.st)
            && v.tasks == w.tasks[k := Drives(t.change.opId, t.change.serial, Stage.Asleep(t.generation))]
  {
    hide Inv, RecentOk;
    StepKeeps(w, Rolls(k, DriveTop));
  }

  lemma Started() returns (v: World)
    ensures var w := Init(false, 0, "b", 0);
            Can(w, Env(Boot)) && v == Do(w, Env(Boot)) && v.up && v.tasks == map[] && v.st == Empty(None)
    ensures Inv(v) && RecentOk(v.st)
  {
    hide Inv, RecentOk;
    var w := Init(false, 0, "b", 0);
    v := Do(w, Env(Boot));
    InitIsOk(false, 0, "b", 0);
    InitRecent();
    StepKeeps(w, Env(Boot));
    RecentStep(w, Env(Boot));
  }

  /** The first transaction: submitted, its driver asleep, and then ended by
      another user write. */
  lemma FirstOne() returns (steps: seq<Step>)
    ensures var w := Init(false, 0, "b", 0);
            Possible(w, steps) && Aged(After(w, steps), 0, 1, 2)
  {
    hide Inv, RecentOk, Do, Can;
    var w := Init(false, 0, "b", 0);
    var w1 := Started();
    RunOne(w, Env(Boot));
    var submit := SubmitRuns(w1, 0, XRequest(1));
    var w2 := After(w1, submit);
    FallsAsleep(w2, 0);
    RunMore(w1, submit, Rolls(0, DriveTop));
    var w3 := Do(w2, Rolls(0, DriveTop));
    MemoryOf(w3);
    OtherWriteEnds(w3, 1);
    RunMore(w1, submit + [Rolls(0, DriveTop)], Asks(1, OtherWrite(Web)));
    RunsJoin(w, [Env(Boot)], submit + [Rolls(0, DriveTop)] + [Asks(1, OtherWrite(Web))]);
    steps := [Env(Boot)] + (submit + [Rolls(0, DriveTop)] + [Asks(1, OtherWrite(Web))]);
    assert |X(1)| == 1;
  }

  lemma InitRecent()
    ensures RecentOk(Init(false, 0, "b", 0).st)
  {
  }

  /** A run from the start in which one transaction's rollback is written twice. */
  lemma ReuseCanHappen() returns (steps: seq<Step>, serial: nat)
    ensures var w := Init(false, 0, "b", 0);
            Possible(w, steps) && After(w, steps).past.rolledBack[serial] >= 2
  {
    var w := Init(false, 0, "b", 0);
    var first := FirstOne();
    var w1 := After(w, first);
    var more, top := ManyMore(w1, 0, 1, 2, RECENT);
    RunsJoin(w, first, more);
    var w2 := After(w1, more);
    assert |X(1)| == 1;
    NotKnown(w2.st, X(1), 1 + RECENT);
    var s0 := Submits(top, Submit(XRequest(1)));
    var s1 := Submits(top, Captured("", SimId("", 0), None));
    var w3 := Do(w2, s0);
    assert Can(w2, s0) && Clear(w3.st, XRequest(1)) && w3.tasks == w2.tasks[top := Submitting(XRequest(1))];
    var again := ReuseWritesTwice(w3, top, 0, top + 1, "", SimId("", 0), None);
    RunOne(w2, s0);
    RunMore(w2, [s0], s1);
    RunsJoin(w2, [s0] + [s1], again);
    RunsJoin(w, first + more, [s0] + [s1] + again);
    steps, serial := first + more + ([s0] + [s1] + again), |w3.past.chain|;
  }

  // ---- a reading begun before the write ---------------------------------------------------------

  /** What a device shows that has taken the change and is not expected to have data. */
  const TAKEN := Reading(Some("m"), true, SimId("", 0), Some(DataPath(Some(false), false, Conn("", "", None), "", [])), None)

  /** The op_id of an old driver that is asleep is submitted again. */
  predicate Resubmitted(w: World, k: nat, m: nat) {
    && w.up && Idle(w.st) && k != m
    && Drv(w.tasks, k) && w.tasks[k].op == X(1) && w.tasks[k].stage == Stage.Asleep(2) && w.tasks[k].serial < |w.past.chain|
    && m in w.tasks && w.tasks[m] == Submitting(XRequest(1)) && !Knows(w.st, X(1))
  }

  /** The transaction that is written in the run below. */
  predicate Fresh(t: Txn, serial: nat) {
    && t.change.opId == X(1) && t.change.serial == serial && t.change.target == "m"
    && t.change.sim == SimId("", 0) && t.change.confirm.Registered? && t.intent != Some(Rollback)
  }

  /** The new transaction is saved with its write intent, and then the old driver begins to read. */
  lemma ReadsEarly(w: World, k: nat, m: nat) returns (steps: seq<Step>)
    requires Resubmitted(w, k, m)
    ensures Possible(w, steps)
    ensures var v := After(w, steps);
            && v.up && v.st.active.Some?
            && v.tasks == w.tasks[m := Applies(XRequest(1), |w.past.chain|, None)][k := w.tasks[k].(stage := Reads(2, 1, Applying))]
            && Fresh(v.st.active.value, |w.past.chain|) && v.st.active.value.phase.Applying? && v.st.active.value.generation == 1
  {
    hide Knows;
    var s1 := Submits(m, Captured("", SimId("", 0), None));
    RunOne(w, s1);
    var w1 := Do(w, s1);
    var s2 := Listens(k, ReadBegin);
    RunMore(w, [s1], s2);
    steps := [s1] + [s2];
  }

  lemma WritesThen(w: World, m: nat) returns (steps: seq<Step>)
    requires w.up && w.st.active.Some? && m in w.tasks && w.tasks[m].Applies? && w.tasks[m].wrote.None?
    requires w.tasks[m].req.opId == w.st.active.value.change.opId
    requires w.st.active.value.phase.Applying? && w.st.active.value.generation == 1
    ensures Possible(w, steps)
    ensures var v := After(w, steps);
            && v.up && m in v.tasks && v.tasks == w.tasks[m := v.tasks[m]]
            && v.st.active == Some(w.st.active.value.WriteReturned(Applied.Done, w.around.now))
  {
    var s3 := Submits(m, ApplyWrite(Applied.Done));
    RunOne(w, s3);
    var w3 := Do(w, s3);
    var s4 := Submits(m, ApplyRecord);
    RunMore(w, [s3], s4);
    steps := [s3] + [s4];
  }

  /** The new transaction is written while the old driver reads. */
  lemma ReadsBeforeWrite(w: World, k: nat, m: nat) returns (steps: seq<Step>)
    requires Resubmitted(w, k, m)
    ensures Possible(w, steps)
    ensures var v := After(w, steps);
            && v.up && v.st.active.Some? && Drv(v.tasks, k) && v.tasks[k].op == X(1)
            && v.tasks[k].stage == Reads(2, 1, Applying) && v.tasks[k].serial < |w.past.chain|
            && var t := v.st.active.value;
               Fresh(t, |w.past.chain|) && t.phase.Verifying? && t.intent.None? && t.generation == 2
  {
    hide Knows, Do, Can, Possible, After;
    var first := ReadsEarly(w, k, m);
    var second := WritesThen(After(w, first), m);
    RunsJoin(w, first, second);
    steps := first + second;
  }

  /** The old driver's reading arrives and ends the new transaction. */
  lemma StaleReadingEnds(w: World, k: nat)
    requires w.up && w.st.active.Some? && Drv(w.tasks, k) && w.tasks[k].op == X(1)
    requires w.tasks[k].stage == Reads(2, 1, Applying)
    requires var t := w.st.active.value;
             Fresh(t, t.change.serial) && t.phase.Verifying? && t.intent.None? && t.generation == 2
    ensures var s := Listens(k, ReadEnd(Some(TAKEN)));
            && Can(w, s)
            && var v := Do(w, s);
               && Can(v, Listens(k, FeedIn)) && EndsProven(v, Listens(k, FeedIn))
               && v.st == w.st && Drv(v.tasks, k) && v.tasks[k] == w.tasks[k].(stage := Feeds(2, 1, Applying, Some(TAKEN)))
  {
    var t := w.st.active.value;
    assert t.OnReading(TAKEN, w.around.now).reason == Some(Verified);
    assert t.OnReading(TAKEN, w.around.now).phase.Confirmed?;
    var v := Do(w, Listens(k, ReadEnd(Some(TAKEN))));
    var u := Do(v, Listens(k, FeedIn));
    assert u.st.recent == Remember(w.st.recent, t.OnReading(TAKEN, w.around.now));
    assert u.st.retired == w.st.retired + [t.change.opId];
  }

  /** A run from the start in which a transaction is confirmed as verified on a reading that was begun
      before it was written, handed in by the driver of an earlier use of its op_id. */
  lemma StaleReadingCanProve() returns (steps: seq<Step>, k: nat)
    ensures var w := Init(false, 0, "b", 0);
            && Possible(w, steps) && Can(After(w, steps), Listens(k, FeedIn))
            && var v := After(w, steps);
               && EndsProven(v, Listens(k, FeedIn)) && !FreshProof(v, k)
               && v.tasks[k].stage.begunPhase.Applying? && v.tasks[k].serial != v.st.active.value.change.serial
  {
    hide Do, Can, EndsProven;
    var w := Init(false, 0, "b", 0);
    var first := FirstOne();
    var more, top := ManyMore(After(w, first), 0, 1, 2, RECENT);
    RunsJoin(w, first, more);
    var w2 := After(After(w, first), more);
    var submit := Resubmit(w2, 0, 1 + RECENT, top);
    RunMore(w, first + more, submit);
    var w3 := Do(w2, submit);
    var write := ReadsBeforeWrite(w3, 0, top);
    RunsJoin(w, first + more + [submit], write);
    var w4 := After(w3, write);
    StaleReadingEnds(w4, 0);
    RunMore(w, first + more + [submit] + write, Listens(0, ReadEnd(Some(TAKEN))));
    steps, k := first + more + [submit] + write + [Listens(0, ReadEnd(Some(TAKEN)))], 0;
  }

  lemma Resubmit(w: World, k: nat, n: nat, m: nat) returns (s: Step)
    requires Aged(w, k, n, m) && n > RECENT
    ensures Can(w, s) && Resubmitted(Do(w, s), k, m)
  {
    hide Inv, RecentOk;
    assert |X(1)| == 1;
    NotKnown(w.st, X(1), n);
    s := Submits(m, Submit(XRequest(1)));
  }
}
