/** What every lock section keeps of the engine's state, whichever task runs it and
    whatever op_id it carries. */
module OpsStateLaws {
  import opened Common
  import opened OpsTxn
  import opened OpsTxnLaws
  import opened OpsState

  // ---- the invariant of the state -------------------------------------------------------

  predicate LiveOk(t: Txn) { Sound(t) && !t.phase.IsFinal() && !t.phase.Accepted? }

  /** The live transaction is sound and has not ended, the file holds the same change,
      and none is live while a session is open. */
  predicate MemOk(st: St) {
    && (st.active.Some? <==> st.disk.Some?)
    && (st.active.Some? ==>
          LiveOk(st.active.value) && LiveOk(st.disk.value) && st.disk.value.change == st.active.value.change)
    && !(st.active.Some? && st.session.Some?)
  }

  /** `recent` holds the last sixteen transactions retired in this process, each in
      a terminal state of the documented table. */
  predicate RecentOk(st: St) {
    && |st.recent| == Min(16, |st.retired|)
    && forall i :: 0 <= i < |st.recent| ==>
         && st.recent[i].change.opId == st.retired[|st.retired| - |st.recent| + i]
         && Sound(st.recent[i]) && st.recent[i].phase.IsFinal()
  }

  predicate SameRecent(a: St, b: St) { b.recent == a.recent && b.retired == a.retired }

  /** The live transaction was retired in a terminal state. */
  predicate Retires(a: St, b: St) {
    && a.active.Some? && b.recent != []
    && var u := b.recent[|b.recent| - 1];
       && b.recent == Remember(a.recent, u)
       && b.retired == a.retired + [a.active.value.change.opId]
       && Sound(u) && u.phase.IsFinal() && u.change == a.active.value.change
  }

  /** A section that starts no transaction: the live one goes on with the same change,
      or it ends and is remembered. */
  predicate Goes(a: St, b: St) {
    && MemOk(b)
    && (b.active.Some? ==> a.active.Some? && Follows(a.active.value, b.active.value))
    && (if b.active.Some? || a.active.None? then SameRecent(a, b) else Retires(a, b))
  }

  lemma RetiresKeepRecent(a: St, b: St)
    requires RecentOk(a) && (SameRecent(a, b) || Retires(a, b))
    ensures RecentOk(b)
  {
  }

  lemma GoesRecent(a: St, b: St)
    requires RecentOk(a) && Goes(a, b)
    ensures RecentOk(b)
  {
    hide MemOk;
    RetiresKeepRecent(a, b);
  }

  // ---- sections ---------------------------------------------------------------------------

  lemma StaysGoes(st: St)
    requires MemOk(st)
    ensures Goes(st, st)
  {
  }

  /** The live transaction becomes `u`, is saved, and is retired if it has ended. */
  lemma SettleGoes(st: St, u: Txn, force: bool)
    requires MemOk(st) && st.active.Some?
    requires Sound(u) && Follows(st.active.value, u)
    ensures Goes(st, FinishActive(Persist(st.(active := Some(u)), force)))
  {
    hide Sound;
  }

  lemma FeedGoes(st: St, op: string, gen: nat, r: Option<Reading>, now: nat)
    requires MemOk(st)
    ensures Goes(st, Feed(st, op, gen, r, now))
  {
    hide Sound, Txn.OnReading, Txn.OnTick;
    if Live(st, op) && st.active.value.generation == gen {
      var t := st.active.value;
      var e := if r.Some? then Read(r.value, now) else Tick(now);
      HandleKeepsSound(t, e);
      SettleGoes(st, Handle(t, e), Handle(t, e).generation != gen);
    } else {
      StaysGoes(st);
    }
  }

  lemma InterruptGoes(st: St, why: Reason)
    requires MemOk(st) && Interrupting(why)
    ensures Goes(st, Interrupt(st, why)) && Interrupt(st, why).active.None?
    ensures st.active.Some? ==>
              var u := Interrupt(st, why).recent; u != [] && u[|u| - 1] == st.active.value.Finish(Cancelled, why)
  {
  }

  lemma AskGoes(st: St, op: string)
    requires MemOk(st)
    ensures Goes(st, RevertNow(st, op)) && Goes(st, KeepNow(st, op))
  {
  }

  lemma RecordGoes(st: St, op: string, outcome: Applied, now: nat)
    requires MemOk(st)
    ensures Goes(st, RecordWrite(st, op, outcome, now))
  {
    if Live(st, op) { HandleKeepsSound(st.active.value, WriteBack(outcome, now)); }
  }

  lemma RollbackGoes(st: St, op: string, now: nat)
    requires MemOk(st)
    ensures Goes(st, SaveIntent(st, op)) && Goes(st, RecordRollback(st, op, now))
  {
    if Live(st, op) { HandleKeepsSound(st.active.value, RollbackWritten(now)); }
  }

  lemma PreemptGoes(st: St)
    requires MemOk(st)
    ensures Goes(st, Preempt(st))
  {
    InterruptGoes(st, Preempted);
  }

  lemma GateGoes(st: St, item: string)
    requires MemOk(st)
    ensures Goes(st, GateLegacy(st, item).0)
  {
    InterruptGoes(st, Superseded);
  }

  lemma SessionGoes(st: St, id: string, source: Source, now: nat)
    requires MemOk(st)
    ensures Goes(st, Reap(st, now)) && Goes(st, OpenSession(st, id, source, now))
    ensures Goes(st, RenewSession(st, id, now)) && Goes(st, CloseSession(st, id, now))
  {
  }

  lemma QueueGoes(st: St, q: seq<LegacyReq>)
    requires MemOk(st)
    ensures Goes(st, st.(legacy := q))
  {
  }

  /** May a submit go ahead? Its op_id is new, no session is open, and whatever is live is a change of the
      same item that waits for readings with no write under way, and the source is a user or the guard. */
  predicate MayGo(st: St, req: Request) {
    && !(st.active.Some? && st.active.value.change.opId == req.opId)
    && (forall i :: 0 <= i < |st.recent| ==> st.recent[i].change.opId != req.opId)
    && st.session.None?
    && (st.active.Some? ==>
          && st.active.value.change.item == req.spec.item
          && (st.active.value.phase == Verifying || st.active.value.phase == RollingBack)
          && st.active.value.intent == None
          && (req.source == Screen || req.source == Web || req.source == Legacy || req.source == Guard))
  }

  lemma ClearIsMayGo(st: St, req: Request)
    ensures Clear(st, req) <==> MayGo(st, req)
  {
  }

  /** What installing does to the state: a sound transaction with a pending apply
      intent is live and on disk; one that it overrides ends as superseded, is
      remembered, and hands on its rollback target. */
  lemma InstallLaws(st: St, req: Request, serial: nat, before: string, sim: SimId,
                    conn: Option<Conn>, rollback: bool, boot: string, now: nat)
    requires Clear(st, req) && req.spec.deadlineMs > 0
    ensures var u := Install(st, req, serial, before, sim, conn, rollback, boot, now);
            && u.active.Some? && u.disk == u.active && u.session.None?
            && u.legacy == st.legacy
            && Sound(u.active.value) && u.active.value.phase.Applying?
            && u.active.value.change.serial == serial
            && u.active.value.change.opId == req.opId
            && u.active.value.change.before == before
            && u.active.value.change.target == req.target && u.active.value.change.item == req.spec.item
            && (st.active.Some? ==> st.active.value.change.item == req.spec.item)
            && u.active.value.change.rollbackTo ==
                 (if st.active.Some? then st.active.value.change.rollbackTo else before)
            && (st.active.None? ==> SameRecent(st, u))
            && (st.active.Some? ==>
                  var o := st.active.value.Finish(Cancelled, Superseded);
                  u.recent == Remember(st.recent, o) && u.retired == st.retired + [o.change.opId])
  {
  }

  lemma InstallKeeps(st: St, req: Request, serial: nat, before: string, sim: SimId,
                     conn: Option<Conn>, rollback: bool, boot: string, now: nat)
    requires MemOk(st) && Clear(st, req) && req.spec.deadlineMs > 0
    ensures var u := Install(st, req, serial, before, sim, conn, rollback, boot, now);
            MemOk(u) && (if st.active.None? then SameRecent(st, u) else Retires(st, u))
  {
    hide Install;
    InstallLaws(st, req, serial, before, sim, conn, rollback, boot, now);
  }

  lemma TakenUp(disk: Option<Txn>, t: Txn)
    requires disk.Some? && Sound(t) && !t.phase.Accepted? && t.change == disk.value.change
    ensures var st := FinishActive(Persist(Empty(disk).(active := Some(t)), true));
            MemOk(st) && RecentOk(st) && (st.active.Some? ==> st.active.value == t)
  {
    hide Sound;
  }

  /** Starting with a sound transaction on disk, or none. */
  lemma StartKeeps(disk: Option<Txn>, takeover: bool, boot: string, now: nat)
    requires disk.Some? ==> LiveOk(disk.value)
    ensures var st := Start(disk, takeover, boot, now);
            && MemOk(st) && RecentOk(st)
            && (st.active.Some? ==> disk.Some? && st.active.value.change == disk.value.change)
  {
    hide Sound, Txn.Resume, Txn.Cancel, MemOk, RecentOk;
    if disk.Some? {
      var e := if takeover then Cancels(Takeover) else Restart(boot, now);
      HandleKeepsSound(disk.value, e);
      TakenUp(disk, Handle(disk.value, e));
    } else {
      NothingThere();
    }
  }

  lemma NothingThere()
    ensures MemOk(Empty(None)) && RecentOk(Empty(None))
  {
  }

  // ---- the queue ------------------------------------------------------------------------------

  predicate Ordered(q: seq<LegacyReq>) {
    forall i, j :: 0 <= i < j < |q| ==> q[i].arrival < q[j].arrival && q[i].item != q[j].item
  }

  /** `p` is `q` with some entries left out. */
  predicate Within(p: seq<LegacyReq>, q: seq<LegacyReq>) {
    forall i :: 0 <= i < |p| ==> p[i] in q
  }

  lemma TailOrdered(q: seq<LegacyReq>)
    requires Ordered(q) && q != []
    ensures Ordered(q[1..])
  {
  }

  /** Some of the tail, with or without the head. */
  lemma PrependOrdered(q: seq<LegacyReq>, p: seq<LegacyReq>)
    requires Ordered(q) && q != [] && Ordered(p) && Within(p, q[1..])
    ensures Ordered([q[0]] + p) && Within([q[0]] + p, q) && Within(p, q)
  {
    forall i | 0 <= i < |p|
      ensures p[i] in q && q[0].arrival < p[i].arrival && q[0].item != p[i].item
    {
      var j :| 0 <= j < |q[1..]| && q[1..][j] == p[i];
      assert q[j + 1] == p[i];
    }
  }

  lemma {:induction false} WithoutItemLaws(q: seq<LegacyReq>, item: string)
    requires Ordered(q)
    ensures Ordered(WithoutItem(q, item)) && Within(WithoutItem(q, item), q)
    decreases |q|
  {
    if q != [] {
      hide Ordered, Within;
      TailOrdered(q);
      WithoutItemLaws(q[1..], item);
      PrependOrdered(q, WithoutItem(q[1..], item));
      assert [] + WithoutItem(q[1..], item) == WithoutItem(q[1..], item);
    }
  }

  /** Exactly the requests of other items stay. */
  lemma {:induction false} WithoutItemExact(q: seq<LegacyReq>, item: string)
    ensures forall r :: r in WithoutItem(q, item) <==> r in q && r.item != item
    decreases |q|
  {
    if q != [] {
      WithoutItemExact(q[1..], item);
      assert q == [q[0]] + q[1..];
    }
  }

  /** Exactly the requests that have waited less than `ttl` stay. */
  lemma {:induction false} FreshOnlyExact(q: seq<LegacyReq>, now: nat, ttl: nat)
    ensures forall r :: r in FreshOnly(q, now, ttl) <==> r in q && Waited(r, now) < ttl
    decreases |q|
  {
    if q != [] {
      FreshOnlyExact(q[1..], now, ttl);
      assert q == [q[0]] + q[1..];
    }
  }

  /** How long a request has waited. */
  function Waited(r: LegacyReq, now: nat): nat { if now >= r.atMs then now - r.atMs else 0 }

  /** The drainer takes the oldest request that has not waited too long, if nothing holds the lock; requests
      that have waited too long are dropped then, and all others stay. */
  lemma DrainPopExact(st: St, now: nat, ttl: nat)
    requires Ordered(st.legacy)
    ensures var (u, r) := DrainPop(st, now, ttl);
            && u == st.(legacy := u.legacy)
            && (st.active.Some? || st.session.Some? ==> u == st && r.None?)
            && (st.active.None? && st.session.None? ==>
                  && (r.None? <==> forall x | x in st.legacy :: Waited(x, now) >= ttl)
                  && (r.Some? ==> r.value in st.legacy && Waited(r.value, now) < ttl &&
                                  forall x | x in st.legacy && Waited(x, now) < ttl :: r.value.arrival <= x.arrival)
                  && (forall x :: x in u.legacy <==> x in st.legacy && Waited(x, now) < ttl && r != Some(x)))
  {
    FreshOnlyExact(st.legacy, now, ttl);
    FreshOnlyLaws(st.legacy, now, ttl);
    var p := FreshOnly(st.legacy, now, ttl);
    hide FreshOnly;
    if p != [] {
      assert p[0] in p && p == [p[0]] + p[1..];
      OldestFirst(p);
    }
  }

  lemma OldestFirst(p: seq<LegacyReq>)
    requires Ordered(p) && p != []
    ensures forall x | x in p :: p[0].arrival <= x.arrival
    ensures forall x | x in p[1..] :: x != p[0]
  {
  }

  lemma {:induction false} FreshOnlyLaws(q: seq<LegacyReq>, now: nat, ttl: nat)
    requires Ordered(q)
    ensures Ordered(FreshOnly(q, now, ttl)) && Within(FreshOnly(q, now, ttl), q)
    decreases |q|
  {
    if q != [] {
      hide Ordered, Within;
      TailOrdered(q);
      FreshOnlyLaws(q[1..], now, ttl);
      PrependOrdered(q, FreshOnly(q[1..], now, ttl));
      assert [] + FreshOnly(q[1..], now, ttl) == FreshOnly(q[1..], now, ttl);
    }
  }

  /** One entry per item, in order of arrival; the request that is being run is older than all that wait. */
  predicate QueueOk(q: seq<LegacyReq>, running: Option<LegacyReq>, arrivals: nat) {
    && Ordered(q) && (forall i :: 0 <= i < |q| ==> q[i].arrival < arrivals)
    && (running.Some? ==> running.value.arrival < arrivals &&
                          forall i :: 0 <= i < |q| ==> running.value.arrival < q[i].arrival)
  }

  lemma EnqueueOk(q: seq<LegacyReq>, running: Option<LegacyReq>, arrivals: nat, r: LegacyReq)
    requires QueueOk(q, running, arrivals) && r.arrival == arrivals
    ensures QueueOk(WithoutItem(q, r.item) + [r], running, arrivals + 1)
  {
    WithoutItemLaws(q, r.item);
    WithoutItemExact(q, r.item);
    var p := WithoutItem(q, r.item);
    assert forall i :: 0 <= i < |p| ==> p[i] in q;
  }

  lemma PopOk(q: seq<LegacyReq>, running: Option<LegacyReq>, arrivals: nat, now: nat, ttl: nat)
    requires QueueOk(q, running, arrivals)
    ensures var p := FreshOnly(q, now, ttl);
            if p == [] then QueueOk([], running, arrivals) else QueueOk(p[1..], Some(p[0]), arrivals)
  {
    FreshOnlyLaws(q, now, ttl);
    HeadOut(q, FreshOnly(q, now, ttl), running, arrivals);
  }

  lemma HeadOut(q: seq<LegacyReq>, p: seq<LegacyReq>, running: Option<LegacyReq>, arrivals: nat)
    requires QueueOk(q, running, arrivals) && Ordered(p) && Within(p, q)
    ensures if p == [] then QueueOk([], running, arrivals) else QueueOk(p[1..], Some(p[0]), arrivals)
  {
    assert forall i :: 0 <= i < |p| ==> p[i] in q;
  }

  lemma PutBackOk(st: St, r: LegacyReq, arrivals: nat)
    requires QueueOk(st.legacy, Some(r), arrivals)
    ensures QueueOk(PutBack(st, r).legacy, None, arrivals)
  {
  }
}
