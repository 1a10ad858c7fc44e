/** The engine's shared state as `ops/engine.rs` changes it under its lock: each method is one
    section between locking and unlocking, does to `State()` what `OpsState` says, and keeps
    `Valid()`: the live transaction is sound and has not ended, the file holds the same change, none
    is live in a session, the last sixteen that ended are remembered in their order, and the queue
    holds one request per item in order of arrival. */
module OpsEngine {
  import opened Common
  import opened OpsTxn
  import opened OpsTxnLaws
  import opened OpsState
  import opened OpsStateLaws

  datatype Decision = Existing | Busy | Go

  class Engine {
    var active: Option<Txn>
    var session: Option<Session>
    var recent: seq<Txn>
    var legacy: seq<LegacyReq>
    var savedSeenMs: nat
    /** The file with the pending transaction. */
    var disk: Option<Txn>
    ghost var retired: seq<string>
    /** Numbers the queued requests; the request that was taken out last. */
    var arrivals: nat
    ghost var running: Option<LegacyReq>

    ghost predicate Valid()
      reads this
    {
      MemOk(State()) && RecentOk(State()) && QueueOk(legacy, running, arrivals)
    }

    ghost function State(): St
      reads this
    {
      St(active, session, recent, legacy, savedSeenMs, disk, retired)
    }

    constructor (disk: Option<Txn>)
      ensures State() == Empty(disk) && QueueOk(legacy, running, arrivals)
    {
      active, session, recent, legacy, savedSeenMs := None, None, [], [], 0;
      this.disk := disk;
      retired, arrivals, running := [], 0, None;
    }

    /** `find`: the live transaction, then the finished ones from the newest back. */
    method Find(op: string) returns (known: bool)
      ensures known == Knows(State(), op)
    {
      if active.Some? && active.value.change.opId == op { return true; }
      var i := |recent|;
      while i > 0
        invariant 0 <= i <= |recent|
        invariant forall j :: i <= j < |recent| ==> recent[j].change.opId != op
      {
        i := i - 1;
        if recent[i].change.opId == op { return true; }
      }
      return false;
    }

    method Save(force: bool)
      modifies this`disk, this`savedSeenMs
      ensures State() == Persist(old(State()), force)
    {
      if active.None? { return; }
      var t := active.value;
      if t.phase.IsFinal() {
        disk := None;
      } else if force || SatSub(t.clock.seenMs, savedSeenMs) >= SEEN_SAVE_MS {
        disk := Some(t);
        savedSeenMs := t.clock.seenMs;
      }
    }

    method RetireActive()
      modifies this`active, this`recent, this`retired
      ensures State() == Retire(old(State()))
    {
      if active.None? { return; }
      var t := active.value;
      active := None;
      if |recent| >= RECENT { recent := recent[1..]; }
      recent := recent + [t];
      retired := retired + [t.change.opId];
    }

    method Finish()
      modifies this`active, this`recent, this`retired, this`disk
      ensures State() == FinishActive(old(State()))
    {
      if active.Some? && active.value.phase.IsFinal() {
        RetireActive();
        disk := None;
      }
    }

    /** What `submit` finds under the lock, the first time and again before the write. */
    method Look(req: Request) returns (d: Decision)
      ensures d == Existing <==> Knows(State(), req.opId)
      ensures d == Go <==> MayGo(State(), req)
    {
      ClearIsMayGo(State(), req);
      var known := Find(req.opId);
      if known { return Existing; }
      if session.Some? { return Busy; }
      if active.Some? && !Overridable(active.value, req) { return Busy; }
      return Go;
    }

    /** The section before the write: decides again, ends an overridden transaction and takes over its
        rollback target, and saves the new one with its write intent. `serial` is a history variable. */
    method SubmitNow(req: Request, serial: nat, before: string, sim: SimId, conn: Option<Conn>, rollback: bool,
                     boot: string, now: nat) returns (d: Decision)
      requires Valid() && req.spec.deadlineMs > 0
      modifies this`active, this`recent, this`retired, this`disk, this`savedSeenMs
      ensures d == Existing <==> old(Knows(State(), req.opId))
      ensures d == Go <==> old(MayGo(State(), req))
      ensures State() == if d == Go then Install(old(State()), req, serial, before, sim, conn, rollback, boot, now)
                         else old(State())
      ensures Valid()
    {
      hide MemOk, RecentOk, QueueOk;
      Decided(req, serial, before, sim, conn, rollback, boot, now);
      ClearIsMayGo(State(), req);
      d := Look(req);
      if d != Go { return; }
      var rollbackTo := before;
      if active.Some? {
        rollbackTo := active.value.change.rollbackTo;
        active := Some(active.value.Cancel(Superseded));
        RetireActive();
      }
      var t := Create(ChangeOf(req, serial, before, rollbackTo, sim, rollback, now), conn, boot);
      active := Some(t.BeginApply());
      Save(true);
    }

    method WriteDone(op: string, outcome: Applied, now: nat) returns (live: bool)
      requires Valid()
      modifies this`active, this`recent, this`retired, this`disk, this`savedSeenMs
      ensures live == old(Live(State(), op)) && State() == RecordWrite(old(State()), op, outcome, now)
      ensures Valid()
    {
      hide MemOk, RecentOk, QueueOk;
      RecordGoes(State(), op, outcome, now);
      GoesRecent(State(), RecordWrite(State(), op, outcome, now));
      live := active.Some? && active.value.change.opId == op;
      if live { active := Some(active.value.WriteReturned(outcome, now)); }
      Save(true);
    }

    method TakeReading(op: string, generation: nat, r: Option<Reading>, now: nat)
      requires Valid()
      modifies this`active, this`recent, this`retired, this`disk, this`savedSeenMs
      ensures State() == Feed(old(State()), op, generation, r, now)
      ensures Valid()
    {
      hide MemOk, RecentOk, QueueOk;
      FeedGoes(State(), op, generation, r, now);
      GoesRecent(State(), Feed(State(), op, generation, r, now));
      if !(active.Some? && active.value.change.opId == op) { return; }
      if active.value.generation != generation { return; }
      var t := active.value;
      var u := if r.Some? then t.OnReading(r.value, now) else t.OnTick(now);
      active := Some(u);
      Save(u.generation != generation);
      Finish();
    }

    /** Ends the live transaction, if there is one. */
    method InterruptNow(why: Reason)
      requires Valid() && Interrupting(why)
      modifies this`active, this`recent, this`retired, this`disk, this`savedSeenMs
      ensures State() == Interrupt(old(State()), why)
      ensures Valid()
    {
      hide MemOk, RecentOk, QueueOk;
      InterruptGoes(State(), why);
      GoesRecent(State(), Interrupt(State(), why));
      if active.None? { return; }
      active := Some(active.value.Cancel(why));
      Finish();
    }

    method SaveBeforeRollback(op: string) returns (live: bool)
      requires Valid()
      modifies this`active, this`recent, this`retired, this`disk, this`savedSeenMs
      ensures live == old(Live(State(), op)) && State() == SaveIntent(old(State()), op)
      ensures Valid()
    {
      hide MemOk, RecentOk, QueueOk;
      RollbackGoes(State(), op, 0);
      GoesRecent(State(), SaveIntent(State(), op));
      live := active.Some? && active.value.change.opId == op;
      if live { Save(true); }
    }

    method RollbackDone(op: string, now: nat)
      requires Valid()
      modifies this`active, this`recent, this`retired, this`disk, this`savedSeenMs
      ensures State() == RecordRollback(old(State()), op, now)
      ensures Valid()
    {
      hide MemOk, RecentOk, QueueOk;
      RollbackGoes(State(), op, now);
      GoesRecent(State(), RecordRollback(State(), op, now));
      if active.Some? && active.value.change.opId == op {
        active := Some(active.value.RollbackSent(now));
        Save(true);
      }
    }

    method Revert(op: string) returns (r: Outcome<(), string>)
      requires Valid()
      modifies this`active, this`recent, this`retired, this`disk, this`savedSeenMs
      ensures State() == RevertNow(old(State()), op)
      ensures r.Ok? <==> old(Live(State(), op)) && old(active.value.Revert().Ok?)
      ensures Valid()
    {
      hide MemOk, RecentOk, QueueOk;
      AskGoes(State(), op);
      GoesRecent(State(), RevertNow(State(), op));
      if !(active.Some? && active.value.change.opId == op) { return Err("no such change in progress"); }
      match active.value.Revert() {
        case Ok(u) =>
          active := Some(u);
          Save(true);
          return Ok(());
        case Err(e) => return Err(e);
      }
    }

    method Keep(op: string) returns (r: Outcome<(), string>)
      requires Valid()
      modifies this`active, this`recent, this`retired, this`disk, this`savedSeenMs
      ensures State() == KeepNow(old(State()), op)
      ensures r.Ok? <==> old(Live(State(), op)) && old(active.value.Keep().Ok?)
      ensures Valid()
    {
      hide MemOk, RecentOk, QueueOk;
      AskGoes(State(), op);
      GoesRecent(State(), KeepNow(State(), op));
      if !(active.Some? && active.value.change.opId == op) { return Err("no such change in progress"); }
      match active.value.Keep() {
        case Ok(u) =>
          active := Some(u);
          Finish();
          return Ok(());
        case Err(e) => return Err(e);
      }
    }

    method PreemptNow()
      requires Valid()
      modifies this`active, this`recent, this`retired, this`disk, this`savedSeenMs, this`legacy
      ensures State() == Preempt(old(State()))
      ensures Valid()
    {
      hide MemOk, RecentOk, QueueOk;
      PreemptGoes(State());
      GoesRecent(State(), Preempt(State()));
      NoQueue(legacy, running, arrivals);
      InterruptNow(Preempted);
      legacy := [];
    }

    method LegacyGate(item: string) returns (answer: GateAnswer)
      requires Valid()
      modifies this`active, this`recent, this`retired, this`disk, this`savedSeenMs
      ensures (State(), answer) == GateLegacy(old(State()), item)
      ensures Valid()
    {
      hide MemOk, RecentOk, QueueOk;
      GateGoes(State(), item);
      GoesRecent(State(), GateLegacy(State(), item).0);
      if session.Some? { return Queue; }
      if active.None? { return PassOn; }
      if Replaceable(active.value, item) {
        InterruptNow(Superseded);
        return PassOn;
      }
      return Queue;
    }

    /** Keeps the queued requests of other items. */
    method DropItem(item: string)
      modifies this`legacy
      ensures legacy == WithoutItem(old(legacy), item)
    {
      var kept: seq<LegacyReq> := [];
      var i := 0;
      while i < |legacy|
        invariant i <= |legacy| && legacy == old(legacy)
        invariant WithoutItem(legacy, item) == kept + WithoutItem(legacy[i..], item)
      {
        assert legacy[i..][1..] == legacy[i + 1..];
        if legacy[i].item != item { kept := kept + [legacy[i]]; }
        i := i + 1;
      }
      legacy := kept;
    }

    /** Keeps the queued requests that are not too old. */
    method DropExpired(now: nat, ttl: nat)
      modifies this`legacy
      ensures legacy == FreshOnly(old(legacy), now, ttl)
    {
      var kept: seq<LegacyReq> := [];
      var i := 0;
      while i < |legacy|
        invariant i <= |legacy| && legacy == old(legacy)
        invariant FreshOnly(legacy, now, ttl) == kept + FreshOnly(legacy[i..], now, ttl)
      {
        assert legacy[i..][1..] == legacy[i + 1..];
        if SatSub(now, legacy[i].atMs) < ttl { kept := kept + [legacy[i]]; }
        i := i + 1;
      }
      legacy := kept;
    }

    /** The newest request of an item replaces the older one. */
    method Enqueue(item: string, action: string, params: string, now: nat)
      requires Valid()
      modifies this`legacy, this`arrivals
      ensures State() == Queued(old(State()), LegacyReq(item, action, params, now, old(arrivals)))
      ensures Valid()
    {
      hide QueueOk;
      var r := LegacyReq(item, action, params, now, arrivals);
      EnqueueOk(legacy, running, arrivals, r);
      DropItem(item);
      legacy := legacy + [r];
      arrivals := arrivals + 1;
    }

    /** Nothing while something holds the lock, otherwise the first request that is not too old. */
    method NextQueued(now: nat, ttl: nat) returns (r: Option<LegacyReq>)
      requires Valid()
      modifies this`legacy, this`running
      ensures (State(), r) == DrainPop(old(State()), now, ttl)
      ensures Valid() && (r.Some? ==> running == r)
    {
      hide QueueOk, FreshOnly;
      PopOk(legacy, running, arrivals, now, ttl);
      if active.Some? || session.Some? { return None; }
      DropExpired(now, ttl);
      if legacy == [] { return None; }
      r := Some(legacy[0]);
      running := r;
      legacy := legacy[1..];
    }

    /** The request taken out last goes back to the front, unless a newer one of its item came in. */
    method PutBackFirst(r: LegacyReq)
      requires Valid() && running == Some(r)
      modifies this`legacy, this`running
      ensures State() == PutBack(old(State()), r)
      ensures Valid()
    {
      hide QueueOk;
      PutBackOk(State(), r, arrivals);
      running := None;
      var i := 0;
      while i < |legacy|
        invariant i <= |legacy| && forall j :: 0 <= j < i ==> legacy[j].item != r.item
      {
        if legacy[i].item == r.item { return; }
        i := i + 1;
      }
      legacy := [r] + legacy;
    }

    method ReapSession(now: nat)
      requires Valid()
      modifies this`session
      ensures State() == Reap(old(State()), now)
      ensures Valid()
    {
      hide MemOk, RecentOk, QueueOk;
      SessionGoes(State(), "", Screen, now);
      GoesRecent(State(), Reap(State(), now));
      if session.Some? && SessionOver(session.value, now) { session := None; }
    }

    method SessionOpen(id: string, source: Source, now: nat) returns (ok: bool)
      requires Valid()
      modifies this`session
      ensures State() == OpenSession(old(State()), id, source, now)
      ensures ok <==> Idle(Reap(old(State()), now))
      ensures Valid()
    {
      hide MemOk, RecentOk, QueueOk;
      SessionGoes(State(), id, source, now);
      GoesRecent(State(), OpenSession(State(), id, source, now));
      ReapSession(now);
      if session.Some? || active.Some? { return false; }
      session := Some(Session(id, source, now, now));
      return true;
    }

    method SessionRenew(id: string, now: nat) returns (ok: bool)
      requires Valid()
      modifies this`session
      ensures State() == RenewSession(old(State()), id, now)
      ensures ok ==> session.Some? && session.value.id == id && session.value.renewedMs == now
      ensures Valid()
    {
      hide MemOk, RecentOk, QueueOk;
      SessionGoes(State(), id, Screen, now);
      GoesRecent(State(), RenewSession(State(), id, now));
      ReapSession(now);
      if session.None? || session.value.id != id { return false; }
      session := Some(session.value.(renewedMs := now));
      return true;
    }

    method SessionClose(id: string, now: nat) returns (ok: bool)
      requires Valid()
      modifies this`session
      ensures State() == CloseSession(old(State()), id, now)
      ensures ok ==> session.None?
      ensures Valid()
    {
      hide MemOk, RecentOk, QueueOk;
      SessionGoes(State(), id, Screen, now);
      GoesRecent(State(), CloseSession(State(), id, now));
      ReapSession(now);
      if session.None? || session.value.id != id { return false; }
      session := None;
      return true;
    }

    /** The process starts with what the file holds. */
    method StartUp(takeover: bool, boot: string, now: nat) returns (live: bool)
      requires State() == Empty(disk) && QueueOk(legacy, running, arrivals) && (disk.Some? ==> LiveOk(disk.value))
      modifies this`active, this`recent, this`retired, this`disk, this`savedSeenMs
      ensures State() == Start(old(disk), takeover, boot, now) && live == State().active.Some?
      ensures Valid()
    {
      hide MemOk, RecentOk, QueueOk;
      StartKeeps(disk, takeover, boot, now);
      if disk.None? { return false; }
      var t := if takeover then disk.value.Cancel(Takeover) else disk.value.Resume(boot, now);
      active := Some(t);
      Save(true);
      Finish();
      live := active.Some?;
    }

    lemma Decided(req: Request, serial: nat, before: string, sim: SimId, conn: Option<Conn>, rollback: bool,
                  boot: string, now: nat)
      requires Valid() && req.spec.deadlineMs > 0
      ensures Clear(State(), req) ==>
                var u := Install(State(), req, serial, before, sim, conn, rollback, boot, now);
                MemOk(u) && RecentOk(u) && u.legacy == legacy
    {
      hide Install, Clear, QueueOk;
      if Clear(State(), req) {
        InstallKeeps(State(), req, serial, before, sim, conn, rollback, boot, now);
        InstallLaws(State(), req, serial, before, sim, conn, rollback, boot, now);
        RetiresKeepRecent(State(), Install(State(), req, serial, before, sim, conn, rollback, boot, now));
      }
    }
  }

  lemma NoQueue(q: seq<LegacyReq>, running: Option<LegacyReq>, arrivals: nat)
    requires QueueOk(q, running, arrivals)
    ensures QueueOk([], running, arrivals)
  {
  }
}
