/** The engine's state `St` of `ops/engine.rs` and what each section run under
    its lock does to it. Everything between two lock sections (device calls,
    sleeps) belongs to `OpsProtocol`; `OpsEngine` performs the same sections on
    an object in place. */
module OpsState {
  import opened Common
  import opened OpsTxn

  /** One row of the action table. */
  datatype Spec = Spec(action: string, item: string, deadlineMs: nat, confirm: Confirm)

  datatype Request = Request(spec: Spec, target: string, source: Source, opId: string, undo: bool)

  /** A queued request of an old client. `arrival` numbers the queued requests in
      the order they came in; it is a history variable. */
  datatype LegacyReq = LegacyReq(
    item: string, action: string, params: string, atMs: nat, arrival: nat)

  datatype Session = Session(id: string, source: Source, openedMs: nat, renewedMs: nat)

  const RECENT: nat := 16
  const SEEN_SAVE_MS: nat := 10_000
  const SESSION_MAX_MS: nat := 420_000
  const SESSION_LEASE_MS: nat := 60_000

  /** `disk` is the file with the pending transaction. `retired` lists the op_ids of all
      transactions retired since the process started; it is a history variable. */
  datatype St = St(
    active: Option<Txn>, session: Option<Session>, recent: seq<Txn>,
    legacy: seq<LegacyReq>, savedSeenMs: nat, disk: Option<Txn>, retired: seq<string>)

  /** A process that has just started and has loaded nothing. */
  function Empty(disk: Option<Txn>): St {
    St(None, None, [], [], 0, disk, [])
  }

  predicate Live(st: St, op: string) {
    st.active.Some? && st.active.value.change.opId == op
  }

  predicate Knows(st: St, op: string) {
    Live(st, op) || exists i :: 0 <= i < |st.recent| && st.recent[i].change.opId == op
  }

  /** A write call or rollback call under way cannot be overridden. */
  predicate Replaceable(t: Txn, item: string) {
    t.change.item == item && t.Counting()
  }

  predicate Overridable(t: Txn, req: Request) {
    req.source.MayOverride() && Replaceable(t, req.spec.item)
  }

  /** May this request go ahead right now? */
  predicate Clear(st: St, req: Request) {
    && !Knows(st, req.opId)
    && st.session.None?
    && (st.active.Some? ==> Overridable(st.active.value, req))
  }

  function Persist(st: St, force: bool): St {
    if st.active.None? then st
    else if st.active.value.phase.IsFinal() then st.(disk := None)
    else if force || SatSub(st.active.value.clock.seenMs, st.savedSeenMs) >= SEEN_SAVE_MS
    then st.(disk := st.active, savedSeenMs := st.active.value.clock.seenMs)
    else st
  }

  function Remember(recent: seq<Txn>, t: Txn): seq<Txn> {
    (if |recent| >= RECENT then recent[1..] else recent) + [t]
  }

  function Retire(st: St): St {
    if st.active.None? then st
    else st.(active := None, recent := Remember(st.recent, st.active.value),
             retired := st.retired + [st.active.value.change.opId])
  }

  function FinishActive(st: St): St {
    if st.active.Some? && st.active.value.phase.IsFinal() then Retire(st).(disk := None) else st
  }

  /** The change a request makes, given the value read before the write. */
  function ChangeOf(req: Request, serial: nat, before: string, rollbackTo: string, sim: SimId,
                    rollback: bool, now: nat): Change {
    Change(serial, req.opId, req.spec.action, req.spec.item, req.source, req.undo, req.target,
           before, rollbackTo, sim, req.spec.confirm, rollback && !req.source.Legacy?,
           req.spec.deadlineMs, now)
  }

  /** The second lock section of `submit`: an overridden transaction ends as
      superseded and hands on its rollback target; the new one is saved with its
      write intent. */
  function Install(st: St, req: Request, serial: nat, before: string, sim: SimId,
                   conn: Option<Conn>, rollback: bool, boot: string, now: nat): St
    requires Clear(st, req)
  {
    var rollbackTo := if st.active.Some? then st.active.value.change.rollbackTo else before;
    var st1 := if st.active.Some?
               then Retire(st.(active := Some(st.active.value.Cancel(Superseded)))) else st;
    var t := Create(ChangeOf(req, serial, before, rollbackTo, sim, rollback, now), conn, boot);
    Persist(st1.(active := Some(t.BeginApply())), true)
  }

  /** The third lock section of `submit`, after the write call returned. */
  function RecordWrite(st: St, op: string, outcome: Applied, now: nat): St {
    Persist(if Live(st, op) then st.(active := Some(st.active.value.WriteReturned(outcome, now)))
            else st, true)
  }

  /** The driver hands in what it read, or that it could not read. */
  function Feed(st: St, op: string, generation: nat, r: Option<Reading>, now: nat): St {
    if !Live(st, op) || st.active.value.generation != generation then st
    else
      var t := st.active.value;
      var u := if r.Some? then t.OnReading(r.value, now) else t.OnTick(now);
      FinishActive(Persist(st.(active := Some(u)), u.generation != generation))
  }

  function Interrupt(st: St, why: Reason): St {
    if st.active.None? then st
    else FinishActive(st.(active := Some(st.active.value.Cancel(why))))
  }

  /** The rollback is about to be sent: its intent goes to disk first. */
  function SaveIntent(st: St, op: string): St {
    if Live(st, op) then Persist(st, true) else st
  }

  function RecordRollback(st: St, op: string, now: nat): St {
    if !Live(st, op) then st
    else Persist(st.(active := Some(st.active.value.RollbackSent(now))), true)
  }

  function RevertNow(st: St, op: string): St {
    if !Live(st, op) then st
    else match st.active.value.Revert()
         case Ok(u) => Persist(st.(active := Some(u)), true)
         case Err(_) => st
  }

  function KeepNow(st: St, op: string): St {
    if !Live(st, op) then st
    else match st.active.value.Keep()
         case Ok(u) => FinishActive(st.(active := Some(u)))
         case Err(_) => st
  }

  /** A safety write: ends the transaction and empties the queue. */
  function Preempt(st: St): St {
    Interrupt(st, Preempted).(legacy := [])
  }

  datatype GateAnswer = PassOn | Queue

  function GateLegacy(st: St, item: string): (St, GateAnswer) {
    if st.session.Some? then (st, Queue)
    else if st.active.None? then (st, PassOn)
    else if Replaceable(st.active.value, item) then (Interrupt(st, Superseded), PassOn)
    else (st, Queue)
  }

  function WithoutItem(q: seq<LegacyReq>, item: string): seq<LegacyReq> {
    if q == [] then []
    else (if q[0].item == item then [] else [q[0]]) + WithoutItem(q[1..], item)
  }

  function FreshOnly(q: seq<LegacyReq>, now: nat, ttl: nat): seq<LegacyReq> {
    if q == [] then []
    else (if SatSub(now, q[0].atMs) < ttl then [q[0]] else []) + FreshOnly(q[1..], now, ttl)
  }

  predicate HasItem(q: seq<LegacyReq>, item: string) {
    exists i :: 0 <= i < |q| && q[i].item == item
  }

  function Queued(st: St, r: LegacyReq): St {
    st.(legacy := WithoutItem(st.legacy, r.item) + [r])
  }

  predicate Idle(st: St) { st.active.None? && st.session.None? }

  /** The drainer looks for work: nothing while something holds the lock. */
  function DrainPop(st: St, now: nat, ttl: nat): (St, Option<LegacyReq>) {
    if !Idle(st) then (st, None)
    else
      var q := FreshOnly(st.legacy, now, ttl);
      if q == [] then (st.(legacy := []), None)
      else (st.(legacy := q[1..]), Some(q[0]))
  }

  /** The executor was full: back to the front, unless a newer one came in. */
  function PutBack(st: St, r: LegacyReq): St {
    if HasItem(st.legacy, r.item) then st else st.(legacy := [r] + st.legacy)
  }

  predicate SessionOver(s: Session, now: nat) {
    SatSub(now, s.openedMs) >= SESSION_MAX_MS || SatSub(now, s.renewedMs) >= SESSION_LEASE_MS
  }

  function Reap(st: St, now: nat): St {
    if st.session.Some? && SessionOver(st.session.value, now) then st.(session := None) else st
  }

  function OpenSession(st: St, id: string, source: Source, now: nat): St {
    var st := Reap(st, now);
    if Idle(st) then st.(session := Some(Session(id, source, now, now))) else st
  }

  /** Renewing, and any gated request that carries the current session's id. */
  function RenewSession(st: St, id: string, now: nat): St {
    var st := Reap(st, now);
    if st.session.Some? && st.session.value.id == id
    then st.(session := Some(st.session.value.(renewedMs := now))) else st
  }

  function CloseSession(st: St, id: string, now: nat): St {
    var st := Reap(st, now);
    if st.session.Some? && st.session.value.id == id then st.(session := None) else st
  }

  /** The process starts: the pending transaction is dropped after an emergency
      write, otherwise resumed. */
  function Start(disk: Option<Txn>, takeover: bool, boot: string, now: nat): St {
    if disk.None? then Empty(None)
    else
      var t := if takeover then disk.value.Cancel(Takeover) else disk.value.Resume(boot, now);
      FinishActive(Persist(Empty(disk).(active := Some(t)), true))
  }
}
