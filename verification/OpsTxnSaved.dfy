/** The transaction and the copy of it on disk. A restart goes on from the copy, which may
    lack what the last ten seconds of readings have shown; phase, intent and everything
    else that a forced save protects is never lost. */
module OpsTxnSaved {
  import opened Common
  import opened OpsTxn
  import opened OpsTxnLaws
  import opened OpsState

  /** `lost` is how much of the wait reboots have forgotten so far; it is a history variable. */
  datatype Held = Held(t: Txn, saved: Txn, lost: nat)

  /** Events whose section always saves. */
  predicate Forced(e: Event) { e.WriteBack? || e.UserReverts? || e.RollbackWritten? }

  predicate Saves(t: Txn, u: Txn, saved: Txn, e: Event) {
    Forced(e) || u.generation != t.generation || SatSub(u.clock.seenMs, saved.clock.seenMs) >= SEEN_SAVE_MS
  }

  function Next(h: Held, e: Event): Held {
    if h.t.phase.IsFinal() then h
    else if e.Restart? then
      var u := h.saved.Resume(e.boot, e.now);
      Held(u, u, h.lost + if IsReboot(h.saved, e) then SatSub(h.t.clock.seenMs, h.saved.clock.seenMs) else 0)
    else
      var u := Handle(h.t, e);
      Held(u, if Saves(h.t, u, h.saved, e) then u else h.saved, h.lost)
  }

  function Live(h: Held, es: seq<Event>): Held
    decreases |es|
  {
    if es == [] then h else Live(Next(h, es[0]), es[1..])
  }

  // ---- the copy is close to the transaction --------------------------------------------------

  /** They differ in what readings leave noted, and the copy is less than ten seconds behind. */
  predicate Near(t: Txn, s: Txn) {
    && s.change == t.change && s.phase == t.phase && s.intent == t.intent && s.generation == t.generation
    && s.reason == t.reason && s.rollbackReason == t.rollbackReason && s.reference == t.reference
    && s.clock == t.clock.(seenMs := s.clock.seenMs)
    && SatSub(t.clock.seenMs, s.clock.seenMs) < SEEN_SAVE_MS
    && s.found.tookMs == t.found.tookMs
    && (s.found.everMatched ==> t.found.everMatched)
  }

  predicate Close(h: Held) {
    && Sound(h.t) && Sound(h.saved) && !h.t.phase.Accepted?
    && (h.t.phase.IsFinal() || Near(h.t, h.saved))
    && h.lost <= SEEN_SAVE_MS * h.t.clock.boots
  }

  /** Only what readings leave noted has changed. */
  predicate Notes(t: Txn, u: Txn) {
    && u.change == t.change && u.phase == t.phase && u.intent == t.intent && u.generation == t.generation
    && u.reason == t.reason && u.rollbackReason == t.rollbackReason && u.reference == t.reference
    && u.clock == t.clock.(seenMs := u.clock.seenMs)
    && u.found.tookMs == t.found.tookMs && (t.found.everMatched ==> u.found.everMatched)
  }

  /** From `m`, which only noted something more than `t`, on to `u`. */
  predicate NotesOr(t: Txn, u: Txn) { u.generation > t.generation || Notes(t, u) }

  lemma TickNotes(t: Txn, m: Txn, now: nat)
    requires Notes(t, m)
    ensures NotesOr(t, m.OnTick(now))
  {
  }

  lemma VerifyingNotes(t: Txn, m: Txn, r: Reading, v: string, now: nat)
    requires Notes(t, m)
    ensures NotesOr(t, m.OnConfigVerifying(r, v, now))
  {
    hide Txn.OnTick, Txn.Judge;
    TickNotes(t, m, now);
    var a := m.(found := m.found.(everMatched := true));
    TickNotes(t, a, now);
    TickNotes(t, a.(found := a.found.(dataOk := false)), now);
  }

  lemma RollingBackNotes(t: Txn, m: Txn, r: Reading, v: string, now: nat)
    requires Notes(t, m)
    ensures NotesOr(t, m.OnConfigRollingBack(r, v, now))
  {
    hide Txn.OnTick, Txn.Judge;
    TickNotes(t, m, now);
    TickNotes(t, m.(found := m.found.(dataOk := false)), now);
  }

  lemma ReadingNotes(t: Txn, r: Reading, now: nat)
    ensures NotesOr(t, t.OnReading(r, now))
  {
    hide Txn.OnTick, Txn.OnConfigVerifying, Txn.OnConfigRollingBack, Txn.NoteProbe;
    var n := t.Noted(r, now);
    TickNotes(t, n, now);
    TickNotes(t, t.(clock := t.clock.(seenMs := now), found := t.found.(lastConn := t.ConnAfter(r))), now);
    if r.value.Some? {
      VerifyingNotes(t, n, r, r.value.value, now);
      RollingBackNotes(t, n, r, r.value.value, now);
    }
  }

  /** An event that leaves the generation alone leaves all but the notes alone. */
  lemma SameGeneration(t: Txn, e: Event)
    requires !e.Restart? && !t.phase.IsFinal() && Handle(t, e).generation == t.generation
    ensures Notes(t, Handle(t, e))
  {
    match e
    case Read(r, now) => ReadingNotes(t, r, now);
    case Tick(now) => TickNotes(t, t, now);
    case _ =>
  }

  lemma NextClose(h: Held, e: Event)
    requires Close(h) && Legal(e)
    ensures Close(Next(h, e))
  {
    if !h.t.phase.IsFinal() {
      if e.Restart? {
        RestartClose(h, e);
      } else {
        HandleKeepsSound(h.t, e);
        HandleCountsReboots(h.t, e);
        if Handle(h.t, e).generation == h.t.generation { SameGeneration(h.t, e); }
        hide Sound, Handle;
      }
    }
  }

  lemma RestartClose(h: Held, e: Event)
    requires Close(h) && e.Restart? && !h.t.phase.IsFinal()
    ensures Close(Next(h, e))
  {
    HandleKeepsSound(h.saved, e);
    HandleCountsReboots(h.saved, e);
    hide Sound, Txn.Resume;
  }

  lemma {:induction false} LiveClose(h: Held, es: seq<Event>)
    requires Close(h) && AllLegal(es)
    ensures Close(Live(h, es))
    decreases |es|
  {
    hide Close;
    if es != [] {
      NextClose(h, es[0]);
      LiveClose(Next(h, es[0]), es[1..]);
    }
  }

  /** Over any sequence of events, process restarts and reboots, each going on from the copy on
      disk: the transaction stays sound, and what forced saves protect is what the copy has. */
  lemma CopyIsEnough(h: Held, es: seq<Event>)
    requires Close(h) && AllLegal(es)
    ensures var u := Live(h, es); Sound(u.t) && (u.t.phase.IsFinal() || Near(u.t, u.saved))
  {
    LiveClose(h, es);
  }

  // ---- "not applied" ------------------------------------------------------------------------------

  /** Once the copy on disk has the match, no event, restart or reboot can lead to "not applied". */
  lemma {:induction false} SavedMatchStays(h: Held, es: seq<Event>)
    requires Close(h) && AllLegal(es) && h.saved.found.everMatched && h.t.found.everMatched && !h.t.phase.NotApplied?
    ensures !Live(h, es).t.phase.NotApplied?
    decreases |es|
  {
    hide Close, Next;
    if es != [] && !h.t.phase.IsFinal() {
      SavedMatchNext(h, es[0]);
      SavedMatchStays(Next(h, es[0]), es[1..]);
    } else {
      AbsorbsLive(h, es);
    }
  }

  lemma SavedMatchNext(h: Held, e: Event)
    requires Close(h) && Legal(e) && h.saved.found.everMatched && h.t.found.everMatched && !h.t.phase.IsFinal()
    ensures var u := Next(h, e);
            Close(u) && u.saved.found.everMatched && u.t.found.everMatched && !u.t.phase.NotApplied?
  {
    NextClose(h, e);
    HandleKeepsSound(if e.Restart? then h.saved else h.t, e);
    hide Sound, Handle;
  }

  lemma {:induction false} AbsorbsLive(h: Held, es: seq<Event>)
    requires h.t.phase.IsFinal() || es == []
    ensures Live(h, es) == h
    decreases |es|
  {
    if es != [] { AbsorbsLive(h, es[1..]); }
  }

  /** The match is known, and lost only by a restart from a copy that lacks it. */
  lemma {:induction false} MatchNeedsRestart(h: Held, es: seq<Event>) returns (j: nat)
    requires Close(h) && AllLegal(es) && h.t.found.everMatched && !h.t.phase.NotApplied?
    requires Live(h, es).t.phase.NotApplied?
    ensures j < |es| && es[j].Restart? && !Live(h, es[..j]).saved.found.everMatched
    decreases |es|
  {
    if h.t.phase.IsFinal() || es == [] {
      AbsorbsLive(h, es);
      assert false;
    } else if h.saved.found.everMatched {
      SavedMatchStays(h, es);
      assert false;
    } else if es[0].Restart? {
      j := 0;
      assert es[..0] == [];
    } else {
      NextClose(h, es[0]);
      HandleKeepsSound(h.t, es[0]);
      hide Sound, Handle, Close;
      var i := MatchNeedsRestart(Next(h, es[0]), es[1..]);
      j := i + 1;
      assert es[..j][1..] == es[1..][..i];
    }
  }

  /** "Not applied" means that no reading taken into account ever showed the target, except one
      followed by a restart from a copy that was saved before it. */
  lemma {:induction false} NotAppliedNeverShown(h: Held, es: seq<Event>, k: nat) returns (j: nat)
    requires Close(h) && AllLegal(es) && !h.t.phase.IsFinal() && k < |es|
    requires Live(h, es).t.phase.NotApplied? && ShowedTarget(Live(h, es[..k]).t, es[k])
    ensures k < j < |es| && es[j].Restart? && !Live(h, es[..j]).saved.found.everMatched
    decreases |es|
  {
    hide Next, Close, Sound;
    NextClose(h, es[0]);
    if k == 0 {
      assert es[..0] == [];
      MatchNoted(h, es[0]);
      var i := MatchNeedsRestart(Next(h, es[0]), es[1..]);
      j := i + 1;
      assert es[..j][1..] == es[1..][..i];
    } else {
      assert es[..k][1..] == es[1..][..k - 1];
      if Next(h, es[0]).t.phase.IsFinal() {
        AbsorbsLive(Next(h, es[0]), es[1..][..k - 1]);
        assert false;
      } else {
        var i := NotAppliedNeverShown(Next(h, es[0]), es[1..], k - 1);
        j := i + 1;
        assert es[..j][1..] == es[1..][..i];
      }
    }
  }

  lemma MatchNoted(h: Held, e: Event)
    requires ShowedTarget(h.t, e)
    ensures Next(h, e).t.found.everMatched && !Next(h, e).t.phase.NotApplied?
  {
  }

  // ---- how long it can take ---------------------------------------------------------------------------

  /** Consecutive beats are at most `slack` apart. */
  predicate Paced(h: Held, beat: nat, slack: nat, es: seq<Event>)
    decreases |es|
  {
    es == [] ||
    (OnTime(h.t, beat, slack, es[0]) && Paced(Next(h, es[0]), Beat(h.t, beat, es[0]), slack, es[1..]))
  }

  function LastBeat(h: Held, beat: nat, es: seq<Event>): nat
    decreases |es|
  {
    if es == [] then beat else LastBeat(Next(h, es[0]), Beat(h.t, beat, es[0]), es[1..])
  }

  lemma NextKeepsBounds(h: Held, beat: nat, slack: nat, e: Event)
    requires Close(h) && Legal(e) && OnTime(h.t, beat, slack, e)
    requires WithinDeadline(h.t, beat) && TookWithin(h.t, slack)
    ensures WithinDeadline(Next(h, e).t, Beat(h.t, beat, e)) && TookWithin(Next(h, e).t, slack)
  {
    if !h.t.phase.IsFinal() {
      BeatKeepsBounds(if e.Restart? then h.saved else h.t, beat, slack, e);
      hide Sound, Handle;
    }
  }

  /** With beats at most `slack` apart, over any events, restarts and reboots from the copy on disk:
      the whole wait for confirmation, with what reboots forgot of it, stays under two deadlines,
      the slack and the ten seconds between saves, and the time that a confirmed transaction
      reports under two deadlines and the slack. */
  lemma {:induction false} TotalWaitBounded(h: Held, beat: nat, slack: nat, es: seq<Event>)
    requires Close(h) && AllLegal(es) && Paced(h, beat, slack, es)
    requires WithinDeadline(h.t, beat) && TookWithin(h.t, slack)
    ensures var u := Live(h, es); var b := LastBeat(h, beat, es);
            && TookWithin(u.t, slack)
            && (u.t.phase.Verifying? ==>
                  TotalWait(u.t, b + slack) + u.lost < 2 * u.t.change.deadlineMs + slack + SEEN_SAVE_MS)
    decreases |es|
  {
    if es != [] {
      NextClose(h, es[0]);
      NextKeepsBounds(h, beat, slack, es[0]);
      hide Sound, Handle, Close;
      TotalWaitBounded(Next(h, es[0]), Beat(h.t, beat, es[0]), slack, es[1..]);
    }
  }

  // ---- the conditions are needed ----------------------------------------------------------------------

  const SIM := SimId("1", 1)
  const CHANGE := Change(0, "a", "mode", "mode", Web, false, "new", "old", "old", SIM, Registered, true, 60_000, 0)
  const WAITING := Create(CHANGE, None, "b").BeginApply().WriteReturned(Applied.Done, 0)
  const MATCH := Reading(Some("new"), false, SIM, None, None)

  /** Without ticks a restart within the same boot goes on waiting, however late it comes. */
  lemma RestartAloneWaitsOn(n: nat)
    ensures var u := Live(Held(WAITING, WAITING, 0), [Restart("b", n)]).t;
            Close(Held(WAITING, WAITING, 0)) && u.phase.Verifying? && TotalWait(u, n) == n
  {
    var h := Held(WAITING, WAITING, 0);
    assert Live(h, [Restart("b", n)]) == Live(Next(h, Restart("b", n)), []);
  }

  // ---- exactly when a transaction can still end as not applied ------------------------------------------

  /** A value that is neither the target nor a manual change, if there is one. */
  function Unshown(c: Change): string { if c.target != "" then "" else c.before }

  /** The copy lacks the match, and readings so far, or a reading still to come, can be without it. The second
      part fails only where the target and the value before are both empty and nothing was read. */
  predicate Ignorable(h: Held) {
    && !h.saved.found.everMatched
    && (|| h.t.change.target != "" || h.t.change.before != "" || h.saved.found.readOk
        || (h.t.found.readOk && !h.t.found.everMatched))
  }

  ghost predicate CanEndIgnored(h: Held) {
    exists es :: AllLegal(es) && Live(h, es).t.phase.NotApplied?
  }

  /** At the deadline, after readings without a match. */
  lemma TickIgnores(t: Txn)
    requires Sound(t) && t.phase.Verifying? && t.found.readOk && !t.found.everMatched
    ensures t.OnTick(t.clock.waitStartMs + t.change.deadlineMs).phase.NotApplied?
  {
  }

  lemma ReadingIgnores(t: Txn)
    requires Sound(t) && t.phase.Verifying? && !t.found.everMatched
    requires t.change.target != "" || t.change.before != ""
    ensures var r := Reading(Some(Unshown(t.change)), false, t.change.sim, None, None);
            t.OnReading(r, t.clock.waitStartMs + t.change.deadlineMs).phase.NotApplied?
  {
    var now := t.clock.waitStartMs + t.change.deadlineMs;
    var r := Reading(Some(Unshown(t.change)), false, t.change.sim, None, None);
    var n := t.Noted(r, now);
    assert n.found.readOk && !n.found.everMatched && n.clock.waitStartMs == t.clock.waitStartMs;
    assert CheckSim(t.change.sim, r.sim) == Same;
  }

  /** A restart within the same boot goes on verifying from the copy. */
  lemma ResumesCopy(s: Txn)
    requires Sound(s) && s.phase.Verifying?
    ensures var u := s.Resume(s.clock.bootId, 0);
            Sound(u) && u.phase.Verifying? && u.found == s.found && u.change == s.change
  {
    HandleKeepsSound(s, Restart(s.clock.bootId, 0));
  }

  /** The event that ends a transaction without a match as not applied. */
  function Ignoring(t: Txn): Event {
    var now := t.clock.waitStartMs + t.change.deadlineMs;
    if t.change.target != "" || t.change.before != ""
    then Read(Reading(Some(Unshown(t.change)), false, t.change.sim, None, None), now)
    else Tick(now)
  }

  lemma IgnoringEnds(h: Held)
    requires Sound(h.t) && h.t.phase.Verifying? && !h.t.found.everMatched
    requires h.t.change.target != "" || h.t.change.before != "" || h.t.found.readOk
    ensures Legal(Ignoring(h.t)) && Live(h, [Ignoring(h.t)]).t.phase.NotApplied?
  {
    if h.t.change.target != "" || h.t.change.before != "" {
      ReadingIgnores(h.t);
    } else {
      TickIgnores(h.t);
    }
    hide Sound, Txn.OnReading, Txn.OnTick;
    var e := Ignoring(h.t);
    assert Live(h, [e]) == Live(Next(h, e), []);
  }

  lemma IgnorableEnds(h: Held) returns (es: seq<Event>)
    requires Close(h) && h.t.phase.Verifying? && Ignorable(h)
    ensures AllLegal(es) && Live(h, es).t.phase.NotApplied?
  {
    if h.t.found.readOk && !h.t.found.everMatched {
      IgnoringEnds(h);
      es := [Ignoring(h.t)];
    } else {
      ResumesCopy(h.saved);
      var e := Restart(h.saved.clock.bootId, 0);
      var n := Next(h, e);
      IgnoringEnds(n);
      es := [e, Ignoring(n.t)];
      assert es[1..] == [Ignoring(n.t)];
      assert Live(h, es) == Live(n, [Ignoring(n.t)]);
    }
  }

  /** Where the target and the value before are both empty, whatever is read while verifying is a match or
      a manual change; a rollback never ends as not applied. */
  predicate Blank(t: Txn) {
    || t.phase.RollingBack?
    || (t.change.target == "" && t.change.before == "" && (t.found.readOk ==> t.found.everMatched))
  }

  predicate StaysBlank(u: Txn) { !u.phase.NotApplied? && (u.phase.IsFinal() || Blank(u)) }

  lemma BlankTick(t: Txn, now: nat)
    requires Blank(t) && !t.phase.IsFinal()
    ensures StaysBlank(t.OnTick(now))
  {
  }

  lemma BlankVerifying(t: Txn, r: Reading, v: string, now: nat)
    requires t.phase.Verifying? && t.change.target == "" && t.change.before == "" && t.found.readOk
    ensures StaysBlank(t.OnConfigVerifying(r, v, now))
  {
    hide Txn.OnTick, Txn.Judge;
    var a := t.(found := t.found.(everMatched := true));
    BlankTick(a, now);
    BlankTick(a.(found := a.found.(dataOk := false)), now);
  }

  lemma BlankRolling(t: Txn, r: Reading, v: string, now: nat)
    requires t.phase.RollingBack?
    ensures StaysBlank(t.OnConfigRollingBack(r, v, now))
  {
    hide Txn.OnTick, Txn.Judge;
    BlankTick(t, now);
    BlankTick(t.(found := t.found.(dataOk := false)), now);
  }

  lemma BlankRead(t: Txn, r: Reading, now: nat)
    requires Blank(t) && !t.phase.IsFinal()
    ensures StaysBlank(t.OnReading(r, now))
  {
    hide Txn.OnTick, Txn.OnConfigVerifying, Txn.OnConfigRollingBack, Txn.NoteProbe, CheckSim;
    if t.Counting() {
      var n := t.Noted(r, now);
      var m := t.(clock := t.clock.(seenMs := now), found := t.found.(lastConn := t.ConnAfter(r)));
      BlankTick(m, now);
      if r.value.None? {
        BlankTick(n, now);
      } else if t.phase.Verifying? {
        BlankVerifying(n, r, r.value.value, now);
      } else {
        BlankRolling(n, r, r.value.value, now);
      }
    }
  }

  lemma BlankNext(t: Txn, e: Event)
    requires Sound(t) && Legal(e) && !t.phase.IsFinal() && !t.phase.Accepted? && Blank(t)
    ensures StaysBlank(Handle(t, e))
  {
    match e
    case Read(r, now) => BlankRead(t, r, now);
    case Tick(now) => BlankTick(t, now);
    case _ =>
  }

  lemma {:induction false} BlankStays(h: Held, es: seq<Event>)
    requires Close(h) && AllLegal(es) && !h.t.phase.NotApplied?
    requires h.t.phase.IsFinal() || (Blank(h.t) && Blank(h.saved))
    ensures !Live(h, es).t.phase.NotApplied?
    decreases |es|
  {
    if h.t.phase.IsFinal() || es == [] {
      AbsorbsLive(h, es);
    } else {
      NextClose(h, es[0]);
      BlankNext(if es[0].Restart? then h.saved else h.t, es[0]);
      hide Sound, Handle, Blank;
      BlankStays(Next(h, es[0]), es[1..]);
    }
  }

  /** While verifying, some continuation ends as not applied if and only if the copy on disk does not have
      the match (and a reading without it is possible at all). */
  lemma CanEndIgnoredIff(h: Held)
    requires Close(h) && h.t.phase.Verifying?
    ensures CanEndIgnored(h) <==> Ignorable(h)
  {
    if Ignorable(h) {
      var es := IgnorableEnds(h);
    } else if CanEndIgnored(h) {
      var es :| AllLegal(es) && Live(h, es).t.phase.NotApplied?;
      if h.saved.found.everMatched {
        SavedMatchStays(h, es);
      } else {
        BlankStays(h, es);
      }
    }
  }

  /** So a match that was shown but not saved can be forgotten. */
  lemma MatchCanBeForgotten()
    ensures var h := Next(Held(WAITING, WAITING, 0), Read(MATCH, 5_000));
            ShowedTarget(WAITING, Read(MATCH, 5_000)) && h.t.found.everMatched && Close(h) && CanEndIgnored(h)
  {
    var h0 := Held(WAITING, WAITING, 0);
    RestartAloneWaitsOn(0);
    NextClose(h0, Read(MATCH, 5_000));
    CanEndIgnoredIff(Next(h0, Read(MATCH, 5_000)));
  }
}
