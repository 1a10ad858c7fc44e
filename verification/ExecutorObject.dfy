/** The executor's shared state as `executor.rs` changes it: the rotation cursor, the time
    used and the objects skipped in a round, the cooldown map, the job queue and the write gate. */
module ExecutorObject {
  import opened Common
  import opened Executor

  datatype Job = Job(id: nat, control: bool)

  datatype Result = Skipped | Done(answer: Answer)

  function Controls(jobs: seq<Job>): nat {
    if jobs == [] then 0 else (if jobs[0].control then 1 else 0) + Controls(jobs[1..])
  }

  lemma {:induction false} ControlsAppend(jobs: seq<Job>, j: Job)
    ensures Controls(jobs + [j]) == Controls(jobs) + if j.control then 1 else 0
  {
    if jobs == [] {
      assert jobs + [j] == [j];
    } else {
      assert (jobs + [j])[1..] == jobs[1..] + [j];
      ControlsAppend(jobs[1..], j);
    }
  }

  /** How many probes are made: up to the first that is answered, four at most. */
  function Probes(answers: seq<Answer>, n: nat): (r: nat)
    requires n <= GATE_PROBES <= |answers|
    ensures n <= r <= 4
    ensures forall j :: n <= j < r - 1 ==> answers[j].TimedOut?
    ensures r < 4 ==> r > n && answers[r - 1].Answered?
    decreases GATE_PROBES - n
  {
    if n == GATE_PROBES then n else if answers[n].Answered? then n + 1 else Probes(answers, n + 1)
  }

  class Queue {
    var jobs: seq<Job>
    var controls: nat
    const limit: nat

    /** The counter agrees with the queue and never passes the limit. */
    ghost predicate Valid()
      reads this
    {
      controls == Controls(jobs) && controls <= limit
    }

    constructor (limit: nat := CONTROL_QUEUE)
      ensures Valid() && jobs == [] && this.limit == limit
    {
      this.limit := limit;
      jobs, controls := [], 0;
    }

    /** Refused, without a change, exactly if it is a control job and the queue is full of them. */
    method Push(j: Job) returns (ok: bool)
      requires Valid()
      modifies this
      ensures Valid()
      ensures ok == !(j.control && Controls(old(jobs)) == limit)
      ensures jobs == if ok then old(jobs) + [j] else old(jobs)
    {
      if j.control {
        if controls >= limit { return false; }
        controls := controls + 1;
      }
      ControlsAppend(jobs, j);
      jobs := jobs + [j];
      return true;
    }

    method Pop() returns (j: Job)
      requires Valid() && jobs != []
      modifies this
      ensures Valid() && j == old(jobs)[0] && jobs == old(jobs)[1..]
    {
      j := jobs[0];
      jobs := jobs[1..];
      if j.control { controls := controls - 1; }
    }

    /** Jobs that arrive while one is running; some may be refused. */
    method Arrive(more: seq<Job>)
      requires Valid()
      modifies this
      ensures Valid() && |jobs| >= |old(jobs)| && jobs[..|old(jobs)|] == old(jobs)
    {
      var i := 0;
      while i < |more|
        invariant Valid() && |jobs| >= |old(jobs)| && jobs[..|old(jobs)|] == old(jobs)
      {
        var ok := Push(more[i]);
        i := i + 1;
      }
    }

    /** Runs exactly the jobs that were waiting when it began, first come first served;
        those that arrive meanwhile wait for the next time. `arrivals[k]` arrive during the `k`-th job. */
    method Drain(arrivals: seq<seq<Job>>) returns (ran: seq<Job>)
      requires Valid() && |arrivals| >= |jobs|
      modifies this
      ensures Valid() && ran == old(jobs)
    {
      var n := |jobs|;
      ran := [];
      var k := 0;
      while k < n
        invariant k <= n && Valid() && |jobs| >= n - k
        invariant ran == old(jobs)[..k] && jobs[..n - k] == old(jobs)[k..]
      {
        ghost var before := jobs;
        var j := Pop();
        assert j == before[..n - k][0] == old(jobs)[k];
        assert jobs[..n - k - 1] == before[..n - k][1..] == old(jobs)[k + 1..];
        ran := ran + [j];
        ghost var left := jobs;
        Arrive(arrivals[k]);
        assert jobs[..n - k - 1] == left[..n - k - 1];
        k := k + 1;
      }
    }
  }

  class Shared {
    const objects: seq<Name>
    const budget: nat
    const cooldown: nat
    var cursor: nat
    var used: nat
    var skips: set<Name>
    var cooling: map<Name, nat>
    var gate: Option<Name>
    var writing: bool
    /** How many calls of this round timed out. */
    ghost var blocksOut: nat
    ghost var legacyOut: nat

    constructor (objects: seq<Name>, budget: nat := ROUND_BUDGET, cooldown: nat := 0)
      ensures this.objects == objects && cursor == 0 && gate.None? && skips == {} && Now() == Tally({}, 0, 0)
    {
      this.objects, this.budget, this.cooldown := objects, budget, cooldown;
      cursor, used, skips, cooling, gate, writing := 0, 0, {}, map[], None, false;
      blocksOut, legacyOut := 0, 0;
    }

    ghost function Now(): Tally
      reads this
    {
      Tally(skips, blocksOut, legacyOut)
    }

    method BeginRound()
      modifies this`used, this`skips, this`blocksOut, this`legacyOut
      ensures used == 0 && Now() == Tally({}, 0, 0)
    {
      used, skips := 0, {};
      blocksOut, legacyOut := 0, 0;
    }

    /** Still cooling down? An entry that has run out is removed. */
    method Cooling(target: Name, now: nat) returns (r: bool)
      modifies this`cooling
      ensures r == (target in old(cooling) && now < old(cooling)[target])
      ensures cooling == if r then old(cooling) else old(cooling) - {target}
    {
      if target in cooling && now < cooling[target] { return true; }
      cooling := cooling - {target};
      return false;
    }

    /** Does a round leave this call out? */
    method LeftOut(cool: bool, target: Name, now: nat) returns (out: bool)
      modifies this`cooling
      ensures var cold := cooldown > 0 && target in old(cooling) && now < old(cooling)[target];
              && out == (target in skips || (cool && (cold || |skips| >= 6)))
              && cooling == if !cool || cooldown == 0 || target in skips || cold then old(cooling) else old(cooling) - {target}
    {
      if target in skips { return true; }
      if cool && cooldown > 0 {
        var cold := Cooling(target, now);
        if cold { return true; }
      }
      return cool && |skips| >= LEGACY_TIMEOUT_LIMIT;
    }

    /** The round's time, the objects that timed out, and how many calls did. */
    method Tallied(cool: bool, target: Name, answer: Answer, cost: nat)
      modifies this`used, this`skips, this`blocksOut, this`legacyOut
      ensures used == old(used) + cost
      ensures skips == old(skips) + (if answer.TimedOut? then {target} else {})
      ensures blocksOut == old(blocksOut) + (if answer.TimedOut? && !cool then 1 else 0)
      ensures legacyOut == old(legacyOut) + (if answer.TimedOut? && cool then 1 else 0)
    {
      used := used + cost;
      if answer.TimedOut? {
        skips := skips + {target};
        if cool { legacyOut := legacyOut + 1; } else { blocksOut := blocksOut + 1; }
      }
    }

    /** One call of the backend, or none. `answer` is what it would give, `cost` how long it would
        take, `now` and `end` the clock before and after. In a round, an object that timed out is not called again,
        and the old collection leaves out one that cools down and makes no call after six timeouts; a timeout there
        starts the cooling down, which any other call ends. */
    method RawCall(round: bool, cool: bool, target: Name, answer: Answer, cost: nat, now: nat, end: nat)
      returns (r: Result)
      modifies this`used, this`skips, this`cooling, this`blocksOut, this`legacyOut
      ensures var cold := cooldown > 0 && target in old(cooling) && now < old(cooling)[target];
              var c := Call(cool, target, cold, answer);
              if round then
                && r == (if target in old(skips) || (cool && (cold || |old(skips)| >= 6)) then Skipped else Done(answer))
                && used == old(used) + (if r.Done? then cost else 0)
                && skips == old(skips) + (if r == Done(TimedOut) then {target} else {})
                && Now() == Count(old(Now()), c)
                && cooling == (if !cool || cooldown == 0 || target in old(skips) || cold then old(cooling)
                               else if r == Done(TimedOut) then old(cooling)[target := end + cooldown]
                               else old(cooling) - {target})
              else r == Done(answer) && used == old(used) && Now() == old(Now()) && cooling == old(cooling)
    {
      var legacy := round && cool;
      if round {
        var out := LeftOut(cool, target, now);
        if out { return Skipped; }
      }
      r := Done(answer);
      if round {
        Tallied(cool, target, answer, cost);
      }
      if legacy && cooldown > 0 && answer.TimedOut? {
        cooling := cooling[target := end + cooldown];
      }
    }

    /** Reads the due blocks in rotation. */
    method ReadBlocks(r: Round, now: nat) returns (attempted: seq<nat>)
      requires RoundFor(r, |objects|) && r.targets == objects && used == 0 && skips == {}
      modifies this
      ensures objects == [] ==> attempted == [] && cursor == old(cursor)
      ensures objects != [] ==>
                var s := WholeRound(|objects|, old(cursor), budget, r);
                && attempted == s.attempted && used == s.used && skips == s.skips
                && cursor == NextCursor(|objects|, old(cursor), budget, r)
    {
      hide ScanFrom, Spent, SkipsAfter;
      var n := |objects|;
      attempted := [];
      if n == 0 { return; }
      var start := cursor % n;
      var k := 0;
      ghost var whole := ScanFrom(n, start, 0, 0, {}, budget, r);
      while k < n
        invariant k <= n && cursor == old(cursor)
        invariant Continues(whole, attempted, ScanFrom(n, start, k, used, skips, budget, r))
      {
        ScanStep(n, start, k, used, skips, budget, r, whole, attempted);
        var i := (start + k) % n;
        if r.due[i] {
          if used >= budget {
            cursor := i;
            return;
          }
          ReadBlock(r, i, now);
          attempted := attempted + [i];
        }
        k := k + 1;
      }
      ScanEnd(n, start, used, skips, budget, r);
    }

    method ReadBlock(r: Round, i: nat, now: nat)
      requires i < |objects| && RoundFor(r, |objects|) && r.targets == objects
      modifies this`used, this`skips, this`cooling, this`blocksOut, this`legacyOut
      ensures used == old(used) + Spent(r, i, old(skips)) && skips == SkipsAfter(r, i, old(skips))
    {
      var q := RawCall(true, false, objects[i], r.answers[i], r.cost[i], now, now);
    }

    /** Asks the object that timed out until it answers, four times at most; then writes go on.
        `answers` is what the probes would bring. */
    method ReopenGate(answers: seq<Answer>, now: nat) returns (made: nat)
      requires |answers| >= GATE_PROBES
      modifies this
      ensures gate.None? && writing == old(writing) && Now() == old(Now()) && used == old(used)
      ensures cursor == old(cursor) && cooling == old(cooling)
      ensures made == if old(gate).None? then 0 else Probes(answers, 0)
    {
      made := 0;
      if gate.None? { return; }
      var target := gate.value;
      while made < GATE_PROBES
        invariant made <= GATE_PROBES && Probes(answers, 0) == Probes(answers, made)
        invariant writing == old(writing) && Now() == old(Now()) && used == old(used)
        invariant cursor == old(cursor) && cooling == old(cooling)
      {
        var q := RawCall(false, false, target, answers[made], 0, now, now);
        made := made + 1;
        if q.answer.Answered? {
          gate := None;
          return;
        }
      }
      gate := None;
    }

    /** A call from inside the executor. A write waits for the gate; a write that times out shuts it.
        `gateThen` is the gate at the moment the call goes out. */
    method CallHere(round: bool, cool: bool, target: Name, answer: Answer, cost: nat, now: nat, end: nat,
                    probes: seq<Answer>) returns (r: Result, waited: nat, ghost gateThen: Option<Name>)
      requires |probes| >= GATE_PROBES
      modifies this
      ensures var write := !round && old(writing);
              && waited == (if write && old(gate).Some? then Probes(probes, 0) else 0)
              && gate == (if !write then old(gate) else if answer.TimedOut? then Some(target) else None)
              && (write ==> gateThen.None? && r == Done(answer))
      ensures cursor == old(cursor) && writing == old(writing)
    {
      waited := 0;
      var write := !round && writing;
      if write { waited := ReopenGate(probes, now); }
      gateThen := gate;
      r := RawCall(round, cool, target, answer, cost, now, end);
      if write && r == Done(TimedOut) { gate := Some(target); }
    }
  }

  /** `whole` is what was attempted so far followed by the rest. */
  ghost predicate Continues(whole: Scan, attempted: seq<nat>, rest: Scan) {
    && whole.attempted == attempted + rest.attempted
    && whole.stop == rest.stop && whole.used == rest.used && whole.skips == rest.skips
  }

  lemma ScanStep(n: nat, start: nat, k: nat, used: nat, skips: set<Name>, budget: nat, r: Round,
                 whole: Scan, attempted: seq<nat>)
    requires start < n && k < n && RoundFor(r, n)
    requires Continues(whole, attempted, ScanFrom(n, start, k, used, skips, budget, r))
    ensures var i := (start + k) % n;
            if !r.due[i] then Continues(whole, attempted, ScanFrom(n, start, k + 1, used, skips, budget, r))
            else if used >= budget then whole == Scan(attempted, Some(i), used, skips, whole.last)
            else Continues(whole, attempted + [i],
                           ScanFrom(n, start, k + 1, used + Spent(r, i, skips), SkipsAfter(r, i, skips), budget, r))
  {
    hide Spent, SkipsAfter;
    var i := (start + k) % n;
    if r.due[i] && used < budget {
      var rest := ScanFrom(n, start, k + 1, used + Spent(r, i, skips), SkipsAfter(r, i, skips), budget, r);
      assert attempted + ([i] + rest.attempted) == attempted + [i] + rest.attempted;
    }
  }

  lemma ScanEnd(n: nat, start: nat, used: nat, skips: set<Name>, budget: nat, r: Round)
    requires start < n && RoundFor(r, n)
    ensures ScanFrom(n, start, n, used, skips, budget, r) == Scan([], None, used, skips, None)
  {
  }
}
