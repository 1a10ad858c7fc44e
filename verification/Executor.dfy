/** The single executor of `executor.rs`: rounds that read the due blocks in rotation
    within a budget, the limits on timed-out calls, the job queue and the write gate. */
module Executor {
  import opened Common

  const ROUND_BUDGET: nat := 3_000
  const CONTROL_QUEUE: nat := 8
  const GATE_PROBES: nat := 4
  const LEGACY_TIMEOUT_LIMIT: nat := 6

  type Name = string

  // ---- the rotation -----------------------------------------------------------------------

  datatype Answer = Answered | TimedOut

  /** One round as the outside makes it: which object each block reads, whether it is due, how long
      its call takes and how it ends. */
  datatype Round = Round(targets: seq<Name>, due: seq<bool>, cost: seq<nat>, answers: seq<Answer>)

  predicate RoundFor(r: Round, n: nat) {
    |r.targets| == n && |r.due| == n && |r.cost| == n && |r.answers| == n
  }

  /** A block whose object has timed out in this round is attempted without a call. */
  function Spent(r: Round, i: nat, skips: set<Name>): nat
    requires i < |r.targets| && i < |r.cost|
  {
    if r.targets[i] in skips then 0 else r.cost[i]
  }

  function SkipsAfter(r: Round, i: nat, skips: set<Name>): set<Name>
    requires i < |r.targets| && i < |r.answers|
  {
    if r.answers[i].TimedOut? then skips + {r.targets[i]} else skips
  }

  /** The blocks attempted, in order; where the budget stopped the round; the time used, the objects
      that timed out, and the time used before the last attempt and by it. */
  datatype Scan = Scan(attempted: seq<nat>, stop: Option<nat>, used: nat, skips: set<Name>, last: Option<(nat, nat)>)

  /** The rest of a round, from the `k`-th block after `start` on. */
  function ScanFrom(n: nat, start: nat, k: nat, used: nat, skips: set<Name>, budget: nat, r: Round): (s: Scan)
    requires start < n && k <= n && RoundFor(r, n)
    decreases n - k
  {
    if k == n then Scan([], None, used, skips, None)
    else
      var i := (start + k) % n;
      if !r.due[i] then ScanFrom(n, start, k + 1, used, skips, budget, r)
      else if used >= budget then Scan([], Some(i), used, skips, None)
      else
        var s := ScanFrom(n, start, k + 1, used + Spent(r, i, skips), SkipsAfter(r, i, skips), budget, r);
        s.(attempted := [i] + s.attempted,
           last := if s.last.Some? then s.last else Some((used, Spent(r, i, skips))))
  }

  function WholeRound(n: nat, cursor: nat, budget: nat, r: Round): Scan
    requires n > 0 && RoundFor(r, n)
  {
    ScanFrom(n, cursor % n, 0, 0, {}, budget, r)
  }

  function Attempted(n: nat, cursor: nat, budget: nat, r: Round): seq<nat>
    requires n > 0 && RoundFor(r, n)
  {
    WholeRound(n, cursor, budget, r).attempted
  }

  function NextCursor(n: nat, cursor: nat, budget: nat, r: Round): nat
    requires n > 0 && RoundFor(r, n)
  {
    var s := WholeRound(n, cursor, budget, r);
    if s.stop.Some? then s.stop.value else cursor
  }

  /** Block `b` is attempted in one of these rounds. */
  predicate AttemptedIn(n: nat, cursor: nat, budget: nat, rounds: seq<Round>, b: nat)
    requires n > 0 && forall r | r in rounds :: RoundFor(r, n)
    decreases |rounds|
  {
    rounds != [] &&
    (b in Attempted(n, cursor, budget, rounds[0])
     || AttemptedIn(n, NextCursor(n, cursor, budget, rounds[0]), budget, rounds[1..], b))
  }

  lemma Wraps(x: nat, n: nat)
    requires 0 < n && x < 2 * n
    ensures x % n == if x < n then x else x - n
  {
    if x >= n { assert x == n + (x - n); }
  }

  /** How far block `b` is ahead of the cursor. */
  function Ahead(n: nat, start: nat, b: nat): nat
    requires start < n && b < n
  {
    if b >= start then b - start else b + n - start
  }

  /** A due block that is not attempted stopped the round or was behind the stop. */
  lemma {:induction false} StopsBefore(
      n: nat, start: nat, k: nat, used: nat, skips: set<Name>, budget: nat, r: Round, b: nat)
    requires start < n && RoundFor(r, n) && b < n && r.due[b] && k <= Ahead(n, start, b)
    ensures var s := ScanFrom(n, start, k, used, skips, budget, r);
            b in s.attempted ||
            (s.stop.Some? && s.stop.value < n && Ahead(n, s.stop.value, b) <= Ahead(n, start, b) - k)
    decreases n - k
  {
    hide Spent, SkipsAfter;
    Wraps(start + k, n);
    if k < Ahead(n, start, b) {
      var i := (start + k) % n;
      if r.due[i] {
        StopsBefore(n, start, k + 1, used + Spent(r, i, skips), SkipsAfter(r, i, skips), budget, r, b);
      } else {
        StopsBefore(n, start, k + 1, used, skips, budget, r, b);
      }
    }
  }

  /** The first due block of a round is always attempted, so the cursor gets closer. */
  lemma {:induction false} CursorMoves(n: nat, start: nat, k: nat, budget: nat, r: Round, b: nat)
    requires start < n && RoundFor(r, n) && b < n && r.due[b] && k <= Ahead(n, start, b) && budget > 0
    ensures var s := ScanFrom(n, start, k, 0, {}, budget, r);
            b in s.attempted ||
            (s.stop.Some? && s.stop.value < n && Ahead(n, s.stop.value, b) < Ahead(n, start, b) - k)
    decreases n - k
  {
    hide Spent, SkipsAfter;
    Wraps(start + k, n);
    var i := (start + k) % n;
    if k < Ahead(n, start, b) {
      if r.due[i] {
        StopsBefore(n, start, k + 1, Spent(r, i, {}), SkipsAfter(r, i, {}), budget, r, b);
      } else {
        CursorMoves(n, start, k + 1, budget, r, b);
      }
    }
  }

  lemma {:induction false} ReachedInTime(n: nat, cursor: nat, budget: nat, rounds: seq<Round>, b: nat)
    requires 0 < n && budget > 0 && b < n
    requires forall r | r in rounds :: RoundFor(r, n) && r.due[b]
    requires Ahead(n, cursor % n, b) < |rounds|
    ensures AttemptedIn(n, cursor, budget, rounds, b)
    decreases |rounds|
  {
    var r := rounds[0];
    assert r in rounds;
    CursorMoves(n, cursor % n, 0, budget, r, b);
    if b !in Attempted(n, cursor, budget, r) {
      var next := NextCursor(n, cursor, budget, r);
      Wraps(next, n);
      ReachedInTime(n, next, budget, rounds[1..], b);
    }
  }

  /** With `n` blocks, a block that stays due is attempted within `n` rounds, wherever the
      rotation stands and however long the calls take. */
  lemma EveryBlockGetsItsTurn(n: nat, cursor: nat, budget: nat, rounds: seq<Round>, b: nat)
    requires 0 < n && budget > 0 && b < n && |rounds| >= n
    requires forall r | r in rounds :: RoundFor(r, n) && r.due[b]
    ensures AttemptedIn(n, cursor, budget, rounds, b)
  {
    ReachedInTime(n, cursor, budget, rounds, b);
  }

  /** The block reads of a round take less than the budget and one more call. */
  lemma {:induction false} WithinBudget(
      n: nat, start: nat, k: nat, used: nat, skips: set<Name>, budget: nat, r: Round)
    requires start < n && k <= n && RoundFor(r, n)
    ensures var s := ScanFrom(n, start, k, used, skips, budget, r);
            if s.attempted == [] then s.used == used && s.last.None?
            else
              var i := s.attempted[|s.attempted| - 1];
              && i < n && s.last.Some? && s.last.value.0 < budget && s.last.value.1 <= r.cost[i]
              && s.used == s.last.value.0 + s.last.value.1
    decreases n - k
  {
    if k < n {
      var i := (start + k) % n;
      if r.due[i] && used < budget {
        WithinBudget(n, start, k + 1, used + Spent(r, i, skips), SkipsAfter(r, i, skips), budget, r);
      } else if !r.due[i] {
        WithinBudget(n, start, k + 1, used, skips, budget, r);
      }
    }
  }

  /** The due blocks at the places `a` to `b` after `start`, in that order. */
  function DueBetween(r: Round, n: nat, start: nat, a: nat, b: nat): seq<nat>
    requires n > 0 && RoundFor(r, n) && a <= b
    decreases b - a
  {
    if a == b then []
    else DueBetween(r, n, start, a, b - 1) + if r.due[(start + b - 1) % n] then [(start + b - 1) % n] else []
  }

  lemma {:induction false} DueFirst(r: Round, n: nat, start: nat, a: nat, b: nat)
    requires n > 0 && RoundFor(r, n) && a < b
    ensures DueBetween(r, n, start, a, b) ==
              (if r.due[(start + a) % n] then [(start + a) % n] else []) + DueBetween(r, n, start, a + 1, b)
    decreases b - a
  {
    if a + 1 < b { DueFirst(r, n, start, a, b - 1); }
  }

  /** A round attempts every due block in rotation up to the place where it stops: the end, or the first due block
      that it comes to with its budget used up. The objects that timed out are those of the attempts that did. */
  lemma {:induction false} ScanExact(n: nat, start: nat, k: nat, used: nat, skips: set<Name>, budget: nat, r: Round)
    returns (m: nat)
    requires start < n && k <= n && RoundFor(r, n)
    ensures var s := ScanFrom(n, start, k, used, skips, budget, r);
            && k <= m <= n && s.attempted == DueBetween(r, n, start, k, m)
            && (s.stop.None? ==> m == n)
            && (s.stop.Some? ==> m < n && s.stop.value == (start + m) % n && r.due[s.stop.value] && s.used >= budget)
            && forall x :: x in s.skips <==>
                 x in skips || exists i :: i in s.attempted && i < n && r.targets[i] == x && r.answers[i].TimedOut?
    decreases n - k
  {
    m := k;
    if k < n {
      var i := (start + k) % n;
      if !r.due[i] {
        m := ScanExact(n, start, k + 1, used, skips, budget, r);
        DueFirst(r, n, start, k, m);
      } else if used < budget {
        hide Spent;
        m := ScanExact(n, start, k + 1, used + Spent(r, i, skips), SkipsAfter(r, i, skips), budget, r);
        DueFirst(r, n, start, k, m);
      }
    }
  }

  // ---- timed-out calls ----------------------------------------------------------------------------

  /** One call of a round: a block read, or a read of the old collection, whose object
      may still be cooling down after a timeout in an earlier round. */
  datatype Call = Call(legacy: bool, target: Name, cooling: bool, answer: Answer)

  /** The objects that timed out in this round, and how many calls did. */
  datatype Tally = Tally(skips: set<Name>, blocks: nat, legacy: nat)

  /** Does `raw_call` make this call? */
  predicate Made(t: Tally, c: Call) {
    c.target !in t.skips && !(c.legacy && (c.cooling || |t.skips| >= LEGACY_TIMEOUT_LIMIT))
  }

  function Count(t: Tally, c: Call): Tally {
    if !Made(t, c) || c.answer.Answered? then t
    else if c.legacy then Tally(t.skips + {c.target}, t.blocks, t.legacy + 1)
    else Tally(t.skips + {c.target}, t.blocks + 1, t.legacy)
  }

  function CountAll(t: Tally, calls: seq<Call>): Tally {
    if calls == [] then t else Count(CountAll(t, calls[..|calls| - 1]), calls[|calls| - 1])
  }

  /** Blocks are read before the old collection. */
  predicate BlocksFirst(calls: seq<Call>) {
    forall i, j :: 0 <= i < j < |calls| && calls[i].legacy ==> calls[j].legacy
  }

  ghost predicate TallyOk(t: Tally) {
    |t.skips| == t.blocks + t.legacy && (t.legacy > 0 ==> t.blocks + t.legacy <= LEGACY_TIMEOUT_LIMIT)
  }

  /** In any round the timed-out calls number at most the larger of six and the timed-out block reads. */
  lemma {:induction false} FewTimeouts(calls: seq<Call>)
    requires BlocksFirst(calls)
    ensures var t := CountAll(Tally({}, 0, 0), calls);
            && TallyOk(t) && (t.blocks + t.legacy <= 6 || t.legacy == 0)
            && (t.legacy > 0 ==> calls != [] && calls[|calls| - 1].legacy)
  {
    if calls != [] {
      var front, last := calls[..|calls| - 1], calls[|calls| - 1];
      FewTimeouts(front);
    }
  }
}
