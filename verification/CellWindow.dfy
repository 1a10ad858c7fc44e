/** The 30-second packet window of `cell_window.rs`. The ring drops old samples as it
    goes; it always answers what the full history since the last reset would. */
module CellWindow {
  import opened Common

  const SPAN_MS: nat := 30_000
  const GAP_MS: nat := 60_000

  datatype Sample = Sample(rx: nat, tx: nat, at: nat)

  datatype Window = Window(tx: nat, rx: nat, span: nat)

  // ---- the definition, on the full history -----------------------------------------------

  /** A counter or the clock went back. */
  predicate Resets(h: seq<Sample>, s: Sample) {
    h != [] && var last := h[|h| - 1]; s.rx < last.rx || s.tx < last.tx || s.at < last.at
  }

  function Remember(h: seq<Sample>, s: Sample): seq<Sample> {
    if Resets(h, s) then [s] else h + [s]
  }

  /** The newest sample that is at least 30 s older than `at`. */
  function Baseline(h: seq<Sample>, at: nat): (r: Option<nat>)
    ensures r.Some? ==> r.value < |h| && h[r.value].at + SPAN_MS <= at
    ensures r.Some? ==> forall i :: r.value < i < |h| ==> h[i].at + SPAN_MS > at
    ensures r.None? ==> forall i :: 0 <= i < |h| ==> h[i].at + SPAN_MS > at
  {
    if h == [] then None
    else if h[|h| - 1].at + SPAN_MS <= at then Some(|h| - 1)
    else Baseline(h[..|h| - 1], at)
  }

  predicate HasGap(h: seq<Sample>) {
    exists i :: 0 < i < |h| && h[i].at - h[i - 1].at > GAP_MS
  }

  /** Counters and clock never go back. */
  predicate Rising(h: seq<Sample>) {
    forall i, j :: 0 <= i < j < |h| ==> h[i].rx <= h[j].rx && h[i].tx <= h[j].tx && h[i].at <= h[j].at
  }

  function FullWindow(h: seq<Sample>): Option<Window>
    requires Rising(h)
  {
    if h == [] then None
    else
      var last := h[|h| - 1];
      var b := Baseline(h, last.at);
      if b.None? || HasGap(h[b.value..]) then None
      else Some(Window(last.tx - h[b.value].tx, last.rx - h[b.value].rx, last.at - h[b.value].at))
  }

  // ---- the ring ---------------------------------------------------------------------------

  function Trim(q: seq<Sample>, cut: nat): seq<Sample>
    decreases |q|
  {
    if |q| >= 2 && q[1].at <= cut then Trim(q[1..], cut) else q
  }

  function Push(q: seq<Sample>, s: Sample): seq<Sample> {
    Trim((if Resets(q, s) then [] else q) + [s], SatSub(s.at, SPAN_MS))
  }

  function RingWindow(q: seq<Sample>): Option<Window>
    requires Rising(q)
  {
    if q == [] then None
    else
      var first, last := q[0], q[|q| - 1];
      if last.at - first.at < SPAN_MS || HasGap(q) then None
      else Some(Window(last.tx - first.tx, last.rx - first.rx, last.at - first.at))
  }

  // ---- the ring and the history ---------------------------------------------------------------

  /** The ring is the end of the history; what was dropped is older than a sample that
      was already 30 s old. */
  ghost predicate Agrees(q: seq<Sample>, h: seq<Sample>) {
    && Rising(h) && |q| <= |h| && q == h[|h| - |q|..] && (h != [] ==> q != [])
    && (q != [] ==>
          var cut := SatSub(q[|q| - 1].at, SPAN_MS);
          && (|q| < |h| ==> q[0].at <= cut)
          && (|q| >= 2 ==> q[1].at > cut))
  }

  lemma RisingMore(h: seq<Sample>, s: Sample)
    requires Rising(h) && !Resets(h, s)
    ensures Rising(h + [s])
  {
  }

  /** Trimming stops at the newest sample that is old enough, if there is one. */
  lemma {:induction false} TrimStops(q: seq<Sample>, cut: nat)
    requires q != []
    ensures var t := Trim(q, cut);
            && t != [] && |t| <= |q| && t == q[|q| - |t|..]
            && (|t| < |q| ==> t[0].at <= cut)
            && (|t| >= 2 ==> t[1].at > cut)
    decreases |q|
  {
    if |q| >= 2 && q[1].at <= cut {
      TrimStops(q[1..], cut);
      var t := Trim(q[1..], cut);
      assert q[1..][|q| - 1 - |t|..] == q[|q| - |t|..];
    } else {
      assert q[0..] == q;
    }
  }

  lemma SameLast(q: seq<Sample>, h: seq<Sample>, s: Sample)
    requires |q| <= |h| && q == h[|h| - |q|..] && (h != [] ==> q != [])
    ensures Resets(q, s) <==> Resets(h, s)
  {
  }

  lemma PushAgrees(q: seq<Sample>, h: seq<Sample>, s: Sample)
    requires Agrees(q, h)
    ensures Agrees(Push(q, s), Remember(h, s))
  {
    SameLast(q, h, s);
    if Resets(h, s) {
      assert [] + [s] == [s];
      assert [s][0..] == [s];
    } else {
      RisingMore(h, s);
      PushTrims(q, h, s);
    }
  }

  lemma PushTrims(q: seq<Sample>, h: seq<Sample>, s: Sample)
    requires Agrees(q, h) && !Resets(q, s) && Rising(h + [s])
    ensures Agrees(Trim(q + [s], SatSub(s.at, SPAN_MS)), h + [s])
  {
    hide Rising, Trim;
    var cut := SatSub(s.at, SPAN_MS);
    var q1, h1 := q + [s], h + [s];
    TrimStops(q1, cut);
    var t := Trim(q1, cut);
    AppendSuffix(h, q, s);
    SuffixOfSuffix(h1, q1, t);
    assert t[|t| - 1] == h1[|h1| - 1];
    if |t| == |q1| < |h1| {
      assert t == q1 && t[0] == q[0];
      assert q[|q| - 1].at <= s.at;
    }
  }

  lemma AppendSuffix(h: seq<Sample>, q: seq<Sample>, s: Sample)
    requires |q| <= |h| && q == h[|h| - |q|..]
    ensures q + [s] == (h + [s])[|h| - |q|..]
  {
  }

  lemma SuffixOfSuffix(h: seq<Sample>, q: seq<Sample>, t: seq<Sample>)
    requires |t| <= |q| <= |h| && q == h[|h| - |q|..] && t == q[|q| - |t|..]
    ensures t == h[|h| - |t|..]
  {
  }

  lemma SuffixRising(h: seq<Sample>, k: nat)
    requires Rising(h) && k <= |h|
    ensures Rising(h[k..])
  {
  }

  lemma BaselineIsFirst(h: seq<Sample>, off: nat)
    requires Rising(h) && off < |h| && h[|h| - 1].at - h[off].at >= SPAN_MS
    requires off + 1 < |h| ==> h[off + 1].at + SPAN_MS > h[|h| - 1].at
    ensures Baseline(h, h[|h| - 1].at) == Some(off)
  {
    hide Baseline;
    var b := Baseline(h, h[|h| - 1].at);
    assert forall i :: off < i < |h| ==> h[off + 1].at <= h[i].at;
  }

  lemma NoBaseline(h: seq<Sample>, off: nat)
    requires Rising(h) && off < |h| && h[|h| - 1].at - h[off].at < SPAN_MS
    requires off > 0 ==> h[off].at <= SatSub(h[|h| - 1].at, SPAN_MS)
    ensures Baseline(h, h[|h| - 1].at).None?
  {
    hide Baseline;
    var b := Baseline(h, h[|h| - 1].at);
    assert off == 0 ==> forall i :: 0 <= i < |h| ==> h[0].at <= h[i].at;
  }

  /** The ring's answer is the history's. */
  lemma WindowsAgree(q: seq<Sample>, h: seq<Sample>)
    requires Agrees(q, h)
    ensures Rising(q) && RingWindow(q) == FullWindow(h)
  {
    hide Rising, HasGap, Baseline;
    SuffixRising(h, |h| - |q|);
    if q != [] {
      var off := |h| - |q|;
      assert q[0] == h[off] && q[|q| - 1] == h[|h| - 1];
      LastIsLargest(h, off);
      if h[|h| - 1].at - q[0].at >= SPAN_MS {
        assert |q| >= 2 ==> q[1] == h[off + 1];
        BaselineIsFirst(h, off);
      } else {
        NoBaseline(h, off);
      }
    }
  }

  lemma LastIsLargest(h: seq<Sample>, i: nat)
    requires Rising(h) && i < |h|
    ensures var last := h[|h| - 1]; h[i].rx <= last.rx && h[i].tx <= last.tx && h[i].at <= last.at
  {
  }

  datatype Op = Reading(s: Sample) | Lost

  function RingAfter(ops: seq<Op>): seq<Sample> {
    if ops == [] then []
    else
      match ops[|ops| - 1]
      case Reading(s) => Push(RingAfter(ops[..|ops| - 1]), s)
      case Lost => []
  }

  /** Everything since the last loss or step back. */
  function HistoryAfter(ops: seq<Op>): seq<Sample> {
    if ops == [] then []
    else
      match ops[|ops| - 1]
      case Reading(s) => Remember(HistoryAfter(ops[..|ops| - 1]), s)
      case Lost => []
  }

  /** After any readings and losses the trimmed ring answers the window of the full history. */
  lemma {:induction false} RingIsExact(ops: seq<Op>)
    ensures Agrees(RingAfter(ops), HistoryAfter(ops))
    ensures Rising(RingAfter(ops)) && Rising(HistoryAfter(ops))
    ensures RingWindow(RingAfter(ops)) == FullWindow(HistoryAfter(ops))
  {
    hide Agrees, Push, Remember, RingWindow, FullWindow;
    NothingAgrees();
    if ops != [] {
      var front := ops[..|ops| - 1];
      RingIsExact(front);
      match ops[|ops| - 1] {
        case Reading(s) => PushAgrees(RingAfter(front), HistoryAfter(front), s);
        case Lost =>
      }
    }
    AgreesRises(RingAfter(ops), HistoryAfter(ops));
    WindowsAgree(RingAfter(ops), HistoryAfter(ops));
  }

  lemma NothingAgrees()
    ensures Agrees([], [])
  {
  }

  lemma AgreesRises(q: seq<Sample>, h: seq<Sample>)
    requires Agrees(q, h)
    ensures Rising(h)
  {
  }

  class Ring {
    var q: seq<Sample>
    ghost var history: seq<Sample>

    ghost predicate Valid()
      reads this
    {
      Agrees(q, history)
    }

    constructor ()
      ensures Valid() && history == []
    {
      q, history := [], [];
    }

    method Add(s: Sample)
      requires Valid()
      modifies this
      ensures Valid() && history == Remember(old(history), s) && q == Push(old(q), s)
    {
      hide Agrees, Remember;
      PushAgrees(q, history, s);
      if q != [] {
        var last := q[|q| - 1];
        if s.rx < last.rx || s.tx < last.tx || s.at < last.at { q := []; }
      }
      q := q + [s];
      var cut := SatSub(s.at, SPAN_MS);
      while |q| >= 2 && q[1].at <= cut
        invariant Trim(q, cut) == Push(old(q), s) && history == old(history)
        decreases |q|
      {
        q := q[1..];
      }
      history := Remember(history, s);
    }

    method Lose()
      modifies this
      ensures Valid() && history == []
    {
      q, history := [], [];
    }

    /** No subtraction goes below zero: the samples in the ring never go back. */
    method Answer() returns (w: Option<Window>)
      requires Valid()
      ensures Rising(history) && w == FullWindow(history)
    {
      WindowsAgree(q, history);
      if q == [] { return None; }
      var first, last := q[0], q[|q| - 1];
      var span: nat := last.at - first.at;
      if span < SPAN_MS { return None; }
      var i := 1;
      while i < |q|
        invariant 1 <= i <= |q|
        invariant forall j :: 0 < j < i ==> q[j].at - q[j - 1].at <= GAP_MS
      {
        var step: nat := q[i].at - q[i - 1].at;
        if step > GAP_MS { return None; }
        i := i + 1;
      }
      return Some(Window(last.tx - first.tx, last.rx - first.rx, span));
    }
  }
}
