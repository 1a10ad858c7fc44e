/** Listing messages after an id, `list_after_with` of `sms.rs`: two stores are paged from
    their newest message down until the id is reached, and the oldest of what was found is
    given. The functions say what the loops compute for any way of fetching pages; the laws
    say what that is when the pages come from two fixed stores. */
module SmsList {
  import opened Common
  import opened Json

  const LIST_PAGE: nat := 50
  const LIST_MAX_PAGES: nat := 20
  const NV: nat := 1
  const SIM: nat := 0

  datatype Message = Message(id: Option<nat>, body: seq<Byte>)

  datatype ListError = FetchFailed(store: nat) | Repeats(store: nat, page: nat) | TooMany(store: nat)

  type Fetch = (nat, nat) -> Option<seq<Message>>

  // ---- what was found: a map sorted by id ------------------------------------------------

  predicate Ascending(found: seq<Message>) {
    && (forall i :: 0 <= i < |found| ==> found[i].id.Some?)
    && (forall i, j :: 0 <= i < j < |found| ==> found[i].id.value < found[j].id.value)
  }

  predicate Has(found: seq<Message>, id: nat) {
    exists m :: m in found && m.id == Some(id)
  }

  function Insert(found: seq<Message>, m: Message): seq<Message>
    requires Ascending(found) && m.id.Some?
  {
    if found == [] then [m]
    else if m.id.value <= found[0].id.value then [m] + found
    else [found[0]] + Insert(found[1..], m)
  }

  /** After one page: what was found, whether `after` was reached, whether anything was new. */
  datatype Taken = Taken(found: seq<Message>, reached: bool, news: bool)

  function Take(t: Taken, m: Message, after: nat): (r: Taken)
    requires Ascending(t.found)
    ensures Ascending(r.found)
  {
    if m.id.None? then t
    else if m.id.value <= after then t.(reached := true)
    else if Has(t.found, m.id.value) then t
    else
      InsertSorted(t.found, m);
      t.(found := Insert(t.found, m), news := true)
  }

  function TakeAll(found: seq<Message>, items: seq<Message>, after: nat): (r: Taken)
    requires Ascending(found)
    ensures Ascending(r.found)
  {
    if items == [] then Taken(found, false, false)
    else Take(TakeAll(found, items[..|items| - 1], after), items[|items| - 1], after)
  }

  function IdsOf(items: seq<Message>): set<nat> {
    set m | m in items && m.id.Some? :: m.id.value
  }

  lemma {:induction false} InsertHolds(found: seq<Message>, m: Message)
    requires Ascending(found) && m.id.Some?
    ensures forall x :: x in Insert(found, m) <==> x in found || x == m
  {
    if found != [] && m.id.value > found[0].id.value {
      InsertHolds(found[1..], m);
      assert found == [found[0]] + found[1..];
    }
  }

  lemma {:induction false} InsertSorted(found: seq<Message>, m: Message)
    requires Ascending(found) && m.id.Some? && !Has(found, m.id.value)
    ensures Ascending(Insert(found, m))
  {
    if found != [] {
      assert found[0] in found;
      if m.id.value > found[0].id.value {
        var rest := found[1..];
        assert forall x :: x in rest ==> x in found;
        InsertSorted(rest, m);
        InsertHolds(rest, m);
        var r := Insert(rest, m);
        forall j | 0 <= j < |r|
          ensures found[0].id.value < r[j].id.value
        {
          assert r[j] in r;
        }
      }
    }
  }

  // ---- the loops -------------------------------------------------------------------------------

  /** One store from a page on. */
  function Pages(fetch: Fetch, store: nat, after: nat, page: nat, prev: Option<set<nat>>, found: seq<Message>)
      : (r: Outcome<seq<Message>, ListError>)
    requires Ascending(found)
    ensures r.Ok? ==> Ascending(r.value)
    decreases LIST_MAX_PAGES - page
  {
    if page >= LIST_MAX_PAGES then Err(TooMany(store))
    else
      match fetch(store, page)
      case None => Err(FetchFailed(store))
      case Some(items) =>
        if |items| >= LIST_PAGE && prev == Some(IdsOf(items)) then Err(Repeats(store, page))
        else
          var t := TakeAll(found, items, after);
          if t.reached || !t.news || |items| < LIST_PAGE then Ok(t.found)
          else Pages(fetch, store, after, page + 1, Some(IdsOf(items)), t.found)
  }

  /** Everything above `after` in both stores. */
  function Found(fetch: Fetch, after: nat): Outcome<seq<Message>, ListError> {
    match Pages(fetch, NV, after, 0, None, [])
    case Err(e) => Err(e)
    case Ok(found) => Pages(fetch, SIM, after, 0, None, found)
  }

  function ListAfter(fetch: Fetch, after: nat, limit: nat): Outcome<(seq<Message>, bool), ListError> {
    match Found(fetch, after)
    case Err(e) => Err(e)
    case Ok(found) => Ok((found[..Min(limit, |found|)], |found| > limit))
  }

  method TakePage(found: seq<Message>, items: seq<Message>, after: nat) returns (t: Taken)
    requires Ascending(found)
    ensures t == TakeAll(found, items, after)
  {
    t := Taken(found, false, false);
    var i := 0;
    while i < |items|
      invariant i <= |items| && Ascending(t.found) && t == TakeAll(found, items[..i], after)
    {
      assert items[..i + 1][..i] == items[..i];
      t := Take(t, items[i], after);
      i := i + 1;
    }
    assert items[..i] == items;
  }

  method ReadStore(fetch: Fetch, store: nat, after: nat, before: seq<Message>)
    returns (r: Outcome<seq<Message>, ListError>)
    requires Ascending(before)
    ensures r == Pages(fetch, store, after, 0, None, before)
  {
    hide TakeAll, IdsOf, Ascending;
    var found, page := before, 0;
    var prev: Option<set<nat>> := None;
    while true
      invariant Ascending(found)
      invariant Pages(fetch, store, after, 0, None, before) == Pages(fetch, store, after, page, prev, found)
      decreases LIST_MAX_PAGES - page
    {
      if page >= LIST_MAX_PAGES { return Err(TooMany(store)); }
      var reply := fetch(store, page);
      if reply.None? { return Err(FetchFailed(store)); }
      var items := reply.value;
      var ids := IdsOf(items);
      if |items| >= LIST_PAGE && prev == Some(ids) { return Err(Repeats(store, page)); }
      var t := TakePage(found, items, after);
      found := t.found;
      if t.reached || !t.news || |items| < LIST_PAGE { return Ok(found); }
      prev := Some(ids);
      page := page + 1;
    }
  }

  /** `list_after_with`. */
  method List(fetch: Fetch, after: nat, limit: nat) returns (r: Outcome<(seq<Message>, bool), ListError>)
    ensures r == ListAfter(fetch, after, limit)
  {
    hide Pages;
    var q := ReadStore(fetch, NV, after, []);
    if q.Err? { return Err(q.error); }
    q := ReadStore(fetch, SIM, after, q.value);
    if q.Err? { return Err(q.error); }
    var found := q.value;
    return Ok((found[..Min(limit, |found|)], |found| > limit));
  }

  // ---- two fixed stores ----------------------------------------------------------------------------

  /** Newest first, every message with its own id. */
  predicate Descending(store: seq<Message>) {
    && (forall i :: 0 <= i < |store| ==> store[i].id.Some?)
    && (forall i, j :: 0 <= i < j < |store| ==> store[i].id.value > store[j].id.value)
  }

  predicate Apart(a: seq<Message>, b: seq<Message>) {
    forall x, y :: x in a && y in b ==> x.id != y.id
  }

  function PageOf(store: seq<Message>, page: nat): seq<Message> {
    var from := Min(page * LIST_PAGE, |store|);
    store[from..Min(from + LIST_PAGE, |store|)]
  }

  /** How many messages of a store are above `after`: a prefix, since it is descending. */
  function Above(store: seq<Message>, after: nat): (n: nat)
    requires Descending(store)
    ensures n <= |store|
    ensures forall i :: 0 <= i < |store| ==> (i < n <==> store[i].id.value > after)
  {
    if store == [] || store[0].id.value <= after then 0
    else
      var n := Above(store[1..], after);
      assert forall i :: 1 <= i < |store| ==> store[i] == store[1..][i - 1];
      n + 1
  }

  /** The messages found are those of `base` and these. */
  ghost predicate Holds(found: seq<Message>, base: seq<Message>, more: seq<Message>) {
    Ascending(found) && forall m :: m in found <==> m in base || m in more
  }

  lemma NotHeld(tf: seq<Message>, found: seq<Message>, front: seq<Message>, last: Message)
    requires Holds(tf, found, front) && last.id.Some?
    requires Apart(found, [last]) && Apart(front, [last])
    ensures !Has(tf, last.id.value)
  {
    hide Ascending;
    assert last in [last];
    forall m | m in tf
      ensures m.id != Some(last.id.value)
    {
      assert m in found || m in front;
    }
  }

  lemma HoldsMore(tf: seq<Message>, found: seq<Message>, front: seq<Message>, last: Message)
    requires Holds(tf, found, front) && last.id.Some? && !Has(tf, last.id.value)
    ensures Holds(Insert(tf, last), found, front + [last])
  {
    InsertSorted(tf, last);
    InsertHolds(tf, last);
  }

  /** A message is apart from those before it in a descending store. */
  lemma LastApart(found: seq<Message>, items: seq<Message>)
    requires Descending(items) && Apart(found, items) && items != []
    ensures var front, last := items[..|items| - 1], items[|items| - 1];
            Apart(found, front) && Apart(found, [last]) && Apart(front, [last]) && Descending(front)
  {
    var front, last := items[..|items| - 1], items[|items| - 1];
    assert last in items;
    assert forall x :: x in front ==> x in items;
    forall x | x in front
      ensures x.id != last.id
    {
      var i :| 0 <= i < |front| && front[i] == x;
    }
  }

  /** One page of a store, of which the first `n` messages are above `after`. */
  lemma {:induction false} TakePrefix(found: seq<Message>, items: seq<Message>, after: nat, n: nat)
    requires Ascending(found) && Descending(items) && Apart(found, items) && n <= |items|
    requires forall i :: 0 <= i < |items| ==> (i < n <==> items[i].id.value > after)
    ensures var t := TakeAll(found, items, after);
            Holds(t.found, found, items[..n]) && t.reached == (n < |items|) && t.news == (n > 0)
  {
    hide Ascending, Apart, TakeAll, Holds;
    if items == [] {
      TakeNone(found, after);
      assert items[..n] == [] == items;
    } else {
      var front, last := items[..|items| - 1], items[|items| - 1];
      LastApart(found, items);
      TakePrefix(found, front, after, Min(n, |front|));
      TakeLast(found, front, last, after, n);
      assert items == front + [last];
    }
  }

  lemma TakeNone(found: seq<Message>, after: nat)
    requires Ascending(found)
    ensures TakeAll(found, [], after) == Taken(found, false, false) && Holds(found, found, [])
  {
  }

  lemma TakeLast(found: seq<Message>, front: seq<Message>, last: Message, after: nat, n: nat)
    requires Ascending(found) && Apart(found, [last]) && Apart(front, [last]) && last.id.Some? && n <= |front| + 1
    requires n == |front| + 1 <==> last.id.value > after
    requires var t := TakeAll(found, front, after);
             var k := Min(n, |front|);
             Holds(t.found, found, front[..k]) && t.reached == (k < |front|) && t.news == (k > 0)
    ensures var items := front + [last];
            var t := TakeAll(found, items, after);
            Holds(t.found, found, items[..n]) && t.reached == (n < |items|) && t.news == (n > 0)
  {
    hide Ascending, Apart, Insert, Has;
    var items := front + [last];
    assert items[..|items| - 1] == front;
    var t := TakeAll(found, front, after);
    if n == |items| {
      assert front[..|front|] == front && items[..n] == items;
      NotHeld(t.found, found, front, last);
      HoldsMore(t.found, found, front, last);
    } else {
      assert items[..n] == front[..n];
    }
  }

  // ---- one store ---------------------------------------------------------------------------------------

  lemma PageAbove(store: seq<Message>, after: nat, page: nat)
    requires Descending(store) && page * LIST_PAGE <= Above(store, after)
    ensures var items := PageOf(store, page);
            var n := Min(LIST_PAGE, Above(store, after) - page * LIST_PAGE);
            && Descending(items) && n <= |items|
            && (forall i :: 0 <= i < |items| ==> (i < n <==> items[i].id.value > after))
            && store[..page * LIST_PAGE] + items[..n] == store[..page * LIST_PAGE + n]
            && (n == |items| == LIST_PAGE <==> (page + 1) * LIST_PAGE <= Above(store, after))
  {
    var from := page * LIST_PAGE;
    var items := PageOf(store, page);
    assert forall i :: 0 <= i < |items| ==> items[i] == store[from + i];
  }

  /** A page differs from the one before. */
  lemma PagesDiffer(store: seq<Message>, page: nat)
    requires Descending(store) && PageOf(store, page) != []
    ensures IdsOf(PageOf(store, page)) != IdsOf(PageOf(store, page + 1))
  {
    var a, b := PageOf(store, page), PageOf(store, page + 1);
    var x := a[0];
    assert x in a && x.id.value in IdsOf(a);
    assert forall j :: 0 <= j < |b| ==> b[j] == store[(page + 1) * LIST_PAGE + j];
    assert a[0] == store[page * LIST_PAGE];
  }

  /** What was found on earlier pages and in the other store is apart from this page. */
  lemma FoundApart(found: seq<Message>, base: seq<Message>, store: seq<Message>, page: nat)
    requires Descending(store) && Apart(base, store) && page * LIST_PAGE <= |store|
    requires Holds(found, base, store[..page * LIST_PAGE])
    ensures Apart(found, PageOf(store, page))
  {
    var items := PageOf(store, page);
    var done := store[..page * LIST_PAGE];
    forall x, y | x in found && y in items
      ensures x.id != y.id
    {
      var j :| 0 <= j < |items| && items[j] == y;
      assert y == store[page * LIST_PAGE + j];
      assert y in store;
      if x in done {
        var i :| 0 <= i < |done| && done[i] == x;
        assert x == store[i];
      }
    }
  }

  lemma HoldsBoth(t: seq<Message>, found: seq<Message>, base: seq<Message>, a: seq<Message>, b: seq<Message>)
    requires Holds(found, base, a) && Holds(t, found, b)
    ensures Holds(t, base, a + b)
  {
    hide Ascending;
  }

  ghost predicate Reading(fetch: Fetch, store: nat, msgs: seq<Message>) {
    forall p: nat | p < LIST_MAX_PAGES :: fetch(store, p) == Some(PageOf(msgs, p))
  }

  /** A store gives everything above `after`, unless that is 1000 messages or more. */
  lemma {:induction false} StorePages(fetch: Fetch, store: nat, msgs: seq<Message>, after: nat, page: nat,
                                      prev: Option<set<nat>>, base: seq<Message>, found: seq<Message>)
    requires Descending(msgs) && Reading(fetch, store, msgs) && Apart(base, msgs)
    requires page <= LIST_MAX_PAGES && page * LIST_PAGE <= Above(msgs, after)
    requires Holds(found, base, msgs[..page * LIST_PAGE])
    requires prev == if page == 0 then None else Some(IdsOf(PageOf(msgs, page - 1)))
    ensures var r := Pages(fetch, store, after, page, prev, found);
            if Above(msgs, after) >= LIST_MAX_PAGES * LIST_PAGE then r == Err(TooMany(store))
            else r.Ok? && Holds(r.value, base, msgs[..Above(msgs, after)])
    decreases LIST_MAX_PAGES - page
  {
    hide Ascending, Descending, Apart, Holds, TakeAll, IdsOf, PageOf, Above;
    HoldsSorted(found, base, msgs[..page * LIST_PAGE]);
    if page < LIST_MAX_PAGES {
      var items := PageOf(msgs, page);
      assert fetch(store, page) == Some(items);
      if page > 0 { PageFull(msgs, page - 1); PagesDiffer(msgs, page - 1); }
      PageAbove(msgs, after, page);
      var n := Min(LIST_PAGE, Above(msgs, after) - page * LIST_PAGE);
      FoundApart(found, base, msgs, page);
      TakePrefix(found, items, after, n);
      var t := TakeAll(found, items, after);
      HoldsBoth(t.found, found, base, msgs[..page * LIST_PAGE], items[..n]);
      if n == |items| == LIST_PAGE {
        StorePages(fetch, store, msgs, after, page + 1, Some(IdsOf(items)), base, t.found);
      }
    }
  }

  lemma HoldsSorted(found: seq<Message>, base: seq<Message>, more: seq<Message>)
    requires Holds(found, base, more)
    ensures Ascending(found)
  {
  }

  lemma PageFull(store: seq<Message>, page: nat)
    requires (page + 1) * LIST_PAGE <= |store|
    ensures |PageOf(store, page)| == LIST_PAGE
  {
  }

  // ---- the whole list ---------------------------------------------------------------------------------------

  /** Exactly the messages above `after`, in ascending order. */
  ghost predicate Lists(found: seq<Message>, nv: seq<Message>, sim: seq<Message>, after: nat) {
    Ascending(found) && forall m :: m in found <==> (m in nv || m in sim) && m.id.Some? && m.id.value > after
  }

  lemma AboveIs(store: seq<Message>, after: nat, m: Message)
    requires Descending(store)
    ensures m in store[..Above(store, after)] <==> m in store && m.id.Some? && m.id.value > after
  {
    if m in store {
      var i :| 0 <= i < |store| && store[i] == m;
      if i < Above(store, after) { assert store[..Above(store, after)][i] == m; }
    }
  }

  /** On two fixed stores with ids of their own, the list is refused exactly if one of them has 1000
      or more messages above `after`; otherwise it is the `limit` oldest above `after`, in order,
      and `has_more` is exact. */
  lemma ListExact(fetch: Fetch, nv: seq<Message>, sim: seq<Message>, after: nat, limit: nat)
    returns (all: seq<Message>)
    requires Descending(nv) && Descending(sim) && Apart(nv, sim)
    requires Reading(fetch, NV, nv) && Reading(fetch, SIM, sim)
    ensures var r := ListAfter(fetch, after, limit);
            if Above(nv, after) >= LIST_MAX_PAGES * LIST_PAGE then r == Err(TooMany(NV))
            else if Above(sim, after) >= LIST_MAX_PAGES * LIST_PAGE then r == Err(TooMany(SIM))
            else Lists(all, nv, sim, after) && r == Ok((all[..Min(limit, |all|)], |all| > limit))
  {
    hide Pages, Above;
    all := [];
    StorePages(fetch, NV, nv, after, 0, None, [], []);
    if Above(nv, after) < LIST_MAX_PAGES * LIST_PAGE {
      var a := Pages(fetch, NV, after, 0, None, []).value;
      FirstApart(a, nv, sim, after);
      StorePages(fetch, SIM, sim, after, 0, None, a, a);
      if Above(sim, after) < LIST_MAX_PAGES * LIST_PAGE {
        all := Pages(fetch, SIM, after, 0, None, a).value;
        ListsBoth(all, a, nv, sim, after);
      }
    }
  }

  lemma FirstApart(a: seq<Message>, nv: seq<Message>, sim: seq<Message>, after: nat)
    requires Descending(nv) && Apart(nv, sim) && Holds(a, [], nv[..Above(nv, after)])
    ensures Apart(a, sim) && Holds(a, a, [])
  {
    forall x | x in a
      ensures x in nv
    {
      AboveIs(nv, after, x);
    }
  }

  lemma ListsBoth(all: seq<Message>, a: seq<Message>, nv: seq<Message>, sim: seq<Message>, after: nat)
    requires Descending(nv) && Descending(sim)
    requires Holds(a, [], nv[..Above(nv, after)]) && Holds(all, a, sim[..Above(sim, after)])
    ensures Lists(all, nv, sim, after)
  {
    hide Ascending, Above;
    forall m
      ensures m in all <==> (m in nv || m in sim) && m.id.Some? && m.id.value > after
    {
      AboveIs(nv, after, m);
      AboveIs(sim, after, m);
    }
  }

  // ---- repeating from the last id -----------------------------------------------------------------------------

  lemma TailHas(a: seq<Message>, m: Message)
    requires Ascending(a) && a != []
    ensures m in a[1..] <==> m in a && m != a[0]
  {
    assert a == [a[0]] + a[1..];
  }

  /** Sorted lists of the same messages are the same. */
  lemma {:induction false} SameList(a: seq<Message>, b: seq<Message>)
    requires Ascending(a) && Ascending(b) && forall m :: m in a <==> m in b
    ensures a == b
  {
    assert b != [] ==> b[0] in b;
    if a != [] {
      assert a[0] in a && a[0] in b;
      assert b[0] in b && b[0] in a;
      assert a[0] == b[0];
      forall m
        ensures m in a[1..] <==> m in b[1..]
      {
        TailHas(a, m);
        TailHas(b, m);
      }
      SameList(a[1..], b[1..]);
      assert a == [a[0]] + a[1..] && b == [b[0]] + b[1..];
    }
  }

  /** What is above the last message of a page is what follows the page. */
  lemma RestLists(all: seq<Message>, nv: seq<Message>, sim: seq<Message>, after: nat, k: nat)
    requires Lists(all, nv, sim, after) && 0 < k <= |all|
    ensures Lists(all[k..], nv, sim, all[k - 1].id.value) && all[k - 1].id.value > after
  {
    var last := all[k - 1].id.value;
    assert all[k - 1] in all;
    forall m
      ensures m in all[k..] <==> (m in nv || m in sim) && m.id.Some? && m.id.value > last
    {
      if m in all {
        var i :| 0 <= i < |all| && all[i] == m;
        assert i >= k ==> all[k..][i - k] == m;
      }
    }
  }

  lemma AboveShrinks(store: seq<Message>, after: nat, later: nat)
    requires Descending(store) && after <= later
    ensures Above(store, later) <= Above(store, after)
  {
    var n := Above(store, later);
    if n > 0 { assert store[n - 1].id.value > later; }
  }

  /** Up to `calls` more calls, each from the last id of the one before. */
  function Walk(fetch: Fetch, after: nat, limit: nat, calls: nat): Outcome<seq<Message>, ListError>
    decreases calls
  {
    match ListAfter(fetch, after, limit)
    case Err(e) => Err(e)
    case Ok((page, more)) =>
      if !more || calls == 0 || page == [] || page[|page| - 1].id.None? then Ok(page)
      else
        match Walk(fetch, page[|page| - 1].id.value, limit, calls - 1)
        case Err(e) => Err(e)
        case Ok(rest) => Ok(page + rest)
  }

  /** Repeating from the last id lists every message above the start exactly once, in order. */
  lemma {:induction false} WalkListsAll(fetch: Fetch, nv: seq<Message>, sim: seq<Message>, after: nat, limit: nat,
                                        calls: nat, all: seq<Message>)
    requires Descending(nv) && Descending(sim) && Apart(nv, sim)
    requires Reading(fetch, NV, nv) && Reading(fetch, SIM, sim)
    requires Above(nv, after) < LIST_MAX_PAGES * LIST_PAGE && Above(sim, after) < LIST_MAX_PAGES * LIST_PAGE
    requires limit > 0 && Lists(all, nv, sim, after) && |all| <= limit + calls
    ensures Walk(fetch, after, limit, calls) == Ok(all)
    decreases calls
  {
    hide ListAfter, Above, Reading, Apart, Descending, Walk;
    var found := ListExact(fetch, nv, sim, after, limit);
    SameList(found, all);
    if |all| > limit {
      var last := all[limit - 1].id.value;
      RestLists(all, nv, sim, after, limit);
      AboveShrinks(nv, after, last);
      AboveShrinks(sim, after, last);
      WalkListsAll(fetch, nv, sim, last, limit, calls - 1, all[limit..]);
    }
    WalkStep(fetch, after, limit, calls, all);
  }

  lemma WalkStep(fetch: Fetch, after: nat, limit: nat, calls: nat, all: seq<Message>)
    requires ListAfter(fetch, after, limit) == Ok((all[..Min(limit, |all|)], |all| > limit))
    requires limit > 0 && Ascending(all)
    requires |all| > limit ==> calls > 0 && Walk(fetch, all[limit - 1].id.value, limit, calls - 1) == Ok(all[limit..])
    ensures Walk(fetch, after, limit, calls) == Ok(all)
  {
    hide ListAfter;
    if |all| > limit {
      assert all[..limit] + all[limit..] == all;
    } else {
      assert all[..|all|] == all;
    }
  }
}
