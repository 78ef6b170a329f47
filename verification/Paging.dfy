// Cursor paging: PaginationParams::apply of src/shared/src/types/series.rs, list_settled_series and
// list_series_trade_history of the clearing canister.
module Paging {
  import opened Base

  // An entry of an ordered map or of a tape in id order.
  datatype Item<T> = Item(id: nat, value: T)

  datatype Page<T> = Page(items: seq<Item<T>>, next: Option<nat>)

  predicate Ascending<T>(all: seq<Item<T>>) { forall i, j :: 0 <= i < j < |all| ==> all[i].id < all[j].id }

  // ---------------------------------------------------------------- the simple form

  // What an exclusive cursor leaves.
  function Beyond<T>(all: seq<Item<T>>, cursor: Option<nat>): seq<Item<T>> {
    if all == [] then []
    else (if cursor.None? || all[0].id > cursor.value then [all[0]] else []) + Beyond(all[1..], cursor)
  }

  function PageOf<T>(rest: seq<Item<T>>, limit: Option<nat>): Page<T> {
    var n := if limit.None? then |rest| else Min(Max(limit.value, 1), |rest|);
    Page(rest[..n], if n < |rest| then Some(rest[n - 1].id) else None)
  }

  // limit.unwrap_or(u64::MAX) at the machine's width, and at least 1.
  function LimitOf(limit: Option<nat>): nat { Max(Min(limit.Or(U64_MAX), USIZE_MAX), 1) }

  lemma LimitIsHarmless<T>(rest: seq<Item<T>>, limit: Option<nat>)
    requires |rest| <= USIZE_MAX
    ensures var n := Min(LimitOf(limit), |rest|);
      PageOf(rest, limit) == Page(rest[..n], if n < |rest| then Some(rest[n - 1].id) else None)
  {
  }

  // Where the ids are in order, a cursor leaves a suffix.
  lemma {:induction false} BeyondIsSuffix<T>(all: seq<Item<T>>, cursor: nat, k: nat)
    requires Ascending(all) && k <= |all|
    requires forall i :: 0 <= i < k ==> all[i].id <= cursor
    requires k < |all| ==> all[k].id > cursor
    ensures Beyond(all, Some(cursor)) == all[k..]
  {
    if all == [] {
    } else {
      if k == 0 {
        if |all| > 1 { assert all[0].id < all[1].id; }
        BeyondIsSuffix(all[1..], cursor, 0);
      } else {
        BeyondIsSuffix(all[1..], cursor, k - 1);
      }
    }
  }

  lemma {:induction false} BeyondNothing<T>(all: seq<Item<T>>)
    ensures Beyond(all, None) == all
  {
    if all == [] {
    } else {
      BeyondNothing(all[1..]);
    }
  }

  // ---------------------------------------------------------------- the code

  // PaginationParams::apply over an iterator in id order.
  method Apply<T>(all: seq<Item<T>>, cursor: Option<nat>, limit: Option<nat>) returns (page: Page<T>)
    requires Ascending(all) && |all| <= USIZE_MAX
    ensures page == PageOf(Beyond(all, cursor), limit)
  {
    var max := LimitOf(limit);
    var at := 0;
    while at < |all| && cursor.Some? && all[at].id <= cursor.value
      invariant 0 <= at <= |all|
      invariant cursor.None? ==> at == 0
      invariant cursor.Some? ==> forall i :: 0 <= i < at ==> all[i].id <= cursor.value
    {
      at := at + 1;
    }
    if cursor.Some? { BeyondIsSuffix(all, cursor.value, at); } else { BeyondNothing(all); }
    page := TakePage(all[at..], max);
    LimitIsHarmless(all[at..], limit);
  }

  // Collects up to max entries and looks one further for a cursor.
  method TakePage<T>(rest: seq<Item<T>>, max: nat) returns (page: Page<T>)
    requires max > 0
    ensures var n := Min(max, |rest|);
      page == Page(rest[..n], if n < |rest| then Some(rest[n - 1].id) else None)
  {
    var items: seq<Item<T>> := [];
    var last: Option<nat> := None;
    for i := 0 to max
      invariant i <= |rest| && items == rest[..i]
      invariant if i == 0 then last == None else last == Some(rest[i - 1].id)
    {
      if i == |rest| { return Page(items, None); }
      items := items + [rest[i]];
      last := Some(rest[i].id);
    }
    page := Page(items, if max < |rest| then last else None);
  }

  // partition_point over ids in order: how many are at or below the cursor.
  method ResumeOffset<T>(all: seq<Item<T>>, cursor: nat) returns (k: nat)
    requires Ascending(all)
    ensures k <= |all| && (forall i :: 0 <= i < k ==> all[i].id <= cursor) && (k < |all| ==> all[k].id > cursor)
  {
    var lo, hi := 0, |all|;
    while lo < hi
      invariant 0 <= lo <= hi <= |all|
      invariant forall i :: 0 <= i < lo ==> all[i].id <= cursor
      invariant forall i :: hi <= i < |all| ==> all[i].id > cursor
    {
      var mid := (lo + hi) / 2;
      if all[mid].id <= cursor { lo := mid + 1; } else { hi := mid; }
    }
    k := lo;
  }

  // list_series_trade_history on one series' tape; a series without trades has the empty one.
  method ListTradeHistory<T>(points: seq<Item<T>>, cursor: Option<nat>, limit: Option<nat>) returns (page: Page<T>)
    requires Ascending(points) && |points| <= USIZE_MAX
    ensures page == PageOf(Beyond(points, cursor), limit)
  {
    var start := 0;
    if cursor.Some? {
      start := ResumeOffset(points, cursor.value);
      BeyondIsSuffix(points, cursor.value, start);
    } else {
      BeyondNothing(points);
    }
    var remaining := points[start..];
    var pageLen := Min(|remaining|, LimitOf(limit));
    var items := remaining[..pageLen];
    LimitIsHarmless(remaining, limit);
    page := Page(items, if |remaining| > pageLen then Some(items[|items| - 1].id) else None);
  }

  // The plans of one domain, or all of them.
  predicate Wanted(domain: Option<Domain>, d: Domain) { domain.None? || domain == Some(d) }

  function Filtered(plans: seq<Item<Domain>>, domain: Option<Domain>): seq<Item<Domain>> {
    if plans == [] then []
    else (if Wanted(domain, plans[0].value) then [plans[0]] else []) + Filtered(plans[1..], domain)
  }

  lemma {:induction false} FilterThenSkip(plans: seq<Item<Domain>>, domain: Option<Domain>, cursor: Option<nat>)
    ensures Beyond(Filtered(plans, domain), cursor) == Filtered(Beyond(plans, cursor), domain)
  {
    if plans == [] {
    } else {
      FilterThenSkip(plans[1..], domain, cursor);
      var rest := Filtered(plans[1..], domain);
      var left := Beyond(plans[1..], cursor);
      if Wanted(domain, plans[0].value) { assert ([plans[0]] + rest)[1..] == rest; } else { assert [] + rest == rest; }
      if cursor.None? || plans[0].id > cursor.value { assert ([plans[0]] + left)[1..] == left; } else { assert [] + left == left; }
    }
  }

  lemma {:induction false} FilteredIsExact(plans: seq<Item<Domain>>, domain: Option<Domain>, x: Item<Domain>)
    ensures x in Filtered(plans, domain) <==> x in plans && Wanted(domain, x.value)
  {
    if plans == [] {
    } else {
      FilteredIsExact(plans[1..], domain, x);
      assert plans == [plans[0]] + plans[1..];
    }
  }

  lemma {:induction false} FilteredAscends(plans: seq<Item<Domain>>, domain: Option<Domain>)
    requires Ascending(plans)
    ensures Ascending(Filtered(plans, domain))
  {
    if plans == [] {
    } else {
      FilteredAscends(plans[1..], domain);
      var rest := Filtered(plans[1..], domain);
      forall i | 0 <= i < |rest| ensures plans[0].id < rest[i].id {
        FilteredIsExact(plans[1..], domain, rest[i]);
        var j :| 0 <= j < |plans[1..]| && plans[1..][j] == rest[i];
        assert plans[j + 1] == rest[i];
      }
    }
  }

  lemma FilteredStep(plans: seq<Item<Domain>>, domain: Option<Domain>, at: nat)
    requires at <= |plans|
    ensures at == |plans| ==> Filtered(plans[at..], domain) == []
    ensures at < |plans| ==>
      (Filtered(plans[at..], domain)
       == (if Wanted(domain, plans[at].value) then [plans[at]] else []) + Filtered(plans[at + 1..], domain))
  {
    if at < |plans| { assert plans[at..][1..] == plans[at + 1..]; }
  }

  // The filtering iterator: the index of the next wanted plan from at on, or the end.
  method NextWanted(plans: seq<Item<Domain>>, domain: Option<Domain>, at: nat) returns (k: nat)
    requires at <= |plans|
    ensures at <= k <= |plans| && (k < |plans| ==> Wanted(domain, plans[k].value))
    ensures Filtered(plans[at..], domain) == Filtered(plans[k..], domain)
  {
    k := at;
    while k < |plans| && !Wanted(domain, plans[k].value)
      invariant at <= k <= |plans|
      invariant Filtered(plans[at..], domain) == Filtered(plans[k..], domain)
    {
      FilteredStep(plans, domain, k);
      k := k + 1;
    }
  }

  // list_settled_series over the plans in id order.
  method ListSettledSeries(plans: seq<Item<Domain>>, domain: Option<Domain>, startAfter: Option<nat>, limit: Option<nat>)
    returns (page: Page<Domain>)
    requires Ascending(plans) && |plans| <= USIZE_MAX
    ensures page == PageOf(Beyond(Filtered(plans, domain), startAfter), limit)
  {
    hide Filtered, Beyond, Ascending, PageOf;
    var at := 0;
    if startAfter.Some? {
      at := ResumeOffset(plans, startAfter.value);
      BeyondIsSuffix(plans, startAfter.value, at);
    } else {
      BeyondNothing(plans);
    }
    FilterThenSkip(plans, domain, startAfter);
    ghost var rest := Filtered(plans[at..], domain);
    FilteredSize(plans[at..], domain);
    LimitIsHarmless(rest, limit);
    page := TakeWanted(plans, domain, at, LimitOf(limit));
  }

  lemma {:induction false} FilteredSize(plans: seq<Item<Domain>>, domain: Option<Domain>)
    ensures |Filtered(plans, domain)| <= |plans|
  {
    if plans == [] {
    } else {
      FilteredSize(plans[1..], domain);
    }
  }

  lemma FullPage<T>(rest: seq<T>, items: seq<T>, left: seq<T>, max: nat)
    requires rest == items + left && |items| <= max && (|items| < max ==> left == [])
    ensures rest[..Min(max, |rest|)] == items && (|rest| > |items| <==> left != [])
  {
  }

  method TakeWanted(plans: seq<Item<Domain>>, domain: Option<Domain>, from: nat, max: nat) returns (page: Page<Domain>)
    requires from <= |plans| && max > 0
    ensures var rest := Filtered(plans[from..], domain);
      var n := Min(max, |rest|);
      page == Page(rest[..n], if n < |rest| then Some(rest[n - 1].id) else None)
  {
    hide Filtered;
    ghost var rest := Filtered(plans[from..], domain);
    var at := from;
    var items: seq<Item<Domain>> := [];
    for i := 0 to max
      invariant from <= at <= |plans| && |items| == i
      invariant rest == items + Filtered(plans[at..], domain)
    {
      at := NextWanted(plans, domain, at);
      FilteredStep(plans, domain, at);
      if at == |plans| {
        FullPage(rest, items, [], max);
        return Page(items, None);
      }
      items := items + [plans[at]];
      at := at + 1;
    }
    at := NextWanted(plans, domain, at);
    FilteredStep(plans, domain, at);
    FullPage(rest, items, Filtered(plans[at..], domain), max);
    page := Page(items, if at < |plans| then Some(items[|items| - 1].id) else None);
  }

  // ---------------------------------------------------------------- walks

  // Following the cursors, one limit a call: what was seen and where it stopped.
  function Walk<T>(all: seq<Item<T>>, cursor: Option<nat>, limits: seq<Option<nat>>): (seq<Item<T>>, bool)
    decreases |limits|
  {
    if limits == [] then ([], false)
    else
      var page := PageOf(Beyond(all, cursor), limits[0]);
      if page.next.None? then (page.items, true)
      else
        var rest := Walk(all, page.next, limits[1..]);
        (page.items + rest.0, rest.1)
  }

  // The cursor of a page leaves exactly what the page left.
  lemma CursorResumes<T>(all: seq<Item<T>>, k: nat, n: nat)
    requires Ascending(all) && k < |all| && 0 < n && k + n <= |all|
    ensures Beyond(all, Some(all[k..][n - 1].id)) == all[k + n..]
  {
    BeyondIsSuffix(all, all[k + n - 1].id, k + n);
  }

  // Whatever the limits, 0 included, the pages are consecutive and none repeats; with as many calls
  // as there are entries left the walk is over and has seen all of them.
  lemma {:induction false} WalkSeesAll<T>(all: seq<Item<T>>, k: nat, cursor: Option<nat>, limits: seq<Option<nat>>)
    requires Ascending(all) && k <= |all| && Beyond(all, cursor) == all[k..]
    ensures var walk := Walk(all, cursor, limits);
      && walk.0 <= all[k..] && (walk.1 ==> walk.0 == all[k..])
      && (|limits| > 0 && |limits| >= |all| - k ==> walk.1)
    decreases |limits|
  {
    hide Beyond, Ascending;
    if limits == [] {
    } else {
      var page := PageOf(all[k..], limits[0]);
      if page.next.Some? {
        var n := |page.items|;
        CursorResumes(all, k, n);
        WalkSeesAll(all, k + n, page.next, limits[1..]);
        Joins(all, k, n, Walk(all, page.next, limits[1..]).0);
      }
    }
  }

  lemma Joins<T>(all: seq<T>, k: nat, n: nat, tail: seq<T>)
    requires k + n <= |all| && tail <= all[k + n..]
    ensures all[k..][..n] + tail <= all[k..] && (tail == all[k + n..] ==> all[k..][..n] + tail == all[k..])
  {
  }

  // From the start a walk long enough returns the whole listing.
  lemma WalksAreComplete<T>(all: seq<Item<T>>, limits: seq<Option<nat>>)
    requires Ascending(all) && |limits| > 0 && |limits| >= |all|
    ensures Walk(all, None, limits) == (all, true)
  {
    BeyondNothing(all);
    WalkSeesAll(all, 0, None, limits);
    assert all[0..] == all;
  }

  // So with any domain filter: every plan of the domain once, in id order.
  lemma SettledWalksAreComplete(plans: seq<Item<Domain>>, domain: Option<Domain>, limits: seq<Option<nat>>, x: Item<Domain>)
    requires Ascending(plans) && |limits| > 0 && |limits| >= |plans|
    ensures var walk := Walk(Filtered(plans, domain), None, limits);
      walk.1 && Ascending(walk.0) && (x in walk.0 <==> x in plans && (domain.None? || x.value == domain.value))
  {
    FilteredAscends(plans, domain);
    FilteredSize(plans, domain);
    FilteredIsExact(plans, domain, x);
    WalksAreComplete(Filtered(plans, domain), limits);
  }
}
