/**
 The in-memory thread store (agent_ui_adapter/server.py, `_ThreadStore`).

 The class `ThreadStore` mutates a map and an append-only order list.  The second
 half follows a reader who pages through one owner's threads, newest first, while
 other requests create, rename and archive threads between the pages.
 */
module ThreadStore {
  import opened Basics
  import opened ThreadTitle
  import opened Wrappers

  datatype Thread = Thread(threadId: string, userId: string, title: string, createdAt: int, updatedAt: int,
                           archivedAt: Option<int>)

  datatype Store = Store(threads: map<string, Thread>, order: seq<string>)

  const EMPTY := Store(map[], [])

  /** What every operation keeps: the order list and the map know the same, non-empty ids. */
  ghost predicate Consistent(s: Store) {
    && (forall id :: id in s.order <==> id in s.threads)
    && (forall id :: id in s.threads ==> s.threads[id].threadId == id && id != "")
  }

  predicate Distinct(order: seq<string>) {
    forall i, j :: 0 <= i < j < |order| ==> order[i] != order[j]
  }

  predicate IsVisible(s: Store, owner: string, id: string) {
    id in s.threads && s.threads[id].userId == owner && s.threads[id].archivedAt.None?
  }

  // ----- the operations, on values

  datatype Op =
    | Create(user: string, title: string, id: string, now: int)
    | Rename(id: string, owner: string, title: string, now: int)
    | Archive(id: string, owner: string, now: int)

  /** Not found, archived and not owned look alike; no owner means an unscoped lookup. */
  function Get(s: Store, id: string, owner: Option<string>): Option<Thread> {
    if id !in s.threads || s.threads[id].archivedAt.Some? then None
    else if owner.Some? && s.threads[id].userId != owner.value then None
    else Some(s.threads[id])
  }

  function Apply(s: Store, op: Op): Store {
    match op
    case Create(user, title, id, now) =>
      Store(s.threads[id := Thread(id, user, title, now, now, None)], s.order + [id])
    case Rename(id, owner, title, now) =>
      if Get(s, id, Some(owner)).None? then s
      else s.(threads := s.threads[id := s.threads[id].(title := title, updatedAt := now)])
    case Archive(id, owner, now) =>
      if Get(s, id, Some(owner)).None? then s
      else s.(threads := s.threads[id := s.threads[id].(archivedAt := Some(now))])
  }

  function ApplyAll(s: Store, ops: seq<Op>): Store
    decreases |ops|
  {
    if ops == [] then s else ApplyAll(Apply(s, ops[0]), ops[1..])
  }

  /** The owner's live threads, newest first. */
  function Visible(s: Store, owner: string, order: seq<string>): seq<string> {
    if order == [] then []
    else (if IsVisible(s, owner, order[|order| - 1]) then [order[|order| - 1]] else [])
         + Visible(s, owner, order[..|order| - 1])
  }

  lemma {:induction false} IndexOfIsFirst(xs: seq<string>, x: string)
    ensures forall i :: 0 <= i < IndexOf(xs, x) ==> xs[i] != x
  {
    if xs != [] && xs[0] != x {
      IndexOfIsFirst(xs[1..], x);
      assert forall i :: 0 < i < |xs| ==> xs[i] == xs[1..][i - 1];
    }
  }

  /** A slice bound: negative bounds count from the end, and every bound is capped. */
  function Bound(n: nat, i: int): nat {
    if i < 0 then (if n + i < 0 then 0 else n + i) else if i > n then n else i
  }

  function Slice<T>(xs: seq<T>, lo: int, hi: int): seq<T> {
    var l, h := Bound(|xs|, lo), Bound(|xs|, hi);
    if l < h then xs[l..h] else []
  }

  datatype Page = Page(ids: seq<string>, next: Option<string>)

  /** One page of the owner's threads after the cursor. */
  function List(s: Store, owner: string, cursor: Option<string>, limit: int): Page {
    var ids := Visible(s, owner, s.order);
    PageFrom(ids, Start(ids, cursor), limit)
  }

  /** Where the page begins; an unknown cursor begins after the end. */
  function Start(ids: seq<string>, cursor: Option<string>): nat {
    if cursor.None? || cursor.value == "" then 0
    else if cursor.value in ids then IndexOf(ids, cursor.value) + 1
    else |ids|
  }

  function PageFrom(ids: seq<string>, start: nat, limit: int): Page {
    var page := Slice(ids, start, start + limit);
    Page(page, if page != [] && start + limit < |ids| then Some(page[|page| - 1]) else None)
  }

  function Ids(threads: seq<Thread>): seq<string> {
    seq(|threads|, i requires 0 <= i < |threads| => threads[i].threadId)
  }

  // ----- the store object

  class ThreadStore {
    var threads: map<string, Thread>
    var order: seq<string>

    function State(): Store
      reads this
    {
      Store(threads, order)
    }

    constructor ()
      ensures State() == EMPTY
    {
      threads, order := map[], [];
    }

    /** Honours a client-minted id; an absent or empty one is replaced by the minted id. */
    method Create(userId: string, firstMessage: Option<string>, threadId: Option<string>, minted: string, now: int)
      returns (t: Thread)
      requires minted != ""
      modifies this
      ensures var id := if threadId.Some? && threadId.value != "" then threadId.value else minted;
              State() == Apply(old(State()), Op.Create(userId, DeriveTitle(firstMessage), id, now)) && t == threads[id]
      ensures old(Consistent(State())) ==> Consistent(State())
    {
      var id := if threadId.Some? && threadId.value != "" then threadId.value else minted;
      t := Thread(id, userId, DeriveTitle(firstMessage), now, now, None);
      threads := threads[id := t];
      order := order + [id];
    }

    method GetThread(threadId: string, owner: Option<string>) returns (r: Option<Thread>)
      ensures r == Get(State(), threadId, owner)
      ensures owner.Some? ==> (r.Some? <==> IsVisible(State(), owner.value, threadId))
    {
      if threadId !in threads || threads[threadId].archivedAt.Some? {
        return None;
      }
      if owner.Some? && threads[threadId].userId != owner.value {
        return None;
      }
      return Some(threads[threadId]);
    }

    /** The owner's live threads, walking the order list backwards. */
    method LiveThreads(owner: string) returns (visible: seq<Thread>)
      requires Consistent(State())
      ensures Ids(visible) == Visible(State(), owner, order)
      ensures AreLive(State(), owner, visible)
    {
      visible := [];
      ghost var s := State();
      var i := |order|;
      assert order[..|order|] == order;
      while i > 0
        invariant 0 <= i <= |order|
        invariant Ids(visible) + Visible(s, owner, order[..i]) == Visible(s, owner, order)
        invariant AreLive(s, owner, visible)
      {
        i := i - 1;
        VisibleStep(s, owner, i, Ids(visible));
        assert order[i] in order;
        var t := threads[order[i]];
        if t.userId == owner && t.archivedAt.None? {
          assert Ids(visible + [t]) == Ids(visible) + [order[i]];
          visible := visible + [t];
        }
      }
    }

    method ListThreads(owner: string, cursor: Option<string>, limit: int) returns (page: seq<Thread>, next: Option<string>)
      requires Consistent(State())
      ensures Page(Ids(page), next) == List(State(), owner, cursor, limit)
      ensures AreLive(State(), owner, page)
    {
      var visible := LiveThreads(owner);
      var start := Start(Ids(visible), cursor);
      page := Slice(visible, start, start + limit);
      next := if page != [] && start + limit < |visible| then Some(page[|page| - 1].threadId) else None;
      SliceOfIds(State(), owner, visible, start, limit);
    }

    method Rename(threadId: string, owner: string, title: string, now: int) returns (r: Option<Thread>)
      modifies this
      ensures State() == Apply(old(State()), Op.Rename(threadId, owner, title, now))
      ensures r.Some? <==> IsVisible(old(State()), owner, threadId)
      ensures r.Some? ==> r.value == threads[threadId]
      ensures old(Consistent(State())) ==> Consistent(State())
    {
      var state := GetThread(threadId, Some(owner));
      if state.None? {
        return None;
      }
      var updated := state.value.(title := title, updatedAt := now);
      threads := threads[threadId := updated];
      return Some(updated);
    }

    method Archive(threadId: string, owner: string, now: int) returns (ok: bool)
      modifies this
      ensures State() == Apply(old(State()), Op.Archive(threadId, owner, now))
      ensures ok <==> IsVisible(old(State()), owner, threadId)
      // A soft delete: nobody sees the thread again, nothing else changes.
      ensures ok ==> Get(State(), threadId, None).None? && threads.Keys == old(threads).Keys && order == old(order)
      ensures old(Consistent(State())) ==> Consistent(State())
    {
      var state := GetThread(threadId, Some(owner));
      if state.None? {
        return false;
      }
      threads := threads[threadId := state.value.(archivedAt := Some(now))];
      return true;
    }
  }

  ghost predicate AreLive(s: Store, owner: string, ts: seq<Thread>) {
    forall k :: 0 <= k < |ts| ==> IsVisible(s, owner, ts[k].threadId) && s.threads[ts[k].threadId] == ts[k]
  }

  lemma SliceOfIds(s: Store, owner: string, ts: seq<Thread>, start: nat, limit: int)
    requires AreLive(s, owner, ts)
    ensures var page := Slice(ts, start, start + limit);
            && AreLive(s, owner, page)
            && PageFrom(Ids(ts), start, limit)
               == Page(Ids(page), if page != [] && start + limit < |ts| then Some(page[|page| - 1].threadId) else None)
  {
    assert Ids(Slice(ts, start, start + limit)) == Slice(Ids(ts), start, start + limit);
  }

  lemma VisibleStep(s: Store, owner: string, i: nat, newer: seq<string>)
    requires i < |s.order|
    ensures newer + Visible(s, owner, s.order[..i + 1])
            == (if IsVisible(s, owner, s.order[i]) then newer + [s.order[i]] else newer) + Visible(s, owner, s.order[..i])
  {
    assert s.order[..i + 1][..i] == s.order[..i];
  }

  // ----- one page

  /** The index of a thread in the order list is its age: smaller is older. */
  ghost predicate NewestFirst(ids: seq<string>, order: seq<string>, below: nat) {
    && (forall k :: 0 <= k < |ids| ==> ids[k] in order && IndexOf(order, ids[k]) < below)
    && (forall k, l :: 0 <= k < l < |ids| ==> IndexOf(order, ids[l]) < IndexOf(order, ids[k]))
  }

  lemma IndexOfIsUnique(xs: seq<string>, i: nat)
    requires Distinct(xs) && i < |xs|
    ensures xs[i] in xs && IndexOf(xs, xs[i]) == i
  {
    assert xs[i] in xs;
    IndexOfIsFirst(xs, xs[i]);
  }

  lemma {:induction false} VisibleMembers(s: Store, owner: string, order: seq<string>)
    ensures forall id :: id in Visible(s, owner, order) <==> IsVisible(s, owner, id) && id in order
  {
    if order != [] {
      VisibleMembers(s, owner, order[..|order| - 1]);
      assert order == order[..|order| - 1] + [order[|order| - 1]];
    }
  }

  lemma InPrefix(xs: seq<string>, n: nat, x: string)
    requires n <= |xs|
    ensures x in xs[..n] <==> x in xs && IndexOf(xs, x) < n
  {
    IndexOfIsFirst(xs, x);
    if x in xs && IndexOf(xs, x) < n {
      assert xs[..n][IndexOf(xs, x)] == x;
    }
  }

  lemma AddNewest(one: seq<string>, rest: seq<string>, order: seq<string>, n: nat)
    requires NewestFirst(rest, order, n) && |one| <= 1
    requires one != [] ==> one[0] in order && IndexOf(order, one[0]) == n
    ensures NewestFirst(one + rest, order, n + 1)
  {
    if one == [] {
      assert one + rest == rest;
    } else {
      assert NewestFirst(one, order, n + 1);
      JoinNewestFirst(one, rest, order, n + 1, n);
    }
  }

  lemma {:induction false} VisibleNewestFirst(s: Store, owner: string, older: seq<string>, order: seq<string>)
    requires Distinct(order) && older <= order
    ensures NewestFirst(Visible(s, owner, older), order, |older|)
  {
    if older != [] {
      var init, last := older[..|older| - 1], older[|older| - 1];
      VisibleNewestFirst(s, owner, init, order);
      IndexOfIsUnique(order, |init|);
      AddNewest(if IsVisible(s, owner, last) then [last] else [], Visible(s, owner, init), order, |init|);
    }
  }

  /** A prefix of the order list shows its live threads, each once, newest first. */
  lemma VisibleIsSorted(s: Store, owner: string, n: nat)
    requires Distinct(s.order) && n <= |s.order|
    ensures NewestFirst(Visible(s, owner, s.order[..n]), s.order, n)
    ensures forall id :: id in Visible(s, owner, s.order[..n])
                         <==> IsVisible(s, owner, id) && id in s.order && IndexOf(s.order, id) < n
  {
    VisibleNewestFirst(s, owner, s.order[..n], s.order);
    VisibleMembers(s, owner, s.order[..n]);
    forall id
      ensures id in s.order[..n] <==> id in s.order && IndexOf(s.order, id) < n
    {
      InPrefix(s.order, n, id);
    }
  }

  /** Everything the owner sees splits at a live thread into newer, itself, older. */
  lemma {:induction false} VisibleSplits(s: Store, owner: string, n: nat, p: nat) returns (newer: seq<string>)
    requires p < n <= |s.order| && IsVisible(s, owner, s.order[p])
    ensures Visible(s, owner, s.order[..n]) == newer + [s.order[p]] + Visible(s, owner, s.order[..p])
    ensures forall k :: 0 <= k < |newer| ==> newer[k] in s.order[p + 1..n]
    decreases n
  {
    var older := Visible(s, owner, s.order[..p]);
    assert s.order[..n][..n - 1] == s.order[..n - 1];
    if p == n - 1 {
      newer := [];
    } else {
      var rest := VisibleSplits(s, owner, n - 1, p);
      var last := s.order[n - 1];
      assert s.order[p + 1..n] == s.order[p + 1..n - 1] + [last];
      if IsVisible(s, owner, last) {
        newer := [last] + rest;
        assert [last] + (rest + [s.order[p]] + older) == newer + [s.order[p]] + older;
      } else {
        newer := rest;
        assert [] + (rest + [s.order[p]] + older) == rest + [s.order[p]] + older;
      }
    }
  }

  /** The threads a page should draw from: all, or those older than the cursor. */
  ghost function Remaining(s: Store, owner: string, below: nat): seq<string>
    requires below <= |s.order|
  {
    Visible(s, owner, s.order[..below])
  }

  ghost predicate Reads(s: Store, owner: string, cursor: Option<string>, below: nat) {
    match cursor
    case None => below == |s.order|
    case Some(c) => below < |s.order| && s.order[below] == c && c != "" && IsVisible(s, owner, c)
  }

  function First(xs: seq<string>, limit: nat): seq<string> {
    if limit < |xs| then xs[..limit] else xs
  }

  /** With a live cursor a page is the next `limit` threads older than it, and the next
      cursor is its last thread unless nothing older is left. */
  lemma PageAfterCursor(s: Store, owner: string, cursor: Option<string>, below: nat, limit: nat)
    requires Distinct(s.order) && limit >= 1 && Reads(s, owner, cursor, below)
    ensures var rest, page := Remaining(s, owner, below), List(s, owner, cursor, limit);
            && page.ids == First(rest, limit)
            && page.next == if |rest| <= limit then None else Some(rest[limit - 1])
  {
    assert s.order[..|s.order|] == s.order;
    var all := Visible(s, owner, s.order);
    if cursor.Some? {
      CursorPosition(s, owner, below);
      PageFromTail(all, IndexOf(all, cursor.value) + 1, limit);
    } else {
      PageFromTail(all, 0, limit);
      assert all[0..] == all;
    }
  }

  lemma PageFromTail(ids: seq<string>, start: nat, limit: nat)
    requires start <= |ids| && limit >= 1
    ensures var rest, page := ids[start..], PageFrom(ids, start, limit);
            && page.ids == First(rest, limit)
            && page.next == if |rest| <= limit then None else Some(rest[limit - 1])
  {
  }

  lemma CursorPosition(s: Store, owner: string, below: nat)
    requires Distinct(s.order) && below < |s.order| && IsVisible(s, owner, s.order[below])
    ensures var all, c := Visible(s, owner, s.order), s.order[below];
            c in all && all[IndexOf(all, c) + 1..] == Remaining(s, owner, below)
  {
    assert s.order[..|s.order|] == s.order;
    var all, c := Visible(s, owner, s.order), s.order[below];
    var newer := VisibleSplits(s, owner, |s.order|, below);
    assert all[|newer|] == c;
    assert c !in s.order[below + 1..|s.order|];
    assert forall i :: 0 <= i < |newer| ==> all[i] == newer[i] != c;
    IndexOfIsFirst(all, c);
    assert IndexOf(all, c) == |newer|;
  }

  /** A cursor that is no longer visible ends the reading: an empty last page.  So a page
      shows what is left after thread `order[p]` exactly when that thread is still
      visible or nothing is left. */
  lemma PageIsRightIffCursorLives(s: Store, owner: string, p: nat, limit: nat)
    requires Consistent(s) && Distinct(s.order) && limit >= 1 && p < |s.order|
    ensures List(s, owner, Some(s.order[p]), limit).ids == First(Remaining(s, owner, p), limit)
            <==> IsVisible(s, owner, s.order[p]) || Remaining(s, owner, p) == []
    ensures !IsVisible(s, owner, s.order[p]) ==> List(s, owner, Some(s.order[p]), limit) == Page([], None)
  {
    var c := s.order[p];
    assert c in s.order;
    if IsVisible(s, owner, c) {
      PageAfterCursor(s, owner, Some(c), p, limit);
    } else {
      assert s.order[..|s.order|] == s.order;
      VisibleIsSorted(s, owner, |s.order|);
    }
  }

  // ----- a reader among writers

  /** What happens before the next page is asked for, and how large that page may be. */
  datatype Round = Round(ops: seq<Op>, limit: nat)

  datatype Reading = Reading(ids: seq<string>, pages: nat, finished: bool)

  /** Reads a page, lets the other requests happen, follows the cursor, and so on. */
  function Follow(s: Store, owner: string, cursor: Option<string>, limit: nat, rounds: seq<Round>): Reading
    decreases |rounds|
  {
    var page := List(s, owner, cursor, limit);
    if page.next.None? then Reading(page.ids, 1, true)
    else if rounds == [] then Reading(page.ids, 1, false)
    else
      var rest := Follow(ApplyAll(s, rounds[0].ops), owner, page.next, rounds[0].limit, rounds[1..]);
      Reading(page.ids + rest.ids, 1 + rest.pages, rest.finished)
  }

  /** Creates take fresh ids, and nobody archives the thread the reader stopped at. */
  predicate Fair(s: Store, ops: seq<Op>, cursor: string)
    decreases |ops|
  {
    ops == []
    || (&& (ops[0].Create? ==> ops[0].id !in s.threads && ops[0].id != "")
        && (ops[0].Archive? ==> ops[0].id != cursor)
        && Fair(Apply(s, ops[0]), ops[1..], cursor))
  }

  predicate FairThroughout(s: Store, owner: string, cursor: Option<string>, limit: nat, rounds: seq<Round>)
    decreases |rounds|
  {
    var page := List(s, owner, cursor, limit);
    page.next.Some? && rounds != [] ==>
      && rounds[0].limit >= 1
      && Fair(s, rounds[0].ops, page.next.value)
      && FairThroughout(ApplyAll(s, rounds[0].ops), owner, page.next, rounds[0].limit, rounds[1..])
  }

  /** The thread is live at every moment a page is read. */
  predicate VisibleThroughout(s: Store, owner: string, id: string, cursor: Option<string>, limit: nat, rounds: seq<Round>)
    decreases |rounds|
  {
    var page := List(s, owner, cursor, limit);
    && IsVisible(s, owner, id)
    && (page.next.Some? && rounds != [] ==>
          VisibleThroughout(ApplyAll(s, rounds[0].ops), owner, id, page.next, rounds[0].limit, rounds[1..]))
  }

  ghost predicate CollectsAll(s: Store, owner: string, cursor: Option<string>, below: nat, limit: nat, rounds: seq<Round>,
                              ids: seq<string>)
  {
    forall id | VisibleThroughout(s, owner, id, cursor, limit, rounds) && IndexOf(s.order, id) < below :: id in ids
  }

  /** An operation never moves a thread; ids stay distinct exactly while creates are fresh. */
  lemma OpKeepsOrder(s: Store, op: Op)
    requires Consistent(s) && (op.Create? ==> op.id != "")
    ensures Consistent(Apply(s, op))
    ensures s.order <= Apply(s, op).order
    ensures Distinct(Apply(s, op).order) <==> Distinct(s.order) && (op.Create? ==> op.id !in s.threads)
  {
    var after := Apply(s, op).order;
    if op.Create? {
      assert after[|s.order|] == op.id;
      if Distinct(after) {
        assert forall i :: 0 <= i < |s.order| ==> after[i] == s.order[i];
        assert op.id !in s.order;
      }
    }
  }

  lemma {:induction false} FairOpsKeep(s: Store, ops: seq<Op>, owner: string, cursor: string)
    requires Consistent(s) && Distinct(s.order) && Fair(s, ops, cursor) && IsVisible(s, owner, cursor)
    ensures var t := ApplyAll(s, ops);
            Consistent(t) && Distinct(t.order) && s.order <= t.order && IsVisible(t, owner, cursor)
    decreases |ops|
  {
    if ops != [] {
      OpKeepsOrder(s, ops[0]);
      FairOpsKeep(Apply(s, ops[0]), ops[1..], owner, cursor);
    }
  }

  lemma IndexOfInPrefix(xs: seq<string>, ys: seq<string>, x: string)
    requires xs <= ys && x in xs
    ensures IndexOf(ys, x) == IndexOf(xs, x)
  {
  }

  ghost predicate Stable(s: Store, owner: string, cursor: Option<string>, below: nat, limit: nat, rounds: seq<Round>, r: Reading) {
    && NewestFirst(r.ids, s.order, below)
    && (r.finished ==> CollectsAll(s, owner, cursor, below, limit, rounds, r.ids))
    && (!r.finished ==> r.pages == |rounds| + 1 <= below)
  }

  /** Paging is stable under concurrent writes.  What the reader collects is strictly
      newest first, so no thread comes twice; once the cursor runs out, every thread
      that was live throughout has come; and the cursor does run out. */
  lemma {:induction false} PagingIsStable(s: Store, owner: string, cursor: Option<string>, below: nat, limit: nat, rounds: seq<Round>)
    requires Consistent(s) && Distinct(s.order) && limit >= 1 && Reads(s, owner, cursor, below)
    requires FairThroughout(s, owner, cursor, limit, rounds)
    ensures Stable(s, owner, cursor, below, limit, rounds, Follow(s, owner, cursor, limit, rounds))
    decreases |rounds|
  {
    OnePage(s, owner, cursor, below, limit);
    var page := List(s, owner, cursor, limit);
    if page.next.Some? && rounds != [] {
      var c := page.next.value;
      var t := ApplyAll(s, rounds[0].ops);
      FairOpsKeep(s, rounds[0].ops, owner, c);
      PagingIsStable(t, owner, page.next, IndexOf(s.order, c), rounds[0].limit, rounds[1..]);
      PageThenRest(s, t, owner, cursor, below, limit, rounds, Follow(t, owner, page.next, rounds[0].limit, rounds[1..]));
    }
  }

  /** A page followed by a stable reading of the rest is a stable reading. */
  lemma PageThenRest(s: Store, t: Store, owner: string, cursor: Option<string>, below: nat, limit: nat, rounds: seq<Round>,
                     rest: Reading)
    requires Consistent(s) && Distinct(s.order) && limit >= 1 && Reads(s, owner, cursor, below)
    requires var page := List(s, owner, cursor, limit);
             && page.next.Some? && rounds != [] && t == ApplyAll(s, rounds[0].ops) && s.order <= t.order
             && Stable(t, owner, page.next, IndexOf(s.order, page.next.value), rounds[0].limit, rounds[1..], rest)
    ensures Stable(s, owner, cursor, below, limit, rounds,
                   Reading(List(s, owner, cursor, limit).ids + rest.ids, 1 + rest.pages, rest.finished))
  {
    OnePage(s, owner, cursor, below, limit);
    var page := List(s, owner, cursor, limit);
    JoinAcross(page.ids, rest.ids, s.order, t.order, below, IndexOf(s.order, page.next.value));
    if rest.finished {
      RoundCollectsAll(s, t, owner, cursor, below, limit, rounds, rest.ids);
    }
  }

  lemma RoundCollectsAll(s: Store, t: Store, owner: string, cursor: Option<string>, below: nat, limit: nat, rounds: seq<Round>,
                         rest: seq<string>)
    requires Consistent(s) && Distinct(s.order) && limit >= 1 && Reads(s, owner, cursor, below)
    requires var page := List(s, owner, cursor, limit);
             page.next.Some? && rounds != [] && t == ApplyAll(s, rounds[0].ops) && s.order <= t.order
             && CollectsAll(t, owner, page.next, IndexOf(s.order, page.next.value), rounds[0].limit, rounds[1..], rest)
    ensures CollectsAll(s, owner, cursor, below, limit, rounds, List(s, owner, cursor, limit).ids + rest)
  {
    OnePage(s, owner, cursor, below, limit);
    var page := List(s, owner, cursor, limit);
    forall id | VisibleThroughout(s, owner, id, cursor, limit, rounds) && IndexOf(s.order, id) < below
      ensures id in page.ids + rest
    {
      IndexOfInPrefix(s.order, t.order, id);
    }
  }

  /** One page: newest first, and every live thread is on it or older than its last one. */
  lemma OnePage(s: Store, owner: string, cursor: Option<string>, below: nat, limit: nat)
    requires Consistent(s) && Distinct(s.order) && limit >= 1 && Reads(s, owner, cursor, below)
    ensures var page := List(s, owner, cursor, limit);
            && NewestFirst(page.ids, s.order, below)
            && (page.next.None? ==> forall id :: IsVisible(s, owner, id) && IndexOf(s.order, id) < below ==> id in page.ids)
            && (page.next.Some? ==>
                  var at := IndexOf(s.order, page.next.value);
                  && at < below && Reads(s, owner, page.next, at)
                  && page.ids != [] && page.ids[|page.ids| - 1] == page.next.value
                  && forall id :: IsVisible(s, owner, id) && IndexOf(s.order, id) < below
                                  ==> id in page.ids || IndexOf(s.order, id) < at)
  {
    PageAfterCursor(s, owner, cursor, below, limit);
    VisibleIsSorted(s, owner, below);
    FirstOfSorted(Remaining(s, owner, below), s.order, below, limit);
  }

  lemma FirstOfSorted(rest: seq<string>, order: seq<string>, below: nat, limit: nat)
    requires NewestFirst(rest, order, below) && limit >= 1
    ensures NewestFirst(First(rest, limit), order, below)
    ensures |rest| > limit ==>
              var at := IndexOf(order, rest[limit - 1]);
              && at < below && rest[limit - 1] in rest && First(rest, limit)[limit - 1] == rest[limit - 1]
              && forall id :: id in rest ==> id in First(rest, limit) || IndexOf(order, id) < at
  {
  }

  lemma OlderIdsAreKnown(before: seq<string>, after: seq<string>, ids: seq<string>, at: nat)
    requires before <= after && at < |before| && NewestFirst(ids, after, at)
    ensures NewestFirst(ids, before, at)
  {
    forall k | 0 <= k < |ids|
      ensures ids[k] in before && IndexOf(before, ids[k]) == IndexOf(after, ids[k])
    {
      var i := IndexOf(after, ids[k]);
      assert before[i] == after[i] == ids[k];
      IndexOfInPrefix(before, after, ids[k]);
    }
  }

  lemma JoinNewestFirst(xs: seq<string>, ys: seq<string>, order: seq<string>, below: nat, at: nat)
    requires NewestFirst(xs, order, below) && NewestFirst(ys, order, at)
    requires xs != [] && IndexOf(order, xs[|xs| - 1]) == at
    ensures NewestFirst(xs + ys, order, below)
  {
    var zs := xs + ys;
    forall k | 0 <= k < |zs|
      ensures zs[k] in order && IndexOf(order, zs[k]) < below
      ensures if k < |xs| then zs[k] == xs[k] && at <= IndexOf(order, zs[k])
              else zs[k] == ys[k - |xs|] && IndexOf(order, zs[k]) < at
    {
    }
    forall k, l | 0 <= k < l < |zs|
      ensures IndexOf(order, zs[l]) < IndexOf(order, zs[k])
    {
      if l < |xs| {
        assert zs[k] == xs[k] && zs[l] == xs[l];
      } else if k >= |xs| {
        assert zs[k] == ys[k - |xs|] && zs[l] == ys[l - |xs|];
      }
    }
  }

  /** A page and what is read later, when the order list may have grown, join up. */
  lemma JoinAcross(page: seq<string>, later: seq<string>, before: seq<string>, after: seq<string>, below: nat, at: nat)
    requires NewestFirst(page, before, below) && page != [] && IndexOf(before, page[|page| - 1]) == at
    requires before <= after && at < |before| && NewestFirst(later, after, at)
    ensures NewestFirst(page + later, before, below)
  {
    OlderIdsAreKnown(before, after, later, at);
    JoinNewestFirst(page, later, before, below, at);
  }

  /** From no cursor to no cursor: the headline, for a reading that starts afresh. */
  lemma ReadingFromTheStart(s: Store, owner: string, limit: nat, rounds: seq<Round>)
    requires Consistent(s) && Distinct(s.order) && limit >= 1 && FairThroughout(s, owner, None, limit, rounds)
    ensures var r := Follow(s, owner, None, limit, rounds);
            && (forall k, l :: 0 <= k < l < |r.ids| ==> r.ids[k] != r.ids[l])
            && (|rounds| >= |s.order| ==> r.finished)
            && (r.finished ==> forall id :: VisibleThroughout(s, owner, id, None, limit, rounds) ==> id in r.ids)
  {
    PagingIsStable(s, owner, None, |s.order|, limit, rounds);
  }
}
