/**
 Thread ids and owners (agent_ui_adapter/server.py, `_ThreadStore`, and the routes that pass a
 client's thread id to it unchecked).

 What a create with a known id does to the listing of its creator and to the owner of the
 thread, and what operations in other users' names can change for an owner.  The production
 route (middleware/app_prod.py) creates in the caller's own name; the adapter's takes the name
 from the request.
 */
module ThreadOwners {
  import opened ThreadStore
  import opened Wrappers

  // ----- client ids

  /** Creating with an id the store knows lists the thread to its creator twice. */
  lemma RepeatedIdIsListedTwice(s: Store, op: Op)
    requires Consistent(s) && op.Create? && op.id in s.threads
    ensures !Distinct(Visible(Apply(s, op), op.user, Apply(s, op).order))
  {
    var t := Apply(s, op);
    assert t.order[..|t.order| - 1] == s.order;
    VisibleMembers(t, op.user, s.order);
    var older := Visible(t, op.user, s.order);
    assert op.id in older && Visible(t, op.user, t.order) == [op.id] + older;
    var k :| 0 <= k < |older| && older[k] == op.id;
    var all := [op.id] + older;
    assert all[0] == op.id == all[k + 1];
  }

  /** From a store with distinct ids, the creator's listing stays free of repetitions if and only
      if the id is fresh. */
  lemma ListedOnceIff(s: Store, op: Op)
    requires Consistent(s) && Distinct(s.order) && op.Create? && op.id != ""
    ensures Distinct(Visible(Apply(s, op), op.user, Apply(s, op).order)) <==> op.id !in s.threads
  {
    var t := Apply(s, op);
    if op.id in s.threads {
      RepeatedIdIsListedTwice(s, op);
    } else {
      OpKeepsOrder(s, op);
      VisibleNewestFirst(t, op.user, t.order, t.order);
    }
  }

  // ----- owners among themselves

  /** The user in whose name the store is asked to act. */
  function Actor(op: Op): string { if op.Create? then op.user else op.owner }

  /** An owner's live threads, newest first, as the store keeps them. */
  function Listing(s: Store, owner: string, order: seq<string>): seq<Thread> {
    if order == [] then []
    else Found(s, owner, order[|order| - 1]) + Listing(s, owner, order[..|order| - 1])
  }

  function Found(s: Store, owner: string, id: string): seq<Thread> {
    match Get(s, id, Some(owner)) case None => [] case Some(t) => [t]
  }

  /** It is what the store lists, thread by thread. */
  lemma {:induction false} ListingIsVisible(s: Store, owner: string, order: seq<string>)
    requires Consistent(s)
    ensures Ids(Listing(s, owner, order)) == Visible(s, owner, order)
  {
    if order != [] {
      var init, last := order[..|order| - 1], order[|order| - 1];
      ListingIsVisible(s, owner, init);
      assert Ids(Found(s, owner, last)) == if IsVisible(s, owner, last) then [last] else [];
      assert Ids(Found(s, owner, last) + Listing(s, owner, init)) == Ids(Found(s, owner, last)) + Ids(Listing(s, owner, init));
    }
  }

  lemma {:induction false} SameListing(s: Store, t: Store, owner: string, order: seq<string>)
    requires forall id :: Get(s, id, Some(owner)) == Get(t, id, Some(owner))
    ensures Listing(s, owner, order) == Listing(t, owner, order)
  {
    if order != [] {
      SameListing(s, t, owner, order[..|order| - 1]);
    }
  }

  lemma {:induction false} ListingHas(s: Store, owner: string, order: seq<string>, x: Thread)
    ensures x in Listing(s, owner, order) <==> exists id :: id in order && Get(s, id, Some(owner)) == Some(x)
  {
    if order != [] {
      var init, last := order[..|order| - 1], order[|order| - 1];
      ListingHas(s, owner, init, x);
      assert forall id :: id in order <==> id in init || id == last;
    }
  }

  /** What an operation in another user's name does to a thread of the owner: nothing, unless it creates
      with that very id. */
  lemma OthersLeaveThread(s: Store, op: Op, owner: string, id: string)
    requires Actor(op) != owner
    ensures Get(Apply(s, op), id, Some(owner)) == if op.Create? && op.id == id then None else Get(s, id, Some(owner))
  {
  }

  lemma TakenIdIsGone(s: Store, t: Store, owner: string, id: string)
    requires Consistent(s) && Consistent(t) && Get(s, id, Some(owner)).Some? && Get(t, id, Some(owner)).None?
    ensures Listing(t, owner, t.order) != Listing(s, owner, s.order)
  {
    var x := s.threads[id];
    ListingHas(s, owner, s.order, x);
    ListingHas(t, owner, t.order, x);
    assert x in Listing(s, owner, s.order);
    assert forall other :: Get(t, other, Some(owner)) == Some(x) ==> other == x.threadId;
  }

  lemma ListingStays(s: Store, op: Op, owner: string)
    requires Actor(op) != owner && !(op.Create? && IsVisible(s, owner, op.id))
    ensures Listing(Apply(s, op), owner, Apply(s, op).order) == Listing(s, owner, s.order)
  {
    var t := Apply(s, op);
    forall id
      ensures Get(s, id, Some(owner)) == Get(t, id, Some(owner))
    {
      OthersLeaveThread(s, op, owner, id);
    }
    SameListing(s, t, owner, s.order);
    if op.Create? {
      assert t.order[..|t.order| - 1] == s.order;
      OthersLeaveThread(s, op, owner, op.id);
      assert [] + Listing(t, owner, s.order) == Listing(t, owner, s.order);
    }
  }

  /** Ownership isolation, exactly: an operation in another user's name changes what an owner sees,
      listed or looked up, if and only if it creates with the id of one of the owner's live threads. */
  lemma OthersChangeViewIff(s: Store, op: Op, owner: string)
    requires Consistent(s) && (op.Create? ==> op.id != "") && Actor(op) != owner
    ensures Listing(Apply(s, op), owner, Apply(s, op).order) != Listing(s, owner, s.order)
            <==> op.Create? && IsVisible(s, owner, op.id)
    ensures (exists id :: Get(Apply(s, op), id, Some(owner)) != Get(s, id, Some(owner)))
            <==> op.Create? && IsVisible(s, owner, op.id)
  {
    var t := Apply(s, op);
    forall id
      ensures Get(t, id, Some(owner)) == if op.Create? && op.id == id then None else Get(s, id, Some(owner))
    {
      OthersLeaveThread(s, op, owner, id);
    }
    if op.Create? && IsVisible(s, owner, op.id) {
      assert Get(t, op.id, Some(owner)) != Get(s, op.id, Some(owner));
      OpKeepsOrder(s, op);
      TakenIdIsGone(s, t, owner, op.id);
    } else {
      ListingStays(s, op, owner);
    }
  }

  /** The thread goes to the creator: its owner no longer finds it, in any order of the store,
      and the creator does. */
  lemma TakenThreadChangesHands(s: Store, op: Op, owner: string)
    requires op.Create? && op.user != owner && IsVisible(s, owner, op.id)
    ensures var t := Apply(s, op);
            Get(t, op.id, Some(owner)).None? && IsVisible(t, op.user, op.id) && op.id !in Visible(t, owner, t.order)
  {
    VisibleMembers(Apply(s, op), owner, Apply(s, op).order);
  }

  // ----- whole runs

  function OwnThreads(s: Store, owner: string): map<string, Thread> {
    map id | id in s.threads && s.threads[id].userId == owner :: s.threads[id]
  }

  function Kept(order: seq<string>, ids: set<string>): seq<string> {
    if order == [] then []
    else Kept(order[..|order| - 1], ids) + if order[|order| - 1] in ids then [order[|order| - 1]] else []
  }

  /** The part of the store that belongs to one owner. */
  function Own(s: Store, owner: string): Store {
    Store(OwnThreads(s, owner), Kept(s.order, OwnThreads(s, owner).Keys))
  }

  function OpsOf(ops: seq<Op>, owner: string): seq<Op> {
    if ops == [] then [] else (if Actor(ops[0]) == owner then [ops[0]] else []) + OpsOf(ops[1..], owner)
  }

  predicate Fresh(s: Store, op: Op) { op.Create? ==> op.id !in s.threads && op.id != "" }

  /** Every create takes an id the store does not have. */
  predicate AllFresh(s: Store, ops: seq<Op>)
    decreases |ops|
  {
    ops == [] || (Fresh(s, ops[0]) && AllFresh(Apply(s, ops[0]), ops[1..]))
  }

  lemma {:induction false} KeptMore(order: seq<string>, ids: set<string>, id: string)
    requires id !in order
    ensures Kept(order, ids + {id}) == Kept(order, ids)
  {
    if order != [] {
      KeptMore(order[..|order| - 1], ids, id);
    }
  }

  lemma OwnGet(s: Store, owner: string, id: string)
    ensures Get(Own(s, owner), id, Some(owner)) == Get(s, id, Some(owner))
  {
  }

  lemma OwnUpdate(s: Store, owner: string, id: string, x: Thread)
    requires id in s.threads && x.userId == s.threads[id].userId
    ensures var t := s.(threads := s.threads[id := x]);
            Own(t, owner) == if x.userId == owner then Own(s, owner).(threads := OwnThreads(s, owner)[id := x]) else Own(s, owner)
  {
    var t := s.(threads := s.threads[id := x]);
    assert OwnThreads(t, owner) == if x.userId == owner then OwnThreads(s, owner)[id := x] else OwnThreads(s, owner);
    assert OwnThreads(t, owner).Keys == OwnThreads(s, owner).Keys;
  }

  lemma OwnCreate(s: Store, owner: string, id: string, x: Thread)
    requires id !in s.threads && id !in s.order
    ensures var t := Store(s.threads[id := x], s.order + [id]);
            Own(t, owner) == if x.userId == owner then Store(OwnThreads(s, owner)[id := x], Own(s, owner).order + [id]) else Own(s, owner)
  {
    var t, mine := Store(s.threads[id := x], s.order + [id]), OwnThreads(s, owner);
    assert OwnThreads(t, owner) == if x.userId == owner then mine[id := x] else mine;
    assert t.order[..|t.order| - 1] == s.order;
    assert mine[id := x].Keys == mine.Keys + {id};
    KeptMore(s.order, mine.Keys, id);
    assert Kept(s.order, mine.Keys) + [] == Kept(s.order, mine.Keys);
  }

  lemma StepIsOwn(s: Store, op: Op, owner: string)
    requires Consistent(s) && Fresh(s, op)
    ensures Own(Apply(s, op), owner) == if Actor(op) == owner then Apply(Own(s, owner), op) else Own(s, owner)
  {
    match op
    case Create(user, title, id, now) =>
      OwnCreate(s, owner, id, Thread(id, user, title, now, now, None));
    case Rename(id, user, title, now) =>
      OwnGet(s, owner, id);
      if Get(s, id, Some(user)).Some? {
        OwnUpdate(s, owner, id, s.threads[id].(title := title, updatedAt := now));
      }
    case Archive(id, user, now) =>
      OwnGet(s, owner, id);
      if Get(s, id, Some(user)).Some? {
        OwnUpdate(s, owner, id, s.threads[id].(archivedAt := Some(now)));
      }
  }

  lemma ApplyFirst(s: Store, op: Op, rest: seq<Op>)
    ensures ApplyAll(s, [op] + rest) == ApplyAll(Apply(s, op), rest)
  {
    assert ([op] + rest)[1..] == rest;
  }

  lemma OpsOfFirst(ops: seq<Op>, owner: string)
    requires ops != []
    ensures OpsOf(ops, owner) == if Actor(ops[0]) == owner then [ops[0]] + OpsOf(ops[1..], owner) else OpsOf(ops[1..], owner)
  {
    assert [] + OpsOf(ops[1..], owner) == OpsOf(ops[1..], owner);
  }

  /** Owners do not interfere: while creates take fresh ids, an owner's part of the store after any
      operations is what the operations in the owner's name alone make of it. */
  lemma {:induction false} OwnersDoNotInterfere(s: Store, ops: seq<Op>, owner: string)
    requires Consistent(s) && AllFresh(s, ops)
    ensures Own(ApplyAll(s, ops), owner) == ApplyAll(Own(s, owner), OpsOf(ops, owner))
    decreases |ops|
  {
    if ops != [] {
      var op, rest := ops[0], ops[1..];
      OpKeepsOrder(s, op);
      StepIsOwn(s, op, owner);
      OwnersDoNotInterfere(Apply(s, op), rest, owner);
      OpsOfFirst(ops, owner);
      ApplyFirst(Own(s, owner), op, OpsOf(rest, owner));
    }
  }

  lemma {:induction false} KeptIsVisible(s: Store, owner: string, order: seq<string>)
    ensures Visible(Own(s, owner), owner, Kept(order, OwnThreads(s, owner).Keys)) == Visible(s, owner, order)
  {
    if order != [] {
      var init, last, ids := order[..|order| - 1], order[|order| - 1], OwnThreads(s, owner).Keys;
      KeptIsVisible(s, owner, init);
      var kept := Kept(order, ids);
      if last in ids {
        assert kept[..|kept| - 1] == Kept(init, ids);
      } else {
        assert kept == Kept(init, ids);
        assert [] + Visible(s, owner, init) == Visible(s, owner, init);
      }
    }
  }

  /** ... and so is every page the owner reads. */
  lemma PagesDoNotInterfere(s: Store, ops: seq<Op>, owner: string, cursor: Option<string>, limit: int)
    requires Consistent(s) && AllFresh(s, ops)
    ensures List(ApplyAll(s, ops), owner, cursor, limit) == List(ApplyAll(Own(s, owner), OpsOf(ops, owner)), owner, cursor, limit)
  {
    OwnersDoNotInterfere(s, ops, owner);
    KeptIsVisible(ApplyAll(s, ops), owner, ApplyAll(s, ops).order);
  }
}
