/**
 The state reducers (orchestration/state.py).

 A channel is a list of items carrying an id (`step_id` or `record_id`).  A reducer
 appends the items of a delta whose id the channel does not have yet.
 */
module StateReducers {
  import opened Wrappers

  datatype Item<K, T> = Item(id: K, body: T)

  function Ids<K(==), T>(items: seq<Item<K, T>>): set<K> {
    if items == [] then {} else Ids(items[..|items| - 1]) + {items[|items| - 1].id}
  }

  /** The items whose id is not among those seen; duplicates inside the delta stay. */
  function Unseen<K(==), T>(items: seq<Item<K, T>>, seen: set<K>): seq<Item<K, T>> {
    if items == [] then []
    else Unseen(items[..|items| - 1], seen) + if items[|items| - 1].id in seen then [] else [items[|items| - 1]]
  }

  /** `_append_list` and `_append_list_by_record_id`. */
  function AppendList<K(==), T>(existing: seq<Item<K, T>>, delta: seq<Item<K, T>>): seq<Item<K, T>> {
    existing + Unseen(delta, Ids(existing))
  }

  lemma {:induction false} UnseenIds<K, T>(items: seq<Item<K, T>>, seen: set<K>)
    ensures Ids(Unseen(items, seen)) == Ids(items) - seen
    ensures Unseen(items, seen) == [] <==> Ids(items) <= seen
  {
    if items != [] {
      var init, last := items[..|items| - 1], items[|items| - 1];
      UnseenIds(init, seen);
      if last.id !in seen {
        assert Unseen(items, seen)[..|Unseen(items, seen)| - 1] == Unseen(init, seen);
      } else {
        assert Unseen(items, seen) == Unseen(init, seen);
      }
    }
  }

  lemma {:induction false} UnseenConcat<K, T>(xs: seq<Item<K, T>>, ys: seq<Item<K, T>>, seen: set<K>)
    ensures Unseen(xs + ys, seen) == Unseen(xs, seen) + Unseen(ys, seen)
    decreases |ys|
  {
    if ys == [] {
      assert xs + ys == xs;
    } else {
      assert (xs + ys)[..|xs + ys| - 1] == xs + ys[..|ys| - 1];
      UnseenConcat(xs, ys[..|ys| - 1], seen);
    }
  }

  lemma {:induction false} UnseenTwice<K, T>(items: seq<Item<K, T>>, seen: set<K>, more: set<K>)
    ensures Unseen(Unseen(items, seen), more) == Unseen(items, seen + more)
  {
    if items != [] {
      var init, last := items[..|items| - 1], items[|items| - 1];
      UnseenTwice(init, seen, more);
      if last.id !in seen {
        assert Unseen(items, seen)[..|Unseen(items, seen)| - 1] == Unseen(init, seen);
      } else {
        assert Unseen(items, seen) == Unseen(init, seen);
      }
    }
  }

  lemma {:induction false} IdsConcat<K, T>(xs: seq<Item<K, T>>, ys: seq<Item<K, T>>)
    ensures Ids(xs + ys) == Ids(xs) + Ids(ys)
    decreases |ys|
  {
    if ys == [] {
      assert xs + ys == xs;
    } else {
      assert (xs + ys)[..|xs + ys| - 1] == xs + ys[..|ys| - 1];
      IdsConcat(xs, ys[..|ys| - 1]);
    }
  }

  lemma AppendIds<K, T>(existing: seq<Item<K, T>>, delta: seq<Item<K, T>>)
    ensures Ids(AppendList(existing, delta)) == Ids(existing) + Ids(delta)
  {
    UnseenIds(delta, Ids(existing));
    IdsConcat(existing, Unseen(delta, Ids(existing)));
  }

  /** Append-only: what is in the channel stays, in place; a delta changes nothing exactly
      when all of its ids are known. */
  lemma AppendIsReplaySafe<K, T>(existing: seq<Item<K, T>>, delta: seq<Item<K, T>>)
    ensures existing <= AppendList(existing, delta)
    ensures AppendList(existing, delta) == existing <==> Ids(delta) <= Ids(existing)
    ensures AppendList(AppendList(existing, delta), delta) == AppendList(existing, delta)
  {
    UnseenIds(delta, Ids(existing));
    var once := AppendList(existing, delta);
    AppendIds(existing, delta);
    UnseenIds(delta, Ids(once));
    assert once + [] == once;
  }

  /** Deltas may be merged with each other before they reach the channel. */
  lemma AppendAssociative<K, T>(a: seq<Item<K, T>>, b: seq<Item<K, T>>, c: seq<Item<K, T>>)
    ensures AppendList(AppendList(a, b), c) == AppendList(a, AppendList(b, c))
  {
    AppendIds(a, b);
    UnseenConcat(b, Unseen(c, Ids(b)), Ids(a));
    UnseenTwice(c, Ids(b), Ids(a));
    assert Ids(b) + Ids(a) == Ids(a) + Ids(b);
    assert (a + Unseen(b, Ids(a))) + Unseen(c, Ids(a) + Ids(b)) == a + (Unseen(b, Ids(a)) + Unseen(c, Ids(a) + Ids(b)));
  }

  // ----- checkpoint and replay

  /** What can happen to a channel: delta `i` is delivered (again), or the checkpoint taken
      after the first `k` deltas is reloaded. */
  datatype Event = Deliver(i: nat) | Reload(k: nat)

  /** The channel after the first `m` deltas, delivered once each. */
  function Fold<K(==), T>(deltas: seq<seq<Item<K, T>>>, m: nat): seq<Item<K, T>>
    requires m <= |deltas|
  {
    if m == 0 then [] else AppendList(Fold(deltas, m - 1), deltas[m - 1])
  }

  /** How many deltas the channel has, given it had `level`. */
  function Level(events: seq<Event>): nat {
    if events == [] then 0
    else
      var level := Level(events[..|events| - 1]);
      match events[|events| - 1]
      case Deliver(i) => if i < level then level else i + 1
      case Reload(k) => k
  }

  /** Nothing is skipped: a delivered delta is an old one or the next one, a reloaded
      checkpoint was taken. */
  predicate Legal(events: seq<Event>, n: nat) {
    events == []
    || (&& Legal(events[..|events| - 1], n)
        && match events[|events| - 1]
           case Deliver(i) => i < n && i <= Level(events[..|events| - 1])
           case Reload(k) => k <= Level(events[..|events| - 1]))
  }

  lemma {:induction false} LevelInRange(events: seq<Event>, n: nat)
    requires Legal(events, n)
    ensures Level(events) <= n
  {
    if events != [] {
      LevelInRange(events[..|events| - 1], n);
    }
  }

  function Play<K(==), T>(deltas: seq<seq<Item<K, T>>>, events: seq<Event>): seq<Item<K, T>>
    requires Legal(events, |deltas|)
  {
    if events == [] then []
    else
      LevelInRange(events[..|events| - 1], |deltas|);
      match events[|events| - 1]
      case Deliver(i) => AppendList(Play(deltas, events[..|events| - 1]), deltas[i])
      case Reload(k) => Fold(deltas, k)
  }

  lemma {:induction false} FoldHoldsIds<K, T>(deltas: seq<seq<Item<K, T>>>, i: nat, m: nat)
    requires i < m <= |deltas|
    ensures Ids(deltas[i]) <= Ids(Fold(deltas, m))
  {
    AppendIds(Fold(deltas, m - 1), deltas[m - 1]);
    if i < m - 1 {
      FoldHoldsIds(deltas, i, m - 1);
    }
  }

  /** Every checkpoint-and-replay schedule ends in the channel of the plain run: which
      deltas were replayed, and how often, leaves no trace. */
  lemma {:induction false} ReplayLeavesNoTrace<K, T>(deltas: seq<seq<Item<K, T>>>, events: seq<Event>)
    requires Legal(events, |deltas|)
    ensures Level(events) <= |deltas| && Play(deltas, events) == Fold(deltas, Level(events))
  {
    LevelInRange(events, |deltas|);
    if events != [] {
      var init := events[..|events| - 1];
      ReplayLeavesNoTrace(deltas, init);
      match events[|events| - 1]
      case Deliver(i) =>
        if i < Level(init) {
          FoldHoldsIds(deltas, i, Level(init));
          AppendIsReplaySafe(Fold(deltas, Level(init)), deltas[i]);
        }
      case Reload(k) =>
    }
  }

  // ----- merging dictionaries

  /** A missing dictionary and an empty one are the same to the reducer. */
  function Entries<K(==), V>(d: Option<map<K, V>>): map<K, V> {
    if d.Some? then d.value else map[]
  }

  function MergeDict<K(==), V>(existing: Option<map<K, V>>, delta: Option<map<K, V>>): map<K, V> {
    if Entries(existing) == map[] then Entries(delta)
    else if Entries(delta) == map[] then Entries(existing)
    else existing.value + delta.value
  }

  /** A right-biased merge: the delta wins where both have a key; nothing is lost. */
  lemma MergeIsRightBiased<K, V>(existing: Option<map<K, V>>, delta: Option<map<K, V>>)
    ensures MergeDict(existing, delta) == Entries(existing) + Entries(delta)
    ensures MergeDict(existing, delta).Keys == Entries(existing).Keys + Entries(delta).Keys
    ensures forall k :: k in Entries(delta) ==> MergeDict(existing, delta)[k] == Entries(delta)[k]
    ensures forall k :: k in Entries(existing) && k !in Entries(delta) ==> MergeDict(existing, delta)[k] == Entries(existing)[k]
  {
  }

  lemma MergeAssociative<K, V>(a: Option<map<K, V>>, b: Option<map<K, V>>, c: Option<map<K, V>>)
    ensures MergeDict(Some(MergeDict(a, b)), c) == MergeDict(a, Some(MergeDict(b, c)))
    ensures MergeDict(None, a) == Entries(a) == MergeDict(a, None)
  {
  }

  /** Replaying the last delta is harmless; replaying an older one is harmless exactly when
      the later delta agrees with it.  So, unlike a list channel, a dictionary channel
      depends on the replay schedule. */
  lemma MergeReplay<K, V>(existing: Option<map<K, V>>, earlier: map<K, V>, last: map<K, V>)
    ensures var once := MergeDict(Some(MergeDict(existing, Some(earlier))), Some(last));
            && MergeDict(Some(once), Some(last)) == once
            && (MergeDict(Some(once), Some(earlier)) == once <==> forall k :: k in earlier && k in last ==> earlier[k] == last[k])
  {
  }
}
