/** Sorting strings, as the program's language sorts them. */
module Sorting {
  /** Strings compare by their characters, a prefix first. */
  predicate Less(a: string, b: string) {
    b != "" && (a == "" || a[0] < b[0] || (a[0] == b[0] && Less(a[1..], b[1..])))
  }

  lemma {:induction false} LessIsTotal(a: string, b: string)
    ensures !Less(a, a)
    ensures a == b || Less(a, b) || Less(b, a)
    decreases |a| + |b|
  {
    if a != "" {
      LessIsTotal(a[1..], if b == "" then "" else b[1..]);
      assert b != "" && a[0] == b[0] && a[1..] == b[1..] ==> a == [a[0]] + a[1..] == b;
    }
  }

  lemma {:induction false} LessIsTransitive(a: string, b: string, c: string)
    requires Less(a, b) && Less(b, c)
    ensures Less(a, c)
  {
    if a != "" && a[0] == b[0] == c[0] {
      LessIsTransitive(a[1..], b[1..], c[1..]);
    }
  }

  predicate Ascending(ids: seq<string>) { forall i, j :: 0 <= i < j < |ids| ==> Less(ids[i], ids[j]) }

  function Insert(ids: seq<string>, id: string): seq<string> {
    if ids == [] then [id]
    else if Less(id, ids[0]) then [id] + ids
    else [ids[0]] + Insert(ids[1..], id)
  }

  lemma {:induction false} InsertMembers(ids: seq<string>, id: string)
    ensures forall x :: x in Insert(ids, id) <==> x in ids || x == id
  {
    if ids != [] && !Less(id, ids[0]) {
      InsertMembers(ids[1..], id);
      assert ids == [ids[0]] + ids[1..];
    }
  }

  lemma PrependAscends(id: string, rest: seq<string>)
    requires Ascending(rest) && forall x :: x in rest ==> Less(id, x)
    ensures Ascending([id] + rest)
  {
  }

  lemma HeadIsLess(ids: seq<string>)
    requires Ascending(ids) && ids != []
    ensures Ascending(ids[1..]) && forall x :: x in ids[1..] ==> Less(ids[0], x)
  {
  }

  lemma {:induction false} InsertKeepsOrder(ids: seq<string>, id: string)
    requires Ascending(ids) && id !in ids
    ensures Ascending(Insert(ids, id))
  {
    if ids != [] {
      HeadIsLess(ids);
      LessIsTotal(id, ids[0]);
      if Less(id, ids[0]) {
        forall x | x in ids
          ensures Less(id, x)
        {
          if x != ids[0] {
            LessIsTransitive(id, ids[0], x);
          }
        }
        PrependAscends(id, ids);
      } else {
        InsertKeepsOrder(ids[1..], id);
        InsertMembers(ids[1..], id);
        PrependAscends(ids[0], Insert(ids[1..], id));
      }
    }
  }

  method Sorted(keys: set<string>) returns (ids: seq<string>)
    ensures Ascending(ids) && forall id :: id in ids <==> id in keys
  {
    ids := [];
    var todo := keys;
    while todo != {}
      invariant todo <= keys && Ascending(ids)
      invariant forall id :: id in ids <==> id in keys - todo
      decreases todo
    {
      var id :| id in todo;
      InsertKeepsOrder(ids, id);
      InsertMembers(ids, id);
      ids := Insert(ids, id);
      todo := todo - {id};
    }
  }

  predicate SameMembers(xs: seq<string>, ys: seq<string>) {
    (forall x :: x in xs ==> x in ys) && forall y :: y in ys ==> y in xs
  }

  lemma AscendingHead(xs: seq<string>, ys: seq<string>)
    requires Ascending(xs) && Ascending(ys) && xs != [] && ys != [] && SameMembers(xs, ys)
    ensures xs[0] == ys[0]
  {
    assert xs[0] in xs && ys[0] in ys;
    var i :| 0 <= i < |ys| && ys[i] == xs[0];
    var j :| 0 <= j < |xs| && xs[j] == ys[0];
    if i > 0 && j > 0 {
      LessIsTransitive(xs[0], xs[j], xs[0]);
      LessIsTotal(xs[0], xs[0]);
      assert false;
    }
  }

  lemma HeadIsLeast(xs: seq<string>)
    requires Ascending(xs) && xs != []
    ensures xs[0] !in xs[1..] && forall x :: x in xs <==> x == xs[0] || x in xs[1..]
  {
    LessIsTotal(xs[0], xs[0]);
    assert xs == [xs[0]] + xs[1..];
  }

  /** There is only one way to sort. */
  lemma {:induction false} AscendingIsUnique(xs: seq<string>, ys: seq<string>)
    requires Ascending(xs) && Ascending(ys) && SameMembers(xs, ys)
    ensures xs == ys
    decreases |xs|
  {
    assert (xs != [] ==> xs[0] in xs) && (ys != [] ==> ys[0] in ys);
    if xs != [] {
      AscendingHead(xs, ys);
      HeadIsLeast(xs);
      HeadIsLeast(ys);
      AscendingIsUnique(xs[1..], ys[1..]);
      assert xs == [xs[0]] + xs[1..] && ys == [ys[0]] + ys[1..];
    }
  }
}
