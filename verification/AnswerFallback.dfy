/**
 The fallback of the topological-sort verifier (components/answer_verifiers.py): without
 edges from the tools, it reads them from the task and from the answer it judges.

 An arrow in the answer is then a dependency, so an order written with arrows contradicts
 itself: `B -> A` says that A comes first and puts B first.
 */
module AnswerFallback {
  import opened AnswerVerifier

  /** A name that no arrow leads to, followed by an arrow, starts an edge. */
  lemma {:induction false} ArrowStartsEdge(toks: seq<Token>, i: nat, p: nat)
    requires i <= p && p + 1 < |toks| && toks[p + 1].arrow && (i == p || !toks[p].arrow)
    ensures (toks[p].name, toks[p + 1].name) in ArrowEdges(toks, i)
    decreases p - i
  {
    if i < p {
      ArrowStartsEdge(toks, if toks[i + 1].arrow then i + 2 else i + 1, p);
    }
  }

  /** Whatever an arrow leads on from is a node. */
  lemma {:induction false} ArrowLeavesNode(toks: seq<Token>, i: nat, p: nat)
    requires i < p < |toks| && toks[p].arrow
    ensures toks[p - 1].name in Nodes(ArrowEdges(toks, i))
    decreases p - i
  {
    if toks[i + 1].arrow {
      var e := (toks[i].name, toks[i + 1].name);
      assert e in ArrowEdges(toks, i) && e.0 in Nodes(ArrowEdges(toks, i)) && e.1 in Nodes(ArrowEdges(toks, i));
      if i + 2 < p {
        ArrowLeavesNode(toks, i + 2, p);
        NodesGrow(ArrowEdges(toks, i + 2), ArrowEdges(toks, i));
      }
    } else {
      ArrowLeavesNode(toks, i + 1, p);
    }
  }

  lemma NodesGrow(some: set<Edge>, more: set<Edge>)
    requires some <= more
    ensures Nodes(some) <= Nodes(more)
  {
  }

  lemma JoinedAt(task: seq<Token>, answer: seq<Token>, seam: bool, k: nat)
    requires k < |answer|
    ensures var toks := Joined(task, answer, seam);
            && |toks| == |task| + |answer|
            && toks[|task| + k].name == answer[k].name
            && toks[|task| + k].arrow == if k == 0 then seam else answer[k].arrow
  {
  }

  lemma {:induction false} NamesAt(toks: seq<Token>, i: nat, j: nat, q: nat)
    requires i <= j <= |toks| && q < j - i
    ensures |Names(toks, i, j)| == j - i && Names(toks, i, j)[q] == toks[i + q].name
    decreases j
  {
    if q < j - 1 - i {
      NamesAt(toks, i, j - 1, q);
    } else if i < j - 1 {
      NamesAt(toks, i, j - 1, 0);
    }
  }

  /** An arrow is a separator. */
  predicate ArrowsSeparate(toks: seq<Token>) { forall k :: 0 < k < |toks| && toks[k].arrow ==> toks[k].sep }

  /** No arrow leads to the first name of a run. */
  lemma RunStartsFresh(task: seq<Token>, answer: seq<Token>, seam: bool, i: nat, j: nat)
    requires var nodes := Nodes(ArrowEdges(Joined(task, answer, seam), 0));
             ArrowsSeparate(answer) && Maximal(answer, nodes, i, j)
    ensures i > 0 ==> !answer[i].arrow
  {
    if i > 0 && answer[i].arrow {
      var toks := Joined(task, answer, seam);
      JoinedAt(task, answer, seam, i);
      JoinedAt(task, answer, seam, i - 1);
      ArrowLeavesNode(toks, 0, |task| + i);
      assert false;
    }
  }

  /** The first arrow inside a run of the answer is an edge from the earlier name to the later. */
  lemma RunArrowIsEdge(task: seq<Token>, answer: seq<Token>, seam: bool, i: nat, j: nat, k: nat)
    requires var nodes := Nodes(ArrowEdges(Joined(task, answer, seam), 0));
             ArrowsSeparate(answer) && Maximal(answer, nodes, i, j)
    requires i < k < j && answer[k].arrow && (forall h :: i < h < k ==> !answer[h].arrow) && (i == 0 ==> !seam)
    ensures (answer[k - 1].name, answer[k].name) in ArrowEdges(Joined(task, answer, seam), 0)
  {
    RunStartsFresh(task, answer, seam, i, j);
    JoinedAt(task, answer, seam, k);
    JoinedAt(task, answer, seam, k - 1);
    ArrowStartsEdge(Joined(task, answer, seam), 0, |task| + k - 1);
  }

  lemma FirstArrow(toks: seq<Token>, i: nat, j: nat) returns (k: nat)
    requires j <= |toks| && exists h :: i < h < j && toks[h].arrow
    ensures i < k < j && toks[k].arrow && forall h :: i < h < k ==> !toks[h].arrow
  {
    k := i + 1;
    while !toks[k].arrow
      invariant i < k < j && (forall h :: i < h < k ==> !toks[h].arrow)
      invariant exists h :: k <= h < j && toks[h].arrow
      decreases j - k
    {
      k := k + 1;
    }
  }

  /** An edge from a name to the next one in the order is violated by it. */
  lemma ForwardEdgeBreaks(order: seq<string>, edges: set<Edge>, p: nat)
    requires forall i, j :: 0 <= i < j < |order| ==> order[i] != order[j]
    requires p + 1 < |order| && (order[p], order[p + 1]) in edges
    ensures !Respects(order, edges)
  {
    BeforeIsPosition(order, order[p + 1], order[p], p + 1, p);
    var e := (order[p], order[p + 1]);
    assert e in edges && !Before(order, e.1, e.0);
  }

  lemma RunEdgeBreaks(answer: seq<Token>, edges: set<Edge>, i: nat, j: nat, k: nat, order: seq<string>)
    requires i < k < j <= |answer| && order == Names(answer, i, j) && IsPermutation(order, Nodes(edges))
    requires (answer[k - 1].name, answer[k].name) in edges
    ensures !Respects(order, edges)
  {
    NamesAt(answer, i, j, k - 1 - i);
    NamesAt(answer, i, j, k - i);
    ForwardEdgeBreaks(order, edges, k - 1 - i);
  }

  lemma ArrowedRunBreaks(task: seq<Token>, answer: seq<Token>, seam: bool, i: nat, j: nat, edges: set<Edge>, order: seq<string>)
    requires edges == ArrowEdges(Joined(task, answer, seam), 0) && ArrowsSeparate(answer) && (i == 0 ==> !seam)
    requires Maximal(answer, Nodes(edges), i, j) && order == Names(answer, i, j) && IsPermutation(order, Nodes(edges))
    requires exists h :: i < h < j && answer[h].arrow
    ensures !Respects(order, edges)
  {
    var k := FirstArrow(answer, i, j);
    RunArrowIsEdge(task, answer, seam, i, j, k);
    RunEdgeBreaks(answer, edges, i, j, k, order);
  }

  /** With the fallback edges, an accepted order is never one that the answer writes with an arrow:
      not anywhere in the run that presents it. */
  lemma AcceptedRunHasNoArrow(task: seq<Token>, answer: seq<Token>, seam: bool, i: nat, j: nat)
    requires var edges := ArrowEdges(Joined(task, answer, seam), 0);
             && ArrowsSeparate(answer) && Maximal(answer, Nodes(edges), i, j) && (i == 0 ==> !seam)
             && Accepts(edges, answer, Names(answer, i, j))
    ensures forall k :: i < k < j ==> !answer[k].arrow
  {
    var edges, order := ArrowEdges(Joined(task, answer, seam), 0), Names(answer, i, j);
    PresentedOrderIsPermutation(answer, Nodes(edges), order);
    if exists h :: i < h < j && answer[h].arrow {
      ArrowedRunBreaks(task, answer, seam, i, j, edges, order);
      assert false;
    }
  }

  /** An accepted order stands in some maximal run of the answer. */
  lemma AcceptedOrderIsARun(edges: set<Edge>, answer: seq<Token>, order: seq<string>) returns (i: nat, j: nat)
    requires Accepts(edges, answer, order)
    ensures Maximal(answer, Nodes(edges), i, j) && Names(answer, i, j) == order
  {
    var runs := Runs(answer, Nodes(edges), 0);
    var r :| 0 <= r < |runs| && IsFull(runs[r], Nodes(edges)) && runs[r].names == order;
    RunsAreTheMaximalRuns(answer, Nodes(edges), 0);
    assert runs[r] in runs;
    i, j :| 0 <= i && Maximal(answer, Nodes(edges), i, j) && runs[r] == RunBetween(answer, Nodes(edges), i, j);
  }

  predicate IsChain(answer: seq<Token>) {
    |answer| >= 2 && forall k :: 0 < k < |answer| ==> answer[k].arrow && answer[k].sep
  }

  lemma ChainHasEdge(task: seq<Token>, answer: seq<Token>)
    requires IsChain(answer)
    ensures (answer[0].name, answer[1].name) in ArrowEdges(Joined(task, answer, false), 0)
  {
    JoinedAt(task, answer, false, 0);
    JoinedAt(task, answer, false, 1);
    ArrowStartsEdge(Joined(task, answer, false), 0, |task|);
  }

  /** A run that is accepted within a chain is a single name. */
  lemma AcceptedChainRunIsShort(task: seq<Token>, answer: seq<Token>, i: nat, j: nat)
    requires IsChain(answer)
    requires var edges := ArrowEdges(Joined(task, answer, false), 0);
             Maximal(answer, Nodes(edges), i, j) && Accepts(edges, answer, Names(answer, i, j))
    ensures |Names(answer, i, j)| == 1
  {
    NamesAt(answer, i, j, 0);
    AcceptedRunHasNoArrow(task, answer, false, i, j);
    assert i + 1 < |answer| ==> answer[i + 1].arrow;
  }

  lemma ShortOrderBreaks(order: seq<string>, edges: set<Edge>)
    requires |order| <= 1 && edges != {}
    ensures !Respects(order, edges)
  {
    var e :| e in edges;
    assert !Before(order, e.1, e.0);
  }

  /** So an answer that is one arrow chain is never accepted on the edges of its own text, whatever
      order it gives, unless an arrow also joins the task to it. */
  lemma ChainsAreNeverAccepted(task: seq<Token>, answer: seq<Token>, order: seq<string>)
    requires IsChain(answer)
    ensures !Accepts(ArrowEdges(Joined(task, answer, false), 0), answer, order)
  {
    var edges := ArrowEdges(Joined(task, answer, false), 0);
    ChainHasEdge(task, answer);
    if Accepts(edges, answer, order) {
      var i, j := AcceptedOrderIsARun(edges, answer, order);
      AcceptedChainRunIsShort(task, answer, i, j);
      ShortOrderBreaks(order, edges);
      assert false;
    }
  }

  // ----- exactly which spelled orders are accepted

  /** The search from token `i` reaches the end with the last name not yet part of an edge. */
  predicate LastIsFree(toks: seq<Token>, i: nat)
    requires i <= |toks|
    decreases |toks| - i
  {
    if i + 1 >= |toks| then i < |toks|
    else if toks[i + 1].arrow then LastIsFree(toks, i + 2)
    else LastIsFree(toks, i + 1)
  }

  /** The arrow between task and answer makes an edge of their last and first names. */
  predicate Glued(task: seq<Token>, seam: bool) { seam && LastIsFree(task, 0) }

  /** `toks` ends in the answer, whatever precedes its first name. */
  predicate EndsIn(toks: seq<Token>, answer: seq<Token>, at: nat) {
    && |toks| == at + |answer|
    && (forall h :: 0 <= h < |answer| ==> toks[at + h].name == answer[h].name)
    && (forall h :: 0 < h < |answer| ==> toks[at + h].arrow == answer[h].arrow)
  }

  lemma {:induction false} SuffixEdges(toks: seq<Token>, answer: seq<Token>, at: nat, k: nat)
    requires k <= |answer| && EndsIn(toks, answer, at)
    ensures ArrowEdges(toks, at + k) == ArrowEdges(answer, k)
    decreases |answer| - k
  {
    if k + 1 < |answer| {
      assert toks[at + (k + 1)].arrow == answer[k + 1].arrow;
      SuffixEdges(toks, answer, at, if answer[k + 1].arrow then k + 2 else k + 1);
    }
  }

  lemma JoinedEndsInAnswer(task: seq<Token>, answer: seq<Token>, seam: bool)
    requires answer != []
    ensures EndsIn(Joined(task, answer, seam), answer, |task|) && Joined(task, answer, seam)[..|task|] == task
  {
    forall h | 0 <= h < |answer|
      ensures var t := Joined(task, answer, seam)[|task| + h]; t.name == answer[h].name && (h > 0 ==> t.arrow == answer[h].arrow)
    {
      JoinedAt(task, answer, seam, h);
    }
  }

  lemma {:induction false} SplitEdges(toks: seq<Token>, task: seq<Token>, i: nat)
    requires i <= |task| < |toks| && task == toks[..|task|]
    ensures ArrowEdges(toks, i)
            == ArrowEdges(task, i) + if toks[|task|].arrow && LastIsFree(task, i)
                                     then {(task[|task| - 1].name, toks[|task|].name)} + ArrowEdges(toks, |task| + 1)
                                     else ArrowEdges(toks, |task|)
    decreases |task| - i
  {
    if i + 1 < |task| {
      SplitEdges(toks, task, if task[i + 1].arrow then i + 2 else i + 1);
    }
  }

  /** The edges of the joined text: the task's, the answer's, and the one at the seam, whose
      right-hand name is then no left-hand name any more. */
  lemma JoinedEdges(task: seq<Token>, answer: seq<Token>, seam: bool)
    requires answer != []
    ensures ArrowEdges(Joined(task, answer, seam), 0)
            == ArrowEdges(task, 0) + if Glued(task, seam)
                                     then {(task[|task| - 1].name, answer[0].name)} + ArrowEdges(answer, 1)
                                     else ArrowEdges(answer, 0)
  {
    var toks := Joined(task, answer, seam);
    JoinedAt(task, answer, seam, 0);
    JoinedEndsInAnswer(task, answer, seam);
    SuffixEdges(toks, answer, |task|, 0);
    SuffixEdges(toks, answer, |task|, 1);
    SplitEdges(toks, task, 0);
  }

  lemma {:induction false} NoArrowsNoEdges(toks: seq<Token>, i: nat)
    requires i <= |toks| && forall k :: i < k < |toks| ==> !toks[k].arrow
    ensures ArrowEdges(toks, i) == {}
    decreases |toks| - i
  {
    if i < |toks| {
      NoArrowsNoEdges(toks, i + 1);
    }
  }

  /** An order respects the edges that its own spelling makes only if it makes none. */
  lemma SpellingRespectsIff(answer: seq<Token>, order: seq<string>, i: nat)
    requires Spells(answer, order) && i <= |answer| && forall h, k :: 0 <= h < k < |order| ==> order[h] != order[k]
    ensures Respects(order, ArrowEdges(answer, i)) <==> forall k :: i < k < |answer| ==> !answer[k].arrow
  {
    if k :| i < k < |answer| && answer[k].arrow {
      var first := FirstArrow(answer, i, |answer|);
      ArrowStartsEdge(answer, i, first - 1);
      ForwardEdgeBreaks(order, ArrowEdges(answer, i), first - 1);
    } else {
      NoArrowsNoEdges(answer, i);
    }
  }

  lemma RespectsBoth(order: seq<string>, some: set<Edge>, others: set<Edge>)
    ensures Respects(order, some + others) <==> Respects(order, some) && Respects(order, others)
  {
  }

  lemma JoinedRespectsIff(task: seq<Token>, answer: seq<Token>, seam: bool, order: seq<string>)
    requires Spells(answer, order) && forall h, k :: 0 <= h < k < |order| ==> order[h] != order[k]
    ensures Respects(order, ArrowEdges(Joined(task, answer, seam), 0))
            <==> && Respects(order, ArrowEdges(task, 0))
                 && (Glued(task, seam) ==> Before(order, answer[0].name, task[|task| - 1].name))
                 && forall k :: (if Glued(task, seam) then 1 else 0) < k < |answer| ==> !answer[k].arrow
  {
    JoinedEdges(task, answer, seam);
    if Glued(task, seam) {
      var e := (task[|task| - 1].name, answer[0].name);
      RespectsBoth(order, ArrowEdges(task, 0), {e} + ArrowEdges(answer, 1));
      RespectsBoth(order, {e}, ArrowEdges(answer, 1));
      SpellingRespectsIff(answer, order, 1);
      assert Respects(order, {e}) <==> Before(order, e.1, e.0);
    } else {
      RespectsBoth(order, ArrowEdges(task, 0), ArrowEdges(answer, 0));
      SpellingRespectsIff(answer, order, 0);
    }
  }

  /** In the fallback, exactly which spelled orders are accepted: those that name every node once,
      respect the edges of the task (and the one at the seam), and are written without an arrow,
      save between the first two names when an edge at the seam has used the first one up. */
  lemma SpelledOrderAcceptedIff(task: seq<Token>, answer: seq<Token>, seam: bool, order: seq<string>)
    requires Spells(answer, order)
    ensures var edges := ArrowEdges(Joined(task, answer, seam), 0);
            && (Presents(Runs(answer, Nodes(edges), 0), Nodes(edges), order) <==> IsPermutation(order, Nodes(edges)))
            && (Accepts(edges, answer, order)
                <==> && IsPermutation(order, Nodes(edges)) && Respects(order, ArrowEdges(task, 0))
                     && (Glued(task, seam) ==> Before(order, answer[0].name, task[|task| - 1].name))
                     && forall k :: (if Glued(task, seam) then 1 else 0) < k < |answer| ==> !answer[k].arrow)
  {
    var nodes := Nodes(ArrowEdges(Joined(task, answer, seam), 0));
    SpelledOrderIsPresented(answer, order, nodes);
    if IsPermutation(order, nodes) {
      JoinedRespectsIff(task, answer, seam, order);
    }
  }

  lemma {:induction false} EdgesNameTokens(toks: seq<Token>, i: nat, names: set<string>)
    requires i <= |toks| && forall k :: 0 <= k < |toks| ==> toks[k].name in names
    ensures Nodes(ArrowEdges(toks, i)) <= names
    decreases |toks| - i
  {
    if i + 1 < |toks| {
      EdgesNameTokens(toks, if toks[i + 1].arrow then i + 2 else i + 1, names);
    }
  }

  lemma NodesOfBoth(some: set<Edge>, others: set<Edge>)
    ensures Nodes(some + others) == Nodes(some) + Nodes(others)
  {
  }

  /** An answer that only names nodes of the task adds edges, but no nodes. */
  lemma AnswerAddsNoNodes(task: seq<Token>, answer: seq<Token>, order: seq<string>)
    requires Spells(answer, order) && ToSet(order) == Nodes(ArrowEdges(task, 0))
    ensures Nodes(ArrowEdges(Joined(task, answer, false), 0)) == Nodes(ArrowEdges(task, 0))
  {
    assert forall k :: 0 <= k < |answer| ==> answer[k].name == order[k] && order[k] in ToSet(order);
    EdgesNameTokens(answer, 0, ToSet(order));
    JoinedEdges(task, answer, false);
    NodesOfBoth(ArrowEdges(task, 0), ArrowEdges(answer, 0));
  }

  /** What the program makes of a right order: the task states the dependencies, the order respects
      them, and the answer spells it.  It is always presented; it is accepted if and only if it is
      written without an arrow, and rejected otherwise. */
  lemma RightOrderAcceptedIff(outputs: seq<seq<Token>>, task: seq<Token>, answer: seq<Token>, order: seq<string>)
    requires EvidenceEdges(outputs) == {}
    requires IsPermutation(order, Nodes(ArrowEdges(task, 0))) && Respects(order, ArrowEdges(task, 0)) && Spells(answer, order)
    ensures var edges := EdgesOf(outputs, task, answer, false);
            && edges != {} && Presents(Runs(answer, Nodes(edges), 0), Nodes(edges), order)
            && (Accepts(edges, answer, order) <==> forall k :: 0 < k < |answer| ==> !answer[k].arrow)
            && (Respects(order, edges) <==> forall k :: 0 < k < |answer| ==> !answer[k].arrow)
  {
    AnswerAddsNoNodes(task, answer, order);
    SpelledOrderAcceptedIff(task, answer, false, order);
    assert order[0] in ToSet(order);
  }

  /** A presented order that its run writes with an arrow is rejected, not just left undecided. */
  lemma PresentedArrowIsRejected(task: seq<Token>, answer: seq<Token>, seam: bool, i: nat, j: nat)
    requires var edges := ArrowEdges(Joined(task, answer, seam), 0);
             && ArrowsSeparate(answer) && Maximal(answer, Nodes(edges), i, j) && (i == 0 ==> !seam)
             && Presents(Runs(answer, Nodes(edges), 0), Nodes(edges), Names(answer, i, j))
    requires exists k :: i < k < j && answer[k].arrow
    ensures !Respects(Names(answer, i, j), ArrowEdges(Joined(task, answer, seam), 0))
  {
    var edges, order := ArrowEdges(Joined(task, answer, seam), 0), Names(answer, i, j);
    PresentedOrderIsPermutation(answer, Nodes(edges), order);
    ArrowedRunBreaks(task, answer, seam, i, j, edges, order);
  }

  lemma NodesOfEdge(e: Edge)
    ensures Nodes({e}) == {e.0, e.1}
  {
  }

  lemma PairIsOrder(b: string, c: string)
    requires b != c
    ensures IsPermutation([b, c], {c, b}) && Before([b, c], b, c)
  {
    var order := [b, c];
    assert order[0] == b && order[1] == c;
    assert ToSet(order) == {c, b};
    assert |{c, b}| == 2;
  }

  /** Why the seam matters: after a task that ends in `c` and an arrow, the chain `b -> c` is
      accepted, because `b` is then read as what `c` depends on, and not as what depends on `c`. */
  lemma ChainAcceptedAcrossTheSeam(task: seq<Token>, answer: seq<Token>, b: string, c: string)
    requires |task| == 1 && task[0].name == c && b != c
    requires IsChain(answer) && Spells(answer, [b, c])
    ensures Accepts(ArrowEdges(Joined(task, answer, true), 0), answer, [b, c])
  {
    SpelledOrderAcceptedIff(task, answer, true, [b, c]);
    JoinedEdges(task, answer, true);
    assert ArrowEdges(Joined(task, answer, true), 0) == {(c, b)};
    NodesOfEdge((c, b));
    PairIsOrder(b, c);
  }
}
