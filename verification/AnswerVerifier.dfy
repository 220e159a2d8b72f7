/**
 The deterministic topological-sort verifier (components/answer_verifiers.py).

 A text is a sequence of identifier tokens, each with two flags about the gap before it:
 whether only order separators stand there, and whether that is one arrow.  `NodeRuns`,
 `ParseOrder`, `ParseEdges` and `Verify` follow the program's loops.  The lemmas show what a verdict means for
 the dependency graph, cycles included.
 */
module AnswerVerifier {
  import opened Basics
  import opened Wrappers

  datatype Token = Token(name: string, sep: bool, arrow: bool)

  datatype Run = Run(names: seq<string>, tainted: bool)

  /** `(a, b)`: a depends on b. */
  type Edge = (string, string)

  predicate IsUpper(c: char) { 'A' <= c <= 'Z' }

  predicate IsAlnum(c: char) { IsUpper(c) || 'a' <= c <= 'z' || '0' <= c <= '9' }

  predicate LooksLikeNode(token: string) {
    0 < |token| <= 2 && IsUpper(token[0]) && forall i :: 0 <= i < |token| ==> IsAlnum(token[i])
  }

  // ----- runs of node tokens

  /** The names of the tokens `i..j`. */
  function Names(toks: seq<Token>, i: nat, j: nat): seq<string>
    requires i <= j <= |toks|
  {
    if i == j then [] else Names(toks, i, j - 1) + [toks[j - 1].name]
  }

  /** Where a run that has reached token `i` stops. */
  function RunEnd(toks: seq<Token>, nodes: set<string>, i: nat): (j: nat)
    requires i <= |toks|
    ensures i <= j <= |toks|
    ensures forall k :: i <= k < j ==> toks[k].name in nodes && toks[k].sep
    ensures j < |toks| ==> toks[j].name !in nodes || !toks[j].sep
    decreases |toks| - i
  {
    if i < |toks| && toks[i].name in nodes && toks[i].sep then RunEnd(toks, nodes, i + 1) else i
  }

  /** The token that stopped a run looks like a node of another graph. */
  predicate Taints(toks: seq<Token>, nodes: set<string>, j: nat) {
    j < |toks| && toks[j].name !in nodes && toks[j].sep && LooksLikeNode(toks[j].name)
  }

  function RunBetween(toks: seq<Token>, nodes: set<string>, i: nat, j: nat): Run
    requires i <= j <= |toks|
  {
    Run(Names(toks, i, j), Taints(toks, nodes, j))
  }

  function Runs(toks: seq<Token>, nodes: set<string>, i: nat): seq<Run>
    requires i <= |toks|
    decreases |toks| - i
  {
    if i == |toks| then []
    else if toks[i].name !in nodes then Runs(toks, nodes, i + 1)
    else
      var j := RunEnd(toks, nodes, i + 1);
      [RunBetween(toks, nodes, i, j)] + Runs(toks, nodes, j)
  }

  /** The runs still to come when `current` holds the tokens since `from`. */
  ghost function Pending(toks: seq<Token>, nodes: set<string>, from: nat, i: nat): seq<Run>
    requires from <= i <= |toks|
  {
    if from == i then Runs(toks, nodes, i)
    else
      var j := RunEnd(toks, nodes, i);
      [RunBetween(toks, nodes, from, j)] + Runs(toks, nodes, j)
  }

  /** The runs collected and the runs to come make up all runs. */
  ghost predicate Scanned(toks: seq<Token>, nodes: set<string>, runs: seq<Run>, from: nat, i: nat) {
    from <= i <= |toks| && Runs(toks, nodes, 0) == runs + Pending(toks, nodes, from, i)
  }

  lemma ScanNode(toks: seq<Token>, nodes: set<string>, runs: seq<Run>, from: nat, i: nat)
    requires i < |toks| && toks[i].name in nodes && Scanned(toks, nodes, runs, from, i)
    ensures if from < i && !toks[i].sep then Scanned(toks, nodes, runs + [Run(Names(toks, from, i), false)], i, i + 1)
            else Scanned(toks, nodes, runs, from, i + 1)
  {
    if from < i && !toks[i].sep {
      var run := Run(Names(toks, from, i), false);
      assert Pending(toks, nodes, from, i) == [run] + Pending(toks, nodes, i, i + 1);
      assert runs + ([run] + Pending(toks, nodes, i, i + 1)) == (runs + [run]) + Pending(toks, nodes, i, i + 1);
    }
  }

  lemma ScanOther(toks: seq<Token>, nodes: set<string>, runs: seq<Run>, from: nat, i: nat)
    requires i < |toks| && toks[i].name !in nodes && Scanned(toks, nodes, runs, from, i)
    ensures var run := Run(Names(toks, from, i), toks[i].sep && LooksLikeNode(toks[i].name));
            Scanned(toks, nodes, if from < i then runs + [run] else runs, i + 1, i + 1)
  {
  }

  method NodeRuns(toks: seq<Token>, nodes: set<string>) returns (runs: seq<Run>)
    ensures runs == Runs(toks, nodes, 0)
  {
    runs := [];
    var current: seq<string> := [];
    var tainted := false;
    ghost var from := 0;
    for i := 0 to |toks|
      invariant Scanned(toks, nodes, runs, from, i)
      invariant current == Names(toks, from, i) && (current == [] <==> from == i) && !tainted
    {
      var tok := toks[i];
      if tok.name in nodes {
        ScanNode(toks, nodes, runs, from, i);
        if current != [] && !tok.sep {
          runs := runs + [Run(current, tainted)];
          current, tainted := [], false;
          from := i;
        }
        current := current + [tok.name];
      } else {
        ScanOther(toks, nodes, runs, from, i);
        if current != [] {
          if tok.sep && LooksLikeNode(tok.name) {
            tainted := true;
          }
          runs := runs + [Run(current, tainted)];
          current, tainted := [], false;
        }
        from := i + 1;
      }
    }
    if current != [] {
      runs := runs + [Run(current, tainted)];
    }
  }

  function NodeNames(toks: seq<Token>, nodes: set<string>, i: nat): seq<string>
    requires i <= |toks|
    decreases |toks| - i
  {
    if i == |toks| then []
    else (if toks[i].name in nodes then [toks[i].name] else []) + NodeNames(toks, nodes, i + 1)
  }

  function Flatten(runs: seq<Run>): seq<string> {
    if runs == [] then [] else runs[0].names + Flatten(runs[1..])
  }

  lemma {:induction false} NodeNamesSplit(toks: seq<Token>, nodes: set<string>, i: nat, j: nat)
    requires i <= j <= |toks| && forall k :: i <= k < j ==> toks[k].name in nodes
    ensures NodeNames(toks, nodes, i) == Names(toks, i, j) + NodeNames(toks, nodes, j)
    decreases j - i
  {
    if i < j {
      NodeNamesSplit(toks, nodes, i, j - 1);
      assert NodeNames(toks, nodes, j - 1) == [toks[j - 1].name] + NodeNames(toks, nodes, j);
    }
  }

  /** The runs hold the node tokens of the text, all of them, in order. */
  lemma {:induction false} RunsHoldTheNodeTokens(toks: seq<Token>, nodes: set<string>, i: nat)
    requires i <= |toks|
    ensures Flatten(Runs(toks, nodes, i)) == NodeNames(toks, nodes, i)
    decreases |toks| - i
  {
    if i < |toks| {
      if toks[i].name in nodes {
        var j := RunEnd(toks, nodes, i + 1);
        NodeNamesSplit(toks, nodes, i, j);
        RunsHoldTheNodeTokens(toks, nodes, j);
      } else {
        RunsHoldTheNodeTokens(toks, nodes, i + 1);
      }
    }
  }

  /** Tokens `i..j` are nodes joined by separators, and cannot be extended either way. */
  predicate Maximal(toks: seq<Token>, nodes: set<string>, i: nat, j: nat) {
    && i < j <= |toks|
    && (forall k :: i <= k < j ==> toks[k].name in nodes)
    && (forall k :: i < k < j ==> toks[k].sep)
    && (i == 0 || toks[i - 1].name !in nodes || !toks[i].sep)
    && (j == |toks| || toks[j].name !in nodes || !toks[j].sep)
  }

  /** No run starts in the middle of another one. */
  predicate Boundary(toks: seq<Token>, nodes: set<string>, i: nat) {
    i == 0 || i >= |toks| || toks[i - 1].name !in nodes || toks[i].name !in nodes || !toks[i].sep
  }

  /** The scanner finds the maximal runs: exactly them, each with the right taint. */
  lemma {:induction false} RunsAreTheMaximalRuns(toks: seq<Token>, nodes: set<string>, from: nat)
    requires from <= |toks| && Boundary(toks, nodes, from)
    ensures forall r :: r in Runs(toks, nodes, from)
                        <==> exists i, j :: from <= i && Maximal(toks, nodes, i, j) && r == RunBetween(toks, nodes, i, j)
    decreases |toks| - from
  {
    if from < |toks| {
      if toks[from].name !in nodes {
        RunsAreTheMaximalRuns(toks, nodes, from + 1);
        assert forall i, j :: from <= i && Maximal(toks, nodes, i, j) ==> from + 1 <= i;
      } else {
        var end := RunEnd(toks, nodes, from + 1);
        RunsAreTheMaximalRuns(toks, nodes, end);
        assert Maximal(toks, nodes, from, end);
        forall i, j | from <= i && Maximal(toks, nodes, i, j)
          ensures (i == from && j == end) || end <= i
        {
        }
      }
    }
  }

  // ----- the order an answer presents

  function ToSet(names: seq<string>): set<string> { set n | n in names }

  predicate IsFull(run: Run, nodes: set<string>) {
    |run.names| == |nodes| && |ToSet(run.names)| == |nodes|
  }

  /** The answer presents `order`: some full run is it, and no full run is tainted or disagrees. */
  predicate Presents(runs: seq<Run>, nodes: set<string>, order: seq<string>) {
    && (exists k :: 0 <= k < |runs| && IsFull(runs[k], nodes) && runs[k].names == order)
    && (forall k :: 0 <= k < |runs| && IsFull(runs[k], nodes) ==> !runs[k].tainted && runs[k].names == order)
  }

  /** The order, or none when the answer presents none it can be held to. */
  method ParseOrder(answer: seq<Token>, nodes: set<string>) returns (r: Option<seq<string>>)
    ensures r.Some? ==> Presents(Runs(answer, nodes, 0), nodes, r.value)
    ensures r.None? ==> forall order :: !Presents(Runs(answer, nodes, 0), nodes, order)
  {
    var runs := NodeRuns(answer, nodes);
    var candidates: seq<seq<string>> := [];
    for k := 0 to |runs|
      invariant forall c :: c in candidates <==> exists h :: 0 <= h < k && IsFull(runs[h], nodes) && runs[h].names == c
      invariant forall h :: 0 <= h < k && IsFull(runs[h], nodes) ==> !runs[h].tainted
    {
      if IsFull(runs[k], nodes) {
        if runs[k].tainted {
          return None;
        }
        candidates := candidates + [runs[k].names];
      }
    }
    if candidates == [] {
      assert forall h :: 0 <= h < |runs| && IsFull(runs[h], nodes) ==> runs[h].names in candidates;
      return None;
    }
    assert candidates[0] in candidates;
    assert forall h :: 0 <= h < |runs| && IsFull(runs[h], nodes) ==> runs[h].names in candidates;
    for k := 0 to |candidates|
      invariant forall h :: 0 <= h < k ==> candidates[h] == candidates[0]
    {
      if candidates[k] != candidates[0] {
        assert candidates[k] in candidates;
        return None;
      }
    }
    return Some(candidates[0]);
  }

  // ----- the verdict

  function Nodes(edges: set<Edge>): set<string> {
    (set e | e in edges :: e.0) + (set e | e in edges :: e.1)
  }

  predicate Before(order: seq<string>, x: string, y: string) {
    exists i, j :: 0 <= i < j < |order| && order[i] == x && order[j] == y
  }

  predicate Respects(order: seq<string>, edges: set<Edge>) {
    forall e :: e in edges ==> Before(order, e.1, e.0)
  }

  /** The answer earns a positive verdict, by presenting an order that respects every edge. */
  predicate Accepts(edges: set<Edge>, answer: seq<Token>, order: seq<string>) {
    Presents(Runs(answer, Nodes(edges), 0), Nodes(edges), order) && Respects(order, edges)
  }

  predicate IsPermutation(order: seq<string>, nodes: set<string>) {
    ToSet(order) == nodes && |order| == |nodes| && forall i, j :: 0 <= i < j < |order| ==> order[i] != order[j]
  }

  lemma {:induction false} SetSize(names: seq<string>)
    ensures |ToSet(names)| <= |names|
    ensures |ToSet(names)| == |names| ==> forall i, j :: 0 <= i < j < |names| ==> names[i] != names[j]
  {
    if names != [] {
      var init, last := names[..|names| - 1], names[|names| - 1];
      SetSize(init);
      assert ToSet(names) == ToSet(init) + {last};
      if last in init {
        assert ToSet(names) == ToSet(init);
      } else {
        assert forall i :: 0 <= i < |init| ==> names[i] == init[i] && init[i] in init;
      }
    }
  }

  lemma {:induction false} NamesAreNodes(toks: seq<Token>, nodes: set<string>, i: nat, j: nat)
    requires i <= j <= |toks| && forall k :: i <= k < j ==> toks[k].name in nodes
    ensures ToSet(Names(toks, i, j)) <= nodes
    decreases j - i
  {
    if i < j {
      NamesAreNodes(toks, nodes, i, j - 1);
    }
  }

  lemma {:induction false} RunsHoldNodes(toks: seq<Token>, nodes: set<string>, i: nat)
    requires i <= |toks|
    ensures forall r :: r in Runs(toks, nodes, i) ==> ToSet(r.names) <= nodes
    decreases |toks| - i
  {
    if i < |toks| {
      if toks[i].name in nodes {
        var j := RunEnd(toks, nodes, i + 1);
        RunsHoldNodes(toks, nodes, j);
        NamesAreNodes(toks, nodes, i, j);
      } else {
        RunsHoldNodes(toks, nodes, i + 1);
      }
    }
  }

  /** A presented order names every node of the graph exactly once, and nothing else. */
  lemma PresentedOrderIsPermutation(answer: seq<Token>, nodes: set<string>, order: seq<string>)
    requires Presents(Runs(answer, nodes, 0), nodes, order)
    ensures IsPermutation(order, nodes)
  {
    RunsHoldNodes(answer, nodes, 0);
    SetSize(order);
    SubsetSize(ToSet(order), nodes);
  }

  // ----- the edges

  /** Matches do not overlap: after an arrow between two names the search goes on behind both. */
  function ArrowEdges(toks: seq<Token>, i: nat): set<Edge>
    requires i <= |toks|
    decreases |toks| - i
  {
    if i + 1 >= |toks| then {}
    else if toks[i + 1].arrow then {(toks[i].name, toks[i + 1].name)} + ArrowEdges(toks, i + 2)
    else ArrowEdges(toks, i + 1)
  }

  method ParseEdgesFromText(toks: seq<Token>) returns (edges: set<Edge>)
    ensures edges == ArrowEdges(toks, 0)
  {
    edges := {};
    var i := 0;
    while i + 1 < |toks|
      invariant i <= |toks| && edges + ArrowEdges(toks, i) == ArrowEdges(toks, 0)
    {
      if toks[i + 1].arrow {
        edges := edges + {(toks[i].name, toks[i + 1].name)};
        i := i + 2;
      } else {
        i := i + 1;
      }
    }
  }

  /** The edges of all tool outputs. */
  function EvidenceEdges(outputs: seq<seq<Token>>): set<Edge> {
    if outputs == [] then {} else EvidenceEdges(outputs[..|outputs| - 1]) + ArrowEdges(outputs[|outputs| - 1], 0)
  }

  method ParseEdges(outputs: seq<seq<Token>>) returns (edges: set<Edge>)
    ensures edges == EvidenceEdges(outputs)
  {
    edges := {};
    for i := 0 to |outputs|
      invariant edges == EvidenceEdges(outputs[..i])
    {
      assert outputs[..i + 1][..i] == outputs[..i];
      var found := ParseEdgesFromText(outputs[i]);
      edges := edges + found;
    }
    assert outputs[..|outputs|] == outputs;
  }

  /** The task followed by the answer on a new line; `seam` says whether an arrow joins them. */
  function Joined(task: seq<Token>, answer: seq<Token>, seam: bool): seq<Token> {
    if answer == [] then task else task + [answer[0].(arrow := seam)] + answer[1..]
  }

  /** What the agent observed, or else what the task and the answer itself say. */
  function EdgesOf(outputs: seq<seq<Token>>, task: seq<Token>, answer: seq<Token>, seam: bool): set<Edge> {
    if EvidenceEdges(outputs) != {} then EvidenceEdges(outputs) else ArrowEdges(Joined(task, answer, seam), 0)
  }

  /** The verdict: abstain without edges or without a presented order, otherwise say
      whether that order respects every edge. */
  method Verify(outputs: seq<seq<Token>>, task: seq<Token>, answer: seq<Token>, seam: bool) returns (r: Option<bool>)
    ensures var edges := EdgesOf(outputs, task, answer, seam);
            var runs := Runs(answer, Nodes(edges), 0);
            && (r == None <==> edges == {} || forall order :: !Presents(runs, Nodes(edges), order))
            && (r == Some(true) <==> edges != {} && exists order :: Accepts(edges, answer, order))
            && (r == Some(false) <==> edges != {} && exists order :: Presents(runs, Nodes(edges), order) && !Respects(order, edges))
  {
    var edges := ParseEdges(outputs);
    if edges == {} {
      edges := ParseEdgesFromText(Joined(task, answer, seam));
    }
    r := Judge(edges, answer);
  }

  method Judge(edges: set<Edge>, answer: seq<Token>) returns (r: Option<bool>)
    ensures var runs := Runs(answer, Nodes(edges), 0);
            && (r == None <==> edges == {} || forall order :: !Presents(runs, Nodes(edges), order))
            && (r == Some(true) <==> edges != {} && exists order :: Accepts(edges, answer, order))
            && (r == Some(false) <==> edges != {} && exists order :: Presents(runs, Nodes(edges), order) && !Respects(order, edges))
  {
    if edges == {} {
      return None;
    }
    var nodes := Nodes(edges);
    var parsed := ParseOrder(answer, nodes);
    if parsed.None? {
      return None;
    }
    var order := parsed.value;
    PresentedOrderIsPermutation(answer, nodes, order);
    assert forall other :: Presents(Runs(answer, nodes, 0), nodes, other) ==> other == order;
    var respected := CheckEdges(edges, order);
    assert respected ==> Accepts(edges, answer, order);
    return Some(respected);
  }

  /** Looks every edge up in a position table; the first violated edge decides. */
  method CheckEdges(edges: set<Edge>, order: seq<string>) returns (respected: bool)
    requires IsPermutation(order, Nodes(edges))
    ensures respected <==> Respects(order, edges)
  {
    var position := Positions(order);
    var todo := edges;
    while todo != {}
      invariant todo <= edges
      invariant forall e :: e in edges - todo ==> Before(order, e.1, e.0)
      decreases todo
    {
      var e :| e in todo;
      assert e.0 in Nodes(edges) && e.1 in Nodes(edges);
      assert e.0 in ToSet(order) && e.1 in ToSet(order);
      BeforeIsPosition(order, e.1, e.0, position[e.1], position[e.0]);
      if position[e.1] >= position[e.0] {
        return false;
      }
      todo := todo - {e};
    }
    return true;
  }

  method Positions(order: seq<string>) returns (position: map<string, nat>)
    requires forall i, j :: 0 <= i < j < |order| ==> order[i] != order[j]
    ensures position.Keys == ToSet(order)
    ensures forall n :: n in position ==> position[n] < |order| && order[position[n]] == n
  {
    position := map[];
    for i := 0 to |order|
      invariant position.Keys == ToSet(order[..i])
      invariant forall n :: n in position ==> position[n] < i && order[position[n]] == n
    {
      assert order[i] !in order[..i];
      assert ToSet(order[..i + 1]) == ToSet(order[..i]) + {order[i]};
      position := position[order[i] := i];
    }
    assert order[..|order|] == order;
  }

  lemma BeforeIsPosition(order: seq<string>, x: string, y: string, i: nat, j: nat)
    requires forall i, j :: 0 <= i < j < |order| ==> order[i] != order[j]
    requires i < |order| && j < |order| && order[i] == x && order[j] == y
    ensures Before(order, x, y) <==> i < j
  {
  }

  // ----- cycles

  /** A walk along dependencies. */
  predicate IsWalk(edges: set<Edge>, path: seq<string>) {
    forall i :: 0 <= i < |path| - 1 ==> (path[i], path[i + 1]) in edges
  }

  predicate IsPath(edges: set<Edge>, path: seq<string>) { |path| >= 2 && IsWalk(edges, path) }

  ghost predicate HasCycle(edges: set<Edge>) {
    exists path :: IsPath(edges, path) && path[0] == path[|path| - 1]
  }

  lemma {:induction false} PathsRunBackwards(edges: set<Edge>, order: seq<string>, path: seq<string>)
    requires (forall i, j :: 0 <= i < j < |order| ==> order[i] != order[j]) && Respects(order, edges) && IsPath(edges, path)
    ensures Before(order, path[|path| - 1], path[0])
    decreases |path|
  {
    var e := (path[0], path[1]);
    assert e in edges && Before(order, e.1, e.0);
    if |path| > 2 {
      forall i | 0 <= i < |path[1..]| - 1
        ensures (path[1..][i], path[1..][i + 1]) in edges
      {
        assert (path[i + 1], path[i + 2]) in edges;
      }
      PathsRunBackwards(edges, order, path[1..]);
    }
  }

  /** A graph with a cycle is never accepted, whatever the answer says. */
  lemma CyclesAreNeverAccepted(edges: set<Edge>, answer: seq<Token>, order: seq<string>)
    requires Accepts(edges, answer, order)
    ensures !HasCycle(edges)
  {
    PresentedOrderIsPermutation(answer, Nodes(edges), order);
    if HasCycle(edges) {
      var path :| IsPath(edges, path) && path[0] == path[|path| - 1];
      PathsRunBackwards(edges, order, path);
      assert false;
    }
  }

  lemma WalkFrom(edges: set<Edge>, walk: seq<string>, k: nat)
    requires IsWalk(edges, walk) && k < |walk|
    ensures IsWalk(edges, walk[k..])
  {
    var rest := walk[k..];
    forall i | 0 <= i < |rest| - 1
      ensures (rest[i], rest[i + 1]) in edges
    {
      assert rest[i] == walk[k + i] && rest[i + 1] == walk[(k + i) + 1];
    }
  }

  lemma ClosesCycle(edges: set<Edge>, walk: seq<string>)
    requires IsPath(edges, walk) && walk[|walk| - 1] in walk[..|walk| - 1]
    ensures HasCycle(edges)
  {
    var k :| 0 <= k < |walk| - 1 && walk[..|walk| - 1][k] == walk[|walk| - 1];
    WalkFrom(edges, walk, k);
    var cycle := walk[k..];
    assert IsPath(edges, cycle) && cycle[0] == cycle[|cycle| - 1];
  }

  lemma WalkFurther(edges: set<Edge>, path: seq<string>, b: string)
    requires path != [] && IsWalk(edges, path) && (path[|path| - 1], b) in edges
    ensures IsWalk(edges, path + [b]) && ToSet(path + [b]) == ToSet(path) + {b}
    ensures b in path ==> HasCycle(edges)
  {
    var longer := path + [b];
    assert longer[..|longer| - 1] == path && longer[|longer| - 1] == b;
    if b in path {
      ClosesCycle(edges, longer);
    }
  }

  /** Without cycles, following dependencies from a node ends at one that has none. */
  lemma {:induction false} FindIndependent(nodes: set<string>, edges: set<Edge>, path: seq<string>) returns (free: string)
    requires !HasCycle(edges) && path != [] && ToSet(path) <= nodes && IsWalk(edges, path)
    ensures free in nodes && forall b :: b in nodes ==> (free, b) !in edges
    decreases nodes - ToSet(path)
  {
    var last := path[|path| - 1];
    assert last in ToSet(path);
    if b :| b in nodes && (last, b) in edges {
      WalkFurther(edges, path, b);
      assert b !in ToSet(path);
      free := FindIndependent(nodes, edges, path + [b]);
    } else {
      free := last;
    }
  }

  /** Every acyclic graph has an order that respects it. */
  lemma {:induction false} OrderExists(nodes: set<string>, edges: set<Edge>) returns (order: seq<string>)
    requires !HasCycle(edges)
    ensures IsPermutation(order, nodes)
    ensures forall e :: e in edges && e.0 in nodes && e.1 in nodes ==> Before(order, e.1, e.0)
    decreases nodes
  {
    if nodes == {} {
      order := [];
    } else {
      var start :| start in nodes;
      var free := FindIndependent(nodes, edges, [start]);
      var rest := OrderExists(nodes - {free}, edges);
      order := [free] + rest;
      PrependPermutation(free, rest, nodes);
      forall e | e in edges && e.0 in nodes && e.1 in nodes
        ensures Before(order, e.1, e.0)
      {
        PrependBefore(free, rest, e.1, e.0);
      }
    }
  }

  lemma PrependPermutation(free: string, rest: seq<string>, nodes: set<string>)
    requires free in nodes && IsPermutation(rest, nodes - {free})
    ensures IsPermutation([free] + rest, nodes)
  {
    assert free !in ToSet(rest);
    assert forall i :: 0 <= i < |rest| ==> rest[i] in ToSet(rest);
    assert ToSet([free] + rest) == {free} + ToSet(rest);
  }

  lemma PrependBefore(free: string, rest: seq<string>, x: string, y: string)
    requires Before(rest, x, y) || (x == free && y in rest)
    ensures Before([free] + rest, x, y)
  {
    var order := [free] + rest;
    if Before(rest, x, y) {
      var i, j :| 0 <= i < j < |rest| && rest[i] == x && rest[j] == y;
      assert order[i + 1] == x && order[j + 1] == y;
    } else {
      var j :| 0 <= j < |rest| && rest[j] == y;
      assert order[0] == x && order[j + 1] == y;
    }
  }

  /** An answer that is just an order, written with separators. */
  function Written(order: seq<string>): seq<Token> {
    seq(|order|, i requires 0 <= i < |order| => Token(order[i], true, false))
  }

  /** The answer is the names of `order`, with nothing but separators between them. */
  predicate Spells(answer: seq<Token>, order: seq<string>) {
    && |answer| == |order| > 0
    && (forall k :: 0 <= k < |order| ==> answer[k].name == order[k])
    && (forall k :: 0 < k < |answer| ==> answer[k].sep)
  }

  lemma {:induction false} NamesAreSpelled(answer: seq<Token>, order: seq<string>, n: nat)
    requires Spells(answer, order) && n <= |order|
    ensures Names(answer, 0, n) == order[..n]
  {
    if n > 0 {
      NamesAreSpelled(answer, order, n - 1);
    }
  }

  /** An answer that spells an order presents it exactly when it names every node once. */
  lemma SpelledOrderIsPresented(answer: seq<Token>, order: seq<string>, nodes: set<string>)
    requires Spells(answer, order)
    ensures Presents(Runs(answer, nodes, 0), nodes, order) <==> IsPermutation(order, nodes)
  {
    if IsPermutation(order, nodes) {
      assert forall k :: 0 <= k < |answer| ==> answer[k].name in ToSet(order);
      assert RunEnd(answer, nodes, 1) == |answer|;
      NamesAreSpelled(answer, order, |order|);
      assert order[..|order|] == order;
      var run := Run(order, false);
      assert Runs(answer, nodes, 0) == [run];
      assert IsFull(run, nodes) && [run][0] == run;
    } else if Presents(Runs(answer, nodes, 0), nodes, order) {
      PresentedOrderIsPermutation(answer, nodes, order);
      assert false;
    }
  }

  /** Writing an order down and scanning it presents that order. */
  lemma WrittenOrderIsPresented(order: seq<string>, nodes: set<string>)
    requires IsPermutation(order, nodes) && nodes != {}
    ensures Presents(Runs(Written(order), nodes, 0), nodes, order)
  {
    SpelledOrderIsPresented(Written(order), order, nodes);
  }

  lemma AcceptedOrder(edges: set<Edge>) returns (order: seq<string>)
    requires edges != {} && !HasCycle(edges)
    ensures Accepts(edges, Written(order), order)
  {
    order := OrderExists(Nodes(edges), edges);
    var e :| e in edges;
    assert e.0 in Nodes(edges);
    WrittenOrderIsPresented(order, Nodes(edges));
    forall e | e in edges
      ensures Before(order, e.1, e.0)
    {
      assert e.0 in Nodes(edges) && e.1 in Nodes(edges);
    }
  }

  /** The verifier's positive verdicts are exact for the graph: some answer is accepted if
      and only if the dependencies have no cycle. */
  lemma AcceptableIffAcyclic(edges: set<Edge>)
    requires edges != {}
    ensures (exists answer: seq<Token>, order: seq<string> :: Accepts(edges, answer, order)) <==> !HasCycle(edges)
  {
    if answer: seq<Token>, order: seq<string> :| Accepts(edges, answer, order) {
      CyclesAreNeverAccepted(edges, answer, order);
    }
    if !HasCycle(edges) {
      var order := AcceptedOrder(edges);
      assert Accepts(edges, Written(order), order);
    }
  }
}
