/**
 Persisting routing defaults (meta/optimizer.py, `_ast_rewrite_routing_config`,
 `_eval_routing_config`, `diff_configs`, `write_optimized_config`).

 A source file is its syntax nodes in the order of a breadth-first walk, so the
 statements of a class body keep their order and those of an earlier class come first.
 Writing a file prints the tree and reading it parses the text again: that round trip is
 exact except that a negative number, one literal in the tree, comes back as a minus
 applied to a literal.
 */
module Optimizer {
  import opened Wrappers

  datatype Field = DefaultModel | EscalateAfterFailures | MaxEscalations | BudgetDowngradeThreshold

  datatype Value = Str(text: string) | Int(whole: int) | Float(number: real) | Bool(truth: bool) | NoValue

  datatype Expr = Constant(value: Value) | Negated(operand: Value) | Computed(id: int)

  datatype Target = Known(field: Field) | Unknown(name: string) | NotAName

  /** `owner` is the name of the class whose body directly holds the statement. */
  datatype Node =
    | ClassDef(name: string)
    | AnnAssign(owner: Option<string>, target: Target, value: Option<Expr>)
    | Other(id: int)

  datatype Config = Config(defaultModel: string, escalateAfterFailures: int, maxEscalations: int, budgetDowngradeThreshold: real)

  datatype Diff = Diff(field: Field, before: Value, after: Value)

  datatype Error = SyntaxError | InvalidValue | ClassNotFound | MissingFields(missing: set<Field>)

  datatype Status = Unchanged | DryRun | Written

  const CLASS := "RoutingConfig"
  const FIELDS: seq<Field> := [DefaultModel, EscalateAfterFailures, MaxEscalations, BudgetDowngradeThreshold]
  const FIELD_SET: set<Field> := {DefaultModel, EscalateAfterFailures, MaxEscalations, BudgetDowngradeThreshold}

  function ValueOf(c: Config, f: Field): Value {
    match f
    case DefaultModel => Str(c.defaultModel)
    case EscalateAfterFailures => Int(c.escalateAfterFailures)
    case MaxEscalations => Int(c.maxEscalations)
    case BudgetDowngradeThreshold => Float(c.budgetDowngradeThreshold)
  }

  lemma SameValuesSameConfig(a: Config, b: Config)
    requires forall f :: f in FIELD_SET ==> ValueOf(a, f) == ValueOf(b, f)
    ensures a == b
  {
  }

  // ----- differences between two configurations

  function DiffsOf(fields: seq<Field>, current: Config, proposed: Config): seq<Diff> {
    if fields == [] then []
    else
      var f := fields[|fields| - 1];
      DiffsOf(fields[..|fields| - 1], current, proposed)
      + if ValueOf(current, f) == ValueOf(proposed, f) then [] else [Diff(f, ValueOf(current, f), ValueOf(proposed, f))]
  }

  function Diffs(current: Config, proposed: Config): seq<Diff> { DiffsOf(FIELDS, current, proposed) }

  method DiffConfigs(current: Config, proposed: Config) returns (diffs: seq<Diff>)
    ensures diffs == Diffs(current, proposed)
  {
    diffs := [];
    for i := 0 to |FIELDS|
      invariant diffs == DiffsOf(FIELDS[..i], current, proposed)
    {
      var f := FIELDS[i];
      assert FIELDS[..i + 1][..i] == FIELDS[..i];
      if ValueOf(current, f) != ValueOf(proposed, f) {
        diffs := diffs + [Diff(f, ValueOf(current, f), ValueOf(proposed, f))];
      }
    }
    assert FIELDS[..|FIELDS|] == FIELDS;
  }

  /** Which diffs there are: one for every field that differs, with both its values. */
  lemma {:induction false} DiffsAreTheDifferences(fields: seq<Field>, current: Config, proposed: Config)
    ensures forall d :: d in DiffsOf(fields, current, proposed) <==>
              d.field in fields && d.before == ValueOf(current, d.field) && d.after == ValueOf(proposed, d.field) && d.before != d.after
  {
    if fields != [] {
      DiffsAreTheDifferences(fields[..|fields| - 1], current, proposed);
      assert fields == fields[..|fields| - 1] + [fields[|fields| - 1]];
    }
  }

  lemma NoDiffsIffEqual(current: Config, proposed: Config)
    ensures Diffs(current, proposed) == [] <==> current == proposed
  {
    DiffsAreTheDifferences(FIELDS, current, proposed);
    if Diffs(current, proposed) == [] {
      forall f | f in FIELD_SET
        ensures ValueOf(current, f) == ValueOf(proposed, f)
      {
        assert f in FIELDS;
        assert Diff(f, ValueOf(current, f), ValueOf(proposed, f)) !in Diffs(current, proposed);
      }
      SameValuesSameConfig(current, proposed);
    } else {
      assert Diffs(current, proposed)[0] in Diffs(current, proposed);
    }
  }

  // ----- rewriting the class body

  /** The field a statement of the class body declares. */
  predicate Declares(n: Node, f: Field) {
    n.AnnAssign? && n.owner == Some(CLASS) && n.target == Known(f)
  }

  predicate DeclaresSome(n: Node) {
    n.AnnAssign? && n.owner == Some(CLASS) && n.target.Known?
  }

  ghost predicate Declared(nodes: seq<Node>, f: Field) {
    exists i :: 0 <= i < |nodes| && Declares(nodes[i], f)
  }

  function DeclaredFields(nodes: seq<Node>): set<Field> {
    if nodes == [] then {}
    else
      var last := nodes[|nodes| - 1];
      DeclaredFields(nodes[..|nodes| - 1]) + if DeclaresSome(last) then {last.target.field} else {}
  }

  predicate HasClass(nodes: seq<Node>) { ClassDef(CLASS) in nodes }

  function RewriteNode(n: Node, proposed: Config): Node {
    if DeclaresSome(n) then n.(value := Some(Constant(ValueOf(proposed, n.target.field)))) else n
  }

  function Rewritten(nodes: seq<Node>, proposed: Config): seq<Node> {
    seq(|nodes|, i requires 0 <= i < |nodes| => RewriteNode(nodes[i], proposed))
  }

  function Rewrite(nodes: seq<Node>, proposed: Config): Result<seq<Node>, Error> {
    if !HasClass(nodes) then Err(ClassNotFound)
    else if FIELD_SET - DeclaredFields(nodes) != {} then Err(MissingFields(FIELD_SET - DeclaredFields(nodes)))
    else Ok(Rewritten(nodes, proposed))
  }

  /** Assigns the literals in place, remembering the class and the fields it came across. */
  method AstRewrite(tree: array<Node>, proposed: Config) returns (outcome: Result<seq<Node>, Error>)
    modifies tree
    ensures tree[..] == Rewritten(old(tree[..]), proposed)
    ensures outcome == Rewrite(old(tree[..]), proposed)
  {
    ghost var source := tree[..];
    ghost var read: seq<Node> := [];
    var seen: set<Field> := {};
    var foundClass := false;
    for i := 0 to tree.Length
      invariant read == source[..i]
      invariant foundClass == HasClass(read) && seen == DeclaredFields(read)
      invariant forall k :: 0 <= k < i ==> tree[k] == RewriteNode(source[k], proposed)
      invariant forall k :: i <= k < tree.Length ==> tree[k] == source[k]
    {
      var node := tree[i];
      assert (read + [node])[..|read|] == read;
      read := read + [node];
      if node == ClassDef(CLASS) {
        foundClass := true;
      }
      if DeclaresSome(node) {
        tree[i] := node.(value := Some(Constant(ValueOf(proposed, node.target.field))));
        seen := seen + {node.target.field};
      }
    }
    assert read == source;
    assert tree[..] == Rewritten(source, proposed);
    if !foundClass {
      return Err(ClassNotFound);
    }
    var missing := FIELD_SET - seen;
    if missing != {} {
      return Err(MissingFields(missing));
    }
    return Ok(tree[..]);
  }

  // ----- printing and parsing

  predicate IsNegative(v: Value) { (v.Int? && v.whole < 0) || (v.Float? && v.number < 0.0) }

  function Magnitude(v: Value): Value {
    match v
    case Int(n) => Int(if n < 0 then -n else n)
    case Float(x) => Float(if x < 0.0 then -x else x)
    case _ => v
  }

  function ReparseNode(n: Node): Node {
    if n.AnnAssign? && n.value.Some? && n.value.value.Constant? && IsNegative(n.value.value.value)
    then n.(value := Some(Negated(Magnitude(n.value.value.value))))
    else n
  }

  function Reparse(nodes: seq<Node>): seq<Node> {
    seq(|nodes|, i requires 0 <= i < |nodes| => ReparseNode(nodes[i]))
  }

  /** What a parser can return: literals carry no sign. */
  predicate IsParsed(nodes: seq<Node>) {
    forall i :: 0 <= i < |nodes| ==> ReparseNode(nodes[i]) == nodes[i]
  }

  lemma ReparsedIsParsed(nodes: seq<Node>)
    ensures IsParsed(Reparse(nodes))
  {
  }

  // ----- reading the defaults back

  /** The last literal of every declared field. */
  function Overrides(nodes: seq<Node>): map<Field, Value> {
    if nodes == [] then map[]
    else
      var last := nodes[|nodes| - 1];
      var before := Overrides(nodes[..|nodes| - 1]);
      if DeclaresSome(last) && last.value.Some? && last.value.value.Constant?
      then before[last.target.field := last.value.value.value]
      else before
  }

  function AsText(v: Value): Option<string> { if v.Str? then Some(v.text) else None }

  /** The validator: the class defaults, and how it reads numbers that are given as strings. */
  datatype Schema = Schema(defaults: Config, intOf: string -> Option<int>, realOf: string -> Option<real>)

  function AsInt(v: Value, schema: Schema): Option<int> {
    match v
    case Str(t) => schema.intOf(t)
    case Int(n) => Some(n)
    case Bool(b) => Some(if b then 1 else 0)
    case Float(x) => if x == x.Floor as real then Some(x.Floor) else None
    case _ => None
  }

  function AsFloat(v: Value, schema: Schema): Option<real> {
    match v
    case Str(t) => schema.realOf(t)
    case Float(x) => Some(x)
    case Int(n) => Some(n as real)
    case Bool(b) => Some(if b then 1.0 else 0.0)
    case _ => None
  }

  function OverrideOr(overrides: map<Field, Value>, schema: Schema, f: Field): Value {
    if f in overrides then overrides[f] else ValueOf(schema.defaults, f)
  }

  /** The model's validation: absent fields take the class defaults. */
  function Validate(overrides: map<Field, Value>, schema: Schema): Result<Config, Error> {
    var model := AsText(OverrideOr(overrides, schema, DefaultModel));
    var escalate := AsInt(OverrideOr(overrides, schema, EscalateAfterFailures), schema);
    var max := AsInt(OverrideOr(overrides, schema, MaxEscalations), schema);
    var threshold := AsFloat(OverrideOr(overrides, schema, BudgetDowngradeThreshold), schema);
    if model.None? || escalate.None? || max.None? || threshold.None? then Err(InvalidValue)
    else Ok(Config(model.value, escalate.value, max.value, threshold.value))
  }

  function Read(nodes: seq<Node>, schema: Schema): Result<Config, Error> { Validate(Overrides(nodes), schema) }

  method EvalRoutingConfig(nodes: seq<Node>, schema: Schema) returns (outcome: Result<Config, Error>)
    ensures outcome == Read(nodes, schema)
  {
    var overrides: map<Field, Value> := map[];
    ghost var read: seq<Node> := [];
    for i := 0 to |nodes|
      invariant read == nodes[..i] && overrides == Overrides(read)
    {
      var node := nodes[i];
      assert (read + [node])[..|read|] == read;
      read := read + [node];
      if !DeclaresSome(node) {
        continue;
      }
      if node.value.Some? && node.value.value.Constant? {
        overrides := overrides[node.target.field := node.value.value.value];
      }
    }
    assert read == nodes;
    return if overrides == map[] then Ok(schema.defaults) else Validate(overrides, schema);
  }

  // ----- the round trip

  lemma {:induction false} DeclaredFieldsAreDeclared(nodes: seq<Node>, f: Field)
    ensures f in DeclaredFields(nodes) <==> Declared(nodes, f)
  {
    if nodes != [] {
      var init := nodes[..|nodes| - 1];
      DeclaredFieldsAreDeclared(init, f);
      if Declared(init, f) {
        var i :| 0 <= i < |init| && Declares(init[i], f);
        assert Declares(nodes[i], f);
      }
    }
  }

  /** The rewriter accepts exactly the sources that hold the class and declare every field. */
  lemma RewriteAcceptsIff(nodes: seq<Node>, proposed: Config)
    ensures Rewrite(nodes, proposed).Ok? <==> HasClass(nodes) && forall f :: f in FIELD_SET ==> Declared(nodes, f)
  {
    forall f | f in FIELD_SET
      ensures f in DeclaredFields(nodes) <==> Declared(nodes, f)
    {
      DeclaredFieldsAreDeclared(nodes, f);
    }
    assert FIELD_SET - DeclaredFields(nodes) == {} <==> forall f :: f in FIELD_SET ==> f in DeclaredFields(nodes);
  }

  /** After a rewrite and a round trip through text, the reader finds the proposed value of
      every declared field that is not negative, and nothing for the others. */
  lemma {:induction false} OverridesReadBack(nodes: seq<Node>, proposed: Config, f: Field)
    ensures var overrides := Overrides(Reparse(Rewritten(nodes, proposed)));
            && (f in overrides <==> f in DeclaredFields(nodes) && !IsNegative(ValueOf(proposed, f)))
            && (f in overrides ==> overrides[f] == ValueOf(proposed, f))
  {
    var after := Reparse(Rewritten(nodes, proposed));
    if nodes != [] {
      var init, last := nodes[..|nodes| - 1], nodes[|nodes| - 1];
      OverridesReadBack(init, proposed, f);
      assert after[..|after| - 1] == Reparse(Rewritten(init, proposed));
      assert after[|after| - 1] == ReparseNode(RewriteNode(last, proposed));
    }
  }

  /** What reading the rewritten source gives: negative numbers fall back to the defaults. */
  function ReadBack(proposed: Config, defaults: Config): Config {
    Config(proposed.defaultModel,
           if proposed.escalateAfterFailures < 0 then defaults.escalateAfterFailures else proposed.escalateAfterFailures,
           if proposed.maxEscalations < 0 then defaults.maxEscalations else proposed.maxEscalations,
           if proposed.budgetDowngradeThreshold < 0.0 then defaults.budgetDowngradeThreshold else proposed.budgetDowngradeThreshold)
  }

  predicate NonNegative(c: Config) {
    c.escalateAfterFailures >= 0 && c.maxEscalations >= 0 && c.budgetDowngradeThreshold >= 0.0
  }

  lemma RewriteReadsBack(nodes: seq<Node>, proposed: Config, schema: Schema)
    requires Rewrite(nodes, proposed).Ok?
    ensures Read(Reparse(Rewrite(nodes, proposed).value), schema) == Ok(ReadBack(proposed, schema.defaults))
  {
    OverridesReadBack(nodes, proposed, DefaultModel);
    OverridesReadBack(nodes, proposed, EscalateAfterFailures);
    OverridesReadBack(nodes, proposed, MaxEscalations);
    OverridesReadBack(nodes, proposed, BudgetDowngradeThreshold);
    assert FIELD_SET <= DeclaredFields(nodes);
  }

  /** The round trip is exact exactly for non-negative numbers (the class defaults are). */
  lemma RoundTripIff(nodes: seq<Node>, proposed: Config, schema: Schema)
    requires Rewrite(nodes, proposed).Ok? && NonNegative(schema.defaults)
    ensures Read(Reparse(Rewrite(nodes, proposed).value), schema) == Ok(proposed) <==> NonNegative(proposed)
  {
    RewriteReadsBack(nodes, proposed, schema);
  }

  /** Nothing but the values of the class's own fields changes. */
  lemma OnlyFieldValuesChange(nodes: seq<Node>, proposed: Config, i: nat)
    requires Rewrite(nodes, proposed).Ok? && IsParsed(nodes) && i < |nodes|
    ensures var after := Reparse(Rewrite(nodes, proposed).value);
            && |after| == |nodes|
            && (!DeclaresSome(nodes[i]) ==> after[i] == nodes[i])
            && (DeclaresSome(nodes[i]) ==> after[i].AnnAssign? && nodes[i] == after[i].(value := nodes[i].value))
  {
  }

  // ----- writing the file

  /** `nodes` is what the file's text parses to, if it does. */
  datatype File = File(nodes: Option<seq<Node>>, backup: Option<Option<seq<Node>>>)

  datatype Outcome = Outcome(result: Result<(Status, seq<Diff>), Error>, file: File)

  function CurrentConfig(file: File, current: Option<Config>, schema: Schema): Result<Config, Error> {
    if current.Some? then Ok(current.value)
    else if file.nodes.None? then Err(SyntaxError)
    else Read(file.nodes.value, schema)
  }

  /** The whole operation. The backup is taken before the rewrite, which may still fail. */
  function Write(file: File, proposed: Config, current: Option<Config>, dryRun: bool, schema: Schema): Outcome {
    var before := CurrentConfig(file, current, schema);
    if before.Err? then Outcome(Err(before.error), file)
    else
      var diffs := Diffs(before.value, proposed);
      if diffs == [] then Outcome(Ok((Unchanged, diffs)), file)
      else if dryRun then Outcome(Ok((DryRun, diffs)), file)
      else
        var backed := file.(backup := Some(file.nodes));
        if file.nodes.None? then Outcome(Err(SyntaxError), backed)
        else
          var rewritten := Rewrite(file.nodes.value, proposed);
          if rewritten.Err? then Outcome(Err(rewritten.error), backed)
          else Outcome(Ok((Written, diffs)), backed.(nodes := Some(Reparse(rewritten.value))))
  }

  class ConfigFile {
    var nodes: Option<seq<Node>>
    var backup: Option<Option<seq<Node>>>

    ghost predicate Valid()
      reads this
    {
      nodes.Some? ==> IsParsed(nodes.value)
    }

    ghost function Contents(): File
      reads this
    {
      File(nodes, backup)
    }

    constructor (text: Option<seq<Node>>)
      requires text.Some? ==> IsParsed(text.value)
      ensures Valid() && Contents() == File(text, None)
    {
      nodes, backup := text, None;
    }

    method WriteOptimizedConfig(proposed: Config, current: Option<Config>, dryRun: bool, schema: Schema)
      returns (result: Result<(Status, seq<Diff>), Error>)
      requires Valid()
      modifies this
      ensures Valid()
      ensures Outcome(result, Contents()) == Write(old(Contents()), proposed, current, dryRun, schema)
    {
      var before: Config;
      if current.Some? {
        before := current.value;
      } else {
        if nodes.None? {
          return Err(SyntaxError);
        }
        var live := EvalRoutingConfig(nodes.value, schema);
        if live.Err? {
          return Err(live.error);
        }
        before := live.value;
      }
      var diffs := DiffConfigs(before, proposed);
      if diffs == [] {
        return Ok((Unchanged, diffs));
      }
      if dryRun {
        return Ok((DryRun, diffs));
      }
      backup := Some(nodes);
      if nodes.None? {
        return Err(SyntaxError);
      }
      var source := nodes.value;
      var tree := new Node[|source|](i requires 0 <= i < |source| => source[i]);
      assert tree[..] == source;
      var rewritten := AstRewrite(tree, proposed);
      if rewritten.Err? {
        return Err(rewritten.error);
      }
      ReparsedIsParsed(rewritten.value);
      nodes := Some(Reparse(rewritten.value));
      return Ok((Written, diffs));
    }
  }

  /** Only a completed write changes the file; whatever was backed up is the text before. */
  lemma WriteIsAllOrNothing(file: File, proposed: Config, current: Option<Config>, dryRun: bool, schema: Schema)
    ensures var out := Write(file, proposed, current, dryRun, schema);
            && (out.file.nodes != file.nodes ==> out.result.Ok? && out.result.value.0 == Written)
            && (out.file.backup == file.backup || out.file.backup == Some(file.nodes))
            && (out.file.nodes != file.nodes ==> out.file.backup == Some(file.nodes))
            && (dryRun ==> out.file == file)
  {
  }

  /** Writing again without naming a current configuration: nothing is left to change
      exactly when the numbers are non-negative; otherwise every further write rewrites. */
  lemma SecondWriteIsUnchangedIff(file: File, proposed: Config, current: Option<Config>, dryRun: bool, schema: Schema)
    requires NonNegative(schema.defaults)
    requires Write(file, proposed, current, false, schema).result.Ok?
    requires Write(file, proposed, current, false, schema).result.value.0 == Written
    ensures var first := Write(file, proposed, current, false, schema);
            var second := Write(first.file, proposed, None, dryRun, schema);
            && (second == Outcome(Ok((Unchanged, [])), first.file) <==> NonNegative(proposed))
            && (!NonNegative(proposed) ==> second.result.Ok? && second.result.value.0 == if dryRun then DryRun else Written)
            && second.file.nodes == first.file.nodes
  {
    var nodes := file.nodes.value;
    var once := Reparse(Rewrite(nodes, proposed).value);
    RewriteReadsBack(nodes, proposed, schema);
    NoDiffsIffEqual(ReadBack(proposed, schema.defaults), proposed);
    RewriteTwice(nodes, proposed);
  }

  predicate Accepted(nodes: seq<Node>) { HasClass(nodes) && FIELD_SET <= DeclaredFields(nodes) }

  /** A rewritten source declares what it declared before. */
  lemma RewrittenIsAccepted(nodes: seq<Node>, proposed: Config)
    requires Accepted(nodes)
    ensures Rewrite(nodes, proposed).Ok? && Accepted(Reparse(Rewritten(nodes, proposed)))
  {
    var once := Reparse(Rewritten(nodes, proposed));
    var c :| 0 <= c < |nodes| && nodes[c] == ClassDef(CLASS);
    assert once[c] == ClassDef(CLASS);
    forall f | f in FIELD_SET
      ensures f in DeclaredFields(once)
    {
      DeclaredFieldsAreDeclared(nodes, f);
      DeclaredFieldsAreDeclared(once, f);
      var i :| 0 <= i < |nodes| && Declares(nodes[i], f);
      assert Declares(once[i], f);
    }
    assert FIELD_SET - DeclaredFields(nodes) == {};
  }

  /** Rewriting a rewritten source gives the same source. */
  lemma RewriteTwice(nodes: seq<Node>, proposed: Config)
    requires Rewrite(nodes, proposed).Ok?
    ensures var once := Reparse(Rewrite(nodes, proposed).value);
            Rewrite(once, proposed).Ok? && Reparse(Rewrite(once, proposed).value) == once
  {
    assert Accepted(nodes) by {
      assert forall f :: f in FIELD_SET ==> f !in FIELD_SET - DeclaredFields(nodes);
    }
    RewrittenIsAccepted(nodes, proposed);
    RewrittenIsAccepted(Reparse(Rewritten(nodes, proposed)), proposed);
  }

  /** A run of writes, each compared with what the file holds at that moment. */
  function Writes(file: File, proposals: seq<Config>, schema: Schema): File {
    if proposals == [] then file
    else Write(Writes(file, proposals[..|proposals| - 1], schema), proposals[|proposals| - 1], None, false, schema).file
  }

  lemma ReadBackTwice(c: Config, defaults: Config)
    ensures ReadBack(ReadBack(c, defaults), defaults) == ReadBack(c, defaults)
    ensures NonNegative(c) ==> ReadBack(c, defaults) == c
  {
  }

  lemma WriteReads(file: File, proposed: Config, schema: Schema)
    requires file.nodes.Some? && Accepted(file.nodes.value) && Read(file.nodes.value, schema).Ok?
    ensures var after := Write(file, proposed, None, false, schema).file;
            && after.nodes.Some? && Accepted(after.nodes.value)
            && Read(after.nodes.value, schema)
               == if Read(file.nodes.value, schema).value == proposed then Ok(proposed) else Ok(ReadBack(proposed, schema.defaults))
  {
    var nodes := file.nodes.value;
    NoDiffsIffEqual(Read(nodes, schema).value, proposed);
    RewrittenIsAccepted(nodes, proposed);
    RewriteReadsBack(nodes, proposed, schema);
  }

  /** The last proposal, with the defaults in place of its negative numbers; but as long as the
      proposals are what the file reads as anyway, nothing is written. */
  function LastReading(first: Config, proposals: seq<Config>, defaults: Config): Config {
    if forall i :: 0 <= i < |proposals| ==> proposals[i] == first then first else ReadBack(proposals[|proposals| - 1], defaults)
  }

  lemma LastReadingStep(first: Config, init: seq<Config>, last: Config, defaults: Config)
    ensures var before := LastReading(first, init, defaults);
            LastReading(first, init + [last], defaults) == if before == last then last else ReadBack(last, defaults)
  {
    var all := init + [last];
    assert all[|init|] == last && forall i :: 0 <= i < |init| ==> all[i] == init[i];
    if i :| 0 <= i < |init| && init[i] != first {
      assert all[i] != first;
      ReadBackTwice(init[|init| - 1], defaults);
    }
  }

  /** The last write wins, whatever was proposed before. */
  lemma {:induction false} LastWriteWins(file: File, proposals: seq<Config>, schema: Schema)
    requires file.nodes.Some? && Accepted(file.nodes.value) && Read(file.nodes.value, schema).Ok?
    ensures var after := Writes(file, proposals, schema);
            && after.nodes.Some? && Accepted(after.nodes.value)
            && Read(after.nodes.value, schema) == Ok(LastReading(Read(file.nodes.value, schema).value, proposals, schema.defaults))
            && (proposals != [] && NonNegative(proposals[|proposals| - 1])
                ==> Read(after.nodes.value, schema) == Ok(proposals[|proposals| - 1]))
  {
    if proposals != [] {
      var init, last := proposals[..|proposals| - 1], proposals[|proposals| - 1];
      assert proposals == init + [last];
      LastWriteWins(file, init, schema);
      WriteReads(Writes(file, init, schema), last, schema);
      LastReadingStep(Read(file.nodes.value, schema).value, init, last, schema.defaults);
      ReadBackTwice(last, schema.defaults);
    }
  }
}
