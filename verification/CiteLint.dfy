/**
 Reading the cites of an enforcement map (code_reviewer/cite_lint.py, `parse_cites`).

 The parser walks the lines with a table state: no header yet, or the columns of the
 current table.  The token recogniser (a regular expression in the program) is a
 parameter.
 */
module CiteLint {
  import opened Basics
  import opened Text
  import opened Wrappers

  datatype Cite = Cite(ruleId: string, token: Option<string>, source: string)

  /** The columns of the current table, once its header was seen. */
  datatype Columns = Columns(rule: nat, source: nat)

  /** The text between the outer bars of a table row. */
  function RowBody(line: string): Option<string> {
    var t := Strip(line);
    if |t| >= 3 && t[0] == '|' && t[|t| - 1] == '|' then Some(t[1..|t| - 1]) else None
  }

  function StripAll(parts: seq<string>): seq<string> {
    seq(|parts|, i requires 0 <= i < |parts| => Strip(parts[i]))
  }

  function Cells(body: string): seq<string> { StripAll(Split(body, '|')) }

  function LowerAll(cells: seq<string>): seq<string> {
    seq(|cells|, i requires 0 <= i < |cells| => Lower(cells[i]))
  }

  /** A table counts when it has both a rule column and a source column. */
  function HeaderColumns(cells: seq<string>): Option<Columns> {
    var lowered := LowerAll(cells);
    if "rule_id" in lowered && "source" in lowered then Some(Columns(IndexOf(lowered, "rule_id"), IndexOf(lowered, "source")))
    else None
  }

  predicate IsSeparator(cells: seq<string>) {
    forall i :: 0 <= i < |cells| ==> forall k :: 0 <= k < |cells[i]| ==> cells[i][k] == '-' || cells[i][k] == ':'
  }

  function CiteOf(cells: seq<string>, at: Columns, recognise: string -> Option<string>): Cite
    requires at.rule < |cells| && at.source < |cells|
  {
    Cite(cells[at.rule], recognise(cells[at.rule]), cells[at.source])
  }

  /** One line: the table state after it, and the cite it yields, if any. */
  function Step(state: Option<Columns>, line: string, recognise: string -> Option<string>): (Option<Columns>, seq<Cite>) {
    var body := RowBody(line);
    if body.None? then (None, [])
    else
      var cells := Cells(body.value);
      if state.None? then (HeaderColumns(cells), [])
      else if IsSeparator(cells) || state.value.rule >= |cells| || state.value.source >= |cells| then (state, [])
      else (state, [CiteOf(cells, state.value, recognise)])
  }

  function State(lines: seq<string>, recognise: string -> Option<string>): Option<Columns> {
    if lines == [] then None else Step(State(lines[..|lines| - 1], recognise), lines[|lines| - 1], recognise).0
  }

  function Cites(lines: seq<string>, recognise: string -> Option<string>): seq<Cite> {
    if lines == [] then []
    else Cites(lines[..|lines| - 1], recognise) + Step(State(lines[..|lines| - 1], recognise), lines[|lines| - 1], recognise).1
  }

  method ParseCites(lines: seq<string>, recognise: string -> Option<string>) returns (cites: seq<Cite>)
    ensures cites == Cites(lines, recognise)
  {
    cites := [];
    var header: Option<Columns> := None;
    ghost var seen: seq<string> := [];
    for i := 0 to |lines|
      invariant seen == lines[..i]
      invariant header == State(seen, recognise) && cites == Cites(seen, recognise)
    {
      var line := lines[i];
      assert (seen + [line])[..|seen|] == seen;
      seen := seen + [line];
      var body := RowBody(line);
      if body.None? {
        header := None;
        continue;
      }
      var cells := Cells(body.value);
      if header.None? {
        header := HeaderColumns(cells);
        continue;
      }
      if IsSeparator(cells) {
        continue;
      }
      if header.value.rule >= |cells| || header.value.source >= |cells| {
        continue;
      }
      cites := cites + [CiteOf(cells, header.value, recognise)];
    }
    assert seen == lines;
  }

  /** Lines that are no table rows yield nothing and close the current table. */
  lemma {:induction false} ProseYieldsNothing(lines: seq<string>, recognise: string -> Option<string>)
    requires forall i :: 0 <= i < |lines| ==> RowBody(lines[i]).None?
    ensures State(lines, recognise) == None && Cites(lines, recognise) == []
  {
    if lines != [] {
      ProseYieldsNothing(lines[..|lines| - 1], recognise);
    }
  }

  lemma OneMoreLine(lines: seq<string>, line: string, recognise: string -> Option<string>)
    ensures State(lines + [line], recognise) == Step(State(lines, recognise), line, recognise).0
    ensures Cites(lines + [line], recognise) == Cites(lines, recognise) + Step(State(lines, recognise), line, recognise).1
  {
  }

  lemma ProseCloses(above: seq<string>, prose: string, recognise: string -> Option<string>)
    requires RowBody(prose).None?
    ensures State(above + [prose], recognise) == None && Cites(above + [prose], recognise) == Cites(above, recognise)
  {
    OneMoreLine(above, prose, recognise);
  }

  lemma Regroup(a: seq<Cite>, b: seq<Cite>, c: seq<Cite>)
    ensures (a + b) + c == a + (b + c)
  {
  }

  lemma SameStep(a: seq<string>, b: seq<string>, cites: seq<Cite>, line: string, recognise: string -> Option<string>)
    requires State(a, recognise) == State(b, recognise) && Cites(a, recognise) == cites + Cites(b, recognise)
    ensures State(a + [line], recognise) == State(b + [line], recognise)
    ensures Cites(a + [line], recognise) == cites + Cites(b + [line], recognise)
  {
    OneMoreLine(a, line, recognise);
    OneMoreLine(b, line, recognise);
    Regroup(cites, Cites(b, recognise), Step(State(b, recognise), line, recognise).1);
  }

  /** A line that is no table row separates: what stands after it is read on its own. */
  lemma {:induction false} TablesAreIndependent(above: seq<string>, prose: string, below: seq<string>, recognise: string -> Option<string>)
    requires RowBody(prose).None?
    ensures State(above + [prose] + below, recognise) == State(below, recognise)
    ensures Cites(above + [prose] + below, recognise) == Cites(above, recognise) + Cites(below, recognise)
    decreases |below|
  {
    var first := above + [prose];
    if below == [] {
      assert first + below == first;
      ProseCloses(above, prose, recognise);
    } else {
      var init, last := below[..|below| - 1], below[|below| - 1];
      assert first + below == (first + init) + [last] && init + [last] == below;
      TablesAreIndependent(above, prose, init, recognise);
      SameStep(first + init, init, Cites(above, recognise), last, recognise);
    }
  }
}
