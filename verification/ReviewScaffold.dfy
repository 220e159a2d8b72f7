/**
 Scaffolding an enforcement map, and its drift (code_reviewer/review_scaffold.py).

 A scaffold is a list of lines; `CiteLint` reads it back.  An `AGENTS.md` is given as
 its headings and, for every other line, the rule tokens recognised in it.
 */
module ReviewScaffold {
  import opened Basics
  import opened CiteLint
  import opened Text
  import opened Wrappers

  datatype RuleToken = RuleToken(token: string, source: string, context: string)

  datatype SourceLine = Heading(title: string) | Prose(tokens: seq<string>)

  // ----- discovery

  /** The heading in force after the lines. */
  function HeadingAfter(lines: seq<SourceLine>): string {
    if lines == [] then ""
    else if lines[|lines| - 1].Heading? then lines[|lines| - 1].title
    else HeadingAfter(lines[..|lines| - 1])
  }

  /** Every token occurrence outside headings, in order, with the nearest heading above it. */
  function Occurrences(lines: seq<SourceLine>, source: string): seq<RuleToken> {
    if lines == [] then []
    else
      var last := lines[|lines| - 1];
      Occurrences(lines[..|lines| - 1], source)
      + if last.Heading? then [] else Tagged(last.tokens, source, HeadingAfter(lines))
  }

  function Tagged(tokens: seq<string>, source: string, context: string): seq<RuleToken> {
    seq(|tokens|, i requires 0 <= i < |tokens| => RuleToken(tokens[i], source, context))
  }

  function TokenSet(ts: seq<RuleToken>): set<string> {
    if ts == [] then {} else TokenSet(ts[..|ts| - 1]) + {ts[|ts| - 1].token}
  }

  /** Keeps the first occurrence of every token. */
  function Firsts(ts: seq<RuleToken>): seq<RuleToken> {
    if ts == [] then []
    else
      var init, last := ts[..|ts| - 1], ts[|ts| - 1];
      Firsts(init) + if last.token in TokenSet(init) then [] else [last]
  }

  predicate Distinct(ts: seq<RuleToken>) {
    forall i, j :: 0 <= i < j < |ts| ==> ts[i].token != ts[j].token
  }

  lemma {:induction false} FirstsAreDistinct(ts: seq<RuleToken>)
    ensures TokenSet(Firsts(ts)) == TokenSet(ts)
    ensures Distinct(Firsts(ts))
    ensures forall i :: 0 <= i < |Firsts(ts)| ==> Firsts(ts)[i].token in TokenSet(ts)
  {
    if ts != [] {
      var init, last, fs := ts[..|ts| - 1], ts[|ts| - 1], Firsts(ts);
      FirstsAreDistinct(init);
      if last.token in TokenSet(init) {
        assert fs == Firsts(init);
      } else {
        assert fs[..|fs| - 1] == Firsts(init);
      }
    }
  }

  lemma {:induction false} TokenSetHolds(ts: seq<RuleToken>, token: string)
    ensures token in TokenSet(ts) <==> exists i :: 0 <= i < |ts| && ts[i].token == token
  {
    if ts != [] {
      TokenSetHolds(ts[..|ts| - 1], token);
    }
  }

  /** A list without repeated tokens keeps all of them. */
  lemma {:induction false} DistinctAreAllFirsts(ts: seq<RuleToken>)
    requires Distinct(ts)
    ensures Firsts(ts) == ts
  {
    if ts != [] {
      var init := ts[..|ts| - 1];
      DistinctAreAllFirsts(init);
      TokenSetHolds(init, ts[|ts| - 1].token);
    }
  }

  lemma OneMoreOccurrence(ts: seq<RuleToken>, t: RuleToken)
    ensures Firsts(ts + [t]) == if t.token in TokenSet(ts) then Firsts(ts) else Firsts(ts) + [t]
    ensures TokenSet(ts + [t]) == TokenSet(ts) + {t.token}
  {
  }

  lemma OneMoreSourceLine(lines: seq<SourceLine>, line: SourceLine, source: string)
    ensures HeadingAfter(lines + [line]) == if line.Heading? then line.title else HeadingAfter(lines)
    ensures Occurrences(lines + [line], source)
         == Occurrences(lines, source) + if line.Heading? then [] else Tagged(line.tokens, source, HeadingAfter(lines))
  {
  }

  /** Scans the lines once; a heading line contributes no tokens. */
  method DiscoverRuleTokens(lines: seq<SourceLine>, source: string) returns (found: seq<RuleToken>)
    ensures found == Firsts(Occurrences(lines, source))
  {
    found := [];
    var seen: set<string> := {};
    var heading := "";
    ghost var read: seq<SourceLine> := [];
    for i := 0 to |lines|
      invariant read == lines[..i]
      invariant heading == HeadingAfter(read)
      invariant found == Firsts(Occurrences(read, source)) && seen == TokenSet(Occurrences(read, source))
    {
      var line := lines[i];
      OneMoreSourceLine(read, line, source);
      if line.Heading? {
        assert Occurrences(read, source) + [] == Occurrences(read, source);
        heading := line.title;
      } else {
        found, seen := DiscoverInLine(line.tokens, source, heading, found, seen, Occurrences(read, source));
      }
      read := read + [line];
    }
    assert read == lines;
  }

  lemma OneMoreTagged(before: seq<RuleToken>, tokens: seq<string>, token: string, source: string, context: string)
    ensures var (ts, t) := (before + Tagged(tokens, source, context), RuleToken(token, source, context));
            && Firsts(before + Tagged(tokens + [token], source, context)) == Firsts(ts) + (if token in TokenSet(ts) then [] else [t])
            && TokenSet(before + Tagged(tokens + [token], source, context)) == TokenSet(ts) + {token}
  {
    var ts, t := before + Tagged(tokens, source, context), RuleToken(token, source, context);
    assert before + Tagged(tokens + [token], source, context) == ts + [t];
    OneMoreOccurrence(ts, t);
  }

  method DiscoverInLine(tokens: seq<string>, source: string, heading: string, found: seq<RuleToken>, seen: set<string>,
                        ghost before: seq<RuleToken>) returns (found': seq<RuleToken>, seen': set<string>)
    requires found == Firsts(before) && seen == TokenSet(before)
    ensures var after := before + Tagged(tokens, source, heading);
            found' == Firsts(after) && seen' == TokenSet(after)
  {
    found', seen' := found, seen;
    ghost var read: seq<string> := [];
    assert before + Tagged(read, source, heading) == before;
    for k := 0 to |tokens|
      invariant read == tokens[..k]
      invariant found' == Firsts(before + Tagged(read, source, heading))
      invariant seen' == TokenSet(before + Tagged(read, source, heading))
    {
      var token := tokens[k];
      OneMoreTagged(before, read, token, source, heading);
      read := read + [token];
      if token in seen' {
        assert seen' + {token} == seen';
        continue;
      }
      seen' := seen' + {token};
      found' := found' + [RuleToken(token, source, heading)];
    }
    assert read == tokens;
  }

  // ----- the scaffold

  const CURATED := " detection | severity | reviewer dimension "
  const HEADER := "| rule_id | source |" + CURATED + "|"
  const SEPARATOR := "|---|---|---|---|---|"
  const PLACEHOLDERS := " | LLM | warning | \U{2014} "

  function SourceColumn(t: RuleToken): string {
    if t.context == "" then t.source else t.source + " \U{00A7}" + t.context
  }

  function Row(t: RuleToken): string {
    "| " + t.token + " | " + SourceColumn(t) + PLACEHOLDERS + "|"
  }

  function Rows(ts: seq<RuleToken>): seq<string> {
    if ts == [] then [] else Rows(ts[..|ts| - 1]) + [Row(ts[|ts| - 1])]
  }

  /** The title and the quoted note above the table; the wording of the note is left open. */
  function Preamble(folder: string, notes: seq<string>): seq<string> {
    ["# " + folder + "/ \U{2014} Reviewer Enforcement Map", ""] + seq(|notes|, i requires 0 <= i < |notes| => ">" + notes[i]) + [""]
  }

  function Scaffold(folder: string, notes: seq<string>, ts: seq<RuleToken>): seq<string> {
    Preamble(folder, notes) + [HEADER, SEPARATOR] + Rows(ts)
  }

  lemma OneMoreInvariant(own: seq<RuleToken>, invariants: seq<RuleToken>, i: nat)
    requires i < |invariants|
    ensures var (read, t) := (own + invariants[..i], invariants[i]);
            && Firsts(own + invariants[..i + 1]) == (if t.token in TokenSet(read) then Firsts(read) else Firsts(read) + [t])
            && TokenSet(own + invariants[..i + 1]) == TokenSet(read) + {t.token}
  {
    assert own + invariants[..i + 1] == own + invariants[..i] + [invariants[i]];
    OneMoreOccurrence(own + invariants[..i], invariants[i]);
  }

  lemma {:induction false} FirstsExtend(a: seq<RuleToken>, b: seq<RuleToken>)
    ensures Firsts(a) <= Firsts(a + b)
  {
    if b == [] {
      assert a + b == a;
    } else {
      var init, last := b[..|b| - 1], b[|b| - 1];
      FirstsExtend(a, init);
      assert a + b == a + init + [last];
      OneMoreOccurrence(a + init, last);
    }
  }

  /** The tokens to scaffold: the folder's own, then the root invariants not among them. */
  method ScaffoldTokens(own: seq<RuleToken>, invariants: seq<RuleToken>) returns (ts: seq<RuleToken>)
    requires Distinct(own)
    ensures ts == Firsts(own + invariants) && own <= ts
  {
    ts := own;
    var seen := TokenSet(own);
    DistinctAreAllFirsts(own);
    assert own + invariants[..0] == own;
    for i := 0 to |invariants|
      invariant ts == Firsts(own + invariants[..i]) && seen == TokenSet(own + invariants[..i])
    {
      var t := invariants[i];
      OneMoreInvariant(own, invariants, i);
      if t.token !in seen {
        ts := ts + [t];
        seen := seen + {t.token};
      } else {
        assert seen + {t.token} == seen;
      }
    }
    assert invariants[..|invariants|] == invariants;
    FirstsExtend(own, invariants);
  }

  /** The tokens of the folder's rules that no cite and no root invariant covers. */
  function Drift(available: seq<RuleToken>, covered: set<string>): seq<RuleToken> {
    if available == [] then []
    else
      var last := available[|available| - 1];
      Drift(available[..|available| - 1], covered) + if last.token in covered then [] else [last]
  }

  function CitedTokens(cites: seq<Cite>): set<string> {
    if cites == [] then {}
    else
      var last := cites[|cites| - 1];
      CitedTokens(cites[..|cites| - 1]) + if last.token.Some? then {last.token.value} else {}
  }

  method ReviewMdDrift(available: seq<RuleToken>, review: seq<string>, invariants: seq<RuleToken>,
                       recognise: string -> Option<string>) returns (drift: seq<RuleToken>)
    ensures drift == Drift(available, CitedTokens(Cites(review, recognise)) + TokenSet(invariants))
  {
    if available == [] {
      return [];
    }
    var cites := ParseCites(review, recognise);
    var cited: set<string> := {};
    ghost var read: seq<Cite> := [];
    for i := 0 to |cites|
      invariant read == cites[..i] && cited == CitedTokens(read)
    {
      assert (read + [cites[i]])[..|read|] == read;
      if cites[i].token.Some? {
        cited := cited + {cites[i].token.value};
      }
      read := read + [cites[i]];
    }
    assert read == cites;
    return Drift(available, cited + TokenSet(invariants));
  }

  // ----- reading the scaffold back

  /** What the recogniser promises of the tokens it found: a bare token is one cell, and is
      recognised as itself. */
  ghost predicate IsToken(token: string, recognise: string -> Option<string>) {
    && IsStripped(token) && '|' !in token && recognise(token) == Some(token)
    && exists k :: 0 <= k < |token| && token[k] != '-' && token[k] != ':'
  }

  lemma BodyOfRow(inner: string)
    requires inner != ""
    ensures RowBody("|" + inner + "|") == Some(inner)
  {
  }

  /** A scaffolded row has the token in its first cell, whatever bars the context contains. */
  lemma RowCells(t: RuleToken)
    requires IsStripped(t.token) && '|' !in t.token
    ensures RowBody(Row(t)).Some?
    ensures var cells := Cells(RowBody(Row(t)).value);
            |cells| >= 2 && cells[0] == t.token
  {
    var first, rest := " " + t.token + " ", " " + SourceColumn(t) + PLACEHOLDERS;
    var inner := first + ['|'] + rest;
    assert Row(t) == "|" + inner + "|";
    BodyOfRow(inner);
    SplitHead(first, rest, '|');
    StripPadded(t.token);
    assert Split(inner, '|') == [first] + Split(rest, '|');
  }

  /** The first two cells of a row that starts with two padded, bar-free cells. */
  lemma TwoCells(first: string, second: string, tail: string)
    requires IsStripped(first) && '|' !in first && IsStripped(second) && '|' !in second
    ensures var body := " " + first + " " + ['|'] + (" " + second + " " + ['|'] + tail);
            |Cells(body)| >= 3 && Cells(body)[0] == first && Cells(body)[1] == second
  {
    SplitHead(" " + first + " ", " " + second + " " + ['|'] + tail, '|');
    SplitHead(" " + second + " ", tail, '|');
    StripPadded(first);
    StripPadded(second);
  }

  lemma ColumnsOfHeader(cells: seq<string>)
    requires |cells| >= 2 && cells[0] == "rule_id" && cells[1] == "source"
    ensures HeaderColumns(cells) == Some(Columns(0, 1))
  {
    var lowered := LowerAll(cells);
    assert Lower("rule_id") == "rule_id" && Lower("source") == "source";
    assert lowered[0] == "rule_id" && lowered[1] == "source";
    assert |"rule_id"| == 7 && |"source"| == 6;
    assert lowered[1..][0] == "source";
    assert IndexOf(lowered[1..], "source") == 0;
  }

  lemma HeaderIsFound(tail: string)
    ensures var line := "| rule_id | source |" + tail + "|";
            RowBody(line).Some? && HeaderColumns(Cells(RowBody(line).value)) == Some(Columns(0, 1))
  {
    var body := " " + "rule_id" + " " + ['|'] + (" " + "source" + " " + ['|'] + tail);
    assert "| rule_id | source |" == "|" + " " + "rule_id" + " " + ['|'] + " " + "source" + " " + ['|'];
    assert "| rule_id | source |" + tail + "|" == "|" + body + "|";
    BodyOfRow(body);
    TwoCells("rule_id", "source", tail);
    ColumnsOfHeader(Cells(body));
  }

  lemma DashesSeparate(body: string)
    requires forall c :: c in body ==> c == '-' || c == '|'
    ensures IsSeparator(Cells(body))
  {
    SplitChars(body, '|');
    var parts, cells := Split(body, '|'), Cells(body);
    forall i, k | 0 <= i < |cells| && 0 <= k < |cells[i]|
      ensures cells[i][k] == '-'
    {
      StripChars(parts[i]);
      assert cells[i][k] in parts[i];
    }
  }

  lemma SeparatorIsSkipped()
    ensures RowBody(SEPARATOR).Some? && IsSeparator(Cells(RowBody(SEPARATOR).value))
  {
    var body := "---|---|---|---|---";
    assert SEPARATOR == "|" + body + "|";
    BodyOfRow(body);
    DashesSeparate(body);
  }

  lemma PreambleIsProse(folder: string, notes: seq<string>)
    ensures forall i :: 0 <= i < |Preamble(folder, notes)| ==> RowBody(Preamble(folder, notes)[i]).None?
  {
    var lines := Preamble(folder, notes);
    forall i | 0 <= i < |lines|
      ensures RowBody(lines[i]).None?
    {
      if lines[i] != "" {
        assert lines[i][0] == '#' || lines[i][0] == '>';
        assert LStrip(lines[i]) == lines[i];
        FirstStays(lines[i]);
      }
    }
  }

  lemma {:induction false} FirstStays(s: string)
    requires s != "" && !IsSpace(s[0])
    ensures RStrip(s) != "" && RStrip(s)[0] == s[0]
  {
    if IsSpace(s[|s| - 1]) {
      FirstStays(s[..|s| - 1]);
    }
  }

  /** A header and a separator after prose open the table. */
  lemma TableStart(p: seq<string>, header: string, separator: string, recognise: string -> Option<string>)
    requires forall i :: 0 <= i < |p| ==> RowBody(p[i]).None?
    requires Step(None, header, recognise) == (Some(Columns(0, 1)), [])
    requires Step(Some(Columns(0, 1)), separator, recognise) == (Some(Columns(0, 1)), [])
    ensures State(p + [header, separator], recognise) == Some(Columns(0, 1))
    ensures Cites(p + [header, separator], recognise) == []
  {
    var titled := p + [header];
    assert titled + [separator] == p + [header, separator];
    ProseYieldsNothing(p, recognise);
    OneMoreLine(p, header, recognise);
    OneMoreLine(titled, separator, recognise);
  }

  lemma HeaderStep(recognise: string -> Option<string>)
    ensures Step(None, HEADER, recognise) == (Some(Columns(0, 1)), [])
    ensures Step(Some(Columns(0, 1)), SEPARATOR, recognise) == (Some(Columns(0, 1)), [])
  {
    HeaderIsFound(CURATED);
    SeparatorIsSkipped();
  }

  /** Within the table, a scaffolded row yields the cite of its token. */
  lemma RowStep(t: RuleToken, recognise: string -> Option<string>)
    requires IsToken(t.token, recognise)
    ensures var (state, cites) := Step(Some(Columns(0, 1)), Row(t), recognise);
            && state == Some(Columns(0, 1))
            && |cites| == 1 && cites[0].ruleId == t.token && cites[0].token == Some(t.token)
  {
    RowCells(t);
    var cells := Cells(RowBody(Row(t)).value);
    assert !IsSeparator(cells) by {
      var k :| 0 <= k < |t.token| && t.token[k] != '-' && t.token[k] != ':';
      assert cells[0][k] == t.token[k];
    }
  }

  ghost predicate AreTokens(ts: seq<RuleToken>, recognise: string -> Option<string>) {
    forall i :: 0 <= i < |ts| ==> IsToken(ts[i].token, recognise)
  }

  ghost predicate AreCitesOf(cites: seq<Cite>, ts: seq<RuleToken>) {
    && |cites| == |ts|
    && forall i :: 0 <= i < |ts| ==> cites[i].ruleId == ts[i].token && cites[i].token == Some(ts[i].token)
  }

  lemma OneMoreRow(before: seq<string>, row: string, ts: seq<RuleToken>, t: RuleToken, recognise: string -> Option<string>)
    requires State(before, recognise) == Some(Columns(0, 1)) && AreCitesOf(Cites(before, recognise), ts)
    requires var (state, cites) := Step(Some(Columns(0, 1)), row, recognise);
             && state == Some(Columns(0, 1))
             && |cites| == 1 && cites[0].ruleId == t.token && cites[0].token == Some(t.token)
    ensures State(before + [row], recognise) == Some(Columns(0, 1))
    ensures AreCitesOf(Cites(before + [row], recognise), ts + [t])
  {
    OneMoreLine(before, row, recognise);
  }

  /** Rows after the head of a table give one cite each. */
  lemma {:induction false} RowsReadBack(top: seq<string>, ts: seq<RuleToken>, recognise: string -> Option<string>)
    requires State(top, recognise) == Some(Columns(0, 1)) && Cites(top, recognise) == []
    requires AreTokens(ts, recognise)
    ensures State(top + Rows(ts), recognise) == Some(Columns(0, 1))
    ensures AreCitesOf(Cites(top + Rows(ts), recognise), ts)
  {
    if ts == [] {
      assert top + Rows(ts) == top;
    } else {
      var init, t := ts[..|ts| - 1], ts[|ts| - 1];
      assert init + [t] == ts;
      var before, row := top + Rows(init), Row(t);
      assert top + Rows(ts) == before + [row];
      RowsReadBack(top, init, recognise);
      RowStep(t, recognise);
      OneMoreRow(before, row, init, t, recognise);
    }
  }

  /** Parsing a scaffolded map gives one cite per token: the same tokens, in the same order,
      whatever the headings they were found under. */
  lemma ScaffoldReadsBack(folder: string, notes: seq<string>, ts: seq<RuleToken>, recognise: string -> Option<string>)
    requires AreTokens(ts, recognise)
    ensures AreCitesOf(Cites(Scaffold(folder, notes, ts), recognise), ts)
  {
    PreambleIsProse(folder, notes);
    HeaderStep(recognise);
    TableStart(Preamble(folder, notes), HEADER, SEPARATOR, recognise);
    RowsReadBack(Preamble(folder, notes) + [HEADER, SEPARATOR], ts, recognise);
  }

  lemma {:induction false} CitesCover(cites: seq<Cite>, ts: seq<RuleToken>)
    requires AreCitesOf(cites, ts)
    ensures CitedTokens(cites) == TokenSet(ts)
  {
    if ts != [] {
      CitesCover(cites[..|cites| - 1], ts[..|ts| - 1]);
    }
  }

  /** The drift is exactly the uncovered tokens. */
  lemma {:induction false} DriftIsTheUncovered(available: seq<RuleToken>, covered: set<string>)
    ensures forall t :: t in Drift(available, covered) <==> t in available && t.token !in covered
    ensures Drift(available, covered) == [] <==> TokenSet(available) <= covered
  {
    if available != [] {
      var init, last := available[..|available| - 1], available[|available| - 1];
      DriftIsTheUncovered(init, covered);
      assert forall t :: t in available <==> t in init || t == last;
    }
  }

  lemma {:induction false} TokensOfConcat(a: seq<RuleToken>, b: seq<RuleToken>)
    ensures TokenSet(a + b) == TokenSet(a) + TokenSet(b)
  {
    if b == [] {
      assert a + b == a;
    } else {
      assert (a + b)[..|a + b| - 1] == a + b[..|b| - 1];
      TokensOfConcat(a, b[..|b| - 1]);
    }
  }

  /** Once a folder is scaffolded, its drift is exactly the rules that `AGENTS.md` gained
      since; right after scaffolding it is empty. */
  lemma DriftAfterScaffold(folder: string, notes: seq<string>, own: seq<RuleToken>, invariants: seq<RuleToken>,
                           now: seq<RuleToken>, recognise: string -> Option<string>)
    requires AreTokens(Firsts(own + invariants), recognise)
    ensures var review := Scaffold(folder, notes, Firsts(own + invariants));
            var drift := Drift(now, CitedTokens(Cites(review, recognise)) + TokenSet(invariants));
            && (forall t :: t in drift <==> t in now && t.token !in TokenSet(own) + TokenSet(invariants))
            && (now == own ==> drift == [])
  {
    var ts := Firsts(own + invariants);
    var cites := Cites(Scaffold(folder, notes, ts), recognise);
    ScaffoldReadsBack(folder, notes, ts, recognise);
    CitesCover(cites, ts);
    FirstsAreDistinct(own + invariants);
    TokensOfConcat(own, invariants);
    assert CitedTokens(cites) + TokenSet(invariants) == TokenSet(own) + TokenSet(invariants);
    DriftIsTheUncovered(now, TokenSet(own) + TokenSet(invariants));
  }
}
