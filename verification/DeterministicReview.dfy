/**
 The deterministic half of a review (meta/code_reviewer.py), in its two forms: the flat one over
 Python files, and the routed one with the frontend tools and the check for a decision record.

 What the validators report is given.  The module models what is made of it: the findings, their
 grouping by dimension, the counts and the verdict.  It shows that both reports are what the
 merge relies on, so that its guarantees hold for every review the program runs.
 */
module DeterministicReview {
  import opened Basics
  import opened ReviewGuarantees
  import opened ReviewMerge
  import opened Sorting
  import opened Text
  import opened Wrappers

  // ----- from violations to findings

  /** `detail` stands for the line, and for the fields the program fills from the others. */
  datatype Violation = Violation(rule: string, file: string, description: string, detail: string)

  function AsFinding(v: Violation, dimension: string, severity: Severity, confidence: real): Finding {
    Finding(v.rule, dimension, severity, v.file, v.description, confidence, v.detail)
  }

  function AsFindings(vs: seq<Violation>, dimension: string, severity: Severity, confidence: real): (fs: seq<Finding>)
    ensures forall f :: f in fs ==> f.dimension == dimension && f.severity == severity && f.confidence == confidence
  {
    if vs == [] then []
    else AsFindings(vs[..|vs| - 1], dimension, severity, confidence) + [AsFinding(vs[|vs| - 1], dimension, severity, confidence)]
  }

  method Convert(vs: seq<Violation>, dimension: string, severity: Severity, confidence: real) returns (fs: seq<Finding>)
    ensures fs == AsFindings(vs, dimension, severity, confidence)
  {
    fs := [];
    for i := 0 to |vs|
      invariant fs == AsFindings(vs[..i], dimension, severity, confidence)
    {
      assert vs[..i + 1][..i] == vs[..i];
      fs := fs + [AsFinding(vs[i], dimension, severity, confidence)];
    }
    assert vs[..|vs|] == vs;
  }

  /** The routed review reports a violation under the path it was routed by. */
  function Relocated(vs: seq<Violation>, file: string): seq<Violation> {
    seq(|vs|, i requires 0 <= i < |vs| => vs[i].(file := file))
  }

  /** What has been gathered over some files. */
  datatype Scan = Scan(findings: seq<Finding>, files: seq<string>, log: seq<string>)

  function Then(a: Scan, b: Scan): Scan { Scan(a.findings + b.findings, a.files + b.files, a.log + b.log) }

  // ----- the flat review

  datatype SourceFile = SourceFile(path: string, present: bool, python: bool, layer: string, folder: string,
                                   dependency: seq<Violation>, purity: seq<Violation>, antiPatterns: seq<Violation>)

  function ImportFindings(file: SourceFile): seq<Finding> {
    AsFindings(file.dependency, "D1", Critical, 1.0) + AsFindings(file.purity, "D4", Critical, 1.0)
    + AsFindings(file.antiPatterns, "D5", Warning, 0.9)
  }

  method CheckImportRules(file: SourceFile) returns (findings: seq<Finding>)
    ensures findings == ImportFindings(file)
  {
    findings := Convert(file.dependency, "D1", Critical, 1.0);
    var impure := Convert(file.purity, "D4", Critical, 1.0);
    findings := findings + impure;
    var patterns := Convert(file.antiPatterns, "D5", Warning, 0.9);
    findings := findings + patterns;
  }

  function FileScan(file: SourceFile): Scan {
    if !file.present then Scan([], [], ["Skipped " + file.path + ": file not found"])
    else if !file.python then Scan([], [], ["Skipped " + file.path + ": not a Python file"])
    else Scan(ImportFindings(file), [file.path], ["Classified " + file.path + " as " + file.layer + " (" + file.folder + "/)"])
  }

  function FlatScan(files: seq<SourceFile>): Scan {
    if files == [] then Scan([], [], []) else Then(FlatScan(files[..|files| - 1]), FileScan(files[|files| - 1]))
  }

  // ----- grouping by dimension

  function FiledUnder(fs: seq<Finding>, id: string): seq<Finding> {
    if fs == [] then []
    else FiledUnder(fs[..|fs| - 1], id) + if fs[|fs| - 1].dimension == id then [fs[|fs| - 1]] else []
  }

  /** The groups hold the findings under their own dimension, and no group is empty. */
  ghost predicate Groups(groups: map<string, seq<Finding>>, fs: seq<Finding>) {
    && (forall id :: id in groups <==> exists f :: f in fs && f.dimension == id)
    && (forall id :: id in groups ==> groups[id] == FiledUnder(fs, id))
  }

  lemma {:induction false} NothingFiled(fs: seq<Finding>, id: string)
    ensures FiledUnder(fs, id) == [] <==> forall f :: f in fs ==> f.dimension != id
  {
    if fs != [] {
      NothingFiled(fs[..|fs| - 1], id);
      assert fs == fs[..|fs| - 1] + [fs[|fs| - 1]];
    }
  }

  lemma GroupsGrow(groups: map<string, seq<Finding>>, fs: seq<Finding>, f: Finding)
    requires Groups(groups, fs)
    ensures var before := if f.dimension in groups then groups[f.dimension] else [];
            Groups(groups[f.dimension := before + [f]], fs + [f])
  {
    var all := fs + [f];
    assert all[..|all| - 1] == fs;
    NothingFiled(fs, f.dimension);
    assert forall g :: g in all <==> g in fs || g == f;
  }

  method GroupByDimension(fs: seq<Finding>) returns (groups: map<string, seq<Finding>>)
    ensures Groups(groups, fs)
  {
    groups := map[];
    for i := 0 to |fs|
      invariant Groups(groups, fs[..i])
    {
      var f := fs[i];
      GroupsGrow(groups, fs[..i], f);
      assert fs[..i] + [f] == fs[..i + 1];
      if f.dimension !in groups {
        groups := groups[f.dimension := []];
      }
      groups := groups[f.dimension := groups[f.dimension] + [f]];
    }
    assert fs[..|fs|] == fs;
  }

  /** How a dimension is rated before any merge: unlike after one, a note counts as partial. */
  function Rated(fs: seq<Finding>): Status {
    if exists f :: f in fs && f.severity.Critical? then Fail else if fs != [] then Partial else Pass
  }

  lemma MissingGroupIsEmpty(groups: map<string, seq<Finding>>, fs: seq<Finding>, id: string)
    requires Groups(groups, fs)
    ensures (if id in groups then groups[id] else []) == FiledUnder(fs, id)
  {
    NothingFiled(fs, id);
  }

  function Count(severity: Severity, fs: seq<Finding>): nat {
    if fs == [] then 0 else Count(severity, fs[..|fs| - 1]) + if fs[|fs| - 1].severity == severity then 1 else 0
  }

  method CountSeverity(severity: Severity, fs: seq<Finding>) returns (n: nat)
    ensures n == Count(severity, fs)
  {
    n := 0;
    for i := 0 to |fs|
      invariant n == Count(severity, fs[..i])
    {
      assert fs[..i + 1][..i] == fs[..i];
      if fs[i].severity == severity {
        n := n + 1;
      }
    }
    assert fs[..|fs|] == fs;
  }

  function ConfidenceIn(fs: seq<Finding>): real { if fs == [] then 1.0 else 0.9 }

  function ToSet(xs: seq<string>): set<string> { set x | x in xs }

  // ----- the flat report

  const FLAT_DIMENSIONS := [("D1", "Architectural Compliance"), ("D4", "Trust Framework Integrity"),
                            ("D5", "Code Quality and Anti-Patterns")]
  const FLAT_GAPS := {"D2 (Style Guide) not evaluated — deterministic mode",
                      "D3 (Test Quality) not evaluated — deterministic mode"}

  /** The count of killed hypotheses can be negative here. */
  function FlatDimension(heading: (string, string), fs: seq<Finding>, reviewed: nat): Dimension {
    var filed := FiledUnder(fs, heading.0);
    Dimension(heading.0, heading.1, Rated(filed), reviewed, |filed|, reviewed - |filed|, filed)
  }

  function FlatDimensions(fs: seq<Finding>, reviewed: nat): seq<Dimension> {
    seq(3, i requires 0 <= i < 3 => FlatDimension(FLAT_DIMENSIONS[i], fs, reviewed))
  }

  function FlatVerdict(criticals: nat, warnings: nat): Verdict {
    if criticals > 0 then Reject else if warnings > 2 then RequestChanges else Approve
  }

  function FlatStatement(criticals: nat, warnings: nat): Statement {
    match FlatVerdict(criticals, warnings)
    case Approve => ChecksPass
    case Reject => CriticalViolations(criticals)
    case RequestChanges => WarningsDetected(warnings)
  }

  function FlatReview(files: seq<SourceFile>): Report {
    var scan := FlatScan(files);
    var (criticals, warnings) := (Count(Critical, scan.findings), Count(Warning, scan.findings));
    Report(FlatVerdict(criticals, warnings), FlatStatement(criticals, warnings), ConfidenceIn(scan.findings),
           FlatDimensions(scan.findings, |scan.files|), FLAT_GAPS, scan.log, ToSet(scan.files))
  }

  method RunDeterministicReview(files: seq<SourceFile>) returns (r: Report)
    ensures r == FlatReview(files)
  {
    var all, reviewed, log := [], [], [];
    for i := 0 to |files|
      invariant Scan(all, reviewed, log) == FlatScan(files[..i])
    {
      assert files[..i + 1][..i] == files[..i];
      var file := files[i];
      if !file.present {
        log := log + ["Skipped " + file.path + ": file not found"];
      } else if !file.python {
        log := log + ["Skipped " + file.path + ": not a Python file"];
      } else {
        reviewed := reviewed + [file.path];
        log := log + ["Classified " + file.path + " as " + file.layer + " (" + file.folder + "/)"];
        var findings := CheckImportRules(file);
        all := all + findings;
      }
    }
    assert files[..|files|] == files;
    var dimensions := AggregateFlat(all, |reviewed|);
    var criticals := CountSeverity(Critical, all);
    var warnings := CountSeverity(Warning, all);
    var verdict := if criticals > 0 then Reject else if warnings > 2 then RequestChanges else Approve;
    var statement := if verdict.Approve? then ChecksPass
                     else if verdict.Reject? then CriticalViolations(criticals) else WarningsDetected(warnings);
    return Report(verdict, statement, ConfidenceIn(all), dimensions, FLAT_GAPS, log, ToSet(reviewed));
  }

  method AggregateFlat(all: seq<Finding>, reviewed: nat) returns (dimensions: seq<Dimension>)
    ensures dimensions == FlatDimensions(all, reviewed)
  {
    var groups := GroupByDimension(all);
    dimensions := [];
    for i := 0 to 3
      invariant dimensions == FlatDimensions(all, reviewed)[..i]
    {
      var (id, name) := FLAT_DIMENSIONS[i];
      MissingGroupIsEmpty(groups, all, id);
      var findings := if id in groups then groups[id] else [];
      var status := if exists f :: f in findings && f.severity.Critical? then Fail else if findings != [] then Partial else Pass;
      var d := Dimension(id, name, status, reviewed, |findings|, reviewed - |findings|, findings);
      assert d == FlatDimension(FLAT_DIMENSIONS[i], all, reviewed) == FlatDimensions(all, reviewed)[i];
      dimensions := dimensions + [d];
    }
  }

  // ----- the routed review

  datatype TestScan = NoTest | Unreadable(reason: string) | Scanned(mocks: seq<Violation>, failurePaths: seq<Violation>)

  datatype ToolResult = Failed(error: string) | NotRun(reason: string) | Ran(exitCode: string, findings: seq<Finding>)

  datatype ToolRun = ToolRun(tool: string, result: ToolResult)

  datatype Language =
    | Backend(dependency: seq<Violation>, purity: seq<Violation>, antiPatterns: seq<Violation>, tests: TestScan)
    | Frontend(tools: seq<ToolRun>)
    | Other(name: string)

  datatype Entry = Entry(path: string, present: bool, language: Language)

  datatype Group = Group(rulesFile: string, entries: seq<Entry>)

  function BackendFindings(path: string, l: Language): seq<Finding>
    requires l.Backend?
  {
    AsFindings(Relocated(l.dependency, path), "D1", Critical, 1.0) + AsFindings(Relocated(l.purity, path), "D4", Critical, 1.0)
    + AsFindings(Relocated(l.antiPatterns, path), "D5", Warning, 1.0)
  }

  function TestFindings(path: string, tests: TestScan): seq<Finding> {
    if tests.Scanned? then
      AsFindings(Relocated(tests.mocks, path), "D3", Warning, 1.0)
      + AsFindings(Relocated(tests.failurePaths, path), "D3", Warning, 1.0)
    else []
  }

  function TestLog(path: string, tests: TestScan): seq<string> {
    if tests.Unreadable? then ["Skipped TAP scan for " + path + ": " + tests.reason] else []
  }

  function ToolLine(path: string, run: ToolRun): string {
    run.tool + "(" + path + ") -> " + match run.result
                                      case Failed(error) => "error: " + error
                                      case NotRun(reason) => "skipped: " + reason
                                      case Ran(code, findings) => "exit_code=" + code + ", " + Decimal(|findings|) + " finding(s)"
  }

  function ToolScan(path: string, runs: seq<ToolRun>): Scan {
    if runs == [] then Scan([], [], [])
    else
      var run := runs[|runs| - 1];
      Then(ToolScan(path, runs[..|runs| - 1]),
           Scan(if run.result.Ran? then run.result.findings else [], [], [ToolLine(path, run)]))
  }

  function EntryScan(entry: Entry): Scan {
    if !entry.present then Scan([], [], ["Skipped " + entry.path + ": file not found"])
    else
      Then(Scan([], [entry.path], []),
           match entry.language
           case Backend(_, _, _, tests) =>
             Scan(BackendFindings(entry.path, entry.language) + TestFindings(entry.path, tests), [], TestLog(entry.path, tests))
           case Frontend(tools) => ToolScan(entry.path, tools)
           case Other(name) => Scan([], [], ["No deterministic check for " + entry.path + " (language=" + name + ")"]))
  }

  function EntriesScan(entries: seq<Entry>): Scan {
    if entries == [] then Scan([], [], []) else Then(EntriesScan(entries[..|entries| - 1]), EntryScan(entries[|entries| - 1]))
  }

  function GroupScan(group: Group): Scan {
    Then(Scan([], [], ["Routed group " + group.rulesFile + ": " + Decimal(|group.entries|) + " file(s)"]),
         EntriesScan(group.entries))
  }

  function GroupsScan(groups: seq<Group>): Scan {
    if groups == [] then Scan([], [], []) else Then(GroupsScan(groups[..|groups| - 1]), GroupScan(groups[|groups| - 1]))
  }

  function RoutedFindings(groups: seq<Group>, decisions: seq<Violation>): seq<Finding> {
    GroupsScan(groups).findings + AsFindings(Relocated(decisions, "<diff>"), "D2", Warning, 1.0)
  }

  method ScanTools(path: string, runs: seq<ToolRun>) returns (s: Scan)
    ensures s == ToolScan(path, runs)
  {
    var findings, log := [], [];
    for i := 0 to |runs|
      invariant Scan(findings, [], log) == ToolScan(path, runs[..i])
    {
      assert runs[..i + 1][..i] == runs[..i];
      var run := runs[i];
      if run.result.Ran? {
        findings := findings + run.result.findings;
      }
      log := log + [ToolLine(path, run)];
    }
    assert runs[..|runs|] == runs;
    return Scan(findings, [], log);
  }

  method ScanBackend(path: string, l: Language) returns (s: Scan)
    requires l.Backend?
    ensures s == Scan(BackendFindings(path, l) + TestFindings(path, l.tests), [], TestLog(path, l.tests))
  {
    var findings := Convert(Relocated(l.dependency, path), "D1", Critical, 1.0);
    var more := Convert(Relocated(l.purity, path), "D4", Critical, 1.0);
    findings := findings + more;
    more := Convert(Relocated(l.antiPatterns, path), "D5", Warning, 1.0);
    findings := findings + more;
    var log := [];
    match l.tests {
      case NoTest =>
      case Unreadable(reason) =>
        log := ["Skipped TAP scan for " + path + ": " + reason];
      case Scanned(mocks, failurePaths) =>
        more := Convert(Relocated(mocks, path), "D3", Warning, 1.0);
        var ratios := Convert(Relocated(failurePaths, path), "D3", Warning, 1.0);
        findings := findings + (more + ratios);
    }
    return Scan(findings, [], log);
  }

  method ScanEntry(entry: Entry) returns (s: Scan)
    ensures s == EntryScan(entry)
  {
    if !entry.present {
      return Scan([], [], ["Skipped " + entry.path + ": file not found"]);
    }
    s := Scan([], [entry.path], []);
    var more;
    match entry.language {
      case Backend(_, _, _, _) =>
        more := ScanBackend(entry.path, entry.language);
      case Frontend(tools) =>
        more := ScanTools(entry.path, tools);
      case Other(name) =>
        more := Scan([], [], ["No deterministic check for " + entry.path + " (language=" + name + ")"]);
    }
    s := Then(s, more);
  }

  method ScanGroups(groups: seq<Group>) returns (s: Scan)
    ensures s == GroupsScan(groups)
  {
    s := Scan([], [], []);
    for i := 0 to |groups|
      invariant s == GroupsScan(groups[..i])
    {
      assert groups[..i + 1][..i] == groups[..i];
      var group := groups[i];
      var inner := Scan([], [], ["Routed group " + group.rulesFile + ": " + Decimal(|group.entries|) + " file(s)"]);
      ghost var head := inner;
      for k := 0 to |group.entries|
        invariant inner == Then(head, EntriesScan(group.entries[..k]))
      {
        assert group.entries[..k + 1][..k] == group.entries[..k];
        var more := ScanEntry(group.entries[k]);
        ThenAssociates(head, EntriesScan(group.entries[..k]), more);
        inner := Then(inner, more);
      }
      assert group.entries[..|group.entries|] == group.entries;
      s := Then(s, inner);
    }
    assert groups[..|groups|] == groups;
  }

  lemma ThenAssociates(a: Scan, b: Scan, c: Scan)
    ensures Then(a, Then(b, c)) == Then(Then(a, b), c)
  {
  }

  // ----- the routed report

  /** The dimensions the findings name, sorted, each once. */
  function SortedIds(fs: seq<Finding>): seq<string> {
    if fs == [] then []
    else
      var (rest, id) := (SortedIds(fs[..|fs| - 1]), fs[|fs| - 1].dimension);
      if id in rest then rest else Insert(rest, id)
  }

  lemma {:induction false} SortedIdsAscend(fs: seq<Finding>)
    ensures Ascending(SortedIds(fs)) && forall id :: id in SortedIds(fs) <==> exists f :: f in fs && f.dimension == id
  {
    if fs != [] {
      var init, last := fs[..|fs| - 1], fs[|fs| - 1];
      SortedIdsAscend(init);
      if last.dimension !in SortedIds(init) {
        InsertKeepsOrder(SortedIds(init), last.dimension);
        InsertMembers(SortedIds(init), last.dimension);
      }
      assert fs == init + [last];
    }
  }

  const LABELS := map[
    "D1" := "Architectural Compliance", "D2" := "Style Guide Adherence", "D3" := "Test Quality",
    "D4" := "Trust Framework Integrity", "D5" := "Code Quality and Anti-Patterns",
    "FD1" := "Layering & Dependency Direction", "FD2" := "Pattern Adherence", "FD3" := "Security & Sandboxing",
    "FD4" := "Accessibility (WCAG 2.2 AA)", "FD5" := "Performance & Streaming", "FD6" := "Tests & Architecture Tests",
    "FD7" := "Anti-Patterns"]

  function RoutedDimension(id: string, fs: seq<Finding>, reviewed: nat): Dimension {
    var filed := FiledUnder(fs, id);
    Dimension(id, if id in LABELS then LABELS[id] else id, Rated(filed), reviewed, |filed|, Max(0, reviewed - |filed|), filed)
  }

  function RoutedDimensions(ids: seq<string>, fs: seq<Finding>, reviewed: nat): seq<Dimension> {
    seq(|ids|, i requires 0 <= i < |ids| => RoutedDimension(ids[i], fs, reviewed))
  }

  function RoutedGaps(ids: seq<string>): set<string> {
    (if "D2" in ids then {} else {"D2 (Style Guide / ADR.1) — no Ask-first trigger in this diff."})
    + set id | id in {"D2", "D3", "D5"} && id !in ids :: id + " not evaluated — deterministic mode."
  }

  function RoutedReview(groups: seq<Group>, decisions: seq<Violation>): Report {
    var (scan, fs) := (GroupsScan(groups), RoutedFindings(groups, decisions));
    var (verdict, statement, _) := Policy(fs);
    Report(verdict, statement, ConfidenceIn(fs), RoutedDimensions(SortedIds(fs), fs, |scan.files|), RoutedGaps(SortedIds(fs)),
           scan.log, ToSet(scan.files))
  }

  method RunRoutedReview(groups: seq<Group>, decisions: seq<Violation>) returns (r: Report)
    ensures r == RoutedReview(groups, decisions)
  {
    var scan := ScanGroups(groups);
    var late := Convert(Relocated(decisions, "<diff>"), "D2", Warning, 1.0);
    var all := scan.findings + late;
    var dimensions := AggregateRouted(all, |scan.files|);
    var (verdict, statement, _) := Policy(all);
    var gaps := RoutedGaps(SortedIds(all));
    return Report(verdict, statement, ConfidenceIn(all), dimensions, gaps, scan.log, ToSet(scan.files));
  }

  lemma SortedKeysAreIds(groups: map<string, seq<Finding>>, all: seq<Finding>, ids: seq<string>)
    requires Groups(groups, all) && Ascending(ids) && forall id :: id in ids <==> id in groups
    ensures ids == SortedIds(all) && forall i :: 0 <= i < |ids| ==> ids[i] in groups
  {
    SortedIdsAscend(all);
    AscendingIsUnique(ids, SortedIds(all));
  }

  method AggregateRouted(all: seq<Finding>, reviewed: nat) returns (dimensions: seq<Dimension>)
    ensures dimensions == RoutedDimensions(SortedIds(all), all, reviewed)
  {
    var groups := GroupByDimension(all);
    var ids := Sorted(groups.Keys);
    SortedKeysAreIds(groups, all, ids);
    dimensions := [];
    for i := 0 to |ids|
      invariant dimensions == RoutedDimensions(ids, all, reviewed)[..i]
    {
      var findings := groups[ids[i]];
      var status := if exists f :: f in findings && f.severity.Critical? then Fail else if findings != [] then Partial else Pass;
      var name := if ids[i] in LABELS then LABELS[ids[i]] else ids[i];
      var d := Dimension(ids[i], name, status, reviewed, |findings|, Max(0, reviewed - |findings|), findings);
      assert d == RoutedDimension(ids[i], all, reviewed) == RoutedDimensions(ids, all, reviewed)[i];
      dimensions := dimensions + [d];
    }
  }

  // ----- what both reports are

  /** The dimensions hold the findings, each under its own dimension, and no dimension twice. */
  predicate Aggregates(ds: seq<Dimension>, fs: seq<Finding>) {
    && DistinctIds(ds)
    && (forall d :: d in ds ==> d.findings == FiledUnder(fs, d.id))
    && (forall f :: f in fs ==> exists d :: d in ds && d.id == f.dimension)
  }

  /** The findings whose dimension is among `ids`. */
  function Among(fs: seq<Finding>, ids: set<string>): seq<Finding> {
    if fs == [] then [] else Among(fs[..|fs| - 1], ids) + if fs[|fs| - 1].dimension in ids then [fs[|fs| - 1]] else []
  }

  lemma {:induction false} AmongOneMore(fs: seq<Finding>, ids: set<string>, id: string)
    requires id !in ids
    ensures multiset(Among(fs, ids + {id})) == multiset(Among(fs, ids)) + multiset(FiledUnder(fs, id))
  {
    if fs != [] {
      AmongOneMore(fs[..|fs| - 1], ids, id);
    }
  }

  lemma {:induction false} AmongAll(fs: seq<Finding>, ids: set<string>)
    ensures (forall f :: f in fs ==> f.dimension in ids) ==> Among(fs, ids) == fs
    ensures ids == {} ==> Among(fs, ids) == []
  {
    if fs != [] {
      AmongAll(fs[..|fs| - 1], ids);
      assert fs == fs[..|fs| - 1] + [fs[|fs| - 1]];
    }
  }

  function IdsOf(ds: seq<Dimension>): set<string> { set d | d in ds :: d.id }

  lemma MoreIds(init: seq<Dimension>, last: Dimension)
    requires DistinctIds(init + [last])
    ensures DistinctIds(init) && last.id !in IdsOf(init) && IdsOf(init + [last]) == IdsOf(init) + {last.id}
  {
    var ds := init + [last];
    assert (forall k :: 0 <= k < |init| ==> ds[k] == init[k]) && ds[|init|] == last;
    assert forall d :: d in ds <==> d in init || d == last;
  }

  lemma {:induction false} DimensionsHold(ds: seq<Dimension>, fs: seq<Finding>)
    requires DistinctIds(ds) && forall d :: d in ds ==> d.findings == FiledUnder(fs, d.id)
    ensures multiset(AllFindings(ds)) == multiset(Among(fs, IdsOf(ds)))
  {
    if ds == [] {
      AmongAll(fs, {});
      assert IdsOf(ds) == {};
    } else {
      var init, last := ds[..|ds| - 1], ds[|ds| - 1];
      assert ds == init + [last];
      MoreIds(init, last);
      DimensionsHold(init, fs);
      AmongOneMore(fs, IdsOf(init), last.id);
    }
  }

  /** Grouping by dimension loses no finding and repeats none. */
  lemma AggregationKeepsFindings(ds: seq<Dimension>, fs: seq<Finding>)
    requires Aggregates(ds, fs)
    ensures multiset(AllFindings(ds)) == multiset(fs)
  {
    DimensionsHold(ds, fs);
    AmongAll(fs, IdsOf(ds));
  }

  lemma RankDecides(u: Verdict, v: Verdict)
    requires Rank(u) <= Rank(v) && Rank(v) <= Rank(u)
    ensures u == v
  {
  }

  /** So the policy says the same of the grouped findings as of the findings as they came. */
  lemma PolicyIgnoresGrouping(ds: seq<Dimension>, fs: seq<Finding>)
    requires Aggregates(ds, fs)
    ensures Policy(AllFindings(ds)).0 == Policy(fs).0
  {
    AggregationKeepsFindings(ds, fs);
    PolicyMonotone(AllFindings(ds), fs);
    PolicyMonotone(fs, AllFindings(ds));
    RankDecides(Policy(AllFindings(ds)).0, Policy(fs).0);
  }

  lemma AscendingIsDistinct(ids: seq<string>)
    requires Ascending(ids)
    ensures forall i, j :: 0 <= i < j < |ids| ==> ids[i] != ids[j]
  {
    forall i, j | 0 <= i < j < |ids|
      ensures ids[i] != ids[j]
    {
      LessIsTotal(ids[i], ids[i]);
    }
  }

  lemma RoutedAggregates(fs: seq<Finding>, reviewed: nat)
    ensures Aggregates(RoutedDimensions(SortedIds(fs), fs, reviewed), fs)
  {
    var ids := SortedIds(fs);
    var ds := RoutedDimensions(ids, fs, reviewed);
    SortedIdsAscend(fs);
    AscendingIsDistinct(ids);
    forall f | f in fs
      ensures exists d :: d in ds && d.id == f.dimension
    {
      assert f.dimension in ids;
      var i :| 0 <= i < |ids| && ids[i] == f.dimension;
      assert ds[i].id == f.dimension;
    }
  }

  /** What the import checks can report. */
  predicate IsImportFinding(f: Finding) {
    if f.dimension in TRUSTED then f.severity.Critical?
    else f.dimension == "D5" && f.severity.Warning? && f.confidence == 0.9
  }

  lemma {:induction false} FlatFindings(files: seq<SourceFile>)
    ensures forall f :: f in FlatScan(files).findings ==> IsImportFinding(f)
  {
    if files != [] {
      FlatFindings(files[..|files| - 1]);
      assert "D5" !in TRUSTED && "D1" in TRUSTED && "D4" in TRUSTED;
    }
  }

  lemma FlatAggregates(fs: seq<Finding>, reviewed: nat)
    requires forall f :: f in fs ==> IsImportFinding(f)
    ensures Aggregates(FlatDimensions(fs, reviewed), fs)
  {
    var ds := FlatDimensions(fs, reviewed);
    assert ds[0].id == "D1" && ds[1].id == "D4" && ds[2].id == "D5";
    forall f | f in fs
      ensures exists d :: d in ds && d.id == f.dimension
    {
      assert ds[if f.dimension == "D1" then 0 else if f.dimension == "D4" then 1 else 2].id == f.dimension;
    }
  }

  lemma {:induction false} ImportTallies(fs: seq<Finding>)
    requires forall f :: f in fs ==> IsImportFinding(f)
    ensures Tally(Rejecting, fs) == Tally(Serious, fs) == Count(Critical, fs)
    ensures Tally(StrongWarning, fs) == Count(Warning, fs)
  {
    if fs != [] {
      var init, last := fs[..|fs| - 1], fs[|fs| - 1];
      assert last in fs;
      ImportTallies(init);
    }
  }

  /** The flat review decides by its own two counts; on what it can find, that is the policy. */
  lemma FlatVerdictIsPolicy(fs: seq<Finding>)
    requires forall f :: f in fs ==> IsImportFinding(f)
    ensures FlatVerdict(Count(Critical, fs), Count(Warning, fs)) == Policy(fs).0
  {
    ImportTallies(fs);
    PolicyCounts(fs);
  }

  /** A report of the deterministic half, in either form. */
  ghost predicate IsDeterministic(r: Report) {
    || (exists files :: r == FlatReview(files))
    || (exists groups, decisions :: r == RoutedReview(groups, decisions))
  }

  /** What the merge relies on, of every deterministic report: no dimension is reported twice, every
      finding is filed under its own dimension, and the verdict is the policy's. */
  lemma DeterministicReports(r: Report)
    requires IsDeterministic(r)
    ensures DistinctIds(r.dimensions)
    ensures forall d, f :: d in r.dimensions && f in d.findings ==> f.dimension == d.id
    ensures r.verdict == Policy(AllFindings(r.dimensions)).0
  {
    ghost var fs: seq<Finding>;
    if files :| r == FlatReview(files) {
      fs := FlatScan(files).findings;
      FlatFindings(files);
      FlatAggregates(fs, |FlatScan(files).files|);
      FlatVerdictIsPolicy(fs);
    } else {
      var groups, decisions :| r == RoutedReview(groups, decisions);
      fs := RoutedFindings(groups, decisions);
      RoutedAggregates(fs, |GroupsScan(groups).files|);
    }
    PolicyIgnoresGrouping(r.dimensions, fs);
    forall d | d in r.dimensions
      ensures forall f :: f in d.findings ==> f.dimension == d.id
    {
      FiledIsFiled(fs, d.id);
    }
  }

  lemma {:induction false} FiledIsFiled(fs: seq<Finding>, id: string)
    ensures forall f :: f in FiledUnder(fs, id) <==> f in fs && f.dimension == id
  {
    if fs != [] {
      FiledIsFiled(fs[..|fs| - 1], id);
      assert fs == fs[..|fs| - 1] + [fs[|fs| - 1]];
    }
  }

  // ----- the whole review

  /** The review: the deterministic report alone when there is no LLM or it raises, else the merge. */
  function Reviewed(det: Report, llm: Option<Report>): Report {
    match llm
    case None => det
    case Some(report) => Merge(det, report)
  }

  /** No LLM can soften a review, or put a critical into D1 or D4 or take one out. */
  lemma ReviewsKeepTheDeterministicHalf(det: Report, llm: Option<Report>)
    requires IsDeterministic(det)
    ensures Rank(det.verdict) <= Rank(Reviewed(det, llm).verdict)
    ensures TrustedCriticals(Reviewed(det, llm).dimensions) == TrustedCriticals(det.dimensions)
  {
    DeterministicReports(det);
    if llm.Some? {
      MergedVerdictIsNeverSofter(det, llm.value);
      DistinctIsCovered(det.dimensions);
      TrustedHalfControlsCriticals(det, llm.value);
    }
  }

  /** Exactly when a review rejects: its deterministic half does, the LLM failed as infrastructure,
      or a rejecting finding of the LLM enters outside D1 and D4. */
  lemma ReviewRejectsIff(det: Report, llm: Option<Report>)
    requires IsDeterministic(det)
    ensures Reviewed(det, llm).verdict.Reject?
            <==> || det.verdict.Reject?
                 || (llm.Some? && (InfraFailed(llm.value) || exists d, f :: Enters(det.dimensions, llm.value.dimensions, d, f)))
  {
    DeterministicReports(det);
    if llm.Some? && !InfraFailed(llm.value) {
      LlmRejectsIff(det, llm.value);
    }
  }

  /** An LLM that files its findings where they belong and fakes no auto-reject rule neither causes
      nor prevents the rejection of a review. */
  lemma WellFiledReviewRejectsIff(det: Report, llm: Report)
    requires IsDeterministic(det) && WellFiled(llm.dimensions) && !InfraFailed(llm)
    ensures Reviewed(det, Some(llm)).verdict.Reject? <==> det.verdict.Reject?
  {
    DeterministicReports(det);
    WellFiledLlmCannotReject(det, llm);
  }
}
