/**
 Merging a trusted (deterministic) and an untrusted (LLM) review, and the verdict
 policy over the merged findings (meta/code_reviewer.py).

 `Policy`, `Reconcile` and `Merge` say what the program computes; the methods build
 the same lists with the program's loops.  `ReviewGuarantees` says who controls the verdict.
 */
module ReviewMerge {
  import opened Text
  import opened Wrappers

  datatype Severity = Critical | Warning | Info

  datatype Verdict = Approve | RequestChanges | Reject

  datatype Status = Pass | Fail | Partial | Skipped

  /** `detail` stands for the fields the merge only copies: line, fix suggestion, certificate. */
  datatype Finding = Finding(ruleId: string, dimension: string, severity: Severity, file: string, description: string,
                             confidence: real, detail: string)

  datatype Dimension = Dimension(id: string, name: string, status: Status, tested: int, confirmed: int, killed: int,
                                 findings: seq<Finding>)

  datatype Statement =
    | Given(text: string)
    | ChecksPass
    | CriticalViolations(count: nat)
    | WarningsDetected(count: nat)
    | RejectCriticals(count: nat, dimensions: set<string>)
    | OtherCriticals(count: nat)
    | WarningQuorum(count: nat)
    | SubQuorum(warnings: nat, notes: nat)
    | Clean

  datatype Report = Report(verdict: Verdict, statement: Statement, confidence: real, dimensions: seq<Dimension>,
                           gaps: set<string>, log: seq<string>, files: set<string>)

  const CONFIDENCE_FLOOR := 0.7
  const QUORUM: nat := 3
  const TRUSTED := {"D1", "D4"}
  const AUTO_REJECT := {"FE-AP-4", "FE-AP-6", "FE-AP-7", "FE-AP-12", "FE-AP-18", "FE-AP-19"}
  const DOWNGRADED := " [Downgraded: not corroborated by deterministic checks.]"
  const UNCORROBORATED := "LLM critical downgraded to warning due to missing deterministic corroboration: "
  const INFRA_FAILURE := "LLM review failed"

  // ----- the verdict policy

  predicate IsCosmetic(f: Finding) { f.severity.Warning? && f.confidence < CONFIDENCE_FLOOR }

  function DemotionNote(confidence: real): string {
    " (demoted to note: confidence " + TwoPlaces(confidence) + " < 0.7)"
  }

  function DemoteOne(f: Finding): Finding {
    if IsCosmetic(f) then f.(severity := Info, description := f.description + DemotionNote(f.confidence)) else f
  }

  function Demote(fs: seq<Finding>): seq<Finding> {
    if fs == [] then [] else Demote(fs[..|fs| - 1]) + [DemoteOne(fs[|fs| - 1])]
  }

  method DemoteCosmeticWarnings(findings: seq<Finding>) returns (demoted: seq<Finding>)
    ensures demoted == Demote(findings)
  {
    demoted := [];
    for i := 0 to |findings|
      invariant demoted == Demote(findings[..i])
    {
      assert findings[..i + 1][..i] == findings[..i];
      var f := findings[i];
      if f.severity.Warning? && f.confidence < CONFIDENCE_FLOOR {
        demoted := demoted + [f.(severity := Info, description := f.description + DemotionNote(f.confidence))];
      } else {
        demoted := demoted + [f];
      }
    }
    assert findings[..|findings|] == findings;
  }

  /** The finding kinds the policy counts. */
  datatype Kind = Rejecting | Serious | StrongWarning | Note

  predicate Is(kind: Kind, f: Finding) {
    match kind
    case Rejecting => f.severity.Critical? && (f.dimension in TRUSTED || f.ruleId in AUTO_REJECT)
    case Serious => f.severity.Critical?
    case StrongWarning => f.severity.Warning? && f.confidence >= CONFIDENCE_FLOOR
    case Note => f.severity.Info?
  }

  function Select(kind: Kind, fs: seq<Finding>): seq<Finding> {
    if fs == [] then [] else Select(kind, fs[..|fs| - 1]) + if Is(kind, fs[|fs| - 1]) then [fs[|fs| - 1]] else []
  }

  function Except(fs: seq<Finding>, gs: seq<Finding>): seq<Finding> {
    if fs == [] then [] else Except(fs[..|fs| - 1], gs) + if fs[|fs| - 1] in gs then [] else [fs[|fs| - 1]]
  }

  function Policy(findings: seq<Finding>): (Verdict, Statement, seq<Finding>) {
    var demoted := Demote(findings);
    var rejecting := Select(Rejecting, demoted);
    var others := Except(Select(Serious, demoted), rejecting);
    var warnings := Select(StrongWarning, demoted);
    if rejecting != [] then (Reject, RejectCriticals(|rejecting|, set f | f in rejecting :: f.dimension), demoted)
    else if others != [] then (RequestChanges, OtherCriticals(|others|), demoted)
    else if |warnings| >= QUORUM then (RequestChanges, WarningQuorum(|warnings|), demoted)
    else if warnings != [] then (Approve, SubQuorum(|warnings|, |Select(Note, demoted)|), demoted)
    else (Approve, Clean, demoted)
  }

  /** How many findings of a kind there are, before any demotion. */
  function Tally(kind: Kind, fs: seq<Finding>): nat {
    if fs == [] then 0 else Tally(kind, fs[..|fs| - 1]) + if Is(kind, fs[|fs| - 1]) then 1 else 0
  }

  lemma {:induction false} SelectAfterDemotion(kind: Kind, fs: seq<Finding>)
    requires kind != Note
    ensures Select(kind, Demote(fs)) == Select(kind, fs) && |Select(kind, fs)| == Tally(kind, fs)
  {
    if fs != [] {
      var init := fs[..|fs| - 1];
      SelectAfterDemotion(kind, init);
      assert Demote(fs)[..|Demote(fs)| - 1] == Demote(init);
    }
  }

  lemma {:induction false} ExceptNothing(fs: seq<Finding>)
    ensures Except(fs, []) == fs
  {
    if fs != [] {
      ExceptNothing(fs[..|fs| - 1]);
    }
  }

  function VerdictOf(rejecting: nat, serious: nat, warnings: nat): Verdict {
    if rejecting > 0 then Reject else if serious > 0 || warnings >= QUORUM then RequestChanges else Approve
  }

  /** The verdict depends on three counts of the findings as given; demotion changes none of them. */
  lemma PolicyCounts(fs: seq<Finding>)
    ensures Policy(fs).0 == VerdictOf(Tally(Rejecting, fs), Tally(Serious, fs), Tally(StrongWarning, fs))
  {
    SelectAfterDemotion(Rejecting, fs);
    SelectAfterDemotion(Serious, fs);
    SelectAfterDemotion(StrongWarning, fs);
    if Tally(Rejecting, fs) == 0 {
      ExceptNothing(Select(Serious, Demote(fs)));
    }
  }

  lemma {:induction false} DemoteTwice(fs: seq<Finding>)
    ensures Demote(Demote(fs)) == Demote(fs) && |Demote(fs)| == |fs|
    ensures forall kind :: kind != Note ==> Tally(kind, Demote(fs)) == Tally(kind, fs)
  {
    if fs != [] {
      DemoteTwice(fs[..|fs| - 1]);
      assert Demote(fs)[..|Demote(fs)| - 1] == Demote(fs[..|fs| - 1]);
    }
  }

  /** A second demotion changes neither the findings nor the verdict. */
  lemma PolicyIgnoresSecondDemotion(fs: seq<Finding>)
    ensures Policy(Demote(fs)).0 == Policy(fs).0 && Policy(Demote(fs)).2 == Policy(fs).2
  {
    DemoteTwice(fs);
    PolicyCounts(fs);
    PolicyCounts(Demote(fs));
  }

  function Rank(v: Verdict): nat { match v case Approve => 0 case RequestChanges => 1 case Reject => 2 }

  lemma {:induction false} TallyConcat(kind: Kind, fs: seq<Finding>, gs: seq<Finding>)
    ensures Tally(kind, fs + gs) == Tally(kind, fs) + Tally(kind, gs)
    decreases |gs|
  {
    if gs == [] {
      assert fs + gs == fs;
    } else {
      assert (fs + gs)[..|fs + gs| - 1] == fs + gs[..|gs| - 1];
      TallyConcat(kind, fs, gs[..|gs| - 1]);
    }
  }

  lemma TallyRemove(kind: Kind, fs: seq<Finding>, i: nat)
    requires i < |fs|
    ensures Tally(kind, fs) == Tally(kind, fs[..i] + fs[i + 1..]) + if Is(kind, fs[i]) then 1 else 0
  {
    var one := [fs[i]];
    assert fs == fs[..i] + (one + fs[i + 1..]);
    TallyConcat(kind, fs[..i], one + fs[i + 1..]);
    TallyConcat(kind, one, fs[i + 1..]);
    TallyConcat(kind, fs[..i], fs[i + 1..]);
    assert one[..0] == [];
  }

  lemma MultisetRemove(fs: seq<Finding>, i: nat)
    requires i < |fs|
    ensures multiset(fs[..i] + fs[i + 1..]) == multiset(fs) - multiset{fs[i]}
  {
    assert fs == fs[..i] + [fs[i]] + fs[i + 1..];
  }

  lemma {:induction false} TallyMonotone(kind: Kind, fs: seq<Finding>, gs: seq<Finding>)
    requires multiset(fs) <= multiset(gs)
    ensures Tally(kind, fs) <= Tally(kind, gs)
    decreases |fs|
  {
    if fs != [] {
      var last := fs[|fs| - 1];
      assert last in multiset(fs) && last in gs;
      var i :| 0 <= i < |gs| && gs[i] == last;
      MultisetRemove(fs, |fs| - 1);
      MultisetRemove(gs, i);
      assert fs[..|fs| - 1] + fs[|fs|..] == fs[..|fs| - 1];
      TallyMonotone(kind, fs[..|fs| - 1], gs[..i] + gs[i + 1..]);
      TallyRemove(kind, gs, i);
    }
  }

  lemma TalliesDecide(fs: seq<Finding>, gs: seq<Finding>)
    requires Tally(Rejecting, fs) <= Tally(Rejecting, gs) && Tally(Serious, fs) <= Tally(Serious, gs)
    requires Tally(StrongWarning, fs) <= Tally(StrongWarning, gs)
    ensures Rank(Policy(fs).0) <= Rank(Policy(gs).0)
  {
    PolicyCounts(fs);
    PolicyCounts(gs);
  }

  /** More findings never soften the verdict, and their order does not matter. */
  lemma PolicyMonotone(fs: seq<Finding>, gs: seq<Finding>)
    requires multiset(fs) <= multiset(gs)
    ensures Rank(Policy(fs).0) <= Rank(Policy(gs).0)
  {
    TallyMonotone(Rejecting, fs, gs);
    TallyMonotone(Serious, fs, gs);
    TallyMonotone(StrongWarning, fs, gs);
    TalliesDecide(fs, gs);
  }

  // ----- reconciling one dimension

  predicate SameViolation(f: Finding, g: Finding) { f.ruleId == g.ruleId && f.file == g.file }

  predicate Corroborated(f: Finding, trusted: seq<Finding>) {
    exists g :: g in trusted && g.severity.Critical? && SameViolation(f, g)
  }

  function ReconcileOne(f: Finding, trusted: seq<Finding>): Finding {
    if f.severity.Critical? && !Corroborated(f, trusted) then f.(severity := Warning, description := f.description + DOWNGRADED)
    else f
  }

  function ReconcileAll(fs: seq<Finding>, trusted: seq<Finding>): seq<Finding> {
    if fs == [] then [] else ReconcileAll(fs[..|fs| - 1], trusted) + [ReconcileOne(fs[|fs| - 1], trusted)]
  }

  function GapText(f: Finding): string { UNCORROBORATED + f.ruleId + " in " + f.file }

  function GapsOf(fs: seq<Finding>, trusted: seq<Finding>): seq<string> {
    if fs == [] then []
    else
      var f := fs[|fs| - 1];
      GapsOf(fs[..|fs| - 1], trusted) + if f.severity.Critical? && !Corroborated(f, trusted) then [GapText(f)] else []
  }

  /** Only the trusted dimensions are reconciled. */
  function Reconcile(fs: seq<Finding>, trusted: seq<Finding>, dimension: string): seq<Finding> {
    if dimension in TRUSTED then ReconcileAll(fs, trusted) else fs
  }

  function ReconcileGaps(fs: seq<Finding>, trusted: seq<Finding>, dimension: string): seq<string> {
    if dimension in TRUSTED then GapsOf(fs, trusted) else []
  }

  /** The list of gaps the program threads through the merge. */
  class GapList {
    var entries: seq<string>

    constructor ()
      ensures entries == []
    {
      entries := [];
    }

    method Append(gap: string)
      modifies this
      ensures entries == old(entries) + [gap]
    {
      entries := entries + [gap];
    }
  }

  method ReconcileLlmFindings(llmFindings: seq<Finding>, deterministic: seq<Finding>, dimension: string, gaps: GapList)
    returns (reconciled: seq<Finding>)
    modifies gaps
    ensures reconciled == Reconcile(llmFindings, deterministic, dimension)
    ensures gaps.entries == old(gaps.entries) + ReconcileGaps(llmFindings, deterministic, dimension)
  {
    if dimension !in TRUSTED {
      return llmFindings;
    }
    var criticalKeys := set g | g in deterministic && g.severity.Critical? :: (g.ruleId, g.file);
    reconciled := [];
    for i := 0 to |llmFindings|
      invariant reconciled == ReconcileAll(llmFindings[..i], deterministic)
      invariant gaps.entries == old(gaps.entries) + GapsOf(llmFindings[..i], deterministic)
    {
      var f := llmFindings[i];
      assert llmFindings[..i + 1][..i] == llmFindings[..i];
      assert (f.ruleId, f.file) in criticalKeys <==> Corroborated(f, deterministic);
      if f.severity.Critical? && (f.ruleId, f.file) !in criticalKeys {
        gaps.Append(GapText(f));
        reconciled := reconciled + [f.(severity := Warning, description := f.description + DOWNGRADED)];
      } else {
        reconciled := reconciled + [f];
      }
    }
    assert llmFindings[..|llmFindings|] == llmFindings;
  }

  // ----- merging the reports

  /** Keyed lookups keep the last entry of a repeated id. */
  function LastWithId(dims: seq<Dimension>, id: string): Option<Dimension> {
    if dims == [] then None
    else if dims[|dims| - 1].id == id then Some(dims[|dims| - 1])
    else LastWithId(dims[..|dims| - 1], id)
  }

  function FindingsOf(dims: seq<Dimension>, id: string): seq<Finding> {
    var d := LastWithId(dims, id);
    if d.Some? then d.value.findings else []
  }

  /** What the LLM adds: reconciled findings that repeat no (rule, file) already reported. */
  function Extra(reconciled: seq<Finding>, known: seq<Finding>): seq<Finding> {
    if reconciled == [] then []
    else
      var f := reconciled[|reconciled| - 1];
      Extra(reconciled[..|reconciled| - 1], known) + if exists g :: g in known && SameViolation(f, g) then [] else [f]
  }

  function Host(d: Dimension, det: seq<Dimension>, llm: seq<Dimension>): Dimension {
    var guest := LastWithId(llm, d.id);
    if guest.None? then d
    else
      var extra := Extra(Reconcile(guest.value.findings, FindingsOf(det, d.id), d.id), d.findings);
      if extra == [] then d
      else d.(tested := d.tested + guest.value.tested, confirmed := d.confirmed + |extra|, findings := d.findings + extra)
  }

  function Hosts(ds: seq<Dimension>, det: seq<Dimension>, llm: seq<Dimension>): seq<Dimension> {
    if ds == [] then [] else Hosts(ds[..|ds| - 1], det, llm) + [Host(ds[|ds| - 1], det, llm)]
  }

  function HostGaps(ds: seq<Dimension>, det: seq<Dimension>, llm: seq<Dimension>): seq<string> {
    if ds == [] then []
    else
      var id := ds[|ds| - 1].id;
      HostGaps(ds[..|ds| - 1], det, llm) + match LastWithId(llm, id)
                                           case None => []
                                           case Some(g) => ReconcileGaps(g.findings, FindingsOf(det, id), id)
  }

  /** LLM dimensions the deterministic half does not have. */
  function Guests(ds: seq<Dimension>, det: seq<Dimension>): seq<Dimension> {
    if ds == [] then []
    else
      var d := ds[|ds| - 1];
      Guests(ds[..|ds| - 1], det) + if LastWithId(det, d.id).Some? then [] else [d.(findings := Reconcile(d.findings, [], d.id))]
  }

  function GuestGaps(ds: seq<Dimension>, det: seq<Dimension>): seq<string> {
    if ds == [] then []
    else
      var d := ds[|ds| - 1];
      GuestGaps(ds[..|ds| - 1], det) + if LastWithId(det, d.id).Some? then [] else ReconcileGaps(d.findings, [], d.id)
  }

  function StatusOf(fs: seq<Finding>): Status {
    if exists f :: f in fs && f.severity.Critical? then Fail
    else if exists f :: f in fs && f.severity.Warning? then Partial
    else Pass
  }

  function DemoteDimension(d: Dimension): Dimension {
    if forall i :: 0 <= i < |d.findings| ==> !IsCosmetic(d.findings[i]) then d
    else d.(findings := Demote(d.findings), status := StatusOf(Demote(d.findings)))
  }

  function DemoteDimensions(ds: seq<Dimension>): seq<Dimension> {
    if ds == [] then [] else DemoteDimensions(ds[..|ds| - 1]) + [DemoteDimension(ds[|ds| - 1])]
  }

  function AllFindings(ds: seq<Dimension>): seq<Finding> {
    if ds == [] then [] else AllFindings(ds[..|ds| - 1]) + ds[|ds| - 1].findings
  }

  predicate InfraFailed(llm: Report) {
    llm.verdict.Reject? && exists g :: g in llm.gaps && Contains(g, INFRA_FAILURE)
  }

  function MergedDimensions(det: Report, llm: Report): seq<Dimension> {
    DemoteDimensions(Hosts(det.dimensions, det.dimensions, llm.dimensions) + Guests(llm.dimensions, det.dimensions))
  }

  function Min(x: real, y: real): real { if x <= y then x else y }

  function Merge(det: Report, llm: Report): Report {
    var dims := MergedDimensions(det, llm);
    var all := AllFindings(dims);
    var gaps := HostGaps(det.dimensions, det.dimensions, llm.dimensions) + GuestGaps(llm.dimensions, det.dimensions);
    var verdict := if InfraFailed(llm) then Reject else Policy(all).0;
    var statement := if InfraFailed(llm) then llm.statement
                     else if verdict.Reject? && exists f :: f in all && f.severity.Critical? && f.dimension in TRUSTED
                     then det.statement
                     else Policy(all).1;
    Report(verdict, statement, Min(det.confidence, llm.confidence), dims, det.gaps + llm.gaps + (set g | g in gaps),
           det.log + llm.log, det.files + llm.files)
  }

  lemma {:induction false} DemoteIsIdentityWithoutCosmetics(fs: seq<Finding>)
    ensures |Demote(fs)| == |fs| && forall i :: 0 <= i < |fs| ==> Demote(fs)[i] == DemoteOne(fs[i])
    ensures (forall i :: 0 <= i < |fs| ==> !IsCosmetic(fs[i])) ==> Demote(fs) == fs
  {
    if fs != [] {
      DemoteIsIdentityWithoutCosmetics(fs[..|fs| - 1]);
    }
  }

  /** The program looks for a severity that changed. */
  lemma SeveritiesTellCosmetics(fs: seq<Finding>)
    ensures |Demote(fs)| == |fs|
    ensures (forall k :: 0 <= k < |fs| ==> Demote(fs)[k].severity == fs[k].severity)
            <==> forall k :: 0 <= k < |fs| ==> !IsCosmetic(fs[k])
  {
  }

  method MergeReports(det: Report, llm: Report) returns (r: Report)
    ensures r == Merge(det, llm)
  {
    var gaps := new GapList();
    var merged := MergeDimensions(det.dimensions, llm.dimensions, gaps);
    var dims := DemoteMerged(merged);
    var all := AllFindings(dims);
    var infra := llm.verdict.Reject? && exists g :: g in llm.gaps && Contains(g, INFRA_FAILURE);
    var verdict, statement := Reject, llm.statement;
    if !infra {
      var (v, s, _) := Policy(all);
      verdict := v;
      statement := if v.Reject? && exists f :: f in all && f.severity.Critical? && f.dimension in TRUSTED then det.statement else s;
    }
    return Report(verdict, statement, Min(det.confidence, llm.confidence), dims,
                  det.gaps + llm.gaps + (set g | g in gaps.entries), det.log + llm.log, det.files + llm.files);
  }

  /** Demotes inside every dimension, recomputing the status of those it changes. */
  method DemoteMerged(merged: seq<Dimension>) returns (dims: seq<Dimension>)
    ensures dims == DemoteDimensions(merged)
  {
    dims := [];
    for i := 0 to |merged|
      invariant dims == DemoteDimensions(merged[..i])
    {
      assert merged[..i + 1][..i] == merged[..i];
      var d := DemoteInside(merged[i]);
      dims := dims + [d];
    }
    assert merged[..|merged|] == merged;
  }

  method DemoteInside(d: Dimension) returns (r: Dimension)
    ensures r == DemoteDimension(d)
  {
    var fs := DemoteCosmeticWarnings(d.findings);
    SeveritiesTellCosmetics(d.findings);
    if |fs| == |d.findings| && forall k :: 0 <= k < |fs| ==> fs[k].severity == d.findings[k].severity {
      return d;
    }
    var status := RecomputeStatus(fs);
    return d.(findings := fs, status := status);
  }

  method RecomputeStatus(fs: seq<Finding>) returns (status: Status)
    ensures status == StatusOf(fs)
  {
    var hasCritical := exists f :: f in fs && f.severity.Critical?;
    var hasRemaining := exists f :: f in fs && (f.severity.Critical? || f.severity.Warning?);
    return if hasCritical then Fail else if hasRemaining then Partial else Pass;
  }

  method MergeDimensions(det: seq<Dimension>, llm: seq<Dimension>, gaps: GapList) returns (merged: seq<Dimension>)
    modifies gaps
    requires gaps.entries == []
    ensures merged == Hosts(det, det, llm) + Guests(llm, det)
    ensures gaps.entries == HostGaps(det, det, llm) + GuestGaps(llm, det)
  {
    merged := [];
    for i := 0 to |det|
      invariant merged == Hosts(det[..i], det, llm)
      invariant gaps.entries == HostGaps(det[..i], det, llm)
    {
      assert det[..i + 1][..i] == det[..i];
      var d := det[i];
      var guest := LastWithId(llm, d.id);
      if guest.Some? {
        var reconciled := ReconcileLlmFindings(guest.value.findings, FindingsOf(det, d.id), d.id, gaps);
        var extra := Extra(reconciled, d.findings);
        if extra != [] {
          d := d.(tested := d.tested + guest.value.tested, confirmed := d.confirmed + |extra|, findings := d.findings + extra);
        }
      }
      assert d == Host(det[i], det, llm);
      merged := merged + [d];
    }
    assert det[..|det|] == det;
    merged := AddGuests(det, llm, merged, gaps);
  }

  lemma GuestsStep(llm: seq<Dimension>, det: seq<Dimension>, i: nat)
    requires i < |llm|
    ensures var (d, known) := (llm[i], LastWithId(det, llm[i].id).Some?);
            && Guests(llm[..i + 1], det)
               == (if known then Guests(llm[..i], det) else Guests(llm[..i], det) + [d.(findings := Reconcile(d.findings, [], d.id))])
            && GuestGaps(llm[..i + 1], det)
               == (if known then GuestGaps(llm[..i], det) else GuestGaps(llm[..i], det) + ReconcileGaps(d.findings, [], d.id))
  {
    assert llm[..i + 1][..i] == llm[..i];
  }

  lemma Regroup<T>(a: seq<T>, b: seq<T>, c: seq<T>)
    ensures a + (b + c) == (a + b) + c
  {
  }

  method AddGuests(det: seq<Dimension>, llm: seq<Dimension>, hosts: seq<Dimension>, gaps: GapList) returns (merged: seq<Dimension>)
    modifies gaps
    ensures merged == hosts + Guests(llm, det)
    ensures gaps.entries == old(gaps.entries) + GuestGaps(llm, det)
  {
    merged := hosts;
    ghost var before := gaps.entries;
    ghost var guests, recorded := Guests([], det), GuestGaps([], det);
    for i := 0 to |llm|
      invariant guests == Guests(llm[..i], det) && recorded == GuestGaps(llm[..i], det)
      invariant merged == hosts + guests && gaps.entries == before + recorded
    {
      GuestsStep(llm, det, i);
      var d := llm[i];
      if LastWithId(det, d.id).None? {
        var reconciled := ReconcileLlmFindings(d.findings, [], d.id, gaps);
        Regroup(hosts, guests, [d.(findings := reconciled)]);
        Regroup(before, recorded, ReconcileGaps(d.findings, [], d.id));
        merged := merged + [d.(findings := reconciled)];
        guests := guests + [d.(findings := reconciled)];
        recorded := recorded + ReconcileGaps(d.findings, [], d.id);
      }
    }
    assert llm[..|llm|] == llm;
  }
}
