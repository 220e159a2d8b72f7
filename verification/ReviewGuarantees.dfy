/**
 What the review merge guarantees (meta/code_reviewer.py), for every LLM report: what it
 keeps, who controls the criticals of the trusted dimensions, and who can reject.
 */
module ReviewGuarantees {
  import opened ReviewMerge
  import opened Wrappers

  // ----- nothing is lost

  /** Every downgrade is on record, once. */
  lemma {:induction false} GapsCountDowngrades(fs: seq<Finding>, trusted: seq<Finding>)
    ensures |ReconcileAll(fs, trusted)| == |fs|
    ensures |GapsOf(fs, trusted)| == Tally(Serious, fs) - Tally(Serious, ReconcileAll(fs, trusted))
  {
    if fs != [] {
      var init, all := fs[..|fs| - 1], ReconcileAll(fs, trusted);
      GapsCountDowngrades(init, trusted);
      assert all[..|all| - 1] == ReconcileAll(init, trusted);
    }
  }

  lemma {:induction false} ExtraIsTheNew(fs: seq<Finding>, known: seq<Finding>)
    ensures forall f :: f in Extra(fs, known) <==> f in fs && forall g :: g in known ==> !SameViolation(f, g)
  {
    if fs != [] {
      ExtraIsTheNew(fs[..|fs| - 1], known);
      assert fs == fs[..|fs| - 1] + [fs[|fs| - 1]];
    }
  }

  /** A hosted dimension keeps its own findings first, repeats none of their violations, shows
      every other finding of its guest, and counts each addition as one confirmed hypothesis. */
  lemma HostKeepsBoth(d: Dimension, det: seq<Dimension>, llm: seq<Dimension>)
    ensures var h := Host(d, det, llm);
            && h.id == d.id && h.name == d.name && h.status == d.status && h.killed == d.killed
            && d.findings <= h.findings
            && h.confirmed == d.confirmed + |h.findings| - |d.findings|
            && (forall f, g :: f in h.findings[|d.findings|..] && g in d.findings ==> !SameViolation(f, g))
            && (var guest := LastWithId(llm, d.id);
                guest.Some? ==> forall f :: f in Reconcile(guest.value.findings, FindingsOf(det, d.id), d.id)
                                            ==> f in h.findings || exists g :: g in d.findings && SameViolation(f, g))
  {
    var guest := LastWithId(llm, d.id);
    if guest.Some? {
      ExtraIsTheNew(Reconcile(guest.value.findings, FindingsOf(det, d.id), d.id), d.findings);
    }
  }

  lemma {:induction false} HostsAt(ds: seq<Dimension>, det: seq<Dimension>, llm: seq<Dimension>, i: nat)
    requires i < |ds|
    ensures |Hosts(ds, det, llm)| == |ds| && Hosts(ds, det, llm)[i] == Host(ds[i], det, llm)
  {
    if |ds| > 1 {
      HostsAt(ds[..|ds| - 1], det, llm, if i < |ds| - 1 then i else 0);
    }
  }

  lemma {:induction false} DemoteDimensionsAt(ds: seq<Dimension>, i: nat)
    requires i < |ds|
    ensures |DemoteDimensions(ds)| == |ds| && DemoteDimensions(ds)[i] == DemoteDimension(ds[i])
  {
    if |ds| > 1 {
      DemoteDimensionsAt(ds[..|ds| - 1], if i < |ds| - 1 then i else 0);
    }
  }

  lemma {:induction false} DemoteConcat(fs: seq<Finding>, gs: seq<Finding>)
    ensures Demote(fs + gs) == Demote(fs) + Demote(gs)
    decreases |gs|
  {
    if gs == [] {
      assert fs + gs == fs;
    } else {
      assert (fs + gs)[..|fs + gs| - 1] == fs + gs[..|gs| - 1];
      DemoteConcat(fs, gs[..|gs| - 1]);
    }
  }

  /** The deterministic half comes first: its dimensions keep their places, and in each of them
      its findings (demoted) keep theirs, for every LLM report. */
  lemma DeterministicHalfComesFirst(det: Report, llm: Report, i: nat)
    requires i < |det.dimensions|
    ensures var dims := Merge(det, llm).dimensions;
            && i < |dims| && dims[i].id == det.dimensions[i].id
            && Demote(det.dimensions[i].findings) <= dims[i].findings
  {
    var ds := det.dimensions;
    var hosts, guests := Hosts(ds, ds, llm.dimensions), Guests(llm.dimensions, ds);
    HostsAt(ds, ds, llm.dimensions, i);
    HostKeepsBoth(ds[i], ds, llm.dimensions);
    var h := hosts[i];
    DemoteDimensionsAt(hosts + guests, i);
    assert (hosts + guests)[i] == h;
    DemoteIsIdentityWithoutCosmetics(h.findings);
    assert h.findings == ds[i].findings + h.findings[|ds[i].findings|..];
    DemoteConcat(ds[i].findings, h.findings[|ds[i].findings|..]);
  }

  // ----- who controls the criticals

  function Criticals(fs: seq<Finding>): seq<Finding> { Select(Serious, fs) }

  /** The critical findings inside the trusted dimensions, in report order. */
  function TrustedCriticals(ds: seq<Dimension>): seq<Finding> {
    if ds == [] then []
    else
      var d := ds[|ds| - 1];
      TrustedCriticals(ds[..|ds| - 1]) + if d.id in TRUSTED then Criticals(d.findings) else []
  }

  predicate DistinctIds(ds: seq<Dimension>) {
    forall i, j :: 0 <= i < j < |ds| ==> ds[i].id != ds[j].id
  }

  lemma {:induction false} SelectConcat(kind: Kind, fs: seq<Finding>, gs: seq<Finding>)
    ensures Select(kind, fs + gs) == Select(kind, fs) + Select(kind, gs)
    decreases |gs|
  {
    if gs == [] {
      assert fs + gs == fs;
    } else {
      assert (fs + gs)[..|fs + gs| - 1] == fs + gs[..|gs| - 1];
      SelectConcat(kind, fs, gs[..|gs| - 1]);
    }
  }

  lemma {:induction false} TrustedConcat(xs: seq<Dimension>, ys: seq<Dimension>)
    ensures TrustedCriticals(xs + ys) == TrustedCriticals(xs) + TrustedCriticals(ys)
    decreases |ys|
  {
    if ys == [] {
      assert xs + ys == xs;
    } else {
      assert (xs + ys)[..|xs + ys| - 1] == xs + ys[..|ys| - 1];
      TrustedConcat(xs, ys[..|ys| - 1]);
    }
  }

  lemma {:induction false} DemotionKeepsTrusted(ds: seq<Dimension>)
    ensures TrustedCriticals(DemoteDimensions(ds)) == TrustedCriticals(ds)
  {
    if ds != [] {
      var init, d := ds[..|ds| - 1], ds[|ds| - 1];
      DemotionKeepsTrusted(init);
      SelectAfterDemotion(Serious, d.findings);
      assert DemoteDimensions(ds)[..|DemoteDimensions(ds)| - 1] == DemoteDimensions(init);
    }
  }

  /** Every critical violation of the one list is a violation of the other. */
  predicate Covers(trusted: seq<Finding>, known: seq<Finding>) {
    forall g :: g in trusted && g.severity.Critical? ==> exists h :: h in known && SameViolation(g, h)
  }

  /** Reconciled against findings the host covers, nothing new is critical: an uncorroborated
      one is downgraded, a corroborated one is a duplicate. */
  lemma {:induction false} ExtraHasNoCriticals(fs: seq<Finding>, trusted: seq<Finding>, known: seq<Finding>)
    requires Covers(trusted, known)
    ensures Criticals(Extra(ReconcileAll(fs, trusted), known)) == []
  {
    if fs != [] {
      var init, f := fs[..|fs| - 1], fs[|fs| - 1];
      var all := ReconcileAll(fs, trusted);
      assert all[..|all| - 1] == ReconcileAll(init, trusted);
      ExtraHasNoCriticals(init, trusted, known);
      var r := ReconcileOne(f, trusted);
      var more := if exists g :: g in known && SameViolation(r, g) then [] else [r];
      SelectConcat(Serious, Extra(ReconcileAll(init, trusted), known), more);
      assert more != [] ==> !r.severity.Critical? && more[..0] == [];
    }
  }

  lemma {:induction false} LastWithIdDistinct(ds: seq<Dimension>, i: nat)
    requires DistinctIds(ds) && i < |ds|
    ensures LastWithId(ds, ds[i].id) == Some(ds[i])
    decreases |ds|
  {
    if i < |ds| - 1 {
      LastWithIdDistinct(ds[..|ds| - 1], i);
    }
  }

  /** What the merge needs of the deterministic half: where a trusted dimension is reported more
      than once, each report covers the criticals of the last. */
  predicate TrustedIsCovered(det: seq<Dimension>) {
    forall d :: d in det && d.id in TRUSTED ==> Covers(FindingsOf(det, d.id), d.findings)
  }

  lemma DistinctIsCovered(det: seq<Dimension>)
    requires DistinctIds(det)
    ensures TrustedIsCovered(det)
  {
    forall d | d in det && d.id in TRUSTED
      ensures Covers(FindingsOf(det, d.id), d.findings)
    {
      var i :| 0 <= i < |det| && det[i] == d;
      LastWithIdDistinct(det, i);
    }
  }

  lemma {:induction false} HostsKeepTrusted(ds: seq<Dimension>, det: seq<Dimension>, llm: seq<Dimension>)
    requires TrustedIsCovered(det) && forall d :: d in ds ==> d in det
    ensures TrustedCriticals(Hosts(ds, det, llm)) == TrustedCriticals(ds)
  {
    if ds != [] {
      var init, d := ds[..|ds| - 1], ds[|ds| - 1];
      HostsKeepTrusted(init, det, llm);
      var hosts := Hosts(ds, det, llm);
      assert hosts[..|hosts| - 1] == Hosts(init, det, llm);
      if d.id in TRUSTED {
        assert d in ds;
        HostKeepsCriticals(d, det, llm);
      }
    }
  }

  lemma HostKeepsCriticals(d: Dimension, det: seq<Dimension>, llm: seq<Dimension>)
    requires d.id in TRUSTED && Covers(FindingsOf(det, d.id), d.findings)
    ensures Criticals(Host(d, det, llm).findings) == Criticals(d.findings)
  {
    var guest := LastWithId(llm, d.id);
    if guest.Some? {
      var trusted := FindingsOf(det, d.id);
      ExtraHasNoCriticals(guest.value.findings, trusted, d.findings);
      SelectConcat(Serious, d.findings, Extra(ReconcileAll(guest.value.findings, trusted), d.findings));
    }
  }

  lemma {:induction false} UncorroboratedHasNoCriticals(fs: seq<Finding>)
    ensures Criticals(ReconcileAll(fs, [])) == []
  {
    if fs != [] {
      var all := ReconcileAll(fs, []);
      assert all[..|all| - 1] == ReconcileAll(fs[..|fs| - 1], []);
      UncorroboratedHasNoCriticals(fs[..|fs| - 1]);
    }
  }

  lemma {:induction false} GuestsHaveNoTrusted(llm: seq<Dimension>, det: seq<Dimension>)
    ensures TrustedCriticals(Guests(llm, det)) == []
  {
    if llm != [] {
      var d := llm[|llm| - 1];
      GuestsHaveNoTrusted(llm[..|llm| - 1], det);
      UncorroboratedHasNoCriticals(d.findings);
      var guests := Guests(llm, det);
      if LastWithId(det, d.id).None? {
        assert guests[..|guests| - 1] == Guests(llm[..|llm| - 1], det);
      } else {
        assert guests == Guests(llm[..|llm| - 1], det);
      }
    }
  }

  lemma MergedTrusted(det: Report, llm: Report)
    ensures TrustedCriticals(Merge(det, llm).dimensions)
            == TrustedCriticals(Hosts(det.dimensions, det.dimensions, llm.dimensions))
               + TrustedCriticals(Guests(llm.dimensions, det.dimensions))
  {
    var hosts, guests := Hosts(det.dimensions, det.dimensions, llm.dimensions), Guests(llm.dimensions, det.dimensions);
    TrustedConcat(hosts, guests);
    DemotionKeepsTrusted(hosts + guests);
  }

  /** For every LLM report, the critical findings inside D1 and D4 after the merge are
      exactly the deterministic report's own, in order. */
  lemma TrustedHalfControlsCriticals(det: Report, llm: Report)
    requires TrustedIsCovered(det.dimensions)
    ensures TrustedCriticals(Merge(det, llm).dimensions) == TrustedCriticals(det.dimensions)
  {
    HostsKeepTrusted(det.dimensions, det.dimensions, llm.dimensions);
    GuestsHaveNoTrusted(llm.dimensions, det.dimensions);
    MergedTrusted(det, llm);
  }

  // ----- only corroborated criticals survive

  lemma {:induction false} SelectMember(kind: Kind, fs: seq<Finding>, f: Finding)
    ensures f in Select(kind, fs) <==> f in fs && Is(kind, f)
  {
    if fs != [] {
      SelectMember(kind, fs[..|fs| - 1], f);
      assert fs == fs[..|fs| - 1] + [fs[|fs| - 1]];
    }
  }

  lemma {:induction false} TrustedMember(ds: seq<Dimension>, f: Finding)
    ensures f in TrustedCriticals(ds) <==> exists d :: d in ds && d.id in TRUSTED && f in d.findings && f.severity.Critical?
  {
    if ds != [] {
      var init, d := ds[..|ds| - 1], ds[|ds| - 1];
      TrustedMember(init, f);
      SelectMember(Serious, d.findings, f);
      assert ds == init + [d];
    }
  }

  lemma {:induction false} ReconciledMember(fs: seq<Finding>, trusted: seq<Finding>, f: Finding)
    requires f in ReconcileAll(fs, trusted) && f.severity.Critical?
    ensures Corroborated(f, trusted)
  {
    var all := ReconcileAll(fs, trusted);
    assert all == all[..|all| - 1] + [all[|all| - 1]] && all[..|all| - 1] == ReconcileAll(fs[..|fs| - 1], trusted);
    if f in all[..|all| - 1] {
      ReconciledMember(fs[..|fs| - 1], trusted, f);
    }
  }

  lemma HostCriticalIsCorroborated(d: Dimension, det: seq<Dimension>, llm: seq<Dimension>, f: Finding)
    requires d in det && d.id in TRUSTED && f in Host(d, det, llm).findings && f.severity.Critical?
    ensures exists g :: g in TrustedCriticals(det) && SameViolation(f, g)
  {
    if f in d.findings {
      TrustedMember(det, f);
      assert SameViolation(f, f);
    } else {
      var guest, trusted := LastWithId(llm, d.id), FindingsOf(det, d.id);
      ExtraIsTheNew(ReconcileAll(guest.value.findings, trusted), d.findings);
      ReconciledMember(guest.value.findings, trusted, f);
      var g :| g in trusted && g.severity.Critical? && SameViolation(f, g);
      LastWithIdIsThere(det, d.id);
      TrustedMember(det, g);
    }
  }

  lemma {:induction false} HostsMember(ds: seq<Dimension>, det: seq<Dimension>, llm: seq<Dimension>, h: Dimension)
    ensures h in Hosts(ds, det, llm) <==> exists d :: d in ds && h == Host(d, det, llm)
  {
    if ds != [] {
      HostsMember(ds[..|ds| - 1], det, llm, h);
      assert ds == ds[..|ds| - 1] + [ds[|ds| - 1]];
    }
  }

  /** The violations that findings report, by rule and file. */
  function Violations(fs: seq<Finding>): set<(string, string)> { set f | f in fs :: (f.ruleId, f.file) }

  /** Only corroborated criticals survive in D1 and D4, and all deterministic ones do: whatever both
      reports hold, the critical violations there are the deterministic report's own. */
  lemma TrustedViolationsAreDeterministic(det: Report, llm: Report)
    ensures Violations(TrustedCriticals(Merge(det, llm).dimensions)) == Violations(TrustedCriticals(det.dimensions))
  {
    var hosts := Hosts(det.dimensions, det.dimensions, llm.dimensions);
    MergedTrusted(det, llm);
    GuestsHaveNoTrusted(llm.dimensions, det.dimensions);
    forall f | f in TrustedCriticals(hosts)
      ensures exists g :: g in TrustedCriticals(det.dimensions) && SameViolation(f, g)
    {
      HostedCriticalIsCorroborated(det.dimensions, llm.dimensions, f);
    }
    forall g | g in TrustedCriticals(det.dimensions)
      ensures g in TrustedCriticals(hosts)
    {
      TrustedCriticalIsHosted(det.dimensions, llm.dimensions, g);
    }
  }

  lemma HostedCriticalIsCorroborated(det: seq<Dimension>, llm: seq<Dimension>, f: Finding)
    requires f in TrustedCriticals(Hosts(det, det, llm))
    ensures exists g :: g in TrustedCriticals(det) && SameViolation(f, g)
  {
    TrustedMember(Hosts(det, det, llm), f);
    var h :| h in Hosts(det, det, llm) && h.id in TRUSTED && f in h.findings && f.severity.Critical?;
    HostsMember(det, det, llm, h);
    var d :| d in det && h == Host(d, det, llm);
    HostCriticalIsCorroborated(d, det, llm, f);
  }

  lemma TrustedCriticalIsHosted(det: seq<Dimension>, llm: seq<Dimension>, g: Finding)
    requires g in TrustedCriticals(det)
    ensures g in TrustedCriticals(Hosts(det, det, llm))
  {
    TrustedMember(det, g);
    var d :| d in det && d.id in TRUSTED && g in d.findings && g.severity.Critical?;
    var h := Host(d, det, llm);
    HostsMember(det, det, llm, h);
    HostKeepsBoth(d, det, llm);
    assert g in h.findings;
    TrustedMember(Hosts(det, det, llm), g);
  }

  lemma HostCriticalsStay(d: Dimension, det: seq<Dimension>, llm: seq<Dimension>)
    ensures |Criticals(Host(d, det, llm).findings)| >= |Criticals(d.findings)|
  {
    var h := Host(d, det, llm);
    HostKeepsBoth(d, det, llm);
    SelectConcat(Serious, d.findings, h.findings[|d.findings|..]);
    assert h.findings == d.findings + h.findings[|d.findings|..];
  }

  lemma {:induction false} TrustedGrows(ds: seq<Dimension>, det: seq<Dimension>, llm: seq<Dimension>, d: Dimension)
    requires d.id in TRUSTED && |Criticals(Host(d, det, llm).findings)| > |Criticals(d.findings)|
    ensures |TrustedCriticals(Hosts(ds, det, llm))| >= |TrustedCriticals(ds)| + if d in ds then 1 else 0
  {
    if ds != [] {
      var init, last := ds[..|ds| - 1], ds[|ds| - 1];
      TrustedGrows(init, det, llm, d);
      HostCriticalsStay(last, det, llm);
      var hosts := Hosts(ds, det, llm);
      assert hosts[..|hosts| - 1] == Hosts(init, det, llm);
      assert d in ds ==> d in init || d == last;
    }
  }

  lemma ReconcileSingle(f: Finding, trusted: seq<Finding>)
    ensures ReconcileAll([f], trusted) == [ReconcileOne(f, trusted)]
  {
    var fs := [f];
    assert fs[..|fs| - 1] == [];
    assert ReconcileAll([], trusted) == [];
  }

  lemma ExtraSingle(f: Finding, known: seq<Finding>)
    requires forall h :: h in known ==> !SameViolation(f, h)
    ensures Extra([f], known) == [f]
  {
    var fs := [f];
    assert fs[..|fs| - 1] == [];
    assert Extra([], known) == [];
  }

  lemma CriticalSingle(f: Finding)
    requires f.severity.Critical?
    ensures Criticals([f]) == [f]
  {
    var fs := [f];
    assert fs[..|fs| - 1] == [];
    assert Select(Serious, []) == [];
  }

  lemma UncoveredHostGrows(ds: seq<Dimension>, d: Dimension, g: Finding, llm: seq<Dimension>)
    requires d.id in TRUSTED && g in FindingsOf(ds, d.id) && g.severity.Critical?
    requires forall h :: h in d.findings ==> !SameViolation(g, h)
    requires llm == [Dimension(d.id, "", Fail, 0, 0, 0, [g])]
    ensures |Criticals(Host(d, ds, llm).findings)| > |Criticals(d.findings)|
  {
    assert LastWithId(llm, d.id) == Some(llm[0]);
    assert SameViolation(g, g);
    ReconcileSingle(g, FindingsOf(ds, d.id));
    ExtraSingle(g, d.findings);
    CriticalSingle(g);
    SelectConcat(Serious, d.findings, [g]);
  }

  /** Against a deterministic half that does not cover its own criticals, repeating one of them
      in the right dimension is enough. */
  lemma UncoveredCriticalEnters(det: Report, d: Dimension, g: Finding, llm: Report)
    requires d in det.dimensions && d.id in TRUSTED
    requires g in FindingsOf(det.dimensions, d.id) && g.severity.Critical? && forall h :: h in d.findings ==> !SameViolation(g, h)
    requires llm.dimensions == [Dimension(d.id, "", Fail, 0, 0, 0, [g])]
    ensures TrustedCriticals(Merge(det, llm).dimensions) != TrustedCriticals(det.dimensions)
  {
    UncoveredHostGrows(det.dimensions, d, g, llm.dimensions);
    TrustedGrows(det.dimensions, det.dimensions, llm.dimensions, d);
    MergedTrusted(det, llm);
  }

  /** The exact condition for the trusted half to control the criticals: it holds for every LLM
      report precisely when repeated trusted dimensions cover each other; distinct ids are enough. */
  lemma TrustedHalfControlsIff(det: Report)
    ensures (forall llm: Report :: TrustedCriticals(Merge(det, llm).dimensions) == TrustedCriticals(det.dimensions))
            <==> TrustedIsCovered(det.dimensions)
  {
    if TrustedIsCovered(det.dimensions) {
      forall llm: Report
        ensures TrustedCriticals(Merge(det, llm).dimensions) == TrustedCriticals(det.dimensions)
      {
        TrustedHalfControlsCriticals(det, llm);
      }
    } else {
      var d :| d in det.dimensions && d.id in TRUSTED && !Covers(FindingsOf(det.dimensions, d.id), d.findings);
      var g :| g in FindingsOf(det.dimensions, d.id) && g.severity.Critical? && forall h :: h in d.findings ==> !SameViolation(g, h);
      var llm := det.(dimensions := [Dimension(d.id, "", Fail, 0, 0, 0, [g])]);
      UncoveredCriticalEnters(det, d, g, llm);
    }
  }

  // ----- who controls the verdict

  lemma {:induction false} TallyAllConcat(kind: Kind, xs: seq<Dimension>, ys: seq<Dimension>)
    ensures Tally(kind, AllFindings(xs + ys)) == Tally(kind, AllFindings(xs)) + Tally(kind, AllFindings(ys))
    decreases |ys|
  {
    if ys == [] {
      assert xs + ys == xs;
    } else {
      var init, d := ys[..|ys| - 1], ys[|ys| - 1];
      assert (xs + ys)[..|xs + ys| - 1] == xs + init;
      TallyAllConcat(kind, xs, init);
      TallyConcat(kind, AllFindings(xs + init), d.findings);
      TallyConcat(kind, AllFindings(init), d.findings);
    }
  }

  lemma {:induction false} DemotionKeepsTallies(kind: Kind, ds: seq<Dimension>)
    requires kind != Note
    ensures Tally(kind, AllFindings(DemoteDimensions(ds))) == Tally(kind, AllFindings(ds))
  {
    if ds != [] {
      var init, d := ds[..|ds| - 1], ds[|ds| - 1];
      DemotionKeepsTallies(kind, init);
      DemoteTwice(d.findings);
      var demoted := DemoteDimensions(ds);
      assert demoted[..|demoted| - 1] == DemoteDimensions(init);
      TallyConcat(kind, AllFindings(init), d.findings);
      TallyConcat(kind, AllFindings(DemoteDimensions(init)), DemoteDimension(d).findings);
    }
  }

  /** Every deterministic finding stays in its dimension. */
  lemma {:induction false} HostsKeepFindings(kind: Kind, ds: seq<Dimension>, det: seq<Dimension>, llm: seq<Dimension>)
    ensures Tally(kind, AllFindings(ds)) <= Tally(kind, AllFindings(Hosts(ds, det, llm)))
  {
    if ds != [] {
      var init, d := ds[..|ds| - 1], ds[|ds| - 1];
      HostsKeepFindings(kind, init, det, llm);
      var hosts, host := Hosts(ds, det, llm), Host(d, det, llm);
      assert hosts[..|hosts| - 1] == Hosts(init, det, llm);
      TallyConcat(kind, AllFindings(init), d.findings);
      TallyConcat(kind, AllFindings(Hosts(init, det, llm)), host.findings);
      if host != d {
        TallyConcat(kind, d.findings, host.findings[|d.findings|..]);
        assert host.findings == d.findings + host.findings[|d.findings|..];
      }
    }
  }

  lemma MergedTallies(kind: Kind, det: Report, llm: Report)
    requires kind != Note
    ensures Tally(kind, AllFindings(det.dimensions)) <= Tally(kind, AllFindings(MergedDimensions(det, llm)))
  {
    var ds := det.dimensions;
    HostsKeepFindings(kind, ds, ds, llm.dimensions);
    TallyAllConcat(kind, Hosts(ds, ds, llm.dimensions), Guests(llm.dimensions, ds));
    DemotionKeepsTallies(kind, Hosts(ds, ds, llm.dimensions) + Guests(llm.dimensions, ds));
  }

  lemma MergedPolicyIsNeverSofter(det: Report, llm: Report)
    ensures Rank(Policy(AllFindings(det.dimensions)).0) <= Rank(Policy(AllFindings(MergedDimensions(det, llm))).0)
  {
    MergedTallies(Rejecting, det, llm);
    MergedTallies(Serious, det, llm);
    MergedTallies(StrongWarning, det, llm);
    TalliesDecide(AllFindings(det.dimensions), AllFindings(MergedDimensions(det, llm)));
  }

  /** For every LLM report, the merged verdict is at least as severe as the policy's verdict
      on the deterministic findings alone. */
  lemma MergedVerdictIsNeverSofter(det: Report, llm: Report)
    ensures Rank(Policy(AllFindings(det.dimensions)).0) <= Rank(Merge(det, llm).verdict)
  {
    MergedPolicyIsNeverSofter(det, llm);
  }

  lemma {:induction false} LastWithIdIsThere(ds: seq<Dimension>, id: string)
    ensures var d := LastWithId(ds, id); d.Some? ==> d.value in ds && d.value.id == id
  {
    if ds != [] {
      LastWithIdIsThere(ds[..|ds| - 1], id);
    }
  }

  lemma {:induction false} TallyHas(kind: Kind, fs: seq<Finding>)
    ensures Tally(kind, fs) > 0 <==> exists f :: f in fs && Is(kind, f)
  {
    if fs != [] {
      TallyHas(kind, fs[..|fs| - 1]);
      assert fs == fs[..|fs| - 1] + [fs[|fs| - 1]];
    }
  }

  lemma {:induction false} InAll(ds: seq<Dimension>, f: Finding)
    ensures f in AllFindings(ds) <==> exists d :: d in ds && f in d.findings
  {
    if ds != [] {
      InAll(ds[..|ds| - 1], f);
      assert ds == ds[..|ds| - 1] + [ds[|ds| - 1]];
    }
  }

  lemma {:induction false} NoCriticals(fs: seq<Finding>)
    requires Criticals(fs) == []
    ensures forall f :: f in fs ==> !f.severity.Critical?
  {
    if fs != [] {
      NoCriticals(fs[..|fs| - 1]);
      assert fs == fs[..|fs| - 1] + [fs[|fs| - 1]];
    }
  }

  lemma {:induction false} GuestsMember(llm: seq<Dimension>, det: seq<Dimension>, e: Dimension)
    ensures e in Guests(llm, det)
            <==> exists d :: d in llm && LastWithId(det, d.id).None? && e == d.(findings := Reconcile(d.findings, [], d.id))
  {
    if llm != [] {
      GuestsMember(llm[..|llm| - 1], det, e);
      assert llm == llm[..|llm| - 1] + [llm[|llm| - 1]];
    }
  }

  /** An LLM finding that reaches the verdict as a rejecting one: reported outside D1 and D4,
      in a dimension of the LLM's own or as no repetition of what the host reports. */
  predicate Enters(det: seq<Dimension>, llm: seq<Dimension>, d: Dimension, f: Finding) {
    && d in llm && d.id !in TRUSTED && f in d.findings && Is(Rejecting, f)
    && match LastWithId(det, d.id)
       case None => true
       case Some(host) => LastWithId(llm, d.id) == Some(d) && forall g :: g in host.findings ==> !SameViolation(f, g)
  }

  lemma HostRejection(det: seq<Dimension>, llm: seq<Dimension>, k: nat, f: Finding)
    requires DistinctIds(det) && k < |det| && Is(Rejecting, f) && f in Host(det[k], det, llm).findings
    ensures f in det[k].findings || exists d :: Enters(det, llm, d, f)
  {
    var host, guest := det[k], LastWithId(llm, det[k].id);
    LastWithIdDistinct(det, k);
    LastWithIdIsThere(llm, host.id);
    if guest.Some? && f !in host.findings {
      ExtraIsTheNew(Reconcile(guest.value.findings, host.findings, host.id), host.findings);
      if host.id in TRUSTED {
        ExtraHasNoCriticals(guest.value.findings, host.findings, host.findings);
        NoCriticals(Extra(ReconcileAll(guest.value.findings, host.findings), host.findings));
      }
      assert Enters(det, llm, guest.value, f);
    }
  }

  lemma GuestRejection(det: seq<Dimension>, llm: seq<Dimension>, e: Dimension, f: Finding)
    requires e in Guests(llm, det) && f in e.findings && Is(Rejecting, f)
    ensures exists d :: Enters(det, llm, d, f)
  {
    GuestsMember(llm, det, e);
    var d :| d in llm && LastWithId(det, d.id).None? && e == d.(findings := Reconcile(d.findings, [], d.id));
    if d.id in TRUSTED {
      UncorroboratedHasNoCriticals(d.findings);
      NoCriticals(e.findings);
    }
    assert Enters(det, llm, d, f);
  }

  lemma EntersIsMerged(det: seq<Dimension>, llm: seq<Dimension>, d: Dimension, f: Finding)
    requires Enters(det, llm, d, f)
    ensures f in AllFindings(Hosts(det, det, llm) + Guests(llm, det))
  {
    var hosts, guests := Hosts(det, det, llm), Guests(llm, det);
    var host := LastWithId(det, d.id);
    InAll(hosts + guests, f);
    if host.None? {
      var e := d.(findings := Reconcile(d.findings, [], d.id));
      GuestsMember(llm, det, e);
      assert e in hosts + guests && f in e.findings;
    } else {
      LastWithIdIsThere(det, d.id);
      var k :| 0 <= k < |det| && det[k] == host.value;
      HostsAt(det, det, llm, k);
      HostKeepsBoth(host.value, det, llm);
      assert f in Host(host.value, det, llm).findings;
      assert (hosts + guests)[k] == Host(host.value, det, llm);
    }
  }

  /** Which rejecting findings the merge has: the deterministic ones and those that enter. */
  lemma MergedRejections(det: seq<Dimension>, llm: seq<Dimension>)
    requires DistinctIds(det)
    ensures Tally(Rejecting, AllFindings(Hosts(det, det, llm) + Guests(llm, det))) > 0
            <==> Tally(Rejecting, AllFindings(det)) > 0 || exists d, f :: Enters(det, llm, d, f)
  {
    var hosts, guests := Hosts(det, det, llm), Guests(llm, det);
    TallyHas(Rejecting, AllFindings(hosts + guests));
    TallyHas(Rejecting, AllFindings(det));
    if f :| f in AllFindings(hosts + guests) && Is(Rejecting, f) {
      InAll(hosts + guests, f);
      var e: Dimension :| e in hosts + guests && f in e.findings;
      var k :| 0 <= k < |hosts + guests| && (hosts + guests)[k] == e;
      RejectionComesFrom(det, llm, k, f);
    }
    HostsKeepFindings(Rejecting, det, det, llm);
    TallyAllConcat(Rejecting, hosts, guests);
    if d, f :| Enters(det, llm, d, f) {
      EntersIsMerged(det, llm, d, f);
    }
  }

  lemma RejectionComesFrom(det: seq<Dimension>, llm: seq<Dimension>, k: nat, f: Finding)
    requires DistinctIds(det) && Is(Rejecting, f)
    requires var all := Hosts(det, det, llm) + Guests(llm, det); k < |all| && f in all[k].findings
    ensures f in AllFindings(det) || exists d :: Enters(det, llm, d, f)
  {
    var hosts := Hosts(det, det, llm);
    if det != [] {
      HostsAt(det, det, llm, if k < |det| then k else 0);
    }
    if k < |det| {
      HostRejection(det, llm, k, f);
      InAll(det, f);
    } else {
      GuestRejection(det, llm, (hosts + Guests(llm, det))[k], f);
    }
  }

  lemma RejectsIff(fs: seq<Finding>)
    ensures Policy(fs).0.Reject? <==> Tally(Rejecting, fs) > 0
  {
    PolicyCounts(fs);
  }

  /** What an LLM report can do to the verdict, exactly: unless it failed as infrastructure, the
      merge rejects if and only if the deterministic findings alone do or one of its own enters. */
  lemma LlmRejectsIff(det: Report, llm: Report)
    requires DistinctIds(det.dimensions) && !InfraFailed(llm)
    ensures Merge(det, llm).verdict.Reject?
            <==> Policy(AllFindings(det.dimensions)).0.Reject? || exists d, f :: Enters(det.dimensions, llm.dimensions, d, f)
  {
    var all := Hosts(det.dimensions, det.dimensions, llm.dimensions) + Guests(llm.dimensions, det.dimensions);
    MergedRejections(det.dimensions, llm.dimensions);
    DemotionKeepsTallies(Rejecting, all);
    RejectsIff(AllFindings(det.dimensions));
    RejectsIff(AllFindings(DemoteDimensions(all)));
  }

  /** The LLM files its findings under the dimension it reports them in, and uses no
      auto-reject rule id. */
  predicate WellFiled(ds: seq<Dimension>) {
    forall d: Dimension, f: Finding :: d in ds && f in d.findings ==> f.dimension == d.id && f.ruleId !in AUTO_REJECT
  }

  /** A well-filed LLM report neither causes nor prevents a rejection. */
  lemma WellFiledLlmCannotReject(det: Report, llm: Report)
    requires DistinctIds(det.dimensions) && WellFiled(llm.dimensions) && !InfraFailed(llm)
    ensures Merge(det, llm).verdict.Reject? <==> Policy(AllFindings(det.dimensions)).0.Reject?
  {
    LlmRejectsIff(det, llm);
  }
}
