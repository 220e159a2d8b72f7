/**
 Judge validation (meta/judge_validation.py) with the confusion quadrants it takes
 from services/governance/goaljudge_calibration.py.

 Positive means "the judge says not met".  The loops are proved against sets and
 sums over the verdict maps; the lemmas then say what the figures are worth.
 Rates are exact reals, before the program rounds them for display.
 */
module JudgeValidation {
  import opened Basics
  import opened Wrappers

  datatype Error = EmptyInput | KeySetsDiffer | PrevalenceOutOfRange

  type Verdicts = map<string, bool>

  datatype Counts = Counts(tp: nat, fp: nat, fn: nat, tn: nat)

  datatype Rates = Rates(tpr: Option<real>, tnr: Option<real>, fpr: Option<real>, fnr: Option<real>)

  datatype RoganGladen = RoganGladen(observed: real, corrected: Option<real>, correctedRaw: Option<real>, clamped: bool)

  datatype Reason = TprUndecidable | TprBelowFloor | TnrUndecidable | TnrBelowFloor

  datatype Validation = Validation(counts: Counts, rates: Rates, roganGladen: RoganGladen, passed: bool, reasons: seq<Reason>)

  // ----- quadrants

  /** The items on which the judge's and the gold verdict are `j` and `g`. */
  ghost function Quadrant(judge: Verdicts, gold: Verdicts, items: set<string>, j: bool, g: bool): set<string>
    requires items <= judge.Keys && items <= gold.Keys
  {
    set k | k in items && judge[k] == j && gold[k] == g
  }

  lemma QuadrantStep(judge: Verdicts, gold: Verdicts, items: set<string>, k: string, j: bool, g: bool)
    requires items <= judge.Keys && items <= gold.Keys && k in judge && k in gold && k !in items
    ensures |Quadrant(judge, gold, items + {k}, j, g)|
            == |Quadrant(judge, gold, items, j, g)| + if judge[k] == j && gold[k] == g then 1 else 0
  {
    var before, after := Quadrant(judge, gold, items, j, g), Quadrant(judge, gold, items + {k}, j, g);
    if judge[k] == j && gold[k] == g {
      assert after == before + {k};
    } else {
      assert after == before;
    }
  }

  /** Four tallies over verdict maps with the same keys. */
  method ConfusionCounts(judge: Verdicts, gold: Verdicts) returns (r: Result<Counts, Error>)
    ensures judge == map[] || gold == map[] ==> r == Err(EmptyInput)
    ensures judge != map[] && gold != map[] && judge.Keys != gold.Keys ==> r == Err(KeySetsDiffer)
    ensures judge != map[] && judge.Keys == gold.Keys ==>
              && r.Ok?
              && r.value.tp == |Quadrant(judge, gold, judge.Keys, false, false)|
              && r.value.fp == |Quadrant(judge, gold, judge.Keys, false, true)|
              && r.value.fn == |Quadrant(judge, gold, judge.Keys, true, false)|
              && r.value.tn == |Quadrant(judge, gold, judge.Keys, true, true)|
              && r.value.tp + r.value.fp + r.value.fn + r.value.tn == |judge|
  {
    if judge == map[] || gold == map[] {
      return Err(EmptyInput);
    }
    if judge.Keys != gold.Keys {
      return Err(KeySetsDiffer);
    }
    var tp, fp, fn, tn := 0, 0, 0, 0;
    var todo := judge.Keys;
    while todo != {}
      invariant todo <= judge.Keys
      invariant tp == |Quadrant(judge, gold, judge.Keys - todo, false, false)|
      invariant fp == |Quadrant(judge, gold, judge.Keys - todo, false, true)|
      invariant fn == |Quadrant(judge, gold, judge.Keys - todo, true, false)|
      invariant tn == |Quadrant(judge, gold, judge.Keys - todo, true, true)|
      invariant tp + fp + fn + tn == |judge.Keys - todo|
      decreases todo
    {
      var item :| item in todo;
      ghost var seen := judge.Keys - todo;
      assert judge.Keys - (todo - {item}) == seen + {item};
      forall j, g {
        QuadrantStep(judge, gold, seen, item, j, g);
      }
      if !judge[item] && !gold[item] {
        tp := tp + 1;
      } else if !judge[item] && gold[item] {
        fp := fp + 1;
      } else if judge[item] && !gold[item] {
        fn := fn + 1;
      } else {
        tn := tn + 1;
      }
      todo := todo - {item};
    }
    assert judge.Keys - todo == judge.Keys;
    return Ok(Counts(tp, fp, fn, tn));
  }

  // ----- rates and the prevalence correction

  function Share(part: nat, whole: nat): Option<real> {
    if whole == 0 then None else Some(part as real / whole as real)
  }

  function JudgeRates(c: Counts): Rates {
    var goldPositive, goldNegative := c.tp + c.fn, c.tn + c.fp;
    Rates(Share(c.tp, goldPositive), Share(c.tn, goldNegative), Share(c.fp, goldNegative), Share(c.fn, goldPositive))
  }

  function Clamp(x: real): real {
    var low := if x < 0.0 then 0.0 else x;
    if low < 1.0 then low else 1.0
  }

  function Correct(observed: real, tpr: Option<real>, fpr: Option<real>): Result<RoganGladen, Error> {
    if !(0.0 <= observed <= 1.0) then Err(PrevalenceOutOfRange)
    else if tpr.None? || fpr.None? || tpr.value == fpr.value then Ok(RoganGladen(observed, None, None, false))
    else
      var raw := (observed - fpr.value) / (tpr.value - fpr.value);
      Ok(RoganGladen(observed, Some(Clamp(raw)), Some(raw), Clamp(raw) != raw))
  }

  /** A rate is missing exactly when its class is empty; complementary rates add to 1. */
  lemma RatesAreComplementary(c: Counts)
    ensures var r := JudgeRates(c);
            && (r.tpr.None? <==> r.fnr.None?) && (r.tpr.None? <==> c.tp + c.fn == 0)
            && (r.tnr.None? <==> r.fpr.None?) && (r.tnr.None? <==> c.tn + c.fp == 0)
            && (r.tpr.Some? ==> r.tpr.value + r.fnr.value == 1.0 && 0.0 <= r.tpr.value <= 1.0)
            && (r.tnr.Some? ==> r.tnr.value + r.fpr.value == 1.0 && 0.0 <= r.fpr.value <= 1.0)
  {
    if c.tp + c.fn > 0 {
      SharesAddUp(c.tp, c.fn);
    }
    if c.tn + c.fp > 0 {
      SharesAddUp(c.tn, c.fp);
    }
  }

  lemma SharesAddUp(x: nat, y: nat)
    requires x + y > 0
    ensures var w := (x + y) as real;
            x as real / w + y as real / w == 1.0 && 0.0 <= x as real / w <= 1.0 && 0.0 <= y as real / w <= 1.0
  {
    var w := (x + y) as real;
    var p, q := x as real / w, y as real / w;
    assert p * w == x as real && q * w == y as real;
    assert (p + q - 1.0) * w == p * w + q * w - w == 0.0;
    SignTimes(p, w);
    SignTimes(q, w);
    SignTimes(p + q - 1.0, w);
  }

  /** Rogan-Gladen inverts the measurement model: what a judge with these rates is
      expected to observe at prevalence `theta` is corrected back to `theta`. */
  lemma CorrectionInverts(theta: real, tpr: real, fpr: real)
    requires 0.0 <= theta <= 1.0 && 0.0 <= tpr <= 1.0 && 0.0 <= fpr <= 1.0 && tpr != fpr
    ensures var observed := tpr * theta + fpr * (1.0 - theta);
            Correct(observed, Some(tpr), Some(fpr)) == Ok(RoganGladen(observed, Some(theta), Some(theta), false))
  {
    var hits, alarms := tpr * theta, fpr * (1.0 - theta);
    var observed := hits + alarms;
    Shrink(tpr, theta);
    Shrink(fpr, 1.0 - theta);
    var d := tpr - fpr;
    assert observed - fpr == theta * d;
    DivideBack(theta, d);
    assert (observed - fpr) / (tpr - fpr) == theta == Clamp(theta);
    assert 0.0 <= observed <= 1.0;
  }

  lemma Shrink(x: real, y: real)
    requires 0.0 <= x <= 1.0 && 0.0 <= y
    ensures 0.0 <= x * y <= y
  {
  }

  lemma DivideBack(x: real, d: real)
    requires d != 0.0
    ensures (x * d) / d == x
  {
  }

  function Prevalence(c: Counts): real {
    var n := c.tp + c.fp + c.fn + c.tn;
    if n == 0 then 0.0 else (c.tp + c.fp) as real / n as real
  }

  lemma PrevalenceInRange(c: Counts)
    ensures 0.0 <= Prevalence(c) <= 1.0
  {
    if c.tp + c.fp + c.fn + c.tn > 0 {
      SharesAddUp(c.tp + c.fp, c.fn + c.tn);
    }
  }

  /** On the set the rates were measured on, the correction is exact: it returns the
      gold failure rate, so the estimate never leaves [0, 1] and is never clamped. */
  lemma ExactOnItsOwnSet(c: Counts)
    requires c.tp + c.fn > 0 && c.tn + c.fp > 0
    requires JudgeRates(c).tpr != JudgeRates(c).fpr
    ensures var n := c.tp + c.fp + c.fn + c.tn;
            var truth := (c.tp + c.fn) as real / n as real;
            && 0.0 <= truth <= 1.0
            && Correct(Prevalence(c), JudgeRates(c).tpr, JudgeRates(c).fpr)
               == Ok(RoganGladen(Prevalence(c), Some(truth), Some(truth), false))
  {
    var tpr, fpr := JudgeRates(c).tpr.value, JudgeRates(c).fpr.value;
    RatesAreComplementary(c);
    SharesAddUp(c.tp + c.fn, c.tn + c.fp);
    var theta := (c.tp + c.fn) as real / (c.tp + c.fp + c.fn + c.tn) as real;
    PrevalenceIsMixed(c, theta, tpr, fpr);
    CorrectionInverts(theta, tpr, fpr);
  }

  /** The judge's failure rate mixes its two rates in the proportion of the gold classes. */
  lemma PrevalenceIsMixed(c: Counts, theta: real, tpr: real, fpr: real)
    requires c.tp + c.fn > 0 && c.tn + c.fp > 0
    requires theta == (c.tp + c.fn) as real / (c.tp + c.fp + c.fn + c.tn) as real
    requires tpr == c.tp as real / (c.tp + c.fn) as real && fpr == c.fp as real / (c.tn + c.fp) as real
    ensures Prevalence(c) == tpr * theta + fpr * (1.0 - theta)
  {
    var n, p, q := (c.tp + c.fp + c.fn + c.tn) as real, (c.tp + c.fn) as real, (c.tn + c.fp) as real;
    assert theta * n == p && (1.0 - theta) * n == n - theta * n == q;
    assert tpr * p == c.tp as real && fpr * q == c.fp as real;
    var x, y := tpr * theta, fpr * (1.0 - theta);
    Regroup(tpr, theta, n);
    Regroup(fpr, 1.0 - theta, n);
    assert Prevalence(c) * n == (c.tp + c.fp) as real;
    assert (x + y - Prevalence(c)) * n == x * n + y * n - Prevalence(c) * n;
    SignTimes(x + y - Prevalence(c), n);
  }

  lemma Regroup(a: real, b: real, n: real)
    ensures (a * b) * n == a * (b * n)
  {
  }

  method ValidateJudge(judge: Verdicts, gold: Verdicts, tprMin: real := 0.9, tnrMin: real := 0.9)
    returns (r: Result<Validation, Error>)
    ensures r.Ok? <==> judge != map[] && judge.Keys == gold.Keys
    // The gate fails closed: it passes only on two measured rates at or above their floors.
    ensures r.Ok? ==> var v := r.value;
              v.passed <==> v.rates.tpr.Some? && v.rates.tpr.value >= tprMin && v.rates.tnr.Some? && v.rates.tnr.value >= tnrMin
    ensures r.Ok? ==> var v := r.value;
              && v.counts.tp == |Quadrant(judge, gold, judge.Keys, false, false)|
              && v.counts.fp == |Quadrant(judge, gold, judge.Keys, false, true)|
              && v.counts.fn == |Quadrant(judge, gold, judge.Keys, true, false)|
              && v.counts.tn == |Quadrant(judge, gold, judge.Keys, true, true)|
              && v.rates == JudgeRates(v.counts)
              && Correct(Prevalence(v.counts), v.rates.tpr, v.rates.fpr) == Ok(v.roganGladen)
    // Every shortfall is named, and nothing else.
    ensures r.Ok? ==> var v := r.value;
              && (v.passed <==> v.reasons == [])
              && (TprUndecidable in v.reasons <==> v.rates.tpr.None?) && (TnrUndecidable in v.reasons <==> v.rates.tnr.None?)
              && (TprBelowFloor in v.reasons <==> v.rates.tpr.Some? && v.rates.tpr.value < tprMin)
              && (TnrBelowFloor in v.reasons <==> v.rates.tnr.Some? && v.rates.tnr.value < tnrMin)
    // The corrected failure rate is the share of items whose gold verdict is "not met".
    ensures r.Ok? ==> var v := r.value;
              v.rates.tpr.Some? && v.rates.fpr.Some? && v.rates.tpr != v.rates.fpr ==>
                && !v.roganGladen.clamped
                && v.roganGladen.corrected == v.roganGladen.correctedRaw
                     == Some(|set k | k in gold && !gold[k]| as real / |gold| as real)
  {
    var counted := ConfusionCounts(judge, gold);
    if counted.Err? {
      return Err(counted.error);
    }
    var counts := counted.value;
    var rates := JudgeRates(counts);
    PrevalenceInRange(counts);
    var corrected := Correct(Prevalence(counts), rates.tpr, rates.fpr);
    if rates.tpr.Some? && rates.fpr.Some? && rates.tpr != rates.fpr {
      ExactOnItsOwnSet(counts);
      GoldFailures(judge, gold);
    }
    var reasons := [];
    if rates.tpr.None? {
      reasons := reasons + [TprUndecidable];
    } else if rates.tpr.value < tprMin {
      reasons := reasons + [TprBelowFloor];
    }
    if rates.tnr.None? {
      reasons := reasons + [TnrUndecidable];
    } else if rates.tnr.value < tnrMin {
      reasons := reasons + [TnrBelowFloor];
    }
    return Ok(Validation(counts, rates, corrected.value, reasons == [], reasons));
  }

  lemma GoldFailures(judge: Verdicts, gold: Verdicts)
    requires judge.Keys == gold.Keys
    ensures |Quadrant(judge, gold, judge.Keys, false, false)| + |Quadrant(judge, gold, judge.Keys, true, false)|
            == |set k | k in gold && !gold[k]|
  {
    var tp, fn := Quadrant(judge, gold, judge.Keys, false, false), Quadrant(judge, gold, judge.Keys, true, false);
    assert tp !! fn;
    assert (set k | k in gold && !gold[k]) == tp + fn;
  }

  // ----- position bias

  datatype PositionBias = PositionBias(items: nat, agreement: Option<real>, firstPositionRate: Option<real>, inconsistent: set<string>)

  function Bit(b: bool): nat { if b then 1 else 0 }

  ghost function FirstPicks(verdicts: Verdicts, items: set<string>): set<string>
    requires items <= verdicts.Keys
  {
    set k | k in items && verdicts[k]
  }

  lemma FirstPicksStep(verdicts: Verdicts, items: set<string>, item: string)
    requires items <= verdicts.Keys && item in verdicts && item !in items
    ensures |FirstPicks(verdicts, items + {item})| == |FirstPicks(verdicts, items)| + Bit(verdicts[item])
  {
    var before := FirstPicks(verdicts, items);
    assert FirstPicks(verdicts, items + {item}) == if verdicts[item] then before + {item} else before;
  }

  ghost function Stuck(original: Verdicts, swapped: Verdicts, items: set<string>): set<string>
    requires items <= original.Keys && items <= swapped.Keys
  {
    set k | k in items && original[k] == swapped[k]
  }

  lemma StuckStep(original: Verdicts, swapped: Verdicts, items: set<string>, item: string)
    requires items <= original.Keys && items <= swapped.Keys && item in original && item in swapped && item !in items
    ensures Stuck(original, swapped, items + {item})
            == if original[item] == swapped[item] then Stuck(original, swapped, items) + {item} else Stuck(original, swapped, items)
  {
  }

  /** Every consistent item gives the first slot one of its two picks; a stuck one gives it both or none. */
  lemma PicksAgainstStuck(original: Verdicts, swapped: Verdicts)
    requires original.Keys == swapped.Keys
    ensures var picks := |FirstPicks(original, original.Keys)| + |FirstPicks(swapped, swapped.Keys)|;
            var stuck := Stuck(original, swapped, original.Keys);
            && |original| - |stuck| <= picks <= |original| + |stuck|
            && ((forall k :: k in stuck ==> original[k]) ==> picks - |original| == |stuck|)
  {
    var a, b := FirstPicks(original, original.Keys), FirstPicks(swapped, swapped.Keys);
    var both, neither := a * b, original.Keys - (a + b);
    var stuck := Stuck(original, swapped, original.Keys);
    assert |a| + |b| == |a + b| + |both|;
    assert original.Keys == (a + b) + neither;
    assert |original.Keys| == |a + b| + |neither|;
    assert stuck == both + neither;
    assert |stuck| == |both| + |neither|;
    if forall k :: k in stuck ==> original[k] {
      assert neither == {};
    }
  }

  method TallyPositions(original: Verdicts, swapped: Verdicts) returns (inconsistent: set<string>, firstPicks: nat)
    requires original.Keys == swapped.Keys
    ensures inconsistent == Stuck(original, swapped, original.Keys)
    ensures firstPicks == |FirstPicks(original, original.Keys)| + |FirstPicks(swapped, swapped.Keys)|
  {
    inconsistent, firstPicks := {}, 0;
    var keys := original.Keys;
    var todo := keys;
    while todo != {}
      invariant todo <= keys
      invariant inconsistent == Stuck(original, swapped, keys - todo)
      invariant firstPicks == |FirstPicks(original, keys - todo)| + |FirstPicks(swapped, keys - todo)|
      decreases todo
    {
      var item :| item in todo;
      assert keys - (todo - {item}) == (keys - todo) + {item};
      FirstPicksStep(original, keys - todo, item);
      FirstPicksStep(swapped, keys - todo, item);
      StuckStep(original, swapped, keys - todo, item);
      if original[item] == swapped[item] {
        inconsistent := inconsistent + {item};
      }
      firstPicks := firstPicks + Bit(original[item]) + Bit(swapped[item]);
      todo := todo - {item};
    }
    assert keys - todo == keys == original.Keys;
  }

  /** Both presentations of every item; an item is order-invariant when its "chose
      first" flag flips. */
  method MeasurePositionBias(original: Verdicts, swapped: Verdicts) returns (r: PositionBias)
    ensures r.items == |original.Keys * swapped.Keys|
    ensures r.agreement.None? <==> original.Keys == {} || original.Keys != swapped.Keys
    ensures r.firstPositionRate.None? <==> r.agreement.None?
    ensures r.agreement.Some? ==>
              && r.inconsistent == (set k | k in original && original[k] == swapped[k])
              && r.agreement.value == (|original| - |r.inconsistent|) as real / |original| as real
    ensures r.agreement.Some? ==>
              r.firstPositionRate.value
              == (|FirstPicks(original, original.Keys)| + |FirstPicks(swapped, swapped.Keys)|) as real / (2 * |original|) as real
    // The pull towards the first slot is bounded by half the disagreement.
    ensures r.agreement.Some? ==>
              var pull := r.firstPositionRate.value - 0.5;
              -(1.0 - r.agreement.value) / 2.0 <= pull <= (1.0 - r.agreement.value) / 2.0
    // It is attained when every inconsistent item leans the same way.
    ensures r.agreement.Some? && (forall k :: k in r.inconsistent ==> original[k]) ==>
              r.firstPositionRate.value - 0.5 == (1.0 - r.agreement.value) / 2.0
  {
    var keys := original.Keys * swapped.Keys;
    if keys == {} || original.Keys != swapped.Keys {
      return PositionBias(|keys|, None, None, {});
    }
    var inconsistent, firstPicks := TallyPositions(original, swapped);
    assert inconsistent <= keys;
    assert keys == original.Keys;
    SubsetSize(inconsistent, keys);
    PicksAgainstStuck(original, swapped);
    BiasBound(|keys|, |inconsistent|, firstPicks);
    return PositionBias(
      |keys|, Some((|keys| - |inconsistent|) as real / |keys| as real),
      Some(firstPicks as real / (2 * |keys|) as real), inconsistent);
  }

  lemma BiasBound(n: nat, bad: nat, picks: nat)
    requires 0 < n && bad <= n && n - bad <= picks <= n + bad
    ensures var agreement, rate := (n - bad) as real / n as real, picks as real / (2 * n) as real;
            && -(1.0 - agreement) / 2.0 <= rate - 0.5 <= (1.0 - agreement) / 2.0
            && (picks - n == bad ==> rate - 0.5 == (1.0 - agreement) / 2.0)
  {
    var w := (2 * n) as real;
    var agreement, rate := (n - bad) as real / n as real, picks as real / w;
    assert agreement * n as real == (n - bad) as real;
    assert rate * w == picks as real;
    var slack := (1.0 - agreement) / 2.0;
    assert slack * w == bad as real;
    assert (rate - 0.5) * w == (picks - n) as real;
    SignTimes(slack - (rate - 0.5), w);
    SignTimes(slack + (rate - 0.5), w);
  }

  // ----- test-retest

  datatype Retest = Retest(items: nat, consistency: Option<real>, meanMajority: Option<real>, flipped: set<string>)

  lemma {:induction false} TruesExtremes(trials: seq<bool>)
    ensures Trues(trials) <= |trials|
    ensures Trues(trials) == 0 <==> true !in trials
    ensures Trues(trials) == |trials| <==> false !in trials
  {
    if trials != [] {
      var init, last := trials[..|trials| - 1], trials[|trials| - 1];
      TruesExtremes(init);
      assert forall t :: t in trials <==> t in init || t == last;
    }
  }

  function MajorityFraction(trials: seq<bool>): real
    requires trials != []
  {
    var trues := Trues(trials);
    (if trues > |trials| - trues then trues else |trials| - trues) as real / |trials| as real
  }

  ghost predicate Flips(trials: seq<bool>) {
    true in trials && false in trials
  }

  /** A unanimous item scores 1, any other at least one half and less than 1. */
  lemma MajorityFractionRange(trials: seq<bool>)
    requires trials != []
    ensures 0.5 <= MajorityFraction(trials) <= 1.0
    ensures MajorityFraction(trials) == 1.0 <==> !Flips(trials)
    ensures Flips(trials) <==> Trues(trials) != 0 && Trues(trials) != |trials|
  {
    TruesExtremes(trials);
    assert trials[0] in trials;
    var trues := Trues(trials);
    HalfToOne(if trues > |trials| - trues then trues else |trials| - trues, |trials|);
  }

  lemma HalfToOne(major: nat, n: nat)
    requires 0 < n && n <= 2 * major && major <= n
    ensures 0.5 <= major as real / n as real <= 1.0
    ensures major as real / n as real == 1.0 <==> major == n
  {
    var w := n as real;
    var f := major as real / w;
    assert f * w == major as real;
    assert (f - 0.5) * w == f * w - 0.5 * w;
    assert (1.0 - f) * w == w - f * w;
    SignTimes(f - 0.5, w);
    SignTimes(1.0 - f, w);
  }

  /** The sum of the majority fractions of a set of items, in no particular order. */
  ghost function MajoritySum(repeated: map<string, seq<bool>>, items: set<string>): real
    requires items <= repeated.Keys && forall k :: k in items ==> repeated[k] != []
  {
    if items == {} then 0.0
    else
      var k :| k in items;
      MajorityFraction(repeated[k]) + MajoritySum(repeated, items - {k})
  }

  lemma {:induction false} MajoritySumAdd(repeated: map<string, seq<bool>>, items: set<string>, item: string)
    requires items <= repeated.Keys && forall k :: k in items ==> repeated[k] != []
    requires item in items
    ensures MajoritySum(repeated, items) == MajorityFraction(repeated[item]) + MajoritySum(repeated, items - {item})
    decreases items
  {
    var k :| k in items && MajoritySum(repeated, items) == MajorityFraction(repeated[k]) + MajoritySum(repeated, items - {k});
    if k != item {
      MajoritySumAdd(repeated, items - {k}, item);
      MajoritySumAdd(repeated, items - {item}, k);
      assert items - {k} - {item} == items - {item} - {k};
    }
  }

  ghost function Flipped(repeated: map<string, seq<bool>>, items: set<string>): set<string>
    requires items <= repeated.Keys
  {
    set k | k in items && Flips(repeated[k])
  }

  /** One more item: what it adds to the sum, to the flipped set and to the bounds. */
  lemma TrialStep(repeated: map<string, seq<bool>>, items: set<string>, item: string)
    requires items <= repeated.Keys && (forall k :: k in items ==> repeated[k] != [])
    requires item in repeated && item !in items && repeated[item] != []
    ensures MajoritySum(repeated, items + {item}) == MajoritySum(repeated, items) + MajorityFraction(repeated[item])
    ensures Flipped(repeated, items + {item})
            == if Flips(repeated[item]) then Flipped(repeated, items) + {item} else Flipped(repeated, items)
  {
    MajoritySumAdd(repeated, items + {item}, item);
    assert items + {item} - {item} == items;
  }

  /** Flipped items lose at least nothing and at most one half each, and something each. */
  lemma {:induction false} MajoritySumBounds(repeated: map<string, seq<bool>>, items: set<string>)
    requires items <= repeated.Keys && forall k :: k in items ==> repeated[k] != []
    ensures var flipped := Flipped(repeated, items);
            && |items| as real - 0.5 * |flipped| as real <= MajoritySum(repeated, items) <= |items| as real
            && (flipped != {} ==> MajoritySum(repeated, items) < |items| as real)
    decreases items
  {
    if items != {} {
      var item :| item in items;
      var rest := items - {item};
      MajoritySumBounds(repeated, rest);
      TrialStep(repeated, rest, item);
      MajorityFractionRange(repeated[item]);
      assert rest + {item} == items && |items| == |rest| + 1;
    }
  }

  method TallyTrials(repeated: map<string, seq<bool>>, eligible: set<string>) returns (flipped: set<string>, fractions: real)
    requires eligible <= repeated.Keys && forall k :: k in eligible ==> repeated[k] != []
    ensures flipped == Flipped(repeated, eligible)
    ensures fractions == MajoritySum(repeated, eligible)
  {
    flipped, fractions := {}, 0.0;
    var todo := eligible;
    while todo != {}
      invariant todo <= eligible
      invariant flipped == Flipped(repeated, eligible - todo)
      invariant fractions == MajoritySum(repeated, eligible - todo)
      decreases todo
    {
      var item :| item in todo;
      assert eligible - (todo - {item}) == (eligible - todo) + {item};
      TrialStep(repeated, eligible - todo, item);
      var trials := repeated[item];
      MajorityFractionRange(trials);
      fractions := fractions + MajorityFraction(trials);
      if Trues(trials) != 0 && Trues(trials) != |trials| {
        flipped := flipped + {item};
      }
      todo := todo - {item};
    }
    assert eligible - todo == eligible;
  }

  /** Self-consistency over the items with at least two trials. */
  method TestRetest(repeated: map<string, seq<bool>>) returns (r: Retest)
    ensures r.items == |set k | k in repeated && |repeated[k]| >= 2|
    ensures r.consistency.None? <==> r.items == 0
    ensures r.meanMajority.None? <==> r.items == 0
    ensures r.flipped == set k | k in repeated && |repeated[k]| >= 2 && Flips(repeated[k])
    ensures r.items > 0 ==> r.consistency.value == (r.items - |r.flipped|) as real / r.items as real
    ensures r.items > 0 ==>
              var eligible := set k | k in repeated && |repeated[k]| >= 2;
              r.meanMajority.value == MajoritySum(repeated, eligible) / r.items as real
    // The mean majority share is at least halfway from the consistency to 1 ...
    ensures r.items > 0 ==> (1.0 + r.consistency.value) / 2.0 <= r.meanMajority.value <= 1.0
    // ... and the two figures reach 1 together.
    ensures r.items > 0 ==> (r.consistency.value == 1.0 <==> r.meanMajority.value == 1.0)
  {
    var eligible := set k | k in repeated && |repeated[k]| >= 2;
    var n := |eligible|;
    if n == 0 {
      return Retest(0, None, None, {});
    }
    var flipped, fractions := TallyTrials(repeated, eligible);
    SubsetSize(flipped, eligible);
    MajoritySumBounds(repeated, eligible);
    RetestBound(n, |flipped|, fractions);
    return Retest(n, Some((n - |flipped|) as real / n as real), Some(fractions / n as real), flipped);
  }

  lemma RetestBound(n: nat, flipped: nat, total: real)
    requires 0 < n && flipped <= n
    requires n as real - 0.5 * flipped as real <= total <= n as real
    requires flipped > 0 ==> total < n as real
    ensures var consistency, mean := (n - flipped) as real / n as real, total / n as real;
            && (1.0 + consistency) / 2.0 <= mean <= 1.0
            && (consistency == 1.0 <==> mean == 1.0)
  {
    var w := n as real;
    var consistency, mean := (n - flipped) as real / w, total / w;
    assert consistency * w == w - flipped as real && mean * w == total;
    assert (mean - (1.0 + consistency) / 2.0) * w == total - w + 0.5 * flipped as real;
    assert (1.0 - mean) * w == w - total;
    assert (1.0 - consistency) * w == flipped as real;
    SignTimes(mean - (1.0 + consistency) / 2.0, w);
    SignTimes(1.0 - mean, w);
    SignTimes(1.0 - consistency, w);
  }
}
