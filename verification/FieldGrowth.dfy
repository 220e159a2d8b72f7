/**
 When a telemetry field keeps its limit (middleware/telemetry_bridge.py), told from the matches
 of the scrubbing rules in its text (services/governance/black_box_publisher.py).
 */
module FieldGrowth {
  import opened TelemetryBridge

  /** A rule's search cuts a text into what it keeps and what it matches. */
  datatype Piece = Kept(text: string) | Match(text: string)

  datatype Rule = Rule(find: string -> seq<Piece>, replacement: string)

  function Original(pieces: seq<Piece>): string {
    if pieces == [] then "" else Original(pieces[..|pieces| - 1]) + pieces[|pieces| - 1].text
  }

  function Substituted(pieces: seq<Piece>, replacement: string): string {
    if pieces == [] then ""
    else
      var last := pieces[|pieces| - 1];
      Substituted(pieces[..|pieces| - 1], replacement) + if last.Match? then replacement else last.text
  }

  /** The rules cut a text, whatever it is, without losing any of it. */
  ghost predicate AreSearches(rules: seq<Rule>) {
    forall k, text: string :: 0 <= k < |rules| ==> Original(rules[k].find(text)) == text
  }

  /** One rule after the other, each on what the ones before it left. */
  function Scrubbed(rules: seq<Rule>, text: string): string {
    if rules == [] then text
    else
      var last := rules[|rules| - 1];
      Substituted(last.find(Scrubbed(rules[..|rules| - 1], text)), last.replacement)
  }

  method RedactText(rules: seq<Rule>, text: string, maxLength: nat) returns (scrubbed: string)
    ensures scrubbed == Scrubbed(rules, if |text| > maxLength then text[..maxLength] else text)
  {
    scrubbed := if |text| > maxLength then text[..maxLength] else text;
    ghost var cut := scrubbed;
    for k := 0 to |rules|
      invariant scrubbed == Scrubbed(rules[..k], cut)
    {
      assert rules[..k + 1][..k] == rules[..k];
      scrubbed := Substituted(rules[k].find(scrubbed), rules[k].replacement);
    }
    assert rules[..|rules|] == rules;
  }

  /** How much longer the replacements are than the matches. */
  function Growth(pieces: seq<Piece>, replacement: string): int {
    if pieces == [] then 0
    else
      var last := pieces[|pieces| - 1];
      Growth(pieces[..|pieces| - 1], replacement) + if last.Match? then |replacement| - |last.text| else 0
  }

  function TotalGrowth(rules: seq<Rule>, text: string): int {
    if rules == [] then 0
    else
      var init, last := rules[..|rules| - 1], rules[|rules| - 1];
      TotalGrowth(init, text) + Growth(last.find(Scrubbed(init, text)), last.replacement)
  }

  lemma {:induction false} SubstitutionGrows(pieces: seq<Piece>, replacement: string)
    ensures |Substituted(pieces, replacement)| == |Original(pieces)| + Growth(pieces, replacement)
  {
    if pieces != [] {
      SubstitutionGrows(pieces[..|pieces| - 1], replacement);
    }
  }

  lemma FewerSearches(rules: seq<Rule>)
    requires rules != [] && AreSearches(rules)
    ensures AreSearches(rules[..|rules| - 1])
  {
    var init := rules[..|rules| - 1];
    forall k, text: string | 0 <= k < |init|
      ensures Original(init[k].find(text)) == text
    {
      assert init[k] == rules[k];
    }
  }

  lemma {:induction false} ScrubbingGrows(rules: seq<Rule>, text: string)
    requires AreSearches(rules)
    ensures |Scrubbed(rules, text)| == |text| + TotalGrowth(rules, text)
  {
    if rules != [] {
      var init, last := rules[..|rules| - 1], rules[|rules| - 1];
      FewerSearches(rules);
      ScrubbingGrows(init, text);
      SubstitutionGrows(last.find(Scrubbed(init, text)), last.replacement);
      assert Original(rules[|rules| - 1].find(Scrubbed(init, text))) == Scrubbed(init, text);
    }
  }

  /** Exactly which values keep the limit of their field: those whose matches grow, all in all, by
      no more than the room the value leaves, which for a value that is cut is none. */
  lemma ValueKeepsLimitIff(rules: seq<Rule>, value: string, limit: nat)
    requires AreSearches(rules) && limit >= |TRUNCATION_MARKER|
    ensures |RedactAndTruncate(text => Scrubbed(rules, text), value, limit)| <= limit
            <==> if |value| <= limit then TotalGrowth(rules, value) <= limit - |value|
                 else TotalGrowth(rules, value[..limit - |TRUNCATION_MARKER|]) <= 0
  {
    ScrubbingGrows(rules, value);
    if |value| > limit {
      ScrubbingGrows(rules, value[..limit - |TRUNCATION_MARKER|]);
    }
  }

  /** No match is shorter than what replaces it. */
  ghost predicate MatchesAreLong(rules: seq<Rule>) {
    forall k, text: string, p: Piece :: 0 <= k < |rules| && p in rules[k].find(text) && p.Match? ==> |p.text| >= |rules[k].replacement|
  }

  lemma {:induction false} LongMatchesShrink(pieces: seq<Piece>, replacement: string)
    requires forall p :: p in pieces && p.Match? ==> |p.text| >= |replacement|
    ensures Growth(pieces, replacement) <= 0
  {
    if pieces != [] {
      LongMatchesShrink(pieces[..|pieces| - 1], replacement);
    }
  }

  lemma {:induction false} LongMatchesNeverGrow(rules: seq<Rule>, text: string)
    requires MatchesAreLong(rules)
    ensures TotalGrowth(rules, text) <= 0
  {
    if rules != [] {
      var init, last := rules[..|rules| - 1], rules[|rules| - 1];
      assert forall k :: 0 <= k < |init| ==> init[k] == rules[k];
      LongMatchesNeverGrow(init, text);
      LongMatchesShrink(last.find(Scrubbed(init, text)), last.replacement);
    }
  }

  /** A set of rules with no match shorter than its replacement keeps every limit. */
  lemma LongMatchesKeepLimits(rules: seq<Rule>, value: string, limit: nat)
    requires AreSearches(rules) && MatchesAreLong(rules) && limit >= |TRUNCATION_MARKER|
    ensures |RedactAndTruncate(text => Scrubbed(rules, text), value, limit)| <= limit
  {
    ValueKeepsLimitIff(rules, value, limit);
    LongMatchesNeverGrow(rules, value);
    if |value| > limit {
      LongMatchesNeverGrow(rules, value[..limit - |TRUNCATION_MARKER|]);
    }
  }
}
