/** The string operations the program takes from its language, on ASCII whitespace and letters. */
module Text {
  /** Tab to carriage return, the four separators, and the blank. */
  predicate IsSpace(c: char) { 9 <= c as int <= 13 || 28 <= c as int <= 32 }

  function LStrip(s: string): string {
    if s != "" && IsSpace(s[0]) then LStrip(s[1..]) else s
  }

  function RStrip(s: string): string {
    if s != "" && IsSpace(s[|s| - 1]) then RStrip(s[..|s| - 1]) else s
  }

  function Strip(s: string): string { RStrip(LStrip(s)) }

  function Lower(s: string): string {
    seq(|s|, i requires 0 <= i < |s| => if 'A' <= s[i] <= 'Z' then (s[i] as int - 'A' as int + 'a' as int) as char else s[i])
  }

  predicate Contains(s: string, part: string) {
    part <= s || (s != "" && Contains(s[1..], part))
  }

  /** Splitting at a separator character; never empty. */
  function Split(s: string, at: char): (parts: seq<string>)
    ensures parts != []
  {
    if s == "" then [""]
    else if s[0] == at then [""] + Split(s[1..], at)
    else
      var rest := Split(s[1..], at);
      [[s[0]] + rest[0]] + rest[1..]
  }

  /** A text without surrounding whitespace. */
  predicate IsStripped(s: string) {
    s != "" && !IsSpace(s[0]) && !IsSpace(s[|s| - 1])
  }

  /** Padding with single blanks is undone by stripping. */
  lemma StripPadded(s: string)
    requires IsStripped(s)
    ensures Strip(" " + s + " ") == s
  {
    var padded := " " + s + " ";
    assert padded[1..] == s + " ";
    assert LStrip(padded) == LStrip(s + " ") == s + " ";
    assert (s + " ")[..|s + " "| - 1] == s;
    assert RStrip(s + " ") == RStrip(s) == s;
  }

  /** A part without the separator is split off whole. */
  lemma {:induction false} SplitHead(a: string, b: string, at: char)
    requires at !in a
    ensures Split(a + [at] + b, at) == [a] + Split(b, at)
  {
    var s := a + [at] + b;
    if a == "" {
      assert s[1..] == b;
    } else {
      assert s[1..] == a[1..] + [at] + b;
      SplitHead(a[1..], b, at);
      assert s[0] == a[0];
      assert ([a[1..]] + Split(b, at))[1..] == Split(b, at);
      assert [a[0]] + a[1..] == a;
    }
  }

  /** The parts are made of the characters between the separators. */
  lemma {:induction false} SplitChars(s: string, at: char)
    ensures forall k :: 0 <= k < |Split(s, at)| ==> forall c :: c in Split(s, at)[k] ==> c in s && c != at
  {
    if s != "" {
      SplitChars(s[1..], at);
      var rest := Split(s[1..], at);
      var parts := Split(s, at);
      forall k | 0 <= k < |parts|
        ensures forall c :: c in parts[k] ==> c in s && c != at
      {
        if s[0] == at {
          assert k > 0 ==> parts[k] == rest[k - 1];
        } else {
          assert k > 0 ==> parts[k] == rest[k];
        }
      }
    }
  }

  lemma {:induction false} LStripChars(s: string)
    ensures forall c :: c in LStrip(s) ==> c in s
  {
    if s != "" && IsSpace(s[0]) {
      LStripChars(s[1..]);
    }
  }

  lemma {:induction false} RStripChars(s: string)
    ensures forall c :: c in RStrip(s) ==> c in s
  {
    if s != "" && IsSpace(s[|s| - 1]) {
      RStripChars(s[..|s| - 1]);
    }
  }

  lemma StripChars(s: string)
    ensures forall c :: c in Strip(s) ==> c in s
  {
    LStripChars(s);
    RStripChars(LStrip(s));
  }

  /** A number in decimal. */
  function Decimal(n: nat): string {
    (if n < 10 then "" else Decimal(n / 10)) + [('0' as int + n % 10) as char]
  }

  /** A number with two places; a tie goes to the even digit. */
  function TwoPlaces(x: real): string {
    var hundreds := (if x < 0.0 then -x else x) * 100.0;
    var down := hundreds.Floor;
    var rest := hundreds - down as real;
    var n := if rest > 0.5 || (rest == 0.5 && down % 2 == 1) then down + 1 else down;
    (if x < 0.0 then "-" else "") + Decimal(n / 100) + "." + Decimal(n / 10 % 10) + Decimal(n % 10)
  }
}
