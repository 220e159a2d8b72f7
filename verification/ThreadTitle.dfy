/** The title of a thread, from its first message (agent_ui_adapter/server.py, `derive_thread_title`). */
module ThreadTitle {
  import opened Text
  import opened Wrappers

  const DEFAULT_TITLE := "New chat"
  const TITLE_MAX_LEN: nat := 60
  const ELLIPSIS := '\U{2026}'

  /** Runs of whitespace become one blank; one may be left at the end. */
  function Collapsing(s: string): string {
    if s == "" then ""
    else
      var c, last := Collapsing(s[..|s| - 1]), s[|s| - 1];
      if !IsSpace(last) then c + [last]
      else if c == "" || c[|c| - 1] == ' ' then c
      else c + " "
  }

  /** The words of a text, joined by single blanks. */
  function Collapse(s: string): string {
    var c := Collapsing(s);
    if c != "" && c[|c| - 1] == ' ' then c[..|c| - 1] else c
  }

  function LastIndexOf(s: string, c: char): nat
    requires c in s
    ensures LastIndexOf(s, c) < |s| && s[LastIndexOf(s, c)] == c
  {
    if s[|s| - 1] == c then |s| - 1 else LastIndexOf(s[..|s| - 1], c)
  }

  /** What is kept of a long text: up to a word boundary, and an ellipsis. */
  function Cut(s: string): string
    requires |s| >= TITLE_MAX_LEN
  {
    var head := s[..TITLE_MAX_LEN - 1];
    RStrip(if ' ' in head then head[..LastIndexOf(head, ' ')] else head) + [ELLIPSIS]
  }

  function DeriveTitle(firstMessage: Option<string>): string {
    if firstMessage.None? || Collapse(firstMessage.value) == "" then DEFAULT_TITLE
    else
      var collapsed := Collapse(firstMessage.value);
      if |collapsed| <= TITLE_MAX_LEN then collapsed else Cut(collapsed)
  }

  /** No whitespace but single blanks, and none in front. */
  predicate IsLoose(s: string) {
    && (s != "" ==> !IsSpace(s[0]))
    && (forall i :: 0 <= i < |s| && IsSpace(s[i]) ==> s[i] == ' ')
    && (forall i :: 0 < i < |s| && s[i] == ' ' ==> s[i - 1] != ' ')
  }

  predicate IsTidy(s: string) { IsLoose(s) && (s != "" ==> s[|s| - 1] != ' ') }

  lemma {:induction false} CollapsingIsLoose(s: string)
    ensures IsLoose(Collapsing(s))
  {
    if s != "" {
      CollapsingIsLoose(s[..|s| - 1]);
    }
  }

  lemma CollapseIsTidy(s: string)
    ensures IsTidy(Collapse(s))
  {
    CollapsingIsLoose(s);
  }

  lemma {:induction false} LooseStays(s: string)
    requires IsLoose(s)
    ensures Collapsing(s) == s
  {
    if s != "" {
      LooseStays(s[..|s| - 1]);
    }
  }

  lemma {:induction false} RStripOfLoose(s: string)
    requires IsLoose(s)
    ensures IsTidy(RStrip(s)) && |RStrip(s)| <= |s| && (s != "" ==> RStrip(s) != "")
  {
    if s != "" && IsSpace(s[|s| - 1]) {
      RStripOfLoose(s[..|s| - 1]);
    }
  }

  lemma CutIsTidy(s: string)
    requires IsTidy(s) && |s| > TITLE_MAX_LEN
    ensures IsTidy(Cut(s)) && 0 < |Cut(s)| <= TITLE_MAX_LEN
  {
    var head := s[..TITLE_MAX_LEN - 1];
    var kept := if ' ' in head then head[..LastIndexOf(head, ' ')] else head;
    assert IsLoose(kept);
    RStripOfLoose(kept);
  }

  /** A title is short, not empty and tidy, whatever the message. */
  lemma TitleIsTidy(firstMessage: Option<string>)
    ensures var t := DeriveTitle(firstMessage); 0 < |t| <= TITLE_MAX_LEN && IsTidy(t)
  {
    if firstMessage.Some? {
      CollapseIsTidy(firstMessage.value);
      if |Collapse(firstMessage.value)| > TITLE_MAX_LEN {
        CutIsTidy(Collapse(firstMessage.value));
      }
    }
  }

  /** A title taken for a first message is its own title. */
  lemma TitleIsItsOwn(firstMessage: Option<string>)
    ensures DeriveTitle(Some(DeriveTitle(firstMessage))) == DeriveTitle(firstMessage)
  {
    TitleIsTidy(firstMessage);
    LooseStays(DeriveTitle(firstMessage));
  }
}
