/** Trimming a text, whatever counts as blank. */
module Texts {

  function TrimStart(text: string, blank: char -> bool): string
    decreases |text|
  {
    if text != [] && blank(text[0]) then TrimStart(text[1..], blank) else text
  }

  function TrimEnd(text: string, blank: char -> bool): string
    decreases |text|
  {
    if text != [] && blank(text[|text| - 1]) then TrimEnd(text[..|text| - 1], blank) else text
  }

  function Trimmed(text: string, blank: char -> bool): string {
    TrimEnd(TrimStart(text, blank), blank)
  }

  ghost predicate Blank(text: string, blank: char -> bool) {
    forall i :: 0 <= i < |text| ==> blank(text[i])
  }

  /** The text is `core`, which neither starts nor ends with a blank, between blanks. */
  ghost predicate HasCore(text: string, pre: string, core: string, post: string, blank: char -> bool) {
    && text == pre + core + post && Blank(pre, blank) && Blank(post, blank)
    && (core != [] ==> !blank(core[0]) && !blank(core[|core| - 1]))
  }

  lemma {:induction false} TrimStartSkips(pre: string, rest: string, blank: char -> bool)
    requires Blank(pre, blank) && (rest != [] ==> !blank(rest[0]))
    ensures TrimStart(pre + rest, blank) == rest
    decreases |pre|
  {
    if pre == [] {
      assert pre + rest == rest;
    } else {
      assert (pre + rest)[1..] == pre[1..] + rest;
      TrimStartSkips(pre[1..], rest, blank);
    }
  }

  lemma {:induction false} TrimEndSkips(rest: string, post: string, blank: char -> bool)
    requires Blank(post, blank) && (rest != [] ==> !blank(rest[|rest| - 1]))
    ensures TrimEnd(rest + post, blank) == rest
    decreases |post|
  {
    if post == [] {
      assert rest + post == rest;
    } else {
      assert (rest + post)[..|rest + post| - 1] == rest + post[..|post| - 1];
      TrimEndSkips(rest, post[..|post| - 1], blank);
    }
  }

  /** Trimming finds the core, and nothing else is the core. */
  lemma TrimIsCore(text: string, pre: string, core: string, post: string, blank: char -> bool)
    requires HasCore(text, pre, core, post, blank)
    ensures Trimmed(text, blank) == core
  {
    if core == [] {
      assert text == (pre + post) + [];
      TrimStartSkips(pre + post, [], blank);
    } else {
      assert text == pre + (core + post);
      TrimStartSkips(pre, core + post, blank);
      TrimEndSkips(core, post, blank);
    }
  }

  lemma {:induction false} BlankStart(text: string, blank: char -> bool) returns (pre: string)
    ensures text == pre + TrimStart(text, blank) && Blank(pre, blank)
    ensures TrimStart(text, blank) != [] ==> !blank(TrimStart(text, blank)[0])
    decreases |text|
  {
    if text != [] && blank(text[0]) {
      pre := BlankStart(text[1..], blank);
      pre := [text[0]] + pre;
    } else {
      pre := [];
    }
  }

  lemma {:induction false} BlankEnd(text: string, blank: char -> bool) returns (post: string)
    ensures text == TrimEnd(text, blank) + post && Blank(post, blank)
    ensures TrimEnd(text, blank) != [] ==> !blank(TrimEnd(text, blank)[|TrimEnd(text, blank)| - 1])
    decreases |text|
  {
    if text != [] && blank(text[|text| - 1]) {
      post := BlankEnd(text[..|text| - 1], blank);
      post := post + [text[|text| - 1]];
    } else {
      post := [];
    }
  }

  /** Every text has a core. */
  lemma EveryTextHasACore(text: string, blank: char -> bool) returns (pre: string, post: string)
    ensures HasCore(text, pre, Trimmed(text, blank), post, blank)
  {
    pre := BlankStart(text, blank);
    post := BlankEnd(TrimStart(text, blank), blank);
    if Trimmed(text, blank) != [] {
      assert Trimmed(text, blank)[0] == TrimStart(text, blank)[0];
    }
  }
}
