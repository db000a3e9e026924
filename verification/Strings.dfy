/** Trimming of white space, as the scanners use it. */
module Strings {

  const VERTICAL_TAB: char := '\U{000B}'
  const FORM_FEED: char := '\U{000C}'

  predicate Space(c: char) {
    c == ' ' || c == '\t' || c == '\r' || c == '\n' || c == VERTICAL_TAB || c == FORM_FEED
  }

  predicate Spaces(s: string) { forall i :: 0 <= i < |s| ==> Space(s[i]) }

  predicate NoSpace(s: string) { forall i :: 0 <= i < |s| ==> !Space(s[i]) }

  function TrimLeft(s: string): string {
    if s != "" && Space(s[0]) then TrimLeft(s[1..]) else s
  }

  function TrimRight(s: string): string {
    if s != "" && Space(s[|s| - 1]) then TrimRight(s[..|s| - 1]) else s
  }

  function Trim(s: string): string { TrimRight(TrimLeft(s)) }

  predicate Tight(s: string) { s != "" && !Space(s[0]) && !Space(s[|s| - 1]) }

  lemma {:induction false} TrimLeftPad(pre: string, s: string)
    requires Spaces(pre) && (s == "" || !Space(s[0]))
    ensures TrimLeft(pre + s) == s
  {
    if pre == "" {
      assert pre + s == s;
    } else {
      TrimLeftPad(pre[1..], s);
      assert (pre + s)[1..] == pre[1..] + s;
    }
  }

  lemma {:induction false} TrimRightPad(s: string, post: string)
    requires Spaces(post) && (s == "" || !Space(s[|s| - 1]))
    ensures TrimRight(s + post) == s
    decreases |post|
  {
    if post == "" {
      assert s + post == s;
    } else {
      TrimRightPad(s, post[..|post| - 1]);
      assert (s + post)[..|s + post| - 1] == s + post[..|post| - 1];
    }
  }

  lemma TrimPads(pre: string, s: string, post: string)
    requires Spaces(pre) && Spaces(post) && Tight(s)
    ensures Trim(pre + s + post) == s
  {
    assert pre + s + post == pre + (s + post);
    TrimLeftPad(pre, s + post);
    TrimRightPad(s, post);
  }
}
