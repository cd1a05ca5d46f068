/**
  * The cost estimator and the text checks that precede it in handle_message:
  * `estimate_tokens` (main.py:168-176), the prompt built from a message's text
  * and caption (main.py:326) and Python's `not text.strip()` (main.py:327, main.py:384).
  */
module Estimate {
  import opened Config

  /**
    * Python's `str.isspace` for one character: the ASCII controls tab to carriage
    * return, the four information separators, the space, NEL, NBSP and the Unicode
    * space separators, line and paragraph separators. Among ASCII characters these
    * are exactly the ten listed in the first ensures.
    */
  predicate IsSpace(c: char)
    ensures c < '\U{80}' ==> (IsSpace(c) <==> c in "\t\n\U{B}\U{C}\r\U{1C}\U{1D}\U{1E}\U{1F} ")
    ensures '0' <= c <= '9' || 'A' <= c <= 'Z' || 'a' <= c <= 'z' ==> !IsSpace(c)
  {
    || '\t' <= c <= '\r'
    || '\U{1C}' <= c <= ' '
    || c == '\U{85}' || c == '\U{A0}' || c == '\U{1680}'
    || '\U{2000}' <= c <= '\U{200A}'
    || c == '\U{2028}' || c == '\U{2029}' || c == '\U{202F}' || c == '\U{205F}' || c == '\U{3000}'
  }

  /** Python's `s.strip()`: the text without leading and trailing whitespace. */
  function Strip(s: string): (r: string)
    ensures |r| <= |s|
    ensures r == [] || (!IsSpace(r[0]) && !IsSpace(r[|r| - 1]))
    decreases |s|
  {
    if s == [] then []
    else if IsSpace(s[0]) then Strip(s[1..])
    else if IsSpace(s[|s| - 1]) then Strip(s[..|s| - 1])
    else s
  }

  /** Nothing but whitespace stands before index i and from index j on. */
  ghost predicate BlankOutside(s: string, i: int, j: int)
  {
    && 0 <= i <= j <= |s|
    && (forall k :: 0 <= k < i ==> IsSpace(s[k]))
    && (forall k :: j <= k < |s| ==> IsSpace(s[k]))
  }

  /** Putting whitespace in front shifts the slice by one. */
  lemma BlankOutsideFront(s: string, i: int, j: int)
    requires s != [] && IsSpace(s[0]) && BlankOutside(s[1..], i, j)
    ensures BlankOutside(s, i + 1, j + 1) && s[1..][i..j] == s[i + 1..j + 1]
  {
    assert forall k :: 0 < k < |s| ==> s[k] == s[1..][k - 1];
  }

  /** Putting whitespace at the back keeps the slice. */
  lemma BlankOutsideBack(s: string, i: int, j: int)
    requires s != [] && IsSpace(s[|s| - 1]) && BlankOutside(s[..|s| - 1], i, j)
    ensures BlankOutside(s, i, j) && s[..|s| - 1][i..j] == s[i..j]
  {
    assert forall k :: 0 <= k < |s| - 1 ==> s[k] == s[..|s| - 1][k];
  }

  /**
    * `strip` removes only whitespace, and only at the ends: its result is a slice
    * `s[i..j]` with nothing but whitespace before i and from j on.
    */
  lemma {:induction false} StripIsInfix(s: string)
    ensures exists i, j :: BlankOutside(s, i, j) && Strip(s) == s[i..j]
    decreases |s|
  {
    if s == [] {
      assert BlankOutside(s, 0, 0) && Strip(s) == s[0..0];
    } else if IsSpace(s[0]) {
      StripIsInfix(s[1..]);
      var i, j :| BlankOutside(s[1..], i, j) && Strip(s[1..]) == s[1..][i..j];
      BlankOutsideFront(s, i, j);
      assert BlankOutside(s, i + 1, j + 1) && Strip(s) == s[i + 1..j + 1];
    } else if IsSpace(s[|s| - 1]) {
      StripIsInfix(s[..|s| - 1]);
      var i, j :| BlankOutside(s[..|s| - 1], i, j) && Strip(s[..|s| - 1]) == s[..|s| - 1][i..j];
      BlankOutsideBack(s, i, j);
      assert BlankOutside(s, i, j) && Strip(s) == s[i..j];
    } else {
      assert BlankOutside(s, 0, |s|) && Strip(s) == s[0..|s|];
    }
  }

  /** `not s.strip()` is exactly "every character is whitespace". */
  lemma {:induction false} StripEmptyIffAllSpace(s: string)
    ensures Strip(s) == [] <==> forall i :: 0 <= i < |s| ==> IsSpace(s[i])
    decreases |s|
  {
    if s == [] {
    } else if IsSpace(s[0]) {
      var rest := s[1..];
      StripEmptyIffAllSpace(rest);
      assert forall i :: 0 < i < |s| ==> s[i] == rest[i - 1];
    } else {
      if IsSpace(s[|s| - 1]) {
        StripEmptyIffAllSpace(s[..|s| - 1]);
        assert !IsSpace(s[..|s| - 1][0]);
      }
    }
  }

  /** `not s.strip()` (main.py:327, main.py:384): true exactly for all-whitespace text. */
  predicate IsBlank(s: string)
    ensures IsBlank(s) <==> forall i :: 0 <= i < |s| ==> IsSpace(s[i])
  {
    StripEmptyIffAllSpace(s);
    Strip(s) == []
  }

  /**
    * The prompt of a message: its text, followed by a newline and the caption when
    * the caption is non-empty. A missing text or caption is the empty string here
    * (Python's `None` and `""` are both falsy at main.py:326).
    */
  function ComposeText(text: string, caption: string): (prompt: string)
    ensures caption == [] ==> prompt == text
    ensures |prompt| == |text| + (if caption == [] then 0 else 1 + |caption|)
    ensures caption != [] ==> prompt[..|text|] == text && prompt[|text|] == '\n' && prompt[|text| + 1..] == caption
  {
    text + (if caption != [] then "\n" + caption else "")
  }

  /**
    * `estimate_tokens`: one token per four characters, rounded down, never below
    * one; the empty text costs one. An approximation, not the backend's own count.
    */
  function EstimateTokens(text: string): (r: nat)
    ensures 1 <= r
    ensures |text| < 8 ==> r == 1
    ensures 8 <= |text| ==> 4 * r <= |text| < 4 * r + 4
  {
    if text == [] then 1
    else Max(1, |text| / 4)
  }

  /** The estimate depends on the length alone and grows with it. */
  lemma EstimateMonotone(a: string, b: string)
    requires |a| <= |b|
    ensures EstimateTokens(a) <= EstimateTokens(b)
    ensures |a| == |b| ==> EstimateTokens(a) == EstimateTokens(b)
  {
  }

  /**
    * Whitespace is counted like any other character: eight or more blanks cost
    * more than the one token of an empty text.
    */
  lemma BlankTextIsNotFree(s: string)
    requires IsBlank(s) && 8 <= |s|
    ensures EstimateTokens(s) >= 2 && EstimateTokens(s) == |s| / 4
  {
  }
}
