/**
  * Delivery of a generated reply (main.py:383-395): a blank reply is replaced by a
  * fixed notice, a reply of at most 4000 characters goes out whole, and a longer
  * one is cut into consecutive slices of 4000 characters, the last one shorter.
  */
module Chunking {
  import opened Config
  import opened Estimate

  /** What the user is told when the model produced only whitespace. */
  const NoTextReply: string := "Model returned no text."

  /** The text the user reads when the messages arrive in order. */
  function Flatten(parts: seq<string>): string
  {
    if parts == [] then [] else parts[0] + Flatten(parts[1..])
  }

  /**
    * `[s[i:i+n] for i in range(0, len(s), n)]`: the slices of `s` that start at
    * 0, n, 2n, ... and are n long, except possibly the last. Every slice is
    * non-empty and at most n characters long.
    */
  function Chunks(s: string, n: nat): (parts: seq<string>)
    requires 0 < n
    ensures forall i :: 0 <= i < |parts| ==> 0 < |parts[i]| <= n
    decreases |s|
  {
    if s == [] then []
    else
      var k := Min(n, |s|);
      [s[..k]] + Chunks(s[k..], n)
  }

  /** Sending the slices in order loses and reorders nothing. */
  lemma {:induction false} ChunksConcat(s: string, n: nat)
    requires 0 < n
    ensures Flatten(Chunks(s, n)) == s
    decreases |s|
  {
    if s != [] {
      var k := Min(n, |s|);
      ChunksConcat(s[k..], n);
      assert Chunks(s, n)[1..] == Chunks(s[k..], n);
      assert s[..k] + s[k..] == s;
    }
  }

  /** The i-th slice is `s[i*n : (i+1)*n]` clipped to the text, as the comprehension writes it. */
  lemma {:induction false} ChunkAt(s: string, n: nat, i: nat)
    requires 0 < n && i < |Chunks(s, n)|
    ensures i * n < |s|
    ensures Chunks(s, n)[i] == s[i * n .. Min((i + 1) * n, |s|)]
    decreases |s|
  {
    if i > 0 {
      assert n <= |s|;
      var rest := s[n..];
      assert Chunks(s, n) == [s[..n]] + Chunks(rest, n);
      ChunkAt(rest, n, i - 1);
      ChunkStep(i, n, |s|);
      var lo, hi := (i - 1) * n, Min(i * n, |rest|);
      assert rest[lo..hi] == s[lo + n..hi + n];
    }
  }

  /** The arithmetic of moving from slice i - 1 of `s[n..]` to slice i of `s`. */
  lemma ChunkStep(i: nat, n: nat, len: nat)
    requires 0 < i && n <= len
    ensures (i - 1) * n + n == i * n
    ensures Min(i * n, len - n) + n == Min((i + 1) * n, len)
  {
    assert (i + 1) * n == i * n + n;
  }

  /** Multiplying by a positive number keeps order. */
  lemma MulMonotone(a: int, b: int, n: int)
    requires a <= b && 0 < n
    ensures a * n <= b * n
  {
    assert b * n - a * n == (b - a) * n;
  }

  /** Integer division is pinned down by its quotient's range. */
  lemma DivideExactly(m: int, n: int, q: int)
    requires 0 < n && q * n <= m < q * n + n
    ensures m / n == q
  {
    var d, r := m / n, m % n;
    assert m == d * n + r && 0 <= r < n;
    if d < q {
      assert (d + 1) * n == d * n + n;
      MulMonotone(d + 1, q, n);
    } else if d > q {
      assert (q + 1) * n == q * n + n;
      MulMonotone(q + 1, d, n);
    }
  }

  /** One more block of n adds one to the rounded-up quotient. */
  lemma CeilStep(m: int, n: int)
    requires 0 < n && 0 <= m
    ensures (m + n + n - 1) / n == (m + n - 1) / n + 1
  {
    var q, r := (m + n - 1) / n, (m + n - 1) % n;
    assert m + n - 1 == q * n + r && 0 <= r < n;
    assert (q + 1) * n == q * n + n;
    DivideExactly(m + n + n - 1, n, q + 1);
  }

  /** There are as many slices as `range(0, len(s), n)` has elements. */
  lemma {:induction false} ChunkCount(s: string, n: nat)
    requires 0 < n
    ensures |Chunks(s, n)| == (|s| + n - 1) / n
    decreases |s|
  {
    if s == [] {
      DivideExactly(n - 1, n, 0);
    } else if |s| <= n {
      assert |Chunks(s, n)| == 1 by { ChunksShort(s, n); }
      DivideExactly(|s| + n - 1, n, 1);
    } else {
      var rest := s[n..];
      assert |Chunks(s, n)| == 1 + |Chunks(rest, n)|;
      ChunkCount(rest, n);
      CeilStep(|rest|, n);
      assert |rest| + n == |s|;
    }
  }

  /** A text that fits in one message is one slice. */
  lemma ChunksShort(s: string, n: nat)
    requires 0 < |s| <= n
    ensures Chunks(s, n) == [s]
  {
    assert s[|s|..] == [] && s[..|s|] == s;
  }

  /**
    * The messages sent for a generated text: the notice for a blank text, the
    * text itself when it fits, otherwise its 4000-character slices.
    */
  function Replies(gen: string): (msgs: seq<string>)
    ensures IsBlank(gen) ==> msgs == [NoTextReply]
    ensures !IsBlank(gen) ==> Flatten(msgs) == gen
    ensures !IsBlank(gen) && |gen| <= MaxMessageLength ==> msgs == [gen]
    ensures forall i :: 0 <= i < |msgs| ==> 0 < |msgs[i]| <= MaxMessageLength
  {
    if IsBlank(gen) then [NoTextReply]
    else if |gen| <= MaxMessageLength then [gen]
    else
      ChunksConcat(gen, MaxMessageLength);
      Chunks(gen, MaxMessageLength)
  }
}
