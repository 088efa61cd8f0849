// util.go: the byte minimum and maximum of a variadic argument list, and
// string reversal.
module Util {
  import opened Bytes

  /** The smallest of the bytes. Go indexes vars[0] first, so an empty
      argument list panics; callers always pass at least one byte. */
  method MinOf(vars: seq<uint8>) returns (mini: uint8)
    requires |vars| > 0
    ensures mini in vars
    ensures forall i :: 0 <= i < |vars| ==> mini <= vars[i]
  {
    mini := vars[0];
    for k := 0 to |vars|
      invariant mini in vars
      invariant forall i :: 0 <= i < k ==> mini <= vars[i]
    {
      if mini > vars[k] {
        mini := vars[k];
      }
    }
  }

  /** The largest of the bytes; an empty argument list panics as in MinOf. */
  method MaxOf(vars: seq<uint8>) returns (maxi: uint8)
    requires |vars| > 0
    ensures maxi in vars
    ensures forall i :: 0 <= i < |vars| ==> vars[i] <= maxi
  {
    maxi := vars[0];
    for k := 0 to |vars|
      invariant maxi in vars
      invariant forall i :: 0 <= i < k ==> vars[i] <= maxi
    {
      if vars[k] > maxi {
        maxi := vars[k];
      }
    }
  }

  /** MaxOf(0, v) is v for every byte, the form StepTimers uses to keep a
      timer from going below zero. */
  method MaxOfZero(v: uint8) returns (m: uint8)
    ensures m == v
  {
    m := MaxOf([0, v]);
    assert [0, v][1] == v;
  }

  /** Reference definition: the code points of s in the opposite order. */
  function Reversed(s: string): string {
    if s == [] then [] else [s[|s| - 1]] + Reversed(s[..|s| - 1])
  }

  /** Reverse walks the code points front to back and prepends each one to the
      result accumulated so far. */
  method Reverse(s: string) returns (result: string)
    ensures result == Reversed(s)
  {
    result := "";
    for k := 0 to |s|
      invariant result == Reversed(s[..k])
    {
      assert s[..k + 1][..k] == s[..k];
      result := [s[k]] + result;
    }
    assert s[..|s|] == s;
  }

  /** Position k of the reversal holds position |s| - 1 - k of the input. */
  lemma {:induction false} ReversedAt(s: string, k: nat)
    requires k < |s|
    ensures |Reversed(s)| == |s|
    ensures Reversed(s)[k] == s[|s| - 1 - k]
  {
    if k == 0 {
      ReversedLength(s);
    } else {
      ReversedAt(s[..|s| - 1], k - 1);
    }
  }

  lemma {:induction false} ReversedLength(s: string)
    ensures |Reversed(s)| == |s|
  {
    if s != [] {
      ReversedLength(s[..|s| - 1]);
    }
  }

  /** Reversing twice gives back the original code-point sequence. */
  lemma ReversedInvolutive(s: string)
    ensures Reversed(Reversed(s)) == s
  {
    ReversedLength(s);
    ReversedLength(Reversed(s));
    forall k | 0 <= k < |s|
      ensures Reversed(Reversed(s))[k] == s[k]
    {
      ReversedAt(Reversed(s), k);
      ReversedAt(s, |s| - 1 - k);
    }
  }
}
