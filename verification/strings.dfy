/**
 * The two functions of Go's `strings` package that the server's value
 * sanitisation relies on: `strings.Contains` and `strings.Trim`.
 */
module Strings {

  /** Every character of `s` is one of the characters of `cutset`. */
  ghost predicate AllIn(s: string, cutset: string) {
    forall i :: 0 <= i < |s| ==> s[i] in cutset
  }

  /**
   * `r` sits in `s` at offset `lead`, and everything around it in `s`
   * is made of characters of `cutset`.
   */
  ghost predicate Framed(s: string, r: string, lead: nat, cutset: string) {
    && lead + |r| <= |s|
    && s[lead..lead + |r|] == r
    && AllIn(s[..lead], cutset)
    && AllIn(s[lead + |r|..], cutset)
  }

  /** `strings.Contains(s, substr)`: `substr` occurs somewhere in `s`. */
  function Contains(s: string, substr: string): (found: bool)
    ensures substr == [] ==> found
    ensures found ==> |substr| <= |s|
    decreases |s|
  {
    (|substr| <= |s| && s[..|substr|] == substr) || (|s| > 0 && Contains(s[1..], substr))
  }

  /** Searching for a one-character string is searching for the character. */
  lemma {:induction false} ContainsChar(s: string, c: char)
    ensures Contains(s, [c]) <==> c in s
    decreases |s|
  {
    if |s| > 0 {
      ContainsChar(s[1..], c);
      assert s == [s[0]] + s[1..];
    }
  }

  /** `strings.TrimLeft(s, cutset)`: drops the longest prefix made of `cutset` characters. */
  function TrimLeft(s: string, cutset: string): (r: string)
    ensures |r| <= |s| && r == s[|s| - |r|..]
    ensures r == [] || r[0] !in cutset
    decreases |s|
  {
    if |s| > 0 && s[0] in cutset then TrimLeft(s[1..], cutset) else s
  }

  /** What `TrimLeft` drops is made of `cutset` characters only. */
  lemma {:induction false} TrimLeftDrops(s: string, cutset: string)
    ensures AllIn(s[..|s| - |TrimLeft(s, cutset)|], cutset)
    decreases |s|
  {
    if |s| > 0 && s[0] in cutset {
      var r := TrimLeft(s[1..], cutset);
      TrimLeftDrops(s[1..], cutset);
      assert forall i :: 1 <= i < |s| - |r| ==> s[i] == s[1..][..|s| - 1 - |r|][i - 1];
    }
  }

  /** `strings.TrimRight(s, cutset)`: drops the longest suffix made of `cutset` characters. */
  function TrimRight(s: string, cutset: string): (r: string)
    ensures |r| <= |s| && r == s[..|r|]
    ensures r == [] || r[|r| - 1] !in cutset
    decreases |s|
  {
    if |s| > 0 && s[|s| - 1] in cutset then TrimRight(s[..|s| - 1], cutset) else s
  }

  /** What `TrimRight` drops is made of `cutset` characters only. */
  lemma {:induction false} TrimRightDrops(s: string, cutset: string)
    ensures AllIn(s[|TrimRight(s, cutset)|..], cutset)
    decreases |s|
  {
    if |s| > 0 && s[|s| - 1] in cutset {
      var r := TrimRight(s[..|s| - 1], cutset);
      TrimRightDrops(s[..|s| - 1], cutset);
      assert forall i :: |r| <= i < |s| - 1 ==> s[i] == s[..|s| - 1][|r|..][i - |r|];
    }
  }

  /**
   * `strings.Trim(s, cutset)`: the part of `s` left once every leading and
   * every trailing character of `cutset` is removed. The result neither
   * starts nor ends with a `cutset` character.
   */
  function Trim(s: string, cutset: string): (r: string)
    ensures |r| <= |s|
    ensures r == [] || (r[0] !in cutset && r[|r| - 1] !in cutset)
  {
    TrimRight(TrimLeft(s, cutset), cutset)
  }

  /** A prefix `r` of a suffix `left` of `s`, with only `cutset` characters cut either side. */
  lemma FramedBetween(s: string, left: string, r: string, cutset: string)
    requires |left| <= |s| && left == s[|s| - |left|..] && AllIn(s[..|s| - |left|], cutset)
    requires |r| <= |left| && r == left[..|r|] && AllIn(left[|r|..], cutset)
    ensures Framed(s, r, |s| - |left|, cutset)
  {
    var lead := |s| - |left|;
    assert s[lead..lead + |r|] == r;
    assert s[lead + |r|..] == left[|r|..];
  }

  /**
   * `Trim` only takes `cutset` characters off either end of `s`: its result
   * sits in `s` right after the characters `TrimLeft` drops.
   */
  lemma TrimFramed(s: string, cutset: string)
    ensures Framed(s, Trim(s, cutset), |s| - |TrimLeft(s, cutset)|, cutset)
  {
    var left := TrimLeft(s, cutset);
    TrimLeftDrops(s, cutset);
    TrimRightDrops(left, cutset);
    FramedBetween(s, left, TrimRight(left, cutset), cutset);
  }

  /** Every character of `s` around a framed `r` is a `cutset` character. */
  lemma FramedOutside(s: string, r: string, lead: nat, cutset: string, i: int)
    requires Framed(s, r, lead, cutset)
    requires 0 <= i < |s| && !(lead <= i < lead + |r|)
    ensures s[i] in cutset
  {
    if i < lead {
      assert s[..lead][i] == s[i];
    } else {
      assert s[lead + |r|..][i - lead - |r|] == s[i];
    }
  }

  /** Framing with `cutset` characters neither hides nor adds any other character. */
  lemma FramedKeeps(s: string, r: string, lead: nat, cutset: string, x: char)
    requires Framed(s, r, lead, cutset) && x !in cutset
    ensures x in r <==> x in s
  {
    if x in s {
      var i :| 0 <= i < |s| && s[i] == x;
      if lead <= i < lead + |r| {
        assert r[i - lead] == x;
      } else {
        FramedOutside(s, r, lead, cutset, i);
      }
    }
    if x in r {
      var j :| 0 <= j < |r| && r[j] == x;
      assert s[lead + j] == x;
    }
  }

  /** Trimming never removes or adds a character outside `cutset`. */
  lemma TrimKeeps(s: string, cutset: string, x: char)
    requires x !in cutset
    ensures x in Trim(s, cutset) <==> x in s
  {
    TrimFramed(s, cutset);
    FramedKeeps(s, Trim(s, cutset), |s| - |TrimLeft(s, cutset)|, cutset, x);
  }

  /** Trimming twice is trimming once. */
  lemma TrimIdempotent(s: string, cutset: string)
    ensures Trim(Trim(s, cutset), cutset) == Trim(s, cutset)
  {
  }
}
