/** String helpers with the meaning Python gives them: `in`, `str.strip`, `str(int)`. */
module Text {
  import opened Results

  /** `sub` occurs in `s` starting at index `i`. */
  predicate OccursAt(s: string, sub: string, i: int) {
    0 <= i && i + |sub| <= |s| && s[i..i + |sub|] == sub
  }

  /** Python's `sub in s` on strings, computed left to right. */
  predicate Contains(s: string, sub: string)
    decreases |s|
  {
    sub <= s || (|s| > 0 && Contains(s[1..], sub))
  }

  /** `Contains` finds exactly the substrings that occur somewhere in `s`. */
  lemma {:induction false} ContainsIffOccurs(s: string, sub: string)
    ensures Contains(s, sub) <==> exists i :: OccursAt(s, sub, i)
    decreases |s|
  {
    OccursAtStart(s, sub);
    if sub <= s {
      assert OccursAt(s, sub, 0);
    } else if |s| > 0 {
      ContainsIffOccurs(s[1..], sub);
      if Contains(s[1..], sub) {
        var i :| OccursAt(s[1..], sub, i);
        OccursShift(s, sub, i);
        assert OccursAt(s, sub, i + 1);
      } else {
        forall i | OccursAt(s, sub, i) ensures false {
          OccursShift(s, sub, i - 1);
        }
      }
    }
  }

  /** An occurrence at index 0 is a prefix. */
  lemma OccursAtStart(s: string, sub: string)
    ensures OccursAt(s, sub, 0) <==> sub <= s
  {
  }

  /** Dropping the first character moves every later occurrence one place left. */
  lemma OccursShift(s: string, sub: string, i: int)
    requires |s| > 0 && 0 <= i
    ensures OccursAt(s[1..], sub, i) <==> OccursAt(s, sub, i + 1)
  {
    if i + |sub| <= |s| - 1 {
      assert s[1..][i..i + |sub|] == s[i + 1..i + 1 + |sub|];
    }
  }

  /** Python's `s.lstrip(c)` for a single character `c`. */
  function LStrip(s: string, c: char): (r: string)
    ensures |r| <= |s| && r == s[|s| - |r|..]
    ensures forall i :: 0 <= i < |s| - |r| ==> s[i] == c
    ensures r == [] || r[0] != c
  {
    if |s| > 0 && s[0] == c then LStrip(s[1..], c) else s
  }

  /** Python's `s.rstrip(c)` for a single character `c`. */
  function RStrip(s: string, c: char): (r: string)
    ensures |r| <= |s| && r == s[..|r|]
    ensures forall i :: |r| <= i < |s| ==> s[i] == c
    ensures r == [] || r[|r| - 1] != c
  {
    if |s| > 0 && s[|s| - 1] == c then RStrip(s[..|s| - 1], c) else s
  }

  /** `r` is the piece of `s` starting at `lo`, and everything of `s` outside that piece is `c`. */
  predicate StrippedAt(s: string, c: char, r: string, lo: int) {
    && 0 <= lo <= |s| - |r|
    && r == s[lo..lo + |r|]
    && (forall i :: 0 <= i < lo ==> s[i] == c)
    && (forall i :: lo + |r| <= i < |s| ==> s[i] == c)
  }

  /** Python's `s.strip(c)`: every leading and every trailing `c` is removed,
      and what is left is a contiguous piece of `s` that neither begins nor ends with `c`. */
  function Strip(s: string, c: char): (r: string)
    ensures exists lo :: StrippedAt(s, c, r, lo)
    ensures r == [] || (r[0] != c && r[|r| - 1] != c)
  {
    StripWitness(s, c);
    RStrip(LStrip(s, c), c)
  }

  /** Where the stripped piece starts: after the leading run of `c`. */
  lemma StripWitness(s: string, c: char)
    ensures StrippedAt(s, c, RStrip(LStrip(s, c), c), |s| - |LStrip(s, c)|)
  {
    var left := LStrip(s, c);
    var r := RStrip(left, c);
    PieceOf(s, left, r, c);
  }

  /** A prefix `r` of a suffix `left` of `s`, where `s` has only `c` before `left` and `left` has
      only `c` after `r`, is the piece of `s` that `strip` keeps. */
  lemma PieceOf(s: string, left: string, r: string, c: char)
    requires |left| <= |s| && left == s[|s| - |left|..]
    requires forall i :: 0 <= i < |s| - |left| ==> s[i] == c
    requires |r| <= |left| && r == left[..|r|]
    requires forall i :: |r| <= i < |left| ==> left[i] == c
    ensures StrippedAt(s, c, r, |s| - |left|)
  {
    var lo := |s| - |left|;
    forall i | lo + |r| <= i < |s|
      ensures s[i] == c
    {
      assert s[i] == left[i - lo];
    }
  }

  /** Appending `c` to `s` changes `lstrip` only by that character, unless `s` is all `c`. */
  lemma {:induction false} LStripAppend(s: string, c: char)
    ensures LStrip(s + [c], c) == if LStrip(s, c) == [] then [] else LStrip(s, c) + [c]
  {
    if s == [] {
      assert LStrip([c][1..], c) == [];
    } else if s[0] == c {
      assert (s + [c])[1..] == s[1..] + [c];
      LStripAppend(s[1..], c);
    }
  }

  /** One more trailing `c` makes no difference to `strip`. */
  lemma StripIgnoresTrailing(s: string, c: char)
    ensures Strip(s + [c], c) == Strip(s, c)
  {
    LStripAppend(s, c);
    var left := LStrip(s, c);
    if left != [] {
      assert (left + [c])[..|left|] == left;
    }
  }

  /** One more leading `c` makes no difference to `strip`. */
  lemma StripIgnoresLeading(s: string, c: char)
    ensures Strip([c] + s, c) == Strip(s, c)
  {
    assert ([c] + s)[1..] == s;
  }

  /** A string that neither begins nor ends with `c` is left alone by `strip`. */
  lemma StripUnchanged(s: string, c: char)
    requires s == [] || (s[0] != c && s[|s| - 1] != c)
    ensures Strip(s, c) == s
  {
    assert LStrip(s, c) == s;
  }

  /** Stripping twice is stripping once. */
  lemma StripIdempotent(s: string, c: char)
    ensures Strip(Strip(s, c), c) == Strip(s, c)
  {
  }

  /** The decimal digit for `d`. */
  function Digit(d: nat): char
    requires d < 10
  {
    "0123456789"[d]
  }

  predicate IsDigit(ch: char) {
    '0' <= ch <= '9'
  }

  /** Python's `str(n)` for a non-negative integer: its shortest decimal numeral. */
  function NatToDecimal(n: nat): (r: string)
    ensures |r| > 0
    ensures forall i :: 0 <= i < |r| ==> IsDigit(r[i])
    ensures |r| > 1 ==> r[0] != '0'
  {
    if n < 10 then [Digit(n)] else NatToDecimal(n / 10) + [Digit(n % 10)]
  }

  /** Python's `str(i)` for any integer. */
  function IntToDecimal(i: int): (r: string)
    ensures i >= 0 ==> r == NatToDecimal(i)
    ensures i < 0 ==> r == "-" + NatToDecimal(-i)
  {
    if i < 0 then "-" + NatToDecimal(-i) else NatToDecimal(i)
  }

  /** The value of a string of decimal digits (`int(s)` on digit strings); `None` on anything else. */
  function ParseDecimal(s: string): (r: Option<nat>)
    ensures r.Some? <==> |s| > 0 && forall i :: 0 <= i < |s| ==> IsDigit(s[i])
  {
    if |s| == 0 || !IsDigit(s[|s| - 1]) then None
    else if |s| == 1 then Some((s[0] - '0') as nat)
    else match ParseDecimal(s[..|s| - 1])
      case None => None
      case Some(high) => Some(high * 10 + (s[|s| - 1] - '0') as nat)
  }

  /** Reading back the numeral of `n` gives `n`. */
  lemma {:induction false} DecimalRoundTrip(n: nat)
    ensures ParseDecimal(NatToDecimal(n)) == Some(n)
  {
    if n >= 10 {
      var s := NatToDecimal(n);
      DecimalRoundTrip(n / 10);
      assert s[..|s| - 1] == NatToDecimal(n / 10);
    }
  }

  /** Index of the first occurrence of `c` in `s`. */
  function IndexOf(s: string, c: char): (r: Option<nat>)
    ensures r.Some? ==> r.value < |s| && s[r.value] == c && c !in s[..r.value]
    ensures r.None? ==> c !in s
  {
    if |s| == 0 then None
    else if s[0] == c then Some(0)
    else match IndexOf(s[1..], c)
      case None => None
      case Some(j) => Some(j + 1)
  }
}
