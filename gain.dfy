/** The input-range argument of the LCR meter: "lv"/"LV" selects the low-voltage range
    (gain 0) and "hv"/"HV" the high-voltage range (gain 1); `get_gain` stores the number
    through an out-pointer and returns 0, or returns -1 and stores nothing. */
module Gain {
  import opened Numerics

  const LowVoltage: int := 0
  const HighVoltage: int := 1

  /** The character a C string holds at position `i`: past its end it reads the terminating NUL. */
  function CharAt(s: string, i: nat): char
  {
    if i < |s| then s[i] else '\0'
  }

  function Tail(s: string): string
  {
    if s == [] then [] else s[1..]
  }

  /** `strncmp(s, t, k) == 0`: the strings agree on their first `k` characters,
      where comparison stops early at a NUL the two share. */
  predicate StrNEqual(s: string, t: string, k: nat)
    ensures StrNEqual(s, t, k) && k > 0 ==> CharAt(s, 0) == CharAt(t, 0)
    ensures k > 0 && s == [] && t == [] ==> StrNEqual(s, t, k)
    decreases k
  {
    k == 0 ||
    (CharAt(s, 0) == CharAt(t, 0) && (CharAt(s, 0) == '\0' || StrNEqual(Tail(s), Tail(t), k - 1)))
  }

  /** Like `strncmp`'s zero result, the comparison does not depend on argument order. */
  lemma {:induction false} StrNEqualSymmetric(s: string, t: string, k: nat)
    ensures StrNEqual(s, t, k) <==> StrNEqual(t, s, k)
    decreases k
  {
    if k > 0 {
      StrNEqualSymmetric(Tail(s), Tail(t), k - 1);
    }
  }

  predicate StartsWith(s: string, p: string)
  {
    |p| <= |s| && s[..|p|] == p
  }

  predicate NoNul(t: string)
  {
    forall i :: 0 <= i < |t| ==> t[i] != '\0'
  }

  /** Against a literal without NUL, `strncmp(s, lit, |lit|) == 0` is a prefix test;
      in particular a string shorter than the literal never matches. */
  lemma {:induction false} StrNEqualIsPrefix(s: string, lit: string)
    requires NoNul(lit)
    ensures StrNEqual(s, lit, |lit|) <==> StartsWith(s, lit)
    decreases |lit|
  {
    if lit != [] {
      assert CharAt(lit, 0) == lit[0] != '\0';
      assert NoNul(Tail(lit));
      StrNEqualIsPrefix(Tail(s), Tail(lit));
      if s != [] {
        assert s[..|lit|] == [s[0]] + Tail(s)[..|lit| - 1] <== |lit| <= |s|;
      }
    }
  }

  /** The gain `get_gain` stores for `str`, or None when it returns -1. */
  function ParseGain(str: string): (g: Option<int>)
    ensures g.Some? ==> g.value == LowVoltage || g.value == HighVoltage
    ensures g.None? <==> |str| < 2 || str[..2] !in {"lv", "LV", "hv", "HV"}
  {
    if StartsWith(str, "lv") || StartsWith(str, "LV") then Some(LowVoltage)
    else if StartsWith(str, "hv") || StartsWith(str, "HV") then Some(HighVoltage)
    else None
  }

  /** The two spellings that select a gain. */
  function GainName(gain: int, upper: bool): (name: string)
    requires gain == LowVoltage || gain == HighVoltage
    ensures |name| == 2
  {
    if gain == LowVoltage then (if upper then "LV" else "lv")
    else (if upper then "HV" else "hv")
  }

  /** Either spelling of a gain, followed by anything, parses back to that gain. */
  lemma ParseGainRoundTrip(gain: int, upper: bool, rest: string)
    requires gain == LowVoltage || gain == HighVoltage
    ensures ParseGain(GainName(gain, upper) + rest) == Some(gain)
  {
    var s := GainName(gain, upper) + rest;
    assert s[..2] == GainName(gain, upper);
  }

  /** Only the first two characters decide. */
  lemma ParseGainReadsTwoCharacters(prefix: string, rest: string)
    requires |prefix| == 2
    ensures ParseGain(prefix + rest) == ParseGain(prefix)
  {
    assert (prefix + rest)[..2] == prefix;
    assert prefix[..2] == prefix;
  }

  /** Matching is case-sensitive per string, not per character: mixed case is refused. */
  lemma MixedCaseRefused(rest: string)
    ensures ParseGain("Lv" + rest).None? && ParseGain("lV" + rest).None?
    ensures ParseGain("Hv" + rest).None? && ParseGain("hV" + rest).None?
  {
    assert ("Lv" + rest)[..2] == "Lv";
    assert ("lV" + rest)[..2] == "lV";
    assert ("Hv" + rest)[..2] == "Hv";
    assert ("hV" + rest)[..2] == "hV";
  }

  /** The `int` that `get_gain` writes through its out-pointer. */
  class IntCell {
    var value: int

    constructor (v: int)
      ensures value == v
    {
      value := v;
    }
  }

  /** `get_gain`: on a known range name store its number in `gain` and return 0;
      otherwise return -1 and leave `gain` as it was. */
  method GetGain(gain: IntCell, str: string) returns (status: int)
    modifies gain
    ensures status == 0 || status == -1
    ensures status == 0 <==> ParseGain(str).Some?
    ensures status == 0 ==> gain.value == ParseGain(str).value
    ensures status == -1 ==> gain.value == old(gain.value)
  {
    StrNEqualIsPrefix(str, "lv");
    StrNEqualIsPrefix(str, "LV");
    StrNEqualIsPrefix(str, "hv");
    StrNEqualIsPrefix(str, "HV");
    if StrNEqual(str, "lv", 2) || StrNEqual(str, "LV", 2) {
      gain.value := LowVoltage;
      return 0;
    }
    if StrNEqual(str, "hv", 2) || StrNEqual(str, "HV", 2) {
      gain.value := HighVoltage;
      return 0;
    }
    return -1;
  }
}
