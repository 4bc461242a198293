/** The comparable key the updater derives from a version string
    (lib/updater/updater.py, get_next_release): the leftmost match of the
    regular expression (\d+\.\d+)\.\d+, keep group 1 ("major.minor"), and read
    it as a decimal number as float() does. The key is kept exact, as a real:
    major + minor / 10^|minor|, so "1.10" is 1.1 and compares below "1.9". */
module VersionKey {
  import opened Common

  /** \d, restricted to ASCII digits. */
  predicate IsDigit(c: char) {
    '0' <= c <= '9'
  }

  predicate AllDigits(s: string) {
    forall k :: 0 <= k < |s| ==> IsDigit(s[k])
  }

  /** Length of the run of digits that starts at position i. */
  function DigitRun(s: string, i: nat): (n: nat)
    requires i <= |s|
    ensures i + n <= |s|
    ensures forall k :: i <= k < i + n ==> IsDigit(s[k])
    ensures i + n == |s| || !IsDigit(s[i + n])
    decreases |s| - i
  {
    if i < |s| && IsDigit(s[i]) then 1 + DigitRun(s, i + 1) else 0
  }

  /** The pattern (\d+\.\d+)\.\d+ matches s at position i with a digits before
      the first dot and b digits between the two dots (the last \d+ needs one
      digit; whatever follows it does not change group 1). */
  predicate PatternAt(s: string, i: nat, a: nat, b: nat) {
    && 1 <= a && 1 <= b
    && i + a + b + 3 <= |s|
    && (forall k :: i <= k < i + a ==> IsDigit(s[k]))
    && s[i + a] == '.'
    && (forall k :: i + a + 1 <= k < i + a + 1 + b ==> IsDigit(s[k]))
    && s[i + a + 1 + b] == '.'
    && IsDigit(s[i + a + 2 + b])
  }

  /** Group 1 of a match, split at its dot. */
  datatype VersionMatch = VersionMatch(major: string, minor: string)

  /** The match of the pattern at position i, if any. Each \d+ is followed by a
      dot, which is not a digit, so backtracking cannot shorten a run: the
      groups are the maximal digit runs. */
  function MatchAt(s: string, i: nat): Option<VersionMatch>
    requires i <= |s|
  {
    var a := DigitRun(s, i);
    if a == 0 || i + a == |s| || s[i + a] != '.' then None
    else
      var b := DigitRun(s, i + a + 1);
      if b == 0 || i + a + b + 3 > |s| || s[i + a + 1 + b] != '.' || !IsDigit(s[i + a + 2 + b]) then None
      else Some(VersionMatch(s[i..i + a], s[i + a + 1..i + a + 1 + b]))
  }

  /** What MatchAt finds is a match of the pattern, and its groups are the
      digit runs around the first dot. */
  lemma MatchAtSound(s: string, i: nat)
    requires i <= |s|
    ensures MatchAt(s, i).Some? ==>
              var m := MatchAt(s, i).value;
              && PatternAt(s, i, |m.major|, |m.minor|)
              && m.major == s[i..i + |m.major|]
              && m.minor == s[i + |m.major| + 1..i + |m.major| + 1 + |m.minor|]
  {
  }

  lemma {:induction false} RunIsMaximal(s: string, i: nat, n: nat)
    requires i + n < |s|
    requires forall k :: i <= k < i + n ==> IsDigit(s[k])
    requires !IsDigit(s[i + n])
    ensures DigitRun(s, i) == n
    decreases n
  {
    if n > 0 {
      RunIsMaximal(s, i + 1, n - 1);
    }
  }

  /** Every way the pattern can match at i is the one MatchAt finds: the
      split of group 1 is unique. */
  lemma MatchAtComplete(s: string, i: nat, a: nat, b: nat)
    requires PatternAt(s, i, a, b)
    ensures MatchAt(s, i) == Some(VersionMatch(s[i..i + a], s[i + a + 1..i + a + 1 + b]))
  {
    RunIsMaximal(s, i, a);
    RunIsMaximal(s, i + a + 1, b);
  }

  /** The leftmost position at or after i where the pattern matches. */
  function FirstMatchFrom(s: string, i: nat): (r: Option<nat>)
    requires i <= |s|
    ensures r.Some? ==> i <= r.value <= |s|
    decreases |s| - i
  {
    if MatchAt(s, i).Some? then Some(i)
    else if i == |s| then None
    else FirstMatchFrom(s, i + 1)
  }

  lemma {:induction false} FirstMatchFromSpec(s: string, i: nat)
    requires i <= |s|
    ensures var r := FirstMatchFrom(s, i);
            && (r.Some? ==> i <= r.value <= |s| && MatchAt(s, r.value).Some?)
            && (r.Some? ==> forall k :: i <= k < r.value ==> MatchAt(s, k).None?)
            && (r.None? ==> forall k :: i <= k <= |s| ==> MatchAt(s, k).None?)
    decreases |s| - i
  {
    if MatchAt(s, i).None? && i < |s| {
      FirstMatchFromSpec(s, i + 1);
    }
  }

  /** re.findall(r'(\d+\.\d+)\.\d+', s)[0]: the first (leftmost) match.
      None stands for the empty findall list, whose [0] raises IndexError. */
  function FirstMatch(s: string): Option<VersionMatch> {
    match FirstMatchFrom(s, 0)
    case None => None
    case Some(i) => MatchAt(s, i)
  }

  /** FirstMatch is exactly the leftmost match of the pattern. */
  lemma FirstMatchIsLeftmost(s: string, i: nat, a: nat, b: nat)
    requires PatternAt(s, i, a, b)
    requires forall j: nat, a': nat, b': nat :: j < i ==> !PatternAt(s, j, a', b')
    ensures FirstMatch(s) == Some(VersionMatch(s[i..i + a], s[i + a + 1..i + a + 1 + b]))
  {
    MatchAtComplete(s, i, a, b);
    FirstMatchFromSpec(s, 0);
    var r := FirstMatchFrom(s, 0);
    assert r.Some?;
    if r.value < i {
      MatchAtSound(s, r.value);
      assert false;
    }
  }

  /** The findall list is empty exactly when the pattern matches nowhere. */
  lemma FirstMatchNoneIff(s: string)
    ensures FirstMatch(s).None? <==> forall i, a, b :: !PatternAt(s, i, a, b)
  {
    FirstMatchFromSpec(s, 0);
    if FirstMatch(s).None? {
      forall i, a, b | PatternAt(s, i, a, b)
        ensures false
      {
        MatchAtComplete(s, i, a, b);
      }
    } else {
      MatchAtSound(s, FirstMatchFrom(s, 0).value);
    }
  }

  function Pow10(n: nat): (p: nat)
    ensures p >= 1
  {
    if n == 0 then 1 else 10 * Pow10(n - 1)
  }

  function DigitValue(c: char): nat {
    if IsDigit(c) then (c as int - '0' as int) as nat else 0
  }

  /** int() of a string of decimal digits. */
  function Number(d: string): nat {
    if d == [] then 0 else 10 * Number(d[..|d| - 1]) + DigitValue(d[|d| - 1])
  }

  /** float("major.minor"), exactly. */
  function Key(m: VersionMatch): real {
    Number(m.major) as real + Number(m.minor) as real / Pow10(|m.minor|) as real
  }

  /** The key of a version string, or None where the updater raises IndexError. */
  function ParseKey(s: string): Option<real> {
    match FirstMatch(s)
    case None => None
    case Some(m) => Some(Key(m))
  }

  lemma {:induction false} NumberBelowPow10(d: string)
    ensures Number(d) < Pow10(|d|)
  {
    if d != [] {
      NumberBelowPow10(d[..|d| - 1]);
    }
  }

  /** The minor part only ever adds a fraction below one: the key's integer
      part is the major number, so a larger major always wins. */
  lemma KeyIntegerPart(m: VersionMatch)
    ensures Number(m.major) as real <= Key(m) < Number(m.major) as real + 1.0
  {
    NumberBelowPow10(m.minor);
    FractionBelowOne(Number(m.minor) as real, Pow10(|m.minor|) as real);
  }

  lemma FractionBelowOne(x: real, p: real)
    requires 0.0 <= x < p
    ensures 0.0 <= x / p < 1.0
  {
    assert x / p * p == x;
  }

  lemma MajorDominates(m1: VersionMatch, m2: VersionMatch)
    requires Number(m1.major) < Number(m2.major)
    ensures Key(m1) < Key(m2)
  {
    KeyIntegerPart(m1);
    KeyIntegerPart(m2);
  }

  lemma PatternOfParts(major: string, minor: string, tail: string)
    requires major != [] && minor != [] && tail != []
    requires AllDigits(major) && AllDigits(minor) && IsDigit(tail[0])
    ensures var s := major + "." + minor + "." + tail;
            && PatternAt(s, 0, |major|, |minor|)
            && s[0..|major|] == major
            && s[|major| + 1..|major| + 1 + |minor|] == minor
  {
    var s := major + "." + minor + "." + tail;
    var a, b := |major|, |minor|;
    forall k | 0 <= k < a
      ensures IsDigit(s[k])
    {
      assert s[k] == major[k];
    }
    forall k | a + 1 <= k < a + 1 + b
      ensures IsDigit(s[k])
    {
      assert s[k] == minor[k - a - 1];
    }
    assert s[a] == '.' && s[a + 1 + b] == '.';
    assert s[a + 2 + b] == tail[0];
    assert s[0..a] == major;
    assert s[a + 1..a + 1 + b] == minor;
  }

  /** The match is unanchored at its end: a version string that starts with
      "major.minor." and a digit keys on major.minor alone, whatever text
      follows that digit ("1.2.3", "1.2.3.4" and "1.2.3-rc1" all key on 1.2). */
  lemma ParseTail(major: string, minor: string, tail: string)
    requires major != [] && minor != [] && tail != []
    requires AllDigits(major) && AllDigits(minor) && IsDigit(tail[0])
    ensures ParseKey(major + "." + minor + "." + tail) == Some(Key(VersionMatch(major, minor)))
  {
    PatternOfParts(major, minor, tail);
    FirstMatchIsLeftmost(major + "." + minor + "." + tail, 0, |major|, |minor|);
  }

  /** A well-formed "major.minor.patch" string keys on major.minor alone:
      the patch digits never reach the key. */
  lemma ParseWellFormed(major: string, minor: string, patch: string)
    requires major != [] && minor != [] && patch != []
    requires AllDigits(major) && AllDigits(minor) && AllDigits(patch)
    ensures ParseKey(major + "." + minor + "." + patch) == Some(Key(VersionMatch(major, minor)))
  {
    ParseTail(major, minor, patch);
  }

  /** Versions that agree up to the first digit after the second dot have the
      same key, whatever follows: the patch number, a fourth component or a
      pre-release suffix are all ignored. */
  lemma PatchIgnored(major: string, minor: string, tail1: string, tail2: string)
    requires major != [] && minor != [] && tail1 != [] && tail2 != []
    requires AllDigits(major) && AllDigits(minor) && IsDigit(tail1[0]) && IsDigit(tail2[0])
    ensures ParseKey(major + "." + minor + "." + tail1) == ParseKey(major + "." + minor + "." + tail2)
  {
    ParseTail(major, minor, tail1);
    ParseTail(major, minor, tail2);
  }

  lemma KeyOneTen()
    ensures Key(VersionMatch("1", "10")) == 1.1
  {
    assert "10"[..1] == "1";
    assert Number("10") == 10;
    assert Pow10(2) == 100;
  }

  lemma KeyOneDigit(minor: string)
    requires minor == "1" || minor == "9"
    ensures Key(VersionMatch("1", minor)) == 1.0 + Number(minor) as real / 10.0
    ensures minor == "1" ==> Number(minor) == 1
    ensures minor == "9" ==> Number(minor) == 9
  {
    assert Number("1") == 1;
    assert Pow10(1) == 10;
  }

  lemma ParseOneTen(v: string)
    requires v == "1.10.0"
    ensures ParseKey(v) == Some(1.1)
  {
    assert v == "1" + "." + "10" + "." + "0";
    ParseWellFormed("1", "10", "0");
    KeyOneTen();
  }

  lemma ParseOneDigit(v: string, minor: string)
    requires minor == "1" || minor == "9"
    requires v == "1." + minor + ".0"
    ensures ParseKey(v) == Some(1.0 + Number(minor) as real / 10.0)
  {
    assert v == "1" + "." + minor + "." + "0";
    ParseWellFormed("1", minor, "0");
    KeyOneDigit(minor);
  }

  /** The minor part is read as a decimal fraction, as float() reads it:
      1.10 has the key of 1.1 and sorts below 1.9. */
  lemma MinorIsDecimalFraction(v1_10: string, v1_1: string, v1_9: string)
    requires v1_10 == "1.10.0" && v1_1 == "1.1.0" && v1_9 == "1.9.0"
    ensures ParseKey(v1_10).Some? && ParseKey(v1_10) == ParseKey(v1_1)
    ensures ParseKey(v1_9).Some? && ParseKey(v1_10).value < ParseKey(v1_9).value
  {
    assert ParseKey(v1_10) == Some(1.1) by {
      ParseOneTen(v1_10);
    }
    assert ParseKey(v1_1) == Some(1.1) by {
      ParseOneDigit(v1_1, "1");
      KeyOneDigit("1");
    }
    assert ParseKey(v1_9) == Some(1.9) by {
      ParseOneDigit(v1_9, "9");
      KeyOneDigit("9");
    }
  }
}
