/** Choosing the release to upgrade to (lib/updater/updater.py,
    Updater.get_next_release). The feed lists releases newest first. The walk
    keeps the last tag that is still strictly newer than the running version
    and stops at the first one that is not; it starts from the FIRST tag, so a
    feed whose newest release is not newer still yields that newest tag. */
module ReleaseSelection {
  import opened Common
  import opened VersionKey

  /** An entry of the release feed; get_next_release reads only its tag_name. */
  datatype Release = Release(tagName: string)

  /** The release's tag parses and its key is strictly above the current key. */
  predicate Newer(current: real, r: Release) {
    ParseKey(r.tagName).Some? && ParseKey(r.tagName).value > current
  }

  /** Length of the longest prefix of the feed made of newer releases. */
  function NewerRun(current: real, releases: seq<Release>): (n: nat)
    ensures n <= |releases|
    ensures forall i :: 0 <= i < n ==> Newer(current, releases[i])
    ensures n < |releases| ==> !Newer(current, releases[n])
  {
    if releases == [] || !Newer(current, releases[0]) then 0
    else 1 + NewerRun(current, releases[1..])
  }

  /** The outcome of get_next_release, stated over the whole feed: IndexError
      when the running version has no match, when the feed is empty, or when
      the walk reaches a tag without a match; otherwise the oldest tag of the
      leading run of newer releases, or the first tag when that run is empty. */
  function NextRelease(currentVersion: string, releases: seq<Release>): Result<string> {
    match ParseKey(currentVersion)
    case None => Raised(IndexError)
    case Some(current) =>
      if releases == [] then Raised(IndexError)
      else
        var n := NewerRun(current, releases);
        if n < |releases| && ParseKey(releases[n].tagName).None? then Raised(IndexError)
        else if n == 0 then Ok(releases[0].tagName)
        else Ok(releases[n - 1].tagName)
  }

  /** The walk itself: parse the running version, start from the first tag,
      and break at the first release that is not newer. */
  method GetNextRelease(currentVersion: string, releases: seq<Release>) returns (r: Result<string>)
    ensures r == NextRelease(currentVersion, releases)
  {
    var current := ParseKey(currentVersion);
    if current.None? {
      return Raised(IndexError);
    }
    if |releases| == 0 {
      return Raised(IndexError);
    }
    ghost var run := NewerRun(current.value, releases);
    var prevVersion := releases[0].tagName;
    var i := 0;
    while i < |releases|
      invariant i <= run
      invariant prevVersion == releases[if i == 0 then 0 else i - 1].tagName
    {
      var version := ParseKey(releases[i].tagName);
      if version.None? {
        r := Raised(IndexError);
        assert r == NextRelease(currentVersion, releases) by {
          WalkStops(currentVersion, releases, current.value, i);
        }
        return;
      }
      if version.value <= current.value {
        assert i == run by {
          WalkStops(currentVersion, releases, current.value, i);
        }
        break;
      }
      assert i < run by {
        assert Newer(current.value, releases[i]);
      }
      prevVersion := releases[i].tagName;
      i := i + 1;
    }
    r := Ok(prevVersion);
    assert r == NextRelease(currentVersion, releases) by {
      WalkEnds(currentVersion, releases, current.value, i);
    }
  }

  /** The walk stops at position i exactly when i ends the run of newer releases. */
  lemma WalkStops(currentVersion: string, releases: seq<Release>, current: real, i: nat)
    requires ParseKey(currentVersion) == Some(current)
    requires i < |releases| && i <= NewerRun(current, releases)
    requires !Newer(current, releases[i])
    ensures i == NewerRun(current, releases)
    ensures ParseKey(releases[i].tagName).None? ==> NextRelease(currentVersion, releases) == Raised(IndexError)
  {
  }

  lemma WalkEnds(currentVersion: string, releases: seq<Release>, current: real, i: nat)
    requires ParseKey(currentVersion) == Some(current)
    requires releases != [] && i == NewerRun(current, releases)
    requires i < |releases| ==> ParseKey(releases[i].tagName).Some?
    ensures NextRelease(currentVersion, releases) == Ok(releases[if i == 0 then 0 else i - 1].tagName)
  {
  }

  /** The answer is always a tag taken from the feed, never the running
      version itself unless the feed lists it. */
  lemma NextReleaseIsListed(currentVersion: string, releases: seq<Release>)
    ensures NextRelease(currentVersion, releases).Ok? ==>
              exists i :: 0 <= i < |releases| && releases[i].tagName == NextRelease(currentVersion, releases).value
  {
    var r := NextRelease(currentVersion, releases);
    if r.Ok? {
      var current := ParseKey(currentVersion).value;
      var n := NewerRun(current, releases);
      var i := if n == 0 then 0 else n - 1;
      assert releases[i].tagName == r.value;
    }
  }

  /** When the newest release is not newer than the running version, the
      newest tag is returned anyway. */
  lemma NewestNotNewerIsReturned(currentVersion: string, releases: seq<Release>)
    requires ParseKey(currentVersion).Some?
    requires releases != [] && ParseKey(releases[0].tagName).Some?
    requires ParseKey(releases[0].tagName).value <= ParseKey(currentVersion).value
    ensures NextRelease(currentVersion, releases) == Ok(releases[0].tagName)
  {
    assert !Newer(ParseKey(currentVersion).value, releases[0]);
  }

  /** Release j ends the leading run of newer releases of the feed. */
  predicate EndsNewerRun(current: real, releases: seq<Release>, j: int) {
    && 0 <= j < |releases|
    && (forall i :: 0 <= i <= j ==> Newer(current, releases[i]))
    && (j + 1 == |releases| || !Newer(current, releases[j + 1]))
  }

  /** When the newest release is newer, the result is the nearest newer
      release, the one that ends the leading run of newer releases; the walk
      fails only when the release right after that run has no match. */
  lemma NearestNewerIsReturned(currentVersion: string, releases: seq<Release>, current: real)
    requires ParseKey(currentVersion) == Some(current)
    requires releases != [] && Newer(current, releases[0])
    ensures NextRelease(currentVersion, releases).Ok? ==>
              exists j :: EndsNewerRun(current, releases, j) && releases[j].tagName == NextRelease(currentVersion, releases).value
    ensures NextRelease(currentVersion, releases).Raised? <==>
              exists j :: EndsNewerRun(current, releases, j) && j + 1 < |releases| && ParseKey(releases[j + 1].tagName).None?
  {
    var n := NewerRun(current, releases);
    assert EndsNewerRun(current, releases, n - 1);
    forall j | EndsNewerRun(current, releases, j)
      ensures j == n - 1
    {
    }
  }

  /** When every release is newer, the oldest one, the last tag, is returned. */
  lemma AllNewerGivesLast(currentVersion: string, releases: seq<Release>)
    requires ParseKey(currentVersion).Some? && releases != []
    requires forall i :: 0 <= i < |releases| ==> Newer(ParseKey(currentVersion).value, releases[i])
    ensures NextRelease(currentVersion, releases) == Ok(releases[|releases| - 1].tagName)
  {
  }

  /** The key of a version written with one digit per component. */
  lemma ParseSingleDigits(v: string, major: char, minor: char, patch: char)
    requires IsDigit(major) && IsDigit(minor) && IsDigit(patch)
    requires v == [major, '.', minor, '.', patch]
    ensures ParseKey(v) == Some(DigitValue(major) as real + DigitValue(minor) as real / 10.0)
  {
    assert v == [major] + "." + [minor] + "." + [patch];
    ParseWellFormed([major], [minor], [patch]);
    assert Number([major]) == DigitValue(major) by {
      assert [major][..0] == [];
    }
    assert Number([minor]) == DigitValue(minor) by {
      assert [minor][..0] == [];
    }
    assert Pow10(|[minor]|) == 10 by {
      assert Pow10(0) == 1;
    }
  }

  /** Selection over a three-release feed whose first two releases are newer
      and whose third is not. */
  lemma SecondOfThree(currentVersion: string, releases: seq<Release>, current: real)
    requires ParseKey(currentVersion) == Some(current) && |releases| == 3
    requires Newer(current, releases[0]) && Newer(current, releases[1])
    requires ParseKey(releases[2].tagName).Some? && !Newer(current, releases[2])
    ensures NextRelease(currentVersion, releases) == Ok(releases[1].tagName)
  {
    assert NewerRun(current, releases) == 2;
  }

  /** Selection over a feed whose first release is newer and whose second,
      with a matching tag, is not. */
  lemma FirstOfMany(currentVersion: string, releases: seq<Release>, current: real)
    requires ParseKey(currentVersion) == Some(current) && |releases| >= 2
    requires Newer(current, releases[0])
    requires ParseKey(releases[1].tagName).Some? && !Newer(current, releases[1])
    ensures NextRelease(currentVersion, releases) == Ok(releases[0].tagName)
  {
    assert NewerRun(current, releases) == 1;
  }

  /** The update goes one step at a time: running 1.2.0 with 1.5.0, 1.3.0 and
      1.2.5 on the feed selects 1.3.0, and the patch-only 1.2.5 is not newer. */
  lemma NearestNotNewest()
    ensures NextRelease("1.2.0", [Release("1.5.0"), Release("1.3.0"), Release("1.2.5")]) == Ok("1.3.0")
  {
    var currentVersion, releases := "1.2.0", [Release("1.5.0"), Release("1.3.0"), Release("1.2.5")];
    assert ParseKey(currentVersion) == Some(1.2) by {
      ParseSingleDigits(currentVersion, '1', '2', '0');
    }
    assert ParseKey(releases[0].tagName) == Some(1.5) by {
      ParseSingleDigits(releases[0].tagName, '1', '5', '0');
    }
    assert ParseKey(releases[1].tagName) == Some(1.3) by {
      ParseSingleDigits(releases[1].tagName, '1', '3', '0');
    }
    assert ParseKey(releases[2].tagName) == Some(1.2) by {
      ParseSingleDigits(releases[2].tagName, '1', '2', '5');
    }
    SecondOfThree(currentVersion, releases, 1.2);
  }

  /** A release newer by its minor part is selected over the running version
      even when the running version is itself on the feed: running 2.0.3 with
      2.1.0, 2.0.3 and 1.9.0 selects 2.1.0. */
  lemma MinorBumpSelected()
    ensures NextRelease("2.0.3", [Release("2.1.0"), Release("2.0.3"), Release("1.9.0")]) == Ok("2.1.0")
  {
    var currentVersion, releases := "2.0.3", [Release("2.1.0"), Release("2.0.3"), Release("1.9.0")];
    assert ParseKey(currentVersion) == Some(2.0) by {
      ParseSingleDigits(currentVersion, '2', '0', '3');
    }
    assert ParseKey(releases[0].tagName) == Some(2.1) by {
      ParseSingleDigits(releases[0].tagName, '2', '1', '0');
    }
    assert ParseKey(releases[1].tagName) == Some(2.0) by {
      ParseSingleDigits(releases[1].tagName, '2', '0', '3');
    }
    FirstOfMany(currentVersion, releases, 2.0);
  }
}
