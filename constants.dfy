/**
 * Version extraction and the User-Agent string: the first "X.Y.Z" found in the update
 * server's response becomes the version reported as "antigravity/{version} {os}/{arch}".
 */
module Constants {
  import opened Wrappers

  /** The regular expression class `\d`, over ASCII digits. */
  predicate IsDigit(ch: char) {
    '0' <= ch <= '9'
  }

  /** Every character of `s` in positions `a` up to `b` is a digit. */
  predicate Digits(s: string, a: nat, b: nat) {
    b <= |s| && forall t | a <= t < b :: IsDigit(s[t])
  }

  /** `s[i..k]` reads digits, a dot at `p`, digits, a dot at `q`, digits, each run non-empty. */
  predicate ShapedAt(s: string, i: nat, p: nat, q: nat, k: nat) {
    i < p && p + 1 < q && q + 1 < k && k <= |s|
    && s[p] == '.' && s[q] == '.'
    && Digits(s, i, p) && Digits(s, p + 1, q) && Digits(s, q + 1, k)
  }

  /** `s[i..k]` is a match of `\d+\.\d+\.\d+`. */
  predicate VersionAt(s: string, i: nat, k: nat)
    ensures VersionAt(s, i, k) ==> i + 5 <= k <= |s|
  {
    exists p: nat, q: nat | i < p < q < k :: ShapedAt(s, i, p, q, k)
  }

  /** `v` as a whole is a match of `\d+\.\d+\.\d+`: the shape of a version number. */
  predicate IsVersion(v: string) {
    VersionAt(v, 0, |v|)
  }

  /** The length of the longest run of digits starting at `i`. */
  function DigitRun(s: string, i: nat): (n: nat)
    requires i <= |s|
    ensures i + n <= |s| && Digits(s, i, i + n)
    ensures i + n == |s| || !IsDigit(s[i + n])
    decreases |s| - i
  {
    if i < |s| && IsDigit(s[i]) then 1 + DigitRun(s, i + 1) else 0
  }

  /** A digit run that ends before a non-digit, or at the end, is the longest one. */
  lemma {:induction false} DigitRunExact(s: string, i: nat, e: nat)
    requires i <= e && Digits(s, i, e)
    requires e == |s| || !IsDigit(s[e])
    ensures DigitRun(s, i) == e - i
    decreases e - i
  {
    if i < e {
      DigitRunExact(s, i + 1, e);
    }
  }

  /** The longest digit run from `i` covers every digit run from `i`. */
  lemma {:induction false} DigitRunCovers(s: string, i: nat, e: nat)
    requires i <= e && Digits(s, i, e)
    ensures DigitRun(s, i) >= e - i
    decreases e - i
  {
    if i < e {
      DigitRunCovers(s, i + 1, e);
    }
  }

  /**
   * Where the match that starts at `i` ends, if one starts there. Each `\d+` takes the
   * longest run; giving digits back cannot help, since a dot has to follow the run.
   */
  function MatchAt(s: string, i: nat): (r: Option<nat>)
    requires i <= |s|
    ensures r.Some? ==> i < r.value <= |s| && VersionAt(s, i, r.value)
  {
    var p := i + DigitRun(s, i);
    if p == i || p >= |s| || s[p] != '.' then None
    else
      var q := p + 1 + DigitRun(s, p + 1);
      if q == p + 1 || q >= |s| || s[q] != '.' then None
      else
        var k := q + 1 + DigitRun(s, q + 1);
        if k == q + 1 then None
        else
          assert ShapedAt(s, i, p, q, k);
          Some(k)
  }

  /**
   * A match starts at `i` exactly when a version-shaped text does, and it is the longest one
   * (that a match found is version-shaped is MatchAt's own contract).
   */
  lemma MatchAtSpec(s: string, i: nat)
    requires i <= |s|
    ensures MatchAt(s, i).Some? ==> forall k: nat :: MatchAt(s, i).value < k ==> !VersionAt(s, i, k)
    ensures MatchAt(s, i).None? ==> forall k: nat :: !VersionAt(s, i, k)
  {
    forall k: nat | VersionAt(s, i, k)
      ensures MatchAt(s, i).Some? && k <= MatchAt(s, i).value
    {
      var p: nat, q: nat :| i < p < q < k && ShapedAt(s, i, p, q, k);
      DigitRunExact(s, i, p);
      DigitRunExact(s, p + 1, q);
      DigitRunCovers(s, q + 1, k);
    }
  }

  /** `Regex::find` from position `from`: the start and end of the leftmost match. */
  function Find(s: string, from: nat): (r: Option<(nat, nat)>)
    requires from <= |s|
    ensures r.Some? ==> from <= r.value.0 && VersionAt(s, r.value.0, r.value.1)
    ensures r.Some? ==> forall j: nat, k: nat :: from <= j < r.value.0 ==> !VersionAt(s, j, k)
    ensures r.Some? ==> forall k: nat :: r.value.1 < k ==> !VersionAt(s, r.value.0, k)
    ensures r.None? ==> forall j: nat, k: nat :: from <= j ==> !VersionAt(s, j, k)
    decreases |s| - from
  {
    MatchAtSpec(s, from);
    match MatchAt(s, from)
    case Some(k) => Some((from, k))
    case None =>
      if from == |s| then
        assert forall j: nat, k: nat :: from <= j ==> !VersionAt(s, j, k) by {
          forall j: nat, k: nat | from < j ensures !VersionAt(s, j, k) { }
        }
        None
      else Find(s, from + 1)
  }

  /**
   * `s[i..k]` is the match `Regex::find` reports: version-shaped, with nothing version-shaped
   * starting earlier and nothing longer starting at `i`.
   */
  ghost predicate LeftmostLongest(s: string, i: nat, k: nat) {
    i <= k <= |s| && VersionAt(s, i, k)
    && (forall j: nat, k': nat :: j < i ==> !VersionAt(s, j, k'))
    && (forall k': nat :: k < k' ==> !VersionAt(s, i, k'))
  }

  /** `parse_version`: the text of the leftmost match, if any. */
  function ParseVersion(text: string): (r: Option<string>)
    ensures r.None? <==> forall j: nat, k: nat :: !VersionAt(text, j, k)
    ensures r.Some? ==> IsVersion(r.value)
    ensures r.Some? ==> exists i: nat, k: nat :: LeftmostLongest(text, i, k) && r.value == text[i..k]
  {
    match Find(text, 0)
    case None => None
    case Some((i, k)) =>
      VersionAtSlice(text, i, k);
      assert LeftmostLongest(text, i, k);
      Some(text[i..k])
  }

  /** Being version-shaped is a property of the characters in the range alone. */
  lemma VersionAtSlice(s: string, i: nat, k: nat)
    requires VersionAt(s, i, k)
    ensures IsVersion(s[i..k])
  {
    var p: nat, q: nat :| i < p < q < k && ShapedAt(s, i, p, q, k);
    assert ShapedAt(s[i..k], 0, p - i, q - i, k - i);
  }

  /** A version-shaped text shifted into a larger one stays version-shaped there. */
  lemma VersionInside(pre: string, v: string, post: string)
    requires IsVersion(v)
    ensures VersionAt(pre + v + post, |pre|, |pre| + |v|)
  {
    var s := pre + v + post;
    var p: nat, q: nat :| 0 < p < q < |v| && ShapedAt(v, 0, p, q, |v|);
    assert ShapedAt(s, |pre|, |pre| + p, |pre| + q, |pre| + |v|);
  }

  /** The leftmost match is the result whenever nothing version-shaped starts earlier. */
  lemma {:induction false} FindLeftmost(s: string, from: nat, i: nat, e: nat)
    requires from <= i <= |s|
    requires forall j: nat, k: nat :: from <= j < i ==> !VersionAt(s, j, k)
    requires VersionAt(s, i, e) && (e == |s| || !IsDigit(s[e]))
    ensures Find(s, from) == Some((i, e))
    decreases i - from
  {
    if from < i {
      MatchAtSpec(s, from);
      assert MatchAt(s, from).None?;
      FindLeftmost(s, from + 1, i, e);
    } else {
      MatchAtExact(s, i, e);
    }
  }

  /** A version-shaped text ending before a non-digit, or at the end, is the match there. */
  lemma MatchAtExact(s: string, i: nat, e: nat)
    requires i <= |s|
    requires VersionAt(s, i, e) && (e == |s| || !IsDigit(s[e]))
    ensures MatchAt(s, i) == Some(e)
  {
    var p: nat, q: nat :| i < p < q < e && ShapedAt(s, i, p, q, e);
    DigitRunExact(s, i, p);
    DigitRunExact(s, p + 1, q);
    DigitRunExact(s, q + 1, e);
  }

  /** Nothing version-shaped starts among characters that are not digits. */
  lemma NoVersionBeforeDigits(s: string, n: nat)
    requires n <= |s| && forall t | 0 <= t < n :: !IsDigit(s[t])
    ensures forall j: nat, k: nat :: j < n ==> !VersionAt(s, j, k)
  {
    forall j: nat, k: nat | j < n ensures !VersionAt(s, j, k) {
      assert !IsDigit(s[j]);
    }
  }

  /** A version-shaped text is its own version. */
  lemma ParseVersionOfVersion(v: string)
    requires IsVersion(v)
    ensures ParseVersion(v) == Some(v)
  {
    FindLeftmost(v, 0, 0, |v|);
    assert v[0..|v|] == v;
  }

  /**
   * A version preceded by text without digits and followed by a non-digit, or by nothing,
   * is what the version parse finds.
   */
  lemma ParseVersionAfter(pre: string, v: string, post: string)
    requires forall t | 0 <= t < |pre| :: !IsDigit(pre[t])
    requires IsVersion(v)
    requires post == [] || !IsDigit(post[0])
    ensures ParseVersion(pre + v + post) == Some(v)
  {
    var s := pre + v + post;
    VersionInside(pre, v, post);
    NoVersionBeforeDigits(s, |pre|);
    FindLeftmost(s, 0, |pre|, |pre| + |v|);
    assert s[|pre|..|pre| + |v|] == v;
  }

  /** The User-Agent: "antigravity/", the version, a space, the OS, "/" and the architecture. */
  function UserAgent(version: string, os: string, arch: string): (r: string)
    ensures |r| == 12 + |version| + 1 + |os| + 1 + |arch|
    ensures r[..12] == "antigravity/" && r[12..12 + |version|] == version
    ensures r[12 + |version|] == ' '
    ensures var o := 13 + |version|; r[o..o + |os|] == os && r[o + |os|] == '/' && r[o + |os| + 1..] == arch
  {
    "antigravity/" + version + " " + os + "/" + arch
  }

  /** The version in a User-Agent is the one its version parse finds, whatever the OS and architecture. */
  lemma ParseVersionOfUserAgent(version: string, os: string, arch: string)
    requires IsVersion(version)
    ensures ParseVersion(UserAgent(version, os, arch)) == Some(version)
  {
    var post := " " + os + "/" + arch;
    assert UserAgent(version, os, arch) == "antigravity/" + version + post;
    ParseVersionAfter("antigravity/", version, post);
  }

  /** A bare version parses to itself. */
  lemma ParseVersionPlain()
    ensures ParseVersion("1.15.8") == Some("1.15.8")
  {
    assert ShapedAt("1.15.8", 0, 1, 4, 6);
    ParseVersionOfVersion("1.15.8");
  }

  /** The updater's response yields its version without the build suffix. */
  lemma ParseVersionOfUpdaterResponse()
    ensures ParseVersion("Auto updater is running. Stable Version: 1.15.8-5724687216017408") == Some("1.15.8")
  {
    UpdaterResponseParts();
    assert ShapedAt("1.15.8", 0, 1, 4, 6);
    ParseVersionAfter("Auto updater is running. Stable Version: ", "1.15.8", "-5724687216017408");
  }

  /** The updater response as prefix, version and suffix (a concatenation step, split off to keep the solver small). */
  lemma UpdaterResponseParts()
    ensures "Auto updater is running. Stable Version: " + "1.15.8" + "-5724687216017408"
         == "Auto updater is running. Stable Version: 1.15.8-5724687216017408"
  {
  }

  /** A User-Agent yields its version without the OS and architecture. */
  lemma ParseVersionOfUserAgentText()
    ensures ParseVersion("antigravity/1.15.8 windows/amd64") == Some("1.15.8")
  {
    UserAgentText();
    assert ShapedAt("1.15.8", 0, 1, 4, 6);
    ParseVersionOfUserAgent("1.15.8", "windows", "amd64");
  }

  /** The User-Agent of version 1.15.8 on 64-bit Windows (a concatenation step, split off to keep the solver small). */
  lemma UserAgentText()
    ensures UserAgent("1.15.8", "windows", "amd64") == "antigravity/1.15.8 windows/amd64"
  {
  }

  /** A label in front of the version is skipped. */
  lemma ParseVersionSkipsLabel()
    ensures ParseVersion("Version: 2.0.0") == Some("2.0.0")
  {
    assert ShapedAt("2.0.0", 0, 1, 3, 5);
    ParseVersionAfter("Version: ", "2.0.0", "");
    assert "Version: " + "2.0.0" + "" == "Version: 2.0.0";
  }

  /** A leading "v" is skipped. */
  lemma ParseVersionSkipsV()
    ensures ParseVersion("v1.2.3") == Some("1.2.3")
  {
    assert ShapedAt("1.2.3", 0, 1, 3, 5);
    ParseVersionAfter("v", "1.2.3", "");
    assert "v" + "1.2.3" + "" == "v1.2.3";
  }

  /** Texts without three dot-separated numbers give no version. */
  lemma ParseVersionAbsent()
    ensures ParseVersion("no version here") == None
    ensures ParseVersion("") == None
    ensures ParseVersion("1.2") == None
  {
    NoVersionBeforeDigits("no version here", 15);
  }
}
