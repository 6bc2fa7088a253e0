/**
 * The image-URL test of the post form: the JavaScript regular expression
 * /^https?:\/\/.+\..+/ , anchored at the start only. In JavaScript `.` matches
 * any character except a line terminator.
 */
module UrlPattern {
  import opened Types

  /** The characters JavaScript's `.` does not match. */
  predicate IsLineTerminator(c: char) {
    c == '\n' || c == '\r' || c == '\U{2028}' || c == '\U{2029}'
  }

  /**
   * Declarative reading of `.+\..+` matched at the start of `r`: some dot at
   * position k >= 1 has at least one character before it and one after it,
   * and none of the characters consumed is a line terminator. Without an end
   * anchor, whatever follows is irrelevant.
   */
  ghost predicate DotTail(r: string) {
    exists k :: 1 <= k && k + 2 <= |r| && r[k] == '.' &&
      (forall j :: 0 <= j < k + 2 ==> !IsLineTerminator(r[j]))
  }

  /** Declarative reading of the whole pattern: `http://` or `https://`, then `.+\..+`. */
  ghost predicate PatternMatches(s: string) {
    || (StartsWith(s, "http://") && DotTail(s[7..]))
    || (StartsWith(s, "https://") && DotTail(s[8..]))
  }

  /** The index of the first line terminator in `r`, or |r| when there is none. */
  function LineEnd(r: string): (t: nat)
    ensures t <= |r|
    ensures forall j :: 0 <= j < t ==> !IsLineTerminator(r[j])
    ensures t < |r| ==> IsLineTerminator(r[t])
  {
    if r == [] || IsLineTerminator(r[0]) then 0 else 1 + LineEnd(r[1..])
  }

  /** Executable test of `.+\..+` at the start of `r`: a dot strictly inside the first line. */
  function TailMatches(r: string): bool {
    var t := LineEnd(r);
    t >= 3 && '.' in r[1..t - 1]
  }

  /** Executable test of the whole pattern, as `regex.test(s)` answers it. */
  function Matches(s: string): bool {
    if StartsWith(s, "https://") then TailMatches(s[8..])
    else if StartsWith(s, "http://") then TailMatches(s[7..])
    else false
  }

  /** The scanner agrees with the declarative reading of `.+\..+`, in both directions. */
  lemma TailMatchesIff(r: string)
    ensures TailMatches(r) <==> DotTail(r)
  {
    var t := LineEnd(r);
    if TailMatches(r) {
      var i :| 0 <= i < |r[1..t - 1]| && r[1..t - 1][i] == '.';
      var k := i + 1;
      assert r[k] == '.';
      assert forall j :: 0 <= j < k + 2 ==> !IsLineTerminator(r[j]);
    }
    if DotTail(r) {
      var k :| 1 <= k && k + 2 <= |r| && r[k] == '.' &&
        (forall j :: 0 <= j < k + 2 ==> !IsLineTerminator(r[j]));
      assert k + 2 <= t;
      assert r[1..t - 1][k - 1] == '.';
    }
  }

  /** `Matches` answers exactly what the regular expression answers. */
  lemma MatchesIff(s: string)
    ensures Matches(s) <==> PatternMatches(s)
  {
    if StartsWith(s, "https://") {
      assert s[4] == 's';
      assert !StartsWith(s, "http://") by { assert "http://"[4] == ':'; }
      TailMatchesIff(s[8..]);
    } else if StartsWith(s, "http://") {
      TailMatchesIff(s[7..]);
    }
  }

  /**
   * A URL built as a scheme, a host label, a dot, a top-level label and any
   * path matches when neither label holds a line terminator.
   */
  lemma SchemeHostDotMatches(scheme: string, host: string, tld: string, path: string)
    requires scheme == "http://" || scheme == "https://"
    requires |host| >= 1 && forall j :: 0 <= j < |host| ==> !IsLineTerminator(host[j])
    requires |tld| >= 1 && !IsLineTerminator(tld[0])
    ensures Matches(scheme + host + "." + tld + path)
  {
    var s := scheme + host + "." + tld + path;
    var tail := host + "." + tld + path;
    assert s == scheme + tail;
    assert StartsWith(s, scheme) && s[|scheme|..] == tail;
    var k := |host|;
    assert tail[k] == '.';
    assert forall j :: 0 <= j < k + 2 ==> !IsLineTerminator(tail[j]) by {
      forall j | 0 <= j < k + 2 ensures !IsLineTerminator(tail[j]) {
        if j < k { assert tail[j] == host[j]; }
        else if j == k + 1 { assert tail[j] == tld[0]; }
      }
    }
    assert DotTail(tail);
    if scheme == "https://" {
      assert StartsWith(s, "https://");
    } else {
      assert StartsWith(s, "http://");
    }
    MatchesIff(s);
  }

  /** A string the pattern accepts is never empty, so the form's `!!value` test adds nothing. */
  lemma MatchedIsNonEmpty(s: string)
    requires Matches(s)
    ensures s != "" && |s| >= 10
  {
    if StartsWith(s, "https://") {
      assert LineEnd(s[8..]) >= 3;
    } else {
      assert LineEnd(s[7..]) >= 3;
    }
  }
}
