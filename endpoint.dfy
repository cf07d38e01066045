/**
 * `sanitizeEndpoint`: the only check an endpoint path passes before the
 * client builds a request from it.
 */
module Endpoint {
  import opened Values
  import opened Strings

  const InvalidPath: string := "Invalid endpoint path"
  const AbsoluteUrlRefused: string := "Invalid endpoint: absolute URLs not allowed"

  /** `preg_match('/^https?:\/\//i', $s)` */
  predicate IsAbsoluteUrl(s: string)
  {
    StartsWith(Lower(s), "http://") || StartsWith(Lower(s), "https://")
  }

  /**
   * Strip '/' from both ends; refuse a path containing ".." or "//"; then
   * refuse one that starts with an http(s) scheme; otherwise return the
   * stripped path.
   */
  function SanitizeEndpoint(endpoint: string): (r: Result<string>)
    ensures r.Ok? ==> r.value == Trim(endpoint, '/')
  {
    var path := Trim(endpoint, '/');
    if Contains(path, "..") || Contains(path, "//") then Err(Failure(InvalidPath, 0))
    else if IsAbsoluteUrl(path) then Err(Failure(AbsoluteUrlRefused, 0))
    else Ok(path)
  }

  /** Every path with an http(s) scheme holds "//" right after the colon. */
  lemma AbsoluteUrlHasDoubleSlash(s: string)
    requires IsAbsoluteUrl(s)
    ensures Contains(s, "//")
  {
    var lower := Lower(s);
    var at := if StartsWith(lower, "http://") then 5 else 6;
    assert lower[at] == '/' && lower[at + 1] == '/';
    assert LowerChar(s[at]) == '/' && LowerChar(s[at + 1]) == '/';
    assert s[at..at + 2] == "//";
    ContainsAt(s, "//", at);
  }

  /**
   * The absolute-URL refusal can never be reached: any path it would catch
   * was already refused for containing "//".
   */
  lemma AbsoluteUrlCheckUnreachable(endpoint: string)
    ensures SanitizeEndpoint(endpoint) != Err(Failure(AbsoluteUrlRefused, 0))
  {
    var path := Trim(endpoint, '/');
    if IsAbsoluteUrl(path) {
      AbsoluteUrlHasDoubleSlash(path);
    }
  }

  /**
   * What the sanitizer accepts, both ways: exactly the paths whose trimmed
   * form holds neither ".." nor "//"; every refusal is "Invalid endpoint path".
   */
  lemma SanitizeEndpointAccepts(endpoint: string)
    ensures SanitizeEndpoint(endpoint).Ok? <==>
      !Contains(Trim(endpoint, '/'), "..") && !Contains(Trim(endpoint, '/'), "//")
    ensures SanitizeEndpoint(endpoint).Err? ==>
      SanitizeEndpoint(endpoint).error == Failure(InvalidPath, 0)
  {
    AbsoluteUrlCheckUnreachable(endpoint);
  }

  /** An accepted path has no '/' at either end and holds neither ".." nor "//". */
  lemma SanitizedPathShape(endpoint: string)
    requires SanitizeEndpoint(endpoint).Ok?
    ensures var p := SanitizeEndpoint(endpoint).value;
      (p != [] ==> p[0] != '/' && p[|p| - 1] != '/') &&
      !Contains(p, "..") && !Contains(p, "//")
  {
    var left := TrimLeft(endpoint, '/');
    var p := TrimRight(left, '/');
    assert p != [] ==> p[0] == left[0];
  }

  /** Sanitizing an accepted path again returns it unchanged. */
  lemma SanitizeIdempotent(endpoint: string)
    requires SanitizeEndpoint(endpoint).Ok?
    ensures SanitizeEndpoint(SanitizeEndpoint(endpoint).value) == SanitizeEndpoint(endpoint)
  {
    var p := SanitizeEndpoint(endpoint).value;
    SanitizedPathShape(endpoint);
    TrimOfTrimmed(p, '/');
    AbsoluteUrlCheckUnreachable(p);
  }

  /** The empty path, and a path of slashes only, are accepted as "". */
  lemma EmptyPathAccepted(slashes: string)
    requires forall i :: 0 <= i < |slashes| ==> slashes[i] == '/'
    ensures SanitizeEndpoint(slashes) == Ok("")
  {
    assert TrimLeft(slashes, '/') == [];
    assert !Contains("", "..") && !Contains("", "//");
  }

  lemma TraversalSurvivesTrim(endpoint: string, dots: string)
    requires dots == ".." && Contains(endpoint, dots)
    ensures Contains(Trim(endpoint, '/'), dots)
  {
    ContainsPairAfterTrim(endpoint, '/', dots);
  }

  /** A traversal attempt such as "../../etc/passwd" is refused. */
  lemma TraversalRefused(endpoint: string)
    requires Contains(endpoint, "..")
    ensures SanitizeEndpoint(endpoint) == Err(Failure(InvalidPath, 0))
  {
    TraversalSurvivesTrim(endpoint, "..");
  }

  /** A path with "//" strictly inside it, as an empty interpolated segment leaves, is refused. */
  lemma InnerDoubleSlashRefused(a: string, b: string)
    requires a != [] && a[0] != '/' && b != [] && b[|b| - 1] != '/'
    ensures SanitizeEndpoint(a + "//" + b) == Err(Failure(InvalidPath, 0))
  {
    var slashes: string := "//";
    var s := a + slashes + b;
    assert s[0] == a[0] && s[|s| - 1] == b[|b| - 1];
    TrimOfTrimmed(s, '/');
    assert s[|a|..|a| + 2] == slashes;
    ContainsAt(s, slashes, |a|);
  }

  /** A path segment the sanitizer cannot object to: non-empty, with neither '/' nor '.'. */
  predicate ValidSegment(p: string)
  {
    p != [] && '/' !in p && '.' !in p
  }

  /** The path a service interpolates from its segments, "a/b/c". */
  function JoinPath(parts: seq<string>): string
    requires |parts| >= 1
  {
    if |parts| == 1 then parts[0] else parts[0] + "/" + JoinPath(parts[1..])
  }

  predicate NoDoubleSlash(s: string)
  {
    forall i :: 0 <= i < |s| - 1 ==> !(s[i] == '/' && s[i + 1] == '/')
  }

  /** Every "//" found in a string is a '/' followed by a '/'. */
  lemma DoubleSlashFound(s: string)
    ensures Contains(s, "//") ==> !NoDoubleSlash(s)
  {
    if Contains(s, "//") {
      var i := ContainsWitness(s, "//");
      assert s[i] == s[i..i + 2][0] && s[i + 1] == s[i..i + 2][1];
    }
  }

  /** A path joined from valid segments has no '/' at its ends, no '.', and no "//". */
  lemma {:induction false} JoinPathShape(parts: seq<string>)
    requires |parts| >= 1 && forall i :: 0 <= i < |parts| ==> ValidSegment(parts[i])
    ensures var r := JoinPath(parts);
      r != [] && r[0] != '/' && r[|r| - 1] != '/' && '.' !in r && NoDoubleSlash(r)
    decreases |parts|
  {
    if |parts| > 1 {
      var rest := JoinPath(parts[1..]);
      JoinPathShape(parts[1..]);
      var p := parts[0];
      assert ValidSegment(p);
      var r := p + "/" + rest;
      assert r == JoinPath(parts);
      forall i | 0 <= i < |r| - 1
        ensures !(r[i] == '/' && r[i + 1] == '/')
      {
        if i < |p| {
          assert r[i] == p[i];
        } else if i == |p| {
          assert r[i + 1] == rest[0];
        } else {
          assert r[i] == rest[i - |p| - 1] && r[i + 1] == rest[i - |p|];
        }
      }
      forall i | 0 <= i < |r|
        ensures r[i] != '.'
      {
        if i < |p| {
          assert r[i] == p[i];
        } else if i > |p| {
          assert r[i] == rest[i - |p| - 1];
        }
      }
      assert r[|r| - 1] == rest[|rest| - 1];
    }
  }

  /** A path joined from valid segments passes the sanitizer unchanged. */
  lemma SegmentsPassUnchanged(parts: seq<string>)
    requires |parts| >= 1 && forall i :: 0 <= i < |parts| ==> ValidSegment(parts[i])
    ensures SanitizeEndpoint(JoinPath(parts)) == Ok(JoinPath(parts))
  {
    var r := JoinPath(parts);
    JoinPathShape(parts);
    TrimOfTrimmed(r, '/');
    assert Trim(r, '/') == r;
    NotContainsMissingChar(r, "..", '.');
    assert !Contains(r, "..");
    DoubleSlashFound(r);
    assert !Contains(r, "//");
    AbsoluteUrlCheckUnreachable(r);
  }

  /** One valid segment passes the sanitizer unchanged. */
  lemma OneSegmentPasses(a: string)
    requires ValidSegment(a)
    ensures SanitizeEndpoint(JoinPath([a])) == Ok(a)
  {
    SegmentsPassUnchanged([a]);
  }

  /** "a/b" from two valid segments passes the sanitizer unchanged. */
  lemma TwoSegmentsPass(a: string, b: string)
    requires ValidSegment(a) && ValidSegment(b)
    ensures SanitizeEndpoint(JoinPath([a, b])) == Ok(JoinPath([a, b]))
  {
    SegmentsPassUnchanged([a, b]);
  }

  /** Two segments join as "a/b". */
  lemma JoinTwo(a: string, b: string)
    ensures JoinPath([a, b]) == a + "/" + b
  {
    assert [a, b][1..] == [b];
  }

  /** Three segments join as "a/b/c". */
  lemma JoinThree(a: string, b: string, c: string)
    ensures JoinPath([a, b, c]) == a + "/" + b + "/" + c
  {
    assert [a, b, c][1..] == [b, c];
    JoinTwo(b, c);
  }

  /** "a/b/c" from three valid segments passes the sanitizer unchanged. */
  lemma ThreeSegmentsPass(a: string, b: string, c: string)
    requires ValidSegment(a) && ValidSegment(b) && ValidSegment(c)
    ensures SanitizeEndpoint(JoinPath([a, b, c])) == Ok(JoinPath([a, b, c]))
  {
    SegmentsPassUnchanged([a, b, c]);
  }
}
