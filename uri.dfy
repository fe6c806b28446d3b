/**
 * The `uri` object the extraction script builds from `document.location`
 * (SwiftReadability/readability_initialization.template.js:3-10) before it
 * hands it to Readability.js. Strings are sequences of UTF-16 code units in
 * JavaScript; here they are `seq<char>` and every index counts one element.
 */
module Uri {

  /** The parts of `document.location` the script reads. */
  datatype Location = Location(href: string, protocol: string, host: string, pathname: string)

  /** The object literal `uri`. */
  datatype Uri = Uri(spec: string, host: string, prePath: string, scheme: string, pathBase: string)

  /** `String.prototype.indexOf` for a one-character search string: the first position, or -1. */
  function IndexOf(s: string, c: char): (i: int)
    ensures -1 <= i < |s|
    ensures i == -1 <==> c !in s
    ensures i >= 0 ==> s[i] == c && c !in s[..i]
    decreases |s|
  {
    if s == [] then -1
    else if s[0] == c then 0
    else
      var j := IndexOf(s[1..], c);
      assert c in s <==> c in s[1..] by {
        assert s == [s[0]] + s[1..];
      }
      if j == -1 then -1
      else
        assert s[..j + 1] == [s[0]] + s[1..][..j];
        j + 1
  }

  /** `String.prototype.lastIndexOf` for a one-character search string: the last position, or -1. */
  function LastIndexOf(s: string, c: char): (i: int)
    ensures -1 <= i < |s|
    ensures i == -1 <==> c !in s
    ensures i >= 0 ==> s[i] == c && c !in s[i + 1..]
    decreases |s|
  {
    if s == [] then -1
    else if s[|s| - 1] == c then |s| - 1
    else
      var init := s[..|s| - 1];
      assert s == init + [s[|s| - 1]];
      var j := LastIndexOf(init, c);
      assert j >= 0 ==> s[j + 1..] == init[j + 1..] + [s[|s| - 1]];
      j
  }

  /**
   * `String.prototype.substr(start, length)` (Annex B of ECMAScript): a
   * negative start counts from the end, both bounds are clamped to the
   * string, and a length of zero or less gives the empty string.
   */
  function Substr(s: string, start: int, length: int): (r: string)
    ensures |r| <= |s|
    ensures length <= 0 ==> r == []
    ensures 0 <= start <= |s| && 0 <= length ==>
              r == s[start..if start + length <= |s| then start + length else |s|]
  {
    var size := |s|;
    var intStart := if start < 0 then (if size + start < 0 then 0 else size + start)
                    else if start > size then size else start;
    var intLength := if length < 0 then 0 else if length > size then size else length;
    var intEnd := if intStart + intLength > size then size else intStart + intLength;
    s[intStart..intEnd]
  }

  /** The directory part of a path: everything up to and including its last `/`. */
  function Directory(pathname: string): (dir: string)
    ensures dir <= pathname
    ensures '/' in pathname ==> |dir| > 0 && dir[|dir| - 1] == '/' && '/' !in pathname[|dir|..]
    ensures '/' !in pathname ==> dir == []
  {
    Substr(pathname, 0, LastIndexOf(pathname, '/') + 1)
  }

  /** The scheme: the protocol up to its first `:`, or nothing when it has none. */
  function Scheme(protocol: string): (scheme: string)
    ensures ':' !in scheme
    ensures ':' in protocol ==> scheme + [':'] <= protocol
    ensures ':' !in protocol ==> scheme == []
  {
    Substr(protocol, 0, IndexOf(protocol, ':'))
  }

  /**
   * The `uri` literal: `prePath` is the protocol, `//` and the host;
   * `scheme` the protocol before its colon; `pathBase` the prePath followed
   * by the directory of the path, and just the prePath when the path has no
   * `/`.
   */
  function MakeUri(loc: Location): (u: Uri)
    ensures u.spec == loc.href && u.host == loc.host
    ensures u.prePath == loc.protocol + "//" + loc.host
    ensures u.prePath <= u.pathBase
    ensures u.pathBase[|u.prePath|..] <= loc.pathname
    ensures '/' !in loc.pathname ==> u.pathBase == u.prePath
    ensures '/' in loc.pathname ==>
              u.pathBase[|u.pathBase| - 1] == '/' && '/' !in loc.pathname[|u.pathBase| - |u.prePath|..]
    ensures ':' !in u.scheme
    ensures ':' in loc.protocol ==> u.scheme + [':'] <= loc.protocol
  {
    var prePath := loc.protocol + "//" + loc.host;
    var dir := Directory(loc.pathname);
    assert (prePath + dir)[|prePath|..] == dir;
    Uri(loc.href, loc.host, prePath, Scheme(loc.protocol), prePath + dir)
  }
}
