/**
 * Routing identity from a gRPC request path (src/lib.rs:123-146). A gRPC
 * request's `:path` is `/` service `/` method (section "Requests" of the gRPC
 * over HTTP/2 protocol description); `ParsePath` splits it at the first
 * separator after the leading one. The string primitives the source calls
 * (`strip_prefix`, `splitn(2, _)`, `rsplitn(2, _)`) are written out here for
 * the one-character separators it uses; since `/` and `.` are ASCII, splitting
 * the UTF-8 bytes and splitting the characters agree.
 */
module Paths {
  import opened Wrappers

  /** The (service, method) pair of one call; `method` is a keyword here. */
  datatype Info = Info(service: string, methodName: string)

  /** `s.strip_prefix(p)`: the rest of `s` when it starts with `p`. */
  function StripPrefix(s: string, p: string): (r: Option<string>)
    ensures r.Some? <==> |p| <= |s| && s[..|p|] == p
    ensures r.Some? ==> s == p + r.value
  {
    if |p| <= |s| && s[..|p|] == p then Some(s[|p|..]) else None
  }

  /** The position of the first `c` in `s`, if there is one. */
  function FirstIndex(s: string, c: char): (r: Option<nat>)
    ensures r.None? <==> c !in s
    ensures r.Some? ==> r.value < |s| && s[r.value] == c && c !in s[..r.value]
  {
    if s == [] then None
    else if s[0] == c then Some(0)
    else
      match FirstIndex(s[1..], c)
      case None => None
      case Some(i) =>
        assert s[..i + 1] == [s[0]] + s[1..][..i];
        Some(i + 1)
  }

  /** The position of the last `c` in `s`, if there is one. */
  function LastIndex(s: string, c: char): (r: Option<nat>)
    ensures r.None? <==> c !in s
    ensures r.Some? ==> r.value < |s| && s[r.value] == c && c !in s[r.value + 1..]
  {
    if s == [] then None
    else if s[|s| - 1] == c then Some(|s| - 1)
    else
      var init := s[..|s| - 1];
      match LastIndex(init, c)
      case None =>
        assert s == init + [s[|s| - 1]];
        None
      case Some(i) =>
        assert s[i + 1..] == init[i + 1..] + [s[|s| - 1]];
        Some(i)
  }

  /**
   * `s.splitn(2, c)`: the whole of `s` when it holds no `c`, otherwise the
   * text before the first `c` and everything after it.
   */
  function SplitOnce(s: string, c: char): (parts: seq<string>)
    ensures |parts| == 1 || |parts| == 2
    ensures |parts| == 1 <==> c !in s
    ensures |parts| == 1 ==> parts[0] == s
    ensures |parts| == 2 ==> c !in parts[0] && s == parts[0] + [c] + parts[1]
  {
    match FirstIndex(s, c)
    case None => [s]
    case Some(i) =>
      assert s == s[..i] + [c] + s[i + 1..];
      [s[..i], s[i + 1..]]
  }

  /**
   * `s.rsplitn(2, c)`: the whole of `s` when it holds no `c`, otherwise the
   * text after the last `c` and then everything before it.
   */
  function RSplitOnce(s: string, c: char): (parts: seq<string>)
    ensures |parts| == 1 || |parts| == 2
    ensures |parts| == 1 <==> c !in s
    ensures |parts| == 1 ==> parts[0] == s
    ensures |parts| == 2 ==> c !in parts[0] && s == parts[1] + [c] + parts[0]
  {
    match LastIndex(s, c)
    case None => [s]
    case Some(i) =>
      assert s == s[..i] + [c] + s[i + 1..];
      [s[i + 1..], s[..i]]
  }

  /** The unwrap in `parse_path` succeeds: the path starts with `/`. */
  predicate HasLeadingSlash(path: string) {
    StripPrefix(path, "/").Some?
  }

  /**
   * `parse_path`: drop the leading `/`, then split the rest once at `/`. The
   * service is everything up to that separator and the method everything
   * after it (further separators included); with no separator the method is
   * empty. A path without a leading `/` makes the source panic, so callers
   * must not pass one.
   */
  function ParsePath(path: string): (info: Info)
    requires HasLeadingSlash(path)
    ensures '/' !in info.service
    ensures '/' in path[1..] ==> path == "/" + info.service + "/" + info.methodName
    ensures '/' !in path[1..] ==> info.service == path[1..] && info.methodName == ""
  {
    var parts := SplitOnce(StripPrefix(path, "/").value, '/');
    if |parts| < 2 then
      Info(parts[0], "")
    else
      Info(parts[0], parts[1])
  }

  /** The unwrap in `parse_path` fails exactly on paths not starting with `/`. */
  lemma ParsePathDefinedIff(path: string)
    ensures HasLeadingSlash(path) <==> |path| > 0 && path[0] == '/'
  {
  }

  /** The request path addressing `info` (the inverse of `ParsePath`). */
  function FormatPath(info: Info): (path: string)
    ensures HasLeadingSlash(path)
    ensures |path| == |info.service| + |info.methodName| + 2
  {
    "/" + info.service + "/" + info.methodName
  }

  /** The first `/` of `a + "/" + b` is the one after `a` when `a` has none. */
  lemma {:induction false} FirstSlashAfter(a: string, b: string)
    requires '/' !in a
    ensures FirstIndex(a + "/" + b, '/') == Some(|a|)
  {
    if a != [] {
      assert (a + "/" + b)[1..] == a[1..] + "/" + b;
      FirstSlashAfter(a[1..], b);
    }
  }

  /**
   * Two ways of writing the same text as `a + "/" + b` agree when neither
   * prefix contains `/`.
   */
  lemma SplitAtFirstUnique(a: string, b: string, a': string, b': string)
    requires '/' !in a && '/' !in a'
    requires a + "/" + b == a' + "/" + b'
    ensures a == a' && b == b'
  {
    var whole := a + "/" + b;
    FirstSlashAfter(a, b);
    FirstSlashAfter(a', b');
    assert a == whole[..|a|] && b == whole[|a| + 1..];
    assert a' == whole[..|a'|] && b' == whole[|a'| + 1..];
  }

  /**
   * The split rule: `/s/m` with no `/` in `s` names service `s` and method
   * `m`, whatever `m` holds.
   */
  lemma ParseSplitRule(s: string, m: string)
    requires '/' !in s
    ensures HasLeadingSlash("/" + s + "/" + m)
    ensures ParsePath("/" + s + "/" + m) == Info(s, m)
  {
    var path := "/" + s + "/" + m;
    assert path == FormatPath(Info(s, m));
    assert path[1..] == s + "/" + m;
    assert path[1 + |s|] == '/';
    var info := ParsePath(path);
    SplitAtFirstUnique(info.service, info.methodName, s, m);
  }

  /** Formatting and then parsing gives back the identity. */
  lemma ParseFormatRoundTrip(info: Info)
    requires '/' !in info.service
    ensures ParsePath(FormatPath(info)) == info
  {
    ParseSplitRule(info.service, info.methodName);
  }

  /**
   * Parsing and then formatting gives back the path, whenever the path has a
   * second separator.
   */
  lemma FormatParseRoundTrip(path: string)
    requires HasLeadingSlash(path) && '/' in path[1..]
    ensures FormatPath(ParsePath(path)) == path
  {
  }

  /**
   * A single segment: `/s` with no further `/` names service `s` and the
   * empty method; `/` alone gives two empty names and does not panic.
   */
  lemma ParseSingleSegment(s: string)
    requires '/' !in s
    ensures HasLeadingSlash("/" + s)
    ensures ParsePath("/" + s) == Info(s, "")
  {
  }

  lemma ParseRoot()
    ensures HasLeadingSlash("/") && ParsePath("/") == Info("", "")
  {
    ParseSingleSegment("");
  }

  /**
   * `to_simple_service_name`: the last dot-separated segment of a
   * fully-qualified service name, or the whole name when it has no dot.
   */
  function ToSimpleServiceName(name: string): (simple: string)
    ensures '.' !in simple
    ensures |simple| <= |name| && simple == name[|name| - |simple|..]
    ensures '.' !in name ==> simple == name
    ensures '.' in name ==> |simple| < |name| && name == name[..|name| - |simple| - 1] + "." + simple
  {
    var parts := RSplitOnce(name, '.');
    if |parts| > 0 then
      var last := parts[0];
      assert |parts| == 2 ==> name[|name| - |last|..] == last && name[..|name| - |last| - 1] == parts[1] by {
        if |parts| == 2 {
          assert name[|name| - |last|..] == last;
          assert name[..|name| - |last| - 1] == parts[1];
        }
      }
      last
    else
      name
  }
}
