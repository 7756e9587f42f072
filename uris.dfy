/** The part of `android.net.Uri.parse` the deep-link resolver reads:
    scheme, host and last path segment of a URI string. */
module Uris {
  import opened Wrappers

  /** A parsed URI: `path` is None for an opaque URI (one whose text after
      the scheme does not start with '/'). */
  datatype Uri = Uri(scheme: Option<string>, host: Option<string>, path: Option<string>)

  /** The first index of `s` holding one of `stops`, or |s| if none does. */
  function IndexOfAny(s: string, stops: set<char>): (i: nat)
    ensures i <= |s|
    ensures forall j :: 0 <= j < i ==> s[j] !in stops
    ensures i < |s| ==> s[i] in stops
  {
    if s == [] then 0
    else if s[0] in stops then 0
    else 1 + IndexOfAny(s[1..], stops)
  }

  /** The index is determined by the position of the first stop. */
  lemma IndexOfAnyAt(a: string, b: string, stops: set<char>)
    requires forall j :: 0 <= j < |a| ==> a[j] !in stops
    requires b == [] || b[0] in stops
    ensures IndexOfAny(a + b, stops) == |a|
  {
    assert forall j :: 0 <= j < |a| ==> (a + b)[j] == a[j];
    if b != [] {
      assert (a + b)[|a|] == b[0];
    }
  }

  /** The text of `path` after the authority `//…`, or after the scheme separator. */
  function PathPart(rest: string, hasAuthority: bool): (p: string)
    requires hasAuthority ==> |rest| >= 2
  {
    if hasAuthority then
      var auth := rest[2..];
      var a := IndexOfAny(auth, {'/', '?', '#'});
      if a < |auth| && auth[a] != '/' then ""
      else
        var tail := auth[a..];
        tail[..IndexOfAny(tail, {'?', '#'})]
    else
      rest[..IndexOfAny(rest, {'?', '#'})]
  }

  /** The authority of the text after the scheme: present when it starts
      with "//", and running to the first '/', '?' or '#'. */
  function HostOf(rest: string): (h: Option<string>)
    ensures h.Some? <==> |rest| >= 2 && rest[0] == '/' && rest[1] == '/'
  {
    if |rest| >= 2 && rest[0] == '/' && rest[1] == '/' then
      var auth := rest[2..];
      Some(auth[..IndexOfAny(auth, {'/', '?', '#'})])
    else None
  }

  /** The path of the text after the scheme; None for an opaque URI. */
  function PathOf(rest: string, absolute: bool): (p: Option<string>)
    ensures p.None? <==> absolute && (rest == [] || rest[0] != '/')
  {
    if absolute && (rest == [] || rest[0] != '/') then None
    else Some(PathPart(rest, |rest| >= 2 && rest[0] == '/' && rest[1] == '/'))
  }

  /** `Uri.parse(s)`: the scheme is what precedes the first ':'; an authority
      follows when "//" comes next and runs to the first '/', '?' or '#';
      the path runs from there to the first '?' or '#'. */
  function Parse(s: string): (u: Uri)
    ensures u.scheme.Some? <==> ':' in s
  {
    var ssi := IndexOfAny(s, {':'});
    if ssi < |s| then
      var rest := s[ssi + 1..];
      Uri(Some(s[..ssi]), HostOf(rest), PathOf(rest, true))
    else
      Uri(None, HostOf(s), PathOf(s, false))
  }

  /** The trailing run of non-'/' characters of `p`. */
  function TrailingRun(p: string): (r: string)
    ensures |r| <= |p| && r == p[|p| - |r|..]
    ensures '/' !in r
    ensures |r| < |p| ==> p[|p| - |r| - 1] == '/'
  {
    if p == [] || p[|p| - 1] == '/' then []
    else
      var r := TrailingRun(p[..|p| - 1]);
      assert p[..|p| - 1][|p| - 1 - |r|..] + [p[|p| - 1]] == p[|p| - |r| - 1..];
      r + [p[|p| - 1]]
  }

  /** `getLastPathSegment()`: the last non-empty segment of the path split at '/'. */
  function LastSegmentOf(p: string): (r: Option<string>)
    ensures r.Some? ==> r.value != [] && '/' !in r.value
    ensures r.None? <==> forall i :: 0 <= i < |p| ==> p[i] == '/'
  {
    if p == [] then None
    else if p[|p| - 1] == '/' then
      var r := LastSegmentOf(p[..|p| - 1]);
      assert forall i :: 0 <= i < |p| - 1 ==> p[..|p| - 1][i] == p[i];
      r
    else Some(TrailingRun(p))
  }

  function LastPathSegment(u: Uri): Option<string>
  {
    match u.path
    case None => None
    case Some(p) => LastSegmentOf(p)
  }

  /** The run after the last '/' is everything after it. */
  lemma {:induction false} TrailingRunAfterSlash(a: string, id: string)
    requires '/' !in id
    ensures TrailingRun(a + "/" + id) == id
    decreases |id|
  {
    var p := a + "/" + id;
    if id != [] {
      var init := id[..|id| - 1];
      assert p[..|p| - 1] == a + "/" + init;
      assert id[|id| - 1] in id;
      TrailingRunAfterSlash(a, init);
      assert init + [id[|id| - 1]] == id;
    }
  }

  /** A non-empty run of non-'/' characters after a '/' is the last segment. */
  lemma LastSegmentAfterSlash(a: string, id: string)
    requires id != [] && '/' !in id
    ensures LastSegmentOf(a + "/" + id) == Some(id)
  {
    var p := a + "/" + id;
    assert p[|p| - 1] == id[|id| - 1];
    assert id[|id| - 1] in id;
    TrailingRunAfterSlash(a, id);
  }
}
