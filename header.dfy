/**
  The inverse of the last step of building the user-agent string: splitting
  that string at its first '/' into the product token before it and the
  version after it. It applies to the user-agent string the library returns,
  not to whatever header the SDK finally sends.
*/
module UserAgentHeader {
  import opened Wrappers
  import opened Utils

  /** The position of the first occurrence of `c` in `s`, if any. */
  function IndexOf(s: string, c: char): (r: Option<nat>)
    ensures r.Some? ==> r.value < |s| && s[r.value] == c
    ensures r.Some? ==> forall k :: 0 <= k < r.value ==> s[k] != c
    ensures r.None? <==> c !in s
  {
    if s == [] then None
    else if s[0] == c then Some(0)
    else match IndexOf(s[1..], c)
      case None => None
      case Some(i) => Some(i + 1)
  }

  /** Splits a header into product and version at its first '/'. */
  function ParseUserAgent(header: string): (r: Option<(string, string)>)
    ensures r.Some? ==> header == r.value.0 + "/" + r.value.1 && '/' !in r.value.0
    ensures r.None? <==> '/' !in header
  {
    match IndexOf(header, '/')
    case None => None
    case Some(i) =>
      assert header == header[..i] + "/" + header[i + 1..];
      Some((header[..i], header[i + 1..]))
  }

  /** Whenever `p` has no '/', the first '/' of `p + "/" + v` is the one right after `p`. */
  lemma {:induction false} FirstSlashAfterProduct(p: string, v: string)
    requires '/' !in p
    ensures IndexOf(p + "/" + v, '/') == Some(|p|)
  {
    if p != [] {
      assert (p + "/" + v)[1..] == p[1..] + "/" + v;
      FirstSlashAfterProduct(p[1..], v);
    }
  }

  /** Every user-agent string the library builds splits back into its package name and its version. */
  lemma UserAgentRoundTrip(moduleName: Option<string>, installed: Option<string>, agentEngineId: Option<string>)
    ensures var (version, header) := GetUserAgent(moduleName, installed, agentEngineId);
      ParseUserAgent(header) == Some((PackageName, version))
  {
    var (version, header) := GetUserAgent(moduleName, installed, agentEngineId);
    assert forall k :: 0 <= k < |PackageName| ==> PackageName[k] != '/';
    assert header == PackageName + "/" + version;
    FirstSlashAfterProduct(PackageName, version);
    assert header[..|PackageName|] == PackageName;
    assert header[|PackageName| + 1..] == version;
  }
}
