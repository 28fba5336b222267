/**
  The string rules of the notifiers: the label a control-plane path is recorded
  under (`urlToLabel`), the function name taken from a `/function/<name>/...`
  URL (`getServiceName`), and the default-namespace suffix.
 */
module Routing {
  import opened GoStrings

  /** The literal prefix `getServiceName` checks before running the matcher. */
  const ForwardPrefix: string := "/function/"
  /** Number of elements of a positive match: whole match, name, rest of path. */
  const HasPathCount: nat := 3
  /** Position of the function name in a positive match. */
  const NameIndex: nat := 1

  /**
    `urlToLabel`: trailing `/` removed from a non-empty path, and `/` in place of an
    empty result. The label is never empty; it is `/` exactly when the path is empty
    or made of `/` only, and otherwise it is the path minus its trailing slashes.
   */
  function UrlToLabel(path: string): (pathLabel: string)
    ensures pathLabel != ""
    ensures pathLabel == "/" <==> AllIn(path, {'/'})
    ensures !AllIn(path, {'/'}) ==>
      && HasPrefix(path, pathLabel)
      && AllIn(path[|pathLabel|..], {'/'})
      && pathLabel[|pathLabel| - 1] != '/'
  {
    var trimmed := if |path| > 0 then TrimRight(path, {'/'}) else path;
    if trimmed == "" then "/" else trimmed
  }

  /** Labelling an already-labelled path changes nothing. */
  lemma UrlToLabelIdempotent(path: string)
    ensures UrlToLabel(UrlToLabel(path)) == UrlToLabel(path)
  {
  }

  /** Length of the longest prefix of `s` that holds no character of `stops`. */
  function SpanNot(s: string, stops: set<char>): (n: nat)
    ensures n <= |s|
    ensures forall i :: 0 <= i < n ==> s[i] !in stops
    ensures n == |s| || s[n] in stops
  {
    if s == [] || s[0] in stops then 0 else 1 + SpanNot(s[1..], stops)
  }

  /**
    The function-route matcher. The compiled pattern is not part of this model;
    this matcher accepts a URL that starts with `/function/` followed by a non-empty
    name free of `/` and `?`, and yields the three-element match described at the
    call site: the matched text, the name, and the rest of the path up to any query.
    Any other URL yields no match (the empty sequence).
   */
  function FunctionMatcher(url: string): (matches: seq<string>)
    ensures matches == [] || |matches| == HasPathCount
    ensures |matches| == HasPathCount ==>
      && HasPrefix(url, matches[0])
      && matches[0] == ForwardPrefix + matches[NameIndex] + matches[2]
      && matches[NameIndex] != ""
      && (forall i :: 0 <= i < |matches[NameIndex]| ==> matches[NameIndex][i] !in {'/', '?'})
      && (matches[2] == "" || matches[2][0] == '/')
      && '?' !in matches[2]
      && (|url| == |matches[0]| || url[|matches[0]|] == '?')
  {
    if !HasPrefix(url, ForwardPrefix) then []
    else
      var tail := url[|ForwardPrefix|..];
      var n := SpanNot(tail, {'/', '?'});
      if n == 0 then []
      else
        var after := tail[n..];
        var rest := after[..SpanNot(after, {'?'})];
        assert url == ForwardPrefix + tail[..n] + after;
        assert rest == [] || rest[0] == after[0];
        assert url[..|ForwardPrefix + tail[..n] + rest|] == ForwardPrefix + tail[..n] + rest;
        [ForwardPrefix + tail[..n] + rest, tail[..n], rest]
  }

  /**
    `getServiceName`: the name segment of a `/function/<name>...` URL, with `/`
    trimmed from both ends; empty when the prefix is missing or the matcher does not
    yield three elements.
   */
  function GetServiceName(url: string): (name: string)
    ensures !HasPrefix(url, ForwardPrefix) ==> name == ""
    ensures name == "" || (name[0] != '/' && name[|name| - 1] != '/')
  {
    var serviceName :=
      if HasPrefix(url, ForwardPrefix) then
        var matches := FunctionMatcher(url);
        if |matches| == HasPathCount then matches[NameIndex] else ""
      else "";
    Trim(serviceName, {'/'})
  }

  /** When the matcher accepts the URL, the name is its second element, untouched by the trim. */
  lemma GetServiceNameOfMatch(url: string)
    requires |FunctionMatcher(url)| == HasPathCount
    ensures GetServiceName(url) == FunctionMatcher(url)[NameIndex]
  {
  }

  /**
    A non-empty name is the segment right after the prefix, followed in the URL by
    its end, a `/` or a `?`.
   */
  lemma GetServiceNameSegment(url: string)
    requires GetServiceName(url) != ""
    ensures var name := GetServiceName(url);
      && HasPrefix(url, ForwardPrefix + name)
      && (|url| == |ForwardPrefix + name| || url[|ForwardPrefix + name|] in {'/', '?'})
  {
    var matches := FunctionMatcher(url);
    GetServiceNameOfMatch(url);
    var prefix := ForwardPrefix + matches[NameIndex];
    assert matches[0] == prefix + matches[2];
    assert url[..|prefix|] == matches[0][..|prefix|] == prefix;
    if matches[2] != "" {
      assert url[|prefix|] == matches[0][|prefix|] == matches[2][0];
    }
  }

  /** A URL the matcher does not accept yields the empty name. */
  lemma GetServiceNameWithoutMatch(url: string)
    requires |FunctionMatcher(url)| != HasPathCount
    ensures GetServiceName(url) == ""
  {
  }

  /** Every URL of the form `/function/<name>[/<rest>][?<query>]` yields `<name>`. */
  lemma {:induction false} GetServiceNameOfRoute(name: string, rest: string)
    requires name != ""
    requires forall i :: 0 <= i < |name| ==> name[i] !in {'/', '?'}
    requires rest == "" || rest[0] in {'/', '?'}
    ensures GetServiceName(ForwardPrefix + name + rest) == name
  {
    var url := ForwardPrefix + name + rest;
    assert HasPrefix(url, ForwardPrefix);
    var tail := url[|ForwardPrefix|..];
    assert tail == name + rest;
    var n := SpanNot(tail, {'/', '?'});
    assert forall i :: 0 <= i < |name| ==> tail[i] == name[i];
    assert rest != "" ==> tail[|name|] == rest[0];
    assert tail[..n] == name;
    assert FunctionMatcher(url)[NameIndex] == name;
  }

  /** The example from the matcher's documentation. */
  lemma GetServiceNameExample()
    ensures GetServiceName("/function/xyz/rest/of/path?q=a") == "xyz"
  {
    var url := "/function/xyz/rest/of/path?q=a";
    assert url == ForwardPrefix + "xyz" + "/rest/of/path?q=a";
    GetServiceNameOfRoute("xyz", "/rest/of/path?q=a");
  }

  /**
    The default-namespace suffix: with a non-empty namespace, a name holding no `.`
    becomes `name.<namespace>`; otherwise the name is kept.
   */
  function WithNamespace(name: string, namespace: string): (r: string)
    ensures r == name <==> (namespace == "" || '.' in name)
    ensures r != name ==> |name| < |r| && r[|name|..] == "." + namespace
  {
    if |namespace| > 0 && '.' !in name then name + "." + namespace else name
  }

  /** The name is always a prefix of its suffixed form. */
  lemma WithNamespaceKeepsName(name: string, namespace: string)
    ensures HasPrefix(WithNamespace(name, namespace), name)
  {
  }

  /** Suffixing an already suffixed name changes nothing. */
  lemma WithNamespaceIdempotent(name: string, namespace: string)
    ensures WithNamespace(WithNamespace(name, namespace), namespace) == WithNamespace(name, namespace)
  {
  }
}
