/** The browser string and URL operations the portfolio components lean on: `split(sep)[k]`,
    `new URL(s)` with its `hostname`, `pathname` and `searchParams`. The URL parser follows the
    WHATWG rules for a scheme, an authority, a path, a query and a fragment, including the
    trimming of the input and the slashes a special scheme ignores. */
module WebUrl {
  import opened Common

  // ---------------------------------------------------------------
  // Splitting
  // ---------------------------------------------------------------

  /** Position of the first occurrence of `sub` in `s`, or -1 (`indexOf` on strings). */
  function FindSub(s: string, sub: string): (i: int)
    ensures -1 <= i
    ensures i >= 0 <==> Contains(s, sub)
    ensures i >= 0 ==> i + |sub| <= |s| && s[i..i + |sub|] == sub
    ensures i >= 0 ==> forall j :: 0 <= j < i ==> !StartsWith(s[j..], sub)
    decreases |s|
  {
    if StartsWith(s, sub) then 0
    else if |s| == 0 then -1
    else
      var k := FindSub(s[1..], sub);
      if k < 0 then -1
      else
        assert forall j :: 1 <= j <= k ==> s[1..][j - 1..] == s[j..];
        k + 1
  }

  /** `s.split(sep)[1]`: the text between the first and the second `sep`, or `None` (undefined)
      when `sep` does not occur. */
  function SplitSecond(s: string, sep: string): (r: Option<string>)
    requires sep != []
    ensures r.Some? <==> Contains(s, sep)
    ensures r.Some? ==> StartsWith(s[FindSub(s, sep) + |sep|..], r.value)
  {
    var i := FindSub(s, sep);
    if i < 0 then None
    else
      var after := s[i + |sep|..];
      var j := FindSub(after, sep);
      Some(if j < 0 then after else after[..j])
  }

  /** `s.split(c)[0]`: the text before the first `c`, or all of `s`. */
  function Before(s: string, c: char): (r: string)
    ensures c !in r && |r| <= |s| && r == s[..|r|]
    ensures |r| < |s| ==> s[|r|] == c
  {
    var i := IndexOf(s, c);
    if i < 0 then s else s[..i]
  }

  /** The position of the first character of `stops`, or the length of `s`. */
  function FirstOf(s: string, stops: set<char>): (i: nat)
    ensures i <= |s|
    ensures forall j :: 0 <= j < i ==> s[j] !in stops
    ensures i < |s| ==> s[i] in stops
  {
    if s == [] || s[0] in stops then 0 else 1 + FirstOf(s[1..], stops)
  }

  /** A string that holds none of `sub`'s characters `c` cannot contain `sub`. */
  lemma {:induction false} NotContainsChar(s: string, sub: string, c: char)
    requires c in sub && c !in s
    ensures !Contains(s, sub)
    decreases |s|
  {
    if StartsWith(s, sub) {
      assert false;
    }
    if |s| > 0 {
      NotContainsChar(s[1..], sub, c);
    }
  }

  // ---------------------------------------------------------------
  // new URL(s)
  // ---------------------------------------------------------------

  /** The parts of a parsed URL the components read. */
  datatype Url = Url(scheme: string, hostname: string, pathname: string, query: string)

  /** `new URL` throws a `TypeError` on a string it cannot parse. */
  datatype UrlError = InvalidUrl

  predicate IsSchemeStart(c: char) {
    'a' <= c <= 'z' || 'A' <= c <= 'Z'
  }

  predicate IsSchemeChar(c: char) {
    IsSchemeStart(c) || '0' <= c <= '9' || c == '+' || c == '-' || c == '.'
  }

  predicate IsSchemeName(s: string) {
    |s| > 0 && IsSchemeStart(s[0]) && forall j :: 1 <= j < |s| ==> IsSchemeChar(s[j])
  }

  /** The schemes whose URLs must have a host. */
  const SpecialSchemes: set<string> := {"http", "https", "ws", "wss", "ftp"}

  /** The host of an authority: without the user information before the last '@' and without the
      port. A special scheme's host is a domain, put in lower case; any other scheme's host is
      opaque and keeps its case. */
  function HostOf(authority: string, special: bool): string {
    var at := LastIndexOf(authority, '@');
    var h := Before(authority[at + 1..], ':');
    if special then ToLower(h) else h
  }

  /** A C0 control or a space, which `new URL` strips from both ends of its input. */
  predicate IsC0OrSpace(c: char) {
    c <= ' '
  }

  /** The input without its leading and trailing C0 controls and spaces. */
  function TrimC0(s: string): (t: string)
    ensures forall c :: c in t ==> c in s
    ensures t == [] || (!IsC0OrSpace(t[0]) && !IsC0OrSpace(t[|t| - 1]))
    decreases |s|
  {
    if s != [] && IsC0OrSpace(s[0]) then TrimC0(s[1..])
    else if s != [] && IsC0OrSpace(s[|s| - 1]) then TrimC0(s[..|s| - 1])
    else s
  }

  /** The text after the leading '/'s, which a special scheme skips before its authority. */
  function DropSlashes(t: string): (r: string)
    ensures r == [] || r[0] != '/'
  {
    if t != [] && t[0] == '/' then DropSlashes(t[1..]) else t
  }

  /** The path of what follows the authority: up to the query or the fragment. */
  function PathOf(tail: string): string {
    tail[..FirstOf(tail, {'?', '#'})]
  }

  /** The query of what follows the authority: after the '?' and up to the fragment, or "". */
  function QueryOf(tail: string): string {
    var q := FirstOf(tail, {'?', '#'});
    if q < |tail| && tail[q] == '?' then
      var rest := tail[q + 1..];
      rest[..FirstOf(rest, {'#'})]
    else ""
  }

  /** `new URL(s)`, `None` where it throws, on the input trimmed of C0 controls and spaces. */
  function ParseUrl(s: string): (r: Option<Url>)
    ensures r.Some? ==> ':' in s
  {
    ParseTrimmed(TrimC0(s))
  }

  /** The parse of an input already trimmed: a scheme up to the first ':', then the rest. */
  function ParseTrimmed(t: string): (r: Option<Url>)
    ensures r.Some? ==> ':' in t
  {
    var k := IndexOf(t, ':');
    if k <= 0 || !IsSchemeName(t[..k]) then None
    else
      assert t[k] in t;
      ParseAfterScheme(ToLower(t[..k]), t[k + 1..])
  }

  /** The rest of a URL after `scheme:`. A special scheme skips any number of '/', none included,
      and reads an authority; another scheme reads one after "//", and otherwise a path. */
  function ParseAfterScheme(scheme: string, rest: string): Option<Url> {
    if scheme in SpecialSchemes then ParseAuthority(scheme, DropSlashes(rest))
    else if StartsWith(rest, "//") then ParseAuthority(scheme, rest[2..])
    else Some(Url(scheme, "", PathOf(rest), QueryOf(rest)))
  }

  /** The authority runs to the first '/', '?' or '#'; a special scheme needs a host. */
  function ParseAuthority(scheme: string, t: string): Option<Url> {
    var e := FirstOf(t, {'/', '?', '#'});
    var host := HostOf(t[..e], scheme in SpecialSchemes);
    if scheme in SpecialSchemes && host == "" then None
    else Some(Url(scheme, host, PathOf(t[e..]), QueryOf(t[e..])))
  }

  /** `url.searchParams.get(name)`: the value of the first `name=value` pair of the query, "" for a
      pair without '=', or `None` (null) when no pair has that name. */
  function QueryGet(query: string, name: string): (r: Option<string>)
    ensures r.Some? ==> '&' !in r.value
    decreases |query|
  {
    if query == [] then None
    else
      var e := FirstOf(query, {'&'});
      var pair := query[..e];
      var n := Before(pair, '=');
      if pair != "" && n == name then
        assert forall j :: |n| + 1 <= j < |pair| ==> pair[j] == query[j];
        Some(if |n| < |pair| then pair[|n| + 1..] else "")
      else if e < |query| then QueryGet(query[e + 1..], name)
      else None
  }

  /** A URL without a ':' cannot be parsed. */
  lemma NoColonNoUrl(s: string)
    requires ':' !in s
    ensures ParseUrl(s) == None
  {
  }

  /** An `https` URL with a plain host, a path and a query parses into those parts. */
  lemma ParseHttps(host: string, path: string, query: string)
    requires host != [] && forall c :: c in host ==> 'a' <= c <= 'z' || c == '.'
    requires path == [] || path[0] == '/'
    requires '?' !in path && '#' !in path && '#' !in query
    requires query == [] || !IsC0OrSpace(query[|query| - 1])
    ensures ParseUrl("https://" + host + path + "?" + query) == Some(Url("https", host, path, query))
  {
    var sl := Slashes(2);
    assert "https:" + sl == "https://";
    ParseHttpsSlashes(2, host, path, query);
  }

  /** `n` slashes. */
  function Slashes(n: nat): (r: string)
    ensures |r| == n && forall i :: 0 <= i < n ==> r[i] == '/'
  {
    seq(n, _ => '/')
  }

  /** An `https` URL parses the same with any number of slashes after the ':', none included:
      "https:host/p?q" and "https:///host/p?q" are "https://host/p?q". */
  lemma ParseHttpsSlashes(n: nat, host: string, path: string, query: string)
    requires host != [] && forall c :: c in host ==> 'a' <= c <= 'z' || c == '.'
    requires path == [] || path[0] == '/'
    requires '?' !in path && '#' !in path && '#' !in query
    requires query == [] || !IsC0OrSpace(query[|query| - 1])
    ensures ParseUrl("https:" + Slashes(n) + host + path + "?" + query) == Some(Url("https", host, path, query))
  {
    var t := host + (path + "?" + query);
    assert "https:" + Slashes(n) + host + path + "?" + query == "https" + [':'] + (Slashes(n) + t);
    assert t[|t| - 1] == '?' || t[|t| - 1] == query[|query| - 1];
    HttpsScheme();
    SchemeSplit("https", Slashes(n) + t);
    assert host[0] in host;
    SpecialSlashes("https", n, t);
    ParseHttpsAuthority(host, path, query);
  }

  /** A special scheme skips every '/' before its authority. */
  lemma SpecialSlashes(scheme: string, n: nat, t: string)
    requires scheme in SpecialSchemes && (t == [] || t[0] != '/')
    ensures ParseAfterScheme(scheme, Slashes(n) + t) == ParseAuthority(scheme, t)
  {
    DropSlashesOf(n, t);
  }

  lemma {:induction false} DropSlashesOf(n: nat, t: string)
    requires t == [] || t[0] != '/'
    ensures DropSlashes(Slashes(n) + t) == t
  {
    if n > 0 {
      assert (Slashes(n) + t)[1..] == Slashes(n - 1) + t;
      DropSlashesOf(n - 1, t);
    }
  }

  /** Another scheme keeps the case of its host: "foo://ABC/" has the host "ABC". */
  lemma OpaqueHostKeepsCase(scheme: string, host: string, tail: string)
    requires scheme !in SpecialSchemes
    requires forall c :: c in host ==> c !in {'@', ':', '/', '?', '#'}
    requires tail == [] || tail[0] == '/'
    ensures ParseAfterScheme(scheme, "//" + host + tail).Some?
    ensures ParseAfterScheme(scheme, "//" + host + tail).value.hostname == host
  {
    var t := host + tail;
    assert "//" + host + tail == "//" + t && ("//" + t)[2..] == t;
    HostOfPlainAuthority(host, tail, false);
  }

  /** A special scheme's host is lower-cased: "HTTP://ABC/" has the host "abc". */
  lemma SpecialHostLowered(scheme: string, host: string, tail: string)
    requires scheme in SpecialSchemes && host != [] && host[0] != '/'
    requires forall c :: c in host ==> c !in {'@', ':', '/', '?', '#'}
    requires tail == [] || tail[0] == '/'
    ensures ParseAfterScheme(scheme, "//" + host + tail).Some?
    ensures ParseAfterScheme(scheme, "//" + host + tail).value.hostname == ToLower(host)
  {
    var t := host + tail;
    var sl := Slashes(2);
    assert sl + t == "//" + host + tail;
    SpecialSlashes(scheme, 2, t);
    HostOfPlainAuthority(host, tail, true);
  }

  /** The authority of `host + tail` ends at the end of the host, and its host is that host. */
  lemma HostOfPlainAuthority(host: string, tail: string, special: bool)
    requires forall c :: c in host ==> c !in {'@', ':', '/', '?', '#'}
    requires tail == [] || tail[0] == '/'
    ensures FirstOf(host + tail, {'/', '?', '#'}) == |host|
    ensures HostOf((host + tail)[..|host|], special) == if special then ToLower(host) else host
  {
    var t := host + tail;
    if tail == [] {
      assert t == host;
      FirstOfWhole(host, {'/', '?', '#'});
    } else {
      FirstOfAfter(host, tail, {'/', '?', '#'});
    }
    assert t[..|host|] == host;
    assert LastIndexOf(host, '@') == -1;
    assert host[0..] == host;
    assert Before(host, ':') == host;
  }

  /** Leading and trailing C0 controls and spaces do not change how a URL parses. */
  lemma ParseUrlIgnoresPadding(pre: string, s: string, post: string)
    requires forall c :: c in pre + post ==> IsC0OrSpace(c)
    ensures ParseUrl(pre + s + post) == ParseUrl(s)
  {
    TrimC0Pad(pre, s, post);
    assert ParseUrl(pre + s + post) == ParseTrimmed(TrimC0(pre + s + post));
  }

  lemma {:induction false} TrimC0Pad(pre: string, s: string, post: string)
    requires forall c :: c in pre + post ==> IsC0OrSpace(c)
    ensures TrimC0(pre + s + post) == TrimC0(s)
    decreases |pre|
  {
    if pre != [] {
      assert (pre + s + post)[1..] == pre[1..] + s + post;
      assert pre[0] in pre + post;
      assert forall c :: c in pre[1..] + post ==> c in pre + post;
      TrimC0Pad(pre[1..], s, post);
    } else {
      assert pre + s + post == s + post;
      TrimC0Suffix(s, post);
    }
  }

  lemma {:induction false} TrimC0Suffix(s: string, post: string)
    requires forall c :: c in post ==> IsC0OrSpace(c)
    ensures TrimC0(s + post) == TrimC0(s)
    decreases |post|
  {
    if post != [] {
      var n := |post| - 1;
      assert post[n] in post;
      assert s + post == (s + post[..n]) + [post[n]];
      assert forall c :: c in post[..n] ==> c in post;
      TrimC0Snoc(s + post[..n], post[n]);
      TrimC0Suffix(s, post[..n]);
    } else {
      assert s + post == s;
    }
  }

  /** A trailing C0 control or space is trimmed away. */
  lemma {:induction false} TrimC0Snoc(s: string, c: char)
    requires IsC0OrSpace(c)
    ensures TrimC0(s + [c]) == TrimC0(s)
    decreases |s|
  {
    var x := s + [c];
    if s != [] && IsC0OrSpace(s[0]) {
      assert x[1..] == s[1..] + [c];
      TrimC0Snoc(s[1..], c);
    } else {
      assert x[..|x| - 1] == s;
    }
  }

  lemma HttpsScheme()
    ensures IsSchemeName("https") && ':' !in "https" && ToLower("https") == "https"
  {
  }

  /** A URL is split at the ':' that ends its scheme. */
  lemma SchemeSplit(scheme: string, rest: string)
    requires IsSchemeName(scheme) && ':' !in scheme
    requires rest == [] || !IsC0OrSpace(rest[|rest| - 1])
    ensures ParseUrl(scheme + [':'] + rest) == ParseAfterScheme(ToLower(scheme), rest)
  {
    var s := scheme + [':'] + rest;
    assert s[0] == scheme[0] && s[|s| - 1] == if rest == [] then ':' else rest[|rest| - 1];
    assert TrimC0(s) == s;
    IndexOfAt(scheme, ':', rest);
    assert s[..|scheme|] == scheme && s[|scheme| + 1..] == rest;
  }

  lemma ParseHttpsAuthority(host: string, path: string, query: string)
    requires host != [] && forall c :: c in host ==> 'a' <= c <= 'z' || c == '.'
    requires path == [] || path[0] == '/'
    requires '?' !in path && '#' !in path && '#' !in query
    ensures ParseAuthority("https", host + (path + "?" + query)) == Some(Url("https", host, path, query))
  {
    var tail := path + "?" + query;
    var t := host + tail;
    AuthorityEnd(host, tail);
    assert t[..|host|] == host && t[|host|..] == tail;
    PlainHost(host);
    TailParts(path, query);
  }

  lemma AuthorityEnd(host: string, tail: string)
    requires forall c :: c in host ==> 'a' <= c <= 'z' || c == '.'
    requires tail != [] && (tail[0] == '/' || tail[0] == '?')
    ensures FirstOf(host + tail, {'/', '?', '#'}) == |host|
  {
    FirstOfAfter(host, tail, {'/', '?', '#'});
  }

  lemma PlainHost(host: string)
    requires forall c :: c in host ==> 'a' <= c <= 'z' || c == '.'
    ensures HostOf(host, true) == host
  {
    assert LastIndexOf(host, '@') == -1;
    assert host[0..] == host;
    assert Before(host, ':') == host;
    ToLowerIdle(host);
  }

  lemma TailParts(path: string, query: string)
    requires '?' !in path && '#' !in path && '#' !in query
    ensures PathOf(path + "?" + query) == path && QueryOf(path + "?" + query) == query
  {
    var tail := path + "?" + query;
    assert tail == path + ("?" + query);
    FirstOfAfter(path, "?" + query, {'?', '#'});
    assert tail[..|path|] == path;
    assert tail[|path|] == '?';
    assert tail[|path| + 1..] == query;
    FirstOfWhole(query, {'#'});
  }

  /** The first `c` in `a + [c] + b` is at `|a|` when `a` holds none. */
  lemma IndexOfAt(a: string, c: char, b: string)
    requires c !in a
    ensures IndexOf(a + [c] + b, c) == |a|
  {
    var s := a + [c] + b;
    assert s[|a|] == c;
  }

  lemma ToLowerIdle(s: string)
    requires forall c :: c in s ==> !('A' <= c <= 'Z')
    ensures ToLower(s) == s
  {
    forall i | 0 <= i < |s|
      ensures ToLower(s)[i] == s[i]
    {
      assert s[i] in s;
    }
  }

  /** `FirstOf` skips a prefix free of the stops and stops at a following stop. */
  lemma {:induction false} FirstOfAfter(a: string, b: string, stops: set<char>)
    requires forall c :: c in a ==> c !in stops
    requires b != [] && b[0] in stops
    ensures FirstOf(a + b, stops) == |a|
  {
    if a != [] {
      assert (a + b)[1..] == a[1..] + b;
      FirstOfAfter(a[1..], b, stops);
    } else {
      assert a + b == b;
    }
  }

  /** A query that starts with `name=value` gives `value` for `name`. */
  lemma QueryGetLeading(name: string, value: string, rest: string)
    requires name != [] && '&' !in name && '=' !in name && '&' !in value
    requires rest == [] || rest[0] == '&'
    ensures QueryGet(name + "=" + value + rest, name) == Some(value)
  {
    var q := name + "=" + value + rest;
    var pair := name + "=" + value;
    if rest == [] {
      assert q == pair + [];
      FirstOfWhole(pair, {'&'});
    } else {
      assert q == pair + rest;
      FirstOfAfter(pair, rest, {'&'});
    }
    assert q[..|pair|] == pair;
    IndexOfAt(name, '=', value);
    assert pair[|name| + 1..] == value;
  }

  /** A string free of the stops is scanned to its end. */
  lemma {:induction false} FirstOfWhole(a: string, stops: set<char>)
    requires forall c :: c in a ==> c !in stops
    ensures FirstOf(a, stops) == |a|
  {
    if a != [] {
      assert forall c :: c in a[1..] ==> c in a;
      FirstOfWhole(a[1..], stops);
    }
  }
}
