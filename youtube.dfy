/**
  The YouTube short-link canonicaliser (utils.go): a link that mentions
  "youtu.be" anywhere is rewritten to the long watch form, using the last element
  of the path that Go's `url.Parse` finds; any other text is returned as it is.

  `UrlPath` follows `url.Parse` for the path only: the fragment is cut off at the
  first "#", a control byte or a leading ":" is an error, a scheme is a letter
  followed by letters, digits, "+", "-" or "." and a ":", the query is cut off at
  the first "?", a rootless path after a scheme is opaque (empty path), and an
  authority introduced by "//" runs to the next "/". A "%" in the path or the
  fragment that does not start two hex digits is an error.
 */
module YouTube {
  import opened Wrappers
  import opened Strings

  const ShortLinkMarker := "youtu.be"
  const WatchUrlPrefix := "https://www.youtube.com/watch?v="

  /** The text before the first `c`, or all of it (`strings.Cut`'s first result). */
  function Before(s: string, c: char): (r: string)
    ensures c !in r && StartsWith(s, r)
    ensures c !in s ==> r == s
  {
    if c in s then s[..IndexOf(s, c)] else s
  }

  /** The text after the first `c`, or nothing (`strings.Cut`'s second result). */
  function After(s: string, c: char): (r: string)
    ensures c !in s ==> r == []
  {
    if c in s then s[IndexOf(s, c) + 1..] else ""
  }

  predicate IsHexDigit(c: char)
  {
    '0' <= c <= '9' || 'a' <= c <= 'f' || 'A' <= c <= 'F'
  }

  /**
    Every "%" starts an escape of two hex digits: otherwise `url.Parse` reports an
    `EscapeError` when it unescapes the path or the fragment.
   */
  predicate WellEscaped(s: string)
  {
    forall i :: 0 <= i < |s| ==> EscapeAt(s, i)
  }

  /** The character at `i` is not a "%", or starts an escape of two hex digits. */
  predicate EscapeAt(s: string, i: nat)
    requires i < |s|
  {
    s[i] == '%' ==> i + 2 < |s| && IsHexDigit(s[i + 1]) && IsHexDigit(s[i + 2])
  }

  /** Index of the last `c` in `s` (`strings.LastIndex`). */
  function LastIndexOf(s: string, c: char): (i: nat)
    requires c in s
    ensures i < |s| && s[i] == c && c !in s[i + 1..]
  {
    if s[|s| - 1] == c then |s| - 1 else LastIndexOf(s[..|s| - 1], c)
  }

  /** An ASCII control character (`stringContainsCTLByte`). */
  predicate IsControl(c: char)
  {
    c < ' ' || c as int == 0x7f
  }

  predicate HasControl(s: string)
  {
    exists k :: 0 <= k < |s| && IsControl(s[k])
  }

  predicate IsLetter(c: char)
  {
    'a' <= c <= 'z' || 'A' <= c <= 'Z'
  }

  /**
    `getScheme(raw)` scanning from index `i`: `None` is the "missing protocol
    scheme" error, otherwise the scheme (possibly empty) and the rest.
   */
  function GetSchemeFrom(raw: string, i: nat): Option<(string, string)>
    requires i <= |raw|
    decreases |raw| - i
  {
    if i == |raw| then Some(("", raw))
    else
      var c := raw[i];
      if IsLetter(c) then GetSchemeFrom(raw, i + 1)
      else if IsDigit(c) || c == '+' || c == '-' || c == '.' then
        if i == 0 then Some(("", raw)) else GetSchemeFrom(raw, i + 1)
      else if c == ':' then
        if i == 0 then None else Some((raw[..i], raw[i + 1..]))
      else Some(("", raw))
  }

  /**
    `url.Parse(raw).Path`, or `None` when `url.Parse` reports an error. The path
    and the fragment are checked for malformed escapes but not decoded.
   */
  function UrlPath(raw: string): (r: Option<string>)
  {
    var u := Before(raw, '#');
    if !WellEscaped(After(raw, '#')) || HasControl(u) then None
    else if u == "*" then Some("*")
    else match GetSchemeFrom(u, 0)
      case None => None
      case Some((scheme, afterScheme)) =>
        var rest := Before(afterScheme, '?');
        if !StartsWith(rest, "/") && scheme != "" then Some("")
        else if !StartsWith(rest, "/") && ':' in Before(rest, '/') then None
        else
          var path :=
            if StartsWith(rest, "//") && (scheme != "" || !StartsWith(rest, "///")) then
              var authority := rest[2..];
              if '/' in authority then authority[IndexOf(authority, '/')..] else ""
            else rest;
          if WellEscaped(path) then Some(path) else None
  }

  /**
    `url.Parse` fails on a control byte before the fragment and on a malformed
    escape in the fragment; "*" is its own path; a path it returns holds no
    malformed escape.
   */
  lemma UrlPathErrors(raw: string)
    ensures HasControl(Before(raw, '#')) || !WellEscaped(After(raw, '#')) ==> UrlPath(raw).None?
    ensures Before(raw, '#') == "*" && WellEscaped(After(raw, '#')) ==> UrlPath(raw) == Some("*")
    ensures UrlPath(raw).Some? ==> WellEscaped(UrlPath(raw).value)
  {
  }

  /** The path without its trailing slashes. */
  function TrimTrailingSlashes(p: string): (r: string)
    ensures StartsWith(p, r) && (r == [] || r[|r| - 1] != '/')
  {
    if p != [] && p[|p| - 1] == '/' then TrimTrailingSlashes(p[..|p| - 1]) else p
  }

  /** `path.Base`: the last element of a slash-separated path. */
  function PathBase(p: string): (b: string)
    ensures b != [] && (b == "/" || '/' !in b)
  {
    if p == [] then "."
    else
      var t := TrimTrailingSlashes(p);
      var last := if '/' in t then t[LastIndexOf(t, '/') + 1..] else t;
      if last == [] then "/" else last
  }

  /**
    `reformatYouTubeUrl`. The source ignores `url.Parse`'s error and reads the
    path of the result, which is nil on an error; so a link that mentions
    "youtu.be" must parse.
   */
  function ReformatYouTubeUrl(origin: string): (r: string)
    requires Contains(origin, ShortLinkMarker) ==> UrlPath(origin).Some?
    ensures !Contains(origin, ShortLinkMarker) ==> r == origin
    ensures Contains(origin, ShortLinkMarker) ==> StartsWith(r, WatchUrlPrefix)
  {
    if Contains(origin, ShortLinkMarker) then
      var videoId := PathBase(UrlPath(origin).value);
      WatchUrlPrefix + videoId
    else origin
  }

  /** The video id the rewrite uses. */
  function VideoId(origin: string): string
    requires UrlPath(origin).Some?
  {
    PathBase(UrlPath(origin).value)
  }

  // ---------------------------------------------------------------------------
  // Properties
  // ---------------------------------------------------------------------------

  /** A single differing character rules out an occurrence. */
  lemma NotAt(s: string, w: string, i: nat, j: nat)
    requires j < |w| && (i + |w| > |s| || s[i + j] != w[j])
    ensures !OccursAt(s, w, i)
  {
    if i + |w| <= |s| {
      assert s[i..i + |w|][j] == s[i + j];
    }
  }

  /** The long form itself never mentions the short-link host. */
  lemma PrefixHasNoMarker()
    ensures !Contains(WatchUrlPrefix, ShortLinkMarker)
  {
    forall i: nat
      ensures !OccursAt(WatchUrlPrefix, ShortLinkMarker, i)
    {
      PrefixHasNoMarkerAt(i);
    }
  }

  lemma PrefixHasNoMarkerAt(i: nat)
    ensures !OccursAt(WatchUrlPrefix, ShortLinkMarker, i)
  {
    var p, w := WatchUrlPrefix, ShortLinkMarker;
    if i == 12 {
      NotAt(p, w, i, 5);
    } else if i <= 24 {
      NotAt(p, w, i, 0);
    } else {
      NotAt(p, w, i, 7);
    }
  }

  /** The last characters of the long form cannot start the marker. */
  lemma PrefixTailAt(i: nat)
    requires |WatchUrlPrefix| - |ShortLinkMarker| < i < |WatchUrlPrefix|
    ensures WatchUrlPrefix[i] != ShortLinkMarker[0]
  {
  }

  /**
    A marker in `p + id` lies in `p`, in `id`, or across the seam; none is possible
    when `p` and `id` lack it and no late character of `p` can start it.
   */
  lemma NoMarkerInConcat(p: string, id: string, w: string)
    requires w != [] && !Contains(p, w) && !Contains(id, w)
    requires forall i :: 0 <= i && |p| - |w| < i < |p| ==> p[i] != w[0]
    ensures !Contains(p + id, w)
  {
    forall i: nat
      ensures !OccursAt(p + id, w, i)
    {
      if i + |w| > |p + id| {
      } else if i + |w| <= |p| {
        assert (p + id)[i..i + |w|] == p[i..i + |w|];
        assert !OccursAt(p, w, i);
      } else if i >= |p| {
        assert (p + id)[i..i + |w|] == id[i - |p|..i - |p| + |w|];
        assert !OccursAt(id, w, i - |p|);
      } else {
        assert (p + id)[i] == p[i];
        NotAt(p + id, w, i, 0);
      }
    }
  }

  /** Appending an id that does not mention "youtu.be" to the long form does not create a mention. */
  lemma WatchUrlHasNoMarker(id: string)
    requires !Contains(id, ShortLinkMarker)
    ensures !Contains(WatchUrlPrefix + id, ShortLinkMarker)
  {
    PrefixHasNoMarker();
    forall i | |WatchUrlPrefix| - |ShortLinkMarker| < i < |WatchUrlPrefix|
      ensures WatchUrlPrefix[i] != ShortLinkMarker[0]
    {
      PrefixTailAt(i);
    }
    NoMarkerInConcat(WatchUrlPrefix, id, ShortLinkMarker);
  }

  /**
    Rewriting is idempotent unless the extracted id itself mentions "youtu.be":
    the long form's host `www.youtube.com` does not contain the marker.
   */
  lemma ReformatIdempotent(origin: string)
    requires Contains(origin, ShortLinkMarker) ==> UrlPath(origin).Some?
    requires Contains(origin, ShortLinkMarker) ==> !Contains(VideoId(origin), ShortLinkMarker)
    ensures var once := ReformatYouTubeUrl(origin);
      !Contains(once, ShortLinkMarker) || once == origin
    ensures var once := ReformatYouTubeUrl(origin);
      (Contains(once, ShortLinkMarker) ==> UrlPath(once).Some?) && ReformatYouTubeUrl(once) == once
  {
    if Contains(origin, ShortLinkMarker) {
      WatchUrlHasNoMarker(VideoId(origin));
    }
  }

  /** `getScheme` on a link that starts with `https:`. */
  lemma SchemeOfHttps(u: string)
    requires StartsWith(u, "https:")
    ensures GetSchemeFrom(u, 0) == Some(("https", u[6..]))
  {
    assert u[0] == 'h' && u[1] == 't' && u[2] == 't' && u[3] == 'p' && u[4] == 's' && u[5] == ':';
    assert GetSchemeFrom(u, 5) == Some((u[..5], u[6..]));
    assert GetSchemeFrom(u, 3) == GetSchemeFrom(u, 4) == GetSchemeFrom(u, 5);
    assert GetSchemeFrom(u, 0) == GetSchemeFrom(u, 1) == GetSchemeFrom(u, 2) == GetSchemeFrom(u, 3);
    assert u[..5] == "https";
  }

  /** Cutting at `c` keeps exactly the part before a suffix that starts with `c`. */
  lemma BeforeConcat(a: string, c: char, b: string)
    requires c !in a && (b == [] || b[0] == c)
    ensures Before(a + b, c) == a
  {
    if b != [] {
      IndexOfAfterPrefix(a, c, b[1..]);
      assert a + b == a + [c] + b[1..];
      assert (a + b)[..|a|] == a;
    } else {
      assert a + b == a;
    }
  }

  lemma NoControlConcat(a: string, b: string)
    requires !HasControl(a) && !HasControl(b)
    ensures !HasControl(a + b)
  {
    forall k | 0 <= k < |a + b|
      ensures !IsControl((a + b)[k])
    {
      if k >= |a| {
        assert (a + b)[k] == b[k - |a|];
      }
    }
  }

  /**
    A component a link is built from: no control byte, no "/", "?" or "#", and no
    "%", so that `url.Parse` has no escape to decode in it.
   */
  predicate IsPlainSegment(s: string)
  {
    !HasControl(s) && '/' !in s && '?' !in s && '#' !in s && '%' !in s
  }

  predicate IsHostChar(c: char)
  {
    IsLetter(c) || IsDigit(c) || c == '.' || c == '-'
  }

  /** A host name `url.Parse` accepts as it is: letters, digits, "." and "-". */
  predicate IsHostName(h: string)
  {
    forall k :: 0 <= k < |h| ==> IsHostChar(h[k])
  }

  lemma HostIsPlain(h: string)
    requires IsHostName(h)
    ensures IsPlainSegment(h)
  {
    forall k | 0 <= k < |h|
      ensures !IsControl(h[k]) && h[k] != '/' && h[k] != '?' && h[k] != '#' && h[k] != '%'
    {
      assert IsHostChar(h[k]);
    }
  }

  /** A query part: empty, or "?" and text without control bytes or "#". */
  predicate IsQueryPart(q: string)
  {
    q == [] || (q[0] == '?' && !HasControl(q) && '#' !in q)
  }

  /** A fragment part: empty, or "#" and text without a malformed escape. */
  predicate IsFragmentPart(f: string)
  {
    f == [] || (f[0] == '#' && WellEscaped(f[1..]))
  }

  /** A path as the source's links carry it: rooted, with no control byte, "?", "#" or "%". */
  predicate IsRootedPath(p: string)
  {
    StartsWith(p, "/") && !HasControl(p) && '?' !in p && '#' !in p && '%' !in p
  }

  /** Text without a "%" holds no malformed escape. */
  lemma NoPercentWellEscaped(s: string)
    requires '%' !in s
    ensures WellEscaped(s)
  {
    forall i | 0 <= i < |s|
      ensures EscapeAt(s, i)
    {
      assert s[i] != '%';
    }
  }

  /** What follows the first `c` when `c` starts the suffix. */
  lemma AfterConcat(a: string, c: char, b: string)
    requires c !in a && b != [] && b[0] == c
    ensures After(a + b, c) == b[1..]
  {
    IndexOfAfterPrefix(a, c, b[1..]);
    assert a + b == a + [c] + b[1..];
    assert (a + b)[|a| + 1..] == b[1..];
  }

  /** The authority of `//<host><path>` ends where the path begins. */
  lemma AuthorityStrip(host: string, path: string)
    requires '/' !in host && StartsWith(path, "/")
    ensures var authority := host + path;
      '/' in authority && authority[IndexOf(authority, '/')..] == path
  {
    var authority := host + path;
    assert authority == host + ['/'] + path[1..];
    IndexOfAfterPrefix(host, '/', path[1..]);
    assert authority[|host|..] == path;
  }

  /** `url.Parse` on a link with a scheme and an authority: the path starts after the authority. */
  lemma UrlPathWithAuthority(raw: string, u: string, scheme: string, afterScheme: string, rest: string, path: string)
    requires Before(raw, '#') == u && !HasControl(u) && u != "*" && WellEscaped(After(raw, '#'))
    requires GetSchemeFrom(u, 0) == Some((scheme, afterScheme)) && scheme != ""
    requires Before(afterScheme, '?') == rest && StartsWith(rest, "//")
    requires '/' in rest[2..] && rest[2..][IndexOf(rest[2..], '/')..] == path && WellEscaped(path)
    ensures UrlPath(raw) == Some(path)
  {
  }

  /** The fragment of `https://<host><path><query><fragment>` is cut off, and no control byte is left. */
  lemma CutFragment(host: string, path: string, query: string, fragment: string)
    requires IsPlainSegment(host) && IsRootedPath(path)
    requires IsQueryPart(query) && IsFragmentPart(fragment)
    ensures var u := "https:" + ("//" + host + path) + query;
      Before("https://" + host + path + query + fragment, '#') == u && !HasControl(u) && u != "*"
    ensures WellEscaped(After("https://" + host + path + query + fragment, '#'))
  {
    var u := "https:" + ("//" + host + path) + query;
    assert "https://" + host + path + query + fragment == u + fragment;
    assert '#' !in u;
    BeforeConcat(u, '#', fragment);
    if fragment != [] {
      AfterConcat(u, '#', fragment);
    }
    assert !HasControl("https:" + "//") by {
      var lead := "https://";
      assert forall k | 0 <= k < |lead| :: !IsControl(lead[k]);
    }
    NoControlConcat("https:" + "//", host);
    NoControlConcat("https:" + "//" + host, path);
    NoControlConcat("https:" + "//" + host + path, query);
    assert u == "https:" + "//" + host + path + query;
  }

  /** The scheme of `https://<host><path><query>` is "https", and the query is cut off. */
  lemma CutQuery(host: string, path: string, query: string)
    requires IsPlainSegment(host) && IsRootedPath(path) && IsQueryPart(query)
    ensures var hp := "//" + host + path;
      GetSchemeFrom("https:" + hp + query, 0) == Some(("https", hp + query)) &&
      Before(hp + query, '?') == hp
  {
    var hp := "//" + host + path;
    var u := "https:" + hp + query;
    assert StartsWith(u, "https:");
    SchemeOfHttps(u);
    assert u[6..] == hp + query;
    assert '?' !in hp;
    BeforeConcat(hp, '?', query);
  }

  /** The pieces `url.Parse` cuts `https://<host><path><query><fragment>` into. */
  lemma HttpsParts(host: string, path: string, query: string, fragment: string)
    requires IsHostName(host) && IsRootedPath(path)
    requires IsQueryPart(query) && IsFragmentPart(fragment)
    ensures var raw := "https://" + host + path + query + fragment;
      var hp := "//" + host + path;
      var u := "https:" + hp + query;
      && Before(raw, '#') == u && !HasControl(u) && u != "*" && WellEscaped(After(raw, '#'))
      && GetSchemeFrom(u, 0) == Some(("https", hp + query))
      && Before(hp + query, '?') == hp && StartsWith(hp, "//")
      && '/' in hp[2..] && hp[2..][IndexOf(hp[2..], '/')..] == path && WellEscaped(path)
  {
    var hp := "//" + host + path;
    HostIsPlain(host);
    NoPercentWellEscaped(path);
    CutFragment(host, path, query, fragment);
    CutQuery(host, path, query);
    assert hp[2..] == host + path;
    AuthorityStrip(host, path);
  }

  /**
    The path `url.Parse` finds in `https://<host><path><query><fragment>` is `<path>`:
    the query and the fragment are not part of it.
   */
  lemma UrlPathOfHttps(host: string, path: string, query: string, fragment: string)
    requires IsHostName(host) && IsRootedPath(path)
    requires IsQueryPart(query) && IsFragmentPart(fragment)
    ensures UrlPath("https://" + host + path + query + fragment) == Some(path)
  {
    var hp := "//" + host + path;
    HttpsParts(host, path, query, fragment);
    UrlPathWithAuthority("https://" + host + path + query + fragment, "https:" + hp + query, "https", hp + query, hp, path);
  }

  /** `path.Base` of `<dir>/<id>` for a plain id is the id. */
  lemma PathBaseOfLast(dir: string, id: string)
    requires id != [] && '/' !in id
    ensures PathBase(dir + "/" + id) == id
  {
    var p := dir + "/" + id;
    assert p[|p| - 1] == id[|id| - 1];
    assert TrimTrailingSlashes(p) == p;
    assert p[|dir|] == '/';
    assert p[|dir| + 1..] == id;
  }

  /**
    A short link `https://youtu.be/<id>` with any query and fragment becomes
    `https://www.youtube.com/watch?v=<id>`.
   */
  lemma ShortLinkCanonical(origin: string, id: string, query: string, fragment: string)
    requires id != [] && IsPlainSegment(id)
    requires IsQueryPart(query) && IsFragmentPart(fragment)
    requires origin == "https://youtu.be/" + id + query + fragment
    ensures Contains(origin, ShortLinkMarker) && UrlPath(origin).Some?
    ensures ReformatYouTubeUrl(origin) == WatchUrlPrefix + id
  {
    var path := "/" + id;
    SlashIdFacts(id);
    ShortHostFacts(id, query, fragment);
    UrlPathOfHttps("youtu.be", path, query, fragment);
    ShortLinkShape(id, query, fragment);
    RewriteOf(origin, path, id);
  }

  lemma ShortLinkShape(id: string, query: string, fragment: string)
    ensures "https://youtu.be/" + id + query + fragment == "https://" + "youtu.be" + ("/" + id) + query + fragment
  {
  }

  /** The path `/<id>` is rooted and plain, and its last element is the id. */
  lemma SlashIdFacts(id: string)
    requires id != [] && IsPlainSegment(id)
    ensures IsRootedPath("/" + id) && PathBase("/" + id) == id
  {
    assert !HasControl("/") by {
      assert !IsControl("/"[0]);
    }
    RootedPathOf("/", id);
    PathBaseOfLast("", id);
    assert "" + "/" + id == "/" + id;
  }

  /** `https://youtu.be/...` mentions the marker, and `youtu.be` is a plain host. */
  lemma ShortHostFacts(id: string, query: string, fragment: string)
    ensures IsHostName("youtu.be")
    ensures Contains("https://youtu.be/" + id + query + fragment, ShortLinkMarker)
  {
    var origin := "https://youtu.be/" + id + query + fragment;
    assert origin[8..16] == "youtu.be";
    assert OccursAt(origin, ShortLinkMarker, 8);
    var host := "youtu.be";
    assert forall k | 0 <= k < |host| :: IsHostChar(host[k]);
    HostIsPlain(host);
  }

  /** The path `/youtu.be/<id>` is rooted and plain, and its last element is the id. */
  lemma ShortPathFacts(id: string)
    requires id != [] && IsPlainSegment(id)
    ensures IsRootedPath("/youtu.be/" + id) && PathBase("/youtu.be/" + id) == id
  {
    ShortPathLead();
    RootedPathOf("/youtu.be/", id);
    PathBaseOfLast("/youtu.be", id);
  }

  lemma ShortPathLead()
    ensures IsRootedPath("/youtu.be/")
    ensures forall id :: "/youtu.be" + "/" + id == "/youtu.be/" + id
  {
    var lead := "/youtu.be/";
    assert forall k | 0 <= k < |lead| :: !IsControl(lead[k]);
  }

  /** A rooted path followed by a plain segment is a rooted path. */
  lemma RootedPathOf(lead: string, id: string)
    requires IsRootedPath(lead) && IsPlainSegment(id)
    ensures IsRootedPath(lead + id)
  {
    NoControlConcat(lead, id);
    assert StartsWith(lead + id, "/") by {
      assert (lead + id)[..1] == lead[..1];
    }
  }

  /** `https://<host>/youtu.be/<id>` mentions the marker right after the host. */
  lemma MarkerAfterHost(host: string, id: string)
    ensures Contains("https://" + host + "/youtu.be/" + id, ShortLinkMarker)
  {
    var origin := "https://" + host + "/youtu.be/" + id;
    assert origin[9 + |host|..17 + |host|] == "youtu.be";
    assert OccursAt(origin, ShortLinkMarker, 9 + |host|);
  }

  /**
    The trigger is a substring test, not a host check: a link on any host whose
    path ends in `youtu.be/<id>` is rewritten to the watch link for `<id>`.
   */
  lemma MarkerInPathTriggers(origin: string, host: string, id: string)
    requires IsHostName(host) && id != [] && IsPlainSegment(id)
    requires origin == "https://" + host + "/youtu.be/" + id
    ensures Contains(origin, ShortLinkMarker) && UrlPath(origin).Some?
    ensures ReformatYouTubeUrl(origin) == WatchUrlPrefix + id
  {
    var path := "/youtu.be/" + id;
    ShortPathFacts(id);
    MarkerAfterHost(host, id);
    UrlPathOfHttps(host, path, "", "");
    MarkerInPathShape(host, id);
    RewriteOf(origin, path, id);
  }

  lemma MarkerInPathShape(host: string, id: string)
    ensures "https://" + host + "/youtu.be/" + id == "https://" + host + ("/youtu.be/" + id) + "" + ""
  {
  }

  /** The rewrite of a link that mentions the marker, in terms of its path. */
  lemma RewriteOf(origin: string, path: string, id: string)
    requires Contains(origin, ShortLinkMarker) && UrlPath(origin) == Some(path) && PathBase(path) == id
    ensures ReformatYouTubeUrl(origin) == WatchUrlPrefix + id
  {
  }

  /**
    A short link whose fragment holds a malformed escape does not parse, so it is
    outside `ReformatYouTubeUrl`'s precondition: the source dereferences the nil
    URL there.
   */
  lemma MalformedFragmentFails(origin: string, id: string)
    requires IsPlainSegment(id) && origin == "https://youtu.be/" + id + "#%zz"
    ensures Contains(origin, ShortLinkMarker) && UrlPath(origin).None?
  {
    var u := "https://youtu.be/" + id;
    ShortHostFacts(id, "", "#%zz");
    assert origin == "https://youtu.be/" + id + "" + "#%zz";
    assert '#' !in u by {
      assert u == "https://youtu.be/" + id;
      assert forall k | 0 <= k < 17 :: u[k] != '#';
      assert forall k | 17 <= k < |u| :: u[k] == id[k - 17];
    }
    AfterConcat(u, '#', "#%zz");
    assert After(origin, '#') == "%zz";
    assert !WellEscaped("%zz") by {
      assert !EscapeAt("%zz", 0);
    }
  }

  /** A bare short link `https://youtu.be/<id>` is rewritten to the watch link for `<id>`. */
  lemma BareShortLink(origin: string, id: string)
    requires id != [] && IsPlainSegment(id) && origin == "https://youtu.be/" + id
    ensures Contains(origin, ShortLinkMarker) && UrlPath(origin).Some?
    ensures ReformatYouTubeUrl(origin) == WatchUrlPrefix + id
  {
    assert origin == "https://youtu.be/" + id + "" + "";
    ShortLinkCanonical(origin, id, "", "");
  }

  lemma ExampleParts()
    ensures IsPlainSegment("XYZ123")
    ensures "https://youtu.be/" + "XYZ123" == "https://youtu.be/XYZ123"
    ensures WatchUrlPrefix + "XYZ123" == "https://www.youtube.com/watch?v=XYZ123"
  {
    var id := "XYZ123";
    assert forall k | 0 <= k < |id| :: !IsControl(id[k]);
  }

  /** The example link `https://youtu.be/XYZ123`. */
  lemma ExampleShortLink(origin: string)
    requires origin == "https://youtu.be/XYZ123"
    ensures Contains(origin, ShortLinkMarker) && UrlPath(origin).Some?
    ensures ReformatYouTubeUrl(origin) == "https://www.youtube.com/watch?v=XYZ123"
  {
    ExampleParts();
    BareShortLink(origin, "XYZ123");
  }
}
