/** The part of Python's `urllib.parse` (as of Python 3.12) that the client
    uses to rewrite the audio URL: `urlparse`, `urlunparse` and `urljoin`.
    Leading control characters, tab and newline removal and the validation of
    the address inside brackets are not modelled; the bracket balance check is. */
module UrlLib {
  import opened PyValues
  import opened Text

  predicate IsAsciiLetter(c: char) { 'a' <= c <= 'z' || 'A' <= c <= 'Z' }

  predicate IsSchemeChar(c: char)
  {
    IsAsciiLetter(c) || IsDigit(c) || c == '+' || c == '-' || c == '.'
  }

  const UsesRelative: set<string> :=
    {"", "ftp", "http", "gopher", "nntp", "imap", "wais", "file", "https", "shttp", "mms",
     "prospero", "rtsp", "rtsps", "rtspu", "sftp", "svn", "svn+ssh", "ws", "wss"}

  const UsesNetloc: set<string> :=
    {"", "ftp", "http", "gopher", "nntp", "telnet", "imap", "wais", "file", "mms", "https",
     "shttp", "snews", "prospero", "rtsp", "rtsps", "rtspu", "rsync", "svn", "svn+ssh", "sftp",
     "nfs", "git", "git+ssh", "ws", "wss", "itms-services"}

  const UsesParams: set<string> :=
    {"", "ftp", "hdl", "prospero", "http", "imap", "https", "shttp", "rtsp", "rtsps", "rtspu",
     "sip", "sips", "mms", "sftp", "tel"}

  /** The six components `urlparse` returns. */
  datatype Parts = Parts(scheme: string, netloc: string, path: string, params: string, query: string, fragment: string)

  /** The scheme step of `urlsplit`: a scheme is taken only when the text before
      the first colon starts with an ASCII letter and uses scheme characters. */
  function SplitScheme(url: string, default: string): (pair: (string, string))
    ensures '[' !in url ==> '[' !in pair.1
    ensures ']' !in url ==> ']' !in pair.1
  {
    var i := Find(url, ':');
    if i > 0 && IsAsciiLetter(url[0]) && forall k :: 0 <= k < i ==> IsSchemeChar(url[k])
    then (AsciiLower(url[..i]), url[i + 1..])
    else (default, url)
  }

  /** The first index at or after `from` holding '/', '?' or '#', else the length. */
  function NetlocEnd(url: string, from: nat): (d: nat)
    requires from <= |url|
    ensures from <= d <= |url|
    ensures forall k :: from <= k < d ==> url[k] != '/' && url[k] != '?' && url[k] != '#'
    ensures d < |url| ==> url[d] == '/' || url[d] == '?' || url[d] == '#'
    decreases |url| - from
  {
    if from == |url| || url[from] == '/' || url[from] == '?' || url[from] == '#' then from
    else NetlocEnd(url, from + 1)
  }

  /** The authority step of `urlsplit`: after a leading `//`, the text up to
      the first '/', '?' or '#'; the rest is left for the path. */
  function SplitNetloc(rest: string): (pair: (string, string))
    ensures '/' !in pair.0 && '?' !in pair.0 && '#' !in pair.0
    ensures '[' !in rest ==> '[' !in pair.0
    ensures ']' !in rest ==> ']' !in pair.0
  {
    if |rest| >= 2 && rest[..2] == "//" then
      var d := NetlocEnd(rest, 2);
      (rest[2..d], rest[d..])
    else ([], rest)
  }

  /** `url.split(c, 1)` when `c` may be absent: text before the first `c` and after it. */
  function SplitOnce(s: string, c: char): (pair: (string, string))
    ensures c !in pair.0
    ensures c !in s ==> pair == (s, [])
  {
    var i := Find(s, c);
    if i < 0 then (s, []) else (s[..i], s[i + 1..])
  }

  /** `urlsplit(url, default)`; `None` stands for its `ValueError` on a network
      location with an unmatched bracket. */
  function UrlSplit(url: string, default: string): (r: Option<Parts>)
    ensures r.Some? ==> '?' !in r.value.path && '#' !in r.value.path && r.value.params == []
    ensures r.Some? ==> '#' !in r.value.query
    ensures r.Some? ==> '/' !in r.value.netloc && '?' !in r.value.netloc && '#' !in r.value.netloc
    ensures r.Some? ==> ('[' in r.value.netloc) == (']' in r.value.netloc)
    ensures '[' !in url && ']' !in url ==> r.Some?
  {
    var (scheme, rest) := SplitScheme(url, default);
    var (netloc, rest2) := SplitNetloc(rest);
    if ('[' in netloc) != (']' in netloc) then None
    else
      var (rest3, fragment) := SplitOnce(rest2, '#');
      var (path, query) := SplitOnce(rest3, '?');
      assert '#' !in path;
      Some(Parts(scheme, netloc, path, [], query, fragment))
  }

  /** `_splitparams`: the parameters of the last path segment. */
  function SplitParams(path: string): (pair: (string, string))
    requires ';' in path
    ensures pair == (path, []) || path == pair.0 + ";" + pair.1
  {
    if '/' in path then
      var i := FindFrom(path, ';', RFind(path, '/'));
      if i < 0 then (path, []) else (path[..i], path[i + 1..])
    else
      var i := Find(path, ';');
      (path[..i], path[i + 1..])
  }

  /** `urlparse(url, default)`. */
  function UrlParse(url: string, default: string): (r: Option<Parts>)
    ensures r.Some? ==> '?' !in r.value.path && '#' !in r.value.path
    ensures r.Some? <==> UrlSplit(url, default).Some?
    ensures r.Some? ==>
      var p := UrlSplit(url, default).value;
      && r.value.scheme == p.scheme && r.value.netloc == p.netloc
      && r.value.query == p.query && r.value.fragment == p.fragment
      && (r.value.(params := []) == p || p.path == r.value.path + ";" + r.value.params)
    ensures r.Some? && ';' !in UrlSplit(url, default).value.path ==> r == UrlSplit(url, default)
  {
    match UrlSplit(url, default)
    case None => None
    case Some(p) =>
      if p.scheme in UsesParams && ';' in p.path then
        var (path, params) := SplitParams(p.path);
        assert forall k :: 0 <= k < |path| ==> path[k] in p.path;
        Some(p.(path := path, params := params))
      else Some(p)
  }

  /** The part of `urlunsplit` between the scheme and the query: `//` and the
      network location when there is one (a path without a leading slash gets
      one), and `//` in front of a path that would otherwise be read as one. */
  function AuthorityPart(scheme: string, netloc: string, url: string): (w: string)
    ensures netloc != [] ==> StartsWith(w, "//" + netloc)
  {
    if netloc != [] then
      var path := if url != [] && url[0] != '/' then "/" + url else url;
      StartsWithAppend("//" + netloc, "//" + netloc, path);
      "//" + netloc + path
    else if |url| >= 2 && url[..2] == "//" then "//" + url
    else if scheme != [] && scheme in UsesNetloc && (url == [] || url[0] == '/') then "//" + url
    else url
  }

  /** What `urlunsplit` writes after the scheme: the authority part, then
      `?query` and `#fragment` when they are not empty. */
  function AfterScheme(scheme: string, netloc: string, url: string, query: string, fragment: string): (t: string)
    ensures netloc != [] ==> StartsWith(t, "//" + netloc)
    ensures fragment != [] ==> EndsWith(t, "#" + fragment)
  {
    var w := AuthorityPart(scheme, netloc, url);
    var q := if query != [] then "?" + query else [];
    var f := if fragment != [] then "#" + fragment else [];
    assert (w + q + f)[|w + q|..] == f;
    if netloc != [] then
      StartsWithAppend(w, "//" + netloc, q + f);
      assert w + q + f == w + (q + f);
      w + q + f
    else w + q + f
  }

  /** `urlunsplit`. */
  function UrlUnsplit(scheme: string, netloc: string, url: string, query: string, fragment: string): (r: string)
    ensures scheme != [] ==> StartsWith(r, scheme + ":")
    ensures netloc != [] ==> StartsWith(r, (if scheme != [] then scheme + ":" else []) + "//" + netloc)
    ensures fragment != [] ==> EndsWith(r, "#" + fragment)
  {
    var lead := if scheme != [] then scheme + ":" else [];
    var t := AfterScheme(scheme, netloc, url, query, fragment);
    StartsWithAppend(lead, lead, t);
    assert lead + "//" + netloc == lead + ("//" + netloc);
    if fragment != [] then
      EndsWithPrepend(lead, t, "#" + fragment);
      if netloc != [] then StartsWithPrepend(lead, t, "//" + netloc); lead + t else lead + t
    else if netloc != [] then StartsWithPrepend(lead, t, "//" + netloc); lead + t
    else lead + t
  }

  /** `urlunparse`. */
  function UrlUnparse(p: Parts): string
  {
    UrlUnsplit(p.scheme, p.netloc, if p.params != [] then p.path + ";" + p.params else p.path, p.query, p.fragment)
  }

  predicate IsDotSegment(seg: string) { seg == "." || seg == ".." }

  /** The dot-segment loop of `urljoin`: ".." drops the last resolved segment
      (if any), "." is skipped, anything else is appended. */
  function RemoveDots(segments: seq<string>, resolved: seq<string>): (r: seq<string>)
    ensures NoDotSegments(resolved) ==> NoDotSegments(r)
    ensures NoSlashIn(resolved) && NoSlashIn(segments) ==> NoSlashIn(r)
    decreases |segments|
  {
    if segments == [] then resolved
    else
      var seg := segments[0];
      var next :=
        if seg == ".." then (if resolved == [] then [] else resolved[..|resolved| - 1])
        else if seg == "." then resolved
        else resolved + [seg];
      RemoveDots(segments[1..], next)
  }

  function NonEmpty(segs: seq<string>): (r: seq<string>)
    ensures NoSlashIn(segs) ==> NoSlashIn(r)
    decreases |segs|
  {
    if segs == [] then [] else (if segs[0] == [] then [] else [segs[0]]) + NonEmpty(segs[1..])
  }

  /** `segments[1:-1] = filter(None, segments[1:-1])`. */
  function DropEmptyInner(segs: seq<string>): (r: seq<string>)
    ensures |segs| >= 1 ==> |r| >= 1 && r[|r| - 1] == segs[|segs| - 1]
    ensures NoSlashIn(segs) ==> NoSlashIn(r)
  {
    if |segs| <= 2 then segs else [segs[0]] + NonEmpty(segs[1..|segs| - 1]) + [segs[|segs| - 1]]
  }

  /** `urljoin(base, url)`; `None` stands for a `ValueError` raised while
      parsing either argument. */
  function UrlJoin(base: string, url: string): (r: Option<string>)
    ensures base == [] ==> r == Some(url)
    ensures base != [] && url == [] ==> r == Some(base)
    ensures base != [] && url != [] ==>
      (r.None? <==> UrlParse(base, []).None? || UrlParse(url, UrlParse(base, []).value.scheme).None?)
  {
    if base == [] then Some(url)
    else if url == [] then Some(base)
    else
      match UrlParse(base, [])
      case None => None
      case Some(b) =>
        match UrlParse(url, b.scheme)
        case None => None
        case Some(r) => Some(JoinParsed(url, b, r))
  }

  /** What `urljoin` does once both arguments are parsed: `b` is the base, `r`
      the reference `url` parsed with the base's scheme as its default. */
  function JoinParsed(url: string, b: Parts, r: Parts): (joined: string)
    ensures r.scheme != b.scheme || r.scheme !in UsesRelative ==> joined == url
    ensures r.scheme == b.scheme && r.scheme in UsesRelative && r.scheme != [] ==> StartsWith(joined, r.scheme + ":")
  {
    if r.scheme != b.scheme || r.scheme !in UsesRelative then url
    else if r.scheme in UsesNetloc && r.netloc != [] then UrlUnparse(r)
    else
      var netloc := if r.scheme in UsesNetloc then b.netloc else r.netloc;
      if r.path == [] && r.params == [] then
        UrlUnparse(Parts(r.scheme, netloc, b.path, b.params, if r.query == [] then b.query else r.query, r.fragment))
      else
        UrlUnparse(Parts(r.scheme, netloc, MergePaths(b.path, r.path), r.params, r.query, r.fragment))
  }

  /** The path `urljoin` builds from the base path and the reference path: an
      absolute reference path replaces the base path, a relative one is appended
      to the base's directory; then dot segments are resolved. */
  function MergePaths(basePath: string, refPath: string): (merged: string)
    ensures merged != []
    ensures NoDotSegments(Split(merged, '/'))
  {
    ResolvePath(PathSegments(basePath, refPath))
  }

  /** The segments `urljoin` resolves: those of an absolute reference path, or
      the base's directory segments followed by the reference's, with empty
      inner segments dropped. */
  function PathSegments(basePath: string, refPath: string): (segments: seq<string>)
    ensures |segments| >= 1 && NoSlashIn(segments)
    ensures refPath != [] && refPath[0] == '/' ==> segments == Split(refPath, '/')
  {
    var baseParts := Split(basePath, '/');
    var baseDirs := if baseParts[|baseParts| - 1] != [] then baseParts[..|baseParts| - 1] else baseParts;
    if refPath != [] && refPath[0] == '/' then Split(refPath, '/')
    else DropEmptyInner(baseDirs + Split(refPath, '/'))
  }

  /** Dot segments removed (a trailing dot segment leaves a trailing slash),
      the rest joined with '/'; nothing left is the root path. */
  function ResolvePath(segments: seq<string>): (merged: string)
    requires |segments| >= 1 && NoSlashIn(segments)
    ensures merged != []
    ensures NoDotSegments(Split(merged, '/'))
  {
    var resolved := RemoveDots(segments, []) + (if IsDotSegment(segments[|segments| - 1]) then [[]] else []);
    var joined := JoinWith(resolved, '/');
    MergedSegments(resolved);
    if joined == [] then "/" else joined
  }

  /** The segments left after dot removal, joined, split back into themselves;
      an empty join is the root path. */
  lemma MergedSegments(resolved: seq<string>)
    requires NoDotSegments(resolved) && NoSlashIn(resolved)
    ensures var joined := JoinWith(resolved, '/');
      joined != [] ==> NoDotSegments(Split(joined, '/'))
    ensures NoDotSegments(Split("/", '/'))
  {
    SplitAtSeparator([], [], '/');
    assert Split([], '/') == [[]];
    assert [] + "/" + [] == "/";
    if resolved != [] {
      JoinThenSplit(resolved, '/');
    }
  }

  predicate NoDotSegments(segs: seq<string>)
  {
    forall k :: 0 <= k < |segs| ==> !IsDotSegment(segs[k])
  }

  predicate NoSlashIn(segs: seq<string>)
  {
    forall k :: 0 <= k < |segs| ==> '/' !in segs[k]
  }

  lemma {:induction false} RemoveDotsWithoutDots(segments: seq<string>, resolved: seq<string>)
    requires NoDotSegments(segments)
    ensures RemoveDots(segments, resolved) == resolved + segments
    decreases |segments|
  {
    if segments != [] {
      RemoveDotsWithoutDots(segments[1..], resolved + [segments[0]]);
      assert resolved + [segments[0]] + segments[1..] == resolved + segments;
    }
  }

  /** An absolute path with no authority part, no dot segments and no
      parameters parses to itself. */
  lemma ParseAbsolutePath(path: string, default: string)
    requires |path| >= 1 && path[0] == '/' && !(|path| >= 2 && path[1] == '/')
    requires '?' !in path && '#' !in path && ';' !in path
    ensures UrlParse(path, default) == Some(Parts(default, [], path, [], [], []))
  {
    assert !IsAsciiLetter(path[0]);
    assert SplitScheme(path, default) == (default, path);
    assert !(|path| >= 2 && path[..2] == "//");
  }

  /** An absolute reference path without dot segments is kept as it is. */
  lemma MergeAbsolutePath(basePath: string, path: string)
    requires |path| >= 1 && path[0] == '/'
    requires NoDotSegments(Split(path, '/'))
    ensures MergePaths(basePath, path) == path
  {
    var segments := Split(path, '/');
    assert PathSegments(basePath, path) == segments;
    ResolveWithoutDots(segments);
    SplitThenJoin(path, '/');
  }

  /** Segments without dot segments are joined back as they are. */
  lemma ResolveWithoutDots(segments: seq<string>)
    requires |segments| >= 1 && NoSlashIn(segments) && NoDotSegments(segments)
    requires JoinWith(segments, '/') != []
    ensures ResolvePath(segments) == JoinWith(segments, '/')
  {
    RemoveDotsWithoutDots(segments, []);
    assert [] + segments == segments;
    assert !IsDotSegment(segments[|segments| - 1]);
    assert RemoveDots(segments, []) + [] == segments;
  }

  /** Joining an absolute path (RFC 3986, section 5.2.2, a reference whose path
      starts with a slash) onto a base with a scheme and an authority keeps the
      base's scheme and authority, takes the path of the reference, and drops the
      base's own path, parameters, query and fragment. */
  lemma {:induction false} JoinAbsolutePath(base: string, b: Parts, path: string)
    requires UrlParse(base, []) == Some(b)
    requires b.scheme != [] && b.scheme in UsesRelative && b.scheme in UsesNetloc && b.netloc != []
    requires |path| >= 1 && path[0] == '/' && !(|path| >= 2 && path[1] == '/')
    requires '?' !in path && '#' !in path && ';' !in path
    requires NoDotSegments(Split(path, '/'))
    ensures UrlJoin(base, path) == Some(b.scheme + "://" + b.netloc + path)
  {
    if base == [] {
      ParseEmpty();
    } else {
      ParseAbsolutePath(path, b.scheme);
      var r := Parts(b.scheme, [], path, [], [], []);
      JoinOfParsed(base, b, path, r);
      assert JoinParsed(path, b, r) == UrlUnparse(Parts(b.scheme, b.netloc, MergePaths(b.path, path), [], [], []));
      MergeAbsolutePath(b.path, path);
      UnsplitWithAuthority(b.scheme, b.netloc, path);
    }
  }

  lemma ParseEmpty()
    ensures UrlParse([], []) == Some(Parts([], [], [], [], [], []))
  {
    assert SplitScheme([], []) == ([], []);
  }

  lemma UnsplitWithAuthority(scheme: string, netloc: string, path: string)
    requires scheme != [] && netloc != [] && (path == [] || path[0] == '/')
    ensures UrlUnparse(Parts(scheme, netloc, path, [], [], [])) == scheme + "://" + netloc + path
  {
    UnsplitBare(scheme, netloc, path);
    AuthorityOfPath(scheme, netloc, path);
    ColonSlashes(scheme, netloc, path);
  }

  lemma AuthorityOfPath(scheme: string, netloc: string, path: string)
    requires netloc != [] && (path == [] || path[0] == '/')
    ensures AuthorityPart(scheme, netloc, path) == "//" + netloc + path
  {
  }

  lemma ColonSlashes(scheme: string, netloc: string, path: string)
    ensures scheme + ":" + ("//" + netloc + path) == scheme + "://" + netloc + path
  {
  }

  /** Without query and fragment, `urlunsplit` writes the scheme and the
      authority part. */
  lemma UnsplitBare(scheme: string, netloc: string, url: string)
    requires scheme != []
    ensures UrlUnsplit(scheme, netloc, url, [], []) == scheme + ":" + AuthorityPart(scheme, netloc, url)
  {
    var w := AuthorityPart(scheme, netloc, url);
    assert AfterScheme(scheme, netloc, url, [], []) == w + [] + [];
    assert w + [] + [] == w;
  }

  /** A reference that starts with two slashes carries its own authority:
      `urljoin` keeps only the base's scheme and uses the reference's host. */
  lemma {:induction false} JoinNetworkPath(base: string, b: Parts, host: string, rest: string)
    requires UrlParse(base, []) == Some(b)
    requires b.scheme != [] && b.scheme in UsesRelative && b.scheme in UsesNetloc
    requires host != [] && '/' !in host && '?' !in host && '#' !in host && '[' !in host && ']' !in host
    requires rest == [] || rest[0] == '/'
    requires '?' !in rest && '#' !in rest && ';' !in rest
    ensures UrlJoin(base, "//" + host + rest) == Some(b.scheme + "://" + host + rest)
  {
    var url := "//" + host + rest;
    var r := Parts(b.scheme, host, rest, [], [], []);
    ParseEmpty();
    ParseNetworkPath(host, rest, b.scheme);
    JoinOfParsed(base, b, url, r);
    UnparseNetworkPath(b, host, rest);
  }

  /** `urljoin` once both arguments parse. */
  lemma JoinOfParsed(base: string, b: Parts, url: string, r: Parts)
    requires base != [] && url != []
    requires UrlParse(base, []) == Some(b) && UrlParse(url, b.scheme) == Some(r)
    ensures UrlJoin(base, url) == Some(JoinParsed(url, b, r))
  {
  }

  /** A reference with its own authority is rebuilt as it is, with the base's
      scheme. */
  lemma UnparseNetworkPath(b: Parts, host: string, rest: string)
    requires b.scheme != [] && b.scheme in UsesRelative && b.scheme in UsesNetloc && host != []
    requires rest == [] || rest[0] == '/'
    ensures JoinParsed("//" + host + rest, b, Parts(b.scheme, host, rest, [], [], []))
      == b.scheme + "://" + host + rest
  {
    var r := Parts(b.scheme, host, rest, [], [], []);
    assert JoinParsed("//" + host + rest, b, r) == UrlUnparse(r);
    UnsplitWithAuthority(b.scheme, host, rest);
  }

  /** A network-path reference parses into its host and its path. */
  lemma ParseNetworkPath(host: string, rest: string, scheme: string)
    requires host != [] && '/' !in host && '?' !in host && '#' !in host && '[' !in host && ']' !in host
    requires rest == [] || rest[0] == '/'
    requires '?' !in rest && '#' !in rest && ';' !in rest
    ensures UrlParse("//" + host + rest, scheme) == Some(Parts(scheme, host, rest, [], [], []))
  {
    var url := "//" + host + rest;
    assert SplitScheme(url, scheme) == (scheme, url) by {
      assert !IsAsciiLetter(url[0]);
    }
    assert url[..2] == "//";
    NetlocAfterSlashes(host, rest);
    assert url[2..2 + |host|] == host && url[2 + |host|..] == rest;
    assert UrlSplit(url, scheme) == Some(Parts(scheme, host, rest, [], [], []));
  }

  lemma NetlocAfterSlashes(host: string, rest: string)
    requires '/' !in host && '?' !in host && '#' !in host
    requires rest == [] || rest[0] == '/' || rest[0] == '?' || rest[0] == '#'
    ensures NetlocEnd("//" + host + rest, 2) == 2 + |host|
    ensures SplitNetloc("//" + host + rest) == (host, rest)
  {
    var url := "//" + host + rest;
    assert forall k :: 2 <= k < 2 + |host| ==> url[k] == host[k - 2];
    if rest != [] {
      assert url[2 + |host|] == rest[0];
    }
    assert url[..2] == "//";
    assert url[2..2 + |host|] == host && url[2 + |host|..] == rest;
  }

  /** A scheme `urlsplit` accepts: an ASCII letter, then scheme characters. */
  predicate ValidScheme(scheme: string)
  {
    scheme != [] && IsAsciiLetter(scheme[0]) && forall k :: 0 <= k < |scheme| ==> IsSchemeChar(scheme[k])
  }

  /** The text before the first colon is taken as the scheme, lower-cased. */
  lemma SplitSchemeOf(scheme: string, rest: string, default: string)
    requires ValidScheme(scheme)
    ensures SplitScheme(scheme + ":" + rest, default) == (AsciiLower(scheme), rest)
  {
    var url := scheme + ":" + rest;
    assert url[|scheme|] == ':';
    assert forall k :: 0 <= k < |scheme| ==> url[k] == scheme[k] && url[k] != ':';
    var i := Find(url, ':');
    assert url[..|scheme|] == scheme;
    assert i == |scheme|;
    assert url[i + 1..] == rest;
  }

  /** `s.split(c, 1)` at the first occurrence of `c`. */
  lemma SplitOnceAt(a: string, c: char, b: string)
    requires c !in a
    ensures SplitOnce(a + [c] + b, c) == (a, b)
  {
    var s := a + [c] + b;
    assert s[|a|] == c;
    var i := Find(s, c);
    assert forall k :: 0 <= k < |a| ==> s[k] == a[k];
    assert i == |a|;
    assert s[..i] == a && s[i + 1..] == b;
  }

  /** A URL with a scheme, a host and an absolute path, with or without a
      query (such as `http://0.0.0.0:8000/audio/x.wav?t=1`), parses into
      exactly those parts: the host and port are the network location, the
      path is the text between the host and the `?`. */
  lemma ParseWithAuthority(scheme: string, host: string, path: string, query: Option<string>)
    requires ValidScheme(scheme)
    requires '/' !in host && '?' !in host && '#' !in host && '[' !in host && ']' !in host
    requires path == [] || path[0] == '/'
    requires '?' !in path && '#' !in path && ';' !in path
    requires query.Some? ==> '#' !in query.value
    ensures UrlParse(scheme + "://" + host + path + (if query.Some? then "?" + query.value else []), [])
      == Some(Parts(AsciiLower(scheme), host, path, [], if query.Some? then query.value else [], []))
  {
    var tail := if query.Some? then "?" + query.value else [];
    var q := if query.Some? then query.value else [];
    QueryAfterPath(path, query);
    AppendAssoc(scheme + "://" + host, path, tail);
    SplitWithAuthority(scheme, host, path + tail, [], path + tail, path, q, []);
    ParseWithoutParams(scheme + "://" + host + (path + tail), [], Parts(AsciiLower(scheme), host, path, [], q, []));
  }

  /** A path followed by an optional query splits back into the two. */
  lemma QueryAfterPath(path: string, query: Option<string>)
    requires path == [] || path[0] == '/'
    requires '?' !in path && '#' !in path
    requires query.Some? ==> '#' !in query.value
    ensures var rest2 := path + if query.Some? then "?" + query.value else [];
      && SplitOnce(rest2, '#') == (rest2, [])
      && SplitOnce(rest2, '?') == (path, if query.Some? then query.value else [])
      && (rest2 == [] || rest2[0] == '/' || rest2[0] == '?')
  {
    if query.Some? {
      SplitOnceAt(path, '?', query.value);
      assert path + ("?" + query.value) == path + ['?'] + query.value;
    } else {
      assert path + [] == path;
    }
  }

  /** A split URL whose path has no `;` parses to the same parts. */
  lemma ParseWithoutParams(url: string, default: string, p: Parts)
    requires UrlSplit(url, default) == Some(p) && ';' !in p.path
    ensures UrlParse(url, default) == Some(p)
  {
  }

  /** After a scheme and a host, the rest is split into path, query and
      fragment. */
  lemma SplitWithAuthority(scheme: string, host: string, rest2: string, default: string,
                            rest3: string, path: string, query: string, fragment: string)
    requires ValidScheme(scheme)
    requires '/' !in host && '?' !in host && '#' !in host && '[' !in host && ']' !in host
    requires rest2 == [] || rest2[0] == '/' || rest2[0] == '?' || rest2[0] == '#'
    requires SplitOnce(rest2, '#') == (rest3, fragment) && SplitOnce(rest3, '?') == (path, query)
    ensures UrlSplit(scheme + "://" + host + rest2, default) == Some(Parts(AsciiLower(scheme), host, path, [], query, fragment))
  {
    assert scheme + "://" + host + rest2 == scheme + ":" + ("//" + host + rest2);
    SplitSchemeOf(scheme, "//" + host + rest2, default);
    NetlocAfterSlashes(host, rest2);
  }

  /** A network location with an opening bracket and no closing one, or the
      reverse, is `urlsplit`'s `ValueError`, and so `urlparse`'s. */
  lemma UnbalancedBracketIsError(scheme: string, host: string, rest: string, default: string)
    requires ValidScheme(scheme)
    requires '/' !in host && '?' !in host && '#' !in host
    requires ('[' in host) != (']' in host)
    requires rest == [] || rest[0] == '/' || rest[0] == '?' || rest[0] == '#'
    ensures UrlSplit(scheme + "://" + host + rest, default) == None
    ensures UrlParse(scheme + "://" + host + rest, default) == None
  {
    assert scheme + "://" + host + rest == scheme + ":" + ("//" + host + rest);
    SplitSchemeOf(scheme, "//" + host + rest, default);
    NetlocAfterSlashes(host, rest);
  }
}
