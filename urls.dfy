/** The URL handling the client borrows from Python's `urlparse`: splitting a
    URL into its five components, putting them back together, and joining a
    relative path onto a base path. */
module Urls {
  import opened Wrappers
  import opened Strings

  /** The five components `urlsplit` yields and `urlunsplit` takes. */
  datatype Url = Url(scheme: string, netloc: string, path: string, query: string, fragment: string)

  /** `urlunsplit` for a scheme that uses a network location (http, https):
      "scheme://netloc", the path (given a leading "/" when it lacks one),
      then "?query" and "#fragment" when those are non-empty. */
  function Unsplit(u: Url): string
  {
    var path := if u.path != "" && u.path[0] != '/' then "/" + u.path else u.path;
    u.scheme + ":" + ("//" + (u.netloc + Tail(u.(path := path))))
  }

  /** Reads "scheme://netloc/path?query#fragment": the scheme ends at the first
      ":", the network location at the first "/", "?" or "#", the fragment starts
      at the first "#" and the query at the first "?" before it. A URL without a
      scheme or without "//" after it is not read. */
  function Split(url: string): Option<Url>
  {
    var i := IndexOfAny(url, {':'});
    if i == 0 || i == |url| then None
    else
      var rest := url[i + 1..];
      if |rest| < 2 || rest[..2] != "//" then None
      else Some(SplitAuthority(url[..i], rest[2..]))
  }

  /** Reads what follows "scheme://": the network location, then path, query and fragment. */
  function SplitAuthority(scheme: string, after: string): Url
  {
    var j := IndexOfAny(after, {'/', '?', '#'});
    var (beforeFragment, fragment) := CutAt(after[j..], '#');
    var (path, query) := CutAt(beforeFragment, '?');
    Url(scheme, after[..j], path, query, fragment)
  }

  /** The text before the first `c` and the text after it ("" when there is no `c`). */
  function CutAt(s: string, c: char): (string, string)
  {
    var k := IndexOfAny(s, {c});
    (s[..k], if k < |s| then s[k + 1..] else "")
  }

  /** Cutting "a" + "c" + "b" (or "a" alone when "b" is empty) at the first `c`. */
  lemma CutAtMarked(a: string, c: char, b: string)
    requires NoneOf(a, {c})
    ensures CutAt(a + (if b != "" then [c] + b else ""), c) == (a, b)
  {
    var marked := if b != "" then [c] + b else "";
    IndexOfAnyAfter(a, marked, {c});
    assert (a + marked)[..|a|] == a;
    if b != "" {
      assert IndexOfAny(marked, {c}) == 0;
      assert (a + marked)[|a| + 1..] == b;
    }
  }

  /** Components that survive a trip through a URL string unchanged. */
  predicate WellFormed(u: Url) {
    && u.scheme != "" && NoneOf(u.scheme, {':'})
    && NoneOf(u.netloc, {'/', '?', '#'})
    && (u.path == "" || u.path[0] == '/')
    && NoneOf(u.path, {'?', '#'})
    && NoneOf(u.query, {'#'})
  }

  /** The part of a URL after its network location. */
  function Tail(u: Url): string
  {
    u.path
    + (if u.query != "" then "?" + u.query else "")
    + (if u.fragment != "" then "#" + u.fragment else "")
  }

  /** Reading the part after the network location recovers path, query and fragment. */
  lemma SplitTail(u: Url)
    requires WellFormed(u)
    ensures var (beforeFragment, fragment) := CutAt(Tail(u), '#');
            fragment == u.fragment && CutAt(beforeFragment, '?') == (u.path, u.query)
  {
    var queryPart := if u.query != "" then "?" + u.query else "";
    var beforeFragment := u.path + queryPart;
    assert NoneOf(beforeFragment, {'#'}) by {
      forall n | 0 <= n < |beforeFragment|
        ensures beforeFragment[n] !in {'#'}
      {
        if n >= |u.path| { assert beforeFragment[n] == queryPart[n - |u.path|]; }
      }
    }
    CutAtMarked(beforeFragment, '#', u.fragment);
    CutAtMarked(u.path, '?', u.query);
  }

  /** Reading what follows "scheme://" recovers network location, path, query and fragment. */
  lemma SplitAuthorityTail(u: Url)
    requires WellFormed(u)
    ensures SplitAuthority(u.scheme, u.netloc + Tail(u)) == u
  {
    var tail := Tail(u);
    IndexOfAnyAfter(u.netloc, tail, {'/', '?', '#'});
    assert IndexOfAny(tail, {'/', '?', '#'}) == 0 by {
      if u.path != "" {
        assert tail[0] == '/';
      } else if u.query != "" {
        assert tail[0] == '?';
      } else if u.fragment != "" {
        assert tail[0] == '#';
      } else {
        assert tail == "";
      }
    }
    var after := u.netloc + tail;
    assert after[..|u.netloc|] == u.netloc && after[|u.netloc|..] == tail;
    SplitTail(u);
  }

  /** Reading a URL recovers the components it was built from. */
  lemma SplitUnsplit(u: Url)
    requires WellFormed(u)
    ensures Split(Unsplit(u)) == Some(u)
  {
    var after := u.netloc + Tail(u);
    var rest := "//" + after;
    var url := u.scheme + ":" + rest;
    assert u.(path := u.path) == u;
    assert Unsplit(u) == url;
    IndexOfAnyAfter(u.scheme, ":" + rest, {':'});
    assert url == u.scheme + (":" + rest);
    assert url[..|u.scheme|] == u.scheme;
    assert url[|u.scheme| + 1..] == rest;
    assert rest[..2] == "//" && rest[2..] == after;
    SplitAuthorityTail(u);
  }

  /** The base path up to and including its last "/" (empty when it has none). */
  function Directory(base: string): (dir: string)
    ensures |dir| <= |base| && dir == base[..|dir|]
    ensures dir == "" || dir[|dir| - 1] == '/'
    ensures NoneOf(base[|dir|..], {'/'})
  {
    if base == "" then ""
    else if base[|base| - 1] == '/' then base
    else Directory(base[..|base| - 1])
  }

  /** `urljoin` on two paths: an empty reference keeps the base, one starting
      with "/" replaces it, and any other is put after the base's directory
      (RFC 3986 section 5.2.3). */
  function JoinPath(base: string, relative: string): (joined: string)
    ensures relative == "" ==> joined == base
    ensures relative != "" ==> |relative| <= |joined| && joined[|joined| - |relative|..] == relative
    ensures relative != "" && relative[0] != '/' ==>
              var prefix := joined[..|joined| - |relative|];
              prefix <= base && (prefix == "" || prefix[|prefix| - 1] == '/') && NoneOf(base[|prefix|..], {'/'})
    ensures relative != "" && relative[0] == '/' ==> joined == relative
  {
    if relative == "" then base
    else if relative[0] == '/' then relative
    else Directory(base) + relative
  }

  /** Under a base path ending in "/", joining appends the relative path. */
  lemma JoinUnderDirectory(base: string, relative: string)
    requires base != "" && base[|base| - 1] == '/'
    requires relative == "" || relative[0] != '/'
    ensures JoinPath(base, relative) == base + relative
  {
  }
}
