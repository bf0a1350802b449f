/**
 * The origin-fallback heuristic the retry runtime runs before scheduling a
 * retry: it scans the page's `<link>` elements and lets the first usable
 * stylesheet decide where later chunks are fetched from, flipping the page's
 * `window.env` flags, the `ed-revision-host` storage entry and `window.chunkURL`.
 */
module LinkScan {
  import opened Optional
  import opened Text

  /** A `<link>` element: its `rel` and `href` attributes (None when the attribute is missing). */
  datatype Link = Link(rel: Option<string>, href: Option<string>)

  /** A snapshot of the page state the heuristic reads and writes. */
  datatype EnvState = EnvState(
    publicPathLoaded: bool,          // window.env.publicPathLoaded
    edLocalHostLoaded: bool,         // window.env.edLocalHostLoaded
    cdnHostConst: string,            // window.env.CDN_HOST_CONST
    cdnHostConstPrev: string,        // window.env.CDN_HOST_CONST_PREV
    revisionHost: Option<string>,    // localStorage 'ed-revision-host'
    chunkUrl: Option<string>)        // window.chunkURL

  /** Substrings that disqualify a stylesheet href. */
  const ExcludedFragments: seq<string> := ["wss", "pages/revision", "pages/cdn", "old-browser", "stacktrace"]

  /** An href (missing counts as "") holding one of the excluded substrings. */
  predicate IsExcluded(href: Option<string>): (b: bool)
    ensures href.None? ==> !b
  {
    exists k :: 0 <= k < |ExcludedFragments| && Contains(href.GetOr(""), ExcludedFragments[k])
  }

  /** A link the heuristic acts on: a stylesheet, not excluded, whose href mentions `.css`. */
  predicate Qualifies(link: Link)
  {
    && link.rel == Some("stylesheet")
    && !IsExcluded(link.href)
    && link.href.Some?
    && Contains(link.href.value, ".css")
  }

  /**
   * A link qualifies exactly when it is a stylesheet whose href has `.css`
   * somewhere in it and none of the excluded fragments anywhere in it.
   */
  lemma QualifiesBySubstrings(link: Link)
    ensures Qualifies(link) <==>
      && link.rel == Some("stylesheet")
      && link.href.Some?
      && (exists j: nat :: OccursAt(link.href.value, ".css", j))
      && (forall k: nat, j: nat :: k < |ExcludedFragments| ==> !OccursAt(link.href.value, ExcludedFragments[k], j))
  {
  }

  /** `href.replace("https://", "")`. */
  function StripScheme(href: string): (r: string)
    ensures |href| >= 8 && href[..8] == "https://" ==> r == href[8..]
    ensures !Contains(href, "https://") ==> r == href
  {
    ReplaceFirstOfPrefix(href, "https://", "");
    ReplaceFirst(href, "https://", "")
  }

  /** `xs.slice(1)`. */
  function DropFirst<T>(xs: seq<T>): seq<T>
  {
    if |xs| >= 1 then xs[1..] else []
  }

  /** `xs.slice(0, -1)`. */
  function DropLast<T>(xs: seq<T>): seq<T>
  {
    if |xs| >= 1 then xs[..|xs| - 1] else []
  }

  /** `s.split("/").slice(1).slice(0, -1).join("/")`: the path between the first and the last `/`. */
  function InnerPath(s: string): (p: string)
    ensures '/' !in s ==> p == ""
  {
    var p := Join(DropLast(DropFirst(Split(s, '/'))), '/');
    assert '/' !in s ==> p == "" by {
      if '/' !in s {
        SplitAfterPlainPrefix(s, "", '/');
        assert s + "" == s;
      }
    }
    p
  }

  /** The directory of a stylesheet href, from which `window.chunkURL` is built. */
  function ChunkDir(href: string): (dir: string)
    ensures !Contains(href, "https://") ==> dir == InnerPath(href)
  {
    InnerPath(StripScheme(href))
  }

  /** The state change the first qualifying link causes. */
  function Adopt(s: EnvState, href: string, origin: string, cdnHost: string): (r: EnvState)
    ensures r.publicPathLoaded && r.edLocalHostLoaded
    ensures r.revisionHost == Some(if s.edLocalHostLoaded then cdnHost else origin)
    ensures (r.cdnHostConst, r.cdnHostConstPrev) == (if s.edLocalHostLoaded then (cdnHost, "") else ("", cdnHost))
    ensures r.chunkUrl == Some(r.cdnHostConst + "/" + ChunkDir(href) + "/")
  {
    var dir := ChunkDir(href);
    assert "" + "/" == "/";
    if s.edLocalHostLoaded then
      s.(revisionHost := Some(cdnHost), cdnHostConstPrev := "", cdnHostConst := cdnHost,
         chunkUrl := Some(cdnHost + "/" + dir + "/"), publicPathLoaded := true)
    else
      s.(edLocalHostLoaded := true, revisionHost := Some(origin), cdnHostConstPrev := cdnHost,
         cdnHostConst := "", chunkUrl := Some("/" + dir + "/"), publicPathLoaded := true)
  }

  /** One iteration of the `forEach` over the links. */
  function Visit(s: EnvState, link: Link, origin: string, cdnHost: string): (r: EnvState)
    ensures r.publicPathLoaded <==> s.publicPathLoaded || Qualifies(link)
    ensures s.publicPathLoaded || !Qualifies(link) ==> r == s
    ensures s.edLocalHostLoaded ==> r.edLocalHostLoaded
  {
    if Qualifies(link) && !s.publicPathLoaded then Adopt(s, link.href.value, origin, cdnHost) else s
  }

  /** The `forEach` over the remaining links. */
  function VisitAll(s: EnvState, links: seq<Link>, origin: string, cdnHost: string): (r: EnvState)
    ensures s.edLocalHostLoaded ==> r.edLocalHostLoaded
    decreases |links|
  {
    if links == [] then s else VisitAll(Visit(s, links[0], origin, cdnHost), links[1..], origin, cdnHost)
  }

  /** After the links are visited, `publicPathLoaded` is set exactly when it was already set or some link qualifies. */
  lemma {:induction false} VisitAllLoaded(s: EnvState, links: seq<Link>, origin: string, cdnHost: string)
    ensures VisitAll(s, links, origin, cdnHost).publicPathLoaded
        <==> s.publicPathLoaded || exists k :: 0 <= k < |links| && Qualifies(links[k])
    decreases |links|
  {
    if links != [] {
      VisitAllLoaded(Visit(s, links[0], origin, cdnHost), links[1..], origin, cdnHost);
      assert forall k :: 1 <= k < |links| ==> links[k] == links[1..][k - 1];
    }
  }

  /** The whole heuristic: `publicPathLoaded` is reset, then the links are visited in document order. */
  function Scan(s: EnvState, links: seq<Link>, origin: string, cdnHost: string): (r: EnvState)
    ensures s.edLocalHostLoaded ==> r.edLocalHostLoaded
  {
    VisitAll(s.(publicPathLoaded := false), links, origin, cdnHost)
  }

  /** The page state after `n` failure events, each running the heuristic over the same links. */
  function ScanRepeated(s: EnvState, links: seq<Link>, origin: string, cdnHost: string, n: nat): EnvState
  {
    if n == 0 then s else Scan(ScanRepeated(s, links, origin, cdnHost, n - 1), links, origin, cdnHost)
  }

  /** Once `publicPathLoaded` is set, later links change nothing. */
  lemma {:induction false} VisitAllAfterLoaded(s: EnvState, links: seq<Link>, origin: string, cdnHost: string)
    requires s.publicPathLoaded
    ensures VisitAll(s, links, origin, cdnHost) == s
    decreases |links|
  {
    if links != [] {
      VisitAllAfterLoaded(s, links[1..], origin, cdnHost);
    }
  }

  /** Links that do not qualify change nothing. */
  lemma {:induction false} VisitAllSkips(s: EnvState, links: seq<Link>, origin: string, cdnHost: string)
    requires forall k :: 0 <= k < |links| ==> !Qualifies(links[k])
    ensures VisitAll(s, links, origin, cdnHost) == s
    decreases |links|
  {
    if links != [] {
      VisitAllSkips(s, links[1..], origin, cdnHost);
    }
  }

  /** Before `publicPathLoaded` is set, the first qualifying link alone decides the outcome. */
  lemma {:induction false} VisitAllTakesFirst(s: EnvState, links: seq<Link>, i: nat, origin: string, cdnHost: string)
    requires !s.publicPathLoaded
    requires i < |links| && Qualifies(links[i])
    requires forall k :: 0 <= k < i ==> !Qualifies(links[k])
    ensures VisitAll(s, links, origin, cdnHost) == Adopt(s, links[i].href.value, origin, cdnHost)
    decreases i
  {
    if i == 0 {
      VisitAllAfterLoaded(Adopt(s, links[0].href.value, origin, cdnHost), links[1..], origin, cdnHost);
    } else {
      VisitAllTakesFirst(s, links[1..], i - 1, origin, cdnHost);
    }
  }

  /** With no qualifying link the heuristic only clears `publicPathLoaded`, and nothing else changes. */
  lemma ScanWithoutQualifyingLink(s: EnvState, links: seq<Link>, origin: string, cdnHost: string)
    requires forall k :: 0 <= k < |links| ==> !Qualifies(links[k])
    ensures Scan(s, links, origin, cdnHost) == s.(publicPathLoaded := false)
  {
    VisitAllSkips(s.(publicPathLoaded := false), links, origin, cdnHost);
  }

  /**
   * The first qualifying link switches the page: to its own origin the first
   * time, to the CDN host once the local host has been tried.
   */
  lemma ScanFirstQualifyingLink(s: EnvState, links: seq<Link>, i: nat, origin: string, cdnHost: string)
    requires i < |links| && Qualifies(links[i])
    requires forall k :: 0 <= k < i ==> !Qualifies(links[k])
    ensures var r := Scan(s, links, origin, cdnHost);
      && r.publicPathLoaded
      && r.edLocalHostLoaded
      && (!s.edLocalHostLoaded ==>
            && r.revisionHost == Some(origin)
            && r.cdnHostConstPrev == cdnHost
            && r.cdnHostConst == ""
            && r.chunkUrl == Some("/" + ChunkDir(links[i].href.value) + "/"))
      && (s.edLocalHostLoaded ==>
            && r.revisionHost == Some(cdnHost)
            && r.cdnHostConstPrev == ""
            && r.cdnHostConst == cdnHost
            && r.chunkUrl == Some(cdnHost + "/" + ChunkDir(links[i].href.value) + "/"))
  {
    VisitAllTakesFirst(s.(publicPathLoaded := false), links, i, origin, cdnHost);
  }

  /** The index of the first qualifying link, if any. */
  function FirstQualifying(links: seq<Link>): (r: Option<nat>)
    ensures r.Some? ==> r.value < |links| && Qualifies(links[r.value])
    ensures r.Some? ==> forall k :: 0 <= k < r.value ==> !Qualifies(links[k])
    ensures r.None? ==> forall k :: 0 <= k < |links| ==> !Qualifies(links[k])
    decreases |links|
  {
    if links == [] then None
    else if Qualifies(links[0]) then Some(0)
    else match FirstQualifying(links[1..])
      case None => None
      case Some(i) => Some(i + 1)
  }

  /**
   * The heuristic settles after two failure events: once the local host has
   * been tried, every later scan of the same links leaves the page as it is.
   */
  lemma ScanIdempotentOnceLocalTried(s: EnvState, links: seq<Link>, origin: string, cdnHost: string)
    requires s.edLocalHostLoaded || FirstQualifying(links).None?
    ensures Scan(Scan(s, links, origin, cdnHost), links, origin, cdnHost) == Scan(s, links, origin, cdnHost)
  {
    match FirstQualifying(links)
    case None =>
      ScanWithoutQualifyingLink(s, links, origin, cdnHost);
      ScanWithoutQualifyingLink(Scan(s, links, origin, cdnHost), links, origin, cdnHost);
    case Some(i) =>
      ScanFirstQualifyingLink(s, links, i, origin, cdnHost);
      ScanFirstQualifyingLink(Scan(s, links, origin, cdnHost), links, i, origin, cdnHost);
  }

  /** From the second failure event on, repeated scans of the same links no longer change the page. */
  lemma {:induction false} ScanRepeatedSettles(s: EnvState, links: seq<Link>, origin: string, cdnHost: string, n: nat)
    requires n >= 2
    ensures ScanRepeated(s, links, origin, cdnHost, n) == ScanRepeated(s, links, origin, cdnHost, 2)
    decreases n
  {
    if n > 2 {
      ScanRepeatedSettles(s, links, origin, cdnHost, n - 1);
      assert ScanRepeated(s, links, origin, cdnHost, 0) == s;
      var once := ScanRepeated(s, links, origin, cdnHost, 1);
      assert once == Scan(s, links, origin, cdnHost);
      assert ScanRepeated(s, links, origin, cdnHost, 2) == Scan(once, links, origin, cdnHost);
      match FirstQualifying(links)
      case None =>
        ScanIdempotentOnceLocalTried(once, links, origin, cdnHost);
      case Some(i) =>
        ScanFirstQualifyingLink(s, links, i, origin, cdnHost);
        ScanIdempotentOnceLocalTried(once, links, origin, cdnHost);
    }
  }

  /**
   * With three or more parts, the first part ends at the first `/`, the last
   * part starts after the last `/`, and `InnerPath` is what lies between.
   */
  lemma SlashLayoutOfInner(s: string)
    requires |Split(s, '/')| >= 3
    ensures var parts := Split(s, '/');
      var a := |parts[0]|;
      var b := |s| - |parts[|parts| - 1]| - 1;
      && a < b < |s|
      && s[a] == '/' && s[b] == '/'
      && (forall k :: 0 <= k < a ==> s[k] != '/')
      && (forall k :: b < k < |s| ==> s[k] != '/')
      && s[a + 1..b] == InnerPath(s)
  {
    var parts := Split(s, '/');
    var n := |parts|;
    var a := |parts[0]|;
    var mid := DropLast(DropFirst(parts));
    var last := parts[n - 1];
    JoinOfSplit(s, '/');
    assert mid == parts[1..][..n - 2];
    JoinLast(parts[1..], '/');
    var inner := Join(mid, '/');
    assert s == parts[0] + "/" + inner + "/" + last;
    var b := a + 1 + |inner|;
    forall k | 0 <= k < a
      ensures s[k] != '/'
    {
      assert s[k] == parts[0][k];
    }
    forall k | b < k < |s|
      ensures s[k] != '/'
    {
      assert s[k] == last[k - b - 1];
    }
    assert s[a + 1..b] == inner;
    assert InnerPath(s) == inner;
    assert |s| - |last| - 1 == b;
  }

  /** With at most two parts there is at most one `/`, and `InnerPath` is empty. */
  lemma SlashLayoutWithoutInner(s: string)
    requires |Split(s, '/')| <= 2
    ensures InnerPath(s) == ""
    ensures forall k :: 0 <= k < |s| && k != |Split(s, '/')[0]| ==> s[k] != '/'
  {
    var parts := Split(s, '/');
    var a := |parts[0]|;
    JoinOfSplit(s, '/');
    if |parts| == 1 {
      assert s == parts[0];
    } else {
      assert s == parts[0] + "/" + parts[1];
      forall k | 0 <= k < |s| && k != a
        ensures s[k] != '/'
      {
        if k < a {
          assert s[k] == parts[0][k];
        } else {
          assert s[k] == parts[1][k - a - 1];
        }
      }
    }
  }

  /** `InnerPath` is exactly the text strictly between the first and the last `/`. */
  lemma InnerPathBetweenOuterSlashes(s: string, i: nat, j: nat)
    requires i < j < |s| && s[i] == '/' && s[j] == '/'
    requires '/' !in s[..i] && '/' !in s[j + 1..]
    ensures InnerPath(s) == s[i + 1..j]
  {
    var parts := Split(s, '/');
    if |parts| <= 2 {
      SlashLayoutWithoutInner(s);
    }
    assert |parts| >= 3;
    SlashLayoutOfInner(s);
    var a := |parts[0]|;
    var b := |s| - |parts[|parts| - 1]| - 1;
    forall k | 0 <= k < i
      ensures s[k] != '/'
    {
      assert s[k] == s[..i][k];
    }
    forall k | j < k < |s|
      ensures s[k] != '/'
    {
      assert s[k] == s[j + 1..][k - j - 1];
    }
    assert i == a;
    assert j == b;
  }

  /** A non-empty `InnerPath` needs two `/` in the string. */
  lemma InnerPathNeedsTwoSlashes(s: string)
    ensures InnerPath(s) != "" ==> exists i, j :: 0 <= i < j < |s| && s[i] == '/' && s[j] == '/'
  {
    var parts := Split(s, '/');
    if |parts| >= 3 {
      SlashLayoutOfInner(s);
      var a := |parts[0]|;
      var b := |s| - |parts[|parts| - 1]| - 1;
      assert s[a] == '/' && s[b] == '/';
    } else {
      SlashLayoutWithoutInner(s);
    }
  }

  /** For an `https://` href the directory is the path between the host and the file name. */
  lemma ChunkDirOfHttpsHref(rest: string)
    ensures ChunkDir("https://" + rest) == InnerPath(rest)
  {
    var href := "https://" + rest;
    assert href[..8] == "https://" && href[8..] == rest;
  }

  /** The page's heuristic state, owned by the page and shared with other scripts. */
  class PageEnv {
    const origin: string                     // window.location.origin
    var publicPathLoaded: bool
    var edLocalHostLoaded: bool
    var cdnHostConst: string
    var cdnHostConstPrev: string
    var revisionHost: Option<string>
    var chunkUrl: Option<string>

    /** The current state as a value. */
    function State(): EnvState
      reads this
    {
      EnvState(publicPathLoaded, edLocalHostLoaded, cdnHostConst, cdnHostConstPrev, revisionHost, chunkUrl)
    }

    constructor(origin: string, initial: EnvState)
      ensures this.origin == origin && State() == initial
    {
      this.origin := origin;
      publicPathLoaded := initial.publicPathLoaded;
      edLocalHostLoaded := initial.edLocalHostLoaded;
      cdnHostConst := initial.cdnHostConst;
      cdnHostConstPrev := initial.cdnHostConstPrev;
      revisionHost := initial.revisionHost;
      chunkUrl := initial.chunkUrl;
    }

    /** The `forEach` callback: one link, which takes effect only when it is the first qualifying one. */
    method VisitLink(link: Link, cdnHost: string)
      modifies this
      ensures State() == Visit(old(State()), link, origin, cdnHost)
    {
      if link.rel == Some("stylesheet") {
        var cssLink := link.href;
        if !IsExcluded(cssLink) && !publicPathLoaded {
          if cssLink.Some? && Contains(cssLink.value, ".css") {
            var dir := ChunkDir(cssLink.value);
            if edLocalHostLoaded {
              revisionHost := Some(cdnHost);
              cdnHostConstPrev := "";
              cdnHostConst := cdnHost;
              chunkUrl := Some(cdnHost + "/" + dir + "/");
            } else {
              edLocalHostLoaded := true;
              revisionHost := Some(origin);
              cdnHostConstPrev := cdnHost;
              cdnHostConst := "";
              chunkUrl := Some("/" + dir + "/");
            }
            publicPathLoaded := true;
          }
        }
      }
    }

    /** Runs the heuristic over the document's links, in document order. */
    method ScanLinks(links: seq<Link>, cdnHost: string)
      modifies this
      ensures State() == Scan(old(State()), links, origin, cdnHost)
    {
      publicPathLoaded := false;
      var i := 0;
      while i < |links|
        invariant 0 <= i <= |links|
        invariant VisitAll(State(), links[i..], origin, cdnHost) == Scan(old(State()), links, origin, cdnHost)
      {
        assert links[i..][1..] == links[i + 1..];
        VisitLink(links[i], cdnHost);
        i := i + 1;
      }
    }
  }
}
