/** The pure predicates and link extraction of the crawler. */
module Filters {
  import opened Wrappers
  import opened Types

  /** `patterns.some(p => url.match(p))`. */
  function AnyMatch(matches: (Pattern, Url) -> bool, patterns: seq<Pattern>, url: Url): (r: bool)
    ensures r <==> exists i :: 0 <= i < |patterns| && matches(patterns[i], url)
  {
    if patterns == [] then false
    else matches(patterns[0], url) || AnyMatch(matches, patterns[1..], url)
  }

  /** The include/exclude filter: an exclude match always rejects; otherwise
      an empty include list admits, and a non-empty one admits exactly the
      URLs some include pattern matches. */
  function MatchesPatterns(cfg: Config, matches: (Pattern, Url) -> bool, url: Url): (r: bool)
    ensures (exists i :: 0 <= i < |cfg.excludePatterns| && matches(cfg.excludePatterns[i], url)) ==> !r
    ensures !(exists i :: 0 <= i < |cfg.excludePatterns| && matches(cfg.excludePatterns[i], url)) ==>
              (r <==> cfg.includePatterns == [] ||
                      exists i :: 0 <= i < |cfg.includePatterns| && matches(cfg.includePatterns[i], url))
  {
    if AnyMatch(matches, cfg.excludePatterns, url) then false
    else if |cfg.includePatterns| == 0 then true
    else AnyMatch(matches, cfg.includePatterns, url)
  }

  /** The robots gate. It fails open: with robots handling switched off or no
      rules loaded everything is allowed; otherwise only an explicit `true`
      verdict for the crawler's user agent allows (`false` and `undefined`
      deny). */
  function IsAllowed(cfg: Config, robots: Option<RobotsRules>, url: Url): (r: bool)
    ensures !cfg.respectRobotsTxt || robots.None? ==> r
    ensures cfg.respectRobotsTxt && robots.Some? ==> (r <==> robots.value(url, UserAgent) == Some(true))
  {
    if !cfg.respectRobotsTxt || robots.None? then true
    else robots.value(url, UserAgent) == Some(true)
  }

  predicate StartsWith(s: string, prefix: string) {
    |prefix| <= |s| && s[..|prefix|] == prefix
  }

  /** An href worth following: present, non-empty, not a fragment of the
      current page and not a script pseudo-link. */
  function Navigable(href: string): (r: bool)
    ensures r ==> href != "" && href[0] != '#'
    ensures r ==> !StartsWith(href, "javascript:")
    ensures href != "" && href[0] != '#' && href[0] != 'j' ==> r
  {
    href != "" && !StartsWith(href, "#") && !StartsWith(href, "javascript:")
  }

  /** The filter step of the link pipeline: keeps the navigable hrefs. */
  function FilterHrefs(hrefs: seq<Option<string>>): (r: seq<string>)
    ensures |r| <= |hrefs|
    ensures forall h :: h in r <==> Some(h) in hrefs && Navigable(h)
  {
    if hrefs == [] then []
    else
      var rest := FilterHrefs(hrefs[1..]);
      assert forall h :: Some(h) in hrefs <==> hrefs[0] == Some(h) || Some(h) in hrefs[1..];
      if hrefs[0].Some? && Navigable(hrefs[0].value) then [hrefs[0].value] + rest else rest
  }

  /** The filter keeps the order of the hrefs: filtering a concatenation is
      concatenating the filtered parts. */
  lemma {:induction false} FilterHrefsAppend(a: seq<Option<string>>, b: seq<Option<string>>)
    ensures FilterHrefs(a + b) == FilterHrefs(a) + FilterHrefs(b)
  {
    if a == [] {
      assert a + b == b;
    } else {
      assert (a + b)[0] == a[0];
      assert (a + b)[1..] == a[1..] + b;
      FilterHrefsAppend(a[1..], b);
    }
  }

  /** A single href is kept exactly when it is present and navigable. */
  lemma FilterHrefsSingle(h: Option<string>)
    ensures FilterHrefs([h]) == if h.Some? && Navigable(h.value) then [h.value] else []
  {
    assert [h][1..] == [];
  }

  /** The map step of the link pipeline: resolves every href against the page
      URL; the whole step fails as soon as one resolution throws. */
  function ResolveAll(hrefs: seq<string>, base: Url, resolve: (string, Url) -> Option<Url>): (r: Option<seq<Url>>)
    ensures r.Some? <==> forall i :: 0 <= i < |hrefs| ==> resolve(hrefs[i], base).Some?
    ensures r.Some? ==> |r.value| == |hrefs|
    ensures r.Some? ==> forall i :: 0 <= i < |hrefs| ==> resolve(hrefs[i], base) == Some(r.value[i])
  {
    if hrefs == [] then Some([])
    else
      match resolve(hrefs[0], base)
      case None => None
      case Some(u) =>
        match ResolveAll(hrefs[1..], base, resolve)
        case None =>
          assert exists i :: 1 <= i < |hrefs| && resolve(hrefs[i], base).None? by {
            var j :| 0 <= j < |hrefs[1..]| && resolve(hrefs[1..][j], base).None?;
            assert hrefs[1..][j] == hrefs[j + 1];
          }
          None
        case Some(us) =>
          assert forall i :: 1 <= i < |hrefs| ==> hrefs[i] == hrefs[1..][i - 1];
          Some([u] + us)
  }

  /** `extractLinks`: the anchors' hrefs, filtered, then resolved against the
      page's own location, in document order. */
  function ExtractLinks(page: Page, resolve: (string, Url) -> Option<Url>): (r: Option<seq<Url>>)
    ensures r.None? <==>
              exists h :: Some(h) in page.hrefs && Navigable(h) && resolve(h, page.location).None?
    ensures r.Some? ==>
              forall l :: l in r.value ==>
                exists h :: Some(h) in page.hrefs && Navigable(h) && resolve(h, page.location) == Some(l)
    ensures r.Some? ==> |r.value| == |FilterHrefs(page.hrefs)|
    ensures r.Some? ==> forall i :: 0 <= i < |r.value| ==>
              resolve(FilterHrefs(page.hrefs)[i], page.location) == Some(r.value[i])
  {
    var kept := FilterHrefs(page.hrefs);
    var r := ResolveAll(kept, page.location, resolve);
    assert r.None? ==> exists h :: Some(h) in page.hrefs && Navigable(h) && resolve(h, page.location).None? by {
      if r.None? {
        var i :| 0 <= i < |kept| && resolve(kept[i], page.location).None?;
        assert kept[i] in kept;
      }
    }
    assert r.Some? ==> forall l :: l in r.value ==>
        exists h :: Some(h) in page.hrefs && Navigable(h) && resolve(h, page.location) == Some(l) by {
      if r.Some? {
        forall l | l in r.value
          ensures exists h :: Some(h) in page.hrefs && Navigable(h) && resolve(h, page.location) == Some(l)
        {
          var i :| 0 <= i < |r.value| && r.value[i] == l;
          assert kept[i] in kept;
        }
      }
    }
    r
  }

  /** The page fetcher: load the page, then extract its links; `None` when
      either step throws. */
  function Fetch(w: World, url: Url): (r: Option<seq<Url>>)
    ensures w.load(url).None? ==> r.None?
    ensures w.load(url).Some? ==> r == ExtractLinks(w.load(url).value, w.resolve)
  {
    match w.load(url)
    case None => None
    case Some(page) => ExtractLinks(page, w.resolve)
  }
}
