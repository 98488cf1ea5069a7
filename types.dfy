/** The data of the sitemap generator: URLs, crawl tasks, the configuration
    with its defaults, and the outside world the crawler talks to. */
module Types {
  import opened Wrappers

  /** An absolute URL, as the URL parser prints it. */
  type Url = string

  /** A regular expression, kept as its source text; what it matches is
      decided by `World.regexMatch`. */
  type Pattern = string

  /** The crawler identity whose robots.txt rules are consulted. */
  const UserAgent: string := "Steel-Browser"

  datatype OutputFormat = Xml | Json | Txt

  /** An entry of the frontier: a URL and the link distance from the seed. */
  datatype Task = Task(url: Url, depth: nat)

  /** The configuration after the defaults have been merged in. */
  datatype Config = Config(
    baseUrl: Url,
    maxDepth: int,
    maxUrls: int,
    respectRobotsTxt: bool,
    crawlDelay: int,
    excludePatterns: seq<Pattern>,
    includePatterns: seq<Pattern>,
    outputFormat: OutputFormat)

  /** The configuration as a caller writes it: every field but the base URL
      may be left out. */
  datatype ConfigInput = ConfigInput(
    baseUrl: Url,
    maxDepth: Option<int>,
    maxUrls: Option<int>,
    respectRobotsTxt: Option<bool>,
    crawlDelay: Option<int>,
    excludePatterns: Option<seq<Pattern>>,
    includePatterns: Option<seq<Pattern>>,
    outputFormat: Option<OutputFormat>)

  const DefaultMaxDepth: int := 3
  const DefaultMaxUrls: int := 1000
  const DefaultRespectRobotsTxt: bool := true
  const DefaultCrawlDelay: int := 1000

  function Or<T>(given: Option<T>, default: T): (r: T) {
    if given.Some? then given.value else default
  }

  /** The merge `{ defaults..., ...config }`: a field the caller gives wins,
      a field left out takes its default. */
  function ResolveConfig(input: ConfigInput): (c: Config)
    ensures c.baseUrl == input.baseUrl
    ensures input.maxDepth.Some? ==> c.maxDepth == input.maxDepth.value
    ensures input.maxDepth.None? ==> c.maxDepth == 3
    ensures input.maxUrls.Some? ==> c.maxUrls == input.maxUrls.value
    ensures input.maxUrls.None? ==> c.maxUrls == 1000
    ensures input.respectRobotsTxt.Some? ==> c.respectRobotsTxt == input.respectRobotsTxt.value
    ensures input.respectRobotsTxt.None? ==> c.respectRobotsTxt
    ensures input.crawlDelay.Some? ==> c.crawlDelay == input.crawlDelay.value
    ensures input.crawlDelay.None? ==> c.crawlDelay == 1000
    ensures input.excludePatterns.Some? ==> c.excludePatterns == input.excludePatterns.value
    ensures input.excludePatterns.None? ==> c.excludePatterns == []
    ensures input.includePatterns.Some? ==> c.includePatterns == input.includePatterns.value
    ensures input.includePatterns.None? ==> c.includePatterns == []
    ensures input.outputFormat.Some? ==> c.outputFormat == input.outputFormat.value
    ensures input.outputFormat.None? ==> c.outputFormat == Xml
  {
    Config(
      input.baseUrl,
      Or(input.maxDepth, DefaultMaxDepth),
      Or(input.maxUrls, DefaultMaxUrls),
      Or(input.respectRobotsTxt, DefaultRespectRobotsTxt),
      Or(input.crawlDelay, DefaultCrawlDelay),
      Or(input.excludePatterns, []),
      Or(input.includePatterns, []),
      Or(input.outputFormat, Xml))
  }

  /** The input that spells out every field of `c`. */
  function Explicit(c: Config): (input: ConfigInput) {
    ConfigInput(c.baseUrl, Some(c.maxDepth), Some(c.maxUrls), Some(c.respectRobotsTxt),
                Some(c.crawlDelay), Some(c.excludePatterns), Some(c.includePatterns),
                Some(c.outputFormat))
  }

  /** A caller who gives only the base URL gets the documented defaults. */
  lemma ResolveConfigDefaults(baseUrl: Url)
    ensures ResolveConfig(ConfigInput(baseUrl, None, None, None, None, None, None, None))
         == Config(baseUrl, 3, 1000, true, 1000, [], [], Xml)
  {
  }

  /** Caller-supplied values override every default: a fully spelled-out
      configuration comes back unchanged. */
  lemma ResolveConfigExplicit(c: Config)
    ensures ResolveConfig(Explicit(c)) == c
  {
  }

  /** A rendered page: the URL the browser ends up at (after redirects) and
      the `href` attribute of every anchor, `None` where it is missing. */
  datatype Page = Page(location: Url, hrefs: seq<Option<string>>)

  /** Parsed robots.txt: the verdict for a URL and a user agent; `None` is the
      parser's `undefined`, given for a URL outside the file's origin. */
  type RobotsRules = (Url, string) -> Option<bool>

  /** Everything outside the crawl engine, as functions of their inputs:
      - regexMatch(p, u): `u.match(p)` is truthy;
      - resolve(href, base): `new URL(href, base).toString()`, `None` when the
        constructor throws;
      - load(u): navigating to `u` and reading its anchors, `None` when that
        throws;
      - robotsFile: the parsed robots.txt, `None` when fetching it failed. */
  datatype World = World(
    regexMatch: (Pattern, Url) -> bool,
    resolve: (string, Url) -> Option<Url>,
    load: Url -> Option<Page>,
    robotsFile: Option<RobotsRules>)
}
