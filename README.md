# Steel sitemap generator: the crawl engine, modelled in Dafny

This project models the crawl engine of the Steel sitemap generator
(`SteelSitemapGenerator` in
`steel-cookbook/examples/steel-sitemap-generator/src/generator.ts`) and proves
properties of it. The engine is a sequential breadth-first crawl from a base
URL. Its state is a visited set, which is the only authority for
deduplication, and a FIFO frontier of `(url, depth)` tasks. A dequeued task
passes five admission checks in order: depth, size, already visited, the
robots gate and the include/exclude pattern filter. An admitted URL is marked
visited *before* its page is fetched. Its unvisited links are then appended
at depth + 1. The exported sitemap lists the visited set in insertion order.

Everything outside the engine is an input of the model, gathered in
`Types.World`:

- regular-expression matching, `url.match(pattern)`, is a predicate `regexMatch`;
- URL resolution, `new URL(href, base)`, is a function `resolve` that returns
  `None` where the constructor throws;
- loading a page in the remote browser and reading its anchors is `load`,
  which returns `None` where navigation throws;
- the parsed robots.txt is `robotsFile`, `None` when fetching it failed.
  A parsed rule set gives `Some(true)`, `Some(false)`, or `None` for the
  parser's `undefined`.

Layout, one module per component:

- `wrappers.dfy`: `Option`.
- `types.dfy`: URLs, tasks, the configuration and its defaults, the world.
- `filters.dfy`: the robots gate, the pattern filter, the href filter, link
  extraction, the page fetcher.
- `crawl.dfy`: the engine as a function on values. `AfterCrawlPage` is one
  `crawlPage` call, `AfterIteration` one loop iteration, `Drain` the loop and
  `AfterGenerate` the whole run.
- `crawl_properties.dfy`: the invariants of the loop. No URL is visited twice;
  at most `maxUrls` are visited; every admitted depth is at most `maxDepth`;
  only eligible URLs are admitted; admission is breadth-first; `maxDepth = 0`
  and `maxUrls = 1` admit only the seed.
- `scenarios.dfy`: one concrete crawl, worked through step by step.
- `generator.dfy`: the class `SitemapGenerator`. Its fields `visited` and
  `queue` are updated in place, and its methods are proved to follow the
  functions of `crawl.dfy`.

Notes on behaviour the code has and a reader might not expect:

- The href filter (generator.ts:82) drops only hrefs that are missing, empty,
  or start with `#` or `javascript:`. An absolute link with a fragment, such
  as `https://example.com/a#frag`, is a URL of its own and is crawled beside
  `https://example.com/a`. A `mailto:` link passes the href filter. It is
  then subject to the same admission checks as any other link (depth,
  `maxUrls`, robots, patterns). With robots rules loaded, the rules answer
  `undefined` for such a foreign URL, so it is rejected. With no rules
  loaded, or robots handling off, it is admitted whenever the pattern filter
  admits it, and it stays in the sitemap although it cannot be loaded.
  `Scenarios.LinkSiteVisitsFragmentAndMail` proves this for a three-link page
  crawled without robots rules. The model follows the code here, not the expectation that
  such links are dropped.
- Link resolution happens inside one `page.evaluate` call (generator.ts:83).
  If a single navigable href makes `new URL` throw, the whole extraction fails
  and that page enqueues nothing; its URL stays visited.
- `robotsTxt.isAllowed` may return `undefined` (for a URL outside the robots
  file's origin). Its negation rejects, so once rules are loaded only an
  explicit `true` admits.
- `generate` does not reset `visited` or `queue`. A second call on the same
  object continues from the first call's visited set. A failed robots fetch
  keeps the rules loaded before. `Generator.SitemapGenerator.Generate` accepts
  any consistent state, including a leftover frontier. On return it is in its
  `Idle()` state: the frontier is empty or the visited set is full.
- Because of the loop guard (generator.ts:126), the `visited.size >= maxUrls`
  check in `crawlPage` never rejects anything during `generate`.

## Model

| member | source | states |
|---|---|---|
| `Types.ResolveConfig` | steel-cookbook/examples/steel-sitemap-generator/src/generator.ts:27-37 | field by field: a value the caller gives is taken over unchanged; a field left out gets its default (maxDepth 3, maxUrls 1000, robots respected, delay 1000, no exclude or include patterns, XML) |
| `Types.ResolveConfigDefaults` | steel-cookbook/examples/steel-sitemap-generator/src/generator.ts:28-35 | with only a base URL: maxDepth 3, maxUrls 1000, robots respected, delay 1000, no patterns, XML output |
| `Types.ResolveConfigExplicit` | steel-cookbook/examples/steel-sitemap-generator/src/generator.ts:27-37 | caller-supplied values override every default: a fully given configuration comes back unchanged |
| `Filters.AnyMatch` | steel-cookbook/examples/steel-sitemap-generator/src/generator.ts:70 | `some` over the patterns: true exactly when some pattern matches the URL |
| `Filters.MatchesPatterns` | steel-cookbook/examples/steel-sitemap-generator/src/generator.ts:69-75 | an exclude match always rejects; with no exclude match, an empty include list admits and a non-empty one admits exactly when some include pattern matches |
| `Filters.IsAllowed` | steel-cookbook/examples/steel-sitemap-generator/src/generator.ts:64-67 | fails open: allowed whenever robots handling is off or no rules are loaded; otherwise allowed exactly when the rules say `true` for agent `Steel-Browser` |
| `Filters.Navigable` | steel-cookbook/examples/steel-sitemap-generator/src/generator.ts:82 | a kept href is non-empty, does not start with `#` or `javascript:`; any href whose first character is neither `#` nor `j` is kept |
| `Filters.FilterHrefs` | steel-cookbook/examples/steel-sitemap-generator/src/generator.ts:80-82 | keeps exactly the hrefs that are present, non-empty and start with neither `#` nor `javascript:` |
| `Filters.FilterHrefsAppend` | steel-cookbook/examples/steel-sitemap-generator/src/generator.ts:80-82 | the filter preserves order: filtering a concatenation concatenates the filtered parts |
| `Filters.FilterHrefsSingle` | steel-cookbook/examples/steel-sitemap-generator/src/generator.ts:82 | one href is kept exactly when it is present and navigable |
| `Filters.ResolveAll` | steel-cookbook/examples/steel-sitemap-generator/src/generator.ts:83 | succeeds exactly when every href resolves; then the i-th link is the resolution of the i-th href |
| `Filters.ExtractLinks` | steel-cookbook/examples/steel-sitemap-generator/src/generator.ts:77-84 | fails exactly when some kept href cannot be resolved against the page location; otherwise the i-th link is the resolution of the i-th kept href, in document order, one link per kept href |
| `Filters.Fetch` | steel-cookbook/examples/steel-sitemap-generator/src/generator.ts:101-105 | a page that cannot be loaded yields a failure; a loaded page yields exactly the links extracted from it |
| `Crawl.Admissible` | steel-cookbook/examples/steel-sitemap-generator/src/generator.ts:88-96 | a task is admitted exactly when its depth is within `maxDepth`, fewer than `maxUrls` URLs are visited, its URL is new, and the robots gate and pattern filter both pass |
| `Crawl.NewTasks` | steel-cookbook/examples/steel-sitemap-generator/src/generator.ts:107-111 | every enqueued task has depth d+1 and an unvisited URL from the links; every unvisited link is enqueued |
| `Crawl.NewTasksAppend` | steel-cookbook/examples/steel-sitemap-generator/src/generator.ts:107-111 | links are processed in order: the tasks for a concatenation are the tasks of each part in turn |
| `Crawl.NewTasksKeepsRepeats` | steel-cookbook/examples/steel-sitemap-generator/src/generator.ts:107-111 | a link repeated on one page is enqueued once per occurrence |
| `Crawl.AfterCrawlPage` | steel-cookbook/examples/steel-sitemap-generator/src/generator.ts:87-117 | rejection changes nothing; admission appends exactly the task to the visited log; a failed fetch enqueues nothing; the old frontier is kept as a prefix; every appended task has depth d+1 and a URL not visited |
| `Crawl.CrawlPageRejects` | steel-cookbook/examples/steel-sitemap-generator/src/generator.ts:88-96 | any one of the five failing conditions leaves visited set and frontier unchanged |
| `Crawl.AdmittedVisited` | steel-cookbook/examples/steel-sitemap-generator/src/generator.ts:98 | admission adds exactly the URL at the end of the visited set |
| `Crawl.CrawlPageFetchFailed` | steel-cookbook/examples/steel-sitemap-generator/src/generator.ts:98-116 | an admitted URL whose fetch fails stays visited and nothing is enqueued |
| `Crawl.CrawlPageFetched` | steel-cookbook/examples/steel-sitemap-generator/src/generator.ts:98-111 | an admitted URL whose fetch succeeds is visited, then its links are checked against the visited set that already holds it |
| `Crawl.FetchedLinkEnqueued` | steel-cookbook/examples/steel-sitemap-generator/src/generator.ts:98-111 | when an admitted page loads and its links resolve, every navigable href on it whose resolution is neither visited nor the page itself is enqueued at depth d+1 |
| `Crawl.AfterIteration` | steel-cookbook/examples/steel-sitemap-generator/src/generator.ts:127-128 | an iteration admits the head task or drops it, and admits only while below `maxUrls` |
| `Crawl.IterationFetched` | steel-cookbook/examples/steel-sitemap-generator/src/generator.ts:127-128 | an iteration that admits and fetches the head: head visited, its new tasks appended after the rest of the frontier |
| `Crawl.Drain` | steel-cookbook/examples/steel-sitemap-generator/src/generator.ts:126-129 | the loop terminates (measure: `maxUrls - size`, then frontier length); on exit the frontier is empty or the visited set full; the visited log only grows at its end |
| `Crawl.AfterGenerate` | steel-cookbook/examples/steel-sitemap-generator/src/generator.ts:123-129 | after the seed push and the loop, the frontier is empty or `maxUrls` URLs are visited, and earlier visits are kept in order |
| `Crawl.RobotsAfterFetch` | steel-cookbook/examples/steel-sitemap-generator/src/generator.ts:45-58 | the rules stay as they were when robots handling is off or the fetch fails; a successful fetch replaces them, and the robots gate then answers as the fetched file says |
| `CrawlProperties.CrawlPageKeepsBounded` | steel-cookbook/examples/steel-sitemap-generator/src/generator.ts:88-98 | one `crawlPage` keeps the visited set duplicate-free, within `maxUrls` and within `maxDepth` |
| `CrawlProperties.DrainKeepsBounded` | steel-cookbook/examples/steel-sitemap-generator/src/generator.ts:126-129 | the loop keeps the visited set duplicate-free, within `maxUrls` and within `maxDepth` |
| `CrawlProperties.DrainEligibleSince` | steel-cookbook/examples/steel-sitemap-generator/src/generator.ts:92-93 | every URL admitted from a given position on passed the robots gate and the pattern filter |
| `CrawlProperties.DrainAdmitsOnlyEligible` | steel-cookbook/examples/steel-sitemap-generator/src/generator.ts:88-98 | every URL the loop admits passed the robots gate and the pattern filter |
| `CrawlProperties.ExcludedNeverVisited` | steel-cookbook/examples/steel-sitemap-generator/src/generator.ts:69-72 | a URL matched by an exclude pattern is never visited by the loop |
| `CrawlProperties.FrontierStepSorted` | steel-cookbook/examples/steel-sitemap-generator/src/generator.ts:107-111 | shifting the head and appending depth+1 tasks keeps the frontier sorted by depth within two adjacent depths |
| `CrawlProperties.AdmittedStepSorted` | steel-cookbook/examples/steel-sitemap-generator/src/generator.ts:98 | admitting the head, no shallower than the last admitted task, keeps admission depths sorted |
| `CrawlProperties.IterationShape` | steel-cookbook/examples/steel-sitemap-generator/src/generator.ts:126-128 | an iteration takes the head off, possibly admits it, and appends only tasks one level deeper |
| `CrawlProperties.StepKeepsBfs` | steel-cookbook/examples/steel-sitemap-generator/src/generator.ts:126-128 | such a step keeps the breadth-first invariant |
| `CrawlProperties.DrainKeepsBfs` | steel-cookbook/examples/steel-sitemap-generator/src/generator.ts:126-129 | the loop keeps the breadth-first invariant |
| `CrawlProperties.GenerateBreadthFirst` | steel-cookbook/examples/steel-sitemap-generator/src/generator.ts:123-129 | the URLs one `generate` call visits are admitted in non-decreasing depth |
| `CrawlProperties.GenerateKeepsBounded` | steel-cookbook/examples/steel-sitemap-generator/src/generator.ts:123-129 | after `generate`: no duplicates, at most `maxUrls`, depths within `maxDepth`, frontier empty or visited set full, and every new URL eligible |
| `CrawlProperties.GenerateAdmitsSeedFirst` | steel-cookbook/examples/steel-sitemap-generator/src/generator.ts:123-128 | with an empty frontier, a `generate` call whose seed passes the admission check visits the base URL first |
| `CrawlProperties.IterationKeepsSeedOnly` | steel-cookbook/examples/steel-sitemap-generator/src/generator.ts:89 | with `maxDepth = 0`, an iteration admits at most the seed and only the seed URL is queued at depth 0 |
| `CrawlProperties.DrainKeepsSeedOnly` | steel-cookbook/examples/steel-sitemap-generator/src/generator.ts:126-129 | with `maxDepth = 0` the loop keeps that invariant |
| `CrawlProperties.MaxDepthZeroOnlySeed` | steel-cookbook/examples/steel-sitemap-generator/src/generator.ts:89-91 | with `maxDepth = 0` a `generate` call admits nothing or exactly the seed at depth 0 |
| `CrawlProperties.FirstRunMaxDepthZero` | steel-cookbook/examples/steel-sitemap-generator/src/generator.ts:123-129 | with `maxDepth = 0` the first run visits exactly the base URL when it is eligible and `maxUrls >= 1`, and nothing otherwise |
| `CrawlProperties.FirstRunMaxUrlsOne` | steel-cookbook/examples/steel-sitemap-generator/src/generator.ts:126-129 | with `maxUrls = 1` the first run visits exactly the base URL when it is eligible and `maxDepth >= 0`, and nothing otherwise |
| `Scenarios.LinkSiteHomeHrefs` | steel-cookbook/examples/steel-sitemap-generator/src/generator.ts:82 | an absolute link with a fragment and a `mailto:` link pass the href filter |
| `Scenarios.LinkSiteVisitsFragmentAndMail` | steel-cookbook/examples/steel-sitemap-generator/src/generator.ts:80-83 | a home page linking to `/a`, `/a#frag` and a mail address yields the sitemap home, `/a`, `/a#frag`, mail address, in that order |
| `Generator.OutputFile` | steel-cookbook/examples/steel-sitemap-generator/src/generator.ts:140-154 | each format has its own file, in both directions: XML exactly `sitemap.xml`, JSON exactly `sitemap.json`, text exactly `sitemap.txt` |
| `Generator.SitemapGenerator.constructor` | steel-cookbook/examples/steel-sitemap-generator/src/generator.ts:27-37 | the configuration is the merged one; visited set and frontier start empty, no robots rules |
| `Generator.SitemapGenerator.FetchRobotsTxt` | steel-cookbook/examples/steel-sitemap-generator/src/generator.ts:44-62 | nothing changes when robots handling is off or the fetch fails; otherwise the parsed rules are stored |
| `Generator.SitemapGenerator.CrawlPage` | steel-cookbook/examples/steel-sitemap-generator/src/generator.ts:87-117 | the new visited set and frontier are those of `Crawl.AfterCrawlPage`; the object invariant is kept |
| `Generator.SitemapGenerator.EnqueueLinks` | steel-cookbook/examples/steel-sitemap-generator/src/generator.ts:107-111 | the `for` loop appends exactly `Crawl.NewTasks` of the links to the frontier |
| `Generator.SitemapGenerator.Generate` | steel-cookbook/examples/steel-sitemap-generator/src/generator.ts:119-135 | loads the robots rules, pushes the seed, runs the loop to the state `Crawl.AfterGenerate` gives, keeps the invariant, exports the visited set |
| `Generator.SitemapGenerator.ExportSitemap` | steel-cookbook/examples/steel-sitemap-generator/src/generator.ts:137-155 | the exported URLs are the admitted URLs in admission order, without duplicates, in the file chosen by the format |

## Left out

- Steel sessions: `sessions.create`, `connect`, `newPage` and the two `sessions.release` calls in `finally` blocks (generator.ts:47-61, 101-102, 122, 132-134) are remote-browser plumbing. Releasing the session on every exit path is not modelled. A failure to create a session, which aborts `generate`, is not modelled either.
- The browser work of a page fetch (`goto`, `page.evaluate`, the DOM query) is the `load` function of `Types.World`. Timeouts and partial renders are whatever that function returns.
- `robots-parser` and the WHATWG `URL` class are library code and are not part of this model. They are the uninterpreted `robotsFile` and `resolve` of `Types.World`, so whether a URL is normalised (a trailing `/`, for instance) is up to `resolve`.
- Regular-expression semantics of `url.match(pattern)` are the uninterpreted `regexMatch`.
- Filters.AnyMatch: an invalid pattern string (such as `*.pdf`) makes `url.match(pattern)` throw at generator.ts:70 or 74. That check runs before the `try` at generator.ts:100, so the exception escapes `crawlPage`. `generate` then rejects without exporting the sitemap (generator.ts:131). The seed is the first URL to reach the filter, and the `shift` at generator.ts:127 has already taken it off the queue. If nothing was admitted before the throw, the object is left with an empty frontier and an unchanged visited set. It can be left with a non-empty frontier when a URL was admitted before the throw, for instance with an invalid include pattern listed after one that matches the seed. The model's `regexMatch` is total, so this abort path is not modelled. The `Idle()` state that `Generator.SitemapGenerator.Generate` promises on return holds only for runs whose patterns all compile.
- `crawlDelay` and the `setTimeout` wait (generator.ts:113): timing has no functional effect. The field is kept in the configuration and never used.
- `console` logging of robots and page failures.
- Sitemap serialisation (`SitemapStream`, `JSON.stringify`, `join`) and `writeFile` (generator.ts:142-152). Only the file name and the URL list with its order are modelled. A failed write is not modelled.
- `steelApiKey` is only passed to the SDK client and is dropped from the configuration.
- `Types.ResolveConfig`: a field given explicitly as `undefined` is treated as absent, so it gets the default. The object spread would copy the `undefined` instead.
- Numbers: `maxDepth`, `maxUrls` and `crawlDelay` are integers. `NaN`, fractions and infinities are not modelled.
- Two overlapping `generate` calls on one object, interleaved at `await` points, are not modelled.
- `index.ts` (configuration literals, `dotenv`, console output, `process.exit`) is CLI plumbing and is not part of this model.
- `delete_zone_identifiers.py` is an unrelated filesystem clean-up script and is not part of this model.
