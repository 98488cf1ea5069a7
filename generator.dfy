/** The sitemap generator object: the visited set and the frontier are
    fields that its methods update in place. */
module Generator {
  import opened Wrappers
  import opened Types
  import opened Filters
  import opened Crawl
  import opened CrawlProperties

  /** The file an output format is written to. */
  function OutputFile(format: OutputFormat): (name: string)
    ensures name == "sitemap.xml" || name == "sitemap.json" || name == "sitemap.txt"
    ensures format == Xml <==> name == "sitemap.xml"
    ensures format == Json <==> name == "sitemap.json"
    ensures format == Txt <==> name == "sitemap.txt"
  {
    match format
    case Xml => "sitemap.xml"
    case Json => "sitemap.json"
    case Txt => "sitemap.txt"
  }

  class SitemapGenerator {
    const config: Config
    /** The visited set; a sequence, because it is exported in insertion order. */
    var visited: seq<Url>
    var queue: seq<Task>
    var robotsTxt: Option<RobotsRules>
    /** The admission log: every visited URL with the depth it was admitted at. */
    ghost var admitted: seq<Task>

    ghost function Snapshot(): State
      reads this
    {
      State(admitted, queue)
    }

    /** The object invariant: the visited set is the admission log's URLs and
        holds no duplicates, at most `maxUrls` entries, and only depths
        within `maxDepth`. */
    ghost predicate Valid()
      reads this
    {
      visited == Visited(Snapshot()) && Bounded(config, Snapshot())
    }

    /** Between two `generate` calls. */
    ghost predicate Idle()
      reads this
    {
      Valid() && CrawlProperties.Idle(config, Snapshot())
    }

    /** Merges the caller's configuration into the defaults; the crawl state
        starts empty. */
    constructor (input: ConfigInput)
      ensures config == ResolveConfig(input)
      ensures visited == [] && queue == [] && robotsTxt == None
      ensures Idle()
    {
      config := ResolveConfig(input);
      visited := [];
      queue := [];
      robotsTxt := None;
      admitted := [];
    }

    /** `fetchRobotsTxt`: nothing happens when robots handling is off; a
        failed fetch keeps the rules as they were. */
    method FetchRobotsTxt(world: World)
      modifies this`robotsTxt
      ensures robotsTxt == RobotsAfterFetch(config, old(robotsTxt), world.robotsFile)
    {
      if !config.respectRobotsTxt {
        return;
      }
      match world.robotsFile
      case None =>
      case Some(rules) =>
        robotsTxt := Some(rules);
    }

    /** `crawlPage(url, depth)`. */
    method CrawlPage(url: Url, depth: nat, world: World)
      requires Valid()
      modifies this`visited, this`queue, this`admitted
      ensures Valid()
      ensures Snapshot() == AfterCrawlPage(Run(config, robotsTxt, world), old(Snapshot()), Task(url, depth))
    {
      ghost var run := Run(config, robotsTxt, world);
      ghost var before := Snapshot();
      if depth > config.maxDepth
        || |visited| >= config.maxUrls
        || url in visited
        || !IsAllowed(config, robotsTxt, url)
        || !MatchesPatterns(config, world.regexMatch, url)
      {
        return;
      }
      CrawlPageKeepsBounded(run, before, Task(url, depth));
      visited := visited + [url];
      admitted := admitted + [Task(url, depth)];
      AdmittedVisited(before, Task(url, depth));

      var links := Fetch(world, url);
      if links.None? {
        CrawlPageFetchFailed(run, before, Task(url, depth));
        return;
      }
      EnqueueLinks(links.value, depth);
      CrawlPageFetched(run, before, Task(url, depth));
    }

    /** The link loop of `crawlPage`: append a task one level deeper for
        every link not visited, in link order. */
    method EnqueueLinks(links: seq<Url>, depth: nat)
      modifies this`queue
      ensures queue == old(queue) + NewTasks(links, visited, depth)
    {
      var i := 0;
      while i < |links|
        invariant 0 <= i <= |links|
        invariant queue == old(queue) + NewTasks(links[..i], visited, depth)
      {
        NewTasksAppend(links[..i], [links[i]], visited, depth);
        assert links[..i + 1] == links[..i] + [links[i]];
        if links[i] !in visited {
          queue := queue + [Task(links[i], depth + 1)];
        }
        i := i + 1;
      }
      assert links[..i] == links;
    }

    /** `generate`: load the robots rules, push the seed, then crawl until the
        frontier is empty or `maxUrls` URLs are visited, and export. */
    method Generate(world: World) returns (file: string, urls: seq<Url>)
      requires Valid()
      modifies this
      ensures Idle()
      ensures robotsTxt == RobotsAfterFetch(config, old(robotsTxt), world.robotsFile)
      ensures Snapshot() == AfterGenerate(Run(config, robotsTxt, world), old(Snapshot()))
      ensures file == OutputFile(config.outputFormat) && urls == visited
    {
      FetchRobotsTxt(world);
      ghost var run := Run(config, robotsTxt, world);
      queue := queue + [Task(config.baseUrl, 0)];
      ghost var target := Drain(run, Snapshot());
      assert target == AfterGenerate(run, old(Snapshot()));
      DrainKeepsBounded(run, Snapshot());
      while queue != [] && |visited| < config.maxUrls
        invariant Valid()
        invariant robotsTxt == run.robots
        invariant Drain(run, Snapshot()) == target
        decreases config.maxUrls - |visited|, |queue|
      {
        var task := queue[0];
        ghost var before := Snapshot();
        queue := queue[1..];
        CrawlPage(task.url, task.depth, world);
        assert Snapshot() == AfterIteration(run, before);
      }
      file, urls := ExportSitemap();
    }

    /** `exportSitemap`: the URLs to write are the visited set in insertion
        order, which is admission order; the file is chosen by the format. */
    method ExportSitemap() returns (file: string, urls: seq<Url>)
      requires Valid()
      ensures urls == Urls(admitted) && NoDups(urls)
      ensures file == OutputFile(config.outputFormat)
    {
      file := OutputFile(config.outputFormat);
      urls := visited;
    }
  }
}
