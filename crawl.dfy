/** The crawl engine as a state machine over values: the admission log and
    the frontier, one `crawlPage` call, one loop iteration and the whole
    loop. The class in module Generator is proved to follow it. */
module Crawl {
  import opened Wrappers
  import opened Types
  import opened Filters

  /** The engine's state: the tasks admitted so far, in admission order (their
      URLs are the visited set), and the frontier. */
  datatype State = State(admitted: seq<Task>, queue: seq<Task>)

  /** What stays fixed during one run: the configuration, the robots rules
      loaded for it and the outside world. */
  datatype Run = Run(cfg: Config, robots: Option<RobotsRules>, world: World)

  /** The URLs of a list of tasks, in order. */
  function Urls(ts: seq<Task>): seq<Url> {
    seq(|ts|, i requires 0 <= i < |ts| => ts[i].url)
  }

  /** The visited set, in insertion order. */
  function Visited(s: State): (r: seq<Url>) {
    Urls(s.admitted)
  }

  predicate NoDups(xs: seq<Url>) {
    forall i, j :: 0 <= i < j < |xs| ==> xs[i] != xs[j]
  }

  /** The robots gate and the pattern filter together. */
  predicate Eligible(run: Run, url: Url) {
    IsAllowed(run.cfg, run.robots, url) && MatchesPatterns(run.cfg, run.world.regexMatch, url)
  }

  /** The admission check of `crawlPage`, its five conditions in source
      order; a task that fails any of them is dropped. */
  function Admissible(run: Run, visited: seq<Url>, t: Task): (r: bool)
    ensures r <==> && t.depth <= run.cfg.maxDepth
                   && |visited| < run.cfg.maxUrls
                   && t.url !in visited
                   && Eligible(run, t.url)
  {
    !(t.depth > run.cfg.maxDepth
      || |visited| >= run.cfg.maxUrls
      || t.url in visited
      || !IsAllowed(run.cfg, run.robots, t.url)
      || !MatchesPatterns(run.cfg, run.world.regexMatch, t.url))
  }

  /** The tasks the link loop of `crawlPage` appends: one per link not yet
      visited, one level deeper, in link order, repeated links included. */
  function NewTasks(links: seq<Url>, visited: seq<Url>, depth: nat): (r: seq<Task>)
    ensures |r| <= |links|
    ensures forall t :: t in r ==> t.depth == depth + 1 && t.url in links && t.url !in visited
    ensures forall l :: l in links && l !in visited ==> Task(l, depth + 1) in r
  {
    if links == [] then []
    else
      var rest := NewTasks(links[1..], visited, depth);
      assert forall l :: l in links <==> l == links[0] || l in links[1..];
      if links[0] !in visited then [Task(links[0], depth + 1)] + rest else rest
  }

  /** The link loop processes links in order: its tasks for a concatenation
      of link lists are the tasks for the first list, then for the second. */
  lemma {:induction false} NewTasksAppend(a: seq<Url>, b: seq<Url>, visited: seq<Url>, depth: nat)
    ensures NewTasks(a + b, visited, depth) == NewTasks(a, visited, depth) + NewTasks(b, visited, depth)
  {
    if a == [] {
      assert a + b == b;
    } else {
      assert (a + b)[0] == a[0];
      assert (a + b)[1..] == a[1..] + b;
      NewTasksAppend(a[1..], b, visited, depth);
    }
  }

  /** A link that appears twice on a page and is not visited is enqueued
      twice: duplicates within one page are not filtered. */
  lemma NewTasksKeepsRepeats(l: Url, visited: seq<Url>, depth: nat)
    requires l !in visited
    ensures NewTasks([l, l], visited, depth) == [Task(l, depth + 1), Task(l, depth + 1)]
  {
    assert [l, l][1..] == [l];
    assert [l][1..] == [];
  }

  /** One `crawlPage(t.url, t.depth)` call. A rejected task leaves the state
      alone. An admitted one is recorded as visited before the page is
      fetched, so it stays visited when the fetch fails; then nothing is
      enqueued. Otherwise only new tasks of depth `t.depth + 1` whose URL is
      not visited are appended, at the tail. */
  function AfterCrawlPage(run: Run, s: State, t: Task): (r: State)
    ensures !Admissible(run, Visited(s), t) ==> r == s
    ensures Admissible(run, Visited(s), t) ==> r.admitted == s.admitted + [t]
    ensures Fetch(run.world, t.url).None? ==> r.queue == s.queue
    ensures |s.queue| <= |r.queue| && r.queue[..|s.queue|] == s.queue
    ensures forall k :: |s.queue| <= k < |r.queue| ==>
              r.queue[k].depth == t.depth + 1 && r.queue[k].url !in Visited(r)
  {
    if !Admissible(run, Visited(s), t) then s
    else
      var marked := State(s.admitted + [t], s.queue);
      assert Visited(marked) == Visited(s) + [t.url];
      match Fetch(run.world, t.url)
      case None => marked
      case Some(links) =>
        var added := NewTasks(links, Visited(marked), t.depth);
        assert forall k :: 0 <= k < |added| ==> added[k] in added;
        State(marked.admitted, s.queue + added)
  }

  /** Each of the five rejections leaves the visited set and the frontier
      as they were. */
  lemma CrawlPageRejects(run: Run, s: State, t: Task)
    requires || t.depth > run.cfg.maxDepth
             || |Visited(s)| >= run.cfg.maxUrls
             || t.url in Visited(s)
             || !IsAllowed(run.cfg, run.robots, t.url)
             || !MatchesPatterns(run.cfg, run.world.regexMatch, t.url)
    ensures AfterCrawlPage(run, s, t) == s
  {
  }

  /** Admission adds exactly the task's URL to the visited set, at its end. */
  lemma AdmittedVisited(s: State, t: Task)
    ensures Visited(State(s.admitted + [t], s.queue)) == Visited(s) + [t.url]
  {
  }

  /** An admitted task whose fetch fails is recorded and enqueues nothing. */
  lemma CrawlPageFetchFailed(run: Run, s: State, t: Task)
    requires Admissible(run, Visited(s), t)
    requires Fetch(run.world, t.url).None?
    ensures AfterCrawlPage(run, s, t) == State(s.admitted + [t], s.queue)
  {
  }

  /** An admitted task whose fetch succeeds is recorded, then the tasks for
      its links are appended, checked against the visited set that already
      holds the task's own URL. */
  lemma CrawlPageFetched(run: Run, s: State, t: Task)
    requires Admissible(run, Visited(s), t)
    requires Fetch(run.world, t.url).Some?
    ensures AfterCrawlPage(run, s, t)
         == State(s.admitted + [t], s.queue + NewTasks(Fetch(run.world, t.url).value, Visited(s) + [t.url], t.depth))
  {
    AdmittedVisited(s, t);
  }

  /** From a loaded page to the frontier: when the page of an admitted task
      loads and all its links resolve, every navigable href on it whose
      resolution is neither visited nor the page's own URL is enqueued one
      level deeper. */
  lemma FetchedLinkEnqueued(run: Run, s: State, t: Task, page: Page, h: string, l: Url)
    requires Admissible(run, Visited(s), t)
    requires run.world.load(t.url) == Some(page)
    requires ExtractLinks(page, run.world.resolve).Some?
    requires Some(h) in page.hrefs && Navigable(h)
    requires run.world.resolve(h, page.location) == Some(l)
    requires l !in Visited(s) && l != t.url
    ensures Task(l, t.depth + 1) in AfterCrawlPage(run, s, t).queue
  {
    var kept := FilterHrefs(page.hrefs);
    var links := ExtractLinks(page, run.world.resolve).value;
    assert Fetch(run.world, t.url) == Some(links);
    assert h in kept;
    var i :| 0 <= i < |kept| && kept[i] == h;
    assert links[i] == l;
    assert l in links;
    CrawlPageFetched(run, s, t);
    var added := NewTasks(links, Visited(s) + [t.url], t.depth);
    assert Task(l, t.depth + 1) in added;
  }

  /** One iteration of the `generate` loop: take the head task and crawl it. */
  function AfterIteration(run: Run, s: State): (r: State)
    requires s.queue != []
    ensures r.admitted == s.admitted || r.admitted == s.admitted + [s.queue[0]]
    ensures r.admitted == s.admitted ==> r.queue == s.queue[1..]
    ensures r.admitted != s.admitted ==> |s.admitted| < run.cfg.maxUrls
  {
    AfterCrawlPage(run, State(s.admitted, s.queue[1..]), s.queue[0])
  }

  /** The `generate` loop: iterate while the frontier is non-empty and fewer
      than `maxUrls` URLs are visited. Each iteration admits a URL (the first
      component of the measure drops) or drops the head task (the second
      does). On exit the frontier is empty or the visited set full, and the
      admission log only grew at its end. */
  function Drain(run: Run, s: State): (r: State)
    ensures r.queue == [] || |r.admitted| >= run.cfg.maxUrls
    ensures |s.admitted| <= |r.admitted| && r.admitted[..|s.admitted|] == s.admitted
    decreases run.cfg.maxUrls - |s.admitted|, |s.queue|
  {
    if s.queue != [] && |s.admitted| < run.cfg.maxUrls then
      var next := AfterIteration(run, s);
      var r := Drain(run, next);
      assert r.admitted[..|s.admitted|] == next.admitted[..|next.admitted|][..|s.admitted|];
      r
    else s
  }

  /** An iteration whose head task is admitted and fetched. */
  lemma IterationFetched(run: Run, s: State)
    requires s.queue != []
    requires Admissible(run, Visited(s), s.queue[0])
    requires Fetch(run.world, s.queue[0].url).Some?
    ensures AfterIteration(run, s)
         == State(s.admitted + [s.queue[0]],
                  s.queue[1..] + NewTasks(Fetch(run.world, s.queue[0].url).value, Visited(s) + [s.queue[0].url], s.queue[0].depth))
  {
    CrawlPageFetched(run, State(s.admitted, s.queue[1..]), s.queue[0]);
  }

  /** Unfolds the loop once. */
  lemma DrainStep(run: Run, s: State)
    requires s.queue != [] && |s.admitted| < run.cfg.maxUrls
    ensures Drain(run, s) == Drain(run, AfterIteration(run, s))
  {
  }

  /** `generate` after the robots rules are loaded: push the seed task and run
      the loop. */
  function AfterGenerate(run: Run, s: State): (r: State)
    ensures r.queue == [] || |r.admitted| >= run.cfg.maxUrls
    ensures |s.admitted| <= |r.admitted| && r.admitted[..|s.admitted|] == s.admitted
  {
    Drain(run, State(s.admitted, s.queue + [Task(run.cfg.baseUrl, 0)]))
  }

  /** The robots rules after `fetchRobotsTxt`: untouched when robots handling
      is off or the fetch fails, the parsed file otherwise. */
  function RobotsAfterFetch(cfg: Config, current: Option<RobotsRules>, fetched: Option<RobotsRules>): (r: Option<RobotsRules>)
    ensures !cfg.respectRobotsTxt || fetched.None? ==> r == current
    ensures cfg.respectRobotsTxt && fetched.Some? ==> r == fetched
    ensures fetched.Some? ==> forall url :: IsAllowed(cfg, r, url) == IsAllowed(cfg, fetched, url)
  {
    if cfg.respectRobotsTxt && fetched.Some? then fetched else current
  }
}
