/** A worked crawl: the behaviour of the href filter on absolute links that
    carry a fragment or a non-web scheme. */
module Scenarios {
  import opened Wrappers
  import opened Types
  import opened Filters
  import opened Crawl
  import opened CrawlProperties

  const Home: Url := "https://example.com"
  const PageA: Url := "https://example.com/a"
  const PageAFragment: Url := "https://example.com/a#frag"
  const MailLink: Url := "mailto:x@example.com"

  /** A site whose home page links to `/a`, to `/a#frag` and to a mail
      address; every other page has no links and the mail address cannot be
      loaded. No patterns are configured and robots.txt could not be read. */
  function NoPatternMatches(p: Pattern, u: Url): (r: bool) {
    false
  }

  /** Resolution that leaves absolute links as they are, as the URL parser
      does for the three links of this site. */
  function KeepAbsolute(href: string, base: Url): (r: Option<Url>) {
    Some(href)
  }

  function LinkSiteLoad(u: Url): (r: Option<Page>) {
    if u == Home then Some(Page(Home, [Some(PageA), Some(PageAFragment), Some(MailLink)]))
    else if u == MailLink then None
    else Some(Page(u, []))
  }

  function LinkSite(): (w: World) {
    World(NoPatternMatches, KeepAbsolute, LinkSiteLoad, None)
  }

  function LinkSiteRun(): (run: Run) {
    Run(Config(Home, 1, 1000, true, 1000, [], [], Xml), None, LinkSite())
  }

  /** None of the three links on the home page is dropped by the href filter:
      none starts with `#` or `javascript:`. */
  lemma LinkSiteHomeHrefs()
    ensures FilterHrefs([Some(PageA), Some(PageAFragment), Some(MailLink)]) == [PageA, PageAFragment, MailLink]
  {
    assert Navigable(PageA);
    assert Navigable(PageAFragment);
    assert Navigable(MailLink);
    FilterHrefsAppend([Some(PageA)], [Some(PageAFragment), Some(MailLink)]);
    FilterHrefsAppend([Some(PageAFragment)], [Some(MailLink)]);
    FilterHrefsSingle(Some(PageA));
    FilterHrefsSingle(Some(PageAFragment));
    FilterHrefsSingle(Some(MailLink));
    assert [Some(PageA), Some(PageAFragment), Some(MailLink)] == [Some(PageA)] + ([Some(PageAFragment)] + [Some(MailLink)]);
  }

  lemma LinkSiteHomeLinks()
    ensures Fetch(LinkSite(), Home) == Some([PageA, PageAFragment, MailLink])
  {
    LinkSiteHomeHrefs();
    var links := [PageA, PageAFragment, MailLink];
    var r := ResolveAll(links, Home, LinkSite().resolve);
    assert r.Some?;
    assert r.value == links;
  }

  /** Every URL is eligible on this site, so a task is admitted exactly when
      it is within the depth and size bounds and not yet visited. */
  lemma LinkSiteAdmits(visited: seq<Url>, t: Task)
    requires t.depth <= 1 && |visited| < 1000 && t.url !in visited
    ensures Admissible(LinkSiteRun(), visited, t)
  {
  }

  lemma LinkSiteHomeTasks()
    ensures NewTasks([PageA, PageAFragment, MailLink], [Home], 0)
         == [Task(PageA, 1), Task(PageAFragment, 1), Task(MailLink, 1)]
  {
    NewTasksAppend([PageA], [PageAFragment, MailLink], [Home], 0);
    NewTasksAppend([PageAFragment], [MailLink], [Home], 0);
    assert [PageA][1..] == [] && [PageAFragment][1..] == [] && [MailLink][1..] == [];
    assert [PageA, PageAFragment, MailLink] == [PageA] + ([PageAFragment] + [MailLink]);
  }

  lemma LinkSiteFirstStep(run: Run)
    requires run == LinkSiteRun()
    ensures AfterIteration(run, State([], [Task(Home, 0)]))
         == State([Task(Home, 0)], [Task(PageA, 1), Task(PageAFragment, 1), Task(MailLink, 1)])
  {
    var s0 := State([], [Task(Home, 0)]);
    var links := [PageA, PageAFragment, MailLink];
    LinkSiteHomeLinks();
    assert Fetch(run.world, Home) == Some(links);
    assert Visited(s0) == [];
    LinkSiteAdmits([], Task(Home, 0));
    IterationFetched(run, s0);
    LinkSiteHomeTasks();
    assert Visited(s0) + [Home] == [Home];
    assert s0.queue[1..] + NewTasks(links, [Home], 0) == [Task(PageA, 1), Task(PageAFragment, 1), Task(MailLink, 1)];
  }

  lemma LinkSiteSecondStep()
    ensures AfterIteration(LinkSiteRun(), State([Task(Home, 0)], [Task(PageA, 1), Task(PageAFragment, 1), Task(MailLink, 1)]))
         == State([Task(Home, 0), Task(PageA, 1)], [Task(PageAFragment, 1), Task(MailLink, 1)])
  {
    var run := LinkSiteRun();
    assert Visited(State([Task(Home, 0)], [])) == [Home];
    assert Fetch(run.world, PageA) == Some([]);
    CrawlPageFetched(run, State([Task(Home, 0)], [Task(PageAFragment, 1), Task(MailLink, 1)]), Task(PageA, 1));
  }

  lemma LinkSiteThirdStep()
    ensures AfterIteration(LinkSiteRun(), State([Task(Home, 0), Task(PageA, 1)], [Task(PageAFragment, 1), Task(MailLink, 1)]))
         == State([Task(Home, 0), Task(PageA, 1), Task(PageAFragment, 1)], [Task(MailLink, 1)])
  {
    var run := LinkSiteRun();
    assert Visited(State([Task(Home, 0), Task(PageA, 1)], [])) == [Home, PageA];
    assert Fetch(run.world, PageAFragment) == Some([]);
    CrawlPageFetched(run, State([Task(Home, 0), Task(PageA, 1)], [Task(MailLink, 1)]), Task(PageAFragment, 1));
  }

  lemma LinkSiteLastStep()
    ensures AfterIteration(LinkSiteRun(), State([Task(Home, 0), Task(PageA, 1), Task(PageAFragment, 1)], [Task(MailLink, 1)]))
         == State([Task(Home, 0), Task(PageA, 1), Task(PageAFragment, 1), Task(MailLink, 1)], [])
  {
    var run := LinkSiteRun();
    assert Visited(State([Task(Home, 0), Task(PageA, 1), Task(PageAFragment, 1)], [])) == [Home, PageA, PageAFragment];
    assert Fetch(run.world, MailLink) == None;
    CrawlPageFetchFailed(run, State([Task(Home, 0), Task(PageA, 1), Task(PageAFragment, 1)], []), Task(MailLink, 1));
  }

  /** The states of the crawl of this site, after each admission. */
  const AfterHome: State := State([Task(Home, 0)], [Task(PageA, 1), Task(PageAFragment, 1), Task(MailLink, 1)])
  const AfterPageA: State := State([Task(Home, 0), Task(PageA, 1)], [Task(PageAFragment, 1), Task(MailLink, 1)])
  const AfterFragment: State := State([Task(Home, 0), Task(PageA, 1), Task(PageAFragment, 1)], [Task(MailLink, 1)])
  const AfterMail: State := State([Task(Home, 0), Task(PageA, 1), Task(PageAFragment, 1), Task(MailLink, 1)], [])

  lemma LinkSiteDrainFromFragment()
    ensures Drain(LinkSiteRun(), AfterFragment) == AfterMail
  {
    LinkSiteLastStep();
    DrainStep(LinkSiteRun(), AfterFragment);
  }

  lemma LinkSiteDrainFromPageA()
    ensures Drain(LinkSiteRun(), AfterPageA) == AfterMail
  {
    LinkSiteThirdStep();
    DrainStep(LinkSiteRun(), AfterPageA);
    LinkSiteDrainFromFragment();
  }

  lemma LinkSiteDrainFromHome()
    ensures Drain(LinkSiteRun(), AfterHome) == AfterMail
  {
    LinkSiteSecondStep();
    DrainStep(LinkSiteRun(), AfterHome);
    LinkSiteDrainFromPageA();
  }

  lemma LinkSiteDrain(run: Run, start: State)
    requires run == LinkSiteRun() && start == Initial
    ensures AfterGenerate(run, start) == AfterMail
  {
    var s0 := State([], [Task(Home, 0)]);
    assert AfterGenerate(run, start) == Drain(run, s0);
    LinkSiteFirstStep(run);
    DrainStep(run, s0);
    LinkSiteDrainFromHome();
  }

  /** Only hrefs that start with `#` or `javascript:` are dropped: an absolute
      link with a fragment is a URL of its own, and a `mailto:` link is
      admitted (and stays visited although it cannot be loaded). */
  lemma LinkSiteVisitsFragmentAndMail(run: Run, start: State)
    requires run == LinkSiteRun() && start == Initial
    ensures Visited(AfterGenerate(run, start)) == [Home, PageA, PageAFragment, MailLink]
  {
    LinkSiteDrain(run, start);
    VisitedAfterMail();
  }

  lemma VisitedAfterMail()
    ensures Visited(AfterMail) == [Home, PageA, PageAFragment, MailLink]
  {
  }
}
