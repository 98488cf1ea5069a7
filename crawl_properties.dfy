/** What the crawl loop guarantees: no URL visited twice, at most `maxUrls`
    visited, every admitted depth within `maxDepth`, only eligible URLs
    admitted, visitation in breadth-first order, and the special cases
    `maxDepth = 0` and `maxUrls = 1`. */
module CrawlProperties {
  import opened Types
  import opened Crawl

  /** The visited-count bound: `maxUrls`, or nothing at all when it is
      negative. */
  function Cap(maxUrls: int): nat {
    if maxUrls < 0 then 0 else maxUrls
  }

  /** The invariant of the visited set: no duplicates, at most `maxUrls`
      entries, every entry admitted within the depth bound. */
  predicate Bounded(cfg: Config, s: State) {
    && NoDups(Visited(s))
    && |s.admitted| <= Cap(cfg.maxUrls)
    && forall i :: 0 <= i < |s.admitted| ==> s.admitted[i].depth <= cfg.maxDepth
  }

  /** The state between two `generate` calls: the last loop ran until the
      frontier was empty or the visited set full. */
  predicate Idle(cfg: Config, s: State) {
    s.queue == [] || |s.admitted| >= cfg.maxUrls
  }

  lemma {:induction false} CrawlPageKeepsBounded(run: Run, s: State, t: Task)
    requires Bounded(run.cfg, s)
    ensures Bounded(run.cfg, AfterCrawlPage(run, s, t))
  {
    var r := AfterCrawlPage(run, s, t);
    if Admissible(run, Visited(s), t) {
      assert Visited(r) == Visited(s) + [t.url];
    }
  }

  /** The loop keeps the visited set free of duplicates, within `maxUrls`
      and within `maxDepth`. */
  lemma {:induction false} DrainKeepsBounded(run: Run, s: State)
    requires Bounded(run.cfg, s)
    ensures Bounded(run.cfg, Drain(run, s))
    decreases run.cfg.maxUrls - |s.admitted|, |s.queue|
  {
    if s.queue != [] && |s.admitted| < run.cfg.maxUrls {
      CrawlPageKeepsBounded(run, State(s.admitted, s.queue[1..]), s.queue[0]);
      DrainKeepsBounded(run, AfterIteration(run, s));
    }
  }

  /** Every task admitted from position `k` on passed the robots gate and the
      pattern filter of this run. */
  predicate EligibleSince(run: Run, s: State, k: nat) {
    forall i :: k <= i < |s.admitted| ==> Eligible(run, s.admitted[i].url)
  }

  lemma {:induction false} DrainEligibleSince(run: Run, s: State, k: nat)
    requires EligibleSince(run, s, k)
    ensures EligibleSince(run, Drain(run, s), k)
    decreases run.cfg.maxUrls - |s.admitted|, |s.queue|
  {
    if s.queue != [] && |s.admitted| < run.cfg.maxUrls {
      DrainEligibleSince(run, AfterIteration(run, s), k);
    }
  }

  /** Everything the loop admits passed the robots gate and the pattern
      filter. */
  lemma DrainAdmitsOnlyEligible(run: Run, s: State)
    ensures forall i :: |s.admitted| <= i < |Drain(run, s).admitted| ==>
              Eligible(run, Drain(run, s).admitted[i].url)
  {
    DrainEligibleSince(run, s, |s.admitted|);
  }

  /** A URL that an exclude pattern matches is never admitted, whatever the
      include patterns say. */
  lemma ExcludedNeverVisited(run: Run, s: State, url: Url)
    requires exists i :: 0 <= i < |run.cfg.excludePatterns| && run.world.regexMatch(run.cfg.excludePatterns[i], url)
    ensures url !in Visited(Drain(run, s))[|s.admitted|..]
  {
    DrainAdmitsOnlyEligible(run, s);
  }

  predicate SortedDepths(ts: seq<Task>) {
    forall i, j :: 0 <= i < j < |ts| ==> ts[i].depth <= ts[j].depth
  }

  /** The breadth-first invariant of the frontier, for the tasks admitted
      from position `k` on: admitted depths never decrease; the frontier is
      sorted by depth and spans at most two adjacent depths; and the last
      admitted task is no deeper than the frontier's head. */
  predicate Bfs(s: State, k: nat) {
    && k <= |s.admitted|
    && SortedDepths(s.admitted[k..])
    && SortedDepths(s.queue)
    && (s.queue != [] ==> s.queue[|s.queue| - 1].depth <= s.queue[0].depth + 1)
    && (s.queue != [] && k < |s.admitted| ==> s.admitted[|s.admitted| - 1].depth <= s.queue[0].depth)
  }

  /** Appending one task no shallower than the last keeps depths sorted. */
  lemma SortedSnoc(a: seq<Task>, x: Task)
    requires SortedDepths(a)
    requires a != [] ==> a[|a| - 1].depth <= x.depth
    ensures SortedDepths(a + [x])
  {
    forall i, j | 0 <= i < j < |a + [x]|
      ensures (a + [x])[i].depth <= (a + [x])[j].depth
    {
      if j == |a| {
        assert (a + [x])[i] == a[i];
        assert i < |a| - 1 ==> a[i].depth <= a[|a| - 1].depth;
      } else {
        assert (a + [x])[i] == a[i] && (a + [x])[j] == a[j];
      }
    }
  }

  /** Taking the head `q[0]` off a sorted frontier that spans at most two
      adjacent depths and appending tasks of depth `q[0].depth + 1` keeps it
      sorted within two adjacent depths, and its head never gets shallower. */
  lemma FrontierStepSorted(q: seq<Task>, next: seq<Task>)
    requires q != [] && SortedDepths(q) && q[|q| - 1].depth <= q[0].depth + 1
    requires |q| - 1 <= |next| && next[..|q| - 1] == q[1..]
    requires forall i :: |q| - 1 <= i < |next| ==> next[i].depth == q[0].depth + 1
    ensures SortedDepths(next)
    ensures next != [] ==> next[|next| - 1].depth <= next[0].depth + 1
    ensures next != [] ==> q[0].depth <= next[0].depth
  {
    var n := |q| - 1;
    // the surviving tasks lie between q[0].depth and q[0].depth + 1
    forall i | 0 <= i < n
      ensures next[i] == q[i + 1]
      ensures q[0].depth <= next[i].depth <= q[0].depth + 1
    {
      assert next[i] == next[..n][i];
    }
    forall i, j | 0 <= i < j < |next|
      ensures next[i].depth <= next[j].depth
    {
      if j < n {
        assert q[i + 1].depth <= q[j + 1].depth;
      }
    }
  }

  /** Admitting (or not) the task `t`, no shallower than the last admitted
      one, keeps the admitted depths from position `k` on sorted. */
  lemma AdmittedStepSorted(a: seq<Task>, next: seq<Task>, k: nat, t: Task)
    requires next == a || next == a + [t]
    requires k <= |a| && SortedDepths(a[k..])
    requires k < |a| ==> a[|a| - 1].depth <= t.depth
    ensures k <= |next| && SortedDepths(next[k..])
    ensures k < |next| ==> next[|next| - 1].depth <= t.depth
  {
    if next != a {
      assert next[k..] == a[k..] + [t];
      if a[k..] != [] {
        assert a[k..][|a[k..]| - 1] == a[|a| - 1];
      }
      SortedSnoc(a[k..], t);
    }
  }

  /** What one iteration does to the frontier and the admission log: the
      head is taken off and possibly admitted, and only tasks one level
      deeper than the head are appended. */
  predicate StepShape(s: State, r: State)
    requires s.queue != []
  {
    && (r.admitted == s.admitted || r.admitted == s.admitted + [s.queue[0]])
    && |s.queue| - 1 <= |r.queue| && r.queue[..|s.queue| - 1] == s.queue[1..]
    && forall i :: |s.queue| - 1 <= i < |r.queue| ==> r.queue[i].depth == s.queue[0].depth + 1
  }

  lemma IterationShape(run: Run, s: State)
    requires s.queue != []
    ensures StepShape(s, AfterIteration(run, s))
  {
  }

  /** A step of that shape keeps the breadth-first invariant. */
  lemma StepKeepsBfs(s: State, r: State, k: nat)
    requires s.queue != []
    requires StepShape(s, r)
    requires Bfs(s, k)
    ensures Bfs(r, k)
  {
    FrontierStepSorted(s.queue, r.queue);
    AdmittedStepSorted(s.admitted, r.admitted, k, s.queue[0]);
  }

  lemma {:induction false} DrainKeepsBfs(run: Run, s: State, k: nat)
    requires Bfs(s, k)
    ensures Bfs(Drain(run, s), k)
    decreases run.cfg.maxUrls - |s.admitted|, |s.queue|
  {
    if s.queue != [] && |s.admitted| < run.cfg.maxUrls {
      IterationShape(run, s);
      StepKeepsBfs(s, AfterIteration(run, s), k);
      DrainKeepsBfs(run, AfterIteration(run, s), k);
    }
  }

  /** A `generate` call from an idle state visits its new URLs in
      breadth-first order: their admission depths never decrease. */
  lemma GenerateBreadthFirst(run: Run, s: State)
    requires Idle(run.cfg, s)
    ensures SortedDepths(AfterGenerate(run, s).admitted[|s.admitted|..])
  {
    var seeded := State(s.admitted, s.queue + [Task(run.cfg.baseUrl, 0)]);
    if |s.admitted| >= run.cfg.maxUrls {
      assert Drain(run, seeded) == seeded;
    } else {
      assert seeded.queue == [Task(run.cfg.baseUrl, 0)];
      DrainKeepsBfs(run, seeded, |s.admitted|);
    }
  }

  /** A `generate` call keeps the visited set free of duplicates, within
      `maxUrls` and `maxDepth`, and admits only eligible URLs. */
  lemma GenerateKeepsBounded(run: Run, s: State)
    requires Bounded(run.cfg, s)
    ensures Bounded(run.cfg, AfterGenerate(run, s))
    ensures Idle(run.cfg, AfterGenerate(run, s))
    ensures forall i :: |s.admitted| <= i < |AfterGenerate(run, s).admitted| ==>
              Eligible(run, AfterGenerate(run, s).admitted[i].url)
  {
    var seeded := State(s.admitted, s.queue + [Task(run.cfg.baseUrl, 0)]);
    DrainKeepsBounded(run, seeded);
    DrainAdmitsOnlyEligible(run, seeded);
  }

  /** A `generate` call with an empty frontier and room left crawls the base
      URL first, whenever the seed passes the admission check. */
  lemma GenerateAdmitsSeedFirst(run: Run, s: State)
    requires s.queue == []
    requires Admissible(run, Visited(s), Task(run.cfg.baseUrl, 0))
    ensures |s.admitted| < |AfterGenerate(run, s).admitted|
    ensures AfterGenerate(run, s).admitted[|s.admitted|] == Task(run.cfg.baseUrl, 0)
  {
    var seed := Task(run.cfg.baseUrl, 0);
    var seeded := State(s.admitted, [seed]);
    assert s.queue + [seed] == [seed];
    var next := AfterIteration(run, seeded);
    assert next.admitted == s.admitted + [seed];
    DrainStep(run, seeded);
    var r := Drain(run, next);
    assert r.admitted[..|next.admitted|] == next.admitted;
    assert r.admitted[|s.admitted|] == r.admitted[..|next.admitted|][|s.admitted|];
  }

  /** The invariant of a run with `maxDepth = 0`, for the tasks admitted from
      position `k` on: at most the seed task was admitted, and only the seed
      URL sits in the frontier at depth 0 (every enqueued task is one level
      deeper than an admitted one). */
  predicate SeedOnly(run: Run, s: State, k: nat) {
    && k <= |s.admitted|
    && (s.admitted[k..] == [] || s.admitted[k..] == [Task(run.cfg.baseUrl, 0)])
    && forall i :: 0 <= i < |s.queue| && s.queue[i].depth == 0 ==> s.queue[i].url == run.cfg.baseUrl
  }

  lemma {:induction false} IterationKeepsSeedOnly(run: Run, s: State, k: nat)
    requires run.cfg.maxDepth == 0
    requires s.queue != []
    requires SeedOnly(run, s, k)
    ensures SeedOnly(run, AfterIteration(run, s), k)
  {
    var t := s.queue[0];
    var r := AfterIteration(run, s);
    // once the seed is admitted, its URL is visited
    if s.admitted[k..] != [] {
      assert s.admitted[k..][0] == s.admitted[k];
      assert Visited(s)[k] == run.cfg.baseUrl;
    }
    if r.admitted != s.admitted {
      assert r.admitted == s.admitted + [t];
      assert t.depth == 0 && t.url == run.cfg.baseUrl;
      assert t.url !in Visited(s);
      assert s.admitted[k..] == [];
      assert r.admitted[k..] == s.admitted[k..] + [t];
    }
    forall i | 0 <= i < |r.queue| && r.queue[i].depth == 0
      ensures r.queue[i].url == run.cfg.baseUrl
    {
      if i < |s.queue| - 1 {
        assert r.queue[i] == s.queue[i + 1];
      }
    }
  }

  lemma {:induction false} DrainKeepsSeedOnly(run: Run, s: State, k: nat)
    requires run.cfg.maxDepth == 0
    requires SeedOnly(run, s, k)
    ensures SeedOnly(run, Drain(run, s), k)
    decreases run.cfg.maxUrls - |s.admitted|, |s.queue|
  {
    if s.queue != [] && |s.admitted| < run.cfg.maxUrls {
      IterationKeepsSeedOnly(run, s, k);
      DrainKeepsSeedOnly(run, AfterIteration(run, s), k);
    }
  }

  /** With `maxDepth = 0` a `generate` call admits at most the seed. */
  lemma MaxDepthZeroOnlySeed(run: Run, s: State)
    requires run.cfg.maxDepth == 0
    requires Idle(run.cfg, s)
    ensures var added := AfterGenerate(run, s).admitted[|s.admitted|..];
            added == [] || added == [Task(run.cfg.baseUrl, 0)]
  {
    var seeded := State(s.admitted, s.queue + [Task(run.cfg.baseUrl, 0)]);
    var k := |s.admitted|;
    if k >= run.cfg.maxUrls {
      assert Drain(run, seeded) == seeded;
    } else {
      assert seeded.queue == [Task(run.cfg.baseUrl, 0)];
      DrainKeepsSeedOnly(run, seeded, k);
    }
  }

  /** The engine before its first `generate` call. */
  const Initial: State := State([], [])

  /** With `maxDepth = 0` the first run exports exactly the seed, unless the
      seed itself is not eligible or `maxUrls` is below one. */
  lemma FirstRunMaxDepthZero(run: Run)
    requires run.cfg.maxDepth == 0
    ensures Visited(AfterGenerate(run, Initial)) ==
              if Eligible(run, run.cfg.baseUrl) && run.cfg.maxUrls >= 1 then [run.cfg.baseUrl] else []
  {
    var seed := Task(run.cfg.baseUrl, 0);
    var seeded := State([], [seed]);
    var r := Drain(run, seeded);
    MaxDepthZeroOnlySeed(run, Initial);
    if run.cfg.maxUrls >= 1 {
      var next := AfterIteration(run, seeded);
      assert Visited(State([], [])) == [];
      if Eligible(run, run.cfg.baseUrl) {
        assert next.admitted == [seed];
        assert r.admitted[..1] == [seed];
      } else {
        assert next == State([], []);
        assert r == Drain(run, next) == next;
      }
    } else {
      assert r == seeded;
    }
  }

  /** With `maxUrls = 1` the first run exports exactly the seed when it is
      eligible (and `maxDepth` is not negative), and nothing otherwise. */
  lemma FirstRunMaxUrlsOne(run: Run)
    requires run.cfg.maxUrls == 1
    ensures Visited(AfterGenerate(run, Initial)) ==
              if Eligible(run, run.cfg.baseUrl) && run.cfg.maxDepth >= 0 then [run.cfg.baseUrl] else []
  {
    var seed := Task(run.cfg.baseUrl, 0);
    var seeded := State([], [seed]);
    var next := AfterIteration(run, seeded);
    assert Visited(State([], [])) == [];
    if Eligible(run, run.cfg.baseUrl) && run.cfg.maxDepth >= 0 {
      assert next.admitted == [seed];
      assert Drain(run, next) == next;
      assert Visited(next) == [run.cfg.baseUrl];
    } else {
      assert next == State([], []);
    }
  }
}
