/** `get_content` and `make_batch` of process.py: each target repository is
    listed, turned into a resolved view and given to a predicate; the
    repositories for which it returns true are collected. */
module Batch {
  import opened Common
  import opened RepoViews
  import opened Predicates

  /** The three `gh api` endpoints the batch uses. */
  datatype Host = Host(
    root: string -> Result<seq<Item>>,  // `/repos/{repo}/contents/`
    subtree: Subtree,                   // `/repos/{repo}/git/trees/{sha}?recursive=1`
    blob: Blob)                         // a blob url, base64-decoded

  /** A predicate on a view, seen through its repository name and refs. */
  type Pred = (string, seq<Item>) -> Result<bool>

  /** `example_predicate` as a predicate on views. */
  function RoadRunnerPred(host: Host): Pred {
    (repo, refs) => ExamplePredicate(refs, host.blob).outcome
  }

  /** What `get_content(repo, pred)` returns or raises. */
  function JobOutcome(repo: string, host: Host, pred: Pred): Result<bool> {
    match host.root(repo)
    case Err(e) => Err(e)
    case Ok(root) =>
      match ConstructedRefs(repo, root, host.subtree)
      case Err(e) => Err(e)
      case Ok(refs) => pred(repo, refs)
  }

  /** `get_content` (process.py:80-88): list the root, build the view, run
      the predicate on it. */
  method GetContent(repo: string, host: Host, pred: Pred) returns (r: Result<bool>)
    ensures r == JobOutcome(repo, host, pred)
  {
    var root := host.root(repo);
    if root.Err? {
      return Err(root.error);
    }
    var view;
    ghost var asked;
    view, asked := RepoView.Create(repo, root.value, host.subtree);
    if view.Err? {
      return Err(view.error);
    }
    r := pred(view.value.repo, view.value.refs);
  }

  /** The elements of `xs` that satisfy `p`, in order. */
  function Select<T>(xs: seq<T>, p: T -> bool): seq<T> {
    if xs == [] then []
    else Select(xs[..|xs| - 1], p) + (if p(xs[|xs| - 1]) then [xs[|xs| - 1]] else [])
  }

  /** Whether a job ends up in `matching`: its predicate returned true. */
  function Collected(host: Host, pred: Pred): string -> bool {
    job => JobOutcome(job, host, pred) == Ok(true)
  }

  /** The jobs among `jobs` whose predicate returned true, in order. */
  function Matching(jobs: seq<string>, host: Host, pred: Pred): seq<string> {
    Select(jobs, Collected(host, pred))
  }

  function Reversed<T>(s: seq<T>): seq<T> {
    if s == [] then [] else [s[|s| - 1]] + Reversed(s[..|s| - 1])
  }

  /** `make_batch` with its worker `cook` run as one sequential worker
      (process.py:115-129): the targets are copied, popped from the end one
      by one, every exception of a job is caught, and the jobs whose
      predicate returned true are collected in pop order. With no worker
      at all, nothing is popped. */
  method MakeBatch(cookCount: int, targets: seq<string>, host: Host, pred: Pred)
    returns (matching: seq<string>, ghost jobs: seq<string>)
    ensures cookCount <= 0 ==> matching == [] && jobs == []
    ensures cookCount > 0 ==> matching == Matching(Reversed(targets), host, pred)
    ensures cookCount > 0 ==> jobs == Reversed(targets)
  {
    matching := [];
    jobs := [];
    var queue := targets;
    if cookCount <= 0 {
      return;
    }
    assert jobs + Reversed(queue) == Reversed(targets);
    while |queue| > 0
      invariant Reversed(targets) == jobs + Reversed(queue)
      invariant matching == Matching(jobs, host, pred)
    {
      var job := queue[|queue| - 1];
      ghost var rest := Reversed(queue[..|queue| - 1]);
      assert Reversed(queue) == [job] + rest;
      assert jobs + ([job] + rest) == (jobs + [job]) + rest;
      queue := queue[..|queue| - 1];
      SelectStep(jobs, job, Collected(host, pred));
      jobs := jobs + [job];
      var result := GetContent(job, host, pred);
      assert Collected(host, pred)(job) <==> result == Ok(true);
      if result.Ok? && result.value {
        matching := matching + [job];
      }
    }
    assert jobs + Reversed(queue) == jobs;
  }

  // ---------------------------------------------------------------------
  // Properties
  // ---------------------------------------------------------------------

  /** The batch's job with `example_predicate` (process.py:154): once the
      view is built and nothing in the scan can raise, the job returns true
      exactly when some Gradle ref of the view mentions the marker. */
  lemma RoadRunnerJob(repo: string, host: Host)
    requires host.root(repo).Ok?
    requires ConstructedRefs(repo, host.root(repo).value, host.subtree).Ok?
    requires Scannable(ConstructedRefs(repo, host.root(repo).value, host.subtree).value, host.blob)
    ensures var refs := ConstructedRefs(repo, host.root(repo).value, host.subtree).value;
            JobOutcome(repo, host, RoadRunnerPred(host)) ==
            Ok(exists i :: 0 <= i < |refs| && GradleMatch(refs[i], host.blob))
  {
    var refs := ConstructedRefs(repo, host.root(repo).value, host.subtree).value;
    ExamplePredicateDecides(refs, host.blob);
  }

  /** The jobs are popped from the end: each target exactly once, last
      first. */
  lemma {:induction false} PoppedOnce<T>(s: seq<T>)
    ensures |Reversed(s)| == |s|
    ensures forall i :: 0 <= i < |s| ==> Reversed(s)[i] == s[|s| - 1 - i]
    ensures multiset(Reversed(s)) == multiset(s)
  {
    if s != [] {
      var init := s[..|s| - 1];
      PoppedOnce(init);
      assert s == init + [s[|s| - 1]];
    }
  }

  /** A repository is collected exactly when it was a job and its predicate
      returned true; nothing else is collected. */
  lemma MatchingMembers(jobs: seq<string>, host: Host, pred: Pred)
    ensures forall x :: x in Matching(jobs, host, pred) <==> x in jobs && JobOutcome(x, host, pred) == Ok(true)
    ensures |Matching(jobs, host, pred)| <= |jobs|
  {
    SelectMembers(jobs, Collected(host, pred));
  }

  lemma {:induction false} SelectMembers<T>(xs: seq<T>, p: T -> bool)
    ensures forall x :: x in Select(xs, p) <==> x in xs && p(x)
    ensures |Select(xs, p)| <= |xs|
  {
    if xs != [] {
      var init := xs[..|xs| - 1];
      SelectMembers(init, p);
      assert xs == init + [xs[|xs| - 1]];
    }
  }

  lemma SelectStep<T>(xs: seq<T>, x: T, p: T -> bool)
    ensures Select(xs + [x], p) == Select(xs, p) + (if p(x) then [x] else [])
  {
    assert (xs + [x])[..|xs|] == xs;
  }

  lemma {:induction false} SelectAppend<T>(a: seq<T>, b: seq<T>, p: T -> bool)
    ensures Select(a + b, p) == Select(a, p) + Select(b, p)
  {
    if b == [] {
      assert a + b == a;
    } else {
      var b' := b[..|b| - 1];
      assert (a + b)[..|a + b| - 1] == a + b';
      SelectAppend(a, b', p);
    }
  }

  /** A job that raises is left out without disturbing any other job: the
      batch collects from the jobs around it exactly what it would collect
      without it. */
  lemma FailedJobIsolated(a: seq<string>, x: string, b: seq<string>, host: Host, pred: Pred)
    requires JobOutcome(x, host, pred).Err?
    ensures Matching(a + [x] + b, host, pred) == Matching(a, host, pred) + Matching(b, host, pred)
  {
    assert !Collected(host, pred)(x);
    SelectSkip(a, x, b, Collected(host, pred));
  }

  lemma SelectSkip<T>(a: seq<T>, x: T, b: seq<T>, p: T -> bool)
    requires !p(x)
    ensures Select(a + [x] + b, p) == Select(a, p) + Select(b, p)
  {
    SelectAppend(a + [x], b, p);
    SelectStep(a, x, p);
  }
}
