# octoFTC fork scanner, modelled in Dafny

octoFTC scans the fork network of a GitHub repository. `fork_fetch.py`
lists the forks of the upstream repository page by page and keeps their
full names. `process.py` then works through those repositories as a
batch. For each repository it:

- lists the root contents;
- builds a `RepoView`, that is, the root entries normalised into refs and
  widened once with the recursive listing of every root directory;
- hands the view to a predicate.

The predicate shipped with the code (`example_predicate`) reports whether
some Gradle file of the repository mentions `com.acmerobotics.roadrunner`,
in any letter case. The batch collects the repositories for which the
predicate returned true. A repository whose processing raises is logged
and skipped.

The model is split into modules that follow the program:

| module | file | covers |
|---|---|---|
| `Common` | common.dfy | JSON values, the exceptions the scripts raise, `Result`, and the "loop that stops at the first exception" combinators with their laws |
| `Dicts` | dicts.dfy | `keep` |
| `RepoViews` | repo_view.dfy | `RepoView`: normalisation, the log preview, `_resolve` and its loops |
| `Predicates` | predicate.dfy | `example_predicate` and the byte search it relies on |
| `Batch` | batch.dfy | `get_content` and `make_batch` |
| `ForkFetch` | fork_fetch.dfy | `get_forks` and `run` |

Every `gh api` call is a function parameter. Such an "oracle" returns
either the parsed reply or `Err(ApiError(...))`:

- the root listing: `Host.root`;
- the recursive tree listing: `Subtree`;
- the decoded blob: `Blob`;
- one page of forks: `Pages`.

A Python exception is `Err(e)` in a `Result`, with `e` one of `KeyError(key)`,
`TypeError`, `AttributeError`, `StateError` or `ApiError`. Loops that
append to a list and stop at the first exception are written as methods
with loop invariants. The invariants tie each method to a specification
function: `MapAll` for one result per element, `FlatMapAll` for
concatenated results, and `Trace` for the requests made on the way. The
properties the scripts rely on are proved about those functions.

Some behaviours of the code are worth stating outright, because the model
keeps them as they are:

- `_resolve` makes a single pass over the root refs. Entries it appends
  are never expanded in turn (`RequestsAreRootDirs`).
- Paths are not deduplicated: the same path can occur twice in a view
  (`DuplicatePathsKept`).
- `make_batch` returns only the matching repositories. A job that raised
  is indistinguishable from one that did not match (`FailedJobIsolated`).
- Fork names are not deduplicated before they are persisted.

## Model

| member | source | states |
|---|---|---|
| Dicts.Keep | process.py:16-17 | the projection holds exactly the listed keys the dict has, each with the dict's value; listed keys the dict lacks are skipped, never raised on |
| Dicts.KeepIdempotent | process.py:16-17 | projecting a projection onto the same keys changes nothing |
| Dicts.KeepTwice | process.py:16-17 | projecting onto `a` then `b` keeps exactly the keys in both lists and the dict, whichever order the projections run in |
| Common.MapAllMeaning | process.py:28-32 | an append-per-element loop returns normally exactly when every element's step does, with one result per element in order; otherwise it raises what the first failing element raises |
| RepoViews.NormaliseRef | process.py:29-31 | a root entry normalises exactly when it has `git_url` (otherwise KeyError `git_url`); the ref holds `url` plus whichever of path/type/sha/size the entry has, `url` carries the `git_url` value and every other value is unchanged |
| RepoViews.NormaliseRefs | process.py:27-32 | the constructor's loop returns the per-entry normalisation of the root listing, in order, and raises at the first entry lacking `git_url` |
| RepoViews.MissingGitUrlRaises | process.py:28-31 | one root entry without `git_url` anywhere in the listing makes the constructor raise KeyError `git_url` |
| RepoViews.NormalisedRefs | process.py:27-32 | normalisation succeeds iff every root entry has `git_url`; then there is one ref per entry, in order, without `git_url`, whose `url` is the entry's `git_url`, which keeps every one of path/type/sha/size the entry has, and whose other keys are among those four with the entry's values |
| RepoViews.Preview | process.py:36-43 | the log preview passes iff each of the first five refs has path, type and sha and a sha that `[:8]` can slice; otherwise it raises the exception of one of those five refs |
| RepoViews.Trim | process.py:63-64 | a subtree entry is trimmed exactly when the parent path and the entry's path are strings; the result keeps the entry's keys among path/type/sha/size/url, its path becomes `parent + "/" + child`, every other value is unchanged |
| RepoViews.TrimTree | process.py:61-65 | the inner loop returns the trimmed subtree entries one per entry, in order, or raises at the first entry that cannot be trimmed |
| RepoViews.ContributionOfRef | process.py:55-66 | a ref that contributes has path, type and sha; a non-directory adds nothing; a directory has a string path and a listing that was fetched, and adds exactly its entries trimmed, in order, as many as the listing holds |
| RepoViews.ExpandRef | process.py:55-66 | one pass of the resolve loop adds the ref's contribution and requests the listing of its sha only for a directory ref with a string path |
| RepoViews.ExpansionInOrder | process.py:54-66 | the expansion of two runs of refs is the first run's followed by the second's, and a single ref's expansion is its own contribution |
| RepoViews.ExpansionLength | process.py:61-66 | a successful expansion adds exactly as many entries as the root directory listings hold, so nothing is deduplicated or dropped |
| RepoViews.RequestsAreRootDirs | process.py:54-59 | the shas requested are a prefix of the root directory refs' shas in root order, and all of them when resolution succeeds, so appended entries are never expanded |
| RepoViews.DuplicatePathsKept | process.py:53-66 | a root file `a/b` and a root directory `a` listing `b` leave two refs with path `a/b` |
| RepoViews.BuildRefs | process.py:53-66 | `build` is the original refs followed by every ref's contribution in order, or the first exception raised; the shas requested are those the loop reaches |
| RepoViews.RepoView.constructor | process.py:25-34 | a view starts unresolved with the given repository, root items and refs |
| RepoViews.RepoView.Create | process.py:25-45 | a view is made exactly when normalisation, the preview and resolution all succeed; it is resolved and holds the normalised refs followed by their expansion; otherwise the first exception is raised |
| RepoViews.RepoView.Resolve | process.py:47-71 | a resolved view raises StateError and keeps its refs; otherwise the refs grow by the expansion and the view becomes resolved, and an exception leaves the view unchanged and unresolved |
| RepoViews.ResolveAgain | process.py:45-52 | resolving a constructed view again raises StateError and leaves its refs as construction made them |
| Predicates.ExamplePredicate | process.py:102-112 | the scan fetches at most one blob per ref; a true result means the last blob fetched matched; a host error means the last fetch failed. Its lemmas add the rest: only Gradle refs are fetched, in order (`FetchesOnlyGradleRefs`); the scan stops at the first match (`StopsAtFirstMatch`); and when nothing can raise it decides whether some Gradle blob mentions the marker (`ExamplePredicateDecides`) |
| Predicates.ContainsIff | process.py:108 | the byte search finds the needle iff it occurs at some offset of the haystack |
| Predicates.MarkerIgnoresCase | process.py:108 | a blob matches iff some window of it, lower-cased, is `com.acmerobotics.roadrunner` |
| Predicates.FetchesOnlyGradleRefs | process.py:104-107 | the blobs fetched are those of the `.gradle` refs among a prefix of the refs, in ref order |
| Predicates.StopsAtFirstMatch | process.py:104-112 | every fetched blob but the last did not match; true means the last fetched blob matched; false means every Gradle ref was fetched and none matched |
| Predicates.ExamplePredicateDecides | process.py:102-112 | when no lookup or fetch can raise, the predicate is true exactly when some Gradle ref's blob mentions the marker |
| Batch.GetContent | process.py:80-88 | a job lists the root, builds the view and returns the predicate's verdict on it, raising the first exception of any stage |
| Batch.RoadRunnerJob | process.py:154 | a batch job run with `example_predicate` on a view that was built and cannot make the scan raise returns true exactly when some Gradle ref of the view mentions the marker |
| Batch.MakeBatch | process.py:115-149 | with no worker nothing is done; otherwise every target is taken once, last first, and exactly the jobs whose predicate returned true are collected, in pop order |
| Batch.PoppedOnce | process.py:121-122 | popping from the end visits every target exactly once, the last first |
| Batch.MatchingMembers | process.py:124-126 | a repository is collected iff it was a job and its predicate returned true; no more repositories are collected than there were jobs |
| Batch.FailedJobIsolated | process.py:124-128 | a job that raises is left out and the batch collects from the other jobs exactly what it would without it |
| ForkFetch.GetForks | fork_fetch.py:9-22 | the listing concatenates pages 1, 2, ... up to `pages`, stops at the first empty page and raises on a failed request; no page is requested when `pages <= 0` |
| ForkFetch.PagesInOrder | fork_fetch.py:11-16 | pages are requested one at a time in increasing order from the first, never past `pages` |
| ForkFetch.StopsAtFirstEmpty | fork_fetch.py:17-20 | every requested page but the last held forks; when the listing ends early, the last page requested was empty or failed |
| ForkFetch.ForksAreRequestedPages | fork_fetch.py:11-22 | the listing raises iff the last page requested failed, and otherwise is every requested page's forks, in order |
| ForkFetch.Run | fork_fetch.py:25-31 | at most three pages are requested; the run succeeds iff the listing does and every fork has `full_name`; what is persisted is one full name per fork, in fork order |

## Left out

- Process calls and parsing are not modelled. These are running `gh`,
  `shlex`, `json.loads`, base64 decoding, the `GH_EXTRA` header, and the
  `["tree"]` and `["content"]` lookups on replies. Each host call is an
  oracle returning the parsed reply or an error.
- Logging is left out, except where building a log line can raise:
  - the preview's key lookups and `sha[:8]`;
  - `"  resolve dir " + path`, which raises TypeError for a non-string
    directory path before any request is sent.
- RepoViews.Preview: `sha[:8]` succeeds on strings and arrays and raises
  TypeError on every other JSON value. Python 3.12 raises KeyError for a
  JSON object instead; that case is not distinguished.
- Batch.MakeBatch: it models one worker draining the queue. With several
  threads, these are not modelled:
  - the interleaving of jobs, and so the order of `matching`;
  - the race between the emptiness check and `pop`;
  - concurrent appends.
  Only whether `cook_count` is positive matters.
- The busy-wait join loop and `time.sleep` in `make_batch` are left out:
  they only wait for the workers.
- File I/O is left out:
  - reading `forks.json` when `process.py` is imported;
  - writing it in `run`. `RunOutput.persisted` stands for the list that
    would be written. That the file is truncated before a failing
    `full_name` lookup is not modelled.
- The `__main__` blocks and `print` are left out: they are only entry points.
- The `silent` flag is a parameter with no effect, because it only switches
  logging.
- Python dict key order is not modelled: a JSON object is a `map`.
  JSON numbers are integers, and floats are not modelled.
- `copy.deepcopy` has no counterpart: values in the model are immutable,
  so a copy is the value itself.
- A predicate is modelled as a function of the view's repository name and
  refs that returns a `bool` or raises. Truthiness of other return values
  is not modelled.
