/** fork_fetch.py: list the forks of the upstream repository page by page,
    then keep their full names. */
module ForkFetch {
  import opened Common

  /** The fork-listing endpoint: page number (from 1, 100 forks a page) to
      the forks on that page. */
  type Pages = nat -> Result<seq<Item>>

  /** The forks from page `n` on, as `get_forks` collects them: a failed
      request raises, an empty page ends the listing, and no page past
      `pages` is asked for. */
  function ForksFrom(n: nat, pages: int, page: Pages): Result<seq<Item>>
    decreases pages - n
  {
    if n > pages then Ok([])
    else match page(n)
      case Err(e) => Err(e)
      case Ok(forks) =>
        if |forks| == 0 then Ok([])
        else match ForksFrom(n + 1, pages, page)
          case Err(e) => Err(e)
          case Ok(rest) => Ok(forks + rest)
  }

  /** The page numbers requested from page `n` on. */
  function RequestsFrom(n: nat, pages: int, page: Pages): seq<nat>
    decreases pages - n
  {
    if n > pages then []
    else if page(n).Ok? && |page(n).value| > 0 then [n] + RequestsFrom(n + 1, pages, page)
    else [n]
  }

  /** `forks` put in front of a result that may be an exception. */
  function Prepend(forks: seq<Item>, r: Result<seq<Item>>): Result<seq<Item>> {
    match r
    case Err(e) => Err(e)
    case Ok(rest) => Ok(forks + rest)
  }

  /** `get_forks(pages, silent)` (fork_fetch.py:9-22). `silent` only turns
      logging off: the requests and the result do not depend on it. */
  method GetForks(pages: int, silent: bool, page: Pages)
    returns (r: Result<seq<Item>>, ghost requested: seq<nat>)
    ensures r == ForksFrom(1, pages, page)
    ensures requested == RequestsFrom(1, pages, page)
    ensures pages <= 0 ==> r == Ok([]) && requested == []
  {
    var out: seq<Item> := [];
    requested := [];
    var x := 0;
    PrependNothing(ForksFrom(1, pages, page));
    assert [] + RequestsFrom(1, pages, page) == RequestsFrom(1, pages, page);
    while x < pages
      invariant 0 <= x && (x > 0 ==> x <= pages)
      invariant ForksFrom(1, pages, page) == Prepend(out, ForksFrom(x + 1, pages, page))
      invariant RequestsFrom(1, pages, page) == requested + RequestsFrom(x + 1, pages, page)
      decreases pages - x
    {
      var forks := page(x + 1);
      PageStep(out, requested, x + 1, pages, page);
      requested := requested + [x + 1];
      if forks.Err? {
        return Err(forks.error), requested;
      }
      if |forks.value| == 0 {
        return Ok(out), requested;
      }
      out := out + forks.value;
      x := x + 1;
    }
    assert out + [] == out;
    r := Ok(out);
  }

  /** One page of the listing, after `out` was collected and `before`
      requested: what requesting page `n` adds. */
  lemma PageStep(out: seq<Item>, before: seq<nat>, n: nat, pages: int, page: Pages)
    requires n <= pages
    ensures page(n).Err? ==>
              Prepend(out, ForksFrom(n, pages, page)) == Err(page(n).error) &&
              before + RequestsFrom(n, pages, page) == before + [n]
    ensures page(n) == Ok([]) ==>
              Prepend(out, ForksFrom(n, pages, page)) == Ok(out) &&
              before + RequestsFrom(n, pages, page) == before + [n]
    ensures page(n).Ok? && page(n).value != [] ==>
              Prepend(out, ForksFrom(n, pages, page)) == Prepend(out + page(n).value, ForksFrom(n + 1, pages, page)) &&
              before + RequestsFrom(n, pages, page) == (before + [n]) + RequestsFrom(n + 1, pages, page)
  {
    assert out + [] == out;
    if page(n).Ok? && page(n).value != [] {
      PrependTwice(out, page(n).value, ForksFrom(n + 1, pages, page));
    }
  }

  lemma PrependNothing(r: Result<seq<Item>>)
    ensures Prepend([], r) == r
  {
    if r.Ok? {
      assert [] + r.value == r.value;
    }
  }

  lemma PrependTwice(a: seq<Item>, b: seq<Item>, r: Result<seq<Item>>)
    ensures Prepend(a, Prepend(b, r)) == Prepend(a + b, r)
  {
    if r.Ok? {
      assert a + (b + r.value) == (a + b) + r.value;
    }
  }

  /** A fork's `full_name`. */
  function FullName(fork: Item): Result<Json> {
    if "full_name" in fork then Ok(fork["full_name"]) else Err(KeyError("full_name"))
  }

  /** What `run` fetches and what it writes to forks.json. */
  datatype RunOutput = RunOutput(forks: seq<Item>, persisted: seq<Json>)

  /** `run(silent)` (fork_fetch.py:25-31): at most three pages of forks, and
      the list of their full names, one per fork and in the same order. */
  method Run(silent: bool, page: Pages) returns (r: Result<RunOutput>, ghost requested: seq<nat>)
    ensures requested == RequestsFrom(1, 3, page) && |requested| <= 3
    ensures r.Ok? <==> ForksFrom(1, 3, page).Ok? && MapAll(ForksFrom(1, 3, page).value, FullName).Ok?
    ensures r.Ok? ==> r.value.forks == ForksFrom(1, 3, page).value
    ensures r.Ok? ==> |r.value.persisted| == |r.value.forks|
    ensures r.Ok? ==> forall i :: 0 <= i < |r.value.forks| ==>
              "full_name" in r.value.forks[i] && r.value.persisted[i] == r.value.forks[i]["full_name"]
  {
    var forks;
    forks, requested := GetForks(3, silent, page);
    PagesInOrder(1, 3, page);
    if forks.Err? {
      return Err(forks.error), requested;
    }
    var names := MapAll(forks.value, FullName);
    MapAllMeaning(forks.value, FullName);
    if names.Err? {
      return Err(names.error), requested;
    }
    r := Ok(RunOutput(forks.value, names.value));
  }

  // ---------------------------------------------------------------------
  // Properties
  // ---------------------------------------------------------------------

  /** Pages are requested in increasing order, starting at `n`, one at a
      time, and never past `pages`. */
  lemma {:induction false} PagesInOrder(n: nat, pages: int, page: Pages)
    ensures |RequestsFrom(n, pages, page)| <= if pages < n then 0 else pages - n + 1
    ensures forall i :: 0 <= i < |RequestsFrom(n, pages, page)| ==> RequestsFrom(n, pages, page)[i] == n + i
    decreases pages - n
  {
    if n <= pages && page(n).Ok? && |page(n).value| > 0 {
      PagesInOrder(n + 1, pages, page);
    }
  }

  /** Only the last page requested can be empty or fail; every earlier one
      held forks. When fewer than `pages` pages were requested, the last
      one was empty or failed: the loop stops at the first empty page. */
  lemma {:induction false} StopsAtFirstEmpty(n: nat, pages: int, page: Pages)
    ensures var q := RequestsFrom(n, pages, page);
            forall i :: 0 <= i < |q| - 1 ==> page(q[i]).Ok? && |page(q[i]).value| > 0
    ensures var q := RequestsFrom(n, pages, page);
            q != [] && q[|q| - 1] < pages ==> page(q[|q| - 1]).Err? || page(q[|q| - 1]) == Ok([])
    decreases pages - n
  {
    if n <= pages && page(n).Ok? && |page(n).value| > 0 {
      StopsAtFirstEmpty(n + 1, pages, page);
    }
  }

  /** The forks of the pages numbered in `q`, in order. */
  function PagesForks(q: seq<nat>, page: Pages): seq<Item> {
    if q == [] then []
    else (if page(q[0]).Ok? then page(q[0]).value else []) + PagesForks(q[1..], page)
  }

  /** The listing raises exactly when the last page requested failed, and
      otherwise is the concatenation, in order, of every page requested. */
  lemma {:induction false} ForksAreRequestedPages(n: nat, pages: int, page: Pages)
    ensures var q := RequestsFrom(n, pages, page);
            ForksFrom(n, pages, page).Err? <==> q != [] && page(q[|q| - 1]).Err?
    ensures ForksFrom(n, pages, page).Ok? ==>
              ForksFrom(n, pages, page).value == PagesForks(RequestsFrom(n, pages, page), page)
    decreases pages - n
  {
    if n <= pages && page(n).Ok? && |page(n).value| > 0 {
      ForksAreRequestedPages(n + 1, pages, page);
      var q := RequestsFrom(n + 1, pages, page);
      assert ([n] + q)[1..] == q;
      if q != [] {
        assert ([n] + q)[|[n] + q| - 1] == q[|q| - 1];
      }
    } else if n <= pages && page(n).Ok? {
      assert [n][1..] == [];
    }
  }
}
