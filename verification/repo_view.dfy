/** RepoView of process.py: a repository's root listing normalised into refs,
    then widened once with the recursive listing of every root directory. */
module RepoViews {
  import opened Common
  import opened Dicts

  /** Keys a root listing entry keeps (process.py:29). */
  const RootKeys: seq<string> := ["path", "type", "sha", "size", "git_url"]

  /** Keys a subtree entry keeps (process.py:63). */
  const TreeKeys: seq<string> := ["path", "type", "sha", "size", "url"]

  /** The host's recursive tree listing: repository and tree sha to the
      `tree` array of `/repos/{repo}/git/trees/{sha}?recursive=1`. */
  type Subtree = (string, Json) -> Result<seq<Item>>

  // ---------------------------------------------------------------------
  // Normalisation of the root listing (the constructor's first loop)
  // ---------------------------------------------------------------------

  /** One root entry projected onto path/type/sha/size/git_url, with
      `git_url` renamed to `url`. */
  function NormaliseRef(item: Item): (r: Result<Item>)
    ensures r.Ok? <==> "git_url" in item
    ensures r.Err? ==> r.error == KeyError("git_url")
    ensures r.Ok? ==> forall k :: k in r.value <==> k == "url" || (k in item && k in ["path", "type", "sha", "size"])
    ensures r.Ok? ==> r.value["url"] == item["git_url"]
    ensures r.Ok? ==> forall k :: k in r.value && k != "url" ==> r.value[k] == item[k]
  {
    var a := Keep(item, RootKeys);
    if "git_url" !in a then Err(KeyError("git_url"))
    else Ok(a["url" := a["git_url"]] - {"git_url"})
  }

  /** The constructor's loop over `root_items` (process.py:27-32). */
  method NormaliseRefs(rootItems: seq<Item>) returns (r: Result<seq<Item>>)
    ensures r == MapAll(rootItems, NormaliseRef)
  {
    var refs: seq<Item> := [];
    for i := 0 to |rootItems|
      invariant MapAll(rootItems[..i], NormaliseRef) == Ok(refs)
    {
      MapAllStep(rootItems, i, NormaliseRef);
      var a := Keep(rootItems[i], RootKeys);
      if "git_url" !in a {
        return Err(KeyError("git_url"));
      }
      a := a["url" := a["git_url"]];
      a := a - {"git_url"};
      refs := refs + [a];
    }
    assert rootItems[..|rootItems|] == rootItems;
    r := Ok(refs);
  }

  /** A root entry without `git_url` makes the whole construction raise. */
  lemma MissingGitUrlRaises(rootItems: seq<Item>, i: nat)
    requires i < |rootItems| && "git_url" !in rootItems[i]
    ensures MapAll(rootItems, NormaliseRef) == Err(KeyError("git_url"))
  {
    MapAllMeaning(rootItems, NormaliseRef);
  }

  /** Normalisation succeeds exactly when every root entry has `git_url`,
      and then yields one ref per entry, in order, holding only the kept
      keys with `url` taken from `git_url`. */
  lemma NormalisedRefs(rootItems: seq<Item>)
    ensures MapAll(rootItems, NormaliseRef).Ok? <==> forall i :: 0 <= i < |rootItems| ==> "git_url" in rootItems[i]
    ensures MapAll(rootItems, NormaliseRef).Ok? ==>
              var refs := MapAll(rootItems, NormaliseRef).value;
              |refs| == |rootItems| &&
              forall i :: 0 <= i < |refs| ==>
                "git_url" in rootItems[i] && "git_url" !in refs[i] &&
                "url" in refs[i] && refs[i]["url"] == rootItems[i]["git_url"] &&
                (forall k :: k in ["path", "type", "sha", "size"] && k in rootItems[i] ==> k in refs[i]) &&
                forall k :: k in refs[i] && k != "url" ==>
                  k in ["path", "type", "sha", "size"] && k in rootItems[i] && refs[i][k] == rootItems[i][k]
  {
    MapAllMeaning(rootItems, NormaliseRef);
  }

  // ---------------------------------------------------------------------
  // The log preview of the constructor (process.py:36-43)
  // ---------------------------------------------------------------------

  /** `path, typ, sha = ref["path"], ref["type"], ref["sha"]`: the first
      absent key raises. */
  datatype Head = Head(path: Json, typ: Json, sha: Json)

  function Fields(ref: Item): Result<Head> {
    if "path" !in ref then Err(KeyError("path"))
    else if "type" !in ref then Err(KeyError("type"))
    else if "sha" !in ref then Err(KeyError("sha"))
    else Ok(Head(ref["path"], ref["type"], ref["sha"]))
  }

  /** What logging one ref can raise: an absent key, or `sha[:8]` on a sha
      that cannot be sliced. */
  function PreviewRef(ref: Item): Outcome {
    match Fields(ref)
    case Err(e) => Fail(e)
    case Ok(h) => if h.sha.JStr? || h.sha.JArray? then Pass else Fail(TypeError)
  }

  /** The preview loop visits refs until `n` of them have been logged; the
      constructor starts it with n = 5. */
  function Preview(refs: seq<Item>, n: nat): (r: Outcome)
    ensures r.Pass? <==> forall i :: 0 <= i < |refs| && i < n ==> PreviewRef(refs[i]).Pass?
    ensures r.Fail? ==> exists i :: 0 <= i < |refs| && i < n && PreviewRef(refs[i]) == r
  {
    if refs == [] || n == 0 then Pass
    else match PreviewRef(refs[0])
      case Fail(e) => Fail(e)
      case Pass =>
        var rest := Preview(refs[1..], n - 1);
        assert forall i :: 1 <= i < |refs| ==> refs[1..][i - 1] == refs[i];
        rest
  }

  // ---------------------------------------------------------------------
  // Expansion (RepoView._resolve, process.py:47-71)
  // ---------------------------------------------------------------------

  predicate IsDir(typ: Json) {
    typ == JStr("dir") || typ == JStr("tree")
  }

  /** `path + "/" + a["path"]`: the parent is added to "/" first, then the
      child path is looked up and added. */
  function JoinPath(parent: Json, a: Item): Result<Json> {
    if !parent.JStr? then Err(TypeError)
    else if "path" !in a then Err(KeyError("path"))
    else if !a["path"].JStr? then Err(TypeError)
    else Ok(JStr(parent.s + "/" + a["path"].s))
  }

  /** One subtree entry projected onto path/type/sha/size/url, with its
      path prefixed by the parent directory's. */
  function Trim(parent: Json, item: Item): (r: Result<Item>)
    ensures r.Ok? <==> parent.JStr? && "path" in item && item["path"].JStr?
    ensures r.Ok? ==> forall k :: k in r.value <==> k in item && k in TreeKeys
    ensures r.Ok? ==> r.value["path"] == JStr(parent.s + "/" + item["path"].s)
    ensures r.Ok? ==> forall k :: k in r.value && k != "path" ==> r.value[k] == item[k]
  {
    var a := Keep(item, TreeKeys);
    match JoinPath(parent, a)
    case Err(e) => Err(e)
    case Ok(p) => Ok(a["path" := p])
  }

  function Trimmer(parent: Json): Item -> Result<Item> {
    item => Trim(parent, item)
  }

  /** The inner loop building `trimmed` (process.py:61-65). */
  method TrimTree(parent: Json, tree: seq<Item>) returns (r: Result<seq<Item>>)
    ensures r == MapAll(tree, Trimmer(parent))
  {
    var trimmed: seq<Item> := [];
    for j := 0 to |tree|
      invariant MapAll(tree[..j], Trimmer(parent)) == Ok(trimmed)
    {
      MapAllStep(tree, j, Trimmer(parent));
      var a := Keep(tree[j], TreeKeys);
      var p := JoinPath(parent, a);
      if p.Err? {
        return Err(p.error);
      }
      a := a["path" := p.value];
      trimmed := trimmed + [a];
    }
    assert tree[..|tree|] == tree;
    r := Ok(trimmed);
  }

  /** What one root ref adds to `build`: nothing for a non-directory, its
      trimmed recursive listing for a `dir` or `tree`. The log line
      `"  resolve dir " + path` comes before the request, so a directory
      whose path is not a string raises TypeError without asking the host. */
  function Contribution(repo: string, ref: Item, subtree: Subtree): Result<seq<Item>> {
    match Fields(ref)
    case Err(e) => Err(e)
    case Ok(h) =>
      if !IsDir(h.typ) then Ok([])
      else if !h.path.JStr? then Err(TypeError)
      else match subtree(repo, h.sha)
        case Err(e) => Err(e)
        case Ok(tree) => MapAll(tree, Trimmer(h.path))
  }

  function Contributor(repo: string, subtree: Subtree): Item -> Result<seq<Item>> {
    ref => Contribution(repo, ref, subtree)
  }

  /** Everything `_resolve` appends after the copy of the refs: the
      contributions of the refs, in order, up to the first exception. */
  function Expansion(repo: string, refs: seq<Item>, subtree: Subtree): Result<seq<Item>> {
    FlatMapAll(refs, Contributor(repo, subtree))
  }

  /** The sha of a directory ref: the one subtree request it causes. */
  function DirSha(ref: Item): seq<Json> {
    match Fields(ref)
    case Err(_) => []
    case Ok(h) => if IsDir(h.typ) && h.path.JStr? then [h.sha] else []
  }

  /** The tree shas `_resolve` asks the host for, in order, up to the ref
      that raises. */
  function Requests(repo: string, refs: seq<Item>, subtree: Subtree): seq<Json> {
    Trace(refs, Contributor(repo, subtree), DirSha)
  }

  /** How many entries the recursive listing of a directory ref holds. */
  function SubtreeSize(repo: string, subtree: Subtree, ref: Item): nat {
    match Fields(ref)
    case Err(_) => 0
    case Ok(h) =>
      if IsDir(h.typ) && h.path.JStr? && subtree(repo, h.sha).Ok? then |subtree(repo, h.sha).value| else 0
  }

  /** The refs of a freshly constructed view: the normalised root listing
      (raising on an entry without `git_url`), checked by the log preview,
      then followed by the expansion. */
  function ConstructedRefs(repo: string, rootItems: seq<Item>, subtree: Subtree): Result<seq<Item>> {
    match MapAll(rootItems, NormaliseRef)
    case Err(e) => Err(e)
    case Ok(refs) =>
      match Preview(refs, 5)
      case Fail(e) => Err(e)
      case Pass =>
        match Expansion(repo, refs, subtree)
        case Err(e) => Err(e)
        case Ok(added) => Ok(refs + added)
  }

  /** The tree shas the constructor asks the host for. */
  function ConstructionRequests(repo: string, rootItems: seq<Item>, subtree: Subtree): seq<Json> {
    match MapAll(rootItems, NormaliseRef)
    case Err(_) => []
    case Ok(refs) => if Preview(refs, 5).Fail? then [] else Requests(repo, refs, subtree)
  }

  // ---------------------------------------------------------------------
  // Properties of the expansion
  // ---------------------------------------------------------------------

  /** A ref contributes nothing unless it is a `dir` or `tree`; a directory
      contributes its recursive listing, entry for entry and in order, each
      entry trimmed and its path rewritten to `parent + "/" + child`. */
  lemma ContributionOfRef(repo: string, ref: Item, subtree: Subtree)
    requires Contribution(repo, ref, subtree).Ok?
    ensures "path" in ref && "type" in ref && "sha" in ref
    ensures !IsDir(ref["type"]) ==> Contribution(repo, ref, subtree).value == []
    ensures IsDir(ref["type"]) ==> ref["path"].JStr? && subtree(repo, ref["sha"]).Ok?
    ensures |Contribution(repo, ref, subtree).value| == SubtreeSize(repo, subtree, ref)
    ensures IsDir(ref["type"]) ==>
              var tree, added := subtree(repo, ref["sha"]).value, Contribution(repo, ref, subtree).value;
              forall i :: 0 <= i < |tree| ==>
                Trim(ref["path"], tree[i]).Ok? && added[i] == Trim(ref["path"], tree[i]).value
  {
    if IsDir(ref["type"]) {
      var tree := subtree(repo, ref["sha"]).value;
      var added := MapAll(tree, Trimmer(ref["path"]));
      MapAllMeaning(tree, Trimmer(ref["path"]));
      forall i | 0 <= i < |tree|
        ensures Trim(ref["path"], tree[i]).Ok? && added.value[i] == Trim(ref["path"], tree[i]).value
      {
        assert Trimmer(ref["path"])(tree[i]) == Trim(ref["path"], tree[i]);
      }
    }
  }

  /** The expansion of two runs of refs is the expansion of the first
      followed by that of the second, and a single ref's expansion is its
      contribution: entries are appended ref by ref, in root order. */
  lemma ExpansionInOrder(repo: string, a: seq<Item>, b: seq<Item>, ref: Item, subtree: Subtree)
    ensures Expansion(repo, a + b, subtree) == Then(Expansion(repo, a, subtree), Expansion(repo, b, subtree))
    ensures Expansion(repo, [ref], subtree) == Contribution(repo, ref, subtree)
  {
    FlatMapAllAppend(a, b, Contributor(repo, subtree));
    FlatMapAllOne(ref, Contributor(repo, subtree));
  }

  /** No deduplication: a successful expansion adds exactly as many entries
      as the directory refs' recursive listings hold. */
  lemma ExpansionLength(repo: string, refs: seq<Item>, subtree: Subtree)
    requires Expansion(repo, refs, subtree).Ok?
    ensures |Expansion(repo, refs, subtree).value| == Sum(refs, ref => SubtreeSize(repo, subtree, ref))
  {
    var f := Contributor(repo, subtree);
    forall i | 0 <= i < |refs| && f(refs[i]).Ok?
      ensures |f(refs[i]).value| == SubtreeSize(repo, subtree, refs[i])
    {
      ContributionOfRef(repo, refs[i], subtree);
    }
    FlatMapAllLength(refs, f, ref => SubtreeSize(repo, subtree, ref));
  }

  /** A single pass over the root refs: the shas requested are those of the
      root's own directory refs, in order, stopping at an exception; entries
      the expansion appends are never expanded in turn. */
  lemma {:induction false} RequestsAreRootDirs(repo: string, refs: seq<Item>, subtree: Subtree)
    ensures Requests(repo, refs, subtree) <= Concat(refs, DirSha)
    ensures Expansion(repo, refs, subtree).Ok? ==> Requests(repo, refs, subtree) == Concat(refs, DirSha)
  {
    TraceIsPrefix(refs, Contributor(repo, subtree), DirSha);
  }

  /** The paths of the view are not deduplicated: a root file `a/b` and a
      root directory `a` whose listing holds `b` leave two refs with path
      `a/b`. */
  lemma DuplicatePathsKept(subtree: Subtree)
    requires subtree("o/r", JStr("t")) == Ok([map["path" := JStr("b")]])
    ensures var file := map["path" := JStr("a/b"), "type" := JStr("file"), "sha" := JStr("f")];
            var dir := map["path" := JStr("a"), "type" := JStr("dir"), "sha" := JStr("t")];
            var e := Expansion("o/r", [file, dir], subtree);
            e.Ok? && |e.value| == 1 && e.value[0]["path"] == file["path"]
  {
    var file := map["path" := JStr("a/b"), "type" := JStr("file"), "sha" := JStr("f")];
    var dir := map["path" := JStr("a"), "type" := JStr("dir"), "sha" := JStr("t")];
    ExpansionInOrder("o/r", [file], [dir], file, subtree);
    ExpansionInOrder("o/r", [file], [dir], dir, subtree);
    assert [file] + [dir] == [file, dir];
    ContributionOfRef("o/r", dir, subtree);
    assert JStr("a").s + "/" + JStr("b").s == "a/b";
  }

  // ---------------------------------------------------------------------
  // The view object
  // ---------------------------------------------------------------------

  /** One pass of the loop over `self.refs` (process.py:55-66): read the
      ref's path, type and sha, and for a `dir` or `tree` fetch and trim its
      recursive listing. */
  method ExpandRef(repo: string, ref: Item, subtree: Subtree)
    returns (added: Result<seq<Item>>, ghost asked: seq<Json>)
    ensures added == Contribution(repo, ref, subtree)
    ensures asked == DirSha(ref)
  {
    asked := [];
    if "path" !in ref { return Err(KeyError("path")), asked; }
    if "type" !in ref { return Err(KeyError("type")), asked; }
    if "sha" !in ref { return Err(KeyError("sha")), asked; }
    var path, typ, sha := ref["path"], ref["type"], ref["sha"];
    if typ in [JStr("dir"), JStr("tree")] {
      if !path.JStr? {
        return Err(TypeError), asked;
      }
      var tree := subtree(repo, sha);
      asked := [sha];
      if tree.Err? {
        return Err(tree.error), asked;
      }
      added := TrimTree(path, tree.value);
    } else {
      added := Ok([]);
    }
  }

  /** `f` gives, for every ref, what it contributes to the expansion. */
  ghost predicate Contributes(f: Item -> Result<seq<Item>>, repo: string, subtree: Subtree) {
    forall ref {:trigger Contribution(repo, ref, subtree)} :: f(ref) == Contribution(repo, ref, subtree)
  }

  /** The body of `_resolve` after its guard (process.py:53-66): `build`
      starts as a copy of the refs and grows, ref by ref, by what each
      directory ref's listing contributes. `f` is `Contributor(repo,
      subtree)`, passed along so that the loop reasons about it as one
      function. */
  method BuildRefs(repo: string, roots: seq<Item>, subtree: Subtree, ghost f: Item -> Result<seq<Item>>)
    returns (r: Result<seq<Item>>, ghost requested: seq<Json>)
    requires Contributes(f, repo, subtree)
    ensures r == Then(Ok(roots), FlatMapAll(roots, f))
    ensures requested == Trace(roots, f, DirSha)
  {
    var build := roots;
    ghost var extra: seq<Item> := [];
    requested := [];
    assert roots[..0] == [] && build == roots + extra;
    for i := 0 to |roots|
      invariant build == roots + extra
      invariant FlatMapAll(roots[..i], f) == Ok(extra)
      invariant requested == Trace(roots[..i], f, DirSha)
    {
      FlatMapAllStep(roots, i, f, DirSha);
      var added, asked := ExpandRef(repo, roots[i], subtree);
      assert f(roots[i]) == added;
      requested := requested + asked;
      if added.Err? {
        FlatMapAllPrefixError(roots, i + 1, f, DirSha);
        return Err(added.error), requested;
      }
      assert (roots + extra) + added.value == roots + (extra + added.value);
      build := build + added.value;
      extra := extra + added.value;
    }
    assert roots[..|roots|] == roots;
    r := Ok(build);
  }

  class RepoView {
    const repo: string
    const rootItems: seq<Item>
    var refs: seq<Item>
    var resolved: bool

    /** The field set-up of `__init__` before `_resolve` runs. */
    constructor (repo: string, rootItems: seq<Item>, refs: seq<Item>)
      ensures this.repo == repo && this.rootItems == rootItems
      ensures this.refs == refs && !resolved
    {
      this.repo := repo;
      this.rootItems := rootItems;
      this.refs := refs;
      resolved := false;
    }

    /** `RepoView(repo, root_items)`: normalise, run the log preview, then
        resolve; an exception anywhere means no view is made. */
    static method Create(repo: string, rootItems: seq<Item>, subtree: Subtree)
      returns (r: Result<RepoView>, ghost requested: seq<Json>)
      ensures r.Ok? <==> ConstructedRefs(repo, rootItems, subtree).Ok?
      ensures r.Err? ==> r.error == ConstructedRefs(repo, rootItems, subtree).error
      ensures r.Ok? ==> fresh(r.value) && r.value.resolved
      ensures r.Ok? ==> r.value.repo == repo && r.value.rootItems == rootItems
      ensures r.Ok? ==> r.value.refs == ConstructedRefs(repo, rootItems, subtree).value
      ensures requested == ConstructionRequests(repo, rootItems, subtree)
    {
      var normalised := NormaliseRefs(rootItems);
      if normalised.Err? {
        return Err(normalised.error), [];
      }
      var refs := normalised.value;
      var preview := Preview(refs, 5);
      if preview.Fail? {
        return Err(preview.error), [];
      }
      var view := new RepoView(repo, rootItems, refs);
      var outcome;
      outcome, requested := view.Resolve(subtree);
      if outcome.Fail? {
        return Err(outcome.error), requested;
      }
      r := Ok(view);
    }

    /** `_resolve`: refuses a resolved view; otherwise appends, after the
        current refs, the trimmed recursive listing of each directory ref,
        and marks the view resolved. An exception leaves the view as it was. */
    method Resolve(subtree: Subtree) returns (r: Outcome, ghost requested: seq<Json>)
      modifies this
      ensures old(resolved) ==> r == Fail(StateError) && refs == old(refs) && resolved && requested == []
      ensures !old(resolved) ==> requested == Requests(repo, old(refs), subtree)
      ensures !old(resolved) && Expansion(repo, old(refs), subtree).Ok? ==>
                r == Pass && resolved && refs == old(refs) + Expansion(repo, old(refs), subtree).value
      ensures !old(resolved) && Expansion(repo, old(refs), subtree).Err? ==>
                r == Fail(Expansion(repo, old(refs), subtree).error) && !resolved && refs == old(refs)
    {
      if resolved {
        return Fail(StateError), [];
      }
      var build;
      build, requested := BuildRefs(repo, refs, subtree, Contributor(repo, subtree));
      if build.Err? {
        return Fail(build.error), requested;
      }
      refs := build.value;
      resolved := true;
      r := Pass;
    }
  }

  /** A constructed view is already resolved: resolving it again raises
      StateError and leaves its refs as they are. */
  method ResolveAgain(repo: string, rootItems: seq<Item>, subtree: Subtree)
    returns (first: Result<seq<Item>>, second: Outcome, after: seq<Item>)
    ensures first == ConstructedRefs(repo, rootItems, subtree)
    ensures first.Ok? ==> second == Fail(StateError) && after == first.value
  {
    var view;
    ghost var asked;
    view, asked := RepoView.Create(repo, rootItems, subtree);
    if view.Err? {
      return Err(view.error), Pass, [];
    }
    first := Ok(view.value.refs);
    second, asked := view.value.Resolve(subtree);
    after := view.value.refs;
  }
}
