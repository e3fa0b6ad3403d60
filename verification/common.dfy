/** Values shared by the models of process.py and fork_fetch.py: the JSON
    values the host API hands back, the exceptions the scripts can raise,
    and a Result type that stands for "returns normally or raises". */
module Common {

  /** A JSON value as json.loads produces it (numbers kept as integers). */
  datatype Json =
    | JStr(s: string)
    | JNum(n: int)
    | JBool(b: bool)
    | JNull
    | JArray(elems: seq<Json>)
    | JObject(fields: map<string, Json>)

  /** A JSON object: a Python dict with string keys. */
  type Item = map<string, Json>

  /** The exceptions the modelled code raises. */
  datatype Error =
    | KeyError(key: string)      // d[k] with k absent
    | TypeError                  // `+` or slicing on a value of the wrong type
    | AttributeError             // `.endswith` on a value that is not a string
    | StateError                 // RepoView._resolve on a resolved view
    | ApiError(message: string)  // a `gh api` call that failed

  /** Either the value a call returns or the exception it raises. */
  datatype Result<+T> = Ok(value: T) | Err(error: Error)

  /** The same for calls that return nothing. */
  datatype Outcome = Pass | Fail(error: Error)

  newtype byte = x: int | 0 <= x < 256

  /** Applies `f` to each element in order, as a Python loop that appends
      `f(x)` to a fresh list does; the first exception stops the loop. */
  function MapAll<A, B>(xs: seq<A>, f: A -> Result<B>): Result<seq<B>> {
    if xs == [] then Ok([])
    else
      match MapAll(xs[..|xs| - 1], f)
      case Err(e) => Err(e)
      case Ok(ys) =>
        match f(xs[|xs| - 1])
        case Err(e) => Err(e)
        case Ok(y) => Ok(ys + [y])
  }

  /** The loop returns normally exactly when `f` does on every element, and
      then returns their results in order; otherwise it raises what `f`
      raises on the first element it fails on. */
  lemma {:induction false} MapAllMeaning<A, B>(xs: seq<A>, f: A -> Result<B>)
    ensures MapAll(xs, f).Ok? <==> forall i :: 0 <= i < |xs| ==> f(xs[i]).Ok?
    ensures MapAll(xs, f).Ok? ==> |MapAll(xs, f).value| == |xs|
    ensures MapAll(xs, f).Ok? ==> forall i :: 0 <= i < |xs| ==> MapAll(xs, f).value[i] == f(xs[i]).value
    ensures MapAll(xs, f).Err? ==> exists i :: 0 <= i < |xs| && f(xs[i]) == Err(MapAll(xs, f).error)
                                              && forall j :: 0 <= j < i ==> f(xs[j]).Ok?
  {
    if xs != [] {
      var init := xs[..|xs| - 1];
      MapAllMeaning(init, f);
      assert forall j :: 0 <= j < |init| ==> init[j] == xs[j];
    }
  }

  /** Once a prefix of the input raises, so does the whole loop, with the
      same exception. */
  lemma {:induction false} MapAllPrefixError<A, B>(xs: seq<A>, k: nat, f: A -> Result<B>)
    requires k <= |xs|
    requires MapAll(xs[..k], f).Err?
    ensures MapAll(xs, f) == MapAll(xs[..k], f)
  {
    if k < |xs| {
      var init := xs[..|xs| - 1];
      assert init[..k] == xs[..k];
      MapAllPrefixError(init, k, f);
    } else {
      assert xs[..k] == xs;
    }
  }

  /** One more iteration of the loop over a prefix. */
  lemma MapAllStep<A, B>(xs: seq<A>, i: nat, f: A -> Result<B>)
    requires i < |xs| && MapAll(xs[..i], f).Ok?
    ensures f(xs[i]).Ok? ==> MapAll(xs[..i + 1], f) == Ok(MapAll(xs[..i], f).value + [f(xs[i]).value])
    ensures f(xs[i]).Err? ==> MapAll(xs, f) == Err(f(xs[i]).error)
  {
    assert xs[..i + 1][..i] == xs[..i];
    if f(xs[i]).Err? {
      MapAllPrefixError(xs, i + 1, f);
    }
  }

  /** Runs `f` on each element in order and concatenates the lists it
      returns, as a loop doing `build += f(x)` does; the first exception
      stops the loop. */
  function FlatMapAll<A, B>(xs: seq<A>, f: A -> Result<seq<B>>): Result<seq<B>> {
    if xs == [] then Ok([])
    else Then(FlatMapAll(xs[..|xs| - 1], f), f(xs[|xs| - 1]))
  }

  /** `a` then `b`: the first exception wins, otherwise the lists are joined. */
  function Then<B>(a: Result<seq<B>>, b: Result<seq<B>>): Result<seq<B>> {
    match a
    case Err(e) => Err(e)
    case Ok(x) => match b case Err(e) => Err(e) case Ok(y) => Ok(x + y)
  }

  /** The concatenation of `g` over the elements, in order. */
  function Concat<A, T>(xs: seq<A>, g: A -> seq<T>): seq<T> {
    if xs == [] then [] else Concat(xs[..|xs| - 1], g) + g(xs[|xs| - 1])
  }

  /** The sum of `h` over the elements. */
  function Sum<A>(xs: seq<A>, h: A -> nat): nat {
    if xs == [] then 0 else Sum(xs[..|xs| - 1], h) + h(xs[|xs| - 1])
  }

  /** What the `build += f(x)` loop records for each element it reaches
      (`g(x)` for the element being processed), stopping after the element
      that raises. */
  function Trace<A, B, T>(xs: seq<A>, f: A -> Result<seq<B>>, g: A -> seq<T>): seq<T> {
    if xs == [] then []
    else
      var init := xs[..|xs| - 1];
      if FlatMapAll(init, f).Err? then Trace(init, f, g)
      else Trace(init, f, g) + g(xs[|xs| - 1])
  }

  /** The loop over `a + b` is the loop over `a` followed by the loop over `b`. */
  lemma {:induction false} FlatMapAllAppend<A, B>(a: seq<A>, b: seq<A>, f: A -> Result<seq<B>>)
    ensures FlatMapAll(a + b, f) == Then(FlatMapAll(a, f), FlatMapAll(b, f))
  {
    if b == [] {
      assert a + b == a;
      match FlatMapAll(a, f)
      case Err(_) =>
      case Ok(x) => assert x + [] == x;
    } else {
      var b' := b[..|b| - 1];
      assert (a + b)[..|a + b| - 1] == a + b';
      assert (a + b)[|a + b| - 1] == b[|b| - 1];
      FlatMapAllAppend(a, b', f);
      match FlatMapAll(a, f)
      case Err(_) =>
      case Ok(x) =>
        match FlatMapAll(b', f)
        case Err(_) =>
        case Ok(y) =>
          match f(b[|b| - 1])
          case Err(_) =>
          case Ok(z) => assert (x + y) + z == x + (y + z);
    }
  }

  /** A single element contributes exactly `f` of it. */
  lemma FlatMapAllOne<A, B>(x: A, f: A -> Result<seq<B>>)
    ensures FlatMapAll([x], f) == f(x)
  {
    assert [x][..0] == [];
    match f(x)
    case Err(_) =>
    case Ok(c) => assert [] + c == c;
  }

  /** Once a prefix raises, the whole loop raises the same exception and
      records nothing more. */
  lemma {:induction false} FlatMapAllPrefixError<A, B, T>(xs: seq<A>, k: nat, f: A -> Result<seq<B>>, g: A -> seq<T>)
    requires k <= |xs|
    requires FlatMapAll(xs[..k], f).Err?
    ensures FlatMapAll(xs, f) == FlatMapAll(xs[..k], f)
    ensures Trace(xs, f, g) == Trace(xs[..k], f, g)
  {
    if k < |xs| {
      var init := xs[..|xs| - 1];
      assert init[..k] == xs[..k];
      FlatMapAllPrefixError(init, k, f, g);
    } else {
      assert xs[..k] == xs;
    }
  }

  /** The loop records `g` of a prefix of the elements, and of all of them
      when it finishes without an exception. */
  lemma {:induction false} TraceIsPrefix<A, B, T>(xs: seq<A>, f: A -> Result<seq<B>>, g: A -> seq<T>)
    ensures Trace(xs, f, g) <= Concat(xs, g)
    ensures FlatMapAll(xs, f).Ok? ==> Trace(xs, f, g) == Concat(xs, g)
  {
    if xs != [] {
      var init := xs[..|xs| - 1];
      TraceIsPrefix(init, f, g);
      assert Concat(init, g) <= Concat(xs, g);
    }
  }

  /** When every element that succeeds adds `h` of it entries, a loop that
      succeeds adds the sum of `h`: nothing is dropped or merged. */
  lemma {:induction false} FlatMapAllLength<A, B>(xs: seq<A>, f: A -> Result<seq<B>>, h: A -> nat)
    requires forall i :: 0 <= i < |xs| && f(xs[i]).Ok? ==> |f(xs[i]).value| == h(xs[i])
    requires FlatMapAll(xs, f).Ok?
    ensures |FlatMapAll(xs, f).value| == Sum(xs, h)
  {
    if xs != [] {
      var init := xs[..|xs| - 1];
      assert forall i :: 0 <= i < |init| ==> init[i] == xs[i];
      FlatMapAllLength(init, f, h);
    }
  }

  /** One more iteration of the `build += f(x)` loop over a prefix. */
  lemma FlatMapAllStep<A, B, T>(xs: seq<A>, i: nat, f: A -> Result<seq<B>>, g: A -> seq<T>)
    requires i < |xs|
    ensures FlatMapAll(xs[..i + 1], f) == Then(FlatMapAll(xs[..i], f), f(xs[i]))
    ensures FlatMapAll(xs[..i], f).Ok? ==> Trace(xs[..i + 1], f, g) == Trace(xs[..i], f, g) + g(xs[i])
  {
    assert xs[..i + 1][..i] == xs[..i];
  }
}
