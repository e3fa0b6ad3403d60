/** `example_predicate` of process.py: does one of the repository's Gradle
    files mention the RoadRunner library? */
module Predicates {
  import opened Common

  /** The host's blob endpoint: a ref's `url` to the decoded file content. */
  type Blob = Json -> Result<seq<byte>>

  /** `bytes.lower()`: ASCII upper-case letters become lower-case, every
      other byte is kept. */
  function LowerByte(b: byte): byte {
    if 65 <= b <= 90 then b + 32 else b
  }

  function Lower(bs: seq<byte>): seq<byte> {
    seq(|bs|, i requires 0 <= i < |bs| => LowerByte(bs[i]))
  }

  /** The bytes of a string whose characters are all below 256. */
  function Bytes(s: string): seq<byte>
    requires forall i :: 0 <= i < |s| ==> s[i] as int < 256
  {
    seq(|s|, i requires 0 <= i < |s| => s[i] as int as byte)
  }

  /** `b"com.acmerobotics.roadrunner"` */
  const Marker: seq<byte> := Bytes("com.acmerobotics.roadrunner")

  /** `needle in hay` on bytes. */
  function Contains(hay: seq<byte>, needle: seq<byte>): bool
    decreases |hay|
  {
    if |hay| < |needle| then false
    else hay[..|needle|] == needle || Contains(hay[1..], needle)
  }

  /** `str.endswith` */
  predicate EndsWith(s: string, suffix: string) {
    |suffix| <= |s| && s[|s| - |suffix|..] == suffix
  }

  /** A ref the predicate fetches: its path is a string ending in `.gradle`. */
  predicate IsGradle(ref: Item) {
    "path" in ref && ref["path"].JStr? && EndsWith(ref["path"].s, ".gradle")
  }

  /** A fetched blob that mentions the marker, in any letter case. */
  predicate BlobMatches(b: Result<seq<byte>>) {
    b.Ok? && Contains(Lower(b.value), Marker)
  }

  /** What the scan returns or raises, and the urls it fetched, in order. */
  datatype Scan = Scan(outcome: Result<bool>, fetched: seq<Json>)

  /** The loop over `view.refs` (process.py:104-112): a Gradle ref's blob is
      fetched and searched; the first match returns true at once. */
  function ExamplePredicate(refs: seq<Item>, blob: Blob): (r: Scan)
    ensures |r.fetched| <= |refs|
    ensures r.outcome == Ok(true) ==> r.fetched != [] && BlobMatches(blob(r.fetched[|r.fetched| - 1]))
    ensures r.outcome.Err? && r.outcome.error.ApiError? ==> r.fetched != [] && blob(r.fetched[|r.fetched| - 1]).Err?
    decreases |refs|
  {
    if refs == [] then Scan(Ok(false), [])
    else
      var ref := refs[0];
      if "path" !in ref then Scan(Err(KeyError("path")), [])
      else if !ref["path"].JStr? then Scan(Err(AttributeError), [])
      else if !EndsWith(ref["path"].s, ".gradle") then ExamplePredicate(refs[1..], blob)
      else if "url" !in ref then Scan(Err(KeyError("url")), [])
      else
        var url := ref["url"];
        match blob(url)
        case Err(e) => Scan(Err(e), [url])
        case Ok(b) =>
          if Contains(Lower(b), Marker) then Scan(Ok(true), [url])
          else
            var rest := ExamplePredicate(refs[1..], blob);
            Scan(rest.outcome, [url] + rest.fetched)
  }

  /** The urls of the Gradle refs that have one, in order. */
  function GradleUrls(refs: seq<Item>): seq<Json> {
    if refs == [] then []
    else (if IsGradle(refs[0]) && "url" in refs[0] then [refs[0]["url"]] else []) + GradleUrls(refs[1..])
  }

  /** A ref whose blob the predicate accepts. */
  predicate GradleMatch(ref: Item, blob: Blob) {
    IsGradle(ref) && "url" in ref && BlobMatches(blob(ref["url"]))
  }

  /** Every ref has a string path, and every Gradle ref a url whose blob
      can be fetched: the scan cannot raise. */
  predicate Scannable(refs: seq<Item>, blob: Blob) {
    forall i :: 0 <= i < |refs| ==>
      "path" in refs[i] && refs[i]["path"].JStr? &&
      (IsGradle(refs[i]) ==> "url" in refs[i] && blob(refs[i]["url"]).Ok?)
  }

  // ---------------------------------------------------------------------
  // Properties
  // ---------------------------------------------------------------------

  /** `needle` occurs in `hay` starting at index `i`. */
  predicate OccursAt(hay: seq<byte>, needle: seq<byte>, i: int) {
    0 <= i <= |hay| - |needle| && hay[i..i + |needle|] == needle
  }

  /** `Contains` is substring search. */
  lemma {:induction false} ContainsIff(hay: seq<byte>, needle: seq<byte>)
    ensures Contains(hay, needle) <==> exists i :: OccursAt(hay, needle, i)
    decreases |hay|
  {
    if |hay| >= |needle| {
      if hay[..|needle|] == needle {
        assert OccursAt(hay, needle, 0);
      } else {
        ContainsIff(hay[1..], needle);
        forall i | OccursAt(hay[1..], needle, i)
          ensures OccursAt(hay, needle, i + 1)
        {
          assert hay[i + 1..i + 1 + |needle|] == hay[1..][i..i + |needle|];
        }
        forall i | OccursAt(hay, needle, i)
          ensures OccursAt(hay[1..], needle, i - 1)
        {
          assert i != 0;
          assert hay[i..i + |needle|] == hay[1..][i - 1..i - 1 + |needle|];
        }
      }
    }
  }

  /** Some window of `b` starting at `i`, lowered, is the marker. */
  predicate MarkerAt(b: seq<byte>, i: int) {
    0 <= i <= |b| - |Marker| && Lower(b[i..i + |Marker|]) == Marker
  }

  /** The marker is found regardless of letter case: a blob matches exactly
      when some window of it, lowered, is the marker. */
  lemma MarkerIgnoresCase(b: seq<byte>)
    ensures Contains(Lower(b), Marker) <==> exists i :: MarkerAt(b, i)
  {
    ContainsIff(Lower(b), Marker);
    forall i | 0 <= i <= |b| - |Marker|
      ensures OccursAt(Lower(b), Marker, i) <==> MarkerAt(b, i)
    {
      assert Lower(b)[i..i + |Marker|] == Lower(b[i..i + |Marker|]);
    }
  }

  /** Only Gradle refs are fetched, in ref order: the urls fetched are those
      of the Gradle refs among some prefix of the refs. */
  lemma {:induction false} FetchesOnlyGradleRefs(refs: seq<Item>, blob: Blob)
    ensures exists k :: 0 <= k <= |refs| && ExamplePredicate(refs, blob).fetched == GradleUrls(refs[..k])
    decreases |refs|
  {
    if refs == [] {
      assert refs[..0] == [];
    } else {
      var ref := refs[0];
      assert refs[..0] == [];
      assert refs[..1][1..] == [] && GradleUrls(refs[..1]) == (if IsGradle(ref) && "url" in ref then [ref["url"]] else []);
      FetchesOnlyGradleRefs(refs[1..], blob);
      var k :| 0 <= k <= |refs[1..]| && ExamplePredicate(refs[1..], blob).fetched == GradleUrls(refs[1..][..k]);
      assert refs[..k + 1][0] == ref && refs[..k + 1][1..] == refs[1..][..k];
    }
  }

  /** The scan stops at the first matching blob: every fetched blob but the
      last was fetched and did not match; when the result is true, the last
      one matched; when it is false, every Gradle ref was fetched. */
  lemma {:induction false} StopsAtFirstMatch(refs: seq<Item>, blob: Blob)
    ensures var s := ExamplePredicate(refs, blob);
            forall j :: 0 <= j < |s.fetched| - 1 ==> blob(s.fetched[j]).Ok? && !BlobMatches(blob(s.fetched[j]))
    ensures var s := ExamplePredicate(refs, blob);
            s.outcome == Ok(true) ==> s.fetched != [] && BlobMatches(blob(s.fetched[|s.fetched| - 1]))
    ensures var s := ExamplePredicate(refs, blob);
            s.outcome == Ok(false) ==>
              s.fetched == GradleUrls(refs) &&
              forall j :: 0 <= j < |s.fetched| ==> blob(s.fetched[j]).Ok? && !BlobMatches(blob(s.fetched[j]))
    decreases |refs|
  {
    if refs != [] {
      StopsAtFirstMatch(refs[1..], blob);
    }
  }

  /** When nothing can raise, the predicate is true exactly when some Gradle
      ref's blob mentions the marker. */
  lemma {:induction false} ExamplePredicateDecides(refs: seq<Item>, blob: Blob)
    requires Scannable(refs, blob)
    ensures ExamplePredicate(refs, blob).outcome ==
            Ok(exists i :: 0 <= i < |refs| && GradleMatch(refs[i], blob))
    decreases |refs|
  {
    if refs != [] {
      assert Scannable(refs[1..], blob) by {
        forall i | 0 <= i < |refs[1..]| ensures refs[1..][i] == refs[i + 1] { }
      }
      ExamplePredicateDecides(refs[1..], blob);
      if exists i :: 1 <= i < |refs| && GradleMatch(refs[i], blob) {
        var i :| 1 <= i < |refs| && GradleMatch(refs[i], blob);
        assert GradleMatch(refs[1..][i - 1], blob);
      }
    }
  }
}
