/** The dictionary projection `keep` of process.py. */
module Dicts {

  /** `{k: d[k] for k in keys if k in d}`: the entries of `d` whose keys are
      listed; listed keys that `d` lacks are skipped rather than raising. */
  function Keep<V>(d: map<string, V>, keys: seq<string>): (r: map<string, V>)
    ensures forall k :: k in r <==> k in keys && k in d
    ensures forall k :: k in r ==> r[k] == d[k]
  {
    map k | k in keys && k in d :: d[k]
  }

  /** Projecting twice onto the same keys changes nothing the second time. */
  lemma KeepIdempotent<V>(d: map<string, V>, keys: seq<string>)
    ensures Keep(Keep(d, keys), keys) == Keep(d, keys)
  {
    var once := Keep(d, keys);
    assert Keep(once, keys).Keys == once.Keys;
  }

  /** Projecting onto `a` and then onto `b` keeps exactly the keys in both. */
  lemma KeepTwice<V>(d: map<string, V>, a: seq<string>, b: seq<string>)
    ensures forall k :: k in Keep(Keep(d, a), b) <==> k in d && k in a && k in b
    ensures Keep(Keep(d, a), b) == Keep(Keep(d, b), a)
  {
    var ab, ba := Keep(Keep(d, a), b), Keep(Keep(d, b), a);
    assert ab.Keys == ba.Keys;
  }
}
