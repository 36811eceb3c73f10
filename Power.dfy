/**
  The shape of a NASA POWER point response as the pages read it:
  `{ properties: { parameter: { PRECTOTCORR: {date: number, ...}, GWETROOT: {...}, GWETPROF: {...} } } }`.
  A parameter object is a series of (date key, value) entries in the object's enumeration order.
*/
module Power {
  import opened Wrappers
  import opened Seqs

  datatype Entry = Entry(key: string, value: real)

  type Series = seq<Entry>

  /** `properties.parameter`; a parameter the body does not carry is `None`. */
  datatype Parameters = Parameters(prectotcorr: Option<Series>, gwetroot: Option<Series>, gwetprof: Option<Series>)

  /**
    The outcome of one `fetch`: the exchange failed with a message, the status was not ok,
    or a JSON body arrived whose `properties.parameter` may be missing.
  */
  datatype Response = FetchFailed(message: string) | HttpError(status: nat) | Body(parameter: Option<Parameters>)

  /** `Object.keys(series)`. */
  function Keys(s: Series): (ks: seq<string>)
    ensures |ks| == |s| && forall i :: 0 <= i < |s| ==> ks[i] == s[i].key
  {
    if s == [] then [] else [s[0].key] + Keys(s[1..])
  }

  /** `Object.values(series)`. */
  function Values(s: Series): (vs: seq<real>)
    ensures |vs| == |s| && forall i :: 0 <= i < |s| ==> vs[i] == s[i].value
  {
    if s == [] then [] else [s[0].value] + Values(s[1..])
  }

  lemma {:induction false} ValuesConcat(a: Series, b: Series)
    ensures Values(a + b) == Values(a) + Values(b)
  {
    if a == [] {
      assert a + b == b;
    } else {
      assert (a + b)[1..] == a[1..] + b;
      ValuesConcat(a[1..], b);
    }
  }

  /** Reordering the entries only reorders their values. */
  lemma {:induction false} ValuesPermutation(a: Series, b: Series)
    requires multiset(a) == multiset(b)
    ensures multiset(Values(a)) == multiset(Values(b))
    decreases |a|
  {
    if a == [] {
      assert |b| == |multiset(b)| == 0;
    } else {
      var n := |a| - 1;
      var j := PermutationSplit(a, b);
      ValuesPermutation(a[..n], b[..j] + b[j + 1..]);
      ValuesWithout(a, n);
      assert a[..n] + a[n + 1..] == a[..n];
      ValuesWithout(b, j);
    }
  }

  /** The values of `s` are those of `s` without its entry at `j`, plus that entry's value. */
  lemma ValuesWithout(s: Series, j: int)
    requires 0 <= j < |s|
    ensures multiset(Values(s)) == multiset(Values(s[..j] + s[j + 1..])) + multiset{s[j].value}
  {
    var vs, rest := Values(s), s[..j] + s[j + 1..];
    var ws := Values(rest);
    forall i | 0 <= i < |ws| ensures ws[i] == (vs[..j] + vs[j + 1..])[i] {
      if i < j {
        assert rest[i] == s[i];
      } else {
        assert rest[i] == s[i + 1];
      }
    }
    assert ws == vs[..j] + vs[j + 1..];
    MultisetWithout(vs, j);
  }

  /** `series[key]`: the value stored under `key`, `undefined` when there is none. */
  function Lookup(s: Series, key: string): (r: Option<real>)
    ensures r.None? <==> key !in Keys(s)
    ensures r.Some? ==> Entry(key, r.value) in s
  {
    if s == [] then None
    else if s[0].key == key then Some(s[0].value)
    else Lookup(s[1..], key)
  }

  /** A JavaScript object never holds the same key twice. */
  predicate DistinctKeys(s: Series) {
    forall i, j :: 0 <= i < j < |s| ==> s[i].key != s[j].key
  }

  /** With distinct keys, looking up an entry's key gives back that entry's value. */
  lemma {:induction false} LookupEntry(s: Series, i: nat)
    requires DistinctKeys(s) && i < |s|
    ensures Lookup(s, s[i].key) == Some(s[i].value)
  {
    if i > 0 {
      assert s[0].key != s[i].key;
      LookupEntry(s[1..], i - 1);
    }
  }
}
