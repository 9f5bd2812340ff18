/**
 * A query string as the browser's URLSearchParams object holds it: an ordered
 * list of key/value pairs. The percent-encoding of `toString` is not modelled;
 * numbers are kept as integers because their decimal rendering is not either.
 */
module SearchParams {
  import opened Wrappers

  datatype Value = Num(n: int) | Text(s: string)

  datatype Param = Param(key: string, value: Value)

  type Params = seq<Param>

  /** A GET request: an API path and its query. */
  datatype Request = Request(path: string, query: Params)

  /** The keys of a query, in order. */
  function Keys(q: Params): seq<string> {
    seq(|q|, i requires 0 <= i < |q| => q[i].key)
  }

  /** The keys of a non-empty query: its first key, then the keys of the rest. */
  lemma KeysUncons(q: Params)
    requires q != []
    ensures Keys(q) == [q[0].key] + Keys(q[1..])
  {
  }

  /** No key occurs twice. */
  predicate Distinct(ks: seq<string>) {
    forall i, j :: 0 <= i < j < |ks| ==> ks[i] != ks[j]
  }

  /** `a` can be obtained from `b` by dropping elements (greedy matching). */
  predicate IsSubsequence(a: seq<string>, b: seq<string>)
    decreases |b|
  {
    if a == [] then true
    else if b == [] then false
    else if a[0] == b[0] then IsSubsequence(a[1..], b[1..])
    else IsSubsequence(a, b[1..])
  }

  /** `params.get(k)`: the value of the first pair whose key is `k`. */
  function Get(q: Params, k: string): (r: Option<Value>)
    ensures r.None? <==> k !in Keys(q)
  {
    if q == [] then None
    else
      KeysUncons(q);
      if q[0].key == k then Some(q[0].value) else Get(q[1..], k)
  }

  /** `params.delete(k)`: every pair whose key is `k` is dropped, the rest keep their order. */
  function Remove(q: Params, k: string): (r: Params)
    ensures k !in Keys(r)
  {
    if q == [] then []
    else if q[0].key == k then Remove(q[1..], k)
    else
      GetCons(q[0], Remove(q[1..], k));
      [q[0]] + Remove(q[1..], k)
  }

  /**
   * `params.set(k, v)`: the first pair with key `k` takes the value `v` and the
   * later ones are dropped; when there is none, the pair is appended.
   */
  function Set(q: Params, k: string, v: Value): (r: Params)
    ensures Get(r, k) == Some(v)
  {
    if q == [] then [Param(k, v)]
    else if q[0].key == k then [Param(k, v)] + Remove(q[1..], k)
    else [q[0]] + Set(q[1..], k, v)
  }

  /** Deleting one key leaves the answers for every other key as they were. */
  lemma {:induction false} RemoveFrame(q: Params, k: string, j: string)
    requires j != k
    ensures Get(Remove(q, k), j) == Get(q, j)
  {
    if q != [] {
      RemoveFrame(q[1..], k, j);
      if q[0].key != k {
        GetCons(q[0], Remove(q[1..], k));
      }
    }
  }

  /** Setting one key leaves the answers for every other key as they were. */
  lemma {:induction false} SetFrame(q: Params, k: string, v: Value, j: string)
    requires j != k
    ensures Get(Set(q, k, v), j) == Get(q, j)
  {
    if q == [] {
      GetCons(Param(k, v), []);
    } else if q[0].key == k {
      var rest := Remove(q[1..], k);
      GetCons(Param(k, v), rest);
      RemoveFrame(q[1..], k, j);
    } else {
      SetFrame(q[1..], k, v, j);
      GetCons(q[0], Set(q[1..], k, v));
    }
  }

  /** Setting a key the query does not hold appends it. */
  lemma {:induction false} SetAbsent(q: Params, k: string, v: Value)
    requires k !in Keys(q)
    ensures Set(q, k, v) == q + [Param(k, v)]
  {
    if q != [] {
      assert Keys(q)[0] == q[0].key;
      assert Keys(q[1..]) == Keys(q)[1..];
      SetAbsent(q[1..], k, v);
      assert q == [q[0]] + q[1..];
    }
  }

  /** Setting a key twice keeps only the second value, in the place of the first. */
  lemma {:induction false} SetTwice(q: Params, k: string, v: Value, w: Value)
    ensures Set(Set(q, k, v), k, w) == Set(q, k, w)
  {
    if q == [] {
      assert Set([Param(k, v)], k, w) == [Param(k, w)] + Remove([], k);
    } else if q[0].key == k {
      var rest := Remove(q[1..], k);
      assert ([Param(k, v)] + rest)[1..] == rest;
      RemoveAbsent(rest, k);
    } else {
      SetTwice(q[1..], k, v, w);
      assert ([q[0]] + Set(q[1..], k, v))[1..] == Set(q[1..], k, v);
    }
  }

  /** Deleting a key that does not occur changes nothing. */
  lemma {:induction false} RemoveAbsent(q: Params, k: string)
    requires k !in Keys(q)
    ensures Remove(q, k) == q
  {
    if q != [] {
      assert Keys(q)[0] == q[0].key;
      assert Keys(q[1..]) == Keys(q)[1..];
      RemoveAbsent(q[1..], k);
    }
  }

  /** A leading pair answers only for its own key, and adds only its own key. */
  lemma GetCons(p: Param, q: Params)
    ensures Get([p] + q, p.key) == Some(p.value)
    ensures forall j :: j != p.key ==> Get([p] + q, j) == Get(q, j)
    ensures Keys([p] + q) == [p.key] + Keys(q)
  {
    assert ([p] + q)[1..] == q;
  }

  /** A key that does not occur in a query of distinct keys keeps them distinct. */
  lemma DistinctCons(k: string, ks: seq<string>)
    requires k !in ks && Distinct(ks)
    ensures Distinct([k] + ks)
  {
    forall i, j | 0 <= i < j < |[k] + ks| ensures ([k] + ks)[i] != ([k] + ks)[j] {
      if i > 0 {
        assert ([k] + ks)[i] == ks[i - 1] && ([k] + ks)[j] == ks[j - 1];
      } else {
        assert ([k] + ks)[j] == ks[j - 1];
      }
    }
  }

  /** The keys of two queries one after the other. */
  lemma KeysAppend(a: Params, b: Params)
    ensures Keys(a + b) == Keys(a) + Keys(b)
  {
  }

  /** Concatenation regrouped. */
  lemma AppendAssoc(a: Params, b: Params, c: Params)
    ensures (a + b) + c == a + (b + c)
  {
  }

  /** The head of a distinct list is not in its tail, and the tail is distinct. */
  lemma DistinctUncons(k: string, ks: seq<string>)
    requires Distinct([k] + ks)
    ensures k !in ks && Distinct(ks)
  {
    var s := [k] + ks;
    forall i | 0 <= i < |ks| ensures ks[i] != k {
      assert ks[i] == s[i + 1] && k == s[0];
    }
    forall i, j | 0 <= i < j < |ks| ensures ks[i] != ks[j] {
      assert ks[i] == s[i + 1] && ks[j] == s[j + 1];
    }
  }
}
