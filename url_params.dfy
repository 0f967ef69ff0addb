/** Query parameters as `URLSearchParams` holds them: key/value pairs in insertion order.
    Percent-encoding is not part of this model. */
module UrlParams {
  import opened Wrappers
  import opened Seqs

  type Params = seq<(string, string)>

  /** `params.get(key)`: the value of the first pair with that key, or `null`. */
  function Get(query: Params, key: string): (r: Option<string>)
    ensures r.Some? <==> exists kv :: kv in query && kv.0 == key
    ensures r.Some? ==> (key, r.value) in query
  {
    if query == [] then None
    else if query[0].0 == key then Some(query[0].1)
    else Get(query[1..], key)
  }

  /** The value of the first pair carrying `key`. */
  lemma {:induction false} GetAt(q: Params, key: string, i: nat)
    requires i < |q| && q[i].0 == key
    requires forall j :: 0 <= j < i ==> q[j].0 != key
    ensures Get(q, key) == Some(q[i].1)
  {
    if i > 0 {
      assert q[0].0 != key;
      GetAt(q[1..], key, i - 1);
    }
  }

  /** A pair written only when `present` holds. */
  function Entry(present: bool, key: string, value: string): Params {
    if present then [(key, value)] else []
  }

  /** Reading back three optional pairs with distinct keys: each key gives its value when it was
      written and nothing otherwise. */
  lemma GetFromEntries(a: Params, b: Params, c: Params, p1: bool, k1: string, v1: string,
                       p2: bool, k2: string, v2: string, p3: bool, k3: string, v3: string)
    requires a == Entry(p1, k1, v1) && b == Entry(p2, k2, v2) && c == Entry(p3, k3, v3)
    requires k1 != k2 && k1 != k3 && k2 != k3
    ensures Get(a + b + c, k1) == (if p1 then Some(v1) else None)
    ensures Get(a + b + c, k2) == (if p2 then Some(v2) else None)
    ensures Get(a + b + c, k3) == (if p3 then Some(v3) else None)
  {
    GetEntry(a, b, c, 0, p1, k1, v1);
    GetEntry(a, b, c, 1, p2, k2, v2);
    GetEntry(a, b, c, 2, p3, k3, v3);
  }

  /** Among three groups of pairs, the group at `which` holds the pair written when `present`
      holds and the other two hold no pair with that key: `Get` finds the written value. */
  lemma GetEntry(a: Params, b: Params, c: Params, which: nat, present: bool, key: string, value: string)
    requires which < 3
    requires [a, b, c][which] == Entry(present, key, value)
    requires forall i, kv :: 0 <= i < 3 && i != which && kv in [a, b, c][i] ==> kv.0 != key
    ensures Get(a + b + c, key) == (if present then Some(value) else None)
  {
    var q := a + b + c;
    var before := if which == 0 then 0 else if which == 1 then |a| else |a| + |b|;
    if present {
      forall j | 0 <= j < before ensures q[j].0 != key {
        if j < |a| {
          assert q[j] == a[j] && a[j] in [a, b, c][0];
        } else {
          assert q[j] == b[j - |a|] && b[j - |a|] in [a, b, c][1];
        }
      }
      GetAt(q, key, before);
    } else {
      forall kv | kv in q ensures kv.0 != key {
        assert kv in [a, b, c][0] || kv in [a, b, c][1] || kv in [a, b, c][2];
      }
    }
  }
}
