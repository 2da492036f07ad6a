/** URLSearchParams as the client code uses it: an ordered list of key/value pairs. */
module SearchParams {
  import opened Wrappers

  type Params = seq<(string, string)>

  /** URLSearchParams.get: the first value appended under `key`, or null. */
  function Get(params: Params, key: string): Option<string>
    decreases |params|
  {
    if params == [] then None
    else if params[0].0 == key then Some(params[0].1)
    else Get(params[1..], key)
  }

  /**
   * get finds nothing exactly when no pair carries the key, and what it finds is the value of the
   * first pair that carries it.
   */
  lemma {:induction false} GetSpec(params: Params, key: string)
    ensures Get(params, key).None? <==> forall i :: 0 <= i < |params| ==> params[i].0 != key
    ensures Get(params, key).Some? ==>
      exists i :: 0 <= i < |params| && params[i] == (key, Get(params, key).value)
                  && forall j :: 0 <= j < i ==> params[j].0 != key
    decreases |params|
  {
    if params != [] && params[0].0 != key {
      GetSpec(params[1..], key);
      assert forall i :: 1 <= i < |params| ==> params[i] == params[1..][i - 1];
      if Get(params, key).Some? {
        var i :| 0 <= i < |params[1..]| && params[1..][i] == (key, Get(params, key).value)
                 && forall j :: 0 <= j < i ==> params[1..][j].0 != key;
        assert params[i + 1] == (key, Get(params, key).value);
        assert forall j :: 0 <= j < i + 1 ==> params[j].0 != key by {
          forall j | 0 <= j < i + 1
            ensures params[j].0 != key
          {
            if j > 0 {
              assert params[j] == params[1..][j - 1];
            }
          }
        }
      }
    }
  }

  /** The keys in append order. */
  function Keys(params: Params): (ks: seq<string>)
    ensures |ks| == |params|
    ensures forall i :: 0 <= i < |params| ==> ks[i] == params[i].0
  {
    seq(|params|, i requires 0 <= i < |params| => params[i].0)
  }

  /** `params.append(key, value)` when `cond` holds. */
  function AppendIf(params: Params, cond: bool, key: string, value: string): (r: Params)
    ensures cond ==> r == params + [(key, value)]
    ensures !cond ==> r == params
  {
    if cond then params + [(key, value)] else params
  }

  /** JavaScript truthiness of a string that may be null. */
  predicate Truthy(s: Option<string>)
  {
    s.Some? && s.value != ""
  }

  /** Every key occurs at most once. */
  predicate UniqueKeys(params: Params)
  {
    forall i, j :: 0 <= i < j < |params| ==> params[i].0 != params[j].0
  }
}
