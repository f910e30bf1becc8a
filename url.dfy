/** Query strings as the pages read them through `URLSearchParams`: an ordered
    list of key/value pairs, where `get` answers the first value for a key. */
module Url {
  import opened Wrappers

  type Params = seq<(string, string)>

  /** `params.get(key)`: the value of the first pair with this key, `null` as `None`. */
  function ParamGet(params: Params, key: string): (r: Option<string>)
    ensures r.None? <==> forall i | 0 <= i < |params| :: params[i].0 != key
    ensures r.Some? ==> exists i | 0 <= i < |params| ::
              params[i] == (key, r.value) && forall j | 0 <= j < i :: params[j].0 != key
  {
    if params == [] then None
    else if params[0].0 == key then Some(params[0].1)
    else
      var r := ParamGet(params[1..], key);
      FirstPairShift(params, key, r);
      r
  }

  lemma FirstPairShift(params: Params, key: string, r: Option<string>)
    requires params != [] && params[0].0 != key
    requires r.Some? ==> exists i | 0 <= i < |params[1..]| ::
               params[1..][i] == (key, r.value) && forall j | 0 <= j < i :: params[1..][j].0 != key
    ensures r.Some? ==> exists i | 0 <= i < |params| ::
              params[i] == (key, r.value) && forall j | 0 <= j < i :: params[j].0 != key
  {
    if r.Some? {
      var i :| 0 <= i < |params[1..]| && params[1..][i] == (key, r.value)
               && forall j | 0 <= j < i :: params[1..][j].0 != key;
      assert params[i + 1] == (key, r.value);
      assert forall j | 1 <= j < i + 1 :: params[j] == params[1..][j - 1];
    }
  }

  /** JavaScript truthiness of a string that may be `null`: present and non-empty. */
  predicate Truthy(s: Option<string>) {
    s.Some? && s.value != ""
  }

  /** `s || fallback`: the value when it is truthy, otherwise the fallback. */
  function OrDefault(s: Option<string>, fallback: string): (r: string)
    ensures Truthy(s) ==> r == s.value
    ensures !Truthy(s) ==> r == fallback
  {
    if Truthy(s) then s.value else fallback
  }
}
