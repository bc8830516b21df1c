/**
 * The part of `URLSearchParams` the frontends use: `get` returns the first value of a
 * name (or `null`), `delete` removes every pair with that name.
 */
module QueryParams {
  import opened Wrappers

  type Params = seq<(string, string)>

  /** `params.get(name)`; `None` stands for `null`. */
  function Get(params: Params, name: string): (r: Option<string>)
    ensures r.None? <==> forall i :: 0 <= i < |params| ==> params[i].0 != name
    ensures r.Some? ==> exists i :: 0 <= i < |params| && params[i] == (name, r.value) &&
                                    forall j :: 0 <= j < i ==> params[j].0 != name
  {
    if params == [] then None
    else if params[0].0 == name then Some(params[0].1)
    else
      var r := Get(params[1..], name);
      assert forall i :: 0 < i < |params| ==> params[i] == params[1..][i - 1];
      r
  }

  /** `params.delete(name)`: the other pairs, in their order. */
  function Delete(params: Params, name: string): (r: Params)
    ensures forall i :: 0 <= i < |r| ==> r[i].0 != name
    ensures forall p :: p in r <==> p in params && p.0 != name
  {
    if params == [] then []
    else if params[0].0 == name then Delete(params[1..], name)
    else [params[0]] + Delete(params[1..], name)
  }

  /** After `delete(name)`, `get(name)` is `null`. */
  lemma GetDeleted(params: Params, name: string)
    ensures Get(Delete(params, name), name) == None
  {
  }

  /** Deleting one name leaves `get` of every other name as it was. */
  lemma {:induction false} GetOtherAfterDelete(params: Params, name: string, other: string)
    requires other != name
    ensures Get(Delete(params, name), other) == Get(params, other)
  {
    if params != [] {
      GetOtherAfterDelete(params[1..], name, other);
    }
  }
}
