/**
 * The query string of a URL as the WHATWG `URLSearchParams` object sees it:
 * an ordered list of name/value pairs in which a name may repeat.
 * Percent-encoding is not modelled; names and values are the decoded strings.
 */
module SearchParams {
  import opened Wrappers

  datatype Param = Param(name: string, value: string)

  /** `URLSearchParams.get`: the value of the first pair with this name, if any. */
  function Get(params: seq<Param>, name: string): Option<string> {
    if params == [] then None
    else if params[0].name == name then Some(params[0].value)
    else Get(params[1..], name)
  }

  /** `get` finds a value exactly when some pair has the name, and the value is that of the first such pair. */
  lemma {:induction false} GetFindsFirst(params: seq<Param>, name: string)
    ensures Get(params, name).None? <==> forall i :: 0 <= i < |params| ==> params[i].name != name
    ensures Get(params, name).Some? ==>
      exists i :: 0 <= i < |params| && params[i] == Param(name, Get(params, name).value)
        && forall j :: 0 <= j < i ==> params[j].name != name
  {
    if params != [] && params[0].name != name {
      GetFindsFirst(params[1..], name);
      if Get(params, name).Some? {
        var i :| 0 <= i < |params[1..]| && params[1..][i] == Param(name, Get(params, name).value)
          && forall j :: 0 <= j < i ==> params[1..][j].name != name;
        assert params[i + 1] == Param(name, Get(params, name).value);
      }
    }
  }

  /** Every pair except those with this name, in their original order. */
  function RemoveAll(params: seq<Param>, name: string): (r: seq<Param>)
    ensures forall p :: p in r <==> p in params && p.name != name
    ensures forall other :: other != name ==> Get(r, other) == Get(params, other)
    ensures |r| <= |params|
  {
    if params == [] then []
    else if params[0].name == name then RemoveAll(params[1..], name)
    else [params[0]] + RemoveAll(params[1..], name)
  }

  /**
   * `URLSearchParams.set`: the first pair with this name takes the new value
   * and every later pair with the name is removed; with no such pair, the
   * pair is appended.
   */
  function Set(params: seq<Param>, name: string, value: string): (r: seq<Param>)
    ensures Get(params, name).None? ==> r == params + [Param(name, value)]
    ensures |r| <= |params| + 1
  {
    if params == [] then [Param(name, value)]
    else if params[0].name == name then [Param(name, value)] + RemoveAll(params[1..], name)
    else [params[0]] + Set(params[1..], name, value)
  }

  /** After `set`, `get` of that name sees the new value and `get` of any other name is unchanged. */
  lemma {:induction false} GetAfterSet(params: seq<Param>, name: string, value: string, other: string)
    ensures Get(Set(params, name, value), name) == Some(value)
    ensures other != name ==> Get(Set(params, name, value), other) == Get(params, other)
  {
    if params != [] && params[0].name != name {
      GetAfterSet(params[1..], name, value, other);
    }
  }

  /** No name occurs twice. */
  predicate DistinctNames(params: seq<Param>) {
    forall i, j :: 0 <= i < j < |params| ==> params[i].name != params[j].name
  }

  /** With distinct names, `get` of each pair's name returns that pair's value. */
  lemma {:induction false} GetDistinct(params: seq<Param>, i: nat)
    requires DistinctNames(params) && i < |params|
    ensures Get(params, params[i].name) == Some(params[i].value)
  {
    if i > 0 {
      GetDistinct(params[1..], i - 1);
    }
  }
}
