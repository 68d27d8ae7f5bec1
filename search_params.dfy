/** The part of the URLSearchParams interface (section 6.2 of the WHATWG URL
    Standard) that the reset page relies on. A parameter list is taken as
    already parsed and percent-decoded: an ordered list of name/value pairs.
    `get` and `set` are modelled here; parsing and serialisation are not. */
module SearchParams {

  datatype Option<+T> = None | Some(value: T)

  /** An ordered list of decoded name/value pairs. */
  type Pairs = seq<(string, string)>

  /** A URL reduced to what the page builds: a fixed base and its query pairs. */
  datatype Url = Url(base: string, query: Pairs)

  /** JavaScript truthiness of a value that is a string or null:
      both null and the empty string are falsy. */
  predicate Truthy(v: Option<string>)
  {
    v.Some? && v.value != ""
  }

  /** The names of a parameter list, in order. */
  function Names(ps: Pairs): seq<string>
  {
    seq(|ps|, i requires 0 <= i < |ps| => ps[i].0)
  }

  /** `get(name)`: the value of the first pair whose name is `name`; null when
      no pair has that name. */
  function Get(ps: Pairs, name: string): (r: Option<string>)
    ensures r.None? <==> forall i :: 0 <= i < |ps| ==> ps[i].0 != name
  {
    if ps == [] then None
    else if ps[0].0 == name then Some(ps[0].1)
    else Get(ps[1..], name)
  }

  /** `get` returns the value of the earliest pair with the name, whatever
      later pairs with the same name hold. */
  lemma {:induction false} GetFirstOccurrence(ps: Pairs, name: string, i: nat)
    requires i < |ps| && ps[i].0 == name
    requires forall j :: 0 <= j < i ==> ps[j].0 != name
    ensures Get(ps, name) == Some(ps[i].1)
  {
    if i > 0 {
      GetFirstOccurrence(ps[1..], name, i - 1);
    }
  }

  /** Every pair named `name` removed, the others kept in order. */
  function RemoveAll(ps: Pairs, name: string): (r: Pairs)
    ensures forall i :: 0 <= i < |r| ==> r[i].0 != name
  {
    if ps == [] then []
    else if ps[0].0 == name then RemoveAll(ps[1..], name)
    else [ps[0]] + RemoveAll(ps[1..], name)
  }

  /** Removing one name leaves what `get` finds for every other name. */
  lemma {:induction false} RemoveAllKeepsOthers(ps: Pairs, name: string, other: string)
    requires other != name
    ensures Get(RemoveAll(ps, name), other) == Get(ps, other)
  {
    if ps != [] {
      RemoveAllKeepsOthers(ps[1..], name, other);
    }
  }

  /** `set(name, value)`: the first pair named `name` takes the new value and
      every later pair with that name is removed; when no pair has the name,
      the new pair is appended at the end. */
  function SetParam(ps: Pairs, name: string, value: string): (r: Pairs)
    ensures Get(r, name) == Some(value)
    ensures (forall i :: 0 <= i < |ps| ==> ps[i].0 != name) ==> r == ps + [(name, value)]
  {
    if ps == [] then [(name, value)]
    else if ps[0].0 == name then [(name, value)] + RemoveAll(ps[1..], name)
    else [ps[0]] + SetParam(ps[1..], name, value)
  }

  /** `set` leaves what `get` finds for every other name. */
  lemma {:induction false} SetParamKeepsOthers(ps: Pairs, name: string, value: string, other: string)
    requires other != name
    ensures Get(SetParam(ps, name, value), other) == Get(ps, other)
  {
    if ps != [] {
      if ps[0].0 == name {
        RemoveAllKeepsOthers(ps[1..], name, other);
      } else {
        SetParamKeepsOthers(ps[1..], name, value, other);
      }
    }
  }
}
