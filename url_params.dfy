/** `URLSearchParams` as its list of name-value pairs, with the `get`, `has`,
    `set` and `delete` operations of the URLSearchParams class in section 6.2 of
    the WHATWG URL Standard (`set` replaces the first pair of that name and
    removes the others, or appends when there is none). */
module UrlParams {
  import opened Js
  import opened Seqs

  type Params = seq<(string, string)>

  /** `params.has(name)` */
  predicate Has(p: Params, name: string) {
    exists i :: 0 <= i < |p| && p[i].0 == name
  }

  /** `params.get(name)`: the value of the first pair with that name, or null. */
  function Get(p: Params, name: string): (r: Option<string>)
    ensures r.None? <==> !Has(p, name)
    ensures r.Some? ==> exists i :: FirstPair(p, name, i) && p[i].1 == r.value
  {
    if |p| == 0 then None
    else if p[0].0 == name then
      assert FirstPair(p, name, 0);
      Some(p[0].1)
    else
      var r := Get(p[1..], name);
      assert Has(p[1..], name) ==> Has(p, name) by {
        if Has(p[1..], name) {
          var i :| 0 <= i < |p[1..]| && p[1..][i].0 == name;
          assert p[i + 1].0 == name;
        }
      }
      assert r.Some? ==> exists i :: FirstPair(p, name, i) && p[i].1 == r.value by {
        if r.Some? {
          var i :| FirstPair(p[1..], name, i) && p[1..][i].1 == r.value;
          assert FirstPair(p, name, i + 1);
        }
      }
      r
  }

  /** The pair at index i is the first one with that name. */
  ghost predicate FirstPair(p: Params, name: string, i: int) {
    0 <= i < |p| && p[i].0 == name && forall j :: 0 <= j < i ==> p[j].0 != name
  }

  function NameIsNot(name: string): ((string, string)) -> bool {
    (q: (string, string)) => q.0 != name
  }

  /** `params.delete(name)`: every pair with that name is removed, the others keep their order. */
  function Delete(p: Params, name: string): (r: Params)
    ensures r == Filter(p, NameIsNot(name))
  {
    if |p| == 0 then []
    else if p[0].0 == name then Delete(p[1..], name)
    else [p[0]] + Delete(p[1..], name)
  }

  /** `params.set(name, value)`: the first pair of that name takes the value and the
      later ones are removed, or the pair is appended when the name is absent. */
  function Set(p: Params, name: string, value: string): (r: Params)
    ensures Has(p, name) ==> |r| <= |p|
    ensures !Has(p, name) ==> |r| == |p| + 1 && r[|p|] == (name, value)
    ensures Has(r, name)
    ensures forall i :: 0 <= i < |r| && r[i].0 == name ==> r[i].1 == value
  {
    if |p| == 0 then [(name, value)]
    else if p[0].0 == name then
      var r := [(name, value)] + Delete(p[1..], name);
      assert r[0].0 == name;
      r
    else
      var r := [p[0]] + Set(p[1..], name, value);
      assert Has(r, name) by {
        var i :| 0 <= i < |r[1..]| && r[1..][i].0 == name;
        assert r[i + 1].0 == name;
      }
      r
  }

  /** `set` keeps the pairs of every other name, in their order. */
  lemma {:induction false} SetKeepsOthers(p: Params, name: string, value: string)
    ensures Filter(Set(p, name, value), NameIsNot(name)) == Filter(p, NameIsNot(name))
  {
    if |p| > 0 {
      var r := Set(p, name, value);
      if p[0].0 == name {
        assert r[1..] == Delete(p[1..], name);
        FilterIdempotent(p[1..], NameIsNot(name));
      } else {
        assert r[1..] == Set(p[1..], name, value);
        SetKeepsOthers(p[1..], name, value);
      }
    }
  }

  /** When pair i is the first with the name, `set` puts the new pair at i, keeps
      everything before it, and removes the later pairs of that name. */
  lemma {:induction false} SetReplacesFirst(p: Params, name: string, value: string, i: int)
    requires FirstPair(p, name, i)
    ensures Set(p, name, value) == p[..i] + [(name, value)] + Delete(p[i + 1..], name)
  {
    if i == 0 {
      assert p[..0] + [(name, value)] == [(name, value)];
    } else {
      var t := p[1..];
      assert p[0].0 != name;
      assert FirstPair(t, name, i - 1);
      SetReplacesFirst(t, name, value, i - 1);
      var a, d := t[..i - 1], Delete(t[i..], name);
      assert Set(p, name, value) == [p[0]] + (a + [(name, value)] + d);
      assert [p[0]] + (a + [(name, value)] + d) == ([p[0]] + a) + [(name, value)] + d;
      assert [p[0]] + a == p[..i];
      assert t[i..] == p[i + 1..];
    }
  }

  /** The number of pairs with the given name. */
  function Count(p: Params, name: string): nat {
    if |p| == 0 then 0 else (if p[0].0 == name then 1 else 0) + Count(p[1..], name)
  }

  /** `has(name)` holds exactly when the name occurs at least once. */
  lemma {:induction false} HasCount(p: Params, name: string)
    ensures Has(p, name) <==> Count(p, name) > 0
  {
    if |p| > 0 {
      HasCount(p[1..], name);
      if p[0].0 != name {
        if Has(p, name) {
          var i :| 0 <= i < |p| && p[i].0 == name;
          assert p[1..][i - 1].0 == name;
        }
        if Has(p[1..], name) {
          var i :| 0 <= i < |p[1..]| && p[1..][i].0 == name;
          assert p[i + 1].0 == name;
        }
      }
    }
  }

  lemma {:induction false} DeleteRemoves(p: Params, name: string, other: string)
    ensures Get(Delete(p, name), name) == None
    ensures Count(Delete(p, name), name) == 0
    ensures other != name ==> Get(Delete(p, name), other) == Get(p, other)
    ensures other != name ==> Count(Delete(p, name), other) == Count(p, other)
  {
    if |p| > 0 {
      DeleteRemoves(p[1..], name, other);
    }
  }

  /** After `set`, `get` returns the new value and the name appears exactly once. */
  lemma {:induction false} SetGet(p: Params, name: string, value: string)
    ensures Get(Set(p, name, value), name) == Some(value)
    ensures Count(Set(p, name, value), name) == 1
  {
    if |p| > 0 {
      if p[0].0 == name {
        DeleteRemoves(p[1..], name, name);
      } else {
        SetGet(p[1..], name, value);
      }
    }
  }

  /** `set` leaves every other name's value and count as it was. */
  lemma {:induction false} SetOther(p: Params, name: string, value: string, other: string)
    requires other != name
    ensures Get(Set(p, name, value), other) == Get(p, other)
    ensures Count(Set(p, name, value), other) == Count(p, other)
  {
    if |p| > 0 {
      if p[0].0 == name {
        DeleteRemoves(p[1..], name, other);
      } else {
        SetOther(p[1..], name, value, other);
      }
    }
  }

  lemma {:induction false} DeleteAbsent(p: Params, name: string)
    requires !Has(p, name)
    ensures Delete(p, name) == p
  {
    if |p| > 0 {
      DeleteAbsent(p[1..], name);
      assert p[0].0 != name;
      assert p == [p[0]] + p[1..];
    }
  }

  /** Deleting a name that is not there changes nothing, so deleting twice is deleting once. */
  lemma DeleteIdempotent(p: Params, name: string)
    ensures Delete(Delete(p, name), name) == Delete(p, name)
  {
    DeleteRemoves(p, name, name);
    DeleteAbsent(Delete(p, name), name);
  }

  /** Setting the same value again changes nothing. */
  lemma {:induction false} SetIdempotent(p: Params, name: string, value: string)
    ensures Set(Set(p, name, value), name, value) == Set(p, name, value)
  {
    if |p| == 0 {
    } else if p[0].0 == name {
      DeleteRemoves(p[1..], name, name);
      DeleteAbsent(Delete(p[1..], name), name);
      var r := Set(p, name, value);
      assert r[1..] == Delete(p[1..], name);
    } else {
      SetIdempotent(p[1..], name, value);
      var r := Set(p, name, value);
      assert r[1..] == Set(p[1..], name, value);
    }
  }

  /** Setting a name that is not present appends one pair at the end. */
  lemma {:induction false} SetAppendsWhenAbsent(p: Params, name: string, value: string)
    requires !Has(p, name)
    ensures Set(p, name, value) == p + [(name, value)]
  {
    if |p| > 0 {
      SetAppendsWhenAbsent(p[1..], name, value);
      assert p[0].0 != name;
      assert p == [p[0]] + p[1..];
    }
  }
}
