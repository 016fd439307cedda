/** The `useQueryState` hook (src/utils/useQueryState.js): a value bound to one
    search parameter of the current URL, with mount-time defaulting of the
    catalog's `sort`, `search` and `page` parameters. */
module QueryState {
  import opened Js
  import opened UrlParams

  /** The search parameters of the current location, shared by every hook instance. */
  class Location {
    var params: Params

    constructor (params: Params)
      ensures this.params == params
    {
      this.params := params;
    }
  }

  /** `searchParams.get(key) ?? initial` */
  function InitialValue(params: Params, key: string, initial: string): (v: string)
    ensures !Has(params, key) ==> v == initial
    ensures Has(params, key) ==> Some(v) == Get(params, key)
  {
    Get(params, key).GetOr(initial)
  }

  /** Adds `name=value` only when the name is missing. */
  function SetIfAbsent(p: Params, name: string, value: string): (r: Params)
    ensures Has(r, name)
    ensures Has(p, name) ==> r == p
    ensures !Has(p, name) ==> r == p + [(name, value)]
  {
    if Has(p, name) then p
    else
      SetAppendsWhenAbsent(p, name, value);
      Set(p, name, value)
  }

  /** What the mount effect computes: `sort`, `search` and `page` filled in when missing. */
  function WithDefaults(p: Params): (r: Params)
    ensures Complete(r)
    ensures Complete(p) ==> r == p
  {
    var withSort := SetIfAbsent(p, "sort", "newest");
    var withSearch := SetIfAbsent(withSort, "search", "");
    SetIfAbsentGet(withSort, "search", "", "sort");
    SetIfAbsentGet(withSearch, "page", "1", "sort");
    SetIfAbsentGet(withSearch, "page", "1", "search");
    SetIfAbsent(withSearch, "page", "1")
  }

  predicate Complete(p: Params) {
    Has(p, "sort") && Has(p, "search") && Has(p, "page")
  }

  /** Adding a missing name leaves every other name's value alone. */
  lemma SetIfAbsentGet(p: Params, name: string, value: string, other: string)
    ensures Get(SetIfAbsent(p, name, value), name) == if Has(p, name) then Get(p, name) else Some(value)
    ensures other != name ==> Get(SetIfAbsent(p, name, value), other) == Get(p, other)
  {
    if !Has(p, name) {
      SetGet(p, name, value);
      if other != name {
        SetOther(p, name, value, other);
      }
    }
  }

  /** After defaulting all three names are present: a present one keeps its value,
      a missing one gets its default, and every other parameter is unchanged. */
  lemma WithDefaultsGet(p: Params, other: string)
    ensures Complete(WithDefaults(p))
    ensures Get(WithDefaults(p), "sort") == if Has(p, "sort") then Get(p, "sort") else Some("newest")
    ensures Get(WithDefaults(p), "search") == if Has(p, "search") then Get(p, "search") else Some("")
    ensures Get(WithDefaults(p), "page") == if Has(p, "page") then Get(p, "page") else Some("1")
    ensures other != "sort" && other != "search" && other != "page" ==> Get(WithDefaults(p), other) == Get(p, other)
  {
    var p1 := SetIfAbsent(p, "sort", "newest");
    var p2 := SetIfAbsent(p1, "search", "");
    SetIfAbsentGet(p, "sort", "newest", other);
    SetIfAbsentGet(p, "sort", "newest", "search");
    SetIfAbsentGet(p, "sort", "newest", "page");
    SetIfAbsentGet(p1, "search", "", other);
    SetIfAbsentGet(p1, "search", "", "sort");
    SetIfAbsentGet(p1, "search", "", "page");
    SetIfAbsentGet(p2, "page", "1", other);
    SetIfAbsentGet(p2, "page", "1", "sort");
    SetIfAbsentGet(p2, "page", "1", "search");
  }

  /** Defaulting parameters that are already complete changes nothing. */
  lemma WithDefaultsOfComplete(p: Params)
    requires Complete(p)
    ensures WithDefaults(p) == p
  {
  }

  /** Defaulting twice gives the same parameters as defaulting once. */
  lemma WithDefaultsIdempotent(p: Params)
    ensures WithDefaults(WithDefaults(p)) == WithDefaults(p)
  {
    WithDefaultsGet(p, "");
    WithDefaultsOfComplete(WithDefaults(p));
  }

  /** The mount effect's body: the copy of the rendered parameters, filled in step by
      step, and whether any default was added. */
  method Defaults(searchParams: Params) returns (newParams: Params, changed: bool)
    ensures newParams == WithDefaults(searchParams)
    ensures changed <==> !Complete(searchParams)
  {
    newParams := searchParams;
    changed := false;
    if !Has(newParams, "sort") {
      newParams := Set(newParams, "sort", "newest");
      changed := true;
    }
    SetIfAbsentGet(searchParams, "sort", "newest", "search");
    if !Has(newParams, "search") {
      newParams := Set(newParams, "search", "");
      changed := true;
    }
    SetIfAbsentGet(searchParams, "sort", "newest", "page");
    SetIfAbsentGet(SetIfAbsent(searchParams, "sort", "newest"), "search", "", "page");
    if !Has(newParams, "page") {
      newParams := Set(newParams, "page", "1");
      changed := true;
    }
  }

  /** One `useQueryState(key, initial, [searchParams, setSearchParams])` instance. */
  class QueryParam {
    const key: string
    const location: Location
    var value: string

    /** The first render: the state starts from the URL, or from `initial`. */
    constructor (key: string, initial: string, location: Location)
      ensures this.key == key && this.location == location
      ensures value == InitialValue(location.params, key, initial)
    {
      this.key := key;
      this.location := location;
      value := InitialValue(location.params, key, initial);
    }

    /** The mount effect. It sees the parameters of the first render (`rendered`)
        and calls the setter only when a default was added. */
    method MountDefaults(rendered: Params)
      modifies location
      ensures location.params == if Complete(rendered) then old(location.params) else WithDefaults(rendered)
    {
      var newParams, changed := Defaults(rendered);
      if changed {
        location.params := newParams;
      }
    }

    /** `setValue(next)`: `null`/`undefined` (None) deletes the parameter, anything
        else sets it; other parameters are kept, and the local value becomes `next ?? ""`. */
    method SetValue(next: Option<string>)
      modifies this, location
      ensures location.params == if next.None? then Delete(old(location.params), key)
                                 else Set(old(location.params), key, next.value)
      ensures Get(location.params, key) == next
      ensures forall other :: other != key ==> Get(location.params, other) == Get(old(location.params), other)
      ensures value == next.GetOr("")
    {
      var prev := location.params;
      forall other | other != key
        ensures (if next.None? then Get(Delete(prev, key), other) else Get(Set(prev, key, next.value), other)) == Get(prev, other)
      {
        if next.None? {
          DeleteRemoves(prev, key, other);
        } else {
          SetOther(prev, key, next.value, other);
        }
      }
      if next.None? {
        DeleteRemoves(prev, key, key);
        location.params := Delete(prev, key);
      } else {
        SetGet(prev, key, next.value);
        location.params := Set(prev, key, next.value);
      }
      value := next.GetOr("");
    }
  }
}
