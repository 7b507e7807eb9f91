/** The helpers of the data layer: dict merging and in-place updating, the
    filter allow-list, sort arguments, renaming relationship fields to their
    local id fields, turning an ORM instance into a response dict, and
    sanitising the values copied out of it.

    The Eve settings the helpers read (`config.DOMAIN`, `config.ETAG`, ...)
    are parameters. */
module Utils {
  import opened Common
  import opened Parser

  // ---------------------------------------------------------------------
  // merge_dicts

  /** `d.update(u)`: every pair of `u`, in order, stored into `d`. */
  function Update(d: seq<Entry>, u: seq<Entry>): seq<Entry>
    decreases |u|
  {
    if u == [] then d else Update(Put(d, u[0].0, u[0].1), u[1..])
  }

  /** After `d.update(u)` a key of `u` holds `u`'s value and any other key its old one. */
  lemma {:induction false} UpdateGet(d: seq<Entry>, u: seq<Entry>, k: string)
    requires DistinctKeys(u)
    ensures Get(Update(d, u), k) == if HasKey(u, k) then Get(u, k) else Get(d, k)
    decreases |u|
  {
    if u != [] {
      DistinctKeysTail(u);
      assert Keys(u) == [u[0].0] + Keys(u[1..]);
      UpdateGet(Put(d, u[0].0, u[0].1), u[1..], k);
    }
  }

  lemma {:induction false} UpdateDistinct(d: seq<Entry>, u: seq<Entry>)
    requires DistinctKeys(d)
    ensures DistinctKeys(Update(d, u))
    decreases |u|
  {
    if u != [] {
      PutDistinct(d, u[0].0, u[0].1);
      UpdateDistinct(Put(d, u[0].0, u[0].1), u[1..]);
    }
  }

  /** The value of `k` in the last of `dicts` that holds `k`. */
  function LastWith(dicts: seq<seq<Entry>>, k: string): (r: Option<Value>)
    ensures r.Some? <==> exists i :: 0 <= i < |dicts| && HasKey(dicts[i], k)
  {
    if dicts == [] then None
    else if HasKey(dicts[|dicts| - 1], k) then Get(dicts[|dicts| - 1], k)
    else
      var r := LastWith(dicts[..|dicts| - 1], k);
      assert forall i :: 0 <= i < |dicts| - 1 ==> dicts[..|dicts| - 1][i] == dicts[i];
      r
  }

  /** One round of the loop of `merge_dicts`. */
  lemma MergeStep(result: seq<Entry>, dicts: seq<seq<Entry>>, i: nat)
    requires i < |dicts| && DistinctKeys(dicts[i])
    requires forall k :: Get(result, k) == LastWith(dicts[..i], k)
    ensures forall k :: Get(Update(result, dicts[i]), k) == LastWith(dicts[..i + 1], k)
  {
    assert dicts[..i + 1][..i] == dicts[..i];
    forall k
      ensures Get(Update(result, dicts[i]), k) == LastWith(dicts[..i + 1], k)
    {
      UpdateGet(result, dicts[i], k);
    }
  }

  /** `merge_dicts(*dicts)`: a fresh dict updated with each argument in turn.
      Its keys are the union of the arguments' keys and each value comes from
      the last argument holding the key. */
  method MergeDicts(dicts: seq<seq<Entry>>) returns (result: seq<Entry>)
    requires forall i :: 0 <= i < |dicts| ==> DistinctKeys(dicts[i])
    ensures DistinctKeys(result)
    ensures forall k :: Get(result, k) == LastWith(dicts, k)
    ensures forall k :: HasKey(result, k) <==> exists i :: 0 <= i < |dicts| && HasKey(dicts[i], k)
  {
    result := [];
    for i := 0 to |dicts|
      invariant DistinctKeys(result)
      invariant forall k :: Get(result, k) == LastWith(dicts[..i], k)
    {
      MergeStep(result, dicts, i);
      UpdateDistinct(result, dicts[i]);
      result := Update(result, dicts[i]);
    }
    assert dicts[..|dicts|] == dicts;
    forall k
      ensures HasKey(result, k) <==> exists i :: 0 <= i < |dicts| && HasKey(dicts[i], k)
    {
      assert Get(result, k) == LastWith(dicts, k);
    }
  }

  // ---------------------------------------------------------------------
  // dict_update and remove_none_values: a dict changed in place

  /** A Python dict object, changed in place by `dict_update` and
      `remove_none_values`. */
  class PyDict {
    var entries: seq<Entry>

    constructor (es: seq<Entry>)
      ensures entries == es
    {
      entries := es;
    }
  }

  /** `dict_update(d, u)` on the entries of `d`: for each pair (k, v) of `u`,
      recurse when both `v` and `d[k]` are mappings, store `v` when `k` is
      new, and keep `d[k]` otherwise. */
  function DictUpdated(d: seq<Entry>, u: seq<Entry>): seq<Entry>
    decreases EntriesSize(u)
  {
    if u == [] then d
    else
      var k, v := u[0].0, u[0].1;
      var cur := Get(d, k);
      var d1 :=
        if v.Dict? && cur.Some? && cur.value.Dict? then
          DictSize(v.entries);
          Put(d, k, Dict(DictUpdated(cur.value.entries, v.entries)))
        else if cur.None? then Put(d, k, v)
        else d;
      DictUpdated(d1, u[1..])
  }

  /** Per key: a key of `d` keeps its value unless both values are mappings,
      which are merged recursively; a key only in `u` takes `u`'s value; a key
      only in `d` is untouched. */
  lemma {:induction false} DictUpdateGet(d: seq<Entry>, u: seq<Entry>, k: string)
    requires DistinctKeys(u)
    ensures var r := Get(DictUpdated(d, u), k);
      && (!HasKey(u, k) ==> r == Get(d, k))
      && (HasKey(u, k) && !HasKey(d, k) ==> r == Get(u, k))
      && (HasKey(u, k) && HasKey(d, k) && !(Get(u, k).value.Dict? && Get(d, k).value.Dict?)
          ==> r == Get(d, k))
      && (HasKey(u, k) && HasKey(d, k) && Get(u, k).value.Dict? && Get(d, k).value.Dict?
          ==> r == Some(Dict(DictUpdated(Get(d, k).value.entries, Get(u, k).value.entries))))
    decreases |u|
  {
    if u != [] {
      DistinctKeysTail(u);
      assert Keys(u) == [u[0].0] + Keys(u[1..]);
      var k0, v0 := u[0].0, u[0].1;
      var cur := Get(d, k0);
      var d1 :=
        if v0.Dict? && cur.Some? && cur.value.Dict? then
          DictSize(v0.entries);
          Put(d, k0, Dict(DictUpdated(cur.value.entries, v0.entries)))
        else if cur.None? then Put(d, k0, v0)
        else d;
      assert DictUpdated(d, u) == DictUpdated(d1, u[1..]);
      DictUpdateGet(d1, u[1..], k);
    }
  }

  /** `dict_update` keeps the keys of `d` distinct. */
  lemma {:induction false} DictUpdatedDistinct(d: seq<Entry>, u: seq<Entry>)
    requires DistinctKeys(d)
    ensures DistinctKeys(DictUpdated(d, u))
    decreases |u|
  {
    if u != [] {
      var k0, v0 := u[0].0, u[0].1;
      var cur := Get(d, k0);
      if v0.Dict? && cur.Some? && cur.value.Dict? {
        DictSize(v0.entries);
        PutDistinct(d, k0, Dict(DictUpdated(cur.value.entries, v0.entries)));
        DictUpdatedDistinct(Put(d, k0, Dict(DictUpdated(cur.value.entries, v0.entries))), u[1..]);
      } else if cur.None? {
        PutDistinct(d, k0, v0);
        DictUpdatedDistinct(Put(d, k0, v0), u[1..]);
      } else {
        DictUpdatedDistinct(d, u[1..]);
      }
    }
  }

  /** The loop of `dict_update` over the entries of `d`, recursing into nested mappings. */
  method UpdateEntries(d: seq<Entry>, u: seq<Entry>) returns (r: seq<Entry>)
    ensures r == DictUpdated(d, u)
    decreases EntriesSize(u)
  {
    r := d;
    var i := 0;
    while i < |u|
      invariant 0 <= i <= |u|
      invariant DictUpdated(d, u) == DictUpdated(r, u[i..])
    {
      var k, v := u[i].0, u[i].1;
      var cur := Get(r, k);
      assert u[i..][0] == u[i] && u[i..][1..] == u[i + 1..];
      if v.Dict? && cur.Some? && cur.value.Dict? {
        EntryInside(u, i);
        DictSize(v.entries);
        var inner := UpdateEntries(cur.value.entries, v.entries);
        r := Put(r, k, Dict(inner));
      } else if cur.None? {
        r := Put(r, k, v);
      }
      i := i + 1;
    }
    assert u[i..] == [];
  }

  /** `dict_update(d, u)`: `d` is changed in place. */
  method DictUpdate(d: PyDict, u: seq<Entry>)
    modifies d
    ensures d.entries == DictUpdated(old(d.entries), u)
  {
    var r := UpdateEntries(d.entries, u);
    d.entries := r;
  }

  /** The keys of the entries holding `None`. */
  function NoneKeys(es: seq<Entry>): set<string>
  {
    set i | 0 <= i < |es| && es[i].1 == Null :: es[i].0
  }

  /** `remove_none_values(dict_)`: every entry holding `None` is deleted, every
      other entry stays as it was. */
  method RemoveNoneValues(d: PyDict)
    requires DistinctKeys(d.entries)
    modifies d
    ensures forall e :: e in d.entries <==> e in old(d.entries) && e.1 != Null
    ensures forall k :: Get(d.entries, k) != Some(Null)
    ensures d.entries == NonNull(old(d.entries)) && DistinctKeys(d.entries)
  {
    var items := d.entries;
    ghost var final := DeleteNones(items, items);
    for i := 0 to |items|
      invariant DeleteNones(d.entries, items[i..]) == final
    {
      assert items[i..] == [items[i]] + items[i + 1..];
      if items[i].1 == Null {
        d.entries := Delete(d.entries, items[i].0);
      }
    }
    assert items[|items|..] == [];
    RemoveDone(items);
  }

  /** `es` after deleting, left to right, the key of every entry of `items`
      that holds `None`. */
  function DeleteNones(es: seq<Entry>, items: seq<Entry>): seq<Entry>
    decreases |items|
  {
    if items == [] then es
    else DeleteNones(if items[0].1 == Null then Delete(es, items[0].0) else es, items[1..])
  }

  /** Deleting the `None` keys of `items` keeps exactly the entries whose key
      is not one of them. */
  lemma {:induction false} DeleteNonesKeeps(es: seq<Entry>, items: seq<Entry>)
    ensures forall e :: e in DeleteNones(es, items) <==> e in es && e.0 !in NoneKeys(items)
    decreases |items|
  {
    if items != [] {
      var es' := if items[0].1 == Null then Delete(es, items[0].0) else es;
      DeleteNonesKeeps(es', items[1..]);
      NoneKeysCons(items);
    }
  }

  lemma NoneKeysCons(items: seq<Entry>)
    requires items != []
    ensures NoneKeys(items) == NoneKeys(items[1..]) + (if items[0].1 == Null then {items[0].0} else {})
  {
    var t := items[1..];
    forall k | k in NoneKeys(items)
      ensures k in NoneKeys(t) + (if items[0].1 == Null then {items[0].0} else {})
    {
      var j :| 0 <= j < |items| && items[j].1 == Null && items[j].0 == k;
      if j > 0 { assert t[j - 1] == items[j]; }
    }
    forall k | k in NoneKeys(t)
      ensures k in NoneKeys(items)
    {
      var j :| 0 <= j < |t| && t[j].1 == Null && t[j].0 == k;
      assert items[j + 1] == t[j];
    }
  }

  lemma RemoveDone(items: seq<Entry>)
    requires DistinctKeys(items)
    ensures forall e :: e in DeleteNones(items, items) <==> e in items && e.1 != Null
    ensures forall k :: Get(DeleteNones(items, items), k) != Some(Null)
    ensures DeleteNones(items, items) == NonNull(items) && DistinctKeys(NonNull(items))
  {
    DeleteNonesKeeps(items, items);
    NoneKeysExact(items);
    DeleteNonesWithout(items, items);
    WithoutNonNull(items, NoneKeys(items));
    NonNullDistinct(items);
  }

  /** The entries not holding `None`, in their order: what is left of a dict
      after deleting its `None` values. */
  function NonNull(es: seq<Entry>): (r: seq<Entry>)
    ensures forall e :: e in r <==> e in es && e.1 != Null
  {
    if es == [] then []
    else (if es[0].1 == Null then [] else [es[0]]) + NonNull(es[1..])
  }

  /** The entries whose key is not in `ks`, in their order. */
  function Without(es: seq<Entry>, ks: set<string>): (r: seq<Entry>)
    ensures forall e :: e in r <==> e in es && e.0 !in ks
  {
    if es == [] then []
    else (if es[0].0 in ks then [] else [es[0]]) + Without(es[1..], ks)
  }

  /** `del d[k]` keeps the order of the other entries. */
  lemma {:induction false} DeleteWithout(es: seq<Entry>, k: string)
    ensures Delete(es, k) == Without(es, {k})
  {
    if es != [] {
      DeleteWithout(es[1..], k);
    }
  }

  lemma {:induction false} WithoutUnion(es: seq<Entry>, a: set<string>, b: set<string>)
    ensures Without(Without(es, a), b) == Without(es, a + b)
  {
    if es != [] {
      WithoutUnion(es[1..], a, b);
      var rest := Without(es[1..], a);
      if es[0].0 !in a {
        var d := [es[0]] + rest;
        assert d[0] == es[0] && d[1..] == rest;
        assert Without(es, a) == d;
        assert Without(d, b) == (if es[0].0 in b then [] else [es[0]]) + Without(rest, b);
        assert Without(es, a + b) == (if es[0].0 in b then [] else [es[0]]) + Without(es[1..], a + b);
      } else {
        assert Without(es, a) == rest;
        assert Without(es, a + b) == Without(es[1..], a + b);
      }
    }
  }

  /** Deleting the `None` keys of `items` one by one removes exactly those
      keys and keeps the order of the rest. */
  lemma {:induction false} DeleteNonesWithout(es: seq<Entry>, items: seq<Entry>)
    ensures DeleteNones(es, items) == Without(es, NoneKeys(items))
    decreases |items|
  {
    if items == [] {
      assert NoneKeys(items) == {};
      WithoutNothing(es);
    } else {
      NoneKeysCons(items);
      var k := items[0].0;
      if items[0].1 == Null {
        DeleteNonesWithout(Delete(es, k), items[1..]);
        DeleteWithout(es, k);
        WithoutUnion(es, {k}, NoneKeys(items[1..]));
        assert {k} + NoneKeys(items[1..]) == NoneKeys(items);
      } else {
        DeleteNonesWithout(es, items[1..]);
        assert DeleteNones(es, items) == DeleteNones(es, items[1..]);
        assert NoneKeys(items) == NoneKeys(items[1..]);
      }
    }
  }

  lemma {:induction false} WithoutNothing(es: seq<Entry>)
    ensures Without(es, {}) == es
  {
    if es != [] {
      WithoutNothing(es[1..]);
    }
  }

  /** When the removed keys are exactly those of the `None` entries, what is
      left is the entries not holding `None`. */
  lemma {:induction false} WithoutNonNull(es: seq<Entry>, ks: set<string>)
    requires forall e :: e in es ==> (e.0 in ks <==> e.1 == Null)
    ensures Without(es, ks) == NonNull(es)
  {
    if es != [] {
      assert forall e :: e in es[1..] ==> e in es;
      WithoutNonNull(es[1..], ks);
    }
  }

  /** Keeping some entries of a dict keeps its keys distinct. */
  lemma {:induction false} NonNullDistinct(es: seq<Entry>)
    requires DistinctKeys(es)
    ensures DistinctKeys(NonNull(es))
  {
    if es != [] {
      DistinctKeysTail(es);
      NonNullDistinct(es[1..]);
      var rest := NonNull(es[1..]);
      if es[0].1 != Null {
        assert !HasKey(rest, es[0].0);
        ConsDistinctKeys(es[0], rest);
      }
    }
  }

  lemma ConsDistinctKeys(e: Entry, rest: seq<Entry>)
    requires DistinctKeys(rest) && !HasKey(rest, e.0)
    ensures DistinctKeys([e] + rest)
  {
    var d := [e] + rest;
    forall i, j | 0 <= i < j < |d|
      ensures Keys(d)[i] != Keys(d)[j]
    {
      assert Keys(d)[j] == d[j].0 == rest[j - 1].0 == Keys(rest)[j - 1];
      if i > 0 {
        assert Keys(d)[i] == Keys(rest)[i - 1];
      }
    }
  }

  /** With distinct keys, an entry's key is a `None` key exactly when the
      entry itself holds `None`. */
  lemma NoneKeysExact(items: seq<Entry>)
    requires DistinctKeys(items)
    ensures forall e :: e in items ==> (e.0 in NoneKeys(items) <==> e.1 == Null)
  {
    forall e | e in items
      ensures e.0 in NoneKeys(items) <==> e.1 == Null
    {
      var j :| 0 <= j < |items| && items[j] == e;
      NoneKeyAt(items, j);
    }
  }

  lemma NoneKeyAt(items: seq<Entry>, j: nat)
    requires DistinctKeys(items) && j < |items|
    ensures items[j].0 in NoneKeys(items) <==> items[j].1 == Null
  {
    if items[j].0 in NoneKeys(items) {
      var m :| 0 <= m < |items| && items[m].1 == Null && items[m].0 == items[j].0;
      assert Keys(items)[m] == Keys(items)[j];
    }
  }

  // ---------------------------------------------------------------------
  // validate_filters

  /** `filt.left.key`: the column a filter condition tests. A combined
      condition and the EXISTS clauses built for association proxies have no
      `left` operand. */
  function FilterKey(c: Cond): Result<string>
  {
    match c
    case Join(j) => Ok(j.left.name)
    case Compare(_, left, _) => Ok(left.name)
    case In(left, _) => Ok(left.name)
    case OpCall(left, _, _) => Ok(left.name)
    case _ => Err(AttributeError("left"))
  }

  /** The first `n` filters each test an allowed column. */
  predicate Admitted(filters: seq<Cond>, allowed: seq<string>, n: nat)
    requires n <= |filters|
  {
    forall i :: 0 <= i < n ==> FilterKey(filters[i]).Ok? && FilterKey(filters[i]).value in allowed
  }

  function NotAllowed(key: string): string
  {
    "filter on '" + key + "' not allowed"
  }

  /** `validate_filters(where, resource)` with the resource's `allowed_filters`
      as `allowed`: nothing when `"*"` is allowed or every filter is,
      otherwise a message naming the first filter that is not. */
  method ValidateFilters(filters: seq<Cond>, allowed: seq<string>) returns (r: Result<Option<string>>)
    ensures "*" in allowed ==> r == Ok(None)
    ensures "*" !in allowed ==> (r == Ok(None) <==> Admitted(filters, allowed, |filters|))
    ensures r.Ok? && r.value.Some? ==>
      exists i :: 0 <= i < |filters| && Admitted(filters, allowed, i)
        && FilterKey(filters[i]).Ok? && FilterKey(filters[i]).value !in allowed
        && r.value.value == NotAllowed(FilterKey(filters[i]).value)
    ensures r.Err? ==>
      exists i :: 0 <= i < |filters| && Admitted(filters, allowed, i)
        && FilterKey(filters[i]) == Err(r.error)
  {
    if "*" in allowed {
      return Ok(None);
    }
    for i := 0 to |filters|
      invariant Admitted(filters, allowed, i)
    {
      var key := FilterKey(filters[i]);
      if key.Err? {
        return Err(key.error);
      }
      if key.value !in allowed {
        return Ok(Some(NotAllowed(key.value)));
      }
    }
    return Ok(None);
  }

  // ---------------------------------------------------------------------
  // _get_resource, _get_id and _sanitize_value

  /** The part of an Eve resource definition the helpers read. */
  datatype ResourceSettings = ResourceSettings(
    name: string,        // the key of the resource in `DOMAIN`
    source: string,      // `datasource.source`: the model class name
    idField: string,     // `id_field`
    schema: seq<Entry>)  // `schema`: field name to field definition

  /** `config.DOMAIN`, in its key order. */
  type Domain = seq<ResourceSettings>

  /** `_get_resource`: the first resource whose source is the model. */
  function FindResource(domain: Domain, model: string): (r: Option<ResourceSettings>)
    ensures r.None? <==> forall i :: 0 <= i < |domain| ==> domain[i].source != model
    ensures r.Some? ==>
      exists i :: 0 <= i < |domain| && domain[i] == r.value && r.value.source == model
        && forall j :: 0 <= j < i ==> domain[j].source != model
  {
    if domain == [] then None
    else if domain[0].source == model then Some(domain[0])
    else
      var r := FindResource(domain[1..], model);
      assert forall i :: 0 < i < |domain| ==> domain[1..][i - 1] == domain[i];
      r
  }

  /** `_get_id`: the instance's id attribute; `DOMAIN[None]` fails with a
      `KeyError` when no resource serves the model. */
  function GetId(domain: Domain, model: string, attrs: seq<Entry>): (r: Result<Value>)
    ensures r.Ok? ==>
              FindResource(domain, model).Some?
              && Get(attrs, FindResource(domain, model).value.idField) == Some(r.value)
    ensures FindResource(domain, model).None? ==> r == Err(KeyError("None"))
  {
    match FindResource(domain, model)
    case None => Err(KeyError("None"))
    case Some(res) =>
      match Get(attrs, res.idField)
      case None => Err(AttributeError(res.idField))
      case Some(id) => Ok(id)
  }

  /** `set(...)` over values: the first occurrence of each, in order. */
  function Dedup(xs: seq<Value>): (r: seq<Value>)
    ensures Distinct(r) && |r| <= |xs|
    ensures forall y :: y in r <==> y in xs
  {
    if xs == [] then []
    else
      var r := Dedup(xs[..|xs| - 1]);
      assert xs == xs[..|xs| - 1] + [xs[|xs| - 1]];
      if xs[|xs| - 1] in r then r else r + [xs[|xs| - 1]]
  }

  lemma {:induction false} DedupDistinct(xs: seq<Value>)
    requires Distinct(xs)
    ensures Dedup(xs) == xs
  {
    if xs != [] {
      var init := xs[..|xs| - 1];
      DedupDistinct(init);
      assert xs[|xs| - 1] !in init;
      assert xs == init + [xs[|xs| - 1]];
    }
  }

  /** `_sanitize_value`: an ORM instance becomes its id; mappings, lists and
      sets are rebuilt from their sanitised members; anything else is copied. */
  function Sanitize(domain: Domain, v: Value): Result<Value>
    decreases v, 1
  {
    match v
    case Obj(model, attrs) => GetId(domain, model, attrs)
    case Dict(es) =>
      (match SanitizeEntries(domain, es, v)
       case Ok(es2) => Ok(Dict(es2))
       case Err(e) => Err(e))
    case List(xs) =>
      (match SanitizeItems(domain, xs, v)
       case Ok(ys) => Ok(List(ys))
       case Err(e) => Err(e))
    case Set(xs) =>
      (match SanitizeItems(domain, xs, v)
       case Ok(ys) => Ok(Set(Dedup(ys)))
       case Err(e) => Err(e))
    case _ => Ok(v)
  }

  function SanitizeItems(domain: Domain, xs: seq<Value>, ghost parent: Value): Result<seq<Value>>
    requires forall i :: 0 <= i < |xs| ==> xs[i] < parent
    decreases parent, 0, |xs|
  {
    if xs == [] then Ok([])
    else
      match Sanitize(domain, xs[0])
      case Err(e) => Err(e)
      case Ok(y) =>
        match SanitizeItems(domain, xs[1..], parent)
        case Err(e) => Err(e)
        case Ok(ys) => Ok([y] + ys)
  }

  function SanitizeEntries(domain: Domain, es: seq<Entry>, ghost parent: Value): Result<seq<Entry>>
    requires forall i :: 0 <= i < |es| ==> es[i].1 < parent
    decreases parent, 0, |es|
  {
    if es == [] then Ok([])
    else
      match Sanitize(domain, es[0].1)
      case Err(e) => Err(e)
      case Ok(y) =>
        match SanitizeEntries(domain, es[1..], parent)
        case Err(e) => Err(e)
        case Ok(ys) => Ok([(es[0].0, y)] + ys)
  }

  /** `w` is `v` with every ORM instance replaced by its id: the same keys in
      the same order, the same number of list items in the same order, a set
      whose members are exactly the replaced forms of the old members (without
      repeats), and every other value unchanged. */
  predicate SanitizedForm(domain: Domain, v: Value, w: Value)
    decreases v
  {
    match v
    case Obj(model, attrs) => GetId(domain, model, attrs) == Ok(w)
    case Dict(es) =>
      w.Dict? && |w.entries| == |es|
      && forall i :: 0 <= i < |es| ==>
           w.entries[i].0 == es[i].0 && SanitizedForm(domain, es[i].1, w.entries[i].1)
    case List(xs) =>
      w.List? && |w.items| == |xs|
      && forall i :: 0 <= i < |xs| ==> SanitizedForm(domain, xs[i], w.items[i])
    case Set(xs) =>
      && w.Set? && Distinct(w.elems)
      && (forall y :: y in w.elems ==> exists x :: x in xs && SanitizedForm(domain, x, y))
      && (forall x :: x in xs ==> exists y :: y in w.elems && SanitizedForm(domain, x, y))
    case _ => w == v
  }

  /** Sanitising replaces every ORM instance by its id and keeps the rest. */
  lemma {:induction false} SanitizeShape(domain: Domain, v: Value)
    ensures Sanitize(domain, v).Ok? ==> SanitizedForm(domain, v, Sanitize(domain, v).value)
    decreases v, 1
  {
    match v
    case Dict(es) => SanitizeEntriesShape(domain, es, v);
    case List(xs) => SanitizeItemsShape(domain, xs, v);
    case Set(xs) =>
      SanitizeItemsShape(domain, xs, v);
      var r := SanitizeItems(domain, xs, v);
      if r.Ok? {
        DedupForms(xs, r.value, (x, y) => SanitizedForm(domain, x, y));
      }
    case _ =>
  }

  /** The set rebuilt from the members' images holds exactly those images:
      each member of it is related to some original, and each original to
      some member of it. */
  lemma DedupForms(xs: seq<Value>, ys: seq<Value>, related: (Value, Value) -> bool)
    requires |ys| == |xs| && forall i :: 0 <= i < |xs| ==> related(xs[i], ys[i])
    ensures forall y :: y in Dedup(ys) ==> exists x :: x in xs && related(x, y)
    ensures forall x :: x in xs ==> exists y :: y in Dedup(ys) && related(x, y)
  {
    forall y | y in Dedup(ys)
      ensures exists x :: x in xs && related(x, y)
    {
      var i :| 0 <= i < |ys| && ys[i] == y;
      assert xs[i] in xs && related(xs[i], ys[i]);
    }
    forall x | x in xs
      ensures exists y :: y in Dedup(ys) && related(x, y)
    {
      var i :| 0 <= i < |xs| && xs[i] == x;
      assert ys[i] in ys;
      assert ys[i] in Dedup(ys) && related(xs[i], ys[i]);
    }
  }

  lemma {:induction false} SanitizeItemsShape(domain: Domain, xs: seq<Value>, parent: Value)
    requires forall i :: 0 <= i < |xs| ==> xs[i] < parent
    ensures var r := SanitizeItems(domain, xs, parent);
      r.Ok? ==> |r.value| == |xs| && forall i :: 0 <= i < |xs| ==> SanitizedForm(domain, xs[i], r.value[i])
    decreases parent, 0, |xs|
  {
    if xs != [] {
      SanitizeShape(domain, xs[0]);
      SanitizeItemsShape(domain, xs[1..], parent);
      var r := SanitizeItems(domain, xs, parent);
      if r.Ok? {
        forall i | 0 < i < |xs|
          ensures SanitizedForm(domain, xs[i], r.value[i])
        {
          assert xs[i] == xs[1..][i - 1];
        }
      }
    }
  }

  lemma {:induction false} SanitizeEntriesShape(domain: Domain, es: seq<Entry>, parent: Value)
    requires forall i :: 0 <= i < |es| ==> es[i].1 < parent
    ensures var r := SanitizeEntries(domain, es, parent);
      r.Ok? ==>
        |r.value| == |es|
        && forall i :: 0 <= i < |es| ==> r.value[i].0 == es[i].0 && SanitizedForm(domain, es[i].1, r.value[i].1)
    decreases parent, 0, |es|
  {
    if es != [] {
      SanitizeShape(domain, es[0].1);
      SanitizeEntriesShape(domain, es[1..], parent);
      var r := SanitizeEntries(domain, es, parent);
      if r.Ok? {
        forall i | 0 < i < |es|
          ensures r.value[i].0 == es[i].0 && SanitizedForm(domain, es[i].1, r.value[i].1)
        {
          assert es[i] == es[1..][i - 1];
        }
      }
    }
  }

  /** A value holding no ORM instance, whose sets have distinct members. */
  predicate Plain(v: Value)
    decreases v
  {
    match v
    case Obj(_, _) => false
    case Dict(es) => forall i :: 0 <= i < |es| ==> Plain(es[i].1)
    case List(xs) => forall i :: 0 <= i < |xs| ==> Plain(xs[i])
    case Set(xs) => Distinct(xs) && forall i :: 0 <= i < |xs| ==> Plain(xs[i])
    case _ => true
  }

  /** Sanitising a value without ORM instances gives back the same value. */
  lemma {:induction false} SanitizePlain(domain: Domain, v: Value)
    requires Plain(v)
    ensures Sanitize(domain, v) == Ok(v)
    decreases v, 1
  {
    match v
    case Dict(es) => SanitizeEntriesPlain(domain, es, v);
    case List(xs) => SanitizeItemsPlain(domain, xs, v);
    case Set(xs) =>
      SanitizeItemsPlain(domain, xs, v);
      DedupDistinct(xs);
    case _ =>
  }

  lemma {:induction false} SanitizeItemsPlain(domain: Domain, xs: seq<Value>, parent: Value)
    requires forall i :: 0 <= i < |xs| ==> xs[i] < parent && Plain(xs[i])
    ensures SanitizeItems(domain, xs, parent) == Ok(xs)
    decreases parent, 0, |xs|
  {
    if xs != [] {
      SanitizePlain(domain, xs[0]);
      SanitizeItemsPlain(domain, xs[1..], parent);
      assert [xs[0]] + xs[1..] == xs;
    }
  }

  lemma {:induction false} SanitizeEntriesPlain(domain: Domain, es: seq<Entry>, parent: Value)
    requires forall i :: 0 <= i < |es| ==> es[i].1 < parent && Plain(es[i].1)
    ensures SanitizeEntries(domain, es, parent) == Ok(es)
    decreases parent, 0, |es|
  {
    if es != [] {
      SanitizePlain(domain, es[0].1);
      SanitizeEntriesPlain(domain, es[1..], parent);
      assert [(es[0].0, es[0].1)] + es[1..] == es;
    }
  }

  // ---------------------------------------------------------------------
  // sqla_object_to_dict

  /** The Eve settings `sqla_object_to_dict` reads. */
  datatype Settings = Settings(
    lastUpdated: string,  // `LAST_UPDATED`
    dateCreated: string,  // `DATE_CREATED`
    etag: string,         // `ETAG`
    ifMatch: bool)        // `IF_MATCH`, true when unset

  /** The caller's list of requested field names, extended in place. */
  class FieldList {
    var names: seq<string>

    constructor (ns: seq<string>)
      ensures names == ns
    {
      names := ns;
    }
  }

  /** The field list after the bookkeeping names are appended where missing. */
  function WithBookkeeping(cfg: Settings, fs: seq<string>): seq<string>
  {
    var f1 := if cfg.lastUpdated in fs then fs else fs + [cfg.lastUpdated];
    var f2 := if cfg.dateCreated in f1 then f1 else f1 + [cfg.dateCreated];
    if cfg.etag !in f2 && cfg.ifMatch then f2 + [cfg.etag] else f2
  }

  /** The bookkeeping extends the list, adds nothing that was already there,
      and afterwards holds `LAST_UPDATED`, `DATE_CREATED` and, unless
      `IF_MATCH` is off and it was absent, `ETAG`. */
  lemma Bookkeeping(cfg: Settings, fs: seq<string>)
    ensures var r := WithBookkeeping(cfg, fs);
      && fs <= r
      && (Distinct(fs) ==> Distinct(r))
      && cfg.lastUpdated in r && cfg.dateCreated in r
      && (cfg.ifMatch ==> cfg.etag in r)
      && (!cfg.ifMatch && cfg.etag !in fs && cfg.etag != cfg.lastUpdated && cfg.etag != cfg.dateCreated
          ==> cfg.etag !in r)
      && forall i :: |fs| <= i < |r| ==> r[i] in {cfg.lastUpdated, cfg.dateCreated, cfg.etag}
  {
    var f1 := if cfg.lastUpdated in fs then fs else fs + [cfg.lastUpdated];
    var f2 := if cfg.dateCreated in f1 then f1 else f1 + [cfg.dateCreated];
    if Distinct(fs) {
      if cfg.lastUpdated !in fs { AppendDistinct(fs, cfg.lastUpdated); }
      if cfg.dateCreated !in f1 { AppendDistinct(f1, cfg.dateCreated); }
      if cfg.etag !in f2 && cfg.ifMatch { AppendDistinct(f2, cfg.etag); }
    }
  }

  /** `f.split(".", 1)[0]`: the attribute a requested field reads. */
  function FieldName(f: string): string
  {
    Split(f, '.')[0]
  }

  /** One field of the loop of `sqla_object_to_dict`: a missing attribute, or
      an `AttributeError` while sanitising, skips the field; any other error
      escapes. */
  function CopyField(domain: Domain, attrs: seq<Entry>, acc: seq<Entry>, f: string): (r: Result<seq<Entry>>)
    ensures r.Ok? ==> forall k :: HasKey(acc, k) ==> HasKey(r.value, k)
    ensures r.Ok? ==> forall k ::
      (Get(r.value, k) == Get(acc, k)
       || (k == FieldName(f) && Get(attrs, k).Some? && Sanitize(domain, Get(attrs, k).value) == Ok(Get(r.value, k).value)))
    ensures r.Ok? && Get(attrs, FieldName(f)).Some? && Sanitize(domain, Get(attrs, FieldName(f)).value).Ok?
      ==> HasKey(r.value, FieldName(f))
  {
    var field := FieldName(f);
    match Get(attrs, field)
    case None => Ok(acc)
    case Some(val) =>
      match Sanitize(domain, val)
      case Err(AttributeError(_)) => Ok(acc)
      case Err(e) => Err(e)
      case Ok(s) =>
        assert forall k :: HasKey(acc, k) ==> Get(Put(acc, field, s), k).Some?;
        Ok(Put(acc, field, s))
  }

  /** The loop of `sqla_object_to_dict` from `acc` over the fields `fs`. */
  function Collect(domain: Domain, attrs: seq<Entry>, acc: seq<Entry>, fs: seq<string>): Result<seq<Entry>>
    decreases |fs|
  {
    if fs == [] then Ok(acc)
    else
      match CopyField(domain, attrs, acc, fs[0])
      case Err(e) => Err(e)
      case Ok(acc1) => Collect(domain, attrs, acc1, fs[1..])
  }

  /** The dict `sqla_object_to_dict` returns for the final field list. */
  function ObjectDict(cfg: Settings, domain: Domain, attrs: seq<Entry>, fields: seq<string>): Result<seq<Entry>>
  {
    match Collect(domain, attrs, [], fields)
    case Err(e) => Err(e)
    case Ok(res) => Ok(if Get(res, cfg.etag) == Some(Null) then Delete(res, cfg.etag) else res)
  }

  /** The field `k` is requested, the instance has attribute `k`, and `w` is its sanitised value. */
  predicate Copied(domain: Domain, attrs: seq<Entry>, fs: seq<string>, k: string, w: Value)
  {
    (exists i :: 0 <= i < |fs| && FieldName(fs[i]) == k)
    && Get(attrs, k).Some? && Sanitize(domain, Get(attrs, k).value) == Ok(w)
  }

  /** The loop never drops a key. */
  lemma {:induction false} CollectKeeps(domain: Domain, attrs: seq<Entry>, acc: seq<Entry>, fs: seq<string>)
    ensures var r := Collect(domain, attrs, acc, fs);
      r.Ok? ==> forall k :: HasKey(acc, k) ==> HasKey(r.value, k)
    decreases |fs|
  {
    if fs != [] {
      var c := CopyField(domain, attrs, acc, fs[0]);
      if c.Ok? {
        CollectKeeps(domain, attrs, c.value, fs[1..]);
      }
    }
  }

  /** Every key the loop adds is a requested field holding its attribute's sanitised value. */
  lemma {:induction false} CollectSound(domain: Domain, attrs: seq<Entry>, acc: seq<Entry>, fs: seq<string>)
    ensures var r := Collect(domain, attrs, acc, fs);
      r.Ok? ==> forall k :: HasKey(r.value, k) ==>
        Get(r.value, k) == Get(acc, k) || Copied(domain, attrs, fs, k, Get(r.value, k).value)
    decreases |fs|
  {
    if fs != [] {
      var c := CopyField(domain, attrs, acc, fs[0]);
      if c.Ok? {
        var rest := fs[1..];
        CollectSound(domain, attrs, c.value, rest);
        var r := Collect(domain, attrs, acc, fs);
        if r.Ok? {
          forall k | HasKey(r.value, k) && Get(r.value, k) != Get(acc, k)
            ensures Copied(domain, attrs, fs, k, Get(r.value, k).value)
          {
            if Get(r.value, k) == Get(c.value, k) {
              assert FieldName(fs[0]) == k;
            } else {
              var i :| 0 <= i < |rest| && FieldName(rest[i]) == k;
              assert fs[i + 1] == rest[i];
            }
          }
        }
      }
    }
  }

  /** Every requested field whose attribute exists and sanitises is added. */
  lemma {:induction false} CollectComplete(domain: Domain, attrs: seq<Entry>, acc: seq<Entry>, fs: seq<string>)
    ensures var r := Collect(domain, attrs, acc, fs);
      r.Ok? ==> forall i ::
        (0 <= i < |fs| && Get(attrs, FieldName(fs[i])).Some?
         && Sanitize(domain, Get(attrs, FieldName(fs[i])).value).Ok?)
        ==> HasKey(r.value, FieldName(fs[i]))
    decreases |fs|
  {
    if fs != [] {
      var c := CopyField(domain, attrs, acc, fs[0]);
      if c.Ok? {
        var rest := fs[1..];
        CollectComplete(domain, attrs, c.value, rest);
        CollectKeeps(domain, attrs, c.value, rest);
        assert forall i :: 0 < i < |fs| ==> fs[i] == rest[i - 1];
      }
    }
  }

  /** The result of `sqla_object_to_dict` holds exactly the requested fields
      that the instance has and that sanitise, each with its sanitised value,
      and never holds a `None` ETAG. */
  lemma ObjectDictFields(cfg: Settings, domain: Domain, attrs: seq<Entry>, fields: seq<string>)
    ensures var r := ObjectDict(cfg, domain, attrs, fields);
      r.Ok? ==>
        && Get(r.value, cfg.etag) != Some(Null)
        && (forall k :: HasKey(r.value, k) ==> Copied(domain, attrs, fields, k, Get(r.value, k).value))
        && (forall i :: 0 <= i < |fields| && Get(attrs, FieldName(fields[i])).Some?
              && Sanitize(domain, Get(attrs, FieldName(fields[i])).value).Ok?
              && !(FieldName(fields[i]) == cfg.etag
                   && Sanitize(domain, Get(attrs, cfg.etag).value) == Ok(Null))
              ==> HasKey(r.value, FieldName(fields[i])))
  {
    CollectSound(domain, attrs, [], fields);
    CollectComplete(domain, attrs, [], fields);
    var c := Collect(domain, attrs, [], fields);
    if c.Ok? {
      forall i | 0 <= i < |fields| && Get(attrs, FieldName(fields[i])).Some?
        && Sanitize(domain, Get(attrs, FieldName(fields[i])).value).Ok?
        && FieldName(fields[i]) == cfg.etag
        && Get(c.value, cfg.etag) == Some(Null)
        ensures Sanitize(domain, Get(attrs, cfg.etag).value) == Ok(Null)
      {
        assert HasKey(c.value, cfg.etag);
      }
    }
  }

  /** One field of the loop of `sqla_object_to_dict`, as `CopyField` says. */
  lemma CollectStep(domain: Domain, attrs: seq<Entry>, acc: seq<Entry>, names: seq<string>, i: nat)
    requires i < |names|
    ensures var val := Get(attrs, FieldName(names[i]));
      Collect(domain, attrs, acc, names[i..]) ==
        if val.None? then Collect(domain, attrs, acc, names[i + 1..])
        else if Sanitize(domain, val.value).Ok? then
          Collect(domain, attrs, Put(acc, FieldName(names[i]), Sanitize(domain, val.value).value), names[i + 1..])
        else if Sanitize(domain, val.value).error.AttributeError? then Collect(domain, attrs, acc, names[i + 1..])
        else Err(Sanitize(domain, val.value).error)
  {
    assert names[i..][0] == names[i] && names[i..][1..] == names[i + 1..];
  }

  /** The start of `sqla_object_to_dict`: the caller's list gains
      `LAST_UPDATED`, `DATE_CREATED` and, with `IF_MATCH` on, `ETAG`, each
      only when it is absent. */
  method AddBookkeeping(cfg: Settings, fields: FieldList)
    modifies fields
    ensures fields.names == WithBookkeeping(cfg, old(fields.names))
  {
    if cfg.lastUpdated !in fields.names {
      fields.names := fields.names + [cfg.lastUpdated];
    }
    if cfg.dateCreated !in fields.names {
      fields.names := fields.names + [cfg.dateCreated];
    }
    if cfg.etag !in fields.names && cfg.ifMatch {
      fields.names := fields.names + [cfg.etag];
    }
  }

  /** `sqla_object_to_dict(obj, fields)` for an instance with attributes
      `attrs`: the caller's list gains the bookkeeping names, then the
      requested attributes are copied and sanitised. */
  method SqlaObjectToDict(cfg: Settings, domain: Domain, attrs: seq<Entry>, fields: FieldList)
    returns (r: Result<seq<Entry>>)
    modifies fields
    ensures fields.names == WithBookkeeping(cfg, old(fields.names))
    ensures r == ObjectDict(cfg, domain, attrs, fields.names)
  {
    AddBookkeeping(cfg, fields);
    var names := fields.names;
    var result: seq<Entry> := [];
    for i := 0 to |names|
      invariant fields.names == names
      invariant Collect(domain, attrs, [], names) == Collect(domain, attrs, result, names[i..])
    {
      CollectStep(domain, attrs, result, names, i);
      var field := FieldName(names[i]);
      var val := Get(attrs, field);
      if val.Some? {
        var s := Sanitize(domain, val.value);
        if s.Ok? {
          result := Put(result, field, s.value);
        } else if !s.error.AttributeError? {
          return Err(s.error);
        }
      }
    }
    assert names[|names|..] == [];
    if Get(result, cfg.etag) == Some(Null) {
      result := Delete(result, cfg.etag);
    }
    return Ok(result);
  }

  // ---------------------------------------------------------------------
  // extract_sort_arg

  /** A character of the class `[-,\w.]`. */
  predicate SortChar(c: char)
  {
    c == '-' || c == ',' || c == '.' || IsWordChar(c)
  }

  /** `re.match(r"^[-,\w.]+$", s)`: one or more characters of the class, up to
      the end of `s` or up to a final newline, where `$` also matches. */
  predicate MatchesSortPattern(s: string)
  {
    (|s| >= 1 && forall i :: 0 <= i < |s| ==> SortChar(s[i]))
    || (|s| >= 2 && s[|s| - 1] == '\n' && forall i :: 0 <= i < |s| - 1 ==> SortChar(s[i]))
  }

  /** The entry for one comma token: `[x, -1]` for `-x`, `[x]` otherwise. */
  function SortEntry(t: string): Value
  {
    if |t| > 0 && t[0] == '-' then List([Str(t[1..]), Int(-1)]) else List([Str(t)])
  }

  /** The list of entries for the comma tokens of `s`, in order. */
  function SortEntries(s: string): (es: seq<Value>)
    ensures |es| == |Split(s, ',')|
    ensures forall i :: 0 <= i < |es| ==> es[i] == SortEntry(Split(s, ',')[i])
  {
    var parts := Split(s, ',');
    seq(|parts|, i requires 0 <= i < |parts| => SortEntry(parts[i]))
  }

  /** An entry written back as a sort token. */
  function SortToken(e: Value): string
  {
    if e.List? && |e.items| == 2 && e.items[0].Str? then "-" + e.items[0].s
    else if e.List? && |e.items| == 1 && e.items[0].Str? then e.items[0].s
    else ""
  }

  /** The entries determine the sort string: writing each back as a token and
      joining them with commas gives the string again. */
  lemma SortEntriesRoundTrip(s: string)
    ensures var es := SortEntries(s);
      |es| >= 1 && Common.Join(seq(|es|, i requires 0 <= i < |es| => SortToken(es[i])), ',') == s
  {
    var parts := Split(s, ',');
    var es := SortEntries(s);
    var back := seq(|es|, i requires 0 <= i < |es| => SortToken(es[i]));
    forall i | 0 <= i < |parts|
      ensures back[i] == parts[i]
    {
      SortTokenOfEntry(parts[i]);
    }
    assert back == parts;
  }

  lemma SortTokenOfEntry(t: string)
    ensures SortToken(SortEntry(t)) == t
  {
    if |t| > 0 && t[0] == '-' {
      assert "-" + t[1..] == t;
    }
  }

  /** A descending key on an accented field name is a plain sort string:
      `\w` takes in the Latin-1 letters. */
  lemma AccentedSortKey()
    ensures MatchesSortPattern("-pr\U{E9}nom")
    ensures SortEntries("-pr\U{E9}nom") == [List([Str("pr\U{E9}nom"), Int(-1)])]
  {
    var s := "-pr\U{E9}nom";
    assert ',' !in s;
    SplitWithoutSep(s, ',');
    assert s[1..] == "pr\U{E9}nom";
  }

  /** `extract_sort_arg(req)` for the request's `sort` argument, with
      `ast.literal_eval` as `literalEval`. */
  method ExtractSortArg(sort: Option<string>, literalEval: string -> Result<Value>)
    returns (r: Result<Option<Value>>)
    ensures sort.None? || sort == Some("") ==> r == Ok(None)
    ensures sort.Some? && MatchesSortPattern(sort.value) ==> r == Ok(Some(List(SortEntries(sort.value))))
    ensures sort.Some? && sort.value != "" && !MatchesSortPattern(sort.value) ==>
      r == (match literalEval(sort.value) case Ok(v) => Ok(Some(v)) case Err(e) => Err(e))
  {
    if sort.None? || sort.value == "" {
      return Ok(None);
    }
    var s := sort.value;
    if !MatchesSortPattern(s) {
      var v := literalEval(s);
      if v.Err? {
        return Err(v.error);
      }
      return Ok(Some(v.value));
    }
    var parts := Split(s, ',');
    var arg: seq<Value> := [];
    for i := 0 to |parts|
      invariant |arg| == i
      invariant forall j :: 0 <= j < i ==> arg[j] == SortEntry(parts[j])
    {
      if |parts[i]| > 0 && parts[i][0] == '-' {
        arg := arg + [List([Str(parts[i][1..]), Int(-1)])];
      } else {
        arg := arg + [List([Str(parts[i])])];
      }
    }
    assert arg == SortEntries(s);
    return Ok(Some(List(arg)));
  }

  // ---------------------------------------------------------------------
  // Renaming relationship fields to their local id fields

  /** The `local_id_field` of a field definition, when it names one. */
  function LocalIdField(def: Value): Option<string>
  {
    if def.Dict? && Get(def.entries, "local_id_field").Some? && Get(def.entries, "local_id_field").value.Str?
    then Some(Get(def.entries, "local_id_field").value.s)
    else None
  }

  /** `m` maps exactly the schema's fields that have a local id field to it. */
  predicate IsRenameMapping(m: map<string, string>, schema: seq<Entry>)
  {
    && (forall f :: f in m ==> HasKey(schema, f))
    && (forall j :: 0 <= j < |schema| ==> (schema[j].0 in m <==> LocalIdField(schema[j].1).Some?))
    && (forall j :: 0 <= j < |schema| && schema[j].0 in m ==> m[schema[j].0] == LocalIdField(schema[j].1).value)
  }

  /** The mapping built from the first `i` fields of the schema. */
  predicate RenamePrefix(m: map<string, string>, schema: seq<Entry>, i: nat)
    requires i <= |schema|
  {
    PrefixKeys(m, schema, i) && PrefixValues(m, schema, i)
  }

  /** Every key of `m` is one of the first `i` fields. */
  predicate PrefixKeys(m: map<string, string>, schema: seq<Entry>, i: nat)
    requires i <= |schema|
  {
    forall f :: f in m ==> exists j :: 0 <= j < i && schema[j].0 == f
  }

  /** Each of the first `i` fields is in `m` exactly when it has a local id
      field, and is mapped to it. */
  predicate PrefixValues(m: map<string, string>, schema: seq<Entry>, i: nat)
    requires i <= |schema|
  {
    && (forall j :: 0 <= j < i ==> (schema[j].0 in m <==> LocalIdField(schema[j].1).Some?))
    && (forall j :: 0 <= j < i && schema[j].0 in m ==> m[schema[j].0] == LocalIdField(schema[j].1).value)
  }

  lemma RenameStep(m: map<string, string>, schema: seq<Entry>, i: nat)
    requires i < |schema| && DistinctKeys(schema) && RenamePrefix(m, schema, i)
    ensures var local := LocalIdField(schema[i].1);
      RenamePrefix(if local.Some? then m[schema[i].0 := local.value] else m, schema, i + 1)
  {
    var local := LocalIdField(schema[i].1);
    var m2 := if local.Some? then m[schema[i].0 := local.value] else m;
    StepKeys(m, m2, schema, i);
    StepValues(m, schema, i);
  }

  lemma StepKeys(m: map<string, string>, m2: map<string, string>, schema: seq<Entry>, i: nat)
    requires i < |schema| && PrefixKeys(m, schema, i)
    requires forall f :: f in m2 ==> f in m || f == schema[i].0
    ensures PrefixKeys(m2, schema, i + 1)
  {
    forall f | f in m2
      ensures exists j :: 0 <= j < i + 1 && schema[j].0 == f
    {
      if f != schema[i].0 {
        var j :| 0 <= j < i && schema[j].0 == f;
      }
    }
  }

  lemma StepValues(m: map<string, string>, schema: seq<Entry>, i: nat)
    requires i < |schema| && DistinctKeys(schema) && PrefixKeys(m, schema, i) && PrefixValues(m, schema, i)
    ensures var local := LocalIdField(schema[i].1);
      PrefixValues(if local.Some? then m[schema[i].0 := local.value] else m, schema, i + 1)
  {
    var local := LocalIdField(schema[i].1);
    var m2 := if local.Some? then m[schema[i].0 := local.value] else m;
    forall j | 0 <= j < i
      ensures schema[j].0 != schema[i].0
    {
      assert Keys(schema)[j] != Keys(schema)[i];
    }
    forall j | 0 <= j < i + 1
      ensures (schema[j].0 in m2 <==> LocalIdField(schema[j].1).Some?)
      ensures schema[j].0 in m2 ==> m2[schema[j].0] == LocalIdField(schema[j].1).value
    {
    }
  }

  lemma RenameDone(m: map<string, string>, schema: seq<Entry>)
    requires RenamePrefix(m, schema, |schema|)
    ensures IsRenameMapping(m, schema)
  {
    forall f | f in m
      ensures HasKey(schema, f)
    {
      var j :| 0 <= j < |schema| && schema[j].0 == f;
      assert Keys(schema)[j] == f;
    }
  }

  /** The loop of `_get_relationship_to_id_field_rename_mapping` over a schema. */
  method RenameMappingOf(schema: seq<Entry>) returns (m: map<string, string>)
    requires DistinctKeys(schema)
    ensures IsRenameMapping(m, schema)
  {
    m := map[];
    for i := 0 to |schema|
      invariant RenamePrefix(m, schema, i)
    {
      RenameStep(m, schema, i);
      var local := LocalIdField(schema[i].1);
      if local.Some? {
        m := m[schema[i].0 := local.value];
      }
    }
    RenameDone(m, schema);
  }

  /** `_get_relationship_to_id_field_rename_mapping(model)`. */
  method RelationshipRenameMapping(domain: Domain, model: string) returns (r: Result<map<string, string>>)
    requires forall i :: 0 <= i < |domain| ==> DistinctKeys(domain[i].schema)
    ensures r.Ok? <==> FindResource(domain, model).Some?
    ensures r.Err? ==> r.error == KeyError("None")
    ensures r.Ok? ==> IsRenameMapping(r.value, FindResource(domain, model).value.schema)
  {
    var res := FindResource(domain, model);
    if res.None? {
      return Err(KeyError("None"));
    }
    var m := RenameMappingOf(res.value.schema);
    return Ok(m);
  }

  /** The key a pair is stored under after renaming. */
  function Rename(m: map<string, string>, k: string): string
  {
    if k in m then m[k] else k
  }

  /** The renamed dict: each pair of `d`, in order, stored under its renamed key. */
  function Renamed(m: map<string, string>, d: seq<Entry>): seq<Entry>
  {
    if d == [] then []
    else Put(Renamed(m, d[..|d| - 1]), Rename(m, d[|d| - 1].0), d[|d| - 1].1)
  }

  /** Every pair of the renamed dict is a pair of `d` under its renamed key. */
  lemma {:induction false} RenamedSound(m: map<string, string>, d: seq<Entry>)
    ensures forall e :: e in Renamed(m, d) ==>
      exists i :: 0 <= i < |d| && e == (Rename(m, d[i].0), d[i].1)
  {
    if d != [] {
      var init := d[..|d| - 1];
      RenamedSound(m, init);
      PutMembers(Renamed(m, init), Rename(m, d[|d| - 1].0), d[|d| - 1].1);
      forall e | e in Renamed(m, d)
        ensures exists i :: 0 <= i < |d| && e == (Rename(m, d[i].0), d[i].1)
      {
        if e in Renamed(m, init) {
          var i :| 0 <= i < |init| && e == (Rename(m, init[i].0), init[i].1);
          assert init[i] == d[i];
        }
      }
    }
  }

  /** The renamed keys, one per pair of `d`. */
  function RenamedKeys(m: map<string, string>, d: seq<Entry>): (ks: seq<string>)
    ensures |ks| == |d| && forall i :: 0 <= i < |d| ==> ks[i] == Rename(m, d[i].0)
  {
    seq(|d|, i requires 0 <= i < |d| => Rename(m, d[i].0))
  }

  /** Each pair of `d` under its renamed key. */
  function RenamedPairs(m: map<string, string>, d: seq<Entry>): (ps: seq<Entry>)
    ensures |ps| == |d| && forall i :: 0 <= i < |d| ==> ps[i] == (Rename(m, d[i].0), d[i].1)
  {
    seq(|d|, i requires 0 <= i < |d| => (Rename(m, d[i].0), d[i].1))
  }

  /** When no two keys are renamed alike, renaming keeps every pair of `d`
      in order, and changes exactly the keys that have a local id field. */
  lemma {:induction false} RenamedInjective(m: map<string, string>, d: seq<Entry>)
    requires Distinct(RenamedKeys(m, d))
    ensures Renamed(m, d) == RenamedPairs(m, d)
  {
    if d != [] {
      var n := |d| - 1;
      var init := d[..n];
      var key := Rename(m, d[n].0);
      RenamedKeysInit(m, d);
      RenamedInjective(m, init);
      var prev := Renamed(m, init);
      PairsKeys(m, init);
      PutAbsent(prev, key, d[n].1);
      PairsSnoc(m, d);
    }
  }

  /** Dropping the last pair drops the last renamed key, which is not among
      the others. */
  lemma RenamedKeysInit(m: map<string, string>, d: seq<Entry>)
    requires d != [] && Distinct(RenamedKeys(m, d))
    ensures Distinct(RenamedKeys(m, d[..|d| - 1]))
    ensures Rename(m, d[|d| - 1].0) !in RenamedKeys(m, d[..|d| - 1])
  {
    var n := |d| - 1;
    var ks, all := RenamedKeys(m, d[..n]), RenamedKeys(m, d);
    assert forall i :: 0 <= i < n ==> ks[i] == all[i];
    assert all[n] == Rename(m, d[n].0);
  }

  lemma PairsKeys(m: map<string, string>, d: seq<Entry>)
    ensures Keys(RenamedPairs(m, d)) == RenamedKeys(m, d)
  {
  }

  lemma PairsSnoc(m: map<string, string>, d: seq<Entry>)
    requires d != []
    ensures RenamedPairs(m, d) == RenamedPairs(m, d[..|d| - 1]) + [(Rename(m, d[|d| - 1].0), d[|d| - 1].1)]
  {
    var n := |d| - 1;
    var ps, qs := RenamedPairs(m, d), RenamedPairs(m, d[..n]) + [(Rename(m, d[n].0), d[n].1)];
    forall i | 0 <= i < |ps|
      ensures ps[i] == qs[i]
    {
      if i < n {
        assert d[..n][i] == d[i];
      }
    }
  }

  /** The loop of `rename_relationship_fields_in_dict`. */
  method RenameKeys(m: map<string, string>, d: seq<Entry>) returns (result: seq<Entry>)
    ensures result == Renamed(m, d)
  {
    result := [];
    for i := 0 to |d|
      invariant result == Renamed(m, d[..i])
    {
      RenamedSnoc(m, d, i);
      if d[i].0 in m {
        result := Put(result, m[d[i].0], d[i].1);
      } else {
        result := Put(result, d[i].0, d[i].1);
      }
    }
    assert d[..|d|] == d;
  }

  lemma RenamedSnoc(m: map<string, string>, d: seq<Entry>, i: nat)
    requires i < |d|
    ensures Renamed(m, d[..i + 1]) == Put(Renamed(m, d[..i]), Rename(m, d[i].0), d[i].1)
  {
    assert d[..i + 1][..i] == d[..i];
  }

  /** `rename_relationship_fields_in_dict(model, dict_)`. */
  method RenameRelationshipFieldsInDict(domain: Domain, model: string, d: seq<Entry>)
    returns (r: Result<seq<Entry>>)
    requires forall i :: 0 <= i < |domain| ==> DistinctKeys(domain[i].schema)
    ensures r.Ok? <==> FindResource(domain, model).Some?
    ensures r.Err? ==> r.error == KeyError("None")
    ensures r.Ok? ==>
      exists m :: IsRenameMapping(m, FindResource(domain, model).value.schema) && r.value == Renamed(m, d)
  {
    var mapping := RelationshipRenameMapping(domain, model);
    if mapping.Err? {
      return Err(mapping.error);
    }
    var renamed := RenameKeys(mapping.value, d);
    return Ok(renamed);
  }

  /** `rename_relationship_fields_in_sort_args(model, sort)`, with
      `rename_relationship_fields_in_str(model, _)` as `renameStr`: each
      tuple is copied with its first element renamed; an empty tuple raises
      `IndexError`. */
  method RenameRelationshipFieldsInSortArgs(renameStr: Value -> Result<Value>, sort: seq<seq<Value>>)
    returns (r: Result<seq<seq<Value>>>)
    ensures r.Ok? <==> forall i :: 0 <= i < |sort| ==> |sort[i]| > 0 && renameStr(sort[i][0]).Ok?
    ensures r.Ok? ==>
      && |r.value| == |sort|
      && forall i :: 0 <= i < |sort| ==>
        |r.value[i]| == |sort[i]| > 0 && r.value[i][0] == renameStr(sort[i][0]).value
        && r.value[i][1..] == sort[i][1..]
    ensures r.Err? ==>
      exists i ::
        && 0 <= i < |sort|
        && (forall j :: 0 <= j < i ==> |sort[j]| > 0 && renameStr(sort[j][0]).Ok?)
        && (if |sort[i]| == 0 then r.error == IndexError else renameStr(sort[i][0]) == Err(r.error))
  {
    var result: seq<seq<Value>> := [];
    for i := 0 to |sort|
      invariant |result| == i
      invariant forall j :: 0 <= j < i ==> |sort[j]| > 0 && renameStr(sort[j][0]).Ok?
      invariant forall j :: 0 <= j < i ==>
        |result[j]| == |sort[j]| && result[j][0] == renameStr(sort[j][0]).value
        && result[j][1..] == sort[j][1..]
    {
      var t := sort[i];
      if |t| == 0 {
        return Err(IndexError);
      }
      var first := renameStr(t[0]);
      if first.Err? {
        return Err(first.error);
      }
      t := [first.value] + t[1..];
      result := result + [t];
    }
    return Ok(result);
  }
}
