/** The request helpers of the data layer class: the sort fallback, the
    pagination arguments of `find`, the shapes a datasource filter may take,
    query concatenation, the immutable-id check, the projection field list
    and the choice of connection prefix.

    Flask's `request`, `g` and `abort`, the auth object and the Eve settings
    are parameters; `abort(code, ...)` is the error `Abort(code, ...)`. */
module MySql {
  import opened Common
  import opened Parser
  import opened FilterDict

  // ---------------------------------------------------------------------
  // _convert_sort_request_to_dict

  /** The stripped comma tokens of a sort string. */
  function Tokens(s: string): (ts: seq<string>)
    ensures |ts| == |Split(s, ',')| >= 1
    ensures forall i :: 0 <= i < |ts| ==> ts[i] == Strip(Split(s, ',')[i])
  {
    var parts := Split(s, ',');
    seq(|parts|, i requires 0 <= i < |parts| => Strip(parts[i]))
  }

  /** The pair for one token: `(x, -1)` for `-x`, `(x, 1)` otherwise. */
  function FallbackEntry(t: string): Value
    requires |t| > 0
  {
    if t[0] == '-' then List([Str(t[1..]), Int(-1)]) else List([Str(t), Int(1)])
  }

  /** The pairs for a sequence of tokens, in order. */
  function FallbackEntries(ts: seq<string>): (es: seq<Value>)
    requires forall i :: 0 <= i < |ts| ==> |ts[i]| > 0
    ensures |es| == |ts|
    ensures forall i :: 0 <= i < |es| ==> es[i] == FallbackEntry(ts[i])
  {
    seq(|ts|, i requires 0 <= i < |ts| => FallbackEntry(ts[i]))
  }

  /** The comma fallback of `_convert_sort_request_to_dict`: one pair per
      stripped token, in order; an empty token raises `IndexError`. */
  method FallbackSort(tokens: seq<string>) returns (r: Result<Value>)
    ensures r.Ok? <==> forall i :: 0 <= i < |tokens| ==> |tokens[i]| > 0
    ensures r.Err? ==> r.error == IndexError
    ensures r.Ok? ==> r.value == List(FallbackEntries(tokens))
  {
    var entries: seq<Value> := [];
    for i := 0 to |tokens|
      invariant |entries| == i
      invariant forall j :: 0 <= j < i ==> |tokens[j]| > 0 && entries[j] == FallbackEntry(tokens[j])
    {
      var arg := tokens[i];
      if |arg| == 0 {
        return Err(IndexError);
      }
      entries := entries + [FallbackEntry(arg)];
    }
    assert entries == FallbackEntries(tokens);
    return Ok(List(entries));
  }

  /** `_convert_sort_request_to_dict(req)` for the request's `sort` argument,
      with `ast.literal_eval` as `literalEval`: an absent sort gives `{}`; a
      literal is taken as it is; on a `ValueError` the string goes through the
      comma fallback; any other failure aborts with 400. */
  method ConvertSortRequest(sort: Option<string>, literalEval: string -> Result<Value>)
    returns (r: Result<Value>)
    ensures sort.None? || sort == Some("") ==> r == Ok(Dict([]))
    ensures sort.Some? && sort.value != "" && literalEval(sort.value).Ok? ==>
      r == Ok(literalEval(sort.value).value)
    ensures (sort.Some? && sort.value != "" && literalEval(sort.value).Err?
             && !literalEval(sort.value).error.ValueError?) ==> r == Err(Abort(400, None))
    ensures (sort.Some? && sort.value != "" && literalEval(sort.value).Err?
             && literalEval(sort.value).error.ValueError?) ==>
      && (r.Ok? <==> forall i :: 0 <= i < |Tokens(sort.value)| ==> |Tokens(sort.value)[i]| > 0)
      && (r.Err? ==> r.error == IndexError)
      && (r.Ok? ==> r.value == List(FallbackEntries(Tokens(sort.value))))
  {
    if sort.None? || sort.value == "" {
      return Ok(Dict([]));
    }
    var literal := literalEval(sort.value);
    if literal.Ok? {
      return Ok(literal.value);
    }
    if !literal.error.ValueError? {
      return Err(Abort(400, None));
    }
    r := FallbackSort(Tokens(sort.value));
  }

  /** A pair written back as a sort token. */
  function FallbackToken(e: Value): string
  {
    if e.List? && |e.items| == 2 && e.items[0].Str? && e.items[1] == Int(-1) then "-" + e.items[0].s
    else if e.List? && |e.items| == 2 && e.items[0].Str? then e.items[0].s
    else ""
  }

  /** For a sort string whose comma pieces are non-empty, the pairs determine
      the string: writing each back as a token and joining them with commas
      gives the string again. With `TokensUnstripped`, this is the round trip
      of the fallback for pieces that carry no surrounding blanks. */
  lemma FallbackRoundTrip(s: string)
    requires forall i :: 0 <= i < |Split(s, ',')| ==> |Split(s, ',')[i]| > 0
    ensures var es := FallbackEntries(Split(s, ','));
      |es| >= 1 && Common.Join(seq(|es|, i requires 0 <= i < |es| => FallbackToken(es[i])), ',') == s
  {
    var parts := Split(s, ',');
    var es := FallbackEntries(parts);
    var back := seq(|es|, i requires 0 <= i < |es| => FallbackToken(es[i]));
    forall i | 0 <= i < |parts|
      ensures back[i] == parts[i]
    {
      EntryToken(parts[i]);
    }
    assert back == parts;
  }

  /** A non-empty token with no whitespace at either end. */
  predicate Unpadded(t: string)
  {
    |t| > 0 && !IsSpace(t[0]) && !IsSpace(t[|t| - 1])
  }

  /** Stripping leaves an unpadded token as it is. */
  lemma StripUnpadded(t: string)
    requires Unpadded(t)
    ensures Strip(t) == t
  {
    assert SpaceRun(t) == 0;
    assert TrailingSpaceRun(t[0..]) == 0;
    assert t[0..|t|] == t;
  }

  /** Tokens that carry no surrounding blanks are the comma pieces themselves. */
  lemma TokensUnstripped(s: string)
    requires forall i :: 0 <= i < |Split(s, ',')| ==> Unpadded(Split(s, ',')[i])
    ensures Tokens(s) == Split(s, ',')
  {
    var parts := Split(s, ',');
    forall i | 0 <= i < |parts|
      ensures Tokens(s)[i] == parts[i]
    {
      StripUnpadded(parts[i]);
    }
  }

  /** One token survives the trip through its pair. */
  lemma EntryToken(t: string)
    requires |t| > 0
    ensures FallbackToken(FallbackEntry(t)) == t
  {
    if t[0] == '-' {
      assert "-" + t[1..] == t;
    }
  }

  // ---------------------------------------------------------------------
  // Pagination arguments of find

  /** The paging part of a parsed request. */
  datatype PageRequest = PageRequest(maxResults: Option<int>, page: int)

  /** Lines 106-112 of `find`: `limit` when `max_results` is truthy, `skip`
      when past the first page. Without `max_results` past the first page the
      multiplication by `None` raises `TypeError`. */
  function PaginationArgs(req: Option<PageRequest>): (r: Result<seq<Entry>>)
    ensures r.Err? <==> req.Some? && req.value.page > 1 && req.value.maxResults.None?
    ensures r.Err? ==> r.error == TypeError
    ensures r.Ok? ==> forall k :: HasKey(r.value, k) ==> k == "limit" || k == "skip"
    ensures r.Ok? ==>
      (HasKey(r.value, "limit") <==> req.Some? && req.value.maxResults.Some? && req.value.maxResults.value != 0)
    ensures r.Ok? && HasKey(r.value, "limit") ==> Get(r.value, "limit") == Some(Int(req.value.maxResults.value))
    ensures r.Ok? ==> (HasKey(r.value, "skip") <==> req.Some? && req.value.page > 1)
    ensures r.Ok? && HasKey(r.value, "skip") ==>
      Get(r.value, "skip") == Some(Int((req.value.page - 1) * req.value.maxResults.value))
  {
    var limit: seq<Entry> :=
      if req.Some? && req.value.maxResults.Some? && req.value.maxResults.value != 0
      then [("limit", Int(req.value.maxResults.value))]
      else [];
    if req.Some? && req.value.page > 1 then
      if req.value.maxResults.None? then Err(TypeError)
      else
        var skip := ("skip", Int((req.value.page - 1) * req.value.maxResults.value));
        assert Keys(limit + [skip]) == Keys(limit) + ["skip"];
        Ok(limit + [skip])
    else Ok(limit)
  }

  /** The offset a set of paging arguments starts at. */
  function Offset(args: seq<Entry>): int
  {
    match Get(args, "skip")
    case Some(Int(n)) => n
    case _ => 0
  }

  /** With a positive page size the pages tile the results: page 1 starts at
      offset 0 and each page starts where the one before ended. */
  lemma PagesTile(m: int, p: int)
    requires m > 0 && p >= 1
    ensures var here := PaginationArgs(Some(PageRequest(Some(m), p)));
      var next := PaginationArgs(Some(PageRequest(Some(m), p + 1)));
      && here.Ok? && next.Ok?
      && (p == 1 ==> Offset(here.value) == 0)
      && Offset(next.value) == Offset(here.value) + m
      && Get(here.value, "limit") == Some(Int(m))
  {
    var here := PaginationArgs(Some(PageRequest(Some(m), p)));
    var next := PaginationArgs(Some(PageRequest(Some(m), p + 1)));
    assert Get(next.value, "skip") == Some(Int(p * m));
    if p > 1 {
      assert Get(here.value, "skip") == Some(Int((p - 1) * m));
    } else {
      assert !HasKey(here.value, "skip");
    }
    assert p * m == (p - 1) * m + m;
  }

  // ---------------------------------------------------------------------
  // _parse_filter

  /** A datasource filter: a value from the settings, or a list of
      conditions already built. */
  datatype FilterArg = Filter(v: Value) | Conditions(conds: seq<Cond>)

  /** `_parse_filter(model, filter)`: nothing for `None` or an empty filter, a
      string through the expression parser, a dict through `parse_dictionary`,
      a list of conditions as it is, nothing for any other sized value;
      `len()` of an unsized value raises `TypeError`. */
  function ParseFilter(fe: Env, f: FilterArg): (r: Result<seq<Cond>>)
    requires Shrinking(fe.jsonLoads)
    requires f.Filter? ==> !f.v.List?
    ensures f.Conditions? ==> r == Ok(f.conds)
    ensures f.Filter? && (f.v.Null? || Len(f.v) == Ok(0)) ==> r == Ok([])
    ensures f.Filter? && !f.v.Null? && Len(f.v).Err? ==> r == Err(TypeError)
    ensures f.Filter? && f.v.Str? && f.v.s != "" ==> r == fe.parse(f.v.s)
    ensures f.Filter? && f.v.Set? ==> r == Ok([])
  {
    match f
    case Conditions(cs) => Ok(cs)
    case Filter(v) =>
      if v.Null? then Ok([])
      else
        match Len(v)
        case Err(e) => Err(e)
        case Ok(n) =>
          if n == 0 then Ok([])
          else if v.Str? then fe.parse(v.s)
          else if v.Dict? then CompileDict(fe, v)
          else Ok([])
  }

  /** For a dict the emptiness test is redundant: `_parse_filter` agrees with
      `parse_dictionary` on every dict, the empty one included. */
  lemma ParseFilterDict(fe: Env, es: seq<Entry>)
    requires Shrinking(fe.jsonLoads)
    ensures ParseFilter(fe, Filter(Dict(es))) == CompileDict(fe, Dict(es))
  {
    if es == [] {
      assert CompileDict(fe, Dict([])) == Ok([]);
    }
  }

  // ---------------------------------------------------------------------
  // combine_queries

  /** A Python list of conditions, extended in place. */
  class QueryList {
    var conds: seq<Cond>

    constructor (cs: seq<Cond>)
      ensures conds == cs
    {
      conds := cs;
    }
  }

  /** `combine_queries(query_a, query_b)`: `query_a` is extended with
      `query_b` and returned. When both are the same list it ends up holding
      its old contents twice. */
  method CombineQueries(a: QueryList, b: QueryList) returns (r: QueryList)
    modifies a
    ensures r == a
    ensures a.conds == old(a.conds) + old(b.conds)
    ensures b != a ==> b.conds == old(b.conds)
  {
    var added := b.conds;
    a.conds := a.conds + added;
    return a;
  }

  // ---------------------------------------------------------------------
  // _handle_immutable_id

  /** The number a boolean, an integer or a float stands for. */
  function Number(v: Value): Option<real>
  {
    match v
    case Bool(b) => Some(if b then 1.0 else 0.0)
    case Int(i) => Some(i as real)
    case Float(r) => Some(r)
    case _ => None
  }

  /** Python's `==` on two values: numbers compare by value, so `True == 1` and `1.0 == 1`. */
  predicate PyEq(a: Value, b: Value)
  {
    if Number(a).Some? && Number(b).Some? then Number(a) == Number(b) else a == b
  }

  const ImmutableBefore := "Attempt to update an immutable field. Usually happens when PATCH or PUT include a '"
  const ImmutableAfter := "' field, which is immutable (PUT can include it as long as it is unchanged)."

  function ImmutableMessage(idField: string): string
  {
    ImmutableBefore + idField + ImmutableAfter
  }

  /** `_handle_immutable_id(id_field, original_instance, updates)` for an
      instance with attributes `original`: the updates are rejected iff they
      carry the id field with a value different from the stored one. */
  function HandleImmutableId(idField: string, original: seq<Entry>, updates: seq<Entry>): (r: Result<()>)
    ensures !HasKey(updates, idField) ==> r.Ok?
    ensures HasKey(updates, idField) && HasKey(original, idField) ==>
      (r.Ok? <==> PyEq(Get(original, idField).value, Get(updates, idField).value))
    ensures r.Err? && HasKey(original, idField) ==> r.error == Abort(400, Some(ImmutableMessage(idField)))
    ensures HasKey(updates, idField) && !HasKey(original, idField) ==> r == Err(AttributeError(idField))
  {
    if !HasKey(updates, idField) then Ok(())
    else
      match Get(original, idField)
      case None => Err(AttributeError(idField))
      case Some(stored) =>
        if !PyEq(stored, Get(updates, idField).value)
        then Err(Abort(400, Some(ImmutableMessage(idField))))
        else Ok(())
  }

  /** A PUT that repeats the stored id, or the same number as a boolean, is accepted. */
  lemma UnchangedIdAccepted(idField: string, original: seq<Entry>, updates: seq<Entry>)
    requires HasKey(original, idField) && HasKey(updates, idField)
    requires Number(Get(original, idField).value).Some?
    requires Number(Get(original, idField).value) == Number(Get(updates, idField).value)
    ensures HandleImmutableId(idField, original, updates) == Ok(())
  {
  }

  // ---------------------------------------------------------------------
  // The field list of _datasource_ex

  /** `[field for field in fields_.keys() if fields_[field]]`. */
  function ProjectionFields(projection: seq<Entry>): (r: seq<string>)
    ensures |r| <= |projection|
    ensures forall f :: f in r <==> exists i :: 0 <= i < |projection| && projection[i].0 == f && Truthy(projection[i].1)
    ensures DistinctKeys(projection) ==> Distinct(r)
  {
    if projection == [] then []
    else
      var rest := ProjectionFields(projection[1..]);
      assert forall i :: 0 < i < |projection| ==> projection[1..][i - 1] == projection[i];
      assert DistinctKeys(projection) ==> DistinctKeys(projection[1..]) && projection[0].0 !in rest by {
        if DistinctKeys(projection) {
          DistinctKeysTail(projection);
        }
      }
      if Truthy(projection[0].1) then [projection[0].0] + rest else rest
  }

  /** The positions, from `from` on, of the truthy entries, in increasing order. */
  function TruthyPositions(projection: seq<Entry>, from: nat): (t: seq<nat>)
    requires from <= |projection|
    ensures forall k :: 0 <= k < |t| ==> from <= t[k] < |projection| && Truthy(projection[t[k]].1)
    ensures forall a, b :: 0 <= a < b < |t| ==> t[a] < t[b]
    ensures forall i :: from <= i < |projection| && Truthy(projection[i].1) ==> i in t
    decreases |projection| - from
  {
    if from == |projection| then []
    else (if Truthy(projection[from].1) then [from] else []) + TruthyPositions(projection, from + 1)
  }

  /** The projected fields keep the order of the projection: the `k`-th is the
      name of the `k`-th truthy entry. */
  lemma {:induction false} ProjectionInOrder(projection: seq<Entry>, from: nat)
    requires from <= |projection|
    ensures var r := ProjectionFields(projection[from..]);
      var t := TruthyPositions(projection, from);
      |r| == |t| && forall k :: 0 <= k < |r| ==> r[k] == projection[t[k]].0
    decreases |projection| - from
  {
    if from < |projection| {
      ProjectionInOrder(projection, from + 1);
      var rest := projection[from..];
      assert rest[1..] == projection[from + 1..];
      assert rest[0] == projection[from];
      InOrderCons(projection, from, ProjectionFields(rest), ProjectionFields(rest[1..]),
                  TruthyPositions(projection, from), TruthyPositions(projection, from + 1));
    }
  }

  /** One more entry in front keeps names and positions in step. */
  lemma InOrderCons(projection: seq<Entry>, from: nat, r: seq<string>, rs: seq<string>, t: seq<nat>, ts: seq<nat>)
    requires from < |projection|
    requires r == (if Truthy(projection[from].1) then [projection[from].0] else []) + rs
    requires t == (if Truthy(projection[from].1) then [from] else []) + ts
    requires |rs| == |ts| && forall k :: 0 <= k < |ts| ==> ts[k] < |projection| && rs[k] == projection[ts[k]].0
    ensures |r| == |t| && forall k :: 0 <= k < |r| ==> t[k] < |projection| && r[k] == projection[t[k]].0
  {
  }

  // ---------------------------------------------------------------------
  // current_mysql_prefix

  /** The index of the first `c` in `s`. */
  function IndexOf(s: string, c: char): (i: nat)
    requires c in s
    ensures i < |s| && s[i] == c && c !in s[..i]
  {
    if s[0] == c then 0
    else
      assert c in s[1..];
      1 + IndexOf(s[1..], c)
  }

  /** The resource named by a request endpoint `resource|method`;
      `str.index` raises `ValueError` when there is no `|`. */
  function EndpointResource(endpoint: string): Option<string>
  {
    if '|' in endpoint then Some(endpoint[..IndexOf(endpoint, '|')]) else None
  }

  /** `current_mysql_prefix(resource)`. `endpoint` is the current request's
      endpoint (absent outside a request); `resourceAuth(r)` is the auth object
      of resource `r`, absent when the resource has none, holding what its
      `get_mysql_prefix()` returns; `globalPrefix` is `g.mysql_prefix`;
      `domainPrefix(r)` is absent when `r` is not in `DOMAIN`, and otherwise
      holds the resource's `mysql_prefix` setting, if any. */
  function CurrentMysqlPrefix(resource: Option<string>, endpoint: Option<string>,
                              resourceAuth: string -> Option<Option<string>>,
                              globalPrefix: Option<string>,
                              domainPrefix: string -> Option<Option<string>>): (r: Result<string>)
    ensures var res := if resource.None? && endpoint.Some? && endpoint.value != ""
                       then EndpointResource(endpoint.value) else resource;
      var auth := if endpoint.Some? && endpoint.value != "" && res.Some? then resourceAuth(res.value) else None;
      && (auth.Some? && auth.value.Some? ==> r == Ok(auth.value.value))
      && (!(auth.Some? && auth.value.Some?) && globalPrefix.Some? ==> r == Ok(globalPrefix.value))
      && (!(auth.Some? && auth.value.Some?) && globalPrefix.None? && res.Some? && res.value != "" ==>
            r == (match domainPrefix(res.value)
                  case None => Err(KeyError(res.value))
                  case Some(None) => Ok("MYSQL")
                  case Some(Some(p)) => Ok(p)))
      && (!(auth.Some? && auth.value.Some?) && globalPrefix.None? && !(res.Some? && res.value != "") ==>
            r == Ok("MYSQL"))
  {
    var hasEndpoint := endpoint.Some? && endpoint.value != "";
    var res := if resource.None? && hasEndpoint then EndpointResource(endpoint.value) else resource;
    var auth := if hasEndpoint && res.Some? then resourceAuth(res.value) else None;
    var px := if auth.Some? then auth.value else None;
    var px := if px.None? then globalPrefix else px;
    if px.Some? then Ok(px.value)
    else if res.Some? && res.value != "" then
      match domainPrefix(res.value)
      case None => Err(KeyError(res.value))
      case Some(None) => Ok("MYSQL")
      case Some(Some(p)) => Ok(p)
    else Ok("MYSQL")
  }
}
