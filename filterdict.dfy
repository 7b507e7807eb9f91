/** `parse_dictionary` of eve/io/mysql/parser.py: compiles a JSON filter
    document such as `{"name": "like(\"%john%\")", "age": ">18"}` into ORM
    conditions, key by key in the document's order.

    The compiler works in an `Env`: the model and its metadata, the expression
    parser it tries first (`Visitor.Parse` in `StandardEnv`), and Python's
    `json.loads` and `str` as parameters. `CompileDict` is the specification;
    the method `ParseDictionary` builds the list with loops as the source does
    and is proved equal to it. */
module FilterDict {
  import opened Common
  import opened Parser
  import opened Visitor

  /** What the compiler works with: the model, the expression parser
      (`parse`), `json.loads` (`None` for undecodable text) and `str`. */
  datatype Env = Env(meta: Metadata, model: string,
                     parse: string -> Result<seq<Cond>>,
                     jsonLoads: string -> Option<Value>,
                     str: Value -> string)

  /** The environment `parse_dictionary` runs in: `parse` is the visitor
      with the list store, over the syntax trees `astParse` produces. */
  function StandardEnv(meta: Metadata, model: string, astParse: string -> Option<seq<Node>>,
                       jsonLoads: string -> Option<Value>, str: Value -> string): Env
  {
    Env(meta, model, t => Parse(Ctx(meta, model, false), astParse, t), jsonLoads, str)
  }

  /** Python iteration over a value: a list's or set's elements, a dict's keys,
      a string's characters; anything else is not iterable. No element is
      larger than the value, and each is smaller unless the value is a string. */
  function SubValues(x: Value): (r: Result<seq<Value>>)
    ensures r.Err? <==> !(x.List? || x.Set? || x.Dict? || x.Str?)
    ensures r.Err? ==> r.error == TypeError
    ensures r.Ok? ==> forall i :: 0 <= i < |r.value| ==> Size(r.value[i]) <= Size(x)
    ensures r.Ok? && !x.Str? ==> forall i :: 0 <= i < |r.value| ==> Size(r.value[i]) < Size(x)
  {
    match x
    case List(xs) =>
      assert forall i :: 0 <= i < |xs| ==> Size(xs[i]) <= SizeItems(xs) by {
        forall i | 0 <= i < |xs| ensures Size(xs[i]) <= SizeItems(xs) { ItemSmaller(xs, i); }
      }
      Ok(xs)
    case Set(xs) =>
      assert forall i :: 0 <= i < |xs| ==> Size(xs[i]) <= SizeItems(xs) by {
        forall i | 0 <= i < |xs| ensures Size(xs[i]) <= SizeItems(xs) { ItemSmaller(xs, i); }
      }
      Ok(xs)
    case Dict(es) =>
      var keys := seq(|es|, i requires 0 <= i < |es| => Str(es[i].0));
      assert forall i :: 0 <= i < |es| ==> 1 + |es[i].0| <= SizeEntries(es, x) by {
        forall i | 0 <= i < |es| ensures 1 + |es[i].0| <= SizeEntries(es, x) { EntrySmaller(es, x, i); }
      }
      Ok(keys)
    case Str(s) => Ok(seq(|s|, i requires 0 <= i < |s| => Str([s[i]])))
    case _ => Err(TypeError)
  }

  /** The exceptions the `and_`/`or_` handler turns into a `ParseError`:
      `TypeError` and `ValueError`, of which `ParseError` is a subclass. */
  predicate Caught(e: Error)
  {
    e.TypeError? || e.ValueError? || e.ParseError?
  }

  function Rewrap(fe: Env, e: Error, shown: Value): (r: Error)
    ensures Caught(e) ==> r.ParseError?
    ensures !Caught(e) ==> r == e
  {
    if Caught(e) then ParseError("Can't parse expression '" + fe.str(shown) + "'") else e
  }

  /** `Then(a, b)`: `a`'s conditions followed by `b`'s, or the first error. */
  function Then(a: Result<seq<Cond>>, b: Result<seq<Cond>>): Result<seq<Cond>>
  {
    if a.Err? then a else if b.Err? then b else Ok(a.value + b.value)
  }

  lemma ThenStep(c: seq<Cond>, a: Result<seq<Cond>>, rest: Result<seq<Cond>>)
    ensures Then(Ok(c), Then(a, rest)) == if a.Err? then a else Then(Ok(c + a.value), rest)
  {
    if a.Ok? && rest.Ok? {
      assert c + (a.value + rest.value) == (c + a.value) + rest.value;
    }
  }

  /** `parse_dictionary(filter_dict, model)`: `len()` first, then `.items()`. */
  function CompileDict(fe: Env, f: Value): (r: Result<seq<Cond>>)
    requires Shrinking(fe.jsonLoads)
    decreases Size(f), 1
  {
    match Len(f)
    case Err(e) => Err(e)
    case Ok(n) =>
      if n == 0 then Ok([])
      else if !f.Dict? then Err(AttributeError("items"))
      else
        DictSize(f.entries);
        CompileEntries(fe, f.entries)
  }

  /** The entries in order, each contributing `CompileEntry`'s conditions. */
  function CompileEntries(fe: Env, es: seq<Entry>): (r: Result<seq<Cond>>)
    requires Shrinking(fe.jsonLoads)
    decreases EntriesSize(es), 2
  {
    if es == [] then Ok([])
    else Then(CompileEntry(fe, es[0].0, es[0].1), CompileEntries(fe, es[1..]))
  }

  /** One key: the expression parser first (`"{k}{v}"`); only when it raises a
      `ParseError` does the key get structural treatment. */
  function CompileEntry(fe: Env, k: string, v: Value): (r: Result<seq<Cond>>)
    requires Shrinking(fe.jsonLoads)
    decreases Size(v), 1
  {
    match fe.parse(k + fe.str(v))
    case Ok(cs) => Ok(cs)
    case Err(e) =>
      if !e.ParseError? then Err(e)
      else if k == "and_" || k == "or_" then CompileBool(fe, if k == "and_" then And else Or, v)
      else CompileAttribute(fe, k, v)
  }

  /** The operand list of an `and_`/`or_` key: a list as it is, any other value
      decoded as JSON (`json.loads` of a non-string is a `TypeError`). */
  function Operands(fe: Env, v: Value): (r: Result<Value>)
    requires Shrinking(fe.jsonLoads)
    ensures r.Ok? && v.List? ==> r.value == v
    ensures r.Ok? && !v.List? ==> v.Str? && Size(r.value) < Size(v)
  {
    if v.List? then Ok(v)
    else if !v.Str? then Err(TypeError)
    else match fe.jsonLoads(v.s)
      case None => Err(ValueError("invalid JSON"))
      case Some(x) => Ok(x)
  }

  /** `and_`/`or_`: one combined condition over the concatenation of the
      operands' compilations; a `TypeError` or `ValueError` anywhere becomes a
      `ParseError` naming the operand list. */
  function CompileBool(fe: Env, kind: BoolKind, v: Value): (r: Result<seq<Cond>>)
    requires Shrinking(fe.jsonLoads)
    decreases Size(v), 0
  {
    match Operands(fe, v)
    case Err(e) => Err(Rewrap(fe, e, v))
    case Ok(x) =>
      match SubValues(x)
      case Err(e) => Err(Rewrap(fe, e, x))
      case Ok(svs) =>
        match CompileAll(fe, svs, Size(v))
        case Err(e) => Err(Rewrap(fe, e, x))
        case Ok(cs) => Ok([Combined(kind, cs)])
  }

  /** `itertools.chain` of `parse_dictionary` over the operands. */
  function CompileAll(fe: Env, svs: seq<Value>, ghost bound: nat): (r: Result<seq<Cond>>)
    requires Shrinking(fe.jsonLoads)
    requires forall i :: 0 <= i < |svs| ==> Size(svs[i]) < bound
    decreases bound, 0, |svs|
  {
    if svs == [] then Ok([])
    else Then(CompileDict(fe, svs[0]), CompileAll(fe, svs[1..], bound))
  }

  /** A plain attribute path: its joins, then one condition chosen by the kind
      of attribute it names. */
  function CompileAttribute(fe: Env, k: string, v: Value): (r: Result<seq<Cond>>)
  {
    match Resolve(fe.meta, fe.model, k)
    case Err(e) => Err(e)
    case Ok((attr, joins)) => Ok(JoinConds(joins) + AttributeConds(fe, attr, v))
  }

  /** An association proxy matches a dict with `any` and anything else with
      `contains`; a relationship adds its joins and compares its remote column;
      a column takes an operator call, or membership for a list, or equality. */
  function AttributeConds(fe: Env, attr: Attr, v: Value): seq<Cond>
  {
    match attr.kind
    case AssocProxy => [if v.Dict? then Any(attr.col, v.entries) else Contains(attr.col, v)]
    case Relationship(_, _, _, _, _, _) => JoinConds(HopJoins(attr.kind)) + [Compare(Eq, LeftColumn(attr), v)]
    case Scalar =>
      match ParseSqlaOperators(v, fe.jsonLoads)
      case Ok((o, x)) => [OpCall(attr.col, o, x)]
      case Err(_) => [if v.List? then In(attr.col, v.items) else Compare(Eq, attr.col, v)]
  }

  lemma ThenAssoc(a: Result<seq<Cond>>, b: Result<seq<Cond>>, c: Result<seq<Cond>>)
    ensures Then(Then(a, b), c) == Then(a, Then(b, c))
  {
    if a.Ok? && b.Ok? && c.Ok? {
      assert (a.value + b.value) + c.value == a.value + (b.value + c.value);
    }
  }

  lemma {:induction false} EntriesConcat(fe: Env, es1: seq<Entry>, es2: seq<Entry>)
    requires Shrinking(fe.jsonLoads)
    ensures CompileEntries(fe, es1 + es2) == Then(CompileEntries(fe, es1), CompileEntries(fe, es2))
    decreases |es1|
  {
    if es1 == [] {
      assert es1 + es2 == es2;
      var r := CompileEntries(fe, es2);
      if r.Ok? {
        assert [] + r.value == r.value;
      }
    } else {
      assert (es1 + es2)[1..] == es1[1..] + es2;
      EntriesConcat(fe, es1[1..], es2);
      ThenAssoc(CompileEntry(fe, es1[0].0, es1[0].1), CompileEntries(fe, es1[1..]), CompileEntries(fe, es2));
    }
  }

  /** Keys are compiled independently and in order: the conditions of a
      document are those of its first part followed by those of the rest, and
      the first error wins. */
  lemma CompileDictConcat(fe: Env, es1: seq<Entry>, es2: seq<Entry>)
    requires Shrinking(fe.jsonLoads)
    requires es1 != [] && es2 != []
    ensures CompileDict(fe, Dict(es1 + es2)) == Then(CompileDict(fe, Dict(es1)), CompileDict(fe, Dict(es2)))
  {
    EntriesConcat(fe, es1, es2);
  }

  /** A one-key document compiles to what its key contributes. */
  lemma SingleKey(fe: Env, k: string, v: Value)
    requires Shrinking(fe.jsonLoads)
    ensures CompileDict(fe, Dict([(k, v)])) == CompileEntry(fe, k, v)
  {
    assert [(k, v)][1..] == [];
    var e := CompileEntry(fe, k, v);
    DictSize([(k, v)]);
    assert CompileDict(fe, Dict([(k, v)])) == CompileEntries(fe, [(k, v)]) == Then(e, CompileEntries(fe, []));
    if e.Ok? {
      assert e.value + [] == e.value;
    }
  }

  /** Tie-break: when `"{k}{v}"` parses as an expression, its conditions are
      the key's, and no structural handling happens. */
  lemma TieBreak(fe: Env, k: string, v: Value)
    requires Shrinking(fe.jsonLoads)
    requires fe.parse(k + fe.str(v)).Ok?
    ensures CompileDict(fe, Dict([(k, v)])) == fe.parse(k + fe.str(v))
  {
    SingleKey(fe, k, v);
  }

  /** The key's own handling applies exactly when the expression parser
      rejects `"{k}{v}"` with a `ParseError`. */
  predicate Structural(fe: Env, k: string, v: Value)
  {
    fe.parse(k + fe.str(v)).Err? && fe.parse(k + fe.str(v)).error.ParseError?
  }

  /** The conditions of the operands, concatenated, when each compiles. */
  function Chain(fe: Env, svs: seq<Value>): seq<Cond>
    requires Shrinking(fe.jsonLoads)
    requires forall i :: 0 <= i < |svs| ==> CompileDict(fe, svs[i]).Ok?
  {
    if svs == [] then [] else CompileDict(fe, svs[0]).value + Chain(fe, svs[1..])
  }

  lemma {:induction false} CompileAllChains(fe: Env, svs: seq<Value>, bound: nat)
    requires Shrinking(fe.jsonLoads)
    requires forall i :: 0 <= i < |svs| ==> Size(svs[i]) < bound
    requires forall i :: 0 <= i < |svs| ==> CompileDict(fe, svs[i]).Ok?
    ensures CompileAll(fe, svs, bound) == Ok(Chain(fe, svs))
    decreases |svs|
  {
    if svs != [] {
      CompileAllChains(fe, svs[1..], bound);
    }
  }

  /** `and_`/`or_` over a list: exactly one combined condition whose operands
      are the concatenation of each sub-document's conditions, in order. */
  lemma AndOrCombines(fe: Env, k: string, svs: seq<Value>)
    requires Shrinking(fe.jsonLoads)
    requires k == "and_" || k == "or_"
    requires Structural(fe, k, List(svs))
    requires forall i :: 0 <= i < |svs| ==> CompileDict(fe, svs[i]).Ok?
    ensures CompileDict(fe, Dict([(k, List(svs))]))
         == Ok([Combined(if k == "and_" then And else Or, Chain(fe, svs))])
  {
    SingleKey(fe, k, List(svs));
    var sub := SubValues(List(svs));
    CompileAllChains(fe, svs, Size(List(svs)));
  }

  /** `and_`/`or_` whose value is neither a list nor decodable JSON text, or
      whose operands fail with a `TypeError` or `ValueError`, is a `ParseError`. */
  lemma AndOrRejects(fe: Env, k: string, v: Value)
    requires Shrinking(fe.jsonLoads)
    requires k == "and_" || k == "or_"
    requires Structural(fe, k, v)
    requires !v.List? && (v.Str? ==> fe.jsonLoads(v.s).None?)
    ensures CompileDict(fe, Dict([(k, v)])).Err?
    ensures CompileDict(fe, Dict([(k, v)])).error.ParseError?
  {
    SingleKey(fe, k, v);
  }

  /** A relationship key: the path's joins, the relationship's primary then
      secondary join, then equality on its remote column, which is the
      target's primary key for a multi-valued relationship. */
  lemma RelationshipKey(fe: Env, k: string, v: Value)
    requires Shrinking(fe.jsonLoads)
    requires k != "and_" && k != "or_" && Structural(fe, k, v)
    requires Resolve(fe.meta, fe.model, k).Ok?
    requires Resolve(fe.meta, fe.model, k).value.0.kind.Relationship?
    ensures
      var (attr, joins) := Resolve(fe.meta, fe.model, k).value;
      var rel := attr.kind;
      CompileDict(fe, Dict([(k, v)]))
        == Ok(JoinConds(joins + HopJoins(rel))
              + [Compare(Eq, if rel.uselist then rel.targetPk else rel.remoteSide, v)])
  {
    SingleKey(fe, k, v);
    var (attr, joins) := Resolve(fe.meta, fe.model, k).value;
    JoinCondsAppend(joins, HopJoins(attr.kind));
    var cmp := Compare(Eq, LeftColumn(attr), v);
    AppendAssoc(JoinConds(joins), JoinConds(HopJoins(attr.kind)), [cmp]);
  }

  /** A column key whose value is not an operator call: membership for a
      list, equality otherwise, after the path's joins. */
  lemma ScalarKey(fe: Env, k: string, v: Value)
    requires Shrinking(fe.jsonLoads)
    requires k != "and_" && k != "or_" && Structural(fe, k, v)
    requires Resolve(fe.meta, fe.model, k).Ok?
    requires Resolve(fe.meta, fe.model, k).value.0.kind.Scalar?
    requires ParseSqlaOperators(v, fe.jsonLoads).Err?
    ensures
      var (attr, joins) := Resolve(fe.meta, fe.model, k).value;
      CompileDict(fe, Dict([(k, v)]))
        == Ok(JoinConds(joins) + [if v.List? then In(attr.col, v.items) else Compare(Eq, attr.col, v)])
  {
    SingleKey(fe, k, v);
  }

  /** A column key whose value is an operator call such as `like("%john%")`:
      that operator applied to the decoded argument. */
  lemma OperatorKey(fe: Env, k: string, v: Value)
    requires Shrinking(fe.jsonLoads)
    requires k != "and_" && k != "or_" && Structural(fe, k, v)
    requires Resolve(fe.meta, fe.model, k).Ok?
    requires Resolve(fe.meta, fe.model, k).value.0.kind.Scalar?
    requires ParseSqlaOperators(v, fe.jsonLoads).Ok?
    ensures
      var (attr, joins) := Resolve(fe.meta, fe.model, k).value;
      var (o, x) := ParseSqlaOperators(v, fe.jsonLoads).value;
      CompileDict(fe, Dict([(k, v)])) == Ok(JoinConds(joins) + [OpCall(attr.col, o, x)])
  {
    SingleKey(fe, k, v);
  }

  /** An association proxy key: `any` over a dict's criteria, `contains` for
      any other value, after the path's joins. */
  lemma ProxyKey(fe: Env, k: string, v: Value)
    requires Shrinking(fe.jsonLoads)
    requires k != "and_" && k != "or_" && Structural(fe, k, v)
    requires Resolve(fe.meta, fe.model, k).Ok?
    requires Resolve(fe.meta, fe.model, k).value.0.kind.AssocProxy?
    ensures
      var (attr, joins) := Resolve(fe.meta, fe.model, k).value;
      CompileDict(fe, Dict([(k, v)]))
        == Ok(JoinConds(joins) + [if v.Dict? then Any(attr.col, v.entries) else Contains(attr.col, v)])
  {
    SingleKey(fe, k, v);
  }

  /** A filter document `{path: leaf}` and the expression `path == leaf` give
      the same conditions: the path's joins, a relationship's own joins, then
      equality on the column the comparison constrains. This holds for a
      column whose value is not an operator call, and for a relationship. */
  lemma DictMatchesExpression(meta: Metadata, model: string, astParse: string -> Option<seq<Node>>,
                              jsonLoads: string -> Option<Value>, str: Value -> string, left: Node, leaf: Node)
    requires Shrinking(jsonLoads)
    requires DottedName(left).Some? && IsLeaf(leaf)
    requires DottedName(left).value != "and_" && DottedName(left).value != "or_"
    requires Resolve(meta, model, DottedName(left).value).Ok?
    requires !Resolve(meta, model, DottedName(left).value).value.0.kind.AssocProxy?
    requires Structural(StandardEnv(meta, model, astParse, jsonLoads, str), DottedName(left).value, LeafValue(leaf))
    requires Resolve(meta, model, DottedName(left).value).value.0.kind.Scalar? ==>
               ParseSqlaOperators(LeafValue(leaf), jsonLoads).Err?
    ensures
      var fe := StandardEnv(meta, model, astParse, jsonLoads, str);
      CompileDict(fe, Dict([(DottedName(left).value, LeafValue(leaf))]))
        == VisitModuleBody(Ctx(meta, model, false), [ExprStmt(CompareExpr(left, [EqTok], [leaf]))])
  {
    var fe := StandardEnv(meta, model, astParse, jsonLoads, str);
    var ctx := Ctx(meta, model, false);
    var n := CompareExpr(left, [EqTok], [leaf]);
    var (attr, joins) := Resolve(meta, model, DottedName(left).value).value;
    EqualityKey(fe, DottedName(left).value, LeafValue(leaf));
    SingleCompareModule(ctx, n);
    assert CompareCond(ctx, n) == Compare(Eq, LeftColumn(attr), LeafValue(leaf));
    assert CompareJoins(ctx, n) == joins + OwnJoins(attr);
  }

  /** A relationship key, or a column key whose value is neither a list nor an
      operator call: the joins of the path and of the attribute, then equality
      on the column `LeftColumn` picks. */
  lemma EqualityKey(fe: Env, k: string, v: Value)
    requires Shrinking(fe.jsonLoads)
    requires k != "and_" && k != "or_" && Structural(fe, k, v) && !v.List?
    requires Resolve(fe.meta, fe.model, k).Ok?
    requires !Resolve(fe.meta, fe.model, k).value.0.kind.AssocProxy?
    requires Resolve(fe.meta, fe.model, k).value.0.kind.Scalar? ==> ParseSqlaOperators(v, fe.jsonLoads).Err?
    ensures
      var (attr, joins) := Resolve(fe.meta, fe.model, k).value;
      CompileDict(fe, Dict([(k, v)])) == Ok(JoinConds(joins + OwnJoins(attr)) + [Compare(Eq, LeftColumn(attr), v)])
  {
    var (attr, joins) := Resolve(fe.meta, fe.model, k).value;
    if attr.kind.Relationship? {
      RelationshipKey(fe, k, v);
    } else {
      ScalarKey(fe, k, v);
      assert joins + [] == joins;
    }
  }

  // ---------------------------------------------------------------------
  // The imperative compiler.

  /** `parse_dictionary`: the size and shape checks, then the keys. */
  method ParseDictionary(fe: Env, f: Value) returns (r: Result<seq<Cond>>)
    requires Shrinking(fe.jsonLoads)
    ensures r == CompileDict(fe, f)
    decreases Size(f), 1
  {
    var n := Len(f);
    if n.Err? {
      return Err(n.error);
    }
    if n.value == 0 {
      return Ok([]);
    }
    if !f.Dict? {
      return Err(AttributeError("items"));
    }
    DictSize(f.entries);
    r := ParseEntries(fe, f.entries);
  }

  /** The loop over `filter_dict.items()`, extending `conditions` key by key. */
  method ParseEntries(fe: Env, es: seq<Entry>) returns (r: Result<seq<Cond>>)
    requires Shrinking(fe.jsonLoads)
    ensures r == CompileEntries(fe, es)
    decreases EntriesSize(es), 2
  {
    var conditions: seq<Cond> := [];
    EntriesFrom(fe, es, 0, conditions);
    var i := 0;
    while i < |es|
      invariant 0 <= i <= |es|
      invariant CompileEntries(fe, es)
             == Then(Ok(conditions), CompileEntries(fe, es[i..]))
    {
      EntryInside(es, i);
      var added := ParseEntry(fe, es[i].0, es[i].1);
      EntriesFrom(fe, es, i, conditions);
      if added.Err? {
        return Err(added.error);
      }
      conditions := conditions + added.value;
      i := i + 1;
    }
    EntriesFrom(fe, es, i, conditions);
    r := Ok(conditions);
  }

  /** One step of the loop over the entries, and its two ends. */
  lemma EntriesFrom(fe: Env, es: seq<Entry>, i: nat, acc: seq<Cond>)
    requires Shrinking(fe.jsonLoads)
    requires i <= |es|
    ensures i == 0 && acc == [] ==> Then(Ok(acc), CompileEntries(fe, es[i..])) == CompileEntries(fe, es)
    ensures i == |es| ==> Then(Ok(acc), CompileEntries(fe, es[i..])) == Ok(acc)
    ensures i < |es| ==>
      var e := CompileEntry(fe, es[i].0, es[i].1);
      Then(Ok(acc), CompileEntries(fe, es[i..]))
        == if e.Err? then e else Then(Ok(acc + e.value), CompileEntries(fe, es[i + 1..]))
  {
    if i == 0 && acc == [] {
      assert es[i..] == es;
      var all := CompileEntries(fe, es);
      if all.Ok? {
        assert acc + all.value == all.value;
      }
    }
    if i == |es| {
      assert acc + [] == acc;
    }
    if i < |es| {
      assert es[i..][1..] == es[i + 1..];
      ThenStep(acc, CompileEntry(fe, es[i].0, es[i].1), CompileEntries(fe, es[i + 1..]));
    }
  }

  /** The conditions one key contributes. */
  method ParseEntry(fe: Env, k: string, v: Value) returns (r: Result<seq<Cond>>)
    requires Shrinking(fe.jsonLoads)
    ensures r == CompileEntry(fe, k, v)
    decreases Size(v), 1
  {
    var parsed := fe.parse(k + fe.str(v));
    if parsed.Ok? {
      return parsed;
    }
    if !parsed.error.ParseError? {
      return Err(parsed.error);
    }
    if k == "and_" || k == "or_" {
      r := ParseBool(fe, if k == "and_" then And else Or, v);
      return;
    }
    var resolved := ParseAttributeName(fe.meta, fe.model, k);
    if resolved.Err? {
      return Err(resolved.error);
    }
    var (attr, joins) := resolved.value;
    r := Ok(JoinConds(joins) + AttributeConds(fe, attr, v));
  }

  /** An `and_`/`or_` key: the operands' conditions collected in a list. */
  method ParseBool(fe: Env, kind: BoolKind, v: Value) returns (r: Result<seq<Cond>>)
    requires Shrinking(fe.jsonLoads)
    ensures r == CompileBool(fe, kind, v)
    decreases Size(v), 0
  {
    var operands := Operands(fe, v);
    if operands.Err? {
      return Err(Rewrap(fe, operands.error, v));
    }
    var x := operands.value;
    var subs := SubValues(x);
    if subs.Err? {
      return Err(Rewrap(fe, subs.error, x));
    }
    var svs := subs.value;
    var conditions := ParseOperands(fe, svs, Size(v));
    if conditions.Err? {
      return Err(Rewrap(fe, conditions.error, x));
    }
    r := Ok([Combined(kind, conditions.value)]);
  }

  /** The loop of `parse_bool`: the operands' conditions, concatenated, or the
      first operand's exception. */
  method ParseOperands(fe: Env, svs: seq<Value>, ghost bound: nat) returns (r: Result<seq<Cond>>)
    requires Shrinking(fe.jsonLoads)
    requires forall i :: 0 <= i < |svs| ==> Size(svs[i]) < bound
    ensures r == CompileAll(fe, svs, bound)
    decreases bound, 0, |svs|
  {
    var conditions: seq<Cond> := [];
    OperandsFrom(fe, svs, bound, 0, conditions);
    var j := 0;
    while j < |svs|
      invariant 0 <= j <= |svs|
      invariant CompileAll(fe, svs, bound) == Then(Ok(conditions), CompileAll(fe, svs[j..], bound))
    {
      var sub := ParseDictionary(fe, svs[j]);
      OperandsFrom(fe, svs, bound, j, conditions);
      if sub.Err? {
        return sub;
      }
      conditions := conditions + sub.value;
      j := j + 1;
    }
    OperandsFrom(fe, svs, bound, j, conditions);
    r := Ok(conditions);
  }

  /** One step of the loop over the operands, and its two ends. */
  lemma OperandsFrom(fe: Env, svs: seq<Value>, bound: nat, j: nat, acc: seq<Cond>)
    requires Shrinking(fe.jsonLoads)
    requires forall i :: 0 <= i < |svs| ==> Size(svs[i]) < bound
    requires j <= |svs|
    ensures j == 0 && acc == [] ==> Then(Ok(acc), CompileAll(fe, svs[j..], bound)) == CompileAll(fe, svs, bound)
    ensures j == |svs| ==> Then(Ok(acc), CompileAll(fe, svs[j..], bound)) == Ok(acc)
    ensures j < |svs| ==>
      var d := CompileDict(fe, svs[j]);
      Then(Ok(acc), CompileAll(fe, svs[j..], bound))
        == if d.Err? then d else Then(Ok(acc + d.value), CompileAll(fe, svs[j + 1..], bound))
  {
    if j == 0 && acc == [] {
      assert svs[j..] == svs;
      var all := CompileAll(fe, svs, bound);
      if all.Ok? {
        assert acc + all.value == all.value;
      }
    }
    if j == |svs| {
      assert acc + [] == acc;
    }
    if j < |svs| {
      assert svs[j..][1..] == svs[j + 1..];
      ThenStep(acc, CompileDict(fe, svs[j]), CompileAll(fe, svs[j + 1..], bound));
    }
  }
}
