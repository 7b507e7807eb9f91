/** The filter translator's vocabulary and its three leaf operations
    (eve/io/mysql/parser.py): resolving a dotted attribute path across
    relationships, resolving a sort key, and recognising an operator call such
    as `like("%john%")`.

    The ORM is abstract: a model's mapped attributes are looked up in a
    `Metadata` map, a condition is a `Cond` value, and a join predicate is an
    equality between two columns. */
module Parser {
  import opened Common

  datatype Column = Column(model: string, name: string)

  /** A join predicate `left == right` between the columns of two tables. */
  datatype JoinCond = JoinCond(left: Column, right: Column)

  /** What a mapped attribute is. A relationship knows its target model, its
      primary and (for many-to-many) secondary join, whether it is multi-valued,
      the first column of its remote side and the target's primary key. */
  datatype AttrKind =
    | Scalar
    | Relationship(target: string, primaryJoin: Option<JoinCond>, secondaryJoin: Option<JoinCond>,
                   uselist: bool, remoteSide: Column, targetPk: Column)
    | AssocProxy

  /** model name -> attribute name -> kind */
  type Metadata = map<string, map<string, AttrKind>>

  /** A resolved attribute: its column and its kind. */
  datatype Attr = Attr(col: Column, kind: AttrKind)

  datatype CmpOp = Eq | NotEq | Lt | LtE | Gt | GtE

  datatype BoolKind = And | Or

  /** A filter condition as handed to the ORM's `filter`. */
  datatype Cond =
    | Join(join: JoinCond)
    | Compare(op: CmpOp, left: Column, value: Value)
    | In(left: Column, values: seq<Value>)
    | OpCall(left: Column, opName: string, value: Value)
    | Any(left: Column, criteria: seq<Entry>)
    | Contains(left: Column, value: Value)
    | Combined(kind: BoolKind, args: seq<Cond>)

  /** `getattr(model, name)`: an `AttributeError` for an unmapped name. */
  function GetAttr(meta: Metadata, model: string, name: string): (r: Result<Attr>)
    ensures r.Ok? <==> model in meta && name in meta[model]
    ensures r.Err? ==> r.error == AttributeError(name)
  {
    if model in meta && name in meta[model] then Ok(Attr(Column(model, name), meta[model][name]))
    else Err(AttributeError(name))
  }

  /** The join predicates one relationship hop contributes: the primary join,
      then the secondary join, each when present. */
  function HopJoins(kind: AttrKind): seq<JoinCond>
    requires kind.Relationship?
  {
    (if kind.primaryJoin.Some? then [kind.primaryJoin.value] else [])
      + (if kind.secondaryJoin.Some? then [kind.secondaryJoin.value] else [])
  }

  /** One hop from attribute `a` to the attribute `part` of its target model.
      Only a relationship has a mapper to hop through: a column attribute has no
      `mapper`, an association proxy no `property`. */
  function Hop(meta: Metadata, a: Attr, part: string): Result<Attr>
  {
    match a.kind
    case Relationship(target, _, _, _, _, _) => GetAttr(meta, target, part)
    case Scalar => Err(AttributeError("mapper"))
    case AssocProxy => Err(AttributeError("property"))
  }

  /** Walks the remaining path segments from `a`, collecting join predicates. */
  function Walk(meta: Metadata, a: Attr, parts: seq<string>): Result<(Attr, seq<JoinCond>)>
    decreases |parts|
  {
    if parts == [] then Ok((a, []))
    else match Hop(meta, a, parts[0])
      case Err(e) => Err(e)
      case Ok(b) => Prefixed(HopJoins(a.kind), Walk(meta, b, parts[1..]))
  }

  function Prefixed(js: seq<JoinCond>, r: Result<(Attr, seq<JoinCond>)>): Result<(Attr, seq<JoinCond>)>
  {
    match r
    case Err(e) => Err(e)
    case Ok((a, rest)) => Ok((a, js + rest))
  }

  lemma PrefixedTwice(js: seq<JoinCond>, ks: seq<JoinCond>, r: Result<(Attr, seq<JoinCond>)>)
    ensures Prefixed(js, Prefixed(ks, r)) == Prefixed(js + ks, r)
    ensures Prefixed([], r) == r
  {
    if r.Ok? {
      assert js + (ks + r.value.1) == (js + ks) + r.value.1;
      assert [] + r.value.1 == r.value.1;
    }
  }

  /** `_parse_attribute_name(model, name)` as a value: the attribute the
      dotted path names and the join predicates needed to reach it. */
  function Resolve(meta: Metadata, model: string, name: string): Result<(Attr, seq<JoinCond>)>
  {
    var parts := Split(name, '.');
    match GetAttr(meta, model, parts[0])
    case Err(e) => Err(e)
    case Ok(a) => Walk(meta, a, parts[1..])
  }

  /** `_parse_attribute_name`: the first segment is looked up on the model, each
      further segment on the target of the relationship before it, and every
      hop appends its primary and secondary join. */
  method ParseAttributeName(meta: Metadata, model: string, name: string)
    returns (r: Result<(Attr, seq<JoinCond>)>)
    ensures r == Resolve(meta, model, name)
  {
    var parts := Split(name, '.');
    var first := GetAttr(meta, model, parts[0]);
    if first.Err? {
      return Err(first.error);
    }
    var attr := first.value;
    var joins: seq<JoinCond> := [];
    PrefixedTwice([], [], Walk(meta, attr, parts[1..]));
    var i := 1;
    while i < |parts|
      invariant 1 <= i <= |parts|
      invariant Resolve(meta, model, name) == Prefixed(joins, Walk(meta, attr, parts[i..]))
    {
      assert parts[i..][1..] == parts[i + 1..];
      match attr.kind {
        case Relationship(target, primary, secondary, _, _, _) =>
          ghost var before := joins;
          if primary.Some? {
            joins := joins + [primary.value];
          }
          if secondary.Some? {
            joins := joins + [secondary.value];
          }
          assert joins == before + HopJoins(attr.kind);
          var next := GetAttr(meta, target, parts[i]);
          assert parts[i..][0] == parts[i];
          if next.Err? {
            return Err(next.error);
          }
          PrefixedTwice(before, HopJoins(attr.kind), Walk(meta, next.value, parts[i + 1..]));
          attr := next.value;
        case Scalar =>
          return Err(AttributeError("mapper"));
        case AssocProxy =>
          return Err(AttributeError("property"));
      }
      i := i + 1;
    }
    assert parts[i..] == [];
    assert joins + [] == joins;
    r := Ok((attr, joins));
  }

  /** The attributes a path visits, one per segment, computed without joins. */
  function Path(meta: Metadata, a: Attr, parts: seq<string>): Result<seq<Attr>>
    decreases |parts|
  {
    if parts == [] then Ok([a])
    else match Hop(meta, a, parts[0])
      case Err(e) => Err(e)
      case Ok(b) =>
        match Path(meta, b, parts[1..])
        case Err(e) => Err(e)
        case Ok(p) => Ok([a] + p)
  }

  /** The joins of a sequence of hops, in order. */
  function FlatJoins(hops: seq<Attr>): seq<JoinCond>
  {
    if hops == [] then []
    else (if hops[0].kind.Relationship? then HopJoins(hops[0].kind) else []) + FlatJoins(hops[1..])
  }

  /** Traversal order: resolving a path visits one attribute per segment; every
      attribute but the last is a relationship; the joins are those of the
      visited relationships in order (outermost first, primary before
      secondary), so there are at most two per hop. */
  lemma {:induction false} WalkFollowsPath(meta: Metadata, a: Attr, parts: seq<string>)
    ensures Walk(meta, a, parts).Ok? <==> Path(meta, a, parts).Ok?
    ensures Walk(meta, a, parts).Ok? ==>
      var p := Path(meta, a, parts).value;
      var (last, joins) := Walk(meta, a, parts).value;
      && |p| == |parts| + 1
      && p[0] == a && p[|parts|] == last
      && (forall i :: 0 <= i < |parts| ==> p[i].kind.Relationship?)
      && joins == FlatJoins(p[..|parts|])
      && |joins| <= 2 * |parts|
    decreases |parts|
  {
    if parts != [] {
      match Hop(meta, a, parts[0]) {
        case Err(_) =>
        case Ok(b) =>
          WalkFollowsPath(meta, b, parts[1..]);
          if Walk(meta, a, parts).Ok? {
            var p := Path(meta, a, parts).value;
            var q := Path(meta, b, parts[1..]).value;
            assert p == [a] + q;
            assert p[..|parts|] == [a] + q[..|parts| - 1];
          }
      }
    }
  }

  /** A path of k segments makes k-1 hops: at most 2(k-1) joins, none for a
      plain attribute name. */
  lemma ResolveJoinBound(meta: Metadata, model: string, name: string)
    requires Resolve(meta, model, name).Ok?
    ensures |Resolve(meta, model, name).value.1| <= 2 * (|Split(name, '.')| - 1)
    ensures |Split(name, '.')| == 1 ==> Resolve(meta, model, name).value.1 == []
  {
    var parts := Split(name, '.');
    var a := GetAttr(meta, model, parts[0]).value;
    WalkFollowsPath(meta, a, parts[1..]);
  }

  /** An ordering key as given to `order_by`. */
  datatype SortKey =
    | Asc(col: Column)
    | Desc(inner: SortKey)
    | Applied(fn: string, inner: SortKey)

  /** `parse_sorting(model, key, order, expression)`: the resolver's attribute,
      descending exactly when `order == -1`, then passed through the named SQL
      expression when one is given, together with the resolver's joins.
      `methods` are the names of the zero-argument methods the ordering
      expression offers (`nullslast`, `nullsfirst`, ...); `getattr` of any
      other name raises an `AttributeError`. */
  function ParseSorting(meta: Metadata, model: string, key: string, order: int,
                        expression: Option<string>, methods: set<string>)
    : (r: Result<(SortKey, seq<JoinCond>)>)
    ensures r.Ok? <==>
      Resolve(meta, model, key).Ok? && (expression.None? || expression.value == "" || expression.value in methods)
    ensures Resolve(meta, model, key).Err? ==> r == Err(Resolve(meta, model, key).error)
    ensures Resolve(meta, model, key).Ok? && expression.Some? && expression.value != "" && expression.value !in methods
      ==> r == Err(AttributeError(expression.value))
    ensures r.Ok? ==> r.value.1 == Resolve(meta, model, key).value.1
    ensures r.Ok? ==>
      var col := Resolve(meta, model, key).value.0.col;
      var ordered := if order == -1 then Desc(Asc(col)) else Asc(col);
      r.value.0 == (if expression.Some? && expression.value != "" then Applied(expression.value, ordered) else ordered)
  {
    match Resolve(meta, model, key)
    case Err(e) => Err(e)
    case Ok((attr, conditions)) =>
      var k := if order == -1 then Desc(Asc(attr.col)) else Asc(attr.col);
      if expression.Some? && expression.value != "" then
        if expression.value in methods then Ok((Applied(expression.value, k), conditions))
        else Err(AttributeError(expression.value))
      else Ok((k, conditions))
  }

  // ---------------------------------------------------------------------
  // parse_sqla_operators: the pattern (?P<operator>[\w\s]+)\(+(?P<value>.+)\)+
  // applied with re.match (anchored at the start only).

  /** The length of the longest prefix of word and whitespace characters. */
  function WordRun(s: string): (n: nat)
    ensures n <= |s|
    ensures forall k :: 0 <= k < n ==> IsWordChar(s[k]) || IsSpace(s[k])
    ensures n < |s| ==> !(IsWordChar(s[n]) || IsSpace(s[n]))
  {
    if s != [] && (IsWordChar(s[0]) || IsSpace(s[0])) then 1 + WordRun(s[1..]) else 0
  }

  /** The length of the longest prefix of opening parentheses. */
  function OpenRun(s: string): (n: nat)
    ensures n <= |s|
    ensures forall k :: 0 <= k < n ==> s[k] == '('
    ensures n < |s| ==> s[n] != '('
  {
    if s != [] && s[0] == '(' then 1 + OpenRun(s[1..]) else 0
  }

  /** The index of the first newline, or the length: `.` does not match '\n'. */
  function LineEnd(s: string): (n: nat)
    ensures n <= |s|
    ensures forall k :: 0 <= k < n ==> s[k] != '\n'
    ensures n < |s| ==> s[n] == '\n'
  {
    if s != [] && s[0] != '\n' then 1 + LineEnd(s[1..]) else 0
  }

  /** The largest `j` with `lo < j < hi` and `s[j] == ')'`. */
  function LastClose(s: string, lo: nat, hi: nat): (r: Option<nat>)
    requires hi <= |s|
    ensures r.Some? ==> lo < r.value < hi && s[r.value] == ')'
    ensures r.Some? ==> forall j :: r.value < j < hi ==> s[j] != ')'
    ensures r.None? ==> forall j :: lo < j < hi ==> s[j] != ')'
    decreases hi
  {
    if hi <= lo + 1 then None
    else if s[hi - 1] == ')' then Some(hi - 1)
    else LastClose(s, lo, hi - 1)
  }

  /** The `operator` and `value` groups of the match, if the pattern matches.
      The operator is the whole leading run of word and space characters and
      must be followed by '('; the value is then `CallValue`. */
  function MatchOperatorCall(s: string): (r: Option<(string, string)>)
    ensures r.Some? ==> 0 < |r.value.0| < |s| && s[..|r.value.0|] == r.value.0
    ensures r.Some? ==> forall k :: 0 <= k < |r.value.0| ==> IsWordChar(r.value.0[k]) || IsSpace(r.value.0[k])
    ensures r.Some? ==> s[|r.value.0|] == '(' && CallValue(s, |r.value.0|) == Some(r.value.1)
  {
    var n := WordRun(s);
    if n == 0 || n == |s| || s[n] != '(' then None
    else
      match CallValue(s, n)
      case None => None
      case Some(v) => Some((s[..n], v))
  }

  /** The `value` group once the operator has matched `s[..n]`. The greedy
      `\(+` first takes every '(' and the greedy `.+` then reaches the last ')'
      on the line (`.` does not match a newline); only when no ')' follows
      the run does the engine give back one '(' to `.+`. */
  function CallValue(s: string, n: nat): (r: Option<string>)
    requires n < |s| && s[n] == '('
    ensures r.Some? ==> |r.value| > 0 && '\n' !in r.value
    ensures r.Some? ==> exists i, j :: n < i < j < |s| && s[i..j] == r.value && s[j] == ')'
                                      && forall k :: n <= k < i ==> s[k] == '('
  {
    var p := n + OpenRun(s[n..]);
    var e := n + LineEnd(s[n..]);
    assert p <= e;
    assert forall k :: n <= k < p ==> s[k] == '(' by {
      forall k | n <= k < p ensures s[k] == '(' { assert s[n..][k - n] == '('; }
    }
    assert forall k :: n <= k < e ==> s[k] != '\n' by {
      forall k | n <= k < e ensures s[k] != '\n' { assert s[n..][k - n] != '\n'; }
    }
    match LastClose(s, p, e)
    case Some(j) => Some(s[p..j])
    case None =>
      if p - n >= 2 && p < e && s[p] == ')' then Some(s[p - 1..p])
      else None
  }

  /** The documented example: `like("%john%")` gives `like` and the JSON text
      `"%john%"`. */
  lemma MatchLike()
    ensures MatchOperatorCall("like(\"%john%\")") == Some(("like", "\"%john%\""))
  {
    LikePrefix("like(\"%john%\")");
    LikeValue();
  }

  lemma LikeValue()
    ensures CallValue("like(\"%john%\")", 4) == Some("\"%john%\"")
  {
    var s := "like(\"%john%\")";
    var t := s[4..];
    assert t == "(\"%john%\")";
    assert OpenRun(t) == 1;
    assert LineEnd(t) == |t|;
    assert LastClose(s, 5, 14) == Some(13);
    assert s[5..13] == "\"%john%\"";
  }

  /** With doubled parentheses the greedy value keeps one of the closing ones:
      `like(("x"))` gives the value text `"x")`. */
  lemma MatchDoubleParens()
    ensures MatchOperatorCall("like((\"x\"))") == Some(("like", "\"x\")"))
  {
    LikePrefix("like((\"x\"))");
    DoubleParensValue();
  }

  lemma DoubleParensValue()
    ensures CallValue("like((\"x\"))", 4) == Some("\"x\")")
  {
    var s := "like((\"x\"))";
    var t := s[4..];
    assert t == "((\"x\"))";
    assert t[0] == '(' && t[1] == '(' && t[2] != '(';
    assert OpenRun(t) == 2;
    assert LineEnd(t) == |t|;
    assert LastClose(s, 6, 11) == Some(10);
    assert s[6..10] == "\"x\")";
  }

  /** A text starting `like(` has the operator run `like`. */
  lemma LikePrefix(s: string)
    requires |s| > 4 && s[..5] == "like("
    ensures WordRun(s) == 4 && s[4] == '(' && s[..4] == "like"
  {
    assert s[0] == s[..5][0] == 'l' && s[1] == s[..5][1] == 'i';
    assert s[2] == s[..5][2] == 'k' && s[3] == s[..5][3] == 'e' && s[4] == s[..5][4] == '(';
    assert !IsWordChar(s[4]) && !IsSpace(s[4]);
    assert IsWordChar(s[0]) && IsWordChar(s[1]) && IsWordChar(s[2]) && IsWordChar(s[3]);
  }

  /** `parse_sqla_operators(v)` as `parse_dictionary` experiences it: a
      non-string value or a failed match is a `TypeError` (the caller unpacks
      the `None` it returns), undecodable JSON a `ValueError`. */
  function ParseSqlaOperators(v: Value, loads: string -> Option<Value>): (r: Result<(string, Value)>)
    ensures r.Ok? <==> v.Str? && MatchOperatorCall(v.s).Some? && loads(MatchOperatorCall(v.s).value.1).Some?
    ensures r.Ok? ==> r.value == (MatchOperatorCall(v.s).value.0, loads(MatchOperatorCall(v.s).value.1).value)
    ensures r.Err? ==> r.error == TypeError || r.error.ValueError?
  {
    match v
    case Str(s) =>
      (match MatchOperatorCall(s)
       case None => Err(TypeError)
       case Some((o, text)) =>
         match loads(text)
         case None => Err(ValueError("invalid JSON"))
         case Some(x) => Ok((o, x)))
    case _ => Err(TypeError)
  }
}
