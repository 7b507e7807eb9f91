/** The expression parser of eve/io/mysql/parser.py: `MySqlVisitor` walks the
    syntax tree of a Python conditional such as `age > 18 and name == 'x'` and
    produces the conditions for the ORM's `filter`.

    `VisitNode` is the specification: a function from a node and the visitor's
    state (the top-level condition list, the stack of open AND/OR frames and
    the current value) to the new state or the exception raised. The class
    `MySqlVisitor` updates those three fields in place and is proved to agree
    with it. `Ctx.dictReset` selects the top-level store `visit_Module` sets up:
    `false` is the intended list, `true` the dict that line 199 actually
    assigns (see `AsWrittenRejectsEveryExpression`). */
module Visitor {
  import opened Common
  import opened Parser

  /** Comparison operator tokens of the Python grammar. */
  datatype CmpToken = EqTok | NotEqTok | LtTok | LtETok | GtTok | GtETok | IsTok | IsNotTok | InTok | NotInTok

  /** The syntax tree: statements and expressions. `OtherNode` is any node the
      visitor has no handler for; the default traversal visits its children in
      field order (`True`, `None` and other constants have none). */
  datatype Node =
    | ExprStmt(value: Node)
    | CompareExpr(left: Node, ops: seq<CmpToken>, comparators: seq<Node>)
    | BoolOpExpr(op: BoolKind, values: seq<Node>)
    | CallExpr(args: seq<Node>)
    | AttributeExpr(base: Node, attr: string)
    | NameExpr(id: string)
    | NumExpr(n: NumLit)
    | StrExpr(s: string)
    | OtherNode(children: seq<Node>)

  /** The number an `ast.Num` carries: an `int` or a (finite) `float`. */
  datatype NumLit = IntLit(i: int) | FloatLit(r: real)

  function NumValue(k: NumLit): Value
  {
    match k
    case IntLit(i) => Int(i)
    case FloatLit(r) => Float(r)
  }

  /** One open `and`/`or`: its operator and the conditions collected so far. */
  datatype Frame = Frame(op: BoolKind, args: seq<Cond>)

  datatype State = State(query: seq<Cond>, ops: seq<Frame>, current: Value)

  datatype Outcome = Done(st: State) | Raised(err: Error)

  /** What a visitor is constructed with, and which store `visit_Module` uses. */
  datatype Ctx = Ctx(meta: Metadata, model: string, dictReset: bool)

  const NotConditional := "Will only parse conditional statements"
  const NoConditions := "Only conditional statements with boolean (and, or) and comparison operators are supported."

  /** `op_mapper` on a comparison token: the identity, are and membership
      tests have no entry. */
  function MapOp(t: CmpToken): (r: Result<CmpOp>)
    ensures r.Err? <==> t in {IsTok, IsNotTok, InTok, NotInTok}
  {
    match t
    case EqTok => Ok(Eq)
    case NotEqTok => Ok(NotEq)
    case LtTok => Ok(Lt)
    case LtETok => Ok(LtE)
    case GtTok => Ok(Gt)
    case GtETok => Ok(GtE)
    case IsTok => Err(KeyError("Is"))
    case IsNotTok => Err(KeyError("IsNot"))
    case InTok => Err(KeyError("In"))
    case NotInTok => Err(KeyError("NotIn"))
  }

  function LowerChar(c: char): char
  {
    if 'A' <= c <= 'Z' then (c as int + 32) as char else c
  }

  function Lower(s: string): (r: string)
    ensures |r| == |s|
  {
    if s == [] then [] else [LowerChar(s[0])] + Lower(s[1..])
  }

  /** A bare name spelled `none` or `null` in any case stands for SQL NULL. */
  predicate IsNullName(id: string)
  {
    Lower(id) == "none" || Lower(id) == "null"
  }

  function JoinConds(js: seq<JoinCond>): (cs: seq<Cond>)
    ensures |cs| == |js| && forall i :: 0 <= i < |js| ==> cs[i] == Join(js[i])
  {
    seq(|js|, i requires 0 <= i < |js| => Join(js[i]))
  }

  /** `self.sqla_query.append(c)`: a list grows, a dict has no `append`. */
  function AppendTop(ctx: Ctx, st: State, c: Cond): (o: Outcome)
    ensures o.Done? <==> !ctx.dictReset
    ensures o.Done? ==> o.st == st.(query := st.query + [c])
  {
    if ctx.dictReset then Raised(AttributeError("append")) else Done(st.(query := st.query + [c]))
  }

  /** Appends the joins one by one to the top-level store. */
  function AppendJoins(ctx: Ctx, st: State, js: seq<JoinCond>): (o: Outcome)
    ensures o.Done? <==> !ctx.dictReset || js == []
    ensures o.Done? ==> o.st == st.(query := st.query + JoinConds(js))
    decreases |js|
  {
    if js == [] then
      assert st.query + [] == st.query;
      Done(st)
    else match AppendTop(ctx, st, Join(js[0]))
      case Raised(e) => Raised(e)
      case Done(s) =>
        var o := AppendJoins(ctx, s, js[1..]);
        JoinCondsCons(st.query, js);
        o
  }

  lemma JoinCondsCons(q: seq<Cond>, js: seq<JoinCond>)
    requires js != []
    ensures q + JoinConds(js) == (q + [Join(js[0])]) + JoinConds(js[1..])
  {
    assert JoinConds(js) == [Join(js[0])] + JoinConds(js[1..]);
  }

  /** Adds a condition to the innermost open frame, or to the top-level store
      when no frame is open. */
  function Emit(ctx: Ctx, st: State, c: Cond): (o: Outcome)
    ensures o.Done? <==> st.ops != [] || !ctx.dictReset
    ensures o.Done? ==> o.st.current == st.current
    ensures o.Done? ==> o.st.query == st.query + (if st.ops == [] then [c] else [])
    ensures o.Done? && st.ops != [] ==>
      o.st.ops == st.ops[..|st.ops| - 1] + [Frame(st.ops[|st.ops| - 1].op, st.ops[|st.ops| - 1].args + [c])]
  {
    if st.ops == [] then AppendTop(ctx, st, c)
    else
      var k := |st.ops| - 1;
      Done(st.(ops := st.ops[..k] + [Frame(st.ops[k].op, st.ops[k].args + [c])]))
  }

  /** How a visit may change the state: the frame stack keeps its depth and
      its frames below the top, the top frame and the top-level store only grow. */
  predicate Extends(st: State, st2: State)
  {
    && |st2.ops| == |st.ops|
    && st.query <= st2.query
    && (st.ops != [] ==>
          var k := |st.ops| - 1;
          && st2.ops[..k] == st.ops[..k]
          && st2.ops[k].op == st.ops[k].op
          && st.ops[k].args <= st2.ops[k].args)
  }

  lemma ExtendsTrans(a: State, b: State, c: State)
    requires Extends(a, b) && Extends(b, c)
    ensures Extends(a, c)
  {
    if a.ops != [] {
      var k := |a.ops| - 1;
      assert c.ops[..k] == b.ops[..k];
    }
  }

  lemma EmitExtends(ctx: Ctx, st: State, c: Cond)
    requires Emit(ctx, st, c).Done?
    ensures Extends(st, Emit(ctx, st, c).st)
  {
    if st.ops != [] {
      var k := |st.ops| - 1;
      var s2 := Emit(ctx, st, c).st;
      assert s2.ops[..k] == st.ops[..k];
    }
  }

  /** `self.visit(node)` */
  function VisitNode(ctx: Ctx, n: Node, st: State): (o: Outcome)
    ensures o.Done? ==> Extends(st, o.st)
    decreases n, 2
  {
    match n
    case ExprStmt(v) =>
      if !(v.CompareExpr? || v.BoolOpExpr?) then Raised(ParseError(NotConditional))
      else VisitNode(ctx, v, st)
    case CompareExpr(_, _, _) => VisitCompareNode(ctx, n, st)
    case BoolOpExpr(_, _) => VisitBoolOpNode(ctx, n, st)
    case CallExpr(_) => Done(st)
    case AttributeExpr(base, a) =>
      (match VisitNode(ctx, base, st)
       case Raised(e) => Raised(e)
       case Done(s) =>
         if s.current.Str? then Done(s.(current := Str(s.current.s + "." + a)))
         else Raised(TypeError))
    case NameExpr(id) => Done(st.(current := if IsNullName(id) then Null else Str(id)))
    case NumExpr(k) => Done(st.(current := NumValue(k)))
    case StrExpr(s) => Done(st.(current := Str(s)))
    case OtherNode(children) => VisitSeq(ctx, children, n, 0, st)
  }

  /** The nodes `vs[i..]` visited in order, stopping at the first exception. */
  function VisitSeq(ctx: Ctx, vs: seq<Node>, ghost parent: Node, i: nat, st: State): (o: Outcome)
    requires forall x :: x in vs ==> x < parent
    requires i <= |vs|
    ensures o.Done? ==> Extends(st, o.st)
    decreases parent, 0, |vs| - i
  {
    if i == |vs| then Done(st)
    else
      assert vs[i] in vs;
      match VisitNode(ctx, vs[i], st)
      case Raised(e) => Raised(e)
      case Done(s) =>
        var o := VisitSeq(ctx, vs, parent, i + 1, s);
        if o.Done? then ExtendsTrans(st, s, o.st); o else o
  }

  /** The column a comparison constrains: a relationship compares its remote
      column, or the target's primary key when it is multi-valued. */
  function LeftColumn(a: Attr): Column
  {
    if a.kind.Relationship? then (if a.kind.uselist then a.kind.targetPk else a.kind.remoteSide)
    else a.col
  }

  /** The joins a comparison on a relationship adds after resolving its path. */
  function OwnJoins(a: Attr): seq<JoinCond>
  {
    if a.kind.Relationship? then HopJoins(a.kind) else []
  }

  /** `visit_Compare`: the left side names an attribute path; only the first
      operator and the first comparator are used. */
  function VisitCompareNode(ctx: Ctx, n: Node, st: State): (o: Outcome)
    requires n.CompareExpr?
    ensures o.Done? ==> Extends(st, o.st)
    decreases n, 1
  {
    match VisitNode(ctx, n.left, st)
    case Raised(e) => Raised(e)
    case Done(s1) =>
      if !s1.current.Str? then Raised(AttributeError("split"))
      else match Resolve(ctx.meta, ctx.model, s1.current.s)
        case Err(e) => Raised(e)
        case Ok((attr, joins)) =>
          match AppendJoins(ctx, s1, joins)
          case Raised(e) => Raised(e)
          case Done(s2) =>
            var op := if n.ops == [] then Ok(None) else
                        (match MapOp(n.ops[0]) case Ok(o) => Ok(Some(o)) case Err(e) => Err(e));
            if op.Err? then Raised(op.error)
            else
              var r3 := if n.comparators == [] then Done(s2)
                        else assert n.comparators[0] in n.comparators; VisitNode(ctx, n.comparators[0], s2);
              match r3
              case Raised(e) => Raised(e)
              case Done(s3) =>
                var o := FinishCompare(ctx, s3, attr, op.value);
                if o.Done? then
                  ExtendsTrans(st, s1, s3);
                  ExtendsTrans(st, s3, o.st);
                  o
                else o
  }

  /** The end of `visit_Compare`: the joins of the attribute's own
      relationship, then the comparison itself, which needs an operator. */
  function FinishCompare(ctx: Ctx, s3: State, attr: Attr, op: Option<CmpOp>): (o: Outcome)
    ensures o.Done? ==> op.Some? && Extends(s3, o.st)
  {
    match AppendJoins(ctx, s3, OwnJoins(attr))
    case Raised(e) => Raised(e)
    case Done(s4) =>
      if op.None? then Raised(TypeError)
      else
        var o := Emit(ctx, s4, Compare(op.value, LeftColumn(attr), s3.current));
        if o.Done? then
          EmitExtends(ctx, s4, Compare(op.value, LeftColumn(attr), s3.current));
          ExtendsTrans(s3, s4, o.st);
          o
        else o
  }

  /** `visit_BoolOp`: opens a frame, visits the operands into it, closes it and
      emits the combination of what it collected. */
  function VisitBoolOpNode(ctx: Ctx, n: Node, st: State): (o: Outcome)
    requires n.BoolOpExpr?
    ensures o.Done? ==> Extends(st, o.st)
    decreases n, 1
  {
    var st1 := st.(ops := st.ops + [Frame(n.op, [])]);
    match VisitSeq(ctx, n.values, n, 0, st1)
    case Raised(e) => Raised(e)
    case Done(s2) =>
      var k := |s2.ops| - 1;
      var top := s2.ops[k];
      var s3 := s2.(ops := s2.ops[..k]);
      var o := Emit(ctx, s3, Combined(top.op, top.args));
      if o.Done? then
        assert s3.ops == st.ops by {
          assert s2.ops[..k] == st1.ops[..k];
          assert st1.ops[..k] == st.ops;
        }
        EmitExtends(ctx, s3, Combined(top.op, top.args));
        o
      else o
  }

  /** `visit_Module`: resets the state, visits the statements and insists on
      at least one condition. */
  function VisitModuleBody(ctx: Ctx, body: seq<Node>): (r: Result<seq<Cond>>)
    ensures r.Ok? ==> r.value != []
  {
    var st0 := State([], [], Null);
    match VisitSeq(ctx, body, OtherNode(body), 0, st0)
    case Raised(e) => Err(e)
    case Done(s) => if ctx.dictReset || s.query == [] then Err(ParseError(NoConditions)) else Ok(s.query)
  }

  /** `parse(expression, model)`: the syntax tree comes from `astParse`, whose
      `None` is a syntax error. */
  function Parse(ctx: Ctx, astParse: string -> Option<seq<Node>>, text: string): (r: Result<seq<Cond>>)
    ensures r.Ok? ==> r.value != []
  {
    match astParse(text)
    case None => Err(ParseError("invalid syntax"))
    case Some(body) => VisitModuleBody(ctx, body)
  }

  /** The value a leaf comparator leaves as the current value. */
  function LeafValue(c: Node): (v: Value)
    requires IsLeaf(c)
    ensures !v.List?
  {
    match c
    case NameExpr(id) => if IsNullName(id) then Null else Str(id)
    case NumExpr(k) => NumValue(k)
    case StrExpr(s) => Str(s)
  }

  /** The joins of two hops appended to a store, one hop at a time. */
  lemma StoreAppend(q: seq<Cond>, a: seq<JoinCond>, b: seq<JoinCond>)
    ensures (q + JoinConds(a)) + JoinConds(b) == q + JoinConds(a + b)
  {
    JoinCondsAppend(a, b);
    AppendAssoc(q, JoinConds(a), JoinConds(b));
  }

  lemma JoinCondsAppend(a: seq<JoinCond>, b: seq<JoinCond>)
    ensures JoinConds(a + b) == JoinConds(a) + JoinConds(b)
  {
  }

  /** The attribute path a left side spells: a name that is not a null
      literal, or an attribute of such a path, joined with dots. */
  function DottedName(n: Node): Option<string>
  {
    match n
    case NameExpr(id) => if IsNullName(id) then None else Some(id)
    case AttributeExpr(b, a) =>
      (match DottedName(b)
       case Some(p) => Some(p + "." + a)
       case None => None)
    case _ => None
  }

  /** Visiting a dotted path leaves exactly its text as the current value and
      touches nothing else. */
  lemma {:induction false} DottedVisit(ctx: Ctx, n: Node, st: State)
    requires DottedName(n).Some?
    ensures VisitNode(ctx, n, st) == Done(st.(current := Str(DottedName(n).value)))
  {
    match n
    case NameExpr(_) =>
    case AttributeExpr(b, _) => DottedVisit(ctx, b, st);
  }

  /** A comparison `path <op> leaf` the visitor accepts: the path resolves,
      the first operator is supported and the first comparator is a leaf. */
  predicate SimpleCompare(ctx: Ctx, n: Node)
  {
    && n.CompareExpr? && DottedName(n.left).Some?
    && n.ops != [] && MapOp(n.ops[0]).Ok?
    && n.comparators != [] && IsLeaf(n.comparators[0])
    && Resolve(ctx.meta, ctx.model, DottedName(n.left).value).Ok?
  }

  predicate IsLeaf(c: Node)
  {
    c.NameExpr? || c.NumExpr? || c.StrExpr?
  }

  /** The joins a simple comparison adds: those of its path, then those of
      the attribute's own relationship. */
  function CompareJoins(ctx: Ctx, n: Node): seq<JoinCond>
    requires SimpleCompare(ctx, n)
  {
    var (attr, joins) := Resolve(ctx.meta, ctx.model, DottedName(n.left).value).value;
    joins + OwnJoins(attr)
  }

  /** The condition a simple comparison emits. */
  function CompareCond(ctx: Ctx, n: Node): Cond
    requires SimpleCompare(ctx, n)
  {
    var attr := Resolve(ctx.meta, ctx.model, DottedName(n.left).value).value.0;
    Compare(MapOp(n.ops[0]).value, LeftColumn(attr), LeafValue(n.comparators[0]))
  }

  /** Placement of a comparison `path <op> leaf`: the path's joins and, for a
      relationship, its own joins go to the top-level store, in that order; the
      comparison itself, on the column `LeftColumn` picks, goes to the innermost
      open frame, or to the top-level store after the joins when none is open. */
  lemma ComparePlacement(ctx: Ctx, st: State, n: Node)
    requires !ctx.dictReset && SimpleCompare(ctx, n)
    ensures
      var o := VisitNode(ctx, n, st);
      var cmp := CompareCond(ctx, n);
      var k := |st.ops| - 1;
      && o.Done?
      && o.st.query == st.query + JoinConds(CompareJoins(ctx, n)) + (if st.ops == [] then [cmp] else [])
      && (st.ops != [] ==> o.st.ops == st.ops[..k] + [Frame(st.ops[k].op, st.ops[k].args + [cmp])])
      && o.st.current == LeafValue(n.comparators[0])
  {
    var (attr, joins) := Resolve(ctx.meta, ctx.model, DottedName(n.left).value).value;
    var c := n.comparators[0];
    CompareFront(ctx, st, n);
    var s3 := st.(query := st.query + JoinConds(joins), current := LeafValue(c));
    CompareFinish(ctx, s3, attr, MapOp(n.ops[0]).value);
    var s4 := s3.(query := s3.query + JoinConds(OwnJoins(attr)));
    StoreAppend(st.query, joins, OwnJoins(attr));
    assert VisitNode(ctx, n, st) == Emit(ctx, s4, CompareCond(ctx, n));
  }

  /** With the list store, finishing a comparison appends the attribute's own
      joins and then emits the comparison on the current value. */
  lemma CompareFinish(ctx: Ctx, s3: State, attr: Attr, op: CmpOp)
    requires !ctx.dictReset
    ensures FinishCompare(ctx, s3, attr, Some(op))
      == Emit(ctx, s3.(query := s3.query + JoinConds(OwnJoins(attr))), Compare(op, LeftColumn(attr), s3.current))
  {
    assert AppendJoins(ctx, s3, OwnJoins(attr)) == Done(s3.(query := s3.query + JoinConds(OwnJoins(attr))));
  }

  /** The first half of `ComparePlacement`: the path's joins are in the store
      and the leaf's value is current when the comparison is finished. */
  lemma CompareFront(ctx: Ctx, st: State, n: Node)
    requires !ctx.dictReset && SimpleCompare(ctx, n)
    ensures
      var (attr, joins) := Resolve(ctx.meta, ctx.model, DottedName(n.left).value).value;
      VisitNode(ctx, n, st)
        == FinishCompare(ctx, st.(query := st.query + JoinConds(joins), current := LeafValue(n.comparators[0])),
                         attr, Some(MapOp(n.ops[0]).value))
  {
    var x := DottedName(n.left).value;
    var (attr, joins) := Resolve(ctx.meta, ctx.model, x).value;
    var s1 := st.(current := Str(x));
    var s2 := s1.(query := st.query + JoinConds(joins));
    DottedVisit(ctx, n.left, st);
    assert AppendJoins(ctx, s1, joins) == Done(s2);
    assert VisitNode(ctx, n.comparators[0], s2) == Done(s2.(current := LeafValue(n.comparators[0])));
    assert VisitNode(ctx, n, st) == VisitCompareNode(ctx, n, st);
  }

  /** The joins of a run of simple comparisons, in visiting order. */
  function SeqJoins(ctx: Ctx, vs: seq<Node>): seq<JoinCond>
    requires forall j :: 0 <= j < |vs| ==> SimpleCompare(ctx, vs[j])
  {
    if vs == [] then [] else CompareJoins(ctx, vs[0]) + SeqJoins(ctx, vs[1..])
  }

  /** The conditions of a run of simple comparisons, one each, in order. */
  function SeqConds(ctx: Ctx, vs: seq<Node>): (cs: seq<Cond>)
    requires forall j :: 0 <= j < |vs| ==> SimpleCompare(ctx, vs[j])
    ensures |cs| == |vs| && forall j :: 0 <= j < |vs| ==> cs[j] == CompareCond(ctx, vs[j])
  {
    seq(|vs|, j requires 0 <= j < |vs| => CompareCond(ctx, vs[j]))
  }

  /** Simple comparisons visited inside an open frame: all their joins go to
      the top-level store, in order, and their conditions, in order, to the
      end of the innermost frame. */
  lemma {:induction false} ComparesIntoFrame(ctx: Ctx, vs: seq<Node>, parent: Node, i: nat, st: State)
    requires !ctx.dictReset && st.ops != []
    requires forall x :: x in vs ==> x < parent
    requires i <= |vs| && forall j :: i <= j < |vs| ==> SimpleCompare(ctx, vs[j])
    ensures
      var o := VisitSeq(ctx, vs, parent, i, st);
      var k := |st.ops| - 1;
      && o.Done?
      && o.st.query == st.query + JoinConds(SeqJoins(ctx, vs[i..]))
      && o.st.ops == st.ops[..k] + [Frame(st.ops[k].op, st.ops[k].args + SeqConds(ctx, vs[i..]))]
    decreases |vs| - i
  {
    var k := |st.ops| - 1;
    if i == |vs| {
      assert vs[i..] == [];
      assert st.ops[k].args + [] == st.ops[k].args;
      assert st.ops == st.ops[..k] + [st.ops[k]];
    } else {
      ComparePlacement(ctx, st, vs[i]);
      var s := VisitNode(ctx, vs[i], st).st;
      VisitSeqStep(ctx, vs, parent, i, st);
      ComparesIntoFrame(ctx, vs, parent, i + 1, s);
      SeqStep(ctx, vs, i);
      FrameStep(st, s, VisitSeq(ctx, vs, parent, i + 1, s).st, CompareCond(ctx, vs[i]),
                CompareJoins(ctx, vs[i]), SeqJoins(ctx, vs[i + 1..]), SeqConds(ctx, vs[i + 1..]));
    }
  }

  /** One comparison's placement followed by the placement of the rest adds
      up to the placement of all of them. */
  lemma FrameStep(st: State, s: State, rest: State, c: Cond, js: seq<JoinCond>, jsRest: seq<JoinCond>, cs: seq<Cond>)
    requires st.ops != []
    requires s.query == st.query + JoinConds(js)
    requires s.ops == st.ops[..|st.ops| - 1] + [Frame(st.ops[|st.ops| - 1].op, st.ops[|st.ops| - 1].args + [c])]
    requires rest.query == s.query + JoinConds(jsRest)
    requires rest.ops == s.ops[..|s.ops| - 1] + [Frame(s.ops[|s.ops| - 1].op, s.ops[|s.ops| - 1].args + cs)]
    ensures rest.query == st.query + JoinConds(js + jsRest)
    ensures rest.ops == st.ops[..|st.ops| - 1] + [Frame(st.ops[|st.ops| - 1].op, st.ops[|st.ops| - 1].args + ([c] + cs))]
  {
    var k := |st.ops| - 1;
    StoreAppend(st.query, js, jsRest);
    AppendAssoc(st.ops[k].args, [c], cs);
    assert s.ops[..k] == st.ops[..k];
  }

  /** Visiting from position `i` when the node there completes. */
  lemma VisitSeqStep(ctx: Ctx, vs: seq<Node>, parent: Node, i: nat, st: State)
    requires forall x :: x in vs ==> x < parent
    requires i < |vs| && VisitNode(ctx, vs[i], st).Done?
    ensures VisitSeq(ctx, vs, parent, i, st) == VisitSeq(ctx, vs, parent, i + 1, VisitNode(ctx, vs[i], st).st)
  {
  }

  /** The joins and conditions of `vs[i..]` start with those of `vs[i]`. */
  lemma SeqStep(ctx: Ctx, vs: seq<Node>, i: nat)
    requires i < |vs| && forall j :: i <= j < |vs| ==> SimpleCompare(ctx, vs[j])
    ensures SeqJoins(ctx, vs[i..]) == CompareJoins(ctx, vs[i]) + SeqJoins(ctx, vs[i + 1..])
    ensures SeqConds(ctx, vs[i..]) == [CompareCond(ctx, vs[i])] + SeqConds(ctx, vs[i + 1..])
  {
    assert vs[i..][1..] == vs[i + 1..];
  }

  /** Placement of an `and`/`or`: the frame stack returns to its depth, and the
      one combined condition, over what the operands left in the frame the
      operator opened, goes to the enclosing frame (whose earlier conditions
      stay in front of it) or, with no enclosing frame, to the end of the
      top-level store. */
  lemma BoolOpPlacement(ctx: Ctx, op: BoolKind, values: seq<Node>, st: State)
    requires VisitNode(ctx, BoolOpExpr(op, values), st).Done?
    ensures
      var s := VisitNode(ctx, BoolOpExpr(op, values), st).st;
      var inner := VisitSeq(ctx, values, BoolOpExpr(op, values), 0, st.(ops := st.ops + [Frame(op, [])]));
      var k := |st.ops| - 1;
      && inner.Done? && |inner.st.ops| == |st.ops| + 1
      && var args := inner.st.ops[|st.ops|].args;
      && (st.ops == [] ==> s.ops == [] && s.query == inner.st.query + [Combined(op, args)])
      && (st.ops != [] ==>
            && s.query == inner.st.query
            && s.ops == st.ops[..k] + [Frame(st.ops[k].op, st.ops[k].args + [Combined(op, args)])])
  {
    var n := BoolOpExpr(op, values);
    var st1 := st.(ops := st.ops + [Frame(op, [])]);
    var s2 := VisitSeq(ctx, values, n, 0, st1).st;
    var j := |s2.ops| - 1;
    assert s2.ops[..j] == st1.ops[..j];
    assert st1.ops[..j] == st.ops;
    var args := s2.ops[j].args;
    assert s2.ops[j].op == op;
    var s := VisitNode(ctx, n, st).st;
    assert s == Emit(ctx, s2.(ops := st.ops), Combined(op, args)).st;
  }

  /** An `and`/`or` of simple comparisons: every operand's joins reach the
      top-level store in operand order, followed (with no enclosing frame) by
      the one combination of the operands' comparisons; inside a frame the
      combination is appended to it instead. */
  lemma BoolOpOfCompares(ctx: Ctx, op: BoolKind, values: seq<Node>, st: State)
    requires !ctx.dictReset && forall j :: 0 <= j < |values| ==> SimpleCompare(ctx, values[j])
    ensures
      var o := VisitNode(ctx, BoolOpExpr(op, values), st);
      var comb := Combined(op, SeqConds(ctx, values));
      var k := |st.ops| - 1;
      && o.Done?
      && o.st.query == st.query + JoinConds(SeqJoins(ctx, values)) + (if st.ops == [] then [comb] else [])
      && (st.ops != [] ==> o.st.ops == st.ops[..k] + [Frame(st.ops[k].op, st.ops[k].args + [comb])])
  {
    var n := BoolOpExpr(op, values);
    var st1 := st.(ops := st.ops + [Frame(op, [])]);
    ComparesIntoFrame(ctx, values, n, 0, st1);
    assert values[0..] == values;
    BoolOpUnfold(ctx, op, values, st);
    var inner := VisitSeq(ctx, values, n, 0, st1).st;
    assert st1.ops[..|st.ops|] == st.ops;
    assert [] + SeqConds(ctx, values) == SeqConds(ctx, values);
    assert inner.ops[..|st.ops|] == st.ops;
  }

  /** `visit_BoolOp` once its operands are visited: the frame is closed and
      its combination emitted. */
  lemma BoolOpUnfold(ctx: Ctx, op: BoolKind, values: seq<Node>, st: State)
    requires VisitSeq(ctx, values, BoolOpExpr(op, values), 0, st.(ops := st.ops + [Frame(op, [])])).Done?
    ensures
      var inner := VisitSeq(ctx, values, BoolOpExpr(op, values), 0, st.(ops := st.ops + [Frame(op, [])])).st;
      && |inner.ops| == |st.ops| + 1
      && VisitNode(ctx, BoolOpExpr(op, values), st)
         == Emit(ctx, inner.(ops := inner.ops[..|st.ops|]), Combined(op, inner.ops[|st.ops|].args))
  {
    var n := BoolOpExpr(op, values);
    assert VisitNode(ctx, n, st) == VisitBoolOpNode(ctx, n, st);
  }

  /** An expression that is one simple comparison parses, with the list store,
      to the comparison's joins followed by the comparison. */
  lemma SingleCompareModule(ctx: Ctx, n: Node)
    requires !ctx.dictReset && SimpleCompare(ctx, n)
    ensures VisitModuleBody(ctx, [ExprStmt(n)]) == Ok(JoinConds(CompareJoins(ctx, n)) + [CompareCond(ctx, n)])
  {
    var body := [ExprStmt(n)];
    var st0 := State([], [], Null);
    ComparePlacement(ctx, st0, n);
    assert VisitNode(ctx, body[0], st0) == VisitNode(ctx, n, st0);
    VisitSeqStep(ctx, body, OtherNode(body), 0, st0);
    assert [] + JoinConds(CompareJoins(ctx, n)) == JoinConds(CompareJoins(ctx, n));
  }

  /** An accepted expression yielded conditions, was parsed with the list
      store, and every statement in it is a comparison or a boolean operation. */
  lemma ModuleAccepts(ctx: Ctx, body: seq<Node>)
    requires VisitModuleBody(ctx, body).Ok?
    ensures !ctx.dictReset && VisitModuleBody(ctx, body).value != []
    ensures forall j :: 0 <= j < |body| && body[j].ExprStmt? ==>
              body[j].value.CompareExpr? || body[j].value.BoolOpExpr?
  {
    VisitSeqChecksStatements(ctx, body, OtherNode(body), 0, State([], [], Null));
  }

  lemma {:induction false} VisitSeqChecksStatements(ctx: Ctx, vs: seq<Node>, parent: Node, i: nat, st: State)
    requires forall x :: x in vs ==> x < parent
    requires i <= |vs|
    requires VisitSeq(ctx, vs, parent, i, st).Done?
    ensures forall j :: i <= j < |vs| && vs[j].ExprStmt? ==>
              vs[j].value.CompareExpr? || vs[j].value.BoolOpExpr?
    decreases |vs| - i
  {
    if i < |vs| {
      var s := VisitNode(ctx, vs[i], st).st;
      VisitSeqChecksStatements(ctx, vs, parent, i + 1, s);
    }
  }

  /** With the dict store `visit_Module` assigns, no expression is accepted:
      every top-level append fails and the store stays empty. */
  lemma AsWrittenRejectsEveryExpression(meta: Metadata, model: string, astParse: string -> Option<seq<Node>>, text: string)
    ensures Parse(Ctx(meta, model, true), astParse, text).Err?
  {
  }

  const PersonMeta: Metadata := map["Person" := map["age" := Scalar]]
  const AgeOver18: seq<Node> := [ExprStmt(CompareExpr(NameExpr("age"), [GtTok], [NumExpr(IntLit(18))]))]

  /** `age > 18` on a model with a column `age`: as written, the first append
      to the dict raises `AttributeError`; with the list store the expression
      yields its one comparison. */
  lemma AgeOver18Counterexample()
    ensures VisitModuleBody(Ctx(PersonMeta, "Person", true), AgeOver18) == Err(AttributeError("append"))
    ensures VisitModuleBody(Ctx(PersonMeta, "Person", false), AgeOver18)
            == Ok([Compare(Gt, Column("Person", "age"), Int(18))])
  {
    var st0 := State([], [], Null);
    var cmp := Compare(Gt, Column("Person", "age"), Int(18));
    AgeOver18Visit(true);
    AgeOver18Visit(false);
    assert VisitSeq(Ctx(PersonMeta, "Person", true), AgeOver18, OtherNode(AgeOver18), 0, st0)
        == Raised(AttributeError("append"));
    assert VisitSeq(Ctx(PersonMeta, "Person", false), AgeOver18, OtherNode(AgeOver18), 1, State([cmp], [], Int(18)))
        == Done(State([cmp], [], Int(18)));
  }

  lemma AgeOver18Visit(dictReset: bool)
    ensures VisitNode(Ctx(PersonMeta, "Person", dictReset), AgeOver18[0], State([], [], Null))
         == if dictReset then Raised(AttributeError("append"))
            else Done(State([Compare(Gt, Column("Person", "age"), Int(18))], [], Int(18)))
  {
    if dictReset {
      AgeOver18Raises();
    } else {
      AgeOver18Yields();
    }
  }

  lemma AgeOver18Raises()
    ensures VisitNode(Ctx(PersonMeta, "Person", true), AgeOver18[0], State([], [], Null))
         == Raised(AttributeError("append"))
  {
    var ctx := Ctx(PersonMeta, "Person", true);
    ResolveAge();
    var st0 := State([], [], Null);
    var s1 := st0.(current := Str("age"));
    assert VisitNode(ctx, NameExpr("age"), st0) == Done(s1);
    assert AppendJoins(ctx, s1, []) == Done(s1);
    var s3 := s1.(current := Int(18));
    assert VisitNode(ctx, NumExpr(IntLit(18)), s1) == Done(s3);
    assert AppendJoins(ctx, s3, []) == Done(s3);
    assert VisitNode(ctx, AgeOver18[0].value, st0) == Emit(ctx, s3, Compare(Gt, Column("Person", "age"), Int(18)));
  }

  lemma AgeOver18Yields()
    ensures VisitNode(Ctx(PersonMeta, "Person", false), AgeOver18[0], State([], [], Null))
         == Done(State([Compare(Gt, Column("Person", "age"), Int(18))], [], Int(18)))
  {
    var ctx := Ctx(PersonMeta, "Person", false);
    ResolveAge();
    var st0 := State([], [], Null);
    var s1 := st0.(current := Str("age"));
    assert VisitNode(ctx, NameExpr("age"), st0) == Done(s1);
    assert AppendJoins(ctx, s1, []) == Done(s1);
    var s3 := s1.(current := Int(18));
    assert VisitNode(ctx, NumExpr(IntLit(18)), s1) == Done(s3);
    assert AppendJoins(ctx, s3, []) == Done(s3);
    assert VisitNode(ctx, AgeOver18[0].value, st0) == Emit(ctx, s3, Compare(Gt, Column("Person", "age"), Int(18)));
  }

  const AgeBetween: seq<Node> :=
    [ExprStmt(BoolOpExpr(And, [CompareExpr(NameExpr("age"), [GtTok], [NumExpr(IntLit(18))]),
                               CompareExpr(NameExpr("age"), [LtTok], [NumExpr(FloatLit(65.5))])]))]

  /** `age > 18 and age < 65.5` with the list store: one combined condition
      over both comparisons, in order, and no joins for a plain column. */
  lemma AgeBetweenYields()
    ensures VisitModuleBody(Ctx(PersonMeta, "Person", false), AgeBetween)
         == Ok([Combined(And, [Compare(Gt, Column("Person", "age"), Int(18)),
                               Compare(Lt, Column("Person", "age"), Float(65.5))])])
  {
    var ctx := Ctx(PersonMeta, "Person", false);
    var st0 := State([], [], Null);
    var cmps := [Compare(Gt, Column("Person", "age"), Int(18)), Compare(Lt, Column("Person", "age"), Float(65.5))];
    AgeBetweenOperands();
    var s1 := VisitNode(ctx, AgeBetween[0], st0).st;
    VisitSeqStep(ctx, AgeBetween, OtherNode(AgeBetween), 0, st0);
    assert VisitSeq(ctx, AgeBetween, OtherNode(AgeBetween), 1, s1) == Done(s1);
  }

  /** The statement of `AgeBetween` adds one combined condition and no join. */
  lemma AgeBetweenOperands()
    ensures
      var ctx := Ctx(PersonMeta, "Person", false);
      var o := VisitNode(ctx, AgeBetween[0], State([], [], Null));
      && o.Done?
      && o.st.query == [Combined(And, [Compare(Gt, Column("Person", "age"), Int(18)),
                                       Compare(Lt, Column("Person", "age"), Float(65.5))])]
  {
    var ctx := Ctx(PersonMeta, "Person", false);
    var values := AgeBetween[0].value.values;
    AgeBetweenCompares();
    BoolOpOfCompares(ctx, And, values, State([], [], Null));
    assert values[1..][1..] == [];
    assert SeqJoins(ctx, values[1..]) == CompareJoins(ctx, values[1]) + SeqJoins(ctx, []);
    assert SeqJoins(ctx, values) == [];
    assert SeqConds(ctx, values) == [CompareCond(ctx, values[0]), CompareCond(ctx, values[1])];
    assert VisitNode(ctx, AgeBetween[0], State([], [], Null)) == VisitNode(ctx, AgeBetween[0].value, State([], [], Null));
  }

  /** Both operands of `AgeBetween` are simple comparisons on `age`. */
  lemma AgeBetweenCompares()
    ensures
      var ctx := Ctx(PersonMeta, "Person", false);
      var values := AgeBetween[0].value.values;
      && SimpleCompare(ctx, values[0]) && SimpleCompare(ctx, values[1])
      && CompareJoins(ctx, values[0]) == [] && CompareJoins(ctx, values[1]) == []
      && CompareCond(ctx, values[0]) == Compare(Gt, Column("Person", "age"), Int(18))
      && CompareCond(ctx, values[1]) == Compare(Lt, Column("Person", "age"), Float(65.5))
  {
    ResolveAge();
  }

  lemma ResolveAge()
    ensures Resolve(PersonMeta, "Person", "age") == Ok((Attr(Column("Person", "age"), Scalar), []))
    ensures !IsNullName("age")
  {
    SplitAge();
    LowerAge();
  }

  lemma SplitAge()
    ensures Split("age", '.') == ["age"]
  {
    assert '.' !in "age";
    SplitWithoutSep("age", '.');
  }

  lemma LowerAge()
    ensures Lower("age") == "age"
  {
    assert "age"[1..] == "ge" && "ge"[1..] == "e" && "e"[1..] == "";
    assert Lower("e") == "e";
    assert Lower("ge") == "ge";
  }

  function Report(err: Option<Error>, st: State): Outcome
  {
    if err.Some? then Raised(err.value) else Done(st)
  }

  class MySqlVisitor {
    const meta: Metadata
    const model: string
    var sqlaQuery: seq<Cond>
    var ops: seq<Frame>
    var currentValue: Value

    function Context(): Ctx
    {
      Ctx(meta, model, false)
    }

    function Snapshot(): State
      reads this
    {
      State(sqlaQuery, ops, currentValue)
    }

    constructor(meta: Metadata, model: string)
      ensures this.meta == meta && this.model == model
      ensures sqlaQuery == [] && ops == [] && currentValue == Null
    {
      this.meta := meta;
      this.model := model;
      sqlaQuery := [];
      ops := [];
      currentValue := Null;
    }

    method AppendJoinsTo(js: seq<JoinCond>)
      modifies this
      ensures Snapshot() == AppendJoins(Context(), old(Snapshot()), js).st
    {
      ghost var q0 := sqlaQuery;
      var j := 0;
      while j < |js|
        invariant 0 <= j <= |js|
        invariant sqlaQuery == q0 + JoinConds(js[..j])
        invariant ops == old(ops) && currentValue == old(currentValue)
      {
        assert JoinConds(js[..j + 1]) == JoinConds(js[..j]) + [Join(js[j])];
        sqlaQuery := sqlaQuery + [Join(js[j])];
        j := j + 1;
      }
      assert js[..j] == js;
    }

    method EmitCond(c: Cond)
      modifies this
      ensures Snapshot() == Emit(Context(), old(Snapshot()), c).st
    {
      if ops == [] {
        sqlaQuery := sqlaQuery + [c];
      } else {
        var k := |ops| - 1;
        ops := ops[..k] + [Frame(ops[k].op, ops[k].args + [c])];
      }
    }

    method Visit(n: Node) returns (err: Option<Error>)
      modifies this
      ensures Report(err, Snapshot()) == VisitNode(Context(), n, old(Snapshot()))
      decreases n, 2
    {
      match n {
        case ExprStmt(v) =>
          if !(v.CompareExpr? || v.BoolOpExpr?) {
            return Some(ParseError(NotConditional));
          }
          err := Visit(v);
        case CompareExpr(_, _, _) =>
          err := VisitCompare(n);
        case BoolOpExpr(_, _) =>
          err := VisitBoolOp(n);
        case CallExpr(_) =>
          err := None;
        case AttributeExpr(base, a) =>
          err := Visit(base);
          if err.None? {
            if currentValue.Str? {
              currentValue := Str(currentValue.s + "." + a);
            } else {
              err := Some(TypeError);
            }
          }
        case NameExpr(id) =>
          currentValue := if IsNullName(id) then Null else Str(id);
          err := None;
        case NumExpr(k) =>
          currentValue := NumValue(k);
          err := None;
        case StrExpr(s) =>
          currentValue := Str(s);
          err := None;
        case OtherNode(children) =>
          err := VisitAll(children, n);
      }
    }

    /** `generic_visit`: the nodes in order, stopping at the first exception. */
    method VisitAll(vs: seq<Node>, ghost parent: Node) returns (err: Option<Error>)
      requires forall x :: x in vs ==> x < parent
      modifies this
      ensures Report(err, Snapshot()) == VisitSeq(Context(), vs, parent, 0, old(Snapshot()))
      decreases parent, 0
    {
      var i := 0;
      while i < |vs|
        invariant 0 <= i <= |vs|
        invariant VisitSeq(Context(), vs, parent, 0, old(Snapshot())) == VisitSeq(Context(), vs, parent, i, Snapshot())
      {
        assert vs[i] in vs;
        err := Visit(vs[i]);
        if err.Some? {
          return;
        }
        i := i + 1;
      }
      err := None;
    }

    method VisitCompare(n: Node) returns (err: Option<Error>)
      requires n.CompareExpr?
      modifies this
      ensures Report(err, Snapshot()) == VisitCompareNode(Context(), n, old(Snapshot()))
      decreases n, 1
    {
      err := Visit(n.left);
      if err.Some? {
        return;
      }
      if !currentValue.Str? {
        return Some(AttributeError("split"));
      }
      var resolved := ParseAttributeName(meta, model, currentValue.s);
      if resolved.Err? {
        return Some(resolved.error);
      }
      var (attr, joins) := resolved.value;
      AppendJoinsTo(joins);
      var op: Option<CmpOp> := None;
      if n.ops != [] {
        var mapped := MapOp(n.ops[0]);
        if mapped.Err? {
          return Some(mapped.error);
        }
        op := Some(mapped.value);
      }
      if n.comparators != [] {
        assert n.comparators[0] in n.comparators;
        err := Visit(n.comparators[0]);
        if err.Some? {
          return;
        }
      }
      var value := currentValue;
      AppendJoinsTo(OwnJoins(attr));
      if op.None? {
        return Some(TypeError);
      }
      EmitCond(Compare(op.value, LeftColumn(attr), value));
      err := None;
    }

    method VisitBoolOp(n: Node) returns (err: Option<Error>)
      requires n.BoolOpExpr?
      modifies this
      ensures Report(err, Snapshot()) == VisitBoolOpNode(Context(), n, old(Snapshot()))
      decreases n, 1
    {
      ops := ops + [Frame(n.op, [])];
      err := VisitAll(n.values, n);
      if err.Some? {
        return;
      }
      var k := |ops| - 1;
      var top := ops[k];
      ops := ops[..k];
      EmitCond(Combined(top.op, top.args));
    }

    /** `visit_Module` on the statements of a parsed expression. */
    method VisitModule(body: seq<Node>) returns (r: Result<seq<Cond>>)
      modifies this
      ensures r == VisitModuleBody(Context(), body)
    {
      sqlaQuery := [];
      ops := [];
      currentValue := Null;
      var err := VisitAll(body, OtherNode(body));
      if err.Some? {
        return Err(err.value);
      }
      if sqlaQuery == [] {
        return Err(ParseError(NoConditions));
      }
      r := Ok(sqlaQuery);
    }
  }

  /** `parse(expression, model)` with a fresh visitor. */
  method ParseExpression(meta: Metadata, model: string, astParse: string -> Option<seq<Node>>, text: string)
    returns (r: Result<seq<Cond>>)
    ensures r == Parse(Ctx(meta, model, false), astParse, text)
  {
    var v := new MySqlVisitor(meta, model);
    match astParse(text) {
      case None =>
        r := Err(ParseError("invalid syntax"));
      case Some(body) =>
        r := v.VisitModule(body);
    }
  }
}
