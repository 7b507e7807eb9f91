/** Values, errors and small string helpers shared by every part of the model.

    A Python value that the data layer handles (a decoded JSON document, a
    configuration entry, an attribute read from an ORM instance) is a `Value`.
    A Python `dict` keeps its insertion order, so it is an ordered sequence of
    (key, value) pairs with distinct keys; the functions on `Dict` below give it
    the behaviour of `d[k]`, `d[k] = v`, `del d[k]` and `k in d`. */
module Common {

  datatype Option<+T> = None | Some(value: T)

  /** The Python exceptions the core raises or lets escape. */
  datatype Error =
    | ParseError(msg: string)
    | AttributeError(name: string)
    | TypeError
    | KeyError(key: string)
    | ValueError(msg: string)
    | IndexError
    | ConfigException(msg: string)
    | Abort(code: int, description: Option<string>)  // Flask's `abort(code, description=...)`

  datatype Result<+T> = Ok(value: T) | Err(error: Error)

  /** A Python value. `Float` is a finite `float`, taken as the real number it
      denotes; `Builtin` is a builtin callable used as a value (`set`, `int`);
      `Obj` is an instance of a mapped model class with its attributes. */
  datatype Value =
    | Null
    | Bool(b: bool)
    | Int(i: int)
    | Float(r: real)
    | Str(s: string)
    | List(items: seq<Value>)
    | Set(elems: seq<Value>)
    | Dict(entries: seq<(string, Value)>)
    | Builtin(name: string)
    | Obj(model: string, attrs: seq<(string, Value)>)

  type Entry = (string, Value)

  /** The keys of an ordered dict, in order. */
  function Keys(d: seq<Entry>): (ks: seq<string>)
    ensures |ks| == |d|
    ensures forall i :: 0 <= i < |d| ==> ks[i] == d[i].0
  {
    if d == [] then [] else [d[0].0] + Keys(d[1..])
  }

  /** No key occurs twice: every Python dict has this shape. */
  predicate DistinctKeys(d: seq<Entry>)
  {
    Distinct(Keys(d))
  }

  predicate Distinct<T(==)>(s: seq<T>)
  {
    forall i, j :: 0 <= i < j < |s| ==> s[i] != s[j]
  }

  /** `k in d` */
  predicate HasKey(d: seq<Entry>, k: string)
  {
    k in Keys(d)
  }

  /** `d.get(k)`: the value stored under `k`, if any. */
  function Get(d: seq<Entry>, k: string): (r: Option<Value>)
    ensures r.Some? <==> HasKey(d, k)
    ensures r.Some? ==> (k, r.value) in d
  {
    if d == [] then None
    else if d[0].0 == k then Some(d[0].1)
    else Get(d[1..], k)
  }

  /** `d[k] = v`: an existing key keeps its position and takes the new value;
      a new key goes at the end. */
  function Put(d: seq<Entry>, k: string, v: Value): (r: seq<Entry>)
    ensures Get(r, k) == Some(v)
    ensures forall k' :: k' != k ==> Get(r, k') == Get(d, k')
  {
    if d == [] then [(k, v)]
    else if d[0].0 == k then
      var r := [(k, v)] + d[1..];
      assert r[1..] == d[1..];
      r
    else
      var rest := Put(d[1..], k, v);
      var r := [d[0]] + rest;
      assert r[1..] == rest;
      r
  }

  /** `del d[k]` when `k` is present; `d` itself otherwise. */
  function Delete(d: seq<Entry>, k: string): (r: seq<Entry>)
    ensures !HasKey(r, k)
    ensures forall e :: e in r <==> e in d && e.0 != k
    ensures forall k' :: k' != k ==> Get(r, k') == Get(d, k')
  {
    if d == [] then []
    else if d[0].0 == k then
      var r := Delete(d[1..], k);
      r
    else
      var rest := Delete(d[1..], k);
      var r := [d[0]] + rest;
      assert r[1..] == rest;
      r
  }

  /** `Put` keeps the key order and appends a new key at the end. */
  lemma {:induction false} PutKeys(d: seq<Entry>, k: string, v: Value)
    ensures Keys(Put(d, k, v)) == if HasKey(d, k) then Keys(d) else Keys(d) + [k]
  {
    if d != [] && d[0].0 != k {
      PutKeys(d[1..], k, v);
      assert Keys(d) == [d[0].0] + Keys(d[1..]);
      assert Keys(Put(d, k, v)) == [d[0].0] + Keys(Put(d[1..], k, v));
    } else if d != [] {
      assert Keys(Put(d, k, v)) == Keys(d);
    }
  }

  /** Distinct keys survive `Put`. */
  lemma PutDistinct(d: seq<Entry>, k: string, v: Value)
    requires DistinctKeys(d)
    ensures DistinctKeys(Put(d, k, v))
  {
    PutKeys(d, k, v);
    if !HasKey(d, k) {
      AppendDistinct(Keys(d), k);
    }
  }

  lemma AppendDistinct<T>(s: seq<T>, x: T)
    requires Distinct(s) && x !in s
    ensures Distinct(s + [x])
  {
  }

  /** The tail of a dict with distinct keys has distinct keys and lacks the head's key. */
  lemma DistinctKeysTail(d: seq<Entry>)
    requires d != [] && DistinctKeys(d)
    ensures DistinctKeys(d[1..]) && !HasKey(d[1..], d[0].0)
  {
    var ks := Keys(d[1..]);
    forall i, j | 0 <= i < j < |ks|
      ensures ks[i] != ks[j]
    {
      assert Keys(d)[i + 1] == ks[i] && Keys(d)[j + 1] == ks[j];
    }
    forall j | 0 <= j < |ks|
      ensures ks[j] != d[0].0
    {
      assert Keys(d)[0] != Keys(d)[j + 1];
    }
  }

  /** Looking a key up in a dict that starts with `e`. */
  lemma GetCons(e: Entry, rest: seq<Entry>, k: string)
    ensures Get([e] + rest, k) == if e.0 == k then Some(e.1) else Get(rest, k)
  {
    assert ([e] + rest)[1..] == rest;
  }

  /** With distinct keys, `d[k]` is the value stored beside `k`. */
  lemma {:induction false} GetAt(d: seq<Entry>, i: nat)
    requires DistinctKeys(d) && i < |d|
    ensures Get(d, d[i].0) == Some(d[i].1)
  {
    if i > 0 {
      DistinctKeysTail(d);
      assert Keys(d)[0] != Keys(d)[i];
      GetAt(d[1..], i - 1);
    }
  }

  /** Storing a new key appends it. */
  lemma {:induction false} PutAbsent(d: seq<Entry>, k: string, v: Value)
    requires !HasKey(d, k)
    ensures Put(d, k, v) == d + [(k, v)]
  {
    if d != [] {
      assert Keys(d) == [d[0].0] + Keys(d[1..]);
      assert d[0].0 != k;
      PutAbsent(d[1..], k, v);
      assert Put(d, k, v) == [d[0]] + Put(d[1..], k, v);
      ConsSnoc(d, (k, v));
    }
  }

  lemma AppendAssoc<T>(a: seq<T>, b: seq<T>, c: seq<T>)
    ensures (a + b) + c == a + (b + c)
  {
  }

  lemma ConsSnoc<T>(d: seq<T>, e: T)
    requires d != []
    ensures [d[0]] + (d[1..] + [e]) == d + [e]
  {
    assert d == [d[0]] + d[1..];
  }

  /** `Put` adds no pair but the one stored. */
  lemma {:induction false} PutMembers(d: seq<Entry>, k: string, v: Value)
    ensures forall e :: e in Put(d, k, v) ==> e in d || e == (k, v)
  {
    if d != [] && d[0].0 != k {
      PutMembers(d[1..], k, v);
      assert Put(d, k, v) == [d[0]] + Put(d[1..], k, v);
    }
  }

  /** A measure of a value: one per node plus the characters of its strings and
      keys. A JSON text is never shorter than the size of what it decodes to. */
  function Size(v: Value): nat
    decreases v, 1
  {
    match v
    case Str(s) => 1 + |s|
    case List(xs) => 1 + SizeItems(xs)
    case Set(xs) => 1 + SizeItems(xs)
    case Dict(es) => 1 + SizeEntries(es, v)
    case Obj(_, es) => 1 + SizeEntries(es, v)
    case _ => 1
  }

  function SizeItems(xs: seq<Value>): nat
  {
    if xs == [] then 0 else Size(xs[0]) + SizeItems(xs[1..])
  }

  function SizeEntries(es: seq<Entry>, ghost parent: Value): nat
    requires forall i :: 0 <= i < |es| ==> es[i].1 < parent
    decreases parent, 0, |es|
  {
    if es == [] then 0 else 1 + |es[0].0| + Size(es[0].1) + SizeEntries(es[1..], parent)
  }

  lemma {:induction false} ItemSmaller(xs: seq<Value>, i: nat)
    requires i < |xs|
    ensures Size(xs[i]) <= SizeItems(xs)
  {
    if i > 0 { ItemSmaller(xs[1..], i - 1); }
  }

  lemma {:induction false} EntrySmaller(es: seq<Entry>, parent: Value, i: nat)
    requires forall j :: 0 <= j < |es| ==> es[j].1 < parent
    requires i < |es|
    ensures 1 + |es[i].0| + Size(es[i].1) <= SizeEntries(es, parent)
  {
    if i > 0 { EntrySmaller(es[1..], parent, i - 1); }
  }

  /** The size of a dict's entries: `Size(Dict(es)) == 1 + EntriesSize(es)`. */
  function EntriesSize(es: seq<Entry>): nat
  {
    if es == [] then 0 else 1 + |es[0].0| + Size(es[0].1) + EntriesSize(es[1..])
  }

  lemma {:induction false} EntriesSizeIsSize(es: seq<Entry>, parent: Value)
    requires forall i :: 0 <= i < |es| ==> es[i].1 < parent
    ensures SizeEntries(es, parent) == EntriesSize(es)
  {
    if es != [] {
      EntriesSizeIsSize(es[1..], parent);
    }
  }

  lemma DictSize(es: seq<Entry>)
    ensures Size(Dict(es)) == 1 + EntriesSize(es)
  {
    EntriesSizeIsSize(es, Dict(es));
  }

  /** An entry of a dict is no larger than all its entries. */
  lemma {:induction false} EntryInside(es: seq<Entry>, i: nat)
    requires i < |es|
    ensures 1 + |es[i].0| + Size(es[i].1) <= EntriesSize(es)
  {
    if i > 0 {
      EntryInside(es[1..], i - 1);
    }
  }

  /** `json.loads` never yields a value larger than its text. */
  ghost predicate Shrinking(loads: string -> Option<Value>)
  {
    forall s :: loads(s).Some? ==> Size(loads(s).value) <= |s|
  }

  /** Python truthiness. */
  predicate Truthy(v: Value)
  {
    match v
    case Null => false
    case Bool(b) => b
    case Int(i) => i != 0
    case Float(r) => r != 0.0
    case Str(s) => s != ""
    case List(xs) => xs != []
    case Set(xs) => xs != []
    case Dict(es) => es != []
    case Builtin(_) => true
    case Obj(_, _) => true
  }

  /** Python `len(v)`: defined for strings and containers, a `TypeError` otherwise. */
  function Len(v: Value): Result<nat>
  {
    match v
    case Str(s) => Ok(|s|)
    case List(xs) => Ok(|xs|)
    case Set(xs) => Ok(|xs|)
    case Dict(es) => Ok(|es|)
    case _ => Err(TypeError)
  }

  /** `\w` of Python's `re` on a `str` pattern: `_` and the characters
    * `str.isalnum()` accepts, up to U+00FF (Latin-1: the ASCII letters and
    * digits, the ordinal indicators, superscripts, vulgar fractions, micro
    * sign and the accented letters). */
  predicate IsWordChar(c: char)
  {
    || ('a' <= c <= 'z') || ('A' <= c <= 'Z') || ('0' <= c <= '9') || c == '_'
    || c == '\U{AA}' || c == '\U{B2}' || c == '\U{B3}' || c == '\U{B5}'
    || c == '\U{B9}' || c == '\U{BA}' || ('\U{BC}' <= c <= '\U{BE}')
    || ('\U{C0}' <= c <= '\U{D6}') || ('\U{D8}' <= c <= '\U{F6}') || ('\U{F8}' <= c <= '\U{FF}')
  }

  /** `\s` of Python's `re` on a `str` pattern, which is also what
    * `str.strip()` removes: the characters `str.isspace()` accepts. */
  predicate IsSpace(c: char)
  {
    || ('\t' <= c <= '\r') || ('\U{1C}' <= c <= ' ') || c == '\U{85}' || c == '\U{A0}'
    || c == '\U{1680}' || ('\U{2000}' <= c <= '\U{200A}') || c == '\U{2028}' || c == '\U{2029}'
    || c == '\U{202F}' || c == '\U{205F}' || c == '\U{3000}'
  }

  /** `s.split(sep)`: the pieces between occurrences of `sep`, in order. */
  function Split(s: string, sep: char): (parts: seq<string>)
    ensures |parts| >= 1
    ensures forall i, j :: 0 <= i < |parts| && 0 <= j < |parts[i]| ==> parts[i][j] != sep
    ensures Join(parts, sep) == s
  {
    if s == [] then [""]
    else
      var rest := Split(s[1..], sep);
      if s[0] == sep then
        assert s == [sep] + s[1..];
        [""] + rest
      else
        assert s == [s[0]] + (rest[0] + JoinTail(rest[1..], sep));
        [[s[0]] + rest[0]] + rest[1..]
  }

  /** A string without the separator splits into itself alone. */
  lemma {:induction false} SplitWithoutSep(s: string, sep: char)
    requires sep !in s
    ensures Split(s, sep) == [s]
  {
    if s != [] {
      assert sep !in s[1..];
      SplitWithoutSep(s[1..], sep);
      assert [s[0]] + s[1..] == s;
    }
  }

  /** `sep.join(parts)` */
  function Join(parts: seq<string>, sep: char): string
    requires |parts| >= 1
  {
    parts[0] + JoinTail(parts[1..], sep)
  }

  function JoinTail(parts: seq<string>, sep: char): string
  {
    if parts == [] then [] else [sep] + parts[0] + JoinTail(parts[1..], sep)
  }

  /** `s.strip()` */
  function Strip(s: string): (r: string)
    ensures |r| <= |s|
    ensures r != [] ==> !IsSpace(r[0]) && !IsSpace(r[|r| - 1])
    ensures exists i, j :: && 0 <= i <= j <= |s| && r == s[i..j]
                           && (forall k :: 0 <= k < i ==> IsSpace(s[k]))
                           && (forall k :: j <= k < |s| ==> IsSpace(s[k]))
  {
    var a := SpaceRun(s);
    var b := |s| - TrailingSpaceRun(s[a..]);
    assert forall k :: b <= k < |s| ==> s[k] == s[a..][k - a];
    s[a..b]
  }

  /** The number of trailing whitespace characters. */
  function TrailingSpaceRun(s: string): (n: nat)
    ensures n <= |s|
    ensures forall k :: |s| - n <= k < |s| ==> IsSpace(s[k])
    ensures n < |s| ==> !IsSpace(s[|s| - 1 - n])
  {
    if s != [] && IsSpace(s[|s| - 1]) then
      var n := TrailingSpaceRun(s[..|s| - 1]);
      assert forall k :: 0 <= k < |s| - 1 ==> s[..|s| - 1][k] == s[k];
      1 + n
    else 0
  }

  /** The number of leading whitespace characters. */
  function SpaceRun(s: string): (n: nat)
    ensures n <= |s|
    ensures forall k :: 0 <= k < n ==> IsSpace(s[k])
    ensures n < |s| ==> !IsSpace(s[n])
  {
    if s != [] && IsSpace(s[0]) then 1 + SpaceRun(s[1..]) else 0
  }
}
