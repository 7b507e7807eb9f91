/** Deriving an Eve schema field definition from a mapped attribute of a
    SQLAlchemy model: a column, a relationship, a column property or a
    hybrid property. SQLAlchemy's columns and relationships are described
    by the attributes the configuration reads from them. */
module Fields {
  import opened Common
  import opened Domain

  /** The SQLAlchemy type classes a column's type is an instance of: its own
      class and all of its bases, so that `isinstance(t, C)` is `C in t`. */
  type SqlType = set<string>

  /** `sqla_type_mapping`, in its insertion order. `None` is Python's `None`:
      a pickled column has no Eve type. */
  const TypeMapping: seq<(string, Option<string>)> := [
    ("postgresql.JSON", Some("json")),
    ("Boolean", Some("boolean")),
    ("DATETIME", Some("datetime")),
    ("Date", Some("datetime")),
    ("DateTime", Some("datetime")),
    ("Float", Some("float")),
    ("Integer", Some("integer")),
    ("JSON", Some("json")),
    ("PickleType", None)
  ]

  /** The value of the first entry of `mapping` whose class `t` is an
      instance of; `None` when there is none. */
  function FirstMatch(mapping: seq<(string, Option<string>)>, t: SqlType): (r: Option<Option<string>>)
    ensures r.None? <==> forall i :: 0 <= i < |mapping| ==> mapping[i].0 !in t
    ensures r.Some? ==> exists i :: (0 <= i < |mapping| && mapping[i].0 in t && r.value == mapping[i].1
      && forall j :: 0 <= j < i ==> mapping[j].0 !in t)
  {
    if mapping == [] then None
    else if mapping[0].0 in t then Some(mapping[0].1)
    else
      var r := FirstMatch(mapping[1..], t);
      assert forall i :: 0 < i < |mapping| ==> mapping[1..][i - 1] == mapping[i];
      assert r.Some? ==> exists i :: (0 < i < |mapping| && mapping[i].0 in t && r.value == mapping[i].1
        && forall j :: 0 <= j < i ==> mapping[j].0 !in t) by {
        if r.Some? {
          var i :| 0 <= i < |mapping[1..]| && mapping[1..][i].0 in t && r.value == mapping[1..][i].1
            && forall j :: 0 <= j < i ==> mapping[1..][j].0 !in t;
          assert mapping[i + 1] == mapping[1..][i];
        }
      }
      r
  }

  lemma FirstMatchStep(mapping: seq<(string, Option<string>)>, t: SqlType, i: nat)
    requires i < |mapping|
    ensures FirstMatch(mapping[i..], t)
      == if mapping[i].0 in t then Some(mapping[i].1) else FirstMatch(mapping[i + 1..], t)
  {
    assert mapping[i..][1..] == mapping[i + 1..];
  }

  /** The Eve type of a column whose type is `t`. */
  function FieldType(t: SqlType): Option<string>
  {
    match FirstMatch(TypeMapping, t)
    case Some(ft) => ft
    case None => Some("string")
  }

  /** `_get_field_type`: the first mapping entry in order wins, a pickled
      column has no type, anything unlisted is a string. */
  method GetFieldType(t: SqlType) returns (r: Option<string>)
    ensures r == FieldType(t)
    ensures (forall i :: 0 <= i < |TypeMapping| ==> TypeMapping[i].0 !in t) ==> r == Some("string")
    ensures forall i :: (0 <= i < |TypeMapping| && TypeMapping[i].0 in t
      && (forall j :: 0 <= j < i ==> TypeMapping[j].0 !in t)) ==> r == TypeMapping[i].1
  {
    for i := 0 to |TypeMapping|
      invariant forall j :: 0 <= j < i ==> TypeMapping[j].0 !in t
      invariant FirstMatch(TypeMapping[i..], t) == FirstMatch(TypeMapping, t)
    {
      FirstMatchStep(TypeMapping, t, i);
      if TypeMapping[i].0 in t {
        return TypeMapping[i].1;
      }
    }
    return Some("string");
  }

  /** A SQLAlchemy column as the configuration reads it. An `Option` field is
      `None` when the attribute is missing; a present Python `None` is
      `Some(Null)`. */
  datatype Column = Column(
    key: string,
    typ: SqlType,
    nullable: Option<Value>,
    primaryKey: Value,
    autoincrement: Value,
    serverDefault: Value,
    unique: Option<Value>,
    length: Option<Value>,   // `type.length`
    default: Option<Value>,  // `default.arg`
    foreignKeys: nat)

  /** An Eve type as a dict value: `None` is Python's `None`. */
  function TypeValue(ft: Option<string>): Value
  {
    match ft
    case Some(s) => Str(s)
    case None => Null
  }

  /** `getattr(column, 'nullable', True)` */
  function NullableOf(col: Column): Value
  {
    match col.nullable
    case Some(v) => v
    case None => Bool(true)
  }

  /** `_get_field_required` */
  predicate Required(col: Column)
  {
    var autoincrement := Truthy(col.primaryKey) && Truthy(col.autoincrement) && "Integer" in col.typ;
    !(Truthy(NullableOf(col)) || autoincrement || Truthy(col.serverDefault))
  }

  /** A missing optional attribute reads as `None`. */
  function OrNone(v: Option<Value>): Value
  {
    match v
    case Some(x) => x
    case None => Null
  }

  /** The dict `ColumnFieldConfig._render` filters, before filtering. */
  function ColumnCandidates(col: Column): seq<Entry>
  {
    ColumnDict(TypeValue(FieldType(col.typ)), NullableOf(col), Bool(Required(col)),
               OrNone(col.unique), OrNone(col.length), OrNone(col.default))
  }

  function ColumnDict(typ: Value, nullable: Value, required: Value, unique: Value, maxlength: Value, default: Value)
    : seq<Entry>
  {
    [("type", typ), ("nullable", nullable), ("required", required),
     ("unique", unique), ("maxlength", maxlength), ("default", default)]
  }

  /** `{k: v for k, v in d.items() if v is not None}` */
  function WithoutNone(d: seq<Entry>): (r: seq<Entry>)
    ensures forall e :: e in r <==> e in d && e.1 != Null
    ensures DistinctKeys(d) ==> forall k :: Get(r, k) == (if Get(d, k) == Some(Null) then None else Get(d, k))
  {
    if d == [] then []
    else
      var rest := WithoutNone(d[1..]);
      var r := if d[0].1 == Null then rest else [d[0]] + rest;
      assert r != [] && r[0] == d[0] ==> r[1..] == rest;
      assert DistinctKeys(d) ==> forall k :: Get(r, k) == (if Get(d, k) == Some(Null) then None else Get(d, k)) by {
        if DistinctKeys(d) {
          DistinctKeysTail(d);
        }
      }
      r
  }

  /** `ColumnFieldConfig._render`. */
  function ColumnRender(col: Column): (r: seq<Entry>)
    ensures forall e :: e in r ==> e.1 != Null
  {
    WithoutNone(ColumnCandidates(col))
  }

  /** The candidate dict has distinct keys. */
  lemma ColumnDictDistinct(typ: Value, nullable: Value, required: Value, unique: Value, maxlength: Value, default: Value)
    ensures DistinctKeys(ColumnDict(typ, nullable, required, unique, maxlength, default))
  {
    assert Keys(ColumnDict(typ, nullable, required, unique, maxlength, default))
      == ["type", "nullable", "required", "unique", "maxlength", "default"];
    assert "nullable"[0] != "required"[0];
    DistinctSix("type", "nullable", "required", "unique", "maxlength", "default");
  }

  lemma DistinctSix<T>(a: T, b: T, c: T, d: T, e: T, f: T)
    requires a != b && a != c && a != d && a != e && a != f
    requires b != c && b != d && b != e && b != f
    requires c != d && c != e && c != f
    requires d != e && d != f && e != f
    ensures Distinct([a, b, c, d, e, f])
  {
  }

  /** Each key of the candidate dict holds its own candidate value. */
  lemma ColumnDictValue(typ: Value, nullable: Value, required: Value, unique: Value, maxlength: Value, default: Value,
                        k: string)
    ensures Get(ColumnDict(typ, nullable, required, unique, maxlength, default), k) ==
      (if k == "type" then Some(typ) else if k == "nullable" then Some(nullable)
       else if k == "required" then Some(required) else if k == "unique" then Some(unique)
       else if k == "maxlength" then Some(maxlength) else if k == "default" then Some(default) else None)
  {
    var d6 := [("default", default)];
    var d5 := [("maxlength", maxlength)] + d6;
    var d4 := [("unique", unique)] + d5;
    var d3 := [("required", required)] + d4;
    var d2 := [("nullable", nullable)] + d3;
    var d1 := [("type", typ)] + d2;
    assert ColumnDict(typ, nullable, required, unique, maxlength, default) == d1;
    GetCons(("type", typ), d2, k);
    GetCons(("nullable", nullable), d3, k);
    GetCons(("required", required), d4, k);
    GetCons(("unique", unique), d5, k);
    GetCons(("maxlength", maxlength), d6, k);
    GetCons(("default", default), [], k);
    assert d6 == [("default", default)] + [];
  }

  /** Looking `k` up in a rendered column finds its candidate value, unless
      that is `None`. */
  lemma ColumnRenderValue(col: Column, k: string)
    ensures Get(ColumnRender(col), k) ==
      (if k == "type" then (if FieldType(col.typ).Some? then Some(TypeValue(FieldType(col.typ))) else None)
       else if k == "nullable" then (if NullableOf(col) != Null then Some(NullableOf(col)) else None)
       else if k == "required" then Some(Bool(Required(col)))
       else if k == "unique" then (if OrNone(col.unique) != Null then Some(OrNone(col.unique)) else None)
       else if k == "maxlength" then (if OrNone(col.length) != Null then Some(OrNone(col.length)) else None)
       else if k == "default" then (if OrNone(col.default) != Null then Some(OrNone(col.default)) else None)
       else None)
  {
    var typ, nullable, required := TypeValue(FieldType(col.typ)), NullableOf(col), Bool(Required(col));
    var unique, maxlength, default := OrNone(col.unique), OrNone(col.length), OrNone(col.default);
    ColumnDictDistinct(typ, nullable, required, unique, maxlength, default);
    ColumnDictValue(typ, nullable, required, unique, maxlength, default, k);
  }

  /** A rendered column always says whether it is required, and it is
      required iff it is not nullable, not an autoincrementing integer primary
      key and has no server default; a column without a `nullable` attribute
      counts as nullable. */
  lemma ColumnRequired(col: Column)
    ensures Get(ColumnRender(col), "required") == Some(Bool(
      !Truthy(NullableOf(col))
      && !(Truthy(col.primaryKey) && Truthy(col.autoincrement) && "Integer" in col.typ)
      && !Truthy(col.serverDefault)))
    ensures col.nullable.None? ==>
      Get(ColumnRender(col), "nullable") == Some(Bool(true)) && Get(ColumnRender(col), "required") == Some(Bool(false))
  {
    ColumnRenderValue(col, "required");
    ColumnRenderValue(col, "nullable");
  }

  /** A rendered column has only the six keys, and each optional one is
      present iff its value is not `None`. */
  lemma ColumnKeys(col: Column)
    ensures HasKey(ColumnRender(col), "type") <==> FieldType(col.typ).Some?
    ensures HasKey(ColumnRender(col), "unique") <==> col.unique.Some? && col.unique.value != Null
    ensures HasKey(ColumnRender(col), "maxlength") <==> col.length.Some? && col.length.value != Null
    ensures HasKey(ColumnRender(col), "default") <==> col.default.Some? && col.default.value != Null
    ensures forall k :: HasKey(ColumnRender(col), k) ==>
      k in {"type", "nullable", "required", "unique", "maxlength", "default"}
  {
    ColumnRenderValue(col, "type");
    ColumnRenderValue(col, "unique");
    ColumnRenderValue(col, "maxlength");
    ColumnRenderValue(col, "default");
    forall k | HasKey(ColumnRender(col), k)
      ensures k in {"type", "nullable", "required", "unique", "maxlength", "default"}
    {
      ColumnRenderValue(col, k);
    }
  }

  /** A relationship as the configuration reads it. `target` is the model
      class its `argument` names, whether given as a class, a callable
      returning it or a mapper. */
  datatype Relationship = Relationship(
    uselist: bool,
    collectionIsSet: bool,
    remoteSide: seq<Column>,
    localColumns: seq<Column>,
    target: string)

  /** `local_foreign_keys`: the local columns carrying a foreign key. */
  function LocalForeignKeys(rel: Relationship): (r: seq<Column>)
    ensures forall c :: c in r <==> c in rel.localColumns && c.foreignKeys > 0
  {
    ForeignKeyColumns(rel.localColumns)
  }

  function ForeignKeyColumns(cs: seq<Column>): (r: seq<Column>)
    ensures forall c :: c in r <==> c in cs && c.foreignKeys > 0
  {
    if cs == [] then []
    else if cs[0].foreignKeys > 0 then [cs[0]] + ForeignKeyColumns(cs[1..])
    else ForeignKeyColumns(cs[1..])
  }

  function ResourceMessage(model: string, name: string): string
  {
    "Cannot determine related resource for " + model + "." + name
      + ". Please specify `related_resources` manually."
  }

  /** `_get_resource`: the `(model, field)` entry, else the target model's. */
  function GetResource(related: RelatedMap, model: string, name: string, target: string)
    : (r: Result<(string, ResourceConfig)>)
    ensures r.Err? <==> FieldKey(model, name) !in related && ModelKey(target) !in related
    ensures r.Err? ==> r.error == ConfigException(ResourceMessage(model, name))
    ensures FieldKey(model, name) in related ==> r == Ok(related[FieldKey(model, name)])
  {
    if FieldKey(model, name) in related then Ok(related[FieldKey(model, name)])
    else if ModelKey(target) in related then Ok(related[ModelKey(target)])
    else Err(ConfigException(ResourceMessage(model, name)))
  }

  /** A manual override of the field wins over everything else. */
  lemma ResourceOverride(dc: DomainConfig, related: RelatedMap, model: string, name: string, target: string)
    requires IsRelatedMap(dc, related)
    requires Override(dc.relatedResources, FieldKey(model, name)).Some?
    requires LookupConfig(dc.resourceConfigs, Override(dc.relatedResources, FieldKey(model, name)).value).Some?
    ensures var res := Override(dc.relatedResources, FieldKey(model, name)).value;
      GetResource(related, model, name, target) == Ok((res, LookupConfig(dc.resourceConfigs, res).value))
  {
    assert Expected(dc, FieldKey(model, name)).Some?;
  }

  /** Without overrides, the only resource serving the target model is used. */
  lemma ResourceByTarget(dc: DomainConfig, related: RelatedMap, model: string, name: string, target: string)
    requires IsRelatedMap(dc, related)
    requires Override(dc.relatedResources, FieldKey(model, name)).None?
    requires Override(dc.relatedResources, ModelKey(target)).None?
    requires Users(dc.resourceConfigs, target) == 1
    ensures exists i :: (0 <= i < |dc.resourceConfigs| && dc.resourceConfigs[i].1.model == target
      && GetResource(related, model, name, target) == Ok(dc.resourceConfigs[i]))
  {
    assert Expected(dc, FieldKey(model, name)).None?;
    ModelEntries(dc, target);
  }

  /** Without overrides, a target model served by no resource or by several
      is an error. */
  lemma ResourceUndetermined(dc: DomainConfig, related: RelatedMap, model: string, name: string, target: string)
    requires IsRelatedMap(dc, related)
    requires Override(dc.relatedResources, FieldKey(model, name)).None?
    requires Override(dc.relatedResources, ModelKey(target)).None?
    requires Users(dc.resourceConfigs, target) != 1
    ensures GetResource(related, model, name, target) == Err(ConfigException(ResourceMessage(model, name)))
  {
    assert Expected(dc, FieldKey(model, name)).None?;
    ModelEntries(dc, target);
  }

  /** The foreign-key definition before the local column's rules apply. */
  function BaseDefinition(resource: string, remote: Column): seq<Entry>
  {
    [("data_relation", Dict([("resource", Str(resource)), ("field", Str(remote.key))])),
     ("type", TypeValue(FieldType(remote.typ))),
     ("nullable", Bool(true))]
  }

  /** `not getattr(column, 'nullable', True)` */
  predicate NotNullable(col: Column)
  {
    !Truthy(NullableOf(col))
  }

  /** `getattr(column, 'unique') or getattr(column, 'primary_key')` */
  predicate UniqueOrKey(col: Column)
    requires col.unique.Some?
  {
    Truthy(col.unique.value) || Truthy(col.primaryKey)
  }

  /** What a local foreign-key column adds to the definition. */
  function LocalRules(fieldDef: seq<Entry>, local: Column): Result<seq<Entry>>
  {
    var d1 := Put(fieldDef, "local_id_field", Str(local.key));
    var d2 := if NotNullable(local) then Put(Put(d1, "required", Bool(true)), "nullable", Bool(false)) else d1;
    if local.unique.None? then Err(AttributeError("unique"))
    else Ok(if UniqueOrKey(local) then Put(d2, "unique", Bool(true)) else d2)
  }

  /** The result of `_get_foreign_key_definition`. `modelColumn(model, attr)`
      is `getattr(model, attr)`, `None` when the class lacks it. */
  function ForeignKeyDef(related: RelatedMap, model: string, name: string, rel: Relationship,
                         modelColumn: (string, string) -> Option<Column>): Result<seq<Entry>>
  {
    match GetResource(related, model, name, rel.target)
    case Err(e) => Err(e)
    case Ok(rc) =>
      var fks := LocalForeignKeys(rel);
      if |fks| > 0 then
        if |rel.remoteSide| == 0 then Err(IndexError)
        else LocalRules(BaseDefinition(rc.0, rel.remoteSide[0]), fks[0])
      else
        match modelColumn(rc.1.model, rc.1.idField)
        case None => Err(AttributeError(rc.1.idField))
        case Some(remote) => Ok(BaseDefinition(rc.0, remote))
  }

  /** `_get_foreign_key_definition`, filling `field_def` step by step. */
  method GetForeignKeyDefinition(related: RelatedMap, model: string, name: string, rel: Relationship,
                                 modelColumn: (string, string) -> Option<Column>) returns (r: Result<seq<Entry>>)
    ensures r == ForeignKeyDef(related, model, name, rel, modelColumn)
  {
    var resource := GetResource(related, model, name, rel.target);
    if resource.Err? {
      return Err(resource.error);
    }
    var fks := LocalForeignKeys(rel);
    var remote: Column;
    var local: Option<Column>;
    if |fks| > 0 {
      if |rel.remoteSide| == 0 {
        return Err(IndexError);
      }
      remote := rel.remoteSide[0];
      local := Some(fks[0]);
    } else {
      var cfg := resource.value.1;
      var column := modelColumn(cfg.model, cfg.idField);
      if column.None? {
        return Err(AttributeError(cfg.idField));
      }
      remote := column.value;
      local := None;
    }
    var remoteType := GetFieldType(remote.typ);
    var fieldDef := [
      ("data_relation", Dict([("resource", Str(resource.value.0)), ("field", Str(remote.key))])),
      ("type", TypeValue(remoteType)),
      ("nullable", Bool(true))];
    if local.Some? {
      var column := local.value;
      fieldDef := Put(fieldDef, "local_id_field", Str(column.key));
      if NotNullable(column) {
        fieldDef := Put(fieldDef, "required", Bool(true));
        fieldDef := Put(fieldDef, "nullable", Bool(false));
      }
      if column.unique.None? {
        return Err(AttributeError("unique"));
      }
      if UniqueOrKey(column) {
        fieldDef := Put(fieldDef, "unique", Bool(true));
      }
    }
    return Ok(fieldDef);
  }

  /** Each key of the base definition holds its own value. */
  lemma BaseLookup(resource: string, remote: Column, k: string)
    ensures Get(BaseDefinition(resource, remote), k) ==
      (if k == "data_relation" then Some(Dict([("resource", Str(resource)), ("field", Str(remote.key))]))
       else if k == "type" then Some(TypeValue(FieldType(remote.typ)))
       else if k == "nullable" then Some(Bool(true))
       else None)
  {
    var relation := Dict([("resource", Str(resource)), ("field", Str(remote.key))]);
    var typ := TypeValue(FieldType(remote.typ));
    var d3 := [("nullable", Bool(true))];
    var d2 := [("type", typ)] + d3;
    var d1 := [("data_relation", relation)] + d2;
    assert BaseDefinition(resource, remote) == d1;
    GetCons(("data_relation", relation), d2, k);
    GetCons(("type", typ), d3, k);
    GetCons(("nullable", Bool(true)), [], k);
    assert d3 == [("nullable", Bool(true))] + [];
  }

  /** What the local column's rules put in the definition, key by key. */
  lemma LocalLookup(d: seq<Entry>, local: Column, k: string)
    requires local.unique.Some?
    ensures LocalRules(d, local).Ok?
    ensures Get(LocalRules(d, local).value, k) ==
      (if k == "local_id_field" then Some(Str(local.key))
       else if k == "required" && NotNullable(local) then Some(Bool(true))
       else if k == "nullable" && NotNullable(local) then Some(Bool(false))
       else if k == "unique" && UniqueOrKey(local) then Some(Bool(true))
       else Get(d, k))
  {
  }

  /** The base definition: related to `resource`, typed, nullable, and
      without any of the keys a local column adds. */
  lemma BaseFacts(resource: string, remote: Column)
    ensures var d := BaseDefinition(resource, remote);
      && Get(d, "data_relation") == Some(Dict([("resource", Str(resource)), ("field", Str(remote.key))]))
      && Get(d, "type").Some?
      && Get(d, "nullable") == Some(Bool(true))
      && Get(d, "local_id_field").None? && Get(d, "required").None?
      && Get(d, "unique").None? && Get(d, "coerce").None?
  {
    BaseLookup(resource, remote, "data_relation");
    BaseLookup(resource, remote, "type");
    BaseLookup(resource, remote, "nullable");
    BaseLookup(resource, remote, "local_id_field");
    BaseLookup(resource, remote, "required");
    BaseLookup(resource, remote, "unique");
    BaseLookup(resource, remote, "coerce");
  }

  /** The local column's rules on top of the base definition. */
  lemma LocalFacts(resource: string, remote: Column, local: Column)
    requires local.unique.Some?
    ensures var d := LocalRules(BaseDefinition(resource, remote), local).value;
      && Get(d, "data_relation") == Some(Dict([("resource", Str(resource)), ("field", Str(remote.key))]))
      && Get(d, "type").Some?
      && Get(d, "local_id_field") == Some(Str(local.key))
      && Get(d, "nullable") == Some(Bool(!NotNullable(local)))
      && Get(d, "required") == (if NotNullable(local) then Some(Bool(true)) else None)
      && Get(d, "unique") == (if UniqueOrKey(local) then Some(Bool(true)) else None)
      && Get(d, "coerce").None?
  {
    var base := BaseDefinition(resource, remote);
    BaseFacts(resource, remote);
    LocalLookup(base, local, "data_relation");
    LocalLookup(base, local, "type");
    LocalLookup(base, local, "local_id_field");
    LocalLookup(base, local, "nullable");
    LocalLookup(base, local, "required");
    LocalLookup(base, local, "unique");
    LocalLookup(base, local, "coerce");
  }

  /** The foreign-key definition relates to the resource found; it has
      `local_id_field` iff there are local foreign keys; it is nullable
      unless the local column is not, in which case it is also required; it
      is unique iff the local column is unique or a primary key. */
  lemma ForeignKeyRules(related: RelatedMap, model: string, name: string, rel: Relationship,
                        modelColumn: (string, string) -> Option<Column>)
    requires ForeignKeyDef(related, model, name, rel, modelColumn).Ok?
    ensures var d := ForeignKeyDef(related, model, name, rel, modelColumn).value;
      var fks := LocalForeignKeys(rel);
      var strict := |fks| > 0 && NotNullable(fks[0]);
      && GetResource(related, model, name, rel.target).Ok?
      && (exists f :: Get(d, "data_relation")
            == Some(Dict([("resource", Str(GetResource(related, model, name, rel.target).value.0)), ("field", Str(f))])))
      && Get(d, "type").Some?
      && Get(d, "local_id_field") == (if |fks| > 0 then Some(Str(fks[0].key)) else None)
      && Get(d, "nullable") == Some(Bool(!strict))
      && Get(d, "required") == (if strict then Some(Bool(true)) else None)
      && Get(d, "unique") == (if |fks| > 0 && UniqueOrKey(fks[0]) then Some(Bool(true)) else None)
      && Get(d, "coerce").None?
  {
    var d := ForeignKeyDef(related, model, name, rel, modelColumn).value;
    var rc := GetResource(related, model, name, rel.target).value;
    var fks := LocalForeignKeys(rel);
    if |fks| > 0 {
      var remote := rel.remoteSide[0];
      assert d == LocalRules(BaseDefinition(rc.0, remote), fks[0]).value;
      LocalFacts(rc.0, remote, fks[0]);
    } else {
      var remote := modelColumn(rc.1.model, rc.1.idField).value;
      assert d == BaseDefinition(rc.0, remote);
      BaseFacts(rc.0, remote);
    }
  }

  /** The result of `RelationshipFieldConfig._render`. */
  function RelationshipDef(related: RelatedMap, model: string, name: string, rel: Relationship,
                           modelColumn: (string, string) -> Option<Column>): Result<seq<Entry>>
  {
    match ForeignKeyDef(related, model, name, rel, modelColumn)
    case Err(e) => Err(e)
    case Ok(fk) =>
      if rel.uselist then
        if rel.collectionIsSet then Ok([("type", Str("set")), ("coerce", Builtin("set")), ("schema", Dict(fk))])
        else Ok([("type", Str("list")), ("schema", Dict(fk))])
      else if Get(fk, "type") == Some(Str("integer")) then Ok(Put(fk, "coerce", Builtin("int")))
      else Ok(fk)
  }

  /** `RelationshipFieldConfig._render`. */
  method RenderRelationship(related: RelatedMap, model: string, name: string, rel: Relationship,
                            modelColumn: (string, string) -> Option<Column>) returns (r: Result<seq<Entry>>)
    ensures r == RelationshipDef(related, model, name, rel, modelColumn)
  {
    if rel.uselist {
      var schema := GetForeignKeyDefinition(related, model, name, rel, modelColumn);
      if schema.Err? {
        return Err(schema.error);
      }
      if rel.collectionIsSet {
        return Ok([("type", Str("set")), ("coerce", Builtin("set")), ("schema", Dict(schema.value))]);
      } else {
        return Ok([("type", Str("list")), ("schema", Dict(schema.value))]);
      }
    } else {
      var fieldDef := GetForeignKeyDefinition(related, model, name, rel, modelColumn);
      if fieldDef.Err? {
        return Err(fieldDef.error);
      }
      var d := fieldDef.value;
      if Get(d, "type") == Some(Str("integer")) {
        d := Put(d, "coerce", Builtin("int"));
      }
      return Ok(d);
    }
  }

  /** A to-many relationship is a `'set'` (with `coerce` `set`) or a
      `'list'` (without `coerce`), either way with the foreign-key definition
      as its schema. */
  lemma ToManyShape(related: RelatedMap, model: string, name: string, rel: Relationship,
                    modelColumn: (string, string) -> Option<Column>)
    requires rel.uselist
    ensures var r := RelationshipDef(related, model, name, rel, modelColumn);
      var fk := ForeignKeyDef(related, model, name, rel, modelColumn);
      && (r.Ok? <==> fk.Ok?)
      && (r.Err? ==> r.error == fk.error)
      && (r.Ok? && rel.collectionIsSet ==>
            Get(r.value, "type") == Some(Str("set")) && Get(r.value, "coerce") == Some(Builtin("set"))
            && Get(r.value, "schema") == Some(Dict(fk.value)))
      && (r.Ok? && !rel.collectionIsSet ==>
            Get(r.value, "type") == Some(Str("list")) && Get(r.value, "coerce").None?
            && Get(r.value, "schema") == Some(Dict(fk.value)))
  {
  }

  /** A to-one relationship is the foreign-key definition itself, with
      `coerce` `int` added exactly when its type is `'integer'`. */
  lemma ToOneShape(related: RelatedMap, model: string, name: string, rel: Relationship,
                   modelColumn: (string, string) -> Option<Column>)
    requires !rel.uselist
    ensures var r := RelationshipDef(related, model, name, rel, modelColumn);
      var fk := ForeignKeyDef(related, model, name, rel, modelColumn);
      && (r.Ok? <==> fk.Ok?)
      && (r.Err? ==> r.error == fk.error)
      && (r.Ok? ==>
            Get(r.value, "coerce") == (if Get(fk.value, "type") == Some(Str("integer")) then Some(Builtin("int")) else None)
            && forall k :: k != "coerce" ==> Get(r.value, k) == Get(fk.value, k))
  {
    var fk := ForeignKeyDef(related, model, name, rel, modelColumn);
    if fk.Ok? {
      ForeignKeyRules(related, model, name, rel, modelColumn);
    }
  }

  /** `ColumnPropertyFieldConfig._render`: always read-only. */
  function ColumnPropertyRender(expression: SqlType): (r: seq<Entry>)
    ensures Get(r, "readonly") == Some(Bool(true))
    ensures Get(r, "type") == Some(TypeValue(FieldType(expression)))
  {
    [("type", TypeValue(FieldType(expression))), ("readonly", Bool(true))]
  }

  /** `HybridPropertyFieldConfig._render`: always a read-only string. */
  function HybridRender(): (r: seq<Entry>)
    ensures Get(r, "readonly") == Some(Bool(true))
    ensures Get(r, "type") == Some(Str("string"))
  {
    [("type", Str("string")), ("readonly", Bool(true))]
  }

  /** The kinds of mapped attribute, each with what its `_render` reads. */
  datatype FieldKind =
    | ColumnField(column: Column)
    | RelationshipField(relationship: Relationship)
    | ColumnPropertyField(expression: SqlType)
    | HybridPropertyField

  /** What `render` returns for a field of kind `kind`. */
  function FieldRender(kind: FieldKind, model: string, name: string, related: RelatedMap,
                       modelColumn: (string, string) -> Option<Column>): Result<seq<Entry>>
  {
    match kind
    case ColumnField(col) => Ok(ColumnRender(col))
    case RelationshipField(rel) => RelationshipDef(related, model, name, rel, modelColumn)
    case ColumnPropertyField(e) => Ok(ColumnPropertyRender(e))
    case HybridPropertyField => Ok(HybridRender())
  }

  /** `FieldConfig` and its subclasses: a named attribute of a model, which
      remembers the related-resource map it was last rendered with. */
  class FieldConfig {
    const name: string
    const model: string
    const kind: FieldKind
    var relatedResourceConfigs: Option<RelatedMap>

    constructor(name: string, model: string, kind: FieldKind)
      ensures this.name == name && this.model == model && this.kind == kind
      ensures relatedResourceConfigs.None?
    {
      this.name := name;
      this.model := model;
      this.kind := kind;
      relatedResourceConfigs := None;
    }

    /** `render(related_resource_configs)` */
    method Render(related: RelatedMap, modelColumn: (string, string) -> Option<Column>)
      returns (r: Result<seq<Entry>>)
      modifies this
      ensures relatedResourceConfigs == Some(related)
      ensures r == FieldRender(kind, model, name, related, modelColumn)
    {
      relatedResourceConfigs := Some(related);
      match kind
      case ColumnField(col) =>
        r := Ok(ColumnRender(col));
      case RelationshipField(rel) =>
        r := RenderRelationship(related, model, name, rel, modelColumn);
      case ColumnPropertyField(e) =>
        var ft := GetFieldType(e);
        r := Ok([("type", TypeValue(ft)), ("readonly", Bool(true))]);
      case HybridPropertyField =>
        r := Ok(HybridRender());
    }
  }
}
