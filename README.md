# Eve MySQL data layer — a Dafny model

This project models the core of the MySQL data layer of Eve (`eve/io/mysql`).
The layer translates client filters into SQLAlchemy query conditions. It also
translates sort requests, converts mapped objects into response documents and
generates an Eve schema from the declarative models. The modelled parts are:

- **The filter parser** (`parser.py`). It resolves dotted attribute paths and
  collects their joins. It compiles Python-syntax expressions such as
  `age > 18 and name == "x"` with an AST visitor, and Mongo-style filter
  documents with `parse_dictionary`. It also handles operator calls such as
  `like("%john%")` and sort keys.
  - `Parser`: attribute resolution, sorting and the operator-call pattern.
  - `Visitor`: the expression visitor. It is a specification on values,
    and `Visitor.MySqlVisitor` is the stateful class proved against it.
  - `FilterDict`: `parse_dictionary`, as specification functions and as
    methods proved equal to them.
- **The helpers** (`utils.py`, module `Utils`):
  - dict merging, recursive update and `None` removal;
  - filter whitelisting;
  - converting an object to a dict, with value sanitising;
  - sort-argument extraction;
  - renaming relationship fields to their local id columns.
- **The data layer's own decisions** (`mysql.py`, module `MySql`):
  - the sort-request fallback;
  - pagination arguments;
  - filter dispatch;
  - query combination;
  - the immutable id check;
  - projection fields;
  - choosing the database prefix.
- **Schema generation** (`config/domainconfig.py`, module `Domain`, and
  `config/fieldconfig.py`, module `Fields`):
  - assigning related resources to relationships;
  - rendering the domain;
  - rendering column, relationship, column-property and hybrid fields.

`Common` holds the shared vocabulary:
- Python values, with dicts as ordered lists of pairs with distinct keys,
  because iteration order matters to `parse_dictionary`;
- the exceptions, as an `Error` datatype;
- `Result`/`Option`;
- the dict and string helpers.

Every exception the modelled code raises or catches is an `Err` of the matching kind.
An exception raised inside `ResourceConfig.render`, which the model takes as a
parameter, is that parameter's `Err`, and `Domain.Render` passes it on unchanged.
Python's `ParseError` is a `ValueError`, and `and_`/`or_` re-wrap both.

Two behaviours of the code are worth stating up front:
- **Relationship keys.** A relationship key in a filter document is compared
  with the first `remote_side` column, and with the target's primary key only
  for a multi-valued (`uselist`) relationship (`parser.py:91-98`).
- **Expressions.** `visit_Module` (`parser.py:199`) replaces the list of
  conditions created in `__init__` with a dict, so every later `append` fails
  (see Findings).

## Model

| member | source | states |
|---|---|---|
| Parser.GetAttr | eve/io/mysql/parser.py:159-168 | looking up a mapped attribute succeeds exactly when the model maps that name, and otherwise raises `AttributeError` naming it |
| Parser.ParseAttributeName | eve/io/mysql/parser.py:153-169 | the loop that walks a dotted path yields exactly the resolution `Resolve` defines (final attribute and joins, or the first lookup error) |
| Parser.WalkFollowsPath | eve/io/mysql/parser.py:158-169 | a path resolves iff every segment names a mapped attribute and every segment but the last is a relationship; the joins are the hops' primary then secondary joins in path order, at most two per hop |
| Parser.ResolveJoinBound | eve/io/mysql/parser.py:153-169 | a path of k segments yields at most 2(k-1) joins, and a single name yields none |
| Parser.ParseSorting | eve/io/mysql/parser.py:137-150 | sorting succeeds iff the key resolves and a given expression names a method of the ordering; a failed resolve keeps its error and an unknown expression raises `AttributeError`; the joins are the resolver's; the key is the column, descending exactly when order is -1, passed through the named expression when one is given |
| Parser.WordRun | eve/io/mysql/parser.py:130 | the run of word and space characters at the front of the text is maximal |
| Parser.LastClose | eve/io/mysql/parser.py:130 | the greedy `(.+)\)` match ends at the last `)` on the line |
| Parser.MatchOperatorCall | eve/io/mysql/parser.py:122-134 | a match is an operator name of word/space characters followed by `(` and a non-empty bracketed value that ends at a `)` |
| Parser.CallValue | eve/io/mysql/parser.py:130-132 | the captured value is non-empty, lies on one line after the opening brackets and ends right before a `)` |
| Parser.MatchLike | eve/io/mysql/parser.py:124-132 | the documented example `like("%john%")` yields operator `like` and the value `"%john%"` |
| Parser.MatchDoubleParens | eve/io/mysql/parser.py:130 | `like(("x"))` captures `"x")`: the opening brackets are all consumed and the greedy group keeps the inner `)` |
| Parser.LikePrefix | eve/io/mysql/parser.py:130 | any text starting with `like(` has operator name `like` |
| Parser.ParseSqlaOperators | eve/io/mysql/parser.py:122-134 | the result is Ok iff the value is a string matching the pattern whose captured value decodes as JSON, giving the name and the decoded value; otherwise `TypeError` or `ValueError` |
| Visitor.MapOp | eve/io/mysql/parser.py:180-189 | the comparison mapping fails (`KeyError`) exactly for `is`, `is not`, `in` and `not in` |
| Visitor.AppendTop | eve/io/mysql/parser.py:199 | appending to the query store succeeds iff the store is the list, and adds exactly that condition |
| Visitor.AppendJoins | eve/io/mysql/parser.py:227-229 | a compare's joins are appended, in order, to the store, which must be a list unless there are none |
| Visitor.Emit | eve/io/mysql/parser.py:258-261 | a condition goes to the innermost open boolean frame, or to the top-level store when none is open; nothing else changes |
| Visitor.VisitNode | eve/io/mysql/parser.py:215-302 | visiting any node only appends to the store and to open frames (the visit never loses a condition) |
| Visitor.VisitSeq | eve/io/mysql/parser.py:204-221 | the generic visit of a node's children keeps the same extension invariant |
| Visitor.VisitCompareNode | eve/io/mysql/parser.py:223-261 | a comparison keeps the extension invariant |
| Visitor.FinishCompare | eve/io/mysql/parser.py:243-261 | a comparison completes only with a mapped operator, and keeps the extension invariant |
| Visitor.VisitBoolOpNode | eve/io/mysql/parser.py:263-274 | a boolean operation keeps the extension invariant |
| Visitor.VisitModuleBody | eve/io/mysql/parser.py:197-213 | a module that is accepted yields a non-empty list of conditions |
| Visitor.Parse | eve/io/mysql/parser.py:19-32 | a successful parse yields at least one condition |
| Visitor.SingleCompareModule | eve/io/mysql/parser.py:197-261 | an expression that is one comparison `path op leaf` parses to the path's joins, the attribute's own joins, then the comparison |
| Visitor.ComparePlacement | eve/io/mysql/parser.py:223-261 | `path op literal`, with a name or a dotted attribute chain on the left, adds the path's joins, the relationship's own joins and the comparison `column op value`, at top level or in the open frame, and sets the current value to the literal |
| Visitor.CompareFront | eve/io/mysql/parser.py:223-237 | visiting the left path and the literal amounts to appending the path's joins and setting the current value |
| Visitor.DottedVisit | eve/io/mysql/parser.py:280-290 | visiting a name or a chain of attributes on it sets the current value to the dotted path and changes nothing else |
| Visitor.CompareFinish | eve/io/mysql/parser.py:242-261 | the end of a comparison appends the own joins and emits the comparison of the left column with the current value |
| Visitor.BoolOpPlacement | eve/io/mysql/parser.py:263-274 | a boolean operation emits exactly one combined condition, over the conditions its operands left in the frame it opened, as the last top-level condition or at the end of the enclosing frame |
| Visitor.ComparesIntoFrame | eve/io/mysql/parser.py:223-267 | comparisons visited inside an open frame put all their joins, in order, into the top-level store and their conditions, in order, at the end of the frame |
| Visitor.BoolOpOfCompares | eve/io/mysql/parser.py:263-274 | an `and`/`or` of comparisons adds every operand's joins in operand order, then one combination of exactly the operands' comparisons, in order |
| Visitor.AgeBetweenYields | eve/io/mysql/parser.py:197-274 | `age > 18 and age < 65.5` yields the one condition `and_(age > 18, age < 65.5)` |
| Visitor.ModuleAccepts | eve/io/mysql/parser.py:197-221 | an accepted module needs the list store, and every expression statement in it is a comparison or a boolean operation |
| Visitor.VisitSeqChecksStatements | eve/io/mysql/parser.py:204-221 | each expression statement the generic visit accepts is a comparison or a boolean operation |
| Visitor.AsWrittenRejectsEveryExpression | eve/io/mysql/parser.py:199 | with the store reset to a dict, as written, every text fails to parse |
| Visitor.AgeOver18Counterexample | eve/io/mysql/parser.py:199 | `age > 18` raises `AttributeError("append")` as written, and yields `[age > 18]` with the list store |
| Visitor.AgeOver18Visit | eve/io/mysql/parser.py:223-261 | the visit of the statement `age > 18` under both stores |
| Visitor.MySqlVisitor.constructor | eve/io/mysql/parser.py:191-195 | the visitor starts with an empty store, no open frames and no current value |
| Visitor.MySqlVisitor.AppendJoinsTo | eve/io/mysql/parser.py:227-229 | the in-place append of joins changes the fields exactly as `AppendJoins` |
| Visitor.MySqlVisitor.EmitCond | eve/io/mysql/parser.py:258-261 | the in-place placement of a condition changes the fields exactly as `Emit` |
| Visitor.MySqlVisitor.Visit | eve/io/mysql/parser.py:215-302 | dispatch on the node kind changes the fields and raises exactly as `VisitNode` |
| Visitor.MySqlVisitor.VisitAll | eve/io/mysql/parser.py:204-221 | the generic visit of children agrees with `VisitSeq` |
| Visitor.MySqlVisitor.VisitCompare | eve/io/mysql/parser.py:223-261 | `visit_Compare` agrees with `VisitCompareNode` |
| Visitor.MySqlVisitor.VisitBoolOp | eve/io/mysql/parser.py:263-274 | `visit_BoolOp` agrees with `VisitBoolOpNode` |
| Visitor.MySqlVisitor.VisitModule | eve/io/mysql/parser.py:197-213 | `visit_Module` with the list store returns what `VisitModuleBody` defines |
| Visitor.ParseExpression | eve/io/mysql/parser.py:19-32 | `parse` returns what `Parse` defines: a `ParseError` for text that does not parse or is not an accepted expression |
| FilterDict.SubValues | eve/io/mysql/parser.py:63-66 | iterating the operands of `and_`/`or_` fails with `TypeError` exactly for values that are not iterable; each element is no larger than the value |
| FilterDict.Rewrap | eve/io/mysql/parser.py:70-71 | `TypeError` and `ValueError` (including `ParseError`) become a `ParseError`; every other error passes through |
| FilterDict.Operands | eve/io/mysql/parser.py:60-61 | a list is taken as it is, anything else must be JSON text and decodes to something smaller |
| FilterDict.EntriesConcat | eve/io/mysql/parser.py:49-119 | the keys are compiled independently: the conditions of a split document are those of each part, concatenated, and the first error wins |
| FilterDict.CompileDictConcat | eve/io/mysql/parser.py:44-119 | the same holds for two non-empty documents |
| FilterDict.SingleKey | eve/io/mysql/parser.py:44-56 | a one-key document compiles to that key's conditions |
| FilterDict.TieBreak | eve/io/mysql/parser.py:51-56 | when `"{k}{v}"` parses as an expression, its conditions are used and nothing else |
| FilterDict.CompileAllChains | eve/io/mysql/parser.py:63-67 | the operands' conditions are concatenated in order |
| FilterDict.AndOrCombines | eve/io/mysql/parser.py:58-69 | `and_`/`or_` over a list gives exactly one combined condition over the concatenated sub-conditions |
| FilterDict.AndOrRejects | eve/io/mysql/parser.py:58-71 | `and_`/`or_` over a non-list value that is not JSON text raises `ParseError` |
| FilterDict.RelationshipKey | eve/io/mysql/parser.py:85-98 | a relationship key gives the path's joins, the primary and secondary joins, then equality on the remote column (the target's primary key when multi-valued) |
| FilterDict.ScalarKey | eve/io/mysql/parser.py:100-117 | a column key without an operator call gives membership for a list and equality otherwise |
| FilterDict.EqualityKey | eve/io/mysql/parser.py:85-117 | a relationship key, or a column key whose value is neither a list nor an operator call, gives the path's joins, the attribute's own joins, then equality on the column a comparison on that attribute constrains |
| FilterDict.DictMatchesExpression | eve/io/mysql/parser.py:85-117 | the document `{path: leaf}` and the expression `path == leaf` compile to the same conditions, for a column (no operator call) or a relationship path |
| FilterDict.OperatorKey | eve/io/mysql/parser.py:100-111 | a column key with an operator call applies that operator to the decoded argument |
| FilterDict.ProxyKey | eve/io/mysql/parser.py:76-82 | an association proxy key gives `any` over a dict's criteria and `contains` for any other value |
| FilterDict.ParseDictionary | eve/io/mysql/parser.py:35-49 | the imperative `parse_dictionary` returns `CompileDict` |
| FilterDict.ParseEntries | eve/io/mysql/parser.py:47-119 | the loop over the keys accumulates exactly `CompileEntries` |
| FilterDict.EntriesFrom | eve/io/mysql/parser.py:47-56 | the loop's accumulator plus the remaining keys' conditions is invariant across one key |
| FilterDict.ParseEntry | eve/io/mysql/parser.py:49-117 | one key's handling returns `CompileEntry` |
| FilterDict.ParseBool | eve/io/mysql/parser.py:58-71 | the `and_`/`or_` branch returns `CompileBool` |
| FilterDict.ParseOperands | eve/io/mysql/parser.py:63-67 | the chained list comprehension returns `CompileAll` |
| FilterDict.OperandsFrom | eve/io/mysql/parser.py:63-67 | the accumulated operands plus the remaining ones' conditions is invariant across one operand |
| Utils.UpdateGet | eve/io/mysql/utils.py:33 | after `dict.update`, a key reads the update's value if it has one and the original's otherwise |
| Utils.UpdateDistinct | eve/io/mysql/utils.py:33 | `dict.update` keeps keys distinct |
| Utils.LastWith | eve/io/mysql/utils.py:24-34 | some dict defines the key iff a last definition exists |
| Utils.MergeDicts | eve/io/mysql/utils.py:24-34 | the merged dict has every key of any input, and its value is the one from the last dict that has it |
| Utils.DictUpdateGet | eve/io/mysql/utils.py:37-42 | per key: untouched if absent from the update; added if new; left alone if present and not both dicts; merged recursively if both are dicts |
| Utils.DictUpdatedDistinct | eve/io/mysql/utils.py:37-42 | the recursive update keeps keys distinct |
| Utils.UpdateEntries | eve/io/mysql/utils.py:37-42 | the loop computes the recursive update `DictUpdated` |
| Utils.DictUpdate | eve/io/mysql/utils.py:37-42 | the dict is changed in place to `DictUpdated` of its old contents |
| Utils.RemoveNoneValues | eve/io/mysql/utils.py:45-48 | afterwards the dict holds exactly the old entries whose value is not `None`, in their old order and with distinct keys, and no key reads `None` |
| Utils.NonNull | eve/io/mysql/utils.py:45-48 | the entries kept are exactly those not holding `None` |
| Utils.Without | eve/io/mysql/utils.py:46-48 | the entries kept are exactly those whose key is not removed |
| Utils.DeleteWithout | eve/io/mysql/utils.py:48 | `del d[k]` removes that key and keeps the order of the other entries |
| Utils.WithoutUnion | eve/io/mysql/utils.py:46-48 | removing one set of keys and then another is removing their union |
| Utils.DeleteNonesWithout | eve/io/mysql/utils.py:46-48 | deleting the `None` keys one by one removes exactly those keys, keeping the order of the rest |
| Utils.WithoutNonNull | eve/io/mysql/utils.py:46-48 | removing the keys of the `None` entries leaves the entries not holding `None`, in order |
| Utils.NonNullDistinct | eve/io/mysql/utils.py:46-48 | the remaining entries keep distinct keys |
| Utils.DeleteNonesKeeps | eve/io/mysql/utils.py:46-48 | deleting the `None`-valued keys one by one keeps exactly the entries whose key is not among them |
| Utils.ValidateFilters | eve/io/mysql/utils.py:51-58 | with `*` allowed every filter passes; otherwise the result is clean iff every filter's key is allowed, else the message names the first disallowed key; a filter without a left column raises `AttributeError` |
| Utils.FindResource | eve/io/mysql/utils.py:167-174 | finds the first resource whose source is the model, or none exists |
| Utils.GetId | eve/io/mysql/utils.py:108-110 | the id is the object's value of its resource's id field; an unknown model raises `KeyError` |
| Utils.Dedup | eve/io/mysql/utils.py:103 | `set()` of a collection: elements distinct under structural equality, the same members (see Left out for numeric equality) |
| Utils.DedupDistinct | eve/io/mysql/utils.py:103 | a collection that is already distinct is kept as it is |
| Utils.SanitizeShape | eve/io/mysql/utils.py:95-110 | a sanitised value has every ORM instance replaced by the value of its resource's id field; a dict keeps its keys in order and a list its length, each member sanitised; a set holds, without repeats, exactly the sanitised forms of its members; anything else is unchanged |
| Utils.SanitizePlain | eve/io/mysql/utils.py:95-105 | a value holding no mapped objects is returned unchanged |
| Utils.Bookkeeping | eve/io/mysql/utils.py:64-69 | the field list keeps its prefix, stays free of repeats, and afterwards holds the configured `LAST_UPDATED` and `DATE_CREATED` names; it holds the `ETAG` name when `IF_MATCH` is on, and does not gain it when `IF_MATCH` is off and it was absent (and differs from the other two); only these names are added |
| Utils.CopyField | eve/io/mysql/utils.py:72-86 | copying one field keeps every earlier key and adds at most the field's sanitised value |
| Utils.CollectKeeps | eve/io/mysql/utils.py:71-86 | the field loop never drops a key |
| Utils.CollectSound | eve/io/mysql/utils.py:71-86 | every value in the result was already there or is a sanitised attribute of a listed field |
| Utils.CollectComplete | eve/io/mysql/utils.py:71-86 | every listed field that the object has, and that sanitises, is in the result |
| Utils.ObjectDictFields | eve/io/mysql/utils.py:61-92 | the document holds only sanitised attributes of listed fields, holds every such field, and its etag is never `None` |
| Utils.AddBookkeeping | eve/io/mysql/utils.py:64-69 | the caller's field list is extended in place to `WithBookkeeping` |
| Utils.SqlaObjectToDict | eve/io/mysql/utils.py:61-92 | the caller's list is extended, and the result is `ObjectDict` of the extended list |
| Utils.SortEntries | eve/io/mysql/utils.py:119-121 | one sort entry per comma-separated token, in order |
| Utils.SortEntriesRoundTrip | eve/io/mysql/utils.py:116-121 | rendering the entries back to tokens and joining them with commas restores the request |
| Utils.SortTokenOfEntry | eve/io/mysql/utils.py:119-121 | one token's entry renders back to the token |
| Utils.ExtractSortArg | eve/io/mysql/utils.py:113-126 | no sort gives none; a request matching the sort pattern is split into entries; anything else is `literal_eval`'d |
| Utils.AccentedSortKey | eve/io/mysql/utils.py:113-121 | `-prénom` matches the sort pattern and becomes the one descending entry `["prénom", -1]` |
| Utils.RenameStep | eve/io/mysql/utils.py:159-163 | one schema field extends the rename mapping and keeps its invariant |
| Utils.RenameDone | eve/io/mysql/utils.py:157-164 | after the loop the mapping maps exactly the relationship fields to their local id fields |
| Utils.RenameMappingOf | eve/io/mysql/utils.py:159-164 | the loop builds a rename mapping for the schema |
| Utils.RelationshipRenameMapping | eve/io/mysql/utils.py:157-164 | the mapping is built iff the model has a resource; otherwise `KeyError` |
| Utils.RenamedSound | eve/io/mysql/utils.py:142-147 | each renamed entry is an original value under its renamed key |
| Utils.RenamedInjective | eve/io/mysql/utils.py:142-147 | when the renamed keys are distinct, renaming keeps every entry, in order |
| Utils.RenameKeys | eve/io/mysql/utils.py:142-147 | the loop computes `Renamed` |
| Utils.RenameRelationshipFieldsInDict | eve/io/mysql/utils.py:139-147 | succeeds iff the model has a resource, renaming keys through that resource's mapping |
| Utils.RenameRelationshipFieldsInSortArgs | eve/io/mysql/utils.py:129-136 | each sort entry's field is renamed and the rest kept; an empty entry raises `IndexError`; the first failure is reported |
| MySql.Tokens | eve/io/mysql/mysql.py:53 | one stripped token per comma-separated part |
| MySql.FallbackEntries | eve/io/mysql/mysql.py:53-57 | one sort entry per token, in order |
| MySql.FallbackSort | eve/io/mysql/mysql.py:52-59 | the fallback succeeds iff no token is empty (otherwise `IndexError`), giving the token entries |
| MySql.ConvertSortRequest | eve/io/mysql/mysql.py:40-63 | no sort gives `{}`; a literal is returned; a `ValueError` falls back to the comma syntax; any other error aborts with 400 |
| MySql.FallbackRoundTrip | eve/io/mysql/mysql.py:52-59 | for non-empty comma pieces, rendering the fallback entries back restores the request |
| MySql.TokensUnstripped | eve/io/mysql/mysql.py:53 | when no comma piece is empty or has whitespace at either end, the stripped tokens are the pieces themselves |
| MySql.EntryToken | eve/io/mysql/mysql.py:54-57 | a token's fallback entry renders back to it, `-` prefix included |
| MySql.PaginationArgs | eve/io/mysql/mysql.py:106-112 | `limit` iff `max_results` is truthy; `skip` iff the page is past the first, equal to (page-1)·max_results; a later page without `max_results` raises `TypeError` |
| MySql.PagesTile | eve/io/mysql/mysql.py:106-112 | the first page starts at 0, and each page starts `max_results` after the previous one |
| MySql.ParseFilter | eve/io/mysql/mysql.py:371-383 | empty or `None` gives no conditions; text goes to `parse`; a dict to `parse_dictionary`; built conditions are kept; other sized values give none; unsized ones raise `TypeError` |
| MySql.ParseFilterDict | eve/io/mysql/mysql.py:375-380 | for a dict, `_parse_filter` agrees with `parse_dictionary`, the empty one included |
| MySql.QueryList.constructor | eve/io/mysql/mysql.py:423 | a query list holds the given conditions |
| MySql.CombineQueries | eve/io/mysql/mysql.py:423-427 | the first list is extended in place by the second and returned; the second is unchanged |
| MySql.HandleImmutableId | eve/io/mysql/mysql.py:337-348 | an update without the id passes; one with an id equal to the stored one as Python's `==` sees it (`True == 1 == 1.0`) passes; a different id aborts with 400 and the message; an object without the id raises `AttributeError` |
| MySql.UnchangedIdAccepted | eve/io/mysql/mysql.py:337-348 | resending the stored numeric id is accepted |
| MySql.ProjectionFields | eve/io/mysql/mysql.py:418 | exactly the projected fields with a truthy value, without repeats |
| MySql.TruthyPositions | eve/io/mysql/mysql.py:418 | the positions of the truthy entries, each once, in increasing order |
| MySql.ProjectionInOrder | eve/io/mysql/mysql.py:418 | the field list follows the projection's order: its `k`-th name is that of the `k`-th truthy entry |
| MySql.IndexOf | eve/io/mysql/mysql.py:461 | `str.index`: the first position of the character |
| MySql.CurrentMysqlPrefix | eve/io/mysql/mysql.py:457-477 | the resource's auth prefix wins, then `g.mysql_prefix`, then the resource's `mysql_prefix` setting, then `MYSQL`; the resource comes from the endpoint up to `|` when not given; an unknown resource raises `KeyError` |
| Domain.Endpoints | eve/io/mysql/config/domainconfig.py:66 | the endpoint names, in order |
| Domain.LookupConfig | eve/io/mysql/config/domainconfig.py:93 | finds a configuration for the resource name, or none has that name |
| Domain.LastUser | eve/io/mysql/config/domainconfig.py:85-89 | a last resource using the model exists iff at least one does |
| Domain.OnlyUser | eve/io/mysql/config/domainconfig.py:83-91 | a model used once maps to that one resource, and no other resource uses it |
| Domain.NoUser | eve/io/mysql/config/domainconfig.py:83-91 | a model used by no resource appears in no configuration |
| Domain.ModelEntries | eve/io/mysql/config/domainconfig.py:83-93 | without an override, a model gets its resource iff exactly one resource uses it |
| Domain.CollectStep | eve/io/mysql/config/domainconfig.py:85-89 | one resource keeps the first loop's invariant |
| Domain.CollectModels | eve/io/mysql/config/domainconfig.py:83-91 | the map holds exactly the models used by one resource, each mapped to that resource |
| Domain.OverrideStep | eve/io/mysql/config/domainconfig.py:92-93 | one explicit override keeps the invariant of the override loop |
| Domain.RelatedMapUnique | eve/io/mysql/config/domainconfig.py:72-94 | the related-resource map is determined by the configuration |
| Domain.CreateRelatedResourceConfigs | eve/io/mysql/config/domainconfig.py:72-94 | succeeds iff every override names a known resource, else the `KeyError` of the first override that does not; the result is the related map |
| Domain.Rendered | eve/io/mysql/config/domainconfig.py:64-70 | when every endpoint renders, the rendered domain's keys are the endpoints, in order, each holding its endpoint's rendering |
| Domain.RenderedStep | eve/io/mysql/config/domainconfig.py:64-70 | one endpoint adds its rendered resource at the end |
| Domain.FirstFailing | eve/io/mysql/config/domainconfig.py:66-69 | the first endpoint from a position on whose rendering raises, or the end when none does |
| Domain.RendersPrefix | eve/io/mysql/config/domainconfig.py:66-69 | a prefix that renders, extended by one endpoint that renders, still renders |
| Domain.RenderGrow | eve/io/mysql/config/domainconfig.py:66-69 | storing one more rendered endpoint gives the rendering of the longer prefix |
| Domain.FirstFailingAt | eve/io/mysql/config/domainconfig.py:66-69 | the endpoint that raises after all earlier ones (from a position on) rendered is the first failing one |
| Domain.RenderEndpoints | eve/io/mysql/config/domainconfig.py:64-70 | succeeds iff every endpoint's `render` succeeds, with the endpoints rendered in order; otherwise the error of the first endpoint whose `render` raises |
| Domain.Render | eve/io/mysql/config/domainconfig.py:49-70 | succeeds iff every override is known and every endpoint renders against the related map; the first unknown override gives its `KeyError`, otherwise the error is the first failing endpoint's; on success one entry per endpoint, in order |
| Fields.FirstMatch | eve/io/mysql/config/fieldconfig.py:34-36 | finds the first mapping entry that the column type is an instance of, or none matches |
| Fields.FirstMatchStep | eve/io/mysql/config/fieldconfig.py:34-36 | one step of the scan of the type mapping |
| Fields.GetFieldType | eve/io/mysql/config/fieldconfig.py:22-37 | the first matching class in the mapping's order gives the field type (none for `PickleType`), and `string` when nothing matches |
| Fields.WithoutNone | eve/io/mysql/config/fieldconfig.py:54 | the dict keeps exactly the entries that are not `None` |
| Fields.ColumnRender | eve/io/mysql/config/fieldconfig.py:46-54 | a rendered column has no `None` value |
| Fields.ColumnDictDistinct | eve/io/mysql/config/fieldconfig.py:47-53 | the six column keys are distinct |
| Fields.ColumnDictValue | eve/io/mysql/config/fieldconfig.py:47-53 | each of the six keys reads its own value |
| Fields.ColumnRenderValue | eve/io/mysql/config/fieldconfig.py:46-83 | each key reads its getter's value, and is absent when that value is `None` |
| Fields.ColumnRequired | eve/io/mysql/config/fieldconfig.py:56-68 | required iff not nullable, not an autoincrementing integer primary key, and without a server default; a column without `nullable` is nullable and optional |
| Fields.ColumnKeys | eve/io/mysql/config/fieldconfig.py:46-83 | `type`, `unique`, `maxlength` and `default` are present exactly when their getter is not `None`; no other keys |
| Fields.LocalForeignKeys | eve/io/mysql/config/fieldconfig.py:160-163 | exactly the local columns that carry a foreign key |
| Fields.GetResource | eve/io/mysql/config/fieldconfig.py:142-158 | the field's own entry wins, then the target model's entry; with neither, `ConfigException` |
| Fields.ResourceOverride | eve/io/mysql/config/fieldconfig.py:142-144 | an explicit override for the field gives the named resource |
| Fields.ResourceByTarget | eve/io/mysql/config/fieldconfig.py:146-153 | without overrides, the single resource of the target model is used |
| Fields.ResourceUndetermined | eve/io/mysql/config/fieldconfig.py:154-158 | without overrides, a target used by zero or several resources raises `ConfigException` |
| Fields.GetForeignKeyDefinition | eve/io/mysql/config/fieldconfig.py:113-140 | the imperative definition equals `ForeignKeyDef` |
| Fields.BaseLookup | eve/io/mysql/config/fieldconfig.py:124-131 | the base definition has `data_relation`, `type` and `nullable: True` |
| Fields.LocalLookup | eve/io/mysql/config/fieldconfig.py:132-139 | the local column adds `local_id_field`, `required`/`nullable` when not nullable, and `unique` when unique or a key |
| Fields.BaseFacts | eve/io/mysql/config/fieldconfig.py:124-131 | the base definition has no local keys |
| Fields.LocalFacts | eve/io/mysql/config/fieldconfig.py:124-140 | the full definition's keys for a local foreign key |
| Fields.ForeignKeyRules | eve/io/mysql/config/fieldconfig.py:113-140 | a relationship's definition points to its resolved resource, is nullable unless its first local foreign key is not, and has `local_id_field`/`unique` from that key |
| Fields.RenderRelationship | eve/io/mysql/config/fieldconfig.py:92-111 | the imperative render equals `RelationshipDef` |
| Fields.ToManyShape | eve/io/mysql/config/fieldconfig.py:93-104 | a to-many relationship is a `set` with `coerce: set` or a `list`, with the definition as its schema |
| Fields.ToOneShape | eve/io/mysql/config/fieldconfig.py:105-111 | a to-one relationship is the definition itself, with `coerce: int` exactly for an integer type |
| Fields.ColumnPropertyRender | eve/io/mysql/config/fieldconfig.py:205-211 | a column property is read-only with its expression's field type |
| Fields.HybridRender | eve/io/mysql/config/fieldconfig.py:214-221 | a hybrid property is a read-only string |
| Fields.FieldConfig.constructor | eve/io/mysql/config/fieldconfig.py:12-16 | a field configuration records its name, model and kind |
| Fields.FieldConfig.Render | eve/io/mysql/config/fieldconfig.py:18-20 | rendering records the related map on the object and returns the kind's render |

## Left out

- Values of SQLAlchemy, Flask and Python that the core only passes through are modelled as datatype values or passed in as parameters:
  - SQLAlchemy conditions are `Cond` values;
  - `.desc()`/`.asc()` are `SortKey` constructors;
  - `sqlalchemy.and_`/`or_` are the `Combined` constructor;
  - `attr.op(name)` and a named operator method are both `OpCall`;
  - a mapped model is a map of attribute kinds.
- `ast.parse`, `json.loads`, `ast.literal_eval`, `str()` of a value and `rename_relationship_fields_in_str` (a regex substitution) are function parameters. So is the set of zero-argument methods an ordering expression offers to `parse_sorting`'s `getattr`.
- `json.loads` is assumed to decode to a value no larger than its text (`Shrinking`). This assumption is what makes the recursion of `parse_dictionary` terminate in the model.
- `FilterDict.CompileDict`: Python recursion depth is not modelled.
- Python 3 produces `Constant` nodes, which `NodeVisitor` hands to `visit_Num`/`visit_Str`. The AST is given with those legacy node kinds.
- `visit_Str`'s `str_to_date` conversion is not modelled; the string is kept.
- `visit_Call` swallows the call's visit, and the model does the same. The `True`/`None` constants are nodes without a handler.
- `Utils.ExtractSortArg`: `\w` covers `_` and the letters and digits up to U+00FF (ASCII and Latin-1). Letters and digits above U+00FF (Greek, Cyrillic, CJK, ...) are non-word characters in the model, so a sort string holding them takes the `literal_eval` branch where Python would split it. `\s`, and what `str.strip()` removes, is the full set `str.isspace()` accepts.
- `Parser.MatchOperatorCall`: the operator name's `\w` has the same bound at U+00FF as the sort pattern.
- `MySql.PyEq`: numbers compare by value at the top level only. Containers are compared structurally, so `[1] == [1.0]`, which Python accepts, is false in the model.
- `Common.Value`: a `float` is the real number it denotes. NaN, the infinities and rounding are not modelled.
- `Utils.LocalIdField`: a `local_id_field` whose value is not a string is ignored, because the rename mapping is from field names to field names. Python would copy any value into the mapping.
- `Visitor.MySqlVisitor`: the class is proved against the list store, which is the corrected behaviour (see Findings). The as-written dict store is modelled only on values, by `Visitor.VisitModuleBody` with `dictReset`.
- `find` orchestration, `find_one`, the insert/replace/update/remove paths, `is_empty`, and the Flask `request`/`g`/`abort` plumbing are not part of this model. So are `structures.py`, `flask_pymysql.py` and the application's settings loading. The decisions `find` makes are modelled separately: `MySql.PaginationArgs`, `MySql.ParseFilter`, `MySql.CombineQueries`.
- Logging and `debug_error_message` are not modelled. The 400 abort of `_convert_sort_request_to_dict` carries no description in the model.
- `MySql.ParseFilter`: a Python list passed as the filter is represented by the `Conditions` case, so the requires excludes a list-valued `Filter`.
- `MySql.CurrentMysqlPrefix`: the Flask request's endpoint, `resource_auth`, `g` and the domain settings are parameters.
- `Fields.LocalForeignKeys` and `Fields.RelationshipDef`: `local_foreign_keys` and `remote_side` are Python sets, and `tuple(...)[0]` takes an arbitrary element of each. The model takes the first in column order.
- `Fields.GetResource`: the relationship `argument` (a declarative class, a callable or a mapper) is collapsed to the target model's name.
- `Fields.FirstMatch`: the `isinstance` test against the SQLAlchemy type hierarchy is membership in the set of class names a column type is an instance of.
- `AssociationProxyFieldConfig` (`config/fieldconfig.py:166-202`) is not part of this model.
- `ResourceConfig.render` is not part of this model. It is the `renderResource` parameter of `Domain.Render`, a function returning a `Result`, which also carries the `date_created`, `last_updated` and `etag` arguments. Its `Err` stands for any exception `render` raises, such as the `ConfigException` of `FieldConfig.render`.
- `Utils.RemoveNoneValues` and `Utils.DictUpdate` work on `PyDict`, whose entries the methods reassign. Aliasing between dicts nested inside values is not modelled, because values are immutable.
- `Utils.Dedup`: members of a set are told apart by structural equality of values. Python's `set()` merges hashable members that compare equal across types (`1`, `1.0` and `True`), so a sanitized set holding such members keeps all of them in the model where Python keeps one.
- `Utils.Sanitize`: `copy.copy` is the identity, because values are immutable. `set()` keeps the first occurrence of each element, and set order is not modelled.
- Python integers are unbounded, so no wrap-around is modelled.

## Findings

| source | as written | input that shows it | evidently intended | confidence | as-written member | corrected member |
|---|---|---|---|---|---|---|
| eve/io/mysql/parser.py:199 | `visit_Module` resets `sqla_query` to `{}`. Every later `append` (lines 229, 261, 274) then raises `AttributeError`, so `parse` fails on every expression. | `parse("age > 18", Person)` with a mapped column `age`: `AttributeError: 'dict' object has no attribute 'append'` | keep the list created in `__init__` (line 193), giving `[Person.age > 18]` | not executed | Visitor.AgeOver18Counterexample | Visitor.MySqlVisitor.VisitModule |
