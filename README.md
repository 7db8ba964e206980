# $apply aggregation pipeline, filter binding and select token — a Dafny model

This project models three pieces of an OData aggregation implementation:

- **The `$apply` executor** (`ApplyQueryOption`). It implements the `aggregate`, `groupby` and `filter` transformations of the OData Extension for Data Aggregation Version 4.0.
  - `ApplyTo` checks its arguments and normalises the null-propagation setting. It clamps the aggregation window, wraps the source in an intercepting provider, then runs the transformations in list order. Each transformation consumes the results of the one before it.
  - The query `Context` is replaced after every `aggregate` and `groupby` step.
  - An aggregate step yields a single row. A group-by with an aggregate yields one row per key. Rows are typed by a generated schema: the alias field first, then the key fields other than `ComparerInstance`, deduplicated by `(type full name, field name)`.
- **The filter binder** (`FilterBinder`). It enforces the rule of section 5.1.1 of OData Version 4.0 Part 2 (URL Conventions): a `$filter` expression is a single value of Boolean type, or of unknown type (the null literal or an open property). `BindExpression` is the same check without the Boolean restriction.
- **The select token** (`SelectToken`) of the syntactic query tree, with its visitor double dispatch.

How the model represents things:

- A generated CLR type is a schema descriptor, `seq<Field>`.
- An instance is a `map<string, Value>`.
- An `IQueryable` is a sequence of rows plus its element type and provider.
- A C# null is `None`, and a thrown exception is a `Failure`.
- The collaborators whose code is not part of this model are functions held in an `Engine` record: LINQ binding, the aggregation and group-by algorithms, null filtering and the filter implementation.
- `ApplyQueryOption` is a class. Its `Context` field is reassigned by `ApplyTo`. Its three looping methods are proved equal to specification functions (`Pipeline.Apply`, `Projection.GroupedResult`, `Projection.ProjectionType`). The properties are then proved about those functions.

Files:

- `Wrappers.dfy`: Option and Result.
- `SyntacticAst.dfy`: `SelectToken.cs`.
- `FilterBinding.dfy`: `FilterBinder.cs`.
- `QueryModel.dfy`: the data model and the engine.
- `TypeStringTupleComparer.dfy`: the tuple comparer and `Distinct`.
- `Projection.dfy`: result shaping.
- `Pipeline.dfy`: the transformation run.
- `ApplyQuery.dfy`: the class.

Four behaviours of the code are easy to miss; the model follows the code in each:

- **Aggregating over a navigation path.** When the aggregated path contains `/`, an aggregate step reads the original `query`, null-filtered, and not the running results (`ApplyQueryOption.cs:145-148`). A `filter` placed before such an aggregate therefore has no effect on it (`Pipeline.NavigationAggregateIgnoresEarlierFilter`).
- **A key field named like the alias.** The key values are copied after the alias is set (`ApplyQueryOption.cs:261` sets the alias, `:263-271` copies the keys). A key field with the same name as the alias therefore overwrites the aggregated value in the row (`Projection.ProjectRowShape`).
- **Settings passed to `filter`.** A `filter` step receives the caller's `querySettings`, not the normalised copy `updatedSettings` that every binder call receives (`ApplyQueryOption.cs:206` against `:135`, `:174-175` and `:187`; `Pipeline.FilterStepUsesCallerSettings`).
- **Negative window sizes.** `ApplyTo` compares the requested window only with 0 and with the 1,000,000 ceiling (`ApplyQueryOption.cs:111-115`). So a negative request is passed on unchanged (`Pipeline.AggregationWindow`).

## Model

| member | source | states |
|---|---|---|
| `SyntacticAst.NewSelectToken` | Microsoft.OData/src/Client/Build.Silverlight/Microsoft/OData/Client/ALinq/UriParser/SyntacticAst/SelectToken.cs:40-44 | a null property sequence becomes the empty sequence; a given sequence is kept with the same elements in the same order; the token's kind is Select |
| `SyntacticAst.Kind` | Microsoft.OData/src/Client/Build.Silverlight/Microsoft/OData/Client/ALinq/UriParser/SyntacticAst/SelectToken.cs:49-52 | the kind is Select exactly for select tokens, whatever their properties |
| `SyntacticAst.AcceptSelectDispatchesToVisitSelect` | Microsoft.OData/src/Client/Build.Silverlight/Microsoft/OData/Client/ALinq/UriParser/SyntacticAst/SelectToken.cs:68-71 | accepting any visitor on a select token returns exactly that visitor's select overload applied to the token |
| `SyntacticAst.NewSelectTokenRoundTrip` | Microsoft.OData/src/Client/Build.Silverlight/Microsoft/OData/Client/ALinq/UriParser/SyntacticAst/SelectToken.cs:40-60 | rebuilding a token from its exposed properties gives the same token, and the exposed properties are the input or empty |
| `FilterBinding.AsPrimitiveOrNull` | Microsoft.OData/src/OData/Microsoft/OData/Core/UriParser/Parsers/FilterBinder.cs:71-73 | a primitive view exists exactly for primitive type references, and the view carries the reference's primitive kind |
| `FilterBinding.BindFilter` | Microsoft.OData/src/OData/Microsoft/OData/Core/UriParser/Parsers/FilterBinder.cs:54-82 | a null token is an argument error; otherwise binding succeeds iff the bound node is single-valued and its type is unknown or primitive Boolean, every rejection being the not-single-value OData error; on success the clause holds exactly the bound node and the implicit range variable |
| `FilterBinding.BindExpression` | Microsoft.OData/src/OData/Microsoft/OData/Core/UriParser/Parsers/FilterBinder.cs:90-108 | a null token is an argument error; otherwise success iff the node is single-valued with an unknown or primitive type (no Boolean restriction); the clause holds the node and range variable |
| `FilterBinding.BindFilterAcceptedImpliesBindExpressionAccepted` | Microsoft.OData/src/OData/Microsoft/OData/Core/UriParser/Parsers/FilterBinder.cs:54-108 | every token the filter binder accepts is accepted by the expression binder, with the same node and range variable |
| `FilterBinding.BindersDifferOnlyOnNonBooleanPrimitives` | Microsoft.OData/src/OData/Microsoft/OData/Core/UriParser/Parsers/FilterBinder.cs:69-77 | the expression binder accepts and the filter binder refuses exactly the single-value nodes of a known primitive type other than Boolean |
| `FilterBinding.UntypedSingleValueAccepted` | Microsoft.OData/src/OData/Microsoft/OData/Core/UriParser/Parsers/FilterBinder.cs:67-81 | a single-value node without a type reference (null literal, open property) is accepted as a filter |
| `TypeStringTupleComparer.Equals` | Asp.Net/aspnetwebstack/src/System.Web.OData/OData/Query/ApplyQueryOption.cs:315-328 | two non-null tuples are equal iff type full names and names are equal; exactly one null argument gives false; two nulls dereference null |
| `TypeStringTupleComparer.EqualsIsEquivalenceOnTuples` | Asp.Net/aspnetwebstack/src/System.Web.OData/OData/Query/ApplyQueryOption.cs:315-328 | on non-null tuples the comparer is reflexive, symmetric and transitive |
| `TypeStringTupleComparer.DistinctKeepsFirstOccurrences` | Asp.Net/aspnetwebstack/src/System.Web.OData/OData/Query/ApplyQueryOption.cs:305 | distinct under the comparer keeps exactly the input's elements, each once, ordered by their first occurrence |
| `TypeStringTupleComparer.DistinctKeepsHead` | Asp.Net/aspnetwebstack/src/System.Web.OData/OData/Query/ApplyQueryOption.cs:295-305 | the first property of the list always survives deduplication, in first place |
| `TypeStringTupleComparer.DistinctOfDuplicateFree` | Asp.Net/aspnetwebstack/src/System.Web.OData/OData/Query/ApplyQueryOption.cs:227-231 | a property list without repetitions passes through deduplication unchanged |
| `TypeStringTupleComparer.DistinctIdempotent` | Asp.Net/aspnetwebstack/src/System.Web.OData/OData/Query/ApplyQueryOption.cs:305 | deduplicating twice is deduplicating once |
| `QueryModel.NewInstance` | Asp.Net/aspnetwebstack/src/System.Web.OData/OData/Query/ApplyQueryOption.cs:233 | a new instance of a generated type has exactly the type's property names, all holding `Null`, which stands for the CLR default of the property's type (0 for a value type); every field is overwritten before a row is used |
| `Projection.ProjectResult` | Asp.Net/aspnetwebstack/src/System.Web.OData/OData/Query/ApplyQueryOption.cs:225-239 | the aggregate result is exactly one row, typed by the single field (aliasType, alias), mapping the alias to the aggregated value |
| `Projection.KeyFieldsMembers` | Asp.Net/aspnetwebstack/src/System.Web.OData/OData/Query/ApplyQueryOption.cs:296-303 | the key fields are exactly the key type's properties not named ComparerInstance, and never more of them than the key type has |
| `Projection.ProjectionFieldsShape` | Asp.Net/aspnetwebstack/src/System.Web.OData/OData/Query/ApplyQueryOption.cs:291-305 | the grouped output schema starts with the alias field, holds exactly the alias field and the key fields other than ComparerInstance, and has no repeated (type, name) pair |
| `Projection.ProjectionFieldNames` | Asp.Net/aspnetwebstack/src/System.Web.OData/OData/Query/ApplyQueryOption.cs:295-302 | the grouped output schema's property names are the alias and the key property names other than ComparerInstance |
| `Projection.ProjectionType` | Asp.Net/aspnetwebstack/src/System.Web.OData/OData/Query/ApplyQueryOption.cs:285-306 | a group-by without aggregate throws the argument error; a failed implementation lookup (the second lookup, at line 292) is passed on; a result exists only for a group-by with aggregate, after both the lookup and the result type succeed, and is the generated type over the deduplicated alias-then-key-fields schema |
| `Projection.CopyKeyFieldsAt` | Asp.Net/aspnetwebstack/src/System.Web.OData/OData/Query/ApplyQueryOption.cs:263-271 | after the key copy every key property name other than ComparerInstance holds the key's value, every other name keeps its value, and only key names are added |
| `Projection.ProjectRowShape` | Asp.Net/aspnetwebstack/src/System.Web.OData/OData/Query/ApplyQueryOption.cs:259-272 | each output row has exactly the projection type's properties; key names hold the key's values; the alias holds the aggregated value unless a same-named key overwrote it |
| `Projection.GroupedResultRows` | Asp.Net/aspnetwebstack/src/System.Web.OData/OData/Query/ApplyQueryOption.cs:256-276 | a grouped result has one row per key, in key order, row i projecting key i with aggregated value i into the generated projection type |
| `Projection.GroupedResultFailures` | Asp.Net/aspnetwebstack/src/System.Web.OData/OData/Query/ApplyQueryOption.cs:254-261 | projecting a group-by without aggregate throws the argument error; with a projection type, it fails with an index error iff there are fewer aggregated values than keys |
| `Pipeline.AggregationWindow` | Asp.Net/aspnetwebstack/src/System.Web.OData/OData/Query/ApplyQueryOption.cs:110-116 | request 0 gives the page size, or 2000 without one; a nonzero request below 1,000,000 is kept; a request of 1,000,000 or more gives exactly 1,000,000 |
| `Pipeline.AggregationWindowBounds` | Asp.Net/aspnetwebstack/src/System.Web.OData/OData/Query/ApplyQueryOption.cs:110-116 | a nonzero request never exceeds the ceiling, a positive one gives a positive window, and clamping a window again changes nothing |
| `Pipeline.NormalizeNullPropagation` | Asp.Net/aspnetwebstack/src/System.Web.OData/OData/Query/ApplyQueryOption.cs:102-108 | the binding settings never say Default: Default becomes False, any other setting is kept as is, and the page size is unchanged |
| `Pipeline.BindEach` | Asp.Net/aspnetwebstack/src/System.Web.OData/OData/Query/ApplyQueryOption.cs:169-176 | binding the selected expressions gives one lambda per expression, each the binding of that expression, or the error of the first expression, in list order, that fails to bind |
| `Pipeline.Step` | Asp.Net/aspnetwebstack/src/System.Web.OData/OData/Query/ApplyQueryOption.cs:124-211 | an unknown tag is the not-supported error, with the tag passed as a format argument that the message "aggregation not supported" does not use; a payload of the wrong class is an argument error; after filter the context is unchanged, after aggregate and groupby it is rebuilt from the new element type |
| `Pipeline.RunFrom` | Asp.Net/aspnetwebstack/src/System.Web.OData/OData/Query/ApplyQueryOption.cs:123-212 | every context the run leaves behind has the same model and a known element type |
| `Pipeline.RunAppend` | Asp.Net/aspnetwebstack/src/System.Web.OData/OData/Query/ApplyQueryOption.cs:123-215 | running a concatenation runs the first part, then the second from its results and context, and stops at the first failure with no partial result |
| `Pipeline.ApplyArgumentChecks` | Asp.Net/aspnetwebstack/src/System.Web.OData/OData/Query/ApplyQueryOption.cs:86-97 | a null query, then null settings, then an untyped context fail in that order, with no transformation run and the context untouched |
| `Pipeline.ApplyEmpty` | Asp.Net/aspnetwebstack/src/System.Web.OData/OData/Query/ApplyQueryOption.cs:118-124 | with no transformations the result is the source's rows behind an intercepting provider with the effective window, and the context is unchanged |
| `Pipeline.AggregateStepResult` | Asp.Net/aspnetwebstack/src/System.Web.OData/OData/Query/ApplyQueryOption.cs:128-158 | an aggregate yields exactly one row typed (result type, alias); its alias holds the aggregation over the null-filtered original query for a path with '/', else over the running results with the combiner installed; the context is rebuilt from that type |
| `Pipeline.AggregateStepFailures` | Asp.Net/aspnetwebstack/src/System.Web.OData/OData/Query/ApplyQueryOption.cs:134-153 | an aggregate step fails with the error of the first collaborator that throws, in source order: binder, implementation lookup, null filter of a navigation path, aggregation, result type; when none throws it succeeds |
| `Pipeline.GroupByStepResult` | Asp.Net/aspnetwebstack/src/System.Web.OData/OData/Query/ApplyQueryOption.cs:159-197 | a group-by without aggregate is the plain group-by pass bounded by the window; with an aggregate it is the grouped projection of the combined pass's keys and values |
| `Pipeline.GroupByStepFailures` | Asp.Net/aspnetwebstack/src/System.Web.OData/OData/Query/ApplyQueryOption.cs:159-196 | a group-by step fails with the error of the first collaborator that throws: the key type, then (with an aggregate) the aggregate binder, then the selected-property binders, then the group-by pass, then the projection type and the index error of `ProjectGroupedResult`; when none throws it succeeds |
| `Pipeline.RunEndsWithResultContext` | Asp.Net/aspnetwebstack/src/System.Web.OData/OData/Query/ApplyQueryOption.cs:155-197 | after a successful run ending in aggregate or groupby, the context describes the result's element type |
| `Pipeline.FilterStepUsesCallerSettings` | Asp.Net/aspnetwebstack/src/System.Web.OData/OData/Query/ApplyQueryOption.cs:198-208 | a filter step returns the filter implementation's result on the running results with the caller's settings (not the normalised copy), or its error, and keeps the context |
| `Pipeline.FilterTwiceIsFilterOnce` | Asp.Net/aspnetwebstack/src/System.Web.OData/OData/Query/ApplyQueryOption.cs:198-208 | assuming `DoFilter` is idempotent (not proved here), two identical filter steps equal one; what the lemma itself shows is that a filter step passes the same context and settings to both calls |
| `Pipeline.NavigationAggregateIgnoresEarlierFilter` | Asp.Net/aspnetwebstack/src/System.Web.OData/OData/Query/ApplyQueryOption.cs:144-148 | a successful filter followed by an aggregate over a path with '/' has the same outcome as the aggregate alone |
| `ApplyQuery.ApplyQueryOption.constructor` | Asp.Net/aspnetwebstack/src/System.Web.OData/OData/Query/ApplyQueryOption.cs:43-57 | the option holds the given context and parsed clause |
| `ApplyQuery.ApplyQueryOption.ApplyTo` | Asp.Net/aspnetwebstack/src/System.Web.OData/OData/Query/ApplyQueryOption.cs:84-216 | the loop returns the result of `Apply` and leaves Context as `Apply` does, including the context of the last successful step when a later one fails |
| `ApplyQuery.ApplyQueryOption.ProjectGroupedResult` | Asp.Net/aspnetwebstack/src/System.Web.OData/OData/Query/ApplyQueryOption.cs:250-277 | the nested loops produce exactly `GroupedResult`: one projected row per key, or the projection type's error, or the index error |
| `ApplyQuery.ApplyQueryOption.GetAggregationResultProjectionType` | Asp.Net/aspnetwebstack/src/System.Web.OData/OData/Query/ApplyQueryOption.cs:285-306 | the append loop builds exactly the schema of `ProjectionType`: the alias field, then the non-ComparerInstance key fields in order, deduplicated |

## Left out

- Parsing of the `$apply` text (the lazy `ApplyClause` getter calling `ParseApply`) is not modelled. The option is built from an already parsed clause.
- The constructor's null checks on the context and the parser are not modelled as error paths. Dafny's reference and datatype parameters cannot be null.
- Runtime type generation and reflection are replaced by a schema descriptor and field maps. This covers `AggregationTypesGenerator.CreateType`, `Activator.CreateInstance`, `GetProperty`/`SetValue` and `ExpressionHelpers.Cast`. A generated type holding two properties of the same name but different types cannot be represented as a row map. What `CreateType` or `GetProperty` would do in that case is not modelled.
- `SetValue`'s type check (`ApplyQueryOption.cs:235`, `:261`, `:270`) is total here. A row field accepts any `Value`, so the exception for a value that does not fit the property's type is not modelled.
- The `ODataQueryContext` constructor (`ApplyQueryOption.cs:156`, `:196`) is total here: a new context is built as a plain record and its argument checks are not modelled.
- The formatting of exception messages is not modelled. An error keeps the arguments the source passes (the tag of an unknown transformation, for one), whether or not its format string uses them.
- The static `MakeGenericMethod` lookup of `Intercept` and the `InterceptingProvider` itself are not modelled. This includes lazy evaluation, batching by window, in-memory fallback and what the combiner does. `Intercept` keeps the source's rows behind a provider value that records the window and the installed combiner.
- The collaborators whose code is not shown are uninterpreted functions of the `Engine` record. They are pure, and each may fail with any `Error`, which the model passes on. They are `FilterBinder.Bind` (LINQ), the two `GetAggregationImplementation` lookups (`implementation` at line 137 and `projectionImplementation` at line 292, two separate functions), `GetProjectionLambda`, `GetAggregationParams`, `DoAggregatinon`, `GetResultType`, `FilterNullValues`, `GetGroupByKeyType`, `DoGroupBy`, `DoAggregatedGroupBy` and `DoFilter`. The `assembliesResolver` argument and the shared `$it` parameter expression are folded into them.
- `Pipeline.BindEach`: the selected group-by expressions are bound in C# by a lazy LINQ `Select`. Here they are bound eagerly, right before the group-by pass, after the aggregate property is bound. An error raised when the pass enumerates them is reported at that point.
- `TypeStringTupleComparer.GetHashCode` is not modelled. `Distinct` is modelled on the comparer's `Equals` alone. So a case where two `Type` objects with one full name hash differently is not captured.
- The aggregation methods (count, sum, average, min, max) and their empty-input results are not modelled. They sit behind `doAggregation`.
- The exceptions `bindMethod` may raise while visiting a token are not modelled. It is a total function from tokens to nodes.
- The EDM helpers are reduced to "the type reference is primitive". This covers `IsODataPrimitiveTypeKind`, `AsPrimitiveOrNull` and `PrimitiveKind`. Their treatment of special primitive kinds is not modelled.
- The argument checks of the `FilterClause` and `ExpressionClause` constructors are not modelled.
- The token variants other than select are not modelled. They are represented by their kind alone.
- The read-only wrapper `ReadOnlyEnumerableForUriParser` is represented by the sequence itself.
- `PrimitiveValueMaterializationPolicy`, the CSDL schema and operation holders, the Atom stream-reference metadata and `EdmPrimitiveTypeReference` are not part of this model. They are client materialisation and plain data holders outside the pipeline.
- The window size is a C# `int`. No arithmetic is done on it, so there is no overflow to model.
