/**
  The data the $apply executor (System.Web.OData.OData.Query.ApplyQueryOption)
  works on.  CLR types are schema descriptors, instances of generated types
  are maps from field name to value, an IQueryable is a sequence of rows with
  its element type and query provider, and the collaborators whose code is not
  part of this model are the fields of an `Engine` record of functions.
 */
module QueryModel {
  import opened Wrappers

  /** A property of a CLR type: Tuple<Type, string>, the type known by its full name. */
  datatype Field = Field(typeName: string, name: string)

  type Schema = seq<Field>

  /** A CLR element type: a declared entity type or one built by AggregationTypesGenerator. */
  datatype ClrType =
    | Declared(fullName: string, properties: Schema)
    | Generated(properties: Schema)

  /** The values a row field may hold. */
  datatype Value = Null | BoolValue(b: bool) | IntValue(i: int) | StringValue(s: string)

  /** An instance of a CLR type: property name to value. */
  type Row = map<string, Value>

  /** The implementation of one aggregation method (count, sum, ...). */
  datatype AggregationImplementation = AggregationImplementation(methodName: string)

  /**
    The provider behind an IQueryable.  `Intercepting` is the InterceptingProvider
    wrapper, with its batching window and its settable `Combiner`.
   */
  datatype Provider =
    | Native
    | InMemory
    | Intercepting(windowSize: int, combiner: Option<AggregationImplementation>)

  datatype Queryable = Queryable(elementType: ClrType, rows: seq<Row>, provider: Provider)

  datatype EdmModel = EdmModel(name: string)

  /** ODataQueryContext: the model and the element CLR type (null for an untyped context). */
  datatype QueryContext = QueryContext(model: EdmModel, elementClrType: Option<ClrType>)

  datatype HandleNullPropagationOption = Default | True | False

  datatype QuerySettings = QuerySettings(handleNullPropagation: HandleNullPropagationOption, pageSize: Option<int>)

  /** A semantic expression held by a parsed clause, before it is bound to a lambda. */
  datatype SemanticExpression = SemanticExpression(text: string)

  /** The LambdaExpression produced by binding a semantic expression against a CLR type. */
  datatype LambdaExpression = LambdaExpression(parameterType: ClrType, body: string)

  /** ApplyAggregateClause. */
  datatype AggregateClause = AggregateClause(
    aggregatableProperty: string,
    aggregatablePropertyExpression: SemanticExpression,
    aggregationMethod: string,
    alias: string)

  /** ApplyGroupbyClause; both the selected expressions and the nested aggregate may be null. */
  datatype GroupByClause = GroupByClause(
    selectedPropertiesExpressions: Option<seq<SemanticExpression>>,
    aggregate: Option<AggregateClause>)

  /** ApplyFilterClause. */
  datatype ApplyFilterClause = ApplyFilterClause(filter: SemanticExpression)

  /** The payload of a transformation: the clause object, or null or an object of another class. */
  datatype TransformationClause =
    | AggregatePayload(aggregate: AggregateClause)
    | GroupByPayload(groupBy: GroupByClause)
    | FilterPayload(filter: ApplyFilterClause)
    | OtherPayload

  /** One element of ApplyClause.Transformations: Tuple<string, ApplyTransformationClauseBase>. */
  datatype Transformation = Transformation(kind: string, clause: TransformationClause)

  datatype ApplyClause = ApplyClause(transformations: seq<Transformation>)

  datatype Error =
    | ArgumentNull(parameterName: string)
    | Argument(message: string)
    | NotSupported(message: string, detail: string)
    | IndexOutOfRange
    | NullReference

  const ApplyToOnUntypedQueryOption := "ApplyToOnUntypedQueryOption"
  const TransformationTypeMismatch := "aggregation transformation type mismatch"
  const AggregationNotSupported := "aggregation not supported"
  const GroupByWithoutAggregate := "group by without aggregate"

  /** The name of the synthetic equality property of a group-by key type. */
  const ComparerInstance := "ComparerInstance"

  /**
    The collaborators of ApplyTo whose code is not part of this model, as
    functions of their inputs; each one that can throw returns a Result:
    - bind: FilterBinder.Bind (LINQ), binding an expression against an element type;
    - implementation: AggregationMethodsImplementations.GetAggregationImplementation,
      the lookup of an aggregate step;
    - projectionImplementation: AggregationImplementations<AggregationImplementationBase>
      .GetAggregationImplementation, the lookup of the group-by projection type;
    - doAggregation: GetProjectionLambda, GetAggregationParams and DoAggregatinon;
    - resultType: GetResultType, the full name of the aggregated value's type;
    - filterNullValues: AggregationImplementationBase.FilterNullValues;
    - groupByKeyType: GroupByImplementation.GetGroupByKeyType;
    - doGroupBy / doAggregatedGroupBy: the two GroupByImplementation passes, the
      latter returning the keys and the aggregated values;
    - doFilter: FilterImplementation.DoFilter.
   */
  datatype Engine = Engine(
    bind: (SemanticExpression, ClrType, EdmModel, QuerySettings) -> Result<LambdaExpression, Error>,
    implementation: string -> Result<AggregationImplementation, Error>,
    projectionImplementation: string -> Result<AggregationImplementation, Error>,
    doAggregation: (AggregationImplementation, ClrType, Queryable, AggregateClause, LambdaExpression) -> Result<Value, Error>,
    resultType: (AggregationImplementation, ClrType, AggregateClause) -> Result<string, Error>,
    filterNullValues: (Queryable, ClrType, AggregateClause) -> Result<Queryable, Error>,
    groupByKeyType: (QueryContext, GroupByClause) -> Result<ClrType, Error>,
    doGroupBy: (Queryable, int, GroupByClause, ClrType, Option<seq<LambdaExpression>>) -> Result<Queryable, Error>,
    doAggregatedGroupBy: (Queryable, int, GroupByClause, ClrType, Option<seq<LambdaExpression>>, LambdaExpression) -> Result<(seq<Row>, seq<Value>), Error>,
    doFilter: (QueryContext, Queryable, ApplyFilterClause, QuerySettings) -> Result<Queryable, Error>)

  /** The names of a schema's fields. */
  function FieldNames(fields: Schema): set<string> {
    set f | f in fields :: f.name
  }

  /**
    Activator.CreateInstance on a generated type: every property holds the
    CLR default of its type, written `Null` here whatever that type is (a
    value-typed property would hold 0); every field is overwritten before a
    row is used.
   */
  function NewInstance(fields: Schema): (row: Row)
    ensures row.Keys == FieldNames(fields)
    ensures forall n :: n in row ==> row[n] == Null
  {
    map n | n in FieldNames(fields) :: Null
  }

  /** PropertyInfo.GetValue on an instance, by property name. */
  function GetValue(row: Row, name: string): Value {
    if name in row then row[name] else Null
  }

  /**
    InterceptingProvider.Intercept: the source, typed by the context's element
    type, behind an intercepting provider with the given window and no combiner.
   */
  function Intercept(query: Queryable, elementType: ClrType, windowSize: int): Queryable {
    Queryable(elementType, query.rows, Intercepting(windowSize, None))
  }
}
