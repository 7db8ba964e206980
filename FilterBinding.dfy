/**
  FilterBinder (Microsoft.OData.Core.UriParser.Parsers): binds a syntactic
  expression token into a semantic node and checks the rule of section 5.1.1 of
  OData Version 4.0 Part 2 (URL Conventions) that a $filter expression is a
  single Boolean value.  The recursive token visitor (`bindMethod`) and the
  binding state are fields of the binder, fixed at construction.
 */
module FilterBinding {
  import opened Wrappers
  import opened SyntacticAst

  /** The EDM primitive kinds this model distinguishes. */
  datatype PrimitiveKind =
    | Boolean
    | Byte
    | Int32
    | Int64
    | Decimal
    | Double
    | String
    | DateTimeOffset
    | Guid

  /** An EDM type reference, reduced to its kind. */
  datatype TypeReference =
    | PrimitiveType(kind: PrimitiveKind)
    | EntityType(name: string)
    | ComplexType(name: string)
    | EnumType(name: string)
    | CollectionType(elementName: string)

  /**
    A bound semantic node.  A single-value node may have no type reference
    (`None`): the null literal or an open property.
   */
  datatype QueryNode =
    | SingleValueNode(description: string, typeReference: Option<TypeReference>)
    | CollectionNode(description: string)

  datatype RangeVariable = RangeVariable(name: string)

  /** BindingState, reduced to the implicit range variable (`$it`). */
  datatype BindingState = BindingState(implicitRangeVariable: RangeVariable)

  datatype FilterClause = FilterClause(expression: QueryNode, rangeVariable: RangeVariable)

  datatype ExpressionClause = ExpressionClause(expression: QueryNode, rangeVariable: RangeVariable)

  datatype BindError =
    | ArgumentNull(parameterName: string)
    | ODataException(message: string)

  const FilterExpressionNotSingleValue := "MetadataBinder_FilterExpressionNotSingleValue"

  datatype FilterBinder = FilterBinder(bindMethod: QueryToken -> QueryNode, state: BindingState)

  /** IsODataPrimitiveTypeKind on a type reference. */
  predicate IsPrimitive(t: TypeReference) {
    t.PrimitiveType?
  }

  /** AsPrimitiveOrNull. */
  function AsPrimitiveOrNull(t: TypeReference): (p: Option<PrimitiveKind>)
    ensures p.Some? <==> IsPrimitive(t)
    ensures p.Some? ==> p.value == t.kind
  {
    if t.PrimitiveType? then Some(t.kind) else None
  }

  /** The shared first check: a single-value node whose type, when known, is primitive. */
  predicate IsSingleValueOfPrimitiveOrNullType(node: QueryNode) {
    node.SingleValueNode? && (node.typeReference.Some? ==> IsPrimitive(node.typeReference.value))
  }

  /** The $filter rule: a single-value node whose type, when known, is the primitive Boolean. */
  predicate IsBooleanFilterNode(node: QueryNode) {
    node.SingleValueNode? && (node.typeReference.None? || node.typeReference.value == PrimitiveType(Boolean))
  }

  /** FilterBinder.BindFilter. */
  function BindFilter(binder: FilterBinder, filter: Option<QueryToken>): (r: Result<FilterClause, BindError>)
    ensures filter.None? ==> r == Failure(ArgumentNull("filter"))
    ensures filter.Some? ==>
      (r.Success? <==> IsBooleanFilterNode(binder.bindMethod(filter.value)))
    ensures filter.Some? && r.Failure? ==> r.error == ODataException(FilterExpressionNotSingleValue)
    ensures r.Success? ==>
      r.value == FilterClause(binder.bindMethod(filter.value), binder.state.implicitRangeVariable)
  {
    if filter.None? then Failure(ArgumentNull("filter"))
    else
      var expressionNode := binder.bindMethod(filter.value);
      if !IsSingleValueOfPrimitiveOrNullType(expressionNode) then
        Failure(ODataException(FilterExpressionNotSingleValue))
      else if expressionNode.typeReference.Some?
        && (var primitive := AsPrimitiveOrNull(expressionNode.typeReference.value);
            primitive.None? || primitive.value != Boolean)
      then
        Failure(ODataException(FilterExpressionNotSingleValue))
      else
        Success(FilterClause(expressionNode, binder.state.implicitRangeVariable))
  }

  /** FilterBinder.BindExpression: the same checks without the Boolean restriction. */
  function BindExpression(binder: FilterBinder, filter: Option<QueryToken>): (r: Result<ExpressionClause, BindError>)
    ensures filter.None? ==> r == Failure(ArgumentNull("filter"))
    ensures filter.Some? ==>
      (r.Success? <==> IsSingleValueOfPrimitiveOrNullType(binder.bindMethod(filter.value)))
    ensures filter.Some? && r.Failure? ==> r.error == ODataException(FilterExpressionNotSingleValue)
    ensures r.Success? ==>
      r.value == ExpressionClause(binder.bindMethod(filter.value), binder.state.implicitRangeVariable)
  {
    if filter.None? then Failure(ArgumentNull("filter"))
    else
      var expressionNode := binder.bindMethod(filter.value);
      if !IsSingleValueOfPrimitiveOrNullType(expressionNode) then
        Failure(ODataException(FilterExpressionNotSingleValue))
      else
        Success(ExpressionClause(expressionNode, binder.state.implicitRangeVariable))
  }

  /** Every token BindFilter accepts, BindExpression accepts too, with the same node and range variable. */
  lemma BindFilterAcceptedImpliesBindExpressionAccepted(binder: FilterBinder, filter: Option<QueryToken>)
    requires BindFilter(binder, filter).Success?
    ensures BindExpression(binder, filter).Success?
    ensures BindExpression(binder, filter).value.expression == BindFilter(binder, filter).value.expression
    ensures BindExpression(binder, filter).value.rangeVariable == BindFilter(binder, filter).value.rangeVariable
  {
  }

  /**
    The two binders differ exactly on single-value nodes of a known primitive
    type other than Boolean: those BindExpression accepts and BindFilter refuses.
   */
  lemma BindersDifferOnlyOnNonBooleanPrimitives(binder: FilterBinder, token: QueryToken)
    ensures BindExpression(binder, Some(token)).Success? && BindFilter(binder, Some(token)).Failure?
      <==> (var node := binder.bindMethod(token);
            node.SingleValueNode? && node.typeReference.Some?
            && node.typeReference.value.PrimitiveType? && node.typeReference.value.kind != Boolean)
  {
  }

  /** A null literal or open property (no type reference) passes the $filter check. */
  lemma UntypedSingleValueAccepted(binder: FilterBinder, token: QueryToken)
    requires binder.bindMethod(token).SingleValueNode? && binder.bindMethod(token).typeReference.None?
    ensures BindFilter(binder, Some(token)) == Success(FilterClause(binder.bindMethod(token), binder.state.implicitRangeVariable))
  {
  }
}
