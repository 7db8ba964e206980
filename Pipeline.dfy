/**
  The transformation pipeline of ApplyQueryOption.ApplyTo as functions: the
  argument checks, the settings normalisation, the aggregation window, one
  step per transformation and the left-to-right run that threads the results
  and the query context from step to step.  ApplyQuery.ApplyQueryOption.ApplyTo
  is the loop proved equal to `Apply`.
 */
module Pipeline {
  import opened Wrappers
  import opened QueryModel
  import opened Projection

  const MaxAggregationWindowSize := 1000000
  const DefaultMaxResults := 2000

  /**
    The effective aggregation window: a zero request falls back to the page
    size, or 2000 without one; any other request is clamped from above at
    1,000,000 (a negative request passes through).
   */
  function AggregationWindow(pageSize: Option<int>, aggregationWindowSize: int): (w: int)
    ensures aggregationWindowSize == 0 ==> w == (if pageSize.Some? then pageSize.value else 2000)
    ensures aggregationWindowSize != 0 && aggregationWindowSize < 1000000 ==> w == aggregationWindowSize
    ensures aggregationWindowSize >= 1000000 ==> w == 1000000
  {
    var maxResults := pageSize.GetOr(DefaultMaxResults);
    if aggregationWindowSize != 0 then
      (if aggregationWindowSize < MaxAggregationWindowSize then aggregationWindowSize else MaxAggregationWindowSize)
    else maxResults
  }

  /** A positive request yields a positive window no larger than the ceiling, and clamping twice changes nothing. */
  lemma AggregationWindowBounds(pageSize: Option<int>, aggregationWindowSize: int)
    ensures aggregationWindowSize != 0 ==> AggregationWindow(pageSize, aggregationWindowSize) <= MaxAggregationWindowSize
    ensures aggregationWindowSize > 0 ==> 0 < AggregationWindow(pageSize, aggregationWindowSize)
    ensures var w := AggregationWindow(pageSize, aggregationWindowSize);
      w != 0 && w <= MaxAggregationWindowSize ==> AggregationWindow(pageSize, w) == w
  {
  }

  /** The settings used for binding: `Default` null propagation becomes `False`, in a copy. */
  function NormalizeNullPropagation(settings: QuerySettings): (updated: QuerySettings)
    ensures updated.handleNullPropagation != Default
    ensures updated.pageSize == settings.pageSize
    ensures settings.handleNullPropagation != Default ==> updated == settings
    ensures settings.handleNullPropagation == Default ==> updated.handleNullPropagation == False
  {
    if settings.handleNullPropagation == Default then settings.(handleNullPropagation := False) else settings
  }

  /** What stays fixed during the loop: the original query, both settings, the window and the collaborators. */
  datatype Env = Env(
    query: Queryable,
    querySettings: QuerySettings,
    updatedSettings: QuerySettings,
    maxResults: int,
    engine: Engine)

  datatype StepOutcome = StepOutcome(results: Queryable, context: QueryContext)

  datatype RunOutcome = RunOutcome(result: Result<Queryable, Error>, context: QueryContext)

  /** Setting InterceptingProvider.Combiner, when the results sit behind an intercepting provider. */
  function InstallCombiner(results: Queryable, implementation: AggregationImplementation): Queryable {
    if results.provider.Intercepting? then
      results.(provider := results.provider.(combiner := Some(implementation)))
    else results
  }

  /** The source of an aggregate step: a navigation path aggregates over the null-filtered original query. */
  function AggregateSource(env: Env, results: Queryable, elementType: ClrType, clause: AggregateClause): Result<Queryable, Error> {
    if '/' in clause.aggregatableProperty then env.engine.filterNullValues(env.query, elementType, clause)
    else Success(results)
  }

  /** Binding each selected group-by expression in order; the first failure is the result. */
  function BindEach(engine: Engine, expressions: seq<SemanticExpression>, elementType: ClrType, model: EdmModel, settings: QuerySettings): (r: Result<seq<LambdaExpression>, Error>)
    ensures r.Success? ==>
      && |r.value| == |expressions|
      && forall i :: 0 <= i < |expressions| ==> engine.bind(expressions[i], elementType, model, settings) == Success(r.value[i])
    ensures r.Failure? ==>
      exists i ::
        && 0 <= i < |expressions|
        && engine.bind(expressions[i], elementType, model, settings) == Failure(r.error)
        && forall k :: 0 <= k < i ==> engine.bind(expressions[k], elementType, model, settings).Success?
  {
    if expressions == [] then Success([])
    else
      var first :- engine.bind(expressions[0], elementType, model, settings);
      var rest :- BindEach(engine, expressions[1..], elementType, model, settings);
      Success([first] + rest)
  }

  function BindSelected(engine: Engine, selected: Option<seq<SemanticExpression>>, elementType: ClrType, model: EdmModel, settings: QuerySettings): Result<Option<seq<LambdaExpression>>, Error> {
    if selected.None? then Success(None)
    else
      var bound :- BindEach(engine, selected.value, elementType, model, settings);
      Success(Some(bound))
  }

  function AggregateStep(context: QueryContext, results: Queryable, clause: AggregateClause, env: Env): Result<StepOutcome, Error>
    requires context.elementClrType.Some?
  {
    var elementType := context.elementClrType.value;
    var bound :- env.engine.bind(clause.aggregatablePropertyExpression, elementType, context.model, env.updatedSettings);
    var implementation :- env.engine.implementation(clause.aggregationMethod);
    var intercepted := InstallCombiner(results, implementation);
    var queryToUse :- AggregateSource(env, intercepted, elementType, clause);
    var value :- env.engine.doAggregation(implementation, elementType, queryToUse, clause, bound);
    var aliasType :- env.engine.resultType(implementation, elementType, clause);
    var projected := ProjectResult(value, clause.alias, aliasType);
    Success(StepOutcome(projected, QueryContext(context.model, Some(projected.elementType))))
  }

  function GroupByStep(context: QueryContext, results: Queryable, clause: GroupByClause, env: Env): Result<StepOutcome, Error>
    requires context.elementClrType.Some?
  {
    var elementType := context.elementClrType.value;
    var keyType :- env.engine.groupByKeyType(context, clause);
    if clause.aggregate.None? then
      var selected :- BindSelected(env.engine, clause.selectedPropertiesExpressions, elementType, context.model, env.updatedSettings);
      var grouped :- env.engine.doGroupBy(results, env.maxResults, clause, keyType, selected);
      Success(StepOutcome(grouped, QueryContext(context.model, Some(grouped.elementType))))
    else
      var bound :- env.engine.bind(clause.aggregate.value.aggregatablePropertyExpression, elementType, context.model, env.updatedSettings);
      var selected :- BindSelected(env.engine, clause.selectedPropertiesExpressions, elementType, context.model, env.updatedSettings);
      var grouping :- env.engine.doAggregatedGroupBy(results, env.maxResults, clause, keyType, selected, bound);
      var grouped :- GroupedResult(context, env.engine, clause, grouping.0, grouping.1, keyType);
      Success(StepOutcome(grouped, QueryContext(context.model, Some(grouped.elementType))))
  }

  function FilterStep(context: QueryContext, results: Queryable, clause: ApplyFilterClause, env: Env): Result<StepOutcome, Error> {
    var filtered :- env.engine.doFilter(context, results, clause, env.querySettings);
    Success(StepOutcome(filtered, context))
  }

  /**
    One transformation: dispatch on the tag, check the payload's class, run the
    step.  After `aggregate` and `groupby` the context is rebuilt from the new
    element type; after `filter` it is kept; any other tag is not supported.
   */
  function Step(context: QueryContext, results: Queryable, t: Transformation, env: Env): (r: Result<StepOutcome, Error>)
    requires context.elementClrType.Some?
    ensures t.kind !in {"aggregate", "groupby", "filter"} ==> r == Failure(NotSupported(AggregationNotSupported, t.kind))
    ensures (t.kind == "aggregate" && !t.clause.AggregatePayload?)
         || (t.kind == "groupby" && !t.clause.GroupByPayload?)
         || (t.kind == "filter" && !t.clause.FilterPayload?)
         ==> r == Failure(Argument(TransformationTypeMismatch))
    ensures r.Success? && t.kind == "filter" ==> r.value.context == context
    ensures r.Success? && t.kind != "filter" ==>
      r.value.context == QueryContext(context.model, Some(r.value.results.elementType))
  {
    if t.kind == "aggregate" then
      if !t.clause.AggregatePayload? then Failure(Argument(TransformationTypeMismatch))
      else AggregateStep(context, results, t.clause.aggregate, env)
    else if t.kind == "groupby" then
      if !t.clause.GroupByPayload? then Failure(Argument(TransformationTypeMismatch))
      else GroupByStep(context, results, t.clause.groupBy, env)
    else if t.kind == "filter" then
      if !t.clause.FilterPayload? then Failure(Argument(TransformationTypeMismatch))
      else FilterStep(context, results, t.clause.filter, env)
    else
      Failure(NotSupported(AggregationNotSupported, t.kind))
  }

  /**
    The transformations in list order, each consuming the previous results; the
    first failure ends the run, leaving the context of the last successful step.
   */
  function RunFrom(context: QueryContext, results: Queryable, ts: seq<Transformation>, env: Env): (o: RunOutcome)
    requires context.elementClrType.Some?
    ensures o.context.model == context.model && o.context.elementClrType.Some?
    decreases |ts|
  {
    if ts == [] then RunOutcome(Success(results), context)
    else
      match Step(context, results, ts[0], env)
      case Failure(e) => RunOutcome(Failure(e), context)
      case Success(out) => RunFrom(out.context, out.results, ts[1..], env)
  }

  /** ApplyTo: the argument checks in source order, then the run over the intercepted source. */
  function Apply(context: QueryContext, query: Option<Queryable>, querySettings: Option<QuerySettings>, engine: Engine, aggregationWindowSize: int, ts: seq<Transformation>): RunOutcome {
    if query.None? then RunOutcome(Failure(ArgumentNull("query")), context)
    else if querySettings.None? then RunOutcome(Failure(ArgumentNull("querySettings")), context)
    else if context.elementClrType.None? then RunOutcome(Failure(NotSupported(ApplyToOnUntypedQueryOption, "ApplyTo")), context)
    else
      var maxResults := AggregationWindow(querySettings.value.pageSize, aggregationWindowSize);
      var env := Env(query.value, querySettings.value, NormalizeNullPropagation(querySettings.value), maxResults, engine);
      RunFrom(context, Intercept(query.value, context.elementClrType.value, maxResults), ts, env)
  }

  /**
    Running a concatenation is running the first part, then (if it succeeded)
    the second part from where the first left off: the steps run strictly in
    list order and a failure ends the pipeline with no partial result.
   */
  lemma {:induction false} RunAppend(context: QueryContext, results: Queryable, ts1: seq<Transformation>, ts2: seq<Transformation>, env: Env)
    requires context.elementClrType.Some?
    decreases |ts1|
    ensures var first := RunFrom(context, results, ts1, env);
      RunFrom(context, results, ts1 + ts2, env)
        == if first.result.Failure? then first else RunFrom(first.context, first.result.value, ts2, env)
  {
    if ts1 == [] {
      assert ts1 + ts2 == ts2;
    } else {
      assert (ts1 + ts2)[0] == ts1[0];
      assert (ts1 + ts2)[1..] == ts1[1..] + ts2;
      match Step(context, results, ts1[0], env)
      case Failure(e) =>
      case Success(out) =>
        RunAppend(out.context, out.results, ts1[1..], ts2, env);
    }
  }

  /** The argument checks fail in source order, before any transformation runs, leaving the context as it was. */
  lemma ApplyArgumentChecks(context: QueryContext, query: Option<Queryable>, querySettings: Option<QuerySettings>, engine: Engine, aggregationWindowSize: int, ts: seq<Transformation>)
    ensures query.None? ==>
      Apply(context, query, querySettings, engine, aggregationWindowSize, ts) == RunOutcome(Failure(ArgumentNull("query")), context)
    ensures query.Some? && querySettings.None? ==>
      Apply(context, query, querySettings, engine, aggregationWindowSize, ts) == RunOutcome(Failure(ArgumentNull("querySettings")), context)
    ensures query.Some? && querySettings.Some? && context.elementClrType.None? ==>
      Apply(context, query, querySettings, engine, aggregationWindowSize, ts)
        == RunOutcome(Failure(NotSupported(ApplyToOnUntypedQueryOption, "ApplyTo")), context)
  {
  }

  /** With no transformations the result is the source behind the intercepting provider, and the context is unchanged. */
  lemma ApplyEmpty(context: QueryContext, query: Queryable, querySettings: QuerySettings, engine: Engine, aggregationWindowSize: int)
    requires context.elementClrType.Some?
    ensures var o := Apply(context, Some(query), Some(querySettings), engine, aggregationWindowSize, []);
      && o.context == context
      && o.result.Success?
      && o.result.value.rows == query.rows
      && o.result.value.elementType == context.elementClrType.value
      && o.result.value.provider == Intercepting(AggregationWindow(querySettings.pageSize, aggregationWindowSize), None)
  {
  }

  /**
    A successful aggregate step yields exactly one row, typed by the single
    field (result type, alias), whose alias holds the aggregation over the
    null-filtered original query for a navigation path and over the running
    results, with the method's combiner installed, otherwise.
   */
  lemma AggregateStepResult(context: QueryContext, results: Queryable, clause: AggregateClause, env: Env)
    requires context.elementClrType.Some?
    requires AggregateStep(context, results, clause, env).Success?
    ensures var elementType := context.elementClrType.value;
      var bound := env.engine.bind(clause.aggregatablePropertyExpression, elementType, context.model, env.updatedSettings).value;
      var implementation := env.engine.implementation(clause.aggregationMethod).value;
      var source := if '/' in clause.aggregatableProperty
        then env.engine.filterNullValues(env.query, elementType, clause)
        else Success(InstallCombiner(results, implementation));
      var out := AggregateStep(context, results, clause, env).value;
      && source.Success?
      && out.results.elementType == Generated([Field(env.engine.resultType(implementation, elementType, clause).value, clause.alias)])
      && out.results.rows == [map[clause.alias := env.engine.doAggregation(implementation, elementType, source.value, clause, bound).value]]
      && out.context == QueryContext(context.model, Some(out.results.elementType))
  {
  }

  /**
    An aggregate step fails with the error of the first collaborator that
    throws, in source order: the binder, the implementation lookup, the null
    filter of a navigation path, the aggregation, the result type.
   */
  lemma AggregateStepFailures(context: QueryContext, results: Queryable, clause: AggregateClause, env: Env)
    requires context.elementClrType.Some?
    ensures var elementType := context.elementClrType.value;
      var engine := env.engine;
      var bound := engine.bind(clause.aggregatablePropertyExpression, elementType, context.model, env.updatedSettings);
      var implementation := engine.implementation(clause.aggregationMethod);
      var r := AggregateStep(context, results, clause, env);
      && (bound.Failure? ==> r == Failure(bound.error))
      && (bound.Success? && implementation.Failure? ==> r == Failure(implementation.error))
      && (bound.Success? && implementation.Success? ==>
            var source := AggregateSource(env, InstallCombiner(results, implementation.value), elementType, clause);
            && (source.Failure? ==> r == Failure(source.error))
            && (source.Success? ==>
                  var value := engine.doAggregation(implementation.value, elementType, source.value, clause, bound.value);
                  var aliasType := engine.resultType(implementation.value, elementType, clause);
                  && (value.Failure? ==> r == Failure(value.error))
                  && (value.Success? && aliasType.Failure? ==> r == Failure(aliasType.error))
                  && (value.Success? && aliasType.Success? ==> r.Success?)))
  {
  }

  /**
    A group-by without aggregate is the plain group-by pass, bounded by the
    window; with an aggregate it is the grouped projection of the keys and
    aggregated values of the combined pass.
   */
  lemma GroupByStepResult(context: QueryContext, results: Queryable, clause: GroupByClause, env: Env)
    requires context.elementClrType.Some?
    requires GroupByStep(context, results, clause, env).Success?
    ensures var elementType := context.elementClrType.value;
      var keyType := env.engine.groupByKeyType(context, clause);
      var selected := BindSelected(env.engine, clause.selectedPropertiesExpressions, elementType, context.model, env.updatedSettings);
      var out := GroupByStep(context, results, clause, env).value;
      && keyType.Success? && selected.Success?
      && (clause.aggregate.None? ==>
            env.engine.doGroupBy(results, env.maxResults, clause, keyType.value, selected.value) == Success(out.results))
      && (clause.aggregate.Some? ==>
            var bound := env.engine.bind(clause.aggregate.value.aggregatablePropertyExpression, elementType, context.model, env.updatedSettings).value;
            var grouping := env.engine.doAggregatedGroupBy(results, env.maxResults, clause, keyType.value, selected.value, bound);
            && grouping.Success?
            && GroupedResult(context, env.engine, clause, grouping.value.0, grouping.value.1, keyType.value) == Success(out.results))
  {
  }

  /**
    A group-by step fails with the error of the first collaborator that
    throws: the key type, then (with an aggregate) the aggregate binder, then
    the selected-property binders, then the group-by pass itself, then (with
    an aggregate) the projection type and the index check of
    ProjectGroupedResult.  When none throws, the step succeeds.
   */
  lemma GroupByStepFailures(context: QueryContext, results: Queryable, clause: GroupByClause, env: Env)
    requires context.elementClrType.Some?
    ensures var elementType := context.elementClrType.value;
      var engine := env.engine;
      var keyType := engine.groupByKeyType(context, clause);
      var selected := BindSelected(engine, clause.selectedPropertiesExpressions, elementType, context.model, env.updatedSettings);
      var r := GroupByStep(context, results, clause, env);
      && (keyType.Failure? ==> r == Failure(keyType.error))
      && (keyType.Success? && clause.aggregate.None? ==>
            && (selected.Failure? ==> r == Failure(selected.error))
            && (selected.Success? ==>
                  var grouped := engine.doGroupBy(results, env.maxResults, clause, keyType.value, selected.value);
                  && (grouped.Failure? ==> r == Failure(grouped.error))
                  && (grouped.Success? ==> r.Success?)))
      && (keyType.Success? && clause.aggregate.Some? ==>
            var bound := engine.bind(clause.aggregate.value.aggregatablePropertyExpression, elementType, context.model, env.updatedSettings);
            && (bound.Failure? ==> r == Failure(bound.error))
            && (bound.Success? && selected.Failure? ==> r == Failure(selected.error))
            && (bound.Success? && selected.Success? ==>
                  var grouping := engine.doAggregatedGroupBy(results, env.maxResults, clause, keyType.value, selected.value, bound.value);
                  && (grouping.Failure? ==> r == Failure(grouping.error))
                  && (grouping.Success? ==>
                        var g := GroupedResult(context, engine, clause, grouping.value.0, grouping.value.1, keyType.value);
                        && (g.Failure? ==> r == Failure(g.error))
                        && (g.Success? ==> r.Success?))))
  {
  }

  /**
    After a successful run whose last transformation is an aggregate or a
    group-by, the context describes the element type of the result.
   */
  lemma RunEndsWithResultContext(context: QueryContext, results: Queryable, ts: seq<Transformation>, env: Env)
    requires context.elementClrType.Some?
    requires ts != [] && ts[|ts| - 1].kind in {"aggregate", "groupby"}
    requires RunFrom(context, results, ts, env).result.Success?
    ensures var o := RunFrom(context, results, ts, env);
      o.context == QueryContext(context.model, Some(o.result.value.elementType))
  {
    var prefix := ts[..|ts| - 1];
    assert ts == prefix + [ts[|ts| - 1]];
    RunAppend(context, results, prefix, [ts[|ts| - 1]], env);
  }

  /**
    A filter step hands the running results to the filter implementation with
    the caller's settings, not the normalised copy the binders receive, and
    keeps the context.
   */
  lemma FilterStepUsesCallerSettings(context: QueryContext, results: Queryable, clause: ApplyFilterClause, env: Env)
    requires context.elementClrType.Some?
    ensures var filtered := env.engine.doFilter(context, results, clause, env.querySettings);
      Step(context, results, Transformation("filter", FilterPayload(clause)), env)
        == if filtered.Failure? then Failure(filtered.error) else Success(StepOutcome(filtered.value, context))
  {
  }

  /**
    Applying the same filter twice is applying it once, whenever the filter
    implementation is idempotent on its own output.  That idempotence is an
    assumption about FilterImplementation.DoFilter, whose code is not part of
    this model; what the lemma shows is that a filter step changes neither the
    context nor the settings, so the second call receives the same arguments
    as the first apart from the rows.
   */
  lemma FilterTwiceIsFilterOnce(context: QueryContext, results: Queryable, clause: ApplyFilterClause, env: Env)
    requires context.elementClrType.Some?
    requires forall q :: env.engine.doFilter(context, q, clause, env.querySettings).Success? ==>
      env.engine.doFilter(context, env.engine.doFilter(context, q, clause, env.querySettings).value, clause, env.querySettings)
        == env.engine.doFilter(context, q, clause, env.querySettings)
    ensures var f := Transformation("filter", FilterPayload(clause));
      RunFrom(context, results, [f, f], env) == RunFrom(context, results, [f], env)
  {
    var f := Transformation("filter", FilterPayload(clause));
    assert [f, f][1..] == [f];
    if env.engine.doFilter(context, results, clause, env.querySettings).Success? {
      var once := env.engine.doFilter(context, results, clause, env.querySettings).value;
      assert Step(context, results, f, env) == Success(StepOutcome(once, context));
      assert Step(context, once, f, env) == Success(StepOutcome(once, context));
    }
  }

  /**
    An aggregate over a navigation path reads the original query, so a filter
    before it has no effect on the outcome: filter-then-aggregate equals the
    aggregate alone whenever the filter succeeds.
   */
  lemma NavigationAggregateIgnoresEarlierFilter(context: QueryContext, results: Queryable, filter: ApplyFilterClause, aggregate: AggregateClause, env: Env)
    requires context.elementClrType.Some?
    requires '/' in aggregate.aggregatableProperty
    requires env.engine.doFilter(context, results, filter, env.querySettings).Success?
    ensures var f := Transformation("filter", FilterPayload(filter));
      var a := Transformation("aggregate", AggregatePayload(aggregate));
      RunFrom(context, results, [f, a], env) == RunFrom(context, results, [a], env)
  {
    var f := Transformation("filter", FilterPayload(filter));
    var a := Transformation("aggregate", AggregatePayload(aggregate));
    var filtered := env.engine.doFilter(context, results, filter, env.querySettings).value;
    assert [f, a][1..] == [a];
    assert Step(context, results, f, env) == Success(StepOutcome(filtered, context));
    assert AggregateStep(context, filtered, aggregate, env) == AggregateStep(context, results, aggregate, env);
  }
}
