/**
  The ApplyQueryOption class: its Context property, reassigned as the
  transformations run, and the three methods that work step by step.  Each
  method is proved equal to the function of the Projection or Pipeline module
  that specifies it; the properties are proved about those functions.
 */
module ApplyQuery {
  import opened Wrappers
  import opened QueryModel
  import opened TypeStringTupleComparer
  import opened Projection
  import opened Pipeline

  class ApplyQueryOption {
    /** The query context in effect: replaced after every aggregate and group-by step. */
    var Context: QueryContext

    /** The parsed $apply clause. */
    const applyClause: ApplyClause

    constructor (context: QueryContext, applyClause: ApplyClause)
      ensures Context == context && this.applyClause == applyClause
    {
      Context := context;
      this.applyClause := applyClause;
    }

    /**
      Runs the argument checks, then every transformation in list order, each
      on the results of the one before.  The result and the final Context are
      those of `Apply`; on a failure Context is the one of the last step that
      succeeded.
     */
    method ApplyTo(query: Option<Queryable>, querySettings: Option<QuerySettings>, engine: Engine, aggregationWindowSize: int)
      returns (r: Result<Queryable, Error>)
      modifies this
      ensures var o := Apply(old(Context), query, querySettings, engine, aggregationWindowSize, applyClause.transformations);
        r == o.result && Context == o.context
    {
      if query.None? {
        return Failure(ArgumentNull("query"));
      }
      if querySettings.None? {
        return Failure(ArgumentNull("querySettings"));
      }
      if Context.elementClrType.None? {
        return Failure(NotSupported(ApplyToOnUntypedQueryOption, "ApplyTo"));
      }

      var settings := querySettings.value;
      var updatedSettings := NormalizeNullPropagation(settings);
      var maxResults := AggregationWindow(settings.pageSize, aggregationWindowSize);
      var results := Intercept(query.value, Context.elementClrType.value, maxResults);

      var ts := applyClause.transformations;
      ghost var env := Env(query.value, settings, updatedSettings, maxResults, engine);
      ghost var outcome := RunFrom(Context, results, ts, env);
      var i := 0;
      while i < |ts|
        invariant 0 <= i <= |ts|
        invariant Context.elementClrType.Some?
        invariant RunFrom(Context, results, ts[i..], env) == outcome
      {
        var t := ts[i];
        assert ts[i..][0] == t && ts[i..][1..] == ts[i + 1..];
        var elementType := Context.elementClrType.value;
        if t.kind == "aggregate" {
          if !t.clause.AggregatePayload? {
            return Failure(Argument(TransformationTypeMismatch));
          }
          var aggregateClause := t.clause.aggregate;
          var bound := engine.bind(aggregateClause.aggregatablePropertyExpression, elementType, Context.model, updatedSettings);
          if bound.Failure? {
            return Failure(bound.error);
          }
          var implementation := engine.implementation(aggregateClause.aggregationMethod);
          if implementation.Failure? {
            return Failure(implementation.error);
          }
          if results.provider.Intercepting? {
            results := results.(provider := results.provider.(combiner := Some(implementation.value)));
          }
          var queryToUse := results;
          if '/' in aggregateClause.aggregatableProperty {
            var filtered := engine.filterNullValues(query.value, elementType, aggregateClause);
            if filtered.Failure? {
              return Failure(filtered.error);
            }
            queryToUse := filtered.value;
          }
          var value := engine.doAggregation(implementation.value, elementType, queryToUse, aggregateClause, bound.value);
          if value.Failure? {
            return Failure(value.error);
          }
          var aliasType := engine.resultType(implementation.value, elementType, aggregateClause);
          if aliasType.Failure? {
            return Failure(aliasType.error);
          }
          results := ProjectResult(value.value, aggregateClause.alias, aliasType.value);
          Context := QueryContext(Context.model, Some(results.elementType));
        } else if t.kind == "groupby" {
          if !t.clause.GroupByPayload? {
            return Failure(Argument(TransformationTypeMismatch));
          }
          var groupByClause := t.clause.groupBy;
          var keyTypeOrError := engine.groupByKeyType(Context, groupByClause);
          if keyTypeOrError.Failure? {
            return Failure(keyTypeOrError.error);
          }
          var keyType := keyTypeOrError.value;
          if groupByClause.aggregate.None? {
            var selected := BindSelected(engine, groupByClause.selectedPropertiesExpressions, elementType, Context.model, updatedSettings);
            if selected.Failure? {
              return Failure(selected.error);
            }
            var grouped := engine.doGroupBy(results, maxResults, groupByClause, keyType, selected.value);
            if grouped.Failure? {
              return Failure(grouped.error);
            }
            results := grouped.value;
          } else {
            var bound := engine.bind(groupByClause.aggregate.value.aggregatablePropertyExpression, elementType, Context.model, updatedSettings);
            if bound.Failure? {
              return Failure(bound.error);
            }
            var selected := BindSelected(engine, groupByClause.selectedPropertiesExpressions, elementType, Context.model, updatedSettings);
            if selected.Failure? {
              return Failure(selected.error);
            }
            var grouping := engine.doAggregatedGroupBy(results, maxResults, groupByClause, keyType, selected.value, bound.value);
            if grouping.Failure? {
              return Failure(grouping.error);
            }
            var grouped := ProjectGroupedResult(groupByClause, grouping.value.0, grouping.value.1, keyType, Context, engine);
            if grouped.Failure? {
              return Failure(grouped.error);
            }
            results := grouped.value;
          }
          Context := QueryContext(Context.model, Some(results.elementType));
        } else if t.kind == "filter" {
          if !t.clause.FilterPayload? {
            return Failure(Argument(TransformationTypeMismatch));
          }
          var filtered := engine.doFilter(Context, results, t.clause.filter, settings);
          if filtered.Failure? {
            return Failure(filtered.error);
          }
          results := filtered.value;
        } else {
          return Failure(NotSupported(AggregationNotSupported, t.kind));
        }
        i := i + 1;
      }
      return Success(results);
    }

    /**
      Builds the projection type, then one row per key: a fresh instance, the
      i-th aggregated value in the alias, then every key property except
      ComparerInstance copied from the key.
     */
    method ProjectGroupedResult(groupBy: GroupByClause, keys: seq<Row>, values: seq<Value>, keyType: ClrType, context: QueryContext, engine: Engine)
      returns (r: Result<Queryable, Error>)
      requires Context.elementClrType.Some?
      ensures r == GroupedResult(Context, engine, groupBy, keys, values, keyType)
    {
      var result: seq<Row> := [];
      var keyProperties := keyType.properties;
      var projection := GetAggregationResultProjectionType(groupBy, keyType, engine);
      if projection.Failure? {
        return Failure(projection.error);
      }
      var projectionType := projection.value;
      var alias := groupBy.aggregate.value.alias;

      var i := 0;
      while i < |keys|
        invariant 0 <= i <= |keys| && i <= |values|
        invariant |result| == i
        invariant forall k :: 0 <= k < i ==> result[k] == ProjectRow(projectionType.properties, alias, values[k], keyProperties, keys[k])
      {
        var key := keys[i];
        if i >= |values| {
          return Failure(IndexOutOfRange);
        }
        var objToProject := NewInstance(projectionType.properties)[alias := values[i]];
        ghost var start := objToProject;
        var j := 0;
        while j < |keyProperties|
          invariant 0 <= j <= |keyProperties|
          invariant objToProject == CopyKeyFields(start, keyProperties[..j], key)
        {
          var keyProperty := keyProperties[j];
          assert keyProperties[..j + 1][..j] == keyProperties[..j];
          if keyProperty.name != ComparerInstance {
            objToProject := objToProject[keyProperty.name := GetValue(key, keyProperty.name)];
          }
          j := j + 1;
        }
        assert keyProperties[..j] == keyProperties;
        result := result + [objToProject];
        i := i + 1;
      }
      assert result == GroupedRows(projectionType.properties, alias, values, keyProperties, keys);
      return Success(Queryable(projectionType, result, InMemory));
    }

    /**
      The alias field, then every key property except ComparerInstance in
      key-type order, deduplicated by the tuple comparer; fails without an
      aggregate.
     */
    method GetAggregationResultProjectionType(groupBy: GroupByClause, keyType: ClrType, engine: Engine)
      returns (r: Result<ClrType, Error>)
      requires Context.elementClrType.Some?
      ensures r == ProjectionType(Context, engine, groupBy, keyType)
    {
      if groupBy.aggregate.None? {
        return Failure(Argument(GroupByWithoutAggregate));
      }
      var keyProperties: seq<Field> := [];
      var aggregate := groupBy.aggregate.value;
      var implementation := engine.projectionImplementation(aggregate.aggregationMethod);
      if implementation.Failure? {
        return Failure(implementation.error);
      }
      var aliasTypeOrError := engine.resultType(implementation.value, Context.elementClrType.value, aggregate);
      if aliasTypeOrError.Failure? {
        return Failure(aliasTypeOrError.error);
      }
      var aliasType := aliasTypeOrError.value;

      keyProperties := keyProperties + [Field(aliasType, aggregate.alias)];
      var properties := keyType.properties;
      var j := 0;
      while j < |properties|
        invariant 0 <= j <= |properties|
        invariant keyProperties == [Field(aliasType, aggregate.alias)] + KeyFields(properties[..j])
      {
        var prop := properties[j];
        KeyFieldsOfPrefix(properties, j);
        if prop.name != ComparerInstance {
          keyProperties := keyProperties + [prop];
        }
        j := j + 1;
      }
      assert properties[..j] == properties;
      return Success(Generated(Distinct(keyProperties)));
    }
  }
}
