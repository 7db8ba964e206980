/**
  Result shaping of ApplyQueryOption: the single-row result of an aggregate
  step (ProjectResult), the output type of a group-by with aggregate
  (GetAggregationResultProjectionType) and its rows (ProjectGroupedResult),
  written as functions.  The loops of the last two are methods of the class
  in ApplyQuery, proved against these functions.
 */
module Projection {
  import opened Wrappers
  import opened QueryModel
  import opened TypeStringTupleComparer

  /**
    ProjectResult: a generated type with the single property (aliasType, alias)
    and a one-element sequence holding an instance whose alias is the
    aggregated value.
   */
  function ProjectResult(dataToProject: Value, alias: string, aliasType: string): (q: Queryable)
    ensures q.elementType == Generated([Field(aliasType, alias)])
    ensures |q.rows| == 1 && q.rows[0] == map[alias := dataToProject]
    ensures q.provider == InMemory
  {
    var properties := [Field(aliasType, alias)];
    DistinctOfDuplicateFree(properties);
    var resType := Generated(Distinct(properties));
    Queryable(resType, [NewInstance(resType.properties)[alias := dataToProject]], InMemory)
  }

  /** The key type's properties, in order, without the synthetic ComparerInstance property. */
  function KeyFields(properties: Schema): Schema {
    if properties == [] then []
    else
      var last := properties[|properties| - 1];
      KeyFields(properties[..|properties| - 1]) + (if last.name == ComparerInstance then [] else [last])
  }

  /** The key fields are exactly the key type's properties not named ComparerInstance, and no more of them. */
  lemma {:induction false} KeyFieldsMembers(properties: Schema)
    ensures forall f :: f in KeyFields(properties) <==> f in properties && f.name != ComparerInstance
    ensures |KeyFields(properties)| <= |properties|
  {
    if properties != [] {
      var prefix := properties[..|properties| - 1];
      KeyFieldsMembers(prefix);
      assert properties == prefix + [properties[|properties| - 1]];
    }
  }

  /** Extending the key type's property list by one extends its key fields by that property unless it is ComparerInstance. */
  lemma {:induction false} KeyFieldsOfPrefix(properties: Schema, j: nat)
    requires j < |properties|
    ensures KeyFields(properties[..j + 1])
      == KeyFields(properties[..j]) + (if properties[j].name == ComparerInstance then [] else [properties[j]])
  {
    assert properties[..j + 1][..j] == properties[..j];
  }

  /** The property list handed to the type generator: alias field first, then the key fields, deduplicated. */
  function ProjectionFields(aliasType: string, alias: string, keyProperties: Schema): Schema {
    Distinct([Field(aliasType, alias)] + KeyFields(keyProperties))
  }

  /**
    The output schema of a group-by with aggregate: the alias field heads it,
    every key field except ComparerInstance is in it, nothing else is, and no
    (type, name) pair appears twice.
   */
  lemma ProjectionFieldsShape(aliasType: string, alias: string, keyProperties: Schema)
    ensures var fields := ProjectionFields(aliasType, alias, keyProperties);
      && fields != [] && fields[0] == Field(aliasType, alias)
      && (forall f :: f in fields <==> f == Field(aliasType, alias) || (f in keyProperties && f.name != ComparerInstance))
      && NoDuplicates(fields)
  {
    var s := [Field(aliasType, alias)] + KeyFields(keyProperties);
    KeyFieldsMembers(keyProperties);
    DistinctKeepsHead(s);
    DistinctKeepsFirstOccurrences(s);
  }

  /** The output schema's names are the alias and the key property names other than ComparerInstance. */
  lemma ProjectionFieldNames(aliasType: string, alias: string, keyProperties: Schema)
    ensures FieldNames(ProjectionFields(aliasType, alias, keyProperties)) == {alias} + FieldNames(KeyFields(keyProperties))
  {
    var fields := ProjectionFields(aliasType, alias, keyProperties);
    ProjectionFieldsShape(aliasType, alias, keyProperties);
    KeyFieldsMembers(keyProperties);
    forall m | m in FieldNames(KeyFields(keyProperties))
      ensures m in FieldNames(fields)
    {
      var f :| f in KeyFields(keyProperties) && f.name == m;
      assert f in fields;
    }
    assert fields[0].name == alias;
  }

  /** GetAggregationResultProjectionType: the generated type a group-by with aggregate projects into. */
  function ProjectionType(context: QueryContext, engine: Engine, groupBy: GroupByClause, keyType: ClrType): (r: Result<ClrType, Error>)
    requires context.elementClrType.Some?
    ensures groupBy.aggregate.None? ==> r == Failure(Argument(GroupByWithoutAggregate))
    ensures groupBy.aggregate.Some? && engine.projectionImplementation(groupBy.aggregate.value.aggregationMethod).Failure? ==>
      r == Failure(engine.projectionImplementation(groupBy.aggregate.value.aggregationMethod).error)
    ensures r.Success? ==> groupBy.aggregate.Some? && r.value.Generated?
    ensures r.Success? ==>
      var aggregate := groupBy.aggregate.value;
      var implementation := engine.projectionImplementation(aggregate.aggregationMethod);
      && implementation.Success?
      && engine.resultType(implementation.value, context.elementClrType.value, aggregate).Success?
      && r.value == Generated(ProjectionFields(engine.resultType(implementation.value, context.elementClrType.value, aggregate).value, aggregate.alias, keyType.properties))
  {
    if groupBy.aggregate.None? then Failure(Argument(GroupByWithoutAggregate))
    else
      var aggregate := groupBy.aggregate.value;
      var implementation :- engine.projectionImplementation(aggregate.aggregationMethod);
      var aliasType :- engine.resultType(implementation, context.elementClrType.value, aggregate);
      Success(Generated(ProjectionFields(aliasType, aggregate.alias, keyType.properties)))
  }

  /** The inner loop of ProjectGroupedResult: copy each key property but ComparerInstance into the row. */
  function CopyKeyFields(row: Row, keyProperties: Schema, key: Row): Row {
    if keyProperties == [] then row
    else
      var copied := CopyKeyFields(row, keyProperties[..|keyProperties| - 1], key);
      var p := keyProperties[|keyProperties| - 1];
      if p.name == ComparerInstance then copied else copied[p.name := GetValue(key, p.name)]
  }

  /**
    After the copy, a key property's name holds the key's value for it; every
    other name is as it was, and the row gains only key property names.
   */
  lemma {:induction false} CopyKeyFieldsAt(row: Row, keyProperties: Schema, key: Row, n: string)
    ensures var copied := CopyKeyFields(row, keyProperties, key);
      && copied.Keys == row.Keys + FieldNames(KeyFields(keyProperties))
      && (n in FieldNames(KeyFields(keyProperties)) ==> copied[n] == GetValue(key, n))
      && (n !in FieldNames(KeyFields(keyProperties)) && n in row ==> copied[n] == row[n])
  {
    if keyProperties != [] {
      var prefix := keyProperties[..|keyProperties| - 1];
      CopyKeyFieldsAt(row, prefix, key, n);
      KeyFieldNamesOfLast(keyProperties);
    }
  }

  /** The key names of a list are those of its prefix plus its last property's name, unless that is ComparerInstance. */
  lemma {:induction false} KeyFieldNamesOfLast(keyProperties: Schema)
    requires keyProperties != []
    ensures var p := keyProperties[|keyProperties| - 1];
      FieldNames(KeyFields(keyProperties))
        == FieldNames(KeyFields(keyProperties[..|keyProperties| - 1])) + (if p.name == ComparerInstance then {} else {p.name})
  {
    var prefix := keyProperties[..|keyProperties| - 1];
    var p := keyProperties[|keyProperties| - 1];
    var tail := if p.name == ComparerInstance then [] else [p];
    assert KeyFields(keyProperties) == KeyFields(prefix) + tail;
    FieldNamesAppend(KeyFields(prefix), tail);
    assert FieldNames(tail) == (if p.name == ComparerInstance then {} else {p.name});
  }

  lemma {:induction false} FieldNamesAppend(a: Schema, b: Schema)
    ensures FieldNames(a + b) == FieldNames(a) + FieldNames(b)
  {
    assert forall f :: f in a + b <==> f in a || f in b;
  }

  /** One output row: a fresh instance, the aggregated value in the alias, then the key copies. */
  function ProjectRow(fields: Schema, alias: string, value: Value, keyProperties: Schema, key: Row): Row {
    CopyKeyFields(NewInstance(fields)[alias := value], keyProperties, key)
  }

  /** The rows of ProjectGroupedResult: row i pairs key i with aggregated value i. */
  function GroupedRows(fields: Schema, alias: string, values: seq<Value>, keyProperties: Schema, keys: seq<Row>): seq<Row>
    requires |keys| <= |values|
  {
    seq(|keys|, i requires 0 <= i < |keys| => ProjectRow(fields, alias, values[i], keyProperties, keys[i]))
  }

  /**
    ProjectGroupedResult: the projection type first (which fails without an
    aggregate), then one row per key; a key with no aggregated value at its
    index fails as the array access does.
   */
  function GroupedResult(context: QueryContext, engine: Engine, groupBy: GroupByClause, keys: seq<Row>, values: seq<Value>, keyType: ClrType): Result<Queryable, Error>
    requires context.elementClrType.Some?
  {
    var projectionType :- ProjectionType(context, engine, groupBy, keyType);
    if |values| < |keys| then Failure(IndexOutOfRange)
    else
      Success(Queryable(projectionType, GroupedRows(projectionType.properties, groupBy.aggregate.value.alias, values, keyType.properties, keys), InMemory))
  }

  /**
    An output row is an instance of the projection type; it holds the key's
    value under every key property name, and the aggregated value under the
    alias unless a key property of the same name overwrote it.  The type has
    no other property, so every field of the row is written.
   */
  lemma ProjectRowShape(aliasType: string, alias: string, value: Value, keyProperties: Schema, key: Row, n: string)
    ensures var fields := ProjectionFields(aliasType, alias, keyProperties);
      var row := ProjectRow(fields, alias, value, keyProperties, key);
      var keyNames := FieldNames(KeyFields(keyProperties));
      && row.Keys == FieldNames(fields)
      && (n in keyNames ==> n in row && row[n] == GetValue(key, n))
      && (alias !in keyNames ==> alias in row && row[alias] == value)
  {
    var fields := ProjectionFields(aliasType, alias, keyProperties);
    ProjectionFieldNames(aliasType, alias, keyProperties);
    var start := NewInstance(fields)[alias := value];
    CopyKeyFieldsAt(start, keyProperties, key, n);
    CopyKeyFieldsAt(start, keyProperties, key, alias);
  }

  /**
    A grouped result has one row per key, in key order, and row i is the
    projection of key i with aggregated value i into the projection type.
   */
  lemma GroupedResultRows(context: QueryContext, engine: Engine, groupBy: GroupByClause, keys: seq<Row>, values: seq<Value>, keyType: ClrType, i: nat)
    requires context.elementClrType.Some?
    requires GroupedResult(context, engine, groupBy, keys, values, keyType).Success?
    requires i < |keys|
    ensures var q := GroupedResult(context, engine, groupBy, keys, values, keyType).value;
      var aggregate := groupBy.aggregate.value;
      var aliasType := engine.resultType(engine.projectionImplementation(aggregate.aggregationMethod).value, context.elementClrType.value, aggregate).value;
      && |q.rows| == |keys|
      && q.elementType == Generated(ProjectionFields(aliasType, aggregate.alias, keyType.properties))
      && q.rows[i] == ProjectRow(q.elementType.properties, aggregate.alias, values[i], keyType.properties, keys[i])
  {
  }

  /** A group-by with aggregate fails when the aggregate is missing, or when values run out before keys. */
  lemma GroupedResultFailures(context: QueryContext, engine: Engine, groupBy: GroupByClause, keys: seq<Row>, values: seq<Value>, keyType: ClrType)
    requires context.elementClrType.Some?
    ensures groupBy.aggregate.None? ==>
      GroupedResult(context, engine, groupBy, keys, values, keyType) == Failure(Argument(GroupByWithoutAggregate))
    ensures ProjectionType(context, engine, groupBy, keyType).Success? ==>
      (GroupedResult(context, engine, groupBy, keys, values, keyType) == Failure(IndexOutOfRange) <==> |values| < |keys|)
  {
  }
}
