/**
  The syntactic query-token tree (Microsoft.OData.Core.UriParser.Syntactic).
  Only the select token is modelled in full; every other token variant is
  represented by its kind alone.  The visitor of the C# double dispatch is a
  record holding one function per token variant.
 */
module SyntacticAst {
  import opened Wrappers

  /** A subset of QueryTokenKind: the kinds other tokens of the tree may carry. */
  datatype QueryTokenKind =
    | Select
    | BinaryOperator
    | UnaryOperator
    | Literal
    | FunctionCall
    | EndPath
    | OrderBy
    | Expand
    | Aggregate
    | GroupBy

  /** One segment of a select path (`Address/City` has two). */
  datatype PathSegmentToken = PathSegmentToken(identifier: string)

  type OtherTokenKind = k: QueryTokenKind | !k.Select? witness QueryTokenKind.Literal

  /**
    A query token.  `SelectToken` holds the read-only property list exposed by
    `SelectToken.Properties`; `OtherToken` stands for the variants this model
    does not detail.
   */
  datatype QueryToken =
    | SelectToken(properties: seq<PathSegmentToken>)
    | OtherToken(kind: OtherTokenKind)

  type SelectToken = t: QueryToken | t.SelectToken? witness SelectToken([])

  /** ISyntacticTreeVisitor<T>: one Visit overload per token variant. */
  datatype SyntacticTreeVisitor<T> = SyntacticTreeVisitor(
    visitSelect: SelectToken -> T,
    visitOther: QueryToken -> T)

  /**
    The SelectToken constructor: a null property sequence (`None`) becomes an
    empty read-only sequence, any other sequence is wrapped unchanged.
   */
  function NewSelectToken(properties: Option<seq<PathSegmentToken>>): (t: SelectToken)
    ensures properties.None? ==> t.properties == []
    ensures properties.Some? ==> t.properties == properties.value
    ensures Kind(t) == QueryTokenKind.Select
  {
    SelectToken(if properties.Some? then properties.value else [])
  }

  /** QueryToken.Kind: a select token always reports `Select`. */
  function Kind(t: QueryToken): (k: QueryTokenKind)
    ensures k.Select? <==> t.SelectToken?
  {
    match t
    case SelectToken(_) => QueryTokenKind.Select
    case OtherToken(kind) => kind
  }

  /** SelectToken.Properties. */
  function Properties(t: SelectToken): seq<PathSegmentToken> {
    t.properties
  }

  /** QueryToken.Accept: double dispatch back to the visitor's overload for the token's variant. */
  function Accept<T>(t: QueryToken, visitor: SyntacticTreeVisitor<T>): T {
    match t
    case SelectToken(_) => visitor.visitSelect(t)
    case OtherToken(_) => visitor.visitOther(t)
  }

  /** Whatever the visitor, a select token is dispatched to the select overload. */
  lemma AcceptSelectDispatchesToVisitSelect<T>(t: SelectToken, visitor: SyntacticTreeVisitor<T>)
    ensures Accept(t, visitor) == visitor.visitSelect(t)
  {
  }

  /**
    Constructing a token from the properties of an existing one gives back that
    token: the constructor's normalisation is idempotent and loses nothing.
   */
  lemma NewSelectTokenRoundTrip(properties: Option<seq<PathSegmentToken>>)
    ensures NewSelectToken(Some(Properties(NewSelectToken(properties)))) == NewSelectToken(properties)
    ensures Properties(NewSelectToken(properties)) == properties.GetOr([])
  {
  }
}
