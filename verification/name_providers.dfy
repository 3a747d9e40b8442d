/**
 * Span naming: the `MongoSpanNameProvider` function objects and the
 * `NoopSpanNameProvider`, `PrefixSpanNameProvider` and
 * `OperationCollectionSpanNameProvider` classes. A `null` name or prefix is
 * `None`.
 */
module NameProviders {
  import opened Wrappers
  import opened Bson

  /** The placeholder for a missing operation name. */
  const NoOperation := "unknown"

  /** `MongoSpanNameProvider.OPERATION_NAME`. */
  function OperationName(operationName: Option<string>): string {
    operationName.GetOr(NoOperation)
  }

  /** `MongoSpanNameProvider.PREFIX_OPERATION_NAME(prefix)`: a function object. */
  function PrefixOperationName(prefix: Option<string>): Option<string> -> string {
    (operationName: Option<string>) => prefix.GetOr("") + OperationName(operationName)
  }

  /**
   * A span name provider the listener is configured with. One type serves
   * both packages: the legacy listener is only ever built with the no-op or
   * the prefix provider, since `OperationCollectionSpanNameProvider` belongs
   * to the modular package and the legacy constructor cannot receive it.
   */
  datatype NameProvider =
    | NoopSpanNameProvider
    | PrefixSpanNameProvider(prefix: Option<string>)
    | OperationCollectionSpanNameProvider
  {
    /**
     * `generateName(String)`. The operation-collection provider inherits the
     * no-op one's, and only overrides the event overload.
     */
    function GenerateName(operationName: Option<string>): string {
      match this
      case NoopSpanNameProvider => OperationName(operationName)
      case PrefixSpanNameProvider(prefix) => prefix.GetOr("") + OperationName(operationName)
      case OperationCollectionSpanNameProvider => OperationName(operationName)
    }
  }

  /** `OPERATION_NAME` returns a non-null name unchanged and `"unknown"` for `null`. */
  lemma OperationNameCases(operationName: Option<string>)
    ensures operationName.Some? ==> OperationName(operationName) == operationName.value
    ensures operationName.None? ==> OperationName(operationName) == "unknown"
  {
  }

  /** `PREFIX_OPERATION_NAME(p)` puts `p` in front of `OPERATION_NAME`, and nothing else. */
  lemma PrefixOperationNameShape(prefix: string, operationName: Option<string>)
    ensures var r := PrefixOperationName(Some(prefix))(operationName);
      && r == prefix + OperationName(operationName)
      && |r| == |prefix| + |OperationName(operationName)|
      && r[..|prefix|] == prefix
  {
  }

  /** `PREFIX_OPERATION_NAME(null)` is `OPERATION_NAME`. */
  lemma {:induction false} PrefixOperationNameNull(operationName: Option<string>)
    ensures PrefixOperationName(None)(operationName) == OperationName(operationName)
  {
    assert "" + OperationName(operationName) == OperationName(operationName);
  }

  /** The no-op provider is `OPERATION_NAME`, and never returns `null` or an empty name for a non-empty input. */
  lemma NoopIsOperationName(operationName: Option<string>)
    ensures NoopSpanNameProvider.GenerateName(operationName) == OperationName(operationName)
    ensures operationName.Some? ==> NoopSpanNameProvider.GenerateName(operationName) == operationName.value
    ensures operationName.None? ==> NoopSpanNameProvider.GenerateName(operationName) == NoOperation
  {
  }

  /** The no-op provider is idempotent. */
  lemma NoopIdempotent(operationName: Option<string>)
    ensures var once := NoopSpanNameProvider.GenerateName(operationName);
      NoopSpanNameProvider.GenerateName(Some(once)) == once
  {
  }

  /** The prefix provider is `PREFIX_OPERATION_NAME` over the same prefix. */
  lemma PrefixIsPrefixOperationName(prefix: Option<string>, operationName: Option<string>)
    ensures PrefixSpanNameProvider(prefix).GenerateName(operationName) == PrefixOperationName(prefix)(operationName)
  {
  }

  /** The prefix provider's name starts with the prefix (`""` for `null`), followed by the no-op name. */
  lemma PrefixShape(prefix: Option<string>, operationName: Option<string>)
    ensures var r := PrefixSpanNameProvider(prefix).GenerateName(operationName);
      && r[..|prefix.GetOr("")|] == prefix.GetOr("")
      && r[|prefix.GetOr("")|..] == NoopSpanNameProvider.GenerateName(operationName)
  {
  }

  /** With a `null` or empty prefix the prefix provider is the no-op provider. */
  lemma {:induction false} PrefixWithoutPrefixIsNoop(prefix: Option<string>, operationName: Option<string>)
    requires prefix == None || prefix == Some("")
    ensures PrefixSpanNameProvider(prefix).GenerateName(operationName) == NoopSpanNameProvider.GenerateName(operationName)
  {
    assert "" + OperationName(operationName) == OperationName(operationName);
  }

  /** The cases the no-op provider's unit test checks. */
  lemma NoopExamples()
    ensures NoopSpanNameProvider.GenerateName(Some("insert")) == "insert"
    ensures NoopSpanNameProvider.GenerateName(None) == "unknown"
  {
  }

  /** The cases the prefix provider's unit test checks. */
  lemma PrefixExamples()
    ensures PrefixSpanNameProvider(Some("mongo.")).GenerateName(Some("insert")) == "mongo.insert"
    ensures PrefixSpanNameProvider(Some("mongo.")).GenerateName(None) == "mongo.unknown"
    ensures PrefixSpanNameProvider(None).GenerateName(Some("insert")) == "insert"
  {
  }

  // ---------------------------------------------------------------------
  // OperationCollectionSpanNameProvider.generateName(CommandStartedEvent)

  /** What reading the first key's value with `getString(...).getValue()` can throw. */
  datatype BsonException =
    | NoSuchElement            // `getFirstKey()` of an empty document
    | BsonInvalidOperation     // `getString` on a value that is not a string

  /**
   * The event overload exactly as written: the first key's value is read
   * with `getString`, which throws for an empty document or a value that
   * is not a string.
   */
  function CollectionNameAsWritten(event: Option<StartedEvent>): (r: Result<string, BsonException>)
  {
    match event
    case None => Success(NoOperation)
    case Some(e) =>
      match e.command.FirstValue()
      case None => Failure(NoSuchElement)
      case Some(Str(col)) => Success(OperationName(Some(e.commandName)) + " " + col)
      case Some(_) => Failure(BsonInvalidOperation)
  }

  /**
   * The event overload as its unit test expects it: the first key's value is
   * appended only when it is a string; otherwise the base name is returned.
   */
  function CollectionName(event: Option<StartedEvent>): string {
    match event
    case None => NoOperation
    case Some(e) =>
      var base := OperationName(Some(e.commandName));
      match e.command.FirstValue()
      case Some(Str(col)) => base + " " + col
      case _ => base
  }

  /** A `null` event is named `"unknown"`. */
  lemma CollectionNameNull()
    ensures CollectionName(None) == NoOperation
  {
  }

  /** A string first value `s` gives `commandName + " " + s`; any other gives the command name alone. */
  lemma CollectionNameCases(e: StartedEvent)
    ensures e.command.FirstValue().Some? && e.command.FirstValue().value.Str? ==>
      CollectionName(Some(e)) == e.commandName + " " + e.command.FirstValue().value.s
    ensures !(e.command.FirstValue().Some? && e.command.FirstValue().value.Str?) ==>
      CollectionName(Some(e)) == e.commandName
  {
  }

  /** For a non-null event the name always starts with the command name. */
  lemma CollectionNameStartsWithBase(e: StartedEvent)
    ensures |e.commandName| <= |CollectionName(Some(e))|
    ensures CollectionName(Some(e))[..|e.commandName|] == e.commandName
  {
  }

  /**
   * Only the first field counts: two commands that agree on their first key
   * and its value get the same name, whatever their other fields.
   */
  lemma CollectionNameFirstKeyOnly(e: StartedEvent, f: StartedEvent)
    requires e.commandName == f.commandName
    requires e.command.FirstValue() == f.command.FirstValue()
    ensures CollectionName(Some(e)) == CollectionName(Some(f))
  {
  }

  /** Wherever the code as written returns, it agrees with the tested behaviour. */
  lemma CollectionNameAgrees(event: Option<StartedEvent>)
    ensures CollectionNameAsWritten(event).Success? ==> CollectionNameAsWritten(event).value == CollectionName(event)
  {
  }

  /** The command `{insert: "collection-name"}`. */
  function InsertEvent(): StartedEvent {
    StartedEvent(1, "insert", Singleton("insert", Str("collection-name")),
      "{\"insert\": \"collection-name\"}", "database-name",
      ServerAddress("127.0.0.1", 27017, V4([127, 0, 0, 1])))
  }

  /** The command `{buildInfo: 1, $db: "database-name"}`. */
  function BuildInfoEvent(): StartedEvent {
    StartedEvent(44, "buildInfo",
      Append(Singleton("buildInfo", Int32(1)), "$db", Str("database-name")),
      "{\"buildInfo\": 1, \"$db\": \"database-name\"}", "database-name",
      ServerAddress("127.0.0.1", 27017, V4([127, 0, 0, 1])))
  }

  /** The unit tests' expectations hold of the tested behaviour. */
  lemma CollectionNameExamples()
    ensures CollectionName(Some(InsertEvent())) == "insert collection-name"
    ensures CollectionName(Some(BuildInfoEvent())) == "buildInfo"
    ensures CollectionName(None) == "unknown"
  {
  }

  /** The code as written throws on the `buildInfo` command, where the test expects `"buildInfo"`. */
  lemma CollectionNameAsWrittenThrows()
    ensures CollectionNameAsWritten(Some(BuildInfoEvent())) == Failure(BsonInvalidOperation)
    ensures CollectionNameAsWritten(Some(InsertEvent())) == Success("insert collection-name")
  {
    assert InsertEvent().command.FirstValue() == Some(Str("collection-name"));
    assert "insert" + " " + "collection-name" == "insert collection-name";
  }
}
