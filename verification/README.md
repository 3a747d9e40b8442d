# Tracing MongoDB commands: a Dafny model of the OpenTracing command listener

The repository instruments the MongoDB Java driver. A `TracingCommandListener`
receives the driver's three command callbacks. `commandStarted` decides whether
the command is excluded. If it is not, the listener names a span, starts it,
decorates it and caches it under the command's request id. `commandSucceeded`
and `commandFailed` remove that id from the cache and, if a span was there,
decorate and finish it.

The model covers:

- **Correlation cache** (`CommonListener`, `LegacyListener`). Each listener is a
  class whose `cache: map<int, Span>` is updated in place. Its `Valid()`
  invariant says that every cached span is still unfinished and that no span is
  cached under two ids. A finished span accepts no further `setTag`, `log` or
  `finish` call, so the verifier checks that each span is finished at most once
  and never written after that. The modular listener and the legacy listener
  (which has no exclusion step and fixed decoration) are two variants of the
  same class, one per module.
- **Exclusion matcher** (`Exclusion`). The nested loops of `buildSpan`, with
  the `skip` flag and the early `break` and `return`, are proved equal to a
  pure predicate over the command document. The inner loop walks a rule's
  fields in no fixed order, as a `HashMap` iteration does.
- **Span names** (`NameProviders`). These are the `OPERATION_NAME` and
  `PREFIX_OPERATION_NAME` function objects, the no-op and prefix providers, and
  the operation-plus-collection provider. A Java `null` is `None`.
- **Decorators** (`Decorators`, `Ipv4`). This covers the three-hook
  `SpanDecorator` interface, the default decorator, decorator lists run in
  order, and the packing of IPv4 addresses into a big-endian signed 32-bit
  `int`.
- **Tracing backend** (`Spans`). A span is an object with an operation name, a
  tag map, a list of log records and a finished flag. Starting one is
  `new Span.Start(name)`, which also sets the tag `span.kind=client`.

Two behaviours of the code are worth stating outright:

- A rule with no fields leaves `skip` set, so it excludes every command
  (`Exclusion.EmptyRuleExcludesAll`).
- `OperationCollectionSpanNameProviderTest.java:54-56` expects the bare command
  name when the first value is not a string, but the code as written throws
  (see Findings).

The modular listener in the repository hard-codes `decorate` and `onError`,
but its tests build it with `Builder.withSpanDecorators` and expect success
and failure hooks to run. The model follows the `SpanDecorator` interface and
those tests: the listener runs a decorator list, and the default list is the
default decorator alone. The bodies of the hard-coded `decorate` and
`onError` (`TracingCommandListener.java:161-185`) are the same statements as
the default decorator's start and failure hooks (`SpanDecorator.java:46-75`),
so the model defines those writes once, in `Decorators.DefaultStartedTags` and
`Decorators.ErrorLog`. `CommonListener.DefaultChainIsDecorate` proves that the
default list makes exactly those writes: the default start tags, nothing on
success, and `error=true` plus one error record on failure. The legacy
listener's `decorate` is written out call by call
(`LegacyListener.TracingCommandListener.Decorate`) and is proved to make the
same writes.

## Model

| member | source | states |
|---|---|---|
| `NameProviders.OperationNameCases` | src/main/java/io/opentracing/contrib/mongo/MongoSpanNameProvider.java:22 | `OPERATION_NAME` returns a non-null name unchanged and `"unknown"` for null |
| `NameProviders.PrefixOperationNameShape` | src/main/java/io/opentracing/contrib/mongo/MongoSpanNameProvider.java:24-28 | `PREFIX_OPERATION_NAME(p)(n)` is `p + OPERATION_NAME(n)`: it starts with `p`, and its length is `|p|` plus the length of the unprefixed name |
| `NameProviders.PrefixOperationNameNull` | src/main/java/io/opentracing/contrib/mongo/MongoSpanNameProvider.java:26 | `PREFIX_OPERATION_NAME(null)` behaves exactly like `OPERATION_NAME` |
| `NameProviders.NoopIsOperationName` | src/main/java/io/opentracing/contrib/mongo/providers/NoopSpanNameProvider.java:6-7 | the no-op provider is `OPERATION_NAME`: the name itself, or `"unknown"` for null, never null |
| `NameProviders.NoopIdempotent` | src/main/java/io/opentracing/contrib/mongo/providers/NoopSpanNameProvider.java:7 | applying the no-op provider to its own result gives the same result |
| `NameProviders.PrefixIsPrefixOperationName` | src/main/java/io/opentracing/contrib/mongo/providers/PrefixSpanNameProvider.java:13-17 | the prefix provider with a given prefix agrees with `PREFIX_OPERATION_NAME` of that prefix on every name |
| `NameProviders.PrefixShape` | src/main/java/io/opentracing/contrib/mongo/providers/PrefixSpanNameProvider.java:15-16 | the result is the prefix (`""` for null) followed by the no-op name of the argument |
| `NameProviders.PrefixWithoutPrefixIsNoop` | src/main/java/io/opentracing/contrib/mongo/providers/PrefixSpanNameProvider.java:15-16 | with a null or empty prefix the prefix provider is the no-op provider |
| `NameProviders.NoopExamples` | src/test/java/io/opentracing/contrib/mongo/providers/NoopSpanNameProviderTest.java:11-19 | `"insert"`→`"insert"` and null→`"unknown"` |
| `NameProviders.PrefixExamples` | src/test/java/io/opentracing/contrib/mongo/providers/PrefixSpanNameProviderTest.java:11-24 | with prefix `"mongo."`: `"insert"`→`"mongo.insert"` and null→`"mongo.unknown"`; with a null prefix `"insert"`→`"insert"` |
| `NameProviders.CollectionNameNull` | opentracing-mongo-common/src/main/java/io/opentracing/contrib/mongo/common/providers/OperationCollectionSpanNameProvider.java:23-25 | a null event is named `"unknown"` |
| `NameProviders.CollectionNameCases` | opentracing-mongo-common/src/main/java/io/opentracing/contrib/mongo/common/providers/OperationCollectionSpanNameProvider.java:26-28 | a first value that is the string `s` gives `commandName + " " + s`; any other first value, or no first value, gives the command name alone |
| `NameProviders.CollectionNameStartsWithBase` | opentracing-mongo-common/src/main/java/io/opentracing/contrib/mongo/common/providers/OperationCollectionSpanNameProvider.java:28 | for a non-null event the name starts with the command name |
| `NameProviders.CollectionNameFirstKeyOnly` | opentracing-mongo-common/src/main/java/io/opentracing/contrib/mongo/common/providers/OperationCollectionSpanNameProvider.java:27 | two events with the same command name and the same first value get the same name, whatever their other fields (such as `$db`) |
| `NameProviders.CollectionNameAgrees` | opentracing-mongo-common/src/main/java/io/opentracing/contrib/mongo/common/providers/OperationCollectionSpanNameProvider.java:23-28 | wherever the code as written returns a name, it is the name of the tested behaviour |
| `NameProviders.CollectionNameExamples` | opentracing-mongo-common/src/test/java/io/opentracing/contrib/mongo/common/providers/OperationCollectionSpanNameProviderTest.java:32-56 | `{insert: "collection-name"}` → `"insert collection-name"`, `{buildInfo: 1, $db: …}` → `"buildInfo"`, null → `"unknown"` |
| `NameProviders.CollectionNameAsWrittenThrows` | opentracing-mongo-common/src/main/java/io/opentracing/contrib/mongo/common/providers/OperationCollectionSpanNameProvider.java:27 | the code as written throws on the `buildInfo` command, and succeeds with `"insert collection-name"` on the insert |
| `Exclusion.ShouldExclude` | opentracing-mongo-common/src/main/java/io/opentracing/contrib/mongo/common/TracingCommandListener.java:132-149 | the loops with `skip`, `break` and early `return` answer true exactly when some rule has every field present in the command, each with the rule's value or the `Null` wildcard |
| `Exclusion.NoRulesExcludeNothing` | opentracing-mongo-common/src/main/java/io/opentracing/contrib/mongo/common/TracingCommandListener.java:90-92 | the default, empty rule list excludes no command |
| `Exclusion.EmptyRuleExcludesAll` | opentracing-mongo-common/src/main/java/io/opentracing/contrib/mongo/common/TracingCommandListener.java:134-148 | a rule with no fields leaves `skip` set and excludes every command |
| `Exclusion.ExcludedAppend` | opentracing-mongo-common/src/main/java/io/opentracing/contrib/mongo/common/TracingCommandListener.java:132-149 | a concatenated rule list excludes a command exactly when one of its two parts does |
| `Exclusion.WildcardWeakens` | opentracing-mongo-common/src/main/java/io/opentracing/contrib/mongo/common/TracingCommandListener.java:140-141 | replacing a rule's value by the `Null` wildcard keeps every command it matched matched |
| `Exclusion.MoreFieldsMatchLess` | opentracing-mongo-common/src/main/java/io/opentracing/contrib/mongo/common/TracingCommandListener.java:135-139 | a command matched by a rule is matched by the rule without one of its fields |
| `Exclusion.ExcludeInsertExample` | opentracing-mongo-driver/src/test/java/io/opentracing/contrib/mongo/MongoTest.java:103-123 | the rule `{insert: "testCol"}` excludes an insert into `testCol` |
| `Exclusion.OtherCollectionExample` | opentracing-mongo-common/src/main/java/io/opentracing/contrib/mongo/common/TracingCommandListener.java:140-141 | a rule for another collection does not exclude that insert |
| `Exclusion.WildcardExample` | opentracing-mongo-common/src/main/java/io/opentracing/contrib/mongo/common/TracingCommandListener.java:140-141 | a wildcard rule `{insert: null}` after a non-matching `{find: null}` still excludes the insert |
| `Exclusion.GetMoreExcludedExample` | opentracing-mongo-driver/src/test/java/io/opentracing/contrib/mongo/MongoTest.java:129-134 | with the test's three rules, the mixed rule `{getMore: null, collection: "testCol"}` excludes a `getMore` on `testCol` for every cursor id |
| `Exclusion.GetMoreOtherCollectionExample` | opentracing-mongo-driver/src/test/java/io/opentracing/contrib/mongo/MongoTest.java:129-134 | the same three rules let a `getMore` on another collection through: the exact half of the mixed rule still has to match |
| `Exclusion.InsertExcludedByAllExample` | opentracing-mongo-driver/src/test/java/io/opentracing/contrib/mongo/MongoTest.java:132 | the same three rules exclude the insert into `testCol` through the first rule |
| `Ipv4.UnpackPack` | opentracing-mongo-common/src/main/java/io/opentracing/contrib/mongo/common/SpanDecorator.java:58-59 | unpacking the `peer.ipv4` value, read big-endian as a signed 32-bit int, gives back the four address bytes |
| `Ipv4.PackUnpack` | opentracing-mongo-common/src/main/java/io/opentracing/contrib/mongo/common/SpanDecorator.java:59 | every 32-bit int is the packing of the bytes it unpacks to |
| `Ipv4.PackInjective` | opentracing-mongo-common/src/main/java/io/opentracing/contrib/mongo/common/SpanDecorator.java:59 | distinct addresses get distinct `peer.ipv4` values |
| `Ipv4.PackSign` | opentracing-mongo-common/src/main/java/io/opentracing/contrib/mongo/common/SpanDecorator.java:59 | the value is negative exactly when the first byte is 128 or more (two's complement) |
| `Ipv4.PackExamples` | opentracing-mongo-common/src/main/java/io/opentracing/contrib/mongo/common/SpanDecorator.java:59 | 127.0.0.1 → 2130706433, 192.168.0.1 → -1062731775, 255.255.255.255 → -1 |
| `Spans.ClientSpanTags` | opentracing-mongo-common/src/main/java/io/opentracing/contrib/mongo/common/TracingCommandListener.java:151-155 | a span starts with the single tag `span.kind=client` |
| `Spans.WriteTagsLastWins` | opentracing-mongo-common/src/test/java/io/opentracing/contrib/mongo/common/TracingCommandListenerTest.java:114-116 | after a sequence of `setTag` calls, a key holds the value of its last write |
| `Spans.WriteTagsUntouched` | opentracing-mongo-driver/src/test/java/io/opentracing/contrib/mongo/MongoTest.java:175-177 | a key that no call writes keeps its old value, or stays absent |
| `Decorators.ErrorLog` | opentracing-mongo-common/src/main/java/io/opentracing/contrib/mongo/common/SpanDecorator.java:77-90 | the error record has exactly the keys `event`, `error.kind`, `error.object`, `message`, `stack`; `event` is `"error"`, and the others hold the class name, the throwable, its message (or null) and its stack trace |
| `Decorators.ErrorLogs` | opentracing-mongo-common/src/main/java/io/opentracing/contrib/mongo/common/TracingCommandListener.java:187-200 | filling the record one `put` at a time yields that record |
| `Decorators.CommandStarted` | opentracing-mongo-common/src/main/java/io/opentracing/contrib/mongo/common/SpanDecorator.java:46-66 | a start hook makes exactly its decorator's `setTag` calls, in order, and logs nothing |
| `Decorators.CommandSucceeded` | opentracing-mongo-common/src/main/java/io/opentracing/contrib/mongo/common/SpanDecorator.java:68-69 | a success hook makes exactly its decorator's calls; the default one makes none |
| `Decorators.CommandFailed` | opentracing-mongo-common/src/main/java/io/opentracing/contrib/mongo/common/SpanDecorator.java:71-75 | a failure hook makes its decorator's calls; the default one sets `error=true` and appends one error record |
| `Decorators.RunHooks` | opentracing-mongo-common/src/main/java/io/opentracing/contrib/mongo/common/SpanDecorator.java:32-42 | one hook of every decorator runs in list order; the span's tags and logs are those of the chain, and the span stays unfinished |
| `Decorators.DefaultStartedSpan` | opentracing-mongo-common/src/main/java/io/opentracing/contrib/mongo/common/SpanDecorator.java:46-66 | after the default start hook the span holds exactly `span.kind`, `component="java-mongo"`, `db.statement`, `db.instance`, `peer.hostname`, `peer.port`, `db.type="mongo"` and exactly one of `peer.ipv4` (the packed address) or `peer.ipv6`, chosen by address family |
| `Decorators.DefaultSucceededChangesNothing` | opentracing-mongo-common/src/main/java/io/opentracing/contrib/mongo/common/SpanDecorator.java:69 | the default success hook leaves tags and logs unchanged |
| `Decorators.DefaultFailedEffect` | opentracing-mongo-common/src/main/java/io/opentracing/contrib/mongo/common/SpanDecorator.java:72-75 | the default failure hook sets only `error=true` and adds exactly one log record, the error record |
| `Decorators.LaterDecoratorWins` | opentracing-mongo-common/src/test/java/io/opentracing/contrib/mongo/common/TracingCommandListenerTest.java:110-117 | in a decorator list, a key ends with the value of the last write by the last decorator that writes it |
| `Decorators.OtherCompletionNotRun` | opentracing-mongo-driver/src/test/java/io/opentracing/contrib/mongo/MongoTest.java:159-204 | a key written only by the hooks of the other completion is absent from the completed span |
| `Decorators.CustomDecoratorOrder` | opentracing-mongo-common/src/test/java/io/opentracing/contrib/mongo/common/TracingCommandListenerTest.java:62-79 | with `[DEFAULT, foo]` the span ends with `component="FOO"` and `FOO="FOO"` |
| `Decorators.SuccessRunsOnlySuccessHooks` | opentracing-mongo-driver/src/test/java/io/opentracing/contrib/mongo/MongoTest.java:159-179 | a command that succeeds has `FOO` and `BAR` and no `BAZ` |
| `Decorators.FailureRunsOnlyFailureHooks` | opentracing-mongo-driver/src/test/java/io/opentracing/contrib/mongo/MongoTest.java:181-204 | a command that fails has `FOO` and `BAZ` and no `BAR` |
| `CommonListener.InFlightIff` | opentracing-mongo-common/src/main/java/io/opentracing/contrib/mongo/common/TracingCommandListener.java:106-129 | after any sequence of callbacks, an id has a span in flight exactly when it had one initially or got one from a non-excluded start, and no completion for it came afterwards; excluded starts and completions without a start change nothing |
| `CommonListener.DefaultChainIsDecorate` | opentracing-mongo-common/src/main/java/io/opentracing/contrib/mongo/common/TracingCommandListener.java:161-185 | the default decorator list does exactly what the hard-coded `decorate` and `onError` do |
| `CommonListener.TracingCommandListener.constructor` | opentracing-mongo-common/src/main/java/io/opentracing/contrib/mongo/common/TracingCommandListener.java:98-103 | the listener keeps the provider, copies the rule list and starts with an empty cache |
| `CommonListener.TracingCommandListener.BuildSpan` | opentracing-mongo-common/src/main/java/io/opentracing/contrib/mongo/common/TracingCommandListener.java:131-159 | null exactly for an excluded command; otherwise a new unfinished span named `provider.generateName(commandName)`, tagged `span.kind=client` and then by every start hook |
| `CommonListener.TracingCommandListener.CommandStarted` | opentracing-mongo-common/src/main/java/io/opentracing/contrib/mongo/common/TracingCommandListener.java:106-112 | an excluded command leaves the cache unchanged; otherwise `cache[requestId]` becomes the new span, overwriting any old entry, and every other entry is unchanged |
| `CommonListener.TracingCommandListener.CommandSucceeded` | opentracing-mongo-common/src/main/java/io/opentracing/contrib/mongo/common/TracingCommandListener.java:114-120 | the id is removed; a span cached under it gets the success hooks and is finished; only that span and that entry change, and an absent id is a no-op |
| `CommonListener.TracingCommandListener.CommandFailed` | opentracing-mongo-common/src/main/java/io/opentracing/contrib/mongo/common/TracingCommandListener.java:122-129 | the id is removed; a span cached under it gets the failure hooks and is finished; only that span and that entry change, and an absent id is a no-op |
| `CommonListener.TracingCommandListener.Remove` | opentracing-mongo-common/src/main/java/io/opentracing/contrib/mongo/common/TracingCommandListener.java:116 | remove-and-return: the removed span, or null, and the cache without the id; the span is unfinished and no longer cached |
| `CommonListener.TracingCommandListener.Deliver` | opentracing-mongo-common/src/main/java/io/opentracing/contrib/mongo/common/TracingCommandListener.java:41-53 | any sequence of driver callbacks keeps the cache invariant and leaves exactly the ids `InFlight` names in the cache |
| `CommonListener.Builder.constructor` | opentracing-mongo-common/src/main/java/io/opentracing/contrib/mongo/common/TracingCommandListener.java:61-62 | a new builder has no rules, provider or decorators set |
| `CommonListener.Builder.WithExcludedCommands` | opentracing-mongo-common/src/main/java/io/opentracing/contrib/mongo/common/TracingCommandListener.java:73-76 | the builder keeps a reference to the caller's rule list and nothing else changes |
| `CommonListener.Builder.WithSpanNameProvider` | opentracing-mongo-common/src/main/java/io/opentracing/contrib/mongo/common/TracingCommandListener.java:78-81 | sets the provider and nothing else |
| `CommonListener.Builder.WithSpanDecorators` | opentracing-mongo-common/src/test/java/io/opentracing/contrib/mongo/common/TracingCommandListenerTest.java:77-79 | sets the decorator list and nothing else |
| `CommonListener.Builder.Build` | opentracing-mongo-common/src/main/java/io/opentracing/contrib/mongo/common/TracingCommandListener.java:83-95 | fills in the defaults (no-op provider, empty rule list, default decorator), both in the builder and in a new listener with an empty cache |
| `CommonListener.ExcludedInsertScenario` | opentracing-mongo-driver/src/test/java/io/opentracing/contrib/mongo/MongoTest.java:103-123 | an excluded insert leaves no span in flight after its start and success callbacks |
| `CommonListener.DuplicateCompletionScenario` | opentracing-mongo-common/src/main/java/io/opentracing/contrib/mongo/common/TracingCommandListener.java:122-129 | a failure followed by a duplicate success leaves the span finished once, with the default tags, `error=true` and exactly one error record |
| `CommonListener.RuleCopyScenario` | opentracing-mongo-common/src/main/java/io/opentracing/contrib/mongo/common/TracingCommandListener.java:102 | replacing an element of the caller's rule list after `build()` does not change what the listener excludes, because the listener copied the list |
| `LegacyListener.TracingCommandListener.constructor` | src/main/java/io/opentracing/contrib/mongo/TracingCommandListener.java:50-53 | the one-argument constructor uses the no-op name provider and starts with an empty cache |
| `LegacyListener.TracingCommandListener.WithProvider` | src/main/java/io/opentracing/contrib/mongo/TracingCommandListener.java:55-58 | the two-argument constructor keeps the given provider |
| `LegacyListener.TracingCommandListener.BuildSpan` | src/main/java/io/opentracing/contrib/mongo/TracingCommandListener.java:83-91 | always a new unfinished span, named `provider.generateName(commandName)`, with `span.kind=client` and the default start tags, and no logs |
| `LegacyListener.TracingCommandListener.Decorate` | src/main/java/io/opentracing/contrib/mongo/TracingCommandListener.java:93-112 | `decorate` makes the default decorator's start calls: component, statement, instance, host name, IPv4 or IPv6, port, `db.type` |
| `LegacyListener.TracingCommandListener.OnError` | src/main/java/io/opentracing/contrib/mongo/TracingCommandListener.java:114-132 | `onError` sets `error=true` and appends the five-field error record once |
| `LegacyListener.TracingCommandListener.CommandStarted` | src/main/java/io/opentracing/contrib/mongo/TracingCommandListener.java:60-64 | with no exclusion, `cache[requestId]` always becomes a new span, overwriting any old entry; other entries are unchanged |
| `LegacyListener.TracingCommandListener.CommandSucceeded` | src/main/java/io/opentracing/contrib/mongo/TracingCommandListener.java:66-72 | removes the id and finishes the cached span with its tags and logs unchanged; an absent id is a no-op |
| `LegacyListener.TracingCommandListener.CommandFailed` | src/main/java/io/opentracing/contrib/mongo/TracingCommandListener.java:74-81 | removes the id; a cached span gets `error=true` and one error record and is finished; an absent id is a no-op |
| `LegacyListener.TracingCommandListener.Remove` | src/main/java/io/opentracing/contrib/mongo/TracingCommandListener.java:68 | remove-and-return of the cache entry, leaving the returned span unfinished and no longer cached |
| `LegacyListener.NamingScenario` | src/test/java/io/opentracing/contrib/mongo/TracingCommandListenerTest.java:62-74 | the span names of the two constructors are `OPERATION_NAME` and `PREFIX_OPERATION_NAME("mongo.")` of the command name |

## Left out

- The tracer handle, `GlobalTracer.get()` as the builder's fallback (`TracingCommandListener.java:84-86`) and parenting under the active span are left out. Starting a span is allocating a `Span` object.
- The backend's own span implementation, reporting and timing are left out. A span is its name, tags, logs and finished flag.
- Concurrency is left out. The `ConcurrentHashMap` is a map updated sequentially, and its atomic remove-and-return is one step of a method.
- Opaque renderings are carried in the events as strings, not computed. This covers `BsonDocument.toString()` (`commandText`), `getClass().getName()`, `getMessage()`, `printStackTrace` and `InetAddress.getHostAddress()`.
- DNS and socket resolution are left out. The server address is given as `V4(bytes)` or `V6(text)`.
- The common package's `NoopSpanNameProvider`, `PrefixSpanNameProvider` and `MongoSpanNameProvider` interface are not part of this model. They are taken to be the legacy ones, so the event overload that `OperationCollectionSpanNameProvider` calls through `super` gives the no-op name of the command name.
- `ExcludedCommand` is not part of this model. It is taken to be a hash map from field name to BSON value.
- `CommonListener.TracingCommandListener.constructor`: a rule is a value (a map), so the listener's copy of the rule list also copies the rules. In the source, `new ArrayList<>(excludedCommands)` copies only the list. Caller and listener share each `ExcludedCommand` object, so a later `put` into a rule by the caller changes what the listener excludes. The model does not capture that sharing.
- A custom decorator is modelled as fixed tag writes per hook, which is what the tests register. A decorator that runs arbitrary code, logs or throws is left out.
- Isolation of a decorator that throws is left out. The source does not isolate one either.
- `NameProviders.CollectionName`: the case of a non-null event whose command document is null (`OperationCollectionSpanNameProvider.java:23`) is left out, because a modelled event always carries its document.
- `Exclusion.ShouldExclude`: every `Null` rule value counts as the `BsonNull.VALUE` wildcard. In the source the wildcard test is by reference, so a separately built `BsonNull` would only match a null field. A Java `null` rule value, which would throw, is left out.
- `Exclusion.ShouldExclude`: values other than null, booleans, 32- and 64-bit integers and strings (nested documents, arrays, the other BSON types) are compared through `Other(repr)`. `repr` stands for a canonical key whose equality is taken to be `BsonValue.equals`, so for a document the field order does not matter. The model does not compute that key from the value's contents.
- Request ids and ports are unbounded integers. They stand for Java `int`s but take part in no arithmetic, so no wrap-around can arise.
- The legacy unit test passes `MongoSpanNameProvider` function objects where the legacy constructor takes a provider object. The model passes providers and proves them equal to the function objects (`NameProviders.PrefixIsPrefixOperationName`, `NameProviders.NoopIsOperationName`).
- A span replaced in the cache by a second start with the same request id is dropped unfinished, as in the source. The model states this and does not report it as an error.
- The client wrapper classes are left out. They only forward calls and register the listener.

## Findings

| source | as written | input that shows it | evidently intended | confidence | as-written member | corrected member |
|---|---|---|---|---|---|---|
| opentracing-mongo-common/src/main/java/io/opentracing/contrib/mongo/common/providers/OperationCollectionSpanNameProvider.java:27 | `cmd.getString(cmd.getFirstKey())` throws `BsonInvalidOperationException` when the first value is not a string, and `NoSuchElementException` for an empty document | the command `{buildInfo: 1, $db: "database-name"}` named `buildInfo` | the base name `"buildInfo"` with no suffix, as `OperationCollectionSpanNameProviderTest.java:54-56` expects | not executed | `NameProviders.CollectionNameAsWritten` (shown by `NameProviders.CollectionNameAsWrittenThrows`) | `NameProviders.CollectionName` (proved by `NameProviders.CollectionNameCases` and `NameProviders.CollectionNameExamples`) |
