/**
 * The original `TracingCommandListener`: the same correlation cache without
 * exclusion rules or decorator list; every started command gets a span, tagged by the
 * fixed `decorate` and, on failure, `onError`.
 */
module LegacyListener {
  import opened Wrappers
  import opened Bson
  import opened Spans
  import opened NameProviders
  import Decorators
  import Ipv4

  class TracingCommandListener {
    const spanNameProvider: NameProvider
    /** Cache for (request id, span) pairs. */
    var cache: map<int, Span>

    /** Every cached span is in flight, and no span is cached under two ids. */
    ghost predicate Valid()
      reads this, cache.Values
    {
      && (forall id :: id in cache ==> !cache[id].finished)
      && (forall a, b :: a in cache && b in cache && a != b ==> cache[a] != cache[b])
    }

    /** `TracingCommandListener(tracer)`: names spans with the no-op provider. */
    constructor ()
      ensures Valid() && cache == map[] && spanNameProvider == NoopSpanNameProvider
    {
      spanNameProvider := NoopSpanNameProvider;
      cache := map[];
    }

    /** `TracingCommandListener(tracer, customNameProvider)`. */
    constructor WithProvider(customNameProvider: NameProvider)
      ensures Valid() && cache == map[] && spanNameProvider == customNameProvider
    {
      spanNameProvider := customNameProvider;
      cache := map[];
    }

    /** `buildSpan`: a new client span, named by the provider and decorated. */
    method BuildSpan(event: StartedEvent) returns (span: Span)
      ensures fresh(span)
      ensures span.operationName == spanNameProvider.GenerateName(Some(event.commandName))
      ensures span.tags == Decorators.DefaultStartedSpanTags(event)
      ensures span.logs == [] && !span.finished
    {
      span := new Span.Start(spanNameProvider.GenerateName(Some(event.commandName)));
      Decorate(span, event);
    }

    /**
     * `decorate`: component, statement, instance, host name, the IPv4 or IPv6
     * address, port and `db.type`, in that order: the same writes as the
     * default decorator's start hook.
     */
    static method Decorate(span: Span, event: StartedEvent)
      requires !span.finished
      modifies span
      ensures span.tags == WriteTags(old(span.tags), Decorators.DefaultStartedTags(event))
      ensures span.logs == old(span.logs) && !span.finished
    {
      ghost var tags0 := span.tags;
      ghost var done: seq<Tag> := [];
      assert span.tags == WriteTags(tags0, done);
      span.SetTag(ComponentKey, TStr(Decorators.ComponentName));
      WriteTagsSnoc(tags0, done, Tag(ComponentKey, TStr(Decorators.ComponentName)));
      done := done + [Tag(ComponentKey, TStr(Decorators.ComponentName))];
      span.SetTag(DbStatementKey, TStr(event.commandText));
      WriteTagsSnoc(tags0, done, Tag(DbStatementKey, TStr(event.commandText)));
      done := done + [Tag(DbStatementKey, TStr(event.commandText))];
      span.SetTag(DbInstanceKey, TStr(event.databaseName));
      WriteTagsSnoc(tags0, done, Tag(DbInstanceKey, TStr(event.databaseName)));
      done := done + [Tag(DbInstanceKey, TStr(event.databaseName))];
      span.SetTag(PeerHostnameKey, TStr(event.server.host));
      WriteTagsSnoc(tags0, done, Tag(PeerHostnameKey, TStr(event.server.host)));
      done := done + [Tag(PeerHostnameKey, TStr(event.server.host))];
      match event.server.address {
        case V4(bytes) =>
          span.SetTag(PeerIpv4Key, TInt(Ipv4.Pack(bytes)));
        case V6(text) =>
          span.SetTag(PeerIpv6Key, TStr(text));
      }
      WriteTagsSnoc(tags0, done, Decorators.AddressTag(event.server.address));
      done := done + [Decorators.AddressTag(event.server.address)];
      span.SetTag(PeerPortKey, TInt(event.server.port));
      WriteTagsSnoc(tags0, done, Tag(PeerPortKey, TInt(event.server.port)));
      done := done + [Tag(PeerPortKey, TInt(event.server.port))];
      span.SetTag(DbTypeKey, TStr(Decorators.DbType));
      WriteTagsSnoc(tags0, done, Tag(DbTypeKey, TStr(Decorators.DbType)));
      done := done + [Tag(DbTypeKey, TStr(Decorators.DbType))];
      assert done == Decorators.DefaultStartedTags(event);
    }

    /** `onError`: tags `error=true` and logs the error record. */
    static method OnError(span: Span, throwable: Throwable)
      requires !span.finished
      modifies span
      ensures span.tags == old(span.tags)[ErrorKey := TBool(true)]
      ensures span.logs == old(span.logs) + [Decorators.ErrorLog(throwable)] && !span.finished
    {
      span.SetTag(ErrorKey, TBool(true));
      var errorLogs := Decorators.ErrorLogs(throwable);
      span.Log(errorLogs);
    }

    /**
     * `commandStarted`: always puts a new span under the request id,
     * replacing any span cached there; no other entry changes.
     */
    method CommandStarted(event: StartedEvent)
      requires Valid()
      modifies this
      ensures Valid()
      ensures event.requestId in cache && fresh(cache[event.requestId])
      ensures cache == old(cache)[event.requestId := cache[event.requestId]]
      ensures cache[event.requestId].operationName == spanNameProvider.GenerateName(Some(event.commandName))
      ensures cache[event.requestId].tags == Decorators.DefaultStartedSpanTags(event)
      ensures cache[event.requestId].logs == []
    {
      var span := BuildSpan(event);
      cache := cache[event.requestId := span];
    }

    /**
     * `commandSucceeded`: removes the request id and finishes the span that
     * was cached under it, leaving its tags and logs; an id that is not
     * cached is a no-op.
     */
    method CommandSucceeded(event: SucceededEvent)
      requires Valid()
      modifies this, if event.requestId in cache then {cache[event.requestId]} else {}
      ensures Valid()
      ensures cache == old(cache) - {event.requestId}
      ensures event.requestId in old(cache) ==>
        var span := old(cache[event.requestId]);
        span.finished && span.tags == old(span.tags) && span.logs == old(span.logs)
    {
      var span := Remove(event.requestId);
      if span != null {
        span.Finish();
      }
    }

    /**
     * `commandFailed`: removes the request id and, if a span was cached under
     * it, tags it `error=true`, logs the error once and finishes it; an id
     * that is not cached is a no-op.
     */
    method CommandFailed(event: FailedEvent)
      requires Valid()
      modifies this, if event.requestId in cache then {cache[event.requestId]} else {}
      ensures Valid()
      ensures cache == old(cache) - {event.requestId}
      ensures event.requestId in old(cache) ==>
        var span := old(cache[event.requestId]);
        && span.finished
        && span.tags == old(span.tags)[ErrorKey := TBool(true)]
        && span.logs == old(span.logs) + [Decorators.ErrorLog(event.throwable)]
    {
      var span := Remove(event.requestId);
      if span != null {
        OnError(span, event.throwable);
        span.Finish();
      }
    }

    /** `cache.remove(requestId)`: the span that was cached under the id, or `null`. */
    method Remove(requestId: int) returns (span: Span?)
      requires Valid()
      modifies this
      ensures cache == old(cache) - {requestId}
      ensures span == (if requestId in old(cache) then old(cache)[requestId] else null)
      ensures span != null ==> !span.finished && forall id :: id in cache ==> cache[id] != span
      ensures Valid()
    {
      if requestId in cache {
        span := cache[requestId];
      } else {
        span := null;
      }
      cache := cache - {requestId};
    }
  }

  /**
   * The legacy listener's unit tests: without a provider the span is named
   * by `OPERATION_NAME`, with `PREFIX_OPERATION_NAME("mongo.")` by that.
   */
  method NamingScenario(e: StartedEvent) returns (plain: string, prefixed: string)
    ensures plain == OperationName(Some(e.commandName))
    ensures prefixed == PrefixOperationName(Some("mongo."))(Some(e.commandName))
  {
    var withoutProvider := new TracingCommandListener();
    var withProvider := new TracingCommandListener.WithProvider(PrefixSpanNameProvider(Some("mongo.")));
    var span := withoutProvider.BuildSpan(e);
    plain := span.operationName;
    span := withProvider.BuildSpan(e);
    prefixed := span.operationName;
  }
}
