/**
 * The modular `TracingCommandListener` and its `Builder`: the correlation
 * cache from request id to in-flight span, fed by the driver's started,
 * succeeded and failed callbacks.
 */
module CommonListener {
  import opened Wrappers
  import opened Bson
  import opened Spans
  import opened Exclusion
  import opened NameProviders
  import opened Decorators

  /** One callback of the driver. */
  datatype Callback =
    | OnStarted(started: StartedEvent)
    | OnSucceeded(succeeded: SucceededEvent)
    | OnFailed(failed: FailedEvent)

  /** The callback puts a span under `id`: a start for `id` that no rule excludes. */
  predicate Opens(rules: seq<Rule>, c: Callback, id: int) {
    c.OnStarted? && c.started.requestId == id && !Excluded(rules, c.started.command)
  }

  /** The callback completes `id`. */
  predicate Completes(c: Callback, id: int) {
    || (c.OnSucceeded? && c.succeeded.requestId == id)
    || (c.OnFailed? && c.failed.requestId == id)
  }

  /** The request ids with a span in flight after `callbacks`, starting from `ids`. */
  function InFlight(ids: set<int>, rules: seq<Rule>, callbacks: seq<Callback>): set<int>
    decreases |callbacks|
  {
    if callbacks == [] then ids
    else
      var before := InFlight(ids, rules, callbacks[..|callbacks| - 1]);
      match callbacks[|callbacks| - 1]
      case OnStarted(e) => if Excluded(rules, e.command) then before else before + {e.requestId}
      case OnSucceeded(e) => before - {e.requestId}
      case OnFailed(e) => before - {e.requestId}
  }

  /**
   * An id is in flight exactly when its last traced start, or the initial
   * state, has not been followed by a completion for it: excluded starts and
   * completions without a start change nothing.
   */
  lemma {:induction false} InFlightIff(ids: set<int>, rules: seq<Rule>, callbacks: seq<Callback>, id: int)
    ensures id in InFlight(ids, rules, callbacks) <==>
      || (id in ids && forall j :: 0 <= j < |callbacks| ==> !Completes(callbacks[j], id))
      || (exists i :: 0 <= i < |callbacks| && Opens(rules, callbacks[i], id) &&
            forall j :: i < j < |callbacks| ==> !Completes(callbacks[j], id))
    decreases |callbacks|
  {
    if callbacks != [] {
      var n := |callbacks| - 1;
      var init := callbacks[..n];
      InFlightIff(ids, rules, init, id);
      assert forall j :: 0 <= j < n ==> init[j] == callbacks[j];
      if Opens(rules, callbacks[n], id) {
        assert id in InFlight(ids, rules, callbacks);
      } else if Completes(callbacks[n], id) {
        assert id !in InFlight(ids, rules, callbacks);
      } else {
        assert id in InFlight(ids, rules, callbacks) <==> id in InFlight(ids, rules, init);
        if exists i :: 0 <= i < |callbacks| && Opens(rules, callbacks[i], id) &&
            forall j :: i < j < |callbacks| ==> !Completes(callbacks[j], id) {
          var i :| 0 <= i < |callbacks| && Opens(rules, callbacks[i], id) &&
            forall j :: i < j < |callbacks| ==> !Completes(callbacks[j], id);
          assert i < n && Opens(rules, init[i], id);
        }
      }
    }
  }

  class TracingCommandListener {
    const excludedCommands: seq<Rule>
    const spanNameProvider: NameProvider
    const spanDecorators: seq<Decorator>
    /** Cache for (request id, span) pairs. */
    var cache: map<int, Span>

    /**
     * Every cached span is still in flight, and no span is cached under two
     * request ids: completing one id finishes one span, once.
     */
    ghost predicate Valid()
      reads this, cache.Values
    {
      && (forall id :: id in cache ==> !cache[id].finished)
      && (forall a, b :: a in cache && b in cache && a != b ==> cache[a] != cache[b])
    }

    /** The tags a span is started with for `event`. */
    function StartedTags(event: StartedEvent): map<string, TagValue> {
      WriteTags(ClientSpanTags(), ChainTags(spanDecorators, Started(event)))
    }

    /** The constructor copies the caller's list of rules. */
    constructor (customNameProvider: NameProvider, excluded: array<Rule>, decorators: seq<Decorator>)
      ensures Valid() && cache == map[]
      ensures spanNameProvider == customNameProvider && spanDecorators == decorators
      ensures excludedCommands == excluded[..]
    {
      spanNameProvider := customNameProvider;
      spanDecorators := decorators;
      excludedCommands := excluded[..];
      cache := map[];
    }

    /**
     * `buildSpan`: `null` for an excluded command; otherwise a new span named
     * by the provider, tagged `span.kind=client` and then by every
     * decorator's start hook.
     */
    method BuildSpan(event: StartedEvent) returns (span: Span?)
      ensures span == null <==> Excluded(excludedCommands, event.command)
      ensures span != null ==> fresh(span)
      ensures span != null ==>
        && span.operationName == spanNameProvider.GenerateName(Some(event.commandName))
        && span.tags == StartedTags(event)
        && span.logs == ChainLogs(spanDecorators, Started(event))
        && !span.finished
    {
      var skip := ShouldExclude(excludedCommands, event.command);
      if skip {
        return null;
      }
      span := new Span.Start(spanNameProvider.GenerateName(Some(event.commandName)));
      RunHooks(spanDecorators, Started(event), span);
    }

    /**
     * `commandStarted`: an excluded command leaves the cache as it was;
     * otherwise a new span is put under the request id, replacing any span
     * cached there, and no other entry changes.
     */
    method CommandStarted(event: StartedEvent)
      requires Valid()
      modifies this
      ensures Valid()
      ensures Excluded(excludedCommands, event.command) ==> cache == old(cache)
      ensures !Excluded(excludedCommands, event.command) ==>
        && event.requestId in cache
        && fresh(cache[event.requestId])
        && cache == old(cache)[event.requestId := cache[event.requestId]]
        && cache[event.requestId].operationName == spanNameProvider.GenerateName(Some(event.commandName))
        && cache[event.requestId].tags == StartedTags(event)
        && cache[event.requestId].logs == ChainLogs(spanDecorators, Started(event))
    {
      var span := BuildSpan(event);
      if span != null {
        cache := cache[event.requestId := span];
      }
    }

    /**
     * `commandSucceeded`: removes the request id; if a span was cached under
     * it, runs every decorator's success hook on it and finishes it.
     * Nothing else changes, and an id that is not cached is a no-op.
     */
    method CommandSucceeded(event: SucceededEvent)
      requires Valid()
      modifies this, if event.requestId in cache then {cache[event.requestId]} else {}
      ensures Valid()
      ensures cache == old(cache) - {event.requestId}
      ensures event.requestId in old(cache) ==>
        var span := old(cache[event.requestId]);
        && span.finished
        && span.tags == WriteTags(old(span.tags), ChainTags(spanDecorators, Succeeded(event)))
        && span.logs == old(span.logs) + ChainLogs(spanDecorators, Succeeded(event))
    {
      var span := Remove(event.requestId);
      if span != null {
        RunHooks(spanDecorators, Succeeded(event), span);
        span.Finish();
      }
    }

    /**
     * `commandFailed`: removes the request id; if a span was cached under it,
     * runs every decorator's failure hook on it and finishes it. Nothing
     * else changes, and an id that is not cached is a no-op.
     */
    method CommandFailed(event: FailedEvent)
      requires Valid()
      modifies this, if event.requestId in cache then {cache[event.requestId]} else {}
      ensures Valid()
      ensures cache == old(cache) - {event.requestId}
      ensures event.requestId in old(cache) ==>
        var span := old(cache[event.requestId]);
        && span.finished
        && span.tags == WriteTags(old(span.tags), ChainTags(spanDecorators, Failed(event)))
        && span.logs == old(span.logs) + ChainLogs(spanDecorators, Failed(event))
    {
      var span := Remove(event.requestId);
      if span != null {
        RunHooks(spanDecorators, Failed(event), span);
        span.Finish();
      }
    }

    /** `cache.remove(requestId)`: the span that was cached under the id, or `null`. */
    method Remove(requestId: int) returns (span: Span?)
      requires Valid()
      modifies this
      ensures cache == old(cache) - {requestId}
      ensures span == (if requestId in old(cache) then old(cache)[requestId] else null)
      ensures span != null ==> !span.finished && forall id :: id in cache ==> cache[id] != span
      ensures Valid()
    {
      if requestId in cache {
        span := cache[requestId];
      } else {
        span := null;
      }
      cache := cache - {requestId};
    }

    /**
     * The driver's callbacks, delivered one after the other in any order:
     * the cache stays consistent and holds the spans of exactly the ids
     * `InFlight` names.
     */
    method Deliver(callbacks: seq<Callback>)
      requires Valid()
      modifies this, cache.Values
      ensures Valid()
      ensures cache.Keys == InFlight(old(cache.Keys), excludedCommands, callbacks)
    {
      for n := 0 to |callbacks|
        invariant Valid()
        invariant cache.Keys == InFlight(old(cache.Keys), excludedCommands, callbacks[..n])
        invariant forall id :: id in cache ==> cache[id] in old(cache.Values) || fresh(cache[id])
      {
        assert callbacks[..n + 1][..n] == callbacks[..n];
        match callbacks[n]
        case OnStarted(e) => CommandStarted(e);
        case OnSucceeded(e) => CommandSucceeded(e);
        case OnFailed(e) => CommandFailed(e);
      }
      assert callbacks[..|callbacks|] == callbacks;
    }
  }

  /** `TracingCommandListener.Builder`. */
  class Builder {
    var excludedCommands: array?<Rule>
    var spanNameProvider: Option<NameProvider>
    var spanDecorators: Option<seq<Decorator>>

    constructor ()
      ensures excludedCommands == null && spanNameProvider == None && spanDecorators == None
    {
      excludedCommands := null;
      spanNameProvider := None;
      spanDecorators := None;
    }

    /** `withExcludedCommands`: keeps a reference to the caller's list. */
    method WithExcludedCommands(rules: array<Rule>)
      modifies this
      ensures excludedCommands == rules
      ensures spanNameProvider == old(spanNameProvider) && spanDecorators == old(spanDecorators)
    {
      excludedCommands := rules;
    }

    /** `withSpanNameProvider`. */
    method WithSpanNameProvider(provider: NameProvider)
      modifies this
      ensures spanNameProvider == Some(provider)
      ensures excludedCommands == old(excludedCommands) && spanDecorators == old(spanDecorators)
    {
      spanNameProvider := Some(provider);
    }

    /** `withSpanDecorators`. */
    method WithSpanDecorators(decorators: seq<Decorator>)
      modifies this
      ensures spanDecorators == Some(decorators)
      ensures excludedCommands == old(excludedCommands) && spanNameProvider == old(spanNameProvider)
    {
      spanDecorators := Some(decorators);
    }

    /**
     * `build()`: fills in the defaults (the no-op name provider, no
     * exclusion rules, the default decorator alone) and constructs an empty
     * listener from the result.
     */
    method Build() returns (listener: TracingCommandListener)
      modifies this
      ensures fresh(listener) && listener.Valid() && listener.cache == map[]
      ensures spanNameProvider == Some(old(spanNameProvider).GetOr(NoopSpanNameProvider))
      ensures spanDecorators == Some(old(spanDecorators).GetOr([DefaultSpanDecorator]))
      ensures listener.spanNameProvider == spanNameProvider.value
      ensures listener.spanDecorators == spanDecorators.value
      ensures old(excludedCommands) != null ==> excludedCommands == old(excludedCommands)
      ensures excludedCommands != null && listener.excludedCommands == excludedCommands[..]
      ensures old(excludedCommands) == null ==> listener.excludedCommands == []
    {
      if spanNameProvider == None {
        spanNameProvider := Some(NoopSpanNameProvider);
      }
      if excludedCommands == null {
        excludedCommands := new Rule[0];
      }
      if spanDecorators == None {
        spanDecorators := Some([DefaultSpanDecorator]);
      }
      listener := new TracingCommandListener(spanNameProvider.value, excludedCommands, spanDecorators.value);
    }
  }

  /**
   * With the builder's default decorator list the listener decorates exactly
   * as the hard-coded `decorate` and `onError` do: the default start tags,
   * nothing on success, `error=true` and one error log on failure.
   */
  lemma {:induction false} DefaultChainIsDecorate(m: map<string, TagValue>, e: StartedEvent, s: SucceededEvent, f: FailedEvent)
    ensures WriteTags(ClientSpanTags(), ChainTags([DefaultSpanDecorator], Started(e))) == DefaultStartedSpanTags(e)
    ensures ChainLogs([DefaultSpanDecorator], Started(e)) == []
    ensures WriteTags(m, ChainTags([DefaultSpanDecorator], Succeeded(s))) == m
    ensures ChainLogs([DefaultSpanDecorator], Succeeded(s)) == []
    ensures WriteTags(m, ChainTags([DefaultSpanDecorator], Failed(f))) == m[ErrorKey := TBool(true)]
    ensures ChainLogs([DefaultSpanDecorator], Failed(f)) == [ErrorLog(f.throwable)]
  {
    ChainSingle(DefaultSpanDecorator, Started(e));
    ChainSingle(DefaultSpanDecorator, Succeeded(s));
    ChainSingle(DefaultSpanDecorator, Failed(f));
    DefaultFailedEffect(m, f);
  }

  /**
   * A command excluded by the rule `{insert: "testCol"}` leaves no span in
   * flight, and its success callback finds nothing to finish.
   */
  method ExcludedInsertScenario(e: StartedEvent) returns (inFlight: nat)
    requires e.command == InsertIntoTestCol()
    ensures inFlight == 0
  {
    var rules := new Rule[1];
    rules[0] := map["insert" := Str("testCol")];
    var builder := new Builder();
    builder.WithExcludedCommands(rules);
    var listener := builder.Build();
    ExcludeInsertExample();
    listener.CommandStarted(e);
    listener.CommandSucceeded(SucceededEvent(e.requestId));
    inFlight := |listener.cache|;
  }

  /**
   * A failure followed by a duplicate success for the same request id: the
   * span is finished once, with the single error record of the failure.
   */
  method DuplicateCompletionScenario(e: StartedEvent, t: Throwable) returns (span: Span?)
    ensures span != null && span.finished
    ensures span.tags == DefaultStartedSpanTags(e)[ErrorKey := TBool(true)]
    ensures span.logs == [ErrorLog(t)]
  {
    var builder := new Builder();
    var listener := builder.Build();
    NoRulesExcludeNothing(e.command);
    listener.CommandStarted(e);
    span := listener.cache[e.requestId];
    var f := FailedEvent(e.requestId, t);
    DefaultChainIsDecorate(span.tags, e, SucceededEvent(e.requestId), f);
    listener.CommandFailed(f);
    listener.CommandSucceeded(SucceededEvent(e.requestId));
  }

  /**
   * The listener keeps its own copy of the rule list: replacing an element of
   * the caller's list after `build()` does not stop the exclusion.
   */
  method RuleCopyScenario(e: StartedEvent) returns (excluded: bool)
    requires e.command == InsertIntoTestCol()
    ensures excluded
  {
    var rules := new Rule[1];
    rules[0] := map["insert" := Str("testCol")];
    var builder := new Builder();
    builder.WithExcludedCommands(rules);
    var listener := builder.Build();
    rules[0] := map["insert" := Str("otherCol")];
    ExcludeInsertExample();
    var span := listener.BuildSpan(e);
    excluded := span == null;
  }
}
