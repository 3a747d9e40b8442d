/**
 * `SpanDecorator`: three hooks run on a span at the start, success and
 * failure of a command, and the `DefaultSpanDecorator`. Every hook is
 * specified by the `setTag` calls and the log records it makes.
 */
module Decorators {
  import opened Wrappers
  import opened Bson
  import opened Spans
  import Ipv4

  /** `TracingCommandListener.COMPONENT_NAME`. */
  const ComponentName := "java-mongo"
  /** The value of the `db.type` tag. */
  const DbType := "mongo"

  /**
   * A decorator: the default one, or one that sets fixed tags in each hook
   * (the custom decorators the tests register are of this kind).
   */
  datatype Decorator =
    | DefaultSpanDecorator
    | TagDecorator(onStarted: seq<Tag>, onSucceeded: seq<Tag>, onFailed: seq<Tag>)

  /** One of the three lifecycle hooks, with its event. */
  datatype Hook =
    | Started(started: StartedEvent)
    | Succeeded(succeeded: SucceededEvent)
    | Failed(failed: FailedEvent)

  /** The peer address tag: the packed `int` for IPv4, the host address text otherwise. */
  function AddressTag(address: InetAddress): Tag {
    match address
    case V4(bytes) => Tag(PeerIpv4Key, TInt(Ipv4.Pack(bytes)))
    case V6(text) => Tag(PeerIpv6Key, TStr(text))
  }

  /** The `Tags.*.set` calls of the default start hook, in order. */
  function DefaultStartedTags(e: StartedEvent): seq<Tag> {
    [ Tag(ComponentKey, TStr(ComponentName)),
      Tag(DbStatementKey, TStr(e.commandText)),
      Tag(DbInstanceKey, TStr(e.databaseName)),
      Tag(PeerHostnameKey, TStr(e.server.host)),
      AddressTag(e.server.address),
      Tag(PeerPortKey, TInt(e.server.port)),
      Tag(DbTypeKey, TStr(DbType)) ]
  }

  /** The five field names of the error log record. */
  const ErrorLogKeys := {"event", "error.kind", "error.object", "message", "stack"}

  /**
   * The log record of a failed command: an `event` marker `"error"`, the
   * throwable's class name, the throwable, its message (possibly `null`) and
   * its printed stack trace.
   */
  function ErrorLog(t: Throwable): (r: LogRecord)
    ensures r.Keys == ErrorLogKeys
    ensures r["event"] == LStr(ErrorKey)
    ensures r["error.kind"] == LStr(t.className) && r["error.object"] == LObject(t)
    ensures r["message"] == (if t.message.Some? then LStr(t.message.value) else LNull)
    ensures r["stack"] == LStr(t.stackTrace)
  {
    map[ "event" := LStr(ErrorKey),
         "error.kind" := LStr(t.className),
         "error.object" := LObject(t),
         "message" := (match t.message case Some(m) => LStr(m) case None => LNull),
         "stack" := LStr(t.stackTrace) ]
  }

  /** `errorLogs(throwable)`: fills the record one `put` at a time. */
  method ErrorLogs(t: Throwable) returns (errorLogs: LogRecord)
    ensures errorLogs == ErrorLog(t)
  {
    errorLogs := map[];
    errorLogs := errorLogs["event" := LStr(ErrorKey)];
    errorLogs := errorLogs["error.kind" := LStr(t.className)];
    errorLogs := errorLogs["error.object" := LObject(t)];
    var message := if t.message.Some? then LStr(t.message.value) else LNull;
    errorLogs := errorLogs["message" := message];
    errorLogs := errorLogs["stack" := LStr(t.stackTrace)];
  }

  /** The `setTag` calls a decorator makes in a hook. */
  function HookTags(d: Decorator, h: Hook): seq<Tag> {
    match (d, h)
    case (DefaultSpanDecorator, Started(e)) => DefaultStartedTags(e)
    case (DefaultSpanDecorator, Succeeded(_)) => []
    case (DefaultSpanDecorator, Failed(_)) => [Tag(ErrorKey, TBool(true))]
    case (TagDecorator(tags, _, _), Started(_)) => tags
    case (TagDecorator(_, tags, _), Succeeded(_)) => tags
    case (TagDecorator(_, _, tags), Failed(_)) => tags
  }

  /** The `span.log` calls a decorator makes in a hook. */
  function HookLogs(d: Decorator, h: Hook): seq<LogRecord> {
    if d.DefaultSpanDecorator? && h.Failed? then [ErrorLog(h.failed.throwable)] else []
  }

  /** The `setTag` calls of a list of decorators run in list order. */
  function ChainTags(ds: seq<Decorator>, h: Hook): seq<Tag>
    decreases |ds|
  {
    if ds == [] then [] else ChainTags(ds[..|ds| - 1], h) + HookTags(ds[|ds| - 1], h)
  }

  /** The `span.log` calls of a list of decorators run in list order. */
  function ChainLogs(ds: seq<Decorator>, h: Hook): seq<LogRecord>
    decreases |ds|
  {
    if ds == [] then [] else ChainLogs(ds[..|ds| - 1], h) + HookLogs(ds[|ds| - 1], h)
  }

  /** `commandStarted(event, span)`. */
  method CommandStarted(d: Decorator, event: StartedEvent, span: Span)
    requires !span.finished
    modifies span
    ensures span.tags == WriteTags(old(span.tags), HookTags(d, Started(event)))
    ensures span.logs == old(span.logs) + HookLogs(d, Started(event)) && !span.finished
  {
    match d
    case DefaultSpanDecorator =>
      ghost var tags0 := span.tags;
      ghost var done: seq<Tag> := [];
      assert span.tags == WriteTags(tags0, done);
      span.SetTag(ComponentKey, TStr(ComponentName));
      WriteTagsSnoc(tags0, done, Tag(ComponentKey, TStr(ComponentName)));
      done := done + [Tag(ComponentKey, TStr(ComponentName))];
      span.SetTag(DbStatementKey, TStr(event.commandText));
      WriteTagsSnoc(tags0, done, Tag(DbStatementKey, TStr(event.commandText)));
      done := done + [Tag(DbStatementKey, TStr(event.commandText))];
      span.SetTag(DbInstanceKey, TStr(event.databaseName));
      WriteTagsSnoc(tags0, done, Tag(DbInstanceKey, TStr(event.databaseName)));
      done := done + [Tag(DbInstanceKey, TStr(event.databaseName))];
      span.SetTag(PeerHostnameKey, TStr(event.server.host));
      WriteTagsSnoc(tags0, done, Tag(PeerHostnameKey, TStr(event.server.host)));
      done := done + [Tag(PeerHostnameKey, TStr(event.server.host))];
      match event.server.address {
        case V4(bytes) =>
          span.SetTag(PeerIpv4Key, TInt(Ipv4.Pack(bytes)));
        case V6(text) =>
          span.SetTag(PeerIpv6Key, TStr(text));
      }
      WriteTagsSnoc(tags0, done, AddressTag(event.server.address));
      done := done + [AddressTag(event.server.address)];
      span.SetTag(PeerPortKey, TInt(event.server.port));
      WriteTagsSnoc(tags0, done, Tag(PeerPortKey, TInt(event.server.port)));
      done := done + [Tag(PeerPortKey, TInt(event.server.port))];
      span.SetTag(DbTypeKey, TStr(DbType));
      WriteTagsSnoc(tags0, done, Tag(DbTypeKey, TStr(DbType)));
      done := done + [Tag(DbTypeKey, TStr(DbType))];
      assert done == DefaultStartedTags(event);
    case TagDecorator(tags, _, _) =>
      span.SetTags(tags);
  }

  /** `commandSucceeded(event, span)`; the default decorator does nothing. */
  method CommandSucceeded(d: Decorator, event: SucceededEvent, span: Span)
    requires !span.finished
    modifies span
    ensures span.tags == WriteTags(old(span.tags), HookTags(d, Succeeded(event)))
    ensures span.logs == old(span.logs) + HookLogs(d, Succeeded(event)) && !span.finished
  {
    match d
    case DefaultSpanDecorator =>
    case TagDecorator(_, tags, _) =>
      span.SetTags(tags);
  }

  /** `commandFailed(event, span)`: the default decorator sets `error=true` and logs the error. */
  method CommandFailed(d: Decorator, event: FailedEvent, span: Span)
    requires !span.finished
    modifies span
    ensures span.tags == WriteTags(old(span.tags), HookTags(d, Failed(event)))
    ensures span.logs == old(span.logs) + HookLogs(d, Failed(event)) && !span.finished
  {
    match d
    case DefaultSpanDecorator =>
      span.SetTag(ErrorKey, TBool(true));
      var errorLogs := ErrorLogs(event.throwable);
      span.Log(errorLogs);
    case TagDecorator(_, _, tags) =>
      span.SetTags(tags);
  }

  /** Runs the hook `h` of one decorator. */
  method RunHook(d: Decorator, h: Hook, span: Span)
    requires !span.finished
    modifies span
    ensures span.tags == WriteTags(old(span.tags), HookTags(d, h))
    ensures span.logs == old(span.logs) + HookLogs(d, h) && !span.finished
  {
    match h
    case Started(e) => CommandStarted(d, e, span);
    case Succeeded(e) => CommandSucceeded(d, e, span);
    case Failed(e) => CommandFailed(d, e, span);
  }

  /** One more decorator in the list adds its hook's calls at the end. */
  lemma {:induction false} ChainStep(ds: seq<Decorator>, i: nat, h: Hook)
    requires i < |ds|
    ensures ChainTags(ds[..i + 1], h) == ChainTags(ds[..i], h) + HookTags(ds[i], h)
    ensures ChainLogs(ds[..i + 1], h) == ChainLogs(ds[..i], h) + HookLogs(ds[i], h)
  {
    assert ds[..i + 1][..i] == ds[..i];
  }

  /** Runs one hook of every decorator, in list order. */
  method RunHooks(ds: seq<Decorator>, h: Hook, span: Span)
    requires !span.finished
    modifies span
    ensures span.tags == WriteTags(old(span.tags), ChainTags(ds, h))
    ensures span.logs == old(span.logs) + ChainLogs(ds, h) && !span.finished
  {
    ghost var tags0, logs0 := span.tags, span.logs;
    for i := 0 to |ds|
      invariant span.tags == WriteTags(tags0, ChainTags(ds[..i], h))
      invariant span.logs == logs0 + ChainLogs(ds[..i], h) && !span.finished
    {
      ChainStep(ds, i, h);
      WriteTagsAppend(tags0, ChainTags(ds[..i], h), HookTags(ds[i], h));
      RunHook(ds[i], h, span);
    }
    assert ds[..|ds|] == ds;
  }

  /** The tag map of a fresh span after the default start hook. */
  function DefaultStartedSpanTags(e: StartedEvent): map<string, TagValue> {
    WriteTags(ClientSpanTags(), DefaultStartedTags(e))
  }

  /** The default start hook's writes, one by one. */
  lemma {:induction false} DefaultStartedSpanTagsExplicit(e: StartedEvent)
    ensures DefaultStartedSpanTags(e) ==
      ClientSpanTags()[ComponentKey := TStr(ComponentName)][DbStatementKey := TStr(e.commandText)]
        [DbInstanceKey := TStr(e.databaseName)][PeerHostnameKey := TStr(e.server.host)]
        [AddressTag(e.server.address).key := AddressTag(e.server.address).value]
        [PeerPortKey := TInt(e.server.port)][DbTypeKey := TStr(DbType)]
  {
    var w, m := DefaultStartedTags(e), ClientSpanTags();
    WriteTagsSnoc(m, w[..0], w[0]);
    assert w[..1] == w[..0] + [w[0]];
    WriteTagsSnoc(m, w[..1], w[1]);
    assert w[..2] == w[..1] + [w[1]];
    WriteTagsSnoc(m, w[..2], w[2]);
    assert w[..3] == w[..2] + [w[2]];
    WriteTagsSnoc(m, w[..3], w[3]);
    assert w[..4] == w[..3] + [w[3]];
    WriteTagsSnoc(m, w[..4], w[4]);
    assert w[..5] == w[..4] + [w[4]];
    WriteTagsSnoc(m, w[..5], w[5]);
    assert w[..6] == w[..5] + [w[5]];
    WriteTagsSnoc(m, w[..6], w[6]);
    assert w == w[..6] + [w[6]];
    assert w[..0] == [];
  }

  /**
   * The default start hook sets exactly the component, statement, instance,
   * peer host name, peer port and database type tags and one address tag,
   * and keeps `span.kind`. The address tag is `peer.ipv4` holding the packed
   * address for an IPv4 server, and `peer.ipv6` holding its text otherwise.
   */
  lemma {:induction false} DefaultStartedSpan(e: StartedEvent)
    ensures var m := DefaultStartedSpanTags(e);
      && m.Keys == {SpanKindKey, ComponentKey, DbStatementKey, DbInstanceKey, PeerHostnameKey,
                    AddressTag(e.server.address).key, PeerPortKey, DbTypeKey}
      && m[SpanKindKey] == TStr(SpanKindClient)
      && m[ComponentKey] == TStr("java-mongo")
      && m[DbStatementKey] == TStr(e.commandText)
      && m[DbInstanceKey] == TStr(e.databaseName)
      && m[PeerHostnameKey] == TStr(e.server.host)
      && m[PeerPortKey] == TInt(e.server.port)
      && m[DbTypeKey] == TStr("mongo")
      && (PeerIpv4Key in m <==> e.server.address.V4?)
      && (PeerIpv6Key in m <==> e.server.address.V6?)
      && (e.server.address.V4? ==> m[PeerIpv4Key] == TInt(Ipv4.Pack(e.server.address.bytes)))
      && (e.server.address.V6? ==> m[PeerIpv6Key] == TStr(e.server.address.hostAddress))
  {
    DefaultStartedSpanTagsExplicit(e);
  }

  /** The default success hook changes neither tags nor logs. */
  lemma DefaultSucceededChangesNothing(m: map<string, TagValue>, e: SucceededEvent)
    ensures WriteTags(m, HookTags(DefaultSpanDecorator, Succeeded(e))) == m
    ensures HookLogs(DefaultSpanDecorator, Succeeded(e)) == []
  {
  }

  /** The default failure hook sets `error=true` and adds exactly the error log record. */
  lemma {:induction false} DefaultFailedEffect(m: map<string, TagValue>, e: FailedEvent)
    ensures WriteTags(m, HookTags(DefaultSpanDecorator, Failed(e))) == m[ErrorKey := TBool(true)]
    ensures HookLogs(DefaultSpanDecorator, Failed(e)) == [ErrorLog(e.throwable)]
  {
    WriteTagsSnoc(m, [], Tag(ErrorKey, TBool(true)));
    assert [] + [Tag(ErrorKey, TBool(true))] == [Tag(ErrorKey, TBool(true))];
  }

  /** A one-element decorator list behaves as its decorator. */
  lemma {:induction false} ChainSingle(d: Decorator, h: Hook)
    ensures ChainTags([d], h) == HookTags(d, h)
    ensures ChainLogs([d], h) == HookLogs(d, h)
  {
    assert [d][..0] == [];
  }

  /** Running two lists of decorators one after the other is running their concatenation. */
  lemma {:induction false} ChainTagsAppend(a: seq<Decorator>, b: seq<Decorator>, h: Hook)
    ensures ChainTags(a + b, h) == ChainTags(a, h) + ChainTags(b, h)
    decreases |b|
  {
    if b == [] {
      assert a + b == a;
    } else {
      assert (a + b)[..|a + b| - 1] == a + b[..|b| - 1];
      ChainTagsAppend(a, b[..|b| - 1], h);
    }
  }

  /** The chain sets a key exactly when one of its decorators does. */
  lemma {:induction false} ChainWrites(ds: seq<Decorator>, h: Hook, key: string)
    ensures Writes(ChainTags(ds, h), key) <==> exists j :: 0 <= j < |ds| && Writes(HookTags(ds[j], h), key)
    decreases |ds|
  {
    if ds != [] {
      var init := ds[..|ds| - 1];
      ChainWrites(init, h, key);
      WritesAppend(ChainTags(init, h), HookTags(ds[|ds| - 1], h), key);
      assert forall j :: 0 <= j < |init| ==> init[j] == ds[j];
    }
  }

  /**
   * Decorators run in list order, so the value a key ends with is the last
   * one written to it by the last decorator that writes it.
   */
  lemma {:induction false} LaterDecoratorWins(m: map<string, TagValue>, ds: seq<Decorator>, h: Hook, j: nat, i: nat)
    requires j < |ds| && i < |HookTags(ds[j], h)|
    requires forall i' :: i < i' < |HookTags(ds[j], h)| ==> HookTags(ds[j], h)[i'].key != HookTags(ds[j], h)[i].key
    requires forall j' :: j < j' < |ds| ==> !Writes(HookTags(ds[j'], h), HookTags(ds[j], h)[i].key)
    ensures var t := HookTags(ds[j], h)[i];
      t.key in WriteTags(m, ChainTags(ds, h)) && WriteTags(m, ChainTags(ds, h))[t.key] == t.value
  {
    var t := HookTags(ds[j], h)[i];
    var before, after := ds[..j], ds[j + 1..];
    assert ds == before + [ds[j]] + after;
    ChainTagsAppend(before + [ds[j]], after, h);
    ChainTagsAppend(before, [ds[j]], h);
    ChainSingle(ds[j], h);
    var a, b, c := ChainTags(before, h), HookTags(ds[j], h), ChainTags(after, h);
    assert ChainTags(ds, h) == a + b + c;
    WriteTagsAppend(m, a + b, c);
    WriteTagsAppend(m, a, b);
    WriteTagsLastWins(WriteTags(m, a), b, i);
    ChainWrites(after, h, t.key);
    WriteTagsUntouched(WriteTags(m, a + b), c, t.key);
  }

  /**
   * The state of a span's tags and logs after its start hooks and then the
   * hooks of one completion (`Succeeded` or `Failed`).
   */
  function CompletedTags(ds: seq<Decorator>, e: StartedEvent, completion: Hook): map<string, TagValue> {
    WriteTags(WriteTags(ClientSpanTags(), ChainTags(ds, Started(e))), ChainTags(ds, completion))
  }

  /**
   * A key that neither the start hooks nor the hooks of the completion that
   * happened write is absent from the finished span: the other completion's
   * hooks never run.
   */
  lemma {:induction false} OtherCompletionNotRun(ds: seq<Decorator>, e: StartedEvent, completion: Hook, key: string)
    requires key != SpanKindKey
    requires forall j :: 0 <= j < |ds| ==> !Writes(HookTags(ds[j], Started(e)), key) && !Writes(HookTags(ds[j], completion), key)
    ensures key !in CompletedTags(ds, e, completion)
  {
    ChainWrites(ds, Started(e), key);
    ChainWrites(ds, completion, key);
    WriteTagsUntouched(ClientSpanTags(), ChainTags(ds, Started(e)), key);
    WriteTagsUntouched(WriteTags(ClientSpanTags(), ChainTags(ds, Started(e))), ChainTags(ds, completion), key);
  }

  /** The custom decorator of the listener's unit test: it overrides `component` and adds `FOO`. */
  function FooDecorator(): Decorator {
    TagDecorator([Tag(ComponentKey, TStr("FOO")), Tag("FOO", TStr("FOO"))], [], [])
  }

  /** With `[DEFAULT, foo]` the later decorator's `component` wins and its own tag is set. */
  lemma {:induction false} CustomDecoratorOrder(e: StartedEvent)
    ensures var m := WriteTags(ClientSpanTags(), ChainTags([DefaultSpanDecorator, FooDecorator()], Started(e)));
      && ComponentKey in m && m[ComponentKey] == TStr("FOO")
      && "FOO" in m && m["FOO"] == TStr("FOO")
  {
    var ds := [DefaultSpanDecorator, FooDecorator()];
    assert HookTags(ds[1], Started(e))[0].key == ComponentKey;
    LaterDecoratorWins(ClientSpanTags(), ds, Started(e), 1, 0);
    LaterDecoratorWins(ClientSpanTags(), ds, Started(e), 1, 1);
  }

  /** The custom decorator of the integration tests: `FOO` on start, `BAR` on success, `BAZ` on failure. */
  function HookProbe(): Decorator {
    TagDecorator([Tag("FOO", TStr("FOO"))], [Tag("BAR", TStr("BAR"))], [Tag("BAZ", TStr("BAZ"))])
  }

  /** A command that succeeds gets the start and success tags, and not the failure tag. */
  lemma {:induction false} SuccessRunsOnlySuccessHooks(e: StartedEvent, s: SucceededEvent)
    ensures var m := CompletedTags([HookProbe()], e, Succeeded(s));
      && "FOO" in m && m["FOO"] == TStr("FOO")
      && "BAR" in m && m["BAR"] == TStr("BAR")
      && "BAZ" !in m
  {
    var ds := [HookProbe()];
    var started := WriteTags(ClientSpanTags(), ChainTags(ds, Started(e)));
    LaterDecoratorWins(ClientSpanTags(), ds, Started(e), 0, 0);
    WriteTagsUntouched(started, ChainTags(ds, Succeeded(s)), "FOO") by { ChainWrites(ds, Succeeded(s), "FOO"); }
    LaterDecoratorWins(started, ds, Succeeded(s), 0, 0);
    OtherCompletionNotRun(ds, e, Succeeded(s), "BAZ");
  }

  /** A command that fails gets the start and failure tags, and not the success tag. */
  lemma {:induction false} FailureRunsOnlyFailureHooks(e: StartedEvent, f: FailedEvent)
    ensures var m := CompletedTags([HookProbe()], e, Failed(f));
      && "FOO" in m && m["FOO"] == TStr("FOO")
      && "BAZ" in m && m["BAZ"] == TStr("BAZ")
      && "BAR" !in m
  {
    var ds := [HookProbe()];
    var started := WriteTags(ClientSpanTags(), ChainTags(ds, Started(e)));
    LaterDecoratorWins(ClientSpanTags(), ds, Started(e), 0, 0);
    WriteTagsUntouched(started, ChainTags(ds, Failed(f)), "FOO") by { ChainWrites(ds, Failed(f), "FOO"); }
    LaterDecoratorWins(started, ds, Failed(f), 0, 0);
    OtherCompletionNotRun(ds, e, Failed(f), "BAR");
  }
}
