/**
 * The tracing backend as far as the listener uses it: a span with an
 * operation name, a tag map, a list of structured log records and a
 * finished flag.
 */
module Spans {
  import opened Wrappers
  import opened Bson

  /** The values `Tags.*.set` and `setTag` store: strings, integers and booleans. */
  datatype TagValue = TStr(s: string) | TInt(i: int) | TBool(b: bool)

  /** One `setTag(key, value)` call. */
  datatype Tag = Tag(key: string, value: TagValue)

  /** The values of a log record's fields: a string, `null`, or the throwable itself. */
  datatype LogValue = LStr(s: string) | LNull | LObject(throwable: Throwable)

  /** The field map passed to `span.log`. */
  type LogRecord = map<string, LogValue>

  /** The tag keys of `io.opentracing.tag.Tags` used here. */
  const SpanKindKey := "span.kind"
  const SpanKindClient := "client"
  const ComponentKey := "component"
  const DbStatementKey := "db.statement"
  const DbInstanceKey := "db.instance"
  const DbTypeKey := "db.type"
  const PeerHostnameKey := "peer.hostname"
  const PeerIpv4Key := "peer.ipv4"
  const PeerIpv6Key := "peer.ipv6"
  const PeerPortKey := "peer.port"
  const ErrorKey := "error"

  /** The tags a span holds when `start()` returns: the builder's `span.kind=client`. */
  function ClientSpanTags(): (m: map<string, TagValue>)
    ensures m.Keys == {SpanKindKey} && m[SpanKindKey] == TStr(SpanKindClient)
  {
    map[SpanKindKey := TStr(SpanKindClient)]
  }

  /** The tag map after the `setTag` calls `writes`, in order, on a span holding `m`. */
  function WriteTags(m: map<string, TagValue>, writes: seq<Tag>): map<string, TagValue>
    decreases |writes|
  {
    if writes == [] then m
    else
      var last := writes[|writes| - 1];
      WriteTags(m, writes[..|writes| - 1])[last.key := last.value]
  }

  /** One more `setTag` call. */
  lemma {:induction false} WriteTagsSnoc(m: map<string, TagValue>, writes: seq<Tag>, t: Tag)
    ensures WriteTags(m, writes + [t]) == WriteTags(m, writes)[t.key := t.value]
  {
    assert (writes + [t])[..|writes|] == writes;
  }

  /** Some call in `writes` sets `key`. */
  predicate Writes(writes: seq<Tag>, key: string) {
    exists i :: 0 <= i < |writes| && writes[i].key == key
  }

  /** A key is written by `a + b` when it is written by `a` or by `b`. */
  lemma {:induction false} WritesAppend(a: seq<Tag>, b: seq<Tag>, key: string)
    ensures Writes(a + b, key) <==> Writes(a, key) || Writes(b, key)
  {
    if Writes(a + b, key) {
      var i :| 0 <= i < |a + b| && (a + b)[i].key == key;
      if i < |a| { assert a[i].key == key; } else { assert b[i - |a|].key == key; }
    }
    if Writes(a, key) {
      var i :| 0 <= i < |a| && a[i].key == key;
      assert (a + b)[i].key == key;
    }
    if Writes(b, key) {
      var i :| 0 <= i < |b| && b[i].key == key;
      assert (a + b)[|a| + i].key == key;
    }
  }

  /** Writing `a` and then `b` is writing `a + b`. */
  lemma {:induction false} WriteTagsAppend(m: map<string, TagValue>, a: seq<Tag>, b: seq<Tag>)
    ensures WriteTags(m, a + b) == WriteTags(WriteTags(m, a), b)
    decreases |b|
  {
    if b == [] {
      assert a + b == a;
    } else {
      var last := b[|b| - 1];
      assert (a + b)[..|a + b| - 1] == a + b[..|b| - 1];
      WriteTagsAppend(m, a, b[..|b| - 1]);
    }
  }

  /** The keys after the writes are the old keys and the written ones. */
  lemma {:induction false} WriteTagsKeys(m: map<string, TagValue>, writes: seq<Tag>, key: string)
    ensures key in WriteTags(m, writes) <==> key in m || Writes(writes, key)
    decreases |writes|
  {
    if writes != [] {
      var init := writes[..|writes| - 1];
      WriteTagsKeys(m, init, key);
      if Writes(writes, key) && writes[|writes| - 1].key != key {
        var i :| 0 <= i < |writes| && writes[i].key == key;
        assert init[i].key == key;
      }
      if Writes(init, key) {
        var i :| 0 <= i < |init| && init[i].key == key;
        assert writes[i].key == key;
      }
    }
  }

  /** A key no call writes keeps its old value, or stays absent. */
  lemma {:induction false} WriteTagsUntouched(m: map<string, TagValue>, writes: seq<Tag>, key: string)
    requires !Writes(writes, key)
    ensures key in WriteTags(m, writes) <==> key in m
    ensures key in m ==> WriteTags(m, writes)[key] == m[key]
    decreases |writes|
  {
    if writes != [] {
      WriteTagsUntouched(m, writes[..|writes| - 1], key);
    }
  }

  /** Later writes win: the value of a key is the one its last write gave it. */
  lemma {:induction false} WriteTagsLastWins(m: map<string, TagValue>, writes: seq<Tag>, i: nat)
    requires i < |writes|
    requires forall j :: i < j < |writes| ==> writes[j].key != writes[i].key
    ensures writes[i].key in WriteTags(m, writes)
    ensures WriteTags(m, writes)[writes[i].key] == writes[i].value
    decreases |writes|
  {
    if i < |writes| - 1 {
      var init := writes[..|writes| - 1];
      WriteTagsLastWins(m, init, i);
    }
  }

  /**
   * A span of the tracer. A finished span accepts no further tag, log or
   * finish calls, which is how the model states that the listener finishes
   * every span at most once and never touches it afterwards.
   */
  class Span {
    const operationName: string
    var tags: map<string, TagValue>
    var logs: seq<LogRecord>
    var finished: bool

    /** `tracer.buildSpan(name).withTag("span.kind", "client").start()`. */
    constructor Start(name: string)
      ensures operationName == name && tags == ClientSpanTags() && logs == [] && !finished
    {
      operationName := name;
      tags := ClientSpanTags();
      logs := [];
      finished := false;
    }

    /** `span.setTag(key, value)`. */
    method SetTag(key: string, value: TagValue)
      requires !finished
      modifies this
      ensures tags == old(tags)[key := value]
      ensures logs == old(logs) && !finished
    {
      tags := tags[key := value];
    }

    /** The `setTag` calls `writes`, one after the other. */
    method SetTags(writes: seq<Tag>)
      requires !finished
      modifies this
      ensures tags == WriteTags(old(tags), writes)
      ensures logs == old(logs) && !finished
    {
      for i := 0 to |writes|
        invariant tags == WriteTags(old(tags), writes[..i])
        invariant logs == old(logs) && !finished
      {
        assert writes[..i + 1][..i] == writes[..i];
        SetTag(writes[i].key, writes[i].value);
      }
      assert writes[..|writes|] == writes;
    }

    /** `span.log(fields)`. */
    method Log(fields: LogRecord)
      requires !finished
      modifies this
      ensures logs == old(logs) + [fields]
      ensures tags == old(tags) && !finished
    {
      logs := logs + [fields];
    }

    /** `span.finish()`. */
    method Finish()
      requires !finished
      modifies this
      ensures finished
      ensures tags == old(tags) && logs == old(logs)
    {
      finished := true;
    }
  }
}
