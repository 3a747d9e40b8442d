/**
 * The parts of a MongoDB command event that the listener reads: BSON values
 * and documents, the server address and the three lifecycle events.
 */
module Bson {
  import opened Wrappers

  /**
   * A BSON value. `Null` is the `BsonNull.VALUE` singleton, which exclusion
   * rules use as a wildcard. Nested documents, arrays and the other BSON
   * types are represented by a canonical key in `Other`: two such values are
   * equal exactly when `BsonValue.equals` holds of them (for a document,
   * the same entries in any order), so `repr` is not the `toString()` text.
   */
  datatype Value =
    | Null
    | Bool(b: bool)
    | Int32(i: int)
    | Int64(l: int)
    | Str(s: string)
    | Other(repr: string)

  /**
   * A `BsonDocument`: a linked hash map, so its field names keep the order in
   * which they were appended. `keys` is that order, `fields` the content.
   */
  datatype Document = Document(keys: seq<string>, fields: map<string, Value>) {
    /** Every real document lists each of its fields exactly once. */
    ghost predicate Valid() {
      && (forall k :: k in fields <==> k in keys)
      && (forall i, j :: 0 <= i < j < |keys| ==> keys[i] != keys[j])
    }

    /** `containsKey`. */
    predicate ContainsKey(key: string) {
      key in fields
    }

    /** The value stored under the first key, if the document has one. */
    function FirstValue(): (r: Option<Value>)
      ensures r.Some? ==> |keys| > 0 && keys[0] in fields && r.value == fields[keys[0]]
      ensures Valid() && |keys| > 0 ==> r.Some?
    {
      if |keys| > 0 && keys[0] in fields then Some(fields[keys[0]]) else None
    }
  }

  /** The document with the single field `key: value` (`new BsonDocument(key, value)`). */
  function Singleton(key: string, value: Value): (d: Document)
    ensures d.Valid() && d.keys == [key]
  {
    Document([key], map[key := value])
  }

  /** `document.append(key, value)` for a key the document does not hold yet. */
  function Append(d: Document, key: string, value: Value): (r: Document)
    requires d.Valid() && key !in d.fields
    ensures r.Valid() && r.keys == d.keys + [key] && r.fields == d.fields[key := value]
  {
    Document(d.keys + [key], d.fields[key := value])
  }

  /**
   * An `ExcludedCommand`: a hash map from field name to the expected value,
   * where `Null` means "the field must be present, with any value".
   */
  type Rule = map<string, Value>

  /** The four bytes `Inet4Address.getAddress()` returns. */
  type Byte = b: int | 0 <= b < 256
  type IPv4Bytes = s: seq<Byte> | |s| == 4 witness [0, 0, 0, 0]

  /**
   * The resolved address of the server. An IPv6 address is kept as the text
   * `getHostAddress()` renders it to.
   */
  datatype InetAddress = V4(bytes: IPv4Bytes) | V6(hostAddress: string)

  /** `ServerAddress`: host name, port and its resolved socket address. */
  datatype ServerAddress = ServerAddress(host: string, port: int, address: InetAddress)

  /**
   * `CommandStartedEvent`. `commandText` is the rendering `toString()` gives
   * of `command`; the model does not compute it.
   */
  datatype StartedEvent = StartedEvent(
    requestId: int,
    commandName: string,
    command: Document,
    commandText: string,
    databaseName: string,
    server: ServerAddress)

  /** `CommandSucceededEvent`. */
  datatype SucceededEvent = SucceededEvent(requestId: int)

  /**
   * The `Throwable` of a failed command, through the four renderings the
   * error log uses: the class name, the message (possibly `null`), the text
   * `printStackTrace` writes, and the object itself (`identity`).
   */
  datatype Throwable = Throwable(className: string, message: Option<string>, stackTrace: string, identity: string)

  /** `CommandFailedEvent`. */
  datatype FailedEvent = FailedEvent(requestId: int, throwable: Throwable)
}
