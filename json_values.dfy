/** The values the protocol client exchanges: the JVM object graphs that the
    JSON library produces from a received text frame and serialises into a
    sent one, and the `{messageType, data}` envelope built from them. */
module JsonValues {

  datatype Option<+T> = None | Some(value: T)

  /** A Kotlin `Int`. */
  type Int32 = x: int | -0x8000_0000 <= x < 0x8000_0000

  /** A value of a `Map<String, Any>` payload. Numbers come in two kinds:
      `JInt` is a Kotlin `Int` that this code itself puts into a payload,
      `JDouble` is a number as the JSON library parses it into a
      `Map<String, Any>` (always a double). */
  datatype Json =
    | JNull
    | JBool(b: bool)
    | JInt(i: int)
    | JDouble(d: real)
    | JStr(s: string)
    | JArr(items: seq<Json>)
    | JObj(fields: map<string, Json>)

  /** Holds of every value the JSON library hands back when it parses a text
      frame into a `Map<String, Any>`: no number in it is a boxed `Int`. */
  predicate FromParser(j: Json) {
    match j
    case JInt(_) => false
    case JArr(items) => forall k | 0 <= k < |items| :: FromParser(items[k])
    case JObj(fields) => forall k | k in fields :: FromParser(fields[k])
    case _ => true
  }

  /** `m[key]`, where a missing key reads as Kotlin's `null`. */
  function Get(m: map<string, Json>, key: string): (r: Option<Json>)
    ensures r.Some? <==> key in m
    ensures key in m ==> r.value == m[key]
  {
    if key in m then Some(m[key]) else None
  }

  /** `m[key] as? String`: the field when it holds a string, else nothing. */
  function StringField(m: map<string, Json>, key: string): (r: Option<string>)
    ensures r.Some? <==> key in m && m[key].JStr?
    ensures r.Some? ==> m[key] == JStr(r.value)
  {
    if key in m && m[key].JStr? then Some(m[key].s) else None
  }

  /** `m[key] as Boolean`: the field when it holds a boolean, else nothing. */
  function BoolField(m: map<string, Json>, key: string): (r: Option<bool>)
    ensures r.Some? <==> key in m && m[key].JBool?
    ensures r.Some? ==> m[key] == JBool(r.value)
  {
    if key in m && m[key].JBool? then Some(m[key].b) else None
  }

  /** The paths of a `List<String>` as a JSON array of strings. The contract
      lists the elements so that `Dispatch.ContinuedevQueryReplies` can state
      the `visibleFiles` reply in terms of the open files. */
  function Strings(ss: seq<string>): (r: Json)
    ensures r.JArr? && |r.items| == |ss|
    ensures forall k :: 0 <= k < |ss| ==> r.items[k] == JStr(ss[k])
  {
    JArr(seq(|ss|, k requires 0 <= k < |ss| => JStr(ss[k])))
  }

  const MessageTypeKey := "messageType"
  const DataKey := "data"

  /** The two parts of every frame on the wire. */
  datatype Envelope = Envelope(messageType: string, data: Json)

  /** The object a frame carries: exactly the keys `messageType` and `data`,
      holding the discriminator and the payload unchanged. */
  function Frame(messageType: string, data: Json): (r: Json)
    ensures r.JObj? && r.fields.Keys == {MessageTypeKey, DataKey}
    ensures r.fields[MessageTypeKey] == JStr(messageType) && r.fields[DataKey] == data
  {
    JObj(map[MessageTypeKey := JStr(messageType), DataKey := data])
  }

  /** Reads a frame's object back into its envelope; anything that is not a
      two-key object with a string discriminator is not a frame. */
  function ParseEnvelope(j: Json): (r: Option<Envelope>)
  {
    if j.JObj? && j.fields.Keys == {MessageTypeKey, DataKey} && j.fields[MessageTypeKey].JStr?
    then Some(Envelope(j.fields[MessageTypeKey].s, j.fields[DataKey]))
    else None
  }

  /** The discriminator of a frame. */
  function FrameType(j: Json): Option<string> {
    match ParseEnvelope(j)
    case Some(e) => Some(e.messageType)
    case None => None
  }

  lemma ParseFrame(messageType: string, data: Json)
    ensures ParseEnvelope(Frame(messageType, data)) == Some(Envelope(messageType, data))
  {
  }

  /** The converse round trip: every value that parses as an envelope is the
      frame of that envelope. */
  lemma FrameOfParsed(j: Json)
    requires ParseEnvelope(j).Some?
    ensures j == Frame(ParseEnvelope(j).value.messageType, ParseEnvelope(j).value.data)
  {
    var e := ParseEnvelope(j).value;
    assert j.fields == Frame(e.messageType, e.data).fields;
  }

  /** `parsedMessage["messageType"] as? String`: the discriminator of a
      received message, or nothing when it is absent or not a string. */
  function MessageType(message: map<string, Json>): (r: Option<string>)
    ensures r.Some? <==> MessageTypeKey in message && message[MessageTypeKey].JStr?
    ensures r.Some? ==> message[MessageTypeKey] == JStr(r.value)
  {
    StringField(message, MessageTypeKey)
  }

  /** `parsedMessage["data"]` when it is an object. */
  function DataObject(message: map<string, Json>): (r: Option<map<string, Json>>)
    ensures r.Some? <==> DataKey in message && message[DataKey].JObj?
    ensures r.Some? ==> message[DataKey] == JObj(r.value)
  {
    if DataKey in message && message[DataKey].JObj? then Some(message[DataKey].fields) else None
  }
}
