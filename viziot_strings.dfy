/**
  The value-level logic of VizIoTMqttClient: the transmit-buffer clamp, the
  client identifier and the two topic strings derived from the device key,
  the parameter name cut from an inbound topic, and the bounded payload
  that reaches the parameter callback.
 */
module ClientStrings {

  /** `unsigned short`, the type of the transmit-buffer size. */
  newtype u16 = x: int | 0 <= x < 0x1_0000

  /** One byte of an inbound payload (`char` in the source). */
  newtype byte = x: int | 0 <= x < 0x100

  const MinTxPayloadSize: u16 := 128
  const MaxTxPayloadSize: u16 := 4096
  const DefaultTxPayloadSize: u16 := 1024
  const DefaultHost: string := "viziot.com"
  const DefaultPort: int := 48651

  /** Bytes requested from `read`; the buffer holds one more for the terminator. */
  const PayloadCapacity: nat := 255

  const ClientIdPrefix: string := "arduinoClient-"
  const DevicesPrefix: string := "/devices/"
  const PacketSuffix: string := "/packet"
  const ParamSegment: string := "/param/"
  const SingleLevelWildcard: string := "+"

  // ---------------------------------------------------------------------
  // Transmit-buffer size

  /** The stored tx size: first capped at 4096, then raised to at least 128. */
  function ClampTxPayloadSize(requested: u16): (size: u16)
    ensures MinTxPayloadSize <= size <= MaxTxPayloadSize
    ensures MinTxPayloadSize <= requested <= MaxTxPayloadSize ==> size == requested
    ensures requested < MinTxPayloadSize ==> size == MinTxPayloadSize
    ensures requested > MaxTxPayloadSize ==> size == MaxTxPayloadSize
  {
    var capped := if requested < 4096 then requested else 4096;
    if capped > 128 then capped else 128
  }

  /** Clamping a size that is already in range changes nothing, so clamping twice is clamping once. */
  lemma ClampIdempotent(requested: u16)
    ensures ClampTxPayloadSize(ClampTxPayloadSize(requested)) == ClampTxPayloadSize(requested)
  {
  }

  /** The documented default size is in range and therefore kept; the values 50 and 5000 are clamped. */
  lemma ClampExamples()
    ensures ClampTxPayloadSize(DefaultTxPayloadSize) == DefaultTxPayloadSize
    ensures ClampTxPayloadSize(50) == 128 && ClampTxPayloadSize(5000) == 4096
  {
  }

  // ---------------------------------------------------------------------
  // Identifier and topics derived from the device key

  function ClientId(key: string): (id: string)
    ensures |id| == |ClientIdPrefix| + |key|
    ensures id[..|ClientIdPrefix|] == ClientIdPrefix
    ensures id[|ClientIdPrefix|..] == key
  {
    ClientIdPrefix + key
  }

  /** The telemetry topic `/devices/<key>/packet`. */
  function PublishTopic(key: string): (topic: string)
    ensures |topic| == |DevicesPrefix| + |key| + |PacketSuffix|
    ensures topic[..|DevicesPrefix|] == DevicesPrefix
    ensures topic[|DevicesPrefix|..|DevicesPrefix| + |key|] == key
    ensures topic[|DevicesPrefix| + |key|..] == PacketSuffix
  {
    DevicesPrefix + key + PacketSuffix
  }

  /** The topic a parameter update named `name` arrives on: `/devices/<key>/param/<name>`. */
  function ParamTopic(key: string, name: string): (topic: string)
    ensures |topic| == |DevicesPrefix| + |key| + |ParamSegment| + |name|
    ensures topic[..|DevicesPrefix|] == DevicesPrefix
    ensures topic[|DevicesPrefix|..|DevicesPrefix| + |key|] == key
    ensures topic[|DevicesPrefix| + |key|..|DevicesPrefix| + |key| + |ParamSegment|] == ParamSegment
    ensures topic[|topic| - |name|..] == name
  {
    DevicesPrefix + key + ParamSegment + name
  }

  /** The subscription filter `/devices/<key>/param/+`: a parameter topic whose last level is the wildcard. */
  function SubscribeTopic(key: string): (filter: string)
    ensures filter == ParamTopic(key, SingleLevelWildcard)
    ensures |filter| == |DevicesPrefix| + |key| + |ParamSegment| + 1
    ensures filter[|filter| - 1] == '+'
  {
    DevicesPrefix + key + "/param/+"
  }

  /** Distinct device keys give distinct client identifiers. */
  lemma ClientIdInjective(k1: string, k2: string)
    requires ClientId(k1) == ClientId(k2)
    ensures k1 == k2
  {
  }

  /** Distinct device keys give distinct publish topics: the key can be read back from the topic. */
  lemma PublishTopicInjective(k1: string, k2: string)
    requires PublishTopic(k1) == PublishTopic(k2)
    ensures k1 == k2
  {
  }

  /** Distinct device keys give distinct subscription filters. */
  lemma SubscribeTopicInjective(k1: string, k2: string)
    requires SubscribeTopic(k1) == SubscribeTopic(k2)
    ensures k1 == k2
  {
  }

  /** No publish topic is ever a subscription filter: one ends in `t`, the other in `+`. */
  lemma PublishTopicIsNotSubscribeTopic(k1: string, k2: string)
    ensures PublishTopic(k1) != SubscribeTopic(k2)
  {
  }

  // ---------------------------------------------------------------------
  // Parameter name: the part of the topic after its last '/'

  /** `String::lastIndexOf(c)`: the largest index holding `c`, or -1 when there is none. */
  function LastIndexOf(s: string, c: char): (r: int)
    ensures -1 <= r < |s|
    ensures r >= 0 ==> s[r] == c
    ensures forall i :: r < i < |s| ==> s[i] != c
    decreases |s|
  {
    if |s| == 0 then -1
    else if s[|s| - 1] == c then |s| - 1
    else LastIndexOf(s[..|s| - 1], c)
  }

  /** `topic.substring(topic.lastIndexOf('/') + 1)`. */
  function ParamName(topic: string): (name: string)
    ensures '/' !in name
    ensures |name| <= |topic| && name == topic[|topic| - |name|..]
    ensures '/' !in topic ==> name == topic
    ensures '/' in topic ==> |name| < |topic| && topic == topic[..|topic| - |name| - 1] + "/" + name
  {
    var cut := LastIndexOf(topic, '/');
    SuffixAfterLastSlash(topic, cut);
    topic[cut + 1..]
  }

  /** Cutting after the last '/' (or after index -1) leaves a slash-free suffix that,
      with the slash and what precedes it, rebuilds the topic. */
  lemma SuffixAfterLastSlash(topic: string, cut: int)
    requires -1 <= cut < |topic|
    requires cut >= 0 ==> topic[cut] == '/'
    requires forall i :: cut < i < |topic| ==> topic[i] != '/'
    ensures '/' !in topic[cut + 1..]
    ensures '/' !in topic ==> cut == -1
    ensures '/' in topic ==> cut >= 0 && topic == topic[..cut] + "/" + topic[cut + 1..]
  {
  }

  /** The last '/' of `prefix + "/" + name` is the one before `name` when `name` has none. */
  lemma LastSlashBeforeName(prefix: string, name: string)
    requires '/' !in name
    ensures LastIndexOf(prefix + "/" + name, '/') == |prefix|
  {
    var t := prefix + "/" + name;
    var r := LastIndexOf(t, '/');
    assert t[|prefix|] == '/';
  }

  /** A message on `/devices/<key>/param/<name>` is dispatched under `name`, whatever the key. */
  lemma ParamNameOfParamTopic(key: string, name: string)
    requires '/' !in name
    ensures ParamName(ParamTopic(key, name)) == name
  {
    var prefix := DevicesPrefix + key + "/param";
    assert ParamTopic(key, name) == prefix + "/" + name;
    LastSlashBeforeName(prefix, name);
  }

  // ---------------------------------------------------------------------
  // Inbound payload

  function Min(a: int, b: int): int { if a <= b then a else b }

  /** What `read(payload, 255)` stores: the first `min(|body|, 255)` bytes of the message body. */
  function Truncated(body: seq<byte>): (p: seq<byte>)
    ensures |p| <= PayloadCapacity && |p| <= |body| && p == body[..|p|]
    ensures |body| <= PayloadCapacity ==> p == body
    ensures |body| > PayloadCapacity ==> |p| == PayloadCapacity
  {
    body[..Min(|body|, PayloadCapacity)]
  }

  /** The text a `const char*` into `buf` denotes: the bytes before the first NUL. */
  function CString(buf: seq<byte>): (s: seq<byte>)
    ensures 0 !in s
    ensures |s| <= |buf| && s == buf[..|s|]
    ensures |s| < |buf| ==> buf[|s|] == 0
  {
    if buf == [] || buf[0] == 0 then []
    else [buf[0]] + CString(buf[1..])
  }

  /** Whatever follows a terminator cannot be seen through the `const char*`. */
  lemma {:induction false} CStringStopsAtTerminator(text: seq<byte>, rest: seq<byte>)
    ensures CString(text + [0] + rest) == CString(text)
  {
    if text != [] && text[0] != 0 {
      assert (text + [0] + rest)[1..] == text[1..] + [0] + rest;
      CStringStopsAtTerminator(text[1..], rest);
    }
  }

  /** The value handed to the parameter callback for an inbound body: the first at most
      255 bytes, cut at the first NUL; the whole truncated body when that holds no NUL. */
  function DeliveredValue(body: seq<byte>): (v: seq<byte>)
    ensures |v| <= PayloadCapacity && |v| <= |body| && v == body[..|v|]
    ensures 0 !in v
    ensures |v| < |Truncated(body)| ==> body[|v|] == 0
    ensures 0 !in Truncated(body) ==> v == Truncated(body)
    ensures 0 !in body && |body| <= PayloadCapacity ==> v == body
  {
    CString(Truncated(body))
  }
}
