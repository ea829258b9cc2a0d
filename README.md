# VizIoTMqttClient, modelled in Dafny

A model of the VizIoT Arduino MQTT adapter, `VizIoTMqttClient`.
The adapter does the following:

- It clamps the transmit-buffer size to [128, 4096].
- It derives a client identifier and two topics from the device key: `/devices/<key>/packet` for telemetry and `/devices/<key>/param/+` for parameter updates.
- It configures and connects the MQTT transport, then subscribes to the parameter filter.
- It gates JSON publishes on the connection and on JSON validity, then sends the original text verbatim.
- It handles inbound messages through a process-wide `_instance` pointer and a static trampoline. The transport of every object that ran `begin` calls the same trampoline. The trampoline forwards to the newest object, which reads the topic and payload from its own transport and calls its registered callback with the topic's last `/` segment and at most 255 payload bytes.

Files:

- `viziot_strings.dfy` (module `ClientStrings`) holds the value-level logic of `src/VizIoTMqttClient.cpp`. It covers the clamp, the identifier and topic strings, `lastIndexOf`/`substring`, the 255-byte read and the `const char*` view of the terminated buffer.
- `viziot_client.dfy` (module `VizIoTMqtt`) holds the object.
  - `Client` has the fields of `src/VizIoTMqttClient.h`. The configuration fields are `const`, because they are set only in the constructor. The callback slot and the transport state are `var`.
  - `Process` holds the static `_instance` and the trampoline.
  - `Begin`, `ConnectToMqtt`, `Reconnect` and `PublishJson` are tied to the specification functions `ConfigureSteps`, `ConnectSteps` and `PublishSteps`; `OnMqttMessage` and `Process.StaticOnMqttMessage` to `Dispatched`. `SetParameterCallback`, `IsConnected`, `Destroy`, `Poll` and `LinkLost` state their effect on the fields directly.

Transport model. The ArduinoMqttClient object is represented by two things:

- a `connected` flag;
- the log `actions` of the state-changing calls made on it (`setId`, `setUsernamePassword`, `onMessage`, `setTxPayloadSize`, `connect`, `subscribe`, `beginMessage`, `print`, `endMessage`, `poll`).

The outcomes of foreign code are parameters:

- `connectOk` is the result of `connect(host, port)`;
- `endOk` is the result of `endMessage()`;
- `validJson` is ArduinoJson's verdict on a text with a 1024-byte document;
- `linkUp` is whether the session survived a `poll`;
- `LinkLost` is the link found down between two calls, as every `connected()` query may find it;
- the topic and body of an inbound message are passed to the trampoline.

`Client.Valid()` is the object invariant. It says the tx size is in range and the id and topics are the ones derived from the key. It also says the transport log is well formed: every `subscribe` directly follows a `connect`, and every write sits in a complete `beginMessage`/`print`/`endMessage` triple.

Two behaviours of the code are worth knowing:

- The callback receives a `const char*` into the terminated payload buffer, so a NUL byte inside the payload cuts the value short. `DeliveredValue` is the bytes before the first NUL of the first 255 bytes; it equals the truncated body when that holds no NUL.
- A second instance silently replaces `_instance`, and the destructor clears `_instance` even when a newer object owns it, which silences that newer object (`StaleDestructorScenario`).

## Model

| member | source | states |
|---|---|---|
| `ClientStrings.ClampTxPayloadSize` | src/VizIoTMqttClient.cpp:19-20 | the stored size lies in [128, 4096]; an in-range request is kept; a smaller one becomes 128 and a larger one 4096 |
| `ClientStrings.ClampIdempotent` | src/VizIoTMqttClient.cpp:19-20 | clamping an already clamped size changes nothing |
| `ClientStrings.ClampExamples` | src/VizIoTMqttClient.h:35-37 | the default 1024 is kept by the clamp; 50 becomes 128 and 5000 becomes 4096 |
| `ClientStrings.ClientId` | src/VizIoTMqttClient.cpp:24 | the id is `arduinoClient-` followed by the key verbatim |
| `ClientStrings.PublishTopic` | src/VizIoTMqttClient.cpp:25 | the topic is `/devices/`, then the key verbatim, then `/packet` |
| `ClientStrings.SubscribeTopic` | src/VizIoTMqttClient.cpp:26 | the filter is the parameter topic of the key whose last level is the `+` wildcard, and it ends in `+` |
| `ClientStrings.ParamTopic` | src/VizIoTMqttClient.cpp:26 | the concrete topic covered by the filter is `/devices/`, then the key, then `/param/`, then the name, each at its fixed position |
| `ClientStrings.ClientIdInjective` | src/VizIoTMqttClient.cpp:24 | distinct keys give distinct client ids |
| `ClientStrings.PublishTopicInjective` | src/VizIoTMqttClient.cpp:25 | distinct keys give distinct publish topics |
| `ClientStrings.SubscribeTopicInjective` | src/VizIoTMqttClient.cpp:26 | distinct keys give distinct subscription filters |
| `ClientStrings.PublishTopicIsNotSubscribeTopic` | src/VizIoTMqttClient.cpp:25-26 | no key's publish topic equals any key's subscription filter |
| `ClientStrings.LastIndexOf` | src/VizIoTMqttClient.cpp:71 | the result is -1 or an index holding the character, and no later index holds it |
| `ClientStrings.ParamName` | src/VizIoTMqttClient.cpp:71 | the name is a suffix of the topic with no `/`; it is the whole topic when the topic has no `/`, and otherwise topic = prefix + `/` + name |
| `ClientStrings.SuffixAfterLastSlash` | src/VizIoTMqttClient.cpp:71 | cutting after the last `/` (or after index -1) leaves a slash-free suffix that rebuilds the topic |
| `ClientStrings.LastSlashBeforeName` | src/VizIoTMqttClient.cpp:71 | in `prefix/name` with a slash-free name, the last `/` is the one before the name |
| `ClientStrings.ParamNameOfParamTopic` | src/VizIoTMqttClient.cpp:71 | a message on `/devices/<key>/param/<name>` is dispatched under `name`, for every key |
| `ClientStrings.Truncated` | src/VizIoTMqttClient.cpp:72-73 | what is read is a prefix of the body of at most 255 bytes, the whole body when it fits, exactly 255 bytes otherwise |
| `ClientStrings.CString` | src/VizIoTMqttClient.cpp:74-77 | the text seen through a `const char*` is the prefix of the buffer before its first NUL, and holds no NUL |
| `ClientStrings.CStringStopsAtTerminator` | src/VizIoTMqttClient.cpp:74 | nothing after the written terminator is visible through the `const char*` |
| `ClientStrings.DeliveredValue` | src/VizIoTMqttClient.cpp:72-77 | the value handed to the callback is a NUL-free prefix of the body of at most 255 bytes that stops only at a NUL or at the 255-byte cut; it is the truncated body when that has no NUL byte |
| `VizIoTMqtt.WellFormedLogAppend` | src/VizIoTMqttClient.cpp:48-59 | the transport log of whole operations chains: subscribe-after-connect and complete publish triples are preserved by appending |
| `VizIoTMqtt.PrintedAppend` | src/VizIoTMqttClient.cpp:96 | the texts printed to the transport over two stretches of the log are those of the first stretch followed by those of the second |
| `VizIoTMqtt.PrintedWithoutPrints` | src/VizIoTMqttClient.cpp:40-59 | a stretch of the transport log with no `print`, such as configuration or the connect procedure, sends no message body |
| `VizIoTMqtt.ConfigureSteps` | src/VizIoTMqttClient.cpp:40-43 | `begin` makes exactly four configuration calls, in this order: setId(id), setUsernamePassword(key, pass), onMessage and setTxPayloadSize(size); none is a write, connect or subscribe, and nothing is printed |
| `VizIoTMqtt.ConnectSteps` | src/VizIoTMqttClient.cpp:48-59 | nothing happens when already connected; otherwise exactly one connect attempt comes first, and the filter is subscribed exactly when it succeeds |
| `VizIoTMqtt.PublishSteps` | src/VizIoTMqttClient.cpp:82-98 | a write happens exactly when connected and the text is valid JSON; it is beginMessage(publish topic), print(text), endMessage, and the only printed text is the original one |
| `VizIoTMqtt.Dispatched` | src/VizIoTMqttClient.cpp:69-79 | one callback call exactly when the slot is set, with the slot's callback, the topic's last segment and the delivered value: a prefix of the body of at most 255 bytes, the whole truncated body when it has no NUL |
| `VizIoTMqtt.TerminatedBufferDelivers` | src/VizIoTMqttClient.cpp:73-77 | a buffer holding the read bytes followed by the terminator shows the callback exactly the delivered value, whatever lies after the terminator |
| `VizIoTMqtt.Read` | src/VizIoTMqttClient.cpp:73 | `read(payload, 255)` stores the first min(len, 255) body bytes at the start of the buffer and leaves the rest untouched |
| `VizIoTMqtt.Process.constructor` | src/VizIoTMqttClient.cpp:11 | `_instance` starts null |
| `VizIoTMqtt.Process.StaticOnMqttMessage` | src/VizIoTMqttClient.cpp:62-66 | the message goes to the current instance's handler, and is dropped when there is none; nothing but that instance's callback log changes |
| `VizIoTMqtt.Client.constructor` | src/VizIoTMqttClient.cpp:14-30 | host, port, key and password are stored; the tx size is the clamped request; id and topics are derived from the key; the slot is null; the new object becomes `_instance` |
| `VizIoTMqtt.Client.Destroy` | src/VizIoTMqttClient.cpp:33-36 | `_instance` becomes null whichever object it pointed to |
| `VizIoTMqtt.Client.Begin` | src/VizIoTMqttClient.cpp:39-45 | the four configuration calls come before the connect procedure, and nothing is printed |
| `VizIoTMqtt.Client.ConnectToMqtt` | src/VizIoTMqttClient.cpp:48-59 | the log grows by the connect procedure's steps; the client is connected afterwards exactly when it was before or the attempt succeeded |
| `VizIoTMqtt.Client.OnMqttMessage` | src/VizIoTMqttClient.cpp:69-79 | the callback log grows by exactly what the slot dispatches for the topic and body |
| `VizIoTMqtt.Client.PublishJson` | src/VizIoTMqttClient.cpp:82-98 | returns true only when connected, valid and endMessage succeeded; the log grows by the publish steps; the text is printed verbatim exactly when connected and valid |
| `VizIoTMqtt.Client.SetParameterCallback` | src/VizIoTMqttClient.cpp:101-103 | the slot is replaced wholesale |
| `VizIoTMqtt.Client.IsConnected` | src/VizIoTMqttClient.cpp:106-108 | reports the transport's connection state |
| `VizIoTMqtt.Client.Reconnect` | src/VizIoTMqttClient.cpp:111-115 | does nothing when connected; otherwise runs exactly one connect attempt |
| `VizIoTMqtt.Client.Poll` | src/VizIoTMqttClient.cpp:118-120 | one `poll` on the transport; the session may only be lost, never gained |
| `VizIoTMqtt.Client.LinkLost` | src/VizIoTMqttClient.cpp:82 | after the link drops outside `poll`, the adapter sees itself disconnected and the transport log and object invariant are unchanged |
| `VizIoTMqtt.DefaultConstruction` | src/VizIoTMqttClient.h:33-37 | defaults are host `viziot.com`, port 48651 and tx size 1024, which the clamp keeps |
| `VizIoTMqtt.ParameterUpdateScenario` | src/VizIoTMqttClient.cpp:62-78 | an update on `/devices/<key>/param/brightness` with body `42` reaches only the newest callback, once, as (`brightness`, `42`) |
| `VizIoTMqtt.DroppedLinkScenario` | src/VizIoTMqttClient.cpp:82-98 | after a successful `begin` and a dropped link, `publishJson` returns false and nothing is written, whatever the text |
| `VizIoTMqtt.StaleDestructorScenario` | src/VizIoTMqttClient.cpp:33-36 | destroying an older object silences a newer live one |
| `VizIoTMqtt.LatestInstanceScenario` | src/VizIoTMqttClient.h:90 | with two live objects only the most recently constructed one's callback is called, with what that object's transport holds |

## Left out

- Board and Wi-Fi library selection by preprocessor conditionals is build configuration, not behaviour.
- ArduinoMqttClient internals are foreign code: the TCP handshake, MQTT framing, keep-alive and what `poll` does inside. Only the calls the adapter makes and the connected state are kept. The connected state falls in `Poll` or in `LinkLost`, the environment step for a link found down between two calls; the model does not say when that happens.
- The inbound message is not tied to `poll`. The library calls the trampoline from inside `poll`; here the trampoline is called directly, with the message's topic and body as arguments.
- VizIoTMqtt.Process.StaticOnMqttMessage: the topic and body it takes stand for what the current `_instance`'s own transport holds, because `_onMqttMessage` reads `messageTopic()` and `read` from that object's transport, not from the transport that received the message. The model has no per-transport inbound state, so it does not capture that a message arriving on an older object's transport never reaches any callback with its own topic and body.
- Broker-side matching of the `+` wildcard (section 4.7.1.3 of OASIS MQTT Version 3.1.1) is done by the broker, not by this code.
- ArduinoJson's `deserializeJson` and its 1024-byte document budget are a foreign parser. Validity is the function parameter `validJson`, so valid JSON that is too large for the budget can also be rejected.
- `Serial` logging and `connectError()` codes are I/O only.
- Heap allocation and deletion of the `MqttClient` object (`new` in the constructor, `delete` in the destructor) is not modelled. Use of an object after `Destroy` is not excluded.
- The constructor keeps `mqtt_host`, `DEVICE_KEY` and `DEVICE_PASS` as borrowed `const char*` pointers and reads them again in `begin` and `connect`, while the id and topics are copies made at construction. The model stores values, so it does not capture the aliasing: a caller buffer that changes or is freed before `begin` would change the credentials and host but not the topics.
- `messageSize` is passed to the handlers but the code never uses it.
- VizIoTMqtt.Read: assumes the foreign `read` returns min(body length, 255) bytes. A short read or a negative error length is not modelled.
- The user callback is foreign code. A call is recorded as an `Invocation` entry; its own effects, including re-entrant calls into the client, are not modelled.
- The result of `subscribe` is ignored by the code and is not modelled.
- The documented key length (16 characters) and password length (20 characters) are not checked by the code and are not preconditions here.
- Topics, device keys, passwords and published texts are Dafny strings of Unicode characters, while the source handles them as byte strings (`String`, `const char*`) that cannot hold a NUL. The lemmas about keys and topics therefore also range over keys the source never sees, such as keys with a NUL or non-ASCII characters; for the `/` search this changes nothing, because a `/` byte never occurs inside a multi-byte UTF-8 sequence. The port is an unbounded integer; the code only stores and forwards it.
