/**
  The VizIoTMqttClient object: a device adapter over an MQTT transport.

  The transport (ArduinoMqttClient) is reduced to what the adapter can
  observe of it: whether it reports itself connected, and the log of the
  calls the adapter makes on it. The outcomes of foreign calls (whether
  `connect` succeeds, what `endMessage` returns, whether ArduinoJson
  accepts a text, what arrives on the wire) are parameters.
 */
module VizIoTMqtt {
  import opened ClientStrings

  datatype Option<T> = None | Some(value: T)

  /** A user function pointer `void (*)(const char* paramName, const char* value)`, by identity. */
  datatype Callback = Callback(id: nat)

  /** A call the adapter makes on the transport that changes its state or writes to the broker. */
  datatype Action =
    | SetId(id: string)
    | SetUsernamePassword(user: string, pass: string)
    | OnMessage                                   // registers the static trampoline as message handler
    | SetTxPayloadSize(size: u16)
    | Connect(host: string, port: int)
    | Subscribe(topic: string)
    | BeginMessage(topic: string)
    | Print(text: string)
    | EndMessage
    | Poll

  /** One call of the registered parameter callback. */
  datatype Invocation = Invocation(callback: Callback, paramName: string, value: seq<byte>)

  // ---------------------------------------------------------------------
  // Shape of the transport log

  /** Writes to the broker (as opposed to configuration, connect, subscribe and poll). */
  predicate IsWrite(a: Action) {
    a.BeginMessage? || a.Print? || a.EndMessage?
  }

  /** Where each action may stand: a subscribe right after a connect attempt, and every
      write inside a complete beginMessage/print/endMessage triple. */
  predicate FitsAt(log: seq<Action>, i: nat)
    requires i < |log|
  {
    match log[i]
    case Subscribe(_) => i > 0 && log[i - 1].Connect?
    case BeginMessage(_) => i + 2 < |log| && log[i + 1].Print? && log[i + 2].EndMessage?
    case Print(_) => 0 < i < |log| - 1 && log[i - 1].BeginMessage? && log[i + 1].EndMessage?
    case EndMessage => i > 1 && log[i - 2].BeginMessage? && log[i - 1].Print?
    case _ => true
  }

  predicate WellFormedLog(log: seq<Action>) {
    forall i :: 0 <= i < |log| ==> FitsAt(log, i)
  }

  /** Logs of whole operations can be chained: every constraint of `FitsAt` stays within one operation. */
  lemma WellFormedLogAppend(a: seq<Action>, b: seq<Action>)
    requires WellFormedLog(a) && WellFormedLog(b)
    ensures WellFormedLog(a + b)
  {
    var ab := a + b;
    forall i | 0 <= i < |ab|
      ensures FitsAt(ab, i)
    {
      if i < |a| {
        assert FitsAt(a, i);
      } else {
        assert FitsAt(b, i - |a|);
        assert forall j :: |a| <= j < |ab| ==> ab[j] == b[j - |a|];
      }
    }
  }

  /** The texts handed to `print` in the log, in order. */
  function Printed(log: seq<Action>): (texts: seq<string>)
    ensures |texts| <= |log|
  {
    if log == [] then []
    else (if log[0].Print? then [log[0].text] else []) + Printed(log[1..])
  }

  lemma {:induction false} PrintedAppend(a: seq<Action>, b: seq<Action>)
    ensures Printed(a + b) == Printed(a) + Printed(b)
  {
    if a == [] {
      assert a + b == b;
    } else {
      var head := if a[0].Print? then [a[0].text] else [];
      assert (a + b)[0] == a[0] && (a + b)[1..] == a[1..] + b;
      PrintedAppend(a[1..], b);
      calc {
        Printed(a + b);
        head + Printed(a[1..] + b);
        head + (Printed(a[1..]) + Printed(b));
        (head + Printed(a[1..])) + Printed(b);
      }
    }
  }

  /** A stretch of the log without `print` adds no message body. */
  lemma {:induction false} PrintedWithoutPrints(log: seq<Action>)
    requires forall a :: a in log ==> !a.Print?
    ensures Printed(log) == []
  {
    if log != [] {
      assert log[0] in log;
      assert forall a :: a in log[1..] ==> a in log;
      PrintedWithoutPrints(log[1..]);
    }
  }

  // ---------------------------------------------------------------------
  // The adapter's decisions, as functions of what it observes

  /** `begin`: the four configuration calls made before the first connect attempt. */
  function ConfigureSteps(id: string, key: string, pass: string, size: u16): (steps: seq<Action>)
    ensures |steps| == 4
    ensures SetId(id) in steps && SetUsernamePassword(key, pass) in steps
    ensures OnMessage in steps && SetTxPayloadSize(size) in steps
    ensures steps[0] == SetId(id) && steps[1] == SetUsernamePassword(key, pass)
    ensures steps[2] == OnMessage && steps[3] == SetTxPayloadSize(size)
    ensures WellFormedLog(steps)
    ensures forall a :: a in steps ==> !IsWrite(a) && !a.Connect? && !a.Subscribe?
    ensures Printed(steps) == []
  {
    var steps := [SetId(id), SetUsernamePassword(key, pass), OnMessage, SetTxPayloadSize(size)];
    PrintedWithoutPrints(steps);
    steps
  }

  function ConnectAttempts(log: seq<Action>): nat
  {
    if log == [] then 0 else (if log[0].Connect? then 1 else 0) + ConnectAttempts(log[1..])
  }

  /** `_connectToMqtt`: nothing when already connected; otherwise one connect attempt,
      followed by the subscription exactly when that attempt succeeds. */
  function ConnectSteps(wasConnected: bool, connectOk: bool, host: string, port: int, filter: string): (steps: seq<Action>)
    ensures wasConnected ==> steps == []
    ensures !wasConnected ==> |steps| > 0 && steps[0] == Connect(host, port)
    ensures ConnectAttempts(steps) == (if wasConnected then 0 else 1)
    ensures Subscribe(filter) in steps <==> !wasConnected && connectOk
    ensures forall a :: a in steps ==> a == Connect(host, port) || a == Subscribe(filter)
    ensures Printed(steps) == []
    ensures WellFormedLog(steps)
  {
    if wasConnected then []
    else if connectOk then
      var steps := [Connect(host, port), Subscribe(filter)];
      assert steps[1..][1..] == [];
      assert ConnectAttempts(steps[1..]) == 0;
      PrintedWithoutPrints(steps);
      steps
    else
      var steps := [Connect(host, port)];
      assert steps[1..] == [];
      PrintedWithoutPrints(steps);
      steps
  }

  /** `publishJson`: a write only when connected and the text is accepted as JSON,
      and then a message to the publish topic whose single print is the text itself. */
  function PublishSteps(connected: bool, valid: bool, topic: string, text: string): (steps: seq<Action>)
    ensures (exists a :: a in steps && IsWrite(a)) <==> connected && valid
    ensures steps == [] || steps == [BeginMessage(topic), Print(text), EndMessage]
    ensures Printed(steps) == if connected && valid then [text] else []
    ensures WellFormedLog(steps)
  {
    if connected && valid then
      var steps := [BeginMessage(topic), Print(text), EndMessage];
      assert steps[0] in steps && IsWrite(steps[0]);
      assert steps[1..] == [Print(text), EndMessage] && steps[1..][1..] == [EndMessage];
      PrintedWithoutPrints([EndMessage]);
      steps
    else []
  }

  /** What the single callback slot produces for one inbound message. */
  function Dispatched(slot: Option<Callback>, topic: string, body: seq<byte>): (calls: seq<Invocation>)
    ensures |calls| == if slot.Some? then 1 else 0
    ensures forall c :: c in calls ==>
      && c.callback == slot.value
      && c.paramName == ParamName(topic) && '/' !in c.paramName
      && |c.value| <= PayloadCapacity && |c.value| <= |body| && c.value == body[..|c.value|]
      && (0 !in Truncated(body) ==> c.value == Truncated(body))
      && c.value == DeliveredValue(body)
  {
    if slot.Some? then
      [Invocation(slot.value, ParamName(topic), DeliveredValue(body))]
    else []
  }

  /** The transport's `read(buf, size)` for a message whose body is `body`:
      the first `min(|body|, size)` bytes land at the start of `buf`. */
  method Read(buf: array<byte>, body: seq<byte>, size: nat) returns (len: nat)
    requires size <= buf.Length
    modifies buf
    ensures len == Min(|body|, size)
    ensures buf[..len] == body[..len]
    ensures buf[len..] == old(buf[len..])
  {
    len := Min(|body|, size);
    forall i | 0 <= i < len {
      buf[i] := body[i];
    }
  }

  /** A buffer holding the first `min(|body|, 255)` body bytes followed by a terminator
      shows the callback exactly the delivered value, whatever follows the terminator. */
  lemma TerminatedBufferDelivers(buf: seq<byte>, len: nat, body: seq<byte>)
    requires len == Min(|body|, PayloadCapacity) && len < |buf|
    requires buf[..len] == body[..len] && buf[len] == 0
    ensures CString(buf) == DeliveredValue(body)
  {
    assert buf == buf[..len] + [0] + buf[len + 1..];
    CStringStopsAtTerminator(buf[..len], buf[len + 1..]);
  }

  // ---------------------------------------------------------------------
  // The process-wide `_instance` pointer and the static message trampoline

  class Process {
    /** `VizIoTMqttClient::_instance`: the object the trampoline routes messages to. */
    var instance: Client?

    constructor ()
      ensures instance == null
    {
      instance := null;
    }

    /** `_staticOnMqttMessage`: hand the message to the current instance, or drop it.
        `topic` and `body` are what the current instance's own transport holds: the
        instance reads them from its transport, whichever transport called the trampoline. */
    method StaticOnMqttMessage(messageSize: int, topic: string, body: seq<byte>)
      modifies instance
      ensures instance == old(instance)
      ensures instance != null ==>
        && instance.invocations == old(instance.invocations) + Dispatched(instance.paramCallback, topic, body)
        && instance.paramCallback == old(instance.paramCallback)
        && instance.connected == old(instance.connected)
        && instance.actions == old(instance.actions)
    {
      if instance != null {
        instance.OnMqttMessage(messageSize, topic, body);
      }
    }
  }

  // ---------------------------------------------------------------------
  // The adapter

  class Client {
    const host: string
    const port: int
    const txPayloadSize: u16
    const deviceKey: string
    const devicePass: string
    const clientId: string
    const publishTopic: string
    const subscribeTopic: string

    /** `_paramCallback`: one slot, null when `None`. */
    var paramCallback: Option<Callback>

    /** Transport state as the adapter sees it. */
    var connected: bool
    var actions: seq<Action>

    /** Calls made to the parameter callback, in order. */
    var invocations: seq<Invocation>

    ghost predicate Valid()
      reads this
    {
      && MinTxPayloadSize <= txPayloadSize <= MaxTxPayloadSize
      && clientId == ClientId(deviceKey)
      && publishTopic == PublishTopic(deviceKey)
      && subscribeTopic == SubscribeTopic(deviceKey)
      && WellFormedLog(actions)
    }

    /** The device key and password are documented as 16 and 20 characters; nothing checks it. */
    constructor (process: Process, key: string, pass: string, host: string := DefaultHost,
                 port: int := DefaultPort, requestedTxSize: u16 := DefaultTxPayloadSize)
      modifies process
      ensures Valid()
      ensures this.host == host && this.port == port
      ensures deviceKey == key && devicePass == pass
      ensures txPayloadSize == ClampTxPayloadSize(requestedTxSize)
      ensures paramCallback == None
      ensures !connected && actions == [] && invocations == []
      ensures process.instance == this
    {
      this.host := host;
      this.port := port;
      var capped := if requestedTxSize < 4096 then requestedTxSize else 4096;
      txPayloadSize := if capped > 128 then capped else 128;
      deviceKey := key;
      devicePass := pass;
      clientId := ClientId(key);
      publishTopic := PublishTopic(key);
      subscribeTopic := SubscribeTopic(key);
      paramCallback := None;
      connected := false;
      actions := [];
      invocations := [];
      new;
      process.instance := this;
    }

    /** The destructor: clears `_instance` whichever object it points to. */
    method Destroy(process: Process)
      modifies process
      ensures process.instance == null
    {
      process.instance := null;
    }

    /** `begin`: configure the transport, then run the connect procedure. */
    method Begin(connectOk: bool)
      requires Valid()
      modifies this`actions, this`connected
      ensures Valid()
      ensures actions == old(actions) + ConfigureSteps(clientId, deviceKey, devicePass, txPayloadSize)
                         + ConnectSteps(old(connected), connectOk, host, port, subscribeTopic)
      ensures connected == (old(connected) || connectOk)
      ensures Printed(actions) == Printed(old(actions))
    {
      var configure := ConfigureSteps(clientId, deviceKey, devicePass, txPayloadSize);
      WellFormedLogAppend(actions, configure);
      PrintedAppend(actions, configure);
      actions := actions + [SetId(clientId)];
      actions := actions + [SetUsernamePassword(deviceKey, devicePass)];
      actions := actions + [OnMessage];
      actions := actions + [SetTxPayloadSize(txPayloadSize)];
      assert actions == old(actions) + configure;
      ConnectToMqtt(connectOk);
    }

    /** `_connectToMqtt`; `connectOk` is the outcome of the transport's `connect(host, port)`. */
    method ConnectToMqtt(connectOk: bool)
      requires Valid()
      modifies this`actions, this`connected
      ensures Valid()
      ensures actions == old(actions) + ConnectSteps(old(connected), connectOk, host, port, subscribeTopic)
      ensures connected == (old(connected) || connectOk)
      ensures Printed(actions) == Printed(old(actions))
    {
      ghost var steps := ConnectSteps(connected, connectOk, host, port, subscribeTopic);
      WellFormedLogAppend(actions, steps);
      PrintedAppend(actions, steps);
      if !connected {
        actions := actions + [Connect(host, port)];
        if connectOk {
          connected := true;
          actions := actions + [Subscribe(subscribeTopic)];
        }
      }
      assert actions == old(actions) + steps;
    }

    /** `_onMqttMessage`: name from the topic, at most 255 payload bytes into a
        terminated buffer, then the callback if one is registered. */
    method OnMqttMessage(messageSize: int, topic: string, body: seq<byte>)
      modifies this`invocations
      ensures invocations == old(invocations) + Dispatched(paramCallback, topic, body)
      ensures paramCallback == old(paramCallback)
    {
      var paramName := ParamName(topic);
      var payload := new byte[PayloadCapacity + 1];
      var len := Read(payload, body, PayloadCapacity);
      payload[len] := 0;
      if paramCallback.Some? {
        TerminatedBufferDelivers(payload[..], len, body);
        invocations := invocations + [Invocation(paramCallback.value, paramName, CString(payload[..]))];
      }
    }

    /** `publishJson`; `validJson` stands for ArduinoJson's verdict on the text with a
        1024-byte document, `endOk` for the result of the transport's `endMessage`. */
    method PublishJson(text: string, validJson: string -> bool, endOk: bool) returns (ok: bool)
      requires Valid()
      modifies this`actions
      ensures Valid()
      ensures ok == (connected && validJson(text) && endOk)
      ensures actions == old(actions) + PublishSteps(connected, validJson(text), publishTopic, text)
      ensures Printed(actions) == Printed(old(actions)) + if connected && validJson(text) then [text] else []
    {
      ghost var steps := PublishSteps(connected, validJson(text), publishTopic, text);
      ghost var before := actions;
      WellFormedLogAppend(before, steps);
      PrintedAppend(before, steps);
      ok := false;
      if connected {
        if validJson(text) {
          actions := actions + [BeginMessage(publishTopic)];
          actions := actions + [Print(text)];
          actions := actions + [EndMessage];
          ok := endOk;
          assert steps == [BeginMessage(publishTopic), Print(text), EndMessage];
        }
      }
      assert actions == before + steps;
    }

    /** `setParameterCallback`: the new slot replaces the old one wholesale. */
    method SetParameterCallback(callback: Option<Callback>)
      modifies this`paramCallback
      ensures paramCallback == callback
    {
      paramCallback := callback;
    }

    /** `isConnected`: the transport's own state. */
    method IsConnected() returns (r: bool)
      ensures r == connected
    {
      r := connected;
    }

    /** `reconnect`: the connect procedure, entered only when disconnected. */
    method Reconnect(connectOk: bool)
      requires Valid()
      modifies this`actions, this`connected
      ensures Valid()
      ensures actions == old(actions) + ConnectSteps(old(connected), connectOk, host, port, subscribeTopic)
      ensures connected == (old(connected) || connectOk)
      ensures Printed(actions) == Printed(old(actions))
    {
      if !connected {
        ConnectToMqtt(connectOk);
      }
    }

    /** `poll`: services the transport; `linkUp` is whether the session survived it. */
    method Poll(linkUp: bool)
      requires Valid()
      modifies this`actions, this`connected
      ensures Valid()
      ensures actions == old(actions) + [Action.Poll]
      ensures connected == (old(connected) && linkUp)
      ensures Printed(actions) == Printed(old(actions))
    {
      WellFormedLogAppend(actions, [Action.Poll]);
      PrintedAppend(actions, [Action.Poll]);
      actions := actions + [Action.Poll];
      connected := connected && linkUp;
    }

    /** The transport finds the link down between two calls of the adapter (the broker
        closed the socket, a keep-alive was missed): every later `connected()` query
        answers false, and no call is made on the transport. */
    method LinkLost()
      requires Valid()
      modifies this`connected
      ensures Valid()
      ensures !connected
    {
      connected := false;
    }
  }

  // ---------------------------------------------------------------------
  // Whole-object scenarios

  /** Defaults of the constructor: host "viziot.com", port 48651, and a tx size of 1024 that the clamp keeps. */
  method DefaultConstruction(key: string, pass: string) returns (host: string, port: int, size: u16)
    ensures host == "viziot.com" && port == 48651 && size == 1024
  {
    var process := new Process();
    var client := new Client(process, key, pass);
    host, port, size := client.host, client.port, client.txPayloadSize;
  }

  /** An update on `/devices/<key>/param/brightness` with body "42" reaches the newest
      callback once, as ("brightness", "42"); the callback it replaced is not called. */
  method ParameterUpdateScenario(key: string, pass: string, older: Callback, newer: Callback)
    returns (calls: seq<Invocation>)
    ensures calls == [Invocation(newer, "brightness", [52, 50])]
  {
    var process := new Process();
    var client := new Client(process, key, pass);
    client.Begin(true);
    client.SetParameterCallback(Some(older));
    client.SetParameterCallback(Some(newer));
    ParamNameOfParamTopic(key, "brightness");
    assert DeliveredValue([52, 50]) == [52, 50];
    process.StaticOnMqttMessage(2, ParamTopic(key, "brightness"), [52, 50]);
    assert client.invocations == Dispatched(Some(newer), ParamTopic(key, "brightness"), [52, 50]);
    calls := client.invocations;
  }

  /** A link that drops after a successful `begin`, without any `poll`, makes the next
      publish return false and write nothing to the broker. */
  method DroppedLinkScenario(key: string, pass: string, text: string, validJson: string -> bool)
    returns (ok: bool, written: seq<string>)
    ensures !ok && written == []
  {
    var process := new Process();
    var client := new Client(process, key, pass);
    client.Begin(true);
    client.LinkLost();
    ghost var before := client.actions;
    ok := client.PublishJson(text, validJson, true);
    assert client.actions == before;
    written := Printed(client.actions);
  }

  /** Destroying an older object clears `_instance` although a newer object is alive,
      so the newer object's callback is never reached again. */
  method StaleDestructorScenario(topic: string, body: seq<byte>, callback: Callback)
    returns (delivered: nat)
    ensures delivered == 0
  {
    var process := new Process();
    var first := new Client(process, "first", "pass");
    first.Begin(true);
    var second := new Client(process, "second", "pass");
    second.Begin(true);
    second.SetParameterCallback(Some(callback));
    first.Destroy(process);
    process.StaticOnMqttMessage(|body|, topic, body);
    delivered := |second.invocations|;
  }

  /** With two live objects only the most recently constructed one's callback is called,
      whichever transport the message arrived on. */
  method LatestInstanceScenario(topic: string, body: seq<byte>, c1: Callback, c2: Callback)
    returns (firstCalls: nat, secondCalls: nat)
    ensures firstCalls == 0 && secondCalls == 1
  {
    var process := new Process();
    var first := new Client(process, "first", "pass");
    first.Begin(true);
    first.SetParameterCallback(Some(c1));
    var second := new Client(process, "second", "pass");
    second.Begin(true);
    second.SetParameterCallback(Some(c2));
    assert process.instance == second && second.invocations == [];
    process.StaticOnMqttMessage(|body|, topic, body);
    assert second.invocations == Dispatched(Some(c2), topic, body);
    firstCalls, secondCalls := |first.invocations|, |second.invocations|;
  }
}
