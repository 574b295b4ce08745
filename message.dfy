// The bridge messages of internal/bridge/message.go: a message with its
// type, status, priority, the two ends it travels between, a payload of
// bytes and a metadata map; replies that answer a message; and a router
// that hands a message to the handler of its type. The id uuid.New hands
// out and the clock are parameters, JSON encoding is a parameter, and a
// string payload becomes its UTF-8 bytes through a parameter too.
module BridgeMessages {
  import opened Wrappers
  import opened Bridges

  const TypeRequest := "request"
  const TypeResponse := "response"
  const TypeEvent := "event"
  const TypeError := "error"

  const StatusPending := "pending"

  const PriorityLow := 1
  const PriorityNormal := 2
  const PriorityHigh := 3
  const PriorityCritical := 4

  /** What a payload argument is: bytes, a string, nil or any other value,
    * which is encoded as JSON. */
  datatype Payload = Bytes(bytes: seq<bv8>) | Text(text: string) | Nil | Value(value: string)

  /** The JSON encoding of nil. */
  const NullJson: seq<bv8> := [0x6E, 0x75, 0x6C, 0x6C]

  /** The encoding functions a payload goes through. */
  datatype Encoding = Encoding(utf8: string -> seq<bv8>, marshal: string -> Result<seq<bv8>, string>)

  /** The payload switch of NewMessage and SetPayload. */
  function PayloadBytes(p: Payload, enc: Encoding): (r: Result<seq<bv8>, string>)
    ensures p.Bytes? ==> r == Ok(p.bytes)
    ensures p.Text? ==> r == Ok(enc.utf8(p.text))
    ensures p.Nil? ==> r == Ok(NullJson)
    ensures r.Err? <==> p.Value? && enc.marshal(p.value).Err?
    ensures r.Err? ==> r.error == "failed to marshal payload: " + enc.marshal(p.value).error
  {
    match p
    case Bytes(b) => Ok(b)
    case Text(s) => Ok(enc.utf8(s))
    case Nil => Ok(NullJson)
    case Value(v) =>
      var m := enc.marshal(v);
      if m.Err? then Err("failed to marshal payload: " + m.error) else Ok(m.value)
  }

  /** The zero time, which an unset expiration holds. */
  const ZeroTime := 0

  class Message {
    var id: string
    var msgType: string
    var status: string
    var priority: int
    var source: Option<BridgeTarget>
    var destination: Option<BridgeTarget>
    var payload: seq<bv8>
    /** `None` is a nil map. */
    var metadata: Option<map<string, string>>
    var timestamp: int
    var expiration: int
    var correlationID: string
    var error: string
    var attempts: int

    /** The message NewMessage builds: pending, of normal priority, with an
      * empty metadata map and no ends, correlation, error or expiration. */
    constructor(id: string, msgType: string, payload: seq<bv8>, now: int)
      ensures this.id == id && this.msgType == msgType && this.payload == payload && timestamp == now
      ensures status == StatusPending && priority == PriorityNormal && metadata == Some(map[])
      ensures source.None? && destination.None? && expiration == ZeroTime
      ensures correlationID == "" && error == "" && attempts == 0
    {
      this.id := id;
      this.msgType := msgType;
      status := StatusPending;
      priority := PriorityNormal;
      source := None;
      destination := None;
      this.payload := payload;
      metadata := Some(map[]);
      timestamp := now;
      expiration := ZeroTime;
      correlationID := "";
      error := "";
      attempts := 0;
    }

    /** SetPayload: the payload is replaced unless it cannot be encoded. */
    method SetPayload(p: Payload, enc: Encoding) returns (err: Option<string>)
      modifies this
      ensures PayloadBytes(p, enc).Ok? ==> err.None? && payload == PayloadBytes(p, enc).value
      ensures PayloadBytes(p, enc).Err? ==> err == Some(PayloadBytes(p, enc).error) && payload == old(payload)
      ensures id == old(id) && msgType == old(msgType) && status == old(status) && priority == old(priority)
      ensures source == old(source) && destination == old(destination) && metadata == old(metadata)
      ensures timestamp == old(timestamp) && expiration == old(expiration)
      ensures correlationID == old(correlationID) && error == old(error) && attempts == old(attempts)
    {
      var bytes := PayloadBytes(p, enc);
      if bytes.Err? {
        return Some(bytes.error);
      }
      payload := bytes.value;
      err := None;
    }

    /** GetPayload refuses an empty payload before decoding. */
    function GetPayload(decode: seq<bv8> -> Result<string, string>): (r: Result<string, string>)
      reads this
      ensures |payload| == 0 ==> r == Err("empty payload")
      ensures |payload| > 0 ==> r == decode(payload)
    {
      if |payload| == 0 then Err("empty payload") else decode(payload)
    }

    method SetExpiration(duration: int, now: int)
      modifies this
      ensures expiration == now + duration
      ensures id == old(id) && msgType == old(msgType) && status == old(status) && priority == old(priority)
      ensures source == old(source) && destination == old(destination) && metadata == old(metadata)
      ensures payload == old(payload) && timestamp == old(timestamp)
      ensures correlationID == old(correlationID) && error == old(error) && attempts == old(attempts)
    {
      expiration := now + duration;
    }

    /** IsExpired: a message without an expiration never expires; one with
      * an expiration has expired once the clock is past it. */
    predicate IsExpired(now: int)
      reads this
    {
      expiration != ZeroTime && now > expiration
    }

    /** AddMetadata: a nil map is made first, and the key is (re)set. */
    method AddMetadata(key: string, value: string)
      modifies this
      ensures metadata == Some((if old(metadata).Some? then old(metadata).value else map[])[key := value])
      ensures id == old(id) && msgType == old(msgType) && status == old(status) && priority == old(priority)
      ensures source == old(source) && destination == old(destination) && payload == old(payload)
      ensures timestamp == old(timestamp) && expiration == old(expiration)
      ensures correlationID == old(correlationID) && error == old(error) && attempts == old(attempts)
    {
      if metadata.None? {
        metadata := Some(map[]);
      }
      metadata := Some(metadata.value[key := value]);
    }

    /** GetMetadata: the value stored under the key; nothing in a nil map. */
    function GetMetadata(key: string): (r: (string, bool))
      reads this
      ensures r.1 <==> metadata.Some? && key in metadata.value
      ensures r.1 ==> r.0 == metadata.value[key]
      ensures !r.1 ==> r.0 == ""
    {
      if metadata.None? then ("", false)
      else if key in metadata.value then (metadata.value[key], true)
      else ("", false)
    }

    /** CreateResponse: a response to this message, correlated with it and
      * travelling back the way it came. */
    method CreateResponse(p: Payload, enc: Encoding, newID: string, now: int) returns (r: Result<Message, string>)
      ensures PayloadBytes(p, enc).Err? ==> r == Err(PayloadBytes(p, enc).error)
      ensures PayloadBytes(p, enc).Ok? ==> r.Ok? && fresh(r.value)
      ensures r.Ok? ==> (Answers(r.value, this) && r.value.msgType == TypeResponse
        && r.value.payload == PayloadBytes(p, enc).value && r.value.error == ""
        && r.value.status == StatusPending && r.value.priority == PriorityNormal
        && r.value.id == newID && r.value.timestamp == now)
    {
      var bytes := PayloadBytes(p, enc);
      if bytes.Err? {
        return Err(bytes.error);
      }
      var response := new Message(newID, TypeResponse, bytes.value, now);
      response.correlationID := id;
      response.source := destination;
      response.destination := source;
      r := Ok(response);
    }

    /** CreateErrorResponse: an error message carrying the text, correlated
      * with this message and travelling back; a nil payload always encodes. */
    method CreateErrorResponse(errMsg: string, newID: string, now: int) returns (response: Message)
      ensures fresh(response)
      ensures Answers(response, this) && response.msgType == TypeError && response.error == errMsg
      ensures response.payload == NullJson && response.status == StatusPending && response.priority == PriorityNormal
      ensures response.id == newID && response.timestamp == now
    {
      response := new Message(newID, TypeError, NullJson, now);
      response.correlationID := id;
      response.error := errMsg;
      response.source := destination;
      response.destination := source;
    }
  }

  /** A reply answers a message when it names the message's id and swaps its ends. */
  predicate Answers(reply: Message, original: Message)
    reads reply, original
  {
    reply.correlationID == original.id && reply.source == original.destination && reply.destination == original.source
  }

  /** A message with an expiration set at `now` for a positive duration has
    * not expired at `now` and has expired after the duration. */
  lemma ExpirationMeaning(m: Message, now: int, duration: int, later: int)
    requires m.expiration == now + duration && now + duration != ZeroTime && duration > 0
    ensures !m.IsExpired(now)
    ensures m.IsExpired(later) <==> later > now + duration
  {
  }

  /** Without an expiration a message is never expired. */
  lemma ZeroNeverExpires(m: Message, now: int)
    requires m.expiration == ZeroTime
    ensures !m.IsExpired(now)
  {
  }

  /** Which handler a message goes to. */
  datatype Route = TypeHandler(handler: string) | DefaultHandler(handler: string) | NoHandler

  function NoHandlerMessage(msgType: string): string
  {
    "no handler registered for message type: " + msgType
  }

  /** The router's handlers are named; what a handler does with a message is
    * given by `run`. */
  class MessageRouter {
    var handlers: map<string, string>
    var defaultHandler: Option<string>

    constructor()
      ensures handlers == map[] && defaultHandler.None?
    {
      handlers := map[];
      defaultHandler := None;
    }

    method RegisterHandler(msgType: string, handler: string)
      modifies this
      ensures handlers == old(handlers)[msgType := handler] && defaultHandler == old(defaultHandler)
    {
      handlers := handlers[msgType := handler];
    }

    method RegisterDefaultHandler(handler: string)
      modifies this
      ensures defaultHandler == Some(handler) && handlers == old(handlers)
    {
      defaultHandler := Some(handler);
    }

    /** The choice Route makes: the handler of the type, else the default one. */
    function Choose(msgType: string): (r: Route)
      reads this
      ensures r.TypeHandler? <==> msgType in handlers
      ensures r.TypeHandler? ==> r.handler == handlers[msgType]
      ensures r.DefaultHandler? <==> msgType !in handlers && defaultHandler.Some?
      ensures r.DefaultHandler? ==> r.handler == defaultHandler.value
    {
      if msgType in handlers then TypeHandler(handlers[msgType])
      else if defaultHandler.Some? then DefaultHandler(defaultHandler.value)
      else NoHandler
    }

    /** Route: the chosen handler's answer, or an error reply naming the type. */
    method RouteMessage(msg: Message, run: string -> Result<Message, string>, newID: string, now: int)
      returns (r: Result<Message, string>)
      ensures Choose(msg.msgType).NoHandler? ==> (r.Ok? && fresh(r.value) && Answers(r.value, msg)
        && r.value.msgType == TypeError && r.value.error == NoHandlerMessage(msg.msgType))
      ensures !Choose(msg.msgType).NoHandler? ==> r == run(Choose(msg.msgType).handler)
    {
      if msg.msgType in handlers {
        return run(handlers[msg.msgType]);
      }
      if defaultHandler.Some? {
        return run(defaultHandler.value);
      }
      var reply := msg.CreateErrorResponse(NoHandlerMessage(msg.msgType), newID, now);
      r := Ok(reply);
    }
  }

  /** A handler registered for a type takes precedence over the default
    * handler, whatever is registered later as the default. */
  lemma TypeHandlerFirst(r: MessageRouter, msgType: string)
    requires msgType in r.handlers
    ensures r.Choose(msgType) == TypeHandler(r.handlers[msgType])
  {
  }
}
