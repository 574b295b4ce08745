// The bridge of internal/bridge/bridge.go: named adapters and protocols, a
// status that Initialize and Shutdown move forward, and Call, which checks
// the status and the target before it encodes, sends and decodes a
// message. The adapters' and protocols' own behaviour, the clock and the
// message ids are parameters.
module Bridges {
  import opened Wrappers
  import opened Seqs

  const Second: int := 1_000_000_000

  const ErrAdapterNotFound := "adapter not found"
  const ErrProtocolNotFound := "protocol not found"
  const ErrInvalidTarget := "invalid target specification"
  const ErrBridgeNotInitialized := "bridge not initialized"
  const ErrAdapterInitFailed := "adapter initialization failed"
  const ErrProtocolInitFailed := "protocol initialization failed"

  datatype BridgeStatus = Uninitialized | Initializing | Ready | ShuttingDown | StatusError
  {
    function Name(): string
    {
      match this
      case Uninitialized => "uninitialized"
      case Initializing => "initializing"
      case Ready => "ready"
      case ShuttingDown => "shutting_down"
      case StatusError => "error"
    }
  }

  datatype BridgeOptions = BridgeOptions(defaultTimeout: int, retryCount: int, retryDelay: int, maxConcurrency: int,
                                         enableDiscovery: bool, enableMetrics: bool, enableCompression: bool,
                                         bufferSize: int, logLevel: string)

  function DefaultBridgeOptions(): (o: BridgeOptions)
    ensures o.defaultTimeout == 30 * Second && o.retryCount == 3 && o.bufferSize == 1024 && o.logLevel == "info"
  {
    BridgeOptions(30 * Second, 3, Second, 100, true, true, true, 1024, "info")
  }

  datatype BridgeTarget = BridgeTarget(adapter: string, protocol: string, service: string, operation: string)

  datatype ProtocolMessage = ProtocolMessage(id: string, msgType: string, payload: string, timestamp: int)

  /** What the registered protocols and adapters do with a message, by name. */
  datatype Wire = Wire(encode: (string, ProtocolMessage) -> Result<seq<int>, string>,
                       send: (string, seq<int>) -> Result<seq<int>, string>,
                       decode: (string, seq<int>) -> Result<ProtocolMessage, string>)

  /** The message lastError records when `name` fails to initialise with `e`. */
  function InitFailure(kind: string, name: string, e: string): string
  {
    kind + ": " + name + ": " + e
  }

  /** Every message a failing initialisation among `names` can leave. */
  function Failures(kind: string, names: set<string>, init: string -> Option<string>): set<string>
  {
    set n | n in names && init(n).Some? :: InitFailure(kind, n, init(n).value)
  }

  /** A pass over `names` in map order, each failure overwriting `last`. */
  method InitializeAll(kind: string, names: set<string>, init: string -> Option<string>, last0: Option<string>)
    returns (last: Option<string>)
    ensures (forall n :: n in names ==> init(n).None?) ==> last == last0
    ensures (exists n :: n in names && init(n).Some?) ==> last.Some? && last.value in Failures(kind, names, init)
  {
    last := last0;
    var left := names;
    while left != {}
      invariant left <= names
      invariant (forall n :: n in names - left ==> init(n).None?) ==> last == last0
      invariant (exists n :: n in names - left && init(n).Some?) ==> last.Some? && last.value in Failures(kind, names, init)
      decreases |left|
    {
      var n :| n in left;
      var e := init(n);
      if e.Some? {
        last := Some(InitFailure(kind, n, e.value));
      }
      left := left - {n};
    }
    assert names - left == names;
  }

  class Bridge {
    var options: BridgeOptions
    var status: BridgeStatus
    var adapters: set<string>
    var protocols: set<string>
    var lastError: Option<string>

    /** NewBridge: default options for nil ones, nothing registered, Uninitialized. */
    constructor(o: Option<BridgeOptions>)
      ensures options == (if o.None? then DefaultBridgeOptions() else o.value)
      ensures status == Uninitialized && adapters == {} && protocols == {} && lastError == None
    {
      options := if o.None? then DefaultBridgeOptions() else o.value;
      status := Uninitialized;
      adapters := {};
      protocols := {};
      lastError := None;
    }

    /** Initialize: only an Uninitialized bridge initialises. It always ends
      * Ready; a failing adapter or protocol only leaves its message in
      * lastError, and the protocols are initialised after the adapters. */
    method Initialize(adapterInit: string -> Option<string>, protocolInit: string -> Option<string>)
      returns (err: Option<string>)
      modifies this
      ensures old(status) != Uninitialized ==>
        err == Some("bridge already initialized") && status == old(status) && lastError == old(lastError)
      ensures old(status) == Uninitialized ==> err.None? && status == Ready
      ensures (old(status) == Uninitialized && (forall n :: n in adapters ==> adapterInit(n).None?)
               && (forall n :: n in protocols ==> protocolInit(n).None?)) ==> lastError == old(lastError)
      ensures old(status) == Uninitialized && (exists n :: n in protocols && protocolInit(n).Some?) ==>
        lastError.Some? && lastError.value in Failures(ErrProtocolInitFailed, protocols, protocolInit)
      ensures (old(status) == Uninitialized && (exists n :: n in adapters && adapterInit(n).Some?)
               && (forall n :: n in protocols ==> protocolInit(n).None?)) ==>
        lastError.Some? && lastError.value in Failures(ErrAdapterInitFailed, adapters, adapterInit)
      ensures adapters == old(adapters) && protocols == old(protocols) && options == old(options)
    {
      if status != Uninitialized {
        return Some("bridge already initialized");
      }
      status := Initializing;
      var last := InitializeAll(ErrAdapterInitFailed, adapters, adapterInit, lastError);
      last := InitializeAll(ErrProtocolInitFailed, protocols, protocolInit, last);
      lastError := last;
      status := Ready;
      err := None;
    }

    method RegisterAdapter(name: string) returns (err: Option<string>)
      modifies this
      ensures name in old(adapters) ==> err == Some("adapter '" + name + "' already registered") && adapters == old(adapters)
      ensures name !in old(adapters) ==> err.None? && adapters == old(adapters) + {name}
      ensures status == old(status) && protocols == old(protocols) && lastError == old(lastError) && options == old(options)
    {
      if name in adapters {
        return Some("adapter '" + name + "' already registered");
      }
      adapters := adapters + {name};
      err := None;
    }

    method RegisterProtocol(name: string) returns (err: Option<string>)
      modifies this
      ensures name in old(protocols) ==> err == Some("protocol '" + name + "' already registered") && protocols == old(protocols)
      ensures name !in old(protocols) ==> err.None? && protocols == old(protocols) + {name}
      ensures status == old(status) && adapters == old(adapters) && lastError == old(lastError) && options == old(options)
    {
      if name in protocols {
        return Some("protocol '" + name + "' already registered");
      }
      protocols := protocols + {name};
      err := None;
    }

    /** Call: a bridge that is not Ready, a target without an adapter or a
      * protocol, and unknown names are refused before anything is sent;
      * otherwise the payload is what the protocol decodes from the adapter's
      * answer to the encoded message. */
    function Call(target: BridgeTarget, operation: string, data: string, w: Wire, msgID: string, now: int): (r: Result<string, string>)
      reads this
      ensures status != Ready ==> r == Err(ErrBridgeNotInitialized)
      ensures status == Ready && (target.adapter == "" || target.protocol == "") ==> r == Err(ErrInvalidTarget)
      ensures status == Ready && target.adapter != "" && target.protocol != "" && target.protocol !in protocols ==>
        r == Err(ErrProtocolNotFound + ": " + target.protocol)
      ensures status == Ready && target.adapter != "" && target.protocol != "" && target.protocol in protocols && target.adapter !in adapters ==>
        r == Err(ErrAdapterNotFound + ": " + target.adapter)
      ensures r.Ok? ==>
        && status == Ready && target.adapter in adapters && target.protocol in protocols
        && var m := ProtocolMessage(msgID, if operation != "" then operation else target.operation, data, now);
           w.encode(target.protocol, m).Ok?
           && w.send(target.adapter, w.encode(target.protocol, m).value).Ok?
           && w.decode(target.protocol, w.send(target.adapter, w.encode(target.protocol, m).value).value).Ok?
           && r.value == w.decode(target.protocol, w.send(target.adapter, w.encode(target.protocol, m).value).value).value.payload
      ensures status == Ready && target.adapter != "" && target.protocol != "" && target.protocol in protocols && target.adapter in adapters ==>
        var m := ProtocolMessage(msgID, if operation != "" then operation else target.operation, data, now);
        var encoded := w.encode(target.protocol, m);
        && (encoded.Err? ==> r == Err("failed to encode message: " + encoded.error))
        && (encoded.Ok? ==>
              var response := w.send(target.adapter, encoded.value);
              && (response.Err? ==> r == Err("failed to send message: " + response.error))
              && (response.Ok? ==>
                    var decoded := w.decode(target.protocol, response.value);
                    && (decoded.Err? ==> r == Err("failed to decode response: " + decoded.error))
                    && (decoded.Ok? ==> r == Ok(decoded.value.payload))))
    {
      if status != Ready then Err(ErrBridgeNotInitialized)
      else if target.adapter == "" || target.protocol == "" then Err(ErrInvalidTarget)
      else
        var t := if operation != "" then target.(operation := operation) else target;
        if t.protocol !in protocols then Err(ErrProtocolNotFound + ": " + t.protocol)
        else if t.adapter !in adapters then Err(ErrAdapterNotFound + ": " + t.adapter)
        else
          var m := ProtocolMessage(msgID, t.operation, data, now);
          var encoded := w.encode(t.protocol, m);
          if encoded.Err? then Err("failed to encode message: " + encoded.error)
          else
            var response := w.send(t.adapter, encoded.value);
            if response.Err? then Err("failed to send message: " + response.error)
            else
              var decoded := w.decode(t.protocol, response.value);
              if decoded.Err? then Err("failed to decode response: " + decoded.error)
              else Ok(decoded.value.payload)
    }

    /** Shutdown: a second shutdown does nothing; the first empties both registries. */
    method Shutdown()
      modifies this
      ensures old(status) == ShuttingDown ==>
        status == old(status) && adapters == old(adapters) && protocols == old(protocols)
      ensures old(status) != ShuttingDown ==> status == ShuttingDown && adapters == {} && protocols == {}
      ensures lastError == old(lastError) && options == old(options)
    {
      if status == ShuttingDown {
        return;
      }
      status := ShuttingDown;
      adapters := {};
      protocols := {};
    }

    function GetAdapter(name: string): (r: Result<string, string>)
      reads this
      ensures r.Ok? <==> name in adapters
      ensures r.Ok? ==> r.value == name
      ensures r.Err? ==> r.error == ErrAdapterNotFound + ": " + name
    {
      if name in adapters then Ok(name) else Err(ErrAdapterNotFound + ": " + name)
    }

    function GetProtocol(name: string): (r: Result<string, string>)
      reads this
      ensures r.Ok? <==> name in protocols
      ensures r.Ok? ==> r.value == name
      ensures r.Err? ==> r.error == ErrProtocolNotFound + ": " + name
    {
      if name in protocols then Ok(name) else Err(ErrProtocolNotFound + ": " + name)
    }

    method ListAdapters() returns (r: seq<string>)
      ensures Distinct(r) && |r| == |adapters|
      ensures forall x :: x in r <==> x in adapters
    {
      r := Enumerate(adapters);
    }

    method ListProtocols() returns (r: seq<string>)
      ensures Distinct(r) && |r| == |protocols|
      ensures forall x :: x in r <==> x in protocols
    {
      r := Enumerate(protocols);
    }
  }

  /** Once shut down, a bridge refuses every call and every initialisation:
    * nothing moves its status back. */
  method ShutdownIsFinal(b: Bridge, adapterInit: string -> Option<string>, protocolInit: string -> Option<string>,
                         target: BridgeTarget, operation: string, data: string, w: Wire, msgID: string, now: int)
    modifies b
    requires b.status == ShuttingDown
    ensures b.status == ShuttingDown
    ensures b.Call(target, operation, data, w, msgID, now) == Err(ErrBridgeNotInitialized)
  {
    var err := b.Initialize(adapterInit, protocolInit);
    assert err == Some("bridge already initialized");
    b.Shutdown();
  }
}
