/** The COM-server `SerialPort` (SerialPort/SerialPort.cs): the same forwarders
    as `ComPort` around a transport it builds once and never replaces, an
    `Open` that re-wires three event forwarders every time it runs, and a
    registry nothing writes to. */
module ComServer {
  import opened Common
  import opened PortEnums
  import opened SliceArgs
  import opened ErrorRegistry
  import opened DeviceList
  import opened Transport
  import ComPortBridge

  /** The three forwarding handlers one `Open` attaches, in order. */
  const Forwarders: seq<Channel> := [DataChannel, ErrorChannel, PinChannel]

  /** An event as the server's COM clients receive it: the channel and the
      platform's event type as an `int`. */
  datatype SerialEvent = SerialEvent(channel: Channel, eventType: int)

  /** What one platform event on `ch` with type `code` delivers: one event per
      forwarding handler attached for `ch` if a COM client listens on `ch`;
      none otherwise, each handler swallowing the null reference of the
      missing subscriber. */
  function Forwarded(handlers: seq<Channel>, ch: Channel, code: int, listening: bool): (r: seq<SerialEvent>)
    ensures |r| == (if listening then multiset(handlers)[ch] else 0)
    ensures forall i :: 0 <= i < |r| ==> r[i] == SerialEvent(ch, code)
  {
    if handlers == [] || !listening then []
    else
      assert handlers == [handlers[0]] + handlers[1..];
      (if handlers[0] == ch then [SerialEvent(ch, code)] else []) + Forwarded(handlers[1..], ch, code, listening)
  }

  /** The handlers `n` calls of `Open` attach. */
  function Opens(n: nat): (r: seq<Channel>)
    ensures |r| == 3 * n
  {
    if n == 0 then [] else Opens(n - 1) + Forwarders
  }

  /** Forwarders accumulate: after `n` opens every channel has `n` more
      handlers, so each platform event reaches a listening client `n` more
      times. */
  lemma {:induction false} OpensAccumulate(base: seq<Channel>, n: nat, ch: Channel)
    ensures multiset(base + Opens(n))[ch] == multiset(base)[ch] + n
    ensures |Forwarded(base + Opens(n), ch, 0, true)| == multiset(base)[ch] + n
  {
    if n > 0 {
      OpensAccumulate(base, n - 1, ch);
      assert base + Opens(n) == (base + Opens(n - 1)) + Forwarders;
      assert multiset(Forwarders)[ch] == 1;
    }
  }

  class SerialPort {
    /** The transport, built by the constructor and never replaced. */
    const selectedPort: Port
    var portNames: Option<seq<string>>
    /** The registry: set empty by the constructor and never written again. */
    const errors: Registry
    /** The `Device` property; `None` is a null name. */
    var device: Option<string>
    /** The channels on which a COM client has subscribed to the server's events. */
    var listening: set<Channel>
    /** The events delivered to COM clients, oldest first. */
    var delivered: seq<SerialEvent>

    /** Nothing ever records an error: the registry stays empty. */
    ghost predicate Valid()
      reads this
    {
      errors == map[]
    }

    /** The constructor: a new transport with the platform's defaults and an
        empty registry. */
    constructor ()
      ensures Valid()
      ensures fresh(selectedPort) && selectedPort.state == Fresh("COM1")
      ensures portNames == None && device == None && listening == {} && delivered == []
    {
      assert "COM1"[..2] == "CO";
      selectedPort := new Port("COM1");
      portNames := None;
      errors := map[];
      device := None;
      listening := {};
      delivered := [];
    }

    /** `LastError` is -1 for the life of the object. */
    function LastError(): (r: int)
      reads this
      ensures Valid() ==> r == -1
    {
      ErrorRegistry.LastError(errors)
    }

    /** `GetErrorDescription` has nothing to describe. */
    function GetErrorDescription(id: int): (r: Option<string>)
      reads this
      ensures Valid() ==> r == None
    {
      Describe(errors, id)
    }

    /** `Open`: closes the transport if it is open, attaches three more
        forwarders and opens it; the device's refusal propagates. An already
        open port is therefore reopened rather than refused. */
    method Open(refusal: Option<Fault>) returns (o: Outcome)
      modifies selectedPort
      ensures o == (match refusal case Some(f) => Thrown(f) case None => Done)
      ensures selectedPort.state == old(selectedPort.state).(isOpen := refusal.None?,
                                      subscriptions := old(selectedPort.state).subscriptions + Forwarders)
    {
      if selectedPort.state.isOpen {
        selectedPort.Close();
      }
      selectedPort.Subscribe(DataChannel);
      selectedPort.Subscribe(ErrorChannel);
      selectedPort.Subscribe(PinChannel);
      o := selectedPort.Open(refusal);
    }

    /** `Close` acts only on an open transport; closing twice is a no-op. */
    method Close()
      modifies selectedPort
      ensures selectedPort.state == old(selectedPort.state).(isOpen := false)
      ensures !old(selectedPort.state).isOpen ==> selectedPort.state == old(selectedPort.state)
    {
      if selectedPort.state.isOpen {
        selectedPort.Close();
      }
    }

    /** The platform raising an event of type `code` on `ch`: every forwarder
        attached for `ch` runs. */
    method OnPlatformEvent(ch: Channel, code: int)
      modifies this`delivered
      ensures delivered == old(delivered) + Forwarded(selectedPort.state.subscriptions, ch, code, ch in listening)
    {
      delivered := delivered + Forwarded(selectedPort.state.subscriptions, ch, code, ch in listening);
    }

    method GetDeviceCount(enumeration: seq<string>) returns (n: int)
      modifies this`portNames
      ensures portNames == Some(enumeration) && n == |enumeration|
      ensures forall i :: 0 <= i < n ==> GetDevice(i) == Ok(enumeration[i])
    {
      portNames := Some(enumeration);
      n := |enumeration|;
    }

    /** `GetDevice(n)` indexes the snapshot: a null reference before any
        `GetDeviceCount`, the name inside it, an index fault outside. */
    function GetDevice(n: int): (r: Result<string>)
      reads this
      ensures portNames.None? ==> r == Err(NoSnapshot)
      ensures portNames.Some? ==> (r.Ok? <==> 0 <= n < |portNames.value|)
      ensures r.Ok? ==> r.value == portNames.value[n]
      ensures portNames.Some? && r.Err? ==> r == Err(OutsideSnapshot)
    {
      Indexed(portNames, n)
    }

    // The forwarders. The transport is never null, so none of them fails
    // with "No active port." except where it throws that after delegating.

    method DiscardInBuffer() returns (o: Outcome)
      modifies selectedPort
      ensures o.Thrown?
      ensures o == ComPortBridge.ThenNoActivePort(DiscardInStep(old(selectedPort.state)).0)
      ensures selectedPort.state == DiscardInStep(old(selectedPort.state)).1
    {
      o := selectedPort.DiscardInBuffer();
      o := ComPortBridge.ThenNoActivePort(o);
    }

    method DiscardOutBuffer() returns (o: Outcome)
      modifies selectedPort
      ensures o.Thrown?
      ensures o == ComPortBridge.ThenNoActivePort(DiscardOutStep(old(selectedPort.state)).0)
      ensures selectedPort.state == DiscardOutStep(old(selectedPort.state)).1
    {
      o := selectedPort.DiscardOutBuffer();
      o := ComPortBridge.ThenNoActivePort(o);
    }

    method ReadByte() returns (r: Result<byte>)
      modifies selectedPort
      ensures (r, selectedPort.state) == ReadByteStep(old(selectedPort.state))
    {
      r := selectedPort.ReadByte();
    }

    method ReadChar() returns (r: Result<CodeUnit>)
      modifies selectedPort
      ensures (r, selectedPort.state) == ReadCharStep(old(selectedPort.state))
    {
      r := selectedPort.ReadChar();
    }

    method ReadExisting() returns (r: Result<Text>)
      modifies selectedPort
      ensures (r, selectedPort.state) == ReadExistingStep(old(selectedPort.state))
    {
      r := selectedPort.ReadExisting();
    }

    method ReadLine() returns (r: Result<Text>)
      modifies selectedPort
      ensures (r, selectedPort.state) == ReadLineStep(old(selectedPort.state))
    {
      r := selectedPort.ReadLine();
    }

    /** `ReadTo(value)` ignores `value` and reads a line. */
    method ReadTo(value: Text) returns (r: Result<Text>)
      modifies selectedPort
      ensures (r, selectedPort.state) == ReadLineStep(old(selectedPort.state))
    {
      r := selectedPort.ReadLine();
    }

    /** Unlike `ComPort`, the write forwarders do not throw after delegating. */
    method Write(buffer: array?<byte>, offset: int32, count: int32) returns (o: Outcome)
      modifies selectedPort
      ensures (o, selectedPort.state) == WriteBytesStep(old(selectedPort.state), buffer == null, Contents(buffer), offset, count)
    {
      o := selectedPort.Write(buffer, offset, count);
    }

    /** `Write(char[] buffer, int offset, int count)`. */
    method WriteUnits(buffer: array?<CodeUnit>, offset: int32, count: int32) returns (o: Outcome)
      modifies selectedPort
      ensures (o, selectedPort.state) == WriteUnitsStep(old(selectedPort.state), buffer == null, Contents(buffer), offset, count)
    {
      o := selectedPort.WriteUnits(buffer, offset, count);
    }

    /** `Write(string)`. */
    method WriteText(value: Text) returns (o: Outcome)
      modifies selectedPort
      ensures (o, selectedPort.state) == WriteStep(old(selectedPort.state), Units(value))
    {
      o := selectedPort.WriteText(value);
    }

    method WriteLine(value: Text) returns (o: Outcome)
      modifies selectedPort
      ensures (o, selectedPort.state) == WriteStep(old(selectedPort.state), Units(value + NewLineOf(old(selectedPort.state).config)))
    {
      o := selectedPort.WriteLine(value);
    }

    /** The getters of the forwarded properties: the transport is never null,
        so only `BreakState` on a closed port fails, and every other read gives
        the value last stored (or the platform default). */
    function GetSetting(s: Setting): (r: Result<Value>)
      reads selectedPort
      ensures r.Err? <==> s == BreakState && !selectedPort.state.isOpen
      ensures r.Err? ==> r == Err(PortClosed)
      ensures r.Ok? ==> r.value == Get(selectedPort.state.config, s)
    {
      GetStep(selectedPort.state, s)
    }

    /** The `NewLine` getter, as the text it holds: the stored text, or a
        line feed by default. */
    function NewLine(): (r: Text)
      reads selectedPort
      ensures GetSetting(Setting.NewLine) == Ok(TextValue(r)) || (r == [10] && !GetSetting(Setting.NewLine).value.TextValue?)
    {
      NewLineOf(selectedPort.state.config)
    }

    /** The setters; the `DataBits` setter throws "No active port." after
        storing the value. */
    method SetSetting(s: Setting, v: Value) returns (o: Outcome)
      requires Fits(s, v)
      modifies selectedPort
      ensures var (inner, after) := SetStep(old(selectedPort.state), s, v);
        selectedPort.state == after && o == (if s == DataBits then ComPortBridge.ThenNoActivePort(inner) else inner)
    {
      o := selectedPort.Set(s, v);
      if s == DataBits {
        o := ComPortBridge.ThenNoActivePort(o);
      }
    }

    /** The read-only status properties, `IsOpen` among them: `IsOpen` always
        answers, and the others fail with "The port is closed." exactly when
        the port is closed. */
    function Probe(p: Probe): (r: Result<Value>)
      reads selectedPort
      ensures p == Transport.Probe.IsOpen ==> r == Ok(BoolValue(selectedPort.state.isOpen))
      ensures p != Transport.Probe.IsOpen ==> (r.Err? <==> !selectedPort.state.isOpen) && (r.Err? ==> r == Err(PortClosed))
    {
      ProbeStep(selectedPort.state, p)
    }

    /** The `Handshake` getter: the stored value's name, which the setter's parse
        turns back into that value. */
    function GetHandshake(): (r: string)
      reads selectedPort
      ensures ParseHandshake(r) == selectedPort.state.config.handshake
    {
      HandshakeRoundTrip(selectedPort.state.config.handshake);
      HandshakeName(selectedPort.state.config.handshake)
    }

    /** The `Handshake` setter: an unrecognised name sets `Handshake.None`. */
    method SetHandshake(name: string)
      modifies selectedPort
      ensures selectedPort.state == old(selectedPort.state).(config := old(selectedPort.state).config.(handshake := ParseHandshake(name)))
      ensures GetHandshake() == name || (GetHandshake() == "None" && forall h :: HandshakeName(h) != name)
    {
      selectedPort.SetHandshake(ParseHandshake(name));
    }

    /** The `Parity` getter: the stored value's name, which the setter's parse
        turns back into that value. */
    function GetParity(): (r: string)
      reads selectedPort
      ensures ParseParity(r) == selectedPort.state.config.parity
    {
      ParityRoundTrip(selectedPort.state.config.parity);
      ParityName(selectedPort.state.config.parity)
    }

    /** The `Parity` setter: an unrecognised name sets `Parity.None`. */
    method SetParity(name: string)
      modifies selectedPort
      ensures selectedPort.state == old(selectedPort.state).(config := old(selectedPort.state).config.(parity := ParseParity(name)))
      ensures GetParity() == name || (GetParity() == "None" && forall p :: ParityName(p) != name)
    {
      selectedPort.SetParity(ParseParity(name));
    }

    /** The `StopBits` getter: the stored value's name, which the setter's parse
        turns back into that value. */
    function GetStopBits(): (r: string)
      reads selectedPort
      ensures ParseStopBits(r) == selectedPort.state.config.stopBits
    {
      StopBitsRoundTrip(selectedPort.state.config.stopBits);
      StopBitsName(selectedPort.state.config.stopBits)
    }

    /** The `StopBits` setter: an unrecognised name becomes `StopBits.None`,
        which the transport refuses, leaving the setting as it was. */
    method SetStopBits(name: string) returns (o: Outcome)
      modifies selectedPort
      ensures (o, selectedPort.state) == SetStopBitsStep(old(selectedPort.state), ParseStopBits(name))
      ensures o == Done <==> exists b :: b != NoStopBits && StopBitsName(b) == name
      ensures o == Done ==> GetStopBits() == name
    {
      o := selectedPort.SetStopBits(ParseStopBits(name));
    }
  }
}
