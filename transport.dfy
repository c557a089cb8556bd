/** The platform serial primitive the bridges wrap (.NET's
    `System.IO.Ports.SerialPort`), reduced to the state the bridges observe.
    Its behaviour is given as pure step functions over `PortState`; the class
    `Port` applies them in place, so that object identity (the old transport
    that is closed, the new one that is built, the sender of an event) is
    modelled too.

    The receive buffer is seen through three independent queues, complete
    lines, raw bytes and decoded chars, because the encoding that links them is
    not modelled. What the device answers to an open, and what a read raises
    when nothing is waiting, are inputs. A read on an empty buffer always
    returns with that fault: the platform does so only under a finite
    `ReadTimeout`, and the indefinite wait of its default timeout is not
    modelled. */
module Transport {
  import opened Common
  import opened PortEnums
  import opened SliceArgs

  /** The configuration properties a bridge forwards one to one. */
  datatype Setting =
    | BaudRate | BreakState | DataBits | DiscardNull | DtrEnable | NewLine
    | ParityReplace | PortName | ReadBufferSize | ReadTimeout
    | ReceivedBytesThreshold | RtsEnable | WriteBufferSize | WriteTimeout

  /** A property value; `NullValue` is the `null` the sandbox client's string
      getters return when it holds no COM object. */
  datatype Value = IntValue(i: int) | BoolValue(b: bool) | ByteValue(u: byte)
                 | TextValue(t: Text) | NameValue(name: string) | NullValue

  /** The .NET type of each property. */
  predicate Fits(s: Setting, v: Value) {
    match s
    case BreakState | DiscardNull | DtrEnable | RtsEnable => v.BoolValue?
    case NewLine => v.TextValue?
    case ParityReplace => v.ByteValue?
    case PortName => v.NameValue?
    case _ => v.IntValue? && -0x8000_0000 <= v.i <= Int32Max
  }

  /** The platform's defaults. */
  function Default(s: Setting): (v: Value)
    ensures Fits(s, v)
  {
    match s
    case BaudRate => IntValue(9600)
    case DataBits => IntValue(8)
    case NewLine => TextValue([10])
    case ParityReplace => ByteValue(63)
    case PortName => NameValue("COM1")
    case ReadBufferSize => IntValue(4096)
    case WriteBufferSize => IntValue(2048)
    case ReadTimeout => IntValue(-1)
    case WriteTimeout => IntValue(-1)
    case ReceivedBytesThreshold => IntValue(1)
    case BreakState | DiscardNull | DtrEnable | RtsEnable => BoolValue(false)
  }

  /** The read-only status properties. */
  datatype Probe = BytesToRead | BytesToWrite | CDHolding | CtsHolding | DsrHolding | IsOpen

  datatype Config = Config(values: map<Setting, Value>, handshake: Handshake, parity: Parity, stopBits: StopBits)

  function Get(c: Config, s: Setting): Value {
    if s in c.values then c.values[s] else Default(s)
  }

  function Put(c: Config, s: Setting, v: Value): Config {
    c.(values := c.values[s := v])
  }

  /** Get/set fidelity: a property reads back what was last written to it, and
      writing one property leaves every other one as it was. */
  lemma GetPut(c: Config, s: Setting, v: Value, t: Setting)
    ensures Get(Put(c, s, v), s) == v
    ensures t != s ==> Get(Put(c, s, v), t) == Get(c, t)
    ensures Put(c, s, v).handshake == c.handshake && Put(c, s, v).parity == c.parity && Put(c, s, v).stopBits == c.stopBits
  {
  }

  /** The terminator `ReadLine` and `WriteLine` use. */
  function NewLineOf(c: Config): Text {
    match Get(c, NewLine)
    case TextValue(t) => t
    case _ => [10]
  }

  /** The hardware input lines (carrier detect, clear to send, data set ready). */
  datatype Signals = Signals(cd: bool, cts: bool, dsr: bool)

  /** One write, as the platform received it. */
  datatype Chunk = Bytes(bytes: seq<byte>) | Units(units: Text)

  /** The three notification channels of the platform port. */
  datatype Channel = DataChannel | ErrorChannel | PinChannel

  datatype PortState = PortState(
    isOpen: bool,
    config: Config,
    signals: Signals,
    lines: seq<Text>,              // complete lines waiting to be read
    rxBytes: seq<byte>,            // bytes waiting to be read
    rxUnits: Text,                 // decoded chars waiting to be read
    dry: Fault,                    // what a read raises when nothing is waiting (a finite ReadTimeout)
    tx: seq<Chunk>,                // everything written, oldest first
    subscriptions: seq<Channel>)   // one entry per handler attached, in order

  const PortClosed := Fault(InvalidOperation, "The port is closed.")
  const PortAlreadyOpen := Fault(InvalidOperation, "The port is already open.")
  const TimedOut := Fault(Timeout, "The operation has timed out.")

  /** A newly constructed, closed port named `name`. */
  function Fresh(name: string): PortState {
    PortState(false, Config(map[PortName := NameValue(name)], NoHandshake, NoParity, One),
              Signals(false, false, false), [], [], [], TimedOut, [], [])
  }

  /** The checks `new SerialPort(name)` and the `PortName` setter make on a name;
      `None` stands for a null name. */
  function PortNameFault(name: Option<string>): (r: Option<Fault>)
    ensures r.None? <==> name.Some? && name.value != "" && !(|name.value| >= 2 && name.value[..2] == "\\\\")
  {
    match name
    case None => Some(Fault(ArgumentNull("PortName"), "Value cannot be null."))
    case Some(n) =>
      if n == "" then Some(Fault(Argument, "The PortName cannot be empty."))
      else if |n| >= 2 && n[..2] == "\\\\" then
        Some(Fault(Argument, "The given port name does not start with COM/com or does not resolve to a valid serial port."))
      else None
  }

  function OpenStep(s: PortState, refusal: Option<Fault>): (Outcome, PortState) {
    if s.isOpen then (Thrown(PortAlreadyOpen), s)
    else match refusal
      case Some(f) => (Thrown(f), s)
      case None => (Done, s.(isOpen := true))
  }

  /** Reading a property: only `BreakState` needs an open port. */
  function GetStep(s: PortState, setting: Setting): (r: Result<Value>)
    ensures r.Err? <==> setting == BreakState && !s.isOpen
    ensures r.Ok? ==> r.value == Get(s.config, setting)
  {
    if setting == BreakState && !s.isOpen then Err(PortClosed)
    else Ok(Get(s.config, setting))
  }

  /** Writing a property: `BreakState` needs an open port; `PortName` needs a
      closed one and an acceptable name; the two buffer sizes need a closed
      port. The platform's range checks on the numeric properties are not
      modelled. */
  function SetStep(s: PortState, setting: Setting, v: Value): (Outcome, PortState) {
    if setting == BreakState && !s.isOpen then (Thrown(PortClosed), s)
    else if setting == PortName && v.NameValue? && PortNameFault(Some(v.name)).Some? then
      (Thrown(PortNameFault(Some(v.name)).value), s)
    else if setting == PortName && s.isOpen then
      (Thrown(Fault(InvalidOperation, "'PortName' cannot be set while the port is open.")), s)
    else if setting == ReadBufferSize && s.isOpen then
      (Thrown(Fault(InvalidOperation, "'ReadBufferSize' cannot be set while the port is open.")), s)
    else if setting == WriteBufferSize && s.isOpen then
      (Thrown(Fault(InvalidOperation, "'WriteBufferSize' cannot be set while the port is open.")), s)
    else (Done, s.(config := Put(s.config, setting, v)))
  }

  /** A write that succeeds reads back, and a property write that fails changes
      nothing. Only four properties can refuse a write, and the buffer sizes
      refuse exactly while the port is open. */
  lemma SetThenGet(s: PortState, setting: Setting, v: Value)
    ensures SetStep(s, setting, v).0 == Done ==> GetStep(SetStep(s, setting, v).1, setting) == Ok(v)
    ensures SetStep(s, setting, v).0.Thrown? ==> SetStep(s, setting, v).1 == s
    ensures setting != PortName && setting != BreakState && setting != ReadBufferSize && setting != WriteBufferSize ==>
              SetStep(s, setting, v).0 == Done
    ensures setting == ReadBufferSize || setting == WriteBufferSize ==>
              (SetStep(s, setting, v).0.Thrown? <==> s.isOpen)
  {
    GetPut(s.config, setting, v, setting);
  }

  const StopBitsOutOfRange := Fault(ArgumentOutOfRange("StopBits"), "Enum value was out of legal range.")

  /** The platform refuses `StopBits.None`; every `Handshake` and `Parity` value
      is accepted. */
  function SetStopBitsStep(s: PortState, b: StopBits): (r: (Outcome, PortState))
    ensures r.0.Thrown? <==> b == NoStopBits
    ensures r.0 == Done ==> r.1.config.stopBits == b
  {
    if b == NoStopBits then (Thrown(StopBitsOutOfRange), s)
    else (Done, s.(config := s.config.(stopBits := b)))
  }

  function DiscardInStep(s: PortState): (Outcome, PortState) {
    if !s.isOpen then (Thrown(PortClosed), s)
    else (Done, s.(lines := [], rxBytes := [], rxUnits := []))
  }

  /** Every write reaches `tx` at once, so there is never anything to discard. */
  function DiscardOutStep(s: PortState): (Outcome, PortState) {
    if !s.isOpen then (Thrown(PortClosed), s) else (Done, s)
  }

  function ReadByteStep(s: PortState): (Result<byte>, PortState) {
    if !s.isOpen then (Err(PortClosed), s)
    else if s.rxBytes == [] then (Err(s.dry), s)
    else (Ok(s.rxBytes[0]), s.(rxBytes := s.rxBytes[1..]))
  }

  function ReadCharStep(s: PortState): (Result<CodeUnit>, PortState) {
    if !s.isOpen then (Err(PortClosed), s)
    else if s.rxUnits == [] then (Err(s.dry), s)
    else (Ok(s.rxUnits[0]), s.(rxUnits := s.rxUnits[1..]))
  }

  function ReadExistingStep(s: PortState): (Result<Text>, PortState) {
    if !s.isOpen then (Err(PortClosed), s)
    else (Ok(s.rxUnits), s.(rxUnits := []))
  }

  function ReadLineStep(s: PortState): (Result<Text>, PortState) {
    if !s.isOpen then (Err(PortClosed), s)
    else if s.lines == [] then (Err(s.dry), s)
    else (Ok(s.lines[0]), s.(lines := s.lines[1..]))
  }

  function WriteStep(s: PortState, chunk: Chunk): (Outcome, PortState) {
    if !s.isOpen then (Thrown(PortClosed), s)
    else (Done, s.(tx := s.tx + [chunk]))
  }

  function ProbeStep(s: PortState, p: Probe): (r: Result<Value>)
    ensures p == IsOpen ==> r == Ok(BoolValue(s.isOpen))
    ensures p != IsOpen ==> (r.Err? <==> !s.isOpen) && (r.Err? ==> r == Err(PortClosed))
  {
    if p == IsOpen then Ok(BoolValue(s.isOpen))
    else if !s.isOpen then Err(PortClosed)
    else match p
      case BytesToRead => Ok(IntValue(|s.rxBytes|))
      case BytesToWrite => Ok(IntValue(0))
      case CDHolding => Ok(BoolValue(s.signals.cd))
      case CtsHolding => Ok(BoolValue(s.signals.cts))
      case DsrHolding => Ok(BoolValue(s.signals.dsr))
  }

  /** A line read is first in, first out, and a port with nothing waiting
      answers with its dry fault (the timeout of a finite `ReadTimeout`) and
      stays as it was. */
  lemma ReadLineIsFifo(s: PortState)
    requires s.isOpen
    ensures s.lines != [] ==> ReadLineStep(s).0 == Ok(s.lines[0]) && ReadLineStep(s).1.lines == s.lines[1..]
    ensures s.lines == [] ==> ReadLineStep(s) == (Err(s.dry), s)
    ensures ReadLineStep(s).1.rxBytes == s.rxBytes && ReadLineStep(s).1.tx == s.tx
  {
  }

  /** The outcome of a slice read: the result, what is left waiting, and the
      caller's buffer afterwards. */
  datatype Taken<T> = Taken(r: Result<int>, rest: seq<T>, buffer: seq<T>)

  /** The platform's `Read(buffer, offset, count)` over the waiting items `rx`:
      a closed port is refused before the arguments are checked; otherwise it
      copies as many items as are waiting, up to `count`, into the slice. */
  function ReadSlice<T>(isOpen: bool, dry: Fault, rx: seq<T>, isNull: bool, buf: seq<T>, offset: int, count: int): (t: Taken<T>)
    ensures |t.buffer| == |buf|
    ensures !isOpen ==> t.r == Err(PortClosed)
    ensures t.r.Err? ==> t.rest == rx && t.buffer == buf
    ensures t.r.Ok? <==> PlatformCheck(isNull, |buf|, offset, count).None? && isOpen && (count == 0 || rx != [])
    ensures t.r.Ok? ==> var k := t.r.value;
      0 <= offset && 0 <= k <= count && offset + count <= |buf| && (k < count ==> k == |rx|) &&
      rx == t.buffer[offset..offset + k] + t.rest &&
      t.buffer[..offset] == buf[..offset] && t.buffer[offset + k..] == buf[offset + k..]
  {
    if !isOpen then Taken(Err(PortClosed), rx, buf)
    else match PlatformCheck(isNull, |buf|, offset, count)
    case Some(f) => Taken(Err(f), rx, buf)
    case None =>
      if count == 0 then Taken(Ok(0), rx, buf)
      else if rx == [] then Taken(Err(dry), rx, buf)
      else
        var k := if count < |rx| then count else |rx|;
        assert rx == rx[..k] + rx[k..];
        Taken(Ok(k), rx[k..], Spliced(buf, offset, rx[..k]))
  }

  /** The items of `n` successive single-item reads (`ReadByte`, `ReadChar`)
      from the waiting items `rx`, and the fault of the read that failed, if
      one did. */
  datatype Drawn<T> = Drawn(got: seq<T>, stop: Option<Fault>)

  function Draw<T>(isOpen: bool, dry: Fault, rx: seq<T>, n: nat): (d: Drawn<T>)
    ensures |d.got| <= n && d.got <= rx
    ensures d.stop.None? <==> |d.got| == n
    ensures d.stop.Some? ==> d.stop == Some(if isOpen then dry else PortClosed)
  {
    if n == 0 then Drawn([], None)
    else if !isOpen then Drawn([], Some(PortClosed))
    else if n <= |rx| then Drawn(rx[..n], None)
    else Drawn(rx, Some(dry))
  }

  /** The same reads, taken one at a time through `ReadByteStep`: the
      independent definition `Draw` is checked against. */
  function ByteByByte(s: PortState, n: nat): Drawn<byte>
    decreases n
  {
    if n == 0 then Drawn([], None)
    else match ReadByteStep(s).0
      case Err(f) => Drawn([], Some(f))
      case Ok(b) =>
        var rest := ByteByByte(ReadByteStep(s).1, n - 1);
        Drawn([b] + rest.got, rest.stop)
  }

  lemma {:induction false} DrawIsRepeatedReadByte(s: PortState, n: nat)
    ensures ByteByByte(s, n) == Draw(s.isOpen, s.dry, s.rxBytes, n)
    decreases n
  {
    if n > 0 && s.isOpen && s.rxBytes != [] {
      var s' := ReadByteStep(s).1;
      DrawIsRepeatedReadByte(s', n - 1);
      if n <= |s.rxBytes| {
        assert [s.rxBytes[0]] + s'.rxBytes[..n - 1] == s.rxBytes[..n];
      } else {
        assert [s.rxBytes[0]] + s'.rxBytes == s.rxBytes;
      }
    }
  }

  /** The elements of a possibly null array (none for `null`). */
  function Contents<T>(a: array?<T>): seq<T>
    reads a
  {
    if a == null then [] else a[..]
  }

  /** `Read(byte[], offset, count)`: the result, the port afterwards and the
      caller's buffer afterwards. */
  function ReadBytesStep(s: PortState, isNull: bool, buf: seq<byte>, offset: int, count: int): (Result<int>, PortState, seq<byte>) {
    var t := ReadSlice(s.isOpen, s.dry, s.rxBytes, isNull, buf, offset, count);
    (t.r, s.(rxBytes := t.rest), t.buffer)
  }

  /** `Read(char[], offset, count)`. */
  function ReadUnitsStep(s: PortState, isNull: bool, buf: Text, offset: int, count: int): (Result<int>, PortState, Text) {
    var t := ReadSlice(s.isOpen, s.dry, s.rxUnits, isNull, buf, offset, count);
    (t.r, s.(rxUnits := t.rest), t.buffer)
  }

  /** `Write(byte[], offset, count)`: the open-port check, the argument
      checks, then the write. */
  function WriteBytesStep(s: PortState, isNull: bool, buf: seq<byte>, offset: int, count: int): (Outcome, PortState) {
    if !s.isOpen then (Thrown(PortClosed), s)
    else match PlatformCheck(isNull, |buf|, offset, count)
    case Some(f) => (Thrown(f), s)
    case None => WriteStep(s, Bytes(buf[offset..offset + count]))
  }

  /** `Write(char[], offset, count)`. */
  function WriteUnitsStep(s: PortState, isNull: bool, buf: Text, offset: int, count: int): (Outcome, PortState) {
    if !s.isOpen then (Thrown(PortClosed), s)
    else match PlatformCheck(isNull, |buf|, offset, count)
    case Some(f) => (Thrown(f), s)
    case None => WriteStep(s, Units(buf[offset..offset + count]))
  }

  /** `WriteLine(t)` hands the platform `t` followed by the configured terminator. */
  lemma WriteLineAppendsTerminator(s: PortState, t: Text)
    requires s.isOpen
    ensures WriteStep(s, Units(t + NewLineOf(s.config))).1.tx == s.tx + [Units(t + NewLineOf(s.config))]
  {
  }

  class Port {
    var state: PortState

    /** `new SerialPort(name)`; the callers make the name checks first. */
    constructor (name: string)
      requires PortNameFault(Some(name)).None?
      ensures state == Fresh(name)
    {
      state := Fresh(name);
    }

    /** `Open()`; `refusal` is what the device answers, if it refuses. */
    method Open(refusal: Option<Fault>) returns (o: Outcome)
      modifies this
      ensures (o, state) == OpenStep(old(state), refusal)
    {
      o, state := OpenStep(state, refusal).0, OpenStep(state, refusal).1;
    }

    /** `Close()`, which does nothing to a closed port. */
    method Close()
      modifies this
      ensures state == old(state).(isOpen := false)
    {
      state := state.(isOpen := false);
    }

    method DiscardInBuffer() returns (o: Outcome)
      modifies this
      ensures (o, state) == DiscardInStep(old(state))
    {
      o, state := DiscardInStep(state).0, DiscardInStep(state).1;
    }

    method DiscardOutBuffer() returns (o: Outcome)
      modifies this
      ensures (o, state) == DiscardOutStep(old(state))
    {
      o, state := DiscardOutStep(state).0, DiscardOutStep(state).1;
    }

    method ReadByte() returns (r: Result<byte>)
      modifies this
      ensures (r, state) == ReadByteStep(old(state))
    {
      r, state := ReadByteStep(state).0, ReadByteStep(state).1;
    }

    method ReadChar() returns (r: Result<CodeUnit>)
      modifies this
      ensures (r, state) == ReadCharStep(old(state))
    {
      r, state := ReadCharStep(state).0, ReadCharStep(state).1;
    }

    method ReadExisting() returns (r: Result<Text>)
      modifies this
      ensures (r, state) == ReadExistingStep(old(state))
    {
      r, state := ReadExistingStep(state).0, ReadExistingStep(state).1;
    }

    method ReadLine() returns (r: Result<Text>)
      modifies this
      ensures (r, state) == ReadLineStep(old(state))
    {
      r, state := ReadLineStep(state).0, ReadLineStep(state).1;
    }

    /** `Read(byte[] buffer, int offset, int count)`. */
    method Read(buffer: array?<byte>, offset: int32, count: int32) returns (r: Result<int>)
      modifies this, buffer
      ensures (r, state, Contents(buffer)) == ReadBytesStep(old(state), buffer == null, old(Contents(buffer)), offset, count)
    {
      var t := ReadSlice(state.isOpen, state.dry, state.rxBytes, buffer == null, Contents(buffer), offset, count);
      if buffer != null {
        forall i | 0 <= i < buffer.Length {
          buffer[i] := t.buffer[i];
        }
        assert buffer[..] == t.buffer;
      }
      state := state.(rxBytes := t.rest);
      r := t.r;
    }

    /** `Read(char[] buffer, int offset, int count)`, over decoded chars. */
    method ReadUnits(buffer: array?<CodeUnit>, offset: int32, count: int32) returns (r: Result<int>)
      modifies this, buffer
      ensures (r, state, Contents(buffer)) == ReadUnitsStep(old(state), buffer == null, old(Contents(buffer)), offset, count)
    {
      var t := ReadSlice(state.isOpen, state.dry, state.rxUnits, buffer == null, Contents(buffer), offset, count);
      if buffer != null {
        forall i | 0 <= i < buffer.Length {
          buffer[i] := t.buffer[i];
        }
        assert buffer[..] == t.buffer;
      }
      state := state.(rxUnits := t.rest);
      r := t.r;
    }

    /** `Write(string)`. */
    method WriteText(t: Text) returns (o: Outcome)
      modifies this
      ensures (o, state) == WriteStep(old(state), Units(t))
    {
      o, state := WriteStep(state, Units(t)).0, WriteStep(state, Units(t)).1;
    }

    /** `WriteLine(string)`: the text and the terminator in one write. */
    method WriteLine(t: Text) returns (o: Outcome)
      modifies this
      ensures (o, state) == WriteStep(old(state), Units(t + NewLineOf(old(state).config)))
    {
      var chunk := Units(t + NewLineOf(state.config));
      o, state := WriteStep(state, chunk).0, WriteStep(state, chunk).1;
    }

    /** `Write(byte[] buffer, int offset, int count)`. */
    method Write(buffer: array?<byte>, offset: int32, count: int32) returns (o: Outcome)
      modifies this
      ensures (o, state) == WriteBytesStep(old(state), buffer == null, Contents(buffer), offset, count)
    {
      o, state := WriteBytesStep(state, buffer == null, Contents(buffer), offset, count).0,
                  WriteBytesStep(state, buffer == null, Contents(buffer), offset, count).1;
    }

    /** `Write(char[] buffer, int offset, int count)`. */
    method WriteUnits(buffer: array?<CodeUnit>, offset: int32, count: int32) returns (o: Outcome)
      modifies this
      ensures (o, state) == WriteUnitsStep(old(state), buffer == null, Contents(buffer), offset, count)
    {
      o, state := WriteUnitsStep(state, buffer == null, Contents(buffer), offset, count).0,
                  WriteUnitsStep(state, buffer == null, Contents(buffer), offset, count).1;
    }

    /** A property setter. */
    method Set(setting: Setting, v: Value) returns (o: Outcome)
      modifies this
      ensures (o, state) == SetStep(old(state), setting, v)
    {
      o, state := SetStep(state, setting, v).0, SetStep(state, setting, v).1;
    }

    method SetHandshake(h: Handshake)
      modifies this
      ensures state == old(state).(config := old(state).config.(handshake := h))
    {
      state := state.(config := state.config.(handshake := h));
    }

    method SetParity(p: Parity)
      modifies this
      ensures state == old(state).(config := old(state).config.(parity := p))
    {
      state := state.(config := state.config.(parity := p));
    }

    method SetStopBits(b: StopBits) returns (o: Outcome)
      modifies this
      ensures (o, state) == SetStopBitsStep(old(state), b)
    {
      o, state := SetStopBitsStep(state, b).0, SetStopBitsStep(state, b).1;
    }

    /** `port.DataReceived += handler` (or `ErrorReceived`, `PinChanged`). */
    method Subscribe(ch: Channel)
      modifies this
      ensures state == old(state).(subscriptions := old(state).subscriptions + [ch])
    {
      state := state.(subscriptions := state.subscriptions + [ch]);
    }
  }
}
