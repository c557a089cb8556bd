/** The sandbox-side client `SerialPort` (SLSerialPort/SerialPort.cs): a
    stand-in for the platform serial port that reaches the COM server through
    a late-bound object. It checks `(buffer, offset, count)` itself, fills a
    read slice one item at a time, narrows written chars to bytes, turns the
    server's "No active port." into `InteropException`, answers many getters
    with defaults when it holds no COM object, and relays the server's events
    to its own subscribers. */
module SandboxClient {
  import opened Common
  import opened PortEnums
  import opened SliceArgs
  import opened Transport
  import ComPortBridge
  import ComServer

  /** Member access on a null late-bound object. */
  const NullDynamic := Fault(RuntimeBinder, "Cannot perform runtime binding on a null reference")

  /** `handlerField.EventRaised -= …` on a handler field that is null. */
  const NullHandlerField := Fault(NullReference, "Object reference not set to an instance of an object.")

  /** The catch block of `Read`, `ReadByte` and `ReadChar`: the server's
      "No active port." becomes `InteropException`, anything else passes. */
  function FromRemote(f: Fault): (g: Fault)
    ensures f == NoActivePort ==> g == InteropFailure
    ensures f != NoActivePort ==> g == f
  {
    if f.kind == InvalidOperation && f.message == NoActivePortMessage then InteropFailure else f
  }

  /** The catch block of `ReadLine` and `ReadTo`, which has no `throw;`: every
      `InvalidOperationException` becomes `InteropException`. */
  function FromRemoteLine(f: Fault): (g: Fault)
    ensures f.kind == InvalidOperation ==> g == InteropFailure
    ensures f.kind != InvalidOperation ==> g == f
  {
    if f.kind == InvalidOperation then InteropFailure else f
  }

  /** The two catch blocks disagree on a closed port: `ReadByte` reports the
      platform's "The port is closed.", `ReadLine` an `InteropException`. */
  lemma ClosedPortReportedDifferently()
    ensures FromRemote(PortClosed) == PortClosed
    ensures FromRemoteLine(PortClosed) == InteropFailure
  {
  }

  /** The server property each client property reaches: `WriteBufferSize` and
      `WriteTimeout` both reach `ReadBufferSize`. */
  function Routed(s: Setting): (t: Setting)
    ensures s != WriteBufferSize && s != WriteTimeout ==> t == s
    ensures s == WriteBufferSize || s == WriteTimeout ==> t == ReadBufferSize
  {
    if s == WriteBufferSize || s == WriteTimeout then ReadBufferSize else s
  }

  /** The property getters with no COM object: `BaudRate` and `ParityReplace`
      throw `InteropException`, strings are null, flags false, numbers 0. */
  function Detached(s: Setting): (r: Result<Value>)
    ensures r.Err? <==> s == BaudRate || s == ParityReplace
    ensures r.Err? ==> r == Err(InteropFailure)
    ensures r.Ok? ==> (r.value == NullValue <==> s == NewLine || s == PortName)
    ensures r.Ok? && r.value.BoolValue? ==> !r.value.b
    ensures r.Ok? && r.value.IntValue? ==> r.value.i == 0
    ensures r.Ok? ==> r.value.BoolValue? || r.value.IntValue? || r.value.NullValue?
  {
    match s
    case BaudRate | ParityReplace => Err(InteropFailure)
    case NewLine | PortName => Ok(NullValue)
    case BreakState | DiscardNull | DtrEnable | RtsEnable => Ok(BoolValue(false))
    case DataBits | ReadBufferSize | ReadTimeout | ReceivedBytesThreshold | WriteBufferSize | WriteTimeout => Ok(IntValue(0))
  }

  /** The status getters with no COM object: false and 0. */
  function DetachedProbe(p: Probe): (v: Value)
    ensures v == BoolValue(false) || v == IntValue(0)
    ensures p == Probe.IsOpen ==> v == BoolValue(false)
  {
    match p
    case BytesToRead | BytesToWrite => IntValue(0)
    case CDHolding | CtsHolding | DsrHolding | IsOpen => BoolValue(false)
  }

  /** What a client slice read does: the result, the items it took from the
      port, and the caller's buffer afterwards. */
  datatype Filled<T> = Filled(r: Result<int>, drawn: seq<T>, buffer: seq<T>)

  /** The client's `Read(buffer, offset, count)` loop over the waiting items
      `rx`: after its own checks it reads exactly `count` items one at a time,
      storing each as it arrives; a read that fails ends it with that read's
      exception, leaving what was stored before. */
  function Fill<T>(isOpen: bool, dry: Fault, rx: seq<T>, isNull: bool, buf: seq<T>, offset: int, count: int): (f: Filled<T>)
    ensures |f.buffer| == |buf|
    ensures ClientCheck(isNull, |buf|, offset, count).Some? ==>
      f == Filled(Err(ClientCheck(isNull, |buf|, offset, count).value), [], buf)
    ensures f.r.Ok? <==> ClientCheck(isNull, |buf|, offset, count).None? && (count == 0 || (isOpen && count <= |rx|))
    ensures f.r.Ok? ==> f.r.value == count && f.drawn == rx[..count]
    ensures ClientCheck(isNull, |buf|, offset, count).None? ==> |f.drawn| <= count && f.drawn <= rx
    ensures ClientCheck(isNull, |buf|, offset, count).None? ==>
      f.buffer == Spliced(buf, offset, f.drawn) &&
      (f.r.Err? ==> f.r.fault == FromRemote(if isOpen then dry else PortClosed))
  {
    match ClientCheck(isNull, |buf|, offset, count)
    case Some(e) => Filled(Err(e), [], buf)
    case None =>
      var d := Draw(isOpen, dry, rx, count);
      Filled(if d.stop.Some? then Err(FromRemote(d.stop.value)) else Ok(count), d.got, Spliced(buf, offset, d.got))
  }

  /** A fill whose `count` reads all succeeded took the first `count` items. */
  lemma FillComplete<T>(isOpen: bool, dry: Fault, rx: seq<T>, buf: seq<T>, offset: int, count: int)
    requires ClientCheck(false, |buf|, offset, count).None?
    requires count <= |rx| && (count > 0 ==> isOpen)
    ensures Fill(isOpen, dry, rx, false, buf, offset, count) == Filled(Ok(count), rx[..count], Spliced(buf, offset, rx[..count]))
  {
  }

  /** A fill whose read number `k` failed took the first `k` items. */
  lemma FillStopped<T>(isOpen: bool, dry: Fault, rx: seq<T>, buf: seq<T>, offset: int, count: int, k: nat)
    requires ClientCheck(false, |buf|, offset, count).None?
    requires k < count && k <= |rx| && (k > 0 ==> isOpen) && (isOpen ==> k == |rx|)
    ensures Fill(isOpen, dry, rx, false, buf, offset, count) ==
      Filled(Err(FromRemote(if isOpen then dry else PortClosed)), rx[..k], Spliced(buf, offset, rx[..k]))
  {
    if isOpen {
      assert rx[..k] == rx;
    }
  }

  /** Where enough items are waiting, the client's item-by-item read fills
      the slice exactly as the platform's own slice read would; where fewer
      are waiting, the platform returns what there is while the client fails
      with the port's timeout after storing it. */
  lemma FillAgreesWithPlatform<T>(dry: Fault, rx: seq<T>, buf: seq<T>, offset: int, count: int)
    requires ClientCheck(false, |buf|, offset, count).None?
    ensures count <= |rx| ==>
      Fill(true, dry, rx, false, buf, offset, count).r == ReadSlice(true, dry, rx, false, buf, offset, count).r &&
      Fill(true, dry, rx, false, buf, offset, count).buffer == ReadSlice(true, dry, rx, false, buf, offset, count).buffer
    ensures 0 < |rx| < count ==>
      Fill(true, dry, rx, false, buf, offset, count).r == Err(FromRemote(dry)) &&
      ReadSlice(true, dry, rx, false, buf, offset, count).r == Ok(|rx|) &&
      Fill(true, dry, rx, false, buf, offset, count).buffer == ReadSlice(true, dry, rx, false, buf, offset, count).buffer
  {
    ChecksAcceptAlike(false, |buf|, offset, count);
    if 0 < count <= |rx| {
      assert rx[..count] == rx[..if count < |rx| then count else |rx|];
    }
  }

  /** The bytes `Write(char[] buffer, offset, count)` sends, or the exception
      it throws: its own checks come before the COM-object check, and a char
      above 255 stops the conversion before anything is sent. */
  function Outgoing(isNull: bool, buf: Text, offset: int, count: int, detached: bool): (r: Result<seq<byte>>)
    ensures r.Ok? <==> ClientCheck(isNull, |buf|, offset, count).None? && !detached &&
                       forall i :: offset <= i < offset + count ==> buf[i] < 0x100
    ensures ClientCheck(isNull, |buf|, offset, count).Some? ==> r == Err(ClientCheck(isNull, |buf|, offset, count).value)
    ensures ClientCheck(isNull, |buf|, offset, count).None? && detached ==> r == Err(InteropFailure)
    ensures r.Ok? ==> |r.value| == count && forall i :: 0 <= i < count ==> r.value[i] == buf[offset + i]
    ensures r.Err? && ClientCheck(isNull, |buf|, offset, count).None? && !detached ==> r == Err(ByteOverflow)
  {
    match ClientCheck(isNull, |buf|, offset, count)
    case Some(f) => Err(f)
    case None =>
      if detached then Err(InteropFailure)
      else
        var n := Narrowed(buf[offset..offset + count]);
        assert forall i :: offset <= i < offset + count ==> buf[i] == buf[offset..offset + count][i - offset];
        n
  }

  /** What `Write(string)` sends is the string itself, one byte per char,
      whenever every char fits in a byte. */
  lemma WrittenTextReadsBack(value: Text)
    ensures ClientCheck(false, |value|, 0, |value|).None?
    ensures Outgoing(false, value, 0, |value|, false).Ok? ==> Widened(Outgoing(false, value, 0, |value|, false).value) == value
  {
  }

  /** The sender a relayed event names: the client itself, or the object the
      server passed along. */
  datatype Origin = FromClient | FromServer

  datatype Relayed = Relayed(channel: Channel, sender: Origin, eventType: int)

  class SerialPort {
    /** The late-bound COM object, fixed when the client is built; `null` when
        automation returned none. */
    const serialPort: ComServer.SerialPort?
    /** Whether the three event-handler fields hold attached handlers. */
    var relaysAttached: bool
    /** The events of this object that have a subscriber. */
    var subscribers: set<Channel>
    /** The events raised to subscribers, oldest first. */
    var raised: seq<Relayed>

    /** The server object and its transport. */
    function Remote(): set<object> {
      if serialPort == null then {} else {serialPort, serialPort.selectedPort}
    }

    /** The transport alone. */
    function Wire(): set<object> {
      if serialPort == null then {} else {serialPort.selectedPort}
    }

    constructor (server: ComServer.SerialPort?)
      ensures serialPort == server && !relaysAttached && subscribers == {} && raised == []
    {
      serialPort := server;
      relaysAttached := false;
      subscribers := {};
      raised := [];
    }

    /** `Open`: fetches the server's three events, attaches the relays and
        opens the server, whose exceptions propagate. */
    method Open(refusal: Option<Fault>) returns (o: Outcome)
      modifies this, Remote()
      ensures serialPort == null ==> o == Thrown(InteropFailure) && relaysAttached == old(relaysAttached)
      ensures serialPort != null ==>
        relaysAttached && serialPort.listening == {DataChannel, ErrorChannel, PinChannel} &&
        o == (match refusal case Some(f) => Thrown(f) case None => Done) &&
        serialPort.selectedPort.state == old(serialPort.selectedPort.state).(isOpen := refusal.None?,
          subscriptions := old(serialPort.selectedPort.state).subscriptions + ComServer.Forwarders)
      ensures subscribers == old(subscribers) && raised == old(raised)
      ensures serialPort != null ==>
        serialPort.portNames == old(serialPort.portNames) && serialPort.device == old(serialPort.device) &&
        serialPort.delivered == old(serialPort.delivered)
    {
      if serialPort == null {
        return Thrown(InteropFailure);
      }
      relaysAttached := true;
      serialPort.listening := {DataChannel, ErrorChannel, PinChannel};
      o := serialPort.Open(refusal);
    }

    /** `Close`: only when `IsOpen`, detaches the relays, clears the handler
        fields and closes the server; detaching fields that were never set
        throws a null reference. */
    method Close() returns (o: Outcome)
      modifies this, Remote()
      ensures serialPort == null || !old(serialPort.selectedPort.state).isOpen ==>
        o == Done && relaysAttached == old(relaysAttached) &&
        (serialPort != null ==> serialPort.selectedPort.state == old(serialPort.selectedPort.state) &&
                                serialPort.listening == old(serialPort.listening))
      ensures serialPort != null && old(serialPort.selectedPort.state).isOpen && !old(relaysAttached) ==>
        o == Thrown(NullHandlerField) && serialPort.selectedPort.state == old(serialPort.selectedPort.state) &&
        serialPort.listening == old(serialPort.listening)
      ensures serialPort != null && old(serialPort.selectedPort.state).isOpen && old(relaysAttached) ==>
        o == Done && !relaysAttached && serialPort.listening == {} &&
        serialPort.selectedPort.state == old(serialPort.selectedPort.state).(isOpen := false)
      ensures subscribers == old(subscribers) && raised == old(raised)
      ensures serialPort != null ==>
        serialPort.portNames == old(serialPort.portNames) && serialPort.device == old(serialPort.device) &&
        serialPort.delivered == old(serialPort.delivered)
    {
      if Probe(Transport.Probe.IsOpen) != Ok(BoolValue(true)) {
        return Done;
      }
      if !relaysAttached {
        return Thrown(NullHandlerField);
      }
      relaysAttached := false;
      serialPort.listening := {};
      serialPort.Close();
      return Done;
    }

    /** `DiscardInBuffer`: a no-op without a COM object; otherwise the server's
        delegate-then-throw reaches the caller unmapped. */
    method DiscardInBuffer() returns (o: Outcome)
      modifies Wire()
      ensures serialPort == null ==> o == Done
      ensures serialPort != null ==>
        o.Thrown? && o == ComPortBridge.ThenNoActivePort(DiscardInStep(old(serialPort.selectedPort.state)).0) &&
        serialPort.selectedPort.state == DiscardInStep(old(serialPort.selectedPort.state)).1
    {
      o := Done;
      if serialPort != null {
        o := serialPort.DiscardInBuffer();
      }
    }

    method DiscardOutBuffer() returns (o: Outcome)
      modifies Wire()
      ensures serialPort == null ==> o == Done
      ensures serialPort != null ==>
        o.Thrown? && o == ComPortBridge.ThenNoActivePort(DiscardOutStep(old(serialPort.selectedPort.state)).0) &&
        serialPort.selectedPort.state == DiscardOutStep(old(serialPort.selectedPort.state)).1
    {
      o := Done;
      if serialPort != null {
        o := serialPort.DiscardOutBuffer();
      }
    }

    /** `Read(byte[] buffer, int offset, int count)`. */
    method Read(buffer: array?<byte>, offset: int32, count: int32) returns (r: Result<int>)
      modifies Wire(), buffer
      ensures serialPort == null ==> r == Err(InteropFailure) && Contents(buffer) == old(Contents(buffer))
      ensures serialPort != null ==>
        var s := old(serialPort.selectedPort.state);
        var f := Fill(s.isOpen, s.dry, s.rxBytes, buffer == null, old(Contents(buffer)), offset, count);
        r == f.r && Contents(buffer) == f.buffer &&
        serialPort.selectedPort.state == s.(rxBytes := s.rxBytes[|f.drawn|..])
    {
      if serialPort == null {
        return Err(InteropFailure);
      }
      var check := ClientCheck(buffer == null, if buffer == null then 0 else buffer.Length, offset, count);
      if check.Some? {
        return Err(check.value);
      }
      ghost var s0 := serialPort.selectedPort.state;
      ghost var b0 := buffer[..];
      var bytesRead := 0;
      while bytesRead < count
        invariant 0 <= bytesRead <= count
        invariant bytesRead <= |s0.rxBytes| && (bytesRead > 0 ==> s0.isOpen)
        invariant serialPort.selectedPort.state == s0.(rxBytes := s0.rxBytes[bytesRead..])
        invariant buffer[..] == Spliced(b0, offset, s0.rxBytes[..bytesRead])
      {
        var b := serialPort.ReadByte();
        if b.Err? {
          FillStopped(s0.isOpen, s0.dry, s0.rxBytes, b0, offset, count, bytesRead);
          return Err(FromRemote(b.fault));
        }
        SplicedGrow(b0, offset, s0.rxBytes[..bytesRead], b.value);
        assert s0.rxBytes[..bytesRead] + [b.value] == s0.rxBytes[..bytesRead + 1];
        buffer[bytesRead + offset] := b.value;
        bytesRead := bytesRead + 1;
      }
      FillComplete(s0.isOpen, s0.dry, s0.rxBytes, b0, offset, count);
      return Ok(bytesRead);
    }

    /** `Read(char[] buffer, int offset, int count)`: as the byte read, and a
        single surrogate half read alone is refused after it has been stored. */
    method ReadUnits(buffer: array?<CodeUnit>, offset: int32, count: int32) returns (r: Result<int>)
      modifies Wire(), buffer
      ensures serialPort == null ==> r == Err(InteropFailure) && Contents(buffer) == old(Contents(buffer))
      ensures serialPort != null ==>
        var s := old(serialPort.selectedPort.state);
        var f := Fill(s.isOpen, s.dry, s.rxUnits, buffer == null, old(Contents(buffer)), offset, count);
        r == (if f.r.Ok? && count == 1 && IsSurrogate(f.drawn[0]) then Err(LoneSurrogate) else f.r) &&
        Contents(buffer) == f.buffer &&
        serialPort.selectedPort.state == s.(rxUnits := s.rxUnits[|f.drawn|..])
    {
      if serialPort == null {
        return Err(InteropFailure);
      }
      var check := ClientCheck(buffer == null, if buffer == null then 0 else buffer.Length, offset, count);
      if check.Some? {
        return Err(check.value);
      }
      ghost var s0 := serialPort.selectedPort.state;
      ghost var b0 := buffer[..];
      var bytesRead := 0;
      while bytesRead < count
        invariant 0 <= bytesRead <= count
        invariant bytesRead <= |s0.rxUnits| && (bytesRead > 0 ==> s0.isOpen)
        invariant serialPort.selectedPort.state == s0.(rxUnits := s0.rxUnits[bytesRead..])
        invariant buffer[..] == Spliced(b0, offset, s0.rxUnits[..bytesRead])
      {
        var c := serialPort.ReadChar();
        if c.Err? {
          FillStopped(s0.isOpen, s0.dry, s0.rxUnits, b0, offset, count, bytesRead);
          return Err(FromRemote(c.fault));
        }
        SplicedGrow(b0, offset, s0.rxUnits[..bytesRead], c.value);
        assert s0.rxUnits[..bytesRead] + [c.value] == s0.rxUnits[..bytesRead + 1];
        buffer[bytesRead + offset] := c.value;
        bytesRead := bytesRead + 1;
      }
      FillComplete(s0.isOpen, s0.dry, s0.rxUnits, b0, offset, count);
      if count == 1 && IsSurrogate(buffer[offset]) {
        return Err(LoneSurrogate);
      }
      return Ok(bytesRead);
    }

    method ReadByte() returns (r: Result<byte>)
      modifies Wire()
      ensures serialPort == null ==> r == Err(InteropFailure)
      ensures serialPort != null ==>
        var (res, after) := ReadByteStep(old(serialPort.selectedPort.state));
        serialPort.selectedPort.state == after && r == (if res.Err? then Err(FromRemote(res.fault)) else res)
    {
      if serialPort == null {
        return Err(InteropFailure);
      }
      r := serialPort.ReadByte();
      if r.Err? {
        r := Err(FromRemote(r.fault));
      }
    }

    method ReadChar() returns (r: Result<CodeUnit>)
      modifies Wire()
      ensures serialPort == null ==> r == Err(InteropFailure)
      ensures serialPort != null ==>
        var (res, after) := ReadCharStep(old(serialPort.selectedPort.state));
        serialPort.selectedPort.state == after && r == (if res.Err? then Err(FromRemote(res.fault)) else res)
    {
      if serialPort == null {
        return Err(InteropFailure);
      }
      r := serialPort.ReadChar();
      if r.Err? {
        r := Err(FromRemote(r.fault));
      }
    }

    /** `ReadExisting` passes the server's exceptions through unmapped. */
    method ReadExisting() returns (r: Result<Text>)
      modifies Wire()
      ensures serialPort == null ==> r == Err(InteropFailure)
      ensures serialPort != null ==> (r, serialPort.selectedPort.state) == ReadExistingStep(old(serialPort.selectedPort.state))
    {
      if serialPort == null {
        return Err(InteropFailure);
      }
      r := serialPort.ReadExisting();
    }

    method ReadLine() returns (r: Result<Text>)
      modifies Wire()
      ensures serialPort == null ==> r == Err(InteropFailure)
      ensures serialPort != null ==>
        var (res, after) := ReadLineStep(old(serialPort.selectedPort.state));
        serialPort.selectedPort.state == after && r == (if res.Err? then Err(FromRemoteLine(res.fault)) else res)
    {
      if serialPort == null {
        return Err(InteropFailure);
      }
      r := serialPort.ReadLine();
      if r.Err? {
        r := Err(FromRemoteLine(r.fault));
      }
    }

    /** `ReadTo(value)` reaches the server's `ReadTo`, which reads a line. */
    method ReadTo(value: Text) returns (r: Result<Text>)
      modifies Wire()
      ensures serialPort == null ==> r == Err(InteropFailure)
      ensures serialPort != null ==>
        var (res, after) := ReadLineStep(old(serialPort.selectedPort.state));
        serialPort.selectedPort.state == after && r == (if res.Err? then Err(FromRemoteLine(res.fault)) else res)
    {
      if serialPort == null {
        return Err(InteropFailure);
      }
      r := serialPort.ReadTo(value);
      if r.Err? {
        r := Err(FromRemoteLine(r.fault));
      }
    }

    /** `Write(byte[] buffer, int offset, int count)`: no checks of its own. */
    method Write(buffer: array?<byte>, offset: int32, count: int32) returns (o: Outcome)
      modifies Wire()
      ensures serialPort == null ==> o == Thrown(InteropFailure)
      ensures serialPort != null ==>
        (o, serialPort.selectedPort.state) == WriteBytesStep(old(serialPort.selectedPort.state), buffer == null, Contents(buffer), offset, count)
    {
      if serialPort == null {
        return Thrown(InteropFailure);
      }
      o := serialPort.Write(buffer, offset, count);
    }

    /** `Write(char[] buffer, int offset, int count)`: checks, then walks the
        whole buffer skipping `offset` chars and converting the next `count`,
        and sends the converted bytes as one byte-array write. */
    method WriteUnits(buffer: array?<CodeUnit>, offset: int32, count: int32) returns (o: Outcome)
      modifies Wire()
      ensures match Outgoing(buffer == null, Contents(buffer), offset, count, serialPort == null)
        case Err(f) => o == Thrown(f) && (serialPort != null ==> serialPort.selectedPort.state == old(serialPort.selectedPort.state))
        case Ok(bytes) => (o, serialPort.selectedPort.state) == WriteStep(old(serialPort.selectedPort.state), Bytes(bytes))
    {
      var check := ClientCheck(buffer == null, if buffer == null then 0 else buffer.Length, offset, count);
      if check.Some? {
        return Thrown(check.value);
      }
      if serialPort == null {
        return Thrown(InteropFailure);
      }
      var bBuffer := new byte[count];
      var bCounter: int := 0;
      var skip: int := offset;
      var left: int := count;
      var i: int := 0;
      while i < buffer.Length
        modifies bBuffer
        invariant fresh(bBuffer)
        invariant 0 <= i <= buffer.Length && i <= offset + count
        invariant skip == offset - i
        invariant bCounter == (if i <= offset then 0 else i - offset)
        invariant left == count - bCounter
        invariant forall j :: offset <= j < offset + bCounter ==> buffer[j] < 0x100
        invariant forall j :: 0 <= j < bCounter ==> bBuffer[j] == buffer[offset + j]
      {
        var bufferChar := buffer[i];
        var wasSkip := skip;
        skip := skip - 1;
        if wasSkip > 0 {
          i := i + 1;
          continue;
        }
        var wasLeft := left;
        left := left - 1;
        if wasLeft <= 0 {
          break;
        }
        assert i == offset + bCounter && bCounter < count;
        if bufferChar >= 0x100 {
          assert !Narrowed(buffer[offset..offset + count]).Ok? by {
            assert buffer[offset..offset + count][bCounter] == bufferChar;
          }
          return Thrown(ByteOverflow);
        }
        bBuffer[bCounter] := bufferChar;
        bCounter := bCounter + 1;
        i := i + 1;
      }
      assert bCounter == count;
      assert bBuffer[..] == Outgoing(false, buffer[..], offset, count, false).value;
      assert bBuffer[..][0..count] == bBuffer[..];
      o := serialPort.Write(bBuffer, 0, bBuffer.Length);
    }

    /** `Write(string)`: the string's chars, from 0, all of them. */
    method WriteText(value: Text) returns (o: Outcome)
      requires |value| <= Int32Max
      modifies Wire()
      ensures match Outgoing(false, value, 0, |value|, serialPort == null)
        case Err(f) => o == Thrown(f) && (serialPort != null ==> serialPort.selectedPort.state == old(serialPort.selectedPort.state))
        case Ok(bytes) => (o, serialPort.selectedPort.state) == WriteStep(old(serialPort.selectedPort.state), Bytes(bytes))
    {
      var buffer := new CodeUnit[|value|](i requires 0 <= i < |value| => value[i]);
      assert buffer[..] == value;
      o := WriteUnits(buffer, 0, |value|);
    }

    /** `WriteLine(value)`: `Write(value + NewLine)` with the server's
        terminator; without a COM object, reading that terminator fails. */
    method WriteLine(value: Text) returns (o: Outcome)
      requires serialPort != null ==> |value| + |serialPort.NewLine()| <= Int32Max
      modifies Wire()
      ensures serialPort == null ==> o == Thrown(NullDynamic)
      ensures serialPort != null ==>
        var line := value + old(serialPort.NewLine());
        match Outgoing(false, line, 0, |line|, false)
        case Err(f) => o == Thrown(f) && serialPort.selectedPort.state == old(serialPort.selectedPort.state)
        case Ok(bytes) => (o, serialPort.selectedPort.state) == WriteStep(old(serialPort.selectedPort.state), Bytes(bytes))
    {
      if serialPort == null {
        return Thrown(NullDynamic);
      }
      o := WriteText(value + serialPort.NewLine());
    }

    /** The forwarded property getters, with the defaults of a client that has
        no COM object. */
    function GetSetting(s: Setting): (r: Result<Value>)
      reads Wire()
      ensures serialPort == null ==> r == Detached(s)
      ensures serialPort != null ==> r == GetStep(serialPort.selectedPort.state, Routed(s))
    {
      if serialPort == null then Detached(s) else serialPort.GetSetting(Routed(s))
    }

    /** The forwarded property setters: without a COM object only `BaudRate`
        throws and every other setter does nothing; with one, the `DataBits`
        setter always fails with the server's "No active port.". */
    method SetSetting(s: Setting, v: Value) returns (o: Outcome)
      requires Fits(s, v)
      modifies Wire()
      ensures serialPort == null ==> o == (if s == BaudRate then Thrown(InteropFailure) else Done)
      ensures serialPort != null ==>
        var (inner, after) := SetStep(old(serialPort.selectedPort.state), Routed(s), v);
        serialPort.selectedPort.state == after &&
        o == (if s == DataBits then ComPortBridge.ThenNoActivePort(inner) else inner)
    {
      if serialPort == null {
        if s == BaudRate {
          return Thrown(InteropFailure);
        }
        return Done;
      }
      o := serialPort.SetSetting(Routed(s), v);
    }

    /** The status getters. */
    function Probe(p: Probe): (r: Result<Value>)
      reads Wire()
      ensures serialPort == null ==> r == Ok(DetachedProbe(p))
      ensures serialPort != null ==> r == ProbeStep(serialPort.selectedPort.state, p)
    {
      if serialPort == null then Ok(DetachedProbe(p)) else serialPort.Probe(p)
    }

    /** The `Handshake` getter parses the server's name without regard to
        case, which always recovers the transport's value. */
    function GetHandshake(): (r: Result<Handshake>)
      reads Wire()
      ensures serialPort == null ==> r == Err(InteropFailure)
      ensures serialPort != null ==> r == Ok(serialPort.selectedPort.state.config.handshake)
    {
      if serialPort == null then Err(InteropFailure)
      else
        HandshakeRoundTrip(serialPort.selectedPort.state.config.handshake);
        Ok(ParseHandshakeIgnoringCase(serialPort.GetHandshake()).value)
    }

    /** The `Handshake` setter sends the value's name. */
    method SetHandshake(h: Handshake) returns (o: Outcome)
      modifies Wire()
      ensures serialPort == null ==> o == Thrown(InteropFailure)
      ensures serialPort != null ==>
        o == Done && serialPort.selectedPort.state ==
          old(serialPort.selectedPort.state).(config := old(serialPort.selectedPort.state).config.(handshake := h))
    {
      if serialPort == null {
        return Thrown(InteropFailure);
      }
      HandshakeRoundTrip(h);
      serialPort.SetHandshake(HandshakeName(h));
      return Done;
    }

    function GetParity(): (r: Result<Parity>)
      reads Wire()
      ensures serialPort == null ==> r == Err(InteropFailure)
      ensures serialPort != null ==> r == Ok(serialPort.selectedPort.state.config.parity)
    {
      if serialPort == null then Err(InteropFailure)
      else
        ParityRoundTrip(serialPort.selectedPort.state.config.parity);
        Ok(ParseParityIgnoringCase(serialPort.GetParity()).value)
    }

    method SetParity(p: Parity) returns (o: Outcome)
      modifies Wire()
      ensures serialPort == null ==> o == Thrown(InteropFailure)
      ensures serialPort != null ==>
        o == Done && serialPort.selectedPort.state ==
          old(serialPort.selectedPort.state).(config := old(serialPort.selectedPort.state).config.(parity := p))
    {
      if serialPort == null {
        return Thrown(InteropFailure);
      }
      ParityRoundTrip(p);
      serialPort.SetParity(ParityName(p));
      return Done;
    }

    function GetStopBits(): (r: Result<StopBits>)
      reads Wire()
      ensures serialPort == null ==> r == Err(InteropFailure)
      ensures serialPort != null ==> r == Ok(serialPort.selectedPort.state.config.stopBits)
    {
      if serialPort == null then Err(InteropFailure)
      else
        StopBitsRoundTrip(serialPort.selectedPort.state.config.stopBits);
        Ok(ParseStopBitsIgnoringCase(serialPort.GetStopBits()).value)
    }

    /** The `StopBits` setter: the transport refuses `StopBits.None`. */
    method SetStopBits(b: StopBits) returns (o: Outcome)
      modifies Wire()
      ensures serialPort == null ==> o == Thrown(InteropFailure)
      ensures serialPort != null ==>
        (o, serialPort.selectedPort.state) == SetStopBitsStep(old(serialPort.selectedPort.state), b)
    {
      if serialPort == null {
        return Thrown(InteropFailure);
      }
      StopBitsRoundTrip(b);
      o := serialPort.SetStopBits(StopBitsName(b));
    }

    /** `DataReceived += handler` (or `ErrorReceived`, `PinChanged`): the
        client's event on `ch` now has a subscriber, so the relay raises it. */
    method Subscribe(ch: Channel)
      modifies this`subscribers
      ensures subscribers == old(subscribers) + {ch}
    {
      subscribers := subscribers + {ch};
    }

    /** `OnSerialDataReceived`: raises `DataReceived` with this client as the
        sender; with no subscriber the null reference is swallowed. */
    method OnSerialDataReceived(eventType: int)
      modifies this`raised
      ensures raised == old(raised) + (if DataChannel in subscribers then [Relayed(DataChannel, FromClient, eventType)] else [])
    {
      if DataChannel in subscribers {
        raised := raised + [Relayed(DataChannel, FromClient, eventType)];
      }
    }

    /** `OnSerialErrorReceived`: raises `ErrorReceived` with the server's sender. */
    method OnSerialErrorReceived(eventType: int)
      modifies this`raised
      ensures raised == old(raised) + (if ErrorChannel in subscribers then [Relayed(ErrorChannel, FromServer, eventType)] else [])
    {
      if ErrorChannel in subscribers {
        raised := raised + [Relayed(ErrorChannel, FromServer, eventType)];
      }
    }

    /** `OnSerialPinChanged`: raises `PinChanged` with the server's sender. */
    method OnSerialPinChanged(eventType: int)
      modifies this`raised
      ensures raised == old(raised) + (if PinChannel in subscribers then [Relayed(PinChannel, FromServer, eventType)] else [])
    {
      if PinChannel in subscribers {
        raised := raised + [Relayed(PinChannel, FromServer, eventType)];
      }
    }
  }

  /** Opening through the client leaves the server's registry alone, so its
      `LastError` is still -1 afterwards. */
  method OpenKeepsServerRegistry(c: SerialPort, refusal: Option<Fault>) returns (o: Outcome)
    requires c.serialPort != null && c.serialPort.Valid()
    modifies c, c.Remote()
    ensures c.serialPort.LastError() == -1
  {
    o := c.Open(refusal);
  }

  /** Once a handler is attached to `DataReceived`, the next event the server
      relays reaches it, with the client as the sender. */
  method SubscribedDataIsRelayed(c: SerialPort, eventType: int)
    modifies c
    ensures c.raised == old(c.raised) + [Relayed(DataChannel, FromClient, eventType)]
    ensures DataChannel in c.subscribers
  {
    c.Subscribe(DataChannel);
    c.OnSerialDataReceived(eventType);
  }

  /** `WriteBufferSize` and `WriteTimeout` read and write `ReadBufferSize`. */
  lemma WriteSettingsAliasReadBufferSize(c: SerialPort)
    requires c.serialPort != null
    ensures c.GetSetting(WriteBufferSize) == c.GetSetting(ReadBufferSize)
    ensures c.GetSetting(WriteTimeout) == c.GetSetting(ReadBufferSize)
  {
  }
}
