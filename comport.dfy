/** The automation bridge `ComPort` (ComPort/ComPort.cs): an optional active
    transport, the error registry, the inbound line queue filled by the
    data-received drain and read by `ReadString`, the device-name snapshot,
    and the forwarders that guard every member with "No active port.". */
module ComPortBridge {
  import opened Common
  import opened PortEnums
  import opened SliceArgs
  import opened ErrorRegistry
  import opened DeviceList
  import opened Transport

  /** The `BreakState` getter's guard message, which lacks the full stop. */
  const NoActivePortBare := Fault(InvalidOperation, "No active port")

  /** What the open worker throws on every path that reaches its last line. */
  const OpeningFailed := Fault(InvalidOperation, "Opening failed. See inner exception for details.")

  /** A member that delegates and then throws "No active port." anyway: the
      delegated call's own exception wins, and otherwise the member still fails. */
  function ThenNoActivePort(o: Outcome): (r: Outcome)
    ensures r.Thrown?
    ensures o.Thrown? ==> r == o
    ensures o.Done? ==> r == Thrown(NoActivePort)
  {
    if o.Thrown? then o else Thrown(NoActivePort)
  }

  /** The exception types the open worker catches and records. */
  predicate WorkerCatches(k: FaultKind) {
    k.UnauthorizedAccess? || k.IO? || IsArgumentFault(k) || k.InvalidOperation?
  }

  /** How the open worker ends: always by throwing. `Failed(inner)` is the
      "Opening failed." exception around the caught one, or around a blank
      `Exception` (`None`) when opening succeeded; `Escaped(f)` is an exception
      the worker does not catch. */
  datatype WorkerExit = Failed(inner: Option<Fault>) | Escaped(fault: Fault)

  /** The exception the worker's try block raises, if any: the transport
      constructor's refusal of the device name, or else the device's refusal
      to open (a freshly built port is never already open). */
  function Attempt(device: Option<string>, refusal: Option<Fault>): (f: Option<Fault>)
    ensures f.None? <==> PortNameFault(device).None? && refusal.None?
    ensures PortNameFault(device).Some? ==> f == PortNameFault(device)
  {
    if PortNameFault(device).Some? then PortNameFault(device) else refusal
  }

  /** The registry after the worker's catch blocks: a caught exception is
      recorded under `LastError + 1`, anything else leaves the registry alone. */
  function Logged(m: Registry, caught: Option<Fault>): Registry {
    if caught.Some? && WorkerCatches(caught.value.kind) then m[LastError(m) + 1 := caught.value.message]
    else m
  }

  function ExitOf(caught: Option<Fault>): (e: WorkerExit)
    ensures e.Escaped? <==> caught.Some? && !WorkerCatches(caught.value.kind)
    ensures e.Failed? ==> e.inner == caught
    ensures e.Escaped? ==> e.fault == caught.value
  {
    if caught.Some? && !WorkerCatches(caught.value.kind) then Escaped(caught.value) else Failed(caught)
  }

  /** One open attempt appends exactly one entry when it fails with a caught
      exception, under the next id, holding that exception's message; a
      success or an escaping exception leaves the registry as it was. */
  lemma LoggedAppendsOne(m: Registry, caught: Option<Fault>)
    requires Dense(m)
    ensures Dense(Logged(m, caught))
    ensures caught.Some? && WorkerCatches(caught.value.kind) ==>
      LastError(Logged(m, caught)) == LastError(m) + 1 &&
      Describe(Logged(m, caught), LastError(Logged(m, caught))) == Some(caught.value.message) &&
      forall id :: id in m ==> Describe(Logged(m, caught), id) == Describe(m, id)
    ensures !(caught.Some? && WorkerCatches(caught.value.kind)) ==> Logged(m, caught) == m
  {
    if caught.Some? && WorkerCatches(caught.value.kind) {
      AddNextKeepsDense(m, caught.value.message);
    }
  }

  /** The exception types the drain swallows. */
  predicate Swallowed(k: FaultKind) {
    k.NullReference? || k.IO? || k.IndexOutOfRange? || k.ArgumentOutOfRange?
  }

  /** What one run of the data-received drain does to a port: the lines it
      queues, how it ends, and the port afterwards. The drain ends when a read
      finds nothing waiting and raises the port's `dry` fault, which stands
      for a finite `ReadTimeout`; under the platform's default infinite
      timeout the drain would instead wait for the next line. */
  datatype Drain = Drain(queued: seq<Text>, outcome: Outcome, after: PortState)

  function Drained(s: PortState): (d: Drain)
    ensures d.queued == (if s.isOpen then s.lines else [])
    ensures d.after.lines == (if s.isOpen then [] else s.lines)
    ensures d.outcome.Done? <==> s.isOpen && (s.dry.kind == Timeout || Swallowed(s.dry.kind))
    ensures d.outcome.Thrown? ==> d.outcome == Thrown(if s.isOpen then s.dry else PortClosed)
    ensures s.isOpen && s.dry.kind == Timeout ==> d.after.rxBytes == [] && d.after.rxUnits == []
    ensures s.dry.kind != Timeout ==> d.after.rxBytes == s.rxBytes && d.after.rxUnits == s.rxUnits
    ensures d.after.isOpen == s.isOpen && d.after.config == s.config && d.after.tx == s.tx
  {
    if !s.isOpen then Drain([], Thrown(PortClosed), s)
    else
      var emptied := s.(lines := []);
      if s.dry.kind == Timeout then
        Drain(s.lines, DiscardInStep(emptied).0, DiscardInStep(emptied).1)
      else Drain(s.lines, if Swallowed(s.dry.kind) then Done else Thrown(s.dry), emptied)
  }

  /** `inQueue.Dequeue()`, with the empty queue answered by `string.Empty`. */
  function Dequeue(q: seq<Text>): (Text, seq<Text>) {
    if q == [] then ([], []) else (q[0], q[1..])
  }

  /** The strings `n` successive `ReadString` calls return. */
  function Served(q: seq<Text>, n: nat): (r: seq<Text>)
    ensures |r| == n
    decreases n
  {
    if n == 0 then [] else [Dequeue(q).0] + Served(Dequeue(q).1, n - 1)
  }

  /** `ReadString` is first in, first out: the i-th call returns the i-th
      queued line, and every call after the queue runs dry returns "". */
  lemma {:induction false} ServedInOrder(q: seq<Text>, n: nat)
    ensures forall i :: 0 <= i < n ==> Served(q, n)[i] == (if i < |q| then q[i] else [])
    decreases n
  {
    if n > 0 {
      ServedInOrder(Dequeue(q).1, n - 1);
      forall i | 0 <= i < n
        ensures Served(q, n)[i] == (if i < |q| then q[i] else [])
      {
        if i > 0 {
          assert Served(q, n)[i] == Served(Dequeue(q).1, n - 1)[i - 1];
        }
      }
    }
  }

  /** Lines drained from a port come out of `ReadString` after the lines
      already queued, in the order they arrived. */
  lemma DrainedLinesServedInOrder(q: seq<Text>, s: PortState)
    requires s.isOpen
    ensures var q' := q + Drained(s).queued;
      forall i :: 0 <= i < |s.lines| ==> Served(q', |q| + |s.lines|)[|q| + i] == s.lines[i]
  {
    ServedInOrder(q + Drained(s).queued, |q| + |s.lines|);
  }

  class ComPort {
    var selectedPort: Port?
    var portNames: Option<seq<string>>
    var errors: Registry
    var inQueue: seq<Text>
    /** The `Device` property; `None` is a null name. */
    var device: Option<string>

    /** The registry's ids are 0 .. LastError. */
    ghost predicate Valid()
      reads this
    {
      Dense(errors)
    }

    constructor ()
      ensures Valid()
      ensures selectedPort == null && portNames == None && errors == map[] && inQueue == [] && device == None
    {
      selectedPort := null;
      portNames := None;
      errors := map[];
      inQueue := [];
      device := None;
    }

    /** `LastError`: the id of the most recent recorded failure, -1 for none. */
    function LastError(): int
      reads this
    {
      ErrorRegistry.LastError(errors)
    }

    /** `GetErrorDescription(id)`: `None` stands for the null it returns for
        an unknown id. */
    function GetErrorDescription(id: int): Option<string>
      reads this
    {
      Describe(errors, id)
    }

    /** `OpenAsyncWorker`: closes the active transport if it is open, builds a
        new one for `Device`, wires the drain to it and opens it; records a
        caught failure; and throws whatever happens. */
    method OpenAsyncWorker(refusal: Option<Fault>) returns (exit: WorkerExit)
      requires Valid()
      modifies this, selectedPort
      ensures Valid()
      ensures old(selectedPort) != null ==> old(selectedPort).state == old(selectedPort.state).(isOpen := false)
      ensures PortNameFault(device).Some? ==> selectedPort == old(selectedPort)
      ensures PortNameFault(device).None? ==>
        selectedPort != null && fresh(selectedPort) &&
        selectedPort.state == Fresh(device.value).(isOpen := refusal.None?, subscriptions := [DataChannel])
      ensures errors == Logged(old(errors), Attempt(device, refusal))
      ensures exit == ExitOf(Attempt(device, refusal))
      ensures inQueue == old(inQueue) && portNames == old(portNames) && device == old(device)
    {
      if selectedPort != null && selectedPort.state.isOpen {
        selectedPort.Close();
      }
      var caught := TryOpen(refusal);
      if caught.Some? && !WorkerCatches(caught.value.kind) {
        return Escaped(caught.value);
      }
      if caught.Some? {
        LoggedAppendsOne(errors, caught);
        errors := errors[ErrorRegistry.LastError(errors) + 1 := caught.value.message];
      }
      return Failed(caught);
    }

    /** The worker's try block: builds the transport for `Device` (keeping the
        old one when the name is refused), wires the drain to it and opens it;
        returns the exception raised, if any. */
    method TryOpen(refusal: Option<Fault>) returns (caught: Option<Fault>)
      modifies this`selectedPort
      ensures caught == Attempt(device, refusal)
      ensures PortNameFault(device).Some? ==> selectedPort == old(selectedPort)
      ensures PortNameFault(device).None? ==>
        selectedPort != null && fresh(selectedPort) &&
        selectedPort.state == Fresh(device.value).(isOpen := refusal.None?, subscriptions := [DataChannel])
    {
      caught := PortNameFault(device);
      if caught.None? {
        var port := new Port(device.value);
        selectedPort := port;
        port.Subscribe(DataChannel);
        var o := port.Open(refusal);
        if o.Thrown? {
          caught := Some(o.fault);
        }
      }
    }

    /** `Open`: runs the worker; the exception the worker throws never reaches
        the caller. */
    method Open(refusal: Option<Fault>)
      requires Valid()
      modifies this, selectedPort
      ensures Valid()
      ensures old(selectedPort) != null ==> old(selectedPort).state == old(selectedPort.state).(isOpen := false)
      ensures PortNameFault(device).Some? ==> selectedPort == old(selectedPort)
      ensures PortNameFault(device).None? ==>
        selectedPort != null && fresh(selectedPort) &&
        selectedPort.state == Fresh(device.value).(isOpen := refusal.None?, subscriptions := [DataChannel])
      ensures errors == Logged(old(errors), Attempt(device, refusal))
      ensures inQueue == old(inQueue) && portNames == old(portNames) && device == old(device)
    {
      var _ := OpenAsyncWorker(refusal);
    }

    /** `Close`: acts only on an active, open transport, which it closes and
        drops. */
    method Close()
      modifies this, selectedPort
      ensures old(selectedPort) != null && old(selectedPort.state).isOpen ==>
        selectedPort == null && old(selectedPort).state == old(selectedPort.state).(isOpen := false)
      ensures !(old(selectedPort) != null && old(selectedPort.state).isOpen) ==>
        selectedPort == old(selectedPort) && (selectedPort != null ==> selectedPort.state == old(selectedPort.state))
      ensures errors == old(errors) && inQueue == old(inQueue) && portNames == old(portNames) && device == old(device)
    {
      if selectedPort != null && selectedPort.state.isOpen {
        selectedPort.Close();
        selectedPort := null;
      }
    }

    /** `OnSerialPortDataReceived`: queues every complete line the sender has,
        in arrival order, until a read times out, then discards the input
        buffer; IO, index, argument-range and null-reference faults end it
        quietly, other faults propagate. */
    method OnSerialPortDataReceived(sender: Port) returns (o: Outcome)
      modifies this`inQueue, sender
      ensures inQueue == old(inQueue) + Drained(old(sender.state)).queued
      ensures sender.state == Drained(old(sender.state)).after
      ensures o == Drained(old(sender.state)).outcome
    {
      ghost var s0 := sender.state;
      ghost var k := 0;
      while true
        invariant 0 <= k <= |s0.lines|
        invariant inQueue == old(inQueue) + s0.lines[..k]
        invariant sender.state == s0.(lines := s0.lines[k..])
        invariant k > 0 ==> s0.isOpen
        decreases |s0.lines| - k
      {
        var line := sender.ReadLine();
        match line {
          case Ok(t) =>
            assert s0.lines[..k + 1] == s0.lines[..k] + [t];
            inQueue := inQueue + [t];
            k := k + 1;
          case Err(f) =>
            if f.kind == Timeout {
              break;
            }
            if Swallowed(f.kind) {
              return Done;
            }
            return Thrown(f);
        }
      }
      assert s0.lines[..k] == s0.lines;
      o := sender.DiscardInBuffer();
    }

    /** `ReadString`: the oldest queued line, or "" when none is queued. */
    method ReadString() returns (r: Text)
      modifies this`inQueue
      ensures (r, inQueue) == Dequeue(old(inQueue))
    {
      if inQueue == [] {
        return [];
      }
      r := inQueue[0];
      inQueue := inQueue[1..];
    }

    /** `GetDeviceCount`: replaces the snapshot with the current enumeration
        (an input here) and returns its length; `GetDevice(n)` is then
        `Indexed(portNames, n)`. */
    method GetDeviceCount(enumeration: seq<string>) returns (n: int)
      modifies this`portNames
      ensures portNames == Some(enumeration) && n == |enumeration|
      ensures forall i :: 0 <= i < n ==> GetDevice(i) == Ok(enumeration[i])
    {
      portNames := Some(enumeration);
      n := |enumeration|;
    }

    function GetDevice(n: int): Result<string>
      reads this
    {
      Indexed(portNames, n)
    }

    // The forwarders. Each one touches the transport only when there is one.

    method DiscardInBuffer() returns (o: Outcome)
      modifies selectedPort
      ensures o.Thrown?
      ensures selectedPort == null ==> o == Thrown(NoActivePort)
      ensures selectedPort != null ==>
        o == ThenNoActivePort(DiscardInStep(old(selectedPort.state)).0) &&
        selectedPort.state == DiscardInStep(old(selectedPort.state)).1
    {
      o := Done;
      if selectedPort != null {
        o := selectedPort.DiscardInBuffer();
      }
      o := ThenNoActivePort(o);
    }

    method DiscardOutBuffer() returns (o: Outcome)
      modifies selectedPort
      ensures o.Thrown?
      ensures selectedPort == null ==> o == Thrown(NoActivePort)
      ensures selectedPort != null ==>
        o == ThenNoActivePort(DiscardOutStep(old(selectedPort.state)).0) &&
        selectedPort.state == DiscardOutStep(old(selectedPort.state)).1
    {
      o := Done;
      if selectedPort != null {
        o := selectedPort.DiscardOutBuffer();
      }
      o := ThenNoActivePort(o);
    }

    method Read(buffer: array?<byte>, offset: int32, count: int32) returns (r: Result<int>)
      modifies selectedPort, buffer
      ensures selectedPort == null ==> r == Err(NoActivePort) && Contents(buffer) == old(Contents(buffer))
      ensures selectedPort != null ==>
        (r, selectedPort.state, Contents(buffer)) == ReadBytesStep(old(selectedPort.state), buffer == null, old(Contents(buffer)), offset, count)
    {
      if selectedPort != null {
        r := selectedPort.Read(buffer, offset, count);
        return;
      }
      return Err(NoActivePort);
    }

    /** `Read(char[] buffer, int offset, int count)`. */
    method ReadUnits(buffer: array?<CodeUnit>, offset: int32, count: int32) returns (r: Result<int>)
      modifies selectedPort, buffer
      ensures selectedPort == null ==> r == Err(NoActivePort) && Contents(buffer) == old(Contents(buffer))
      ensures selectedPort != null ==>
        (r, selectedPort.state, Contents(buffer)) == ReadUnitsStep(old(selectedPort.state), buffer == null, old(Contents(buffer)), offset, count)
    {
      if selectedPort != null {
        r := selectedPort.ReadUnits(buffer, offset, count);
        return;
      }
      return Err(NoActivePort);
    }

    method ReadByte() returns (r: Result<byte>)
      modifies selectedPort
      ensures selectedPort == null ==> r == Err(NoActivePort)
      ensures selectedPort != null ==> (r, selectedPort.state) == ReadByteStep(old(selectedPort.state))
    {
      if selectedPort != null {
        r := selectedPort.ReadByte();
        return;
      }
      return Err(NoActivePort);
    }

    method ReadChar() returns (r: Result<CodeUnit>)
      modifies selectedPort
      ensures selectedPort == null ==> r == Err(NoActivePort)
      ensures selectedPort != null ==> (r, selectedPort.state) == ReadCharStep(old(selectedPort.state))
    {
      if selectedPort != null {
        r := selectedPort.ReadChar();
        return;
      }
      return Err(NoActivePort);
    }

    method ReadExisting() returns (r: Result<Text>)
      modifies selectedPort
      ensures selectedPort == null ==> r == Err(NoActivePort)
      ensures selectedPort != null ==> (r, selectedPort.state) == ReadExistingStep(old(selectedPort.state))
    {
      if selectedPort != null {
        r := selectedPort.ReadExisting();
        return;
      }
      return Err(NoActivePort);
    }

    method ReadLine() returns (r: Result<Text>)
      modifies selectedPort
      ensures selectedPort == null ==> r == Err(NoActivePort)
      ensures selectedPort != null ==> (r, selectedPort.state) == ReadLineStep(old(selectedPort.state))
    {
      if selectedPort != null {
        r := selectedPort.ReadLine();
        return;
      }
      return Err(NoActivePort);
    }

    /** `ReadTo(value)` ignores `value` and reads a line. */
    method ReadTo(value: Text) returns (r: Result<Text>)
      modifies selectedPort
      ensures selectedPort == null ==> r == Err(NoActivePort)
      ensures selectedPort != null ==> (r, selectedPort.state) == ReadLineStep(old(selectedPort.state))
    {
      if selectedPort != null {
        r := selectedPort.ReadLine();
        return;
      }
      return Err(NoActivePort);
    }

    method Write(buffer: array?<byte>, offset: int32, count: int32) returns (o: Outcome)
      modifies selectedPort
      ensures o.Thrown?
      ensures selectedPort == null ==> o == Thrown(NoActivePort)
      ensures selectedPort != null ==>
        var (inner, after) := WriteBytesStep(old(selectedPort.state), buffer == null, Contents(buffer), offset, count);
        o == ThenNoActivePort(inner) && selectedPort.state == after
    {
      o := Done;
      if selectedPort != null {
        o := selectedPort.Write(buffer, offset, count);
      }
      o := ThenNoActivePort(o);
    }

    /** `Write(char[] buffer, int offset, int count)`. */
    method WriteUnits(buffer: array?<CodeUnit>, offset: int32, count: int32) returns (o: Outcome)
      modifies selectedPort
      ensures o.Thrown?
      ensures selectedPort == null ==> o == Thrown(NoActivePort)
      ensures selectedPort != null ==>
        var (inner, after) := WriteUnitsStep(old(selectedPort.state), buffer == null, Contents(buffer), offset, count);
        o == ThenNoActivePort(inner) && selectedPort.state == after
    {
      o := Done;
      if selectedPort != null {
        o := selectedPort.WriteUnits(buffer, offset, count);
      }
      o := ThenNoActivePort(o);
    }

    /** `Write(string)`. */
    method WriteText(value: Text) returns (o: Outcome)
      modifies selectedPort
      ensures o.Thrown?
      ensures selectedPort == null ==> o == Thrown(NoActivePort)
      ensures selectedPort != null ==>
        o == ThenNoActivePort(WriteStep(old(selectedPort.state), Units(value)).0) &&
        selectedPort.state == WriteStep(old(selectedPort.state), Units(value)).1
    {
      o := Done;
      if selectedPort != null {
        o := selectedPort.WriteText(value);
      }
      o := ThenNoActivePort(o);
    }

    method WriteLine(value: Text) returns (o: Outcome)
      modifies selectedPort
      ensures o.Thrown?
      ensures selectedPort == null ==> o == Thrown(NoActivePort)
      ensures selectedPort != null ==>
        var chunk := Units(value + NewLineOf(old(selectedPort.state).config));
        o == ThenNoActivePort(WriteStep(old(selectedPort.state), chunk).0) &&
        selectedPort.state == WriteStep(old(selectedPort.state), chunk).1
    {
      o := Done;
      if selectedPort != null {
        o := selectedPort.WriteLine(value);
      }
      o := ThenNoActivePort(o);
    }

    /** The getters of the forwarded properties. */
    function GetSetting(s: Setting): (r: Result<Value>)
      reads this, selectedPort
      ensures selectedPort == null ==> r == Err(if s == BreakState then NoActivePortBare else NoActivePort)
      ensures selectedPort != null ==> r == GetStep(selectedPort.state, s)
    {
      if selectedPort != null then GetStep(selectedPort.state, s)
      else if s == BreakState then Err(NoActivePortBare)
      else Err(NoActivePort)
    }

    /** The setters of the forwarded properties; the `DataBits` setter throws
        "No active port." after storing the value. */
    method SetSetting(s: Setting, v: Value) returns (o: Outcome)
      requires Fits(s, v)
      modifies selectedPort
      ensures selectedPort == null ==> o == Thrown(NoActivePort)
      ensures selectedPort != null ==>
        var (inner, after) := SetStep(old(selectedPort.state), s, v);
        selectedPort.state == after && o == (if s == DataBits then ThenNoActivePort(inner) else inner)
      ensures s == DataBits ==> o.Thrown?
    {
      if selectedPort != null {
        o := selectedPort.Set(s, v);
        if s == DataBits {
          o := ThenNoActivePort(o);
        }
      } else {
        o := Thrown(NoActivePort);
      }
    }

    /** The read-only status properties, `IsOpen` among them. */
    function Probe(p: Probe): (r: Result<Value>)
      reads this, selectedPort
      ensures selectedPort == null ==> r == Err(NoActivePort)
      ensures selectedPort != null ==> r == ProbeStep(selectedPort.state, p)
    {
      if selectedPort != null then ProbeStep(selectedPort.state, p) else Err(NoActivePort)
    }

    function GetHandshake(): (r: Result<string>)
      reads this, selectedPort
      ensures selectedPort == null ==> r == Err(NoActivePort)
      ensures selectedPort != null ==> r == Ok(HandshakeName(selectedPort.state.config.handshake))
    {
      if selectedPort != null then Ok(HandshakeName(selectedPort.state.config.handshake)) else Err(NoActivePort)
    }

    /** The `Handshake` setter: an unrecognised name sets `Handshake.None`. */
    method SetHandshake(name: string) returns (o: Outcome)
      modifies selectedPort
      ensures selectedPort == null ==> o == Thrown(NoActivePort)
      ensures selectedPort != null ==>
        o == Done && selectedPort.state == old(selectedPort.state).(config := old(selectedPort.state).config.(handshake := ParseHandshake(name)))
    {
      if selectedPort != null {
        selectedPort.SetHandshake(ParseHandshake(name));
        return Done;
      }
      return Thrown(NoActivePort);
    }

    function GetParity(): (r: Result<string>)
      reads this, selectedPort
      ensures selectedPort == null ==> r == Err(NoActivePort)
      ensures selectedPort != null ==> r == Ok(ParityName(selectedPort.state.config.parity))
    {
      if selectedPort != null then Ok(ParityName(selectedPort.state.config.parity)) else Err(NoActivePort)
    }

    /** The `Parity` setter: an unrecognised name sets `Parity.None`. */
    method SetParity(name: string) returns (o: Outcome)
      modifies selectedPort
      ensures selectedPort == null ==> o == Thrown(NoActivePort)
      ensures selectedPort != null ==>
        o == Done && selectedPort.state == old(selectedPort.state).(config := old(selectedPort.state).config.(parity := ParseParity(name)))
    {
      if selectedPort != null {
        selectedPort.SetParity(ParseParity(name));
        return Done;
      }
      return Thrown(NoActivePort);
    }

    function GetStopBits(): (r: Result<string>)
      reads this, selectedPort
      ensures selectedPort == null ==> r == Err(NoActivePort)
      ensures selectedPort != null ==> r == Ok(StopBitsName(selectedPort.state.config.stopBits))
    {
      if selectedPort != null then Ok(StopBitsName(selectedPort.state.config.stopBits)) else Err(NoActivePort)
    }

    /** The `StopBits` setter: an unrecognised name becomes `StopBits.None`,
        which the transport refuses. */
    method SetStopBits(name: string) returns (o: Outcome)
      modifies selectedPort
      ensures selectedPort == null ==> o == Thrown(NoActivePort)
      ensures selectedPort != null ==> (o, selectedPort.state) == SetStopBitsStep(old(selectedPort.state), ParseStopBits(name))
    {
      if selectedPort != null {
        o := selectedPort.SetStopBits(ParseStopBits(name));
        return;
      }
      return Thrown(NoActivePort);
    }
  }

  /** After `Close` has dropped an open transport, asking `IsOpen` fails with
      "No active port." instead of answering false. */
  method CloseThenIsOpen(c: ComPort) returns (r: Result<Value>)
    requires c.selectedPort != null && c.selectedPort.state.isOpen
    modifies c, c.selectedPort
    ensures r == Err(NoActivePort)
  {
    c.Close();
    r := c.Probe(Probe.IsOpen);
  }
}
