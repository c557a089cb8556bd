# Serial-session bridge, modelled in Dafny

The interopcom repository lets a sandboxed application reach a machine's serial
ports through COM automation. It has three variants of the same bridge around
the .NET serial primitive `System.IO.Ports.SerialPort`:

- `ComPort` (ComPort/ComPort.cs) owns an optional active transport, a static
  error registry that the open routine appends to, an inbound line queue
  filled by a data-received drain and emptied by `ReadString`, and a snapshot
  of device names. Every forwarded member is guarded with "No active port.".
- The COM server `SerialPort` (SerialPort/SerialPort.cs) builds its transport
  once and never replaces it. Its `Open` re-wires three event forwarders each
  time it runs. It also has string-to-enum configuration setters, the same
  registry and the same snapshot pattern.
- The sandbox client `SerialPort` (SLSerialPort/SerialPort.cs) reaches the
  COM server through a late-bound object. It checks `(buffer, offset, count)`
  itself, fills a read slice one item at a time and narrows written chars to
  bytes. It turns the server's "No active port." into `InteropException`,
  answers many getters with defaults when it holds no COM object, and relays
  the server's events to its own subscribers.

Project layout, one module per file:

| file | module | contents |
|---|---|---|
| common.dfy | `Common` | .NET widths (`byte`, `char` as a UTF-16 code unit, `int`), exceptions as `Fault`, `Result`/`Outcome` |
| enums.dfy | `PortEnums` | `Handshake`, `Parity`, `StopBits`, their names, `Enum.TryParse` and case-insensitive `Enum.Parse` |
| slice.dfy | `SliceArgs` | the client's argument checks (as written and corrected), the platform's checks, slice splicing, char-to-byte narrowing |
| registry.dfy | `ErrorRegistry` | the `errors` dictionary, `LastError`, `GetErrorDescription` |
| devices.dfy | `DeviceList` | the `portNames` snapshot and `GetDevice` |
| transport.dfy | `Transport` | the platform serial port: a `PortState` record, pure step functions, and a class `Port` applying them in place |
| comport.dfy | `ComPortBridge` | class `ComPort` and the specifications of its open worker, drain and queue |
| comserver.dfy | `ComServer` | class `SerialPort` (COM server) and its event forwarding |
| slclient.dfy | `SandboxClient` | class `SerialPort` (sandbox client), its fill and write specifications |

A thrown exception is a `Fault(kind, message)`. A member that returns a value
gives `Result<T>` (`Ok`/`Err`), and a `void` member gives `Outcome`
(`Done`/`Thrown`). Inputs stand in for what the platform or the device
decides. These are: the device's refusal to open, the port enumeration that
`GetDeviceCount` snapshots, and the fault a read raises when nothing is
waiting. That fault stands for the timeout of a finite `ReadTimeout`. Under
the platform's default `ReadTimeout` of -1 a read waits for data instead, and
that wait is not modelled (see "Left out").

Where the code and its documentation disagree, the model follows the code:

- `GetErrorDescription` of an unknown id is `null` (`None`), not the empty
  string, because `TryGetValue` overwrites the initial `string.Empty`.
- `GetDevice` with no snapshot fails with a null reference.
- `GetDevice` outside the snapshot fails with an index exception.
- The client's `Read` overloads document that `TimeoutException` is raised
  only when nothing could be read. In the code, a timeout on any single item
  ends the read.

## Model

| member | source | states |
|---|---|---|
| PortEnums.ParseHandshake | ComPort/ComPort.cs:415-419 | `Enum.TryParse` with its result ignored: an exact name gives its value, anything else gives `Handshake.None` |
| PortEnums.ParseParity | ComPort/ComPort.cs:461-465 | the same for `Parity`, falling back to `Parity.None` |
| PortEnums.ParseStopBits | ComPort/ComPort.cs:560-564 | the same for `StopBits`, falling back to `StopBits.None` |
| PortEnums.HandshakeNamesDistinct | SerialPort/SerialPort.cs:357-361 | the getter's name identifies the value |
| PortEnums.HandshakeRoundTrip | SerialPort/SerialPort.cs:357-369 | setting a value's name and reading it back gives the value again, through the exact parse and through the client's case-insensitive parse |
| PortEnums.ParityRoundTrip | SerialPort/SerialPort.cs:403-415 | the same round trip for `Parity` |
| PortEnums.StopBitsRoundTrip | SerialPort/SerialPort.cs:502-513 | the same round trip for `StopBits` |
| PortEnums.ParseIsCaseSensitive | SerialPort/SerialPort.cs:364-366 | the bridges' setter parse is case-sensitive ("xonxoff" sets `None`), while the client's getter parse is not |
| SliceArgs.ClientCheck | SLSerialPort/SerialPort.cs:225-234 | the corrected form of the client's checks (see Findings): they accept exactly a non-null buffer with `0 <= offset`, `0 <= count` and `offset + count <= Length` |
| SliceArgs.ClientCheckOrder | SLSerialPort/SerialPort.cs:225-234 | null buffer first, then the over-long slice, then a negative count, then a negative offset, each with its own exception and message |
| SliceArgs.AsWrittenAgreesWithoutOverflow | SLSerialPort/SerialPort.cs:227 | where `count + offset` fits in 32 bits, the checks as written equal the corrected ones |
| SliceArgs.AsWrittenDiffersOnlyOnOverflow | SLSerialPort/SerialPort.cs:227 | the two differ only on overflow; past `int.MaxValue` the check as written admits a slice past the buffer |
| SliceArgs.AsWrittenAdmitsWrappedSlice | SLSerialPort/SerialPort.cs:227 | the counterexample: buffer of 5, offset 1, count `int.MaxValue` passes as written |
| SliceArgs.ChecksAcceptAlike | ComPort/ComPort.cs:230-233 | the client and the platform accept exactly the same slices |
| SliceArgs.ChecksMayBlameDifferently | SLSerialPort/SerialPort.cs:225-234 | for the same call, the two may name different faults |
| SliceArgs.Narrowed | SLSerialPort/SerialPort.cs:444-451 | `Convert.ToByte` char by char succeeds iff every char is at most 255, keeps each value, and otherwise raises the overflow |
| SliceArgs.NarrowWidenRoundTrip | SLSerialPort/SerialPort.cs:449 | narrowing and widening are inverse on chars that fit in a byte |
| ErrorRegistry.EmptyRegistry | ComPort/ComPort.cs:181-184 | a fresh registry is dense, reports `LastError` -1 and describes nothing |
| ErrorRegistry.AddNextKeepsDense | ComPort/ComPort.cs:640 | adding at `LastError + 1` never collides, keeps ids dense, raises `LastError` by one and keeps earlier entries |
| ErrorRegistry.DescribedIds | ComPort/ComPort.cs:672-680 | on a dense registry an id has a description iff it lies in 0 .. `LastError` |
| ErrorRegistry.RecordedInOrder | ComPort/ComPort.cs:638-653 | after n recorded failures the ids are 0 .. n-1 and id i describes the i-th failure |
| DeviceList.Indexed | ComPort/ComPort.cs:604-607 | `portNames[n]` with no snapshot fails with a null reference; otherwise it succeeds iff `0 <= n < count`, with that name, and fails with an index exception outside |
| DeviceList.SnapshotReadsBack | SerialPort/SerialPort.cs:546-553 | after a snapshot, indexes below the count read back the enumeration; the count and -1 fail |
| Transport.Default | SerialPort/SerialPort.cs:19-22 | every default the new transport has fits its property's type |
| Transport.GetPut | ComPort/ComPort.cs:288-297 | a forwarded property reads back what was last written, and writing one leaves the others alone |
| Transport.PortNameFault | ComPort/ComPort.cs:633 | building a transport for `Device` fails exactly for a null name, an empty name or a name starting with two backslashes |
| Transport.GetStep | ComPort/ComPort.cs:300-304 | a property read fails only for `BreakState` on a closed port, and otherwise gives the stored value |
| Transport.SetThenGet | SerialPort/SerialPort.cs:235-244 | a successful property write reads back and a failed one changes nothing; only `PortName`, `BreakState`, `ReadBufferSize` and `WriteBufferSize` writes can fail, and the buffer sizes fail exactly while the port is open |
| Transport.SetStopBitsStep | SerialPort/SerialPort.cs:507-512 | the transport refuses exactly `StopBits.None`; otherwise the value is stored |
| Transport.ProbeStep | ComPort/ComPort.cs:427-432 | `IsOpen` always answers; the other status properties fail with "The port is closed." exactly when the port is closed |
| Transport.ReadLineIsFifo | ComPort/ComPort.cs:613 | a line read returns the oldest waiting line, or the dry-port fault with nothing changed |
| Transport.ReadSlice | ComPort/ComPort.cs:230-233 | the platform's slice read refuses a closed port before it checks the arguments, then copies `min(count, waiting)` items into the slice and keeps the rest waiting; no item is lost or invented |
| Transport.Draw | SLSerialPort/SerialPort.cs:237-239 | `n` single-item reads take a prefix of the waiting items and stop early exactly when a read fails, with that read's fault |
| Transport.DrawIsRepeatedReadByte | SLSerialPort/SerialPort.cs:237-239 | `Draw` equals `n` successive `ReadByte` steps |
| Transport.WriteLineAppendsTerminator | SerialPort/SerialPort.cs:217-220 | `WriteLine(t)` hands the platform `t` followed by the configured `NewLine` |
| ComPortBridge.ThenNoActivePort | ComPort/ComPort.cs:220-229 | a member that delegates and then throws always fails: with the delegate's exception if it threw, otherwise with "No active port." |
| ComPortBridge.Attempt | ComPort/ComPort.cs:632-637 | the worker's try block fails iff the name is refused or the device refuses to open, and a refused name wins |
| ComPortBridge.ExitOf | ComPort/ComPort.cs:638-654 | the worker never returns normally: it throws "Opening failed." around the caught exception (or a blank one), or lets an uncaught one escape |
| ComPortBridge.LoggedAppendsOne | ComPort/ComPort.cs:638-653 | a caught failure appends exactly one entry under the next id with the exception's message; anything else leaves the registry as it was |
| ComPortBridge.Drained | ComPort/ComPort.cs:609-627 | the drain queues every waiting line in order on an open port; after a timeout it discards the input buffer; it swallows IO, index, argument-range and null-reference faults and propagates the others |
| ComPortBridge.Served | ComPort/ComPort.cs:662-668 | n successive `ReadString` calls give n strings |
| ComPortBridge.ServedInOrder | ComPort/ComPort.cs:662-668 | `ReadString` is first in, first out; once the queue is empty it returns "" |
| ComPortBridge.DrainedLinesServedInOrder | ComPort/ComPort.cs:609-668 | drained lines come out of `ReadString` after those already queued, in arrival order |
| ComPortBridge.ComPort.constructor | ComPort/ComPort.cs:181-184 | no transport, an empty dense registry, an empty queue, no snapshot |
| ComPortBridge.ComPort.OpenAsyncWorker | ComPort/ComPort.cs:629-655 | closes the old transport if it is open; builds, wires and opens a new one for `Device`; appends a caught failure; always ends by throwing |
| ComPortBridge.ComPort.TryOpen | ComPort/ComPort.cs:631-637 | the try block alone: the raised exception is `Attempt(Device, refusal)`, and the new transport is wired to the drain |
| ComPortBridge.ComPort.Open | ComPort/ComPort.cs:203-207 | the worker's effect on the bridge, with its exception never reaching the caller |
| ComPortBridge.ComPort.Close | ComPort/ComPort.cs:212-217 | an active, open transport is closed and dropped; otherwise nothing changes |
| ComPortBridge.ComPort.OnSerialPortDataReceived | ComPort/ComPort.cs:609-627 | the drain loop's queue, port and outcome are those of `Drained` |
| ComPortBridge.ComPort.ReadString | ComPort/ComPort.cs:662-668 | removes and returns the oldest queued line, or "" on an empty queue |
| ComPortBridge.ComPort.GetDeviceCount | ComPort/ComPort.cs:599-602 | replaces the snapshot, returns its length, and `GetDevice(i)` then reads back every name |
| ComPortBridge.ComPort.DiscardInBuffer | ComPort/ComPort.cs:220-223 | always throws: "No active port." without a transport, otherwise after discarding |
| ComPortBridge.ComPort.DiscardOutBuffer | ComPort/ComPort.cs:226-229 | the same for the transmit buffer |
| ComPortBridge.ComPort.Read | ComPort/ComPort.cs:230-233 | "No active port." without a transport, with the buffer untouched; otherwise the platform's slice read |
| ComPortBridge.ComPort.ReadUnits | ComPort/ComPort.cs:234-237 | the same for `char[]` |
| ComPortBridge.ComPort.ReadByte | ComPort/ComPort.cs:238-241 | guarded single-byte read |
| ComPortBridge.ComPort.ReadChar | ComPort/ComPort.cs:242-245 | guarded single-char read |
| ComPortBridge.ComPort.ReadExisting | ComPort/ComPort.cs:246-249 | guarded read of everything waiting |
| ComPortBridge.ComPort.ReadLine | ComPort/ComPort.cs:250-253 | guarded line read |
| ComPortBridge.ComPort.ReadTo | ComPort/ComPort.cs:254-257 | ignores its argument and reads a line |
| ComPortBridge.ComPort.Write | ComPort/ComPort.cs:258-261 | always throws; with a transport the bytes are written first |
| ComPortBridge.ComPort.WriteUnits | ComPort/ComPort.cs:262-265 | always throws; with a transport the chars are written first |
| ComPortBridge.ComPort.WriteText | ComPort/ComPort.cs:266-269 | always throws; with a transport the string is written first |
| ComPortBridge.ComPort.WriteLine | ComPort/ComPort.cs:270-273 | always throws; with a transport the string and `NewLine` are written first |
| ComPortBridge.ComPort.GetSetting | ComPort/ComPort.cs:288-593 | without a transport every getter fails with "No active port." (`BreakState` without the full stop); otherwise the transport's value |
| ComPortBridge.ComPort.SetSetting | ComPort/ComPort.cs:288-593 | without a transport every setter fails; otherwise the transport's write, and `DataBits` throws after storing |
| ComPortBridge.ComPort.Probe | ComPort/ComPort.cs:312-432 | status getters fail without a transport, `IsOpen` included |
| ComPortBridge.ComPort.GetHandshake | ComPort/ComPort.cs:411-414 | the transport value's name, or "No active port." |
| ComPortBridge.ComPort.SetHandshake | ComPort/ComPort.cs:415-422 | stores `ParseHandshake(name)`, or fails without a transport |
| ComPortBridge.ComPort.GetParity | ComPort/ComPort.cs:457-460 | the transport value's name, or "No active port." |
| ComPortBridge.ComPort.SetParity | ComPort/ComPort.cs:461-468 | stores `ParseParity(name)`, or fails without a transport |
| ComPortBridge.ComPort.GetStopBits | ComPort/ComPort.cs:556-559 | the transport value's name, or "No active port." |
| ComPortBridge.ComPort.SetStopBits | ComPort/ComPort.cs:560-566 | an unknown name becomes `StopBits.None`, which the transport refuses |
| ComPortBridge.CloseThenIsOpen | ComPort/ComPort.cs:212-217 | after `Close` drops an open transport, `IsOpen` fails with "No active port." |
| ComServer.Forwarded | SerialPort/SerialPort.cs:52-66 | one platform event reaches a listening client once per attached forwarder for its channel, carrying the event type as an int; with no listener nothing is delivered |
| ComServer.Opens | SerialPort/SerialPort.cs:52-66 | n opens attach 3n forwarders |
| ComServer.OpensAccumulate | SerialPort/SerialPort.cs:47-69 | each `Open` adds one more forwarder per channel, so each event is delivered once more |
| ComServer.SerialPort.constructor | SerialPort/SerialPort.cs:19-22 | a fresh closed transport with the platform defaults, and an empty registry |
| ComServer.SerialPort.LastError | SerialPort/SerialPort.cs:562-564 | -1 for the life of the object, since nothing records an error |
| ComServer.SerialPort.GetErrorDescription | SerialPort/SerialPort.cs:566-570 | no id has a description |
| ComServer.SerialPort.Open | SerialPort/SerialPort.cs:47-70 | closes an open transport, attaches three forwarders and opens; the device's refusal propagates unchanged |
| ComServer.SerialPort.Close | SerialPort/SerialPort.cs:76-80 | closes only an open transport, so a second `Close` changes nothing |
| ComServer.SerialPort.OnPlatformEvent | SerialPort/SerialPort.cs:52-66 | a platform event delivers what `Forwarded` says for the attached forwarders |
| ComServer.SerialPort.GetDeviceCount | SerialPort/SerialPort.cs:546-549 | replaces the snapshot, returns its length, and every name reads back |
| ComServer.SerialPort.GetDevice | SerialPort/SerialPort.cs:551-553 | before any snapshot it fails with a null reference; otherwise it succeeds iff the index lies inside the snapshot, with that name, and fails with an index exception outside |
| ComServer.SerialPort.DiscardInBuffer | SerialPort/SerialPort.cs:83-86 | always throws, after discarding on an open port |
| ComServer.SerialPort.DiscardOutBuffer | SerialPort/SerialPort.cs:89-92 | always throws, after discarding on an open port |
| ComServer.SerialPort.ReadByte | SerialPort/SerialPort.cs:111-114 | the platform's single-byte read |
| ComServer.SerialPort.ReadChar | SerialPort/SerialPort.cs:133-136 | the platform's single-char read |
| ComServer.SerialPort.ReadExisting | SerialPort/SerialPort.cs:140-143 | the platform's read of everything waiting |
| ComServer.SerialPort.ReadLine | SerialPort/SerialPort.cs:156-159 | the platform's line read |
| ComServer.SerialPort.ReadTo | SerialPort/SerialPort.cs:169-172 | ignores its argument and reads a line |
| ComServer.SerialPort.Write | SerialPort/SerialPort.cs:183-186 | the platform's checked byte write, with no throw afterwards |
| ComServer.SerialPort.WriteUnits | SerialPort/SerialPort.cs:197-200 | the platform's checked char write |
| ComServer.SerialPort.WriteText | SerialPort/SerialPort.cs:207-210 | the platform's string write |
| ComServer.SerialPort.WriteLine | SerialPort/SerialPort.cs:217-220 | the string followed by `NewLine` |
| ComServer.SerialPort.GetSetting | SerialPort/SerialPort.cs:235-540 | the transport is never null, so a getter fails only for `BreakState` on a closed port, with "The port is closed."; otherwise it gives the value last stored, or the default |
| ComServer.SerialPort.NewLine | SerialPort/SerialPort.cs:384-388 | the `NewLine` getter's text is the stored terminator, or a line feed by default |
| ComServer.SerialPort.Probe | SerialPort/SerialPort.cs:259-379 | `IsOpen` always answers with the transport's state; the other status getters fail with "The port is closed." exactly when the port is closed |
| ComServer.SerialPort.SetSetting | SerialPort/SerialPort.cs:235-540 | the transport's property write; the `DataBits` setter throws "No active port." after storing |
| ComServer.SerialPort.GetHandshake | SerialPort/SerialPort.cs:358-361 | the getter's name parses back, through the setter's parse, to the stored value |
| ComServer.SerialPort.GetParity | SerialPort/SerialPort.cs:404-407 | the same for `Parity` |
| ComServer.SerialPort.GetStopBits | SerialPort/SerialPort.cs:503-506 | the same for `StopBits` |
| ComServer.SerialPort.SetHandshake | SerialPort/SerialPort.cs:362-369 | stores the parsed name; the getter then gives the name back, or "None" for a name that is not a `Handshake` |
| ComServer.SerialPort.SetParity | SerialPort/SerialPort.cs:408-415 | stores the parsed name; the getter then gives the name back, or "None" for a name that is not a `Parity` |
| ComServer.SerialPort.SetStopBits | SerialPort/SerialPort.cs:507-513 | succeeds iff the name is a `StopBits` other than `None`, and the getter then gives it back |
| SandboxClient.FromRemote | SLSerialPort/SerialPort.cs:241-245 | "No active port." becomes `InteropException`; every other exception passes unchanged |
| SandboxClient.FromRemoteLine | SLSerialPort/SerialPort.cs:379-383 | in `ReadLine` and `ReadTo`, every `InvalidOperationException` becomes `InteropException` |
| SandboxClient.ClosedPortReportedDifferently | SLSerialPort/SerialPort.cs:316-384 | on a closed port, `ReadByte` reports "The port is closed." while `ReadLine` reports `InteropException` |
| SandboxClient.Routed | SLSerialPort/SerialPort.cs:714-730 | `WriteBufferSize` and `WriteTimeout` reach the server's `ReadBufferSize`; the other properties reach themselves |
| SandboxClient.Detached | SLSerialPort/SerialPort.cs:485-730 | with no COM object, `BaudRate` and `ParityReplace` throw `InteropException`; strings are null, flags false, numbers 0 |
| SandboxClient.DetachedProbe | SLSerialPort/SerialPort.cs:508-614 | with no COM object, status getters answer false or 0, `IsOpen` false |
| SandboxClient.Fill | SLSerialPort/SerialPort.cs:222-248 | the client's slice read, after the corrected check: it succeeds iff `count` items can be read one by one; it returns `count`, stores a prefix of the waiting items in the slice, and on failure reports the failing read's fault through the catch block |
| SandboxClient.FillComplete | SLSerialPort/SerialPort.cs:237-240 | when every read succeeds, the first `count` waiting items fill the slice |
| SandboxClient.FillStopped | SLSerialPort/SerialPort.cs:237-245 | when read k fails, the first k items stay stored and the fault propagates |
| SandboxClient.FillAgreesWithPlatform | SLSerialPort/SerialPort.cs:222-248 | with enough items waiting, the client's read equals the platform's slice read; with fewer, the platform returns them while the client stores them and fails |
| SandboxClient.Outgoing | SLSerialPort/SerialPort.cs:429-454 | after the corrected check, `Write(char[])` sends exactly `buffer[offset..offset+count)` as bytes; its checks come before the COM-object check; a char above 255 sends nothing |
| SandboxClient.WrittenTextReadsBack | SLSerialPort/SerialPort.cs:461-464 | `Write(string)` sends the string itself, one byte per char |
| SandboxClient.SerialPort.constructor | SLSerialPort/SerialPort.cs:16-18 | the COM object obtained, no relays attached, no subscribers |
| SandboxClient.SerialPort.Open | SLSerialPort/SerialPort.cs:166-177 | `InteropException` without a COM object; otherwise attaches the relays and opens the server, whose exception propagates; the server's registry, snapshot, `Device` and delivered events stay as they were |
| SandboxClient.SerialPort.Close | SLSerialPort/SerialPort.cs:182-192 | acts only when `IsOpen`: detaches the relays and closes; detaching relays that were never attached throws a null reference; the paths that do not detach leave the server's listeners as they were, and no path touches its registry, snapshot, `Device` or delivered events |
| SandboxClient.SerialPort.DiscardInBuffer | SLSerialPort/SerialPort.cs:195-197 | a no-op without a COM object; otherwise the server's discard-then-throw reaches the caller |
| SandboxClient.SerialPort.DiscardOutBuffer | SLSerialPort/SerialPort.cs:200-202 | the same for the transmit buffer |
| SandboxClient.SerialPort.Read | SLSerialPort/SerialPort.cs:222-248 | the loop fills the caller's array as `Fill` says and takes exactly the items it stored |
| SandboxClient.SerialPort.ReadUnits | SLSerialPort/SerialPort.cs:268-297 | as `Read`, and a lone surrogate read with `count == 1` is refused after it is stored |
| SandboxClient.SerialPort.ReadByte | SLSerialPort/SerialPort.cs:316-325 | the server's read, with "No active port." mapped to `InteropException` |
| SandboxClient.SerialPort.ReadChar | SLSerialPort/SerialPort.cs:344-353 | the same for a char |
| SandboxClient.SerialPort.ReadExisting | SLSerialPort/SerialPort.cs:358-361 | the server's read, with no mapping |
| SandboxClient.SerialPort.ReadLine | SLSerialPort/SerialPort.cs:374-384 | the server's line read, with every `InvalidOperationException` mapped to `InteropException` |
| SandboxClient.SerialPort.ReadTo | SLSerialPort/SerialPort.cs:394-404 | the server's `ReadTo`, which is a line read, mapped the same way |
| SandboxClient.SerialPort.Write | SLSerialPort/SerialPort.cs:415-418 | forwards the byte write, or `InteropException` |
| SandboxClient.SerialPort.WriteUnits | SLSerialPort/SerialPort.cs:429-454 | the loop sends exactly what `Outgoing` says, in one byte-array write, or throws its fault and writes nothing |
| SandboxClient.SerialPort.WriteText | SLSerialPort/SerialPort.cs:461-464 | writes all of `value` through `Write(char[], 0, value.Length)` |
| SandboxClient.SerialPort.WriteLine | SLSerialPort/SerialPort.cs:471-473 | writes `value + NewLine`, with the server's `NewLine`; with no COM object the binder fails |
| SandboxClient.SerialPort.GetSetting | SLSerialPort/SerialPort.cs:485-730 | `Detached` without a COM object; otherwise the server's value of the `Routed` property |
| SandboxClient.SerialPort.SetSetting | SLSerialPort/SerialPort.cs:485-730 | without a COM object only `BaudRate` throws; otherwise the server's write of the `Routed` property, so `WriteTimeout` and `WriteBufferSize` writes fail while the port is open, as `ReadBufferSize` writes do |
| SandboxClient.SerialPort.Probe | SLSerialPort/SerialPort.cs:508-614 | `DetachedProbe` without a COM object, else the server's status |
| SandboxClient.SerialPort.GetHandshake | SLSerialPort/SerialPort.cs:596-600 | parsing the server's name without regard to case always recovers the transport's value |
| SandboxClient.SerialPort.SetHandshake | SLSerialPort/SerialPort.cs:601-604 | sends the value's name, which stores exactly that value |
| SandboxClient.SerialPort.GetParity | SLSerialPort/SerialPort.cs:629-633 | recovers the transport's `Parity` |
| SandboxClient.SerialPort.SetParity | SLSerialPort/SerialPort.cs:634-637 | stores exactly the value sent |
| SandboxClient.SerialPort.GetStopBits | SLSerialPort/SerialPort.cs:702-706 | recovers the transport's `StopBits` |
| SandboxClient.SerialPort.SetStopBits | SLSerialPort/SerialPort.cs:707-710 | stores the value, except `StopBits.None`, which the transport refuses |
| SandboxClient.SerialPort.OnSerialDataReceived | SLSerialPort/SerialPort.cs:110-115 | raises `DataReceived` with the client as sender, only if subscribed |
| SandboxClient.SerialPort.OnSerialErrorReceived | SLSerialPort/SerialPort.cs:120-125 | raises `ErrorReceived` with the server's sender, only if subscribed |
| SandboxClient.SerialPort.OnSerialPinChanged | SLSerialPort/SerialPort.cs:130-135 | raises `PinChanged` with the server's sender, only if subscribed |
| SandboxClient.SerialPort.Subscribe | SLSerialPort/SerialPort.cs:88-94 | `DataReceived += handler` (or `ErrorReceived`, `PinChanged`) gives the event a subscriber |
| SandboxClient.SubscribedDataIsRelayed | SLSerialPort/SerialPort.cs:110-115 | once `DataReceived` has a handler, the next relayed data event reaches it, with the client as sender |
| SandboxClient.OpenKeepsServerRegistry | SLSerialPort/SerialPort.cs:166-177 | opening through the client leaves the server's `LastError` at -1 |
| SandboxClient.WriteSettingsAliasReadBufferSize | SLSerialPort/SerialPort.cs:714-730 | `WriteBufferSize` and `WriteTimeout` read the value of `ReadBufferSize` |

`Transport.Port` is the platform object itself, not part of the repository.
Its methods apply the step functions above in place, and the bridges'
forwarders are proved against those steps.

## Left out

- COM and automation plumbing is not modelled: `RegisterCom`, `AutomationFactory`, the `dynamic` dispatch and COM registration attributes. The client's COM object is a constructor argument that may be null.
- The `BackgroundWorker` behind `ComPort.Open` is not modelled. The worker runs as one sequential step, and cross-thread event delivery is not modelled either.
- `Sleep` (a timed wait) and `GetPortNames` are not modelled, including the client's `GetPortNames` with no COM object. The port enumeration is an input to `GetDeviceCount`.
- `Encoding`, `BaseStream` and the encoding linking bytes, chars and lines are not modelled. The transport keeps three independent receive queues (lines, bytes, chars).
- `dynamic` int-to-byte and int-to-char conversions are not modelled. Reads deliver values already in range.
- Null string arguments (`Write(null)`, `WriteLine(null)`, `ReadTo(null)`) are not modelled. Strings are sequences.
- `ComPortBridge.ComPort.GetSetting`: the platform's range checks on numeric properties (such as `BaudRate <= 0`) are not modelled, because the platform is not part of the repository. The same holds for `SetSetting` in all three variants.
- `Transport.PortNameFault`: platform messages are approximate. The bridges never match on them.
- `ErrorRegistry`: the `errors` dictionary is `static` in the source. Each constructor resets it for every instance, but the model keeps one registry per object.
- `ComServer.SerialPort.Open`: a repeated client `Open` also re-attaches the client's relays to the same automation events. The model keeps one flag for the client's relays.
- The sandbox client's convenience constructors (`SerialPort(portName, …)`) are not modelled. They are sequences of the modelled setters.
- `Transport.WriteStep`: a zero-length write is logged as an empty chunk.
- `ComPortBridge.Drained`, `Transport.ReadLineStep`, `Transport.ReadByteStep` and `Transport.ReadCharStep` never block. A read with nothing waiting returns the port's `dry` fault, which stands for the timeout of a finite `ReadTimeout`. Under the default `ReadTimeout` of -1 the platform waits for data instead: the drain's loop at ComPort/ComPort.cs:611-616 then never reaches `DiscardInBuffer`, and the client's `Read` loop waits for its remaining items. Neither wait is modelled.
- `SandboxClient.Fill`, `SandboxClient.Outgoing`, `SandboxClient.SerialPort.Read`, `SandboxClient.SerialPort.ReadUnits`, `SandboxClient.SerialPort.WriteUnits` and `SandboxClient.SerialPort.WriteText` use the corrected check `SliceArgs.ClientCheck` from the Findings row. The source's behaviour on a wrapped `count + offset` is not modelled: `Read` stores into the buffer until an uncaught index exception, and `Write(char[])` allocates `count` bytes.
- `SandboxClient.SerialPort.Subscribe`: an event is modelled as having a subscriber or not. Removing a handler with `-=` and the number of handlers attached are not modelled.
- `ComPortBridge.Drained`: the drain's catch blocks around `DiscardInBuffer` are not modelled. After a timeout the port is open, so that call cannot fail.
- `ComPortBridge.ComPort.GetErrorDescription`, `ComPortBridge.ComPort.LastError` and `ComPortBridge.ComPort.GetDevice` have no contracts of their own. They are the functions `Describe`, `LastError` and `Indexed` on the bridge's fields, and the lemmas about those functions carry their properties.
- `PortEnums.ParseHandshake`, `PortEnums.ParseParity` and `PortEnums.ParseStopBits` parse names only. .NET also accepts numeric, blank-padded and comma-joined forms.
- `SandboxClient.SerialPort.GetHandshake`, `GetParity` and `GetStopBits` are not modelled for a server name that `Enum.Parse` rejects. The server only ever returns enumeration names, so that case cannot arise.

## Findings

| source | as written | input that shows it | evidently intended | confidence | as-written member | corrected member |
|---|---|---|---|---|---|---|
| SLSerialPort/SerialPort.cs:227 | `count + offset > buffer.Length` (also at lines 273 and 432) is computed in unchecked 32-bit arithmetic, so a sum past `int.MaxValue` wraps negative and passes | buffer of length 5, `offset = 1`, `count = int.MaxValue` passes all three checks | reject every slice that does not fit: `offset + count <= buffer.Length` without overflow | not executed | SliceArgs.AsWrittenAdmitsWrappedSlice | SliceArgs.ClientCheck |
