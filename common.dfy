/** Value types shared by the three bridge variants: the widths of the .NET
    primitives they pass around, the exceptions they raise or catch, and the
    fixed messages the source matches on. */
module Common {

  /** A .NET `byte`. */
  type byte = x: int | 0 <= x < 0x100

  /** A .NET `char`: one UTF-16 code unit, so surrogate halves are representable
      (a Dafny `char` cannot hold them). */
  type CodeUnit = x: int | 0 <= x < 0x1_0000

  /** The payload strings that travel over the wire (lines, `NewLine`, written text). */
  type Text = seq<CodeUnit>

  /** A .NET `int`. */
  type int32 = x: int | -0x8000_0000 <= x < 0x8000_0000

  const Int32Max: int32 := 0x7FFF_FFFF

  datatype Option<T> = None | Some(value: T)

  /** The exception types that occur in the source; `param` is the parameter
      name an argument exception carries. */
  datatype FaultKind =
    | InvalidOperation
    | Timeout
    | IO
    | UnauthorizedAccess
    | Argument
    | ArgumentNull(param: string)
    | ArgumentOutOfRange(param: string)
    | IndexOutOfRange
    | NullReference
    | Overflow
    | Interop
    | RuntimeBinder

  datatype Fault = Fault(kind: FaultKind, message: string)

  /** A member that returns a value or throws. */
  datatype Result<T> = Ok(value: T) | Err(fault: Fault)

  /** A `void` member: it returns normally or throws. */
  datatype Outcome = Done | Thrown(fault: Fault)

  /** `catch (ArgumentException)` also catches its two subclasses. */
  predicate IsArgumentFault(k: FaultKind) {
    k.Argument? || k.ArgumentNull? || k.ArgumentOutOfRange?
  }

  /** The bridges' guard message, which the sandbox client matches on. */
  const NoActivePortMessage := "No active port."

  const NoActivePort := Fault(InvalidOperation, NoActivePortMessage)

  /** `new InteropException()`: the sandbox client's "COM object unavailable" error. */
  const InteropFailure := Fault(Interop, "")
}
