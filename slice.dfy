/** The `(buffer, offset, count)` argument checks and the char-to-byte
    conversion of the sandbox client (SLSerialPort/SerialPort.cs), together with
    the platform's own checks that the bridges' forwarded `Read`/`Write`
    calls run. */
module SliceArgs {
  import opened Common

  /** `new ArgumentNullException("buffer", …)`. */
  const BufferNull := Fault(ArgumentNull("buffer"), "The buffer passed is null.")

  /** `new ArgumentException(…)` for a slice that runs past the buffer. */
  const SumTooLarge := Fault(Argument, "Offset plus count is greater than the length of the buffer.")

  /** `new ArgumentException(…)` that `Read(char[], …)` throws after a lone surrogate. */
  const LoneSurrogate := Fault(Argument, "Count is 1 and there is a surrogate character in the buffer.")

  /** `Convert.ToByte(char)` on a char above 255. */
  const ByteOverflow := Fault(Overflow, "Value was either too large or too small for an unsigned byte.")

  function Capitalized(name: string): string
    requires |name| > 0
  {
    [if 'a' <= name[0] <= 'z' then (name[0] as int - 32) as char else name[0]] + name[1..]
  }

  /** `new ArgumentOutOfRangeException(pname, Capitalized(pname) + " is less than zero.")`. */
  function BelowZero(pname: string): Fault
    requires |pname| > 0
  {
    Fault(ArgumentOutOfRange(pname), Capitalized(pname) + " is less than zero.")
  }

  /** Two's-complement wrap-around of a mathematical integer into a .NET `int`. */
  function Wrap32(x: int): int32 {
    var m := x % 0x1_0000_0000;
    if m < 0x8000_0000 then m else m - 0x1_0000_0000
  }

  /** The client's three checks in their fixed order, AS WRITTEN: `count + offset`
      is evaluated in unchecked 32-bit arithmetic. */
  function ClientCheckAsWritten(isNull: bool, length: nat, offset: int32, count: int32): Option<Fault> {
    if isNull then Some(BufferNull)
    else if Wrap32(count + offset) > length then Some(SumTooLarge)
    else if count < 0 || offset < 0 then Some(BelowZero(if count < 0 then "count" else "offset"))
    else None
  }

  /** The client's three checks in their fixed order, with the sum compared
      without wrap-around, as the checks evidently intend. The model of the
      client's `Read` and `Write` overloads uses this one. */
  function ClientCheck(isNull: bool, length: nat, offset: int, count: int): (r: Option<Fault>)
    ensures r == None <==> !isNull && 0 <= offset && 0 <= count && offset + count <= length
  {
    if isNull then Some(BufferNull)
    else if count + offset > length then Some(SumTooLarge)
    else if count < 0 || offset < 0 then Some(BelowZero(if count < 0 then "count" else "offset"))
    else None
  }

  /** Which fault the client reports when several checks fail at once: a null
      buffer first, then an over-long slice, then a negative count, and only
      then a negative offset. */
  lemma ClientCheckOrder(isNull: bool, length: nat, offset: int, count: int)
    ensures isNull ==> ClientCheck(isNull, length, offset, count) == Some(BufferNull)
    ensures !isNull && offset + count > length ==> ClientCheck(isNull, length, offset, count) == Some(SumTooLarge)
    ensures !isNull && offset + count <= length && count < 0 ==>
              ClientCheck(isNull, length, offset, count) == Some(Fault(ArgumentOutOfRange("count"), "Count is less than zero."))
    ensures !isNull && offset + count <= length && 0 <= count && offset < 0 ==>
              ClientCheck(isNull, length, offset, count) == Some(Fault(ArgumentOutOfRange("offset"), "Offset is less than zero."))
  {
    assert Capitalized("count") + " is less than zero." == "Count is less than zero.";
    assert Capitalized("offset") + " is less than zero." == "Offset is less than zero.";
  }

  /** Where the sum fits in 32 bits the checks as written and as intended agree. */
  lemma AsWrittenAgreesWithoutOverflow(isNull: bool, length: nat, offset: int32, count: int32)
    requires -0x8000_0000 <= count + offset <= Int32Max
    ensures ClientCheckAsWritten(isNull, length, offset, count) == ClientCheck(isNull, length, offset, count)
  {
    if count + offset < 0 {
      assert (count + offset) % 0x1_0000_0000 == count + offset + 0x1_0000_0000;
    }
    assert Wrap32(count + offset) == count + offset;
  }

  /** The two disagree only where the sum overflows. Past `int.MaxValue` the
      check as written lets through a slice that runs past the buffer; below
      `int.MinValue` both reject, naming different faults. */
  lemma AsWrittenDiffersOnlyOnOverflow(isNull: bool, length: nat, offset: int32, count: int32)
    requires length <= Int32Max
    requires ClientCheckAsWritten(isNull, length, offset, count) != ClientCheck(isNull, length, offset, count)
    ensures count + offset > Int32Max ==>
              ClientCheckAsWritten(isNull, length, offset, count) == None &&
              ClientCheck(isNull, length, offset, count) == Some(SumTooLarge)
    ensures count + offset < -0x8000_0000 ==>
              ClientCheckAsWritten(isNull, length, offset, count).Some? &&
              ClientCheck(isNull, length, offset, count).Some?
    ensures count + offset > Int32Max || count + offset < -0x8000_0000
  {
    if -0x8000_0000 <= count + offset <= Int32Max {
      AsWrittenAgreesWithoutOverflow(isNull, length, offset, count);
    } else if count + offset > Int32Max {
      assert (count + offset) % 0x1_0000_0000 == count + offset;
      assert Wrap32(count + offset) == count + offset - 0x1_0000_0000;
    }
  }

  /** The counterexample: a five-element buffer, offset 1 and count `int.MaxValue`
      pass every check as written, because `1 + int.MaxValue` wraps to
      `int.MinValue`. */
  lemma AsWrittenAdmitsWrappedSlice()
    ensures ClientCheckAsWritten(false, 5, 1, Int32Max) == None
    ensures ClientCheck(false, 5, 1, Int32Max) == Some(SumTooLarge)
  {
    assert Wrap32(Int32Max + 1) == -0x8000_0000;
  }

  /** The platform primitive's own checks, which the bridges' forwarded
      `Read`/`Write` overloads reach: null, then negative offset, then negative
      count, then a slice past the end. The messages are the platform's and are
      not matched anywhere. */
  function PlatformCheck(isNull: bool, length: nat, offset: int, count: int): Option<Fault> {
    if isNull then Some(Fault(ArgumentNull("buffer"), "Buffer cannot be null."))
    else if offset < 0 then Some(Fault(ArgumentOutOfRange("offset"), "Non-negative number required."))
    else if count < 0 then Some(Fault(ArgumentOutOfRange("count"), "Non-negative number required."))
    else if length - offset < count then Some(Fault(Argument, "Offset and length were out of bounds for the array."))
    else None
  }

  /** Client and platform accept exactly the same slices … */
  lemma ChecksAcceptAlike(isNull: bool, length: nat, offset: int, count: int)
    ensures ClientCheck(isNull, length, offset, count) == None <==> PlatformCheck(isNull, length, offset, count) == None
  {
  }

  /** … but, checking in another order, may name another fault for the same call. */
  lemma ChecksMayBlameDifferently()
    ensures ClientCheck(false, 3, -1, 5) == Some(SumTooLarge)
    ensures PlatformCheck(false, 3, -1, 5).Some? && PlatformCheck(false, 3, -1, 5).value.kind == ArgumentOutOfRange("offset")
  {
  }

  /** `s` with `data` written over it from index `at` on: the effect of filling a
      slice of a buffer in place. */
  function Spliced<T>(s: seq<T>, at: nat, data: seq<T>): (r: seq<T>)
    requires at + |data| <= |s|
  {
    s[..at] + data + s[at + |data|..]
  }

  lemma SplicedAt<T>(s: seq<T>, at: nat, data: seq<T>, k: int)
    requires at + |data| <= |s| && 0 <= k < |s|
    ensures |Spliced(s, at, data)| == |s|
    ensures Spliced(s, at, data)[k] == if at <= k < at + |data| then data[k - at] else s[k]
  {
  }

  /** Storing the next item just past a filled slice extends the slice. */
  lemma SplicedGrow<T>(s: seq<T>, at: nat, data: seq<T>, x: T)
    requires at + |data| < |s|
    ensures Spliced(s, at, data)[at + |data| := x] == Spliced(s, at, data + [x])
  {
    var lhs := Spliced(s, at, data)[at + |data| := x];
    var rhs := Spliced(s, at, data + [x]);
    forall k | 0 <= k < |s|
      ensures lhs[k] == rhs[k]
    {
      SplicedAt(s, at, data, k);
      SplicedAt(s, at, data + [x], k);
    }
  }

  /** `Convert.ToByte` applied char by char: defined exactly when every char is
      at most 255, and then the bytes have the chars' values. */
  function Narrowed(units: Text): (r: Result<seq<byte>>)
    ensures r.Ok? <==> forall i :: 0 <= i < |units| ==> units[i] < 0x100
    ensures r.Ok? ==> |r.value| == |units| && forall i :: 0 <= i < |units| ==> r.value[i] == units[i]
    ensures r.Err? ==> r.fault == ByteOverflow
  {
    if units == [] then Ok([])
    else if units[0] >= 0x100 then Err(ByteOverflow)
    else match Narrowed(units[1..])
      case Ok(rest) => Ok([units[0] as byte] + rest)
      case Err(f) => Err(f)
  }

  /** Bytes read back as chars, one char per byte. */
  function Widened(bytes: seq<byte>): Text {
    seq(|bytes|, i requires 0 <= i < |bytes| => bytes[i] as CodeUnit)
  }

  /** Narrowing and widening are inverse on the chars that fit in a byte. */
  lemma NarrowWidenRoundTrip(bytes: seq<byte>, units: Text)
    ensures Narrowed(Widened(bytes)) == Ok(bytes)
    ensures Narrowed(units).Ok? ==> Widened(Narrowed(units).value) == units
  {
    var r := Narrowed(Widened(bytes));
    assert r.Ok?;
    assert r.value == bytes;
  }

  /** A single UTF-16 code unit that is half of a surrogate pair (`Char.IsSurrogate`). */
  predicate IsSurrogate(c: CodeUnit) {
    0xD800 <= c <= 0xDFFF
  }
}
