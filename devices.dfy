/** The device-name snapshot both bridges keep: `GetDeviceCount` replaces it
    with the current enumeration, `GetDevice(n)` indexes it
    (ComPort/ComPort.cs, SerialPort/SerialPort.cs). */
module DeviceList {
  import opened Common

  /** What `portNames[n]` does on a missing snapshot. */
  const NoSnapshot := Fault(NullReference, "Object reference not set to an instance of an object.")

  /** What `portNames[n]` does outside the array. */
  const OutsideSnapshot := Fault(IndexOutOfRange, "Index was outside the bounds of the array.")

  /** `portNames[n]`, where `None` is a snapshot never taken. */
  function Indexed(names: Option<seq<string>>, n: int): (r: Result<string>)
    ensures names.None? ==> r == Err(NoSnapshot)
    ensures names.Some? ==> (r.Ok? <==> 0 <= n < |names.value|)
    ensures r.Ok? ==> r.value == names.value[n]
    ensures names.Some? && r.Err? ==> r == Err(OutsideSnapshot)
  {
    match names
    case None => Err(NoSnapshot)
    case Some(a) => if 0 <= n < |a| then Ok(a[n]) else Err(OutsideSnapshot)
  }

  /** After a snapshot of `enumeration` is taken, the names it reports, read
      back one index at a time below its count, are the enumeration itself. */
  lemma SnapshotReadsBack(enumeration: seq<string>)
    ensures forall n :: 0 <= n < |enumeration| ==> Indexed(Some(enumeration), n) == Ok(enumeration[n])
    ensures Indexed(Some(enumeration), |enumeration|).Err? && Indexed(Some(enumeration), -1).Err?
  {
  }
}
