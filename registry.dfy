/** The error registry of the bridges: the `Dictionary<int, string> errors`
    that the open path appends to, read through `LastError` and
    `GetErrorDescription` (ComPort/ComPort.cs, SerialPort/SerialPort.cs). */
module ErrorRegistry {
  import opened Common

  type Registry = map<int, string>

  /** The registry's invariant: its ids are exactly 0 .. count - 1. */
  ghost predicate Dense(m: Registry) {
    forall k :: k in m <==> 0 <= k < |m|
  }

  /** `errors.Count - 1`: the id of the most recent entry, -1 when empty. */
  function LastError(m: Registry): int {
    |m| - 1
  }

  /** `Dictionary.Add(key, message)`: fails on a key already present. */
  function Add(m: Registry, key: int, message: string): Result<Registry> {
    if key in m then Err(Fault(Argument, "An item with the same key has already been added."))
    else Ok(m[key := message])
  }

  /** `errors.TryGetValue(id, out result); return result;`: the message, or
      null (`None`) for an unknown id, since `TryGetValue` overwrites the
      `string.Empty` the caller initialised `result` with. */
  function Describe(m: Registry, id: int): Option<string> {
    if id in m then Some(m[id]) else None
  }

  /** A fresh registry is dense and reports -1. */
  lemma EmptyRegistry()
    ensures Dense(map[]) && LastError(map[]) == -1
    ensures forall id :: Describe(map[], id) == None
  {
  }

  /** Adding at `LastError + 1` never collides on a dense registry, keeps it
      dense, raises `LastError` by exactly one, leaves every earlier entry
      alone, and makes the new message the description of the new `LastError`. */
  lemma AddNextKeepsDense(m: Registry, message: string)
    requires Dense(m)
    ensures Add(m, LastError(m) + 1, message).Ok?
    ensures var m' := Add(m, LastError(m) + 1, message).value;
      Dense(m') && LastError(m') == LastError(m) + 1 &&
      Describe(m', LastError(m')) == Some(message) &&
      forall k :: k in m ==> k in m' && m'[k] == m[k]
  {
    assert |m| !in m;
    assert m[|m| := message].Keys == m.Keys + {|m|};
  }

  /** On a dense registry an id has a description exactly when it lies in
      0 .. LastError. */
  lemma DescribedIds(m: Registry, id: int)
    requires Dense(m)
    ensures Describe(m, id).Some? <==> 0 <= id <= LastError(m)
  {
  }

  /** The registry after recording `messages` one failed open at a time,
      starting from the empty registry the constructor makes. */
  function Recorded(messages: seq<string>): Registry
    decreases |messages|
  {
    if messages == [] then map[]
    else
      var m := Recorded(messages[..|messages| - 1]);
      match Add(m, LastError(m) + 1, messages[|messages| - 1])
      case Ok(m') => m'
      case Err(_) => m
  }

  /** Recording n messages yields ids 0 .. n-1 holding the messages in the
      order they were recorded: entry i describes the i-th failure. */
  lemma {:induction false} RecordedInOrder(messages: seq<string>)
    ensures Dense(Recorded(messages))
    ensures LastError(Recorded(messages)) == |messages| - 1
    ensures forall i :: 0 <= i < |messages| ==> Describe(Recorded(messages), i) == Some(messages[i])
    decreases |messages|
  {
    if messages != [] {
      var front := messages[..|messages| - 1];
      RecordedInOrder(front);
      AddNextKeepsDense(Recorded(front), messages[|messages| - 1]);
      forall i | 0 <= i < |messages|
        ensures Describe(Recorded(messages), i) == Some(messages[i])
      {
        if i < |messages| - 1 {
          assert Describe(Recorded(front), i) == Some(front[i]);
        }
      }
    }
  }
}
