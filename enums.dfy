/** The three configuration enumerations that the bridges expose as strings,
    their names (`ToString()`), the exact-match parse the bridges' setters run
    (`Enum.TryParse`) and the case-insensitive parse the sandbox client's getters
    run (`Enum.Parse(type, s, true)`).

    Only names are parsed: the numeric, signed, blank-padded and comma-joined
    forms that .NET's parsers also accept are not modelled. */
module PortEnums {
  import opened Common

  datatype Handshake = NoHandshake | XOnXOff | RequestToSend | RequestToSendXOnXOff
  datatype Parity = NoParity | Odd | Even | Mark | Space
  datatype StopBits = NoStopBits | One | Two | OnePointFive

  function HandshakeName(h: Handshake): string {
    match h
    case NoHandshake => "None"
    case XOnXOff => "XOnXOff"
    case RequestToSend => "RequestToSend"
    case RequestToSendXOnXOff => "RequestToSendXOnXOff"
  }

  function ParityName(p: Parity): string {
    match p
    case NoParity => "None"
    case Odd => "Odd"
    case Even => "Even"
    case Mark => "Mark"
    case Space => "Space"
  }

  function StopBitsName(b: StopBits): string {
    match b
    case NoStopBits => "None"
    case One => "One"
    case Two => "Two"
    case OnePointFive => "OnePointFive"
  }

  /** `Enum.TryParse<Handshake>(s, out result)` with its return value ignored:
      a name matched exactly gives its value, anything else leaves `result` at
      the enumeration's zero value. */
  function ParseHandshake(s: string): (h: Handshake)
    ensures forall g :: HandshakeName(g) == s ==> h == g
    ensures HandshakeName(h) == s || (h == NoHandshake && forall g :: HandshakeName(g) != s)
  {
    if s == "XOnXOff" then XOnXOff
    else if s == "RequestToSend" then RequestToSend
    else if s == "RequestToSendXOnXOff" then RequestToSendXOnXOff
    else NoHandshake
  }

  function ParseParity(s: string): (p: Parity)
    ensures forall q :: ParityName(q) == s ==> p == q
    ensures ParityName(p) == s || (p == NoParity && forall q :: ParityName(q) != s)
  {
    if s == "Odd" then Odd
    else if s == "Even" then Even
    else if s == "Mark" then Mark
    else if s == "Space" then Space
    else NoParity
  }

  function ParseStopBits(s: string): (b: StopBits)
    ensures forall c :: StopBitsName(c) == s ==> b == c
    ensures StopBitsName(b) == s || (b == NoStopBits && forall c :: StopBitsName(c) != s)
  {
    if s == "One" then One
    else if s == "Two" then Two
    else if s == "OnePointFive" then OnePointFive
    else NoStopBits
  }

  /** ASCII lower-casing: every enumeration name is ASCII. */
  function Lower(s: string): (r: string)
    ensures |r| == |s|
    ensures forall i :: 0 <= i < |s| ==> r[i] == (if 'A' <= s[i] <= 'Z' then (s[i] as int + 32) as char else s[i])
  {
    seq(|s|, i requires 0 <= i < |s| => if 'A' <= s[i] <= 'Z' then (s[i] as int + 32) as char else s[i])
  }

  /** `Enum.Parse(typeof(Handshake), s, true)`: a name matched without regard to
      case, or `None` where .NET throws `ArgumentException`. */
  function ParseHandshakeIgnoringCase(s: string): Option<Handshake> {
    var k := Lower(s);
    if k == "none" then Some(NoHandshake)
    else if k == "xonxoff" then Some(XOnXOff)
    else if k == "requesttosend" then Some(RequestToSend)
    else if k == "requesttosendxonxoff" then Some(RequestToSendXOnXOff)
    else None
  }

  function ParseParityIgnoringCase(s: string): Option<Parity> {
    var k := Lower(s);
    if k == "none" then Some(NoParity)
    else if k == "odd" then Some(Odd)
    else if k == "even" then Some(Even)
    else if k == "mark" then Some(Mark)
    else if k == "space" then Some(Space)
    else None
  }

  function ParseStopBitsIgnoringCase(s: string): Option<StopBits> {
    var k := Lower(s);
    if k == "none" then Some(NoStopBits)
    else if k == "one" then Some(One)
    else if k == "two" then Some(Two)
    else if k == "onepointfive" then Some(OnePointFive)
    else None
  }

  /** The names are pairwise distinct, so a getter's string identifies the value. */
  lemma HandshakeNamesDistinct(g: Handshake, h: Handshake)
    ensures HandshakeName(g) == HandshakeName(h) ==> g == h
  {
  }

  /** Setting a name through a bridge and reading the name back gives it again;
      and the sandbox client's case-insensitive parse recovers the value from the
      name, whatever the case it arrives in. */
  lemma HandshakeRoundTrip(h: Handshake)
    ensures ParseHandshake(HandshakeName(h)) == h
    ensures ParseHandshakeIgnoringCase(HandshakeName(h)) == Some(h)
    ensures ParseHandshakeIgnoringCase(Lower(HandshakeName(h))) == Some(h)
  {
  }

  lemma ParityRoundTrip(p: Parity)
    ensures ParseParity(ParityName(p)) == p
    ensures ParseParityIgnoringCase(ParityName(p)) == Some(p)
    ensures ParseParityIgnoringCase(Lower(ParityName(p))) == Some(p)
  {
    match p
    case NoParity => assert Lower("None") == "none";
    case Odd => assert Lower("Odd") == "odd";
    case Even => assert Lower("Even") == "even";
    case Mark => assert Lower("Mark") == "mark";
    case Space => assert Lower("Space") == "space";
  }

  lemma StopBitsRoundTrip(b: StopBits)
    ensures ParseStopBits(StopBitsName(b)) == b
    ensures ParseStopBitsIgnoringCase(StopBitsName(b)) == Some(b)
    ensures ParseStopBitsIgnoringCase(Lower(StopBitsName(b))) == Some(b)
  {
  }

  /** `Enum.TryParse` is case-sensitive: a lower-cased name that differs from
      the name is not recognised and falls back to the zero value, while the
      client's `Enum.Parse(…, true)` still accepts it. */
  lemma ParseIsCaseSensitive()
    ensures ParseHandshake("xonxoff") == NoHandshake
    ensures ParseHandshakeIgnoringCase("xonxoff") == Some(XOnXOff)
    ensures ParseParity("odd") == NoParity
    ensures ParseStopBits("two") == NoStopBits
  {
  }
}
