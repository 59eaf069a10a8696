/** The bounded recursive-descent reader as functions from the text ahead to the text left over. */
module JsonParser {
  import opened Bytes
  import opened JsonGrammar
  import opened Options

  const MAX_DEPTH: nat := 8
  const KEY_CAPACITY: nat := 64
  const MAX_TEXT: nat := 1024
  const READY: seq<byte> := [97, 117, 100, 105, 111, 95, 115, 116, 114, 101, 97, 109, 95, 114, 101, 97, 100, 121]
  const CONSUMED: seq<byte> := [97, 117, 100, 105, 111, 95, 115, 116, 114, 101, 97, 109, 95,
                                99, 111, 110, 115, 117, 109, 101, 100]

  predicate Next(s: seq<byte>, b: byte) {
    s != [] && s[0] == b
  }

  function SkipWs(s: seq<byte>): (r: seq<byte>)
    ensures |r| <= |s|
  {
    if s != [] && IsWs(s[0]) then SkipWs(s[1..]) else s
  }

  function SkipDigits(s: seq<byte>): (r: seq<byte>)
    ensures |r| <= |s|
  {
    if s != [] && IsDigit(s[0]) then SkipDigits(s[1..]) else s
  }

  /** One character of a string: what is kept of it and the text left over. */
  function ParseChar(s: seq<byte>): (r: Option<(byte, seq<byte>)>)
    requires s != []
    ensures r.Some? ==> |r.value.1| < |s|
  {
    if s[0] < 32 then None
    else if s[0] != BACKSLASH then Some((s[0], s[1..]))
    else if |s| < 2 then None
    else if s[1] == 117 then
      if |s| >= 6 && IsHex(s[2]) && IsHex(s[3]) && IsHex(s[4]) && IsHex(s[5]) then Some((63, s[6..])) else None
    else if IsEscape(s[1]) then Some((63, s[2..]))
    else None
  }

  /** A string after its opening quote. */
  function ParseChars(s: seq<byte>): (r: Option<(seq<byte>, seq<byte>)>)
    ensures r.Some? ==> |r.value.1| < |s|
  {
    if s == [] then None
    else if s[0] == QUOTE then Some(([], s[1..]))
    else
      match ParseChar(s)
      case None => None
      case Some((c, rest)) =>
        match ParseChars(rest)
        case None => None
        case Some((more, left)) => Some(([c] + more, left))
  }

  function ParseDigits(s: seq<byte>): (r: Option<seq<byte>>)
    ensures r.Some? ==> |r.value| < |s|
  {
    if s != [] && IsDigit(s[0]) then Some(SkipDigits(s[1..])) else None
  }

  function ParseWhole(s: seq<byte>): (r: Option<seq<byte>>)
    ensures r.Some? ==> |r.value| < |s|
  {
    if Next(s, 48) then Some(s[1..]) else ParseDigits(s)
  }

  function ParseFraction(s: seq<byte>): (r: Option<seq<byte>>)
    ensures r.Some? ==> |r.value| <= |s|
  {
    if Next(s, POINT) then ParseDigits(s[1..]) else Some(s)
  }

  function ParseExponent(s: seq<byte>): (r: Option<seq<byte>>)
    ensures r.Some? ==> |r.value| <= |s|
  {
    if Next(s, 101) || Next(s, 69) then
      ParseDigits(if Next(s[1..], 43) || Next(s[1..], MINUS) then s[2..] else s[1..])
    else Some(s)
  }

  function ParseNumber(s: seq<byte>): (r: Option<seq<byte>>)
    ensures r.Some? ==> |r.value| < |s|
  {
    match ParseWhole(if Next(s, MINUS) then s[1..] else s)
    case None => None
    case Some(a) =>
      match ParseFraction(a)
      case None => None
      case Some(b) => ParseExponent(b)
  }

  function ParseValue(s: seq<byte>, depth: nat): (r: Option<seq<byte>>)
    ensures r.Some? ==> |r.value| < |s|
    decreases |s|, 1
  {
    var s := SkipWs(s);
    if s == [] then None
    else if s[0] == Open(true) then ParseContainer(s, depth, true)
    else if s[0] == Open(false) then ParseContainer(s, depth, false)
    else if s[0] == QUOTE then
      match ParseChars(s[1..]) { case None => None case Some((_, left)) => Some(left) }
    else if TRUE <= s then Some(s[4..])
    else if FALSE <= s then Some(s[5..])
    else if NULL <= s then Some(s[4..])
    else ParseNumber(s)
  }

  function ParseContainer(s: seq<byte>, depth: nat, curly: bool): (r: Option<seq<byte>>)
    requires s != []
    ensures r.Some? ==> |r.value| < |s|
    decreases |s|, 0
  {
    if depth + 1 > MAX_DEPTH then None
    else
      var a := SkipWs(s[1..]);
      if Next(a, Close(curly)) then Some(a[1..]) else ParseItems(a, depth + 1, curly)
  }

  /** A key with its colon, up to the value. */
  function ParseKey(s: seq<byte>): (r: Option<(seq<byte>, seq<byte>)>)
    ensures r.Some? ==> |r.value.1| < |s|
  {
    if !Next(s, QUOTE) then None
    else
      match ParseChars(s[1..])
      case None => None
      case Some((key, a)) =>
        var b := SkipWs(a);
        if Next(b, COLON) then Some((key, SkipWs(b[1..]))) else None
  }

  function ParseItem(s: seq<byte>, depth: nat, curly: bool): (r: Option<seq<byte>>)
    ensures r.Some? ==> |r.value| < |s|
    decreases |s|, 2
  {
    if curly then
      match ParseKey(s)
      case None => None
      case Some((_, a)) => ParseValue(a, depth)
    else ParseValue(s, depth)
  }

  function ParseItems(s: seq<byte>, depth: nat, curly: bool): (r: Option<seq<byte>>)
    ensures r.Some? ==> |r.value| < |s|
    decreases |s|, 3
  {
    match ParseItem(s, depth, curly)
    case None => None
    case Some(a) =>
      var b := SkipWs(a);
      if Next(b, Close(curly)) then Some(b[1..])
      else if Next(b, COMMA) then ParseItems(SkipWs(b[1..]), depth, curly)
      else None
  }

  // ---- the stream flags of a response ----

  /** What has been seen of the two flags. */
  datatype Flags = Flags(ready: Option<bool>, consumed: Option<bool>)

  function ParseBool(s: seq<byte>): (r: Option<(bool, seq<byte>)>)
    ensures r.Some? ==> |r.value.1| < |s|
  {
    if TRUE <= s then Some((true, s[4..]))
    else if FALSE <= s then Some((false, s[5..]))
    else None
  }

  /** One root member: a flag may come once and only as a boolean, anything else is checked and dropped. */
  function ParseMember(s: seq<byte>, f: Flags): (r: Option<(Flags, seq<byte>)>)
    ensures r.Some? ==> |r.value.1| < |s|
  {
    match ParseKey(s)
    case None => None
    case Some((key, a)) =>
      if |key| >= KEY_CAPACITY then None
      else if key == READY then
        if f.ready.Some? then None
        else match ParseBool(a) { case None => None case Some((b, left)) => Some((f.(ready := Some(b)), left)) }
      else if key == CONSUMED then
        if f.consumed.Some? then None
        else match ParseBool(a) { case None => None case Some((b, left)) => Some((f.(consumed := Some(b)), left)) }
      else match ParseValue(a, 0) { case None => None case Some(left) => Some((f, left)) }
  }

  function ParseMembers(s: seq<byte>, f: Flags): (r: Option<(Flags, seq<byte>)>)
    ensures r.Some? ==> |r.value.1| < |s|
    decreases |s|
  {
    match ParseMember(s, f)
    case None => None
    case Some((g, a)) =>
      var b := SkipWs(a);
      if Next(b, Close(true)) then Some((g, b[1..]))
      else if Next(b, COMMA) then ParseMembers(SkipWs(b[1..]), g)
      else None
  }

  function ParseRoot(text: seq<byte>): Option<(Flags, seq<byte>)> {
    var s := SkipWs(text);
    if !Next(s, Open(true)) then None
    else
      var a := SkipWs(s[1..]);
      if Next(a, Close(true)) then Some((Flags(None, None), a[1..])) else ParseMembers(a, Flags(None, None))
  }

  /** The two flags of an acceptable response. */
  function ParseFlags(text: seq<byte>): Option<(bool, bool)> {
    if |text| > MAX_TEXT then None
    else
      match ParseRoot(text)
      case None => None
      case Some((f, left)) =>
        var ready, consumed := f.ready == Some(true), f.consumed == Some(true);
        if SkipWs(left) != [] || (ready && consumed) then None else Some((ready, consumed))
  }
}
