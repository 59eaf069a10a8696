/** The texts of the grammar of RFC 8259, sections 2 to 7, as trees that keep every byte. Each tree writes
    itself in front of whatever follows it, so a text is what its tree writes in front of nothing. */
module JsonGrammar {
  import opened Bytes

  const QUOTE: byte := 34
  const BACKSLASH: byte := 92
  const COMMA: byte := 44
  const COLON: byte := 58
  const MINUS: byte := 45
  const POINT: byte := 46
  const TRUE: seq<byte> := [116, 114, 117, 101]
  const FALSE: seq<byte> := [102, 97, 108, 115, 101]
  const NULL: seq<byte> := [110, 117, 108, 108]

  predicate IsWs(b: byte) {
    b == 32 || b == 13 || b == 10 || b == 9
  }

  predicate IsDigit(b: byte) {
    48 <= b <= 57
  }

  predicate IsHex(b: byte) {
    IsDigit(b) || 65 <= b <= 70 || 97 <= b <= 102
  }

  /** The letters that may follow a backslash, `u` apart. */
  predicate IsEscape(b: byte) {
    b == 34 || b == 92 || b == 47 || b == 98 || b == 102 || b == 110 || b == 114 || b == 116
  }

  predicate AllWs(w: seq<byte>) {
    forall i | 0 <= i < |w| :: IsWs(w[i])
  }

  predicate AllDigits(d: seq<byte>) {
    forall i | 0 <= i < |d| :: IsDigit(d[i])
  }

  /** Bytes from 0x80 up are not examined: the reader does not check UTF-8. */
  datatype Char = Plain(b: byte) | Escape(letter: byte) | Unicode(a: byte, b: byte, c: byte, d: byte) {
    predicate Valid() {
      match this
      case Plain(b) => b >= 32 && b != QUOTE && b != BACKSLASH
      case Escape(l) => IsEscape(l)
      case Unicode(a, b, c, d) => IsHex(a) && IsHex(b) && IsHex(c) && IsHex(d)
    }

    function Write(): (t: seq<byte>)
      ensures |t| >= 1
    {
      match this
      case Plain(b) => [b]
      case Escape(l) => [BACKSLASH, l]
      case Unicode(a, b, c, d) => [BACKSLASH, 117, a, b, c, d]
    }

    /** What the reader keeps of it: an escape never matches any name. */
    function Kept(): byte {
      if Plain? then b else 63
    }
  }

  predicate ValidChars(s: seq<Char>) {
    forall i | 0 <= i < |s| :: s[i].Valid()
  }

  function Kept(s: seq<Char>): (k: seq<byte>)
    ensures |k| == |s|
  {
    seq(|s|, i requires 0 <= i < |s| => s[i].Kept())
  }

  function WriteChars(s: seq<Char>, rest: seq<byte>): (t: seq<byte>)
    ensures |t| >= |s| + |rest|
  {
    if s == [] then rest else s[0].Write() + WriteChars(s[1..], rest)
  }

  datatype Exponent = NoExponent | Exponent(e: byte, sign: seq<byte>, digits: seq<byte>)

  datatype Number = Number(negative: bool, whole: seq<byte>, fraction: seq<byte>, exponent: Exponent) {
    predicate Valid() {
      && AllDigits(whole) && whole != [] && (whole[0] == 48 ==> |whole| == 1)
      && AllDigits(fraction)
      && (exponent.Exponent? ==>
            && (exponent.e == 101 || exponent.e == 69)
            && (exponent.sign == [] || exponent.sign == [43] || exponent.sign == [MINUS])
            && exponent.digits != [] && AllDigits(exponent.digits))
    }

    function Write(rest: seq<byte>): seq<byte> {
      (if negative then [MINUS] else []) + (whole + WriteFraction(rest))
    }

    function WriteFraction(rest: seq<byte>): seq<byte> {
      if fraction == [] then WriteExponent(rest) else [POINT] + (fraction + WriteExponent(rest))
    }

    function WriteExponent(rest: seq<byte>): seq<byte> {
      match exponent
      case NoExponent => rest
      case Exponent(e, sign, digits) => [e] + (sign + (digits + rest))
    }
  }

  datatype Value =
    | Literal(text: seq<byte>)
    | Numeral(n: Number)
    | Text(chars: seq<Char>)
    | Empty(curly: bool, w: seq<byte>)
    | Full(curly: bool, w: seq<byte>, items: Items)

  /** Members of an object or elements of an array with the white space around the commas. */
  datatype Items =
    | Last(item: Item, after: seq<byte>)
    | More(item: Item, after: seq<byte>, before: seq<byte>, next: Items)

  datatype Item = Element(value: Value) | Member(key: seq<Char>, w1: seq<byte>, w2: seq<byte>, value: Value)

  function Open(curly: bool): byte {
    if curly then 123 else 91
  }

  function Close(curly: bool): byte {
    if curly then 125 else 93
  }

  predicate ValidValue(v: Value) {
    match v
    case Literal(t) => t == TRUE || t == FALSE || t == NULL
    case Numeral(n) => n.Valid()
    case Text(s) => ValidChars(s)
    case Empty(_, w) => AllWs(w)
    case Full(curly, w, items) => AllWs(w) && ValidItems(items, curly)
  }

  predicate ValidItems(items: Items, curly: bool) {
    && ValidItem(items.item, curly) && AllWs(items.after)
    && (items.More? ==> AllWs(items.before) && ValidItems(items.next, curly))
  }

  predicate ValidItem(item: Item, curly: bool) {
    && item.Member? == curly && ValidValue(item.value)
    && (item.Member? ==> ValidChars(item.key) && AllWs(item.w1) && AllWs(item.w2))
  }

  function Write(v: Value, rest: seq<byte>): seq<byte> {
    match v
    case Literal(t) => t + rest
    case Numeral(n) => n.Write(rest)
    case Text(s) => [QUOTE] + WriteChars(s, [QUOTE] + rest)
    case Empty(curly, w) => [Open(curly)] + (w + ([Close(curly)] + rest))
    case Full(curly, w, items) => [Open(curly)] + (w + WriteItems(items, [Close(curly)] + rest))
  }

  function WriteItems(items: Items, rest: seq<byte>): seq<byte> {
    match items
    case Last(item, after) => WriteItem(item, after + rest)
    case More(item, after, before, next) =>
      WriteItem(item, after + ([COMMA] + (before + WriteItems(next, rest))))
  }

  function WriteItem(item: Item, rest: seq<byte>): seq<byte> {
    match item
    case Element(v) => Write(v, rest)
    case Member(key, w1, w2, v) => WriteKey(key, w1, w2, Write(v, rest))
  }

  function WriteKey(key: seq<Char>, w1: seq<byte>, w2: seq<byte>, rest: seq<byte>): seq<byte> {
    [QUOTE] + WriteChars(key, [QUOTE] + (w1 + ([COLON] + (w2 + rest))))
  }

  function Max(a: nat, b: nat): nat {
    if a < b then b else a
  }

  /** How many containers deep a value is. */
  function Depth(v: Value): nat {
    match v
    case Empty(_, _) => 1
    case Full(_, _, items) => 1 + ItemsDepth(items)
    case _ => 0
  }

  function ItemsDepth(items: Items): nat {
    match items
    case Last(item, _) => Depth(item.value)
    case More(item, _, _, next) => Max(Depth(item.value), ItemsDepth(next))
  }

  function Members(items: Items): (m: seq<Item>)
    ensures m != []
  {
    match items
    case Last(item, _) => [item]
    case More(item, _, _, next) => [item] + Members(next)
  }

  /** A whole text: one object with white space around it. */
  datatype Document = Document(lead: seq<byte>, root: Value, trail: seq<byte>) {
    predicate Valid() {
      && AllWs(lead) && AllWs(trail) && ValidValue(root)
      && (root.Empty? || root.Full?) && root.curly
    }

    function Spelling(): seq<byte> {
      lead + Write(root, trail)
    }

    function RootMembers(): seq<Item> {
      if root.Full? then Members(root.items) else []
    }
  }
}
