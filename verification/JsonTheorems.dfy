/** What the reader accepts is the grammar, in both directions. */
module JsonTheorems {
  import opened Bytes
  import opened JsonGrammar
  import opened JsonParser
  import opened Options

  // ---- white space ----

  lemma {:induction false} SkippedWs(s: seq<byte>) returns (w: seq<byte>)
    ensures AllWs(w) && s == w + SkipWs(s)
    decreases |s|
  {
    if s != [] && IsWs(s[0]) {
      var w' := SkippedWs(s[1..]);
      w := [s[0]] + w';
      assert s == [s[0]] + s[1..];
    } else {
      w := [];
    }
  }

  lemma {:induction false} SkipsWs(w: seq<byte>, rest: seq<byte>)
    requires AllWs(w) && (rest == [] || !IsWs(rest[0]))
    ensures SkipWs(w + rest) == rest
    decreases |w|
  {
    if w == [] {
      assert w + rest == rest;
    } else {
      assert (w + rest)[1..] == w[1..] + rest;
      SkipsWs(w[1..], rest);
    }
  }

  // ---- strings ----

  lemma SoundChar(s: seq<byte>) returns (c: Char)
    requires s != [] && s[0] != QUOTE && ParseChar(s).Some?
    ensures c.Valid() && c.Kept() == ParseChar(s).value.0 && s == c.Write() + ParseChar(s).value.1
  {
    if s[0] != BACKSLASH {
      c := Plain(s[0]);
    } else if s[1] == 117 {
      c := Unicode(s[2], s[3], s[4], s[5]);
    } else {
      c := Escape(s[1]);
    }
  }

  lemma CompleteChar(c: Char, rest: seq<byte>)
    requires c.Valid()
    ensures var s := c.Write() + rest; s[0] != QUOTE && ParseChar(s) == Some((c.Kept(), rest))
  {
    var s := c.Write() + rest;
    if c.Unicode? {
      assert s[2] == c.a && s[3] == c.b && s[4] == c.c && s[5] == c.d;
    }
    assert s[|c.Write()|..] == rest;
  }

  lemma {:induction false} SoundChars(s: seq<byte>) returns (cs: seq<Char>)
    requires ParseChars(s).Some?
    ensures ValidChars(cs) && Kept(cs) == ParseChars(s).value.0
    ensures s == WriteChars(cs, [QUOTE] + ParseChars(s).value.1)
    decreases |s|
  {
    if s[0] == QUOTE {
      cs := [];
    } else {
      var c := SoundChar(s);
      var more := SoundChars(ParseChar(s).value.1);
      cs := [c] + more;
      assert Kept(cs) == [c.Kept()] + Kept(more);
    }
  }

  lemma {:induction false} CompleteChars(cs: seq<Char>, rest: seq<byte>)
    requires ValidChars(cs)
    ensures ParseChars(WriteChars(cs, [QUOTE] + rest)) == Some((Kept(cs), rest))
    decreases |cs|
  {
    var s := WriteChars(cs, [QUOTE] + rest);
    if cs == [] {
      assert s[1..] == rest;
    } else {
      CompleteChar(cs[0], WriteChars(cs[1..], [QUOTE] + rest));
      CompleteChars(cs[1..], rest);
      assert Kept(cs) == [cs[0].Kept()] + Kept(cs[1..]);
    }
  }

  // ---- numbers ----

  /** A text that cannot continue a number. */
  predicate Ends(s: seq<byte>) {
    s == [] || IsWs(s[0]) || s[0] == COMMA || s[0] == Close(true) || s[0] == Close(false)
  }

  predicate NoDigit(s: seq<byte>) {
    s == [] || !IsDigit(s[0])
  }

  lemma {:induction false} SkippedDigits(s: seq<byte>) returns (d: seq<byte>)
    ensures AllDigits(d) && s == d + SkipDigits(s)
    decreases |s|
  {
    if s != [] && IsDigit(s[0]) {
      var d' := SkippedDigits(s[1..]);
      d := [s[0]] + d';
      assert s == [s[0]] + s[1..];
    } else {
      d := [];
    }
  }

  lemma {:induction false} SkipsDigits(d: seq<byte>, rest: seq<byte>)
    requires AllDigits(d) && NoDigit(rest)
    ensures SkipDigits(d + rest) == rest
    decreases |d|
  {
    if d == [] {
      assert d + rest == rest;
    } else {
      assert (d + rest)[1..] == d[1..] + rest;
      SkipsDigits(d[1..], rest);
    }
  }

  lemma SoundDigits(s: seq<byte>) returns (d: seq<byte>)
    requires ParseDigits(s).Some?
    ensures AllDigits(d) && d != [] && d[0] == s[0] && s == d + ParseDigits(s).value
  {
    var more := SkippedDigits(s[1..]);
    d := [s[0]] + more;
  }

  lemma CompleteDigits(d: seq<byte>, rest: seq<byte>)
    requires AllDigits(d) && d != [] && NoDigit(rest)
    ensures ParseDigits(d + rest) == Some(rest)
  {
    assert (d + rest)[1..] == d[1..] + rest;
    SkipsDigits(d[1..], rest);
  }

  lemma SoundWhole(s: seq<byte>) returns (d: seq<byte>)
    requires ParseWhole(s).Some?
    ensures AllDigits(d) && d != [] && (d[0] == 48 ==> |d| == 1) && s == d + ParseWhole(s).value
  {
    if Next(s, 48) {
      d := [s[0]];
    } else {
      d := SoundDigits(s);
    }
  }

  lemma SoundFraction(s: seq<byte>) returns (d: seq<byte>)
    requires ParseFraction(s).Some?
    ensures AllDigits(d) && s == if d == [] then ParseFraction(s).value else [POINT] + (d + ParseFraction(s).value)
  {
    if Next(s, POINT) {
      d := SoundDigits(s[1..]);
      assert s == [POINT] + s[1..];
    } else {
      d := [];
    }
  }

  lemma SoundExponent(s: seq<byte>) returns (n: Number)
    requires ParseExponent(s).Some?
    ensures n.Valid() && s == n.WriteExponent(ParseExponent(s).value)
  {
    n := Number(false, [48], [], NoExponent);
    if Next(s, 101) || Next(s, 69) {
      var sign := if Next(s[1..], 43) || Next(s[1..], MINUS) then [s[1]] else [];
      var after := if sign == [] then s[1..] else s[2..];
      var d := SoundDigits(after);
      assert s == [s[0]] + (sign + after);
      n := n.(exponent := Exponent(s[0], sign, d));
    }
  }

  lemma SoundNumber(s: seq<byte>) returns (n: Number)
    requires ParseNumber(s).Some?
    ensures n.Valid() && s == n.Write(ParseNumber(s).value)
  {
    var negative := Next(s, MINUS);
    var a := if negative then s[1..] else s;
    var whole := SoundWhole(a);
    var fraction := SoundFraction(ParseWhole(a).value);
    var e := SoundExponent(ParseFraction(ParseWhole(a).value).value);
    n := Number(negative, whole, fraction, e.exponent);
    assert n.WriteExponent(ParseNumber(s).value) == e.WriteExponent(ParseNumber(s).value);
    assert s == (if negative then [MINUS] else []) + a;
  }

  lemma CompleteExponent(n: Number, rest: seq<byte>)
    requires n.Valid() && Ends(rest)
    ensures var s := n.WriteExponent(rest); ParseExponent(s) == Some(rest) && NoDigit(s) && !Next(s, POINT)
  {
    if n.exponent.Exponent? {
      var s, sign, d := n.WriteExponent(rest), n.exponent.sign, n.exponent.digits;
      assert s[1..] == sign + (d + rest);
      if sign == [] {
        assert s[1..] == d + rest;
      } else {
        assert s[2..] == d + rest;
      }
      CompleteDigits(d, rest);
    }
  }

  lemma CompleteFraction(n: Number, rest: seq<byte>)
    requires n.Valid() && Ends(rest)
    ensures var s := n.WriteFraction(rest); ParseFraction(s) == Some(n.WriteExponent(rest)) && NoDigit(s)
  {
    CompleteExponent(n, rest);
    if n.fraction != [] {
      assert n.WriteFraction(rest)[1..] == n.fraction + n.WriteExponent(rest);
      CompleteDigits(n.fraction, n.WriteExponent(rest));
    }
  }

  lemma CompleteNumber(n: Number, rest: seq<byte>)
    requires n.Valid() && Ends(rest)
    ensures ParseNumber(n.Write(rest)) == Some(rest)
  {
    var tail := n.WriteFraction(rest);
    var s, a := n.Write(rest), n.whole + tail;
    CompleteExponent(n, rest);
    CompleteFraction(n, rest);
    assert s == if n.negative then [MINUS] + a else a;
    assert n.negative ==> s[1..] == a;
    assert ParseWhole(a) == Some(tail) by {
      if n.whole[0] == 48 {
        assert a[1..] == tail;
      } else {
        CompleteDigits(n.whole, tail);
      }
    }
  }

  // ---- values ----

  predicate NoWs(s: seq<byte>) {
    s == [] || !IsWs(s[0])
  }

  lemma {:induction false} SkipWsStops(s: seq<byte>)
    ensures NoWs(SkipWs(s))
    decreases |s|
  {
    if s != [] && IsWs(s[0]) {
      SkipWsStops(s[1..]);
    }
  }

  lemma SoundKey(s: seq<byte>) returns (key: seq<Char>, w1: seq<byte>, w2: seq<byte>)
    requires ParseKey(s).Some?
    ensures ValidChars(key) && AllWs(w1) && AllWs(w2) && Kept(key) == ParseKey(s).value.0
    ensures s == WriteKey(key, w1, w2, ParseKey(s).value.1)
  {
    key := SoundChars(s[1..]);
    var a := ParseChars(s[1..]).value.1;
    w1 := SkippedWs(a);
    var b := SkipWs(a);
    w2 := SkippedWs(b[1..]);
    assert b == [COLON] + (w2 + SkipWs(b[1..]));
    assert s == [QUOTE] + s[1..];
  }

  lemma {:induction false} SoundValue(s: seq<byte>, depth: nat) returns (w: seq<byte>, v: Value)
    requires depth <= MAX_DEPTH && ParseValue(s, depth).Some?
    ensures AllWs(w) && ValidValue(v) && depth + Depth(v) <= MAX_DEPTH
    ensures s == w + Write(v, ParseValue(s, depth).value)
    decreases |s|, 1
  {
    w := SkippedWs(s);
    var a := SkipWs(s);
    if a[0] == Open(true) {
      v := SoundContainer(a, depth, true);
    } else if a[0] == Open(false) {
      v := SoundContainer(a, depth, false);
    } else if a[0] == QUOTE {
      var cs := SoundChars(a[1..]);
      v := Text(cs);
      assert a == [QUOTE] + a[1..];
    } else if TRUE <= a {
      v := Literal(TRUE);
    } else if FALSE <= a {
      v := Literal(FALSE);
    } else if NULL <= a {
      v := Literal(NULL);
    } else {
      var n := SoundNumber(a);
      v := Numeral(n);
    }
  }

  lemma {:induction false} SoundContainer(s: seq<byte>, depth: nat, curly: bool) returns (v: Value)
    requires s != [] && s[0] == Open(curly) && depth <= MAX_DEPTH && ParseContainer(s, depth, curly).Some?
    ensures ValidValue(v) && depth + Depth(v) <= MAX_DEPTH && s == Write(v, ParseContainer(s, depth, curly).value)
    decreases |s|, 0
  {
    hide ParseItems, WriteItems, ValidItems;
    var w := SkippedWs(s[1..]);
    SkipWsStops(s[1..]);
    var a := SkipWs(s[1..]);
    assert s == [Open(curly)] + (w + a);
    if Next(a, Close(curly)) {
      v := Empty(curly, w);
      assert a == [Close(curly)] + a[1..];
    } else {
      var items := SoundItems(a, depth + 1, curly);
      v := Full(curly, w, items);
    }
  }

  lemma NoLead(w: seq<byte>, t: seq<byte>)
    requires AllWs(w) && NoWs(w + t)
    ensures w == []
  {
  }

  lemma {:induction false} SoundItem(s: seq<byte>, depth: nat, curly: bool) returns (item: Item)
    requires depth <= MAX_DEPTH && NoWs(s) && ParseItem(s, depth, curly).Some?
    ensures ValidItem(item, curly) && depth + Depth(item.value) <= MAX_DEPTH
    ensures s == WriteItem(item, ParseItem(s, depth, curly).value)
    decreases |s|, 2
  {
    if curly {
      var key, w1, w2 := SoundKey(s);
      var w, v := SoundValue(ParseKey(s).value.1, depth);
      item := Member(key, w1, w2 + w, v);
      var rest := Write(v, ParseItem(s, depth, curly).value);
      assert w2 + (w + rest) == w2 + w + rest;
    } else {
      var w, v := SoundValue(s, depth);
      NoLead(w, Write(v, ParseItem(s, depth, curly).value));
      item := Element(v);
    }
  }

  lemma {:induction false} SoundItems(s: seq<byte>, depth: nat, curly: bool) returns (items: Items)
    requires depth <= MAX_DEPTH && NoWs(s) && ParseItems(s, depth, curly).Some?
    ensures ValidItems(items, curly) && depth + ItemsDepth(items) <= MAX_DEPTH
    ensures s == WriteItems(items, [Close(curly)] + ParseItems(s, depth, curly).value)
    decreases |s|, 3
  {
    hide ParseItem, WriteItem, ValidItem, SkipWs, Depth, AllWs;
    var item := SoundItem(s, depth, curly);
    var a := ParseItem(s, depth, curly).value;
    var after := SkippedWs(a);
    var b := SkipWs(a);
    assert b == [b[0]] + b[1..];
    if Next(b, Close(curly)) {
      items := Last(item, after);
    } else {
      var before := SkippedWs(b[1..]);
      SkipWsStops(b[1..]);
      var next := SoundItems(SkipWs(b[1..]), depth, curly);
      items := More(item, after, before, next);
    }
  }

  /** A value starts with a character of its own: no white space and no closing bracket. */
  predicate Starts(s: seq<byte>) {
    s != [] && !IsWs(s[0]) && s[0] != Close(true) && s[0] != Close(false)
  }

  lemma WritesStart(v: Value, rest: seq<byte>)
    requires ValidValue(v)
    ensures Starts(Write(v, rest))
  {
    if v.Numeral? {
      assert v.n.Write(rest)[0] == if v.n.negative then MINUS else v.n.whole[0];
    }
  }

  lemma ItemsStart(items: Items, curly: bool, rest: seq<byte>)
    requires ValidItems(items, curly)
    ensures Starts(WriteItems(items, rest))
  {
    if !curly {
      match items {
        case Last(item, after) => WritesStart(item.value, after + rest);
        case More(item, after, before, next) =>
          WritesStart(item.value, after + ([COMMA] + (before + WriteItems(next, rest))));
      }
    }
  }

  lemma CompleteKey(key: seq<Char>, w1: seq<byte>, w2: seq<byte>, rest: seq<byte>)
    requires ValidChars(key) && AllWs(w1) && AllWs(w2) && NoWs(rest)
    ensures ParseKey(WriteKey(key, w1, w2, rest)) == Some((Kept(key), rest))
  {
    var s, tail := WriteKey(key, w1, w2, rest), [COLON] + (w2 + rest);
    assert s[1..] == WriteChars(key, [QUOTE] + (w1 + tail));
    CompleteChars(key, w1 + tail);
    SkipsWs(w1, tail);
    assert tail[1..] == w2 + rest;
    SkipsWs(w2, rest);
  }

  lemma {:induction false} CompleteValue(v: Value, w: seq<byte>, rest: seq<byte>, depth: nat)
    requires ValidValue(v) && AllWs(w) && Ends(rest) && depth + Depth(v) <= MAX_DEPTH
    ensures ParseValue(w + Write(v, rest), depth) == Some(rest)
    decreases v, 1
  {
    hide ParseChars, ParseNumber, ParseContainer, WriteChars, WriteItems, ValidItems, SkipWs, AllWs, AllDigits;
    var s := Write(v, rest);
    WritesStart(v, rest);
    SkipsWs(w, s);
    match v {
      case Literal(t) => assert s[|t|..] == rest;
      case Numeral(n) =>
        CompleteNumber(n, rest);
        NumberAlone(n, rest);
      case Text(cs) =>
        assert s[1..] == WriteChars(cs, [QUOTE] + rest);
        CompleteChars(cs, rest);
      case Empty(curly, w') => CompleteContainer(v, rest, depth);
      case Full(curly, w', items) => CompleteContainer(v, rest, depth);
    }
  }

  lemma NumberAlone(n: Number, rest: seq<byte>)
    requires n.Valid()
    ensures var s := n.Write(rest); s != [] && (s[0] == MINUS || IsDigit(s[0]))
  {
    assert n.Write(rest)[0] == if n.negative then MINUS else n.whole[0];
  }

  lemma {:induction false} CompleteContainer(v: Value, rest: seq<byte>, depth: nat)
    requires (v.Empty? || v.Full?) && ValidValue(v) && Ends(rest) && depth + Depth(v) <= MAX_DEPTH
    ensures ParseContainer(Write(v, rest), depth, v.curly) == Some(rest)
    decreases v, 0
  {
    var s, close := Write(v, rest), [Close(v.curly)] + rest;
    if v.Empty? {
      assert s[1..] == v.w + close;
      SkipsWs(v.w, close);
      assert close[1..] == rest;
    } else {
      var inner := WriteItems(v.items, close);
      assert s[1..] == v.w + inner;
      ItemsStart(v.items, v.curly, close);
      SkipsWs(v.w, inner);
      CompleteItems(v.items, rest, depth + 1, v.curly);
    }
  }

  lemma {:induction false} CompleteItem(item: Item, rest: seq<byte>, depth: nat, curly: bool)
    requires ValidItem(item, curly) && Ends(rest) && depth + Depth(item.value) <= MAX_DEPTH
    ensures ParseItem(WriteItem(item, rest), depth, curly) == Some(rest)
    decreases item
  {
    var s := Write(item.value, rest);
    assert [] + s == s;
    CompleteValue(item.value, [], rest, depth);
    if curly {
      WritesStart(item.value, rest);
      CompleteKey(item.key, item.w1, item.w2, s);
    }
  }

  lemma {:induction false} CompleteItems(items: Items, rest: seq<byte>, depth: nat, curly: bool)
    requires ValidItems(items, curly) && depth + ItemsDepth(items) <= MAX_DEPTH
    ensures ParseItems(WriteItems(items, [Close(curly)] + rest), depth, curly) == Some(rest)
    decreases items
  {
    var close := [Close(curly)] + rest;
    match items {
      case Last(item, after) =>
        WsEnds(after, close);
        CompleteItem(item, after + close, depth, curly);
        SkipsWs(after, close);
        assert close[1..] == rest;
      case More(item, after, before, next) =>
        var inner := WriteItems(next, close);
        var comma := [COMMA] + (before + inner);
        WsEnds(after, comma);
        CompleteItem(item, after + comma, depth, curly);
        SkipsWs(after, comma);
        assert comma[1..] == before + inner;
        ItemsStart(next, curly, close);
        SkipsWs(before, inner);
        CompleteItems(next, rest, depth, curly);
    }
  }

  lemma WsEnds(w: seq<byte>, rest: seq<byte>)
    requires AllWs(w) && Ends(rest)
    ensures Ends(w + rest)
  {
    if w != [] {
      assert (w + rest)[0] == w[0];
    }
  }

  // ---- stream flags ----

  predicate IsBool(v: Value) {
    v == Literal(TRUE) || v == Literal(FALSE)
  }

  /** A flag once seen under `key`, after one more member; None when the member is refused. */
  function After(m: Item, key: seq<byte>, seen: Option<bool>): Option<Option<bool>>
    requires m.Member?
  {
    if Kept(m.key) != key then Some(seen)
    else if seen.Some? || !IsBool(m.value) then None
    else Some(Some(m.value == Literal(TRUE)))
  }

  function AfterAll(ms: seq<Item>, key: seq<byte>, seen: Option<bool>): Option<Option<bool>>
    requires AllMembers(ms)
  {
    if ms == [] then Some(seen)
    else
      match After(ms[0], key, seen)
      case None => None
      case Some(now) => AfterAll(ms[1..], key, now)
  }

  predicate AllMembers(ms: seq<Item>) {
    forall i | 0 <= i < |ms| :: ms[i].Member?
  }

  predicate Named(ms: seq<Item>, i: nat, key: seq<byte>)
    requires i < |ms| && AllMembers(ms)
  {
    Kept(ms[i].key) == key
  }

  /** A flag occurs at most once, and as a boolean. */
  ghost predicate Single(ms: seq<Item>, key: seq<byte>)
    requires AllMembers(ms)
  {
    && (forall i | 0 <= i < |ms| && Named(ms, i, key) :: IsBool(ms[i].value))
    && (forall i, j | 0 <= i < |ms| && 0 <= j < |ms| && Named(ms, i, key) && Named(ms, j, key) :: i == j)
  }

  ghost predicate IsSet(ms: seq<Item>, key: seq<byte>)
    requires AllMembers(ms)
  {
    exists i | 0 <= i < |ms| :: Named(ms, i, key) && ms[i].value == Literal(TRUE)
  }

  ghost predicate Absent(ms: seq<Item>, key: seq<byte>)
    requires AllMembers(ms)
  {
    forall i | 0 <= i < |ms| :: !Named(ms, i, key)
  }

  lemma {:induction false} AfterAllMeans(ms: seq<Item>, key: seq<byte>, seen: Option<bool>)
    requires AllMembers(ms)
    ensures AfterAll(ms, key, seen).Some? <==> Single(ms, key) && (seen.Some? ==> Absent(ms, key))
    ensures AfterAll(ms, key, seen).Some? ==>
      AfterAll(ms, key, seen).value == if Absent(ms, key) then seen else Some(IsSet(ms, key))
    decreases |ms|
  {
    if ms != [] {
      var rest := ms[1..];
      forall i: nat | i < |rest|
        ensures Named(rest, i, key) == Named(ms, i + 1, key)
      {
      }
      assert Named(ms, 0, key) == (Kept(ms[0].key) == key);
      assert Absent(ms, key) <==> !Named(ms, 0, key) && Absent(rest, key) by {
        assert forall i: nat | 0 < i < |ms| :: Named(ms, i, key) == Named(rest, i - 1, key);
      }
      SingleRest(ms, key);
      var now := After(ms[0], key, seen);
      if now.Some? {
        AfterAllMeans(rest, key, now.value);
      }
    }
  }

  lemma SingleRest(ms: seq<Item>, key: seq<byte>)
    requires AllMembers(ms) && ms != []
    ensures var rest := ms[1..];
      Single(ms, key) <==> Single(rest, key) && (Named(ms, 0, key) ==> IsBool(ms[0].value) && Absent(rest, key))
    ensures IsSet(ms, key) <==> (Named(ms, 0, key) && ms[0].value == Literal(TRUE)) || IsSet(ms[1..], key)
  {
    var rest := ms[1..];
    assert forall i: nat | i < |rest| :: Named(rest, i, key) == Named(ms, i + 1, key) && rest[i] == ms[i + 1];
    assert forall i: nat | 0 < i < |ms| :: Named(ms, i, key) == Named(rest, i - 1, key);
  }

  /** The members of an acceptable response. */
  ghost predicate Bounded(ms: seq<Item>) {
    && AllMembers(ms)
    && forall i | 0 <= i < |ms| :: |ms[i].key| < KEY_CAPACITY && Depth(ms[i].value) <= MAX_DEPTH
  }

  lemma SoundMember(s: seq<byte>, f: Flags) returns (m: Item)
    requires ParseMember(s, f).Some?
    ensures m.Member? && ValidItem(m, true) && |m.key| < KEY_CAPACITY && Depth(m.value) <= MAX_DEPTH
    ensures s == WriteItem(m, ParseMember(s, f).value.1)
    ensures After(m, READY, f.ready) == Some(ParseMember(s, f).value.0.ready)
    ensures After(m, CONSUMED, f.consumed) == Some(ParseMember(s, f).value.0.consumed)
  {
    hide ParseKey, ParseValue, ParseChars, WriteChars;
    var key, w1, w2 := SoundKey(s);
    var k, a := ParseKey(s).value.0, ParseKey(s).value.1;
    var left := ParseMember(s, f).value.1;
    if k == READY || k == CONSUMED {
      var v := Literal(if TRUE <= a then TRUE else FALSE);
      assert a == Write(v, left);
      m := Member(key, w1, w2, v);
    } else {
      var w, v := SoundValue(a, 0);
      m := Member(key, w1, w2 + w, v);
      assert w2 + (w + Write(v, left)) == w2 + w + Write(v, left);
    }
  }

  lemma CompleteMember(m: Item, rest: seq<byte>, f: Flags)
    requires m.Member? && ValidItem(m, true) && |m.key| < KEY_CAPACITY && Depth(m.value) <= MAX_DEPTH && Ends(rest)
    requires After(m, READY, f.ready).Some? && After(m, CONSUMED, f.consumed).Some?
    ensures ParseMember(WriteItem(m, rest), f)
         == Some((Flags(After(m, READY, f.ready).value, After(m, CONSUMED, f.consumed).value), rest))
  {
    hide ParseKey, ParseValue, WriteKey;
    var s := Write(m.value, rest);
    WritesStart(m.value, rest);
    CompleteKey(m.key, m.w1, m.w2, s);
    assert READY != CONSUMED;
    if Kept(m.key) == READY || Kept(m.key) == CONSUMED {
      assert s[|m.value.text|..] == rest;
      assert m.value.text <= s;
      assert TRUE <= s ==> s[0] == 116;
    } else {
      assert [] + s == s;
      CompleteValue(m.value, [], rest, 0);
    }
  }

  lemma {:induction false} ValidMembers(items: Items)
    requires ValidItems(items, true)
    ensures AllMembers(Members(items))
    decreases items
  {
    if items.More? {
      ValidMembers(items.next);
    }
  }

  lemma {:induction false} SoundMembers(s: seq<byte>, f: Flags) returns (items: Items)
    requires ParseMembers(s, f).Some?
    ensures ValidItems(items, true) && Bounded(Members(items))
    ensures s == WriteItems(items, [Close(true)] + ParseMembers(s, f).value.1)
    ensures AfterAll(Members(items), READY, f.ready) == Some(ParseMembers(s, f).value.0.ready)
    ensures AfterAll(Members(items), CONSUMED, f.consumed) == Some(ParseMembers(s, f).value.0.consumed)
    decreases |s|
  {
    hide ParseMember, WriteItem, ValidItem;
    var m := SoundMember(s, f);
    var g, a := ParseMember(s, f).value.0, ParseMember(s, f).value.1;
    var after := SkippedWs(a);
    var b := SkipWs(a);
    assert b == [b[0]] + b[1..];
    if Next(b, Close(true)) {
      items := Last(m, after);
      assert Members(items) == [m] && [m][1..] == [];
    } else {
      var before := SkippedWs(b[1..]);
      var next := SoundMembers(SkipWs(b[1..]), g);
      items := More(m, after, before, next);
      assert Members(items)[1..] == Members(next);
    }
  }

  lemma {:induction false} CompleteMembers(items: Items, rest: seq<byte>, f: Flags)
    requires ValidItems(items, true) && Bounded(Members(items))
    requires AfterAll(Members(items), READY, f.ready).Some? && AfterAll(Members(items), CONSUMED, f.consumed).Some?
    ensures ParseMembers(WriteItems(items, [Close(true)] + rest), f)
         == Some((Flags(AfterAll(Members(items), READY, f.ready).value,
                        AfterAll(Members(items), CONSUMED, f.consumed).value), rest))
    decreases items
  {
    var close, ms, m := [Close(true)] + rest, Members(items), items.item;
    assert ms[0] == m;
    var g := Flags(After(m, READY, f.ready).value, After(m, CONSUMED, f.consumed).value);
    if items.Last? {
      WsEnds(items.after, close);
      CompleteMember(m, items.after + close, f);
      SkipsWs(items.after, close);
      assert close[1..] == rest && ms[1..] == [];
    } else {
      var inner := WriteItems(items.next, close);
      var comma := [COMMA] + (items.before + inner);
      assert ms[1..] == Members(items.next);
      WsEnds(items.after, comma);
      CompleteMember(m, items.after + comma, f);
      SkipsWs(items.after, comma);
      assert comma[1..] == items.before + inner;
      ItemsStart(items.next, true, close);
      SkipsWs(items.before, inner);
      CompleteMembers(items.next, rest, g);
    }
  }

  /** A response the reader should take: one object, short root keys, values nested at most eight deep,
      each flag at most once and a boolean, and not both of them true. */
  ghost predicate Acceptable(doc: Document) {
    && doc.Valid() && Bounded(doc.RootMembers())
    && Single(doc.RootMembers(), READY) && Single(doc.RootMembers(), CONSUMED)
    && !(IsSet(doc.RootMembers(), READY) && IsSet(doc.RootMembers(), CONSUMED))
  }

  lemma SoundRoot(text: seq<byte>) returns (doc: Document)
    requires ParseRoot(text).Some? && SkipWs(ParseRoot(text).value.1) == []
    ensures doc.Valid() && doc.Spelling() == text && Bounded(doc.RootMembers())
    ensures AfterAll(doc.RootMembers(), READY, None) == Some(ParseRoot(text).value.0.ready)
    ensures AfterAll(doc.RootMembers(), CONSUMED, None) == Some(ParseRoot(text).value.0.consumed)
  {
    hide ParseMembers, WriteItems, ValidItems;
    var lead := SkippedWs(text);
    var s := SkipWs(text);
    var w := SkippedWs(s[1..]);
    var a := SkipWs(s[1..]);
    var trail := SkippedWs(ParseRoot(text).value.1);
    assert trail == ParseRoot(text).value.1;
    assert s == [Open(true)] + (w + a);
    if Next(a, Close(true)) {
      doc := Document(lead, Empty(true, w), trail);
      assert a == [Close(true)] + trail;
    } else {
      var items := SoundMembers(a, Flags(None, None));
      doc := Document(lead, Full(true, w, items), trail);
    }
  }

  lemma CompleteRoot(doc: Document)
    requires doc.Valid() && Bounded(doc.RootMembers())
    requires AfterAll(doc.RootMembers(), READY, None).Some? && AfterAll(doc.RootMembers(), CONSUMED, None).Some?
    ensures ParseRoot(doc.Spelling())
         == Some((Flags(AfterAll(doc.RootMembers(), READY, None).value,
                        AfterAll(doc.RootMembers(), CONSUMED, None).value), doc.trail))
  {
    var root, trail := doc.root, doc.trail;
    var s, close := Write(root, trail), [Close(true)] + trail;
    SkipsWs(doc.lead, s);
    if root.Empty? {
      assert s[1..] == root.w + close;
      SkipsWs(root.w, close);
      assert close[1..] == trail;
    } else {
      var inner := WriteItems(root.items, close);
      assert s[1..] == root.w + inner;
      ItemsStart(root.items, true, close);
      SkipsWs(root.w, inner);
      CompleteMembers(root.items, trail, Flags(None, None));
    }
  }

  /** A response that is taken is acceptable, and its two flags are those of its root members. */
  lemma FlagsSound(text: seq<byte>) returns (doc: Document)
    requires ParseFlags(text).Some?
    ensures Acceptable(doc) && doc.Spelling() == text
    ensures ParseFlags(text) == Some((IsSet(doc.RootMembers(), READY), IsSet(doc.RootMembers(), CONSUMED)))
  {
    doc := SoundRoot(text);
    AfterAllMeans(doc.RootMembers(), READY, None);
    AfterAllMeans(doc.RootMembers(), CONSUMED, None);
  }

  /** Every acceptable response short enough is taken, with the flags of its root members. */
  lemma FlagsComplete(doc: Document)
    requires Acceptable(doc) && |doc.Spelling()| <= MAX_TEXT
    ensures ParseFlags(doc.Spelling()) == Some((IsSet(doc.RootMembers(), READY), IsSet(doc.RootMembers(), CONSUMED)))
  {
    AfterAllMeans(doc.RootMembers(), READY, None);
    AfterAllMeans(doc.RootMembers(), CONSUMED, None);
    CompleteRoot(doc);
    SkipsWs(doc.trail, []);
    assert doc.trail + [] == doc.trail;
  }

  /** The reader takes a text exactly when it is the spelling of an acceptable response, and whichever way
      the text is read the flags are the same. */
  lemma FlagsIff(text: seq<byte>)
    ensures ParseFlags(text).Some? <==> |text| <= MAX_TEXT && exists doc :: Acceptable(doc) && doc.Spelling() == text
    ensures forall doc | Acceptable(doc) && doc.Spelling() == text && |text| <= MAX_TEXT ::
      ParseFlags(text) == Some((IsSet(doc.RootMembers(), READY), IsSet(doc.RootMembers(), CONSUMED)))
  {
    if ParseFlags(text).Some? {
      var doc := FlagsSound(text);
    }
    forall doc | Acceptable(doc) && doc.Spelling() == text && |text| <= MAX_TEXT
      ensures ParseFlags(text) == Some((IsSet(doc.RootMembers(), READY), IsSet(doc.RootMembers(), CONSUMED)))
    {
      FlagsComplete(doc);
    }
  }
}
