/** The reader itself: a cursor that moves through a terminated text. The cursor is never read beyond the
    terminator, and every method is proved equal to the function of the same name in JsonParser. */
module JsonReader {
  import opened Bytes
  import opened JsonGrammar
  import opened JsonParser
  import opened Options

  /** A C string ends at its first zero. */
  function CString(buffer: seq<byte>): (s: seq<byte>)
    ensures |s| <= |buffer|
  {
    if buffer == [] || buffer[0] == 0 then [] else [buffer[0]] + CString(buffer[1..])
  }

  lemma {:induction false} CStringIs(buffer: seq<byte>, s: seq<byte>)
    requires s < buffer && buffer[|s|] == 0 && forall i | 0 <= i < |s| :: s[i] != 0
    ensures CString(buffer) == s
    decreases |s|
  {
    if s != [] {
      assert buffer[0] == s[0] && s[1..] < buffer[1..];
      CStringIs(buffer[1..], s[1..]);
    }
  }

  /** What was kept so far in front of what is still to be kept. */
  function Extend(kept: seq<byte>, r: Option<(seq<byte>, seq<byte>)>): Option<(seq<byte>, seq<byte>)> {
    match r
    case None => None
    case Some((more, left)) => Some((kept + more, left))
  }

  lemma ExtendNothing(r: Option<(seq<byte>, seq<byte>)>)
    ensures Extend([], r) == r
  {
    if r.Some? {
      assert [] + r.value.0 == r.value.0;
    }
  }

  lemma ExtendByOne(kept: seq<byte>, s: seq<byte>)
    requires s != [] && s[0] != QUOTE && ParseChar(s).Some?
    ensures var (c, rest) := ParseChar(s).value;
      Extend(kept, ParseChars(s)) == Extend(kept + [c], ParseChars(rest))
  {
    var (c, rest) := ParseChar(s).value;
    var r := ParseChars(rest);
    if r.Some? {
      assert kept + ([c] + r.value.0) == kept + [c] + r.value.0;
    }
  }

  function ParseString(s: seq<byte>): (r: Option<(seq<byte>, seq<byte>)>)
    ensures r.Some? ==> |r.value.1| < |s|
  {
    if Next(s, QUOTE) then ParseChars(s[1..]) else None
  }

  lemma {:induction false} KeptNonZero(s: seq<byte>)
    requires ParseChars(s).Some?
    ensures forall i | 0 <= i < |ParseChars(s).value.0| :: ParseChars(s).value.0[i] != 0
    decreases |s|
  {
    if s[0] != QUOTE {
      KeptNonZero(ParseChar(s).value.1);
    }
  }

  class Reader {
    const text: seq<byte>
    var p: nat
    var depth: nat

    ghost predicate Valid()
      reads this
    {
      p <= |text| && forall i | 0 <= i < |text| :: text[i] != 0
    }

    constructor (text: seq<byte>)
      requires forall i | 0 <= i < |text| :: text[i] != 0
      ensures Valid() && this.text == text && p == 0 && depth == 0
    {
      this.text, p, depth := text, 0, 0;
    }

    ghost function Ahead(): seq<byte>
      requires p <= |text|
      reads this
    {
      text[p..]
    }

    /** The byte under the cursor, the terminator at the end. */
    function Peek(): (b: byte)
      requires p <= |text|
      reads this
    {
      if p < |text| then text[p] else 0
    }

    function StartsWith(literal: seq<byte>): bool
      requires p <= |text|
      reads this
    {
      literal <= text[p..]
    }

    method Ws()
      requires Valid()
      modifies this`p
      ensures Valid() && old(p) <= p && Ahead() == SkipWs(old(Ahead()))
    {
      while IsWs(Peek())
        invariant Valid() && old(p) <= p && SkipWs(Ahead()) == SkipWs(old(Ahead()))
        decreases |text| - p
      {
        p := p + 1;
      }
    }

    method Digits()
      requires Valid()
      modifies this`p
      ensures Valid() && old(p) <= p && Ahead() == SkipDigits(old(Ahead()))
    {
      while IsDigit(Peek())
        invariant Valid() && old(p) <= p && SkipDigits(Ahead()) == SkipDigits(old(Ahead()))
        decreases |text| - p
      {
        p := p + 1;
      }
    }

    /** One character of a string, `c` when kept. */
    method Char() returns (ok: bool, c: byte)
      requires Valid() && Peek() != 0 && Peek() != QUOTE
      modifies this`p
      ensures ok <==> ParseChar(old(Ahead())).Some?
      ensures ok ==> Valid() && old(p) < p && ParseChar(old(Ahead())) == Some((c, Ahead()))
    {
      c, ok := Peek(), true;
      p := p + 1;
      if c < 32 {
        return false, c;
      }
      if c == BACKSLASH {
        c := Peek();
        p := p + 1;
        if c == 117 {
          ok := Hex4();
        } else if !IsEscape(c) {
          ok := false;
        }
        c := 63;
      }
    }

    method Hex4() returns (ok: bool)
      requires Valid()
      modifies this`p
      ensures ok <==> old(p) + 4 <= |text| && forall k | old(p) <= k < old(p) + 4 :: IsHex(text[k])
      ensures ok ==> Valid() && p == old(p) + 4
    {
      var i := 0;
      while i < 4
        invariant i <= 4 && p == old(p) + i && p <= |text|
        invariant forall k | old(p) <= k < p :: IsHex(text[k])
      {
        var c := Peek();
        p := p + 1;
        if !IsHex(c) {
          return false;
        }
        i := i + 1;
      }
      ok := true;
    }

    /** A string, kept in `out` with a terminator when there is one. Never writes past the end of `out`. */
    method Str(out: array?<byte>) returns (ok: bool)
      requires Valid() && (out != null ==> out.Length >= 1)
      modifies this`p, if out == null then {} else {out}
      ensures var r := ParseString(old(Ahead()));
        && (ok <==> r.Some? && (out != null ==> |r.value.0| < out.Length))
        && (ok ==> Valid() && old(p) < p && Ahead() == r.value.1)
        && (ok && out != null ==> CString(out[..]) == r.value.0)
    {
      if Peek() != QUOTE {
        p := p + 1;
        return false;
      }
      p := p + 1;
      var used := 0;
      ghost var kept, all := [], Ahead();
      ExtendNothing(ParseChars(all));
      while Peek() != 0 && Peek() != QUOTE
        invariant Valid() && old(p) < p && ParseChars(all) == Extend(kept, ParseChars(Ahead()))
        invariant out != null ==> used == |kept| < out.Length && out[..used] == kept
        decreases |text| - p
      {
        ghost var before := Ahead();
        var one, c := Char();
        if !one {
          return false;
        }
        ExtendByOne(kept, before);
        if out != null {
          if used + 1 >= out.Length {
            return false;
          }
          out[used] := c;
          used := used + 1;
        }
        kept := kept + [c];
      }
      if Peek() != QUOTE {
        return false;
      }
      p := p + 1;
      if out != null {
        out[used] := 0;
        KeptNonZero(all);
        assert kept + [] == kept;
        CStringIs(out[..], kept);
      }
      ok := true;
    }

    /** At least one digit. */
    method SomeDigits() returns (ok: bool)
      requires Valid()
      modifies this`p
      ensures ok <==> ParseDigits(old(Ahead())).Some?
      ensures ok ==> Valid() && old(p) < p && Ahead() == ParseDigits(old(Ahead())).value
    {
      if !IsDigit(Peek()) {
        return false;
      }
      p := p + 1;
      Digits();
      ok := true;
    }

    method Fraction() returns (ok: bool)
      requires Valid()
      modifies this`p
      ensures ok <==> ParseFraction(old(Ahead())).Some?
      ensures ok ==> Valid() && old(p) <= p && Ahead() == ParseFraction(old(Ahead())).value
    {
      ok := true;
      if Peek() == POINT {
        p := p + 1;
        ok := SomeDigits();
      }
    }

    method Exponent() returns (ok: bool)
      requires Valid()
      modifies this`p
      ensures ok <==> ParseExponent(old(Ahead())).Some?
      ensures ok ==> Valid() && old(p) <= p && Ahead() == ParseExponent(old(Ahead())).value
    {
      hide ParseDigits;
      ok := true;
      ghost var all := Ahead();
      if Peek() == 101 || Peek() == 69 {
        p := p + 1;
        assert Ahead() == all[1..];
        assert |all| > 1 ==> text[p + 1..] == all[2..];
        if Peek() == 43 || Peek() == MINUS {
          p := p + 1;
        }
        ok := SomeDigits();
      }
    }

    method Number() returns (ok: bool)
      requires Valid()
      modifies this`p
      ensures ok <==> ParseNumber(old(Ahead())).Some?
      ensures ok ==> Valid() && old(p) < p && Ahead() == ParseNumber(old(Ahead())).value
    {
      if Peek() == MINUS {
        p := p + 1;
      }
      if Peek() == 48 {
        p := p + 1;
      } else {
        ok := SomeDigits();
        if !ok {
          return;
        }
      }
      ok := Fraction();
      if !ok {
        return;
      }
      ok := Exponent();
    }

    method Value() returns (ok: bool)
      requires Valid()
      modifies this`p, this`depth
      ensures ok <==> ParseValue(old(Ahead()), old(depth)).Some?
      ensures ok ==> Valid() && old(p) < p && depth == old(depth)
                     && Ahead() == ParseValue(old(Ahead()), old(depth)).value
      decreases |text| - p, 1
    {
      hide ParseContainer, ParseChars, ParseNumber;
      Ws();
      var c := Peek();
      if c == Open(true) {
        ok := Container(true);
      } else if c == Open(false) {
        ok := Container(false);
      } else if c == QUOTE {
        ok := Str(null);
      } else if StartsWith(TRUE) {
        p, ok := p + 4, true;
      } else if StartsWith(FALSE) {
        p, ok := p + 5, true;
      } else if StartsWith(NULL) {
        p, ok := p + 4, true;
      } else {
        ok := Number();
      }
    }

    method Container(curly: bool) returns (ok: bool)
      requires Valid() && Peek() == Open(curly)
      modifies this`p, this`depth
      ensures ok <==> ParseContainer(old(Ahead()), old(depth), curly).Some?
      ensures ok ==> Valid() && old(p) < p && depth == old(depth)
                     && Ahead() == ParseContainer(old(Ahead()), old(depth), curly).value
      decreases |text| - p, 0
    {
      hide ParseItem;
      depth := depth + 1;
      if depth > MAX_DEPTH {
        return false;
      }
      p := p + 1;
      Ws();
      if Peek() == Close(curly) {
        p, depth := p + 1, depth - 1;
        return true;
      }
      ok := Items(curly);
    }

    method Items(curly: bool) returns (ok: bool)
      requires Valid() && depth > 0
      modifies this`p, this`depth
      ensures ok <==> ParseItems(old(Ahead()), old(depth), curly).Some?
      ensures ok ==> Valid() && old(p) < p && depth == old(depth) - 1
                     && Ahead() == ParseItems(old(Ahead()), old(depth), curly).value
      decreases |text| - p, 3
    {
      hide ParseItem;
      ghost var all := Ahead();
      while true
        invariant Valid() && old(p) <= p && depth == old(depth)
        invariant ParseItems(all, depth, curly) == ParseItems(Ahead(), depth, curly)
        decreases |text| - p
      {
        ok := Item(curly);
        if !ok {
          return;
        }
        Ws();
        if Peek() == Close(curly) {
          p, depth := p + 1, depth - 1;
          return true;
        }
        if Peek() != COMMA {
          p := p + 1;
          return false;
        }
        p := p + 1;
        Ws();
      }
    }

    method Key(out: array?<byte>) returns (ok: bool)
      requires Valid() && (out != null ==> out.Length >= 1)
      modifies this`p, if out == null then {} else {out}
      ensures var r := ParseKey(old(Ahead()));
        && (ok <==> r.Some? && (out != null ==> |r.value.0| < out.Length))
        && (ok ==> Valid() && old(p) < p && Ahead() == r.value.1)
        && (ok && out != null ==> CString(out[..]) == r.value.0)
    {
      hide ParseChars, CString;
      if Peek() != QUOTE {
        return false;
      }
      ok := Str(out);
      if !ok {
        return;
      }
      Ws();
      if Peek() != COLON {
        p := p + 1;
        return false;
      }
      p := p + 1;
      Ws();
    }

    method Item(curly: bool) returns (ok: bool)
      requires Valid()
      modifies this`p, this`depth
      ensures ok <==> ParseItem(old(Ahead()), old(depth), curly).Some?
      ensures ok ==> Valid() && old(p) < p && depth == old(depth)
                     && Ahead() == ParseItem(old(Ahead()), old(depth), curly).value
      decreases |text| - p, 2
    {
      hide ParseValue, ParseKey;
      if curly {
        ok := Key(null);
        if !ok {
          return;
        }
      }
      ok := Value();
    }

    // ---- the stream flags ----

    method Bool() returns (ok: bool, value: bool)
      requires Valid()
      modifies this`p
      ensures ok <==> ParseBool(old(Ahead())).Some?
      ensures ok ==> Valid() && old(p) < p && ParseBool(old(Ahead())) == Some((value, Ahead()))
    {
      if StartsWith(TRUE) {
        p, ok, value := p + 4, true, true;
      } else if StartsWith(FALSE) {
        p, ok, value := p + 5, true, false;
      } else {
        ok, value := false, false;
      }
    }
  }

  /** What the reader's local flags say. */
  function Seen(seen: bool, value: bool): Option<bool> {
    if seen then Some(value) else None
  }

  class FlagReader {
    const r: Reader
    var ready: bool
    var consumed: bool
    var seenReady: bool
    var seenConsumed: bool

    constructor (r: Reader)
      ensures this.r == r && !ready && !consumed && !seenReady && !seenConsumed
    {
      this.r, ready, consumed, seenReady, seenConsumed := r, false, false, false, false;
    }

    /** A flag not seen is false. */
    ghost predicate Unseen()
      reads this
    {
      (seenReady || !ready) && (seenConsumed || !consumed)
    }

    ghost function Flags(): Flags
      reads this
    {
      JsonParser.Flags(Seen(seenReady, ready), Seen(seenConsumed, consumed))
    }

    method Member() returns (ok: bool)
      requires r.Valid() && r.depth == 0 && Unseen()
      modifies this, r
      ensures Unseen()
      ensures ok <==> ParseMember(old(r.Ahead()), old(Flags())).Some?
      ensures ok ==> r.Valid() && r.depth == 0 && old(r.p) < r.p
                     && ParseMember(old(r.Ahead()), old(Flags())) == Some((Flags(), r.Ahead()))
    {
      hide ParseKey, ParseValue, CString;
      var key := new byte[KEY_CAPACITY];
      ok := r.Key(key);
      if !ok {
        return;
      }
      var name := CString(key[..]);
      if name == READY {
        if seenReady {
          return false;
        }
        seenReady := true;
        ok, ready := r.Bool();
      } else if name == CONSUMED {
        if seenConsumed {
          return false;
        }
        seenConsumed := true;
        ok, consumed := r.Bool();
      } else {
        ok := r.Value();
      }
    }

    method Members() returns (ok: bool)
      requires r.Valid() && r.depth == 0 && Unseen()
      modifies this, r
      ensures Unseen()
      ensures ok <==> ParseMembers(old(r.Ahead()), old(Flags())).Some?
      ensures ok ==> r.Valid() && ParseMembers(old(r.Ahead()), old(Flags())) == Some((Flags(), r.Ahead()))
    {
      hide ParseMember;
      ghost var all, start := r.Ahead(), Flags();
      while true
        invariant r.Valid() && r.depth == 0 && Unseen()
        invariant ParseMembers(all, start) == ParseMembers(r.Ahead(), Flags())
        decreases |r.text| - r.p
      {
        ok := Member();
        if !ok {
          return;
        }
        r.Ws();
        if r.Peek() == Close(true) {
          r.p := r.p + 1;
          return true;
        }
        if r.Peek() != COMMA {
          return false;
        }
        r.p := r.p + 1;
        r.Ws();
      }
    }

    method Root() returns (ok: bool)
      requires r.Valid() && r.depth == 0 && r.p == 0 && !seenReady && !seenConsumed && Unseen()
      modifies this, r
      ensures Unseen()
      ensures ok <==> ParseRoot(r.text).Some?
      ensures ok ==> r.Valid() && ParseRoot(r.text) == Some((Flags(), r.Ahead()))
    {
      hide ParseMembers, SkipWs;
      assert r.Ahead() == r.text;
      r.Ws();
      ghost var s := r.Ahead();
      if r.Peek() != Open(true) {
        return false;
      }
      r.p := r.p + 1;
      assert r.Ahead() == s[1..];
      r.Ws();
      ghost var a := r.Ahead();
      if r.Peek() == Close(true) {
        r.p, ok := r.p + 1, true;
        assert r.Ahead() == a[1..];
      } else {
        ok := Members();
      }
    }
  }

  /** The flags of a response, from its text. */
  method StreamFlags(text: seq<byte>) returns (ok: bool, ready: bool, consumed: bool)
    requires forall i | 0 <= i < |text| :: text[i] != 0
    ensures ok <==> ParseFlags(text).Some?
    ensures ok ==> ParseFlags(text) == Some((ready, consumed))
  {
    hide ParseRoot, SkipWs;
    if |text| > MAX_TEXT {
      return false, false, false;
    }
    var r := new Reader(text);
    var flags := new FlagReader(r);
    ok := flags.Root();
    ready, consumed := flags.ready, flags.consumed;
    if ok {
      r.Ws();
      ok := r.Peek() == 0 && !(ready && consumed);
    }
  }
}
