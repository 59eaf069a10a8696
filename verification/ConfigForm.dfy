/** The settings form: percent decoding of keys and values, and what a form may change. */
module ConfigForm {
  import opened Options

  const PROFILES: nat := 5
  const KEY_CAPACITY: nat := 40
  const VALUE_CAPACITY: nat := 256
  const SSID_CAPACITY: nat := 33
  const PASSWORD_CAPACITY: nat := 65
  const GATEWAY_CAPACITY: nat := 192
  const TOKEN_CAPACITY: nat := 192

  // ---- percent decoding ----

  function HexDigit(ch: char): (v: Option<nat>)
    ensures v.Some? ==> v.value < 16
  {
    if '0' <= ch <= '9' then Some((ch - '0') as nat)
    else if 'a' <= ch <= 'f' then Some((ch - 'a') as nat + 10)
    else if 'A' <= ch <= 'F' then Some((ch - 'A') as nat + 10)
    else None
  }

  predicate IsSpace(ch: char) {
    ch == ' ' || '\t' <= ch <= '\r'
  }

  const ULONG: nat := 0x1_0000_0000

  /** strtoul in base 16 on two characters, when it takes both: two digits, or white space or a sign and one. */
  function Strtoul2(a: char, b: char): Option<nat> {
    var hi, lo := HexDigit(a), HexDigit(b);
    if hi.Some? && lo.Some? then Some(16 * hi.value + lo.value)
    else if lo.Some? && (IsSpace(a) || a == '+') then Some(lo.value)
    else if lo.Some? && a == '-' then Some(if lo.value == 0 then 0 else ULONG - lo.value)
    else None
  }

  /** A character a decoded component may hold. */
  predicate Allowed(ch: char) {
    ' ' <= ch && ch != 127 as char
  }

  /** One character, and how many it took. */
  function DecodeChar(src: string): (r: Option<(char, nat)>)
    requires src != ""
    ensures r.Some? ==> 1 <= r.value.1 <= |src|
  {
    if src[0] == '+' then Some((' ', 1))
    else if src[0] == '%' then
      if |src| < 3 then None
      else
        match Strtoul2(src[1], src[2])
        case None => None
        case Some(v) => if v == 0 || v > 255 || !Allowed(v as char) then None else Some((v as char, 3))
    else if !Allowed(src[0]) then None
    else Some((src[0], 1))
  }

  function Decode(src: string): Option<string>
    decreases |src|
  {
    if src == "" then Some("")
    else
      match DecodeChar(src)
      case None => None
      case Some((ch, n)) =>
        match Decode(src[n..])
        case None => None
        case Some(rest) => Some([ch] + rest)
  }

  /** A component that fits with its terminator. */
  function DecodeInto(src: string, capacity: nat): Option<string> {
    match Decode(src)
    case None => None
    case Some(s) => if |s| < capacity then Some(s) else None
  }

  /** The ways to write a character: as itself, a space as a plus, or by its code in two hexadecimal digits. */
  predicate Writes(w: string, ch: char) {
    || (w == [ch] && ch != '+' && ch != '%')
    || (w == "+" && ch == ' ')
    || (|w| == 3 && w[0] == '%' && HexDigit(w[1]).Some? && HexDigit(w[2]).Some?
        && 16 * HexDigit(w[1]).value + HexDigit(w[2]).value == ch as nat)
  }

  function Joined(ws: seq<string>): string {
    if ws == [] then "" else ws[0] + Joined(ws[1..])
  }

  /** Each character written in one of the ways, all joined. */
  predicate Encodes(ws: seq<string>, s: string) {
    |ws| == |s| && forall i | 0 <= i < |s| :: Writes(ws[i], s[i])
  }

  predicate AllAllowed(s: string) {
    forall i | 0 <= i < |s| :: Allowed(s[i])
  }

  lemma {:induction false} DecodeInverts(ws: seq<string>, s: string)
    requires Encodes(ws, s) && AllAllowed(s)
    ensures Decode(Joined(ws)) == Some(s)
    decreases |s|
  {
    if s != "" {
      var w, all := ws[0], Joined(ws);
      assert Writes(w, s[0]) && Allowed(s[0]);
      WrittenDecodes(w, s[0], Joined(ws[1..]));
      assert all[|w|..] == Joined(ws[1..]) && [s[0]] + s[1..] == s;
      DecodeInverts(ws[1..], s[1..]);
    }
  }

  lemma WrittenDecodes(w: string, ch: char, rest: string)
    requires Writes(w, ch) && Allowed(ch)
    ensures DecodeChar(w + rest) == Some((ch, |w|))
  {
    var src := w + rest;
    assert src[0] == w[0];
    if |w| == 3 {
      assert src[1] == w[1] && src[2] == w[2];
      assert (ch as nat) as char == ch;
    }
  }

  /** The decoder takes nothing but such encodings: what else strtoul would read is never an allowed character. */
  lemma {:induction false} DecodeOnlyInverts(src: string) returns (ws: seq<string>)
    requires Decode(src).Some?
    ensures Encodes(ws, Decode(src).value) && Joined(ws) == src && AllAllowed(Decode(src).value)
    decreases |src|
  {
    if src == "" {
      ws := [];
    } else {
      var (ch, n) := DecodeChar(src).value;
      var more := DecodeOnlyInverts(src[n..]);
      ws := [src[..n]] + more;
      assert ws[1..] == more;
      assert src == src[..n] + src[n..];
      DecodedWrites(src);
    }
  }

  lemma DecodedWrites(src: string)
    requires src != "" && DecodeChar(src).Some?
    ensures var (ch, n) := DecodeChar(src).value; Writes(src[..n], ch) && Allowed(ch)
  {
    var (ch, n) := DecodeChar(src).value;
    if n == 3 {
      assert src[..3][1] == src[1] && src[..3][2] == src[2];
      var v := Strtoul2(src[1], src[2]).value;
      assert ' ' as nat == 32 && ch as nat == v;
      assert HexDigit(src[1]).Some?;
    } else {
      assert src[..1] == [src[0]];
    }
  }

  /** The decoding loop, writing into a buffer of the given capacity. */
  method DecodeComponent(src: string, dst: array<char>) returns (ok: bool, used: nat)
    requires dst.Length > 0
    modifies dst
    ensures ok <==> DecodeInto(src, dst.Length).Some?
    ensures ok ==> used < dst.Length && dst[..used] == DecodeInto(src, dst.Length).value && dst[used] == '\0'
  {
    ghost var done := "";
    var i := 0;
    used := 0;
    assert src[0..] == src;
    assert Decode(src).Some? ==> "" + Decode(src).value == Decode(src).value;
    while i < |src|
      invariant i <= |src| && used == |done| < dst.Length && dst[..used] == done
      invariant Decode(src) == Extend(done, Decode(src[i..]))
      decreases |src| - i
    {
      hide DecodeChar;
      var rest := src[i..];
      var r := DecodeChar(rest);
      ExtendStep(done, rest);
      if r.None? {
        return false, used;
      }
      var (ch, n) := r.value;
      if used + 1 >= dst.Length {
        return false, used;
      }
      dst[used] := ch;
      used := used + 1;
      done := done + [ch];
      assert rest[n..] == src[i + n..];
      i := i + n;
    }
    dst[used] := '\0';
    assert src[i..] == "" && done + "" == done;
    ok := true;
  }

  function Extend(done: string, r: Option<string>): Option<string> {
    if r.None? then None else Some(done + r.value)
  }

  lemma ExtendStep(done: string, rest: string)
    requires rest != ""
    ensures var r := DecodeChar(rest);
      Extend(done, Decode(rest)) == if r.None? then None else Extend(done + [r.value.0], Decode(rest[r.value.1..]))
  {
    var r := DecodeChar(rest);
    if r.Some? && Decode(rest[r.value.1..]).Some? {
      var more := Decode(rest[r.value.1..]).value;
      assert done + ([r.value.0] + more) == done + [r.value.0] + more;
    }
  }

  // ---- settings ----

  datatype Profile = Profile(ssid: string, password: string)
  datatype ButtonMode = Toggle | Hold

  datatype Settings = Settings(
    wifi: seq<Profile>, gateway: string, token: string,
    sleepSeconds: nat, wakeEnabled: bool, pauseMs: nat, button: ButtonMode)

  /** Settings as far as a form has changed them, and what it has given so far. */
  datatype Draft = Draft(
    next: Settings, tokenGiven: bool, modeGiven: bool, button: ButtonMode, passwordGiven: seq<bool>, open: seq<bool>)

  predicate Shaped(d: Draft) {
    |d.next.wifi| == PROFILES && |d.passwordGiven| == PROFILES && |d.open| == PROFILES
  }

  function Start(was: Settings): Draft {
    Draft(was, false, false, was.button, seq(PROFILES, _ => false), seq(PROFILES, _ => false))
  }

  /** A number in decimal digits, if it is one. */
  function Number(s: string): Option<nat> {
    if s == "" then Some(0)
    else
      match Number(s[..|s| - 1])
      case None => None
      case Some(n) => if '0' <= s[|s| - 1] <= '9' then Some(10 * n + (s[|s| - 1] - '0') as nat) else None
  }

  function SleepSeconds(s: string): Option<nat> {
    var n := Number(s);
    if s == "" || n.None? || n.value < 5 || n.value > 3600 then None else n
  }

  function PauseSeconds(s: string): Option<nat> {
    var n := Number(s);
    if s == "" || |s| > 2 || n.None? || n.value < 1 || n.value > 10 then None else n
  }

  /** Which slot a Wi-Fi key speaks of, and which of its fields. */
  function WifiKey(key: string): (r: Option<(nat, string)>)
    ensures r.Some? ==> r.value.0 < PROFILES
  {
    if key == "wifi_ssid" then Some((0, "ssid"))
    else if key == "wifi_password" then Some((0, "password"))
    else if |key| < 6 || key[..4] != "wifi" || !('0' <= key[4] < '5') || key[5] != '_' then None
    else Some(((key[4] - '0') as nat, key[6..]))
  }

  function SetProfile(d: Draft, i: nat, p: Profile): Draft
    requires Shaped(d) && i < PROFILES
  {
    d.(next := d.next.(wifi := d.next.wifi[i := p]))
  }

  function ApplyWifi(d: Draft, i: nat, field: string, value: string): (r: Option<Draft>)
    requires Shaped(d) && i < PROFILES
    ensures r.Some? ==> Shaped(r.value)
  {
    var p := d.next.wifi[i];
    if field == "ssid" then
      if |value| >= SSID_CAPACITY then None else Some(SetProfile(d, i, p.(ssid := value)))
    else if field == "password" then
      if value == "" then Some(d)
      else if |value| >= PASSWORD_CAPACITY then None
      else Some(SetProfile(d, i, p.(password := value)).(passwordGiven := d.passwordGiven[i := true]))
    else if field == "open" then
      if value != "0" && value != "1" then None else Some(d.(open := d.open[i := value == "1"]))
    else None
  }

  function Apply(d: Draft, key: string, value: string): (r: Option<Draft>)
    requires Shaped(d)
    ensures r.Some? ==> Shaped(r.value)
  {
    if key == "button_mode" then
      if d.modeGiven || (value != "toggle" && value != "hold") then None
      else Some(d.(modeGiven := true, button := if value == "toggle" then Toggle else Hold))
    else if key == "wake_enabled" then
      if value != "0" && value != "1" then None else Some(d.(next := d.next.(wakeEnabled := value == "1")))
    else if key == "wake_pause_seconds" then
      match PauseSeconds(value) { case None => None case Some(n) => Some(d.(next := d.next.(pauseMs := n * 1000))) }
    else if key == "sleep_timeout_seconds" then
      match SleepSeconds(value) { case None => None case Some(n) => Some(d.(next := d.next.(sleepSeconds := n))) }
    else if |key| >= 4 && key[..4] == "wifi" then
      match WifiKey(key) { case None => None case Some((i, field)) => ApplyWifi(d, i, field, value) }
    else if key == "gateway_url" && value != "" then
      if |value| >= GATEWAY_CAPACITY then None else Some(d.(next := d.next.(gateway := value)))
    else if key == "device_token" && value != "" then
      if |value| >= TOKEN_CAPACITY then None else Some(d.(next := d.next.(token := value), tokenGiven := true))
    else Some(d)
  }

  // ---- the fields of a form ----

  function IndexOf(s: string, ch: char): (i: nat)
    ensures i <= |s| && (i < |s| ==> s[i] == ch) && forall k | 0 <= k < i :: s[k] != ch
  {
    if s == "" || s[0] == ch then 0 else 1 + IndexOf(s[1..], ch)
  }

  datatype Field = Field(key: string, value: string)

  /** A field between two ampersands: None when it is malformed; one without an equals sign is no field. */
  function ParseField(pair: string): Option<Option<Field>> {
    var eq := IndexOf(pair, '=');
    if eq == |pair| then if pair == "button_mode" then None else Some(None)
    else
      match DecodeInto(pair[..eq], KEY_CAPACITY)
      case None => None
      case Some(key) =>
        match DecodeInto(pair[eq + 1..], VALUE_CAPACITY)
        case None => None
        case Some(value) => Some(Some(Field(key, value)))
  }

  /** All the fields of a body, in order. */
  function Fields(body: string): Option<seq<Field>>
    decreases |body|
  {
    if body == "" then Some([])
    else
      var n := IndexOf(body, '&');
      match ParseField(body[..n])
      case None => None
      case Some(f) =>
        match Fields(if n < |body| then body[n + 1..] else "")
        case None => None
        case Some(more) => Some((if f.Some? then [f.value] else []) + more)
  }

  function ApplyAll(d: Draft, fields: seq<Field>): (r: Option<Draft>)
    requires Shaped(d)
    ensures r.Some? ==> Shaped(r.value)
    decreases |fields|
  {
    if fields == [] then Some(d)
    else
      match Apply(d, fields[0].key, fields[0].value)
      case None => None
      case Some(e) => ApplyAll(e, fields[1..])
  }

  /** A slot after the form: an empty or open network has no password, and a renamed one needs a typed one. */
  function CloseSlot(was: Profile, d: Draft, i: nat): Option<Profile>
    requires Shaped(d) && i < PROFILES
  {
    var p := d.next.wifi[i];
    if p.ssid == "" || d.open[i] then Some(p.(password := ""))
    else if was.ssid != p.ssid && !d.passwordGiven[i] then None
    else Some(p)
  }

  function CloseSlots(was: Settings, d: Draft, n: nat): Option<seq<Profile>>
    requires Shaped(d) && |was.wifi| == PROFILES && n <= PROFILES
  {
    if n == 0 then Some([])
    else
      match CloseSlots(was, d, n - 1)
      case None => None
      case Some(front) =>
        match CloseSlot(was.wifi[n - 1], d, n - 1)
        case None => None
        case Some(p) => Some(front + [p])
  }

  function Close(was: Settings, d: Draft, valid: Settings -> bool): Option<Settings>
    requires Shaped(d) && |was.wifi| == PROFILES
  {
    match CloseSlots(was, d, PROFILES)
    case None => None
    case Some(wifi) =>
      var next := d.next.(wifi := wifi);
      if (was.gateway != next.gateway && !d.tokenGiven) || !valid(next) then None
      else Some(next.(button := d.button))
  }

  /** What a form makes of the settings. */
  function Parse(body: string, was: Settings, valid: Settings -> bool): Option<Settings>
    requires |was.wifi| == PROFILES
  {
    match Fields(body)
    case None => None
    case Some(fields) =>
      match ApplyAll(Start(was), fields)
      case None => None
      case Some(d) => Close(was, d, valid)
  }

  // ---- what a form can and cannot do ----

  /** The field types this password for this slot. */
  predicate TypesPassword(f: Field, i: nat, password: string) {
    f.key != "button_mode" && f.value == password && password != "" && |f.key| >= 4 && f.key[..4] == "wifi"
    && WifiKey(f.key) == Some((i, "password"))
  }

  predicate TypesToken(f: Field, token: string) {
    f.key == "device_token" && f.value == token && token != ""
  }

  ghost predicate Typed(fields: seq<Field>, i: nat, password: string) {
    exists k | 0 <= k < |fields| :: TypesPassword(fields[k], i, password)
  }

  ghost predicate TokenTyped(fields: seq<Field>, token: string) {
    exists k | 0 <= k < |fields| :: TypesToken(fields[k], token)
  }

  /** While fields are applied: a given password or token was typed, and what was not given is unchanged. */
  ghost predicate Honest(was: Settings, d: Draft, fields: seq<Field>) {
    && Shaped(d) && |was.wifi| == PROFILES
    && (forall i | 0 <= i < PROFILES && d.passwordGiven[i] :: Typed(fields, i, d.next.wifi[i].password))
    && (forall i | 0 <= i < PROFILES && !d.passwordGiven[i] :: d.next.wifi[i].password == was.wifi[i].password)
    && (if d.tokenGiven then TokenTyped(fields, d.next.token) else d.next.token == was.token)
  }

  lemma StillTyped(fields: seq<Field>, f: Field)
    ensures forall i: nat, p: string | Typed(fields, i, p) :: Typed(fields + [f], i, p)
    ensures forall t: string | TokenTyped(fields, t) :: TokenTyped(fields + [f], t)
    ensures forall i: nat, p: string | TypesPassword(f, i, p) :: Typed(fields + [f], i, p)
    ensures forall t: string | TypesToken(f, t) :: TokenTyped(fields + [f], t)
  {
    var now := fields + [f];
    assert now[|fields|] == f;
    forall i: nat, p: string | Typed(fields, i, p)
      ensures Typed(now, i, p)
    {
      var k :| 0 <= k < |fields| && TypesPassword(fields[k], i, p);
      assert now[k] == fields[k];
    }
    forall t: string | TokenTyped(fields, t)
      ensures TokenTyped(now, t)
    {
      var k :| 0 <= k < |fields| && TypesToken(fields[k], t);
      assert now[k] == fields[k];
    }
  }

  lemma WifiHonest(was: Settings, d: Draft, fields: seq<Field>, f: Field)
    requires Honest(was, d, fields) && |f.key| >= 4 && f.key[..4] == "wifi" && WifiKey(f.key).Some?
    requires var (i, field) := WifiKey(f.key).value; ApplyWifi(d, i, field, f.value).Some?
    ensures var (i, field) := WifiKey(f.key).value; Honest(was, ApplyWifi(d, i, field, f.value).value, fields + [f])
  {
    hide Typed, TokenTyped, WifiKey;
    StillTyped(fields, f);
    var (i, field) := WifiKey(f.key).value;
    var e := ApplyWifi(d, i, field, f.value).value;
    if field == "password" && f.value != "" {
      assert f.key != "button_mode" by {
        assert f.key[0] == 'w';
      }
      assert TypesPassword(f, i, f.value);
      forall j | 0 <= j < PROFILES && e.passwordGiven[j]
        ensures Typed(fields + [f], j, e.next.wifi[j].password)
      {
        assert j != i ==> d.passwordGiven[j] && e.next.wifi[j] == d.next.wifi[j];
      }
    }
  }

  lemma ApplyHonest(was: Settings, d: Draft, fields: seq<Field>, f: Field)
    requires Honest(was, d, fields) && Apply(d, f.key, f.value).Some?
    ensures Honest(was, Apply(d, f.key, f.value).value, fields + [f])
  {
    hide Typed, TokenTyped, Number, SleepSeconds, PauseSeconds, ApplyWifi, WifiKey, Honest;
    if |f.key| >= 4 && f.key[..4] == "wifi" {
      assert f.key[0] == 'w' && f.key[1] == 'i';
      WifiHonest(was, d, fields, f);
    } else {
      OtherHonest(was, d, fields, f);
    }
  }

  lemma OtherHonest(was: Settings, d: Draft, fields: seq<Field>, f: Field)
    requires Honest(was, d, fields) && Apply(d, f.key, f.value).Some? && !(|f.key| >= 4 && f.key[..4] == "wifi")
    ensures Honest(was, Apply(d, f.key, f.value).value, fields + [f])
  {
    hide Typed, TokenTyped, Number, SleepSeconds, PauseSeconds, ApplyWifi, WifiKey;
    StillTyped(fields, f);
    assert f.key == "device_token" && f.value != "" ==> TypesToken(f, f.value);
  }

  lemma {:induction false} ApplyAllHonest(was: Settings, d: Draft, before: seq<Field>, fields: seq<Field>)
    requires Honest(was, d, before) && ApplyAll(d, fields).Some?
    ensures Honest(was, ApplyAll(d, fields).value, before + fields)
    decreases |fields|
  {
    hide Honest, Apply;
    if fields == [] {
      assert before + fields == before;
    } else {
      HonestShape(was, d, before);
      ApplyHonest(was, d, before, fields[0]);
      ApplyAllHonest(was, Apply(d, fields[0].key, fields[0].value).value, before + [fields[0]], fields[1..]);
      assert before + [fields[0]] + fields[1..] == before + fields;
    }
  }

  lemma HonestShape(was: Settings, d: Draft, fields: seq<Field>)
    requires Honest(was, d, fields)
    ensures Shaped(d)
  {
  }

  lemma StartHonest(was: Settings)
    requires |was.wifi| == PROFILES
    ensures Honest(was, Start(was), [])
  {
  }

  lemma {:induction false} CloseSlotsAt(was: Settings, d: Draft, n: nat, i: nat)
    requires Shaped(d) && |was.wifi| == PROFILES && i < n <= PROFILES && CloseSlots(was, d, n).Some?
    ensures |CloseSlots(was, d, n).value| == n && CloseSlot(was.wifi[i], d, i) == Some(CloseSlots(was, d, n).value[i])
    decreases n
  {
    if i < n - 1 {
      CloseSlotsAt(was, d, n - 1, i);
    }
    CloseSlotsLength(was, d, n - 1);
  }

  lemma {:induction false} CloseSlotsLength(was: Settings, d: Draft, n: nat)
    requires Shaped(d) && |was.wifi| == PROFILES && n <= PROFILES && CloseSlots(was, d, n).Some?
    ensures |CloseSlots(was, d, n).value| == n
  {
    if n > 0 {
      CloseSlotsLength(was, d, n - 1);
    }
  }

  /** Whatever fields a form has, in whatever order and however often: after it, a slot's password is empty,
      or was typed in this form for that slot, or is the old one under the old name. */
  lemma PasswordRule(body: string, was: Settings, valid: Settings -> bool, i: nat)
    requires |was.wifi| == PROFILES && i < PROFILES && Parse(body, was, valid).Some?
    ensures var now := Parse(body, was, valid).value;
      && |now.wifi| == PROFILES
      && (|| now.wifi[i].password == ""
          || Typed(Fields(body).value, i, now.wifi[i].password)
          || now.wifi[i] == was.wifi[i])
  {
    hide Typed, TokenTyped, Apply, Fields;
    var fields := Fields(body).value;
    StartHonest(was);
    ApplyAllHonest(was, Start(was), [], fields);
    assert [] + fields == fields;
    CloseSlotsAt(was, ApplyAll(Start(was), fields).value, PROFILES, i);
  }

  /** And the gateway address changes only in a form that also gives a token that is not empty, which is then
      the token kept. */
  lemma TokenRule(body: string, was: Settings, valid: Settings -> bool)
    requires |was.wifi| == PROFILES && Parse(body, was, valid).Some?
    ensures var now := Parse(body, was, valid).value;
      && (now.gateway != was.gateway ==> TokenTyped(Fields(body).value, now.token))
      && (now.token != was.token ==> TokenTyped(Fields(body).value, now.token))
  {
    hide Typed, TokenTyped, Apply, Fields;
    var fields := Fields(body).value;
    StartHonest(was);
    ApplyAllHonest(was, Start(was), [], fields);
    assert [] + fields == fields;
  }

  // ---- the parsing loop ----

  method Find(s: string, ch: char) returns (i: nat)
    ensures i == IndexOf(s, ch)
  {
    i := 0;
    assert s[0..] == s;
    while i < |s| && s[i] != ch
      invariant i <= |s| && IndexOf(s, ch) == i + IndexOf(s[i..], ch)
    {
      assert s[i..][1..] == s[i + 1..];
      i := i + 1;
    }
  }

  /** Decode one field into two buffers. */
  method ReadField(pair: string) returns (r: Option<Option<Field>>)
    ensures r == ParseField(pair)
  {
    hide Decode;
    var eq := Find(pair, '=');
    if eq == |pair| {
      if pair == "button_mode" {
        return None;
      }
      return Some(None);
    }
    var key, value := new char[KEY_CAPACITY], new char[VALUE_CAPACITY];
    var ok, used := DecodeComponent(pair[..eq], key);
    if !ok {
      return None;
    }
    var name := key[..used];
    ok, used := DecodeComponent(pair[eq + 1..], value);
    if !ok {
      return None;
    }
    r := Some(Some(Field(name, value[..used])));
  }

  /** Apply the field at the front of the rest of a body, and say where the next one starts. */
  method TakeField(d: Draft, rest: string, ghost was: Settings, ghost valid: Settings -> bool)
    returns (e: Option<Draft>, next: nat)
    requires Shaped(d) && |was.wifi| == PROFILES && rest != ""
    ensures 0 < next <= |rest|
    ensures e.Some? ==> Shaped(e.value)
    ensures Remaining(d, rest, was, valid) == if e.None? then None else Remaining(e.value, rest[next..], was, valid)
  {
    hide Apply, ParseField, Remaining;
    var n := Find(rest, '&');
    next := if n < |rest| then n + 1 else n;
    RemainingStep(d, rest, was, valid);
    assert n == |rest| ==> rest[n..] == "";
    var f := ReadField(rest[..n]);
    if f.None? {
      return None, next;
    }
    e := Some(d);
    if f.value.Some? {
      e := Apply(d, f.value.value.key, f.value.value.value);
    }
  }

  /** Apply a form to the settings: field by field, then the rules about passwords and the token. */
  method ParseForm(body: string, was: Settings, valid: Settings -> bool) returns (r: Option<Settings>)
    requires |was.wifi| == PROFILES
    ensures r == Parse(body, was, valid)
  {
    RemainingEnds(Start(was), body, was, valid);
    hide Close, Remaining, Parse;
    var d := Start(was);
    var cursor := 0;
    assert body[0..] == body;
    while cursor < |body|
      invariant cursor <= |body| && Shaped(d)
      invariant Parse(body, was, valid) == Remaining(d, body[cursor..], was, valid)
      decreases |body| - cursor
    {
      var e, next := TakeField(d, body[cursor..], was, valid);
      if e.None? {
        return None;
      }
      assert body[cursor..][next..] == body[cursor + next..];
      d, cursor := e.value, cursor + next;
    }
    RemainingEnds(d, body, was, valid);
    assert body[cursor..] == "";
    r := Close(was, d, valid);
  }

  /** What is made of a draft and the rest of a body. */
  ghost function Remaining(d: Draft, rest: string, was: Settings, valid: Settings -> bool): Option<Settings>
    requires Shaped(d) && |was.wifi| == PROFILES
  {
    match Fields(rest)
    case None => None
    case Some(fields) =>
      match ApplyAll(d, fields)
      case None => None
      case Some(e) => Close(was, e, valid)
  }

  lemma RemainingEnds(d: Draft, body: string, was: Settings, valid: Settings -> bool)
    requires Shaped(d) && |was.wifi| == PROFILES
    ensures Remaining(Start(was), body, was, valid) == Parse(body, was, valid)
    ensures Remaining(d, "", was, valid) == Close(was, d, valid)
  {
  }

  lemma RemainingStep(d: Draft, rest: string, was: Settings, valid: Settings -> bool)
    requires Shaped(d) && |was.wifi| == PROFILES && rest != ""
    ensures var n := IndexOf(rest, '&'); var f := ParseField(rest[..n]);
      var more := if n < |rest| then rest[n + 1..] else "";
      Remaining(d, rest, was, valid) ==
        if f.None? then None
        else if f.value.None? then Remaining(d, more, was, valid)
        else var e := Apply(d, f.value.value.key, f.value.value.value);
          if e.None? then None else Remaining(e.value, more, was, valid)
  {
    hide Apply, ParseField, Close, IndexOf;
    var n := IndexOf(rest, '&');
    var f := ParseField(rest[..n]);
    var more := if n < |rest| then rest[n + 1..] else "";
    if f.Some? && Fields(more).Some? {
      var tail := Fields(more).value;
      if f.value.Some? {
        assert ([f.value.value] + tail)[1..] == tail;
      } else {
        assert [] + tail == tail;
      }
    }
  }
}
