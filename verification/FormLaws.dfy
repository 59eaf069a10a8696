/** What a settings form comes to as a whole: which forms are accepted, and that of everything a form may give,
    the last value given is kept and what is not given stays as it was. */
module FormLaws {
  import opened ConfigForm
  import opened Options

  /** What a field can speak of. */
  datatype Key = Mode | Wake | Pause | Sleep | Gateway | Token | Ssid(i: nat) | Password(i: nat) | Open(i: nat)

  /** The keys of a slot are numbered; for the first slot the number may be left out of two of them. */
  predicate SlotKey(key: string, i: nat, what: string) {
    i < PROFILES &&
    (key == "wifi" + ["01234"[i]] + "_" + what || (i == 0 && what != "open" && key == "wifi_" + what))
  }

  /** The field gives a value for this. An empty password, address or token is none given. */
  predicate Gives(f: Field, k: Key) {
    match k
    case Mode => f.key == "button_mode"
    case Wake => f.key == "wake_enabled"
    case Pause => f.key == "wake_pause_seconds"
    case Sleep => f.key == "sleep_timeout_seconds"
    case Gateway => f.key == "gateway_url" && f.value != ""
    case Token => f.key == "device_token" && f.value != ""
    case Ssid(i) => SlotKey(f.key, i, "ssid")
    case Password(i) => SlotKey(f.key, i, "password") && f.value != ""
    case Open(i) => SlotKey(f.key, i, "open")
  }

  predicate NumberIn(v: string, low: nat, high: nat) {
    v != "" && Number(v).Some? && low <= Number(v).value <= high
  }

  predicate ValueOk(k: Key, v: string) {
    match k
    case Mode => v == "toggle" || v == "hold"
    case Wake => v == "0" || v == "1"
    case Open(_) => v == "0" || v == "1"
    case Pause => |v| <= 2 && NumberIn(v, 1, 10)
    case Sleep => NumberIn(v, 5, 3600)
    case Ssid(_) => |v| <= 32
    case Password(_) => |v| <= 64
    case _ => |v| <= 191
  }

  /** The last value the fields give for this. */
  function LastOf(fields: seq<Field>, k: Key): Option<string> {
    if fields == [] then None
    else if Gives(fields[|fields| - 1], k) then Some(fields[|fields| - 1].value)
    else LastOf(fields[..|fields| - 1], k)
  }

  lemma {:induction false} LastMeans(fields: seq<Field>, k: Key)
    ensures LastOf(fields, k).None? <==> forall j | 0 <= j < |fields| :: !Gives(fields[j], k)
    ensures LastOf(fields, k).Some? ==>
              exists j | 0 <= j < |fields| && Gives(fields[j], k) ::
                fields[j].value == LastOf(fields, k).value && forall m | j < m < |fields| :: !Gives(fields[m], k)
    decreases |fields|
  {
    if fields != [] {
      var n := |fields| - 1;
      LastMeans(fields[..n], k);
      if !Gives(fields[n], k) && LastOf(fields[..n], k).Some? {
        var j :| 0 <= j < n && Gives(fields[..n][j], k) && fields[..n][j].value == LastOf(fields[..n], k).value
          && forall m | j < m < n :: !Gives(fields[..n][m], k);
        assert Gives(fields[j], k);
        assert forall m | j < m < |fields| :: !Gives(fields[m], k) by {
          assert forall m | j < m < n :: fields[..n][m] == fields[m];
        }
      } else if Gives(fields[n], k) {
        assert fields[n].value == LastOf(fields, k).value;
      } else {
        assert forall m | 0 <= m < n :: fields[..n][m] == fields[m];
      }
    }
  }

  function Kept(fields: seq<Field>, k: Key, was: string): string {
    if LastOf(fields, k).Some? then LastOf(fields, k).value else was
  }

  function Switched(fields: seq<Field>, k: Key, was: bool): bool {
    if LastOf(fields, k).Some? then LastOf(fields, k).value == "1" else was
  }

  function Counted(fields: seq<Field>, k: Key, unit: nat, was: nat): nat {
    if LastOf(fields, k).Some? && Number(LastOf(fields, k).value).Some?
    then unit * Number(LastOf(fields, k).value).value else was
  }

  // ---- the draft ----

  function DraftOf(fields: seq<Field>, was: Settings): (d: Draft)
    requires |was.wifi| == PROFILES
    ensures Shaped(d)
  {
    Draft(
      Settings(
        seq(PROFILES, i requires 0 <= i < PROFILES && |was.wifi| == PROFILES =>
          Profile(Kept(fields, Ssid(i), was.wifi[i].ssid), Kept(fields, Password(i), was.wifi[i].password))),
        Kept(fields, Gateway, was.gateway), Kept(fields, Token, was.token),
        Counted(fields, Sleep, 1, was.sleepSeconds), Switched(fields, Wake, was.wakeEnabled),
        Counted(fields, Pause, 1000, was.pauseMs), was.button),
      LastOf(fields, Token).Some?, LastOf(fields, Mode).Some?,
      if LastOf(fields, Mode).Some? then if LastOf(fields, Mode).value == "toggle" then Toggle else Hold
      else was.button,
      seq(PROFILES, i requires 0 <= i => LastOf(fields, Password(i)).Some?),
      seq(PROFILES, i requires 0 <= i => Switched(fields, Open(i), false)))
  }

  /** Which of all that a field gives. */
  function KeyOf(f: Field): Option<Key> {
    if f.key == "button_mode" then Some(Mode)
    else if f.key == "wake_enabled" then Some(Wake)
    else if f.key == "wake_pause_seconds" then Some(Pause)
    else if f.key == "sleep_timeout_seconds" then Some(Sleep)
    else if |f.key| >= 4 && f.key[..4] == "wifi" then
      match WifiKey(f.key)
      case None => None
      case Some((i, field)) =>
        if field == "ssid" then Some(Ssid(i))
        else if field == "password" && f.value != "" then Some(Password(i))
        else if field == "open" then Some(Open(i))
        else None
    else if f.key == "gateway_url" && f.value != "" then Some(Gateway)
    else if f.key == "device_token" && f.value != "" then Some(Token)
    else None
  }

  predicate IsWifi(key: string) {
    |key| >= 4 && key[..4] == "wifi"
  }

  lemma SlotKeyIs(key: string, i: nat, what: string)
    requires what == "ssid" || what == "password" || what == "open"
    ensures SlotKey(key, i, what) <==> IsWifi(key) && WifiKey(key) == Some((i, what))
  {
    if SlotKey(key, i, what) && key == "wifi" + ["01234"[i]] + "_" + what {
      assert key[..4] == "wifi" && key[4] == "01234"[i] && key[5] == '_' && key[6..] == what;
      assert key != "wifi_ssid" && key != "wifi_password";
    }
    if IsWifi(key) && WifiKey(key) == Some((i, what)) && key != "wifi_ssid" && key != "wifi_password" {
      assert key[4] == "01234"[i];
      assert key == key[..4] + [key[4]] + [key[5]] + key[6..];
    }
  }

  lemma GivesIs(f: Field, k: Key)
    ensures Gives(f, k) <==> KeyOf(f) == Some(k)
  {
    hide SlotKey, WifiKey;
    assert IsWifi(f.key) ==> f.key[0] == 'w' && f.key[1] == 'i';
    match k
    case Ssid(i) => SlotKeyIs(f.key, i, "ssid");
    case Password(i) => SlotKeyIs(f.key, i, "password");
    case Open(i) => SlotKeyIs(f.key, i, "open");
    case _ =>
  }

  /** A field says nothing it may not: its value is one of those allowed, and a key of a slot is one that is known. */
  predicate FieldOk(f: Field) {
    && (KeyOf(f).Some? ==> ValueOk(KeyOf(f).value, f.value))
    && (IsWifi(f.key) ==> KnownSlotKey(f.key))
  }

  predicate KnownSlotKey(key: string) {
    exists i | 0 <= i < PROFILES :: SlotKey(key, i, "ssid") || SlotKey(key, i, "password") || SlotKey(key, i, "open")
  }

  lemma KnownSlotKeyIs(key: string)
    ensures IsWifi(key) && KnownSlotKey(key) <==>
              IsWifi(key) && WifiKey(key).Some? && WifiKey(key).value.1 in {"ssid", "password", "open"}
  {
    hide SlotKey, WifiKey;
    forall i: nat
      ensures SlotKey(key, i, "ssid") <==> IsWifi(key) && WifiKey(key) == Some((i, "ssid"))
      ensures SlotKey(key, i, "password") <==> IsWifi(key) && WifiKey(key) == Some((i, "password"))
      ensures SlotKey(key, i, "open") <==> IsWifi(key) && WifiKey(key) == Some((i, "open"))
    {
      SlotKeyIs(key, i, "ssid");
      SlotKeyIs(key, i, "password");
      SlotKeyIs(key, i, "open");
    }
    if IsWifi(key) && WifiKey(key).Some? && WifiKey(key).value.1 in {"ssid", "password", "open"} {
      var i := WifiKey(key).value.0;
      assert SlotKey(key, i, "ssid") || SlotKey(key, i, "password") || SlotKey(key, i, "open");
    }
  }

  lemma ApplyWifiByKey(d: Draft, f: Field)
    requires Shaped(d) && IsWifi(f.key)
    ensures Apply(d, f.key, f.value).Some? <==> FieldOk(f)
    ensures Apply(d, f.key, f.value).Some? ==> Apply(d, f.key, f.value).value == Given(d, f)
    ensures KeyOf(f) != Some(Mode)
  {
    hide Number, WifiKey, KnownSlotKey, PauseSeconds, SleepSeconds;
    KnownSlotKeyIs(f.key);
    assert f.key[0] == 'w' && f.key[1] == 'i';
  }

  /** What one more field makes of a draft, by what it gives. */
  lemma ApplyByKey(d: Draft, f: Field)
    requires Shaped(d)
    ensures Apply(d, f.key, f.value).Some? <==> FieldOk(f) && !(KeyOf(f) == Some(Mode) && d.modeGiven)
    ensures Apply(d, f.key, f.value).Some? ==> Apply(d, f.key, f.value).value == Given(d, f)
  {
    if IsWifi(f.key) {
      hide KeyOf, FieldOk, Given, Apply;
      ApplyWifiByKey(d, f);
    } else {
      hide Number, KnownSlotKey, ApplyWifi, WifiKey;
    }
  }

  function Given(d: Draft, f: Field): (e: Draft)
    requires Shaped(d)
    ensures Shaped(e)
  {
    match KeyOf(f)
    case None => d
    case Some(Mode) => d.(modeGiven := true, button := if f.value == "toggle" then Toggle else Hold)
    case Some(Wake) => d.(next := d.next.(wakeEnabled := f.value == "1"))
    case Some(Pause) =>
      d.(next := d.next.(pauseMs := if Number(f.value).Some? then 1000 * Number(f.value).value else d.next.pauseMs))
    case Some(Sleep) =>
      d.(next := d.next.(sleepSeconds := if Number(f.value).Some? then Number(f.value).value else d.next.sleepSeconds))
    case Some(Gateway) => d.(next := d.next.(gateway := f.value))
    case Some(Token) => d.(next := d.next.(token := f.value), tokenGiven := true)
    case Some(Ssid(i)) => if i < PROFILES then SetProfile(d, i, d.next.wifi[i].(ssid := f.value)) else d
    case Some(Password(i)) =>
      if i < PROFILES
      then SetProfile(d, i, d.next.wifi[i].(password := f.value)).(passwordGiven := d.passwordGiven[i := true]) else d
    case Some(Open(i)) => if i < PROFILES then d.(open := d.open[i := f.value == "1"]) else d
  }

  lemma LastSnoc(fields: seq<Field>, f: Field, k: Key)
    ensures LastOf(fields + [f], k) == if KeyOf(f) == Some(k) then Some(f.value) else LastOf(fields, k)
  {
    hide KeyOf, Gives;
    GivesIs(f, k);
    assert (fields + [f])[..|fields|] == fields;
  }

  /** Only allowed values have been given. */
  ghost predicate ValuesOk(fields: seq<Field>) {
    forall k: Key | LastOf(fields, k).Some? :: ValueOk(k, LastOf(fields, k).value)
  }

  lemma ValuesSnoc(fields: seq<Field>, f: Field)
    requires ValuesOk(fields) && FieldOk(f)
    ensures ValuesOk(fields + [f])
  {
    hide KeyOf, LastOf, KnownSlotKey, ValueOk;
    forall k: Key | LastOf(fields + [f], k).Some?
      ensures ValueOk(k, LastOf(fields + [f], k).value)
    {
      LastSnoc(fields, f, k);
    }
  }

  lemma KeptSnoc(fields: seq<Field>, f: Field, k: Key, was: string, flag: bool)
    ensures Kept(fields + [f], k, was) == if KeyOf(f) == Some(k) then f.value else Kept(fields, k, was)
    ensures Switched(fields + [f], k, flag) == if KeyOf(f) == Some(k) then f.value == "1" else Switched(fields, k, flag)
    ensures LastOf(fields + [f], k).Some? == (KeyOf(f) == Some(k) || LastOf(fields, k).Some?)
  {
    hide KeyOf, LastOf;
    LastSnoc(fields, f, k);
  }

  lemma GivenSlot(d: Draft, f: Field, i: nat)
    requires Shaped(d) && i < PROFILES
    ensures var e, p, k := Given(d, f), d.next.wifi[i], KeyOf(f);
      e.next.wifi[i] == Profile(if k == Some(Ssid(i)) then f.value else p.ssid,
                                if k == Some(Password(i)) then f.value else p.password)
  {
    hide KeyOf, Number;
  }

  lemma GivenFlags(d: Draft, f: Field, i: nat)
    requires Shaped(d) && i < PROFILES
    ensures var e, k := Given(d, f), KeyOf(f);
      && e.passwordGiven[i] == (k == Some(Password(i)) || d.passwordGiven[i])
      && e.open[i] == (if k == Some(Open(i)) then f.value == "1" else d.open[i])
  {
    hide KeyOf, Number;
  }

  lemma DraftSlot(fields: seq<Field>, was: Settings, i: nat)
    requires |was.wifi| == PROFILES && i < PROFILES
    ensures var d, p := DraftOf(fields, was), was.wifi[i];
      && d.next.wifi[i] == Profile(Kept(fields, Ssid(i), p.ssid), Kept(fields, Password(i), p.password))
      && d.passwordGiven[i] == LastOf(fields, Password(i)).Some? && d.open[i] == Switched(fields, Open(i), false)
  {
    hide LastOf, Kept, Switched, Counted;
  }

  lemma SlotSnoc(fields: seq<Field>, f: Field, was: Settings, i: nat)
    requires |was.wifi| == PROFILES && i < PROFILES
    ensures var d, e := DraftOf(fields + [f], was), Given(DraftOf(fields, was), f);
      d.next.wifi[i] == e.next.wifi[i] && d.passwordGiven[i] == e.passwordGiven[i] && d.open[i] == e.open[i]
  {
    hide KeyOf, LastOf, Kept, Switched, DraftOf, Given;
    GivenSlot(DraftOf(fields, was), f, i);
    GivenFlags(DraftOf(fields, was), f, i);
    DraftSlot(fields, was, i);
    DraftSlot(fields + [f], was, i);
    KeptSnoc(fields, f, Ssid(i), was.wifi[i].ssid, false);
    KeptSnoc(fields, f, Password(i), was.wifi[i].password, false);
    KeptSnoc(fields, f, Open(i), "", false);
  }

  lemma TextsSnoc(fields: seq<Field>, f: Field, was: Settings)
    requires |was.wifi| == PROFILES
    ensures var d, e := DraftOf(fields + [f], was), Given(DraftOf(fields, was), f);
      && d.next.gateway == e.next.gateway && d.next.token == e.next.token && d.tokenGiven == e.tokenGiven
      && d.modeGiven == e.modeGiven && d.button == e.button && d.next.button == e.next.button
      && d.next.wakeEnabled == e.next.wakeEnabled
  {
    hide KeyOf, LastOf, Number, Kept, Switched, Counted;
    LastSnoc(fields, f, Mode);
    KeptSnoc(fields, f, Wake, "", was.wakeEnabled);
    KeptSnoc(fields, f, Gateway, was.gateway, false);
    KeptSnoc(fields, f, Token, was.token, false);
  }

  lemma NumbersSnoc(fields: seq<Field>, f: Field, was: Settings)
    requires |was.wifi| == PROFILES && FieldOk(f) && ValuesOk(fields)
    ensures var d, e := DraftOf(fields + [f], was), Given(DraftOf(fields, was), f);
      d.next.pauseMs == e.next.pauseMs && d.next.sleepSeconds == e.next.sleepSeconds
  {
    hide KeyOf, LastOf, Number, KnownSlotKey;
    LastSnoc(fields, f, Pause);
    LastSnoc(fields, f, Sleep);
  }

  lemma DraftSnoc(fields: seq<Field>, f: Field, was: Settings)
    requires |was.wifi| == PROFILES && FieldOk(f) && ValuesOk(fields)
    ensures DraftOf(fields + [f], was) == Given(DraftOf(fields, was), f)
  {
    hide DraftOf, Given, FieldOk, ValuesOk;
    TextsSnoc(fields, f, was);
    NumbersSnoc(fields, f, was);
    forall i: nat | i < PROFILES
      ensures var d, e := DraftOf(fields + [f], was), Given(DraftOf(fields, was), f);
        d.next.wifi[i] == e.next.wifi[i] && d.passwordGiven[i] == e.passwordGiven[i] && d.open[i] == e.open[i]
    {
      SlotSnoc(fields, f, was, i);
    }
    var d, e := DraftOf(fields + [f], was), Given(DraftOf(fields, was), f);
    assert d.next.wifi == e.next.wifi && d.passwordGiven == e.passwordGiven && d.open == e.open;
  }

  // ---- the whole form ----

  /** Every field is in order, and the button mode is given at most once. */
  predicate AllOk(fields: seq<Field>) {
    && (forall j | 0 <= j < |fields| :: FieldOk(fields[j]))
    && (forall j, k | 0 <= j < k < |fields| :: !(Gives(fields[j], Mode) && Gives(fields[k], Mode)))
  }

  lemma AllOkSnoc(fields: seq<Field>, f: Field)
    ensures AllOk(fields + [f]) <==>
              AllOk(fields) && FieldOk(f) && !(KeyOf(f) == Some(Mode) && LastOf(fields, Mode).Some?)
  {
    hide FieldOk, Gives, LastOf;
    LastMeans(fields, Mode);
    GivesIs(f, Mode);
    var all := fields + [f];
    assert all[|fields|] == f;
    assert forall j | 0 <= j < |fields| :: all[j] == fields[j];
  }

  lemma {:induction false} ApplySnoc(d: Draft, fields: seq<Field>, f: Field)
    requires Shaped(d)
    ensures ApplyAll(d, fields + [f]) == match ApplyAll(d, fields)
      case None => None
      case Some(e) => Apply(e, f.key, f.value)
    decreases |fields|
  {
    hide Apply;
    if fields == [] {
      assert ([] + [f])[1..] == [];
    } else {
      assert (fields + [f])[1..] == fields[1..] + [f];
      var e := Apply(d, fields[0].key, fields[0].value);
      if e.Some? {
        ApplySnoc(e.value, fields[1..], f);
      }
    }
  }

  lemma {:induction false} AppliedIs(fields: seq<Field>, was: Settings)
    requires |was.wifi| == PROFILES
    ensures ApplyAll(Start(was), fields) == if AllOk(fields) then Some(DraftOf(fields, was)) else None
    ensures AllOk(fields) ==> ValuesOk(fields)
    decreases |fields|
  {
    if fields == [] {
      NothingGiven(was);
    } else {
      hide Apply, ApplyAll, AllOk, FieldOk, ValuesOk, DraftOf, Given, KeyOf;
      var front, f := fields[..|fields| - 1], fields[|fields| - 1];
      assert fields == front + [f];
      AppliedIs(front, was);
      ApplySnoc(Start(was), front, f);
      AllOkSnoc(front, f);
      if AllOk(front) {
        ApplyByKey(DraftOf(front, was), f);
        DraftModes(front, was);
        if FieldOk(f) {
          ValuesSnoc(front, f);
          DraftSnoc(front, f, was);
        }
      }
    }
  }

  lemma DraftModes(fields: seq<Field>, was: Settings)
    requires |was.wifi| == PROFILES
    ensures DraftOf(fields, was).modeGiven == LastOf(fields, Mode).Some?
  {
  }

  lemma NothingGiven(was: Settings)
    requires |was.wifi| == PROFILES
    ensures DraftOf([], was) == Start(was)
  {
    assert DraftOf([], was).next.wifi == was.wifi;
    assert DraftOf([], was).passwordGiven == Start(was).passwordGiven;
    assert DraftOf([], was).open == Start(was).open;
  }

  /** A slot as the fields leave it: the last name, and the last password unless the network has none. */
  function Slot(fields: seq<Field>, i: nat, was: Profile): Profile {
    var ssid := Kept(fields, Ssid(i), was.ssid);
    var open := ssid == "" || Switched(fields, Open(i), false);
    Profile(ssid, if open then "" else Kept(fields, Password(i), was.password))
  }

  /** The settings as the fields leave them, each the last one given. */
  function Meant(fields: seq<Field>, was: Settings): Settings
    requires |was.wifi| == PROFILES
  {
    Settings(
      seq(PROFILES, i requires 0 <= i < PROFILES && |was.wifi| == PROFILES => Slot(fields, i, was.wifi[i])),
      Kept(fields, Gateway, was.gateway), Kept(fields, Token, was.token),
      Counted(fields, Sleep, 1, was.sleepSeconds), Switched(fields, Wake, was.wakeEnabled),
      Counted(fields, Pause, 1000, was.pauseMs),
      if LastOf(fields, Mode).Some? then if LastOf(fields, Mode).value == "toggle" then Toggle else Hold
      else was.button)
  }

  /** A renamed network comes with a password, or needs none. */
  predicate SlotOk(fields: seq<Field>, i: nat, was: Profile) {
    var ssid := Kept(fields, Ssid(i), was.ssid);
    ssid == was.ssid || ssid == "" || Switched(fields, Open(i), false) || LastOf(fields, Password(i)).Some?
  }

  /** What a form has to observe as a whole. The settings are validated under the old button mode. */
  predicate FormOk(fields: seq<Field>, was: Settings, valid: Settings -> bool)
    requires |was.wifi| == PROFILES
  {
    && AllOk(fields) && (forall i | 0 <= i < PROFILES :: SlotOk(fields, i, was.wifi[i]))
    && (Kept(fields, Gateway, was.gateway) == was.gateway || LastOf(fields, Token).Some?)
    && valid(Meant(fields, was).(button := was.button))
  }

  lemma ClosedSlot(fields: seq<Field>, was: Settings, i: nat)
    requires |was.wifi| == PROFILES && i < PROFILES
    ensures CloseSlot(was.wifi[i], DraftOf(fields, was), i) ==
      if SlotOk(fields, i, was.wifi[i]) then Some(Slot(fields, i, was.wifi[i])) else None
  {
    hide DraftOf, LastOf, Kept, Switched;
    DraftSlot(fields, was, i);
  }

  lemma {:induction false} ClosedSlots(fields: seq<Field>, was: Settings, n: nat)
    requires |was.wifi| == PROFILES && n <= PROFILES
    ensures CloseSlots(was, DraftOf(fields, was), n) ==
      if forall i | 0 <= i < n :: SlotOk(fields, i, was.wifi[i]) then Some(Meant(fields, was).wifi[..n]) else None
    decreases n
  {
    hide DraftOf, CloseSlot, Slot, SlotOk, LastOf, Kept, Switched, Counted;
    if n > 0 {
      ClosedSlots(fields, was, n - 1);
      ClosedSlot(fields, was, n - 1);
      var wifi := Meant(fields, was).wifi;
      assert wifi[..n] == wifi[..n - 1] + [wifi[n - 1]];
    }
  }

  /** A form is accepted exactly when it is in order, and then everything it gives is kept as it was last given,
      and everything else as it was. */
  lemma FormMeans(body: string, was: Settings, valid: Settings -> bool)
    requires |was.wifi| == PROFILES
    ensures Parse(body, was, valid) ==
      if Fields(body).Some? && FormOk(Fields(body).value, was, valid) then Some(Meant(Fields(body).value, was))
      else None
  {
    hide Fields, AllOk, ApplyAll, LastOf, Kept, Counted, Switched, SlotOk, Slot, CloseSlots;
    if Fields(body).Some? {
      var fields := Fields(body).value;
      AppliedIs(fields, was);
      ClosedSlots(fields, was, PROFILES);
      var wifi := Meant(fields, was).wifi;
      assert wifi[..PROFILES] == wifi;
    }
  }

  // ---- the text of a form ----

  /** A field as it can be sent: its key and value in an encoding without separators. */
  datatype Sent = Sent(field: Field, key: seq<string>, value: seq<string>) {
    predicate Valid() {
      && Encodes(key, field.key) && Encodes(value, field.value) && AllAllowed(field.key) && AllAllowed(field.value)
      && |field.key| < KEY_CAPACITY && |field.value| < VALUE_CAPACITY
      && (forall c | c in Joined(key) :: c != '=' && c != '&') && (forall c | c in Joined(value) :: c != '&')
    }

    function Text(): string {
      Joined(key) + "=" + Joined(value)
    }
  }

  function Body(sent: seq<Sent>): string {
    if sent == [] then "" else if |sent| == 1 then sent[0].Text() else sent[0].Text() + "&" + Body(sent[1..])
  }

  lemma FirstAt(before: string, ch: char, after: string)
    requires ch !in before
    ensures var s := before + [ch] + after;
      && IndexOf(s, ch) == |before| && s[..|before|] == before && s[|before| + 1..] == after
    ensures IndexOf(before, ch) == |before|
  {
    var s := before + [ch] + after;
    assert forall k | 0 <= k < |before| :: s[k] == before[k];
    assert s[|before|] == ch;
    assert IndexOf(s, ch) <= |s|;
    assert forall k | 0 <= k < |before| :: before[k] in before;
  }

  lemma OneSent(s: Sent)
    requires s.Valid()
    ensures ParseField(s.Text()) == Some(Some(s.field)) && '&' !in s.Text()
  {
    hide Encodes, AllAllowed, Joined, Decode, IndexOf;
    FirstAt(Joined(s.key), '=', Joined(s.value));
    DecodeInverts(s.key, s.field.key);
    DecodeInverts(s.value, s.field.value);
  }

  function FieldsOf(sent: seq<Sent>): seq<Field> {
    if sent == [] then [] else [sent[0].field] + FieldsOf(sent[1..])
  }

  lemma FieldsStep(text: string, more: string, last: bool)
    requires '&' !in text && text != "" && (last ==> more == "")
    ensures Fields(if last then text else text + "&" + more) ==
      match ParseField(text)
      case None => None
      case Some(f) =>
        match Fields(more)
        case None => None
        case Some(fs) => Some((if f.Some? then [f.value] else []) + fs)
  {
    hide ParseField, IndexOf;
    FirstAt(text, '&', more);
    assert text[..|text|] == text;
    assert text + "&" + more == text + ['&'] + more;
  }

  /** The fields that are sent are the fields that are read. */
  lemma {:induction false} FieldsRoundTrip(sent: seq<Sent>)
    requires forall s | s in sent :: s.Valid()
    ensures Fields(Body(sent)) == Some(FieldsOf(sent))
    decreases |sent|
  {
    if sent != [] {
      hide ParseField, Sent.Valid, Fields;
      var s := sent[0];
      assert s in sent;
      OneSent(s);
      FieldsRoundTrip(sent[1..]);
      FieldsStep(s.Text(), Body(sent[1..]), |sent| == 1);
    } else {
      assert Fields("") == Some([]);
    }
  }

  // ---- numbers ----

  function Digits(n: nat): string {
    if n < 10 then ["0123456789"[n]] else Digits(n / 10) + ["0123456789"[n % 10]]
  }

  /** A number reads as what its digits say. */
  lemma {:induction false} NumberReads(n: nat)
    ensures Number(Digits(n)) == Some(n)
  {
    var s := Digits(n);
    if n >= 10 {
      NumberReads(n / 10);
      assert s[..|s| - 1] == Digits(n / 10);
    } else {
      assert s[..0] == "";
    }
  }
}
