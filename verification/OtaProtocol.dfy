/** Installing releases over the air, across any number of boots: two image slots, a bootloader that gives
    a new image one trial boot, and two persistent markers. The power may fail between any two writes. */
module OtaProtocol {
  import opened Options

  // ---- the decision ----

  datatype Offer = Offer(
    current: nat, rejected: nat, candidate: nat, size: nat, slotSize: nat,
    networkReady: bool, idle: bool, usbPowered: bool, signed: bool, compatible: bool)

  datatype Decision = Ignore | Defer | Install

  function Decide(o: Offer): Decision {
    if !o.signed || !o.compatible || o.candidate <= o.current || o.candidate <= o.rejected
       || o.size == 0 || o.size > o.slotSize then Ignore
    else if !o.networkReady || !o.idle || !o.usbPowered then Defer
    else Install
  }

  // ---- flash, bootloader and device ----

  datatype ImageState = New | Pending | Valid | Aborted
  datatype Slot = Empty | Image(release: nat, state: ImageState)

  /** What survives a power cut: two slots, which one boots, and the two markers. */
  datatype Flash = Flash(first: Slot, second: Slot, boot: bool, attempted: nat, rejected: nat)

  /** What a running release holds in memory. */
  datatype Memory = Memory(slot: bool, confirmed: bool, disabled: bool, rejected: nat)

  datatype Happening = RolledBack(release: nat) | Installed(release: nat, running: nat, rejected: nat)

  datatype Device = Device(flash: Flash, ram: Option<Memory>, log: seq<Happening>)

  function Get(f: Flash, slot: bool): Slot {
    if slot then f.second else f.first
  }

  function Put(f: Flash, slot: bool, image: Slot): Flash {
    if slot then f.(second := image) else f.(first := image)
  }

  /** Start an image: a new one is now on trial. */
  function Launch(d: Device, slot: bool): Device {
    match Get(d.flash, slot)
    case Image(release, Valid) => d.(ram := Some(Memory(slot, false, false, 0)))
    case Image(release, New) =>
      d.(flash := Put(d.flash, slot, Image(release, Pending)), ram := Some(Memory(slot, false, false, 0)))
    case _ => d.(ram := None)
  }

  /** A reset: an image whose trial boot was not confirmed is given up for the other slot. */
  function Boot(d: Device): Device {
    match Get(d.flash, d.flash.boot)
    case Image(release, Pending) =>
      var f := Put(d.flash, d.flash.boot, Image(release, Aborted)).(boot := !d.flash.boot);
      Launch(Device(f, None, d.log + [RolledBack(release)]), !d.flash.boot)
    case _ => Launch(d, d.flash.boot)
  }

  // ---- confirming a boot ----

  /** How one call of the confirmation goes. `writes` is how many flash writes are made before the power
      fails, if it fails at all. */
  datatype Confirmation = Confirmation(
    readable: bool, ready: bool, selfTest: bool, marked: bool,
    rejectWritten: bool, clearWritten: bool, writes: Option<nat>)

  function Cut(d: Device): Device {
    d.(ram := None)
  }

  predicate CutBefore(c: Confirmation, write: nat) {
    c.writes.Some? && c.writes.value <= write
  }

  function Confirm(d: Device, c: Confirmation): Device {
    if d.ram.None? || d.ram.value.confirmed || Get(d.flash, d.ram.value.slot).Empty? then d
    else
      var m := d.ram.value;
      var image := Get(d.flash, m.slot);
      if !c.readable then
        if image.state == Pending then d else d.(ram := Some(m.(disabled := true, confirmed := true)))
      else if image.state == Pending then ConfirmTrial(d, c)
      else if d.flash.attempted > image.release then ConfirmRollback(d, c)
      else ClearAttempt(d.(ram := Some(m.(rejected := d.flash.rejected))), c, 0)
  }

  /** A new image has passed its test: the trial is over, then the marker is cleared. */
  function ConfirmTrial(d: Device, c: Confirmation): Device
    requires d.ram.Some? && Get(d.flash, d.ram.value.slot).Image?
  {
    var m := d.ram.value.(rejected := d.flash.rejected);
    if !c.ready || !c.selfTest || !c.marked then d.(ram := Some(m))
    else if CutBefore(c, 0) then Cut(d)
    else
      var f := Put(d.flash, m.slot, Image(Get(d.flash, m.slot).release, Valid));
      ClearAttempt(d.(flash := f, ram := Some(m)), c, 1)
  }

  /** The attempted release is not the one that runs: it was rolled back, and is rejected for good. */
  function ConfirmRollback(d: Device, c: Confirmation): Device
    requires d.ram.Some?
  {
    var m := d.ram.value.(rejected := d.flash.attempted);
    if CutBefore(c, 0) then Cut(d)
    else if !c.rejectWritten then d.(ram := Some(m.(disabled := true, confirmed := true)))
    else ClearAttempt(d.(flash := d.flash.(rejected := d.flash.attempted), ram := Some(m)), c, 1)
  }

  function ClearAttempt(d: Device, c: Confirmation, write: nat): Device
    requires d.ram.Some?
  {
    var m := d.ram.value;
    if d.flash.attempted == 0 then d.(ram := Some(m.(confirmed := true)))
    else if CutBefore(c, write) then Cut(d)
    else if !c.clearWritten then d.(ram := Some(m.(disabled := true, confirmed := true)))
    else d.(flash := d.flash.(attempted := 0), ram := Some(m.(confirmed := true)))
  }

  // ---- installing ----

  /** How an installation ends. */
  datatype Outcome =
    | DownloadFailed       // or cut: the other slot is spoilt, nothing is selected
    | SelectFailed
    | Marked               // selected, the attempt noted, and the device restarts
    | CutBeforeMark        // the power fails between the selection and the note
    | MarkFailedRestored   // the note cannot be written and the running slot is selected again
    | MarkFailedStuck      // nor can that

  /** The platform: does selecting the running slot again put it back on trial? */
  datatype Platform = Platform(renews: bool)

  predicate MayInstall(d: Device, o: Offer) {
    && d.ram.Some? && d.ram.value.confirmed && !d.ram.value.disabled
    && Get(d.flash, d.ram.value.slot).Image? && o.current == Get(d.flash, d.ram.value.slot).release
    && o.rejected == d.ram.value.rejected && Decide(o) == Install
  }

  function TryInstall(p: Platform, d: Device, o: Offer, how: Outcome): Device {
    if !MayInstall(d, o) then d
    else
      var m := d.ram.value;
      var running := Get(d.flash, m.slot);
      if how == DownloadFailed then d.(flash := Put(d.flash, !m.slot, Empty))
      else if how == SelectFailed then d.(flash := Put(d.flash, !m.slot, Image(o.candidate, Aborted)))
      else
        var f := Put(d.flash, !m.slot, Image(o.candidate, New)).(boot := !m.slot);
        var log := d.log + [Installed(o.candidate, running.release, d.flash.rejected)];
        match how
        case CutBeforeMark => Device(f, None, log)
        case MarkFailedStuck => Device(f, d.ram, log)
        case MarkFailedRestored =>
          var back := if p.renews then Image(running.release, New) else running;
          Device(Put(f, m.slot, back).(boot := m.slot), d.ram, log)
        case _ => Device(f.(attempted := o.candidate), None, log)
  }

  datatype Step = Reset | ConfirmBoot(c: Confirmation) | TakeOffer(o: Offer, how: Outcome)

  function Next(p: Platform, d: Device, s: Step): Device {
    match s
    case Reset => Boot(d.(ram := None))
    case ConfirmBoot(c) => Confirm(d, c)
    case TakeOffer(o, how) => TryInstall(p, d, o, how)
  }

  function Run(p: Platform, d: Device, steps: seq<Step>): Device
    decreases |steps|
  {
    if steps == [] then d else Run(p, Next(p, d, steps[0]), steps[1..])
  }

  /** A device as it leaves the bench: one confirmed release and no markers. */
  function Factory(seq0: nat): Device {
    Device(Flash(Image(seq0, Valid), Empty, false, 0, 0), None, [])
  }

  // ---- the invariant ----

  function Selected(d: Device): Slot {
    Get(d.flash, d.flash.boot)
  }

  function Spare(d: Device): Slot {
    Get(d.flash, !d.flash.boot)
  }

  predicate Settled(image: Slot) {
    image.Image? && image.state == Valid
  }

  predicate OnTrial(image: Slot) {
    image.Image? && (image.state == New || image.state == Pending)
  }

  /** The attempted release is not the one selected: it was rolled back. */
  predicate Reverted(d: Device) {
    Settled(Selected(d)) && d.flash.attempted > Selected(d).release
  }

  /** What is or is about to be rejected. */
  function Floor(d: Device): nat {
    if Reverted(d) then d.flash.attempted else d.flash.rejected
  }

  /** The selected image is settled, or it is on trial with its attempt noted and a settled one to go back to. */
  predicate Placed(d: Device) {
    && (Settled(Selected(d)) || OnTrial(Selected(d)))
    && (Reverted(d) ==> d.flash.attempted >= d.flash.rejected)
    && (OnTrial(Selected(d)) ==>
          && d.flash.attempted == Selected(d).release && d.flash.attempted > d.flash.rejected
          && Settled(Spare(d)) && Spare(d).release < d.flash.attempted)
  }

  /** Every release that was rolled back is at or below the floor. */
  predicate Remembered(d: Device) {
    forall i | 0 <= i < |d.log| && d.log[i].RolledBack? :: d.log[i].release <= Floor(d)
  }

  /** A device that may take offers runs a settled release, has nothing noted and knows what is rejected. */
  predicate Awake(d: Device) {
    d.ram.Some? ==>
      && d.ram.value.slot == d.flash.boot && Selected(d).Image? && Selected(d).state != New
      && (d.ram.value.confirmed && !d.ram.value.disabled ==>
            Settled(Selected(d)) && d.flash.attempted == 0 && d.ram.value.rejected == d.flash.rejected)
  }

  /** No installed release is one that was rolled back before, and each is newer than what ran and was rejected. */
  predicate NeverAgain(log: seq<Happening>) {
    && (forall i, j | 0 <= i < j < |log| && log[i].RolledBack? && log[j].Installed? :: log[j].release > log[i].release)
    && (forall j | 0 <= j < |log| && log[j].Installed? ::
          log[j].release > log[j].running && log[j].release > log[j].rejected)
  }

  predicate Inv(d: Device) {
    Placed(d) && Remembered(d) && Awake(d) && NeverAgain(d.log)
  }

  /** The marker is written, or what was selected is taken back, and taking it back costs nothing. */
  predicate CarefulOutcome(p: Platform, how: Outcome) {
    how == DownloadFailed || how == SelectFailed || how == Marked || (how == MarkFailedRestored && !p.renews)
  }

  predicate Careful(p: Platform, s: Step) {
    s.TakeOffer? ==> CarefulOutcome(p, s.how)
  }

  lemma BootKeeps(d: Device)
    requires Inv(d)
    ensures Inv(Boot(d.(ram := None))) && d.flash.rejected <= Boot(d.(ram := None)).flash.rejected
  {
  }

  lemma ClearKeeps(d: Device, c: Confirmation, write: nat)
    requires Inv(d) && d.ram.Some? && Settled(Selected(d)) && d.ram.value.rejected == d.flash.rejected
    requires Floor(d) == d.flash.rejected
    ensures Inv(ClearAttempt(d, c, write)) && d.flash.rejected <= ClearAttempt(d, c, write).flash.rejected
  {
  }

  lemma TrialKeeps(d: Device, c: Confirmation)
    requires Inv(d) && d.ram.Some? && OnTrial(Selected(d))
    ensures Inv(ConfirmTrial(d, c)) && d.flash.rejected <= ConfirmTrial(d, c).flash.rejected
  {
    hide ClearAttempt;
    if c.ready && c.selfTest && c.marked && !CutBefore(c, 0) {
      var m := d.ram.value.(rejected := d.flash.rejected);
      var f := Put(d.flash, m.slot, Image(Selected(d).release, Valid));
      ClearKeeps(d.(flash := f, ram := Some(m)), c, 1);
    }
  }

  lemma RollbackKeeps(d: Device, c: Confirmation)
    requires Inv(d) && d.ram.Some? && Reverted(d) && !d.ram.value.confirmed
    ensures Inv(ConfirmRollback(d, c)) && d.flash.rejected <= ConfirmRollback(d, c).flash.rejected
  {
    hide ClearAttempt;
    if !CutBefore(c, 0) && c.rejectWritten {
      var m := d.ram.value.(rejected := d.flash.attempted);
      ClearKeeps(d.(flash := d.flash.(rejected := d.flash.attempted), ram := Some(m)), c, 1);
    }
  }

  lemma ConfirmKeeps(d: Device, c: Confirmation)
    requires Inv(d)
    ensures Inv(Confirm(d, c)) && d.flash.rejected <= Confirm(d, c).flash.rejected
  {
    hide ConfirmTrial, ConfirmRollback, ClearAttempt;
    if d.ram.Some? && !d.ram.value.confirmed && c.readable {
      if OnTrial(Selected(d)) {
        TrialKeeps(d, c);
      } else if Reverted(d) {
        RollbackKeeps(d, c);
      } else {
        ClearKeeps(d.(ram := Some(d.ram.value.(rejected := d.flash.rejected))), c, 0);
      }
    }
  }

  lemma InstallKeeps(p: Platform, d: Device, o: Offer, how: Outcome)
    requires Inv(d) && Careful(p, TakeOffer(o, how))
    ensures Inv(TryInstall(p, d, o, how)) && d.flash.rejected <= TryInstall(p, d, o, how).flash.rejected
  {
  }

  lemma {:induction false} RunKeeps(p: Platform, d: Device, steps: seq<Step>)
    requires Inv(d) && forall i | 0 <= i < |steps| :: Careful(p, steps[i])
    ensures Inv(Run(p, d, steps)) && d.flash.rejected <= Run(p, d, steps).flash.rejected
    decreases |steps|
  {
    hide Inv, Boot, Confirm, TryInstall;
    if steps != [] {
      match steps[0] {
        case Reset => BootKeeps(d);
        case ConfirmBoot(c) => ConfirmKeeps(d, c);
        case TakeOffer(o, how) => InstallKeeps(p, d, o, how);
      }
      RunKeeps(p, Next(p, d, steps[0]), steps[1..]);
    }
  }

  // ---- the results ----

  /** Across any number of boots, resets and offers, with the power failing anywhere but between selecting
      a release and noting the attempt, no release that was rolled back is ever installed again, and every
      installed release is newer than the one that ran and than the rejected one. */
  lemma RolledBackNeverReturns(p: Platform, factory: nat, steps: seq<Step>)
    requires forall i | 0 <= i < |steps| :: Careful(p, steps[i])
    ensures NeverAgain(Run(p, Factory(factory), steps).log)
  {
    RunKeeps(p, Factory(factory), steps);
  }

  /** A noted attempt is newer than what is rejected, and a device that takes offers has nothing noted and knows
      what is rejected. No step breaks this, not even a power cut inside the window. */
  predicate Ordered(d: Device) {
    && (d.flash.attempted != 0 ==> d.flash.attempted >= d.flash.rejected)
    && (d.ram.Some? && d.ram.value.confirmed && !d.ram.value.disabled ==>
          d.flash.attempted == 0 && d.ram.value.rejected == d.flash.rejected)
  }

  lemma NextOrdered(p: Platform, d: Device, s: Step)
    requires Ordered(d)
    ensures Ordered(Next(p, d, s)) && d.flash.rejected <= Next(p, d, s).flash.rejected
  {
  }

  lemma {:induction false} RunOrdered(p: Platform, d: Device, steps: seq<Step>)
    requires Ordered(d)
    ensures Ordered(Run(p, d, steps)) && d.flash.rejected <= Run(p, d, steps).flash.rejected
    decreases |steps|
  {
    hide Next, Ordered;
    if steps != [] {
      NextOrdered(p, d, steps[0]);
      RunOrdered(p, Next(p, d, steps[0]), steps[1..]);
    }
  }

  /** The persistent mark of the newest rejected release never goes down, in any run. */
  lemma RejectedNeverDecreases(p: Platform, factory: nat, steps: seq<Step>, more: seq<Step>)
    ensures var d := Run(p, Factory(factory), steps);
      d.flash.rejected <= Run(p, d, more).flash.rejected
  {
    RunOrdered(p, Factory(factory), steps);
    RunOrdered(p, Run(p, Factory(factory), steps), more);
  }

  // ---- what a confirmation, a reset and an offer come to ----

  predicate Alive(c: Confirmation, write: nat) {
    c.writes.None? || write < c.writes.value
  }

  /** The self-test of a running image on trial has passed, and the mark of it has reached the flash. */
  predicate Passed(d: Device, c: Confirmation) {
    && d.ram.Some? && !d.ram.value.confirmed
    && Get(d.flash, d.ram.value.slot).Image? && Get(d.flash, d.ram.value.slot).state == Pending
    && c.readable && c.ready && c.selfTest && c.marked && Alive(c, 0)
  }

  /** A confirmation changes an image only to settle the one on trial, and exactly when its test passed. */
  lemma SettledIffPassed(d: Device, c: Confirmation, slot: bool)
    ensures Get(Confirm(d, c).flash, slot) ==
      if Passed(d, c) && slot == d.ram.value.slot then Image(Get(d.flash, slot).release, Valid) else Get(d.flash, slot)
  {
    hide ClearAttempt;
    ClearLeavesImages(d, c);
  }

  lemma ClearLeavesImages(d: Device, c: Confirmation)
    ensures forall e: Device, w: nat | e.ram.Some? ::
      var f := ClearAttempt(e, c, w).flash; f.first == e.flash.first && f.second == e.flash.second
  {
  }

  /** A device becomes free to take offers exactly when its test passed if it is on trial, a rolled-back attempt
      was rejected, and a noted attempt was cleared, each before the power failed. */
  lemma ReadyIff(d: Device, c: Confirmation)
    requires d.ram.Some? && !d.ram.value.confirmed && !d.ram.value.disabled
    requires Get(d.flash, d.ram.value.slot).Image?
    ensures var e, image := Confirm(d, c), Get(d.flash, d.ram.value.slot);
      var trial, reverted := image.state == Pending, d.flash.attempted > image.release;
      e.ram.Some? && e.ram.value.confirmed && !e.ram.value.disabled <==>
        && c.readable
        && (trial ==> c.ready && c.selfTest && c.marked && Alive(c, 0))
        && (!trial && reverted ==> Alive(c, 0) && c.rejectWritten)
        && (d.flash.attempted > 0 ==> Alive(c, if trial || reverted then 1 else 0) && c.clearWritten)
  {
  }

  predicate NoPass(s: Step) {
    s.ConfirmBoot? ==> !(s.c.readable && s.c.ready && s.c.selfTest && s.c.marked && Alive(s.c, 0))
  }

  /** Until its test passes, an image on trial stays on trial, whatever else is tried, and nothing is installed. */
  lemma {:induction false} TrialStays(p: Platform, d: Device, steps: seq<Step>)
    requires Inv(d) && Selected(d).Image? && Selected(d).state == Pending
    requires forall i | 0 <= i < |steps| :: !steps[i].Reset? && NoPass(steps[i])
    ensures Run(p, d, steps).flash == d.flash && Run(p, d, steps).log == d.log
    ensures Inv(Run(p, d, steps))
    decreases |steps|
  {
    hide Remembered, NeverAgain, ConfirmRollback, ClearAttempt;
    if steps != [] {
      assert NoPass(steps[0]);
      TrialStep(p, d, steps[0]);
      TrialStays(p, Next(p, d, steps[0]), steps[1..]);
    }
  }

  lemma TrialStep(p: Platform, d: Device, s: Step)
    requires Inv(d) && Selected(d).Image? && Selected(d).state == Pending && !s.Reset? && NoPass(s)
    ensures var e := Next(p, d, s); e.flash == d.flash && e.log == d.log && Inv(e)
  {
    hide Remembered, NeverAgain, ConfirmRollback, ClearAttempt;
    if s.ConfirmBoot? {
      ConfirmKeeps(d, s.c);
    }
  }

  /** A trial boot without a passed self-test before the next reset always ends with its release rolled back,
      and the release before it running again. */
  lemma FailedTrialRollsBack(p: Platform, d: Device, steps: seq<Step>)
    requires Inv(d) && Selected(d).Image? && Selected(d).state == Pending
    requires forall i | 0 <= i < |steps| :: !steps[i].Reset? && NoPass(steps[i])
    ensures var e := Next(p, Run(p, d, steps), Reset);
      && e.log == d.log + [RolledBack(Selected(d).release)]
      && e.flash.boot == !d.flash.boot && Selected(e) == Spare(d) && Settled(Selected(e))
      && Spare(e) == Image(Selected(d).release, Aborted)
      && e.ram == Some(Memory(!d.flash.boot, false, false, 0))
  {
    hide Remembered, NeverAgain, Confirm, TryInstall;
    TrialStays(p, d, steps);
  }

  /** A reset of any other device starts what is selected, on trial if it is new, and gives up nothing. */
  lemma ResetStarts(p: Platform, d: Device)
    requires Inv(d) && Selected(d).Image? && Selected(d).state != Pending
    ensures var e := Next(p, d, Reset);
      && e.log == d.log && e.flash.boot == d.flash.boot && Spare(e) == Spare(d)
      && e.ram == Some(Memory(d.flash.boot, false, false, 0))
      && Selected(e) == Image(Selected(d).release, if Selected(d).state == New then Pending else Valid)
  {
    hide Remembered, NeverAgain;
  }

  /** An offer worth installing, and the moment to do so. */
  predicate Worth(o: Offer) {
    && o.signed && o.compatible && o.current < o.candidate && o.rejected < o.candidate && 0 < o.size <= o.slotSize
    && o.networkReady && o.idle && o.usbPowered
  }

  lemma WorthIff(o: Offer)
    ensures Decide(o) == Install <==> Worth(o)
    ensures Decide(o) == Defer <==> Worth(o.(networkReady := true, idle := true, usbPowered := true)) && !Worth(o)
  {
  }

  /** In every run, whatever was installed came from an offer that was signed, compatible and of fitting size,
      newer than the release that ran, and made on USB power while the device was idle and connected. */
  lemma {:induction false} InstalledWasWorth(p: Platform, d: Device, steps: seq<Step>, j: nat)
    requires |d.log| <= j < |Run(p, d, steps).log| && Run(p, d, steps).log[j].Installed?
    ensures exists i | 0 <= i < |steps| && steps[i].TakeOffer? :: Worth(steps[i].o)
              && steps[i].o.candidate == Run(p, d, steps).log[j].release
              && steps[i].o.current == Run(p, d, steps).log[j].running
    decreases |steps|
  {
    hide Confirm, Boot, TryInstall, Worth;
    assert steps != [];
    var e := Next(p, d, steps[0]);
    StepLogs(p, d, steps[0]);
    if j < |e.log| {
      LogGrows(p, e, steps[1..]);
      assert e.log[j] == Run(p, d, steps).log[j];
      assert steps[0].TakeOffer?;
    } else {
      InstalledWasWorth(p, e, steps[1..], j);
      var i :| 0 <= i < |steps[1..]| && steps[1..][i].TakeOffer? && Worth(steps[1..][i].o)
        && steps[1..][i].o.candidate == Run(p, e, steps[1..]).log[j].release
        && steps[1..][i].o.current == Run(p, e, steps[1..]).log[j].running;
      assert steps[i + 1] == steps[1..][i];
    }
  }

  lemma StepLogs(p: Platform, d: Device, s: Step)
    ensures var e := Next(p, d, s);
      && d.log <= e.log <= d.log + e.log[|d.log|..] && |e.log| <= |d.log| + 1
      && (|e.log| > |d.log| && e.log[|d.log|].Installed? ==>
            && s.TakeOffer? && Worth(s.o)
            && s.o.candidate == e.log[|d.log|].release && s.o.current == e.log[|d.log|].running)
  {
    hide ConfirmTrial, ConfirmRollback, ClearAttempt;
    if s.ConfirmBoot? {
      ConfirmLogs(d, s.c);
    }
  }

  lemma ConfirmLogs(d: Device, c: Confirmation)
    ensures Confirm(d, c).log == d.log
  {
  }

  lemma {:induction false} LogGrows(p: Platform, d: Device, steps: seq<Step>)
    ensures d.log <= Run(p, d, steps).log
    decreases |steps|
  {
    hide Next;
    if steps != [] {
      StepLogs(p, d, steps[0]);
      LogGrows(p, Next(p, d, steps[0]), steps[1..]);
    }
  }

  // ---- why the window must be excluded ----

  const OK := Confirmation(true, true, true, true, true, true, None)

  function OfferOf(current: nat, candidate: nat): Offer {
    Offer(current, 0, candidate, 1, 1, true, true, true, true, true)
  }

  /** Install release 2 in some way, let its trial boot fail, and be offered it once more. */
  function AgainAfter(how: Outcome): seq<Step> {
    [Reset, ConfirmBoot(OK), TakeOffer(OfferOf(1, 2), how), Reset, Reset, ConfirmBoot(OK),
     TakeOffer(OfferOf(1, 2), Marked)]
  }

  lemma RunOne(p: Platform, d: Device, steps: seq<Step>)
    requires steps != []
    ensures Run(p, d, steps) == Run(p, Next(p, d, steps[0]), steps[1..])
  {
  }

  lemma RunThree(p: Platform, d: Device, s: seq<Step>)
    requires |s| >= 3
    ensures Run(p, d, s) == Run(p, Next(p, Next(p, Next(p, d, s[0]), s[1]), s[2]), s[3..])
  {
    hide Next;
    RunOne(p, d, s);
    RunOne(p, Next(p, d, s[0]), s[1..]);
    assert s[1..][1..] == s[2..];
    RunOne(p, Next(p, Next(p, d, s[0]), s[1]), s[2..]);
    assert s[2..][1..] == s[3..];
  }

  /** The running release 1 after a boot it confirmed. */
  function Running(spare: Slot, log: seq<Happening>): Device {
    Device(Flash(Image(1, Valid), spare, false, 0, 0), Some(Memory(false, true, false, 0)), log)
  }

  lemma FirstBoot(p: Platform)
    ensures Next(p, Next(p, Factory(1), Reset), ConfirmBoot(OK)) == Running(Empty, [])
  {
  }

  /** Two resets give up a release that nothing was noted about, and release 1 confirms its boot as usual. */
  lemma ForgottenRollback(p: Platform, ram: Option<Memory>, log: seq<Happening>)
    ensures var d := Device(Flash(Image(1, Valid), Image(2, New), true, 0, 0), ram, log);
      Next(p, Next(p, Next(p, d, Reset), Reset), ConfirmBoot(OK)) == Running(Image(2, Aborted), log + [RolledBack(2)])
  {
  }

  /** A power cut inside the window, or a note and a restoration that both fail, lets a rolled-back release
      be installed again. */
  lemma UnmarkedReturns(p: Platform, how: Outcome)
    requires how == CutBeforeMark || how == MarkFailedStuck
    ensures !NeverAgain(Run(p, Factory(1), AgainAfter(how)).log)
  {
    hide Next, NeverAgain;
    var steps := AgainAfter(how);
    RunThree(p, Factory(1), steps);
    FirstBoot(p);
    var d := Next(p, Running(Empty, []), TakeOffer(OfferOf(1, 2), how));
    Unnoted(p, how);
    RunThree(p, d, steps[3..]);
    assert steps[3..][3..] == [steps[6]];
    ForgottenRollback(p, d.ram, d.log);
    var e := Running(Image(2, Aborted), d.log + [RolledBack(2)]);
    RunOne(p, e, [steps[6]]);
    InstalledAgain(p, Image(2, Aborted), d.log);
  }

  lemma Unnoted(p: Platform, how: Outcome)
    requires how == CutBeforeMark || how == MarkFailedStuck
    ensures var d := Next(p, Running(Empty, []), TakeOffer(OfferOf(1, 2), how));
      d.flash == Flash(Image(1, Valid), Image(2, New), true, 0, 0)
  {
  }

  lemma InstalledAgain(p: Platform, spare: Slot, log: seq<Happening>)
    ensures !NeverAgain(Next(p, Running(spare, log + [RolledBack(2)]), TakeOffer(OfferOf(1, 2), Marked)).log)
  {
    var now := Next(p, Running(spare, log + [RolledBack(2)]), TakeOffer(OfferOf(1, 2), Marked)).log;
    assert now == log + [RolledBack(2)] + [Installed(2, 1, 0)];
    assert now[|log|] == RolledBack(2) && now[|log| + 1] == Installed(2, 1, 0);
  }

  /** Try to install release 2 with a note that fails, install it, let its trial boot fail, and be offered it
      once more. */
  const AGAIN_AFTER_RENEWAL: seq<Step> :=
    [Reset, ConfirmBoot(OK), TakeOffer(OfferOf(1, 2), MarkFailedRestored), TakeOffer(OfferOf(1, 2), Marked), Reset,
     Reset, ConfirmBoot(OK), TakeOffer(OfferOf(1, 2), Marked)]

  /** So does a failed note on a platform where selecting the running slot again puts it back on trial: when
      the release then fails, the older one is itself in a trial boot, and that rejects nothing. */
  lemma RenewedReturns(p: Platform)
    requires p.renews
    ensures !NeverAgain(Run(p, Factory(1), AGAIN_AFTER_RENEWAL).log)
  {
    hide Next, NeverAgain;
    var steps := AGAIN_AFTER_RENEWAL;
    RunThree(p, Factory(1), steps);
    FirstBoot(p);
    var c := Next(p, Running(Empty, []), steps[2]);
    RunThree(p, c, steps[3..]);
    assert steps[3..][3..] == steps[6..];
    var d := Next(p, Next(p, c, steps[3]), Reset);
    Renewed(p);
    var e := Next(p, Next(p, d, Reset), ConfirmBoot(OK));
    RunOne(p, Next(p, d, Reset), steps[6..]);
    assert steps[6..][1..] == [steps[7]];
    RunOne(p, e, [steps[7]]);
    InstalledAgain(p, Image(2, Aborted), d.log);
  }

  lemma Renewed(p: Platform)
    requires p.renews
    ensures var d := Next(p, Next(p, Next(p, Running(Empty, []), TakeOffer(OfferOf(1, 2), MarkFailedRestored)),
                                  TakeOffer(OfferOf(1, 2), Marked)), Reset);
      Next(p, Next(p, d, Reset), ConfirmBoot(OK)) == Running(Image(2, Aborted), d.log + [RolledBack(2)])
  {
    var d1 := Next(p, Running(Empty, []), TakeOffer(OfferOf(1, 2), MarkFailedRestored));
    assert d1.flash == Flash(Image(1, New), Image(2, New), false, 0, 0);
    var d2 := Next(p, d1, TakeOffer(OfferOf(1, 2), Marked));
    assert d2.flash == Flash(Image(1, New), Image(2, New), true, 2, 0) && d2.ram.None?;
    var d3 := Next(p, d2, Reset);
    assert d3.flash == Flash(Image(1, New), Image(2, Pending), true, 2, 0);
    var d4 := Next(p, d3, Reset);
    assert d4.flash == Flash(Image(1, Pending), Image(2, Aborted), false, 2, 0);
  }

  // ---- exactly which outcomes are safe ----

  /** Every installation ends carefully or in this way. */
  predicate Ends(p: Platform, steps: seq<Step>, how: Outcome) {
    forall i | 0 <= i < |steps| && steps[i].TakeOffer? :: CarefulOutcome(p, steps[i].how) || steps[i].how == how
  }

  /** Runs in which an installation may also end this way never install a rolled-back release again if and
      only if the outcome is a careful one. */
  lemma SafeOutcomesAreCareful(p: Platform, how: Outcome)
    ensures CarefulOutcome(p, how) <==>
              forall factory: nat, steps: seq<Step> | Ends(p, steps, how) ::
                NeverAgain(Run(p, Factory(factory), steps).log)
  {
    hide Run, NeverAgain;
    if CarefulOutcome(p, how) {
      forall factory: nat, steps: seq<Step> | Ends(p, steps, how)
        ensures NeverAgain(Run(p, Factory(factory), steps).log)
      {
        RolledBackNeverReturns(p, factory, steps);
      }
    } else {
      var steps := if how == MarkFailedRestored then AGAIN_AFTER_RENEWAL else AgainAfter(how);
      var factory: nat := 1;
      assert Ends(p, steps, how);
      assert !NeverAgain(Run(p, Factory(factory), steps).log) by {
        if how == MarkFailedRestored {
          RenewedReturns(p);
        } else {
          UnmarkedReturns(p, how);
        }
      }
    }
  }
}
