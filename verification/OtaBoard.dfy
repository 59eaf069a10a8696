/** The update code on the device: fields for what is in flash and in memory, changed write by write. Each
    call keeps the invariant of OtaProtocol and follows its steps. */
module OtaBoard {
  import opened Options
  import opened OtaProtocol

  class Board {
    var flash: Flash
    var running: bool          // powered and executing a release
    var slot: bool
    var confirmed: bool
    var disabled: bool
    var rejectedRelease: nat
    ghost var log: seq<Happening>

    ghost function State(): Device
      reads this
    {
      Device(flash, if running then Some(Memory(slot, confirmed, disabled, rejectedRelease)) else None, log)
    }

    /** The markers, the slots and the memory agree with what was rolled back. */
    ghost predicate Valid()
      reads this
    {
      Inv(State())
    }

    /** Running, and free to take offers. */
    predicate Ready()
      reads this
    {
      running && confirmed && !disabled
    }

    constructor (release: nat)
      ensures Valid() && State() == Factory(release)
    {
      flash := Flash(Image(release, ImageState.Valid), Empty, false, 0, 0);
      running, slot, confirmed, disabled, rejectedRelease, log := false, false, false, false, 0, [];
    }

    /** One persistent write: false when the power is cut before it. */
    method Survives(c: Confirmation, write: nat) returns (ok: bool)
      modifies this`running
      ensures ok == !CutBefore(c, write) && running == (old(running) && ok)
    {
      ok := !(c.writes.Some? && c.writes.value <= write);
      if !ok {
        running := false;
      }
    }

    static predicate Pends(f: Flash, s: bool) {
      Get(f, s).Image? && Get(f, s).state == Pending
    }

    /** One call of the boot confirmation from the main loop. Once the device is ready nothing is noted any
        more, and a release found rolled back is rejected for good. An image changes only from its trial to
        settled, and exactly when it is ready, its self-test passed and the mark was made. */
    method ConfirmBoot(c: Confirmation)
      requires Valid()
      modifies this
      ensures Valid() && old(flash.rejected) <= flash.rejected
      ensures Ready() ==> Settled(Get(flash, slot)) && flash.attempted == 0 && rejectedRelease == flash.rejected
      ensures Ready() && Reverted(old(State())) ==> flash.rejected == old(flash.attempted)
      ensures forall s: bool :: Get(flash, s) ==
                if s == old(slot) && old(running) && !old(confirmed) && Pends(old(flash), s)
                   && c.readable && c.ready && c.selfTest && c.marked && Alive(c, 0)
                then Image(Get(old(flash), s).release, ImageState.Valid) else Get(old(flash), s)
      ensures (running ==> slot == old(slot)) && flash.boot == old(flash.boot) && log == old(log)
      ensures State() == Confirm(old(State()), c)
    {
      forall s: bool
        ensures Get(Confirm(State(), c).flash, s) ==
          if s == slot && Passed(State(), c) then Image(Get(flash, s).release, ImageState.Valid) else Get(flash, s)
      {
        SettledIffPassed(State(), c, s);
      }
      ConfirmLogs(State(), c);
      ConfirmStays(State(), c);
      hide Placed, Remembered, NeverAgain, Confirm;
      ConfirmKeeps(State(), c);
      ConfirmRejects(State(), c);
      ConfirmSteps(c);
    }

    /** The branches of a confirmation. */
    method ConfirmSteps(c: Confirmation)
      modifies this
      ensures State() == Confirm(old(State()), c)
    {
      if !running || confirmed {
        return;
      }
      var image := Get(flash, slot);
      if image.Empty? {
        return;
      }
      var pending := image.state == Pending;
      if !c.readable {
        if !pending {
          disabled, confirmed := true, true;
        }
        return;
      }
      var writes := 0;
      rejectedRelease := flash.rejected;
      if pending {
        if !c.ready || !c.selfTest || !c.marked {
          return;
        }
        var alive := Survives(c, 0);
        if !alive {
          return;
        }
        flash := Put(flash, slot, Image(image.release, ImageState.Valid));
        writes := 1;
      } else if flash.attempted > image.release {
        rejectedRelease := flash.attempted;
        var alive := Survives(c, 0);
        if !alive {
          return;
        }
        if !c.rejectWritten {
          disabled, confirmed := true, true;
          return;
        }
        flash := flash.(rejected := flash.attempted);
        writes := 1;
      }
      Forget(c, writes);
    }

    /** Clear the note of the attempt and let the device get on. */
    method Forget(c: Confirmation, write: nat)
      requires running
      modifies this
      ensures State() == ClearAttempt(old(State()), c, write)
    {
      if flash.attempted > 0 {
        var alive := Survives(c, write);
        if !alive {
          return;
        }
        if c.clearWritten {
          flash := flash.(attempted := 0);
        } else {
          disabled := true;
        }
      }
      confirmed := true;
    }

    static lemma ConfirmStays(d: Device, c: Confirmation)
      ensures Confirm(d, c).flash.boot == d.flash.boot
      ensures d.ram.Some? && Confirm(d, c).ram.Some? ==> Confirm(d, c).ram.value.slot == d.ram.value.slot
    {
    }

    static lemma ConfirmRejects(d: Device, c: Confirmation)
      requires Inv(d)
      ensures var e := Confirm(d, c);
        Reverted(d) && e.ram.Some? && e.ram.value.confirmed && !e.ram.value.disabled ==>
          e.flash.rejected == d.flash.attempted
    {
    }

    /** What an installation leaves in flash. The running image stays as it is, unless the platform renews its
        trial; the new one is selected as new, and noted, only when everything went well. */
    static predicate Left(f: Flash, f': Flash, slot: bool, p: Platform, o: Offer, how: Outcome) {
      && f'.rejected == f.rejected && f'.attempted == (if how == Marked then o.candidate else f.attempted)
      && f'.boot == (match how case DownloadFailed => f.boot case SelectFailed => f.boot
                     case MarkFailedRestored => slot case _ => !slot)
      && Get(f', !slot) == (match how case DownloadFailed => Empty case SelectFailed => Image(o.candidate, Aborted)
                            case _ => Image(o.candidate, New))
      && Get(f', slot) == if how == MarkFailedRestored && p.renews then Image(o.current, New) else Get(f, slot)
    }

    /** Decide on an offer and, if it is to be installed, write it to the other slot and select it. Whatever
        the outcome, what is installed is newer than the running release, than the rejected one and than
        every release rolled back before; after a careful outcome that will stay so. */
    method TakeOffer(p: Platform, o: Offer, how: Outcome)
      requires Valid() && running && Get(flash, slot).Image?
      requires o.current == Get(flash, slot).release && o.rejected == rejectedRelease
      modifies this
      ensures CarefulOutcome(p, how) ==> Valid()
      ensures NeverAgain(log) && flash.rejected == old(flash.rejected)
      ensures log == if old(Ready()) && Worth(o) && how != DownloadFailed && how != SelectFailed
                     then old(log) + [Installed(o.candidate, o.current, flash.rejected)] else old(log)
      ensures if old(Ready()) && Worth(o) then Left(old(flash), flash, slot, p, o, how)
              else flash == old(flash) && running
      ensures State() == TryInstall(p, old(State()), o, how)
    {
      InstallIsNew(p, State(), o, how);
      WorthIff(o);
      if CarefulOutcome(p, how) {
        InstallKeeps(p, State(), o, how);
      }
      hide Inv, NeverAgain, Decide, Worth;
      if !confirmed || disabled || Decide(o) != Install {
        return;
      }
      Replace(p, o, how);
    }

    /** Write the image, select it and note the attempt, as far as it goes. */
    method Replace(p: Platform, o: Offer, how: Outcome)
      requires running && MayInstall(State(), o)
      modifies this`flash, this`running, this`log
      ensures State() == TryInstall(p, old(State()), o, how)
      ensures Left(old(flash), flash, slot, p, o, how)
      ensures log == if how != DownloadFailed && how != SelectFailed
                     then old(log) + [Installed(o.candidate, o.current, flash.rejected)] else old(log)
    {
      hide Decide;
      var image := Get(flash, slot);
      flash := Put(flash, !slot, Empty);
      if how == DownloadFailed {
        return;
      }
      flash := Put(flash, !slot, Image(o.candidate, Aborted));
      if how == SelectFailed {
        return;
      }
      log := log + [Installed(o.candidate, image.release, flash.rejected)];
      flash := Put(flash, !slot, Image(o.candidate, New)).(boot := !slot);
      if how == CutBeforeMark {
        running := false;
      } else if how == MarkFailedRestored {
        if p.renews {
          flash := Put(flash, slot, Image(image.release, New));
        }
        flash := flash.(boot := slot);
      } else if how == Marked {
        flash := flash.(attempted := o.candidate);
        running := false;
      }
    }

    static lemma InstallIsNew(p: Platform, d: Device, o: Offer, how: Outcome)
      requires Inv(d)
      ensures NeverAgain(TryInstall(p, d, o, how).log)
    {
    }
  }
}
