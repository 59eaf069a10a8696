/** One word of memory decides who may use the flash and the audio: the voice loop, the updater or the cue
    store. Every change is a compare-and-swap, and the steps of the three tasks may interleave anyhow. */
module ActivityGate {

  datatype Owner = Idle | Voice | Ota | Storage

  // ---- the gate itself ----

  function Claimed(activity: Owner, owner: Owner): (Owner, bool) {
    if owner != Idle && activity == Idle then (owner, true) else (activity, false)
  }

  function Released(activity: Owner, owner: Owner, confirmed: bool): (Owner, bool) {
    if owner == Idle || (owner == Voice && !confirmed) || activity != owner then (activity, false) else (Idle, true)
  }

  class Gate {
    var activity: Owner
    ghost var claims: multiset<Owner>    // claims that were granted and not given back

    /** The word in memory says who has the only outstanding claim. */
    ghost predicate Valid()
      reads this
    {
      claims == if activity == Idle then multiset{} else multiset{activity}
    }

    constructor ()
      ensures Valid() && claims == multiset{Voice}
    {
      activity, claims := Voice, multiset{Voice};    // the boot itself holds the gate
    }

    /** Granted exactly when nobody has a claim. */
    method Claim(owner: Owner) returns (ok: bool)
      requires Valid()
      modifies this
      ensures Valid() && (ok <==> owner != Idle && old(claims) == multiset{})
      ensures claims == if ok then multiset{owner} else old(claims)
      ensures (activity, ok) == Claimed(old(activity), owner)
    {
      if owner == Idle {
        return false;
      }
      ok := activity == Idle;
      if ok {
        activity, claims := owner, claims + multiset{owner};
      }
    }

    /** Takes back the caller's own claim and nobody else's; voice keeps its claim until the boot is confirmed. */
    method Release(owner: Owner, confirmed: bool) returns (ok: bool)
      requires Valid()
      modifies this
      ensures Valid() && (ok <==> owner in old(claims) && (owner == Voice ==> confirmed))
      ensures claims == if ok then old(claims) - multiset{owner} else old(claims)
      ensures ok ==> claims == multiset{}
      ensures (activity, ok) == Released(old(activity), owner, confirmed)
    {
      if owner == Idle || (owner == Voice && !confirmed) {
        return false;
      }
      ok := activity == owner;
      if ok {
        activity, claims := Idle, claims - multiset{owner};
      }
    }
  }

  // ---- the three tasks ----

  /** Where the main loop is in a gate call. */
  datatype MainAt = Outside | Taken | Tested | Dropped

  datatype StoreAt = StoreOut | StoreTested | StoreIn

  datatype World = World(activity: Owner, confirmed: bool, owned: bool, main: MainAt, updating: bool, store: StoreAt)

  /** One atomic step of a task. */
  datatype Step =
    | ConfirmBoot
    | MainClaim        // nothing to do if the flag is set, otherwise the swap
    | MainNote         // the flag, after a swap that worked
    | MainTest         // is the boot confirmed?
    | MainSwap         // voice_ota_voice_end
    | MainForget       // the flag, after the swap
    | OtaClaim
    | OtaRelease
    | StoreTest
    | StoreClaim
    | StoreRelease

  function Next(w: World, s: Step): World {
    match s
    case ConfirmBoot => w.(confirmed := true)
    case MainClaim =>
      if w.main != Outside || w.owned then w
      else
        var (now, ok) := Claimed(w.activity, Voice);
        w.(activity := now, main := if ok then Taken else Outside)
    case MainNote => if w.main == Taken then w.(owned := true, main := Outside) else w
    case MainTest => if w.main == Outside && w.owned && w.confirmed then w.(main := Tested) else w
    case MainSwap =>
      if w.main != Tested then w else w.(activity := Released(w.activity, Voice, w.confirmed).0, main := Dropped)
    case MainForget => if w.main == Dropped then w.(owned := false, main := Outside) else w
    case OtaClaim =>
      if w.updating then w
      else var (now, ok) := Claimed(w.activity, Ota); w.(activity := now, updating := ok)
    case OtaRelease =>
      if !w.updating then w else w.(activity := Released(w.activity, Ota, true).0, updating := false)
    case StoreTest => if w.store == StoreOut && w.confirmed then w.(store := StoreTested) else w
    case StoreClaim =>
      if w.store != StoreTested then w
      else var (now, ok) := Claimed(w.activity, Storage); w.(activity := now, store := if ok then StoreIn else StoreOut)
    case StoreRelease =>
      if w.store != StoreIn then w else w.(activity := Released(w.activity, Storage, true).0, store := StoreOut)
  }

  function Run(w: World, steps: seq<Step>): World
    decreases |steps|
  {
    if steps == [] then w else Run(Next(w, steps[0]), steps[1..])
  }

  /** The boot owns the voice claim until it is confirmed. */
  const BOOT := World(Voice, false, true, Outside, false, StoreOut)

  predicate HoldsVoice(w: World) {
    (w.main == Outside && w.owned) || w.main == Taken || w.main == Tested
  }

  /** Who holds the gate is what the gate says. */
  predicate Agree(w: World) {
    && (HoldsVoice(w) <==> w.activity == Voice)
    && (w.updating <==> w.activity == Ota)
    && (w.store == StoreIn <==> w.activity == Storage)
    && (w.main == Tested ==> w.confirmed) && (w.activity != Voice ==> w.confirmed)
    && (w.main == Taken ==> !w.owned) && (w.main == Tested || w.main == Dropped ==> w.owned)
  }

  lemma NextAgrees(w: World, s: Step)
    requires Agree(w)
    ensures Agree(Next(w, s))
  {
  }

  lemma {:induction false} RunAgrees(w: World, steps: seq<Step>)
    requires Agree(w)
    ensures Agree(Run(w, steps))
    decreases |steps|
  {
    hide Next, Agree;
    if steps != [] {
      NextAgrees(w, steps[0]);
      RunAgrees(Next(w, steps[0]), steps[1..]);
    }
  }

  /** In every interleaving at most one task holds the gate, none but voice does before the boot is confirmed,
      and between gate calls of the main loop its flag is set exactly when the gate is held for voice. */
  lemma OneOwner(steps: seq<Step>)
    ensures var w := Run(BOOT, steps);
      && !(HoldsVoice(w) && w.updating) && !(HoldsVoice(w) && w.store == StoreIn) && !(w.updating && w.store == StoreIn)
      && (w.updating || w.store == StoreIn ==> w.confirmed)
      && (w.main == Outside ==> (w.owned <==> w.activity == Voice))
  {
    RunAgrees(BOOT, steps);
  }

  /** Every release in a run finds its own claim: none is refused and none frees another task's. */
  lemma ReleaseFindsOwnClaim(steps: seq<Step>)
    ensures var w := Run(BOOT, steps);
      && (w.main == Tested ==> Released(w.activity, Voice, w.confirmed) == (Idle, true))
      && (w.updating ==> Released(w.activity, Ota, true) == (Idle, true))
      && (w.store == StoreIn ==> Released(w.activity, Storage, true) == (Idle, true))
  {
    RunAgrees(BOOT, steps);
  }

  /** This rests on the confirmation never being taken back: were it set to anything between the main loop's
      test and its swap, the flag would still agree with the gate afterwards exactly if it were left standing. */
  lemma ConfirmationMustStand(steps: seq<Step>, confirmed: bool)
    requires Run(BOOT, steps).main == Tested
    ensures var w := Run(Run(BOOT, steps).(confirmed := confirmed), [MainSwap, MainForget]);
      w.main == Outside && !w.owned && ((w.owned <==> w.activity == Voice) <==> confirmed)
  {
    RunAgrees(BOOT, steps);
    var tested := Run(BOOT, steps).(confirmed := confirmed);
    var last := [MainSwap, MainForget];
    assert last[1..] == [MainForget] && last[1..][1..] == [];
    assert Run(tested, last) == Run(Next(tested, MainSwap), last[1..]);
    assert Run(Next(tested, MainSwap), last[1..]) == Run(Next(Next(tested, MainSwap), MainForget), []);
  }

  /** And there are such runs: after a reset the flag would be cleared with the gate still held. */
  lemma ResetWouldStick()
    ensures exists steps ::
      var w := Run(Run(BOOT, steps).(confirmed := false), [MainSwap, MainForget]); !w.owned && w.activity == Voice
  {
    var steps := [ConfirmBoot, MainTest];
    assert steps[1..] == [MainTest] && steps[1..][1..] == [];
    assert Run(BOOT, steps) == Run(Next(BOOT, ConfirmBoot), steps[1..]);
    assert Run(Next(BOOT, ConfirmBoot), steps[1..]) == Run(Next(Next(BOOT, ConfirmBoot), MainTest), []);
    ConfirmationMustStand(steps, false);
  }

  // ---- the flag of the main loop ----

  class Feedback {
    const gate: Gate
    var owned: bool

    /** The loop's flag and the gate agree. */
    ghost predicate Valid()
      reads this, gate
    {
      gate.Valid() && (owned <==> Voice in gate.claims)
    }

    constructor (gate: Gate)
      requires gate.Valid() && gate.claims == multiset{Voice}
      ensures Valid() && owned && this.gate == gate
    {
      this.gate, owned := gate, true;
    }

    method ClaimGate() returns (ok: bool)
      requires Valid()
      modifies this, gate
      ensures Valid() && ok == owned == (old(owned) || old(gate.claims) == multiset{})
      ensures gate.claims == if ok then multiset{Voice} else old(gate.claims)
    {
      if owned {
        return true;
      }
      ok := gate.Claim(Voice);
      if ok {
        owned := true;
      }
    }

    method ReleaseGate(confirmed: bool)
      requires Valid()
      modifies this, gate
      ensures Valid() && owned == (old(owned) && !confirmed)
      ensures gate.claims == if old(owned) && confirmed then multiset{} else old(gate.claims)
    {
      if owned && confirmed {
        var _ := gate.Release(Voice, confirmed);
        owned := false;
      }
    }
  }
}
