/** What the rider owns, in the wallet and in active holds, over whole runs. */
module BookingMoney {
  import opened Options
  import opened Pricing
  import opened Booking

  function Locked(hold: Hold): Kobo {
    if hold.active then hold.amount else 0
  }

  ghost function Pick(holds: map<RideId, Hold>): (ride: RideId)
    requires holds != map[]
    ensures ride in holds
  {
    var ride :| ride in holds;
    ride
  }

  /** The sum of all active holds. */
  ghost function HeldTotal(holds: map<RideId, Hold>): Kobo
    decreases |holds|
  {
    if holds == map[] then 0
    else
      var ride := Pick(holds);
      Locked(holds[ride]) + HeldTotal(holds - {ride})
  }

  lemma {:induction false} HeldApart(holds: map<RideId, Hold>, ride: RideId)
    requires ride in holds
    ensures HeldTotal(holds) == Locked(holds[ride]) + HeldTotal(holds - {ride})
    decreases |holds|
  {
    var first := Pick(holds);
    if first != ride {
      HeldApart(holds - {first}, ride);
      HeldApart(holds - {ride}, first);
      assert holds - {first} - {ride} == holds - {ride} - {first};
    }
  }

  lemma HeldWith(holds: map<RideId, Hold>, ride: RideId, hold: Hold)
    ensures HeldTotal(holds[ride := hold])
         == Locked(hold) + HeldTotal(holds) - (if ride in holds then Locked(holds[ride]) else 0)
  {
    HeldApart(holds[ride := hold], ride);
    assert holds[ride := hold] - {ride} == holds - {ride};
    if ride in holds {
      HeldApart(holds, ride);
    } else {
      assert holds - {ride} == holds;
    }
  }

  ghost function Owned(s: State): Kobo {
    s.balance + HeldTotal(s.holds)
  }

  lemma WriteKeepsOwned(s: State, e: Effect)
    ensures Owned(Perform(s, e)) == Owned(s) + if e.Deposit? then e.deposit else 0
  {
    if e.CreateHold? {
      HeldWith(s.holds, e.heldRide, Hold(e.amount, true));
    } else if e.ReleaseHold? && e.released in s.holds {
      HeldWith(s.holds, e.released, Hold(s.holds[e.released].amount, false));
    }
  }

  // ---------- the handler neither pays in nor releases ----------

  predicate NoDeposit(effects: seq<Effect>) {
    forall e | e in effects :: !e.Deposit? && !e.ReleaseHold?
  }

  lemma PinPaysNothing(s: State, place: Place, w: World)
    ensures NoDeposit(OnPin(s, place, w))
  {
    hide Planned, Moved;
  }

  lemma ActiveRidePaysNothing(s: State, ride: RideId, t: Words, w: World)
    ensures NoDeposit(OnActiveRide(s, ride, t, w))
  {
    hide Planned;
  }

  lemma TextPaysNothing(s: State, t: Words, w: World)
    ensures NoDeposit(OnText(s, t, w))
  {
    hide Planned, Moved, OnIntent;
    IntentPaysNothing(s, t, w);
  }

  lemma IntentPaysNothing(s: State, t: Words, w: World)
    ensures NoDeposit(OnIntent(s, t, w))
  {
    hide Planned;
  }

  lemma HandlerPaysNothing(s: State, m: Message, w: World)
    ensures NoDeposit(Decide(s, m, w))
  {
    hide OnActiveRide, OnText, OnPin, Planned;
    if m.Pin? {
      PinPaysNothing(s, m.place, w);
    } else if m.Text? && s.activeRide.Some? {
      ActiveRidePaysNothing(s, s.activeRide.value, m.words, w);
    } else if m.Text? {
      TextPaysNothing(s, m.words, w);
    }
  }

  lemma {:induction false} WritesKeepOwned(s: State, effects: seq<Effect>)
    requires NoDeposit(effects)
    ensures Owned(PerformAll(s, effects)) == Owned(s)
    decreases |effects|
  {
    hide Perform, Owned;
    if effects != [] {
      assert effects[0] in effects && forall e | e in effects[1..] :: e in effects;
      WriteKeepsOwned(s, effects[0]);
      WritesKeepOwned(Perform(s, effects[0]), effects[1..]);
    }
  }

  // ---------- whole runs ----------

  /** What the wallet receives in the run, less what is withdrawn. */
  function PaidIn(steps: seq<Step>): Kobo {
    if steps == [] then 0
    else (if steps[0].Outside? && steps[0].effect.Deposit? then steps[0].effect.deposit else 0) + PaidIn(steps[1..])
  }

  lemma StepKeepsOwned(s: State, step: Step)
    requires Enabled(s, step)
    ensures Owned(Next(s, step)) == Owned(s) + PaidIn([step])
  {
    hide Decide, Owned;
    if step.Outside? {
      WriteKeepsOwned(s, step.effect);
    } else {
      var effects := Decide(s, step.m, step.w);
      HandlerPaysNothing(s, step.m, step.w);
      WritesKeepOwned(s, effects);
      if step.Interrupt? {
        WritesKeepOwned(s, effects[..step.done]);
      }
    }
  }

  /**
   On every run, whatever is handled, interrupted, reused or released, no money appears or is lost: the balance and
   the active holds together change by what is paid in.
   */
  lemma {:induction false} MoneyIsConserved(s: State, steps: seq<Step>)
    requires Legal(s, steps)
    ensures var t := Run(s, steps);
      t.balance + HeldTotal(t.holds) == s.balance + HeldTotal(s.holds) + PaidIn(steps)
    decreases |steps|
  {
    if steps != [] {
      StepKeepsOwned(s, steps[0]);
      hide Next, Enabled, HeldTotal;
      MoneyIsConserved(Next(s, steps[0]), steps[1..]);
    }
  }
}
