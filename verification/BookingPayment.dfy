/**
 Choosing a driver, holding the fare and accepting.  (apps/api-gateway/src/http/whatsapp.route.ts,
 packages/db/src/clients/wallet.client.ts)
 */
module BookingPayment {
  import opened Options
  import opened Pricing
  import opened Booking

  /** The choice stored last. */
  function LastChoice(h: seq<Event>): Option<(RideId, Bid)> {
    if h == [] then None
    else
      var e := h[|h| - 1];
      if e.Chosen? then Some((e.ride, e.bid)) else LastChoice(h[..|h| - 1])
  }

  /** Held for this ride and amount just before, and of the bid the rider chose last. */
  predicate PaidFor(h: seq<Event>, ride: RideId, bid: Bid, fare: Kobo) {
    && fare == bid.price && LastChoice(h) == Some((ride, bid))
    && h != [] && h[|h| - 1].Held? && h[|h| - 1].ride == ride && h[|h| - 1].amount == fare
  }

  predicate GoodEntry(h: seq<Event>, e: Event) {
    match e
    case Accepted(ride, bid, fare) => PaidFor(h, ride, bid, fare)
    case Chosen(ride, bid, command, batch) => NamedBid(batch, command) == Some(bid)
    case _ => true
  }

  predicate GoodHistory(h: seq<Event>) {
    forall i | 0 <= i < |h| :: GoodEntry(h[..i], h[i])
  }

  predicate IsFirstHold(e: Event, ride: RideId) {
    e.Held? && e.applied && e.ride == ride
  }

  /** Money is taken for a ride at most once, and the row that says so stays. */
  predicate OneHold(h: seq<Event>, held: set<RideId>) {
    && (forall i | 0 <= i < |h| :: h[i].Held? ==> h[i].ride in held)
    && (forall i, j | 0 <= i < j < |h| :: h[i].Held? ==> !IsFirstHold(h[j], h[i].ride))
  }

  predicate PayInv(s: State) {
    && GoodHistory(s.history) && OneHold(s.history, s.holds.Keys)
    && (s.pendingAccept.Some? ==> LastChoice(s.history) == Some((s.pendingAccept.value.ride, s.pendingAccept.value.bid)))
  }

  /** The write keeps the invariant. */
  predicate Payable(s: State, e: Effect) {
    match e
    case Publish(event) => !event.Held? && !event.Chosen? && GoodEntry(s.history, event)
    case StoreAccept(accept, command, batch) => NamedBid(batch, command) == Some(accept.bid)
    case _ => true
  }

  predicate AllPayable(s: State, effects: seq<Effect>)
    decreases |effects|
  {
    effects == [] || (Payable(s, effects[0]) && AllPayable(Perform(s, effects[0]), effects[1..]))
  }

  lemma GoodSnoc(h: seq<Event>, e: Event)
    requires GoodHistory(h) && GoodEntry(h, e)
    ensures GoodHistory(h + [e])
    ensures LastChoice(h + [e]) == if e.Chosen? then Some((e.ride, e.bid)) else LastChoice(h)
  {
    var r := h + [e];
    assert r[..|r| - 1] == h;
    forall i | 0 <= i < |r|
      ensures GoodEntry(r[..i], r[i])
    {
      assert r[..i] == h[..i];
    }
  }

  lemma PayableKeepsInv(s: State, e: Effect)
    requires PayInv(s) && Payable(s, e)
    ensures PayInv(Perform(s, e))
  {
    var t, x := Perform(s, e), Entry(s, e);
    HistoryOfOne(s, e);
    HoldRows(s, e);
    hide Perform, Entry, Payable, GoodHistory, GoodEntry, OneHold, LastChoice;
    EntryFacts(s, e);
    if x == [] {
      assert s.history + [] == s.history;
      OneHoldMore(s.history, s.holds.Keys, t.holds.Keys);
    } else {
      GoodSnoc(s.history, x[0]);
      OneHoldSnoc(s.history, s.holds.Keys, x[0], t.holds.Keys);
    }
  }

  /** Rows stay, and a hold call finds or makes one. */
  lemma HoldRows(s: State, e: Effect)
    ensures s.holds.Keys <= Perform(s, e).holds.Keys
    ensures e.CreateHold? ==> e.heldRide in Perform(s, e).holds
  {
    HoldsAfterOne(s, e);
    hide Perform;
  }

  /** What a payable write adds to the history fits it, and the pending choice is the last one. */
  lemma EntryFacts(s: State, e: Effect)
    requires Payable(s, e)
    ensures Entry(s, e) == [] ==> Perform(s, e).pendingAccept in {None, s.pendingAccept}
    ensures Entry(s, e) != [] ==>
      var t, x := Perform(s, e), Entry(s, e)[0];
      && Entry(s, e) == [x] && GoodEntry(s.history, x)
      && (x.Held? ==> x.ride in t.holds && (x.applied ==> x.ride !in s.holds))
      && t.pendingAccept == if x.Chosen? then Some(Accept(x.ride, x.bid)) else s.pendingAccept
  {
    HoldRows(s, e);
  }

  lemma OneHoldMore(h: seq<Event>, held: set<RideId>, more: set<RideId>)
    requires OneHold(h, held) && held <= more
    ensures OneHold(h, more)
  {
  }

  lemma OneHoldSnoc(h: seq<Event>, held: set<RideId>, x: Event, more: set<RideId>)
    requires OneHold(h, held) && held <= more
    requires x.Held? ==> x.ride in more && (x.applied ==> x.ride !in held)
    ensures OneHold(h + [x], more)
  {
  }

  lemma {:induction false} PayablePrefix(s: State, effects: seq<Effect>, done: nat)
    requires PayInv(s) && AllPayable(s, effects) && done <= |effects|
    ensures PayInv(PerformAll(s, effects[..done]))
    decreases done
  {
    hide PayInv, Payable, Perform;
    if done > 0 {
      PayableKeepsInv(s, effects[0]);
      assert effects[..done][0] == effects[0] && effects[..done][1..] == effects[1..][..done - 1];
      PayablePrefix(Perform(s, effects[0]), effects[1..], done - 1);
    }
  }

  /** Writes that are payable in every state. */
  predicate Free(e: Effect) {
    match e
    case Publish(event) => !event.Held? && !event.Chosen? && !event.Accepted?
    case StoreAccept(accept, command, batch) => NamedBid(batch, command) == Some(accept.bid)
    case _ => true
  }

  predicate AllFree(effects: seq<Effect>) {
    forall i | 0 <= i < |effects| :: Free(effects[i])
  }

  lemma {:induction false} FreeIsPayable(s: State, effects: seq<Effect>)
    requires AllFree(effects)
    ensures AllPayable(s, effects)
    decreases |effects|
  {
    if effects != [] {
      assert Free(effects[0]);
      FreeIsPayable(Perform(s, effects[0]), effects[1..]);
    }
  }

  lemma DecidesPay(s: State, m: Message, w: World)
    requires Pays(s, m)
    ensures Decide(s, m, w) == OnPay(s, s.pendingAccept.value, w)
  {
    hide Planned;
  }

  lemma OnlyPayingAccepts(s: State, m: Message, w: World)
    requires !Pays(s, m)
    ensures AllFree(Decide(s, m, w))
  {
    hide Decide, NamedBid;
    DecisionPublishes(s, m, w);
    var effects := Decide(s, m, w);
    forall i | 0 <= i < |effects|
      ensures Free(effects[i])
    {
      assert Allowed(effects[i], RequestedBy(s, m).Some?, false, AsksForEdit(s, m), GivesReason(s, m));
    }
  }

  /** The ride is still on offer, the balance covers the fare and the services cooperate. */
  predicate CanPay(s: State, a: Accept, w: World) {
    a.ride in s.metas && w.driverReady && a.bid.price <= s.balance && w.holdWorks
  }

  predicate PaymentSucceeds(s: State, m: Message, w: World) {
    Pays(s, m) && CanPay(s, s.pendingAccept.value, w)
  }

  lemma PayIsPayable(s: State, a: Accept, w: World)
    requires PayInv(s) && s.pendingAccept == Some(a)
    ensures AllPayable(s, OnPay(s, a, w))
  {
    hide GoodHistory, OneHold, Perform, WithHold, Payable, AllPayable, LastChoice, PaidFor;
    var effects := OnPay(s, a, w);
    if |effects| == 5 {
      var hold := CreateHold(a.ride, a.bid.price);
      var publish := Publish(Accepted(a.ride, a.bid, a.bid.price));
      var rest := [SetRideState(a.ride, Confirmed), ClearAccept];
      var t := Perform(s, hold);
      var u := Perform(t, ClearAccept);
      FreeIsPayable(Perform(u, publish), rest);
      AcceptIsPayable(s, a);
      PayableCons(u, publish, rest);
      PayableCons(t, ClearAccept, [publish] + rest);
      PayableCons(s, hold, [ClearAccept] + ([publish] + rest));
      assert effects == [hold] + ([ClearAccept] + ([publish] + rest));
    } else {
      FreeIsPayable(s, effects);
    }
  }

  /** Behind the hold, the acceptance fits the history. */
  lemma AcceptIsPayable(s: State, a: Accept)
    requires LastChoice(s.history) == Some((a.ride, a.bid))
    ensures var hold, publish := CreateHold(a.ride, a.bid.price), Publish(Accepted(a.ride, a.bid, a.bid.price));
      && Payable(s, hold) && Payable(Perform(s, hold), ClearAccept)
      && Payable(Perform(Perform(s, hold), ClearAccept), publish)
  {
    var hold := CreateHold(a.ride, a.bid.price);
    HistoryOfOne(s, hold);
    HistoryOfOne(Perform(s, hold), ClearAccept);
    hide Perform;
    assert Perform(Perform(s, hold), ClearAccept).history == s.history + Entry(s, hold);
    NoChoiceIn(s.history, Entry(s, hold)[0]);
  }

  lemma PayableCons(s: State, e: Effect, rest: seq<Effect>)
    requires Payable(s, e) && AllPayable(Perform(s, e), rest)
    ensures AllPayable(s, [e] + rest)
  {
    hide Payable, Perform;
    assert ([e] + rest)[1..] == rest;
  }

  lemma NoChoiceIn(h: seq<Event>, e: Event)
    requires e.Held?
    ensures LastChoice(h + [e]) == LastChoice(h)
  {
    assert (h + [e])[..|h|] == h;
  }

  lemma StepKeepsPay(s: State, step: Step)
    requires PayInv(s) && Enabled(s, step)
    ensures PayInv(Next(s, step))
  {
    hide PayInv;
    if step.Outside? {
      PayableKeepsInv(s, step.effect);
    } else {
      hide Decide, Pays, AllFree;
      var effects := Decide(s, step.m, step.w);
      if Pays(s, step.m) {
        DecidesPay(s, step.m, step.w);
        PaysHasAccept(s, step.m);
        PayIsPayable(s, s.pendingAccept.value, step.w);
      } else {
        OnlyPayingAccepts(s, step.m, step.w);
        FreeIsPayable(s, effects);
      }
      assert effects[..|effects|] == effects;
      PayablePrefix(s, effects, if step.Handle? then |effects| else step.done);
    }
  }

  lemma PaysHasAccept(s: State, m: Message)
    requires Pays(s, m)
    ensures s.pendingAccept.Some?
  {
  }

  lemma {:induction false} RunKeepsPay(s: State, steps: seq<Step>)
    requires PayInv(s) && Legal(s, steps)
    ensures PayInv(Run(s, steps))
    decreases |steps|
  {
    hide Next, Enabled, PayInv;
    if steps != [] {
      StepKeepsPay(s, steps[0]);
      RunKeepsPay(Next(s, steps[0]), steps[1..]);
    }
  }

  /** Where the choice was stored, with no later one. */
  lemma {:induction false} ChoiceAt(h: seq<Event>, ride: RideId, bid: Bid) returns (c: nat)
    requires LastChoice(h) == Some((ride, bid))
    ensures c < |h| && h[c].Chosen? && h[c].ride == ride && h[c].bid == bid
    ensures forall i | c < i < |h| :: !h[i].Chosen?
  {
    c := |h| - 1;
    if !h[c].Chosen? {
      c := ChoiceAt(h[..|h| - 1], ride, bid);
    }
  }

  /** The entry at i is an acceptance of the choice at c. */
  predicate Honours(h: seq<Event>, c: nat, i: nat)
    requires c < i < |h|
  {
    && h[i].Accepted? && h[c].Chosen? && h[c].ride == h[i].ride && h[c].bid == h[i].bid
    && NamedBid(h[c].batch, h[c].command) == Some(h[i].bid)
    && (forall k | c < k < i :: !h[k].Chosen?)
  }

  /** The entry before is a hold call that returned for this ride and fare, the price of the bid. */
  predicate Paid(h: seq<Event>, i: nat)
    requires i < |h| && h[i].Accepted?
  {
    && h[i].agreedFare == h[i].bid.price
    && i > 0 && h[i - 1].Held? && h[i - 1].ride == h[i].ride && h[i - 1].amount == h[i].agreedFare
  }

  ghost predicate HonoursAChoice(h: seq<Event>, i: nat)
    requires i < |h|
  {
    exists c: nat | c < i :: Honours(h, c, i)
  }

  /**
   On every run, interrupted or not, an acceptance directly follows a hold call that returned for
   the same ride and fare; the fare is the bid's price, and the bid is the one that the rider's last
   command named in the batch stored at that time.  No ride has money taken for it twice.
   */
  lemma PaidOnEveryRun(steps: seq<Step>)
    requires Legal(FRESH, steps)
    ensures var h := Run(FRESH, steps).history;
      && (forall i: nat | i < |h| :: h[i].Accepted? ==> Paid(h, i) && HonoursAChoice(h, i))
      && (forall i, j | 0 <= i < j < |h| :: h[i].Held? && h[j].Held? && h[i].ride == h[j].ride ==> !h[j].applied)
  {
    FreshIsPaid();
    RunKeepsPay(FRESH, steps);
    var h := Run(FRESH, steps).history;
    forall i: nat | i < |h| && h[i].Accepted?
      ensures Paid(h, i) && HonoursAChoice(h, i)
    {
      assert GoodEntry(h[..i], h[i]);
      var c := ChoiceAt(h[..i], h[i].ride, h[i].bid);
      assert GoodEntry(h[..c], h[c]);
      assert forall k | c < k < i :: h[k] == h[..i][k];
      assert Honours(h, c, i);
    }
  }

  lemma FreshIsPaid()
    ensures PayInv(FRESH)
  {
  }

  /** No hold row exists for the ride. */
  predicate Unheld(s: State, ride: RideId) {
    ride !in s.holds
  }

  /** Everything a payment writes, in one state. */
  function Settled(s: State, a: Accept): State {
    WithHold(s, a.ride, a.bid.price).(pendingAccept := None, states := s.states[a.ride := Confirmed],
      history := s.history + [Held(a.ride, a.bid.price, Unheld(s, a.ride)), Accepted(a.ride, a.bid, a.bid.price)])
  }

  lemma HoldWritten(s: State, ride: RideId, amount: Kobo)
    ensures var t := WithHold(s, ride, amount);
      Perform(s, CreateHold(ride, amount)) == t
      && t.history == s.history + [Held(ride, amount, Unheld(s, ride))] && t.states == s.states
  {
  }

  lemma RestWritten(t: State, ride: RideId, accepted: Event)
    ensures var u := Perform(Perform(t, ClearAccept), Publish(accepted));
      Perform(Perform(u, SetRideState(ride, Confirmed)), ClearAccept)
      == t.(pendingAccept := None, states := t.states[ride := Confirmed], history := t.history + [accepted])
  {
  }

  lemma PayState(s: State, a: Accept)
    ensures PerformAll(s, [CreateHold(a.ride, a.bid.price), ClearAccept,
                           Publish(Accepted(a.ride, a.bid, a.bid.price)),
                           SetRideState(a.ride, Confirmed), ClearAccept]) == Settled(s, a)
  {
    var held, accepted := Held(a.ride, a.bid.price, Unheld(s, a.ride)), Accepted(a.ride, a.bid, a.bid.price);
    var x := [CreateHold(a.ride, a.bid.price), ClearAccept, Publish(accepted)];
    var y := [SetRideState(a.ride, Confirmed), ClearAccept];
    hide Perform, PerformAll, WithHold, Unheld;
    PerformAppend(s, x, y);
    PerformThree(s, x[0], x[1], x[2]);
    PerformTwo(PerformAll(s, x), y[0], y[1]);
    HoldWritten(s, a.ride, a.bid.price);
    RestWritten(WithHold(s, a.ride, a.bid.price), a.ride, accepted);
    assert s.history + [held] + [accepted] == s.history + [held, accepted];
    assert x + y == [x[0], x[1], x[2], y[0], y[1]];
  }

  /** The entries that the first `done` writes of a payment add. */
  function PaymentEntries(s: State, a: Accept, done: nat): seq<Event> {
    var held, accepted := Held(a.ride, a.bid.price, Unheld(s, a.ride)), Accepted(a.ride, a.bid, a.bid.price);
    if done == 0 then [] else if done <= 2 then [held] else [held, accepted]
  }

  /** The hold table and the wallet are those of a hold call for the fare. */
  predicate Charged(s: State, t: State, a: Accept) {
    && t.holds == (if Unheld(s, a.ride) then s.holds[a.ride := Hold(a.bid.price, true)] else s.holds)
    && t.balance == (if Unheld(s, a.ride) then s.balance - a.bid.price else s.balance)
  }

  /** A hold call was made for the choice; no driver hears of it, and no choice is left to pay for again. */
  predicate HeldForNobody(s: State, t: State, a: Accept) {
    && t.history == s.history + [Held(a.ride, a.bid.price, Unheld(s, a.ride))]
    && a.ride in t.holds && t.pendingAccept.None?
  }

  /** The first `done` of the five writes, in one state. */
  function PaidUpTo(s: State, a: Accept, done: nat): State {
    if done == 0 then s
    else
      var t := WithHold(s, a.ride, a.bid.price);
      t.(pendingAccept := if done == 1 then s.pendingAccept else None,
        states := if done >= 4 then s.states[a.ride := Confirmed] else s.states,
        history := s.history + PaymentEntries(s, a, done))
  }

  function PayEffects(a: Accept): seq<Effect> {
    [CreateHold(a.ride, a.bid.price), ClearAccept, Publish(Accepted(a.ride, a.bid, a.bid.price)),
     SetRideState(a.ride, Confirmed), ClearAccept]
  }

  lemma {:induction false} PayPrefix(s: State, a: Accept, done: nat)
    requires done <= 5
    ensures PerformAll(s, PayEffects(a)[..done]) == PaidUpTo(s, a, done)
  {
    var effects := PayEffects(a);
    hide Perform, WithHold;
    if done == 0 {
    } else if done == 5 {
      PayState(s, a);
      assert effects[..5] == effects;
    } else {
      PayPrefix(s, a, done - 1);
      PerformAppend(s, effects[..done - 1], [effects[done - 1]]);
      PerformOne(PaidUpTo(s, a, done - 1), effects[done - 1]);
      assert effects[..done] == effects[..done - 1] + [effects[done - 1]];
      PaidOneMore(s, a, done);
    }
  }

  lemma PaidOneMore(s: State, a: Accept, done: nat)
    requires 1 <= done <= 4
    ensures Perform(PaidUpTo(s, a, done - 1), PayEffects(a)[done - 1]) == PaidUpTo(s, a, done)
  {
    HoldWritten(s, a.ride, a.bid.price);
    var held, accepted := Held(a.ride, a.bid.price, Unheld(s, a.ride)), Accepted(a.ride, a.bid, a.bid.price);
    assert s.history + [held] + [accepted] == s.history + [held, accepted];
  }

  /** The writes of a payment that succeeds, as far as the step gets with them. */
  predicate PaysBy(s: State, step: Step) {
    !step.Outside? && PaymentSucceeds(s, step.m, step.w)
  }

  function WritesDone(step: Step): nat {
    if step.Interrupt? then step.done else 5
  }

  lemma PaidStep(s: State, step: Step)
    requires PaysBy(s, step) && Enabled(s, step)
    ensures WritesDone(step) <= 5 && Next(s, step) == PaidUpTo(s, s.pendingAccept.value, WritesDone(step))
  {
    hide PaidUpTo, PerformAll;
    var a := s.pendingAccept.value;
    DecidesPay(s, step.m, step.w);
    hide Decide;
    assert Decide(s, step.m, step.w) == PayEffects(a);
    assert PayEffects(a)[..5] == PayEffects(a);
    PayPrefix(s, a, WritesDone(step));
  }

  /**
   What each cut of a payment's five writes leaves.  The fare is held from the first on, the choice gone from
   the second, the acceptance out from the third, the ride confirmed from the fourth; the active ride never
   changes.  Exactly the cut behind two writes holds the fare for nobody: the rider cannot even pay again.
   */
  lemma InterruptedPayment(s: State, m: Message, w: World, done: nat)
    requires PaymentSucceeds(s, m, w) && done <= 5
    ensures var a, step := s.pendingAccept.value, Interrupt(m, w, done);
      Enabled(s, step) && var t := Next(s, step);
      && t.history == s.history + PaymentEntries(s, a, done)
      && (if done == 0 then t.holds == s.holds && t.balance == s.balance else Charged(s, t, a))
      && t.pendingAccept == (if done <= 1 then s.pendingAccept else None)
      && t.states == (if done <= 3 then s.states else s.states[a.ride := Confirmed])
      && t.activeRide == s.activeRide
      && (HeldForNobody(s, t, a) <==> done == 2)
  {
    DecidesPay(s, m, w);
    hide Decide, PerformAll;
    var a := s.pendingAccept.value;
    assert Decide(s, m, w) == PayEffects(a);
    PaidStep(s, Interrupt(m, w, done));
    NobodyBehindTwo(s, PaidUpTo(s, a, done), a, done);
  }

  lemma NobodyBehindTwo(s: State, t: State, a: Accept, done: nat)
    requires done <= 5 && s.pendingAccept == Some(a)
    requires t.pendingAccept == if done <= 1 then s.pendingAccept else None
    requires t.history == s.history + PaymentEntries(s, a, done)
    requires done > 0 ==> Charged(s, t, a)
    ensures HeldForNobody(s, t, a) <==> done == 2
  {
    assert |t.history| == |s.history| + |PaymentEntries(s, a, done)|;
  }

  /**
   A payment cut right behind its hold can be repeated exactly when what is left in the wallet covers the
   fare once more, though the hold is already there: then the acceptance goes out with one charge in all.
   Otherwise "pay" changes nothing, the fare stays held and the driver never hears of it.
   */
  lemma PayingAgain(s: State, m: Message, w: World, again: Message, w2: World)
    requires PaymentSucceeds(s, m, w) && w2.driverReady && w2.holdWorks
    requires Enabled(s, Interrupt(m, w, 1)) && Pays(Next(s, Interrupt(m, w, 1)), again)
    ensures var a, t := s.pendingAccept.value, Next(s, Interrupt(m, w, 1));
      var end := Next(t, Handle(again, w2));
      var enough := a.bid.price <= (if Unheld(s, a.ride) then s.balance - a.bid.price else s.balance);
      && (PaymentSucceeds(t, again, w2) <==> enough)
      && Charged(s, end, a)
      && end.history == s.history + (if enough then [Held(a.ride, a.bid.price, Unheld(s, a.ride)),
           Held(a.ride, a.bid.price, false), Accepted(a.ride, a.bid, a.bid.price)]
         else [Held(a.ride, a.bid.price, Unheld(s, a.ride))])
      && (end == t <==> !enough)
  {
    var a := s.pendingAccept.value;
    var t := Next(s, Interrupt(m, w, 1));
    PaidStep(s, Interrupt(m, w, 1));
    hide Next, Pays;
    assert t == WithHold(s, a.ride, a.bid.price).(pendingAccept := Some(a), states := s.states,
                  history := s.history + PaymentEntries(s, a, 1));
    PaidAgain(t, a, again, w2);
    assert |PaidUpTo(t, a, 5).history| == |t.history| + 2;
  }

  lemma PaidAgain(t: State, a: Accept, m: Message, w: World)
    requires a.ride in t.metas && Pays(t, m) && t.pendingAccept == Some(a) && w.driverReady && w.holdWorks
    ensures Next(t, Handle(m, w)) == if a.bid.price <= t.balance then PaidUpTo(t, a, 5) else t
  {
    DecidesPay(t, m, w);
    if a.bid.price <= t.balance {
      hide Pays, Decide;
      PaidStep(t, Handle(m, w));
    }
  }

  /**
   The acceptance goes out exactly when the payment gets as far as its third write.  The fare it agrees to is
   then what is held for the ride exactly when the ride had no hold row yet, or an active one of that very
   amount.  Any other old row answers for the new call: the acceptance is out although less, more or
   nothing is held.
   */
  lemma PaidIsHeldIff(s: State, step: Step)
    requires PaysBy(s, step) && Enabled(s, step)
    ensures var a, t := s.pendingAccept.value, Next(s, step);
      var held, accepted := Held(a.ride, a.bid.price, Unheld(s, a.ride)), Accepted(a.ride, a.bid, a.bid.price);
      && (t.history == s.history + [held, accepted] <==> WritesDone(step) >= 3)
      && (WritesDone(step) < 3 ==> t.history <= s.history + [held])
      && (WritesDone(step) >= 3 ==>
            && t.pendingAccept.None? && a.ride in t.holds
            && (t.holds[a.ride] == Hold(a.bid.price, true)
                <==> a.ride !in s.holds || s.holds[a.ride] == Hold(a.bid.price, true))
            && t.balance == (if a.ride in s.holds then s.balance else s.balance - a.bid.price))
  {
    PaidStep(s, step);
    hide Next, Decide;
    var a, t := s.pendingAccept.value, Next(s, step);
    assert |t.history| == |s.history| + |PaymentEntries(s, a, WritesDone(step))|;
  }

  /** How the rider, the wallet and the ride stand behind an attempt to pay. */
  predicate PaymentLeaves(s: State, t: State, a: Accept, w: World) {
    if CanPay(s, a, w) then
      && Charged(s, t, a) && t.pendingAccept.None? && t.activeRide == s.activeRide
      && t.states == s.states[a.ride := Confirmed] && t.history == s.history + PaymentEntries(s, a, 5)
    else
      && t.history == s.history && t.holds == s.holds && t.balance == s.balance && t.states == s.states
      && t.activeRide == (if a.ride in s.metas then s.activeRide else None)
      && t.pendingAccept == (if a.ride in s.metas && w.driverReady then Some(a) else None)
  }

  /** The state an attempt to pay ends in. */
  function AfterPaying(s: State, a: Accept, w: World): State {
    if CanPay(s, a, w) then PaidUpTo(s, a, 5)
    else if a.ride !in s.metas then s.(pendingAccept := None, activeRide := None)
    else if !w.driverReady then s.(pendingAccept := None)
    else s
  }

  lemma PaymentOutcome(s: State, a: Accept, w: World)
    ensures PerformAll(s, OnPay(s, a, w)) == AfterPaying(s, a, w)
  {
    if CanPay(s, a, w) {
      PayState(s, a);
    } else {
      PerformTwo(s, ClearAccept, ClearActive);
    }
  }

  lemma PaymentMeans(s: State, a: Accept, w: World)
    requires s.pendingAccept == Some(a)
    ensures PaymentLeaves(s, AfterPaying(s, a, w), a, w)
  {
  }

  /**
   A failed payment publishes nothing and takes no money.  It keeps the active ride exactly when the
   chosen ride still has its chat state; else that state's absence costs the rider the active ride,
   whichever it is.
   */
  lemma FailedPaymentMovesNothing(s: State, m: Message, w: World)
    requires Pays(s, m) && !PaymentSucceeds(s, m, w)
    ensures var t, chosen := Next(s, Handle(m, w)), s.pendingAccept.value.ride;
      && t.history == s.history && t.holds == s.holds && t.balance == s.balance
      && t.activeRide == (if chosen in s.metas then s.activeRide else None)
      && (t.pendingAccept.Some? <==> chosen in s.metas && w.driverReady)
  {
    DecidesPay(s, m, w);
    PaymentOutcome(s, s.pendingAccept.value, w);
  }

  /** What a text accepts is the bid that its number names, or the only one. */
  lemma AcceptTakesTheNamedBid(s: State, m: Message, w: World)
    requires s.stage != Some(AwaitingCancelReason) && m.Text? && s.activeRide.Some?
    requires var t := Next(s, Handle(m, w)); t.pendingAccept.Some? && t.pendingAccept != s.pendingAccept
    ensures var a := Next(s, Handle(m, w)).pendingAccept.value;
      && a.ride == s.activeRide.value && a.ride in s.batches && m.words.accept.Some?
      && var batch := s.batches[a.ride];
         match m.words.accept.value
         case Numbered(n) => 1 <= n <= |batch| && a.bid == batch[n - 1]
         case Unspecified => batch == [a.bid]
  {
    hide Planned;
    var ride := s.activeRide.value;
    var effects := Decide(s, m, w);
    if NoChoice(effects) {
      NoAcceptStored(s, effects);
    } else {
      assert effects == OnAccept(s, ride, m.words.accept.value, w);
      PerformOne(s, effects[0]);
    }
  }

  predicate IsChoice(e: Effect) {
    e.StoreAccept?
  }

  predicate NoChoice(effects: seq<Effect>) {
    forall i | 0 <= i < |effects| :: !IsChoice(effects[i])
  }

  lemma {:induction false} NoAcceptStored(s: State, effects: seq<Effect>)
    requires NoChoice(effects)
    ensures PerformAll(s, effects).pendingAccept.None? || PerformAll(s, effects).pendingAccept == s.pendingAccept
    decreases |effects|
  {
    if effects != [] {
      assert !IsChoice(effects[0]);
      NoAcceptStoredByOne(s, effects[0]);
      hide Perform;
      NoAcceptStored(Perform(s, effects[0]), effects[1..]);
    }
  }

  lemma NoAcceptStoredByOne(s: State, e: Effect)
    requires !IsChoice(e)
    ensures Perform(s, e).pendingAccept.None? || Perform(s, e).pendingAccept == s.pendingAccept
  {
  }

  const BID1 := Bid(1, 1, 3000 * NAIRA)

  const BID2 := Bid(2, 2, 5000 * NAIRA)

  /** Two bids are on the table and the wallet is full. */
  const OFFERED := FRESH.(activeRide := Some(1), metas := map[1 := OLD_RIDE], bids := map[1 := []],
                          states := map[1 := Bidding], batches := map[1 := [BID1, BID2]], balance := 9000 * NAIRA)

  /** The first bid is chosen and paid, and a late bid has put the ride back into bidding. */
  const PAID_ONCE := OFFERED.(holds := map[1 := Hold(3000 * NAIRA, true)], balance := 6000 * NAIRA,
                              history := [Chosen(1, BID1, Numbered(1), [BID1, BID2]),
                                          Held(1, 3000 * NAIRA, true), Accepted(1, BID1, 3000 * NAIRA)])

  lemma ReachesOffered()
    ensures Reaches(FRESH, OFFERED)
  {
    hide Reaches;
    ReachesItself(FRESH);
    ReachesStep(FRESH, FRESH, Outside(StoreRide(1, OLD_RIDE)));
    var s1 := Perform(FRESH, StoreRide(1, OLD_RIDE));
    ReachesStep(FRESH, s1, Outside(SetActive(1)));
    var s2 := Perform(s1, SetActive(1));
    ReachesStep(FRESH, s2, Outside(SetRideState(1, Bidding)));
    var s3 := Perform(s2, SetRideState(1, Bidding));
    ReachesStep(FRESH, s3, Outside(StoreBatch(1, [BID1, BID2])));
    var s4 := Perform(s3, StoreBatch(1, [BID1, BID2]));
    ReachesStep(FRESH, s4, Outside(Deposit(9000 * NAIRA)));
    assert Perform(s4, Deposit(9000 * NAIRA)) == OFFERED;
  }

  function AcceptWords(n: nat): Words {
    SILENT.(accept := Some(Numbered(n)))
  }

  /** Choosing the n-th bid, then paying for it. */
  lemma ReachesPaid(s: State, n: nat)
    requires Reaches(FRESH, s) && s.stage != Some(AwaitingCancelReason)
    requires s.activeRide == Some(1) && s.pendingAccept.None?
    requires s.states == map[1 := Bidding] && s.metas == map[1 := OLD_RIDE] && s.batches == map[1 := [BID1, BID2]]
    requires 1 <= n <= 2 && (if n == 1 then BID1 else BID2).price <= s.balance
    ensures var bid := if n == 1 then BID1 else BID2;
      var t := WithHold(s, 1, bid.price);
      Reaches(FRESH, s.(states := map[1 := Confirmed], holds := t.holds, balance := t.balance,
        history := s.history + [Chosen(1, bid, Numbered(n), [BID1, BID2]), Held(1, bid.price, Unheld(s, 1)),
                                Accepted(1, bid, bid.price)]))
  {
    hide Reaches, Perform, PerformAll, Settled;
    var bid := if n == 1 then BID1 else BID2;
    ReachesChosen(s, n, bid);
    ReachesSettled(s.(pendingAccept := Some(Accept(1, bid)), history := s.history + [Chosen(1, bid, Numbered(n), [BID1, BID2])]), bid);
    SettledIs(s, n, bid);
  }

  lemma SettledIs(s: State, n: nat, bid: Bid)
    requires s.pendingAccept.None? && s.states == map[1 := Bidding]
    ensures var t := WithHold(s, 1, bid.price);
      var choice := Chosen(1, bid, Numbered(n), [BID1, BID2]);
      Settled(s.(pendingAccept := Some(Accept(1, bid)), history := s.history + [choice]), Accept(1, bid))
      == s.(states := map[1 := Confirmed], holds := t.holds, balance := t.balance,
            history := s.history + [choice, Held(1, bid.price, Unheld(s, 1)), Accepted(1, bid, bid.price)])
  {
    var choice, held, accepted := Chosen(1, bid, Numbered(n), [BID1, BID2]), Held(1, bid.price, Unheld(s, 1)), Accepted(1, bid, bid.price);
    assert s.history + [choice] + [held, accepted] == s.history + [choice, held, accepted];
  }

  lemma ReachesChosen(s: State, n: nat, bid: Bid)
    requires Reaches(FRESH, s) && s.stage != Some(AwaitingCancelReason)
    requires s.activeRide == Some(1) && s.pendingAccept.None?
    requires s.states == map[1 := Bidding] && s.batches == map[1 := [BID1, BID2]]
    requires 1 <= n <= 2 && bid == if n == 1 then BID1 else BID2
    ensures Reaches(FRESH, s.(pendingAccept := Some(Accept(1, bid)),
                              history := s.history + [Chosen(1, bid, Numbered(n), [BID1, BID2])]))
  {
    hide Reaches;
    var store := StoreAccept(Accept(1, bid), Numbered(n), [BID1, BID2]);
    assert Decide(s, Text(AcceptWords(n)), CALM) == [store];
    PerformOne(s, store);
    ReachesStep(FRESH, s, Handle(Text(AcceptWords(n)), CALM));
  }

  lemma ReachesSettled(s: State, bid: Bid)
    requires Reaches(FRESH, s) && s.stage != Some(AwaitingCancelReason)
    requires s.activeRide == Some(1) && s.pendingAccept == Some(Accept(1, bid))
    requires s.states == map[1 := Bidding] && s.metas == map[1 := OLD_RIDE] && bid.price <= s.balance
    ensures Reaches(FRESH, Settled(s, Accept(1, bid)))
  {
    hide Reaches, Perform, PerformAll, Settled;
    var m := Text(SILENT.(pay := true));
    DecidesPay(s, m, CALM);
    PayState(s, Accept(1, bid));
    ReachesStep(FRESH, s, Handle(m, CALM));
  }

  /** A driver accepted at 5000 naira while 3000 naira are held: the old row answered. */
  lemma AReusedHoldFallsShort()
    ensures exists s :: Reaches(FRESH, s) && Accepted(1, BID2, 5000 * NAIRA) in s.history
                        && s.holds == map[1 := Hold(3000 * NAIRA, true)]
  {
    hide Reaches;
    ReachesOffered();
    ReachesPaid(OFFERED, 1);
    var s1 := PAID_ONCE.(states := map[1 := Confirmed]);
    assert OFFERED.history + [Chosen(1, BID1, Numbered(1), [BID1, BID2]), Held(1, BID1.price, true),
                              Accepted(1, BID1, BID1.price)] == PAID_ONCE.history;
    ReachesStep(FRESH, s1, Outside(SetRideState(1, Bidding)));
    assert Perform(s1, SetRideState(1, Bidding)) == PAID_ONCE;
    ReachesPaid(PAID_ONCE, 2);
  }

  /** The first bid is chosen, its ride expires, and a late bid brings ride 2 back. */
  const OUTLIVED := OFFERED.(activeRide := Some(2), pendingAccept := Some(Accept(1, BID1)),
                             metas := map[2 := OLD_RIDE], bids := map[2 := []], states := map[2 := Searching],
                             batches := map[], history := [Chosen(1, BID1, Numbered(1), [BID1, BID2])])

  /** Ride 2 is active, the payment is for ride 1, and it takes ride 2 away. */
  predicate LosesAnotherRide(s: State, m: Message) {
    && Pays(s, m) && s.pendingAccept.value.ride !in s.metas
    && s.activeRide == Some(2) && s.pendingAccept.value.ride == 1
    && Next(s, Handle(m, CALM)).activeRide.None?
  }

  /** A reachable state in which paying for an expired choice loses another, live ride. */
  lemma AFailedPaymentCanLoseAnotherRide()
    ensures exists s, m :: Reaches(FRESH, s) && LosesAnotherRide(s, m)
  {
    hide Reaches;
    ReachesOutlived();
    var m := Text(SILENT.(pay := true));
    FailedPaymentMovesNothing(OUTLIVED, m, CALM);
    assert LosesAnotherRide(OUTLIVED, m);
  }

  lemma ReachesOutlived()
    ensures Reaches(FRESH, OUTLIVED)
  {
    hide Reaches;
    ReachesOffered();
    ReachesChosen(OFFERED, 1, BID1);
    var s1 := OFFERED.(pendingAccept := Some(Accept(1, BID1)),
                       history := OFFERED.history + [Chosen(1, BID1, Numbered(1), [BID1, BID2])]);
    ReachesStep(FRESH, s1, Outside(CleanupRide(1, {})));
    var s2 := Perform(s1, CleanupRide(1, {}));
    ReachesStep(FRESH, s2, Outside(StoreRide(2, OLD_RIDE)));
    var s3 := Perform(s2, StoreRide(2, OLD_RIDE));
    ReachesStep(FRESH, s3, Outside(SetActive(2)));
    assert Perform(s3, SetActive(2)) == OUTLIVED;
  }
}
