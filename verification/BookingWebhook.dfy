/**
 The webhook handler, branch by branch.  (apps/api-gateway/src/http/whatsapp.route.ts)
 */
module BookingWebhook {
  import opened Options
  import opened Pricing
  import opened Booking
  import opened BookingActive
  import opened BookingEdits
  import opened BookingFloor
  import opened BookingPayment
  import opened BookingRequests

  lemma HandlingNeverStrands(s: State, m: Message, w: World)
    ensures !Strands(s, Handle(m, w))
  {
  }

  lemma StoppedWell(s: State, m: Message, w: World, done: nat)
    requires done <= |Decide(s, m, w)|
    ensures var t := PerformAll(s, Decide(s, m, w)[..done]);
      && (PayInv(s) ==> PayInv(t))
      && (FloorInv(s) ==> (FloorInv(t) <==> !Strands(s, Interrupt(m, w, done))))
  {
    hide PayInv, FloorInv, Decide, Perform, PerformAll, Strands;
    var step := Interrupt(m, w, done);
    assert Next(s, step) == PerformAll(s, Decide(s, m, w)[..done]);
    if PayInv(s) {
      StepKeepsPay(s, step);
    }
    if FloorInv(s) {
      StepKeepsFloorIff(s, step);
    }
  }

  lemma HandledWell(s: State, m: Message, w: World)
    ensures var t := PerformAll(s, Decide(s, m, w));
      && t == Next(s, Handle(m, w))
      && (PayInv(s) ==> PayInv(t)) && (FloorInv(s) ==> FloorInv(t))
      && (s.activeRide.Some? ==> t.activeRide == RideAfter(s, m, w))
      && (RideUnderway(s) ==> (t.activeRide != s.activeRide <==> GivesReason(s, m) || PinWhileEditing(s, m, w)))
  {
    hide PayInv, FloorInv, Decide, Perform, PerformAll, Strands;
    if PayInv(s) {
      StepKeepsPay(s, Handle(m, w));
    }
    if FloorInv(s) {
      StepKeepsFloorIff(s, Handle(m, w));
      HandlingNeverStrands(s, m, w);
    }
    if s.activeRide.Some? {
      ActiveRideAfter(s, m, w);
      if RideUnderway(s) {
        UnderwayGoes(s, m, w);
      }
    }
  }

  // ---------- what a branch leaves ----------

  /** Only the stage, the pending route and the pending location differ. */
  predicate OnlyConversation(s: State, t: State) {
    t == s.(stage := t.stage, route := t.route, location := t.location)
  }

  predicate Conversational(e: Effect) {
    e.SetStage? || e.ClearStage? || e.StoreRoute? || e.ClearRoute? || e.SetLocation? || e.ClearLocation?
  }

  lemma {:induction false} StaysConversation(s: State, effects: seq<Effect>)
    requires forall i | 0 <= i < |effects| :: Conversational(effects[i])
    ensures OnlyConversation(s, PerformAll(s, effects))
    decreases |effects|
  {
    if effects != [] {
      assert Conversational(effects[0]);
      var t := Perform(s, effects[0]);
      assert OnlyConversation(s, t);
      hide Perform;
      StaysConversation(t, effects[1..]);
    }
  }

  /** The new route of an inline edit, if it can be planned. */
  function InlineRoute(m: Meta, edit: EditCommand, w: World): Option<Route> {
    if !edit.inline || w.geo.None? || w.distance.None? then None
    else if edit.pickup then Some(Planned(w.geo.value, m.dest, w.distance.value))
    else Some(Planned(m.pickup, w.geo.value, w.distance.value))
  }

  /** A planned inline edit cancels the ride; one that is not leaves all as it was, or asks for the new place. */
  function AfterEdit(s: State, ride: RideId, m: Meta, edit: EditCommand, w: World): State {
    var r := InlineRoute(m, edit, w);
    if r.Some? then Rerouted(s, Some(ride), r.value, w.kept)
    else if edit.inline then s
    else s.(route := Some(Placeholder(m)), stage := Some(if edit.pickup then EditingPickup else EditingDestination))
  }

  lemma EditOutcome(s: State, ride: RideId, m: Meta, edit: EditCommand, w: World)
    ensures PerformAll(s, OnEditRide(ride, m, edit, w)) == AfterEdit(s, ride, m, edit, w)
  {
    hide Planned, Placeholder, Rerouted;
    var r := InlineRoute(m, edit, w);
    if r.Some? {
      assert OnEditRide(ride, m, edit, w) == Rerouting(Some(ride), r.value, w.kept);
      EditPerformed(s, Some(ride), r.value, w.kept);
    } else if !edit.inline {
      PerformTwo(s, StoreRoute(Placeholder(m)), SetStage(if edit.pickup then EditingPickup else EditingDestination));
    }
  }

  /** A pin that ends an edit reroutes; any other one touches neither the ride nor the choice nor the money. */
  predicate PinLeaves(s: State, t: State, place: Place, w: World) {
    if PinWhileEditing(s, Pin(place), w)
    then t == Rerouted(s, s.activeRide, Moved(s, place, w.distance.value), w.kept)
    else OnlyConversation(s, t)
  }

  lemma PinOutcome(s: State, place: Place, w: World)
    ensures PinLeaves(s, PerformAll(s, OnPin(s, place, w)), place, w)
  {
    hide Planned, Moved, Rerouted, PerformAll, OnlyConversation;
    if PinWhileEditing(s, Pin(place), w) {
      assert OnPin(s, place, w) == Rerouting(s.activeRide, Moved(s, place, w.distance.value), w.kept);
      EditPerformed(s, s.activeRide, Moved(s, place, w.distance.value), w.kept);
    } else {
      StaysConversation(s, OnPin(s, place, w));
    }
  }

  /** Without a reason nothing changes; with one the ride, if there is one, ends. */
  function AfterReason(s: State, reason: Option<string>, kept: set<RideKey>): State {
    if reason.None? then s
    else
      (if s.activeRide.Some? then WithoutRide(s, s.activeRide.value, Given(reason.value), kept) else s).(
        stage := None, route := None, location := None)
  }

  lemma ReasonOutcome(s: State, reason: Option<string>, kept: set<RideKey>)
    ensures PerformAll(s, OnCancelReason(s, reason, kept)) == AfterReason(s, reason, kept)
  {
    hide WithoutRide;
    if reason.Some? && s.activeRide.Some? {
      EndedByReason(s, s.activeRide.value, reason.value, kept);
    } else if reason.Some? {
      assert OnCancelReason(s, reason, kept) == [ClearStage, ClearRoute, ClearLocation];
      PerformThree(s, ClearStage, ClearRoute, ClearLocation);
    }
  }

  /**
   A bid that the command names becomes the choice, with the batch on record; the last seat of a group
   trip moves the rider there instead.  Nothing else changes, and no money moves.
   */
  predicate AcceptLeaves(s: State, t: State, ride: RideId, command: AcceptCommand, w: World) {
    var batch := if ride in s.batches then s.batches[ride] else [];
    var bid := NamedBid(batch, command);
    if bid.None? || (w.seat.Some? && !w.seat.value.last) then t == s
    else if w.seat.Some? then
      t == s.(history := s.history + [SeatsAccepted(w.seat.value.anchor)],
              activeRide := if w.seat.value.moves then Some(w.seat.value.anchor) else s.activeRide)
    else
      t == s.(history := s.history + [Chosen(ride, bid.value, command, batch)],
              pendingAccept := Some(Accept(ride, bid.value)))
  }

  lemma AcceptOutcome(s: State, ride: RideId, command: AcceptCommand, w: World)
    ensures AcceptLeaves(s, PerformAll(s, OnAccept(s, ride, command, w)), ride, command, w)
  {
    hide NamedBid;
    var effects := OnAccept(s, ride, command, w);
    if |effects| == 1 {
      PerformOne(s, effects[0]);
    } else if |effects| == 2 {
      PerformTwo(s, effects[0], effects[1]);
      assert effects == [effects[0], effects[1]];
    }
  }

  lemma CleanedUp(s: State, ride: RideId, kept: set<RideKey>)
    ensures Perform(s, CleanupRide(ride, kept)) ==
      s.(metas := Without(s.metas, ride, MetaKey, kept), bids := Without(s.bids, ride, BidsKey, kept),
        states := Without(s.states, ride, StateKey, kept), batches := Without(s.batches, ride, BatchKey, kept))
  {
  }

  /** Of the reasons to lose a ride, only two apply to one that is underway. */
  lemma UnderwayGoes(s: State, m: Message, w: World)
    requires RideUnderway(s)
    ensures EditSucceeds(s, m, w) <==> PinWhileEditing(s, m, w)
    ensures !PaysExpired(s, m) && !LastSeat(s, m, w)
  {
  }

  lemma IntentIgnoresStage(s: State, t: Words, w: World)
    ensures OnIntent(Perform(s, ClearStage), t, w) == OnIntent(s, t, w)
  {
  }

  /**
   The rider's Redis keys, the hold table and the wallet, with the webhook's branches as methods.
   `writes` lists what was written since `start`, in order, so that every prefix of it is a state
   that the keys went through.
   */
  class Webhook {
    var stage: Option<Stage>
    var route: Option<Route>
    var lastRoute: Option<Route>
    var location: Option<Place>
    var activeRide: Option<RideId>
    var pendingAccept: Option<Accept>
    var metas: map<RideId, Meta>
    var states: map<RideId, RideState>
    var bids: map<RideId, seq<Bid>>
    var batches: map<RideId, seq<Bid>>
    var holds: map<RideId, Hold>
    var balance: Kobo
    var history: seq<Event>
    ghost const start: State
    ghost var writes: seq<Effect>

    ghost function Now(): State
      reads this
    {
      State(stage, route, lastRoute, location, activeRide, pendingAccept, metas, states, bids, batches,
            holds, balance, history)
    }

    ghost predicate Valid()
      reads this
    {
      Now() == PerformAll(start, writes)
    }

    constructor ()
      ensures Valid() && Now() == start == FRESH && writes == []
    {
      stage, route, lastRoute, location, activeRide, pendingAccept := None, None, None, None, None, None;
      metas, states, bids, batches, holds := map[], map[], map[], map[], map[];
      balance, history := 0, [];
      start, writes := FRESH, [];
    }

    ghost method Wrote(before: State, e: Effect)
      requires before == PerformAll(start, writes) && Now() == Perform(before, e)
      modifies this`writes
      ensures Valid() && writes == old(writes) + [e]
    {
      hide Perform, PerformAll;
      PerformAppend(start, writes, [e]);
      PerformOne(before, e);
      writes := writes + [e];
    }

    /** What the writes since `before` have made of it. */
    lemma Came(before: State, written: seq<Effect>, effects: seq<Effect>)
      requires Valid() && before == PerformAll(start, written) && writes == written + effects
      ensures Now() == PerformAll(before, effects)
    {
      hide Perform, PerformAll;
      PerformAppend(start, written, effects);
    }

    method SetBookingStage(to: Stage)
      requires Valid()
      modifies this`stage, this`writes
      ensures Valid() && Now() == Perform(old(Now()), SetStage(to)) && writes == old(writes) + [SetStage(to)]
    {
      hide PerformAll;
      ghost var before := Now();
      stage := Some(to);
      Wrote(before, SetStage(to));
    }

    method ClearBookingStage()
      requires Valid()
      modifies this`stage, this`writes
      ensures Valid() && Now() == Perform(old(Now()), ClearStage) && writes == old(writes) + [ClearStage]
    {
      hide PerformAll;
      ghost var before := Now();
      stage := None;
      Wrote(before, ClearStage);
    }

    method StorePendingRoute(r: Route)
      requires Valid()
      modifies this`route, this`writes
      ensures Valid() && Now() == Perform(old(Now()), StoreRoute(r)) && writes == old(writes) + [StoreRoute(r)]
    {
      hide PerformAll;
      ghost var before := Now();
      route := Some(r);
      Wrote(before, StoreRoute(r));
    }

    method ClearPendingRoute()
      requires Valid()
      modifies this`route, this`writes
      ensures Valid() && Now() == Perform(old(Now()), ClearRoute) && writes == old(writes) + [ClearRoute]
    {
      hide PerformAll;
      ghost var before := Now();
      route := None;
      Wrote(before, ClearRoute);
    }

    method RememberRoute(r: Route)
      requires Valid()
      modifies this`lastRoute, this`writes
      ensures Valid() && Now() == Perform(old(Now()), StoreLastRoute(r)) && writes == old(writes) + [StoreLastRoute(r)]
    {
      hide PerformAll;
      ghost var before := Now();
      lastRoute := Some(r);
      Wrote(before, StoreLastRoute(r));
    }

    method SetPendingLocation(place: Place)
      requires Valid()
      modifies this`location, this`writes
      ensures Valid() && Now() == Perform(old(Now()), SetLocation(place)) && writes == old(writes) + [SetLocation(place)]
    {
      hide PerformAll;
      ghost var before := Now();
      location := Some(place);
      Wrote(before, SetLocation(place));
    }

    method ClearPendingLocation()
      requires Valid()
      modifies this`location, this`writes
      ensures Valid() && Now() == Perform(old(Now()), ClearLocation) && writes == old(writes) + [ClearLocation]
    {
      hide PerformAll;
      ghost var before := Now();
      location := None;
      Wrote(before, ClearLocation);
    }

    method SetActiveRide(ride: RideId)
      requires Valid()
      modifies this`activeRide, this`writes
      ensures Valid() && Now() == Perform(old(Now()), SetActive(ride)) && writes == old(writes) + [SetActive(ride)]
    {
      hide PerformAll;
      ghost var before := Now();
      activeRide := Some(ride);
      Wrote(before, SetActive(ride));
    }

    method ClearActiveRide()
      requires Valid()
      modifies this`activeRide, this`writes
      ensures Valid() && Now() == Perform(old(Now()), ClearActive) && writes == old(writes) + [ClearActive]
    {
      hide PerformAll;
      ghost var before := Now();
      activeRide := None;
      Wrote(before, ClearActive);
    }

    method StorePendingAccept(a: Accept, command: AcceptCommand, batch: seq<Bid>)
      requires Valid()
      modifies this`pendingAccept, this`history, this`writes
      ensures Valid() && Now() == Perform(old(Now()), StoreAccept(a, command, batch)) && writes == old(writes) + [StoreAccept(a, command, batch)]
    {
      hide PerformAll;
      ghost var before := Now();
      pendingAccept := Some(a);
      history := history + [Chosen(a.ride, a.bid, command, batch)];
      Wrote(before, StoreAccept(a, command, batch));
    }

    method ClearPendingAccept()
      requires Valid()
      modifies this`pendingAccept, this`writes
      ensures Valid() && Now() == Perform(old(Now()), ClearAccept) && writes == old(writes) + [ClearAccept]
    {
      hide PerformAll;
      ghost var before := Now();
      pendingAccept := None;
      Wrote(before, ClearAccept);
    }

    method StoreWhatsappRide(ride: RideId, meta: Meta)
      requires Valid()
      modifies this`metas, this`bids, this`states, this`writes
      ensures Valid() && Now() == Perform(old(Now()), StoreRide(ride, meta)) && writes == old(writes) + [StoreRide(ride, meta)]
    {
      hide PerformAll;
      ghost var before := Now();
      metas, bids, states := metas[ride := meta], bids[ride := []], states[ride := Searching];
      Wrote(before, StoreRide(ride, meta));
    }

    method StoreRideMeta(ride: RideId, meta: Meta)
      requires Valid()
      modifies this`metas, this`writes
      ensures Valid() && Now() == Perform(old(Now()), StoreMeta(ride, meta)) && writes == old(writes) + [StoreMeta(ride, meta)]
    {
      hide PerformAll;
      ghost var before := Now();
      metas := metas[ride := meta];
      Wrote(before, StoreMeta(ride, meta));
    }

    method ConfirmRideState(ride: RideId)
      requires Valid()
      modifies this`states, this`writes
      ensures Valid() && Now() == Perform(old(Now()), SetRideState(ride, Confirmed)) && writes == old(writes) + [SetRideState(ride, Confirmed)]
    {
      hide PerformAll;
      ghost var before := Now();
      states := states[ride := Confirmed];
      Wrote(before, SetRideState(ride, Confirmed));
    }

    method StoreLastBatch(ride: RideId, batch: seq<Bid>)
      requires Valid()
      modifies this`batches, this`writes
      ensures Valid() && Now() == Perform(old(Now()), StoreBatch(ride, batch)) && writes == old(writes) + [StoreBatch(ride, batch)]
    {
      hide PerformAll;
      ghost var before := Now();
      batches := batches[ride := batch];
      Wrote(before, StoreBatch(ride, batch));
    }

    /** `cleanupRideKeys`: six deletions at once, whose failures nobody hears of. */
    method CleanupRideKeys(ride: RideId, kept: set<RideKey>)
      requires Valid()
      modifies this`metas, this`bids, this`states, this`batches, this`writes
      ensures Valid() && Now() == Perform(old(Now()), CleanupRide(ride, kept)) && writes == old(writes) + [CleanupRide(ride, kept)]
    {
      hide Perform, PerformAll, Without;
      ghost var before := Now();
      CleanedUp(before, ride, kept);
      metas := Without(metas, ride, MetaKey, kept);
      bids := Without(bids, ride, BidsKey, kept);
      states := Without(states, ride, StateKey, kept);
      batches := Without(batches, ride, BatchKey, kept);
      Wrote(before, CleanupRide(ride, kept));
    }

    method PublishRideEvent(event: Event)
      requires Valid()
      modifies this`history, this`writes
      ensures Valid() && Now() == Perform(old(Now()), Publish(event)) && writes == old(writes) + [Publish(event)]
    {
      hide PerformAll;
      ghost var before := Now();
      history := history + [event];
      Wrote(before, Publish(event));
    }

    /**
     `createRideHold`: false if the wallet does not cover the amount or the transaction fails; an
     existing row of the ride answers without moving money.
     */
    method CreateRideHold(ride: RideId, amount: Kobo, works: bool) returns (ok: bool)
      requires Valid()
      modifies this`holds, this`balance, this`history, this`writes
      ensures Valid() && (ok <==> amount <= old(balance) && works)
      ensures Now() == if ok then Perform(old(Now()), CreateHold(ride, amount)) else old(Now())
      ensures writes == if ok then old(writes) + [CreateHold(ride, amount)] else old(writes)
    {
      if balance < amount || !works {
        return false;
      }
      ghost var before := Now();
      if ride in holds {
        history := history + [Held(ride, amount, false)];
      } else {
        holds, balance := holds[ride := Hold(amount, true)], balance - amount;
        history := history + [Held(ride, amount, true)];
      }
      Wrote(before, CreateHold(ride, amount));
      return true;
    }

    /** The ride is cancelled, its keys go, and so does the choice of a driver. */
    method CancelActive(ride: RideId, reason: Booking.Reason, kept: set<RideKey>)
      requires Valid()
      modifies this`activeRide, this`metas, this`bids, this`states, this`batches, this`pendingAccept, this`history, this`writes
      ensures Valid()
      ensures writes == old(writes) + [Publish(Cancelled(ride, reason)), ClearActive, CleanupRide(ride, kept), ClearAccept]
      ensures Now() == WithoutRide(old(Now()), ride, reason, kept)
    {
      hide Perform, PerformAll, WithoutRide;
      RideGone(Now(), ride, reason, kept);
      PublishRideEvent(Cancelled(ride, reason));
      ClearActiveRide();
      CleanupRideKeys(ride, kept);
      ClearPendingAccept();
    }

    method OfferQuote(pickup: Place, dest: Place, distanceM: nat)
      requires Valid()
      modifies this`route, this`stage, this`writes
      ensures Valid() && writes == old(writes) + Quote(pickup, dest, distanceM)
    {
      hide Perform, PerformAll, Planned;
      StorePendingRoute(Planned(pickup, dest, distanceM));
      SetBookingStage(AwaitingPrice);
    }

    /** Editing the active ride: nothing is cancelled before the new route is planned. */
    method EditRide(ride: RideId, edit: EditCommand, w: World)
      requires Valid() && ride in metas
      modifies this
      ensures Valid() && writes == old(writes) + OnEditRide(ride, old(metas[ride]), edit, w)
      ensures Now() == AfterEdit(old(Now()), ride, old(metas[ride]), edit, w)
    {
      hide Perform, PerformAll, Planned, AfterEdit;
      ghost var before, written := Now(), writes;
      var meta := metas[ride];
      if !edit.inline {
        StorePendingRoute(Placeholder(meta));
        SetBookingStage(if edit.pickup then EditingPickup else EditingDestination);
      } else if w.geo.Some? {
        var pickup := if edit.pickup then w.geo.value else meta.pickup;
        var dest := if !edit.pickup then w.geo.value else meta.dest;
        if w.distance.Some? {
          CancelActive(ride, EditingRoute, w.kept);
          OfferQuote(pickup, dest, w.distance.value);
        }
      }
      Came(before, written, OnEditRide(ride, meta, edit, w));
      EditOutcome(before, ride, meta, edit, w);
    }

    /** Paying for the chosen driver: the hold comes before the acceptance. */
    method Pay(w: World)
      requires Valid() && pendingAccept.Some?
      modifies this
      ensures Valid() && writes == old(writes) + OnPay(old(Now()), old(pendingAccept.value), w)
      ensures PaymentLeaves(old(Now()), Now(), old(pendingAccept.value), w)
    {
      hide Perform, PerformAll, PaymentLeaves, AfterPaying;
      ghost var before, written := Now(), writes;
      var a := pendingAccept.value;
      var agreedFare := a.bid.price;
      if a.ride !in metas {
        ClearPendingAccept();
        ClearActiveRide();
      } else if !w.driverReady {
        ClearPendingAccept();
      } else if balance >= agreedFare {
        var held := CreateRideHold(a.ride, agreedFare, w.holdWorks);
        if held {
          ClearPendingAccept();
          PublishRideEvent(Accepted(a.ride, a.bid, agreedFare));
          ConfirmRideState(a.ride);
          ClearPendingAccept();
        }
      }
      Came(before, written, OnPay(before, a, w));
      PaymentOutcome(before, a, w);
      PaymentMeans(before, a, w);
    }

    /** Choosing a driver by number, or the only one by a bare "accept". */
    method AcceptDriver(ride: RideId, command: AcceptCommand, w: World)
      requires Valid()
      modifies this`pendingAccept, this`activeRide, this`history, this`writes
      ensures Valid() && writes == old(writes) + OnAccept(old(Now()), ride, command, w)
      ensures AcceptLeaves(old(Now()), Now(), ride, command, w)
    {
      hide Perform, PerformAll, AcceptLeaves;
      ghost var before, written := Now(), writes;
      var lastBatch := if ride in batches then batches[ride] else [];
      var bidIndex := if command.Numbered? then command.number - 1 else 0;
      if |lastBatch| > 0 && !(command.Unspecified? && |lastBatch| > 1) && 0 <= bidIndex < |lastBatch| {
        var selectedBid := lastBatch[bidIndex];
        if w.seat.None? {
          StorePendingAccept(Accept(ride, selectedBid), command, lastBatch);
        } else if w.seat.value.last {
          PublishRideEvent(SeatsAccepted(w.seat.value.anchor));
          if w.seat.value.moves {
            SetActiveRide(w.seat.value.anchor);
          }
        }
      }
      Came(before, written, OnAccept(before, ride, command, w));
      AcceptOutcome(before, ride, command, w);
    }

    /** A price while drivers bid. */
    method CounterOffer(ride: RideId, price: Kobo)
      requires Valid()
      modifies this`metas, this`history, this`writes
      ensures Valid() && writes == old(writes) + OnCounterOffer(old(Now()), ride, price)
      ensures if ride in old(metas) && price >= 300000 && 200 * price > 144 * old(metas[ride]).suggested - 100
        then metas == old(metas)[ride := old(metas[ride]).(offer := price)] && history == old(history) + [Countered(ride, price)]
        else Now() == old(Now())
    {
      hide Perform, PerformAll, ValidateRiderOffer, ResolveMinOffer;
      CounterOfferIsFair(Now(), ride, price);
      ghost var before, written := Now(), writes;
      if ride in metas {
        var meta := metas[ride];
        if !ValidateRiderOffer(price, meta.suggested).Invalid? {
          StoreRideMeta(ride, meta.(offer := price));
          PublishRideEvent(Countered(ride, price));
        }
      }
      Came(before, written, OnCounterOffer(before, ride, price));
    }

    /** Section 1: a text while a ride is active. */
    method HandleActiveRide(ride: RideId, t: Words, w: World)
      requires Valid()
      modifies this
      ensures Valid() && writes == old(writes) + OnActiveRide(old(Now()), ride, t, w)
    {
      hide Perform, PerformAll, OnEditRide, OnPay, OnAccept, OnCounterOffer;
      if ride in states && states[ride] in {Confirmed, InProgress} {
        if t.cancel {
          SetBookingStage(AwaitingCancelReason);
        }
        return;
      }
      if t.edit.Some? && ride in metas && Editable(metas[ride]) {
        EditRide(ride, t.edit.value, w);
        return;
      }
      if t.cancel {
        SetBookingStage(AwaitingCancelReason);
        return;
      }
      if pendingAccept.Some? && t.pay {
        Pay(w);
        return;
      }
      if t.accept.Some? {
        AcceptDriver(ride, t.accept.value, w);
        return;
      }
      if t.more {
        if ride in bids && |bids[ride]| > 0 {
          StoreLastBatch(ride, bids[ride]);
        }
        return;
      }
      if t.price.Some? {
        CounterOffer(ride, t.price.value);
      }
    }

    /** The end of an edit by pin or by a typed address: the pending route with one end moved. */
    method FinishEdit(place: Place, distanceM: nat, kept: set<RideKey>)
      requires Valid() && route.Some?
      modifies this
      ensures Valid() && writes == old(writes)
        + (if old(activeRide.Some?) then CancelForEdit(old(activeRide.value), kept) else [])
        + [StoreRoute(Moved(old(Now()), place, distanceM)), SetStage(AwaitingPrice)]
      ensures Now() == Rerouted(old(Now()), old(activeRide), Moved(old(Now()), place, distanceM), kept)
    {
      hide Perform, PerformAll, Planned, Rerouted;
      ghost var before, written := Now(), writes;
      var pickup := if stage == Some(EditingPickup) then place else route.value.pickup;
      var dest := if stage == Some(EditingPickup) then route.value.dest else place;
      if activeRide.Some? {
        CancelActive(activeRide.value, EditingRoute, kept);
      }
      StorePendingRoute(Planned(pickup, dest, distanceM));
      SetBookingStage(AwaitingPrice);
      ghost var r := Planned(pickup, dest, distanceM);
      Came(before, written, Rerouting(before.activeRide, r, kept));
      EditPerformed(before, before.activeRide, r, kept);
    }

    /** Section 2: a location pin. */
    method HandlePin(place: Place, w: World)
      requires Valid()
      modifies this
      ensures Valid() && writes == old(writes) + OnPin(old(Now()), place, w)
      ensures PinLeaves(old(Now()), Now(), place, w)
    {
      hide Perform, PerformAll, Planned, Moved, CancelForEdit, PinLeaves, Rerouted;
      ghost var before, written := Now(), writes;
      var editing := stage == Some(EditingPickup) || stage == Some(EditingDestination);
      if editing && route.Some? {
        if w.distance.Some? {
          FinishEdit(place, w.distance.value, w.kept);
        }
      } else if activeRide.None? || editing {
        if location.None? {
          SetPendingLocation(place);
          SetBookingStage(AwaitingDestination);
        } else if activeRide.Some? {
          ClearPendingLocation();
          ClearBookingStage();
        } else if w.distance.Some? {
          var pickup := location.value;
          ClearPendingLocation();
          ClearBookingStage();
          OfferQuote(pickup, place, w.distance.value);
        }
      }
      Came(before, written, OnPin(before, place, w));
      PinOutcome(before, place, w);
    }

    /** Section 3b: a typed address while editing. */
    method HandleTypedEdit(t: Words, w: World)
      requires Valid() && Editing(stage)
      modifies this
      ensures Valid() && writes == old(writes) + OnTypedEdit(old(Now()), t, w)
    {
      hide Perform, PerformAll, Planned, Moved, CancelForEdit;
      if t.cancel {
        SetBookingStage(AwaitingCancelReason);
        return;
      }
      if route.None? {
        ClearBookingStage();
        return;
      }
      if w.geo.None? || w.distance.None? {
        return;
      }
      FinishEdit(w.geo.value, w.distance.value, w.kept);
    }

    /** The route that was shown is confirmed, corrected or dropped. */
    method HandleRouteConfirmation(t: Words, w: World)
      requires Valid()
      modifies this
      ensures Valid() && writes == old(writes) + OnRouteConfirmation(old(Now()), t, w)
    {
      hide Perform, PerformAll;
      var pendingRoute := route;
      if t.cancel {
        ClearPendingRoute();
        ClearBookingStage();
        return;
      }
      if pendingRoute.None? || pendingRoute.value.offer.None? {
        ClearBookingStage();
        return;
      }
      if !t.yes {
        SetBookingStage(AwaitingPrice);
        return;
      }
      ConfirmRoute(pendingRoute.value, pendingRoute.value.offer.value, w);
    }

    method ConfirmRoute(r: Route, offer: Kobo, w: World)
      requires Valid()
      modifies this
      ensures Valid() && writes == old(writes) + OnConfirmed(old(Now()), r, offer, w)
      ensures Started(old(Now()), Now(), w.newRide, r, offer)
      ensures Now() == WithRide(old(Now()).(route := None), w.newRide, r, offer).(
        stage := Some(SearchingDrivers), lastRoute := Some(r.(offer := Some(offer))))
    {
      hide Perform, PerformAll, WithRide, Started;
      ghost var before, written := Now(), writes;
      ClearPendingRoute();
      PublishRideEvent(RequestOf(w.newRide, r, offer));
      StoreWhatsappRide(w.newRide, MetaOf(r, offer));
      SetActiveRide(w.newRide);
      SetBookingStage(SearchingDrivers);
      RememberRoute(r.(offer := Some(offer)));
      Came(before, written, OnConfirmed(before, r, offer, w));
      ConfirmedStarts(before, r, offer, w);
      WithRideStarts(before, Now(), before.(route := None), w.newRide, r, offer);
    }

    method Replan(r: Route, pickup: bool, w: World)
      requires Valid()
      modifies this`route, this`writes
      ensures Valid() && writes == old(writes) + OnReplan(r, pickup, w)
    {
      hide Perform, PerformAll, Planned;
      if w.geo.None? || w.distance.None? {
        return;
      }
      var from := if pickup then w.geo.value else r.pickup;
      var dest := if pickup then r.dest else w.geo.value;
      StorePendingRoute(Planned(from, dest, w.distance.value));
    }

    method NamePrice(r: Route, offer: Kobo, w: World)
      requires Valid()
      modifies this
      ensures Valid() && writes == old(writes) + OnOffer(r, offer, w)
      ensures offer >= r.minOffer ==> Started(old(Now()), Now(), w.newRide, r, offer)
      ensures Now() == if offer < r.minOffer then old(Now())
        else WithRide(old(Now()).(route := None, stage := None), w.newRide, r, offer).(
               lastRoute := Some(r.(offer := Some(offer))))
    {
      hide Perform, PerformAll, WithRide, Started;
      if offer < r.minOffer {
        return;
      }
      ghost var before, written := Now(), writes;
      ClearPendingRoute();
      ClearBookingStage();
      PublishRideEvent(RequestOf(w.newRide, r, offer));
      StoreWhatsappRide(w.newRide, MetaOf(r, offer));
      SetActiveRide(w.newRide);
      RememberRoute(r.(offer := Some(offer)));
      Came(before, written, OnOffer(r, offer, w));
      OfferStarts(before, r, offer, w);
      WithRideStarts(before, Now(), before.(route := None, stage := None), w.newRide, r, offer);
    }

    /** Section 4: the rider names a price, or edits the quote. */
    method HandlePrice(r: Route, t: Words, w: World)
      requires Valid()
      modifies this
      ensures Valid() && writes == old(writes) + OnPrice(r, t, w)
    {
      hide Perform, PerformAll, OnReplan, OnOffer;
      if t.group {
        ClearPendingRoute();
        SetBookingStage(AnotherFlow);
        return;
      }
      if t.edit.Some? {
        if t.edit.value.inline {
          Replan(r, t.edit.value.pickup, w);
          return;
        }
        SetBookingStage(if t.edit.value.pickup then EditingPickup else EditingDestination);
        return;
      }
      if t.intent.EditPickupIntent? || t.intent.EditDestinationIntent? {
        Replan(r, t.intent.EditPickupIntent?, w);
        return;
      }
      if t.cancel {
        SetBookingStage(AwaitingCancelReason);
        return;
      }
      if t.price.Some? {
        NamePrice(r, t.price.value, w);
      }
    }

    method SearchAgain(r: Route, w: World)
      requires Valid()
      modifies this
      ensures Valid() && writes == old(writes) + OnSearchAgain(r, w)
      ensures r.offer.Some? ==> Started(old(Now()), Now(), w.newRide, r, r.offer.value)
      ensures Now() == if r.offer.None? then old(Now())
        else WithRide(old(Now()), w.newRide, r, r.offer.value).(stage := Some(SearchingDrivers))
    {
      hide Perform, PerformAll, WithRide, Started;
      if r.offer.None? {
        return;
      }
      ghost var before, written := Now(), writes;
      PublishRideEvent(RequestOf(w.newRide, r, r.offer.value));
      StoreWhatsappRide(w.newRide, MetaOf(r, r.offer.value));
      SetActiveRide(w.newRide);
      SetBookingStage(SearchingDrivers);
      Came(before, written, OnSearchAgain(r, w));
      SearchAgainStarts(before, r, w);
      WithRideStarts(before, Now(), before, w.newRide, r, r.offer.value);
    }

    /** A price named up front still waits for a "yes" to the route. */
    method OfferTypedRoute(planned: Route, offer: Option<Kobo>)
      requires Valid()
      modifies this`route, this`stage, this`writes
      ensures Valid() && writes == old(writes) +
        if offer.Some? && offer.value >= planned.minOffer
        then [StoreRoute(planned), StoreRoute(planned.(offer := offer)), SetStage(AwaitingRouteConfirmation)]
        else [StoreRoute(planned), SetStage(AwaitingPrice)]
    {
      hide Perform, PerformAll;
      StorePendingRoute(planned);
      if offer.Some? && offer.value >= planned.minOffer {
        StorePendingRoute(planned.(offer := offer));
        SetBookingStage(AwaitingRouteConfirmation);
        return;
      }
      SetBookingStage(AwaitingPrice);
    }

    /** Section 6: a ride request in words, or "search again". */
    method HandleIntent(t: Words, w: World)
      requires Valid()
      modifies this
      ensures Valid() && writes == old(writes) + OnIntent(old(Now()), t, w)
    {
      hide Perform, PerformAll, Planned, OnSearchAgain;
      match t.intent
      case EditPickupIntent =>
      case EditDestinationIntent =>
      case GroupRequest => SetBookingStage(AnotherFlow);
      case NoIntent =>
        if t.searchAgain && lastRoute.Some? {
          SearchAgain(lastRoute.value, w);
        }
      case RideRequest(hasPickup, hasDest, vaguePickup, vagueDest, offer) =>
        if hasPickup && hasDest {
          if w.geo.None? {
            return;
          }
          if w.destGeo.None? {
            SetPendingLocation(w.geo.value);
            SetBookingStage(AwaitingDestination);
            return;
          }
          if w.distance.None? {
            return;
          }
          OfferTypedRoute(Planned(w.geo.value, w.destGeo.value, w.distance.value), offer);
          return;
        }
        if hasPickup && w.geo.Some? {
          SetPendingLocation(w.geo.value);
          SetBookingStage(AwaitingDestination);
        } else if vaguePickup && !hasPickup {
          SetBookingStage(AwaitingPickup);
        } else if vagueDest && !hasDest && hasPickup {
          SetBookingStage(AwaitingDestination);
        }
    }

    /** Section 3: an answer to the question where from or where to. */
    method HandlePlaceText(t: Words, w: World)
      requires Valid() && (stage == Some(AwaitingPickup) || stage == Some(AwaitingDestination))
      modifies this
      ensures Valid() && writes == old(writes) + OnPlaceText(old(Now()), t, w)
    {
      hide Perform, PerformAll, Planned, OnIntent;
      if stage == Some(AwaitingPickup) {
        if t.cancel {
          ClearBookingStage();
        } else if t.conversation {
          ghost var asked := Now();
          ClearBookingStage();
          IntentIgnoresStage(asked, t, w);
          HandleIntent(t, w);
        } else if w.geo.Some? {
          SetPendingLocation(w.geo.value);
          SetBookingStage(AwaitingDestination);
        }
        return;
      }
      if t.cancel {
        SetBookingStage(AwaitingCancelReason);
        return;
      }
      if location.None? {
        ClearBookingStage();
        return;
      }
      if t.conversation {
        HandleIntent(t, w);
        return;
      }
      if w.geo.None? || w.distance.None? {
        return;
      }
      var pickup := location.value;
      ClearPendingLocation();
      ClearBookingStage();
      OfferQuote(pickup, w.geo.value, w.distance.value);
    }

    /** The reason for a cancellation, asked for before anything is cancelled. */
    method HandleCancelReason(reason: Option<string>, kept: set<RideKey>)
      requires Valid()
      modifies this
      ensures Valid() && writes == old(writes) + OnCancelReason(old(Now()), reason, kept)
      ensures Now() == AfterReason(old(Now()), reason, kept)
    {
      hide Perform, PerformAll, AfterReason, WithoutRide;
      ghost var before, written := Now(), writes;
      if reason.Some? {
        if activeRide.Some? {
          CancelActive(activeRide.value, Given(reason.value), kept);
        }
        ClearBookingStage();
        ClearPendingRoute();
        ClearPendingLocation();
      }
      Came(before, written, OnCancelReason(before, reason, kept));
      ReasonOutcome(before, reason, kept);
    }

    /** The state behind the first `done` writes since `from`: what is left if the next one fails. */
    ghost function Behind(from: nat, done: nat): State
      requires from + done <= |writes|
      reads this
    {
      PerformAll(start, writes[..from + done])
    }

    /**
     One message, handled to the end.  Wherever one of its writes fails, the payment invariant holds, and
     so does the fare floor unless the handler stops behind a placeholder while a price is awaited.  The
     active ride changes for the stated reasons only, and a ride that is underway goes only by a
     reasoned cancellation or by a pin in an editing stage.
     */
    method HandleMessage(m: Message, w: World)
      requires Valid()
      modifies this
      ensures Valid() && writes == old(writes) + Decide(old(Now()), m, w)
      ensures Now() == Next(old(Now()), Handle(m, w))
      ensures PayInv(old(Now())) ==> PayInv(Now())
      ensures FloorInv(old(Now())) ==> FloorInv(Now())
      ensures forall done | 0 <= done <= |writes| - old(|writes|) ::
        && (PayInv(old(Now())) ==> PayInv(Behind(old(|writes|), done)))
        && (FloorInv(old(Now())) ==>
              (FloorInv(Behind(old(|writes|), done)) <==> !Strands(old(Now()), Interrupt(m, w, done))))
      ensures old(activeRide).Some? ==> activeRide == RideAfter(old(Now()), m, w)
      ensures RideUnderway(old(Now())) ==>
        (activeRide != old(activeRide) <==> GivesReason(old(Now()), m) || PinWhileEditing(old(Now()), m, w))
    {
      ghost var before, written := Now(), writes;
      Dispatch(m, w);
      HandledAs(before, written, m, w);
    }

    /** What the protocol says of the writes of one message. */
    lemma HandledAs(before: State, written: seq<Effect>, m: Message, w: World)
      requires Valid() && writes == written + Decide(before, m, w) && before == PerformAll(start, written)
      ensures Now() == Next(before, Handle(m, w))
      ensures PayInv(before) ==> PayInv(Now())
      ensures FloorInv(before) ==> FloorInv(Now())
      ensures forall done | 0 <= done <= |writes| - |written| ::
        && (PayInv(before) ==> PayInv(Behind(|written|, done)))
        && (FloorInv(before) ==> (FloorInv(Behind(|written|, done)) <==> !Strands(before, Interrupt(m, w, done))))
      ensures before.activeRide.Some? ==> Now().activeRide == RideAfter(before, m, w)
      ensures RideUnderway(before) ==>
        (Now().activeRide != before.activeRide <==> GivesReason(before, m) || PinWhileEditing(before, m, w))
    {
      hide PayInv, FloorInv, Decide, Perform, PerformAll, Strands, RideAfter, PinWhileEditing, RideUnderway, GivesReason,
        Behind;
      Came(before, written, Decide(before, m, w));
      HandledWell(before, m, w);
      forall done | 0 <= done <= |writes| - |written|
        ensures PayInv(before) ==> PayInv(Behind(|written|, done))
        ensures FloorInv(before) ==> (FloorInv(Behind(|written|, done)) <==> !Strands(before, Interrupt(m, w, done)))
      {
        BehindIs(before, written, Decide(before, m, w), done);
        StoppedWell(before, m, w, done);
      }
    }

    lemma BehindIs(before: State, written: seq<Effect>, effects: seq<Effect>, done: nat)
      requires writes == written + effects && before == PerformAll(start, written) && done <= |effects|
      ensures Behind(|written|, done) == PerformAll(before, effects[..done])
    {
      hide Perform, PerformAll;
      assert writes[..|written| + done] == written + effects[..done];
      PerformAppend(start, written, effects[..done]);
    }

    method Dispatch(m: Message, w: World)
      requires Valid()
      modifies this
      ensures Valid() && writes == old(writes) + Decide(old(Now()), m, w)
    {
      hide Perform, PerformAll, Planned, OnCancelReason, OnPin, OnActiveRide, OnPlaceText, OnTypedEdit,
        OnRouteConfirmation, OnPrice, OnIntent;
      if stage == Some(AwaitingCancelReason) {
        HandleCancelReason(if m.Text? then m.words.reason else None, w.kept);
        return;
      }
      match m
      case OtherFlow(ends) =>
        if ends {
          ClearBookingStage();
        } else {
          SetBookingStage(AnotherFlow);
        }
      case NormalRide(pickup, dest) =>
        if w.distance.Some? {
          OfferQuote(pickup, dest, w.distance.value);
        }
      case Pin(place) => HandlePin(place, w);
      case Text(t) =>
        if activeRide.Some? {
          HandleActiveRide(activeRide.value, t, w);
        } else if stage == Some(AwaitingPickup) || stage == Some(AwaitingDestination) {
          HandlePlaceText(t, w);
        } else if Editing(stage) {
          HandleTypedEdit(t, w);
        } else if stage == Some(AwaitingRouteConfirmation) {
          HandleRouteConfirmation(t, w);
        } else if stage == Some(AwaitingPrice) && route.Some? {
          HandlePrice(route.value, t, w);
        } else if t.cancel {
          ClearPendingLocation();
          ClearBookingStage();
          ClearPendingRoute();
        } else {
          HandleIntent(t, w);
        }
    }
  }
}
