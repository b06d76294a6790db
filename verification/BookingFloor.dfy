/**
 No ride is requested below the fare floor, unless the handler stops at one particular place.
 (apps/api-gateway/src/http/whatsapp.route.ts)
 */
module BookingFloor {
  import opened Options
  import opened Pricing
  import opened Booking
  import opened BookingRequests

  predicate AboveFloor(offer: Kobo, minOffer: Kobo) {
    MIN_FARE <= minOffer <= offer
  }

  predicate FairEvent(e: Event) {
    match e
    case Requested(_, _, _, offer, minOffer, _) => AboveFloor(offer, minOffer)
    case Countered(_, counterOffer) => MIN_FARE <= counterOffer
    case _ => true
  }

  predicate FairRoute(r: Route) {
    r.offer.Some? ==> AboveFloor(r.offer.value, r.minOffer)
  }

  /** The route that a price would be checked against carries a real minimum. */
  predicate PricedRoute(stage: Option<Stage>, route: Option<Route>) {
    stage == Some(AwaitingPrice) && route.Some? ==> MIN_FARE <= route.value.minOffer
  }

  predicate FairHistory(h: seq<Event>) {
    forall i | 0 <= i < |h| :: FairEvent(h[i])
  }

  predicate FloorInv(s: State) {
    && PricedRoute(s.stage, s.route)
    && (s.route.Some? ==> FairRoute(s.route.value))
    && (s.lastRoute.Some? ==> s.lastRoute.value.offer.Some? && FairRoute(s.lastRoute.value))
    && FairHistory(s.history)
  }

  /** The write keeps the invariant. */
  predicate Harmless(s: State, e: Effect) {
    match e
    case SetStage(stage) => PricedRoute(Some(stage), s.route)
    case StoreRoute(route) => PricedRoute(s.stage, Some(route)) && FairRoute(route)
    case StoreLastRoute(last) => last.offer.Some? && FairRoute(last)
    case Publish(event) => FairEvent(event)
    case _ => true
  }

  predicate AllHarmless(s: State, effects: seq<Effect>)
    decreases |effects|
  {
    effects == [] || (Harmless(s, effects[0]) && AllHarmless(Perform(s, effects[0]), effects[1..]))
  }

  lemma HarmlessKeepsFloor(s: State, e: Effect)
    requires FloorInv(s) && Harmless(s, e)
    ensures FloorInv(Perform(s, e))
  {
    HistoryOfOne(s, e);
    StageAfterOne(s, e);
    RouteAfterOne(s, e);
    LastRouteAfterOne(s, e);
    hide Perform;
    FairSnoc(s, e);
    hide FairHistory, Entry;
  }

  lemma FairSnoc(s: State, e: Effect)
    requires FairHistory(s.history) && (e.Publish? ==> FairEvent(e.event))
    ensures FairHistory(s.history + Entry(s, e))
  {
  }

  lemma {:induction false} HarmlessPrefix(s: State, effects: seq<Effect>, done: nat)
    requires FloorInv(s) && AllHarmless(s, effects) && done <= |effects|
    ensures FloorInv(PerformAll(s, effects[..done]))
    decreases done
  {
    if done > 0 {
      HarmlessKeepsFloor(s, effects[0]);
      assert effects[..done][0] == effects[0] && effects[..done][1..] == effects[1..][..done - 1];
      HarmlessPrefix(Perform(s, effects[0]), effects[1..], done - 1);
    }
  }

  /** Writes that keep the invariant in every state. */
  predicate Neutral(e: Effect) {
    match e
    case SetStage(stage) => !stage.AwaitingPrice?
    case StoreRoute(route) => MIN_FARE <= route.minOffer && FairRoute(route)
    case StoreLastRoute(last) => last.offer.Some? && FairRoute(last)
    case Publish(event) => FairEvent(event)
    case _ => true
  }

  predicate AllNeutral(effects: seq<Effect>) {
    forall i | 0 <= i < |effects| :: Neutral(effects[i])
  }

  lemma {:induction false} NeutralThen(s: State, before: seq<Effect>, after: seq<Effect>)
    requires AllNeutral(before) && AllHarmless(PerformAll(s, before), after)
    ensures AllHarmless(s, before + after)
    decreases |before|
  {
    if before == [] {
      assert before + after == after;
    } else {
      assert Neutral(before[0]);
      assert (before + after)[1..] == before[1..] + after;
      NeutralThen(Perform(s, before[0]), before[1..], after);
    }
  }

  lemma NeutralIsHarmless(s: State, effects: seq<Effect>)
    requires AllNeutral(effects)
    ensures AllHarmless(s, effects)
  {
    assert effects + [] == effects;
    NeutralThen(s, effects, []);
  }

  /** A priced route just stored, the stage that takes a price may follow. */
  lemma PricedThenStage(s: State, before: seq<Effect>, r: Route)
    requires AllNeutral(before) && MIN_FARE <= r.minOffer && FairRoute(r)
    ensures AllHarmless(s, before + [StoreRoute(r), SetStage(AwaitingPrice)])
  {
    var stored := before + [StoreRoute(r)];
    var t := PerformAll(s, before);
    PerformAppend(s, before, [StoreRoute(r)]);
    assert [StoreRoute(r)][1..] == [] && PerformAll(t, [StoreRoute(r)]) == Perform(t, StoreRoute(r));
    assert [SetStage(AwaitingPrice)][1..] == [];
    assert AllHarmless(PerformAll(s, stored), [SetStage(AwaitingPrice)]);
    NeutralThen(s, stored, [SetStage(AwaitingPrice)]);
    assert stored + [SetStage(AwaitingPrice)] == before + [StoreRoute(r), SetStage(AwaitingPrice)];
  }

  lemma QuoteIsHarmless(s: State, before: seq<Effect>, pickup: Place, dest: Place, distanceM: nat)
    requires AllNeutral(before)
    ensures AllHarmless(s, before + Quote(pickup, dest, distanceM))
  {
    hide Planned;
    PlannedIsPriced(pickup, dest, distanceM);
    PricedThenStage(s, before, Planned(pickup, dest, distanceM));
  }

  /** "edit from" or "edit to" without an address, while a ride is active. */
  predicate WritesPlaceholder(s: State, m: Message) {
    && s.stage != Some(AwaitingCancelReason) && m.Text? && s.activeRide.Some?
    && !Underway(s, s.activeRide.value) && EditsRide(s, s.activeRide.value, m.words)
    && !m.words.edit.value.inline
  }

  lemma EditRideIsHarmless(s: State, ride: RideId, m: Meta, edit: EditCommand, w: World)
    requires edit.inline
    ensures AllHarmless(s, OnEditRide(ride, m, edit, w))
  {
    hide Planned;
    if w.geo.Some? && w.distance.Some? {
      var pickup := if edit.pickup then w.geo.value else m.pickup;
      var dest := if edit.pickup then m.dest else w.geo.value;
      QuoteIsHarmless(s, CancelForEdit(ride, w.kept), pickup, dest, w.distance.value);
    }
  }

  /**
   A counter-offer is published exactly if the ride has its chat state and the price is at least 3000 naira and
   72 per cent of its suggested fare, the bar of a first offer; then it replaces the ride's offer.
   */
  lemma CounterOfferIsFair(s: State, ride: RideId, price: Kobo)
    ensures AllNeutral(OnCounterOffer(s, ride, price))
    ensures var t := PerformAll(s, OnCounterOffer(s, ride, price));
      var valid := ride in s.metas && price >= 300000 && 200 * price > 144 * s.metas[ride].suggested - 100;
      && t.history == (if valid then s.history + [Countered(ride, price)] else s.history)
      && t.metas == (if valid then s.metas[ride := s.metas[ride].(offer := price)] else s.metas)
  {
    if ride in s.metas {
      var m := s.metas[ride];
      ValidFromMinimumUp(price, price, m.suggested);
      PerformTwo(s, StoreMeta(ride, m.(offer := price)), Publish(Countered(ride, price)));
    }
  }

  lemma ActiveRideIsHarmless(s: State, ride: RideId, t: Words, w: World)
    requires !(!Underway(s, ride) && EditsRide(s, ride, t) && !t.edit.value.inline)
    ensures AllHarmless(s, OnActiveRide(s, ride, t, w))
  {
    hide OnEditRide, OnCounterOffer;
    if !Underway(s, ride) && EditsRide(s, ride, t) {
      EditRideIsHarmless(s, ride, s.metas[ride], t.edit.value, w);
    } else {
      if t.price.Some? {
        CounterOfferIsFair(s, ride, t.price.value);
      }
      assert AllNeutral(OnActiveRide(s, ride, t, w));
      NeutralIsHarmless(s, OnActiveRide(s, ride, t, w));
    }
  }

  lemma MovedIsHarmless(s: State, place: Place, distanceM: nat, kept: set<RideKey>)
    requires s.route.Some?
    ensures AllHarmless(s, (if s.activeRide.Some? then CancelForEdit(s.activeRide.value, kept) else [])
                           + [StoreRoute(Moved(s, place, distanceM)), SetStage(AwaitingPrice)])
  {
    hide Planned;
    var r := Moved(s, place, distanceM);
    PlannedIsPriced(r.pickup, r.dest, distanceM);
    PlannedIsPriced(place, s.route.value.dest, distanceM);
    PlannedIsPriced(s.route.value.pickup, place, distanceM);
    PricedThenStage(s, if s.activeRide.Some? then CancelForEdit(s.activeRide.value, kept) else [], r);
  }

  lemma PinIsHarmless(s: State, place: Place, w: World)
    ensures AllHarmless(s, OnPin(s, place, w))
  {
    hide Planned, Moved;
    if s.activeRide.Some? && !Editing(s.stage) {
    } else if Editing(s.stage) && s.route.Some? {
      if w.distance.Some? {
        MovedIsHarmless(s, place, w.distance.value, w.kept);
      }
    } else if s.location.Some? && s.activeRide.None? && w.distance.Some? {
      QuoteIsHarmless(s, [ClearLocation, ClearStage], s.location.value, place, w.distance.value);
    } else {
      NeutralIsHarmless(s, OnPin(s, place, w));
    }
  }

  lemma IntentIsHarmless(s: State, t: Words, w: World, before: seq<Effect>)
    requires FloorInv(s) && AllNeutral(before)
    ensures AllHarmless(s, before + OnIntent(s, t, w))
  {
    hide Planned;
    var effects := OnIntent(s, t, w);
    if t.intent.RideRequest? && t.intent.hasPickup && t.intent.hasDest
      && w.geo.Some? && w.destGeo.Some? && w.distance.Some? {
      var planned := Planned(w.geo.value, w.destGeo.value, w.distance.value);
      PlannedIsPriced(w.geo.value, w.destGeo.value, w.distance.value);
      var offer := t.intent.offer;
      if offer.Some? && offer.value >= planned.minOffer {
        NeutralIsHarmless(s, before + effects);
      } else {
        PricedThenStage(s, before, planned);
      }
    } else {
      NeutralIsHarmless(s, before + effects);
    }
  }

  lemma PlaceTextIsHarmless(s: State, t: Words, w: World)
    requires FloorInv(s)
    ensures AllHarmless(s, OnPlaceText(s, t, w))
  {
    hide Planned, OnIntent;
    var effects := OnPlaceText(s, t, w);
    if t.conversation && !t.cancel && s.stage == Some(AwaitingPickup) {
      IntentIsHarmless(s, t, w, [ClearStage]);
    } else if t.conversation && !t.cancel && s.location.Some? {
      IntentIsHarmless(s, t, w, []);
      assert [] + OnIntent(s, t, w) == OnIntent(s, t, w);
    } else if s.stage != Some(AwaitingPickup) && !t.cancel && s.location.Some? && w.geo.Some? && w.distance.Some? {
      QuoteIsHarmless(s, [ClearLocation, ClearStage], s.location.value, w.geo.value, w.distance.value);
    } else {
      NeutralIsHarmless(s, effects);
    }
  }

  lemma TypedEditIsHarmless(s: State, t: Words, w: World)
    ensures AllHarmless(s, OnTypedEdit(s, t, w))
  {
    hide Planned, Moved;
    if !t.cancel && s.route.Some? && w.geo.Some? && w.distance.Some? {
      MovedIsHarmless(s, w.geo.value, w.distance.value, w.kept);
    } else {
      NeutralIsHarmless(s, OnTypedEdit(s, t, w));
    }
  }

  lemma ConfirmationIsHarmless(s: State, t: Words, w: World)
    requires FloorInv(s)
    ensures AllHarmless(s, OnRouteConfirmation(s, t, w))
  {
    var effects := OnRouteConfirmation(s, t, w);
    if !t.cancel && s.route.Some? && s.route.value.offer.Some? && !t.yes {
      assert effects[1..] == [];
    } else {
      NeutralIsHarmless(s, effects);
    }
  }

  lemma PriceIsHarmless(s: State, t: Words, w: World)
    requires FloorInv(s) && s.stage == Some(AwaitingPrice) && s.route.Some?
    ensures AllHarmless(s, OnPrice(s.route.value, t, w))
  {
    hide Planned;
    var r := s.route.value;
    if w.geo.Some? && w.distance.Some? {
      PlannedIsPriced(w.geo.value, r.dest, w.distance.value);
      PlannedIsPriced(r.pickup, w.geo.value, w.distance.value);
    }
    NeutralIsHarmless(s, OnPrice(r, t, w));
  }

  lemma TextIsHarmless(s: State, t: Words, w: World)
    requires FloorInv(s)
    ensures AllHarmless(s, OnText(s, t, w))
  {
    hide OnPlaceText, OnTypedEdit, OnRouteConfirmation, OnPrice, OnIntent;
    if s.stage == Some(AwaitingPickup) || s.stage == Some(AwaitingDestination) {
      PlaceTextIsHarmless(s, t, w);
    } else if Editing(s.stage) {
      TypedEditIsHarmless(s, t, w);
    } else if s.stage == Some(AwaitingRouteConfirmation) {
      ConfirmationIsHarmless(s, t, w);
    } else if s.stage == Some(AwaitingPrice) && s.route.Some? {
      PriceIsHarmless(s, t, w);
    } else if t.cancel {
      NeutralIsHarmless(s, [ClearLocation, ClearStage, ClearRoute]);
    } else {
      IntentIsHarmless(s, t, w, []);
      assert [] + OnIntent(s, t, w) == OnIntent(s, t, w);
    }
  }

  lemma CancelReasonIsHarmless(s: State, reason: Option<string>, kept: set<RideKey>)
    ensures AllHarmless(s, OnCancelReason(s, reason, kept))
  {
    NeutralIsHarmless(s, OnCancelReason(s, reason, kept));
  }

  lemma DecisionIsHarmless(s: State, m: Message, w: World)
    requires FloorInv(s) && !WritesPlaceholder(s, m)
    ensures AllHarmless(s, Decide(s, m, w))
  {
    hide OnActiveRide, OnText, OnPin, OnCancelReason, Planned, FloorInv;
    if s.stage == Some(AwaitingCancelReason) {
      CancelReasonIsHarmless(s, if m.Text? then m.words.reason else None, w.kept);
    } else {
      match m
      case OtherFlow(_) => NeutralIsHarmless(s, Decide(s, m, w));
      case NormalRide(pickup, dest) =>
        if w.distance.Some? {
          QuoteIsHarmless(s, [], pickup, dest, w.distance.value);
          assert [] + Quote(pickup, dest, w.distance.value) == Quote(pickup, dest, w.distance.value);
        }
      case Pin(place) => PinIsHarmless(s, place, w);
      case Text(words) =>
        if s.activeRide.Some? {
          ActiveRideIsHarmless(s, s.activeRide.value, words, w);
        } else {
          TextIsHarmless(s, words, w);
        }
    }
  }

  /** The handler stops between writing the placeholder and leaving the stage that takes a price. */
  predicate Strands(s: State, step: Step) {
    step.Interrupt? && step.done == 1 && s.stage == Some(AwaitingPrice) && WritesPlaceholder(s, step.m)
  }

  lemma PlaceholderWrites(s: State, m: Message, w: World, done: nat)
    requires FloorInv(s) && WritesPlaceholder(s, m) && done <= |Decide(s, m, w)|
    ensures |Decide(s, m, w)| == 2
    ensures FloorInv(PerformAll(s, Decide(s, m, w)[..done])) <==> !(done == 1 && s.stage == Some(AwaitingPrice))
  {
    var r := Placeholder(s.metas[s.activeRide.value]);
    var stage := if m.words.edit.value.pickup then EditingPickup else EditingDestination;
    var effects := Decide(s, m, w);
    assert effects == [StoreRoute(r), SetStage(stage)];
    PerformTwo(s, StoreRoute(r), SetStage(stage));
    assert effects[..done] == if done == 0 then [] else if done == 1 then [StoreRoute(r)] else effects;
  }

  /**
   A step keeps the floor invariant exactly when it does not stop behind a placeholder route
   that was written while a price was awaited.
   */
  lemma StepKeepsFloorIff(s: State, step: Step)
    requires FloorInv(s) && Enabled(s, step)
    ensures FloorInv(Next(s, step)) <==> !Strands(s, step)
  {
    if step.Outside? {
      HarmlessKeepsFloor(s, step.effect);
    } else {
      var effects := Decide(s, step.m, step.w);
      var done := if step.Handle? then |effects| else step.done;
      assert effects[..|effects|] == effects;
      if WritesPlaceholder(s, step.m) {
        PlaceholderWrites(s, step.m, step.w, done);
      } else {
        hide Decide, WritesPlaceholder, FloorInv;
        DecisionIsHarmless(s, step.m, step.w);
        HarmlessPrefix(s, effects, done);
      }
    }
  }

  predicate NeverStrands(s: State, steps: seq<Step>)
    requires Legal(s, steps)
    decreases |steps|
  {
    steps == [] || (!Strands(s, steps[0]) && NeverStrands(Next(s, steps[0]), steps[1..]))
  }

  lemma {:induction false} RunKeepsFloor(s: State, steps: seq<Step>)
    requires FloorInv(s) && Legal(s, steps) && NeverStrands(s, steps)
    ensures FloorInv(Run(s, steps))
    decreases |steps|
  {
    hide Next, Strands, FloorInv;
    if steps != [] {
      StepKeepsFloorIff(s, steps[0]);
      RunKeepsFloor(Next(s, steps[0]), steps[1..]);
    }
  }

  /**
   On every run that never stops behind a placeholder, each ride request carries an offer of at
   least its own minimum, which is at least 3000 naira, and no counter-offer is below that either.
   */
  lemma FloorOnEveryRun(steps: seq<Step>)
    requires Legal(FRESH, steps) && NeverStrands(FRESH, steps)
    ensures forall i | 0 <= i < |Run(FRESH, steps).history| ::
      match Run(FRESH, steps).history[i]
      case Requested(_, _, _, offer, minOffer, _) => 300000 <= minOffer <= offer
      case Countered(_, counterOffer) => 300000 <= counterOffer
      case _ => true
  {
    RunKeepsFloor(FRESH, steps);
    var history := Run(FRESH, steps).history;
    forall i | 0 <= i < |history|
      ensures match history[i]
        case Requested(_, _, _, offer, minOffer, _) => 300000 <= minOffer <= offer
        case Countered(_, counterOffer) => 300000 <= counterOffer
        case _ => true
    {
      assert FairEvent(history[i]);
    }
  }

  // ---------- a run that loses the floor ----------

  /** A quote is on the table and a late bid has brought ride 1 back. */
  const QUOTED := FRESH.(stage := Some(AwaitingPrice), route := Some(Planned(YABA, LEKKI, 1000)),
                         activeRide := Some(1), metas := map[1 := OLD_RIDE], bids := map[1 := []],
                         states := map[1 := Searching])

  /** "edit from" stored the placeholder and failed; then the ride timed out. */
  const STRANDED := QUOTED.(route := Some(Placeholder(OLD_RIDE)), activeRide := None)

  lemma ReachesQuoted()
    ensures Reaches(FRESH, QUOTED)
  {
    hide Reaches, Planned;
    ReachesItself(FRESH);
    PerformTwo(FRESH, StoreRoute(Planned(YABA, LEKKI, 1000)), SetStage(AwaitingPrice));
    ReachesStep(FRESH, FRESH, Handle(NormalRide(YABA, LEKKI), CALM));
    var s1 := FRESH.(stage := Some(AwaitingPrice), route := Some(Planned(YABA, LEKKI, 1000)));
    ReachesStep(FRESH, s1, Outside(StoreRide(1, OLD_RIDE)));
    ReachesStep(FRESH, Perform(s1, StoreRide(1, OLD_RIDE)), Outside(SetActive(1)));
    assert Perform(Perform(s1, StoreRide(1, OLD_RIDE)), SetActive(1)) == QUOTED;
  }

  lemma ReachesStranded()
    ensures Reaches(FRESH, STRANDED)
  {
    hide Reaches, Planned;
    ReachesQuoted();
    var words := SILENT.(edit := Some(EditCommand(true, false)));
    var effects := Decide(QUOTED, Text(words), CALM);
    assert effects == [StoreRoute(Placeholder(OLD_RIDE)), SetStage(EditingPickup)];
    assert effects[..1] == [StoreRoute(Placeholder(OLD_RIDE))];
    PerformTwo(QUOTED, StoreRoute(Placeholder(OLD_RIDE)), ClearStage);
    ReachesStep(FRESH, QUOTED, Interrupt(Text(words), CALM, 1));
    ReachesStep(FRESH, QUOTED.(route := Some(Placeholder(OLD_RIDE))), Outside(ClearActive));
  }

  /** One failed write is enough: a ride goes out at 100 naira, with a minimum of nothing. */
  lemma AStrandedRunLosesTheFloor()
    ensures exists s, ride, pickup, dest, suggested ::
      Reaches(FRESH, s) && Requested(ride, pickup, dest, 100 * NAIRA, 0, suggested) in s.history
  {
    hide Reaches;
    ReachesStranded();
    var words := SILENT.(price := Some(100 * NAIRA));
    var r := Placeholder(OLD_RIDE);
    var effects := Decide(STRANDED, Text(words), CALM);
    assert effects == OnOffer(r, 100 * NAIRA, CALM);
    ReachesStep(FRESH, STRANDED, Handle(Text(words), CALM));
    OfferStarts(STRANDED, r, 100 * NAIRA, CALM);
  }
}
