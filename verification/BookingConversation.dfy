/**
 What a message makes of the conversation: which route is quoted, which place and which stage are kept, which bids
 are shown.  (apps/api-gateway/src/http/whatsapp.route.ts)
 */
module BookingConversation {
  import opened Options
  import opened Pricing
  import opened Booking

  // ---------- a quote ----------

  /** Between these places, with the prices of that distance, and no offer yet. */
  predicate Quotes(r: Route, pickup: Place, dest: Place, distanceM: nat) {
    && r.pickup == pickup && r.dest == dest && r.distanceM == distanceM && r.offer.None?
    && PricesOf(distanceM, r.suggested, r.minOffer)
  }

  lemma PlannedQuotes(r: Route, pickup: Place, dest: Place, distanceM: nat)
    ensures Quotes(r, pickup, dest, distanceM) <==> r == Planned(pickup, dest, distanceM)
  {
    PricesAre(distanceM, r.suggested, r.minOffer);
  }

  /** The pending route with its edited end moved to this place. */
  predicate MovesAnEnd(s: State, r: Route, place: Place, pickup: bool, distanceM: nat)
    requires s.route.Some?
  {
    if pickup then Quotes(r, place, s.route.value.dest, distanceM)
    else Quotes(r, s.route.value.pickup, place, distanceM)
  }

  /** The route of the ride to be edited, which has no least offer. */
  predicate StandsIn(r: Route, m: Meta) {
    && r.pickup == m.pickup && r.dest == m.dest && r.distanceM == m.distanceM && r.suggested == m.suggested
    && r.minOffer == 0 && r.offer.None?
  }

  // ---------- which text is read how ----------

  /** A price is awaited for a pending route. */
  predicate Haggling(s: State) {
    s.stage == Some(AwaitingPrice) && s.route.Some?
  }

  /** The text asks to edit the ride that is active. */
  predicate EditsActive(s: State, t: Words) {
    s.activeRide.Some? && !Underway(s, s.activeRide.value) && EditsRide(s, s.activeRide.value, t)
  }

  /** Without a ride, the text reaches the intent parser. */
  predicate Heard(s: State, t: Words) {
    && s.activeRide.None? && !Editing(s.stage) && s.stage != Some(AwaitingRouteConfirmation) && !Haggling(s)
    && !t.cancel
    && (s.stage == Some(AwaitingPickup) ==> t.conversation)
    && (s.stage == Some(AwaitingDestination) ==> t.conversation && s.location.Some?)
  }

  /** A text that answers the question where to go. */
  predicate NamesDestination(s: State, t: Words, w: World) {
    && s.activeRide.None? && s.stage == Some(AwaitingDestination) && !t.cancel && !t.conversation
    && s.location.Some? && w.geo.Some? && w.distance.Some?
  }

  /** Both ends are named in one text, found, and a route between them is planned. */
  predicate NamesBothEnds(s: State, t: Words, w: World) {
    && Heard(s, t) && t.intent.RideRequest? && t.intent.hasPickup && t.intent.hasDest
    && w.geo.Some? && w.destGeo.Some? && w.distance.Some?
  }

  /** The price in that text reaches the least offer for the distance. */
  ghost predicate OffersEnough(t: Words, w: World)
    requires t.intent.RideRequest? && w.distance.Some?
  {
    t.intent.offer.Some? && exists suggested, least ::
      PricesOf(w.distance.value, suggested, least) && t.intent.offer.value >= least
  }

  /** The address in the text replaces an end of the route that is haggled over. */
  predicate Replans(s: State, t: Words, w: World) {
    && s.activeRide.None? && Haggling(s) && !t.group && w.geo.Some? && w.distance.Some?
    && if t.edit.Some? then t.edit.value.inline else t.intent.EditPickupIntent? || t.intent.EditDestinationIntent?
  }

  /** A typed address while an end of the pending route is edited. */
  predicate TypesTheEnd(s: State, t: Words, w: World) {
    && s.activeRide.None? && Editing(s.stage) && !t.cancel && s.route.Some? && w.geo.Some? && w.distance.Some?
  }

  // ---------- what is stored ----------

  /** This route becomes the pending one. */
  predicate StoresRoute(s: State, m: Message, w: World, r: Route) {
    match m
    case OtherFlow(_) => false
    case NormalRide(pickup, dest) => w.distance.Some? && Quotes(r, pickup, dest, w.distance.value)
    case Pin(place) =>
      && w.distance.Some?
      && if Editing(s.stage) && s.route.Some? then MovesAnEnd(s, r, place, s.stage == Some(EditingPickup), w.distance.value)
         else s.activeRide.None? && s.location.Some? && Quotes(r, s.location.value, place, w.distance.value)
    case Text(t) =>
      if EditsActive(s, t) then
        var meta := s.metas[s.activeRide.value];
        if !t.edit.value.inline then StandsIn(r, meta)
        else
          && w.geo.Some? && w.distance.Some?
          && if t.edit.value.pickup then Quotes(r, w.geo.value, meta.dest, w.distance.value)
             else Quotes(r, meta.pickup, w.geo.value, w.distance.value)
      else
        || (TypesTheEnd(s, t, w) && MovesAnEnd(s, r, w.geo.value, s.stage == Some(EditingPickup), w.distance.value))
        || (Replans(s, t, w)
            && MovesAnEnd(s, r, w.geo.value, if t.edit.Some? then t.edit.value.pickup else t.intent.EditPickupIntent?,
                          w.distance.value))
        || (NamesDestination(s, t, w) && Quotes(r, s.location.value, w.geo.value, w.distance.value))
        || (NamesBothEnds(s, t, w) && Quotes(r.(offer := None), w.geo.value, w.destGeo.value, w.distance.value)
            && (r.offer.None? || (r.offer == t.intent.offer && r.offer.value >= r.minOffer)))
  }

  /** This place becomes the pending pickup. */
  predicate StoresPlace(s: State, m: Message, w: World, p: Place) {
    match m
    case Pin(place) =>
      && p == place && s.location.None? && !(Editing(s.stage) && s.route.Some?) && (s.activeRide.Some? ==> Editing(s.stage))
    case Text(t) =>
      && w.geo == Some(p) && s.activeRide.None?
      && (|| (s.stage == Some(AwaitingPickup) && !t.cancel && !t.conversation)
          || (Heard(s, t) && t.intent.RideRequest? && t.intent.hasPickup && (t.intent.hasDest ==> w.destGeo.None?)))
    case _ => false
  }

  /** These bids become what the rider can accept from. */
  predicate ShowsBids(s: State, m: Message, ride: RideId, shown: seq<Bid>) {
    && m.Text? && s.activeRide == Some(ride) && !Underway(s, ride) && !EditsRide(s, ride, m.words)
    && !m.words.cancel && !(s.pendingAccept.Some? && m.words.pay) && m.words.accept.None? && m.words.more
    && ride in s.bids && shown == s.bids[ride] && shown != []
  }

  /** The conversation enters this stage. */
  ghost predicate Enters(s: State, m: Message, w: World, stage: Stage) {
    match stage
    case AnotherFlow =>
      || m == OtherFlow(false)
      || (m.Text? && s.activeRide.None? && Haggling(s) && m.words.group)
      || (m.Text? && Heard(s, m.words) && m.words.intent.GroupRequest?)
    case AwaitingCancelReason =>
      && m.Text? && m.words.cancel
      && if s.activeRide.Some? then !EditsActive(s, m.words)
         else
           || s.stage == Some(AwaitingDestination) || Editing(s.stage)
           || (Haggling(s) && !m.words.group && m.words.edit.None?
               && !m.words.intent.EditPickupIntent? && !m.words.intent.EditDestinationIntent?)
    case SearchingDrivers => RequestedBy(s, m).Some? && !Haggling(s)
    case EditingPickup => m.Text? && AsksWhere(s, m.words) && m.words.edit.value.pickup
    case EditingDestination => m.Text? && AsksWhere(s, m.words) && !m.words.edit.value.pickup
    case AwaitingPickup =>
      m.Text? && Heard(s, m.words) && m.words.intent.RideRequest? && !m.words.intent.hasPickup && m.words.intent.vaguePickup
    case AwaitingDestination =>
      || (exists p :: StoresPlace(s, m, w, p))
      || (m.Text? && Heard(s, m.words) && m.words.intent.RideRequest? && m.words.intent.hasPickup
          && !m.words.intent.hasDest && w.geo.None? && m.words.intent.vagueDest)
    case AwaitingRouteConfirmation => m.Text? && NamesBothEnds(s, m.words, w) && OffersEnough(m.words, w)
    case AwaitingPrice =>
      || (m.NormalRide? && w.distance.Some?)
      || (m.Pin? && w.distance.Some?
          && ((Editing(s.stage) && s.route.Some?) || (s.activeRide.None? && s.location.Some?)))
      || (m.Text? && EditsActive(s, m.words) && m.words.edit.value.inline && w.geo.Some? && w.distance.Some?)
      || (m.Text? && (TypesTheEnd(s, m.words, w) || NamesDestination(s, m.words, w)))
      || (m.Text? && NamesBothEnds(s, m.words, w) && !OffersEnough(m.words, w))
      || (m.Text? && s.activeRide.None? && s.stage == Some(AwaitingRouteConfirmation) && !m.words.cancel
          && s.route.Some? && s.route.value.offer.Some? && !m.words.yes)
  }

  /** "edit from" or "edit to" without an address. */
  predicate AsksWhere(s: State, t: Words) {
    && t.edit.Some? && !t.edit.value.inline
    && (EditsActive(s, t) || (s.activeRide.None? && Haggling(s) && !t.group))
  }

  /** A text with no ride, no question open and no route to haggle over takes the booking back. */
  predicate TakesBack(s: State, t: Words) {
    && s.activeRide.None? && t.cancel && !Editing(s.stage) && !Haggling(s)
    && s.stage !in {Some(AwaitingPickup), Some(AwaitingDestination), Some(AwaitingRouteConfirmation)}
  }

  /** A second pin, which ends the question where to go. */
  predicate SecondPin(s: State, w: World) {
    && s.location.Some? && !(Editing(s.stage) && s.route.Some?)
    && if s.activeRide.Some? then Editing(s.stage) else w.distance.Some?
  }

  /** The reason for a cancellation is given. */
  predicate Explains(s: State, m: Message) {
    s.stage == Some(AwaitingCancelReason) && m.Text? && m.words.reason.Some?
  }

  /** The price named reaches the least offer of the pending route. */
  predicate Offers(s: State, t: Words) {
    && s.activeRide.None? && Haggling(s) && RequestedBy(s, Text(t)).Some?
  }

  /** The shown route waits for a yes. */
  predicate Confirming(s: State) {
    s.activeRide.None? && s.stage == Some(AwaitingRouteConfirmation)
  }

  predicate LeavesStage(s: State, m: Message, w: World) {
    match m
    case OtherFlow(ends) => ends
    case NormalRide(_, _) => false
    case Pin(_) => SecondPin(s, w)
    case Text(t) =>
      s.activeRide.None? &&
      (|| (s.stage == Some(AwaitingPickup) && (t.cancel || t.conversation))
       || (s.stage == Some(AwaitingDestination) && !t.cancel && s.location.None?)
       || NamesDestination(s, t, w)
       || (Editing(s.stage) && !t.cancel && s.route.None?)
       || (Confirming(s) && (t.cancel || s.route.None? || s.route.value.offer.None?))
       || Offers(s, t) || TakesBack(s, t))
  }

  predicate DropsRoute(s: State, m: Message) {
    m.Text? &&
    (|| (Confirming(s) && (m.words.cancel || RequestedBy(s, m).Some?))
     || (s.activeRide.None? && Haggling(s) && m.words.group)
     || Offers(s, m.words) || TakesBack(s, m.words))
  }

  predicate DropsPlace(s: State, m: Message, w: World) {
    match m
    case Pin(_) => SecondPin(s, w)
    case Text(t) => NamesDestination(s, t, w) || TakesBack(s, t)
    case _ => false
  }

  /** The message calls for this write. */
  ghost predicate CallsFor(s: State, m: Message, w: World, e: Effect)
    requires Speaks(e)
  {
    if s.stage == Some(AwaitingCancelReason) then
      Explains(s, m) && (e.ClearStage? || e.ClearRoute? || e.ClearLocation?)
    else
      match e
      case StoreRoute(r) => StoresRoute(s, m, w, r)
      case SetLocation(p) => StoresPlace(s, m, w, p)
      case StoreBatch(ride, shown) => ShowsBids(s, m, ride, shown)
      case SetStage(stage) => Enters(s, m, w, stage)
      case ClearStage => LeavesStage(s, m, w)
      case ClearRoute => DropsRoute(s, m)
      case ClearLocation => DropsPlace(s, m, w)
  }

  predicate Speaks(e: Effect) {
    || e.StoreRoute? || e.SetLocation? || e.StoreBatch? || e.SetStage?
    || e.ClearStage? || e.ClearRoute? || e.ClearLocation?
  }

  lemma OffersEnoughIs(t: Words, w: World, pickup: Place, dest: Place)
    requires t.intent.RideRequest? && w.distance.Some?
    ensures OffersEnough(t, w)
      <==> t.intent.offer.Some? && t.intent.offer.value >= Planned(pickup, dest, w.distance.value).minOffer
  {
    var r := Planned(pickup, dest, w.distance.value);
    PlannedQuotes(r, pickup, dest, w.distance.value);
    forall suggested, least | PricesOf(w.distance.value, suggested, least)
      ensures least == r.minOffer
    {
      PricesAre(w.distance.value, suggested, least);
      PricesAre(w.distance.value, r.suggested, r.minOffer);
    }
  }

  /** The quotes that matter for one write. */
  lemma QuotesOf(e: Effect)
    requires Speaks(e)
    ensures e.StoreRoute? ==> forall p, d, n: nat ::
      (Quotes(e.route, p, d, n) <==> e.route == Planned(p, d, n))
      && (Quotes(e.route.(offer := None), p, d, n) <==> e.route.(offer := None) == Planned(p, d, n))
  {
    if e.StoreRoute? {
      forall p, d, n: nat
        ensures Quotes(e.route, p, d, n) <==> e.route == Planned(p, d, n)
        ensures Quotes(e.route.(offer := None), p, d, n) <==> e.route.(offer := None) == Planned(p, d, n)
      {
        PlannedQuotes(e.route, p, d, n);
        PlannedQuotes(e.route.(offer := None), p, d, n);
      }
    }
  }

  lemma PinCallsFor(s: State, place: Place, w: World, e: Effect)
    requires Speaks(e) && s.stage != Some(AwaitingCancelReason)
    ensures e in OnPin(s, place, w) <==> CallsFor(s, Pin(place), w, e)
  {
    QuotesOf(e);
    assert StoresPlace(s, Pin(place), w, place) <==> exists p :: StoresPlace(s, Pin(place), w, p);
    hide Quotes, Planned, PricesOf;
    if e.StoreRoute? {
      assert e in OnPin(s, place, w) <==> StoresRoute(s, Pin(place), w, e.route);
    } else if e.SetLocation? {
      assert e in OnPin(s, place, w) <==> StoresPlace(s, Pin(place), w, e.place);
    } else if e.SetStage? {
      assert e in OnPin(s, place, w) <==> Enters(s, Pin(place), w, e.stage);
    }
  }

  lemma ActiveQuotes(s: State, t: Words, w: World, e: Effect)
    requires e.StoreRoute? && s.stage != Some(AwaitingCancelReason) && s.activeRide.Some?
    ensures e in OnActiveRide(s, s.activeRide.value, t, w) <==> StoresRoute(s, Text(t), w, e.route)
  {
    QuotesOf(e);
    hide Quotes, Planned, PricesOf, Heard, Haggling, OnAccept, OnPay, OnCounterOffer;
    NoRouteElsewhere(s, s.activeRide.value, t, w, e);
  }

  lemma NoRouteElsewhere(s: State, ride: RideId, t: Words, w: World, e: Effect)
    requires e.StoreRoute?
    ensures t.accept.Some? ==> e !in OnAccept(s, ride, t.accept.value, w)
    ensures s.pendingAccept.Some? ==> e !in OnPay(s, s.pendingAccept.value, w)
    ensures t.price.Some? ==> e !in OnCounterOffer(s, ride, t.price.value)
  {
  }

  lemma ActiveCallsFor(s: State, t: Words, w: World, e: Effect)
    requires Speaks(e) && s.stage != Some(AwaitingCancelReason) && s.activeRide.Some?
    ensures e in OnActiveRide(s, s.activeRide.value, t, w) <==> CallsFor(s, Text(t), w, e)
  {
    if e.StoreRoute? {
      ActiveQuotes(s, t, w, e);
    } else {
      if e.SetStage? {
        ActiveStage(s, t, w, e);
      }
      hide Quotes, Planned, PricesOf, Heard, Haggling, Placeholder, StoresRoute, Enters;
      var effects := OnActiveRide(s, s.activeRide.value, t, w);
      if e.SetLocation? {
        assert e in effects <==> StoresPlace(s, Text(t), w, e.place);
      } else if e.StoreBatch? {
        assert e in effects <==> ShowsBids(s, Text(t), e.batchRide, e.newBatch);
      }
    }
  }

  lemma ActiveStage(s: State, t: Words, w: World, e: Effect)
    requires e.SetStage? && s.stage != Some(AwaitingCancelReason) && s.activeRide.Some?
    ensures e in OnActiveRide(s, s.activeRide.value, t, w) <==> Enters(s, Text(t), w, e.stage)
  {
    hide Quotes, Planned, PricesOf, Haggling, Placeholder, StoresRoute;
  }

  lemma IntentQuotes(s: State, t: Words, w: World, e: Effect)
    requires e.StoreRoute? && s.stage != Some(AwaitingCancelReason) && Heard(s, t)
    ensures e in OnIntent(s, t, w) <==> StoresRoute(s, Text(t), w, e.route)
  {
    QuotesOf(e);
    hide Quotes, Planned, PricesOf, OffersEnough;
  }

  lemma IntentCallsFor(s: State, t: Words, w: World, e: Effect)
    requires Speaks(e) && s.stage != Some(AwaitingCancelReason) && Heard(s, t)
    ensures e in OnIntent(s, t, w) <==> CallsFor(s, Text(t), w, e) && !e.ClearStage?
  {
    if e.StoreRoute? {
      IntentQuotes(s, t, w, e);
    } else {
      if e.SetStage? {
        IntentStage(s, t, w, e);
      }
      hide Quotes, Planned, PricesOf, OffersEnough, StoresRoute, Enters;
      if e.SetLocation? {
        assert e in OnIntent(s, t, w) <==> StoresPlace(s, Text(t), w, e.place);
      }
    }
  }

  lemma IntentStage(s: State, t: Words, w: World, e: Effect)
    requires e.SetStage? && s.stage != Some(AwaitingCancelReason) && Heard(s, t)
    ensures e in OnIntent(s, t, w) <==> Enters(s, Text(t), w, e.stage)
  {
    if NamesBothEnds(s, t, w) {
      OffersEnoughIs(t, w, w.geo.value, w.destGeo.value);
    }
    assert w.geo.Some? ==> (StoresPlace(s, Text(t), w, w.geo.value) <==> exists p :: StoresPlace(s, Text(t), w, p));
    hide Quotes, Planned, PricesOf, OffersEnough, StoresRoute;
  }

  lemma HeardText(s: State, t: Words, w: World, e: Effect)
    requires Speaks(e) && s.stage != Some(AwaitingCancelReason) && Heard(s, t)
    ensures OnText(s, t, w)
         == if s.stage == Some(AwaitingPickup) then [ClearStage] + OnIntent(s, t, w) else OnIntent(s, t, w)
    ensures CallsFor(s, Text(t), w, ClearStage) <==> s.stage == Some(AwaitingPickup)
  {
    hide OnIntent, Planned;
  }

  /** A place is asked for, and the text is no conversation. */
  lemma PlaceCallsFor(s: State, t: Words, w: World, e: Effect)
    requires Speaks(e) && s.activeRide.None? && !Heard(s, t)
    requires s.stage == Some(AwaitingPickup) || s.stage == Some(AwaitingDestination)
    ensures e in OnPlaceText(s, t, w) <==> CallsFor(s, Text(t), w, e)
  {
    QuotesOf(e);
    assert w.geo.Some? ==> (StoresPlace(s, Text(t), w, w.geo.value) <==> exists p :: StoresPlace(s, Text(t), w, p));
    hide Quotes, Planned, PricesOf, OffersEnough, OnIntent;
    var effects := OnPlaceText(s, t, w);
    if e.StoreRoute? {
      assert e in effects <==> StoresRoute(s, Text(t), w, e.route);
    } else if e.SetLocation? {
      assert e in effects <==> StoresPlace(s, Text(t), w, e.place);
    } else if e.SetStage? {
      assert e in effects <==> Enters(s, Text(t), w, e.stage);
    }
  }

  /** An end of the pending route is typed. */
  lemma EndCallsFor(s: State, t: Words, w: World, e: Effect)
    requires Speaks(e) && s.activeRide.None? && Editing(s.stage)
    ensures e in OnText(s, t, w) <==> CallsFor(s, Text(t), w, e)
  {
    QuotesOf(e);
    hide Quotes, Planned, PricesOf, OffersEnough, OnIntent, OnPlaceText, OnPrice, OnRouteConfirmation, NamesBothEnds;
    var effects := OnText(s, t, w);
    if e.StoreRoute? {
      assert e in effects <==> StoresRoute(s, Text(t), w, e.route);
    } else if e.SetLocation? {
      assert e in effects <==> StoresPlace(s, Text(t), w, e.place);
    } else if e.SetStage? {
      assert e in effects <==> Enters(s, Text(t), w, e.stage);
    }
  }

  /** The shown route is confirmed or not. */
  lemma YesCallsFor(s: State, t: Words, w: World, e: Effect)
    requires Speaks(e) && s.activeRide.None? && s.stage == Some(AwaitingRouteConfirmation)
    ensures e in OnText(s, t, w) <==> CallsFor(s, Text(t), w, e)
  {
    QuotesOf(e);
    hide Quotes, Planned, PricesOf, OffersEnough, OnIntent, OnPlaceText, OnPrice, OnTypedEdit, NamesBothEnds;
    var effects := OnText(s, t, w);
    if e.StoreRoute? {
      assert e in effects <==> StoresRoute(s, Text(t), w, e.route);
    } else if e.SetLocation? {
      assert e in effects <==> StoresPlace(s, Text(t), w, e.place);
    } else if e.SetStage? {
      assert e in effects <==> Enters(s, Text(t), w, e.stage);
    }
  }

  /** The price is haggled over. */
  lemma PriceCallsFor(s: State, t: Words, w: World, e: Effect)
    requires Speaks(e) && s.activeRide.None? && Haggling(s)
    ensures e in OnText(s, t, w) <==> CallsFor(s, Text(t), w, e)
  {
    QuotesOf(e);
    hide Quotes, Planned, PricesOf, OffersEnough, OnIntent, OnPlaceText, OnRouteConfirmation, OnTypedEdit, NamesBothEnds;
    var effects := OnText(s, t, w);
    if e.StoreRoute? {
      assert e in effects <==> StoresRoute(s, Text(t), w, e.route);
    } else if e.SetLocation? {
      assert e in effects <==> StoresPlace(s, Text(t), w, e.place);
    } else if e.SetStage? {
      assert e in effects <==> Enters(s, Text(t), w, e.stage);
    }
  }

  /** No question is open. */
  lemma BackCallsFor(s: State, t: Words, w: World, e: Effect)
    requires Speaks(e) && s.activeRide.None? && TakesBack(s, t) && s.stage != Some(AwaitingCancelReason)
    ensures e in OnText(s, t, w) <==> CallsFor(s, Text(t), w, e)
  {
    QuotesOf(e);
    hide Quotes, Planned, PricesOf, OffersEnough, OnIntent, OnPlaceText, OnPrice, OnRouteConfirmation, OnTypedEdit, NamesBothEnds;
    var effects := OnText(s, t, w);
    if e.StoreRoute? {
      assert e in effects <==> StoresRoute(s, Text(t), w, e.route);
    } else if e.SetLocation? {
      assert e in effects <==> StoresPlace(s, Text(t), w, e.place);
    } else if e.SetStage? {
      assert e in effects <==> Enters(s, Text(t), w, e.stage);
    }
  }

  lemma TextCallsFor(s: State, t: Words, w: World, e: Effect)
    requires Speaks(e) && s.stage != Some(AwaitingCancelReason) && s.activeRide.None?
    ensures e in OnText(s, t, w) <==> CallsFor(s, Text(t), w, e)
  {
    hide OnIntent, CallsFor, OnPlaceText;
    if Heard(s, t) {
      IntentCallsFor(s, t, w, e);
      HeardText(s, t, w, e);
    } else if s.stage == Some(AwaitingPickup) || s.stage == Some(AwaitingDestination) {
      PlaceCallsFor(s, t, w, e);
    } else if Editing(s.stage) {
      EndCallsFor(s, t, w, e);
    } else if s.stage == Some(AwaitingRouteConfirmation) {
      YesCallsFor(s, t, w, e);
    } else if Haggling(s) {
      PriceCallsFor(s, t, w, e);
    } else {
      BackCallsFor(s, t, w, e);
    }
  }

  /**
   Which route, place, bids and stage a message stores, and when: exactly the writes that it calls for.  A route is
   quoted between the places that the rider named, in their order, at the prices of its distance.
   */
  lemma SpeaksAsCalledFor(s: State, m: Message, w: World, e: Effect)
    requires Speaks(e)
    ensures e in Decide(s, m, w) <==> CallsFor(s, m, w, e)
  {
    hide OnActiveRide, OnText, OnPin, Quotes, Planned, PricesOf;
    if s.stage == Some(AwaitingCancelReason) {
    } else if m.Pin? {
      PinCallsFor(s, m.place, w, e);
    } else if m.Text? && s.activeRide.Some? {
      ActiveCallsFor(s, m.words, w, e);
    } else if m.Text? {
      TextCallsFor(s, m.words, w, e);
    } else {
      QuotesOf(e);
    }
  }

  // ---------- and what is there afterwards ----------

  predicate TouchesPlace(e: Effect) {
    e.SetLocation? || e.ClearLocation?
  }

  predicate TouchesRoute(e: Effect) {
    e.StoreRoute? || e.ClearRoute?
  }

  /** A quote waits for its price or its confirmation. */
  predicate QuoteOpen(s: State) {
    s.stage == Some(AwaitingRouteConfirmation) || (s.stage == Some(AwaitingPrice) && s.route.Some?)
  }

  /**
   Behind `a` comes `b`, for a rider who was at `s`.  A stage is entered last of all, and left once what belonged to it is
   gone; a place that is stored is not touched again, and a route only to add the offer.
   */
  predicate Precedes(s: State, a: Effect, b: Effect) {
    && (a.SetStage? ==> !Speaks(b))
    && (a.ClearStage? && b.ClearLocation? ==> s.stage == Some(AwaitingCancelReason))
    && (a.ClearStage? && b.ClearRoute? ==> !QuoteOpen(s))
    && (a.SetLocation? ==> !TouchesPlace(b))
    && (a.StoreRoute? && TouchesRoute(b) ==> a.route.offer.None? && b.StoreRoute? && b.route.offer.Some?)
    && (a.StoreBatch? ==> !b.StoreBatch? && !b.CleanupRide?)
  }

  predicate Tidy(s: State, effects: seq<Effect>) {
    forall i, j | 0 <= i < j < |effects| :: Precedes(s, effects[i], effects[j])
  }

  /** The stage that is left: the one entered, none if it is only left, else the old one. */
  predicate StageLeft(s: State, effects: seq<Effect>, t: State) {
    && (forall e | e in effects && e.SetStage? :: t.stage == Some(e.stage))
    && ((forall e | e in effects :: !e.SetStage?) ==> t.stage == if ClearStage in effects then None else s.stage)
  }

  predicate PlaceLeft(s: State, effects: seq<Effect>, t: State) {
    && (forall e | e in effects && e.SetLocation? :: t.location == Some(e.place))
    && ((forall e | e in effects :: !e.SetLocation?) ==> t.location == if ClearLocation in effects then None else s.location)
  }

  /** Of two routes stored the one with the offer is left. */
  predicate RouteLeft(s: State, effects: seq<Effect>, t: State) {
    && (forall e | e in effects && e.StoreRoute? :: t.route.Some? && (t.route.value == e.route || e.route.offer.None?))
    && ((exists e | e in effects :: e.StoreRoute?) ==> t.route.Some? && StoreRoute(t.route.value) in effects)
    && ((forall e | e in effects :: !e.StoreRoute?) ==> t.route == if ClearRoute in effects then None else s.route)
  }

  predicate BidsLeft(s: State, effects: seq<Effect>, t: State) {
    && (forall e | e in effects && e.StoreBatch? :: e.batchRide in t.batches && t.batches[e.batchRide] == e.newBatch)
    && ((forall e | e in effects :: !e.StoreBatch? && !e.CleanupRide?) ==> t.batches == s.batches)
  }

  lemma PlaceAfterOne(s: State, e: Effect)
    ensures Perform(s, e).location == if e.SetLocation? then Some(e.place) else if e.ClearLocation? then None else s.location
  {
  }

  lemma BatchesAfterOne(s: State, e: Effect)
    ensures e.StoreBatch? ==> Perform(s, e).batches == s.batches[e.batchRide := e.newBatch]
    ensures !e.StoreBatch? && !e.CleanupRide? ==> Perform(s, e).batches == s.batches
  {
  }

  lemma TidyRest(was: State, effects: seq<Effect>)
    requires Tidy(was, effects) && effects != []
    ensures Tidy(was, effects[1..]) && forall e | e in effects[1..] :: Precedes(was, effects[0], e)
  {
    forall e | e in effects[1..]
      ensures Precedes(was, effects[0], e)
    {
      var j :| 0 <= j < |effects[1..]| && effects[1..][j] == e;
      assert effects[j + 1] == e;
    }
  }

  lemma {:induction false} TidyStage(was: State, s: State, effects: seq<Effect>)
    requires Tidy(was, effects)
    ensures StageLeft(s, effects, PerformAll(s, effects))
    decreases |effects|
  {
    if effects != [] {
      var e, rest := effects[0], effects[1..];
      StageAfterOne(s, e);
      assert effects == [e] + rest;
      TidyRest(was, effects);
      hide Perform, Tidy;
      TidyStage(was, Perform(s, e), rest);
    }
  }

  lemma {:induction false} TidyPlace(was: State, s: State, effects: seq<Effect>)
    requires Tidy(was, effects)
    ensures PlaceLeft(s, effects, PerformAll(s, effects))
    decreases |effects|
  {
    if effects != [] {
      var e, rest := effects[0], effects[1..];
      PlaceAfterOne(s, e);
      assert effects == [e] + rest;
      TidyRest(was, effects);
      hide Perform, Tidy;
      TidyPlace(was, Perform(s, e), rest);
    }
  }

  lemma {:induction false} TidyRoute(was: State, s: State, effects: seq<Effect>)
    requires Tidy(was, effects)
    ensures RouteLeft(s, effects, PerformAll(s, effects))
    decreases |effects|
  {
    if effects != [] {
      var e, rest := effects[0], effects[1..];
      RouteAfterOne(s, e);
      assert effects == [e] + rest;
      TidyRest(was, effects);
      hide Perform, Tidy;
      TidyRoute(was, Perform(s, e), rest);
    }
  }

  lemma {:induction false} TidyBids(was: State, s: State, effects: seq<Effect>)
    requires Tidy(was, effects)
    ensures BidsLeft(s, effects, PerformAll(s, effects))
    decreases |effects|
  {
    if effects != [] {
      var e, rest := effects[0], effects[1..];
      BatchesAfterOne(s, e);
      assert effects == [e] + rest;
      TidyRest(was, effects);
      hide Perform, Tidy;
      TidyBids(was, Perform(s, e), rest);
    }
  }

  // ---------- every branch is tidy ----------

  lemma PinTidy(s: State, place: Place, w: World)
    ensures Tidy(s, OnPin(s, place, w))
  {
    hide Planned, Moved;
  }

  lemma ActiveTidy(s: State, ride: RideId, t: Words, w: World)
    ensures Tidy(s, OnActiveRide(s, ride, t, w))
  {
    if EditsRide(s, ride, t) {
      EditTidy(s, ride, s.metas[ride], t.edit.value, w);
    }
    hide OnEditRide, EditsRide, OnCounterOffer;
  }

  lemma EditTidy(s: State, ride: RideId, m: Meta, edit: EditCommand, w: World)
    ensures Tidy(s, OnEditRide(ride, m, edit, w))
  {
    hide Planned, Placeholder;
  }

  lemma IntentTidy(s: State, t: Words, w: World)
    ensures Tidy(s, OnIntent(s, t, w)) && Tidy(s, [ClearStage] + OnIntent(s, t, w))
  {
    PlannedFields();
    hide Planned;
  }

  lemma TextTidy(s: State, t: Words, w: World)
    ensures Tidy(s, OnText(s, t, w))
  {
    IntentTidy(s, t, w);
    hide Planned, Moved, OnIntent;
  }

  /**
   Behind a message the stage is the one it calls for, none if it only leaves the old one, and else unchanged; so are
   the pending place and the pending route, where the route with the offer replaces the one without; what the
   rider can accept from is what was shown last.
   */
  lemma ConversationAfter(s: State, m: Message, w: World)
    ensures var t, effects := Next(s, Handle(m, w)), Decide(s, m, w);
      && StageLeft(s, effects, t) && PlaceLeft(s, effects, t) && RouteLeft(s, effects, t) && BidsLeft(s, effects, t)
  {
    hide Decide, Tidy, PerformAll;
    var effects := Decide(s, m, w);
    DecisionTidy(s, m, w);
    TidyStage(s, s, effects);
    TidyPlace(s, s, effects);
    TidyRoute(s, s, effects);
    TidyBids(s, s, effects);
  }

  lemma ReasonTidy(s: State, reason: Option<string>, kept: set<RideKey>)
    requires s.stage == Some(AwaitingCancelReason)
    ensures Tidy(s, OnCancelReason(s, reason, kept))
  {
  }

  lemma OtherTidy(s: State, m: Message, w: World)
    requires s.stage != Some(AwaitingCancelReason) && !m.Pin? && !m.Text?
    ensures Tidy(s, Decide(s, m, w))
  {
    hide Planned;
  }

  lemma DecisionTidy(s: State, m: Message, w: World)
    ensures Tidy(s, Decide(s, m, w))
  {
    hide OnActiveRide, OnText, OnPin, Tidy, Planned;
    if s.stage == Some(AwaitingCancelReason) {
      ReasonTidy(s, if m.Text? then m.words.reason else None, w.kept);
    } else if m.Pin? {
      PinTidy(s, m.place, w);
    } else if m.Text? && s.activeRide.Some? {
      ActiveTidy(s, s.activeRide.value, m.words, w);
    } else if m.Text? {
      TextTidy(s, m.words, w);
    } else {
      OtherTidy(s, m, w);
    }
  }

  // ---------- a message cut short ----------

  predicate EntersStage(effects: seq<Effect>) {
    exists e | e in effects :: e.SetStage?
  }

  lemma {:induction false} SilentKeeps(s: State, effects: seq<Effect>)
    requires forall e | e in effects :: !Speaks(e)
    ensures var t := PerformAll(s, effects); t.stage == s.stage && t.route == s.route && t.location == s.location
    decreases |effects|
  {
    if effects != [] {
      assert effects[0] in effects && forall e | e in effects[1..] :: e in effects;
      StageAfterOne(s, effects[0]);
      PlaceAfterOne(s, effects[0]);
      RouteAfterOne(s, effects[0]);
      hide Perform;
      SilentKeeps(Perform(s, effects[0]), effects[1..]);
    }
  }

  /**
   A message cut short behind any of its writes: once it has entered a stage, stage, route and place are those that the
   whole message leaves; and once it has left one, the place is gone if it was to go (unless a reason was awaited),
   and so is the quote that was open.  So a stage never stands for something that is still to be written.
   */
  lemma CutShort(s: State, m: Message, w: World, done: nat)
    requires done <= |Decide(s, m, w)|
    ensures var effects := Decide(s, m, w);
      var cut, whole := Next(s, Interrupt(m, w, done)), Next(s, Handle(m, w));
      && (EntersStage(effects[..done]) ==>
            cut.stage == whole.stage && cut.route == whole.route && cut.location == whole.location)
      && (ClearStage in effects[..done] && s.stage != Some(AwaitingCancelReason) && ClearLocation in effects ==>
            ClearLocation in effects[..done])
      && (ClearStage in effects[..done] && QuoteOpen(s) && ClearRoute in effects ==> ClearRoute in effects[..done])
  {
    var effects := Decide(s, m, w);
    hide Decide, Perform, PerformAll, Tidy;
    DecisionTidy(s, m, w);
    assert effects == effects[..done] + effects[done..];
    PerformAppend(s, effects[..done], effects[done..]);
    if EntersStage(effects[..done]) {
      EnteredLast(s, effects, done);
      SilentKeeps(PerformAll(s, effects[..done]), effects[done..]);
    }
    if ClearStage in effects[..done] {
      LeftLast(s, effects, done, ClearLocation);
      LeftLast(s, effects, done, ClearRoute);
    }
  }

  lemma EnteredLast(s: State, effects: seq<Effect>, done: nat)
    requires Tidy(s, effects) && done <= |effects| && EntersStage(effects[..done])
    ensures forall e | e in effects[done..] :: !Speaks(e)
  {
    var i :| 0 <= i < done && effects[..done][i].SetStage?;
    forall e | e in effects[done..] ensures !Speaks(e) {
      var j :| 0 <= j < |effects| - done && effects[done..][j] == e;
      assert Precedes(s, effects[i], effects[done + j]);
    }
  }

  lemma LeftLast(s: State, effects: seq<Effect>, done: nat, cleared: Effect)
    requires Tidy(s, effects) && done <= |effects| && ClearStage in effects[..done]
    ensures cleared in effects && !Precedes(s, ClearStage, cleared) ==> cleared in effects[..done]
  {
    hide Tidy, Precedes;
    var i: nat :| i < done && effects[..done][i] == ClearStage;
    if cleared in effects && !Precedes(s, ClearStage, cleared) {
      var j: nat :| j < |effects| && effects[j] == cleared;
      if done <= j {
        TidyAt(s, effects, i, j);
        assert false;
      }
      assert effects[..done][j] == cleared;
    }
  }

  lemma TidyAt(s: State, effects: seq<Effect>, i: nat, j: nat)
    requires Tidy(s, effects) && i < j < |effects|
    ensures Precedes(s, effects[i], effects[j])
  {
  }
}
