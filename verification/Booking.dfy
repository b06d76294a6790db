/**
 Booking a ride over WhatsApp: stage, pending route, active ride, chosen bid and payment of one
 rider whose messages are handled in turn.  (apps/api-gateway/src/http/whatsapp.route.ts,
 apps/api-gateway/src/whatsapp-flows/bid-state.ts, packages/db/src/clients/wallet.client.ts)

 What a message makes the handler write, and in which order, is the function `Decide`.  A message
 is handled to the end, or a write fails and the rest of the list is lost: the handler's outer
 catch only logs.  Between messages the keys may expire and the event consumer may change them.
 */
module Booking {
  import opened Options

  import opened Pricing

  type RideId = nat

  /** The keys of a ride's chat state that a cleanup deletes, each on its own. */
  datatype RideKey = MetaKey | BidsKey | StateKey | BatchKey

  datatype Place = Place(lat: int, lng: int, address: string)

  datatype Route = Route(pickup: Place, dest: Place, distanceM: nat, suggested: Kobo, minOffer: Kobo, offer: Option<Kobo>)

  /** The ride's chat state; a missing coordinate is a zero, as both are falsy. */
  datatype Meta = Meta(pickup: Place, dest: Place, distanceM: nat, offer: Kobo, suggested: Kobo)

  /** `AnotherFlow`: a stage of the group-ride or the withdrawal conversation. */
  datatype Stage =
    | AwaitingPickup | AwaitingDestination | AwaitingRouteConfirmation | AwaitingPrice | AwaitingCancelReason
    | SearchingDrivers | EditingPickup | EditingDestination | AnotherFlow

  datatype RideState = Searching | Bidding | Confirmed | InProgress

  datatype Bid = Bid(id: nat, driver: nat, price: Kobo)

  /** The rider picked this bid and has yet to pay. */
  datatype Accept = Accept(ride: RideId, bid: Bid)

  /** A row of `rideHold`, one per ride for ever; `active` until it is released or charged. */
  datatype Hold = Hold(amount: Kobo, active: bool)

  datatype Reason = EditingRoute | Given(text: string)

  datatype AcceptCommand = Numbered(number: nat) | Unspecified

  /** Published events, and for the record the hold calls that returned and the choices stored. */
  datatype Event =
    | Requested(ride: RideId, pickup: Place, dest: Place, offer: Kobo, minOffer: Kobo, suggested: Kobo)
    | Cancelled(ride: RideId, reason: Reason)
    | Countered(ride: RideId, counterOffer: Kobo)
    | Chosen(ride: RideId, bid: Bid, command: AcceptCommand, batch: seq<Bid>)
    | Held(ride: RideId, amount: Kobo, applied: bool)
    | Accepted(ride: RideId, bid: Bid, agreedFare: Kobo)
    | SeatsAccepted(anchor: RideId)

  datatype State = State(
    stage: Option<Stage>, route: Option<Route>, lastRoute: Option<Route>, location: Option<Place>,
    activeRide: Option<RideId>, pendingAccept: Option<Accept>,
    metas: map<RideId, Meta>, states: map<RideId, RideState>,
    bids: map<RideId, seq<Bid>>, batches: map<RideId, seq<Bid>>,
    holds: map<RideId, Hold>, balance: Kobo, history: seq<Event>)

  // ---------- writes ----------

  datatype Effect =
    | SetStage(stage: Stage) | ClearStage
    | StoreRoute(route: Route) | ClearRoute
    | StoreLastRoute(last: Route) | ClearLastRoute
    | SetLocation(place: Place) | ClearLocation
    | SetActive(ride: RideId) | ClearActive
    | StoreAccept(accept: Accept, command: AcceptCommand, batch: seq<Bid>) | ClearAccept
    | StoreRide(newRide: RideId, meta: Meta)
    | StoreMeta(metaRide: RideId, newMeta: Meta)
    | SetRideState(stateRide: RideId, state: RideState)
    | StoreBids(bidsRide: RideId, bids: seq<Bid>)
    | StoreBatch(batchRide: RideId, newBatch: seq<Bid>)
    | CleanupRide(cleaned: RideId, kept: set<RideKey>)   // `kept`: those whose deletion failed, silently
    | CreateHold(heldRide: RideId, amount: Kobo)
    | ReleaseHold(released: RideId)
    | Deposit(deposit: Kobo)
    | Publish(event: Event)

  /** `createRideHold`: an existing row of the ride answers for the new call. */
  function WithHold(s: State, ride: RideId, amount: Kobo): State {
    if ride in s.holds then s.(history := s.history + [Held(ride, amount, false)])
    else s.(holds := s.holds[ride := Hold(amount, true)], balance := s.balance - amount,
            history := s.history + [Held(ride, amount, true)])
  }

  function WithoutHold(s: State, ride: RideId): State {
    if ride in s.holds && s.holds[ride].active
    then s.(holds := s.holds[ride := Hold(s.holds[ride].amount, false)], balance := s.balance + s.holds[ride].amount)
    else s
  }

  function Without<T>(values: map<RideId, T>, ride: RideId, key: RideKey, kept: set<RideKey>): map<RideId, T> {
    if key in kept then values else values - {ride}
  }

  function Perform(s: State, e: Effect): State {
    match e
    case SetStage(stage) => s.(stage := Some(stage))
    case ClearStage => s.(stage := None)
    case StoreRoute(route) => s.(route := Some(route))
    case ClearRoute => s.(route := None)
    case StoreLastRoute(last) => s.(lastRoute := Some(last))
    case ClearLastRoute => s.(lastRoute := None)
    case SetLocation(place) => s.(location := Some(place))
    case ClearLocation => s.(location := None)
    case SetActive(ride) => s.(activeRide := Some(ride))
    case ClearActive => s.(activeRide := None)
    case StoreAccept(accept, command, batch) =>
      s.(pendingAccept := Some(accept), history := s.history + [Chosen(accept.ride, accept.bid, command, batch)])
    case ClearAccept => s.(pendingAccept := None)
    case StoreRide(ride, meta) =>
      s.(metas := s.metas[ride := meta], bids := s.bids[ride := []], states := s.states[ride := Searching])
    case StoreMeta(ride, meta) => s.(metas := s.metas[ride := meta])
    case SetRideState(ride, state) => s.(states := s.states[ride := state])
    case StoreBids(ride, bids) => s.(bids := s.bids[ride := bids])
    case StoreBatch(ride, batch) => s.(batches := s.batches[ride := batch])
    case CleanupRide(ride, kept) =>
      s.(metas := Without(s.metas, ride, MetaKey, kept), bids := Without(s.bids, ride, BidsKey, kept),
        states := Without(s.states, ride, StateKey, kept), batches := Without(s.batches, ride, BatchKey, kept))
    case CreateHold(ride, amount) => WithHold(s, ride, amount)
    case ReleaseHold(ride) => WithoutHold(s, ride)
    case Deposit(amount) => s.(balance := s.balance + amount)
    case Publish(event) => s.(history := s.history + [event])
  }

  function PerformAll(s: State, effects: seq<Effect>): State
    decreases |effects|
  {
    if effects == [] then s else PerformAll(Perform(s, effects[0]), effects[1..])
  }

  // ---------- messages ----------

  datatype EditCommand = EditCommand(pickup: bool, inline: bool)

  datatype Intent =
    | NoIntent
    | EditPickupIntent | EditDestinationIntent
    | GroupRequest
    | RideRequest(hasPickup: bool, hasDest: bool, vaguePickup: bool, vagueDest: bool, offer: Option<Kobo>)

  /** What each of the parsers makes of one text. */
  datatype Words = Words(
    cancel: bool, edit: Option<EditCommand>, pay: bool, accept: Option<AcceptCommand>, more: bool,
    price: Option<Kobo>, yes: bool, group: bool, conversation: bool, searchAgain: bool,
    reason: Option<string>, intent: Intent)

  datatype Message =
    | Text(words: Words)
    | Pin(place: Place)
    | NormalRide(pickup: Place, dest: Place)       // "normal" while a group request is open
    | OtherFlow(ends: bool)                        // any step of a group or withdrawal conversation

  /** What the services answer while the message is handled; `kept`: what a cleanup fails to delete. */
  datatype World = World(
    geo: Option<Place>, destGeo: Option<Place>, distance: Option<nat>, newRide: RideId,
    driverReady: bool, holdWorks: bool, seat: Option<Seat>, kept: set<RideKey>)

  /**
   The ride is one seat of a group trip; `last`: this acceptance completes the group; `moves`: the write
   that then puts the rider on the trip, whose failure is swallowed, lands.
   */
  datatype Seat = Seat(anchor: RideId, last: bool, moves: bool)

  /** A route fresh from the planner, with its prices. */
  function Planned(pickup: Place, dest: Place, distanceM: nat): Route {
    var fare := CalculateSuggestedFare(distanceM).value;
    Route(pickup, dest, distanceM, fare.suggestedFare, fare.minOffer, None)
  }

  function Quote(pickup: Place, dest: Place, distanceM: nat): seq<Effect> {
    [StoreRoute(Planned(pickup, dest, distanceM)), SetStage(AwaitingPrice)]
  }

  function RequestOf(ride: RideId, r: Route, offer: Kobo): Event {
    Requested(ride, r.pickup, r.dest, offer, r.minOffer, r.suggested)
  }

  function MetaOf(r: Route, offer: Kobo): Meta {
    Meta(r.pickup, r.dest, r.distanceM, offer, r.suggested)
  }

  function CancelForEdit(ride: RideId, kept: set<RideKey>): seq<Effect> {
    [Publish(Cancelled(ride, EditingRoute)), ClearActive, CleanupRide(ride, kept), ClearAccept]
  }

  // ---------- what the handler does ----------

  function OnCancelReason(s: State, reason: Option<string>, kept: set<RideKey>): seq<Effect> {
    if reason.None? then []
    else
      (if s.activeRide.None? then []
       else [Publish(Cancelled(s.activeRide.value, Given(reason.value))), ClearActive,
             CleanupRide(s.activeRide.value, kept), ClearAccept])
      + [ClearStage, ClearRoute, ClearLocation]
  }

  predicate Editable(m: Meta) {
    m.pickup.lat != 0 && m.pickup.lng != 0 && m.dest.lat != 0 && m.dest.lng != 0
  }

  /** The route of the ride being edited, without prices: it only serves to plan the next one. */
  function Placeholder(m: Meta): Route {
    Route(m.pickup, m.dest, m.distanceM, m.suggested, 0, None)
  }

  function OnEditRide(ride: RideId, m: Meta, edit: EditCommand, w: World): seq<Effect> {
    if !edit.inline then
      [StoreRoute(Placeholder(m)), SetStage(if edit.pickup then EditingPickup else EditingDestination)]
    else if w.geo.None? || w.distance.None? then []
    else
      var pickup := if edit.pickup then w.geo.value else m.pickup;
      var dest := if edit.pickup then m.dest else w.geo.value;
      CancelForEdit(ride, w.kept) + Quote(pickup, dest, w.distance.value)
  }

  function OnPay(s: State, a: Accept, w: World): seq<Effect> {
    if a.ride !in s.metas then [ClearAccept, ClearActive]
    else if !w.driverReady then [ClearAccept]
    else if s.balance < a.bid.price || !w.holdWorks then []
    else
      [CreateHold(a.ride, a.bid.price), ClearAccept, Publish(Accepted(a.ride, a.bid, a.bid.price)),
       SetRideState(a.ride, Confirmed), ClearAccept]
  }

  /** The bid that the command names, if there is one. */
  function NamedBid(batch: seq<Bid>, command: AcceptCommand): Option<Bid> {
    match command
    case Numbered(n) => if 1 <= n <= |batch| then Some(batch[n - 1]) else None
    case Unspecified => if |batch| == 1 then Some(batch[0]) else None
  }

  function OnAccept(s: State, ride: RideId, command: AcceptCommand, w: World): seq<Effect> {
    var batch := if ride in s.batches then s.batches[ride] else [];
    var bid := NamedBid(batch, command);
    if bid.None? then []
    else if w.seat.Some? then
      (if w.seat.value.last then [Publish(SeatsAccepted(w.seat.value.anchor))] else [])
      + (if w.seat.value.last && w.seat.value.moves then [SetActive(w.seat.value.anchor)] else [])
    else [StoreAccept(Accept(ride, bid.value), command, batch)]
  }

  function OnCounterOffer(s: State, ride: RideId, price: Kobo): seq<Effect> {
    if ride !in s.metas then []
    else
      var m := s.metas[ride];
      if ValidateRiderOffer(price, m.suggested).Invalid? then []
      else [StoreMeta(ride, m.(offer := price)), Publish(Countered(ride, price))]
  }

  predicate Underway(s: State, ride: RideId) {
    ride in s.states && s.states[ride] in {Confirmed, InProgress}
  }

  predicate EditsRide(s: State, ride: RideId, t: Words) {
    t.edit.Some? && ride in s.metas && Editable(s.metas[ride])
  }

  /** Section 1: every text of a rider with an active ride ends here. */
  function OnActiveRide(s: State, ride: RideId, t: Words, w: World): seq<Effect> {
    if Underway(s, ride) then (if t.cancel then [SetStage(AwaitingCancelReason)] else [])
    else if EditsRide(s, ride, t) then OnEditRide(ride, s.metas[ride], t.edit.value, w)
    else if t.cancel then [SetStage(AwaitingCancelReason)]
    else if s.pendingAccept.Some? && t.pay then OnPay(s, s.pendingAccept.value, w)
    else if t.accept.Some? then OnAccept(s, ride, t.accept.value, w)
    else if t.more then
      (if ride in s.bids && s.bids[ride] != [] then [StoreBatch(ride, s.bids[ride])] else [])
    else if t.price.Some? then OnCounterOffer(s, ride, t.price.value)
    else []
  }

  predicate Editing(stage: Option<Stage>) {
    stage == Some(EditingPickup) || stage == Some(EditingDestination)
  }

  /** The pending route with one end moved. */
  function Moved(s: State, place: Place, distanceM: nat): Route
    requires s.route.Some?
  {
    if s.stage == Some(EditingPickup) then Planned(place, s.route.value.dest, distanceM)
    else Planned(s.route.value.pickup, place, distanceM)
  }

  /** Section 2: a shared location. */
  function OnPin(s: State, place: Place, w: World): seq<Effect> {
    if s.activeRide.Some? && !Editing(s.stage) then []
    else if Editing(s.stage) && s.route.Some? then
      if w.distance.None? then []
      else
        (if s.activeRide.Some? then CancelForEdit(s.activeRide.value, w.kept) else [])
        + [StoreRoute(Moved(s, place, w.distance.value)), SetStage(AwaitingPrice)]
    else if s.location.None? then [SetLocation(place), SetStage(AwaitingDestination)]
    else if s.activeRide.Some? then [ClearLocation, ClearStage]
    else if w.distance.None? then []
    else [ClearLocation, ClearStage] + Quote(s.location.value, place, w.distance.value)
  }

  /** Section 3b: a typed address while editing. */
  function OnTypedEdit(s: State, t: Words, w: World): seq<Effect> {
    if t.cancel then [SetStage(AwaitingCancelReason)]
    else if s.route.None? then [ClearStage]
    else if w.geo.None? || w.distance.None? then []
    else
      (if s.activeRide.Some? then CancelForEdit(s.activeRide.value, w.kept) else [])
      + [StoreRoute(Moved(s, w.geo.value, w.distance.value)), SetStage(AwaitingPrice)]
  }

  /** The ride is published, then recorded. */
  function OnConfirmed(s: State, r: Route, offer: Kobo, w: World): seq<Effect> {
    [ClearRoute, Publish(RequestOf(w.newRide, r, offer)), StoreRide(w.newRide, MetaOf(r, offer)),
     SetActive(w.newRide), SetStage(SearchingDrivers), StoreLastRoute(r.(offer := Some(offer)))]
  }

  function OnRouteConfirmation(s: State, t: Words, w: World): seq<Effect> {
    if t.cancel then [ClearRoute, ClearStage]
    else if s.route.None? || s.route.value.offer.None? then [ClearStage]
    else if !t.yes then [SetStage(AwaitingPrice)]
    else OnConfirmed(s, s.route.value, s.route.value.offer.value, w)
  }

  function OnOffer(r: Route, offer: Kobo, w: World): seq<Effect> {
    if offer < r.minOffer then []
    else
      [ClearRoute, ClearStage, Publish(RequestOf(w.newRide, r, offer)), StoreRide(w.newRide, MetaOf(r, offer)),
       SetActive(w.newRide), StoreLastRoute(r.(offer := Some(offer)))]
  }

  /** An address for one end of the pending route. */
  function OnReplan(r: Route, pickup: bool, w: World): seq<Effect> {
    if w.geo.None? || w.distance.None? then []
    else if pickup then [StoreRoute(Planned(w.geo.value, r.dest, w.distance.value))]
    else [StoreRoute(Planned(r.pickup, w.geo.value, w.distance.value))]
  }

  /** Section 4, with a route to name a price for. */
  function OnPrice(r: Route, t: Words, w: World): seq<Effect> {
    if t.group then [ClearRoute, SetStage(AnotherFlow)]
    else if t.edit.Some? then
      if t.edit.value.inline then OnReplan(r, t.edit.value.pickup, w)
      else [SetStage(if t.edit.value.pickup then EditingPickup else EditingDestination)]
    else if t.intent.EditPickupIntent? || t.intent.EditDestinationIntent? then
      OnReplan(r, t.intent.EditPickupIntent?, w)
    else if t.cancel then [SetStage(AwaitingCancelReason)]
    else if t.price.None? then []
    else OnOffer(r, t.price.value, w)
  }

  /** Section 6: the intent parser and "search again". */
  function OnIntent(s: State, t: Words, w: World): seq<Effect> {
    match t.intent
    case EditPickupIntent => []
    case EditDestinationIntent => []
    case GroupRequest => [SetStage(AnotherFlow)]
    case RideRequest(hasPickup, hasDest, vaguePickup, vagueDest, offer) =>
      if hasPickup && hasDest then
        if w.geo.None? then []
        else if w.destGeo.None? then [SetLocation(w.geo.value), SetStage(AwaitingDestination)]
        else if w.distance.None? then []
        else
          var planned := Planned(w.geo.value, w.destGeo.value, w.distance.value);
          if offer.Some? && offer.value >= planned.minOffer
          then [StoreRoute(planned), StoreRoute(planned.(offer := offer)), SetStage(AwaitingRouteConfirmation)]
          else [StoreRoute(planned), SetStage(AwaitingPrice)]
      else if hasPickup && w.geo.Some? then [SetLocation(w.geo.value), SetStage(AwaitingDestination)]
      else if vaguePickup && !hasPickup then [SetStage(AwaitingPickup)]
      else if vagueDest && !hasDest && hasPickup then [SetStage(AwaitingDestination)]
      else []
    case NoIntent =>
      if t.searchAgain && s.lastRoute.Some? then OnSearchAgain(s.lastRoute.value, w) else []
  }

  function OnSearchAgain(r: Route, w: World): seq<Effect> {
    if r.offer.None? then []
    else
      [Publish(RequestOf(w.newRide, r, r.offer.value)), StoreRide(w.newRide, MetaOf(r, r.offer.value)),
       SetActive(w.newRide), SetStage(SearchingDrivers)]
  }

  /** Section 3: the stages that ask for a place. */
  function OnPlaceText(s: State, t: Words, w: World): seq<Effect> {
    if s.stage == Some(AwaitingPickup) then
      if t.cancel then [ClearStage]
      else if t.conversation then [ClearStage] + OnIntent(s, t, w)
      else if w.geo.None? then []
      else [SetLocation(w.geo.value), SetStage(AwaitingDestination)]
    else
      if t.cancel then [SetStage(AwaitingCancelReason)]
      else if s.location.None? then [ClearStage]
      else if t.conversation then OnIntent(s, t, w)
      else if w.geo.None? || w.distance.None? then []
      else [ClearLocation, ClearStage] + Quote(s.location.value, w.geo.value, w.distance.value)
  }

  /** Sections 3 to 6: a text without an active ride. */
  function OnText(s: State, t: Words, w: World): seq<Effect> {
    if s.stage == Some(AwaitingPickup) || s.stage == Some(AwaitingDestination) then OnPlaceText(s, t, w)
    else if Editing(s.stage) then OnTypedEdit(s, t, w)
    else if s.stage == Some(AwaitingRouteConfirmation) then OnRouteConfirmation(s, t, w)
    else if s.stage == Some(AwaitingPrice) && s.route.Some? then OnPrice(s.route.value, t, w)
    else if t.cancel then [ClearLocation, ClearStage, ClearRoute]
    else OnIntent(s, t, w)
  }

  function Decide(s: State, m: Message, w: World): seq<Effect> {
    if s.stage == Some(AwaitingCancelReason) then
      OnCancelReason(s, if m.Text? then m.words.reason else None, w.kept)
    else
      match m
      case OtherFlow(ends) =>
        if ends then [ClearStage] else [SetStage(AnotherFlow)]
      case NormalRide(pickup, dest) =>
        if w.distance.None? then [] else Quote(pickup, dest, w.distance.value)
      case Pin(place) => OnPin(s, place, w)
      case Text(words) =>
        if s.activeRide.Some? then OnActiveRide(s, s.activeRide.value, words, w) else OnText(s, words, w)
  }

  // ---------- runs ----------

  datatype Step =
    | Handle(m: Message, w: World)
    | Interrupt(m: Message, w: World, done: nat)   // only the first `done` writes happened
    | Outside(effect: Effect)                      // expiry, the event consumer, the wallet

  /** What other parts of the system write to this rider's keys. */
  predicate OutsideMay(e: Effect) {
    match e
    case SetStage(_) => false
    case StoreRoute(_) => false
    case StoreLastRoute(_) => false
    case SetLocation(_) => false
    case StoreAccept(_, _, _) => false
    case Publish(event) => event.Cancelled? && event.reason.Given?
    case _ => true
  }

  predicate Enabled(s: State, step: Step) {
    match step
    case Handle(_, _) => true
    case Interrupt(m, w, done) => done <= |Decide(s, m, w)|
    case Outside(effect) => OutsideMay(effect)
  }

  function Next(s: State, step: Step): State
    requires Enabled(s, step)
  {
    match step
    case Handle(m, w) => PerformAll(s, Decide(s, m, w))
    case Interrupt(m, w, done) => PerformAll(s, Decide(s, m, w)[..done])
    case Outside(effect) => Perform(s, effect)
  }

  predicate Legal(s: State, steps: seq<Step>)
    decreases |steps|
  {
    steps == [] || (Enabled(s, steps[0]) && Legal(Next(s, steps[0]), steps[1..]))
  }

  function Run(s: State, steps: seq<Step>): State
    requires Legal(s, steps)
    decreases |steps|
  {
    if steps == [] then s else Run(Next(s, steps[0]), steps[1..])
  }

  /** A rider who was never here. */
  const FRESH := State(None, None, None, None, None, None, map[], map[], map[], map[], map[], 0, [])

  // ---------- writes in a row ----------

  lemma {:induction false} PerformAppend(s: State, a: seq<Effect>, b: seq<Effect>)
    ensures PerformAll(s, a + b) == PerformAll(PerformAll(s, a), b)
    decreases |a|
  {
    if a == [] {
      assert a + b == b;
    } else {
      assert (a + b)[1..] == a[1..] + b;
      PerformAppend(Perform(s, a[0]), a[1..], b);
    }
  }

  lemma PerformOne(s: State, a: Effect)
    ensures PerformAll(s, [a]) == Perform(s, a)
  {
    assert [a][1..] == [];
  }

  lemma PerformTwo(s: State, a: Effect, b: Effect)
    ensures PerformAll(s, [a]) == Perform(s, a)
    ensures PerformAll(s, [a, b]) == Perform(Perform(s, a), b)
  {
    hide Perform;
    PerformOne(s, a);
    PerformOne(Perform(s, a), b);
    assert [a, b][1..] == [b];
  }

  lemma PerformThree(s: State, a: Effect, b: Effect, c: Effect)
    ensures PerformAll(s, [a, b, c]) == Perform(Perform(Perform(s, a), b), c)
  {
    hide Perform;
    PerformTwo(Perform(s, a), b, c);
    assert [a, b, c][1..] == [b, c];
  }

  lemma PlannedIsPriced(pickup: Place, dest: Place, distanceM: nat)
    ensures var r := Planned(pickup, dest, distanceM);
      MIN_FARE <= r.minOffer && r.offer.None? && r.pickup == pickup && r.dest == dest
  {
  }

  lemma PlannedFields()
    ensures forall p, d, n :: Planned(p, d, n).pickup == p && Planned(p, d, n).dest == d && Planned(p, d, n).distanceM == n
    ensures forall p, d, n :: Planned(p, d, n).offer == None && MIN_FARE <= Planned(p, d, n).minOffer
  {
    forall p, d, n
      ensures Planned(p, d, n).offer == None && MIN_FARE <= Planned(p, d, n).minOffer
    {
      PlannedIsPriced(p, d, n);
    }
  }

  // ---------- which branch publishes what ----------

  /** The message asks to move one end of the active ride. */
  predicate AsksForEdit(s: State, m: Message) {
    && s.stage != Some(AwaitingCancelReason) && s.activeRide.Some?
    && match m
       case Text(t) => !Underway(s, s.activeRide.value) && EditsRide(s, s.activeRide.value, t) && t.edit.value.inline
       case Pin(_) => Editing(s.stage) && s.route.Some?
       case _ => false
  }

  /** The message pays for the bid that waits for payment. */
  predicate Pays(s: State, m: Message) {
    && s.stage != Some(AwaitingCancelReason) && m.Text? && s.activeRide.Some? && s.pendingAccept.Some?
    && !Underway(s, s.activeRide.value) && !EditsRide(s, s.activeRide.value, m.words)
    && !m.words.cancel && m.words.pay
  }

  /** The route and offer that this message sends out, if it sends one. */
  function RequestedBy(s: State, m: Message): Option<(Route, Kobo)> {
    if s.stage == Some(AwaitingCancelReason) || !m.Text? || s.activeRide.Some? then None
    else
      var t := m.words;
      if s.stage == Some(AwaitingRouteConfirmation) then
        if !t.cancel && t.yes && s.route.Some? && s.route.value.offer.Some?
        then Some((s.route.value, s.route.value.offer.value)) else None
      else if s.stage == Some(AwaitingPrice) && s.route.Some? then
        if !t.group && t.edit.None? && !t.intent.EditPickupIntent? && !t.intent.EditDestinationIntent?
          && !t.cancel && t.price.Some? && t.price.value >= s.route.value.minOffer
        then Some((s.route.value, t.price.value)) else None
      else if Editing(s.stage) || t.cancel || !t.intent.NoIntent? || !t.searchAgain || s.lastRoute.None?
        || s.lastRoute.value.offer.None? then None
      else if (s.stage == Some(AwaitingPickup) || s.stage == Some(AwaitingDestination)) && !t.conversation then None
      else if s.stage == Some(AwaitingDestination) && s.location.None? then None
      else Some((s.lastRoute.value, s.lastRoute.value.offer.value))
  }

  /** The message answers the question why the active ride is cancelled. */
  predicate GivesReason(s: State, m: Message) {
    s.stage == Some(AwaitingCancelReason) && m.Text? && m.words.reason.Some? && s.activeRide.Some?
  }

  /** A write that publishes none of the four guarded events unless its flag is set. */
  predicate Allowed(e: Effect, request: bool, pay: bool, edit: bool, given: bool) {
    match e
    case Publish(event) =>
      (match event
       case Requested(_, _, _, _, _, _) => request
       case Accepted(_, _, _) => pay
       case Cancelled(_, reason) => if reason.Given? then given else edit
       case Held(_, _, _) => false
       case Chosen(_, _, _, _) => false
       case _ => true)
    case StoreAccept(accept, command, batch) => NamedBid(batch, command) == Some(accept.bid)
    case _ => true
  }

  predicate AllAllowed(effects: seq<Effect>, request: bool, pay: bool, edit: bool, given: bool) {
    forall i | 0 <= i < |effects| :: Allowed(effects[i], request, pay, edit, given)
  }

  lemma CancelReasonPublishes(s: State, reason: Option<string>, kept: set<RideKey>)
    ensures AllAllowed(OnCancelReason(s, reason, kept), false, false, false, s.activeRide.Some? && reason.Some?)
  {
  }

  lemma PinPublishes(s: State, place: Place, w: World)
    ensures AllAllowed(OnPin(s, place, w), false, false, s.activeRide.Some? && Editing(s.stage) && s.route.Some?, false)
  {
    hide Planned, Moved;
  }

  lemma ActiveRidePublishes(s: State, ride: RideId, t: Words, w: World)
    ensures AllAllowed(OnActiveRide(s, ride, t, w), false,
      s.pendingAccept.Some? && !Underway(s, ride) && !EditsRide(s, ride, t) && !t.cancel && t.pay,
      !Underway(s, ride) && EditsRide(s, ride, t) && t.edit.value.inline, false)
  {
    hide Planned;
  }

  lemma IntentPublishes(s: State, t: Words, w: World)
    ensures AllAllowed(OnIntent(s, t, w),
      t.intent.NoIntent? && t.searchAgain && s.lastRoute.Some? && s.lastRoute.value.offer.Some?, false, false, false)
  {
    hide Planned;
  }

  lemma TextPublishes(s: State, t: Words, w: World)
    requires s.stage != Some(AwaitingCancelReason) && s.activeRide.None?
    ensures AllAllowed(OnText(s, t, w), RequestedBy(s, Text(t)).Some?, false, false, false)
  {
    hide Planned, Moved, OnIntent;
    IntentPublishes(s, t, w);
  }

  /** Requests, payments and the two kinds of cancellation come from their own branches only. */
  lemma DecisionPublishes(s: State, m: Message, w: World)
    ensures AllAllowed(Decide(s, m, w), RequestedBy(s, m).Some?, Pays(s, m), AsksForEdit(s, m), GivesReason(s, m))
  {
    hide OnActiveRide, OnText, OnPin, OnCancelReason, Planned;
    if s.stage == Some(AwaitingCancelReason) {
      CancelReasonPublishes(s, if m.Text? then m.words.reason else None, w.kept);
    } else if m.Pin? {
      PinPublishes(s, m.place, w);
    } else if m.Text? && s.activeRide.Some? {
      ActiveRidePublishes(s, s.activeRide.value, m.words, w);
    } else if m.Text? {
      TextPublishes(s, m.words, w);
    }
  }

  // ---------- what enters the history ----------

  /** What one write adds to the history. */
  function Entry(s: State, e: Effect): seq<Event> {
    match e
    case Publish(event) => [event]
    case CreateHold(ride, amount) => [Held(ride, amount, ride !in s.holds)]
    case StoreAccept(accept, command, batch) => [Chosen(accept.ride, accept.bid, command, batch)]
    case _ => []
  }

  function Entries(s: State, effects: seq<Effect>): (r: seq<Event>)
    ensures forall e | e in r :: e.Held? || e.Chosen? || Publish(e) in effects
    decreases |effects|
  {
    if effects == [] then []
    else
      assert effects[0] in effects;
      var rest := Entries(Perform(s, effects[0]), effects[1..]);
      assert forall e | e in effects[1..] :: e in effects;
      Entry(s, effects[0]) + rest
  }

  lemma HistoryOfOne(s: State, e: Effect)
    ensures Perform(s, e).history == s.history + Entry(s, e)
  {
  }

  lemma {:induction false} HistoryOf(s: State, effects: seq<Effect>)
    ensures PerformAll(s, effects).history == s.history + Entries(s, effects)
    decreases |effects|
  {
    hide Perform, Entry;
    if effects != [] {
      HistoryOfOne(s, effects[0]);
      HistoryOf(Perform(s, effects[0]), effects[1..]);
    }
  }

  lemma StageAfterOne(s: State, e: Effect)
    ensures Perform(s, e).stage == if e.SetStage? then Some(e.stage) else if e.ClearStage? then None else s.stage
  {
  }

  lemma RouteAfterOne(s: State, e: Effect)
    ensures Perform(s, e).route == if e.StoreRoute? then Some(e.route) else if e.ClearRoute? then None else s.route
  {
  }

  lemma LastRouteAfterOne(s: State, e: Effect)
    ensures Perform(s, e).lastRoute ==
      if e.StoreLastRoute? then Some(e.last) else if e.ClearLastRoute? then None else s.lastRoute
  {
  }

  lemma ActiveAfterOne(s: State, e: Effect)
    ensures Perform(s, e).activeRide ==
      if e.SetActive? then Some(e.ride) else if e.ClearActive? then None else s.activeRide
  {
  }

  lemma AcceptAfterOne(s: State, e: Effect)
    ensures Perform(s, e).pendingAccept ==
      if e.StoreAccept? then Some(e.accept) else if e.ClearAccept? then None else s.pendingAccept
  {
  }

  lemma HoldsAfterOne(s: State, e: Effect)
    ensures Perform(s, e).holds ==
      if e.CreateHold? then WithHold(s, e.heldRide, e.amount).holds
      else if e.ReleaseHold? then WithoutHold(s, e.released).holds else s.holds
  {
    hide WithHold, WithoutHold;
  }

  predicate IsRequest(e: Event) {
    e.Requested?
  }

  predicate IsEditCancel(e: Event) {
    e.Cancelled? && e.reason.EditingRoute?
  }

  predicate IsReasonedCancel(e: Event) {
    e.Cancelled? && e.reason.Given?
  }

  /** The history grows by nothing but what the writes publish, hold and choose. */
  lemma NewEvents(s: State, effects: seq<Effect>, request: bool, pay: bool, edit: bool, given: bool)
    requires AllAllowed(effects, request, pay, edit, given)
    ensures var h := PerformAll(s, effects).history;
      && s.history <= h
      && forall i | |s.history| <= i < |h| ::
           (IsRequest(h[i]) ==> request) && (IsEditCancel(h[i]) ==> edit) && (IsReasonedCancel(h[i]) ==> given)
  {
    HistoryOf(s, effects);
    var h, added := PerformAll(s, effects).history, Entries(s, effects);
    forall i | |s.history| <= i < |h|
      ensures (IsRequest(h[i]) ==> request) && (IsEditCancel(h[i]) ==> edit) && (IsReasonedCancel(h[i]) ==> given)
    {
      assert h[i] == added[i - |s.history|] && h[i] in added;
      if IsRequest(h[i]) || IsEditCancel(h[i]) || IsReasonedCancel(h[i]) {
        var k :| 0 <= k < |effects| && effects[k] == Publish(h[i]);
        assert Allowed(effects[k], request, pay, edit, given);
      }
    }
  }

  // ---------- reachable states ----------

  ghost predicate Reaches(s: State, t: State) {
    exists steps: seq<Step> :: LeadsTo(s, steps, t)
  }

  predicate LeadsTo(s: State, steps: seq<Step>, t: State) {
    Legal(s, steps) && Run(s, steps) == t
  }

  lemma {:induction false} RunSnoc(s: State, steps: seq<Step>, step: Step)
    requires Legal(s, steps) && Enabled(Run(s, steps), step)
    ensures Legal(s, steps + [step]) && Run(s, steps + [step]) == Next(Run(s, steps), step)
    decreases |steps|
  {
    hide Next, Enabled;
    if steps == [] {
      assert [step][1..] == [] && [] + [step] == [step];
    } else {
      assert (steps + [step])[1..] == steps[1..] + [step];
      RunSnoc(Next(s, steps[0]), steps[1..], step);
    }
  }

  lemma ReachesStep(s: State, t: State, step: Step)
    requires Reaches(s, t) && Enabled(t, step)
    ensures Reaches(s, Next(t, step))
  {
    hide Next, Enabled;
    var steps :| LeadsTo(s, steps, t);
    RunSnoc(s, steps, step);
    assert LeadsTo(s, steps + [step], Next(t, step));
  }

  lemma ReachesItself(s: State)
    ensures Reaches(s, s)
  {
    assert LeadsTo(s, [], s);
  }

  const SILENT := Words(false, None, false, None, false, None, false, false, false, false, None, NoIntent)

  const CALM := World(None, None, Some(1000), 2, true, true, None, {})

  const YABA := Place(1, 1, "Yaba")

  const LEKKI := Place(2, 2, "Lekki")

  const OLD_RIDE := Meta(YABA, LEKKI, 1000, MIN_FARE, MIN_FARE)
}
