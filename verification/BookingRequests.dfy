/**
 When a ride request goes out.  (apps/api-gateway/src/http/whatsapp.route.ts)
 */
module BookingRequests {
  import opened Options
  import opened Pricing
  import opened Booking

  /** The event asks for a ride on this route at this offer. */
  predicate AsksFor(e: Event, ride: RideId, r: Route, offer: Kobo) {
    && e.Requested? && e.ride == ride && e.pickup == r.pickup && e.dest == r.dest
    && e.offer == offer && e.minOffer == r.minOffer && e.suggested == r.suggested
  }

  /** The chat state is that of a ride on this route at this offer. */
  predicate Records(m: Meta, r: Route, offer: Kobo) {
    && m.pickup == r.pickup && m.dest == r.dest && m.distanceM == r.distanceM
    && m.offer == offer && m.suggested == r.suggested
  }

  /** The ride is out, and recorded without bids. */
  predicate Started(s: State, t: State, ride: RideId, r: Route, offer: Kobo) {
    && |t.history| == |s.history| + 1 && s.history <= t.history && AsksFor(t.history[|s.history|], ride, r, offer)
    && t.activeRide == Some(ride) && ride in t.metas && Records(t.metas[ride], r, offer)
    && ride in t.bids && t.bids[ride] == [] && ride in t.states && t.states[ride] == Searching
  }

  /** The state with the ride out, recorded and active. */
  function WithRide(s: State, ride: RideId, r: Route, offer: Kobo): State {
    s.(activeRide := Some(ride), metas := s.metas[ride := MetaOf(r, offer)], bids := s.bids[ride := []],
      states := s.states[ride := Searching], history := s.history + [RequestOf(ride, r, offer)])
  }

  lemma WithRideStarts(s: State, t: State, u: State, ride: RideId, r: Route, offer: Kobo)
    requires u.history == s.history && u.pendingAccept == s.pendingAccept
    requires t == WithRide(u, ride, r, offer).(route := t.route, stage := t.stage, lastRoute := t.lastRoute)
    ensures Started(s, t, ride, r, offer) && t.pendingAccept == s.pendingAccept
  {
  }

  lemma RideOut(s: State, ride: RideId, r: Route, offer: Kobo)
    ensures PerformAll(s, [Publish(RequestOf(ride, r, offer)), StoreRide(ride, MetaOf(r, offer)), SetActive(ride)])
         == WithRide(s, ride, r, offer)
  {
    hide RequestOf, MetaOf, PerformAll;
    PerformThree(s, Publish(RequestOf(ride, r, offer)), StoreRide(ride, MetaOf(r, offer)), SetActive(ride));
  }

  lemma ConfirmedStarts(s: State, r: Route, offer: Kobo, w: World)
    ensures PerformAll(s, OnConfirmed(s, r, offer, w))
         == WithRide(s.(route := None), w.newRide, r, offer).(
              stage := Some(SearchingDrivers), lastRoute := Some(r.(offer := Some(offer))))
  {
    var x := [Publish(RequestOf(w.newRide, r, offer)), StoreRide(w.newRide, MetaOf(r, offer)), SetActive(w.newRide)];
    var y := [SetStage(SearchingDrivers), StoreLastRoute(r.(offer := Some(offer)))];
    assert OnConfirmed(s, r, offer, w) == [ClearRoute] + (x + y);
    var t := s.(route := None);
    hide Perform, PerformAll, WithRide, RequestOf, MetaOf;
    PerformAppend(s, [ClearRoute], x + y);
    PerformOne(s, ClearRoute);
    RouteGone(s);
    PerformAppend(t, x, y);
    RideOut(t, w.newRide, r, offer);
    PerformTwo(PerformAll(t, x), y[0], y[1]);
    StageThenRoute(PerformAll(t, x), SearchingDrivers, r.(offer := Some(offer)));
  }

  lemma OfferStarts(s: State, r: Route, offer: Kobo, w: World)
    requires offer >= r.minOffer
    ensures PerformAll(s, OnOffer(r, offer, w))
         == WithRide(s.(route := None, stage := None), w.newRide, r, offer).(lastRoute := Some(r.(offer := Some(offer))))
  {
    var x := [Publish(RequestOf(w.newRide, r, offer)), StoreRide(w.newRide, MetaOf(r, offer)), SetActive(w.newRide)];
    var y := [StoreLastRoute(r.(offer := Some(offer)))];
    assert OnOffer(r, offer, w) == [ClearRoute, ClearStage] + (x + y);
    var t := s.(route := None, stage := None);
    hide Perform, PerformAll, WithRide, RequestOf, MetaOf;
    PerformAppend(s, [ClearRoute, ClearStage], x + y);
    PerformTwo(s, ClearRoute, ClearStage);
    RouteGone(s);
    PerformAppend(t, x, y);
    RideOut(t, w.newRide, r, offer);
    PerformOne(PerformAll(t, x), y[0]);
    StageThenRoute(PerformAll(t, x), SearchingDrivers, r.(offer := Some(offer)));
  }

  lemma RouteGone(s: State)
    ensures Perform(s, ClearRoute) == s.(route := None)
    ensures Perform(Perform(s, ClearRoute), ClearStage) == s.(route := None, stage := None)
  {
  }

  lemma StageThenRoute(s: State, stage: Stage, last: Route)
    ensures Perform(s, StoreLastRoute(last)) == s.(lastRoute := Some(last))
    ensures Perform(Perform(s, SetStage(stage)), StoreLastRoute(last)) == s.(stage := Some(stage), lastRoute := Some(last))
  {
  }

  lemma SearchAgainStarts(s: State, r: Route, w: World)
    requires r.offer.Some?
    ensures PerformAll(s, OnSearchAgain(r, w))
         == WithRide(s, w.newRide, r, r.offer.value).(stage := Some(SearchingDrivers))
  {
    var x := [Publish(RequestOf(w.newRide, r, r.offer.value)), StoreRide(w.newRide, MetaOf(r, r.offer.value)),
              SetActive(w.newRide)];
    assert OnSearchAgain(r, w) == x + [SetStage(SearchingDrivers)];
    hide PerformAll, WithRide, RequestOf, MetaOf;
    PerformAppend(s, x, [SetStage(SearchingDrivers)]);
    RideOut(s, w.newRide, r, r.offer.value);
    PerformOne(PerformAll(s, x), SetStage(SearchingDrivers));
  }

  lemma DecidesRequest(s: State, m: Message, w: World)
    requires RequestedBy(s, m).Some?
    ensures var (r, offer) := RequestedBy(s, m).value;
      || Decide(s, m, w) == OnConfirmed(s, r, offer, w)
      || (offer >= r.minOffer && Decide(s, m, w) == OnOffer(r, offer, w))
      || (r.offer == Some(offer) && s.lastRoute == Some(r)
          && (Decide(s, m, w) == OnSearchAgain(r, w) || Decide(s, m, w) == [ClearStage] + OnSearchAgain(r, w)))
  {
    hide OnConfirmed, OnOffer, OnSearchAgain, Planned;
  }

  lemma ConfirmedOut(s: State, r: Route, offer: Kobo, w: World)
    ensures var t := PerformAll(s, OnConfirmed(s, r, offer, w));
      && Started(s, t, w.newRide, r, offer) && t.pendingAccept == s.pendingAccept
      && t.lastRoute == Some(r.(offer := Some(offer)))
  {
    ConfirmedStarts(s, r, offer, w);
    hide PerformAll, OnConfirmed, WithRide, Started;
    WithRideStarts(s, PerformAll(s, OnConfirmed(s, r, offer, w)), s.(route := None), w.newRide, r, offer);
  }

  lemma OfferOut(s: State, r: Route, offer: Kobo, w: World)
    requires offer >= r.minOffer
    ensures var t := PerformAll(s, OnOffer(r, offer, w));
      && Started(s, t, w.newRide, r, offer) && t.pendingAccept == s.pendingAccept
      && t.lastRoute == Some(r.(offer := Some(offer)))
  {
    OfferStarts(s, r, offer, w);
    hide PerformAll, OnOffer, WithRide, Started;
    WithRideStarts(s, PerformAll(s, OnOffer(r, offer, w)), s.(route := None, stage := None), w.newRide, r, offer);
  }

  lemma SearchedOut(s: State, r: Route, offer: Kobo, w: World)
    requires r.offer == Some(offer) && s.lastRoute == Some(r)
    ensures forall effects | effects in [OnSearchAgain(r, w), [ClearStage] + OnSearchAgain(r, w)] ::
      var t := PerformAll(s, effects);
      && Started(s, t, w.newRide, r, offer) && t.pendingAccept == s.pendingAccept
      && t.lastRoute == Some(r.(offer := Some(offer)))
  {
    var u := s.(stage := None);
    PerformAppend(s, [ClearStage], OnSearchAgain(r, w));
    PerformOne(s, ClearStage);
    ClearedStage(s);
    SearchAgainStarts(s, r, w);
    SearchAgainStarts(u, r, w);
    WithRideMore(s, w.newRide, r, offer);
    WithRideMore(u, w.newRide, r, offer);
    hide Perform, PerformAll, OnSearchAgain, WithRide, Started;
    WithRideStarts(s, PerformAll(s, OnSearchAgain(r, w)), s, w.newRide, r, offer);
    WithRideStarts(s, PerformAll(u, OnSearchAgain(r, w)), u, w.newRide, r, offer);
  }

  lemma WithRideMore(s: State, ride: RideId, r: Route, offer: Kobo)
    ensures WithRide(s, ride, r, offer).lastRoute == s.lastRoute
  {
  }

  /**
   A message publishes a request exactly in the three branches that book: only for a rider without
   an active ride, once, for the route and offer named; the new ride is then the active one, and its route is
   what "search again" asks for.
   */
  lemma ARequestStartsTheRide(s: State, m: Message, w: World)
    ensures var t := Next(s, Handle(m, w));
      match RequestedBy(s, m)
      case Some(p) =>
        && s.activeRide.None? && Started(s, t, w.newRide, p.0, p.1)
        && t.lastRoute == Some(p.0.(offer := Some(p.1))) && t.pendingAccept == s.pendingAccept
      case None => forall i | |s.history| <= i < |t.history| :: !IsRequest(t.history[i])
  {
    hide Decide, OnConfirmed, OnOffer, OnSearchAgain, Perform;
    var t := Next(s, Handle(m, w));
    var asked := RequestedBy(s, m);
    if asked.Some? {
      var (r, offer) := asked.value;
      hide RequestedBy, Started;
      DecidesRequest(s, m, w);
      if Decide(s, m, w) == OnConfirmed(s, r, offer, w) {
        ConfirmedOut(s, r, offer, w);
      } else if offer >= r.minOffer && Decide(s, m, w) == OnOffer(r, offer, w) {
        OfferOut(s, r, offer, w);
      } else {
        SearchedOut(s, r, offer, w);
      }
    } else {
      DecisionPublishes(s, m, w);
      NewEvents(s, Decide(s, m, w), false, Pays(s, m), AsksForEdit(s, m), GivesReason(s, m));
    }
  }

  // ---------- also when a message is cut short ----------

  /** The write asks for no other ride than this one, and records no other. */
  predicate Faithful(e: Effect, ride: RideId, r: Route, offer: Kobo) {
    match e
    case Publish(event) => event.Requested? ==> AsksFor(event, ride, r, offer)
    case StoreRide(newRide, meta) => newRide == ride && Records(meta, r, offer)
    case StoreMeta(_, _) => false
    case CleanupRide(_, _) => false
    case _ => true
  }

  predicate AllFaithful(effects: seq<Effect>, ride: RideId, r: Route, offer: Kobo) {
    forall i | 0 <= i < |effects| :: Faithful(effects[i], ride, r, offer)
  }

  lemma DecidesFaithfully(s: State, m: Message, w: World)
    requires RequestedBy(s, m).Some?
    ensures AllFaithful(Decide(s, m, w), w.newRide, RequestedBy(s, m).value.0, RequestedBy(s, m).value.1)
  {
    hide Decide, RequestedBy;
    DecidesRequest(s, m, w);
  }

  /** Only the ride asked for is new in the chat state, and it is recorded as asked for. */
  predicate OnlyRecords(before: map<RideId, Meta>, after: map<RideId, Meta>, ride: RideId, r: Route, offer: Kobo) {
    after == before || (ride in after && Records(after[ride], r, offer) && after == before[ride := after[ride]])
  }

  lemma MetasAfterOne(s: State, e: Effect)
    ensures !e.StoreRide? && !e.StoreMeta? && !e.CleanupRide? ==> Perform(s, e).metas == s.metas
    ensures e.StoreRide? ==> Perform(s, e).metas == s.metas[e.newRide := e.meta]
  {
  }

  lemma {:induction false} FaithfulPrefix(s: State, effects: seq<Effect>, done: nat, ride: RideId, r: Route, offer: Kobo)
    requires AllFaithful(effects, ride, r, offer) && done <= |effects|
    ensures var t := PerformAll(s, effects[..done]);
      && s.history <= t.history && OnlyRecords(s.metas, t.metas, ride, r, offer)
      && forall i | |s.history| <= i < |t.history| :: IsRequest(t.history[i]) ==> AsksFor(t.history[i], ride, r, offer)
    decreases done
  {
    if done > 0 {
      assert Faithful(effects[0], ride, r, offer);
      HistoryOfOne(s, effects[0]);
      MetasAfterOne(s, effects[0]);
      var u := Perform(s, effects[0]);
      assert effects[..done][0] == effects[0] && effects[..done][1..] == effects[1..][..done - 1];
      hide Perform;
      FaithfulPrefix(u, effects[1..], done - 1, ride, r, offer);
    }
  }

  /** How many of its writes the step makes. */
  function Made(s: State, step: Step): nat
    requires !step.Outside?
  {
    if step.Interrupt? then step.done else |Decide(s, step.m, step.w)|
  }

  /**
   Whatever step publishes a request, cut short or not, asks for the route and offer that the rider was shown and
   answered, end by end and price by price; the chat state, if it gets that far, records the same.
   */
  lemma RequestsNameTheShownRoute(s: State, step: Step)
    requires Enabled(s, step) && !step.Outside?
    ensures var t := Next(s, step);
      match RequestedBy(s, step.m)
      case Some(p) =>
        && OnlyRecords(s.metas, t.metas, step.w.newRide, p.0, p.1)
        && forall i | |s.history| <= i < |t.history| ::
             IsRequest(t.history[i]) ==> AsksFor(t.history[i], step.w.newRide, p.0, p.1)
      case None => forall i | |s.history| <= i < |t.history| :: !IsRequest(t.history[i])
  {
    hide Decide, RequestedBy, PerformAll;
    var effects := Decide(s, step.m, step.w);
    var done := Made(s, step);
    assert effects[..|effects|] == effects;
    assert Next(s, step) == PerformAll(s, effects[..done]);
    if RequestedBy(s, step.m).Some? {
      var p := RequestedBy(s, step.m).value;
      DecidesFaithfully(s, step.m, step.w);
      FaithfulPrefix(s, effects, done, step.w.newRide, p.0, p.1);
    } else {
      var pay, edit, given := Pays(s, step.m), AsksForEdit(s, step.m), GivesReason(s, step.m);
      DecisionPublishes(s, step.m, step.w);
      assert AllAllowed(effects[..done], false, pay, edit, given);
      NewEvents(s, effects[..done], false, pay, edit, given);
    }
  }

  lemma ClearedStage(s: State)
    ensures Perform(s, ClearStage) == s.(stage := None)
  {
  }

  // ---------- and when a ride is cancelled ----------

  /** Of the ride's chat state only what the cleanup failed to delete is left. */
  predicate Cleaned(s: State, t: State, ride: RideId, kept: set<RideKey>) {
    && (ride in t.metas <==> ride in s.metas && MetaKey in kept)
    && (ride in t.bids <==> ride in s.bids && BidsKey in kept)
    && (ride in t.states <==> ride in s.states && StateKey in kept)
    && (ride in t.batches <==> ride in s.batches && BatchKey in kept)
  }

  /** Nothing of the booking is left but the route to search again with, and keys that no message reads. */
  predicate Ended(s: State, t: State, ride: RideId, reason: string, kept: set<RideKey>) {
    && t.stage.None? && t.route.None? && t.location.None? && t.activeRide.None? && t.pendingAccept.None?
    && Cleaned(s, t, ride, kept) && t.lastRoute == s.lastRoute
    && t.history == s.history + [Cancelled(ride, Given(reason))]
  }

  /**
   A message cancels the active ride for a reason exactly when the reason was asked for and is
   given, and then every key of the booking is cleared.  Asking again changes nothing.
   */
  lemma CancellingNeedsAReason(s: State, m: Message, w: World)
    ensures var t := Next(s, Handle(m, w));
      && (GivesReason(s, m) ==> Ended(s, t, s.activeRide.value, m.words.reason.value, w.kept))
      && (!GivesReason(s, m) ==> forall i | |s.history| <= i < |t.history| :: !IsReasonedCancel(t.history[i]))
      && (s.stage == Some(AwaitingCancelReason) && !(m.Text? && m.words.reason.Some?) ==> t == s)
  {
    hide Perform, PerformAll;
    var effects := Decide(s, m, w);
    if GivesReason(s, m) {
      EndedByReason(s, s.activeRide.value, m.words.reason.value, w.kept);
      assert effects == OnCancelReason(s, m.words.reason, w.kept);
    } else {
      hide Decide;
      DecisionPublishes(s, m, w);
      NewEvents(s, effects, RequestedBy(s, m).Some?, Pays(s, m), AsksForEdit(s, m), false);
      if s.stage == Some(AwaitingCancelReason) && !(m.Text? && m.words.reason.Some?) {
        NothingPerformed(s, m, w);
      }
    }
  }

  lemma NothingPerformed(s: State, m: Message, w: World)
    requires s.stage == Some(AwaitingCancelReason) && !(m.Text? && m.words.reason.Some?)
    ensures PerformAll(s, Decide(s, m, w)) == s
  {
  }

  /** The state without the ride: cancelled, with its choice gone and its keys cleaned up; what is held stays held. */
  function WithoutRide(s: State, ride: RideId, reason: Booking.Reason, kept: set<RideKey>): State {
    s.(activeRide := None, pendingAccept := None,
      metas := Without(s.metas, ride, MetaKey, kept), bids := Without(s.bids, ride, BidsKey, kept),
      states := Without(s.states, ride, StateKey, kept), batches := Without(s.batches, ride, BatchKey, kept),
      history := s.history + [Cancelled(ride, reason)])
  }

  lemma EndedByReason(s: State, ride: RideId, reason: string, kept: set<RideKey>)
    requires s.activeRide == Some(ride)
    ensures PerformAll(s, OnCancelReason(s, Some(reason), kept))
         == WithoutRide(s, ride, Given(reason), kept).(stage := None, route := None, location := None)
  {
    hide Perform, PerformAll, WithoutRide;
    var x := [Publish(Cancelled(ride, Given(reason))), ClearActive, CleanupRide(ride, kept)];
    var y := [ClearAccept];
    var z := [ClearStage, ClearRoute, ClearLocation];
    assert OnCancelReason(s, Some(reason), kept) == x + (y + z);
    PerformAppend(s, x, y + z);
    PerformThree(s, x[0], x[1], x[2]);
    RideGone(s, ride, Given(reason), kept);
    var t := PerformAll(s, x);
    PerformAppend(t, y, z);
    PerformOne(t, ClearAccept);
    PerformThree(Perform(t, ClearAccept), z[0], z[1], z[2]);
    KeysGone(Perform(t, ClearAccept));
  }

  /** The four writes that take a ride away. */
  lemma RideGone(s: State, ride: RideId, reason: Booking.Reason, kept: set<RideKey>)
    ensures Perform(Perform(Perform(Perform(s, Publish(Cancelled(ride, reason))), ClearActive), CleanupRide(ride, kept)),
                    ClearAccept)
         == WithoutRide(s, ride, reason, kept)
  {
    hide Without;
  }

  lemma KeysGone(t: State)
    ensures Perform(Perform(Perform(t, ClearStage), ClearRoute), ClearLocation)
         == t.(stage := None, route := None, location := None)
  {
  }
}
