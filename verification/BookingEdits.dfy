/**
 Editing the route of an active ride.  (apps/api-gateway/src/http/whatsapp.route.ts)
 */
module BookingEdits {
  import opened Options
  import opened Pricing
  import opened Booking
  import opened BookingPayment
  import opened BookingRequests

  /** The new place was found and the new route could be planned. */
  predicate EditSucceeds(s: State, m: Message, w: World) {
    AsksForEdit(s, m) && w.distance.Some? && (m.Text? ==> w.geo.Some?)
  }

  /** The route after the edit: one end is new, the other one kept. */
  function EditedRoute(s: State, m: Message, w: World): Route
    requires EditSucceeds(s, m, w)
  {
    if m.Pin? then Moved(s, m.place, w.distance.value)
    else
      var meta := s.metas[s.activeRide.value];
      if m.words.edit.value.pickup then Planned(w.geo.value, meta.dest, w.distance.value)
      else Planned(meta.pickup, w.geo.value, w.distance.value)
  }

  function EditEffects(s: State, m: Message, w: World): seq<Effect>
    requires EditSucceeds(s, m, w)
  {
    CancelForEdit(s.activeRide.value, w.kept) + [StoreRoute(EditedRoute(s, m, w)), SetStage(AwaitingPrice)]
  }

  lemma DecidesEdit(s: State, m: Message, w: World)
    requires AsksForEdit(s, m)
    ensures Decide(s, m, w) == if EditSucceeds(s, m, w) then EditEffects(s, m, w) else []
  {
    hide Planned;
  }

  lemma CancelPerformed(s: State, ride: RideId, kept: set<RideKey>)
    ensures PerformAll(s, CancelForEdit(ride, kept)) == WithoutRide(s, ride, EditingRoute, kept)
  {
    var a := [Publish(Cancelled(ride, EditingRoute)), ClearActive, CleanupRide(ride, kept)];
    assert CancelForEdit(ride, kept) == a + [ClearAccept];
    PerformAppend(s, a, [ClearAccept]);
    hide Perform, PerformAll, WithoutRide;
    PerformThree(s, a[0], a[1], a[2]);
    PerformOne(PerformAll(s, a), ClearAccept);
    RideGone(s, ride, EditingRoute, kept);
  }

  /** The new route waits for a price, and a ride that was active is cancelled for it. */
  function Rerouted(s: State, ride: Option<RideId>, r: Route, kept: set<RideKey>): State {
    (if ride.Some? then WithoutRide(s, ride.value, EditingRoute, kept) else s).(
      stage := Some(AwaitingPrice), route := Some(r))
  }

  /** The writes that get there. */
  function Rerouting(ride: Option<RideId>, r: Route, kept: set<RideKey>): seq<Effect> {
    (if ride.Some? then CancelForEdit(ride.value, kept) else []) + [StoreRoute(r), SetStage(AwaitingPrice)]
  }

  lemma EditPerformed(s: State, ride: Option<RideId>, r: Route, kept: set<RideKey>)
    ensures PerformAll(s, Rerouting(ride, r, kept)) == Rerouted(s, ride, r, kept)
  {
    var t := s;
    if ride.Some? {
      CancelPerformed(s, ride.value, kept);
      t := PerformAll(s, CancelForEdit(ride.value, kept));
      PerformAppend(s, CancelForEdit(ride.value, kept), [StoreRoute(r), SetStage(AwaitingPrice)]);
    } else {
      assert Rerouting(ride, r, kept) == [StoreRoute(r), SetStage(AwaitingPrice)];
    }
    hide CancelForEdit, PerformAll, WithoutRide;
    PerformTwo(t, StoreRoute(r), SetStage(AwaitingPrice));
  }

  /**
   A message cancels the active ride for an edit exactly when the edit succeeds, and then the rider
   ends with a freshly planned route that keeps the other end, waiting for a price.  An edit that
   fails changes nothing at all.  A text succeeds if it names a place that is found, for a ride that is not underway
   and whose chat state has both ends; a pin if an end of a stored route is being edited; both only with a plan.
   */
  lemma EditNeverStrands(s: State, m: Message, w: World)
    ensures EditSucceeds(s, m, w) <==>
      && s.stage != Some(AwaitingCancelReason) && s.activeRide.Some? && w.distance.Some?
      && var ride := s.activeRide.value;
         match m
         case Text(t) =>
           && t.edit.Some? && t.edit.value.inline && w.geo.Some?
           && !(ride in s.states && s.states[ride] in {Confirmed, InProgress})
           && ride in s.metas
           && var Meta(pickup, dest, _, _, _) := s.metas[ride];
              pickup.lat != 0 && pickup.lng != 0 && dest.lat != 0 && dest.lng != 0
         case Pin(_) => (s.stage == Some(EditingPickup) || s.stage == Some(EditingDestination)) && s.route.Some?
         case _ => false
    ensures var t := Next(s, Handle(m, w));
      && (EditSucceeds(s, m, w)
          <==> exists i :: |s.history| <= i < |t.history| && IsEditCancel(t.history[i]))
      && (AsksForEdit(s, m) && !EditSucceeds(s, m, w) ==> t == s)
      && (EditSucceeds(s, m, w) ==>
            && t.stage == Some(AwaitingPrice) && t.route == Some(EditedRoute(s, m, w))
            && t.activeRide.None? && t.pendingAccept.None? && Cleaned(s, t, s.activeRide.value, w.kept)
            && t.holds == s.holds && t.balance == s.balance
            && t.history == s.history + [Cancelled(s.activeRide.value, EditingRoute)])
  {
    hide Decide, Planned, Moved, EditedRoute;
    var t := Next(s, Handle(m, w));
    if AsksForEdit(s, m) {
      DecidesEdit(s, m, w);
      if EditSucceeds(s, m, w) {
        EditPerformed(s, s.activeRide, EditedRoute(s, m, w), w.kept);
        assert IsEditCancel(t.history[|s.history|]);
      }
    } else {
      DecisionPublishes(s, m, w);
      NewEvents(s, Decide(s, m, w), RequestedBy(s, m).Some?, Pays(s, m), false, GivesReason(s, m));
    }
  }

  /** What an edited route is: priced afresh, one end moved, the other one kept. */
  lemma EditedRouteIsFresh(s: State, m: Message, w: World)
    requires EditSucceeds(s, m, w)
    ensures var r := EditedRoute(s, m, w);
      && 300000 <= r.minOffer && r.offer.None? && r.distanceM == w.distance.value
      && match m
         case Text(t) =>
           var meta := s.metas[s.activeRide.value];
           if t.edit.value.pickup then r.pickup == w.geo.value && r.dest == meta.dest
           else r.pickup == meta.pickup && r.dest == w.geo.value
         case Pin(place) =>
           if s.stage == Some(EditingPickup) then r.pickup == place && r.dest == s.route.value.dest
           else r.pickup == s.route.value.pickup && r.dest == place
         case _ => false
  {
    hide Planned;
    var r := EditedRoute(s, m, w);
    PlannedIsPriced(r.pickup, r.dest, r.distanceM);
    PlannedFields();
  }

  /** The rider is where a successful edit leaves them. */
  predicate Landed(t: State, r: Route) {
    t.stage == Some(AwaitingPrice) && t.route == Some(r)
  }

  /**
   A successful edit has six writes.  From the first on the ride is cancelled, but the rider only
   lands with the new route if all six happened, or the one that is missing changes nothing.
   */
  lemma InterruptedEdit(s: State, m: Message, w: World, done: nat)
    requires EditSucceeds(s, m, w) && done <= 6
    ensures var step := Interrupt(m, w, done);
      var r := EditedRoute(s, m, w);
      Enabled(s, step) && var t := Next(s, step);
      && (t.history != s.history <==> 1 <= done)
      && (Landed(t, r) <==>
            done == 6 || (s.stage == Some(AwaitingPrice) && (done == 5 || s.route == Some(r))))
  {
    hide Planned, Moved, EditedRoute, Decide;
    DecidesEdit(s, m, w);
    var r := EditedRoute(s, m, w);
    var effects := EditEffects(s, m, w);
    hide EditSucceeds;
    if done == 6 {
      assert effects[..6] == effects;
      EditPerformed(s, s.activeRide, r, w.kept);
    } else if done == 5 {
      assert effects[..5] == CancelForEdit(s.activeRide.value, w.kept) + [StoreRoute(r)];
      PerformAppend(s, CancelForEdit(s.activeRide.value, w.kept), [StoreRoute(r)]);
      PerformOne(PerformAll(s, CancelForEdit(s.activeRide.value, w.kept)), StoreRoute(r));
      CancelPrefix(s, s.activeRide.value, w.kept, 4);
    } else {
      assert effects[..done] == CancelForEdit(s.activeRide.value, w.kept)[..done];
      CancelPrefix(s, s.activeRide.value, w.kept, done);
    }
  }

  lemma CancelPrefix(s: State, ride: RideId, kept: set<RideKey>, done: nat)
    requires done <= 4
    ensures var t := PerformAll(s, CancelForEdit(ride, kept)[..done]);
      && t.stage == s.stage && t.route == s.route
      && t.history == if done == 0 then s.history else s.history + [Cancelled(ride, EditingRoute)]
    ensures CancelForEdit(ride, kept)[..4] == CancelForEdit(ride, kept)
  {
    if done > 0 {
      var effects := CancelForEdit(ride, kept)[..done];
      var t := Perform(s, effects[0]);
      QuietPrefix(t, effects[1..]);
    }
  }

  lemma {:induction false} QuietPrefix(s: State, effects: seq<Effect>)
    requires forall i | 0 <= i < |effects| :: effects[i].ClearActive? || effects[i].CleanupRide? || effects[i].ClearAccept?
    ensures PerformAll(s, effects).stage == s.stage && PerformAll(s, effects).route == s.route
    ensures PerformAll(s, effects).history == s.history
    decreases |effects|
  {
    if effects != [] {
      assert effects[0].ClearActive? || effects[0].CleanupRide? || effects[0].ClearAccept?;
      QuietPrefix(Perform(s, effects[0]), effects[1..]);
    }
  }

  // ---------- which steps cancel a ride for an edit ----------

  /** The step publishes a cancellation for an edit. */
  ghost predicate CancelsForEdit(s: State, step: Step)
    requires Enabled(s, step)
  {
    exists i :: |s.history| <= i < |Next(s, step).history| && IsEditCancel(Next(s, step).history[i])
  }

  /** The step handles a message whose edit succeeds, at least up to its first write. */
  predicate Edits(s: State, step: Step) {
    match step
    case Handle(m, w) => EditSucceeds(s, m, w)
    case Interrupt(m, w, done) => EditSucceeds(s, m, w) && done >= 1
    case Outside(_) => false
  }

  lemma CancelsForEditIff(s: State, step: Step)
    requires Enabled(s, step)
    ensures CancelsForEdit(s, step) <==> Edits(s, step)
  {
    hide Decide, EditSucceeds, EditedRoute, Planned, Perform, PerformAll;
    match step
    case Handle(m, w) => EditNeverStrands(s, m, w);
    case Outside(e) => OutsideNeverEdits(s, e);
    case Interrupt(m, w, done) =>
      if EditSucceeds(s, m, w) {
        EditPrefix(s, m, w, done);
        var t := Next(s, step);
        assert done >= 1 ==> IsEditCancel(t.history[|s.history|]);
      } else {
        NoEditPrefix(s, m, w, done);
      }
  }

  lemma OutsideNeverEdits(s: State, e: Effect)
    requires OutsideMay(e)
    ensures forall i | |s.history| <= i < |Perform(s, e).history| :: !IsEditCancel(Perform(s, e).history[i])
  {
    HistoryOfOne(s, e);
    hide Perform;
  }

  lemma EditPrefix(s: State, m: Message, w: World, done: nat)
    requires EditSucceeds(s, m, w) && done <= |Decide(s, m, w)|
    ensures Next(s, Interrupt(m, w, done)).history
         == if done == 0 then s.history else s.history + [Cancelled(s.activeRide.value, EditingRoute)]
  {
    hide Planned, Moved, EditedRoute, Decide;
    DecidesEdit(s, m, w);
    EditHistory(s, s.activeRide.value, EditedRoute(s, m, w), w.kept, done);
  }

  lemma EditHistory(s: State, ride: RideId, r: Route, kept: set<RideKey>, done: nat)
    requires done <= 6
    ensures PerformAll(s, (CancelForEdit(ride, kept) + [StoreRoute(r), SetStage(AwaitingPrice)])[..done]).history
         == if done == 0 then s.history else s.history + [Cancelled(ride, EditingRoute)]
  {
    if done > 0 {
      var effects := (CancelForEdit(ride, kept) + [StoreRoute(r), SetStage(AwaitingPrice)])[..done];
      var t := Perform(s, effects[0]);
      assert effects == [effects[0]] + effects[1..];
      KeepsHistory(t, effects[1..]);
    }
  }

  predicate Unwritten(e: Effect) {
    !e.Publish? && !e.CreateHold? && !e.StoreAccept?
  }

  lemma {:induction false} KeepsHistory(s: State, effects: seq<Effect>)
    requires forall i | 0 <= i < |effects| :: Unwritten(effects[i])
    ensures PerformAll(s, effects).history == s.history
    decreases |effects|
  {
    if effects != [] {
      assert Unwritten(effects[0]);
      HistoryOfOne(s, effects[0]);
      assert s.history + [] == s.history;
      hide Perform;
      KeepsHistory(Perform(s, effects[0]), effects[1..]);
    }
  }

  lemma NoEditPrefix(s: State, m: Message, w: World, done: nat)
    requires !EditSucceeds(s, m, w) && done <= |Decide(s, m, w)|
    ensures var t := Next(s, Interrupt(m, w, done));
      forall i | |s.history| <= i < |t.history| :: !IsEditCancel(t.history[i])
  {
    hide Decide, Planned;
    if AsksForEdit(s, m) {
      DecidesEdit(s, m, w);
    } else {
      DecisionPublishes(s, m, w);
      var effects := Decide(s, m, w);
      assert AllAllowed(effects[..done], RequestedBy(s, m).Some?, Pays(s, m), false, GivesReason(s, m));
      NewEvents(s, effects[..done], RequestedBy(s, m).Some?, Pays(s, m), false, GivesReason(s, m));
    }
  }

  // ---------- a confirmed ride ----------

  /** The active ride is confirmed or in progress: the source means to allow no more than a cancellation. */
  predicate RideUnderway(s: State) {
    s.activeRide.Some? && Underway(s, s.activeRide.value)
  }

  /** A pin, in an editing stage that was entered before the ride was confirmed, and a plan for the new route. */
  predicate PinWhileEditing(s: State, m: Message, w: World) {
    m.Pin? && Editing(s.stage) && s.route.Some? && w.distance.Some?
  }

  predicate PinsWhileEditing(s: State, step: Step) {
    match step
    case Handle(m, w) => PinWhileEditing(s, m, w)
    case Interrupt(m, w, done) => PinWhileEditing(s, m, w) && done >= 1
    case Outside(_) => false
  }

  /**
   A step cancels a ride that is underway for an edit exactly when it handles a pin while the stage is
   an editing one, a pending route is stored and the new route can be planned.  No text ever does.
   */
  lemma UnderwayCancelledIff(s: State, step: Step)
    requires Enabled(s, step) && RideUnderway(s)
    ensures CancelsForEdit(s, step) <==> PinsWhileEditing(s, step)
    ensures !step.Outside? && step.m.Text? ==> !CancelsForEdit(s, step)
  {
    CancelsForEditIff(s, step);
    hide CancelsForEdit, Decide, Planned;
  }

  /** No step of the run cancels a ride that is underway for an edit. */
  ghost predicate SparesUnderway(s: State, steps: seq<Step>)
    requires Legal(s, steps)
    decreases |steps|
  {
    steps == []
    || (!(RideUnderway(s) && CancelsForEdit(s, steps[0])) && SparesUnderway(Next(s, steps[0]), steps[1..]))
  }

  /** No pin of the run arrives while a ride is underway and the stage is still an editing one. */
  predicate NoPinUnderway(s: State, steps: seq<Step>)
    requires Legal(s, steps)
    decreases |steps|
  {
    steps == []
    || (!(RideUnderway(s) && PinsWhileEditing(s, steps[0])) && NoPinUnderway(Next(s, steps[0]), steps[1..]))
  }

  lemma {:induction false} UnderwaySparedIff(s: State, steps: seq<Step>)
    requires Legal(s, steps)
    ensures SparesUnderway(s, steps) <==> NoPinUnderway(s, steps)
    decreases |steps|
  {
    if steps != [] {
      if RideUnderway(s) {
        UnderwayCancelledIff(s, steps[0]);
      }
      hide CancelsForEdit, PinsWhileEditing, RideUnderway, Next, Enabled;
      UnderwaySparedIff(Next(s, steps[0]), steps[1..]);
    }
  }

  /** "edit from", then choosing and paying the first bid: the stage is still the editing one. */
  const EDITING := OFFERED.(stage := Some(EditingPickup), route := Some(Placeholder(OLD_RIDE)))
  const CONFIRMED := EDITING.(states := map[1 := Confirmed], holds := map[1 := Hold(3000 * NAIRA, true)],
                              balance := 6000 * NAIRA,
                              history := [Chosen(1, BID1, Numbered(1), [BID1, BID2]),
                                          Held(1, 3000 * NAIRA, true), Accepted(1, BID1, 3000 * NAIRA)])

  lemma ReachesConfirmed()
    ensures Reaches(FRESH, CONFIRMED)
  {
    hide Reaches;
    ReachesOffered();
    var words := SILENT.(edit := Some(EditCommand(true, false)));
    assert Decide(OFFERED, Text(words), CALM) == [StoreRoute(Placeholder(OLD_RIDE)), SetStage(EditingPickup)];
    PerformTwo(OFFERED, StoreRoute(Placeholder(OLD_RIDE)), SetStage(EditingPickup));
    ReachesStep(FRESH, OFFERED, Handle(Text(words), CALM));
    ReachesPaid(EDITING, 1);
    assert EDITING.history + [Chosen(1, BID1, Numbered(1), [BID1, BID2]), Held(1, BID1.price, true),
                              Accepted(1, BID1, BID1.price)] == CONFIRMED.history;
  }

  /** Paid for, held and confirmed, and a pin still cancels it. */
  predicate PinCancelsPaidRide(s: State, place: Place, w: World) {
    && RideUnderway(s) && s.activeRide.value in s.holds && s.holds[s.activeRide.value].active
    && EditSucceeds(s, Pin(place), w)
    && Next(s, Handle(Pin(place), w)).history == s.history + [Cancelled(s.activeRide.value, EditingRoute)]
  }

  /**
   A run of four messages, none of them interrupted, ends with a confirmed and paid ride cancelled for
   an edit: "edit from", the number of a driver, "pay", and a location pin.
   */
  lemma PinCancelsAConfirmedRide()
    ensures exists s, place, w :: Reaches(FRESH, s) && PinCancelsPaidRide(s, place, w)
  {
    hide Reaches, Planned;
    ReachesConfirmed();
    EditNeverStrands(CONFIRMED, Pin(IKEJA), CALM);
    assert PinCancelsPaidRide(CONFIRMED, IKEJA, CALM);
  }

  // ---------- whose route a pin edits ----------

  const IKEJA := Place(3, 3, "Ikeja")

  const AJAH := Place(4, 4, "Ajah")

  /** The rider edits a new quote when a late bid brings back ride 1, which goes elsewhere. */
  const CROSSED := FRESH.(stage := Some(EditingPickup), route := Some(Planned(YABA, LEKKI, 1000)),
                          activeRide := Some(1), metas := map[1 := Meta(IKEJA, AJAH, 1000, MIN_FARE, MIN_FARE)],
                          bids := map[1 := []], states := map[1 := Searching])

  /** The pickup is edited, and the destination changes. */
  predicate MovesAnotherRide(s: State, place: Place, w: World) {
    && s.stage == Some(EditingPickup) && EditSucceeds(s, Pin(place), w) && s.activeRide.value in s.metas
    && EditedRoute(s, Pin(place), w).dest != s.metas[s.activeRide.value].dest
  }

  /**
   The other end that a pin keeps is the pending route's.  It need not be the active ride's: an
   edit of a new quote can cancel an older ride that has nothing to do with it.
   */
  lemma PinCanCancelAnotherRide()
    ensures exists s, place, w :: Reaches(FRESH, s) && MovesAnotherRide(s, place, w)
  {
    hide Reaches;
    ReachesCrossed();
    PlannedFields();
    assert EditedRoute(CROSSED, Pin(IKEJA), CALM) == Planned(IKEJA, LEKKI, 1000);
    assert MovesAnotherRide(CROSSED, IKEJA, CALM);
  }

  lemma ReachesCrossed()
    ensures Reaches(FRESH, CROSSED)
  {
    hide Reaches, Planned;
    ReachesItself(FRESH);
    PerformTwo(FRESH, StoreRoute(Planned(YABA, LEKKI, 1000)), SetStage(AwaitingPrice));
    ReachesStep(FRESH, FRESH, Handle(NormalRide(YABA, LEKKI), CALM));
    var s1 := FRESH.(stage := Some(AwaitingPrice), route := Some(Planned(YABA, LEKKI, 1000)));
    var words := SILENT.(edit := Some(EditCommand(true, false)));
    PerformOne(s1, SetStage(EditingPickup));
    assert Decide(s1, Text(words), CALM) == [SetStage(EditingPickup)];
    ReachesStep(FRESH, s1, Handle(Text(words), CALM));
    var s2 := s1.(stage := Some(EditingPickup));
    var meta := Meta(IKEJA, AJAH, 1000, MIN_FARE, MIN_FARE);
    ReachesStep(FRESH, s2, Outside(StoreRide(1, meta)));
    ReachesStep(FRESH, Perform(s2, StoreRide(1, meta)), Outside(SetActive(1)));
    assert Perform(Perform(s2, StoreRide(1, meta)), SetActive(1)) == CROSSED;
  }
}
