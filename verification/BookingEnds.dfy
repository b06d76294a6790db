/**
 Whether a pin edits the route of the ride it cancels.  (apps/api-gateway/src/http/whatsapp.route.ts)

 A pin keeps the other end of the pending route.  That is the ride's own other end as long as no step
 exchanges the ride, its chat state or the route for another one while the rider is editing.
 */
module BookingEnds {
  import opened Options
  import opened Pricing
  import opened Booking
  import opened BookingRequests
  import opened BookingEdits
  import opened BookingActive

  /** The end that an edit in this stage keeps. */
  function OtherEnd(stage: Option<Stage>, pickup: Place, dest: Place): Place {
    if stage == Some(EditingPickup) then dest else pickup
  }

  predicate SameEnd(stage: Option<Stage>, r: Route, m: Meta) {
    OtherEnd(stage, r.pickup, r.dest) == OtherEnd(stage, m.pickup, m.dest)
  }

  /** While the rider edits, the pending route has the active ride's other end. */
  predicate EndsAgree(s: State) {
    Editing(s.stage) && s.activeRide.Some? && s.route.Some? && s.activeRide.value in s.metas ==>
      SameEnd(s.stage, s.route.value, s.metas[s.activeRide.value])
  }

  /** The rider edits, and a ride with this chat state would have another other end. */
  predicate Strange(s: State, m: Meta) {
    Editing(s.stage) && s.route.Some? && !SameEnd(s.stage, s.route.value, m)
  }

  /** The last seat's group trip has chat state with another other end. */
  predicate SeatCrosses(s: State, m: Message, w: World) {
    LastSeat(s, m, w) && w.seat.value.anchor in s.metas && Strange(s, s.metas[w.seat.value.anchor])
  }

  /** The route of the group request has another other end than the active ride. */
  predicate NormalRideCrosses(s: State, m: Message, w: World) {
    && m.NormalRide? && w.distance.Some? && Editing(s.stage)
    && s.activeRide.Some? && s.activeRide.value in s.metas
    && var meta := s.metas[s.activeRide.value];
       OtherEnd(s.stage, m.pickup, m.dest) != OtherEnd(s.stage, meta.pickup, meta.dest)
  }

  /**
   The steps that part the two: another ride becomes active, the active ride gets other chat state, or
   a switch from a group request stops between storing its route and leaving the editing stage.
   */
  predicate Crosses(s: State, step: Step) {
    match step
    case Outside(SetActive(ride)) => ride in s.metas && Strange(s, s.metas[ride])
    case Outside(StoreRide(ride, meta)) => s.activeRide == Some(ride) && Strange(s, meta)
    case Outside(StoreMeta(ride, meta)) => s.activeRide == Some(ride) && Strange(s, meta)
    case Outside(_) => false
    case Handle(m, w) => SeatCrosses(s, m, w)
    case Interrupt(m, w, done) => (done == 2 && SeatCrosses(s, m, w)) || (done == 1 && NormalRideCrosses(s, m, w))
  }

  // ---------- writes that keep the ends together ----------

  /** At every prefix of the writes. */
  predicate AgreesThroughout(s: State, effects: seq<Effect>)
    decreases |effects|
  {
    EndsAgree(s) && (effects == [] || AgreesThroughout(Perform(s, effects[0]), effects[1..]))
  }

  lemma {:induction false} AgreesAt(s: State, effects: seq<Effect>, done: nat)
    requires AgreesThroughout(s, effects) && done <= |effects|
    ensures EndsAgree(PerformAll(s, effects[..done]))
    decreases done
  {
    hide EndsAgree, Perform;
    if done == 0 {
      assert effects[..0] == [];
    } else {
      assert effects[..done][0] == effects[0] && effects[..done][1..] == effects[1..][..done - 1];
      AgreesAt(Perform(s, effects[0]), effects[1..], done - 1);
    }
  }

  lemma {:induction false} AgreesThen(s: State, a: seq<Effect>, b: seq<Effect>)
    requires AgreesThroughout(s, a) && AgreesThroughout(PerformAll(s, a), b)
    ensures AgreesThroughout(s, a + b)
    decreases |a|
  {
    hide EndsAgree, Perform;
    if a == [] {
      assert a + b == b;
    } else {
      assert (a + b)[1..] == a[1..] + b;
      AgreesThen(Perform(s, a[0]), a[1..], b);
    }
  }

  /** Writes that cannot part them. */
  predicate Aside(e: Effect) {
    && !(e.SetStage? && Editing(Some(e.stage)))
    && !e.StoreRoute? && !e.SetActive? && !e.StoreRide? && !e.StoreMeta?
  }

  predicate AllAside(effects: seq<Effect>) {
    forall i | 0 <= i < |effects| :: Aside(effects[i])
  }

  lemma AsideAgrees(s: State, e: Effect)
    requires EndsAgree(s) && Aside(e)
    ensures EndsAgree(Perform(s, e))
  {
  }

  lemma {:induction false} AsideThroughout(s: State, effects: seq<Effect>)
    requires EndsAgree(s) && AllAside(effects)
    ensures AgreesThroughout(s, effects)
    decreases |effects|
  {
    hide EndsAgree, Perform;
    if effects != [] {
      assert Aside(effects[0]);
      AsideAgrees(s, effects[0]);
      AsideThroughout(Perform(s, effects[0]), effects[1..]);
    }
  }

  predicate NoneActivates(effects: seq<Effect>) {
    forall i | 0 <= i < |effects| :: !effects[i].SetActive?
  }

  /** Without a ride there is nothing to agree with. */
  lemma {:induction false} RidelessThroughout(s: State, effects: seq<Effect>)
    requires s.activeRide.None? && NoneActivates(effects)
    ensures AgreesThroughout(s, effects)
    decreases |effects|
  {
    if effects != [] {
      assert !effects[0].SetActive?;
      ActiveAfterOne(s, effects[0]);
      hide Perform;
      RidelessThroughout(Perform(s, effects[0]), effects[1..]);
    }
  }

  predicate NoneEdits(effects: seq<Effect>) {
    forall i | 0 <= i < |effects| :: !(effects[i].SetStage? && Editing(Some(effects[i].stage)))
  }

  /** Outside the editing stages there is nothing to keep. */
  lemma {:induction false} NotEditingThroughout(s: State, effects: seq<Effect>)
    requires !Editing(s.stage) && NoneEdits(effects)
    ensures AgreesThroughout(s, effects)
    decreases |effects|
  {
    if effects != [] {
      assert !(effects[0].SetStage? && Editing(Some(effects[0].stage)));
      StageAfterOne(s, effects[0]);
      hide Perform;
      NotEditingThroughout(Perform(s, effects[0]), effects[1..]);
    }
  }

  // ---------- branch by branch ----------

  /** A ride cancelled for an edit is no longer active when the new route is stored. */
  lemma EditAgrees(s: State, ride: RideId, r: Route, kept: set<RideKey>)
    requires EndsAgree(s)
    ensures AgreesThroughout(s, CancelForEdit(ride, kept) + [StoreRoute(r), SetStage(AwaitingPrice)])
  {
    var x := [Publish(Cancelled(ride, EditingRoute)), ClearActive];
    var y := [CleanupRide(ride, kept), ClearAccept, StoreRoute(r), SetStage(AwaitingPrice)];
    AsideThroughout(s, x);
    hide AgreesThroughout, EndsAgree, Perform, PerformAll;
    PerformTwo(s, x[0], x[1]);
    ActiveAfterOne(Perform(s, x[0]), x[1]);
    RidelessThroughout(PerformAll(s, x), y);
    AgreesThen(s, x, y);
    assert CancelForEdit(ride, kept) + [StoreRoute(r), SetStage(AwaitingPrice)] == x + y;
  }

  lemma PlaceholderAgrees(s: State, ride: RideId, stage: Stage)
    requires EndsAgree(s) && s.activeRide == Some(ride) && ride in s.metas
    ensures AgreesThroughout(s, [StoreRoute(Placeholder(s.metas[ride])), SetStage(stage)])
  {
    var effects := [StoreRoute(Placeholder(s.metas[ride])), SetStage(stage)];
    var t := Perform(s, effects[0]);
    var u := Perform(t, effects[1]);
    assert effects[1..] == [effects[1]] && effects[1..][1..] == [];
    assert EndsAgree(t) && EndsAgree(u);
    assert AgreesThroughout(u, []);
    assert AgreesThroughout(t, effects[1..]);
  }

  lemma CounterOfferAgrees(s: State, ride: RideId, price: Kobo)
    requires EndsAgree(s)
    ensures AgreesThroughout(s, OnCounterOffer(s, ride, price))
  {
    hide ValidateRiderOffer;
    var effects := OnCounterOffer(s, ride, price);
    if effects != [] {
      var t := Perform(s, effects[0]);
      assert EndsAgree(t);
      assert AllAside(effects[1..]);
      AsideThroughout(t, effects[1..]);
    }
  }

  lemma ActiveRideAgrees(s: State, ride: RideId, t: Words, w: World)
    requires EndsAgree(s) && s.activeRide == Some(ride) && s.stage != Some(AwaitingCancelReason)
    requires !LastSeat(s, Text(t), w)
    ensures AgreesThroughout(s, OnActiveRide(s, ride, t, w))
  {
    hide Planned, EndsAgree, AgreesThroughout, Perform, OnCounterOffer;
    if !Underway(s, ride) && EditsRide(s, ride, t) {
      if !t.edit.value.inline {
        PlaceholderAgrees(s, ride, if t.edit.value.pickup then EditingPickup else EditingDestination);
      } else if w.geo.Some? && w.distance.Some? {
        var m := s.metas[ride];
        var pickup := if t.edit.value.pickup then w.geo.value else m.pickup;
        var dest := if t.edit.value.pickup then m.dest else w.geo.value;
        EditAgrees(s, ride, Planned(pickup, dest, w.distance.value), w.kept);
      } else {
        AsideThroughout(s, []);
      }
    } else if !Underway(s, ride) && !t.cancel && !(s.pendingAccept.Some? && t.pay) && t.accept.None? && !t.more
      && t.price.Some? {
      CounterOfferAgrees(s, ride, t.price.value);
    } else {
      AsideThroughout(s, OnActiveRide(s, ride, t, w));
    }
  }

  lemma PinAgrees(s: State, place: Place, w: World)
    requires EndsAgree(s)
    ensures AgreesThroughout(s, OnPin(s, place, w))
  {
    hide Planned, Moved, EndsAgree, AgreesThroughout, Perform;
    if s.activeRide.None? {
      RidelessThroughout(s, OnPin(s, place, w));
    } else if Editing(s.stage) && s.route.Some? && w.distance.Some? {
      EditAgrees(s, s.activeRide.value, Moved(s, place, w.distance.value), w.kept);
    } else {
      AsideThroughout(s, OnPin(s, place, w));
    }
  }

  lemma TextAgrees(s: State, t: Words, w: World)
    requires EndsAgree(s) && s.activeRide.None? && s.stage != Some(AwaitingCancelReason)
    ensures AgreesThroughout(s, OnText(s, t, w))
  {
    hide EndsAgree, AgreesThroughout, Perform, Planned, Moved;
    TextActivatesOrNotEdits(s, t, w);
    if NoneActivates(OnText(s, t, w)) {
      RidelessThroughout(s, OnText(s, t, w));
    } else {
      NotEditingThroughout(s, OnText(s, t, w));
    }
  }

  lemma TextActivatesOrNotEdits(s: State, t: Words, w: World)
    ensures NoneActivates(OnText(s, t, w)) || (!Editing(s.stage) && NoneEdits(OnText(s, t, w)))
  {
    hide Planned, Moved, OnIntent;
    IntentNeverEdits(s, t, w);
  }

  lemma IntentNeverEdits(s: State, t: Words, w: World)
    ensures NoneEdits(OnIntent(s, t, w))
  {
    hide Planned;
  }

  lemma DecisionAgrees(s: State, m: Message, w: World)
    requires EndsAgree(s) && !m.NormalRide? && !LastSeat(s, m, w)
    ensures AgreesThroughout(s, Decide(s, m, w))
  {
    hide EndsAgree, AgreesThroughout, Perform, OnCancelReason, OnPin, OnText, OnActiveRide, Planned;
    if s.stage == Some(AwaitingCancelReason) {
      ReasonIsAside(s, if m.Text? then m.words.reason else None, w.kept);
      AsideThroughout(s, OnCancelReason(s, if m.Text? then m.words.reason else None, w.kept));
    } else if m.Pin? {
      PinAgrees(s, m.place, w);
    } else if m.OtherFlow? {
      AsideThroughout(s, Decide(s, m, w));
    } else if s.activeRide.Some? {
      ActiveRideAgrees(s, s.activeRide.value, m.words, w);
    } else {
      TextAgrees(s, m.words, w);
    }
  }

  lemma ReasonIsAside(s: State, reason: Option<string>, kept: set<RideKey>)
    ensures AllAside(OnCancelReason(s, reason, kept))
  {
  }

  // ---------- exactly which steps part them ----------

  lemma OutsideAgreesIff(s: State, e: Effect)
    requires EndsAgree(s) && OutsideMay(e)
    ensures EndsAgree(Perform(s, e)) <==> !Crosses(s, Outside(e))
  {
    if Aside(e) {
      AsideAgrees(s, e);
    }
  }

  lemma SeatAgreesIff(s: State, m: Message, w: World, done: nat)
    requires EndsAgree(s) && LastSeat(s, m, w) && done <= 2
    ensures |Decide(s, m, w)| == 2
    ensures EndsAgree(PerformAll(s, Decide(s, m, w)[..done])) <==> !(done == 2 && SeatCrosses(s, m, w))
  {
    DecidesSeat(s, m, w);
    hide Decide, LastSeat;
    var publish, move := Publish(SeatsAccepted(w.seat.value.anchor)), SetActive(w.seat.value.anchor);
    PerformTwo(s, publish, move);
    assert Decide(s, m, w)[..done] == if done == 0 then [] else if done == 1 then [publish] else [publish, move];
    AsideAgrees(s, publish);
  }

  lemma NormalRideAgreesIff(s: State, m: Message, w: World, done: nat)
    requires EndsAgree(s) && m.NormalRide? && done <= |Decide(s, m, w)|
    ensures EndsAgree(PerformAll(s, Decide(s, m, w)[..done])) <==> !(done == 1 && NormalRideCrosses(s, m, w))
    ensures |Decide(s, m, w)| in {0, 2}
  {
    hide Planned;
    var effects := Decide(s, m, w);
    if effects != [] {
      PlannedFields();
      var r := Planned(m.pickup, m.dest, w.distance.value);
      PerformTwo(s, StoreRoute(r), SetStage(AwaitingPrice));
      assert effects[..done] == if done == 0 then [] else if done == 1 then [StoreRoute(r)] else effects;
    } else {
      assert effects[..done] == [];
    }
  }

  /** A step parts the pending route from the active ride exactly when it crosses them. */
  lemma StepKeepsEndsIff(s: State, step: Step)
    requires EndsAgree(s) && Enabled(s, step)
    ensures EndsAgree(Next(s, step)) <==> !Crosses(s, step)
  {
    hide EndsAgree, Decide, LastSeat, Planned, Perform, AgreesThroughout, NormalRideCrosses;
    if step.Outside? {
      OutsideAgreesIff(s, step.effect);
    } else {
      var effects := Decide(s, step.m, step.w);
      var done := if step.Handle? then |effects| else step.done;
      assert effects[..|effects|] == effects;
      if LastSeat(s, step.m, step.w) {
        SeatAgreesIff(s, step.m, step.w, 2);
        SeatAgreesIff(s, step.m, step.w, done);
        SeatIsText(s, step.m, step.w);
      } else if step.m.NormalRide? {
        NormalRideAgreesIff(s, step.m, step.w, done);
      } else {
        DecisionAgrees(s, step.m, step.w);
        AgreesAt(s, effects, done);
        OnlyNormalRideCrosses(s, step.m, step.w);
      }
    }
  }

  lemma SeatIsText(s: State, m: Message, w: World)
    requires LastSeat(s, m, w)
    ensures !NormalRideCrosses(s, m, w)
  {
  }

  lemma OnlyNormalRideCrosses(s: State, m: Message, w: World)
    requires !m.NormalRide?
    ensures !NormalRideCrosses(s, m, w)
  {
  }

  predicate NeverCrosses(s: State, steps: seq<Step>)
    requires Legal(s, steps)
    decreases |steps|
  {
    steps == [] || (!Crosses(s, steps[0]) && NeverCrosses(Next(s, steps[0]), steps[1..]))
  }

  lemma {:induction false} RunKeepsEnds(s: State, steps: seq<Step>)
    requires EndsAgree(s) && Legal(s, steps) && NeverCrosses(s, steps)
    ensures EndsAgree(Run(s, steps))
    decreases |steps|
  {
    hide EndsAgree, Next, Enabled, Crosses;
    if steps != [] {
      StepKeepsEndsIff(s, steps[0]);
      RunKeepsEnds(Next(s, steps[0]), steps[1..]);
    }
  }

  /**
   On every run without such a step, a pin that cancels a ride for an edit keeps that ride's own other
   end: the edited route starts or ends where the ride did.
   */
  lemma PinKeepsTheRidesEnd(steps: seq<Step>, place: Place, w: World)
    requires Legal(FRESH, steps) && NeverCrosses(FRESH, steps)
    requires EditSucceeds(Run(FRESH, steps), Pin(place), w)
    ensures var s := Run(FRESH, steps);
      var r := EditedRoute(s, Pin(place), w);
      s.activeRide.value in s.metas ==>
        var meta := s.metas[s.activeRide.value];
        if s.stage == Some(EditingPickup) then r.pickup == place && r.dest == meta.dest
        else r.pickup == meta.pickup && r.dest == place
  {
    hide Planned;
    RunKeepsEnds(FRESH, steps);
    EditedRouteIsFresh(Run(FRESH, steps), Pin(place), w);
  }

  /** At any state: the pin keeps the ride's other end exactly when the two agree there. */
  lemma PinKeepsTheEndIff(s: State, place: Place, w: World)
    requires EditSucceeds(s, Pin(place), w) && s.activeRide.value in s.metas
    ensures var r, meta := EditedRoute(s, Pin(place), w), s.metas[s.activeRide.value];
      OtherEnd(s.stage, r.pickup, r.dest) == OtherEnd(s.stage, meta.pickup, meta.dest) <==> EndsAgree(s)
  {
    hide Planned;
    EditedRouteIsFresh(s, Pin(place), w);
  }
}
