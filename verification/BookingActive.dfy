/**
 Which ride is active, and which one a payment is for.  (apps/api-gateway/src/http/whatsapp.route.ts)
 */
module BookingActive {
  import opened Options
  import opened Pricing
  import opened Booking
  import opened BookingEdits
  import opened BookingRequests

  /** The accepted bid takes the last seat of a group trip, and the rider is put on it. */
  predicate LastSeat(s: State, m: Message, w: World) {
    && s.stage != Some(AwaitingCancelReason) && m.Text? && s.activeRide.Some?
    && !Underway(s, s.activeRide.value) && !EditsRide(s, s.activeRide.value, m.words)
    && !m.words.cancel && !(s.pendingAccept.Some? && m.words.pay) && m.words.accept.Some?
    && s.activeRide.value in s.batches && NamedBid(s.batches[s.activeRide.value], m.words.accept.value).Some?
    && w.seat.Some? && w.seat.value.last && w.seat.value.moves
  }

  /** The ride that waits for payment has no chat state any more. */
  predicate PaysExpired(s: State, m: Message) {
    Pays(s, m) && s.pendingAccept.value.ride !in s.metas
  }

  /** Which ride is active behind a message that found one active. */
  function RideAfter(s: State, m: Message, w: World): Option<RideId> {
    if GivesReason(s, m) || EditSucceeds(s, m, w) || PaysExpired(s, m) then None
    else if LastSeat(s, m, w) then Some(w.seat.value.anchor)
    else s.activeRide
  }

  predicate TouchesActive(e: Effect) {
    e.SetActive? || e.ClearActive?
  }

  predicate NoneTouches(effects: seq<Effect>) {
    forall i | 0 <= i < |effects| :: !TouchesActive(effects[i])
  }

  lemma {:induction false} KeepsActive(s: State, effects: seq<Effect>)
    requires NoneTouches(effects)
    ensures PerformAll(s, effects).activeRide == s.activeRide
    decreases |effects|
  {
    if effects != [] {
      assert !TouchesActive(effects[0]);
      ActiveAfterOne(s, effects[0]);
      hide Perform;
      KeepsActive(Perform(s, effects[0]), effects[1..]);
    }
  }

  /** With a ride, only these messages touch it. */
  lemma ActiveRideTouches(s: State, m: Message, w: World)
    requires s.activeRide.Some?
    requires !GivesReason(s, m) && !EditSucceeds(s, m, w) && !PaysExpired(s, m) && !LastSeat(s, m, w)
    ensures NoneTouches(Decide(s, m, w))
  {
    hide Planned, Moved, OnCancelReason, OnPin, OnActiveRide;
    if s.stage == Some(AwaitingCancelReason) {
      QuietReason(s, if m.Text? then m.words.reason else None, w.kept);
    } else if m.Pin? {
      QuietPin(s, m.place, w);
    } else if m.Text? {
      QuietText(s, s.activeRide.value, m.words, w);
    }
  }

  lemma QuietReason(s: State, reason: Option<string>, kept: set<RideKey>)
    ensures reason.None? || s.activeRide.None? ==> NoneTouches(OnCancelReason(s, reason, kept))
  {
  }

  lemma QuietPin(s: State, place: Place, w: World)
    requires s.stage != Some(AwaitingCancelReason) && s.activeRide.Some? && !EditSucceeds(s, Pin(place), w)
    ensures NoneTouches(OnPin(s, place, w))
  {
    hide Planned, Moved;
  }

  lemma QuietText(s: State, ride: RideId, t: Words, w: World)
    requires s.stage != Some(AwaitingCancelReason) && s.activeRide == Some(ride)
    requires !EditSucceeds(s, Text(t), w) && !PaysExpired(s, Text(t)) && !LastSeat(s, Text(t), w)
    ensures NoneTouches(OnActiveRide(s, ride, t, w))
  {
    hide Planned;
  }

  lemma DecidesSeat(s: State, m: Message, w: World)
    requires LastSeat(s, m, w)
    ensures Decide(s, m, w) == [Publish(SeatsAccepted(w.seat.value.anchor)), SetActive(w.seat.value.anchor)]
  {
    hide Planned;
  }

  /**
   The active ride goes exactly when a reason for cancelling is given, an edit succeeds, or a payment
   finds the chosen ride expired, whichever ride that is; the last seat moves the rider onto the group
   trip; any other message keeps it.
   */
  lemma ActiveRideAfter(s: State, m: Message, w: World)
    requires s.activeRide.Some?
    ensures Next(s, Handle(m, w)).activeRide == RideAfter(s, m, w)
  {
    hide Decide, Planned, AsksForEdit;
    if GivesReason(s, m) {
      CancellingNeedsAReason(s, m, w);
    } else if EditSucceeds(s, m, w) {
      EditNeverStrands(s, m, w);
    } else if PaysExpired(s, m) {
      ExpiredTakesRide(s, m, w);
    } else if LastSeat(s, m, w) {
      DecidesSeat(s, m, w);
      PerformTwo(s, Publish(SeatsAccepted(w.seat.value.anchor)), SetActive(w.seat.value.anchor));
    } else {
      ActiveRideTouches(s, m, w);
      KeepsActive(s, Decide(s, m, w));
    }
  }

  lemma ExpiredTakesRide(s: State, m: Message, w: World)
    requires PaysExpired(s, m)
    ensures Next(s, Handle(m, w)).activeRide.None?
  {
    hide Planned;
    PerformTwo(s, ClearAccept, ClearActive);
    assert Decide(s, m, w) == [ClearAccept, ClearActive];
  }

  // ---------- whose ride is paid ----------

  /** The choice that waits for payment is for the active ride. */
  predicate ChoiceIsForActive(s: State) {
    s.pendingAccept.Some? && s.activeRide.Some? ==> s.pendingAccept.value.ride == s.activeRide.value
  }

  /** How many writes of a booking come before the one that makes the new ride active. */
  function MovesAt(s: State): nat {
    if s.stage == Some(AwaitingPrice) && s.route.Some? then 4
    else if s.stage == Some(AwaitingRouteConfirmation) || s.stage == Some(AwaitingPickup) then 3
    else 2
  }

  /** The message makes a ride active that is not the one chosen, if `done` of its writes happen. */
  predicate Diverts(s: State, m: Message, w: World, done: nat) {
    s.pendingAccept.Some? &&
    var chosen := s.pendingAccept.value.ride;
    || (RequestedBy(s, m).Some? && w.newRide != chosen && done > MovesAt(s))
    || (LastSeat(s, m, w) && w.seat.value.anchor != chosen && done == 2)
  }

  /** The step makes a ride active that is not the one chosen. */
  predicate Detours(s: State, step: Step) {
    match step
    case Handle(m, w) => Diverts(s, m, w, |Decide(s, m, w)|)
    case Interrupt(m, w, done) => Diverts(s, m, w, done)
    case Outside(SetActive(ride)) => s.pendingAccept.Some? && ride != s.pendingAccept.value.ride
    case Outside(_) => false
  }

  predicate KeepsChoice(s: State, e: Effect) {
    && !e.SetActive?
    && (e.StoreAccept? ==> s.activeRide == Some(e.accept.ride))
  }

  predicate TouchesAccept(e: Effect) {
    e.StoreAccept? || e.ClearAccept?
  }

  predicate NoneTouchesAccept(effects: seq<Effect>) {
    forall i | 0 <= i < |effects| :: !TouchesAccept(effects[i])
  }

  lemma {:induction false} KeepsAccept(s: State, effects: seq<Effect>)
    requires NoneTouchesAccept(effects)
    ensures PerformAll(s, effects).pendingAccept == s.pendingAccept
    decreases |effects|
  {
    if effects != [] {
      assert !TouchesAccept(effects[0]);
      AcceptAfterOne(s, effects[0]);
      hide Perform;
      KeepsAccept(Perform(s, effects[0]), effects[1..]);
    }
  }

  /** No write makes a ride active, and a choice is only ever stored alone and for the active ride. */
  predicate Steady(s: State, effects: seq<Effect>) {
    && (forall i | 0 <= i < |effects| :: !effects[i].SetActive?)
    && (forall i | 0 <= i < |effects| :: effects[i].StoreAccept? ==> |effects| == 1 && KeepsChoice(s, effects[i]))
  }

  lemma {:induction false} SteadyKeepsChoice(s: State, effects: seq<Effect>)
    requires ChoiceIsForActive(s) && Steady(s, effects)
    ensures ChoiceIsForActive(PerformAll(s, effects))
    decreases |effects|
  {
    if effects != [] {
      assert !effects[0].SetActive?;
      ActiveAfterOne(s, effects[0]);
      AcceptAfterOne(s, effects[0]);
      var t := Perform(s, effects[0]);
      hide Perform;
      assert Steady(t, effects[1..]) by {
        forall i | 0 <= i < |effects[1..]|
          ensures !effects[1..][i].SetActive? && !effects[1..][i].StoreAccept?
        {
          assert effects[1..][i] == effects[i + 1];
        }
      }
      SteadyKeepsChoice(t, effects[1..]);
    }
  }

  lemma DecidesSteadily(s: State, m: Message, w: World)
    requires RequestedBy(s, m).None? && !LastSeat(s, m, w)
    ensures Steady(s, Decide(s, m, w))
  {
    hide Planned, Moved, OnCancelReason, OnPin, OnActiveRide, OnText, Steady;
    if s.stage == Some(AwaitingCancelReason) {
      SteadyReason(s, if m.Text? then m.words.reason else None, w.kept);
    } else if m.Pin? {
      SteadyPin(s, m.place, w);
    } else if m.Text? && s.activeRide.Some? {
      SteadyActive(s, s.activeRide.value, m.words, w);
    } else if m.Text? {
      SteadyText(s, m.words, w);
    } else {
      SteadyOther(s, m, w);
    }
  }

  lemma SteadyOther(s: State, m: Message, w: World)
    requires s.stage != Some(AwaitingCancelReason) && (m.OtherFlow? || m.NormalRide?)
    ensures Steady(s, Decide(s, m, w))
  {
    hide Planned;
  }

  lemma SteadyReason(s: State, reason: Option<string>, kept: set<RideKey>)
    ensures Steady(s, OnCancelReason(s, reason, kept))
  {
  }

  lemma SteadyPin(s: State, place: Place, w: World)
    ensures Steady(s, OnPin(s, place, w))
  {
    hide Planned, Moved;
  }

  lemma SteadyActive(s: State, ride: RideId, t: Words, w: World)
    requires s.stage != Some(AwaitingCancelReason) && s.activeRide == Some(ride) && !LastSeat(s, Text(t), w)
    ensures Steady(s, OnActiveRide(s, ride, t, w))
  {
    hide Planned;
  }

  lemma SteadyText(s: State, t: Words, w: World)
    requires s.stage != Some(AwaitingCancelReason) && s.activeRide.None? && RequestedBy(s, Text(t)).None?
    ensures Steady(s, OnText(s, t, w))
  {
    hide Planned, Moved, OnIntent;
    SteadyIntent(s, t, w);
  }

  lemma SteadyIntent(s: State, t: Words, w: World)
    ensures !(t.intent.NoIntent? && t.searchAgain && s.lastRoute.Some? && s.lastRoute.value.offer.Some?) ==>
      Steady(s, OnIntent(s, t, w))
    ensures forall i | 0 <= i < |OnIntent(s, t, w)| :: !OnIntent(s, t, w)[i].StoreAccept?
  {
    hide Planned;
  }

  /** One write makes `ride` active, and no other touches the active ride. */
  predicate MovesOnceAt(effects: seq<Effect>, at: nat, ride: RideId) {
    at < |effects| && effects[at] == SetActive(ride)
    && forall i | 0 <= i < |effects| :: i != at ==> !TouchesActive(effects[i])
  }

  lemma ActiveAfterSome(s: State, effects: seq<Effect>, at: nat, ride: RideId, done: nat)
    requires MovesOnceAt(effects, at, ride) && done <= |effects|
    ensures PerformAll(s, effects[..done]).activeRide == if done > at then Some(ride) else s.activeRide
  {
    if done <= at {
      KeepsActive(s, effects[..done]);
    } else {
      var rest := effects[at + 1..done];
      var t := PerformAll(s, effects[..at]);
      assert effects[..done] == effects[..at] + ([effects[at]] + rest);
      PerformAppend(s, effects[..at], [effects[at]] + rest);
      PerformAppend(t, [effects[at]], rest);
      PerformOne(t, effects[at]);
      assert forall i | 0 <= i < |rest| :: rest[i] == effects[at + 1 + i];
      KeepsActive(Perform(t, effects[at]), rest);
    }
  }

  lemma DecidesToMove(s: State, m: Message, w: World)
    requires RequestedBy(s, m).Some?
    ensures NoneTouchesAccept(Decide(s, m, w)) && MovesOnceAt(Decide(s, m, w), MovesAt(s), w.newRide)
  {
    hide Planned;
  }

  lemma SeatMovesOnce(s: State, m: Message, w: World)
    requires LastSeat(s, m, w)
    ensures w.seat.Some? && |Decide(s, m, w)| == 2
    ensures NoneTouchesAccept(Decide(s, m, w)) && MovesOnceAt(Decide(s, m, w), 1, w.seat.value.anchor)
  {
    DecidesSeat(s, m, w);
    hide Decide, LastSeat;
  }

  /** The first `done` writes of a message that makes another ride active. */
  lemma ChoiceWhileMoving(s: State, effects: seq<Effect>, at: nat, ride: RideId, done: nat)
    requires NoneTouchesAccept(effects) && MovesOnceAt(effects, at, ride) && done <= |effects|
    requires ChoiceIsForActive(s)
    ensures ChoiceIsForActive(PerformAll(s, effects[..done]))
      <==> !(done > at && s.pendingAccept.Some? && s.pendingAccept.value.ride != ride)
  {
    ActiveAfterSome(s, effects, at, ride, done);
    KeepsAccept(s, effects[..done]);
  }

  lemma ChoiceAfterSome(s: State, m: Message, w: World, done: nat)
    requires ChoiceIsForActive(s) && done <= |Decide(s, m, w)|
    ensures ChoiceIsForActive(PerformAll(s, Decide(s, m, w)[..done])) <==> !Diverts(s, m, w, done)
  {
    hide Decide, RequestedBy, LastSeat, PerformAll, ChoiceIsForActive;
    var effects := Decide(s, m, w);
    if RequestedBy(s, m).Some? {
      DecidesToMove(s, m, w);
      RequestIsNoSeat(s, m, w);
      ChoiceWhileMoving(s, effects, MovesAt(s), w.newRide, done);
    } else if LastSeat(s, m, w) {
      SeatMovesOnce(s, m, w);
      ChoiceWhileMoving(s, effects, 1, w.seat.value.anchor, done);
    } else {
      DecidesSteadily(s, m, w);
      SteadyPrefix(s, effects, done);
      SteadyKeepsChoice(s, effects[..done]);
    }
  }

  lemma SteadyPrefix(s: State, effects: seq<Effect>, done: nat)
    requires Steady(s, effects) && done <= |effects|
    ensures Steady(s, effects[..done])
  {
  }

  /**
   Handled to the end, cut short anywhere, or done by another part of the system, a step leaves the choice
   with the active ride exactly when it does not make another ride active: a booking or a last seat that
   gets as far as that write, or an outside change.  As long as none does, the ride paid is the active one.
   */
  lemma ChoiceStaysIff(s: State, step: Step)
    requires ChoiceIsForActive(s) && Enabled(s, step)
    ensures ChoiceIsForActive(Next(s, step)) <==> !Detours(s, step)
  {
    hide Decide, Diverts, Perform, PerformAll;
    match step
    case Outside(e) =>
      ActiveAfterOne(s, e);
      AcceptAfterOne(s, e);
    case Interrupt(m, w, done) =>
      ChoiceAfterSome(s, m, w, done);
    case Handle(m, w) =>
      var effects := Decide(s, m, w);
      assert effects[..|effects|] == effects;
      ChoiceAfterSome(s, m, w, |effects|);
  }

  lemma RequestIsNoSeat(s: State, m: Message, w: World)
    requires RequestedBy(s, m).Some?
    ensures !LastSeat(s, m, w)
  {
  }

  // ---------- over whole runs ----------

  /** Behind every step of the run the choice is for the active ride. */
  predicate ChoiceStaysThroughout(s: State, steps: seq<Step>)
    requires Legal(s, steps)
    decreases |steps|
  {
    ChoiceIsForActive(s) && (steps == [] || ChoiceStaysThroughout(Next(s, steps[0]), steps[1..]))
  }

  predicate NeverDetours(s: State, steps: seq<Step>)
    requires Legal(s, steps)
    decreases |steps|
  {
    steps == [] || (!Detours(s, steps[0]) && NeverDetours(Next(s, steps[0]), steps[1..]))
  }

  /** A run keeps the choice with the active ride all along exactly when none of its steps detours. */
  lemma {:induction false} ChoiceStaysOnRunIff(s: State, steps: seq<Step>)
    requires ChoiceIsForActive(s) && Legal(s, steps)
    ensures ChoiceStaysThroughout(s, steps) <==> NeverDetours(s, steps)
    decreases |steps|
  {
    hide Next, Enabled, Detours, ChoiceIsForActive;
    if steps != [] {
      ChoiceStaysIff(s, steps[0]);
      if !Detours(s, steps[0]) {
        ChoiceStaysOnRunIff(Next(s, steps[0]), steps[1..]);
      }
    }
  }
}
