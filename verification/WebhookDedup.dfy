/**
 The duplicate marker around the dispatch of one provider event.
 (apps/api-gateway/src/http/pouch.route.ts)

 The provider may deliver the event any number of times, concurrently; the marker may expire, and
 the delete that follows a failed dispatch may be lost.  A dispatch that throws, or whose process dies,
 may have taken effect before it did: a payout is settled before its event is published, and a publish
 may land and still reject.
 */
module WebhookDedup {
  import opened Idempotency

  /** `Failed`: answered with an error or not at all; it may have acted, and may have cleared the marker. */
  datatype Answer = Processed | Duplicate | Unhandled | Failed(acted: bool, cleared: bool)

  /** `Clearing`: the dispatch threw, with or without its effect. */
  datatype Delivery = Claiming | Dispatching | Clearing(acted: bool) | Answered(answer: Answer)

  /**
   The marker and its history: how often the event took effect, how often the marker expired, and how
   often it was cleared after a dispatch that had taken effect.
   */
  datatype Marker = Marker(present: bool, deliveries: map<nat, Delivery>, effects: nat, expiries: nat, reopened: nat)

  datatype Event =
    | Arrives(id: nat)
    | Claims(id: nat)
    | ClaimBreaks(id: nat, landed: bool)
    | Dispatches(id: nat)
    | Ignores(id: nat)      // an event name with no handler
    | Throws(id: nat, acted: bool)
    | Clears(id: nat, landed: bool)
    | Dies(id: nat, acted: bool)
    | Expires

  predicate At(m: Marker, id: nat, d: Delivery) {
    id in m.deliveries && m.deliveries[id] == d
  }

  predicate Can(m: Marker, e: Event) {
    match e
    case Arrives(id) => id !in m.deliveries
    case Claims(id) => At(m, id, Claiming)
    case ClaimBreaks(id, _) => At(m, id, Claiming)
    case Dispatches(id) => At(m, id, Dispatching)
    case Ignores(id) => At(m, id, Dispatching)
    case Throws(id, _) => At(m, id, Dispatching)
    case Clears(id, _) => id in m.deliveries && m.deliveries[id].Clearing?
    case Dies(id, acted) =>
      id in m.deliveries && !m.deliveries[id].Answered? && (acted ==> m.deliveries[id].Dispatching?)
    case Expires => m.present
  }

  function Becomes(m: Marker, id: nat, d: Delivery): Marker {
    m.(deliveries := m.deliveries[id := d])
  }

  function Next(m: Marker, e: Event): Marker
    requires Can(m, e)
  {
    match e
    case Arrives(id) => Becomes(m, id, Claiming)
    case Claims(id) =>
      if m.present then Becomes(m, id, Answered(Duplicate)) else Becomes(m, id, Dispatching).(present := true)
    case ClaimBreaks(id, landed) => Becomes(m, id, Answered(Failed(false, false))).(present := m.present || landed)
    case Dispatches(id) => Becomes(m, id, Answered(Processed)).(effects := m.effects + 1)
    case Ignores(id) => Becomes(m, id, Answered(Unhandled))
    case Throws(id, acted) => Becomes(m, id, Clearing(acted)).(effects := m.effects + if acted then 1 else 0)
    case Clears(id, landed) =>
      var acted := m.deliveries[id].acted;
      Becomes(m, id, Answered(Failed(acted, landed))).(
        present := m.present && !landed, reopened := m.reopened + if landed && acted then 1 else 0)
    case Dies(id, acted) =>
      Becomes(m, id, Answered(Failed(acted || m.deliveries[id] == Clearing(true), false))).(
        effects := m.effects + if acted then 1 else 0)
    case Expires => m.(present := false, expiries := m.expiries + 1)
  }

  ghost predicate Runs(m: Marker, events: seq<Event>)
    decreases |events|
  {
    events == [] || (Can(m, events[0]) && Runs(Next(m, events[0]), events[1..]))
  }

  ghost function Reached(m: Marker, events: seq<Event>): Marker
    requires Runs(m, events)
    decreases |events|
  {
    if events == [] then m else Reached(Next(m, events[0]), events[1..])
  }

  const FRESH := Marker(false, map[], 0, 0, 0)

  ghost function Times(events: seq<Event>, kind: Event -> bool): nat {
    if events == [] then 0 else (if kind(events[0]) then 1 else 0) + Times(events[1..], kind)
  }

  /** The effects are the dispatches that act, whatever becomes of them, and the expiries are counted one by one. */
  lemma {:induction false} EffectsCount(m: Marker, events: seq<Event>)
    requires Runs(m, events)
    ensures var n := Reached(m, events);
      && n.effects == m.effects + Times(events, (e: Event) => Acts(e))
      && n.expiries == m.expiries + Times(events, (e: Event) => e.Expires?)
    decreases |events|
  {
    if events != [] {
      EffectsCount(Next(m, events[0]), events[1..]);
    }
  }

  /** What becomes of the marker's claim: a delivery may still act, or has acted and left the marker alone. */
  datatype Kind = Open | Standing

  predicate Is(kind: Kind, d: Delivery) {
    match kind
    case Open => d == Dispatching || d == Clearing(false)
    case Standing => d == Answered(Processed) || d == Clearing(true) || d == Answered(Failed(true, false))
  }

  ghost function In(m: Marker, kind: Kind): set<nat> {
    set id | id in m.deliveries && Is(kind, m.deliveries[id])
  }

  /** Every effect stands or was followed by a clearing. */
  ghost predicate Accounted(m: Marker) {
    m.effects == m.reopened + |In(m, Standing)|
  }

  /** A delivery that is open or stands owns the marker or an expiry. */
  ghost predicate Owned(m: Marker) {
    |In(m, Standing)| + |In(m, Open)| <= (if m.present then 1 else 0) + m.expiries
  }

  lemma InMoves(m: Marker, id: nat, d: Delivery, kind: Kind)
    ensures |In(Becomes(m, id, d), kind)|
         == |In(m, kind)| + (if Is(kind, d) then 1 else 0) - (if id in In(m, kind) then 1 else 0)
  {
    if Is(kind, d) {
      AddOne(In(m, kind), In(Becomes(m, id, d), kind), id);
    } else {
      DropOne(In(m, kind), In(Becomes(m, id, d), kind), id);
    }
  }

  lemma StepKeepsOwned(m: Marker, e: Event)
    requires Owned(m) && Accounted(m) && Can(m, e)
    ensures Owned(Next(m, e)) && Accounted(Next(m, e))
  {
    var n := Next(m, e);
    if e.Expires? {
      assert In(n, Open) == In(m, Open) && In(n, Standing) == In(m, Standing);
    } else {
      var d := n.deliveries[e.id];
      InMoves(m, e.id, d, Open);
      InMoves(m, e.id, d, Standing);
      assert In(n, Open) == In(Becomes(m, e.id, d), Open);
      assert In(n, Standing) == In(Becomes(m, e.id, d), Standing);
    }
  }

  lemma {:induction false} RunKeepsOwned(m: Marker, events: seq<Event>)
    requires Owned(m) && Accounted(m) && Runs(m, events)
    ensures Owned(Reached(m, events)) && Accounted(Reached(m, events))
    decreases |events|
  {
    if events != [] {
      StepKeepsOwned(m, events[0]);
      RunKeepsOwned(Next(m, events[0]), events[1..]);
    }
  }

  lemma AnyRun(events: seq<Event>)
    requires Runs(FRESH, events)
    ensures Owned(Reached(FRESH, events)) && Accounted(Reached(FRESH, events))
  {
    assert In(FRESH, Open) == {} && In(FRESH, Standing) == {};
    RunKeepsOwned(FRESH, events);
  }

  /**
   However often and concurrently it is delivered, the event takes effect at most once per marker
   lifetime, where a clearing behind a dispatch that had taken effect starts a new one.
   */
  lemma OneEffectPerMarker(events: seq<Event>)
    requires Runs(FRESH, events)
    ensures var m := Reached(FRESH, events);
            m.effects + |In(m, Open)| <= (if m.present then 1 else 0) + m.expiries + m.reopened
  {
    AnyRun(events);
  }

  /** Over any run, expiries included, every effect stands or was followed by a clearing of the marker. */
  lemma EffectsAreAccounted(events: seq<Event>)
    requires Runs(FRESH, events)
    ensures var m := Reached(FRESH, events); m.effects == m.reopened + |In(m, Standing)|
  {
    AnyRun(events);
  }

  /** The dispatch takes effect, whatever becomes of it afterwards. */
  predicate Acts(e: Event) {
    match e
    case Dispatches(_) => true
    case Throws(_, acted) => acted
    case Dies(_, acted) => acted
    case _ => false
  }

  predicate SomethingActs(events: seq<Event>) {
    exists e | e in events :: Acts(e)
  }

  /** The marker is cleared behind a dispatch that had acted. */
  predicate Reopens(m: Marker, e: Event) {
    e.Clears? && e.landed && At(m, e.id, Clearing(true))
  }

  /** A dispatch of the run acts after the marker was reopened, in the run or, if `again`, before it. */
  ghost predicate ActsAgain(m: Marker, events: seq<Event>, again: bool)
    requires Runs(m, events)
    decreases |events|
  {
    events != []
    && ((again && Acts(events[0])) || ActsAgain(Next(m, events[0]), events[1..], again || Reopens(m, events[0])))
  }

  predicate NeverExpires(events: seq<Event>) {
    forall e | e in events :: !e.Expires?
  }

  lemma {:induction false} ActsTwiceIff(m: Marker, events: seq<Event>)
    requires Owned(m) && Accounted(m) && m.expiries == 0 && Runs(m, events) && NeverExpires(events)
    ensures var n := Reached(m, events);
      && (n.effects >= 1 <==> m.effects >= 1 || SomethingActs(events))
      && (n.effects >= 2 <==> m.effects >= 2 || ActsAgain(m, events, m.reopened > 0))
    decreases |events|
  {
    if events != [] {
      var e := events[0];
      assert e in events;
      StepKeepsOwned(m, e);
      if Acts(e) {
        OpenMeansNoneStands(m, e);
      }
      assert SomethingActs(events) <==> Acts(e) || SomethingActs(events[1..]);
      hide Owned, Accounted;
      ActsTwiceIff(Next(m, e), events[1..]);
    }
  }

  /** Without an expiry, nothing stands while a dispatch may act. */
  lemma OpenMeansNoneStands(m: Marker, e: Event)
    requires Owned(m) && Accounted(m) && m.expiries == 0 && Can(m, e) && Acts(e)
    ensures m.effects == m.reopened
  {
    assert e.id in In(m, Open);
  }

  /**
   On any run without an expiry, with any number of deliveries, throws and deaths, the event takes effect
   exactly once if and only if some dispatch acts, and none acts after the marker was cleared behind one
   that had.
   */
  lemma ExactlyOnceIff(events: seq<Event>)
    requires Runs(FRESH, events) && NeverExpires(events)
    ensures Reached(FRESH, events).effects == 1 <==> SomethingActs(events) && !ActsAgain(FRESH, events, false)
  {
    assert In(FRESH, Open) == {} && In(FRESH, Standing) == {};
    ActsTwiceIff(FRESH, events);
  }

  /** Without an expiry, an effect that stands has the marker and leaves no dispatch open. */
  lemma StandingIsFinal(events: seq<Event>)
    requires Runs(FRESH, events)
    ensures var m := Reached(FRESH, events);
      m.expiries == 0 && In(m, Standing) != {} ==> m.present && In(m, Open) == {} && |In(m, Standing)| == 1
  {
    AnyRun(events);
    var m := Reached(FRESH, events);
    if m.expiries == 0 && In(m, Standing) != {} {
      assert |In(m, Standing)| >= 1 && |In(m, Open)| == 0;
    }
  }

  /** So without an expiry, and with dispatches that throw before they act, it takes effect once at most. */
  lemma ProcessedOncePerMarker(events: seq<Event>)
    requires Runs(FRESH, events) && forall e | e in events :: !e.Expires? && (e.Throws? ==> !e.acted)
    ensures Reached(FRESH, events).effects <= 1
  {
    NothingReopens(FRESH, events);
    OneEffectPerMarker(events);
  }

  predicate NoneClearsAnEffect(m: Marker) {
    forall id | id in m.deliveries :: m.deliveries[id] != Clearing(true)
  }

  lemma {:induction false} NothingReopens(m: Marker, events: seq<Event>)
    requires Runs(m, events) && NoneClearsAnEffect(m)
    requires forall e | e in events :: !e.Expires? && (e.Throws? ==> !e.acted)
    ensures var n := Reached(m, events); n.expiries == m.expiries && n.reopened == m.reopened
    decreases |events|
  {
    if events != [] {
      var e := events[0];
      assert e in events;
      NothingReopens(Next(m, e), events[1..]);
    }
  }

  /** Claimed by one delivery that is being dispatched, and by nobody else. */
  predicate Sole(m: Marker, id: nat) {
    m.present && At(m, id, Dispatching)
  }

  /** That dispatch throws, its clearing is done, and the provider delivers again. */
  function AfterRetry(m: Marker, id: nat, acted: bool, landed: bool, retry: nat): Marker
    requires Sole(m, id) && retry !in m.deliveries
  {
    Next(Next(Next(Next(m, Throws(id, acted)), Clears(id, landed)), Arrives(retry)), Claims(retry))
  }

  predicate ActsTwice(m: Marker) {
    m.effects == 2 && m.expiries == 0
  }

  /** Two effects do occur, with no expiry: the payout is settled, its publish throws, the retry settles again. */
  lemma TwoEffects()
    ensures exists events: seq<Event> :: Runs(FRESH, events) && ActsTwice(Reached(FRESH, events))
  {
    var m := Next(Next(FRESH, Arrives(0)), Claims(0));
    var n := AfterRetry(m, 0, true, true, 1);
    var end := Next(n, Dispatches(1));
    var events := Then(n, Dispatches(1), []);
    var s1 := Next(m, Throws(0, true));
    var s2 := Next(s1, Clears(0, true));
    events := Then(Next(s2, Arrives(1)), Claims(1), events);
    events := Then(s2, Arrives(1), events);
    events := Then(s1, Clears(0, true), events);
    events := Then(m, Throws(0, true), events);
    events := Then(Next(FRESH, Arrives(0)), Claims(0), events);
    events := Then(FRESH, Arrives(0), events);
    assert Reached(FRESH, events) == end;
  }

  lemma Then(m: Marker, e: Event, rest: seq<Event>) returns (all: seq<Event>)
    requires Can(m, e) && Runs(Next(m, e), rest)
    ensures all == [e] + rest && Runs(m, all) && Reached(m, all) == Reached(Next(m, e), rest)
  {
    all := [e] + rest;
    assert all[1..] == rest;
  }

  /** The marker is set although nothing is being dispatched or cleared. */
  ghost predicate Stuck(m: Marker) {
    m.present && forall id | id in m.deliveries :: !m.deliveries[id].Dispatching? && !m.deliveries[id].Clearing?
  }

  /**
   A failed clearing with no other delivery under way leaves the marker stuck; one that landed does not.
   */
  lemma RetryNeedsTheClear(m: Marker, id: nat, acted: bool, landed: bool)
    requires m.present && At(m, id, Clearing(acted))
    requires forall other | other in m.deliveries && other != id ::
               !m.deliveries[other].Dispatching? && !m.deliveries[other].Clearing?
    ensures Stuck(Next(m, Clears(id, landed))) <==> !landed
  {
  }

  /** While it is stuck and does not expire, every further delivery is dropped as a duplicate. */
  lemma {:induction false} StuckDropsEverything(m: Marker, events: seq<Event>)
    requires Stuck(m) && Runs(m, events) && forall e | e in events :: !e.Expires?
    ensures Reached(m, events).effects == m.effects && Stuck(Reached(m, events))
    decreases |events|
  {
    if events != [] {
      assert events[0] in events;
      StuckDropsEverything(Next(m, events[0]), events[1..]);
    }
  }

  // ---------- what decides whether a delivery is dropped ----------

  /** Behind this event the marker is set, if it was not already. */
  predicate SetsMarker(e: Event) {
    e.Claims? || (e.ClaimBreaks? && e.landed)
  }

  predicate RemovesMarker(e: Event) {
    e.Expires? || (e.Clears? && e.landed)
  }

  /** Nothing removed the marker after the last event that set it. */
  ghost predicate MarkerLeft(events: seq<Event>) {
    exists i | 0 <= i < |events| :: SetsMarker(events[i]) && NoneRemoves(events[i + 1..])
  }

  ghost predicate NoneRemoves(events: seq<Event>) {
    forall e | e in events :: !RemovesMarker(e)
  }

  lemma {:induction false} PresentIff(m: Marker, events: seq<Event>)
    requires Runs(m, events)
    ensures Reached(m, events).present <==> MarkerLeft(events) || (m.present && NoneRemoves(events))
    decreases |events|
  {
    if events != [] {
      var e, rest := events[0], events[1..];
      PresentIff(Next(m, e), rest);
      assert events == [e] + rest;
      assert NoneRemoves(events) <==> !RemovesMarker(e) && NoneRemoves(rest);
      LeftByFirst(e, rest);
    }
  }

  lemma LeftByFirst(e: Event, rest: seq<Event>)
    ensures MarkerLeft([e] + rest) <==> MarkerLeft(rest) || (SetsMarker(e) && NoneRemoves(rest))
  {
    var events := [e] + rest;
    assert events[1..] == rest;
    forall i | 0 <= i < |rest| ensures events[i + 1] == rest[i] && events[i + 2..] == rest[i + 1..] {
    }
    if MarkerLeft(events) {
      var i :| 0 <= i < |events| && SetsMarker(events[i]) && NoneRemoves(events[i + 1..]);
      assert i > 0 ==> SetsMarker(rest[i - 1]) && NoneRemoves(rest[i - 1 + 1..]);
    }
    if SetsMarker(e) && NoneRemoves(rest) {
      assert SetsMarker(events[0]) && NoneRemoves(events[0 + 1..]);
    }
    if MarkerLeft(rest) {
      var i :| 0 <= i < |rest| && SetsMarker(rest[i]) && NoneRemoves(rest[i + 1..]);
      assert SetsMarker(events[i + 1]) && NoneRemoves(events[i + 1 + 1..]);
    }
  }

  /**
   On every run: a delivery is dropped as a duplicate exactly when some claim set the marker and neither
   an expiry nor a clearing that landed came after it; otherwise it is dispatched.
   */
  lemma DroppedIff(events: seq<Event>, id: nat)
    requires Runs(FRESH, events) && At(Reached(FRESH, events), id, Claiming)
    ensures var n := Next(Reached(FRESH, events), Claims(id));
      && (At(n, id, Answered(Duplicate)) <==> MarkerLeft(events))
      && (At(n, id, Dispatching) <==> !MarkerLeft(events))
  {
    PresentIff(FRESH, events);
  }

  // ---------- what an answer tells ----------

  predicate By(e: Event, id: nat) {
    !e.Expires? && e.id == id
  }

  ghost predicate ActedBy(events: seq<Event>, id: nat) {
    exists e | e in events :: By(e, id) && Acts(e)
  }

  /** The state of a delivery agrees with what happened to it. */
  ghost predicate Truthful(events: seq<Event>, id: nat, d: Delivery) {
    && (d == Answered(Processed) <==> Dispatches(id) in events)
    && (d == Answered(Unhandled) <==> Ignores(id) in events)
    && (d.Answered? && d.answer.Failed? && d.answer.cleared <==> Clears(id, true) in events)
    && (ActedBy(events, id) <==>
          d == Answered(Processed) || d == Clearing(true) || (d.Answered? && d.answer.Failed? && d.answer.acted))
  }

  ghost predicate AllTruthful(m: Marker, events: seq<Event>) {
    && (forall id | id in m.deliveries :: Truthful(events, id, m.deliveries[id]))
    && (forall e | e in events && !e.Expires? :: e.id in m.deliveries)
  }

  lemma StepTellsTheTruth(m: Marker, past: seq<Event>, e: Event)
    requires AllTruthful(m, past) && Can(m, e)
    ensures AllTruthful(Next(m, e), past + [e])
  {
    var n := Next(m, e);
    forall id | id in n.deliveries ensures Truthful(past + [e], id, n.deliveries[id]) {
      ActedByOneMore(past, e, id);
      assert id !in m.deliveries ==> forall f | f in past :: !By(f, id);
    }
  }

  lemma ActedByOneMore(past: seq<Event>, e: Event, id: nat)
    ensures ActedBy(past + [e], id) <==> ActedBy(past, id) || (By(e, id) && Acts(e))
  {
    assert e in past + [e];
  }

  lemma {:induction false} RunTellsTheTruth(m: Marker, past: seq<Event>, events: seq<Event>)
    requires AllTruthful(m, past) && Runs(m, events)
    ensures AllTruthful(Reached(m, events), past + events)
    decreases |events|
  {
    if events == [] {
      assert past + events == past;
    } else {
      StepTellsTheTruth(m, past, events[0]);
      RunTellsTheTruth(Next(m, events[0]), past + [events[0]], events[1..]);
      assert past + [events[0]] + events[1..] == past + events;
    }
  }

  /**
   On every run, the answer a delivery got says what it did: processed is a dispatch that acted and
   returned, a duplicate did nothing, and a failure tells whether it acted and whether it cleared the marker.
   */
  lemma AnswersTellTheTruth(events: seq<Event>, id: nat)
    requires Runs(FRESH, events) && id in Reached(FRESH, events).deliveries
    requires Reached(FRESH, events).deliveries[id].Answered?
    ensures var answer := Reached(FRESH, events).deliveries[id].answer;
      && (answer == Processed <==> Dispatches(id) in events)
      && (answer == Unhandled <==> Ignores(id) in events)
      && (answer.Failed? && answer.cleared <==> Clears(id, true) in events)
      && (answer == Processed || (answer.Failed? && answer.acted) <==> ActedBy(events, id))
  {
    RunTellsTheTruth(FRESH, [], events);
    assert [] + events == events;
  }
}
