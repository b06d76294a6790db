/**
 How a driver's bid becomes visible to a WhatsApp rider: the 30 s notification window, the
 flush timer, and the batch that the rider last saw and can accept from.
 (apps/api-gateway/src/kafka/consumer.ts, apps/api-gateway/src/whatsapp-flows/bid-state.ts)

 One ride while it stays in bidding, with its chat state and the rider's phone on file.  The
 handlers are cut at their awaits, so that a message, a timer and the rider's own view interleave.
 Times are milliseconds.  `slack` bounds how late a timer fires and how long a handler runs.
 */
module BidFlush {
  import opened Options

  /** `at` is when the bid was put into the list. */
  datatype Bid = Bid(driver: nat, id: nat, at: int)

  /** Where a handler stands; every phase but Idle remembers when the handler started. */
  datatype Handler =
    | Idle
    | Checking(start: int)                  // before reading the window key
    | Unset(start: int)                     // no key was found, it is not yet written
    | Listing(start: int)                   // the key is written, the bids are not yet read
    | Storing(start: int, list: seq<Bid>)   // the bids are read, the batch is not yet stored

  datatype Who = Message | Flush

  datatype State = State(
    now: int, since: int, bids: seq<Bid>, batch: seq<Bid>, openedAt: Option<int>, timer: Option<int>,
    message: Handler, flush: Handler, viewer: Option<seq<Bid>>)

  datatype Step =
    | Tick(ms: nat)
    | Arrive(driver: nat, id: nat)
    | Get(who: Who)
    | Set(who: Who)
    | List(who: Who)
    | Store(who: Who)
    | Fire
    | ViewRead
    | ViewStore

  const DEBOUNCE_MS := 30_000
  const BID_FLUSH_DELAY_MS := 31_000
  /** The window and the delay behind it. */
  const VISIBLE_MS := DEBOUNCE_MS + BID_FLUSH_DELAY_MS

  // ---------- the state machine ----------

  /** `findIndex`: the place of a driver's first bid, or the length if there is none. */
  function FindDriver(bids: seq<Bid>, driver: nat): (i: nat)
    ensures i <= |bids| && (i < |bids| ==> bids[i].driver == driver)
    ensures forall j | 0 <= j < i :: bids[j].driver != driver
  {
    if bids == [] || bids[0].driver == driver then 0
    else
      var rest := FindDriver(bids[1..], driver);
      assert forall j | 0 < j < rest + 1 :: bids[j] == bids[1..][j - 1];
      rest + 1
  }

  /** `addBid`: a driver's new bid takes the place of the first old one, or goes to the end. */
  function AddBid(bids: seq<Bid>, bid: Bid): (r: seq<Bid>)
    ensures (forall b | b in bids :: b.driver != bid.driver) ==> r == bids + [bid]
    ensures forall i | 0 <= i < |bids| && bids[i].driver == bid.driver
                       && (forall j | 0 <= j < i :: bids[j].driver != bid.driver) :: r == bids[i := bid]
  {
    var existing := FindDriver(bids, bid.driver);
    if existing < |bids| then bids[existing := bid] else bids + [bid]
  }

  function HandlerOf(s: State, who: Who): Handler {
    if who.Message? then s.message else s.flush
  }

  function With(s: State, who: Who, h: Handler): State {
    if who.Message? then s.(message := h) else s.(flush := h)
  }

  /** The key is in Redis for 30 s after it was last written. */
  predicate Open(s: State) {
    s.openedAt.Some? && s.now < s.openedAt.value + DEBOUNCE_MS
  }

  predicate InTime(h: Handler, now: int, slack: nat) {
    h.Idle? || now <= h.start + slack
  }

  predicate Enabled(s: State, step: Step, slack: nat) {
    match step
    case Tick(ms) =>
      && InTime(s.message, s.now + ms, slack) && InTime(s.flush, s.now + ms, slack)
      && (s.timer.Some? ==> s.now + ms <= s.timer.value + slack)
    case Arrive(_, _) => s.message.Idle?
    case Get(who) => HandlerOf(s, who).Checking?
    case Set(who) => HandlerOf(s, who).Unset?
    case List(who) => HandlerOf(s, who).Listing?
    case Store(who) => HandlerOf(s, who).Storing?
    case Fire => s.timer.Some? && s.timer.value <= s.now
    case ViewRead => s.viewer.None?
    case ViewStore => s.viewer.Some?
  }

  /** `scheduleBidFlush`: one timer per ride. */
  function Scheduled(s: State): State {
    if s.timer.Some? then s else s.(timer := Some(s.now + BID_FLUSH_DELAY_MS))
  }

  function Apply(s: State, step: Step, slack: nat): State
    requires Enabled(s, step, slack)
  {
    match step
    case Tick(ms) => s.(now := s.now + ms)
    case Arrive(driver, id) =>
      s.(bids := AddBid(s.bids, Bid(driver, id, s.now)), message := Checking(s.now))
    case Get(who) =>
      if Open(s) then Scheduled(With(s, who, Idle)) else With(s, who, Unset(HandlerOf(s, who).start))
    case Set(who) => With(s, who, Listing(HandlerOf(s, who).start)).(openedAt := Some(s.now))
    case List(who) =>
      if who.Flush? && s.bids == [] then With(s, who, Idle)
      else With(s, who, Storing(HandlerOf(s, who).start, s.bids))
    case Store(who) => With(s, who, Idle).(batch := HandlerOf(s, who).list)
    case Fire => s.(timer := None, flush := Checking(s.now))
    case ViewRead => if s.bids == [] then s else s.(viewer := Some(s.bids))
    case ViewStore => s.(viewer := None, batch := s.viewer.value)
  }

  /** The rider's view stores the list it read; in orderly runs no bid came in between. */
  predicate Orderly(s: State, step: Step) {
    step.ViewStore? && s.viewer.Some? ==> forall b | b in s.bids :: b in s.viewer.value
  }

  predicate Legal(s: State, steps: seq<Step>, slack: nat)
    decreases |steps|
  {
    steps == [] ||
    (Enabled(s, steps[0], slack) && Legal(Apply(s, steps[0], slack), steps[1..], slack))
  }

  function Run(s: State, steps: seq<Step>, slack: nat): State
    requires Legal(s, steps, slack)
    decreases |steps|
  {
    if steps == [] then s else Run(Apply(s, steps[0], slack), steps[1..], slack)
  }

  predicate OrderlyRun(s: State, steps: seq<Step>, slack: nat)
    requires Legal(s, steps, slack)
    decreases |steps|
  {
    steps == [] || (Orderly(s, steps[0]) && OrderlyRun(Apply(s, steps[0], slack), steps[1..], slack))
  }

  /** Bidding begins without bids; an old timer or window may be left over from before. */
  predicate Start(s: State, slack: nat) {
    && s.bids == [] && s.message.Idle? && s.flush.Idle? && s.viewer.None? && s.since == s.now
    && (s.openedAt.Some? ==> s.openedAt.value <= s.now)
    && (s.timer.Some? ==> s.now - slack <= s.timer.value <= s.now + BID_FLUSH_DELAY_MS)
  }

  // ---------- the invariant ----------

  /** When the window was last opened, or bidding began if that is later. */
  function Anchor(s: State): int {
    if s.openedAt.Some? && s.openedAt.value > s.since then s.openedAt.value else s.since
  }

  /** The handler can no longer be turned away and will store this bid. */
  predicate Carries(h: Handler, b: Bid, from: int, slack: nat) {
    && !h.Idle? && !h.Checking? && h.start < from + VISIBLE_MS + 2 * slack
    && (h.Storing? ==> b in h.list)
  }

  /** The handler will store every bid unless the window is open. */
  predicate Tries(h: Handler, from: int, slack: nat) {
    h.Checking? && h.start < from + VISIBLE_MS + slack
  }

  /** From when on the bid waits: when it came, or when a view last stored a list that missed a bid. */
  function From(b: Bid, upset: int): int {
    if b.at > upset then b.at else upset
  }

  predicate Covered(s: State, b: Bid, from: int, slack: nat) {
    || Carries(s.message, b, from, slack) || Carries(s.flush, b, from, slack)
    || (Anchor(s) <= from && (s.timer.Some? || Tries(s.message, from, slack) || Tries(s.flush, from, slack)))
  }

  predicate HandlerTimes(h: Handler, s: State, slack: nat) {
    h.Idle? || h.start <= s.now <= h.start + slack
  }

  predicate Times(s: State, slack: nat) {
    && s.since <= s.now
    && HandlerTimes(s.message, s, slack) && HandlerTimes(s.flush, s, slack)
    && (s.openedAt.Some? ==> s.openedAt.value <= s.now)
    && (s.timer.Some? ==> s.now - slack <= s.timer.value < Anchor(s) + VISIBLE_MS)
    && (s.timer.Some? && !s.flush.Idle? ==> s.flush.start + BID_FLUSH_DELAY_MS <= s.timer.value)
    && (s.flush.Listing? || s.flush.Storing? ==> s.openedAt.Some? && s.flush.start <= s.openedAt.value)
    && (forall b | b in s.bids :: s.since <= b.at <= s.now)
  }

  /** A list that was read can only miss bids that came later, and those are waiting for a timer. */
  predicate Lists(s: State) {
    && (s.message.Storing? ==> forall b | b in s.bids :: b in s.message.list)
    && (s.flush.Storing? ==> forall b | b in s.bids && b !in s.flush.list ::
          && (s.message.Idle? || s.message.Checking?)
          && Anchor(s) <= b.at && s.flush.start <= b.at
          && (s.timer.Some? || s.message.Checking?))
  }

  predicate AllCovered(s: State, upset: int, slack: nat) {
    forall b | b in s.bids && b !in s.batch :: Covered(s, b, From(b, upset), slack)
  }

  /** The invariant while the last list to miss a bid was stored at `upset`. */
  predicate InvSince(s: State, upset: int, slack: nat) {
    Times(s, slack) && Lists(s) && AllCovered(s, upset, slack)
  }

  /** The invariant while no such list was stored. */
  predicate Inv(s: State, slack: nat) {
    InvSince(s, s.since, slack)
  }

  lemma FireNeedsIdle(s: State, slack: nat)
    requires slack < DEBOUNCE_MS && Times(s, slack) && Enabled(s, Fire, slack)
    ensures s.flush.Idle?
  {
  }

  lemma StepKeepsTimes(s: State, step: Step, slack: nat)
    requires slack < DEBOUNCE_MS && Times(s, slack) && Enabled(s, step, slack)
    ensures Times(Apply(s, step, slack), slack)
  {
    match step
    case Get(who) => GetKeepsTimes(s, who, slack);
    case Set(who) => SetKeepsTimes(s, who, slack);
    case Arrive(driver, id) => ArriveKeepsTimes(s, driver, id, slack);
    case Fire => FireNeedsIdle(s, slack);
    case List(who) => HandlerKeepsTimes(s, who, slack);
    case Store(who) => HandlerKeepsTimes(s, who, slack);
    case _ =>
  }

  lemma GetKeepsTimes(s: State, who: Who, slack: nat)
    requires slack < DEBOUNCE_MS && Times(s, slack) && Enabled(s, Get(who), slack)
    ensures Times(Apply(s, Get(who), slack), slack)
  {
  }

  lemma SetKeepsTimes(s: State, who: Who, slack: nat)
    requires slack < DEBOUNCE_MS && Times(s, slack) && Enabled(s, Set(who), slack)
    ensures Times(Apply(s, Set(who), slack), slack)
  {
  }

  lemma ArriveKeepsTimes(s: State, driver: nat, id: nat, slack: nat)
    requires slack < DEBOUNCE_MS && Times(s, slack) && Enabled(s, Arrive(driver, id), slack)
    ensures Times(Apply(s, Arrive(driver, id), slack), slack)
  {
  }

  lemma HandlerKeepsTimes(s: State, who: Who, slack: nat)
    requires slack < DEBOUNCE_MS && Times(s, slack)
    ensures Enabled(s, List(who), slack) ==> Times(Apply(s, List(who), slack), slack)
    ensures Enabled(s, Store(who), slack) ==> Times(Apply(s, Store(who), slack), slack)
  {
  }

  /** However the batch is overwritten, a list that was read misses only bids that wait for a timer. */
  lemma StepKeepsLists(s: State, step: Step, slack: nat)
    requires slack < DEBOUNCE_MS && Times(s, slack) && Lists(s) && Enabled(s, step, slack)
    ensures Lists(Apply(s, step, slack))
  {
    match step
    case Get(who) => GetKeepsLists(s, who, slack);
    case Arrive(driver, id) => ArriveKeepsLists(s, driver, id, slack);
    case _ =>
      if step.Fire? {
        FireNeedsIdle(s, slack);
      }
  }

  lemma ArriveKeepsLists(s: State, driver: nat, id: nat, slack: nat)
    requires slack < DEBOUNCE_MS && Times(s, slack) && Lists(s) && Enabled(s, Arrive(driver, id), slack)
    ensures Lists(Apply(s, Arrive(driver, id), slack))
  {
  }

  /** While the flush holds a list its window is open, so that no message passes. */
  lemma GetKeepsLists(s: State, who: Who, slack: nat)
    requires slack < DEBOUNCE_MS && Times(s, slack) && Lists(s) && Enabled(s, Get(who), slack)
    ensures Lists(Apply(s, Get(who), slack))
  {
    hide InTime;
  }

  /** The view stores a list that misses a bid while nothing is pending or at work that would bring it back. */
  predicate Hides(s: State, step: Step) {
    step.ViewStore? && s.viewer.Some? && !Orderly(s, step) && s.timer.None? && Quiet(s)
  }

  /** When a list that missed a bid was last stored, behind this step. */
  function UpsetAfter(s: State, upset: int, step: Step): int {
    if Orderly(s, step) then upset else s.now
  }

  lemma StepKeepsCovered(s: State, upset: int, step: Step, slack: nat)
    requires slack < DEBOUNCE_MS && InvSince(s, upset, slack) && Enabled(s, step, slack) && !Hides(s, step)
    ensures AllCovered(Apply(s, step, slack), UpsetAfter(s, upset, step), slack)
  {
    match step
    case Arrive(driver, id) => ArriveKeepsCovered(s, upset, driver, id, slack);
    case Get(who) =>
      if Open(s) {
        BlockedKeepsCovered(s, upset, who, slack);
      } else {
        PassedKeepsCovered(s, upset, who, slack);
      }
    case Set(who) => SetKeepsCovered(s, upset, who, slack);
    case Store(who) => StoreKeepsCovered(s, upset, who, slack);
    case Fire => FireNeedsIdle(s, slack);
    case ViewStore => ViewKeepsCovered(s, upset, slack);
    case _ =>
  }

  /** Whatever the view stores, a timer or a handler at work takes every bid from there on. */
  lemma ViewKeepsCovered(s: State, upset: int, slack: nat)
    requires Times(s, slack) && Lists(s) && s.viewer.Some? && !Hides(s, ViewStore)
    ensures AllCovered(Apply(s, ViewStore, slack), UpsetAfter(s, upset, ViewStore), slack)
  {
    var t := Apply(s, ViewStore, slack);
    forall b | b in t.bids && b !in t.batch
      ensures Covered(t, b, From(b, s.now), slack) && !Orderly(s, ViewStore)
    {
      assert b in s.bids && b !in s.viewer.value && b.at <= s.now;
    }
  }

  lemma ArriveKeepsCovered(s: State, upset: int, driver: nat, id: nat, slack: nat)
    requires slack < DEBOUNCE_MS && InvSince(s, upset, slack) && Enabled(s, Arrive(driver, id), slack)
    ensures AllCovered(Apply(s, Arrive(driver, id), slack), upset, slack)
  {
    hide Lists;
  }

  lemma BlockedKeepsCovered(s: State, upset: int, who: Who, slack: nat)
    requires InvSince(s, upset, slack) && Enabled(s, Get(who), slack) && Open(s)
    ensures AllCovered(Apply(s, Get(who), slack), upset, slack)
  {
    hide Lists, Times;
    var t := Apply(s, Get(who), slack);
    forall b | b in t.bids && b !in t.batch
      ensures Covered(t, b, From(b, upset), slack)
    {
      assert Covered(s, b, From(b, upset), slack);
    }
  }

  lemma PassedKeepsCovered(s: State, upset: int, who: Who, slack: nat)
    requires InvSince(s, upset, slack) && Enabled(s, Get(who), slack) && !Open(s)
    ensures AllCovered(Apply(s, Get(who), slack), upset, slack)
  {
    hide Lists, Times;
    var t := Apply(s, Get(who), slack);
    forall b | b in t.bids && b !in t.batch
      ensures Covered(t, b, From(b, upset), slack)
    {
      assert Covered(s, b, From(b, upset), slack);
    }
  }

  lemma SetKeepsCovered(s: State, upset: int, who: Who, slack: nat)
    requires slack < DEBOUNCE_MS && InvSince(s, upset, slack) && Enabled(s, Set(who), slack)
    ensures AllCovered(Apply(s, Set(who), slack), upset, slack)
  {
    hide Lists;
  }

  lemma StoreKeepsCovered(s: State, upset: int, who: Who, slack: nat)
    requires slack < DEBOUNCE_MS && InvSince(s, upset, slack) && Enabled(s, Store(who), slack)
    ensures AllCovered(Apply(s, Store(who), slack), upset, slack)
  {
  }

  /** A step that hides no bid keeps the invariant; bids that a view takes out of the batch wait from then on. */
  lemma StepKeepsInv(s: State, upset: int, step: Step, slack: nat)
    requires slack < DEBOUNCE_MS && InvSince(s, upset, slack) && Enabled(s, step, slack) && !Hides(s, step)
    ensures InvSince(Apply(s, step, slack), UpsetAfter(s, upset, step), slack)
  {
    hide Times, Lists, AllCovered, Enabled, Apply, Hides, UpsetAfter;
    StepKeepsTimes(s, step, slack);
    StepKeepsLists(s, step, slack);
    StepKeepsCovered(s, upset, step, slack);
  }

  /** When the run last stored a list that missed a bid. */
  function UpsetBy(s: State, upset: int, steps: seq<Step>, slack: nat): int
    requires Legal(s, steps, slack)
    decreases |steps|
  {
    if steps == [] then upset
    else UpsetBy(Apply(s, steps[0], slack), UpsetAfter(s, upset, steps[0]), steps[1..], slack)
  }

  predicate NeverHides(s: State, steps: seq<Step>, slack: nat)
    requires Legal(s, steps, slack)
    decreases |steps|
  {
    steps == [] || (!Hides(s, steps[0]) && NeverHides(Apply(s, steps[0], slack), steps[1..], slack))
  }

  lemma {:induction false} RunKeepsInv(s: State, upset: int, steps: seq<Step>, slack: nat)
    requires slack < DEBOUNCE_MS && InvSince(s, upset, slack) && Legal(s, steps, slack) && NeverHides(s, steps, slack)
    ensures InvSince(Run(s, steps, slack), UpsetBy(s, upset, steps, slack), slack)
    decreases |steps|
  {
    hide InvSince, Hides, UpsetAfter;
    if steps != [] {
      StepKeepsInv(s, upset, steps[0], slack);
      RunKeepsInv(Apply(s, steps[0], slack), UpsetAfter(s, upset, steps[0]), steps[1..], slack);
    }
  }

  /** Orderly runs never hide a bid and store no list that misses one. */
  lemma {:induction false} OrderlyNeverHides(s: State, upset: int, steps: seq<Step>, slack: nat)
    requires Legal(s, steps, slack) && OrderlyRun(s, steps, slack)
    ensures NeverHides(s, steps, slack) && UpsetBy(s, upset, steps, slack) == upset
    ensures Run(s, steps, slack).since == s.since
    decreases |steps|
  {
    if steps != [] {
      SinceStays(s, steps[0], slack);
      hide Apply, Enabled, Quiet;
      OrderlyNeverHides(Apply(s, steps[0], slack), upset, steps[1..], slack);
    }
  }

  lemma SinceStays(s: State, step: Step, slack: nat)
    requires Enabled(s, step, slack)
    ensures Apply(s, step, slack).since == s.since
  {
  }

  // ---------- what it means for drivers and riders ----------

  /** How long a bid may be missing from the batch. */
  predicate ShowsBy(s: State, upset: int, slack: nat) {
    forall b | b in s.bids && b !in s.batch ::
      (s.timer.Some? || !Quiet(s)) && s.now < From(b, upset) + 61_000 + 3 * slack
  }

  /**
   On every run whose views hide no bid, orderly or not: a listed bid that is not in the stored batch has a
   timer pending or a handler at work, and it came, or a view last stored a list that missed a bid, less than
   the window plus the flush delay plus three times the slack ago.
   */
  lemma BackInTime(s: State, steps: seq<Step>, slack: nat)
    requires slack < 30_000
    requires Start(s, slack) && Legal(s, steps, slack) && NeverHides(s, steps, slack)
    ensures ShowsBy(Run(s, steps, slack), UpsetBy(s, s.since, steps, slack), slack)
  {
    RunKeepsInv(s, s.since, steps, slack);
    InvShows(Run(s, steps, slack), UpsetBy(s, s.since, steps, slack), slack);
  }

  lemma InvShows(s: State, upset: int, slack: nat)
    requires slack < 30_000 && InvSince(s, upset, slack)
    ensures ShowsBy(s, upset, slack)
  {
    hide Lists;
  }

  /**
   On orderly runs, at every moment a listed bid that is not in the stored batch has a timer pending or a
   handler at work, and it is younger than the window plus the flush delay, plus three times the slack.
   */
  lemma VisibleInTime(s: State, steps: seq<Step>, slack: nat)
    requires slack < 30_000
    requires Start(s, slack) && Legal(s, steps, slack) && OrderlyRun(s, steps, slack)
    ensures var end := Run(s, steps, slack);
      forall b | b in end.bids && b !in end.batch ::
        && (end.timer.Some? || !end.message.Idle? || !end.flush.Idle?)
        && end.now < b.at + 61_000 + 3 * slack
  {
    OrderlyNeverHides(s, s.since, steps, slack);
    RunKeepsInv(s, s.since, steps, slack);
    InvShows(Run(s, steps, slack), s.since, slack);
  }

  // ---------- runs on which the rider's view interferes ----------

  /** Every listed bid that is not in the batch has a timer pending or a handler at work. */
  predicate Busy(s: State) {
    forall b | b in s.bids && b !in s.batch :: s.timer.Some? || !Quiet(s)
  }

  predicate Watched(s: State, slack: nat) {
    Times(s, slack) && Lists(s) && Busy(s)
  }

  /** One step leaves a bid unwatched exactly when it hides one. */
  lemma StepKeepsWatchIff(s: State, step: Step, slack: nat)
    requires slack < DEBOUNCE_MS && Watched(s, slack) && Enabled(s, step, slack)
    ensures Watched(Apply(s, step, slack), slack) <==> !Hides(s, step)
    ensures Hides(s, step) ==> !Busy(Apply(s, step, slack))
  {
    StepKeepsTimes(s, step, slack);
    StepKeepsLists(s, step, slack);
    BusyIff(s, step, slack);
    hide Times, Lists, Busy, Hides, Enabled, Apply;
  }

  lemma BusyIff(s: State, step: Step, slack: nat)
    requires slack < DEBOUNCE_MS && Watched(s, slack) && Enabled(s, step, slack)
    ensures Busy(Apply(s, step, slack)) <==> !Hides(s, step)
  {
    hide Times;
    if step.Store? {
      StoreStaysBusy(s, step.who, slack);
    }
  }

  /** What a flush stores misses only bids that wait for the timer or are being handled. */
  lemma StoreStaysBusy(s: State, who: Who, slack: nat)
    requires Watched(s, slack) && Enabled(s, Store(who), slack)
    ensures Busy(Apply(s, Store(who), slack))
  {
    hide Times;
    var t := Apply(s, Store(who), slack);
    forall b | b in t.bids && b !in t.batch
      ensures t.timer.Some? || !Quiet(t)
    {
      assert b in s.bids && b !in HandlerOf(s, who).list;
    }
  }

  /** At every moment of the run. */
  predicate AlwaysBusy(s: State, steps: seq<Step>, slack: nat)
    requires Legal(s, steps, slack)
    decreases |steps|
  {
    Busy(s) && (steps == [] || AlwaysBusy(Apply(s, steps[0], slack), steps[1..], slack))
  }

  lemma {:induction false} WatchedOnRuns(s: State, steps: seq<Step>, slack: nat)
    requires slack < DEBOUNCE_MS && Watched(s, slack) && Legal(s, steps, slack)
    ensures AlwaysBusy(s, steps, slack) <==> NeverHides(s, steps, slack)
    decreases |steps|
  {
    if steps != [] {
      StepKeepsWatchIff(s, steps[0], slack);
      hide Hides, Times, Lists, Busy, Apply, Enabled;
      if !Hides(s, steps[0]) {
        WatchedOnRuns(Apply(s, steps[0], slack), steps[1..], slack);
      } else {
        BusyFirst(Apply(s, steps[0], slack), steps[1..], slack);
      }
    }
  }

  lemma BusyFirst(s: State, steps: seq<Step>, slack: nat)
    requires Legal(s, steps, slack)
    ensures AlwaysBusy(s, steps, slack) ==> Busy(s)
  {
  }

  /**
   On every run, orderly or not: a bid that is not in the batch always has a timer pending or a handler
   at work if and only if no store of the rider's view hid one.
   */
  lemma WatchedIff(s: State, steps: seq<Step>, slack: nat)
    requires slack < 30_000 && Start(s, slack) && Legal(s, steps, slack)
    ensures AlwaysBusy(s, steps, slack) <==> NeverHides(s, steps, slack)
  {
    WatchedOnRuns(s, steps, slack);
  }

  /** A run of two stretches. */
  lemma {:induction false} RunAppend(s: State, a: seq<Step>, b: seq<Step>, slack: nat)
    requires Legal(s, a, slack) && Legal(Run(s, a, slack), b, slack)
    ensures Legal(s, a + b, slack)
    ensures Run(s, a + b, slack) == Run(Run(s, a, slack), b, slack)
    ensures OrderlyRun(s, a, slack) && OrderlyRun(Run(s, a, slack), b, slack) ==> OrderlyRun(s, a + b, slack)
    decreases |a|
  {
    if a == [] {
      assert a + b == b;
    } else {
      assert (a + b)[1..] == a[1..] + b;
      RunAppend(Apply(s, a[0], slack), a[1..], b, slack);
    }
  }

  // ---------- a whole handler at once ----------

  predicate Quiet(s: State) {
    s.message.Idle? && s.flush.Idle?
  }

  /** The window is open: leave it to the timer.  It is closed: open it and store the batch. */
  function Notified(s: State): State {
    if Open(s) then Scheduled(s) else s.(openedAt := Some(s.now), batch := s.bids)
  }

  function Offered(s: State, driver: nat, id: nat): State {
    Notified(s.(bids := AddBid(s.bids, Bid(driver, id, s.now))))
  }

  function Flushed(s: State): State {
    if s.bids == [] && !Open(s) then s.(timer := None, openedAt := Some(s.now))
    else Notified(s.(timer := None))
  }

  function NotifySteps(s: State, who: Who): seq<Step> {
    if Open(s) then [Get(who)]
    else if who.Flush? && s.bids == [] then [Get(who), Set(who), List(who)]
    else [Get(who), Set(who), List(who), Store(who)]
  }

  /** A message handled without interruption is a run of the state machine. */
  lemma OfferIsARun(s: State, driver: nat, id: nat, slack: nat)
    requires s.message.Idle?
    ensures var steps := [Arrive(driver, id)] + NotifySteps(s, Message);
      Legal(s, steps, slack) && OrderlyRun(s, steps, slack) && Run(s, steps, slack) == Offered(s, driver, id)
  {
    var a := Apply(s, Arrive(driver, id), slack);
    var steps := NotifySteps(s, Message);
    assert ([Arrive(driver, id)] + steps)[1..] == steps;
    NotifyIsARun(a, Message, slack);
  }

  /** So is a timer that fires on time and is handled without interruption. */
  lemma FlushIsARun(s: State, slack: nat)
    requires Quiet(s) && s.timer.Some? && s.timer.value <= s.now
    ensures var steps := [Fire] + NotifySteps(s, Flush);
      Legal(s, steps, slack) && OrderlyRun(s, steps, slack) && Run(s, steps, slack) == Flushed(s)
  {
    var steps := NotifySteps(s, Flush);
    assert ([Fire] + steps)[1..] == steps;
    NotifyIsARun(Apply(s, Fire, slack), Flush, slack);
  }

  lemma NotifyIsARun(s: State, who: Who, slack: nat)
    requires HandlerOf(s, who) == Checking(s.now)
    requires who.Message? ==> s.bids != []
    ensures var steps := NotifySteps(s, who); Legal(s, steps, slack) && OrderlyRun(s, steps, slack)
    ensures var end := With(s, who, Idle);
      Run(s, NotifySteps(s, who), slack)
      == if !Open(s) && s.bids == [] then end.(openedAt := Some(s.now)) else Notified(end)
  {
    var s1 := Apply(s, Get(who), slack);
    if Open(s) {
      RunCons(s, Get(who), [], slack);
    } else {
      var s2 := Apply(s1, Set(who), slack);
      var s3 := Apply(s2, List(who), slack);
      var last := if who.Flush? && s.bids == [] then [] else [Store(who)];
      if last != [] {
        RunCons(s3, Store(who), [], slack);
      }
      RunCons(s2, List(who), last, slack);
      RunCons(s1, Set(who), [List(who)] + last, slack);
      RunCons(s, Get(who), [Set(who)] + ([List(who)] + last), slack);
      assert NotifySteps(s, who) == [Get(who)] + ([Set(who)] + ([List(who)] + last));
    }
  }

  lemma RunCons(s: State, step: Step, rest: seq<Step>, slack: nat)
    requires Enabled(s, step, slack) && Legal(Apply(s, step, slack), rest, slack)
    ensures Legal(s, [step] + rest, slack)
    ensures Run(s, [step] + rest, slack) == Run(Apply(s, step, slack), rest, slack)
    ensures OrderlyRun(s, [step] + rest, slack)
      == (Orderly(s, step) && OrderlyRun(Apply(s, step, slack), rest, slack))
    ensures [step] + [] == [step]
  {
    assert ([step] + rest)[1..] == rest;
  }

  // ---------- how good the bounds are ----------

  /** An empty ride at time zero. */
  const FRESH := State(0, 0, [], [], None, None, Idle, Idle, None)

  function Waited(s: State, ms: nat): State {
    s.(now := s.now + ms)
  }

  /** Some orderly run leads from s to t. */
  ghost predicate Reaches(s: State, t: State, slack: nat) {
    exists steps: seq<Step> :: LeadsTo(s, steps, t, slack)
  }

  predicate LeadsTo(s: State, steps: seq<Step>, t: State, slack: nat) {
    Legal(s, steps, slack) && OrderlyRun(s, steps, slack) && Run(s, steps, slack) == t
  }

  lemma ReachesOn(s: State, t: State, steps: seq<Step>, u: State, slack: nat)
    requires Reaches(s, t, slack) && LeadsTo(t, steps, u, slack)
    ensures Reaches(s, u, slack)
  {
    var before :| LeadsTo(s, before, t, slack);
    RunAppend(s, before, steps, slack);
    assert LeadsTo(s, before + steps, u, slack);
  }

  lemma ReachesStep(s: State, t: State, step: Step, slack: nat)
    requires Reaches(s, t, slack) && Enabled(t, step, slack) && Orderly(t, step)
    ensures Reaches(s, Apply(t, step, slack), slack)
  {
    var u := Apply(t, step, slack);
    assert [step][1..] == [] && Legal(u, [], slack) && OrderlyRun(u, [], slack) && Run(u, [], slack) == u;
    ReachesOn(s, t, [step], u, slack);
  }

  lemma ReachesOffer(s: State, t: State, driver: nat, id: nat, slack: nat)
    requires Reaches(s, t, slack) && t.message.Idle?
    ensures Reaches(s, Offered(t, driver, id), slack)
  {
    OfferIsARun(t, driver, id, slack);
    ReachesOn(s, t, [Arrive(driver, id)] + NotifySteps(t, Message), Offered(t, driver, id), slack);
  }

  lemma ReachesFlush(s: State, t: State, slack: nat)
    requires Reaches(s, t, slack) && Quiet(t) && t.timer.Some? && t.timer.value <= t.now
    ensures Reaches(s, Flushed(t), slack)
  {
    FlushIsARun(t, slack);
    ReachesOn(s, t, [Fire] + NotifySteps(t, Flush), Flushed(t), slack);
  }

  lemma ReachesItself(s: State, slack: nat)
    ensures Reaches(s, s, slack)
  {
    assert LeadsTo(s, [], s, slack);
  }

  lemma {:induction false} ReachesOnward(s: State, t: State, u: State, slack: nat)
    requires Reaches(s, t, slack) && Reaches(t, u, slack)
    ensures Reaches(s, u, slack)
  {
    var steps :| LeadsTo(t, steps, u, slack);
    ReachesOn(s, t, steps, u, slack);
  }

  // ---------- time goes on ----------

  function Rank(h: Handler): nat {
    match h
    case Idle => 0
    case Storing(_, _) => 1
    case Listing(_) => 2
    case Unset(_) => 3
    case Checking(_) => 4
  }

  function StepOf(h: Handler, who: Who): Step
    requires !h.Idle?
  {
    match h
    case Checking(_) => Get(who)
    case Unset(_) => Set(who)
    case Listing(_) => List(who)
    case Storing(_, _) => Store(who)
  }

  function Other(who: Who): Who {
    if who.Message? then Flush else Message
  }

  /** A handler at work can finish at once; at most it starts the timer. */
  lemma {:induction false} HandlerEnds(s: State, t: State, who: Who, slack: nat) returns (u: State)
    requires Reaches(s, t, slack)
    ensures Reaches(s, u, slack) && HandlerOf(u, who).Idle? && u.now == t.now
    ensures HandlerOf(u, Other(who)) == HandlerOf(t, Other(who))
    ensures u.timer == t.timer || u.timer == Some(t.now + BID_FLUSH_DELAY_MS)
    decreases Rank(HandlerOf(t, who))
  {
    u := t;
    if !HandlerOf(t, who).Idle? {
      var step := StepOf(HandlerOf(t, who), who);
      ReachesStep(s, t, step, slack);
      u := HandlerEnds(s, Apply(t, step, slack), who, slack);
    }
  }

  /** From wherever the invariant holds, an orderly run lets any amount of time pass: no bound is met by a stuck clock. */
  lemma {:induction false} TimeCanPass(s: State, slack: nat, ms: nat)
    requires slack < DEBOUNCE_MS && Inv(s, slack)
    ensures exists t :: Reaches(s, t, slack) && t.now == s.now + ms
    decreases ms
  {
    hide InvSince, Enabled, Apply, Orderly;
    ReachesItself(s, slack);
    if ms > 0 {
      var t := OneTick(s, slack);
      assert Inv(t, slack) by {
        hide InvSince;
        var steps :| LeadsTo(s, steps, t, slack);
        OrderlyNeverHides(s, s.since, steps, slack);
        RunKeepsInv(s, s.since, steps, slack);
      }
      TimeCanPass(t, slack, ms - 1);
      var u :| Reaches(t, u, slack) && u.now == t.now + (ms - 1);
      ReachesOnward(s, t, u, slack);
    }
  }

  /** The handlers finish, a timer that is due fires and is handled, and the clock moves. */
  lemma OneTick(s: State, slack: nat) returns (t: State)
    ensures Reaches(s, t, slack) && t.now == s.now + 1
  {
    hide Reaches;
    ReachesItself(s, slack);
    t := HandlerEnds(s, s, Message, slack);
    t := HandlerEnds(s, t, Flush, slack);
    if t.timer.Some? && t.timer.value <= t.now {
      ReachesStep(s, t, Fire, slack);
      t := HandlerEnds(s, Apply(t, Fire, slack), Flush, slack);
    }
    ReachesStep(s, t, Tick(1), slack);
    t := Apply(t, Tick(1), slack);
  }

  /** A bid that is listed but not in the batch, this long after it came. */
  predicate Unseen(s: State, b: Bid, ms: int) {
    b in s.bids && b !in s.batch && s.now == b.at + ms
  }

  const TIGHT1 := FRESH.(bids := [Bid(1, 1, 0)], batch := [Bid(1, 1, 0)], openedAt := Some(0))
  const TIGHT2 := TIGHT1.(now := 29_999, bids := TIGHT1.bids + [Bid(2, 2, 29_999)], timer := Some(60_999))
  const TIGHT3 := TIGHT2.(now := 31_000, bids := TIGHT2.bids + [Bid(3, 3, 31_000)],
                          batch := TIGHT2.bids + [Bid(3, 3, 31_000)], openedAt := Some(31_000))
  const TIGHT4 := TIGHT3.(bids := TIGHT3.bids + [Bid(4, 4, 31_000)])
  const TIGHT5 := TIGHT4.(now := 60_999, timer := Some(91_999))

  lemma OffersOfTight()
    ensures Offered(FRESH, 1, 1) == TIGHT1
    ensures Offered(Waited(TIGHT1, 29_999), 2, 2) == TIGHT2
  {
    hide AddBid;
  }

  lemma MoreOffersOfTight()
    ensures Offered(Waited(TIGHT2, 1_001), 3, 3) == TIGHT3
    ensures Offered(TIGHT3, 4, 4) == TIGHT4
    ensures Flushed(Waited(TIGHT4, 29_999)) == TIGHT5
  {
    hide AddBid;
  }

  lemma ReachesTick(s: State, t: State, ms: nat, slack: nat)
    requires Reaches(s, t, slack) && Quiet(t) && (t.timer.Some? ==> t.now + ms <= t.timer.value + slack)
    ensures Reaches(s, Waited(t, ms), slack)
  {
    ReachesStep(s, t, Tick(ms), slack);
  }

  /** With no slack at all a bid can wait one millisecond less than the 61 seconds. */
  lemma BoundIsTight()
    ensures Start(FRESH, 0)
    ensures exists s, b :: Reaches(FRESH, s, 0) && Unseen(s, b, 60_999)
  {
    hide Reaches, Offered, Flushed;
    OffersOfTight();
    MoreOffersOfTight();
    ReachesItself(FRESH, 0);
    ReachesOffer(FRESH, FRESH, 1, 1, 0);
    ReachesTick(FRESH, TIGHT1, 29_999, 0);
    ReachesOffer(FRESH, Waited(TIGHT1, 29_999), 2, 2, 0);
    ReachesTick(FRESH, TIGHT2, 1_001, 0);
    ReachesOffer(FRESH, Waited(TIGHT2, 1_001), 3, 3, 0);
    ReachesOffer(FRESH, TIGHT3, 4, 4, 0);
    ReachesTick(FRESH, TIGHT4, 29_999, 0);
    ReachesFlush(FRESH, Waited(TIGHT4, 29_999), 0);
    ReachesTick(FRESH, TIGHT5, 31_000, 0);
    assert Unseen(Waited(TIGHT5, 31_000), Bid(4, 4, 31_000), 60_999);
  }

  /** Nothing is at work and nothing is pending that could still show the bid. */
  predicate Forgotten(s: State, b: Bid) {
    b in s.bids && b !in s.batch && Quiet(s) && s.timer.None? && s.viewer.None?
  }

  /**
   Below 30 seconds of slack no orderly run forgets a bid.  From 30 seconds on, one does: a flush
   that outlives its own window stores its old list over the batch of the message that came after it.
   */
  lemma ForgetsIffSlow(slack: nat)
    ensures (exists s, b :: Reaches(FRESH, s, slack) && Forgotten(s, b)) <==> slack >= 30_000
  {
    if slack >= 30_000 {
      SlowFlushForgets(slack);
    } else {
      forall s, b | Reaches(FRESH, s, slack)
        ensures !Forgotten(s, b)
      {
        var steps :| LeadsTo(FRESH, steps, s, slack);
        assert Start(FRESH, slack);
        VisibleInTime(FRESH, steps, slack);
        assert s == Run(FRESH, steps, slack);
      }
    }
  }

  const SLOW1 := FRESH.(bids := [Bid(1, 1, 0)], batch := [Bid(1, 1, 0)], openedAt := Some(0))
  const SLOW2 := SLOW1.(bids := SLOW1.bids + [Bid(2, 2, 0)], timer := Some(31_000))
  /** The flush has read the two bids. */
  const SLOW3 := SLOW2.(now := 31_000, timer := None, openedAt := Some(31_000), flush := Storing(31_000, SLOW2.bids))
  /** The third bid has come and gone out before the flush stores. */
  const SLOW4 := SLOW3.(now := 61_000, bids := SLOW3.bids + [Bid(3, 3, 61_000)],
                        batch := SLOW3.bids + [Bid(3, 3, 61_000)], openedAt := Some(61_000))

  lemma OffersOfSlow()
    ensures Offered(FRESH, 1, 1) == SLOW1
    ensures Offered(SLOW1, 2, 2) == SLOW2
    ensures Offered(Waited(SLOW3, 30_000), 3, 3) == SLOW4
  {
    hide AddBid;
  }

  lemma SlowFlushReads(slack: nat)
    requires Reaches(FRESH, Waited(SLOW2, 31_000), slack)
    ensures Reaches(FRESH, SLOW3, slack)
  {
    hide Reaches;
    var s := Waited(SLOW2, 31_000);
    ReachesStep(FRESH, s, Fire, slack);
    var s1 := s.(timer := None, flush := Checking(31_000));
    ReachesStep(FRESH, s1, Get(Flush), slack);
    ReachesStep(FRESH, s1.(flush := Unset(31_000)), Set(Flush), slack);
    ReachesStep(FRESH, s1.(flush := Listing(31_000), openedAt := Some(31_000)), List(Flush), slack);
  }

  lemma SlowFlushForgets(slack: nat)
    requires slack >= 30_000
    ensures exists s, b :: Reaches(FRESH, s, slack) && Forgotten(s, b)
  {
    hide Reaches, Offered, Flushed;
    OffersOfSlow();
    ReachesItself(FRESH, slack);
    ReachesOffer(FRESH, FRESH, 1, 1, slack);
    ReachesOffer(FRESH, SLOW1, 2, 2, slack);
    ReachesTick(FRESH, SLOW2, 31_000, slack);
    SlowFlushReads(slack);
    ReachesStep(FRESH, SLOW3, Tick(30_000), slack);
    ReachesOffer(FRESH, Waited(SLOW3, 30_000), 3, 3, slack);
    ReachesStep(FRESH, SLOW4, Store(Flush), slack);
    assert Forgotten(SLOW4.(flush := Idle, batch := SLOW3.bids), Bid(3, 3, 61_000));
  }

  const VIEW1 := SLOW1
  const VIEW2 := VIEW1.(now := 30_000, viewer := Some(VIEW1.bids))
  const VIEW3 := VIEW2.(bids := VIEW1.bids + [Bid(2, 2, 30_000)], batch := VIEW1.bids + [Bid(2, 2, 30_000)],
                        openedAt := Some(30_000))

  lemma OffersOfView()
    ensures Offered(FRESH, 1, 1) == VIEW1 && Offered(VIEW2, 2, 2) == VIEW3
  {
    hide AddBid;
  }

  function ViewStored(s: State): State
    requires s.viewer.Some?
  {
    Apply(s, ViewStore, 0)
  }

  /**
   The rider's own view breaks the order without any slack: a bid sent out between its reading of
   the list and its storing of the batch is taken out of the batch again.
   */
  lemma ViewForgets()
    ensures exists s, b :: Reaches(FRESH, s, 0) && b in s.batch && s.viewer.Some? && Forgotten(ViewStored(s), b)
  {
    hide Reaches, Offered;
    OffersOfView();
    ReachesItself(FRESH, 0);
    ReachesOffer(FRESH, FRESH, 1, 1, 0);
    ReachesTick(FRESH, VIEW1, 30_000, 0);
    ReachesStep(FRESH, Waited(VIEW1, 30_000), ViewRead, 0);
    ReachesOffer(FRESH, VIEW2, 2, 2, 0);
    assert Forgotten(ViewStored(VIEW3), Bid(2, 2, 30_000));
  }

  // ---------- what the list of bids holds ----------

  predicate OnePerDriver(bids: seq<Bid>) {
    forall i, j | 0 <= i < j < |bids| :: bids[i].driver != bids[j].driver
  }

  /** The driver's last bid to arrive in the run, `seen` if none does. */
  ghost function LastArrival(s: State, steps: seq<Step>, slack: nat, driver: nat, seen: Option<Bid>): Option<Bid>
    requires Legal(s, steps, slack)
    decreases |steps|
  {
    if steps == [] then seen
    else
      LastArrival(Apply(s, steps[0], slack), steps[1..], slack, driver,
        match steps[0]
        case Arrive(d, id) => if d == driver then Some(Bid(driver, id, s.now)) else seen
        case _ => seen)
  }

  /** The list holds this bid of the driver and no other. */
  predicate ListedAs(bids: seq<Bid>, driver: nat, bid: Option<Bid>) {
    && (bid.Some? ==> bid.value in bids && bid.value.driver == driver)
    && forall b | b in bids && b.driver == driver :: bid == Some(b)
  }

  lemma AddedOnce(bids: seq<Bid>, bid: Bid, driver: nat, seen: Option<Bid>)
    requires OnePerDriver(bids) && ListedAs(bids, driver, seen)
    ensures OnePerDriver(AddBid(bids, bid))
    ensures ListedAs(AddBid(bids, bid), driver, if bid.driver == driver then Some(bid) else seen)
  {
    var i, r := FindDriver(bids, bid.driver), AddBid(bids, bid);
    assert r[i] == bid;
    if seen.Some? && bid.driver != driver {
      var k :| 0 <= k < |bids| && bids[k] == seen.value;
      assert r[k] == seen.value;
    }
  }

  lemma {:induction false} ListFollowsRun(s: State, steps: seq<Step>, slack: nat, driver: nat, seen: Option<Bid>)
    requires Legal(s, steps, slack) && OnePerDriver(s.bids) && ListedAs(s.bids, driver, seen)
    ensures OnePerDriver(Run(s, steps, slack).bids)
    ensures ListedAs(Run(s, steps, slack).bids, driver, LastArrival(s, steps, slack, driver, seen))
    decreases |steps|
  {
    if steps != [] {
      var t := Apply(s, steps[0], slack);
      if steps[0].Arrive? {
        var bid := Bid(steps[0].driver, steps[0].id, s.now);
        AddedOnce(s.bids, bid, driver, seen);
        ListFollowsRun(t, steps[1..], slack, driver, if bid.driver == driver then Some(bid) else seen);
      } else {
        OnlyArrivalsList(s, steps[0], slack);
        ListFollowsRun(t, steps[1..], slack, driver, seen);
      }
    }
  }

  lemma OnlyArrivalsList(s: State, step: Step, slack: nat)
    requires Enabled(s, step, slack) && !step.Arrive?
    ensures Apply(s, step, slack).bids == s.bids
  {
  }

  /** On every run no driver is listed twice, and what is listed of a driver is the last bid that came. */
  lemma ListHoldsTheLatest(s: State, steps: seq<Step>, slack: nat, driver: nat)
    requires Start(s, slack) && Legal(s, steps, slack)
    ensures var bids := Run(s, steps, slack).bids;
      OnePerDriver(bids) && ListedAs(bids, driver, LastArrival(s, steps, slack, driver, None))
  {
    ListFollowsRun(s, steps, slack, driver, None);
  }

  // ---------- the handlers of the source ----------

  /** The gateway's timers and the Redis keys they work on; a method runs without interruption. */
  class Gateway {
    /** When the flush of a ride is due. */
    var pendingBidFlushTimers: map<nat, int>
    var bids: map<nat, seq<Bid>>
    var lastBatch: map<nat, seq<Bid>>
    /** When the notification window of a ride was last opened. */
    var lastNotified: map<nat, int>
    var rideMeta: set<nat>
    var bidding: set<nat>
    var activeRider: set<nat>
    var phones: set<nat>
    const hasNotifier: bool

    constructor (hasNotifier: bool)
      ensures this.hasNotifier == hasNotifier && pendingBidFlushTimers == map[] && bids == map[]
      ensures lastBatch == map[] && lastNotified == map[] && rideMeta == bidding == activeRider == phones == {}
    {
      this.hasNotifier := hasNotifier;
      pendingBidFlushTimers, bids, lastBatch, lastNotified := map[], map[], map[], map[];
      rideMeta, bidding, activeRider, phones := {}, {}, {}, {};
    }

    /** What the state machine sees of one ride between two handlers. */
    ghost function View(ride: nat, now: int): State
      reads this
    {
      State(now, now,
        if ride in bids then bids[ride] else [],
        if ride in lastBatch then lastBatch[ride] else [],
        if ride in lastNotified then Some(lastNotified[ride]) else None,
        if ride in pendingBidFlushTimers then Some(pendingBidFlushTimers[ride]) else None,
        Idle, Idle, None)
    }

    /** The ride is bidding, its chat state exists and the rider can be written to. */
    ghost predicate Live(ride: nat, rider: nat)
      reads this
    {
      ride in rideMeta && ride in bidding && rider in phones && hasNotifier
    }

    method ScheduleBidFlush(ride: nat, now: int)
      modifies this`pendingBidFlushTimers
      ensures View(ride, now) == Scheduled(old(View(ride, now)))
      ensures forall other | other != ride :: View(other, now) == old(View(other, now))
    {
      if ride in pendingBidFlushTimers {
        return;
      }
      pendingBidFlushTimers := pendingBidFlushTimers[ride := now + BID_FLUSH_DELAY_MS];
    }

    method ShouldNotify(ride: nat, now: int) returns (notify: bool)
      modifies this`lastNotified
      ensures notify <==> !Open(old(View(ride, now)))
      ensures View(ride, now) == old(View(ride, now)).(openedAt := if notify then Some(now) else View(ride, now).openedAt)
      ensures !notify ==> lastNotified == old(lastNotified)
      ensures forall other | other != ride :: View(other, now) == old(View(other, now))
    {
      if ride in lastNotified && now < lastNotified[ride] + DEBOUNCE_MS {
        return false;
      }
      lastNotified := lastNotified[ride := now];
      return true;
    }

    method DropTimer(ride: nat, now: int)
      modifies this`pendingBidFlushTimers
      ensures View(ride, now) == old(View(ride, now)).(timer := None)
      ensures forall other | other != ride :: View(other, now) == old(View(other, now))
    {
      pendingBidFlushTimers := pendingBidFlushTimers - {ride};
    }

    method StoreLastBatch(ride: nat, batch: seq<Bid>, now: int)
      modifies this`lastBatch
      ensures View(ride, now) == old(View(ride, now)).(batch := batch)
      ensures forall other | other != ride :: View(other, now) == old(View(other, now))
    {
      lastBatch := lastBatch[ride := batch];
    }

    method GetBids(ride: nat, now: int) returns (all: seq<Bid>)
      ensures all == View(ride, now).bids
    {
      all := if ride in bids then bids[ride] else [];
    }

    /** The callback of the timer.  For a ride that is over it only drops the timer. */
    method FlushTimerFires(ride: nat, rider: nat, now: int)
      modifies this`pendingBidFlushTimers, this`lastNotified, this`lastBatch
      ensures Live(ride, rider) ==> View(ride, now) == Flushed(old(View(ride, now)))
      ensures !Live(ride, rider) ==> View(ride, now) == old(View(ride, now)).(timer := None)
      ensures forall other | other != ride :: View(other, now) == old(View(other, now))
    {
      DropTimer(ride, now);
      if ride !in rideMeta || ride !in bidding {
        return;
      }
      if rider !in phones || !hasNotifier {
        return;
      }
      var notify := ShouldNotify(ride, now);
      if !notify {
        ScheduleBidFlush(ride, now);
        return;
      }
      var allBids := GetBids(ride, now);
      if |allBids| == 0 {
        return;
      }
      StoreLastBatch(ride, allBids, now);
    }

    method PutBid(ride: nat, bid: Bid, now: int)
      modifies this`bids, this`bidding
      ensures View(ride, now) == old(View(ride, now)).(bids := AddBid(old(View(ride, now)).bids, bid))
      ensures bidding == old(bidding) + {ride}
      ensures forall other | other != ride :: View(other, now) == old(View(other, now))
    {
      var all := GetBids(ride, now);
      bids := bids[ride := AddBid(all, bid)];
      bidding := bidding + {ride};
    }

    /** `storeWhatsappRide` for a late bid, and what is put back after it. */
    method Rebuild(ride: nat, rider: nat, bid: Bid, now: int)
      modifies this`bids, this`bidding, this`rideMeta, this`activeRider
      ensures View(ride, now) == old(View(ride, now)).(bids := [bid])
      ensures bidding == old(bidding) + {ride} && rideMeta == old(rideMeta) + {ride}
      ensures activeRider == old(activeRider) + {rider}
      ensures forall other | other != ride :: View(other, now) == old(View(other, now))
    {
      rideMeta := rideMeta + {ride};
      bids, bidding := bids[ride := []], bidding - {ride};
      assert forall other | other != ride :: View(other, now) == old(View(other, now));
      PutBid(ride, bid, now);
      activeRider := activeRider + {rider};
    }

    /** The list of bids for the rider, at once or when the window closes. */
    method Notify(ride: nat, now: int)
      modifies this`pendingBidFlushTimers, this`lastNotified, this`lastBatch
      ensures View(ride, now) == Notified(old(View(ride, now)))
      ensures forall other | other != ride :: View(other, now) == old(View(other, now))
    {
      var notify := ShouldNotify(ride, now);
      if notify {
        var allBids := GetBids(ride, now);
        StoreLastBatch(ride, allBids, now);
      } else {
        ScheduleBidFlush(ride, now);
      }
    }

    /**
     The RIDE_COUNTER_OFFER branch.  `winnable`: the database still has the ride open.  The late-bid
     rebuild starts the list over, so the other drivers' bids leave it.
     */
    method OnCounterOffer(ride: nat, rider: nat, driver: nat, id: nat, now: int, winnable: bool)
      modifies this
      ensures hasNotifier && rider in phones && ride in old(rideMeta) ==>
        Live(ride, rider) && View(ride, now) == Offered(old(View(ride, now)), driver, id)
      ensures hasNotifier && rider in phones && ride !in old(rideMeta) && winnable ==>
        Live(ride, rider) && View(ride, now) == Offered(old(View(ride, now)).(bids := []), driver, id)
      ensures !(hasNotifier && rider in phones && (ride in old(rideMeta) || winnable)) ==>
        lastBatch == old(lastBatch) && pendingBidFlushTimers == old(pendingBidFlushTimers)
        && lastNotified == old(lastNotified)
      ensures !(hasNotifier && (rider in old(activeRider) || rider in phones)) ==>
        bids == old(bids) && bidding == old(bidding)
      ensures hasNotifier && (rider in old(activeRider) || rider in phones) ==>
        bidding == old(bidding) + {ride}
      ensures hasNotifier && (rider in old(activeRider) || rider in phones)
              && !(rider in phones && (ride in old(rideMeta) || winnable)) ==>
        View(ride, now) == old(View(ride, now)).(bids := AddBid(old(View(ride, now)).bids, Bid(driver, id, now)))
      ensures var rebuilt := hasNotifier && rider in phones && ride !in old(rideMeta) && winnable;
        && rideMeta == (if rebuilt then old(rideMeta) + {ride} else old(rideMeta))
        && activeRider == (if rebuilt then old(activeRider) + {rider} else old(activeRider))
      ensures phones == old(phones)
      ensures forall other | other != ride :: View(other, now) == old(View(other, now))
    {
      hide AddBid, FindDriver;
      var waRider := rider in activeRider;
      if !waRider && hasNotifier {
        waRider := rider in phones;
      }
      if !waRider || !hasNotifier {
        return;
      }
      var bid := Bid(driver, id, now);
      PutBid(ride, bid, now);
      if rider in phones && ride !in rideMeta && winnable {
        Rebuild(ride, rider, bid, now);
      }
      if rider in phones && ride in rideMeta {
        Notify(ride, now);
      }
    }

    /** `cleanupRideKeys`; a pending timer stays and finds nothing to do. */
    method CleanupRideKeys(ride: nat, now: int)
      modifies this`bids, this`lastBatch, this`lastNotified, this`rideMeta, this`bidding
      ensures var v := View(ride, now);
        v.bids == [] && v.batch == [] && v.openedAt == None && v.timer == old(View(ride, now)).timer
      ensures rideMeta == old(rideMeta) - {ride} && bidding == old(bidding) - {ride}
      ensures forall rider :: !Live(ride, rider)
      ensures forall other | other != ride :: View(other, now) == old(View(other, now))
    {
      bids, lastBatch, lastNotified := bids - {ride}, lastBatch - {ride}, lastNotified - {ride};
      rideMeta, bidding := rideMeta - {ride}, bidding - {ride};
    }
  }
}
