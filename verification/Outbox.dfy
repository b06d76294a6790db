/**
 The transactional outbox: rows in creation order, any number of publisher processes,
 and the broker's log.  (apps/ride-service/outbox/outbox-publisher.ts)

 A row is named by its place in creation order.  The broker may store a request it was
 sent once, several times or never, before or after the sender has given up on it.
 */
module Outbox {
  import opened Options

  datatype Status = Unpublished | Published | Purged

  datatype Row = Row(key: Option<nat>, status: Status)

  datatype Entry = Entry(row: nat, partition: nat)

  /** Where a publisher process stands in `doPoll`. */
  datatype Publisher =
    | Idle
    | Sending(batch: seq<nat>, next: nat, inFlight: bool, acked: seq<nat>)
    | Marking(acked: seq<nat>)

  /** `home` is the broker's hash: it sends every message of one key to one partition. */
  datatype State = State(
    rows: seq<Row>, log: seq<Entry>, wire: set<nat>, publishers: map<nat, Publisher>, home: nat -> nat)

  datatype Step =
    | Insert(key: Option<nat>)
    | BeginPoll(p: nat, limit: nat)
    | Send(p: nat)
    | Store(row: nat, partition: nat)
    | Ack(p: nat)
    | SendFails(p: nat)
    | EndBatch(p: nat)
    | Mark(p: nat)
    | MarkFails(p: nat)
    | Crash(p: nat)
    | Purge(row: nat)

  // ---------- the table ----------

  ghost predicate Increasing(ids: seq<nat>) {
    forall k, l | 0 <= k < l < |ids| :: ids[k] < ids[l]
  }

  /** `findUnpublished`: the oldest rows, at most `limit`, whose mark is unset. */
  function OldestFrom(rows: seq<Row>, i: nat, limit: nat): (batch: seq<nat>)
    requires i <= |rows|
    ensures |batch| <= limit && Increasing(batch)
    ensures forall r | r in batch :: i <= r < |rows| && rows[r].status.Unpublished?
    ensures forall r | i <= r < |rows| && rows[r].status.Unpublished? && r !in batch ::
              |batch| == limit && forall b | b in batch :: b < r
    decreases |rows| - i
  {
    if i == |rows| || limit == 0 then []
    else if rows[i].status.Unpublished? then
      var rest := OldestFrom(rows, i + 1, limit - 1);
      assert forall k | 0 <= k < |rest| :: rest[k] in rest;
      [i] + rest
    else OldestFrom(rows, i + 1, limit)
  }

  function OldestUnpublished(rows: seq<Row>, limit: nat): seq<nat> {
    OldestFrom(rows, 0, limit)
  }

  /** `markPublished`: an update of the rows that still exist. */
  function Marked(rows: seq<Row>, ids: seq<nat>): (r: seq<Row>)
    ensures |r| == |rows|
    ensures forall i | 0 <= i < |rows| :: r[i].key == rows[i].key
    ensures forall i | 0 <= i < |rows| :: r[i].status ==
              if i in ids && !rows[i].status.Purged? then Published else rows[i].status
  {
    seq(|rows|, i requires 0 <= i < |rows| =>
      if i in ids && !rows[i].status.Purged? then rows[i].(status := Published) else rows[i])
  }

  // ---------- the protocol ----------

  predicate Enabled(s: State, step: Step) {
    match step
    case Insert(_) => true
    case BeginPoll(p, limit) => p in s.publishers && s.publishers[p].Idle? && OldestUnpublished(s.rows, limit) != []
    case Send(p) => Busy(s, p) && !s.publishers[p].inFlight && s.publishers[p].next < |s.publishers[p].batch|
    case Store(row, partition) =>
      && row in s.wire && row < |s.rows|
      && (s.rows[row].key.Some? ==> partition == s.home(s.rows[row].key.value))
    case Ack(p) => Busy(s, p) && s.publishers[p].inFlight && InLog(s.log, Current(s, p))
    case SendFails(p) => Busy(s, p) && s.publishers[p].inFlight
    case EndBatch(p) => Busy(s, p) && !s.publishers[p].inFlight && s.publishers[p].next == |s.publishers[p].batch|
    case Mark(p) => p in s.publishers && s.publishers[p].Marking?
    case MarkFails(p) => p in s.publishers && s.publishers[p].Marking?
    case Crash(p) => p in s.publishers
    case Purge(row) => row < |s.rows| && s.rows[row].status.Published?
  }

  predicate Busy(s: State, p: nat) {
    && p in s.publishers && s.publishers[p].Sending?
    && (s.publishers[p].inFlight ==> s.publishers[p].next < |s.publishers[p].batch|)
  }

  function Current(s: State, p: nat): nat
    requires Busy(s, p) && s.publishers[p].next < |s.publishers[p].batch|
  {
    s.publishers[p].batch[s.publishers[p].next]
  }

  predicate InLog(log: seq<Entry>, row: nat) {
    exists i | 0 <= i < |log| :: log[i].row == row
  }

  function Apply(s: State, step: Step): State
    requires Enabled(s, step)
  {
    match step
    case Insert(key) => s.(rows := s.rows + [Row(key, Unpublished)])
    case BeginPoll(p, limit) =>
      s.(publishers := s.publishers[p := Sending(OldestUnpublished(s.rows, limit), 0, false, [])])
    case Send(p) =>
      s.(wire := s.wire + {Current(s, p)}, publishers := s.publishers[p := s.publishers[p].(inFlight := true)])
    case Store(row, partition) => s.(log := s.log + [Entry(row, partition)])
    case Ack(p) =>
      var q := s.publishers[p];
      s.(publishers := s.publishers[p := Sending(q.batch, q.next + 1, false, q.acked + [Current(s, p)])])
    case SendFails(p) => s.(publishers := s.publishers[p := Marking(s.publishers[p].acked)])
    case EndBatch(p) => s.(publishers := s.publishers[p := Marking(s.publishers[p].acked)])
    case Mark(p) => s.(rows := Marked(s.rows, s.publishers[p].acked), publishers := s.publishers[p := Idle])
    case MarkFails(p) => s.(publishers := s.publishers[p := Idle])
    case Crash(p) => s.(publishers := s.publishers[p := Idle])
    case Purge(row) => s.(rows := s.rows[row := s.rows[row].(status := Purged)])
  }

  ghost predicate ValidRun(s: State, steps: seq<Step>)
    decreases |steps|
  {
    steps == [] || (Enabled(s, steps[0]) && ValidRun(Apply(s, steps[0]), steps[1..]))
  }

  ghost function After(s: State, steps: seq<Step>): State
    requires ValidRun(s, steps)
    decreases |steps|
  {
    if steps == [] then s else After(Apply(s, steps[0]), steps[1..])
  }

  ghost predicate Initial(s: State) {
    && s.log == [] && s.wire == {}
    && (forall i | 0 <= i < |s.rows| :: s.rows[i].status.Unpublished?)
    && (forall p | p in s.publishers :: s.publishers[p].Idle?)
  }

  // ---------- the invariant ----------

  /** Everything created before the row is stored already. */
  ghost predicate EarlierStored(log: seq<Entry>, row: nat) {
    forall r: nat | r < row :: InLog(log, r)
  }

  /** Each entry of the log has all earlier rows before it. */
  ghost predicate InOrder(log: seq<Entry>) {
    forall i | 0 <= i < |log| :: EarlierStored(log[..i], log[i].row)
  }

  ghost predicate PublisherOk(s: State, q: Publisher) {
    match q
    case Idle => true
    case Marking(acked) => forall r | r in acked :: InLog(s.log, r)
    case Sending(batch, next, inFlight, acked) =>
      && next <= |batch|
      && (forall k | 0 <= k < |batch| :: batch[k] < |s.rows|)
      && (forall k, r: nat | 0 <= k < |batch| && r < batch[k] :: InLog(s.log, r) || r in batch[..k])
      && (forall k | 0 <= k < next :: InLog(s.log, batch[k]))
      && (inFlight ==> next < |batch| && batch[next] in s.wire)
      && (forall r | r in acked :: InLog(s.log, r))
  }

  ghost predicate Inv(s: State) {
    && (forall r | r in s.wire :: r < |s.rows| && EarlierStored(s.log, r))
    && (forall i | 0 <= i < |s.log| :: s.log[i].row < |s.rows|)
    && (forall i | 0 <= i < |s.log| && s.rows[s.log[i].row].key.Some? ::
          s.log[i].partition == s.home(s.rows[s.log[i].row].key.value))
    && (forall i | 0 <= i < |s.rows| && !s.rows[i].status.Unpublished? :: InLog(s.log, i))
    && (forall p | p in s.publishers :: PublisherOk(s, s.publishers[p]))
    && InOrder(s.log)
  }

  lemma LogGrows(log: seq<Entry>, e: Entry, row: nat)
    ensures InLog(log + [e], row) <==> InLog(log, row) || row == e.row
  {
    var log' := log + [e];
    if InLog(log, row) {
      var i :| 0 <= i < |log| && log[i].row == row;
      assert log'[i].row == row;
    }
    if row == e.row {
      assert log'[|log|].row == row;
    }
  }

  lemma StoreKeepsOrder(log: seq<Entry>, e: Entry)
    requires InOrder(log) && EarlierStored(log, e.row)
    ensures InOrder(log + [e])
  {
    var log' := log + [e];
    forall i | 0 <= i < |log'| ensures EarlierStored(log'[..i], log'[i].row) {
      if i < |log| {
        assert log'[..i] == log[..i];
      } else {
        assert log'[..i] == log;
      }
    }
  }

  lemma SendIsInOrder(s: State, p: nat)
    requires Inv(s) && Enabled(s, Send(p))
    ensures EarlierStored(s.log, Current(s, p)) && Current(s, p) < |s.rows|
  {
    var q := s.publishers[p];
    assert PublisherOk(s, q);
    forall r: nat | r < q.batch[q.next] ensures InLog(s.log, r) {
      if r in q.batch[..q.next] {
        var k :| 0 <= k < q.next && q.batch[k] == r;
      }
    }
  }

  lemma BatchIsOk(s: State, limit: nat)
    requires Inv(s)
    ensures PublisherOk(s, Sending(OldestUnpublished(s.rows, limit), 0, false, []))
  {
    var batch := OldestUnpublished(s.rows, limit);
    forall k | 0 <= k < |batch| ensures batch[k] < |s.rows| {
      assert batch[k] in batch;
    }
    forall k, r: nat | 0 <= k < |batch| && r < batch[k] ensures InLog(s.log, r) || r in batch[..k] {
      assert batch[k] in batch;
      if s.rows[r].status.Unpublished? {
        var j :| 0 <= j < |batch| && batch[j] == r;
        assert j < k && batch[..k][j] == r;
      }
    }
  }

  lemma PublisherStaysOk(s: State, t: State, q: Publisher)
    requires PublisherOk(s, q) && |s.rows| <= |t.rows| && s.wire <= t.wire
    requires forall r | InLog(s.log, r) :: InLog(t.log, r)
    ensures PublisherOk(t, q)
  {
  }

  lemma StoreKeepsInv(s: State, row: nat, partition: nat)
    requires Inv(s) && Enabled(s, Store(row, partition))
    ensures Inv(Apply(s, Store(row, partition)))
  {
    var t := Apply(s, Store(row, partition));
    var e := Entry(row, partition);
    forall r ensures InLog(t.log, r) <==> InLog(s.log, r) || r == row {
      LogGrows(s.log, e, r);
    }
    StoreKeepsOrder(s.log, e);
    forall p | p in t.publishers ensures PublisherOk(t, t.publishers[p]) {
      PublisherStaysOk(s, t, s.publishers[p]);
    }
  }

  lemma PublisherStepOk(s: State, step: Step, p: nat)
    requires Inv(s) && Enabled(s, step) && !step.Store?
    requires p in Apply(s, step).publishers
    ensures PublisherOk(Apply(s, step), Apply(s, step).publishers[p])
  {
    hide OldestUnpublished, InLog, InOrder;
    var t := Apply(s, step);
    if t.publishers[p] == s.publishers[p] {
      PublisherStaysOk(s, t, s.publishers[p]);
    } else if step.BeginPoll? {
      BatchIsOk(s, step.limit);
      PublisherStaysOk(s, t, t.publishers[p]);
    } else {
      assert PublisherOk(s, s.publishers[p]);
    }
  }

  lemma StepKeepsInv(s: State, step: Step)
    requires Inv(s) && Enabled(s, step)
    ensures Inv(Apply(s, step))
  {
    if step.Store? {
      StoreKeepsInv(s, step.row, step.partition);
    } else {
      hide OldestUnpublished, PublisherOk, InOrder;
      var t := Apply(s, step);
      if step.Send? {
        SendIsInOrder(s, step.p);
      }
      if step.Mark? {
        MarkedAreInLog(s, step.p);
      }
      forall p | p in t.publishers ensures PublisherOk(t, t.publishers[p]) {
        PublisherStepOk(s, step, p);
      }
    }
  }

  lemma MarkedAreInLog(s: State, p: nat)
    requires Inv(s) && Enabled(s, Mark(p))
    ensures forall r | r in s.publishers[p].acked :: InLog(s.log, r)
  {
    assert PublisherOk(s, s.publishers[p]);
  }

  lemma {:induction false} RunKeepsInv(s: State, steps: seq<Step>)
    requires Inv(s) && ValidRun(s, steps)
    ensures Inv(After(s, steps))
    decreases |steps|
  {
    if steps != [] {
      StepKeepsInv(s, steps[0]);
      RunKeepsInv(Apply(s, steps[0]), steps[1..]);
    }
  }

  // ---------- what the broker holds ----------

  /** The rows of the log in order of first appearance. */
  ghost function FirstAppearances(log: seq<Entry>): seq<nat> {
    if log == [] then []
    else
      var init := log[..|log| - 1];
      var row := log[|log| - 1].row;
      if InLog(init, row) then FirstAppearances(init) else FirstAppearances(init) + [row]
  }

  lemma {:induction false} FirstAppearancesAreAPrefix(log: seq<Entry>) returns (m: nat)
    requires InOrder(log)
    ensures FirstAppearances(log) == seq(m, i => i)
    ensures forall r: nat :: InLog(log, r) <==> r < m
  {
    if log == [] {
      m := 0;
    } else {
      var init, e := log[..|log| - 1], log[|log| - 1];
      assert InOrder(init) by {
        forall i | 0 <= i < |init| ensures EarlierStored(init[..i], init[i].row) {
          assert init[..i] == log[..i];
        }
      }
      var k := FirstAppearancesAreAPrefix(init);
      assert log == init + [e];
      forall r ensures InLog(log, r) <==> InLog(init, r) || r == e.row {
        LogGrows(init, e, r);
      }
      assert EarlierStored(init, e.row);
      if InLog(init, e.row) {
        m := k;
      } else {
        assert e.row > k ==> InLog(init, k);
        m := k + 1;
        assert seq(k + 1, i => i) == seq(k, i => i) + [k];
      }
    }
  }

  /**
   Over every interleaving of publishers, with lost acknowledgements, failed and repeated
   sends, failed marks, crashes and purges: the log without its repeats is the first m rows
   of the outbox, and every row that is marked is among them.
   */
  lemma PublishedInOrder(s: State, steps: seq<Step>) returns (m: nat)
    requires Initial(s) && ValidRun(s, steps)
    ensures m <= |After(s, steps).rows|
    ensures FirstAppearances(After(s, steps).log) == seq(m, i => i)
    ensures forall i | 0 <= i < |After(s, steps).rows| && !After(s, steps).rows[i].status.Unpublished? :: i < m
  {
    assert Inv(s);
    RunKeepsInv(s, steps);
    var t := After(s, steps);
    m := FirstAppearancesAreAPrefix(t.log);
    assert m > 0 ==> InLog(t.log, m - 1);
  }

  // ---------- a fault-free lone publisher drains the outbox ----------

  ghost function Remaining(rows: seq<Row>): set<nat> {
    set i | 0 <= i < |rows| && rows[i].status.Unpublished?
  }

  /** What is left of n when some are taken away. */
  function Left(n: nat, taken: nat): nat {
    if n <= taken then 0 else n - taken
  }

  ghost function Elements(ids: seq<nat>): set<nat> {
    set r | r in ids
  }

  lemma {:induction false} IncreasingSize(ids: seq<nat>)
    requires Increasing(ids)
    ensures |Elements(ids)| == |ids|
  {
    if ids != [] {
      var init, last := ids[..|ids| - 1], ids[|ids| - 1];
      assert forall k | 0 <= k < |init| :: init[k] == ids[k];
      IncreasingSize(init);
      assert last !in Elements(init);
      assert ids == init + [last];
      ElementsOfPush(init, last);
    }
  }

  lemma ElementsOfPush(init: seq<nat>, last: nat)
    ensures Elements(init + [last]) == Elements(init) + {last}
  {
  }

  lemma MarkingShrinks(rows: seq<Row>, limit: nat)
    ensures |Remaining(Marked(rows, OldestUnpublished(rows, limit)))| == Left(|Remaining(rows)|, limit)
  {
    var batch := OldestUnpublished(rows, limit);
    var gone := Elements(batch);
    IncreasingSize(batch);
    assert Remaining(Marked(rows, batch)) == Remaining(rows) - gone;
    assert gone <= Remaining(rows);
    if gone == Remaining(rows) {
      assert Remaining(rows) - gone == {};
    } else {
      var r :| r in Remaining(rows) && r !in gone;
      assert |batch| == limit;
      ProperSubsetSmaller(gone, Remaining(rows), r);
    }
  }

  lemma ProperSubsetSmaller<T>(a: set<T>, b: set<T>, x: T)
    requires a <= b && x in b && x !in a
    ensures |a| < |b| && |b - a| == |b| - |a|
  {
    assert b == a + (b - a);
    assert x in b - a;
  }

  // ---------- one publisher process ----------

  /** What becomes of one send: how many copies the broker keeps, and whether the sender hears of it. */
  datatype SendOutcome = SendOutcome(copies: nat, partition: nat, acked: bool) {
    ghost predicate Possible() {
      acked ==> copies > 0
    }
  }

  datatype Faults = Faults(readOk: bool, sends: nat -> SendOutcome, markOk: bool) {
    /** The read and the mark succeed and every send is acknowledged. */
    ghost predicate Absent() {
      readOk && markOk && forall i :: sends(i).acked
    }

    ghost predicate Possible() {
      forall i :: sends(i).Possible()
    }
  }

  function EntryFor(rows: seq<Row>, home: nat -> nat, row: nat, outcome: SendOutcome): Entry {
    Entry(row, if row < |rows| && rows[row].key.Some? then home(rows[row].key.value) else outcome.partition)
  }

  function Copies(e: Entry, n: nat): (r: seq<Entry>)
    ensures |r| == n && forall i | 0 <= i < n :: r[i] == e
  {
    seq(n, _ => e)
  }

  /** The rows acknowledged when the batch is sent from place i on: up to the first failure. */
  function Acknowledged(batch: seq<nat>, sends: nat -> SendOutcome, i: nat): (acked: seq<nat>)
    requires i <= |batch|
    ensures acked <= batch[i..]
    ensures i + |acked| < |batch| ==> !sends(i + |acked|).acked
    ensures forall k | i <= k < i + |acked| :: sends(k).acked
    decreases |batch| - i
  {
    if i == |batch| || !sends(i).acked then [] else [batch[i]] + Acknowledged(batch, sends, i + 1)
  }

  /** The entries the broker keeps from that. */
  function Kept(rows: seq<Row>, home: nat -> nat, batch: seq<nat>, sends: nat -> SendOutcome, i: nat): seq<Entry>
    requires i <= |batch|
    decreases |batch| - i
  {
    if i == |batch| then []
    else
      var first := Copies(EntryFor(rows, home, batch[i], sends(i)), sends(i).copies);
      if sends(i).acked then first + Kept(rows, home, batch, sends, i + 1) else first
  }

  lemma NothingToSend(rows: seq<Row>, home: nat -> nat, batch: seq<nat>, sends: nat -> SendOutcome)
    ensures Acknowledged(batch, sends, |batch|) == [] && Kept(rows, home, batch, sends, |batch|) == []
  {
  }

  /** What one send contributes to the rows acknowledged and the entries kept. */
  lemma SendSplits(
    rows: seq<Row>, home: nat -> nat, batch: seq<nat>, sends: nat -> SendOutcome, i: nat,
    acked: seq<nat>, log: seq<Entry>)
    requires i < |batch|
    ensures var copies := Copies(EntryFor(rows, home, batch[i], sends(i)), sends(i).copies);
            if sends(i).acked then
              && acked + Acknowledged(batch, sends, i) == acked + [batch[i]] + Acknowledged(batch, sends, i + 1)
              && log + Kept(rows, home, batch, sends, i) == log + copies + Kept(rows, home, batch, sends, i + 1)
            else
              && acked + Acknowledged(batch, sends, i) == acked
              && log + Kept(rows, home, batch, sends, i) == log + copies
  {
    var copies := Copies(EntryFor(rows, home, batch[i], sends(i)), sends(i).copies);
    if sends(i).acked {
      var acked', kept' := Acknowledged(batch, sends, i + 1), Kept(rows, home, batch, sends, i + 1);
      assert acked + ([batch[i]] + acked') == acked + [batch[i]] + acked';
      assert log + (copies + kept') == log + copies + kept';
    }
  }

  /** What a poll in progress has done and what it will do add up to its whole effect. */
  ghost predicate OnCourse(
    rows: seq<Row>, home: nat -> nat, batch: seq<nat>, sends: nat -> SendOutcome, i: nat,
    published: seq<nat>, log: seq<Entry>, finalLog: seq<Entry>)
    requires i <= |batch|
  {
    && Acknowledged(batch, sends, 0) == published + Acknowledged(batch, sends, i)
    && finalLog == log + Kept(rows, home, batch, sends, i)
  }

  ghost predicate Arrived(
    batch: seq<nat>, sends: nat -> SendOutcome, published: seq<nat>, log: seq<Entry>, finalLog: seq<Entry>)
  {
    Acknowledged(batch, sends, 0) == published && log == finalLog
  }

  lemma Departs(rows: seq<Row>, home: nat -> nat, batch: seq<nat>, sends: nat -> SendOutcome, log: seq<Entry>)
    ensures OnCourse(rows, home, batch, sends, 0, [], log, log + Kept(rows, home, batch, sends, 0))
  {
    assert Acknowledged(batch, sends, 0) == [] + Acknowledged(batch, sends, 0);
  }

  lemma Continues(
    rows: seq<Row>, home: nat -> nat, batch: seq<nat>, sends: nat -> SendOutcome, i: nat,
    published: seq<nat>, log: seq<Entry>, finalLog: seq<Entry>)
    requires i < |batch| && OnCourse(rows, home, batch, sends, i, published, log, finalLog)
    ensures var log' := log + Copies(EntryFor(rows, home, batch[i], sends(i)), sends(i).copies);
            if sends(i).acked then OnCourse(rows, home, batch, sends, i + 1, published + [batch[i]], log', finalLog)
            else Arrived(batch, sends, published, log', finalLog)
  {
    hide Acknowledged, Kept, Copies, EntryFor;
    SendSplits(rows, home, batch, sends, i, published, log);
  }

  lemma Arrives(
    rows: seq<Row>, home: nat -> nat, batch: seq<nat>, sends: nat -> SendOutcome,
    published: seq<nat>, log: seq<Entry>, finalLog: seq<Entry>)
    requires OnCourse(rows, home, batch, sends, |batch|, published, log, finalLog)
    ensures Arrived(batch, sends, published, log, finalLog)
  {
    NothingToSend(rows, home, batch, sends);
    assert published + [] == published && log + [] == log;
  }

  lemma ArrivedMeans(
    batch: seq<nat>, sends: nat -> SendOutcome, published: seq<nat>, log: seq<Entry>, finalLog: seq<Entry>)
    requires Arrived(batch, sends, published, log, finalLog)
    ensures Acknowledged(batch, sends, 0) == published && log == finalLog
  {
  }

  /** A poll without a failed send acknowledges its whole batch. */
  lemma {:induction false} AllAcknowledged(batch: seq<nat>, sends: nat -> SendOutcome, i: nat)
    requires i <= |batch| && forall k :: sends(k).acked
    ensures Acknowledged(batch, sends, i) == batch[i..]
    decreases |batch| - i
  {
    if i < |batch| {
      AllAcknowledged(batch, sends, i + 1);
    }
  }

  lemma FaultFreePollMarksAll(rows: seq<Row>, limit: nat, faults: Faults)
    requires faults.Absent()
    ensures var batch := OldestUnpublished(rows, limit);
      |Remaining(Marked(rows, Acknowledged(batch, faults.sends, 0)))| == Left(|Remaining(rows)|, limit)
  {
    var batch := OldestUnpublished(rows, limit);
    AllAcknowledged(batch, faults.sends, 0);
    assert batch[0..] == batch;
    MarkingShrinks(rows, limit);
  }

  class Table {
    var rows: seq<Row>

    method FindUnpublished(limit: nat) returns (events: seq<nat>)
      ensures events == OldestUnpublished(rows, limit)
    {
      events := OldestUnpublished(rows, limit);
    }

    method MarkPublished(ids: seq<nat>)
      modifies this
      ensures rows == Marked(old(rows), ids)
    {
      rows := Marked(rows, ids);
    }
  }

  class Broker {
    var log: seq<Entry>
    const home: nat -> nat

    method Send(rows: seq<Row>, row: nat, outcome: SendOutcome) returns (acked: bool)
      modifies this
      ensures acked == outcome.acked
      ensures log == old(log) + Copies(EntryFor(rows, home, row, outcome), outcome.copies)
    {
      log := log + Copies(EntryFor(rows, home, row, outcome), outcome.copies);
      acked := outcome.acked;
    }
  }

  class OutboxPublisher {
    var active: bool
    var polling: bool
    const batchSize: nat
    const table: Table
    const broker: Broker

    constructor (table: Table, broker: Broker, batchSize: nat)
      ensures active && !polling && this.table == table && this.broker == broker && this.batchSize == batchSize
    {
      active, polling := true, false;
      this.table, this.broker, this.batchSize := table, broker, batchSize;
    }

    /**
     A poll that starts while another runs, or after shutdown, does nothing.  One without faults
     leaves of the unpublished rows what a batch does not cover.
     */
    method Poll(faults: Faults)
      modifies this`polling, table, broker
      ensures polling == old(polling)
      ensures old(active && !polling) ==> PollEffect(old(table.rows), old(broker.log), faults)
      ensures old(active && !polling) && faults.Absent() ==>
        |Remaining(table.rows)| == Left(old(|Remaining(table.rows)|), batchSize)
      ensures !old(active && !polling) ==> table.rows == old(table.rows) && broker.log == old(broker.log)
    {
      hide Remaining, OldestUnpublished, Acknowledged, Kept, Left;
      if !active || polling {
        return;
      }
      polling := true;
      DoPoll(faults);
      if faults.Absent() {
        FaultFreePollMarksAll(old(table.rows), batchSize, faults);
      }
      polling := false;
    }

    /** The interval timer: with no new rows, k polls without faults leave what k batches do not cover. */
    method TimerFires(k: nat, faults: nat -> Faults)
      requires !polling
      modifies this`polling, table, broker
      ensures !polling
      ensures old(active) && (forall i :: faults(i).Absent()) ==>
        |Remaining(table.rows)| == Left(old(|Remaining(table.rows)|), k * batchSize)
      ensures !old(active) ==> table.rows == old(table.rows) && broker.log == old(broker.log)
    {
      hide Remaining, PollEffect, Faults.Absent;
      for i := 0 to k
        invariant !polling
        invariant active && (forall j :: faults(j).Absent()) ==>
          |Remaining(table.rows)| == Left(old(|Remaining(table.rows)|), i * batchSize)
        invariant !active ==> table.rows == old(table.rows) && broker.log == old(broker.log)
      {
        assert (i + 1) * batchSize == i * batchSize + batchSize;
        Poll(faults(i));
      }
    }

    /** The timer fires k times before the process shuts down; what fires later does nothing. */
    method RunUntilShutdown(k: nat, late: nat, faults: nat -> Faults)
      requires active && !polling && forall i :: faults(i).Absent()
      modifies this`active, this`polling, table, broker
      ensures !active && |Remaining(table.rows)| == Left(old(|Remaining(table.rows)|), k * batchSize)
    {
      hide Remaining, Faults.Absent;
      TimerFires(k, faults);
      Shutdown();
      TimerFires(late, faults);
    }

    ghost predicate PollEffect(rows: seq<Row>, log: seq<Entry>, faults: Faults)
      reads table, broker
    {
      var batch := OldestUnpublished(rows, batchSize);
      if !faults.readOk then table.rows == rows && broker.log == log
      else
        && broker.log == log + Kept(rows, broker.home, batch, faults.sends, 0)
        && table.rows == if faults.markOk then Marked(rows, Acknowledged(batch, faults.sends, 0)) else rows
    }

    method DoPoll(faults: Faults)
      modifies table, broker
      ensures PollEffect(old(table.rows), old(broker.log), faults)
    {
      if !faults.readOk {
        return;
      }
      var events := table.FindUnpublished(batchSize);
      if |events| == 0 {
        assert Marked(table.rows, []) == table.rows;
        assert broker.log + [] == broker.log;
        return;
      }
      hide Acknowledged, Kept, OldestUnpublished, Copies, EntryFor, OnCourse, Arrived;
      var published: seq<nat> := [];
      var i := 0;
      ghost var finalLog := broker.log + Kept(table.rows, broker.home, events, faults.sends, 0);
      Departs(table.rows, broker.home, events, faults.sends, broker.log);
      while i < |events|
        invariant 0 <= i <= |events| && table.rows == old(table.rows)
        invariant OnCourse(table.rows, broker.home, events, faults.sends, i, published, broker.log, finalLog)
      {
        Continues(table.rows, broker.home, events, faults.sends, i, published, broker.log, finalLog);
        var ok := broker.Send(table.rows, events[i], faults.sends(i));
        if ok {
          published := published + [events[i]];
        } else {
          break;
        }
        i := i + 1;
      }
      if i == |events| {
        Arrives(table.rows, broker.home, events, faults.sends, published, broker.log, finalLog);
      }
      assert Arrived(events, faults.sends, published, broker.log, finalLog);
      ArrivedMeans(events, faults.sends, published, broker.log, finalLog);
      if |published| > 0 {
        if faults.markOk {
          table.MarkPublished(published);
        }
      } else {
        assert Marked(table.rows, []) == table.rows;
      }
    }

    method Shutdown()
      modifies this`active
      ensures !active
    {
      active := false;
    }
  }

  // ---------- a poll of that process is a run of the protocol ----------

  lemma {:induction false} RunsJoin(s: State, a: seq<Step>, b: seq<Step>)
    requires ValidRun(s, a) && ValidRun(After(s, a), b)
    ensures ValidRun(s, a + b) && After(s, a + b) == After(After(s, a), b)
    decreases |a|
  {
    hide Apply, Enabled;
    if a == [] {
      assert a + b == b;
    } else {
      RunsJoin(Apply(s, a[0]), a[1..], b);
      assert (a + b)[1..] == a[1..] + b;
    }
  }

  lemma {:induction false} StoreCopies(s: State, e: Entry, n: nat) returns (steps: seq<Step>)
    requires Enabled(s, Store(e.row, e.partition))
    ensures ValidRun(s, steps) && After(s, steps) == s.(log := s.log + Copies(e, n))
    decreases n
  {
    if n == 0 {
      steps := [];
      assert s.log + Copies(e, 0) == s.log;
    } else {
      var t := Apply(s, Store(e.row, e.partition));
      var rest := StoreCopies(t, e, n - 1);
      steps := [Store(e.row, e.partition)] + rest;
      assert s.log + Copies(e, n) == t.log + Copies(e, n - 1);
    }
  }

  /** One send, the copies the broker keeps, and the sender's reaction. */
  lemma OneSend(s: State, p: nat, outcome: SendOutcome) returns (steps: seq<Step>)
    requires Enabled(s, Send(p)) && Current(s, p) < |s.rows| && outcome.Possible()
    ensures ValidRun(s, steps)
    ensures var q := s.publishers[p];
            var e := EntryFor(s.rows, s.home, Current(s, p), outcome);
            After(s, steps) == s.(
              wire := s.wire + {e.row},
              log := s.log + Copies(e, outcome.copies),
              publishers := s.publishers[p :=
                if outcome.acked then Sending(q.batch, q.next + 1, false, q.acked + [e.row]) else Marking(q.acked)])
  {
    var e := EntryFor(s.rows, s.home, Current(s, p), outcome);
    var s1 := Apply(s, Send(p));
    var stores := StoreCopies(s1, e, outcome.copies);
    var s2 := After(s1, stores);
    RunsJoin(s, [Send(p)], stores);
    var last := if outcome.acked then Ack(p) else SendFails(p);
    if outcome.acked {
      assert s2.log[|s.log|].row == e.row;
    }
    RunsJoin(s, [Send(p)] + stores, [last]);
    steps := [Send(p)] + stores + [last];
    assert s2.publishers[p := Apply(s2, last).publishers[p]] == s.publishers[p := Apply(s2, last).publishers[p]];
  }

  ghost predicate ReadyToSend(s: State, p: nat) {
    && p in s.publishers && s.publishers[p].Sending? && !s.publishers[p].inFlight
    && s.publishers[p].next <= |s.publishers[p].batch|
    && forall i | 0 <= i < |s.publishers[p].batch| :: s.publishers[p].batch[i] < |s.rows|
  }

  /** Sending the rest of a batch, up to the first failure, leaves the publisher ready to mark. */
  lemma {:induction false} SendingIsARun(s: State, p: nat, sends: nat -> SendOutcome) returns (steps: seq<Step>)
    requires ReadyToSend(s, p) && forall i :: sends(i).Possible()
    ensures ValidRun(s, steps)
    ensures var q := s.publishers[p];
            var t := After(s, steps);
            && t.rows == s.rows
            && t.log == s.log + Kept(s.rows, s.home, q.batch, sends, q.next)
            && t.publishers == s.publishers[p := Marking(q.acked + Acknowledged(q.batch, sends, q.next))]
    decreases |s.publishers[p].batch| - s.publishers[p].next
  {
    hide EntryFor, Copies, Acknowledged, Kept;
    NothingToSend(s.rows, s.home, s.publishers[p].batch, sends);
    var q := s.publishers[p];
    if q.next == |q.batch| {
      steps := [EndBatch(p)];
      assert q.acked + [] == q.acked && s.log + [] == s.log;
    } else {
      SendSplits(s.rows, s.home, q.batch, sends, q.next, q.acked, s.log);
      steps := OneSend(s, p, sends(q.next));
      if sends(q.next).acked {
        EntryNamesRow(s.rows, s.home, q.batch[q.next], sends(q.next));
        var t := After(s, steps);
        var rest := SendingIsARun(t, p, sends);
        RunsJoin(s, steps, rest);
        steps := steps + rest;
      }
    }
  }

  lemma EntryNamesRow(rows: seq<Row>, home: nat -> nat, row: nat, outcome: SendOutcome)
    ensures EntryFor(rows, home, row, outcome).row == row
  {
  }

  /** Whatever `Poll` does to the table and the broker, a run of the protocol does. */
  lemma PollIsARun(s: State, p: nat, limit: nat, faults: Faults) returns (steps: seq<Step>)
    requires p in s.publishers && s.publishers[p].Idle? && faults.Possible()
    ensures ValidRun(s, steps)
    ensures var batch := OldestUnpublished(s.rows, limit);
            var t := After(s, steps);
            && t.publishers == s.publishers
            && (if !faults.readOk then t.rows == s.rows && t.log == s.log
                else
                  && t.log == s.log + Kept(s.rows, s.home, batch, faults.sends, 0)
                  && t.rows == if faults.markOk then Marked(s.rows, Acknowledged(batch, faults.sends, 0)) else s.rows)
  {
    hide OldestUnpublished, Acknowledged, Kept;
    var batch := OldestUnpublished(s.rows, limit);
    BatchRowsExist(s.rows, limit);
    NothingToSend(s.rows, s.home, batch, faults.sends);
    if !faults.readOk || batch == [] {
      steps := [];
      assert s.log + [] == s.log && Marked(s.rows, []) == s.rows;
    } else {
      var s1 := Apply(s, BeginPoll(p, limit));
      var sending := SendingIsARun(s1, p, faults.sends);
      FinishPoll(s, s1, p, limit, sending, Acknowledged(batch, faults.sends, 0), faults.markOk);
      steps := [BeginPoll(p, limit)] + sending + [if faults.markOk then Mark(p) else MarkFails(p)];
    }
  }

  /** As part of the protocol: a poll of an idle publisher without faults, no step in between. */
  lemma PollShrinks(s: State, p: nat, limit: nat, faults: Faults) returns (steps: seq<Step>)
    requires p in s.publishers && s.publishers[p].Idle? && faults.Possible() && faults.Absent()
    ensures ValidRun(s, steps) && After(s, steps).publishers == s.publishers
    ensures |Remaining(After(s, steps).rows)| == Left(|Remaining(s.rows)|, limit)
    ensures |After(s, steps).rows| == |s.rows|
  {
    hide Remaining, OldestUnpublished, Acknowledged, Kept, Left;
    steps := PollIsARun(s, p, limit, faults);
    FaultFreePollMarksAll(s.rows, limit, faults);
  }

  /** So a lone publisher drains the outbox: k such polls leave what k batches do not cover. */
  lemma {:induction false} Drains(s: State, p: nat, limit: nat, k: nat, faults: nat -> Faults) returns (steps: seq<Step>)
    requires p in s.publishers && s.publishers[p].Idle?
    requires forall i :: faults(i).Possible() && faults(i).Absent()
    ensures ValidRun(s, steps) && After(s, steps).publishers == s.publishers
    ensures |Remaining(After(s, steps).rows)| == Left(|Remaining(s.rows)|, k * limit)
    ensures |After(s, steps).rows| == |s.rows|
    decreases k
  {
    hide Remaining, Faults.Absent, Faults.Possible, Left, Apply, Enabled;
    if k == 0 {
      steps := [];
      LeftByNone(|Remaining(s.rows)|, limit);
    } else {
      var first := PollShrinks(s, p, limit, faults(k));
      var t := After(s, first);
      var rest := Drains(t, p, limit, k - 1, faults);
      RunsJoin(s, first, rest);
      steps := first + rest;
      LeftByBatches(|Remaining(s.rows)|, k - 1, limit);
    }
  }

  lemma LeftByNone(n: nat, limit: nat)
    ensures Left(n, 0 * limit) == n
  {
  }

  /** One batch and then k more are k + 1 batches. */
  lemma LeftByBatches(n: nat, k: nat, limit: nat)
    ensures Left(Left(n, limit), k * limit) == Left(n, (k + 1) * limit)
  {
    assert (k + 1) * limit == k * limit + limit;
  }

  lemma BatchRowsExist(rows: seq<Row>, limit: nat)
    ensures forall i | 0 <= i < |OldestUnpublished(rows, limit)| :: OldestUnpublished(rows, limit)[i] < |rows|
  {
    var batch := OldestUnpublished(rows, limit);
    forall i | 0 <= i < |batch| ensures batch[i] < |rows| {
      assert batch[i] in batch;
    }
  }

  lemma FinishPoll(
    s: State, s1: State, p: nat, limit: nat, sending: seq<Step>, acked: seq<nat>, markOk: bool)
    requires p in s.publishers && s.publishers[p].Idle?
    requires Enabled(s, BeginPoll(p, limit)) && s1 == Apply(s, BeginPoll(p, limit)) && ValidRun(s1, sending)
    requires After(s1, sending).rows == s.rows
    requires After(s1, sending).publishers == s1.publishers[p := Marking([] + acked)]
    ensures var steps := [BeginPoll(p, limit)] + sending + [if markOk then Mark(p) else MarkFails(p)];
            && ValidRun(s, steps)
            && After(s, steps).publishers == s.publishers
            && After(s, steps).log == After(s1, sending).log
            && After(s, steps).rows == if markOk then Marked(s.rows, acked) else s.rows
  {
    assert [] + acked == acked;
    var last := if markOk then Mark(p) else MarkFails(p);
    RunsJoin(s, [BeginPoll(p, limit)], sending);
    RunsJoin(s, [BeginPoll(p, limit)] + sending, [last]);
    assert s1.publishers[p := Idle] == s.publishers;
  }

  // ---------- no state is a dead end ----------

  lemma {:induction false} Inserts(s: State, keys: seq<Option<nat>>) returns (steps: seq<Step>)
    ensures ValidRun(s, steps)
    ensures var t := After(s, steps);
      && t.publishers == s.publishers && |t.rows| == |s.rows| + |keys| && t.rows[..|s.rows|] == s.rows
      && forall i | 0 <= i < |keys| :: t.rows[|s.rows| + i] == Row(keys[i], Unpublished)
    decreases |keys|
  {
    steps := [];
    if keys != [] {
      var rest := Inserts(Apply(s, Insert(keys[0])), keys[1..]);
      steps := [Insert(keys[0])] + rest;
      var t := After(s, steps);
      assert t.rows[..|s.rows| + 1] == s.rows + [Row(keys[0], Unpublished)];
      assert t.rows[..|s.rows|] == t.rows[..|s.rows| + 1][..|s.rows|] == s.rows;
      forall i | 0 <= i < |keys| ensures t.rows[|s.rows| + i] == Row(keys[i], Unpublished) {
        if i == 0 {
          assert t.rows[..|s.rows| + 1][|s.rows|] == Row(keys[0], Unpublished);
        } else {
          assert t.rows[|s.rows| + 1 + (i - 1)] == Row(keys[1..][i - 1], Unpublished);
        }
      }
    }
  }

  /** A row keeps its place and its key. */
  lemma {:induction false} RunKeepsKeys(s: State, steps: seq<Step>)
    requires ValidRun(s, steps)
    ensures |s.rows| <= |After(s, steps).rows|
    ensures forall i | 0 <= i < |s.rows| :: After(s, steps).rows[i].key == s.rows[i].key
    decreases |steps|
  {
    if steps != [] {
      RunKeepsKeys(Apply(s, steps[0]), steps[1..]);
    }
  }

  /**
   Whatever has happened, rows can still be created, and a publisher that restarts can publish
   them all, the new and the old.
   */
  lemma EveryRowCanBePublished(s: State, p: nat, limit: nat, keys: seq<Option<nat>>) returns (steps: seq<Step>)
    requires Inv(s) && p in s.publishers && limit > 0
    ensures ValidRun(s, steps)
    ensures var t := After(s, steps);
      && Inv(t) && |t.rows| == |s.rows| + |keys|
      && (forall i | 0 <= i < |s.rows| :: t.rows[i].key == s.rows[i].key)
      && (forall i | 0 <= i < |keys| :: t.rows[|s.rows| + i].key == keys[i])
      && (forall row | 0 <= row < |t.rows| :: !t.rows[row].status.Unpublished? && InLog(t.log, row))
  {
    hide Inv, Remaining;
    var inserting := Inserts(s, keys);
    var s1 := After(s, inserting);
    var s2 := Apply(s1, Crash(p));
    var k := |Remaining(s2.rows)|;
    var faultless: nat -> Faults := i => Faults(true, j => SendOutcome(1, 0, true), true);
    var draining := Drains(s2, p, limit, k, faultless);
    NoneLeft(k, limit);
    RunsJoin(s, inserting, [Crash(p)]);
    RunsJoin(s, inserting + [Crash(p)], draining);
    steps := inserting + [Crash(p)] + draining;
    RunKeepsInv(s, steps);
    RunKeepsKeys(s2, draining);
    AllStored(After(s, steps));
    forall i | 0 <= i < |s.rows| ensures After(s, steps).rows[i].key == s.rows[i].key {
      assert s1.rows[..|s.rows|][i] == s.rows[i];
    }
  }

  lemma NoneLeft(k: nat, limit: nat)
    requires limit > 0
    ensures Left(k, k * limit) == 0
  {
    assert k * limit == k + k * (limit - 1);
  }

  lemma AllStored(s: State)
    requires Inv(s) && |Remaining(s.rows)| == 0
    ensures forall row | 0 <= row < |s.rows| :: !s.rows[row].status.Unpublished? && InLog(s.log, row)
  {
    forall row | 0 <= row < |s.rows| ensures !s.rows[row].status.Unpublished? {
      assert row !in Remaining(s.rows);
    }
  }
}
