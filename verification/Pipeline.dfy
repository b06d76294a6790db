/**
 From the outbox to the handler: one partition of the broker's log, a consumer that may
 crash and be redelivered, the dead-letter boundary around its handler, and a handler that
 ignores events it has already applied.
 (packages/kafka-client/src/consumer.ts, packages/kafka-client/src/dlq.ts)
 */
module Pipeline {
  import opened Options
  import opened Outbox

  /** What became of one call of `eachMessage`.  A body that is not JSON counts as a failed handler. */
  datatype Delivery = Handled | DeadLettered | DeadLetterLost

  datatype Consumer = Consumer(
    position: nat,             // next offset to fetch
    committed: nat,            // where a restarted consumer resumes
    reached: nat,              // every offset below was delivered at least once
    applied: seq<nat>,         // rows applied by the handler, in the order it applied them
    failed: set<nat>,          // rows whose delivery failed at least once
    handled: set<nat>, parked: set<nat>, lost: set<nat>)   // offsets, by what became of them

  datatype ConsumerStep = Deliver(result: Delivery) | Commit(offset: nat) | Restart

  const START := Consumer(0, 0, 0, [], {}, {}, {}, {})

  predicate CanTake(log: seq<Entry>, c: Consumer, step: ConsumerStep) {
    match step
    case Deliver(_) => c.position < |log|
    case Commit(offset) => c.committed <= offset <= c.position
    case Restart => true
  }

  function Take(log: seq<Entry>, c: Consumer, step: ConsumerStep): Consumer
    requires CanTake(log, c, step)
  {
    match step
    case Commit(offset) => c.(committed := offset)
    case Restart => c.(position := c.committed)
    case Deliver(result) =>
      var at, row := c.position, log[c.position].row;
      var moved := c.(position := at + 1, reached := if at + 1 > c.reached then at + 1 else c.reached);
      match result
      case Handled =>
        moved.(applied := if row in c.applied then c.applied else c.applied + [row], handled := c.handled + {at})
      case DeadLettered => moved.(failed := c.failed + {row}, parked := c.parked + {at})
      case DeadLetterLost => moved.(failed := c.failed + {row}, lost := c.lost + {at})
  }

  // ---------- the whole system ----------

  datatype System = System(outbox: State, partition: nat, consumer: Consumer)

  datatype SystemStep = Produce(step: Step) | Consume(consumerStep: ConsumerStep)

  /** The messages of one partition, in log order. */
  function PartitionLog(log: seq<Entry>, partition: nat): seq<Entry> {
    if log == [] then []
    else
      var rest := PartitionLog(log[..|log| - 1], partition);
      if log[|log| - 1].partition == partition then rest + [log[|log| - 1]] else rest
  }

  predicate SystemEnabled(s: System, step: SystemStep) {
    match step
    case Produce(st) => Enabled(s.outbox, st)
    case Consume(st) => CanTake(PartitionLog(s.outbox.log, s.partition), s.consumer, st)
  }

  function SystemApply(s: System, step: SystemStep): System
    requires SystemEnabled(s, step)
  {
    match step
    case Produce(st) => s.(outbox := Apply(s.outbox, st))
    case Consume(st) => s.(consumer := Take(PartitionLog(s.outbox.log, s.partition), s.consumer, st))
  }

  ghost predicate SystemRun(s: System, steps: seq<SystemStep>)
    decreases |steps|
  {
    steps == [] || (SystemEnabled(s, steps[0]) && SystemRun(SystemApply(s, steps[0]), steps[1..]))
  }

  ghost function SystemAfter(s: System, steps: seq<SystemStep>): System
    requires SystemRun(s, steps)
    decreases |steps|
  {
    if steps == [] then s else SystemAfter(SystemApply(s, steps[0]), steps[1..])
  }

  ghost predicate SystemInitial(s: System) {
    Initial(s.outbox) && s.consumer == START
  }

  // ---------- the invariant ----------

  ghost predicate SameKey(rows: seq<Row>, a: nat, b: nat) {
    && a < |rows| && b < |rows|
    && rows[a].key.Some? && rows[b].key == rows[a].key
  }

  /** Each message of the partition has every earlier row of its own key before it. */
  ghost predicate KeyOrder(rows: seq<Row>, log: seq<Entry>) {
    forall i, r: nat | 0 <= i < |log| && r < log[i].row && SameKey(rows, r, log[i].row) :: InLog(log[..i], r)
  }

  /** Every row of the reached part was applied or failed, and nothing else was applied. */
  ghost predicate Accounted(log: seq<Entry>, c: Consumer) {
    && c.committed <= c.position <= c.reached <= |log|
    && (forall o | 0 <= o < c.reached :: log[o].row in c.applied || log[o].row in c.failed)
    && (forall a | a in c.applied :: InLog(log[..c.reached], a))
    && (forall f | f in c.failed :: InLog(log[..c.reached], f))
    && (forall o | 0 <= o < c.reached :: o in c.handled || o in c.parked || o in c.lost)
  }

  ghost predicate NoRepeats(ids: seq<nat>) {
    forall i, j | 0 <= i < j < |ids| :: ids[i] != ids[j]
  }

  ghost predicate SystemInv(s: System) {
    && Inv(s.outbox)
    && Accounted(PartitionLog(s.outbox.log, s.partition), s.consumer)
    && NoRepeats(s.consumer.applied)
  }

  lemma PartitionLogGrows(log: seq<Entry>, e: Entry, partition: nat)
    ensures PartitionLog(log + [e], partition)
         == PartitionLog(log, partition) + (if e.partition == partition then [e] else [])
  {
    assert (log + [e])[..|log|] == log;
  }

  lemma {:induction false} PartitionKeepsKeyed(s: State, log: seq<Entry>, partition: nat, row: nat)
    requires forall i | 0 <= i < |log| :: log[i].row < |s.rows|
    requires forall i | 0 <= i < |log| && s.rows[log[i].row].key.Some? :: log[i].partition == s.home(s.rows[log[i].row].key.value)
    requires row < |s.rows| && s.rows[row].key.Some? && s.home(s.rows[row].key.value) == partition && InLog(log, row)
    ensures InLog(PartitionLog(log, partition), row)
  {
    var init, e := log[..|log| - 1], log[|log| - 1];
    assert log == init + [e];
    LogGrows(init, e, row);
    if e.row == row {
      assert PartitionLog(log, partition)[|PartitionLog(init, partition)|].row == row;
    } else {
      PartitionKeepsKeyed(s, init, partition, row);
      LogGrows(PartitionLog(init, partition), e, row);
    }
  }

  lemma {:induction false} PartitionRows(log: seq<Entry>, partition: nat)
    ensures forall i | 0 <= i < |PartitionLog(log, partition)| ::
              InLog(log, PartitionLog(log, partition)[i].row) && PartitionLog(log, partition)[i].partition == partition
  {
    if log != [] {
      var init, e := log[..|log| - 1], log[|log| - 1];
      PartitionRows(init, partition);
      assert log == init + [e];
      forall r ensures InLog(log, r) <==> InLog(init, r) || r == e.row {
        LogGrows(init, e, r);
      }
    }
  }

  /** The order the outbox gives to the whole log carries over, per key, to each partition. */
  lemma {:induction false} PartitionInKeyOrder(s: State, log: seq<Entry>, partition: nat)
    requires InOrder(log)
    requires forall i | 0 <= i < |log| :: log[i].row < |s.rows|
    requires forall i | 0 <= i < |log| && s.rows[log[i].row].key.Some? :: log[i].partition == s.home(s.rows[log[i].row].key.value)
    ensures KeyOrder(s.rows, PartitionLog(log, partition))
  {
    if log != [] {
      var init, e := log[..|log| - 1], log[|log| - 1];
      assert forall i | 0 <= i < |init| :: init[..i] == log[..i];
      PartitionInKeyOrder(s, init, partition);
      var p, q := PartitionLog(log, partition), PartitionLog(init, partition);
      if e.partition == partition {
        forall i, r: nat | 0 <= i < |p| && r < p[i].row && SameKey(s.rows, r, p[i].row) ensures InLog(p[..i], r) {
          if i < |q| {
            assert p[..i] == q[..i] && p[i] == q[i];
          } else {
            assert p[..i] == q && EarlierStored(init, e.row);
            PartitionKeepsKeyed(s, init, partition, r);
          }
        }
      }
    }
  }

  lemma SystemKeyOrder(s: System)
    requires Inv(s.outbox)
    ensures KeyOrder(s.outbox.rows, PartitionLog(s.outbox.log, s.partition))
  {
    PartitionInKeyOrder(s.outbox, s.outbox.log, s.partition);
  }

  lemma InLongerLog(log: seq<Entry>, n: nat, m: nat, row: nat)
    requires n <= m <= |log| && InLog(log[..n], row)
    ensures InLog(log[..m], row)
  {
    var i :| 0 <= i < n && log[..n][i].row == row;
    assert log[..m][i].row == row;
  }

  lemma TakeKeepsAccount(log: seq<Entry>, c: Consumer, step: ConsumerStep)
    requires Accounted(log, c) && NoRepeats(c.applied) && CanTake(log, c, step)
    ensures Accounted(log, Take(log, c, step)) && NoRepeats(Take(log, c, step).applied)
  {
    var d := Take(log, c, step);
    if step.Deliver? {
      var row := log[c.position].row;
      assert log[..d.reached][c.position].row == row;
      forall a | InLog(log[..c.reached], a) ensures InLog(log[..d.reached], a) {
        InLongerLog(log, c.reached, d.reached, a);
      }
    }
  }

  lemma ProduceKeepsAccount(s: System, step: Step)
    requires SystemInv(s) && Enabled(s.outbox, step)
    ensures Accounted(PartitionLog(Apply(s.outbox, step).log, s.partition), s.consumer)
  {
    if step.Store? {
      var log := PartitionLog(s.outbox.log, s.partition);
      PartitionLogGrows(s.outbox.log, Entry(step.row, step.partition), s.partition);
      var log' := PartitionLog(Apply(s.outbox, step).log, s.partition);
      assert log <= log' && log'[..s.consumer.reached] == log[..s.consumer.reached];
    }
  }

  lemma SystemStepKeepsInv(s: System, step: SystemStep)
    requires SystemInv(s) && SystemEnabled(s, step)
    ensures SystemInv(SystemApply(s, step))
  {
    match step
    case Produce(st) =>
      StepKeepsInv(s.outbox, st);
      ProduceKeepsAccount(s, st);
    case Consume(st) =>
      TakeKeepsAccount(PartitionLog(s.outbox.log, s.partition), s.consumer, st);
  }

  lemma {:induction false} SystemRunKeepsInv(s: System, steps: seq<SystemStep>)
    requires SystemInv(s) && SystemRun(s, steps)
    ensures SystemInv(SystemAfter(s, steps))
    decreases |steps|
  {
    if steps != [] {
      SystemStepKeepsInv(s, steps[0]);
      SystemRunKeepsInv(SystemApply(s, steps[0]), steps[1..]);
    }
  }

  // ---------- what a run guarantees ----------

  /**
   However publishers and consumer interleave, crash and repeat: no event is applied twice,
   only stored rows of the partition are applied, and each offset below the committed one
   was handled, parked in the dead-letter topic, or had its dead-letter write fail.
   */
  lemma AtMostOnceAndNothingDropped(s: System, steps: seq<SystemStep>)
    requires SystemInitial(s) && SystemRun(s, steps)
    ensures var t := SystemAfter(s, steps);
            && NoRepeats(t.consumer.applied)
            && (forall a | a in t.consumer.applied :: InLog(t.outbox.log, a))
            && (forall o | 0 <= o < t.consumer.committed ::
                  o in t.consumer.handled || o in t.consumer.parked || o in t.consumer.lost)
  {
    SystemRunKeepsInv(s, steps);
    var t := SystemAfter(s, steps);
    var log := PartitionLog(t.outbox.log, t.partition);
    PartitionRows(t.outbox.log, t.partition);
    forall a | a in t.consumer.applied ensures InLog(t.outbox.log, a) {
      var i :| 0 <= i < t.consumer.reached && log[..t.consumer.reached][i].row == a;
    }
  }

  // ---------- order ----------

  /** The applied rows of each key appear in the order the outbox gave them. */
  ghost predicate AppliedInOrder(rows: seq<Row>, applied: seq<nat>) {
    forall i, j | 0 <= i < j < |applied| && SameKey(rows, applied[i], applied[j]) :: applied[i] < applied[j]
  }

  /**
   A message is about to succeed although an earlier delivery of the same row failed and a
   later row of its key has been applied since.
   */
  ghost predicate LateSuccess(s: System, step: SystemStep) {
    var log, c := PartitionLog(s.outbox.log, s.partition), s.consumer;
    && step.Consume? && step.consumerStep == Deliver(Handled) && c.position < |log|
    && var row := log[c.position].row;
       && row in c.failed && row !in c.applied
       && exists a | a in c.applied :: SameKey(s.outbox.rows, row, a) && row < a
  }

  /** The first delivery of a row comes after those of all earlier rows of its key. */
  lemma FreshIsNext(rows: seq<Row>, log: seq<Entry>, c: Consumer, a: nat)
    requires KeyOrder(rows, log) && Accounted(log, c) && c.position < |log| && a in c.applied
    requires SameKey(rows, log[c.position].row, a) && log[c.position].row < a
    ensures log[c.position].row in c.applied || log[c.position].row in c.failed
  {
    var row := log[c.position].row;
    var i :| 0 <= i < c.reached && log[..c.reached][i].row == a;
    assert log[i].row == a;
    assert InLog(log[..i], row);
    var j :| 0 <= j < i && log[..i][j].row == row;
    assert log[j].row == row;
  }

  /** One step keeps the order exactly when it is not a late success. */
  lemma OrderKeptIff(s: System, step: SystemStep)
    requires SystemInv(s) && SystemEnabled(s, step)
    requires AppliedInOrder(s.outbox.rows, s.consumer.applied)
    ensures AppliedInOrder(SystemApply(s, step).outbox.rows, SystemApply(s, step).consumer.applied)
            <==> !LateSuccess(s, step)
  {
    if step.Produce? {
      RowsKeepKeys(s, step.step);
    } else if step.consumerStep == Deliver(Handled) {
      HandlingKeepsOrderIff(s);
    }
  }

  lemma HandlingKeepsOrderIff(s: System)
    requires SystemInv(s) && SystemEnabled(s, Consume(Deliver(Handled)))
    requires AppliedInOrder(s.outbox.rows, s.consumer.applied)
    ensures var step := Consume(Deliver(Handled));
      AppliedInOrder(s.outbox.rows, SystemApply(s, step).consumer.applied) <==> !LateSuccess(s, step)
  {
    var step := Consume(Deliver(Handled));
    var rows, log, c := s.outbox.rows, PartitionLog(s.outbox.log, s.partition), s.consumer;
    var row, applied := log[c.position].row, c.applied;
    hide PartitionLog;
    if row !in applied {
      SystemKeyOrder(s);
      if LateSuccess(s, step) {
        var a :| a in applied && SameKey(rows, row, a) && row < a;
        var i :| 0 <= i < |applied| && applied[i] == a;
        assert (applied + [row])[i] == a && (applied + [row])[|applied|] == row;
      } else {
        hide KeyOrder, Accounted;
        forall a | a in applied && SameKey(rows, a, row) ensures a < row {
          if row < a {
            FreshIsNext(rows, log, c, a);
          }
        }
      }
    }
  }

  lemma RowsKeepKeys(s: System, step: Step)
    requires SystemInv(s) && Enabled(s.outbox, step)
    ensures forall a, b | a in s.consumer.applied && b in s.consumer.applied ::
              SameKey(Apply(s.outbox, step).rows, a, b) <==> SameKey(s.outbox.rows, a, b)
  {
    var log := PartitionLog(s.outbox.log, s.partition);
    PartitionRows(s.outbox.log, s.partition);
    forall a | a in s.consumer.applied ensures a < |s.outbox.rows| {
      var i :| 0 <= i < s.consumer.reached && log[..s.consumer.reached][i].row == a;
      var j :| 0 <= j < |s.outbox.log| && s.outbox.log[j].row == log[i].row;
    }
  }

  ghost predicate NoLateSuccess(s: System, steps: seq<SystemStep>)
    requires SystemRun(s, steps)
    decreases |steps|
  {
    steps == [] || (!LateSuccess(s, steps[0]) && NoLateSuccess(SystemApply(s, steps[0]), steps[1..]))
  }

  /** Rows once applied out of order stay so. */
  lemma DisorderStays(s: System, step: SystemStep)
    requires SystemInv(s) && SystemEnabled(s, step)
    requires !AppliedInOrder(s.outbox.rows, s.consumer.applied)
    ensures !AppliedInOrder(SystemApply(s, step).outbox.rows, SystemApply(s, step).consumer.applied)
  {
    var t := SystemApply(s, step);
    var applied := s.consumer.applied;
    var i, j :| 0 <= i < j < |applied| && SameKey(s.outbox.rows, applied[i], applied[j]) && applied[i] >= applied[j];
    if step.Produce? {
      RowsKeepKeys(s, step.step);
    }
    assert t.consumer.applied[i] == applied[i] && t.consumer.applied[j] == applied[j];
    assert SameKey(t.outbox.rows, applied[i], applied[j]);
  }

  lemma {:induction false} DisorderStaysOnRuns(s: System, steps: seq<SystemStep>)
    requires SystemInv(s) && SystemRun(s, steps)
    requires !AppliedInOrder(s.outbox.rows, s.consumer.applied)
    ensures !AppliedInOrder(SystemAfter(s, steps).outbox.rows, SystemAfter(s, steps).consumer.applied)
    decreases |steps|
  {
    if steps != [] {
      DisorderStays(s, steps[0]);
      SystemStepKeepsInv(s, steps[0]);
      DisorderStaysOnRuns(SystemApply(s, steps[0]), steps[1..]);
    }
  }

  /** Over a whole run: every key's events were applied in outbox order exactly when no success came late. */
  lemma {:induction false} AppliedInOutboxOrderIff(s: System, steps: seq<SystemStep>)
    requires SystemInv(s) && AppliedInOrder(s.outbox.rows, s.consumer.applied) && SystemRun(s, steps)
    ensures AppliedInOrder(SystemAfter(s, steps).outbox.rows, SystemAfter(s, steps).consumer.applied)
            <==> NoLateSuccess(s, steps)
    decreases |steps|
  {
    if steps != [] {
      var t := SystemApply(s, steps[0]);
      OrderKeptIff(s, steps[0]);
      SystemStepKeepsInv(s, steps[0]);
      if LateSuccess(s, steps[0]) {
        DisorderStaysOnRuns(t, steps[1..]);
      } else {
        AppliedInOutboxOrderIff(t, steps[1..]);
      }
    }
  }

  /** From the start: order holds exactly on the runs without a late success. */
  lemma OrderFromTheStart(s: System, steps: seq<SystemStep>)
    requires SystemInitial(s) && SystemRun(s, steps)
    ensures AppliedInOrder(SystemAfter(s, steps).outbox.rows, SystemAfter(s, steps).consumer.applied)
            <==> NoLateSuccess(s, steps)
  {
    AppliedInOutboxOrderIff(s, steps);
  }

  /** A row whose delivery once failed is never handled afterwards. */
  ghost predicate FailuresAreFinal(s: System, steps: seq<SystemStep>)
    requires SystemRun(s, steps)
    decreases |steps|
  {
    steps == [] || (!HandlesFailed(s, steps[0]) && FailuresAreFinal(SystemApply(s, steps[0]), steps[1..]))
  }

  ghost predicate HandlesFailed(s: System, step: SystemStep) {
    var log, c := PartitionLog(s.outbox.log, s.partition), s.consumer;
    step.Consume? && step.consumerStep == Deliver(Handled) && c.position < |log| && log[c.position].row in c.failed
  }

  lemma {:induction false} FinalFailuresAreNeverLate(s: System, steps: seq<SystemStep>)
    requires SystemRun(s, steps) && FailuresAreFinal(s, steps)
    ensures NoLateSuccess(s, steps)
    decreases |steps|
  {
    hide SystemApply, SystemEnabled;
    if steps != [] {
      FinalFailuresAreNeverLate(SystemApply(s, steps[0]), steps[1..]);
    }
  }

  /** With a handler whose failures are final, every key's events are applied in outbox order. */
  lemma FinalFailuresKeepOrder(s: System, steps: seq<SystemStep>)
    requires SystemInitial(s) && SystemRun(s, steps) && FailuresAreFinal(s, steps)
    ensures AppliedInOrder(SystemAfter(s, steps).outbox.rows, SystemAfter(s, steps).consumer.applied)
  {
    FinalFailuresAreNeverLate(s, steps);
    OrderFromTheStart(s, steps);
  }

  /**
   Late successes do occur: the first of two events fails and is dead-lettered, the second is
   applied, the consumer restarts before committing, and the first now succeeds.
   */
  lemma OrderCanBreak(home: nat -> nat) returns (s: System, steps: seq<SystemStep>)
    ensures SystemInitial(s) && SystemRun(s, steps)
    ensures SystemAfter(s, steps).consumer.applied == [1, 0]
    ensures SameKey(SystemAfter(s, steps).outbox.rows, 0, 1)
    ensures !AppliedInOrder(SystemAfter(s, steps).outbox.rows, SystemAfter(s, steps).consumer.applied)
  {
    var p := home(7);
    var row := Row(Some(7), Unpublished);
    s := System(State([row, row], [], {}, map[0 := Idle], home), p, START);
    var sends := (i: nat) => SendOutcome(1, 0, true);
    var published := PollIsARun(s.outbox, 0, 2, Faults(true, sends, false));
    TwoRowsKept(s.outbox.rows, home, sends);
    steps := Produces(s, published);
    var t := SystemAfter(s, steps);
    assert t.outbox.log == [Entry(0, p)] + [Entry(1, p)] == [] + [Entry(0, p)] + [Entry(1, p)];
    PartitionLogGrows([], Entry(0, p), p);
    PartitionLogGrows([Entry(0, p)], Entry(1, p), p);
    assert [] + [Entry(0, p)] == [Entry(0, p)];
    var tail := FailThenSucceed(t);
    SystemRunsJoin(s, steps, tail);
    steps := steps + tail;
    var applied := SystemAfter(s, steps).consumer.applied;
    assert applied[0] == 1 && applied[1] == 0;
  }

  lemma TwoRowsKept(rows: seq<Row>, home: nat -> nat, sends: nat -> SendOutcome)
    requires rows == [Row(Some(7), Unpublished), Row(Some(7), Unpublished)]
    requires forall i :: sends(i) == SendOutcome(1, 0, true)
    ensures OldestUnpublished(rows, 2) == [0, 1]
    ensures Kept(rows, home, [0, 1], sends, 0) == [Entry(0, home(7)), Entry(1, home(7))]
  {
    assert OldestFrom(rows, 1, 1) == [1];
    assert Kept(rows, home, [0, 1], sends, 2) == [];
    assert Kept(rows, home, [0, 1], sends, 1) == [Entry(1, home(7))];
  }

  lemma {:induction false} SystemRunsJoin(s: System, a: seq<SystemStep>, b: seq<SystemStep>)
    requires SystemRun(s, a) && SystemRun(SystemAfter(s, a), b)
    ensures SystemRun(s, a + b) && SystemAfter(s, a + b) == SystemAfter(SystemAfter(s, a), b)
    decreases |a|
  {
    hide SystemApply, SystemEnabled;
    if a == [] {
      assert a + b == b;
    } else {
      SystemRunsJoin(SystemApply(s, a[0]), a[1..], b);
      assert (a + b)[1..] == a[1..] + b;
    }
  }

  lemma {:induction false} Produces(s: System, steps: seq<Step>) returns (all: seq<SystemStep>)
    requires ValidRun(s.outbox, steps)
    ensures SystemRun(s, all) && SystemAfter(s, all) == s.(outbox := After(s.outbox, steps))
    decreases |steps|
  {
    if steps == [] {
      all := [];
    } else {
      var rest := Produces(SystemApply(s, Produce(steps[0])), steps[1..]);
      all := Then(s, Produce(steps[0]), rest);
    }
  }

  lemma Then(s: System, step: SystemStep, rest: seq<SystemStep>) returns (all: seq<SystemStep>)
    requires SystemEnabled(s, step) && SystemRun(SystemApply(s, step), rest)
    ensures all == [step] + rest && SystemRun(s, all)
    ensures SystemAfter(s, all) == SystemAfter(SystemApply(s, step), rest)
  {
    all := [step] + rest;
    assert all[1..] == rest;
  }

  lemma FailThenSucceed(s: System) returns (steps: seq<SystemStep>)
    requires s.consumer == START
    requires |PartitionLog(s.outbox.log, s.partition)| == 2
    requires PartitionLog(s.outbox.log, s.partition)[0].row == 0 && PartitionLog(s.outbox.log, s.partition)[1].row == 1
    ensures SystemRun(s, steps) && SystemAfter(s, steps).consumer.applied == [1, 0]
    ensures SystemAfter(s, steps).outbox == s.outbox
  {
    hide PartitionLog;
    var s1 := SystemApply(s, Consume(Deliver(DeadLettered)));
    var s2 := SystemApply(s1, Consume(Deliver(Handled)));
    var s3 := SystemApply(s2, Consume(Restart));
    steps := Then(s3, Consume(Deliver(Handled)), []);
    steps := Then(s2, Consume(Restart), steps);
    steps := Then(s1, Consume(Deliver(Handled)), steps);
    steps := Then(s, Consume(Deliver(DeadLettered)), steps);
  }

  // ---------- no state is a dead end ----------

  /** Reading on without a failure applies the rest of the partition. */
  lemma {:induction false} HandlesTheRest(s: System) returns (steps: seq<SystemStep>)
    requires s.consumer.position <= |PartitionLog(s.outbox.log, s.partition)|
    ensures SystemRun(s, steps)
    ensures var log, t := PartitionLog(s.outbox.log, s.partition), SystemAfter(s, steps);
      && t.outbox == s.outbox && t.partition == s.partition
      && t.consumer.position == |log| && t.consumer.committed == s.consumer.committed
      && s.consumer.applied <= t.consumer.applied
      && forall o | s.consumer.position <= o < |log| :: log[o].row in t.consumer.applied
    decreases |PartitionLog(s.outbox.log, s.partition)| - s.consumer.position
  {
    hide PartitionLog;
    steps := [];
    if s.consumer.position < |PartitionLog(s.outbox.log, s.partition)| {
      var step := Consume(Deliver(Handled));
      var s1 := SystemApply(s, step);
      assert PartitionLog(s.outbox.log, s.partition)[s.consumer.position].row in s1.consumer.applied;
      var rest := HandlesTheRest(s1);
      steps := Then(s, step, rest);
    }
  }

  lemma CommitsTheRest(s: System) returns (steps: seq<SystemStep>)
    requires s.consumer.committed <= |PartitionLog(s.outbox.log, s.partition)|
    ensures SystemRun(s, steps)
    ensures var log, t := PartitionLog(s.outbox.log, s.partition), SystemAfter(s, steps);
      && t.outbox == s.outbox && t.partition == s.partition && t.consumer.committed == |log|
      && forall o | s.consumer.committed <= o < |log| :: log[o].row in t.consumer.applied
  {
    hide PartitionLog;
    var s1 := SystemApply(s, Consume(Restart));
    var reading := HandlesTheRest(s1);
    var s2 := SystemAfter(s1, reading);
    var commit := Then(s2, Consume(Commit(s2.consumer.position)), []);
    SystemRunsJoin(s1, reading, commit);
    steps := Then(s, Consume(Restart), reading + commit);
  }

  /**
   Whatever has crashed, failed or been repeated, rows can still be created, and once a publisher and
   the consumer restart, every row, old or new, can be stored, and each message of the partition from
   the committed offset on can be applied and committed.
   */
  lemma EverythingCanArrive(s: System, p: nat, limit: nat, keys: seq<Option<nat>>) returns (steps: seq<SystemStep>)
    requires SystemInv(s) && p in s.outbox.publishers && limit > 0
    ensures SystemRun(s, steps)
    ensures var t := SystemAfter(s, steps);
      && |t.outbox.rows| == |s.outbox.rows| + |keys|
      && (forall i | 0 <= i < |keys| :: t.outbox.rows[|s.outbox.rows| + i].key == keys[i])
      && (forall row | 0 <= row < |t.outbox.rows| :: !t.outbox.rows[row].status.Unpublished? && InLog(t.outbox.log, row))
    ensures var t := SystemAfter(s, steps);
      var log := PartitionLog(t.outbox.log, t.partition);
      && t.partition == s.partition && t.consumer.committed == |log|
      && forall o | s.consumer.committed <= o < |log| :: log[o].row in t.consumer.applied
  {
    hide SystemInv, Inv, PartitionLog;
    var publishing := ProducesAll(s, p, limit, keys);
    var s1 := SystemAfter(s, publishing);
    SystemRunKeepsInv(s, publishing);
    InvBoundsCommit(s1);
    var consuming := CommitsTheRest(s1);
    SystemRunsJoin(s, publishing, consuming);
    steps := publishing + consuming;
  }

  lemma ProducesAll(s: System, p: nat, limit: nat, keys: seq<Option<nat>>) returns (steps: seq<SystemStep>)
    requires SystemInv(s) && p in s.outbox.publishers && limit > 0
    ensures SystemRun(s, steps)
    ensures var t := SystemAfter(s, steps);
      && t.consumer == s.consumer && t.partition == s.partition
      && |t.outbox.rows| == |s.outbox.rows| + |keys|
      && (forall i | 0 <= i < |keys| :: t.outbox.rows[|s.outbox.rows| + i].key == keys[i])
      && (forall row | 0 <= row < |t.outbox.rows| :: !t.outbox.rows[row].status.Unpublished? && InLog(t.outbox.log, row))
  {
    hide Inv, Accounted, NoRepeats;
    var publishing := EveryRowCanBePublished(s.outbox, p, limit, keys);
    steps := Produces(s, publishing);
  }

  lemma InvBoundsCommit(s: System)
    requires SystemInv(s)
    ensures s.consumer.committed <= |PartitionLog(s.outbox.log, s.partition)|
  {
  }

  // ---------- the dead-letter sender and the message boundary, as the source keeps them ----------

  /** `dlqProducer`: unset, or cached with or without a connection behind it. */
  datatype Cached = Unset | Cached(connected: bool)

  /** How the broker treats one dead-letter write: the connection attempt, if one is made, and the send. */
  datatype Link = Link(connects: bool, accepts: bool)

  function CachedAfter(cached: Cached, link: Link): Cached {
    if cached.Unset? then Cached(link.connects) else cached
  }

  /** A producer that never connected rejects every send. */
  predicate Parks(cached: Cached, link: Link) {
    CachedAfter(cached, link).connected && link.accepts
  }

  ghost function CachedOver(cached: Cached, links: seq<Link>): Cached
    decreases |links|
  {
    if links == [] then cached else CachedOver(CachedAfter(cached, links[0]), links[1..])
  }

  /**
   The producer is cached before it connects, so the first connection decides: after it fails,
   no letter is parked, whatever the broker does later; after it succeeds, each letter is parked
   exactly when the broker accepts it.
   */
  lemma {:induction false} FirstConnectionDecides(links: seq<Link>, next: Link)
    requires links != []
    ensures Parks(CachedOver(Unset, links), next) <==> links[0].connects && next.accepts
  {
    StaysCached(links[0].connects, links[1..]);
  }

  lemma {:induction false} CachedSnoc(cached: Cached, links: seq<Link>, link: Link)
    ensures CachedOver(cached, links + [link]) == CachedAfter(CachedOver(cached, links), link)
    decreases |links|
  {
    if links != [] {
      assert (links + [link])[1..] == links[1..] + [link];
      CachedSnoc(CachedAfter(cached, links[0]), links[1..], link);
    }
  }

  lemma {:induction false} StaysCached(connected: bool, links: seq<Link>)
    ensures CachedOver(Cached(connected), links) == Cached(connected)
  {
    if links != [] {
      StaysCached(connected, links[1..]);
    }
  }

  class DeadLetters {
    var dlqProducer: Cached
    var parked: seq<Entry>

    constructor ()
      ensures dlqProducer == Unset && parked == []
    {
      dlqProducer, parked := Unset, [];
    }

    /** Fails when the connection does; the cache is filled either way. */
    method GetDlqProducer(link: Link) returns (ok: bool)
      modifies this`dlqProducer
      ensures dlqProducer == CachedAfter(old(dlqProducer), link)
      ensures ok == (old(dlqProducer).Cached? || link.connects)
    {
      if dlqProducer.Cached? {
        return true;
      }
      dlqProducer := Cached(false);
      if !link.connects {
        return false;
      }
      dlqProducer := Cached(true);
      return true;
    }

    /** Always returns: a failed write is logged and swallowed. */
    method SendToDlq(letter: Entry, link: Link) returns (written: bool)
      modifies this
      ensures dlqProducer == CachedAfter(old(dlqProducer), link)
      ensures written == Parks(old(dlqProducer), link)
      ensures parked == if written then old(parked) + [letter] else old(parked)
    {
      written := false;
      var ok := GetDlqProducer(link);
      if ok && dlqProducer.connected && link.accepts {
        parked := parked + [letter];
        written := true;
      }
    }

    method DisconnectDlq()
      modifies this`dlqProducer
      ensures dlqProducer == Unset
    {
      if dlqProducer.Cached? {
        dlqProducer := Unset;
      }
    }
  }

  class PartitionConsumer {
    var state: Consumer
    const dlq: DeadLetters

    constructor (dlq: DeadLetters)
      ensures state == START && this.dlq == dlq
    {
      state := START;
      this.dlq := dlq;
    }

    /**
     The boundary around the handler: a body that does not parse and a handler that throws both
     go to the dead-letter topic, and the offset advances in every case.
     */
    method EachMessage(log: seq<Entry>, parses: bool, handlerThrows: bool, link: Link) returns (result: Delivery)
      requires state.position < |log|
      modifies this`state, dlq
      ensures state == Take(log, old(state), Deliver(result))
      ensures result == Handled <==> parses && !handlerThrows
      ensures result == DeadLettered <==> !(parses && !handlerThrows) && Parks(old(dlq.dlqProducer), link)
      ensures result == DeadLettered ==> dlq.parked == old(dlq.parked) + [log[old(state.position)]]
      ensures result != DeadLettered ==> dlq.parked == old(dlq.parked)
      ensures dlq.dlqProducer == if result == Handled then old(dlq.dlqProducer) else CachedAfter(old(dlq.dlqProducer), link)
    {
      var at := state.position;
      var row := log[at].row;
      var error := false;
      if !parses {
        error := true;
      } else if handlerThrows {
        error := true;
      } else if row !in state.applied {
        state := state.(applied := state.applied + [row]);
      }
      if error {
        var written := dlq.SendToDlq(log[at], link);
        state := state.(failed := state.failed + {row});
        if written {
          result := DeadLettered;
          state := state.(parked := state.parked + {at});
        } else {
          result := DeadLetterLost;
          state := state.(lost := state.lost + {at});
        }
      } else {
        result := Handled;
        state := state.(handled := state.handled + {at});
      }
      state := state.(position := at + 1);
      if at + 1 > state.reached {
        state := state.(reached := at + 1);
      }
    }

    /**
     Reading a partition to its end: no fault of a body, of the handler or of the dead-letter queue
     stops it.  Each offset from here on is handled, parked or lost, and what the dead-letter cache
     held when a letter was written decides between the last two.
     */
    method ReadToEnd(log: seq<Entry>, faults: nat -> Fault)
      requires state.position <= |log|
      modifies this`state, dlq
      ensures state.position == |log| && state.committed == old(state.committed)
      ensures var from := old(state.position);
        && dlq.dlqProducer == CacheAt(old(dlq.dlqProducer), faults, from, |log|)
        && state.handled == old(state.handled) + set o | from <= o < |log| && faults(o).parses && !faults(o).handlerThrows
        && state.parked == old(state.parked) + set o | from <= o < |log| && Lands(old(dlq.dlqProducer), faults, from, o)
        && state.lost == old(state.lost) + set o | from <= o < |log| && (!faults(o).parses || faults(o).handlerThrows)
                                                  && !Lands(old(dlq.dlqProducer), faults, from, o)
      ensures forall o | old(state.position) <= o < |log| :: o in state.handled || o in state.parked || o in state.lost
      ensures var from := old(state.position);
        && (forall row :: row in state.applied <==>
              row in old(state.applied)
              || exists o | from <= o < |log| :: log[o].row == row && faults(o).parses && !faults(o).handlerThrows)
        && (forall row :: row in state.failed <==>
              row in old(state.failed)
              || exists o | from <= o < |log| :: log[o].row == row && (!faults(o).parses || faults(o).handlerThrows))
      ensures old(state.applied) <= state.applied && (NoRepeats(old(state.applied)) ==> NoRepeats(state.applied))
    {
      ghost var from, before, cache := state.position, state, dlq.dlqProducer;
      ReadNothing(log, before, cache, faults);
      hide ReadUpTo, RowsUpTo, Take, Parks, CachedAfter;
      while state.position < |log|
        invariant state.position <= |log|
        invariant ReadUpTo(before, state, cache, dlq.dlqProducer, faults)
        invariant RowsUpTo(log, before, state, faults)
      {
        ghost var last, cached := state, dlq.dlqProducer;
        var f := faults(state.position);
        var result := EachMessage(log, f.parses, f.handlerThrows, f.link);
        ReadOneMore(log, before, last, cache, cached, faults, result);
        RowsOneMore(log, before, last, faults, result);
        TakenAt(log, last, result);
      }
      ReadMeans(before, state, cache, dlq.dlqProducer, faults);
      RowsMean(log, before, state, faults);
    }
  }

  /** What reading on from `before`, with this cache, has come to. */
  ghost predicate ReadUpTo(before: Consumer, c: Consumer, cache: Cached, cached: Cached, faults: nat -> Fault) {
    var from := before.position;
    && from <= c.position && c.committed == before.committed
    && cached == CacheAt(cache, faults, from, c.position)
    && c.handled == before.handled + (set o | from <= o < c.position && !faults(o).Fails())
    && c.parked == before.parked + (set o | from <= o < c.position && Lands(cache, faults, from, o))
    && c.lost == before.lost + (set o | from <= o < c.position && faults(o).Fails() && !Lands(cache, faults, from, o))
  }

  /** And the rows applied and failed by then. */
  ghost predicate RowsUpTo(log: seq<Entry>, before: Consumer, c: Consumer, faults: nat -> Fault) {
    && before.position <= c.position <= |log|
    && (forall row :: row in c.applied <==>
          row in before.applied || exists o | before.position <= o < c.position :: log[o].row == row && !faults(o).Fails())
    && (forall row :: row in c.failed <==>
          row in before.failed || exists o | before.position <= o < c.position :: log[o].row == row && faults(o).Fails())
    && before.applied <= c.applied && (NoRepeats(before.applied) ==> NoRepeats(c.applied))
  }

  lemma RowsOneMore(log: seq<Entry>, before: Consumer, c: Consumer, faults: nat -> Fault, result: Delivery)
    requires RowsUpTo(log, before, c, faults) && c.position < |log|
    requires result == Handled <==> !faults(c.position).Fails()
    ensures RowsUpTo(log, before, Take(log, c, Deliver(result)), faults)
  {
    hide Fault.Fails;
  }

  lemma RowsMean(log: seq<Entry>, before: Consumer, c: Consumer, faults: nat -> Fault)
    requires RowsUpTo(log, before, c, faults)
    ensures forall row :: row in c.applied <==>
              row in before.applied
              || exists o | before.position <= o < c.position :: log[o].row == row && faults(o).parses && !faults(o).handlerThrows
    ensures forall row :: row in c.failed <==>
              row in before.failed
              || exists o | before.position <= o < c.position :: log[o].row == row && (!faults(o).parses || faults(o).handlerThrows)
    ensures before.applied <= c.applied && (NoRepeats(before.applied) ==> NoRepeats(c.applied))
  {
  }

  lemma ReadNothing(log: seq<Entry>, c: Consumer, cache: Cached, faults: nat -> Fault)
    requires c.position <= |log|
    ensures ReadUpTo(c, c, cache, cache, faults) && RowsUpTo(log, c, c, faults)
  {
  }

  lemma ReadOneMore(log: seq<Entry>, before: Consumer, c: Consumer, cache: Cached, cached: Cached, faults: nat -> Fault,
                    result: Delivery)
    requires ReadUpTo(before, c, cache, cached, faults) && c.position < |log|
    requires var f := faults(c.position);
      && (result == Handled <==> !f.Fails())
      && (result == DeadLettered <==> f.Fails() && Parks(cached, f.link))
    ensures var f := faults(c.position);
      ReadUpTo(before, Take(log, c, Deliver(result)), cache,
               if result == Handled then cached else CachedAfter(cached, f.link), faults)
  {
    hide Take, Parks, CachedAfter, Fault.Fails;
    CacheOneMore(cache, faults, before.position, c.position);
    TakenAt(log, c, result);
    hide Lands, CacheAt;
  }

  lemma ReadMeans(before: Consumer, c: Consumer, cache: Cached, cached: Cached, faults: nat -> Fault)
    requires ReadUpTo(before, c, cache, cached, faults)
    ensures var from := before.position;
      && from <= c.position && c.committed == before.committed
      && cached == CacheAt(cache, faults, from, c.position)
      && c.handled == before.handled + (set o | from <= o < c.position && !faults(o).Fails())
      && c.parked == before.parked + (set o | from <= o < c.position && Lands(cache, faults, from, o))
      && c.lost == before.lost + (set o | from <= o < c.position && faults(o).Fails() && !Lands(cache, faults, from, o))
    ensures forall o | before.position <= o < c.position :: o in c.handled || o in c.parked || o in c.lost
  {
    hide Lands, CacheAt, Fault.Fails;
  }

  /** Where the offset of a delivery goes. */
  lemma TakenAt(log: seq<Entry>, c: Consumer, result: Delivery)
    requires c.position < |log|
    ensures var t := Take(log, c, Deliver(result));
      && t.position == c.position + 1 && t.committed == c.committed
      && t.handled == c.handled + (if result == Handled then {c.position} else {})
      && t.parked == c.parked + (if result == DeadLettered then {c.position} else {})
      && t.lost == c.lost + (if result == DeadLetterLost then {c.position} else {})
  {
  }

  lemma CacheOneMore(cached: Cached, faults: nat -> Fault, from: nat, at: nat)
    requires from <= at
    ensures var before := CacheAt(cached, faults, from, at);
      && CacheAt(cached, faults, from, at + 1)
         == (if faults(at).Fails() then CachedAfter(before, faults(at).link) else before)
      && (Lands(cached, faults, from, at) <==> faults(at).Fails() && Parks(before, faults(at).link))
  {
  }

  /** What goes wrong with one message. */
  datatype Fault = Fault(parses: bool, handlerThrows: bool, link: Link) {
    predicate Fails() {
      !parses || handlerThrows
    }
  }

  /** The cache when the message at `end` is reached, reading on from `from`. */
  ghost function CacheAt(cached: Cached, faults: nat -> Fault, from: nat, end: nat): Cached
    requires from <= end
    decreases end - from
  {
    if end == from then cached
    else
      var before := CacheAt(cached, faults, from, end - 1);
      if faults(end - 1).Fails() then CachedAfter(before, faults(end - 1).link) else before
  }

  /** The message fails and its letter is written. */
  ghost predicate Lands(cached: Cached, faults: nat -> Fault, from: nat, at: nat)
    requires from <= at
  {
    faults(at).Fails() && Parks(CacheAt(cached, faults, from, at), faults(at).link)
  }

  /** The links of the failing messages, in order. */
  ghost function Links(faults: nat -> Fault, from: nat, end: nat): (links: seq<Link>)
    requires from <= end
    ensures links == [] <==> forall o | from <= o < end :: !faults(o).Fails()
    decreases end - from
  {
    if end == from then []
    else Links(faults, from, end - 1) + if faults(end - 1).Fails() then [faults(end - 1).link] else []
  }

  lemma {:induction false} CacheIsOverLinks(cached: Cached, faults: nat -> Fault, from: nat, end: nat)
    requires from <= end
    ensures CacheAt(cached, faults, from, end) == CachedOver(cached, Links(faults, from, end))
    decreases end - from
  {
    hide CachedAfter;
    if from < end {
      CacheIsOverLinks(cached, faults, from, end - 1);
      CachedSnoc(cached, Links(faults, from, end - 1), faults(end - 1).link);
      assert Links(faults, from, end - 1) + [] == Links(faults, from, end - 1);
    }
  }

  lemma {:induction false} FirstLink(faults: nat -> Fault, from: nat, first: nat, end: nat)
    requires from <= first < end && faults(first).Fails() && forall o | from <= o < first :: !faults(o).Fails()
    ensures Links(faults, from, end) != [] && Links(faults, from, end)[0] == faults(first).link
    decreases end
  {
    if end > first + 1 {
      FirstLink(faults, from, first, end - 1);
    } else {
      assert Links(faults, from, first) == [];
    }
  }

  /**
   Reading on with an empty cache, the first failing message decides for all: a failing message is
   parked exactly when that first one could connect and the broker accepts the letter.
   */
  lemma FirstFailureDecides(faults: nat -> Fault, from: nat, first: nat, at: nat)
    requires from <= first <= at && faults(first).Fails() && faults(at).Fails()
    requires forall o | from <= o < first :: !faults(o).Fails()
    ensures Lands(Unset, faults, from, at) <==> faults(first).link.connects && faults(at).link.accepts
  {
    CacheIsOverLinks(Unset, faults, from, at);
    if first == at {
      assert Links(faults, from, at) == [];
    } else {
      FirstLink(faults, from, first, at);
      FirstConnectionDecides(Links(faults, from, at), faults(at).link);
    }
  }
}
