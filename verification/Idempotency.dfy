/**
 The idempotent request runner over one Redis key, for any number of concurrent requests.
 (apps/api-gateway/src/http/idempotency.ts)

 Each request is a little program whose every Redis command is one atomic step.  A command may
 fail; a write that fails may or may not have landed.  The key may expire at any time.
 */
module Idempotency {
  import opened Options

  // ---------- the stored record ----------

  datatype Json =
    | JNull
    | JBool(b: bool)
    | JNumber(n: int)
    | JString(s: string)
    | JArray(items: seq<Json>)
    | JObject(fields: map<string, Json>)

  /** The handler's result: a status code and a JSON object. */
  datatype Result = Result(statusCode: int, body: map<string, Json>)

  datatype Record =
    | Processing(fingerprint: string)
    | Completed(fingerprint: string, result: Result)

  /** What the key holds: text that is not JSON, or JSON. */
  datatype Raw = Garbage | Text(json: Json)

  function Field(j: Json, name: string): Json {
    if j.JObject? && name in j.fields then j.fields[name] else JNull
  }

  /** `parseStoredRecord`. */
  function ParseStoredRecord(raw: Option<Raw>): Option<Record> {
    match raw
    case None => None
    case Some(Garbage) => None
    case Some(Text(j)) =>
      var fingerprint := Field(j, "fingerprint");
      if Field(j, "state") == JString("processing") && fingerprint.JString? then Some(Processing(fingerprint.s))
      else if Field(j, "state") == JString("completed") && fingerprint.JString? && Field(j, "statusCode").JNumber? then
        var body := Field(j, "body");
        Some(Completed(fingerprint.s, Result(Field(j, "statusCode").n, if body.JObject? then body.fields else map[])))
      else None
  }

  function Print(record: Record, at: string): Raw {
    match record
    case Processing(fingerprint) =>
      Text(JObject(map["state" := JString("processing"), "fingerprint" := JString(fingerprint), "startedAt" := JString(at)]))
    case Completed(fingerprint, result) =>
      Text(JObject(map["state" := JString("completed"), "fingerprint" := JString(fingerprint),
                       "statusCode" := JNumber(result.statusCode), "body" := JObject(result.body),
                       "completedAt" := JString(at)]))
  }

  /** Reading back a record gives the record that was written. */
  lemma ParsePrint(record: Record, at: string)
    ensures ParseStoredRecord(Some(Print(record, at))) == Some(record)
  {
  }

  // ---------- the requests ----------

  datatype Response =
    | Own(result: Result)        // what this request's own execution returned
    | Replayed(result: Result)   // the stored response
    | Conflict                   // 409: being processed
    | Mismatch                   // 409: the key belongs to a different request
    | Thrown                     // the call rejected

  datatype Request =
    | Acquiring(fingerprint: string)
    | Reading(fingerprint: string)
    | Reacquiring(fingerprint: string)
    | Executing(fingerprint: string)
    | Finishing(fingerprint: string, result: Result)
    | Deleting(fingerprint: string)
    | Done(fingerprint: string, response: Response)

  /** `executed` and the three counters are the history that the claims are about. */
  datatype State = State(
    raw: Option<Raw>,
    requests: map<nat, Request>,
    started: set<nat>,
    executed: set<(nat, string, Result)>,
    successes: nat, expiries: nat, failedWrites: nat)

  datatype Step =
    | Arrive(id: nat, fingerprint: string)
    | Acquire(id: nat, at: string)
    | AcquireFails(id: nat, landed: bool, at: string)
    | Read(id: nat)
    | ReadFails(id: nat)
    | ExecuteOk(id: nat, result: Result)
    | ExecuteThrows(id: nat)
    | Write(id: nat, at: string)
    | WriteFails(id: nat, landed: bool, at: string)
    | Delete(id: nat, landed: bool)
    | Die(id: nat)
    | Expire
    | Corrupt

  predicate Enabled(s: State, step: Step) {
    match step
    case Arrive(id, _) => id !in s.requests
    case Acquire(id, _) => id in s.requests && (s.requests[id].Acquiring? || s.requests[id].Reacquiring?)
    case AcquireFails(id, _, _) => id in s.requests && (s.requests[id].Acquiring? || s.requests[id].Reacquiring?)
    case Read(id) => id in s.requests && s.requests[id].Reading?
    case ReadFails(id) => id in s.requests && s.requests[id].Reading?
    case ExecuteOk(id, _) => id in s.requests && s.requests[id].Executing?
    case ExecuteThrows(id) => id in s.requests && s.requests[id].Executing?
    case Write(id, _) => id in s.requests && s.requests[id].Finishing?
    case WriteFails(id, _, _) => id in s.requests && s.requests[id].Finishing?
    case Delete(id, _) => id in s.requests && s.requests[id].Deleting?
    case Die(id) => id in s.requests && !s.requests[id].Done?
    case Expire => s.raw.Some?
    case Corrupt => s.raw.Some?
  }

  function Moved(s: State, id: nat, r: Request): State {
    s.(requests := s.requests[id := r])
  }

  function Apply(s: State, step: Step): State
    requires Enabled(s, step)
  {
    match step
    case Arrive(id, f) => Moved(s, id, Acquiring(f))
    case Acquire(id, at) =>
      var f := s.requests[id].fingerprint;
      if s.raw.None? then
        Moved(s, id, Executing(f)).(raw := Some(Print(Processing(f), at)), started := s.started + {id})
      else if s.requests[id].Acquiring? then Moved(s, id, Reading(f))
      else Moved(s, id, Done(f, Conflict))
    case AcquireFails(id, landed, at) =>
      var f := s.requests[id].fingerprint;
      Moved(s, id, Done(f, Thrown)).(raw := if landed && s.raw.None? then Some(Print(Processing(f), at)) else s.raw)
    case Read(id) =>
      var f := s.requests[id].fingerprint;
      Moved(s, id, match ParseStoredRecord(s.raw)
                   case None => Reacquiring(f)
                   case Some(record) => Done(f, Answer(record, f)))
    case ReadFails(id) => Moved(s, id, Done(s.requests[id].fingerprint, Thrown))
    case ExecuteOk(id, result) =>
      var f := s.requests[id].fingerprint;
      Moved(s, id, Finishing(f, result)).(successes := s.successes + 1, executed := s.executed + {(id, f, result)})
    case ExecuteThrows(id) => Moved(s, id, Deleting(s.requests[id].fingerprint))
    case Write(id, at) =>
      var q := s.requests[id];
      Moved(s, id, Done(q.fingerprint, Own(q.result))).(raw := Some(Print(Completed(q.fingerprint, q.result), at)))
    case WriteFails(id, landed, at) =>
      var q := s.requests[id];
      Moved(s, id, Deleting(q.fingerprint)).(
        raw := if landed then Some(Print(Completed(q.fingerprint, q.result), at)) else s.raw,
        failedWrites := s.failedWrites + 1)
    case Delete(id, landed) =>
      Moved(s, id, Done(s.requests[id].fingerprint, Thrown)).(raw := if landed then None else s.raw)
    case Die(id) => Moved(s, id, Done(s.requests[id].fingerprint, Thrown))
    case Expire => s.(raw := None, expiries := s.expiries + 1)
    case Corrupt => s.(raw := Some(Garbage))
  }

  /** What a request that found a record answers. */
  function Answer(record: Record, fingerprint: string): Response {
    if record.fingerprint != fingerprint then Mismatch
    else if record.Completed? then Replayed(record.result)
    else Conflict
  }

  ghost predicate ValidRun(s: State, steps: seq<Step>)
    decreases |steps|
  {
    steps == [] || (Enabled(s, steps[0]) && ValidRun(Apply(s, steps[0]), steps[1..]))
  }

  ghost function After(s: State, steps: seq<Step>): State
    requires ValidRun(s, steps)
    decreases |steps|
  {
    if steps == [] then s else After(Apply(s, steps[0]), steps[1..])
  }

  const START := State(None, map[], {}, {}, 0, 0, 0)

  // ---------- the claim ----------

  ghost function Running(s: State): set<nat> {
    set id | id in s.requests && s.requests[id].Executing?
  }

  ghost function Giving(s: State): set<nat> {
    set id | id in s.requests && s.requests[id].Deleting?
  }

  ghost function Present(s: State): nat {
    if s.raw.Some? then 1 else 0
  }

  /**
   A success, a running execution and a pending delete each own a unit; the key, an expiry and a
   failed completion write each supply one.
   */
  ghost predicate ClaimInv(s: State) {
    s.successes + |Running(s)| + |Giving(s)| <= Present(s) + s.expiries + s.failedWrites
  }

  lemma RunningMoves(s: State, id: nat, r: Request)
    ensures |Running(Moved(s, id, r))|
         == |Running(s)| + (if r.Executing? then 1 else 0) - (if id in Running(s) then 1 else 0)
  {
    if r.Executing? {
      AddOne(Running(s), Running(Moved(s, id, r)), id);
    } else {
      DropOne(Running(s), Running(Moved(s, id, r)), id);
    }
  }

  lemma GivingMoves(s: State, id: nat, r: Request)
    ensures |Giving(Moved(s, id, r))|
         == |Giving(s)| + (if r.Deleting? then 1 else 0) - (if id in Giving(s) then 1 else 0)
  {
    if r.Deleting? {
      AddOne(Giving(s), Giving(Moved(s, id, r)), id);
    } else {
      DropOne(Giving(s), Giving(Moved(s, id, r)), id);
    }
  }

  lemma AddOne(a: set<nat>, b: set<nat>, x: nat)
    requires forall y :: y in b <==> y in a || y == x
    ensures |b| == |a| + (if x in a then 0 else 1)
  {
    if x in a {
      assert b == a;
    } else {
      assert b == a + {x};
    }
  }

  lemma DropOne(a: set<nat>, b: set<nat>, x: nat)
    requires forall y :: y in b <==> y in a && y != x
    ensures |b| == |a| - (if x in a then 1 else 0)
  {
    if x in a {
      assert b == a - {x};
    } else {
      assert b == a;
    }
  }

  lemma StepKeepsClaim(s: State, step: Step)
    requires ClaimInv(s) && Enabled(s, step)
    ensures ClaimInv(Apply(s, step))
  {
    var t := Apply(s, step);
    if step.Expire? || step.Corrupt? {
      assert Running(t) == Running(s) && Giving(t) == Giving(s);
    } else {
      var r := t.requests[step.id];
      RunningMoves(s, step.id, r);
      GivingMoves(s, step.id, r);
      assert Running(t) == Running(Moved(s, step.id, r)) && Giving(t) == Giving(Moved(s, step.id, r));
    }
  }

  lemma {:induction false} RunKeepsClaim(s: State, steps: seq<Step>)
    requires ClaimInv(s) && ValidRun(s, steps)
    ensures ClaimInv(After(s, steps))
    decreases |steps|
  {
    if steps != [] {
      StepKeepsClaim(s, steps[0]);
      RunKeepsClaim(Apply(s, steps[0]), steps[1..]);
    }
  }

  /**
   Over every interleaving: successes and running executions together never exceed one for the key
   that is present, one for each expiry and one for each failed completion write.
   */
  lemma ClaimBound(steps: seq<Step>)
    requires ValidRun(START, steps)
    ensures var t := After(START, steps);
            t.successes + |Running(t)| <= Present(t) + t.expiries + t.failedWrites
  {
    assert Running(START) == {} && Giving(START) == {};
    RunKeepsClaim(START, steps);
  }

  /** Without an expiry or a failed write: one execution at a time, and at most one success ever. */
  lemma ExecutesOnce(steps: seq<Step>, a: nat, b: nat)
    requires ValidRun(START, steps)
    requires After(START, steps).expiries == 0 && After(START, steps).failedWrites == 0
    ensures After(START, steps).successes <= 1
    ensures a in Running(After(START, steps)) && b in Running(After(START, steps)) ==>
              a == b && After(START, steps).successes == 0
  {
    ClaimBound(steps);
    var t := After(START, steps);
    if a in Running(t) && b in Running(t) {
      assert {a} <= Running(t) && {a, b} <= Running(t);
      SubsetSize({a}, Running(t));
      SubsetSize({a, b}, Running(t));
      assert a != b ==> |{a, b}| == 2;
    }
  }

  lemma {:induction false} SubsetSize(a: set<nat>, b: set<nat>)
    requires a <= b
    ensures |a| <= |b|
    decreases a
  {
    if a != {} {
      var x :| x in a;
      SubsetSize(a - {x}, b - {x});
    }
  }

  /** The bound is met: one expiry during an execution lets a second request succeed as well. */
  lemma ExpiryAllowsTwo(f: string, r: Result) returns (steps: seq<Step>)
    ensures ValidRun(START, steps)
    ensures After(START, steps).successes == 2
    ensures After(START, steps).expiries == 1 && After(START, steps).failedWrites == 0
  {
    var s1 := Apply(START, Arrive(0, f));
    var s2 := Apply(s1, Acquire(0, ""));
    var s3 := Apply(s2, Expire);
    var s4 := Apply(s3, Arrive(1, f));
    var s5 := Apply(s4, Acquire(1, ""));
    var s6 := Apply(s5, ExecuteOk(0, r));
    var s7 := Apply(s6, ExecuteOk(1, r));
    steps := Then(s6, ExecuteOk(1, r), []);
    steps := Then(s5, ExecuteOk(0, r), steps);
    steps := Then(s4, Acquire(1, ""), steps);
    steps := Then(s3, Arrive(1, f), steps);
    steps := Then(s2, Expire, steps);
    steps := Then(s1, Acquire(0, ""), steps);
    steps := Then(START, Arrive(0, f), steps);
  }

  lemma Then(s: State, step: Step, rest: seq<Step>) returns (all: seq<Step>)
    requires Enabled(s, step) && ValidRun(Apply(s, step), rest)
    ensures all == [step] + rest && ValidRun(s, all) && After(s, all) == After(Apply(s, step), rest)
  {
    all := [step] + rest;
    assert all[1..] == rest;
  }

  // ---------- what the counters count ----------

  ghost function Times(steps: seq<Step>, kind: Step -> bool): nat {
    if steps == [] then 0 else (if kind(steps[0]) then 1 else 0) + Times(steps[1..], kind)
  }

  /** The counters of the claim count the executions that succeed, the expiries and the failed writes, one by one. */
  lemma {:induction false} CountersCount(s: State, steps: seq<Step>)
    requires ValidRun(s, steps)
    ensures var t := After(s, steps);
      && t.successes == s.successes + Times(steps, (step: Step) => step.ExecuteOk?)
      && t.expiries == s.expiries + Times(steps, (step: Step) => step.Expire?)
      && t.failedWrites == s.failedWrites + Times(steps, (step: Step) => step.WriteFails?)
    decreases |steps|
  {
    if steps != [] {
      CountersAfterOne(s, steps[0]);
      hide Apply, Enabled;
      CountersCount(Apply(s, steps[0]), steps[1..]);
    }
  }

  lemma CountersAfterOne(s: State, step: Step)
    requires Enabled(s, step)
    ensures var t := Apply(s, step);
      && t.successes == s.successes + (if step.ExecuteOk? then 1 else 0)
      && t.expiries == s.expiries + (if step.Expire? then 1 else 0)
      && t.failedWrites == s.failedWrites + (if step.WriteFails? then 1 else 0)
  {
  }

  lemma FingerprintStays(s: State, step: Step, id: nat)
    requires Enabled(s, step) && id in s.requests
    ensures id in Apply(s, step).requests && Apply(s, step).requests[id].fingerprint == s.requests[id].fingerprint
  {
    hide ParseStoredRecord, Print;
  }

  lemma {:induction false} FingerprintKept(s: State, steps: seq<Step>, id: nat)
    requires ValidRun(s, steps) && id in s.requests
    ensures id in After(s, steps).requests && After(s, steps).requests[id].fingerprint == s.requests[id].fingerprint
    decreases |steps|
  {
    if steps != [] {
      FingerprintStays(s, steps[0], id);
      hide Apply, Enabled;
      FingerprintKept(Apply(s, steps[0]), steps[1..], id);
    }
  }

  /** What counts as executed are the results that executions of the run returned, under their request's fingerprint. */
  lemma {:induction false} ExecutedIs(s: State, steps: seq<Step>, id: nat, f: string, r: Result)
    requires ValidRun(s, steps)
    ensures var t := After(s, steps);
      (id, f, r) in t.executed <==>
        (id, f, r) in s.executed || (ExecuteOk(id, r) in steps && id in t.requests && t.requests[id].fingerprint == f)
    decreases |steps|
  {
    if steps != [] {
      var u := Apply(s, steps[0]);
      ExecutedIs(u, steps[1..], id, f, r);
      ExecutedAfterOne(s, steps[0], id, f, r);
      assert ExecuteOk(id, r) in steps <==> steps[0] == ExecuteOk(id, r) || ExecuteOk(id, r) in steps[1..];
      if steps[0] == ExecuteOk(id, r) {
        FingerprintKept(u, steps[1..], id);
      }
      hide Apply, Enabled;
    }
  }

  lemma ExecutedAfterOne(s: State, step: Step, id: nat, f: string, r: Result)
    requires Enabled(s, step)
    ensures var t := Apply(s, step);
      (id, f, r) in t.executed <==>
        (id, f, r) in s.executed || (step == ExecuteOk(id, r) && id in t.requests && t.requests[id].fingerprint == f)
  {
    hide ParseStoredRecord, Print;
  }

  // ---------- replays ----------

  ghost predicate SomeoneGot(s: State, fingerprint: string, result: Result) {
    exists id :: (id, fingerprint, result) in s.executed
  }

  ghost predicate RequestOk(s: State, id: nat) {
    id in s.requests ==>
      var q := s.requests[id];
      && (q.Acquiring? || q.Reading? || q.Reacquiring? ==> id !in s.started)
      && (q.Finishing? ==> (id, q.fingerprint, q.result) in s.executed)
      && (q.Done? ==>
            match q.response
            case Own(result) => (id, q.fingerprint, result) in s.executed
            case Replayed(result) => id !in s.started && SomeoneGot(s, q.fingerprint, result)
            case Conflict => id !in s.started
            case Mismatch => id !in s.started
            case Thrown => true)
  }

  ghost predicate ReplayInv(s: State) {
    && (forall id :: RequestOk(s, id))
    && s.started <= s.requests.Keys
    && (forall e | e in s.executed :: e.0 in s.started)
    && (ParseStoredRecord(s.raw).Some? && ParseStoredRecord(s.raw).value.Completed? ==>
          SomeoneGot(s, ParseStoredRecord(s.raw).value.fingerprint, ParseStoredRecord(s.raw).value.result))
  }

  ghost predicate StartedInv(s: State) {
    forall id | id in s.requests && s.requests[id].Executing? :: id in s.started
  }

  lemma StepKeepsReplays(s: State, step: Step)
    requires ReplayInv(s) && StartedInv(s) && Enabled(s, step)
    ensures ReplayInv(Apply(s, step)) && StartedInv(Apply(s, step))
  {
    hide ParseStoredRecord, Print;
    var t := Apply(s, step);
    assert forall f, r | SomeoneGot(s, f, r) :: SomeoneGot(t, f, r);
    forall record, at ensures ParseStoredRecord(Some(Print(record, at))) == Some(record) {
      ParsePrint(record, at);
    }
    assert ParseStoredRecord(None).None? && ParseStoredRecord(Some(Garbage)).None? by {
      NothingParsed();
    }
    forall id ensures RequestOk(t, id) {
      assert RequestOk(s, id);
    }
    if step.Write? || step.WriteFails? {
      assert RequestOk(s, step.id);
    }
  }

  lemma NothingParsed()
    ensures ParseStoredRecord(None).None? && ParseStoredRecord(Some(Garbage)).None?
  {
  }

  lemma {:induction false} RunKeepsReplays(s: State, steps: seq<Step>)
    requires ReplayInv(s) && StartedInv(s) && ValidRun(s, steps)
    ensures ReplayInv(After(s, steps)) && StartedInv(After(s, steps))
    decreases |steps|
  {
    if steps != [] {
      StepKeepsReplays(s, steps[0]);
      RunKeepsReplays(Apply(s, steps[0]), steps[1..]);
    }
  }

  /**
   Over every interleaving, a request that is answered got its own execution's result, or, without
   ever executing, a result that some execution under the same fingerprint returned, or a 409.
   */
  lemma EveryAnswerIsAccountedFor(steps: seq<Step>, id: nat)
    requires ValidRun(START, steps) && id in After(START, steps).requests && After(START, steps).requests[id].Done?
    ensures var t := After(START, steps);
            var q := t.requests[id];
            match q.response
            case Own(result) => (id, q.fingerprint, result) in t.executed
            case Replayed(result) => id !in t.started && SomeoneGot(t, q.fingerprint, result)
            case Conflict => id !in t.started
            case Mismatch => id !in t.started
            case Thrown => true
  {
    RunKeepsReplays(START, steps);
    assert RequestOk(After(START, steps), id);
  }

  // ---------- what a completed request answers for ever after ----------

  predicate Holds(q: Request) {
    q.Executing? || q.Finishing? || q.Deleting?
  }

  /** One request at most holds the lock, and the key is there while one does. */
  ghost predicate LockInv(s: State) {
    && (forall a, b | a in s.requests && b in s.requests && Holds(s.requests[a]) && Holds(s.requests[b]) :: a == b)
    && (forall a | a in s.requests && Holds(s.requests[a]) :: s.raw.Some?)
  }

  lemma StepKeepsLock(s: State, step: Step)
    requires LockInv(s) && Enabled(s, step) && !step.Expire?
    ensures LockInv(Apply(s, step))
  {
    hide ParseStoredRecord, Print;
  }

  predicate NeverExpires(steps: seq<Step>) {
    forall step | step in steps :: !step.Expire?
  }

  lemma {:induction false} RunKeepsLock(s: State, steps: seq<Step>)
    requires LockInv(s) && ValidRun(s, steps) && NeverExpires(steps)
    ensures LockInv(After(s, steps))
    decreases |steps|
  {
    if steps != [] {
      assert steps[0] in steps;
      StepKeepsLock(s, steps[0]);
      hide LockInv, Apply, Enabled;
      RunKeepsLock(Apply(s, steps[0]), steps[1..]);
    }
  }

  /** The key holds this completed record and nobody may change it. */
  ghost predicate Settled(s: State, f: string, result: Result) {
    && s.raw.Some? && ParseStoredRecord(s.raw) == Some(Completed(f, result))
    && forall id | id in s.requests :: !Holds(s.requests[id])
  }

  /** A command of this request's own fails, or its process dies. */
  predicate FailsItself(step: Step, id: nat) {
    match step
    case AcquireFails(other, _, _) => other == id
    case ReadFails(other) => other == id
    case Die(other) => other == id
    case _ => false
  }

  predicate NothingFails(steps: seq<Step>, id: nat) {
    forall step | step in steps :: !FailsItself(step, id)
  }

  /** The key is neither lost nor overwritten from outside. */
  predicate KeyStays(steps: seq<Step>) {
    forall step | step in steps :: !step.Expire? && !step.Corrupt?
  }

  /** Not yet told anything about the key. */
  predicate Unanswered(s: State, id: nat) {
    id in s.requests ==> s.requests[id].Acquiring? || s.requests[id].Reading?
  }

  /** The answer that belongs to a completed record. */
  predicate AnsweredFrom(q: Request, f: string, result: Result) {
    q.Done? && q.response == if q.fingerprint == f then Replayed(result) else Mismatch
  }

  lemma StepKeepsSettled(s: State, step: Step, f: string, result: Result, id: nat)
    requires Settled(s, f, result) && Enabled(s, step) && !step.Expire? && !step.Corrupt?
    ensures Settled(Apply(s, step), f, result)
    ensures Unanswered(s, id) && !FailsItself(step, id) ==>
      var t := Apply(s, step); Unanswered(t, id) || (id in t.requests && AnsweredFrom(t.requests[id], f, result))
    ensures Unanswered(s, id) && FailsItself(step, id) ==>
      var t := Apply(s, step); id in t.requests && t.requests[id].Done? && t.requests[id].response == Thrown
    ensures id in s.requests && s.requests[id].Done? ==>
      var t := Apply(s, step); id in t.requests && t.requests[id] == s.requests[id]
    ensures id in s.requests && s.requests[id].Done? ==> !FailsItself(step, id)
  {
    hide ParseStoredRecord, Print;
  }

  lemma {:induction false} SettledAnswers(s: State, steps: seq<Step>, f: string, result: Result, id: nat)
    requires Settled(s, f, result) && ValidRun(s, steps) && KeyStays(steps)
    requires Unanswered(s, id) || (id in s.requests && s.requests[id].Done?)
    ensures var t := After(s, steps);
      if Unanswered(s, id)
      then id in t.requests && t.requests[id].Done? ==>
             if NothingFails(steps, id) then AnsweredFrom(t.requests[id], f, result) else t.requests[id].response == Thrown
      else id in t.requests && t.requests[id] == s.requests[id] && NothingFails(steps, id)
    decreases |steps|
  {
    if steps != [] {
      var step := steps[0];
      assert step in steps && steps == [step] + steps[1..];
      StepKeepsSettled(s, step, f, result, id);
      assert NothingFails(steps, id) <==> !FailsItself(step, id) && NothingFails(steps[1..], id);
      hide Settled, Apply, Enabled, ParseStoredRecord;
      SettledAnswers(Apply(s, step), steps[1..], f, result, id);
    }
  }

  /**
   Without an expiry, and with nobody overwriting the key, once a completion write is answered every request that
   is answered afterwards replays that result if its fingerprint is the same, and is refused as a different request
   if it is not, unless one of its own commands failed; then the call rejects.
   */
  lemma CompletedIsReplayed(before: seq<Step>, winner: nat, at: string, later: seq<Step>, id: nat)
    requires ValidRun(START, before) && NeverExpires(before)
    requires Enabled(After(START, before), Write(winner, at))
    requires var s := Apply(After(START, before), Write(winner, at)); ValidRun(s, later) && Unanswered(s, id)
    requires KeyStays(later)
    ensures var won := After(START, before).requests[winner];
      var t := After(Apply(After(START, before), Write(winner, at)), later);
      id in t.requests && t.requests[id].Done? ==>
        var q := t.requests[id];
        q.response == if !NothingFails(later, id) then Thrown
                      else if q.fingerprint == won.fingerprint then Replayed(won.result) else Mismatch
  {
    var s := After(START, before);
    var won := s.requests[winner];
    RunKeepsLock(START, before);
    ParsePrint(Completed(won.fingerprint, won.result), at);
    var u := Apply(s, Write(winner, at));
    assert Settled(u, won.fingerprint, won.result) by {
      hide Print, ParseStoredRecord;
    }
    hide Apply, Enabled, Settled, ParseStoredRecord, Print;
    SettledAnswers(u, later, won.fingerprint, won.result, id);
  }

  // ---------- the runner, as the source writes it ----------

  /** A lock command is answered, or fails with or without having taken effect. */
  datatype Lock = Answers | Breaks(landed: bool)

  /**
   What the environment does to one call: how the two lock commands and the read fare, whether the key
   lapses at each point where the call waits, what the execution returns (`None` when it throws), and
   how the last two commands fare.
   */
  datatype Fate = Fate(
    lock: Lock, readWorks: bool, relock: Lock, lapsesBeforeRead: bool, lapsesBeforeRetry: bool, lapsesDuringExecution: bool,
    execution: Option<Result>, writeLands: bool, writeReplies: bool, deleteLands: bool, at: string)

  function Lapse(raw: Option<Raw>, lapses: bool): Option<Raw> {
    if lapses then None else raw
  }

  /** Record and response after an execution that began with the lock in place. */
  function ExecutionOutcome(fingerprint: string, fate: Fate): (Option<Raw>, Response) {
    var before := Lapse(Some(Print(Processing(fingerprint), fate.at)), fate.lapsesDuringExecution);
    var wrote := fate.execution.Some? && fate.writeLands;
    var kept := if wrote then Some(Print(Completed(fingerprint, fate.execution.value), fate.at)) else before;
    if wrote && fate.writeReplies then (kept, Own(fate.execution.value))
    else (Lapse(kept, fate.deleteLands), Thrown)
  }

  /** The key after a lock command that failed. */
  function Broken(raw: Option<Raw>, fingerprint: string, landed: bool, at: string): Option<Raw> {
    if landed && raw.None? then Some(Print(Processing(fingerprint), at)) else raw
  }

  function CallOutcome(raw: Option<Raw>, fingerprint: string, fate: Fate): (Option<Raw>, Response) {
    if fate.lock.Breaks? then (Broken(raw, fingerprint, fate.lock.landed, fate.at), Thrown)
    else if raw.None? then ExecutionOutcome(fingerprint, fate)
    else
      var read := Lapse(raw, fate.lapsesBeforeRead);
      if !fate.readWorks then (read, Thrown)
      else
        match ParseStoredRecord(read)
        case Some(record) => (read, Answer(record, fingerprint))
        case None =>
          var retried := Lapse(read, fate.lapsesBeforeRetry);
          if fate.relock.Breaks? then (Broken(retried, fingerprint, fate.relock.landed, fate.at), Thrown)
          else if retried.None? then ExecutionOutcome(fingerprint, fate) else (retried, Conflict)
  }

  /** The record that stays if the final delete does not land. */
  function LeftBehind(fingerprint: string, fate: Fate): Option<Record> {
    if fate.execution.Some? && fate.writeLands then Some(Completed(fingerprint, fate.execution.value))
    else if fate.lapsesDuringExecution then None else Some(Processing(fingerprint))
  }

  /** What an execution leaves can be read back. */
  lemma OutcomeParses(fingerprint: string, fate: Fate)
    ensures var (raw, response) := ExecutionOutcome(fingerprint, fate);
      && (forall result :: response == Own(result) <==> fate.execution == Some(result) && fate.writeLands && fate.writeReplies)
      && (response.Own? ==> ParseStoredRecord(raw) == Some(Completed(fingerprint, response.result)))
      && (!response.Own? ==>
            && response == Thrown && (fate.deleteLands ==> raw.None?)
            && (!fate.deleteLands ==> ParseStoredRecord(raw) == LeftBehind(fingerprint, fate)))
  {
    ParsePrint(Processing(fingerprint), fate.at);
    if fate.execution.Some? {
      ParsePrint(Completed(fingerprint, fate.execution.value), fate.at);
    }
    NothingParsed();
    hide ParseStoredRecord, Print;
  }

  class Redis {
    var raw: Option<Raw>

    method Wait(lapses: bool)
      modifies this
      ensures raw == if lapses then None else old(raw)
    {
      if lapses {
        raw := None;
      }
    }

    /** `None`: the command failed. */
    method TryAcquireRequestLock(fingerprint: string, lock: Lock, at: string) returns (acquired: Option<bool>)
      modifies this
      ensures acquired == if lock.Breaks? then None else Some(old(raw).None?)
      ensures old(raw).Some? ==> raw == old(raw)
      ensures old(raw).None? ==>
        raw == if lock.Answers? || lock.landed then Some(Print(Processing(fingerprint), at)) else None
      ensures raw == if lock.Breaks? then Broken(old(raw), fingerprint, lock.landed, at)
                     else if old(raw).None? then Some(Print(Processing(fingerprint), at)) else old(raw)
    {
      if lock.Breaks? {
        if lock.landed && raw.None? {
          raw := Some(Print(Processing(fingerprint), at));
        }
        return None;
      }
      acquired := Some(raw.None?);
      if raw.None? {
        raw := Some(Print(Processing(fingerprint), at));
      }
    }

    /** The body of both `if (await acquire())` branches. */
    method ExecuteAndStore(fingerprint: string, fate: Fate) returns (response: Response)
      requires raw == Some(Print(Processing(fingerprint), fate.at))
      modifies this
      ensures (raw, response) == ExecutionOutcome(fingerprint, fate)
    {
      Wait(fate.lapsesDuringExecution);
      if fate.execution.Some? && fate.writeLands {
        raw := Some(Print(Completed(fingerprint, fate.execution.value), fate.at));
        if fate.writeReplies {
          return Own(fate.execution.value);
        }
      }
      if fate.deleteLands {
        raw := None;
      }
      return Thrown;
    }

    method RunIdempotentJsonRequest(idempotencyKey: Option<string>, fingerprint: string, fate: Fate)
        returns (response: Response)
      modifies this
      ensures idempotencyKey.None? ==>
                && raw == old(raw)
                && response == if fate.execution.Some? then Own(fate.execution.value) else Thrown
      ensures idempotencyKey.Some? && fate.lock.Answers? && old(raw).Some? && !fate.lapsesBeforeRead && fate.readWorks ==>
        var record := ParseStoredRecord(old(raw));
        record.Some? ==>
          && raw == old(raw)
          && (response == Mismatch <==> record.value.fingerprint != fingerprint)
          && (response == Conflict <==> record == Some(Processing(fingerprint)))
          && forall result :: response == Replayed(result) <==> record == Some(Completed(fingerprint, result))
      ensures idempotencyKey.Some? && fate.lock.Answers? && old(raw).None? ==>
        && (forall result :: response == Own(result) <==> fate.execution == Some(result) && fate.writeLands && fate.writeReplies)
        && (response.Own? ==> ParseStoredRecord(raw) == Some(Completed(fingerprint, response.result)))
        && (!response.Own? ==>
              && response == Thrown && (fate.deleteLands ==> raw.None?)
              && (!fate.deleteLands ==> ParseStoredRecord(raw) == LeftBehind(fingerprint, fate)))
      ensures idempotencyKey.Some? && (fate.lock.Breaks? || (old(raw).Some? && !fate.readWorks)) ==> response == Thrown
      ensures idempotencyKey.Some? && fate.lock.Answers? && fate.readWorks && old(raw).Some? && !fate.lapsesBeforeRead
              && ParseStoredRecord(old(raw)).None? && !fate.lapsesBeforeRetry ==>
        raw == old(raw) && response == if fate.relock.Answers? then Conflict else Thrown
      ensures idempotencyKey.Some? ==> (raw, response) == CallOutcome(old(raw), fingerprint, fate)
    {
      if idempotencyKey.None? {
        return if fate.execution.Some? then Own(fate.execution.value) else Thrown;
      }
      var acquired := TryAcquireRequestLock(fingerprint, fate.lock, fate.at);
      if acquired.None? {
        return Thrown;
      }
      if acquired.value {
        response := ExecuteAndStore(fingerprint, fate);
        OutcomeParses(fingerprint, fate);
        return;
      }
      Wait(fate.lapsesBeforeRead);
      if !fate.readWorks {
        return Thrown;
      }
      var storedRecord := ParseStoredRecord(raw);
      if storedRecord.None? {
        Wait(fate.lapsesBeforeRetry);
        acquired := TryAcquireRequestLock(fingerprint, fate.relock, fate.at);
        if acquired.None? {
          return Thrown;
        }
        if acquired.value {
          response := ExecuteAndStore(fingerprint, fate);
          return;
        }
      }
      if storedRecord.None? {
        return Conflict;
      }
      if storedRecord.value.fingerprint != fingerprint {
        return Mismatch;
      }
      if storedRecord.value.Completed? {
        return Replayed(storedRecord.value.result);
      }
      return Conflict;
    }
  }

  /** The end of a call that holds the lock, as steps of the protocol. */
  lemma ExecutionIsARun(s: State, id: nat, f: string, fate: Fate) returns (steps: seq<Step>)
    requires id in s.requests && s.requests[id] == Executing(f) && s.raw == Some(Print(Processing(f), fate.at))
    ensures ValidRun(s, steps)
    ensures var t := After(s, steps);
            && id in t.requests && t.requests[id].Done? && t.requests[id].fingerprint == f
            && (t.raw, t.requests[id].response) == ExecutionOutcome(f, fate)
  {
    hide Print;
    var s1 := s;
    if fate.lapsesDuringExecution {
      s1 := Apply(s, Expire);
    }
    if fate.execution.None? {
      var s2 := Apply(s1, ExecuteThrows(id));
      steps := Then(s2, Delete(id, fate.deleteLands), []);
      steps := Then(s1, ExecuteThrows(id), steps);
    } else {
      var r := fate.execution.value;
      var s2 := Apply(s1, ExecuteOk(id, r));
      if fate.writeLands && fate.writeReplies {
        steps := Then(s2, Write(id, fate.at), []);
      } else {
        var s3 := Apply(s2, WriteFails(id, fate.writeLands, fate.at));
        steps := Then(s3, Delete(id, fate.deleteLands), []);
        steps := Then(s2, WriteFails(id, fate.writeLands, fate.at), steps);
      }
      steps := Then(s1, ExecuteOk(id, r), steps);
    }
    if fate.lapsesDuringExecution {
      steps := Then(s, Expire, steps);
    }
  }

  lemma LapseIsARun(s: State, lapses: bool, rest: seq<Step>) returns (steps: seq<Step>)
    requires ValidRun(if lapses && s.raw.Some? then Apply(s, Expire) else s, rest)
    ensures ValidRun(s, steps)
    ensures After(s, steps) == After(if lapses && s.raw.Some? then Apply(s, Expire) else s, rest)
  {
    if lapses && s.raw.Some? {
      steps := Then(s, Expire, rest);
    } else {
      steps := rest;
    }
  }

  /** Whatever the runner does to the record and answers, a run of the protocol does. */
  lemma CallIsARun(s: State, id: nat, f: string, fate: Fate) returns (steps: seq<Step>)
    requires id !in s.requests
    ensures ValidRun(s, steps)
    ensures var t := After(s, steps);
            && id in t.requests && t.requests[id].Done? && t.requests[id].fingerprint == f
            && (t.raw, t.requests[id].response) == CallOutcome(s.raw, f, fate)
  {
    hide ParseStoredRecord, Print, ExecutionOutcome;
    var s1 := Apply(s, Arrive(id, f));
    var lock := LockStep(id, fate.lock, fate.at);
    var s2 := Apply(s1, lock);
    if fate.lock.Breaks? {
      steps := [];
    } else if s.raw.None? {
      steps := ExecutionIsARun(s2, id, f, fate);
    } else {
      var s3 := if fate.lapsesBeforeRead then Apply(s2, Expire) else s2;
      var read := if fate.readWorks then Read(id) else ReadFails(id);
      var s4 := Apply(s3, read);
      if !fate.readWorks || ParseStoredRecord(s3.raw).Some? {
        steps := [];
      } else {
        var s5 := if fate.lapsesBeforeRetry && s4.raw.Some? then Apply(s4, Expire) else s4;
        var relock := LockStep(id, fate.relock, fate.at);
        var s6 := Apply(s5, relock);
        if fate.relock.Answers? && s5.raw.None? {
          steps := ExecutionIsARun(s6, id, f, fate);
        } else {
          steps := [];
        }
        steps := Then(s5, relock, steps);
        steps := LapseIsARun(s4, fate.lapsesBeforeRetry, steps);
      }
      steps := Then(s3, read, steps);
      steps := LapseIsARun(s2, fate.lapsesBeforeRead, steps);
    }
    steps := Then(s1, lock, steps);
    steps := Then(s, Arrive(id, f), steps);
  }

  function LockStep(id: nat, lock: Lock, at: string): Step {
    if lock.Answers? then Acquire(id, at) else AcquireFails(id, lock.landed, at)
  }
}
