/**
 The outbox of the mirror: rows are claimed in batches under a lease, published, and
 marked. The machine allows any number of workers, restarts, receipts that get lost and
 publications of any length; the program runs one worker.
 */
module Outbox {
  import opened Wrappers

  const LEASE := 60

  type Id = nat

  type Worker = nat

  datatype Status = Pending | Processing | Retry | Delivered | DeadLetter

  datatype Row = Row(status: Status, attempts: nat, nextAt: int, lease: Option<int>, created: int)

  type Table = map<Id, Row>

  // The statements.

  function PowerOfTwo(n: nat): nat {
    if n == 0 then 1 else 2 * PowerOfTwo(n - 1)
  }

  function Min(a: int, b: int): int {
    if a <= b then a else b
  }

  /** Seconds until a failed row may be tried again. */
  function Delay(attempts: nat): int {
    Min(3600, PowerOfTwo(Min(attempts, 10)) * 5)
  }

  predicate Expired(r: Row, now: int) {
    r.status.Processing? && r.lease.Some? && r.lease.value < now
  }

  function Released(rows: Table, now: int): Table {
    map id | id in rows ::
      if Expired(rows[id], now) then rows[id].(status := Retry, lease := None, nextAt := now) else rows[id]
  }

  predicate Claimable(r: Row, max: int, now: int) {
    (r.status.Pending? || r.status.Retry?) && r.nextAt <= now && r.attempts < max
  }

  function Candidates(rows: Table, max: int, now: int): set<Id> {
    set id | id in rows && Claimable(rows[id], max, now)
  }

  /** The oldest candidates, as many as the limit allows, in any order of equals. */
  ghost predicate Selected(rows: Table, max: int, limit: nat, now: int, chosen: seq<Id>) {
    && (forall i, j :: 0 <= i < j < |chosen| ==> chosen[i] != chosen[j])
    && (forall id :: id in chosen ==> id in Candidates(rows, max, now))
    && (|chosen| == limit || (|chosen| < limit && forall id :: id in Candidates(rows, max, now) ==> id in chosen))
    && (forall id, other :: id in chosen && other in Candidates(rows, max, now) && other !in chosen ==>
          rows[id].created <= rows[other].created)
  }

  function Claimed(rows: Table, chosen: seq<Id>, now: int): Table {
    map id | id in rows ::
      if id in chosen then rows[id].(status := Processing, attempts := rows[id].attempts +
      1, lease := Some(now + LEASE))
      else rows[id]
  }

  function MarkedDelivered(rows: Table, id: Id): Table {
    if id in rows then rows[id := rows[id].(status := Delivered, lease := None)] else rows
  }

  function MarkedFailed(rows: Table, id: Id, max: int, now: int): Table {
    if id in rows then
      rows[id := rows[id].(
        status := if rows[id].attempts >= max then DeadLetter else Retry,
        lease := None, nextAt := now + Delay(rows[id].attempts))]
    else rows
  }

  // The machine.

  datatype State = State(rows: Table, batches: map<Worker, seq<Id>>, now: int)

  /** `persisted` is whether the marking reached the table; `loadable` are the rows whose event still exists. */
  datatype Step =
    | Claim(worker: Worker, at: int, limit: nat, chosen: seq<Id>, loadable: set<Id>)
    | Publish(worker: Worker, at: int, ok: bool, persisted: bool)
    | Restart(worker: Worker, at: int)
    | Enqueue(id: Id, at: int)

  function BatchOf(s: State, w: Worker): seq<Id> {
    if w in s.batches then s.batches[w] else []
  }

  function Loaded(chosen: seq<Id>, loadable: set<Id>): seq<Id> {
    if chosen == [] then []
    else
      var last := chosen[|chosen| - 1];
      Loaded(chosen[..|chosen| - 1], loadable) + if last in loadable then [last] else []
  }

  /** A worker claims only when its batch is done, and publishes the batch front to back. */
  ghost predicate Enabled(max: int, s: State, step: Step) {
    s.now <= step.at
    && match step
       case Claim(w, at, limit, chosen, _) => BatchOf(s, w) == []
         && Selected(Released(s.rows, at), max, limit, at, chosen)
       case Publish(w, _, _, _) => BatchOf(s, w) != []
       case Restart(_, _) => true
       case Enqueue(_, _) => true
  }

  function Do(max: int, s: State, step: Step): State {
    match step
    case Claim(w, at, _, chosen, loadable) =>
      State(Claimed(Released(s.rows, at), chosen, at), s.batches[w := Loaded(chosen, loadable)], at)
    case Publish(w, at, ok, persisted) =>
      var batch := BatchOf(s, w);
      if batch == [] then s.(now := at)
      else
        var rows :=
          if !persisted then s.rows
          else if ok then MarkedDelivered(s.rows, batch[0])
          else MarkedFailed(s.rows, batch[0], max, at);
        State(rows, s.batches[w := batch[1..]], at)
    case Restart(w, at) => s.(batches := s.batches[w := []], now := at)
    case Enqueue(id, at) =>
      s.(rows := if id in s.rows then s.rows else s.rows[id := Row(Pending, 0, at, None, at)], now := at)
  }

  function Run(max: int, s: State, steps: seq<Step>): State {
    if steps == [] then s else Do(max, Run(max, s, steps[..|steps| - 1]), steps[|steps| - 1])
  }

  ghost predicate Possible(max: int, s: State, steps: seq<Step>) {
    forall n :: 0 <= n < |steps| ==> Enabled(max, Run(max, s, steps[..n]), steps[n])
  }

  lemma PossibleFront(max: int, s: State, steps: seq<Step>)
    requires Possible(max, s, steps) && steps != []
    ensures var front := steps[..|steps| - 1];
      Possible(max, s, front) && Enabled(max, Run(max, s, front), steps[|steps| - 1])
  {
    hide Enabled;
    var front := steps[..|steps| - 1];
    forall n | 0 <= n < |front| ensures Enabled(max, Run(max, s, front[..n]), front[n]) {
      assert front[..n] == steps[..n];
    }
  }

  predicate Claims(step: Step, id: Id) {
    step.Claim? && id in step.chosen
  }

  function ClaimCount(steps: seq<Step>, id: Id): nat {
    if steps == [] then 0 else ClaimCount(steps[..|steps| - 1], id) + if Claims(steps[|steps| - 1], id) then 1 else 0
  }

  // What each step does to each row.

  /** The row can be taken by a poll at this time: it waits for nothing any more, or its lease
      has run out, and it has attempts left. */
  predicate Due(r: Row, max: int, at: int) {
    r.attempts < max
    && match r.status
       case Pending => r.nextAt <= at
       case Retry => r.nextAt <= at
       case Processing => r.lease.Some? && r.lease.value < at
       case _ => false
  }

  function Taken(r: Row, at: int): Row {
    Row(Processing, r.attempts + 1, if r.status.Processing? then at else r.nextAt, Some(at + 60), r.created)
  }

  /** A poll takes only rows that are due, and leases each for a minute; it sends the other rows
      whose lease has run out back, and touches no further row. */
  lemma PollEffect(max: int, s: State, poll: Step, id: Id)
    requires poll.Claim? && Enabled(max, s, poll) && id in s.rows
    ensures var r, t := s.rows[id], Do(max, s, poll);
      id in t.rows && t.now == poll.at && t.rows.Keys == s.rows.Keys
      && (if id in poll.chosen then Due(r, max, poll.at) && t.rows[id] == Taken(r, poll.at)
          else if r.status.Processing? && r.lease.Some? && r.lease.value < poll.at
          then t.rows[id] == Row(Retry, r.attempts, poll.at, None, r.created)
          else t.rows[id] == r)
  {
    hide Loaded;
    if id in poll.chosen { assert id in Candidates(Released(s.rows, poll.at), max, poll.at); }
  }

  /** A poll with room left takes every row that is due, and one without takes the oldest. */
  lemma DueIsTaken(max: int, s: State, poll: Step, id: Id)
    requires poll.Claim? && Enabled(max, s, poll) && id in s.rows && Due(s.rows[id], max, poll.at)
    ensures id in poll.chosen
      || (|poll.chosen| == poll.limit && forall x :: x in poll.chosen ==> s.rows[x].created <= s.rows[id].created)
  {
    hide Loaded;
    assert id in Candidates(Released(s.rows, poll.at), max, poll.at);
    if id !in poll.chosen {
      forall x | x in poll.chosen ensures s.rows[x].created <= s.rows[id].created {
        assert x in Candidates(Released(s.rows, poll.at), max, poll.at);
      }
    }
  }

  /** The worker then has exactly those of the rows it took whose event still exists, in order. */
  lemma {:induction false} LoadedIff(chosen: seq<Id>, loadable: set<Id>, id: Id)
    ensures id in Loaded(chosen, loadable) <==> id in chosen && id in loadable
    ensures |Loaded(chosen, loadable)| <= |chosen|
    ensures (forall x :: x in chosen ==> x in loadable) ==> Loaded(chosen, loadable) == chosen
  {
    if chosen != [] {
      var front, last := chosen[..|chosen| - 1], chosen[|chosen| - 1];
      assert chosen == front + [last];
      LoadedIff(front, loadable, id);
    }
  }

  /** A receipt that reaches the table marks the first row of the batch: delivered, or to be tried
      again after the delay, or given up when no attempt is left. No other row changes, and the
      batch goes on with the next one. */
  lemma ReceiptEffect(max: int, s: State, step: Step, id: Id)
    requires step.Publish? && Enabled(max, s, step) && id in s.rows
    ensures var r, t, batch := s.rows[id], Do(max, s, step), BatchOf(s, step.worker);
      id in t.rows && t.now == step.at && BatchOf(t, step.worker) == batch[1..]
      && (!step.persisted || id != batch[0] ==> t.rows[id] == r)
      && (step.persisted && id == batch[0] ==>
            t.rows[id].lease.None? && t.rows[id].attempts == r.attempts && t.rows[id].created == r.created
            && (if step.ok then t.rows[id].status.Delivered? && t.rows[id].nextAt == r.nextAt
                else t.rows[id].nextAt == step.at + Delay(r.attempts)
                     && (if r.attempts < max then t.rows[id].status.Retry? else t.rows[id].status.DeadLetter?)))
  {
    hide Delay;
  }

  /** A new row is due at once, and an old one is left as it is; a restart only empties the batch. */
  lemma OtherEffect(max: int, s: State, step: Step, id: Id)
    requires step.Enqueue? || step.Restart?
    ensures var t := Do(max, s, step);
      t.now == step.at
      && (id in s.rows ==> id in t.rows && t.rows[id] == s.rows[id])
      && (step.Restart? ==> t.rows == s.rows && BatchOf(t, step.worker) == [])
      && (step.Enqueue? ==> t.batches == s.batches && t.rows.Keys == s.rows.Keys + {step.id})
      && (step.Enqueue? && step.id !in s.rows ==> t.rows[step.id] == Row(Pending, 0, step.at, None, step.at))
      && (step.Enqueue? && step.id !in s.rows && max > 0 ==> Due(t.rows[step.id], max, step.at))
  {}

  // Attempts.

  lemma StepAttempts(max: int, s: State, step: Step, id: Id)
    requires Enabled(max, s, step) && id in s.rows
    ensures var t := Do(max, s, step);
      id in t.rows && t.rows[id].attempts == s.rows[id].attempts + (if Claims(step, id) then 1 else 0)
      && (Claims(step, id) ==> t.rows[id].attempts <= max)
  {}

  /** Each claim is one attempt, and a row is never claimed beyond the maximum, however the
      steps interleave: `max` claims in all, less the attempts it started with. */
  lemma {:induction false} ClaimsBounded(max: int, s: State, steps: seq<Step>, id: Id)
    requires Possible(max, s, steps) && id in s.rows
    ensures var t := Run(max, s, steps);
      id in t.rows && t.rows[id].attempts == s.rows[id].attempts + ClaimCount(steps, id)
      && (ClaimCount(steps, id) > 0 ==> s.rows[id].attempts + ClaimCount(steps, id) <= max)
  {
    hide Do, Enabled, Possible;
    if steps != [] {
      PossibleFront(max, s, steps);
      ClaimsBounded(max, s, steps[..|steps| - 1], id);
      StepAttempts(max, Run(max, s, steps[..|steps| - 1]), steps[|steps| - 1], id);
    }
  }

  // When a row can be claimed again.

  predicate Marks(s: State, step: Step, id: Id) {
    step.Publish? && step.persisted && BatchOf(s, step.worker) != [] && BatchOf(s, step.worker)[0] == id
  }

  ghost predicate NeverMarked(max: int, s: State, steps: seq<Step>, id: Id) {
    forall n :: 0 <= n < |steps| ==> !Marks(Run(max, s, steps[..n]), steps[n], id)
  }

  lemma UnmarkedFront(max: int, s: State, steps: seq<Step>, id: Id)
    requires NeverMarked(max, s, steps, id) && steps != []
    ensures var front := steps[..|steps| - 1];
      NeverMarked(max, s, front, id) && !Marks(Run(max, s, front), steps[|steps| - 1], id)
  {
    hide Marks;
    var front := steps[..|steps| - 1];
    forall n | 0 <= n < |front| ensures !Marks(Run(max, s, front[..n]), front[n], id) {
      assert front[..n] == steps[..n];
    }
  }

  /** The row waits: under a lease or until its next attempt, in either case not before `due`. */
  predicate WaitsUntil(s: State, id: Id, due: int) {
    id in s.rows
    && (s.now >= due
        || (s.rows[id].status.Processing? && s.rows[id].lease.Some? && s.rows[id].lease.value + 1 >= due)
        || (s.rows[id].status.Retry? && s.rows[id].nextAt >= due))
  }

  lemma StepWaits(max: int, s: State, step: Step, id: Id, due: int)
    requires Enabled(max, s, step) && WaitsUntil(s, id, due) && !Marks(s, step, id)
    ensures WaitsUntil(Do(max, s, step), id, due)
    ensures Claims(step, id) ==> step.at >= due
  {}

  /** Unless it is marked in between, a row under a lease is claimed again only after the
      lease, and a failed one only after its delay, by whichever worker and in every run. */
  lemma {:induction false} ReclaimWaits(max: int, s: State, steps: seq<Step>, id: Id, due: int)
    requires Possible(max, s, steps) && NeverMarked(max, s, steps, id) && WaitsUntil(s, id, due)
    ensures WaitsUntil(Run(max, s, steps), id, due)
    ensures steps != [] && Claims(steps[|steps| - 1], id) ==> steps[|steps| - 1].at >= due
  {
    hide Do, Enabled, Possible, NeverMarked, WaitsUntil, Marks;
    if steps != [] {
      PossibleFront(max, s, steps);
      UnmarkedFront(max, s, steps, id);
      ReclaimWaits(max, s, steps[..|steps| - 1], id, due);
      StepWaits(max, Run(max, s, steps[..|steps| - 1]), steps[|steps| - 1], id, due);
    }
  }

  /** What a claim and a failed publication each make the row wait for. */
  lemma ClaimLeases(max: int, s: State, step: Step, id: Id)
    requires Enabled(max, s, step) && Claims(step, id)
    ensures WaitsUntil(Do(max, s, step), id, step.at + LEASE + 1)
  {}

  lemma FailureDelays(max: int, s: State, step: Step, id: Id)
    requires Enabled(max, s, step) && Marks(s, step, id) && !step.ok && id in s.rows && s.rows[id].attempts < max
    ensures WaitsUntil(Do(max, s, step), id, step.at + Delay(s.rows[id].attempts))
  {}

  /** A claimed row that no marking reaches is claimed again, by any worker, only after its lease. */
  lemma ReclaimAfterLease(max: int, s: State, claim: Step, steps: seq<Step>, id: Id)
    requires Enabled(max, s, claim) && Claims(claim, id)
    requires var t := Do(max, s, claim); Possible(max, t, steps) && NeverMarked(max, t, steps, id)
    ensures steps != [] && Claims(steps[|steps| - 1], id) ==> steps[|steps| - 1].at > claim.at + 60
  {
    hide Do, Enabled, Possible, NeverMarked, WaitsUntil;
    ClaimLeases(max, s, claim, id);
    ReclaimWaits(max, Do(max, s, claim), steps, id, claim.at + LEASE + 1);
  }

  /** After a recorded failure, and until the next marking, only after the delay. */
  lemma RetryAfterDelay(max: int, s: State, failure: Step, steps: seq<Step>, id: Id)
    requires Enabled(max, s, failure) && Marks(s, failure, id) && !failure.ok && id in s.rows
    requires s.rows[id].attempts < max
    requires var t := Do(max, s, failure); Possible(max, t, steps) && NeverMarked(max, t, steps, id)
    ensures steps != [] && Claims(steps[|steps| - 1], id) ==>
      steps[|steps| - 1].at >= failure.at + Delay(s.rows[id].attempts)
  {
    hide Do, Enabled, Possible, NeverMarked, WaitsUntil, Delay;
    FailureDelays(max, s, failure, id);
    ReclaimWaits(max, Do(max, s, failure), steps, id, failure.at + Delay(s.rows[id].attempts));
  }

  /** The delay is five seconds before the first attempt and doubles with each, up to an hour. */
  lemma DelayDoubles(a: nat)
    ensures Delay(0) == 5
    ensures Delay(a + 1) == if Delay(a) > 1800 then 3600 else 2 * Delay(a)
  {
    assert PowerOfTwo(0) == 1;
    assert PowerOfTwo(8) == 256;
    assert PowerOfTwo(10) == 1024;
    if a <= 7 { PowersGrow(a, 7); } else { PowersGrow(8, Min(a, 10)); }
  }

  lemma {:induction false} PowersGrow(m: nat, n: nat)
    requires m <= n
    ensures PowerOfTwo(m) <= PowerOfTwo(n)
    decreases n
  {
    if m < n { PowersGrow(m, n - 1); }
  }

  /** The delay never shrinks with the attempts, and after a claim lies between ten seconds and an hour. */
  lemma DelayGrows(a: nat, b: nat)
    requires a <= b
    ensures Delay(a) <= Delay(b)
    ensures 10 <= Delay(a) <= 3600 <==> a >= 1
    ensures a >= 10 ==> Delay(a) == 3600
  {
    PowersGrow(Min(a, 10), Min(b, 10));
    if a >= 1 { PowersGrow(1, Min(a, 10)); }
    assert PowerOfTwo(5) == 32;
    assert PowerOfTwo(10) == 1024;
  }

  // One worker.

  predicate OnlyWorker(step: Step, w: Worker) {
    match step
    case Claim(x, _, _, _, _) => x == w
    case Publish(x, _, _, _) => x == w
    case Restart(x, _) => x == w
    case Enqueue(_, _) => true
  }

  /** The worker's batch holds each row once, and all of them are in its hands. */
  ghost predicate InHand(s: State, w: Worker) {
    var batch := BatchOf(s, w);
    (forall i, j :: 0 <= i < j < |batch| ==> batch[i] != batch[j])
    && (forall i :: 0 <= i < |batch| ==> batch[i] in s.rows && s.rows[batch[i]].status.Processing?)
  }

  lemma {:induction false} LoadedDistinct(chosen: seq<Id>, loadable: set<Id>)
    requires forall i, j :: 0 <= i < j < |chosen| ==> chosen[i] != chosen[j]
    ensures var batch := Loaded(chosen, loadable);
      (forall id :: id in batch ==> id in chosen) && (forall i, j :: 0 <= i < j < |batch| ==> batch[i] != batch[j])
  {
    if chosen != [] {
      var front, last := chosen[..|chosen| - 1], chosen[|chosen| - 1];
      assert chosen == front + [last];
      LoadedDistinct(front, loadable);
      assert last !in front;
    }
  }

  /** The batch lost at most its front, and nothing else in it was touched. */
  lemma ShorterInHand(s: State, t: State, w: Worker)
    requires InHand(s, w)
    requires BatchOf(t, w) == BatchOf(s, w) || (BatchOf(s, w) != [] && BatchOf(t, w) == BatchOf(s, w)[1..])
    requires forall i :: 0 <= i < |BatchOf(t, w)| ==>
      var id := BatchOf(t, w)[i]; id in s.rows && id in t.rows && t.rows[id] == s.rows[id]
    ensures InHand(t, w)
  {
    var a, b := BatchOf(s, w), BatchOf(t, w);
    if b != a {
      forall i | 0 <= i < |b| ensures b[i] == a[i + 1] {}
    }
  }

  lemma StepInHand(max: int, s: State, step: Step, w: Worker)
    requires Enabled(max, s, step) && OnlyWorker(step, w) && InHand(s, w)
    ensures InHand(Do(max, s, step), w)
  {
    hide Delay;
    match step
    case Claim(_, at, _, chosen, loadable) =>
      LoadedDistinct(chosen, loadable);
      var batch := Loaded(chosen, loadable);
      forall i | 0 <= i < |batch|
        ensures batch[i] in s.rows && Claimed(Released(s.rows, at), chosen, at)[batch[i]].status.Processing?
      {
        assert batch[i] in batch;
      }
    case Publish(_, _, _, _) => ShorterInHand(s, Do(max, s, step), w);
    case Restart(_, _) =>
    case Enqueue(_, _) => ShorterInHand(s, Do(max, s, step), w);
  }

  predicate Final(r: Row) {
    r.status.Delivered? || r.status.DeadLetter?
  }

  /** Out of attempts after a lost receipt: neither claimable nor given up. */
  predicate Stranded(r: Row, max: int) {
    r.status.Retry? && r.attempts >= max
  }

  lemma StepKeepsFinal(max: int, s: State, step: Step, w: Worker, id: Id)
    requires Enabled(max, s, step) && OnlyWorker(step, w) && InHand(s, w) && id in s.rows
    requires Final(s.rows[id]) || Stranded(s.rows[id], max)
    ensures var t := Do(max, s, step); id in t.rows && t.rows[id] == s.rows[id]
  {}

  /** With the one worker of the program a delivered row stays delivered, a given-up one given
      up, and a row whose last receipt was lost stays stranded: nothing ever touches it. */
  lemma {:induction false} FinalIsAbsorbing(max: int, s: State, steps: seq<Step>, w: Worker, id: Id)
    requires Possible(max, s, steps) && InHand(s, w) && (forall n :: 0 <= n < |steps| ==> OnlyWorker(steps[n], w))
    requires id in s.rows && (Final(s.rows[id]) || Stranded(s.rows[id], max))
    ensures var t := Run(max, s, steps); id in t.rows && t.rows[id] == s.rows[id] && InHand(t, w)
  {
    hide Do, Enabled, Possible, InHand, Final, Stranded, OnlyWorker;
    if steps != [] {
      var front := steps[..|steps| - 1];
      PossibleFront(max, s, steps);
      FinalIsAbsorbing(max, s, front, w, id);
      StepInHand(max, Run(max, s, front), steps[|steps| - 1], w);
      StepKeepsFinal(max, Run(max, s, front), steps[|steps| - 1], w, id);
    }
  }

  // The last permitted claim.

  /** On its last permitted claim: a marking now decides the row for good. */
  predicate OnLastClaim(r: Row, max: int, lease: int) {
    r.status.Processing? && r.attempts >= max && r.lease == Some(lease)
  }

  predicate PollsAfter(step: Step, lease: int) {
    step.Claim? && step.at > lease
  }

  ghost predicate PolledAfter(steps: seq<Step>, lease: int) {
    exists n :: 0 <= n < |steps| && PollsAfter(steps[n], lease)
  }

  lemma PolledFront(steps: seq<Step>, lease: int)
    requires steps != []
    ensures PolledAfter(steps, lease) <==>
      PolledAfter(steps[..|steps| - 1], lease) || PollsAfter(steps[|steps| - 1], lease)
  {
    hide PollsAfter;
    var front := steps[..|steps| - 1];
    if n :| 0 <= n < |front| && PollsAfter(front[n], lease) { assert PollsAfter(steps[n], lease); }
    if n :| 0 <= n < |steps| && PollsAfter(steps[n], lease) { assert n < |front| ==> PollsAfter(front[n], lease); }
  }

  lemma MarkedFront(max: int, s: State, steps: seq<Step>, id: Id)
    requires steps != []
    ensures var front := steps[..|steps| - 1];
      NeverMarked(max, s, steps, id) <==>
        NeverMarked(max, s, front, id) && !Marks(Run(max, s, front), steps[|steps| - 1], id)
  {
    hide Marks, Run;
    var front := steps[..|steps| - 1];
    if NeverMarked(max, s, steps, id) {
      UnmarkedFront(max, s, steps, id);
    } else {
      var n :| 0 <= n < |steps| && Marks(Run(max, s, steps[..n]), steps[n], id);
      if n < |front| { assert front[..n] == steps[..n] && Marks(Run(max, s, front[..n]), front[n], id); }
    }
  }

  /** What one step does to a row that is on its last claim, was stranded, or is decided. */
  lemma StepLastClaim(max: int, s: State, step: Step, id: Id, lease: int)
    requires Enabled(max, s, step) && id in s.rows && s.rows[id].attempts >= max
    requires OnLastClaim(s.rows[id], max, lease) || Stranded(s.rows[id], max) || Final(s.rows[id])
    ensures var t := Do(max, s, step);
      id in t.rows && t.rows[id].attempts >= max
      && (Marks(s, step, id) || Final(s.rows[id]) ==> Final(t.rows[id]))
      && (!Marks(s, step, id) && OnLastClaim(s.rows[id], max, lease) ==>
            (if PollsAfter(step, lease) then Stranded(t.rows[id], max) else t.rows[id] == s.rows[id]))
      && (!Marks(s, step, id) && Stranded(s.rows[id], max) ==> Stranded(t.rows[id], max))
  {
    hide PowerOfTwo, Loaded, Delay;
  }

  /** A row on its last permitted claim ends stranded exactly when no marking of it ever reaches
      the table and some worker polls after the lease; it ends decided exactly when one does.
      This holds in every run: any workers, restarts, rows ahead of it or behind it in a batch. */
  lemma {:induction false} LostReceiptStrandsIff(max: int, s: State, steps: seq<Step>, id: Id, lease: int)
    requires Possible(max, s, steps) && id in s.rows && OnLastClaim(s.rows[id], max, lease)
    ensures var t := Run(max, s, steps);
      id in t.rows && t.rows[id].attempts >= max
      && (Final(t.rows[id]) <==> !NeverMarked(max, s, steps, id))
      && (Stranded(t.rows[id], max) <==> NeverMarked(max, s, steps, id) && PolledAfter(steps, lease))
      && (t.rows[id] == s.rows[id] <==> NeverMarked(max, s, steps, id) && !PolledAfter(steps, lease))
  {
    hide Do, Enabled, Possible, Marks, PollsAfter;
    if steps != [] {
      PossibleFront(max, s, steps);
      MarkedFront(max, s, steps, id);
      PolledFront(steps, lease);
      LostReceiptStrandsIff(max, s, steps[..|steps| - 1], id, lease);
      StepLastClaim(max, Run(max, s, steps[..|steps| - 1]), steps[|steps| - 1], id, lease);
    }
  }

  // Any number of workers.

  /** No worker still has the row to publish. */
  ghost predicate InNoBatch(s: State, id: Id) {
    forall w :: id !in BatchOf(s, w)
  }

  lemma {:induction false} LoadedChosen(chosen: seq<Id>, loadable: set<Id>, id: Id)
    requires id in Loaded(chosen, loadable)
    ensures id in chosen
  {
    if chosen != [] {
      var front := chosen[..|chosen| - 1];
      if id in Loaded(front, loadable) { LoadedChosen(front, loadable, id); }
    }
  }

  lemma StepKeepsDelivered(max: int, s: State, step: Step, id: Id)
    requires Enabled(max, s, step) && id in s.rows && s.rows[id].status.Delivered? && InNoBatch(s, id)
    ensures var t := Do(max, s, step); id in t.rows && t.rows[id] == s.rows[id] && InNoBatch(t, id)
  {
    hide Delay, Loaded;
    forall w ensures id !in BatchOf(Do(max, s, step), w) {
      assert id !in BatchOf(s, w);
      if step.Claim? && w == step.worker && id in Loaded(step.chosen, step.loadable) {
        LoadedChosen(step.chosen, step.loadable, id);
        assert id in Candidates(Released(s.rows, step.at), max, step.at);
      }
    }
  }

  lemma {:induction false} UnheldStays(max: int, s: State, steps: seq<Step>, id: Id)
    requires Possible(max, s, steps) && id in s.rows && s.rows[id].status.Delivered? && InNoBatch(s, id)
    ensures var t := Run(max, s, steps); id in t.rows && t.rows[id] == s.rows[id] && InNoBatch(t, id)
  {
    hide Do, Enabled, Possible, InNoBatch;
    if steps != [] {
      PossibleFront(max, s, steps);
      UnheldStays(max, s, steps[..|steps| - 1], id);
      StepKeepsDelivered(max, Run(max, s, steps[..|steps| - 1]), steps[|steps| - 1], id);
    }
  }

  /** The worker publishes its batch up to place `k`; the receipts before it are lost and the
      last one reports a failure. */
  function LateFailure(s: State, w: Worker, k: nat): (steps: seq<Step>)
    ensures |steps| == k + 1
  {
    seq(k, _ => Publish(w, s.now, true, false)) + [Publish(w, s.now, false, true)]
  }

  lemma {:induction false} SilentPublications(max: int, s: State, w: Worker, k: nat, n: nat)
    requires n <= k < |BatchOf(s, w)|
    ensures var t := Run(max, s, LateFailure(s, w, k)[..n]);
      t.rows == s.rows && t.now == s.now && BatchOf(t, w) == BatchOf(s, w)[n..]
    ensures Enabled(max, Run(max, s, LateFailure(s, w, k)[..n]), LateFailure(s, w, k)[n])
  {
    var so := LateFailure(s, w, k)[..n];
    if n > 0 {
      SilentPublications(max, s, w, k, n - 1);
      assert so[..n - 1] == LateFailure(s, w, k)[..n - 1];
    }
  }

  /** A delivered row is safe in every continuation exactly when no worker's batch still holds
      it; a worker that holds it can take the delivery back with a late failure. */
  lemma DeliverySafeIff(max: int, s: State, id: Id)
    requires id in s.rows && s.rows[id].status.Delivered?
    ensures InNoBatch(s, id) <==>
      forall steps :: Possible(max, s, steps) ==>
        id in Run(max, s, steps).rows && Run(max, s, steps).rows[id].status.Delivered?
  {
    hide Delay, Loaded, Selected, Released, Claimed, Candidates;
    if InNoBatch(s, id) {
      forall steps | Possible(max, s, steps)
        ensures id in Run(max, s, steps).rows && Run(max, s, steps).rows[id].status.Delivered?
      {
        UnheldStays(max, s, steps, id);
      }
    } else {
      var w :| id in BatchOf(s, w);
      var k :| 0 <= k < |BatchOf(s, w)| && BatchOf(s, w)[k] == id;
      var steps := LateFailure(s, w, k);
      forall n | 0 <= n < |steps| ensures Enabled(max, Run(max, s, steps[..n]), steps[n]) {
        SilentPublications(max, s, w, k, n);
      }
      assert Possible(max, s, steps);
      SilentPublications(max, s, w, k, k);
      assert !Run(max, s, steps).rows[id].status.Delivered?;
    }
  }

  /** How two workers get there: the first one's publication outlasts its lease, the second
      one delivers the row, and the late failure of the first takes the delivery back. */
  lemma TwoWorkersUndeliver(max: int, id: Id)
    requires max >= 2
    ensures var s := State(map[id := Row(Processing, 1, 0, Some(LEASE), 0)], map[0 := [id]], 0);
      var second, receipt, late := Claim(1, 61, 1, [id], {id}), Publish(1, 62, true, true), Publish(0, 63, false, true);
      var delivered := Do(max, Do(max, s, second), receipt);
      Enabled(max, s, second) && Enabled(max, Do(max, s, second), receipt) && Enabled(max, delivered, late)
      && delivered.rows[id].status.Delivered? && !Do(max, delivered, late).rows[id].status.Delivered?
  {
    hide Delay;
    var s := State(map[id := Row(Processing, 1, 0, Some(LEASE), 0)], map[0 := [id]], 0);
    assert Released(s.rows, 61) == map[id := Row(Retry, 1, 61, None, 0)];
    assert Candidates(Released(s.rows, 61), max, 61) == {id};
    assert Loaded([id], {id}) == [id] by { assert [id][..0] == []; }
  }

  // The program: the table, its statements, and one round of the worker's loop.

  class Queue {
    var rows: Table

    constructor (rows: Table)
      ensures this.rows == rows
    {
      this.rows := rows;
    }

    method ReleaseExpiredLeases(now: int)
      modifies this
      ensures rows == Released(old(rows), now)
    {
      rows := map id | id in rows ::
        if rows[id].status.Processing? && rows[id].lease.Some? && rows[id].lease.value < now
        then Row(Retry, rows[id].attempts, now, None, rows[id].created) else rows[id];
    }

    /** The batch is what the database chose among the candidates; see `Selected`. */
    method ClaimBatch(max: int, limit: nat, now: int, chosen: seq<Id>, loadable: set<Id>) returns (batch: seq<Id>)
      requires Selected(Released(rows, now), max, limit, now, chosen)
      modifies this
      ensures rows == Claimed(Released(old(rows), now), chosen, now) && batch == Loaded(chosen, loadable)
    {
      hide Selected, Released;
      ReleaseExpiredLeases(now);
      rows := Claimed(rows, chosen, now);
      batch := [];
      for i := 0 to |chosen|
        invariant batch == Loaded(chosen[..i], loadable)
      {
        assert chosen[..i + 1][..i] == chosen[..i];
        if chosen[i] in loadable { batch := batch + [chosen[i]]; }
      }
      assert chosen[..|chosen|] == chosen;
    }

    method MarkDelivered(id: Id)
      modifies this
      ensures rows == MarkedDelivered(old(rows), id)
    {
      if id in rows { rows := rows[id := rows[id].(status := Delivered, lease := None)]; }
    }

    method MarkFailed(id: Id, max: int, now: int)
      modifies this
      ensures rows == MarkedFailed(old(rows), id, max, now)
    {
      if id in rows {
        var row := rows[id];
        rows := rows[id := Row(if row.attempts >= max then DeadLetter else Retry, row.attempts,
          now + Min(3600, PowerOfTwo(Min(row.attempts, 10)) * 5), None, row.created)];
      }
    }

    /** One round: claim a batch, then publish and mark each item in turn. The answers say how
        each publication went, when it ended, and whether its receipt reached the table. */
    method WorkerRound(max: int, limit: nat, now: int, chosen: seq<Id>, loadable: set<Id>, answers: seq<Step>,
                       w: Worker)
      requires Selected(Released(rows, now), max, limit, now, chosen)
      requires |answers| == |Loaded(chosen, loadable)|
      requires forall i :: 0 <= i < |answers| ==> answers[i].Publish? && answers[i].worker == w
      modifies this
      ensures var end := Run(max, State(old(rows), map[], now), [Claim(w, now, limit, chosen, loadable)] + answers);
        rows == end.rows && BatchOf(end, w) == []
    {
      hide Selected, Released, Claimed, MarkedDelivered, MarkedFailed;
      ghost var start, first := State(rows, map[], now), Claim(w, now, limit, chosen, loadable);
      var batch := ClaimBatch(max, limit, now, chosen, loadable);
      assert [first] + answers[..0] == [first] && [first][..0] == [];
      assert Run(max, start, []) == start;
      assert Run(max, start, [first]) == Do(max, start, first);
      for i := 0 to |batch|
        invariant var state := Run(max, start, [first] + answers[..i]);
          rows == state.rows && BatchOf(state, w) == batch[i..]
      {
        ghost var so := [first] + answers[..i + 1];
        assert so[..|so| - 1] == [first] + answers[..i] && so[|so| - 1] == answers[i];
        if answers[i].persisted {
          if answers[i].ok {
            MarkDelivered(batch[i]);
          } else {
            MarkFailed(batch[i], max, answers[i].at);
          }
        }
      }
      assert answers[..|answers|] == answers;
    }
  }
}
