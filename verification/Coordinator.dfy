/**
 The edge coordinator: an ordered, deduplicated event log with member epochs and paged
 pulls. The functions say what each request does; the class is the durable object
 itself, with its tables as fields.
 */
module Coordinator {
  import opened Wrappers

  const MAX_SAFE: int := 0x1F_FFFF_FFFF_FFFF
  const MAX_EVENT_BYTES: nat := 262144
  const MAX_PULL_LIMIT := 1000

  // Requests as they arrive.

  /** A value where the protocol wants an integer. */
  datatype Number = Whole(value: int) | NotWhole

  predicate Safe(n: Number) {
    n.Whole? && -MAX_SAFE <= n.value <= MAX_SAFE
  }

  datatype Envelope = Unserializable | Undefined | Json(text: string, bytes: nat)

  datatype Input =
    | NotAnObject
    | Input(eventId: Option<string>, replicaId: Option<string>, replicaSeq: Number,
            actorKey: Option<string>, membershipEpoch: Number, envelope: Envelope)

  datatype Event = Event(id: string, replica: string, seqNo: int, actor: string, epoch: int, envelope: Option<string>)

  datatype Row = Row(order: nat, event: Event)

  type Log = seq<Row>

  datatype Member = Member(role: string, epoch: int, active: bool)

  datatype State = State(
    tokenHash: Option<string>, epoch: Option<int>, members: map<string, Member>,
    log: Log, sequence: nat, cursors: map<(string, string), int>)

  const EMPTY := State(None, None, map[], [], 0, map[])

  datatype Problem =
    | Forbidden | BadToken | BadOwner | BadMember | BadEvent | WrongActor | MemberInactive | ViewerCannotPublish
    | StaleEpoch | EpochMismatch | ConstraintViolated | BadCursor | NotAMember

  datatype Request =
    | Provision(admin: bool, tokenLength: nat, hashed: string, ownerKey: string, epoch: Number)
    | Upsert(admin: bool, actorKey: string, role: string, epoch: Number, active: bool)
    | Push(input: Input, actorKey: string)
    | Advance(actorKey: string, replicaId: string, lastServerOrder: Number)

  datatype Reply = Accepted(id: string, order: nat) | Duplicate(id: string, order: nat) | Changed
    | Refused(problem: Problem)

  // Validation.

  predicate HexDigit(c: char) {
    '0' <= c <= '9' || 'a' <= c <= 'f' || 'A' <= c <= 'F'
  }

  predicate IsUuid(s: string) {
    |s| == 36 && forall i :: 0 <= i < 36 ==>
      if i in {8, 13, 18, 23} then s[i] == '-'
      else if i == 14 then '1' <= s[i] <= '8'
      else if i == 19 then s[i] in "89abAB"
      else HexDigit(s[i])
  }

  predicate IsActorKey(s: string) {
    16 <= |s| <= 256 && forall i :: 0 <= i < |s| ==>
      '0' <= s[i] <= '9' || 'a' <= s[i] <= 'z' || 'A' <= s[i] <= 'Z' || s[i] in ":_-"
  }

  predicate PositiveSafe(n: Number) {
    Safe(n) && n.value >= 1
  }

  /** An absent envelope passes: it encodes to nothing, and only the insert refuses it. */
  function Validate(input: Input): Result<Event, Problem> {
    if input.NotAnObject? then Failure(BadEvent)
    else if input.eventId.None? || !IsUuid(input.eventId.value) then Failure(BadEvent)
    else if input.replicaId.None? || !IsUuid(input.replicaId.value) then Failure(BadEvent)
    else if !PositiveSafe(input.replicaSeq) then Failure(BadEvent)
    else if input.actorKey.None? || !IsActorKey(input.actorKey.value) then Failure(BadEvent)
    else if !PositiveSafe(input.membershipEpoch) then Failure(BadEvent)
    else if input.envelope.Unserializable? then Failure(BadEvent)
    else if input.envelope.Json? && input.envelope.bytes > MAX_EVENT_BYTES then Failure(BadEvent)
    else Success(Event(
      input.eventId.value, input.replicaId.value, input.replicaSeq.value, input.actorKey.value,
      input.membershipEpoch.value,
      if input.envelope.Json? then Some(input.envelope.text) else None))
  }

  // The steps.

  predicate SameSlot(a: Event, b: Event) {
    a.replica == b.replica && a.seqNo == b.seqNo
  }

  predicate Clashes(a: Event, b: Event) {
    a.id == b.id || SameSlot(a, b)
  }

  function FirstWithId(log: Log, id: string): Option<Row> {
    if log == [] then None
    else if log[0].event.id == id then Some(log[0])
    else FirstWithId(log[1..], id)
  }

  function FirstInSlot(log: Log, e: Event): Option<Row> {
    if log == [] then None
    else if SameSlot(log[0].event, e) then Some(log[0])
    else FirstInSlot(log[1..], e)
  }

  /** A row with the event's id comes before one that shares only its replica slot. */
  function Earlier(log: Log, e: Event): Option<Row> {
    if FirstWithId(log, e.id).Some? then FirstWithId(log, e.id) else FirstInSlot(log, e)
  }

  function CurrentEpoch(s: State): int {
    if s.epoch.Some? then s.epoch.value else 1
  }

  function Membership(s: State, e: Event): Option<Problem> {
    if e.actor !in s.members || !s.members[e.actor].active then Some(MemberInactive)
    else if s.members[e.actor].role == "viewer" then Some(ViewerCannotPublish)
    else if e.epoch < s.members[e.actor].epoch then Some(StaleEpoch)
    else if e.epoch != CurrentEpoch(s) then Some(EpochMismatch)
    else None
  }

  /** The unique and not-null constraints of the event table. */
  predicate InsertAllowed(log: Log, order: nat, e: Event) {
    e.envelope.Some? && forall i :: 0 <= i < |log| ==> !Clashes(log[i].event, e) && log[i].order != order
  }

  function Append(s: State, e: Event): State {
    s.(log := s.log + [Row(s.sequence + 1, e)], sequence := s.sequence + 1)
  }

  function PushEvent(s: State, input: Input, actorKey: string): (State, Reply) {
    match Validate(input)
    case Failure(p) => (s, Refused(p))
    case Success(e) =>
      if e.actor != actorKey then (s, Refused(WrongActor))
      else if Membership(s, e).Some? then (s, Refused(Membership(s, e).value))
      else match Earlier(s.log, e)
        case Some(row) => (s, Duplicate(row.event.id, row.order))
        case None =>
          if InsertAllowed(s.log, s.sequence + 1, e) then (Append(s, e), Accepted(e.id, s.sequence + 1))
          else (s, Refused(ConstraintViolated))
  }

  function ProvisionedEpoch(epoch: Number): int {
    if PositiveSafe(epoch) then epoch.value else 1
  }

  function Provisioned(s: State, r: Request): State
    requires r.Provision?
  {
    var epoch := ProvisionedEpoch(r.epoch);
    s.(tokenHash := Some(r.hashed), epoch := Some(epoch),
      members := s.members[r.ownerKey := Member("owner", epoch, true)])
  }

  function Upserted(s: State, r: Request): State
    requires r.Upsert? && r.epoch.Whole?
  {
    var epoch := if s.epoch.Some? && s.epoch.value > r.epoch.value then s.epoch.value else r.epoch.value;
    s.(epoch := Some(epoch), members := s.members[r.actorKey := Member(r.role, r.epoch.value, r.active)])
  }

  function Advanced(s: State, r: Request): State
    requires r.Advance? && r.lastServerOrder.Whole?
  {
    var key := (r.actorKey, r.replicaId);
    var last := r.lastServerOrder.value;
    s.(cursors := s.cursors[key := if key in s.cursors && s.cursors[key] > last then s.cursors[key] else last])
  }

  function Handle(s: State, r: Request): (State, Reply) {
    match r
    case Provision(admin, tokenLength, _, ownerKey, _) =>
      if !admin then (s, Refused(Forbidden))
      else if tokenLength < 32 then (s, Refused(BadToken))
      else if |ownerKey| < 16 then (s, Refused(BadOwner))
      else (Provisioned(s, r), Changed)
    case Upsert(admin, actorKey, role, epoch, _) =>
      if !admin then (s, Refused(Forbidden))
      else if actorKey == "" || role == "" || !PositiveSafe(epoch) then (s, Refused(BadMember))
      else (Upserted(s, r), Changed)
    case Push(input, actorKey) => PushEvent(s, input, actorKey)
    case Advance(actorKey, replicaId, last) =>
      if replicaId == "" || !Safe(last) || last.value < 0 then (s, Refused(BadCursor))
      else (Advanced(s, r), Changed)
  }

  function Run(s: State, rs: seq<Request>): State {
    if rs == [] then s else Handle(Run(s, rs[..|rs| - 1]), rs[|rs| - 1]).0
  }

  // The log invariant.

  ghost predicate Increasing(log: Log) {
    forall i, j :: 0 <= i < j < |log| ==> log[i].order < log[j].order
  }

  ghost predicate NoClashes(log: Log) {
    forall i, j :: 0 <= i < j < |log| ==> !Clashes(log[i].event, log[j].event)
  }

  ghost predicate LogValid(s: State) {
    Increasing(s.log) && NoClashes(s.log) && forall i :: 0 <= i < |s.log| ==> 1 <= s.log[i].order <= s.sequence
  }

  lemma {:induction false} FoundById(log: Log, id: string)
    ensures match FirstWithId(log, id)
      case Some(row) => row in log && row.event.id == id
      case None => forall i :: 0 <= i < |log| ==> log[i].event.id != id
  {
    if log != [] { FoundById(log[1..], id); }
  }

  lemma {:induction false} FoundInSlot(log: Log, e: Event)
    ensures match FirstInSlot(log, e)
      case Some(row) => row in log && SameSlot(row.event, e)
      case None => forall i :: 0 <= i < |log| ==> !SameSlot(log[i].event, e)
  {
    if log != [] { FoundInSlot(log[1..], e); }
  }

  /** The lookup finds a row exactly when one clashes, and prefers the event itself. */
  lemma EarlierIff(log: Log, e: Event)
    ensures Earlier(log, e).Some? <==> exists i :: 0 <= i < |log| && Clashes(log[i].event, e)
    ensures Earlier(log, e).Some? ==> Earlier(log, e).value in log && Clashes(Earlier(log, e).value.event, e)
    ensures (exists i :: 0 <= i < |log| && log[i].event.id == e.id) ==> Earlier(log, e).value.event.id == e.id
  {
    FoundById(log, e.id);
    FoundInSlot(log, e);
  }

  /** After the lookup the unique constraints cannot fail; the insert is refused only for
      an event that came without an envelope. */
  lemma InsertNeverClashes(s: State, e: Event)
    requires LogValid(s) && Earlier(s.log, e).None?
    ensures InsertAllowed(s.log, s.sequence + 1, e) <==> e.envelope.Some?
  {
    EarlierIff(s.log, e);
  }

  lemma PushKeepsLog(s: State, input: Input, actorKey: string)
    requires LogValid(s)
    ensures var t := PushEvent(s, input, actorKey).0; LogValid(t) && s.log <= t.log && s.sequence <= t.sequence
  {
    hide Validate, Membership, Earlier, Clashes;
  }

  /** Every request keeps the log ordered and free of clashes, and only ever appends to it. */
  lemma {:induction false} RunKeepsLog(s: State, rs: seq<Request>)
    requires LogValid(s)
    ensures LogValid(Run(s, rs)) && s.log <= Run(s, rs).log && s.sequence <= Run(s, rs).sequence
  {
    hide LogValid, PushEvent;
    if rs != [] {
      var mid := Run(s, rs[..|rs| - 1]);
      RunKeepsLog(s, rs[..|rs| - 1]);
      match rs[|rs| - 1] {
        case Push(input, actorKey) => PushKeepsLog(mid, input, actorKey);
        case _ => SameLog(mid, Handle(mid, rs[|rs| - 1]).0);
      }
    }
  }

  lemma SameLog(s: State, t: State)
    requires LogValid(s) && t.log == s.log && t.sequence == s.sequence
    ensures LogValid(t)
  {}

  /** A push is answered `duplicate` exactly when something in the log clashes with it. */
  lemma PushReplies(s: State, input: Input, actorKey: string)
    requires LogValid(s) && Validate(input).Success? && Validate(input).value.actor == actorKey
    requires Membership(s, Validate(input).value).None?
    ensures var e, (t, reply) := Validate(input).value, PushEvent(s, input, actorKey);
      && (reply.Duplicate? <==> exists i :: 0 <= i < |s.log| && Clashes(s.log[i].event, e))
      && (reply.Accepted? <==> !reply.Duplicate? && e.envelope.Some?)
      && (reply.Accepted? ==> t.log == s.log + [Row(reply.order, e)])
      && (reply.Accepted? ==> forall row :: row in s.log ==> row.order < reply.order)
      && (!reply.Accepted? ==> t == s)
  {
    EarlierIff(s.log, Validate(input).value);
    if Earlier(s.log, Validate(input).value).None? { InsertNeverClashes(s, Validate(input).value); }
  }

  lemma OnlyOne(log: Log, a: Row, b: Row)
    requires NoClashes(log) && a in log && b in log && Clashes(a.event, b.event)
    ensures a == b
  {
    var i :| 0 <= i < |log| && log[i] == a;
    var j :| 0 <= j < |log| && log[j] == b;
    assert Clashes(log[i].event, log[j].event) && Clashes(log[j].event, log[i].event);
    assert i == j;
  }

  /** Once accepted, an event pushed again at any later time leaves the state as it is; it
      gets its original order back if and only if its author may still publish in its epoch. */
  lemma Resubmission(s: State, input: Input, actorKey: string, rs: seq<Request>)
    requires LogValid(s) && PushEvent(s, input, actorKey).1.Accepted?
    ensures var (first, reply) := PushEvent(s, input, actorKey);
      var later := Run(first, rs);
      var again := PushEvent(later, input, actorKey);
      again.0 == later
      && (again.1 == Duplicate(reply.id, reply.order) <==> Membership(later, Validate(input).value).None?)
  {
    hide Membership, Validate;
    var e := Validate(input).value;
    var (first, reply) := PushEvent(s, input, actorKey);
    var later := Run(first, rs);
    PushKeepsLog(s, input, actorKey);
    RunKeepsLog(first, rs);
    var row := Row(reply.order, e);
    assert first.log[|first.log| - 1] == row && later.log[|first.log| - 1] == row;
    EarlierIff(later.log, e);
    OnlyOne(later.log, row, Earlier(later.log, e).value);
  }

  // Epochs.

  ghost predicate EpochsOrdered(log: Log) {
    forall i, j :: 0 <= i < j < |log| ==> log[i].event.epoch <= log[j].event.epoch
  }

  /** The coordinator's epoch bounds every member's and every accepted event's. */
  ghost predicate EpochsBounded(s: State) {
    EpochsOrdered(s.log)
    && (forall k :: k in s.members ==> s.members[k].epoch <= CurrentEpoch(s))
    && (forall i :: 0 <= i < |s.log| ==> s.log[i].event.epoch <= CurrentEpoch(s))
  }

  /** Everything but provisioning keeps epochs bounded, and never lowers the coordinator's. */
  lemma RequestKeepsEpochs(s: State, r: Request)
    requires EpochsBounded(s) && s.epoch.Some? && !r.Provision?
    ensures var t := Handle(s, r).0; EpochsBounded(t) && t.epoch.Some? && t.epoch.value >= s.epoch.value
  {
    hide Validate, Earlier, Clashes;
  }

  /** After a first provisioning and without another one, membership epochs never go back
      along the log, in any run. */
  lemma {:induction false} EpochOrder(provision: Request, rs: seq<Request>)
    requires provision.Provision? && Handle(EMPTY, provision).1.Changed?
    requires forall i :: 0 <= i < |rs| ==> !rs[i].Provision?
    ensures var t := Run(Handle(EMPTY, provision).0, rs);
      EpochsBounded(t) && t.epoch.Some? && t.epoch.value >= ProvisionedEpoch(provision.epoch)
  {
    hide EpochsBounded;
    var start := Handle(EMPTY, provision).0;
    if rs == [] {
      FirstProvision(provision);
    } else {
      EpochOrder(provision, rs[..|rs| - 1]);
      RequestKeepsEpochs(Run(start, rs[..|rs| - 1]), rs[|rs| - 1]);
    }
  }

  lemma FirstProvision(provision: Request)
    requires provision.Provision? && Handle(EMPTY, provision).1.Changed?
    ensures var t := Handle(EMPTY, provision).0; EpochsBounded(t) && t.epoch == Some(ProvisionedEpoch(provision.epoch))
  {}

  /** Provisioning again sets the epoch outright; the bounds survive exactly when the new
      epoch is not below any other member's or any accepted event's. */
  lemma ProvisionKeepsEpochsIff(s: State, r: Request)
    requires EpochsBounded(s) && r.Provision? && Handle(s, r).1.Changed?
    ensures EpochsBounded(Handle(s, r).0) <==>
      (forall k :: k in s.members && k != r.ownerKey ==> s.members[k].epoch <= ProvisionedEpoch(r.epoch))
      && (forall i :: 0 <= i < |s.log| ==> s.log[i].event.epoch <= ProvisionedEpoch(r.epoch))
  {
    var t := Handle(s, r).0;
    forall k | k in s.members && k != r.ownerKey ensures k in t.members && t.members[k] == s.members[k] {}
  }

  /** An event accepted right after such a provisioning is out of epoch order in the log. */
  lemma LowerProvisionBreaksOrder(s: State, r: Request, input: Input)
    requires LogValid(s) && r.Provision? && Handle(s, r).1.Changed? && s.log != []
    requires s.log[|s.log| - 1].event.epoch > ProvisionedEpoch(r.epoch)
    requires PushEvent(Handle(s, r).0, input, r.ownerKey).1.Accepted?
    ensures !EpochsOrdered(PushEvent(Handle(s, r).0, input, r.ownerKey).0.log)
  {
    hide Validate, Earlier, Clashes;
    var t := PushEvent(Handle(s, r).0, input, r.ownerKey).0;
    assert t.log[|s.log| - 1] == s.log[|s.log| - 1];
    assert t.log[|s.log|].event.epoch == ProvisionedEpoch(r.epoch);
  }

  // Cursors.

  /** A stored cursor never goes back. */
  lemma {:induction false} CursorsAdvance(s: State, rs: seq<Request>, key: (string, string))
    requires key in s.cursors
    ensures key in Run(s, rs).cursors && Run(s, rs).cursors[key] >= s.cursors[key]
  {
    hide PushEvent;
    if rs != [] {
      CursorsAdvance(s, rs[..|rs| - 1], key);
      if rs[|rs| - 1].Push? { PushKeepsCursors(Run(s, rs[..|rs| - 1]), rs[|rs| - 1].input, rs[|rs| - 1].actorKey); }
    }
  }

  lemma PushKeepsCursors(s: State, input: Input, actorKey: string)
    ensures PushEvent(s, input, actorKey).0.cursors == s.cursors
  {}

  // Paging.

  function Distance(a: int, b: int): nat {
    if a <= b then b - a else a - b
  }

  /** The window a pull asks for: a bad cursor starts over, a bad limit is a hundred, and any
      other limit is brought as close as the bounds allow. */
  function PullWindow(rawAfter: Number, rawLimit: Number): (window: (int, nat))
    ensures 0 <= window.0 <= MAX_SAFE && 1 <= window.1 <= 1000
    ensures if rawAfter.Whole? && 0 <= rawAfter.value <= 9007199254740991 then window.0 == rawAfter.value
      else window.0 == 0
    ensures if rawLimit.Whole? && -9007199254740991 <= rawLimit.value <= 9007199254740991 then
        forall n: int :: 1 <= n <= 1000 ==> Distance(window.1, rawLimit.value) <= Distance(n, rawLimit.value)
      else window.1 == 100
  {
    var after := if Safe(rawAfter) && rawAfter.value >= 0 then rawAfter.value else 0;
    var limit :=
      if !Safe(rawLimit) then 100
      else if rawLimit.value < 1 then 1
      else if rawLimit.value > MAX_PULL_LIMIT then MAX_PULL_LIMIT
      else rawLimit.value;
    (after, limit)
  }

  /** The rows with an order in the interval, in log order. */
  function Between(log: Log, lo: int, hi: int): Log {
    if log == [] then []
    else
      var last := log[|log| - 1];
      Between(log[..|log| - 1], lo, hi) + if lo < last.order <= hi then [last] else []
  }

  function Above(log: Log, after: int): Log {
    if log == [] then []
    else
      var last := log[|log| - 1];
      Above(log[..|log| - 1], after) + if after < last.order then [last] else []
  }

  datatype Page = Page(events: Log, nextCursor: int, hasMore: bool)

  function PageOf(log: Log, after: int, limit: nat): Page {
    var rows := Above(log, after);
    var events := if |rows| > limit then rows[..limit] else rows;
    Page(events, if events == [] then after else events[|events| - 1].order, |rows| > limit)
  }

  /** How many rows have an order up to `x`. */
  function CountUpTo(log: Log, x: int): (n: nat)
    ensures n <= |log|
  {
    if log == [] then 0 else CountUpTo(log[..|log| - 1], x) + if log[|log| - 1].order <= x then 1 else 0
  }

  /** The first `n` rows are the ones up to `x`. */
  ghost predicate SplitAt(log: Log, x: int, n: nat) {
    n <= |log| && (forall i :: 0 <= i < n ==> log[i].order <= x) && (forall i :: n <= i < |log| ==> log[i].order > x)
  }

  lemma SplitUnique(log: Log, x: int, m: nat, n: nat)
    requires SplitAt(log, x, m) && SplitAt(log, x, n)
    ensures m == n
  {
    assert m < |log| ==> log[m].order > x;
    assert n < |log| ==> log[n].order > x;
  }

  lemma FrontIncreasing(log: Log)
    requires Increasing(log) && log != []
    ensures var front := log[..|log| - 1];
      Increasing(front) && log == front + [log[|log| - 1]]
      && forall i :: 0 <= i < |front| ==> front[i].order < log[|log| - 1].order
  {}

  lemma {:induction false} CountSplits(log: Log, x: int)
    requires Increasing(log)
    ensures SplitAt(log, x, CountUpTo(log, x))
  {
    hide Increasing;
    if log != [] {
      var front := log[..|log| - 1];
      FrontIncreasing(log);
      CountSplits(front, x);
      if log[|log| - 1].order <= x { SplitUnique(front, x, CountUpTo(front, x), |front|); }
    }
  }

  lemma {:induction false} AboveSlice(log: Log, x: int)
    requires Increasing(log)
    ensures Above(log, x) == log[CountUpTo(log, x)..]
  {
    hide Increasing;
    if log != [] {
      var front, n := log[..|log| - 1], CountUpTo(log[..|log| - 1], x);
      FrontIncreasing(log);
      AboveSlice(front, x);
      if log[|log| - 1].order <= x {
        CountSplits(front, x);
        SplitUnique(front, x, n, |front|);
      } else {
        assert log[n..] == front[n..] + [log[|log| - 1]];
      }
    }
  }

  lemma {:induction false} BetweenSlice(log: Log, lo: int, hi: int)
    requires Increasing(log) && lo <= hi
    ensures CountUpTo(log, lo) <= CountUpTo(log, hi)
    ensures Between(log, lo, hi) == log[CountUpTo(log, lo)..CountUpTo(log, hi)]
  {
    hide Increasing;
    if log != [] {
      var front, last := log[..|log| - 1], log[|log| - 1];
      var m, n := CountUpTo(front, lo), CountUpTo(front, hi);
      FrontIncreasing(log);
      BetweenSlice(front, lo, hi);
      if last.order <= hi {
        CountSplits(front, hi);
        SplitUnique(front, hi, n, |front|);
        if last.order <= lo {
          CountSplits(front, lo);
          SplitUnique(front, lo, m, |front|);
        } else {
          assert log[m..n + 1] == front[m..n] + [last];
        }
      } else {
        assert log[m..n] == front[m..n];
      }
    }
  }

  lemma CountAt(log: Log, n: nat)
    requires Increasing(log) && 0 < n <= |log|
    ensures CountUpTo(log, log[n - 1].order) == n
  {
    CountSplits(log, log[n - 1].order);
    assert SplitAt(log, log[n - 1].order, n);
    SplitUnique(log, log[n - 1].order, CountUpTo(log, log[n - 1].order), n);
  }

  /** One page: the next rows above the cursor, and a cursor that moves past them. */
  lemma PageIsSlice(log: Log, after: int, limit: nat)
    requires Increasing(log) && limit >= 1
    ensures var p, n := PageOf(log, after, limit), CountUpTo(log, after);
      n <= CountUpTo(log, p.nextCursor) && p.events == log[n..CountUpTo(log, p.nextCursor)]
      && (p.events != [] <==> p.nextCursor > after) && (p.events == [] <==> p.nextCursor == after)
      && (p.events != [] ==> exists i :: 0 <= i < |log| && log[i].order == p.nextCursor)
      && (!p.hasMore <==> CountUpTo(log, p.nextCursor) == |log|)
  {
    AboveSlice(log, after);
    CountSplits(log, after);
    var p, n := PageOf(log, after, limit), CountUpTo(log, after);
    if p.events != [] {
      CountAt(log, n + |p.events|);
    }
  }

  /** What a client sees: for each pull, the log at that moment and the limit it asked for. */
  datatype Poll = Poll(log: Log, limit: Number)

  function Pull(poll: Poll, after: int): Page {
    var (a, limit) := PullWindow(Whole(after), poll.limit);
    PageOf(poll.log, a, limit)
  }

  /** The client feeds each `nextCursor` into the following pull. */
  function CursorAfter(start: int, polls: seq<Poll>): int {
    if polls == [] then start
    else Pull(polls[|polls| - 1], CursorAfter(start, polls[..|polls| - 1])).nextCursor
  }

  function Collected(start: int, polls: seq<Poll>): Log {
    if polls == [] then []
    else
      var front := polls[..|polls| - 1];
      Collected(start, front) + Pull(polls[|polls| - 1], CursorAfter(start, front)).events
  }

  ghost predicate OrdersSafe(log: Log) {
    forall row :: row in log ==> row.order <= MAX_SAFE
  }

  /** Between pulls the log may grow by any number of rows. */
  ghost predicate Growing(polls: seq<Poll>) {
    && (forall i :: 0 <= i < |polls| ==> Increasing(polls[i].log) && OrdersSafe(polls[i].log))
    && (forall i :: 0 < i < |polls| ==> polls[i - 1].log <= polls[i].log)
  }

  ghost predicate AtRow(log: Log, c: int) {
    exists i :: 0 <= i < |log| && log[i].order == c
  }

  lemma CountStable(a: Log, b: Log, c: int)
    requires Increasing(a) && Increasing(b) && a <= b && AtRow(a, c)
    ensures CountUpTo(a, c) == CountUpTo(b, c)
  {
    var i :| 0 <= i < |a| && a[i].order == c;
    CountAt(a, i + 1);
    CountAt(b, i + 1);
  }

  lemma BetweenGrown(a: Log, b: Log, lo: int, c: int)
    requires Increasing(a) && Increasing(b) && a <= b && lo <= c && (c == lo || AtRow(a, c))
    ensures Between(b, lo, c) == Between(a, lo, c)
  {
    hide *;
    BetweenSlice(a, lo, c);
    BetweenSlice(b, lo, c);
    if c > lo {
      CountStable(a, b, c);
      CountSplits(a, lo);
      CountSplits(b, lo);
      SplitStable(a, b, lo, c, CountUpTo(a, lo));
      SplitUnique(b, lo, CountUpTo(a, lo), CountUpTo(b, lo));
      assert a[..CountUpTo(a, c)] == b[..CountUpTo(a, c)];
    }
  }

  /** Appending rows after one that lies beyond `x` does not move the split. */
  lemma SplitStable(a: Log, b: Log, x: int, c: int, n: nat)
    requires Increasing(b) && a <= b && x < c && AtRow(a, c) && SplitAt(a, x, n)
    ensures SplitAt(b, x, n)
  {
    var i :| 0 <= i < |a| && a[i].order == c;
    assert n <= i;
    forall j | 0 <= j < |b| ensures if j < n then b[j].order <= x else b[j].order > x {
      if j < |a| { assert b[j] == a[j]; } else { assert b[i] == a[i] && b[i].order < b[j].order; }
    }
  }

  lemma PullExtends(log: Log, limit: Number, lo: int, c: int)
    requires Increasing(log) && 0 <= lo <= c <= MAX_SAFE && forall row :: row in log ==> row.order <= MAX_SAFE
    ensures var p := Pull(Poll(log, limit), c);
      Between(log, lo, p.nextCursor) == Between(log, lo, c) + p.events && c <= p.nextCursor <= MAX_SAFE
      && (p.nextCursor == c || AtRow(log, p.nextCursor))
  {
    hide PageOf, CountUpTo, Between, PullWindow;
    var window := PullWindow(Whole(c), limit);
    PageIsSlice(log, c, window.1);
    var p := PageOf(log, c, window.1);
    BetweenSlice(log, lo, c);
    BetweenSlice(log, lo, p.nextCursor);
  }

  /** However pushes interleave with the pulls, what the client collected so far is exactly
      the rows above its start up to its cursor, each once and in order. */
  lemma {:induction false} PagingIsExact(start: int, polls: seq<Poll>)
    requires 0 <= start <= MAX_SAFE && Growing(polls) && polls != []
    ensures var log, c := polls[|polls| - 1].log, CursorAfter(start, polls);
      Collected(start, polls) == Between(log, start, c) && start <= c <= MAX_SAFE && (c == start || AtRow(log, c))
  {
    hide PageOf, CountUpTo, Between, PullWindow, Increasing;
    var last, front := polls[|polls| - 1], polls[..|polls| - 1];
    if front == [] {
      PullExtends(last.log, last.limit, start, start);
      NothingBetween(last.log, start);
    } else {
      assert Growing(front);
      PagingIsExact(start, front);
      var c := CursorAfter(start, front);
      BetweenGrown(front[|front| - 1].log, last.log, start, c);
      PullExtends(last.log, last.limit, start, c);
      StillAtRow(front[|front| - 1].log, last.log, c);
    }
  }

  lemma StillAtRow(a: Log, b: Log, c: int)
    requires a <= b
    ensures AtRow(a, c) ==> AtRow(b, c)
  {
    if i :| 0 <= i < |a| && a[i].order == c { assert b[i].order == c; }
  }

  lemma NothingBetween(log: Log, x: int)
    requires Increasing(log)
    ensures Between(log, x, x) == []
  {
    BetweenSlice(log, x, x);
  }

  /** When a pull says there is no more, the client holds every row above its start. */
  lemma PagingIsComplete(start: int, polls: seq<Poll>)
    requires 0 <= start <= MAX_SAFE && Growing(polls) && polls != []
    requires !Pull(polls[|polls| - 1], CursorAfter(start, polls[..|polls| - 1])).hasMore
    ensures Collected(start, polls) == Above(polls[|polls| - 1].log, start)
  {
    hide *;
    var last, front := polls[|polls| - 1], polls[..|polls| - 1];
    PagingIsExact(start, polls);
    FrontCursor(start, polls);
    CursorUnfolds(start, polls);
    LastIncreasing(polls);
    LastPage(last, CursorAfter(start, front));
    BetweenSlice(last.log, start, CursorAfter(start, polls));
    AboveSlice(last.log, start);
  }

  lemma CursorUnfolds(start: int, polls: seq<Poll>)
    requires polls != []
    ensures CursorAfter(start, polls) == Pull(polls[|polls| - 1], CursorAfter(start, polls[..|polls| - 1])).nextCursor
  {}

  lemma LastPage(poll: Poll, c: int)
    requires Increasing(poll.log) && 0 <= c <= MAX_SAFE && !Pull(poll, c).hasMore
    ensures CountUpTo(poll.log, Pull(poll, c).nextCursor) == |poll.log|
  {
    PageIsSlice(poll.log, c, PullWindow(Whole(c), poll.limit).1);
  }

  lemma LastIncreasing(polls: seq<Poll>)
    requires Growing(polls) && polls != []
    ensures Increasing(polls[|polls| - 1].log)
  {}

  lemma FrontCursor(start: int, polls: seq<Poll>)
    requires 0 <= start <= MAX_SAFE && Growing(polls) && polls != []
    ensures 0 <= CursorAfter(start, polls[..|polls| - 1]) <= MAX_SAFE
  {
    var front := polls[..|polls| - 1];
    if front != [] {
      assert Growing(front);
      PagingIsExact(start, front);
    }
  }

  // A client that pulls while requests keep arriving.

  function StateAfter(s: State, batches: seq<seq<Request>>): State {
    if batches == [] then s else Run(StateAfter(s, batches[..|batches| - 1]), batches[|batches| - 1])
  }

  /** One pull after each batch of requests. */
  function PollsAlong(s: State, batches: seq<seq<Request>>, limits: seq<Number>): seq<Poll>
    requires |limits| == |batches|
  {
    if batches == [] then []
    else
      var n := |batches| - 1;
      PollsAlong(s, batches[..n], limits[..n]) + [Poll(StateAfter(s, batches).log, limits[n])]
  }

  lemma LogOfValid(s: State)
    requires LogValid(s) && s.sequence <= MAX_SAFE
    ensures Increasing(s.log) && forall row :: row in s.log ==> row.order <= MAX_SAFE
  {}

  lemma {:induction false} PollsGrow(s: State, batches: seq<seq<Request>>, limits: seq<Number>)
    requires LogValid(s) && |limits| == |batches| && StateAfter(s, batches).sequence <= MAX_SAFE
    ensures var polls := PollsAlong(s, batches, limits);
      |polls| == |batches| && Growing(polls) && LogValid(StateAfter(s, batches))
      && (polls != [] ==> polls[|polls| - 1].log == StateAfter(s, batches).log)
  {
    hide LogValid, Increasing, Run;
    if batches != [] {
      var n := |batches| - 1;
      var before := StateAfter(s, batches[..n]);
      StateAfterValid(s, batches[..n]);
      RunKeepsLog(before, batches[n]);
      PollsGrow(s, batches[..n], limits[..n]);
      LogOfValid(StateAfter(s, batches));
    }
  }

  lemma {:induction false} StateAfterValid(s: State, batches: seq<seq<Request>>)
    requires LogValid(s)
    ensures LogValid(StateAfter(s, batches))
  {
    if batches != [] {
      StateAfterValid(s, batches[..|batches| - 1]);
      RunKeepsLog(StateAfter(s, batches[..|batches| - 1]), batches[|batches| - 1]);
    }
  }

  /** Any requests between any pulls: a client that follows `nextCursor` until there is no
      more has received every logged event above its start, once each and in order. */
  lemma GapFree(s: State, batches: seq<seq<Request>>, limits: seq<Number>, start: int)
    requires LogValid(s) && |limits| == |batches| > 0 && StateAfter(s, batches).sequence <= MAX_SAFE
    requires 0 <= start <= MAX_SAFE
    requires var polls := PollsAlong(s, batches, limits);
      |polls| == |batches| && !Pull(polls[|polls| - 1], CursorAfter(start, polls[..|polls| - 1])).hasMore
    ensures var got := Collected(start, PollsAlong(s, batches, limits));
      got == Above(StateAfter(s, batches).log, start) && Increasing(got)
      && forall row :: row in got <==> row in StateAfter(s, batches).log && row.order > start
  {
    hide *;
    var polls, log := PollsAlong(s, batches, limits), StateAfter(s, batches).log;
    PollsGrow(s, batches, limits);
    PagingIsComplete(start, polls);
    LogOfValid(StateAfter(s, batches));
    AboveSlice(log, start);
    SuffixIncreasing(log, CountUpTo(log, start));
    forall row ensures row in Above(log, start) <==> row in log && row.order > start {
      AboveIsFilter(log, start, row);
    }
  }

  lemma SuffixIncreasing(log: Log, n: nat)
    requires Increasing(log) && n <= |log|
    ensures Increasing(log[n..])
  {}

  lemma {:induction false} AboveIsFilter(log: Log, after: int, row: Row)
    ensures row in Above(log, after) <==> row in log && row.order > after
  {
    if log != [] {
      AboveIsFilter(log[..|log| - 1], after, row);
      assert log == log[..|log| - 1] + [log[|log| - 1]];
    }
  }

  // The durable object.

  class BoardCoordinator {
    var tokenHash: Option<string>
    var epoch: Option<int>
    var members: map<string, Member>
    var log: Log
    var sequence: nat
    var cursors: map<(string, string), int>

    constructor ()
      ensures Current() == EMPTY
    {
      tokenHash, epoch, members, log, sequence, cursors := None, None, map[], [], 0, map[];
    }

    function Current(): State
      reads this
    {
      State(tokenHash, epoch, members, log, sequence, cursors)
    }

    method Provision(r: Request) returns (reply: Reply)
      requires r.Provision?
      modifies this
      ensures (Current(), reply) == Handle(old(Current()), r)
    {
      if !r.admin { return Refused(Forbidden); }
      if r.tokenLength < 32 { return Refused(BadToken); }
      if |r.ownerKey| < 16 { return Refused(BadOwner); }
      var level := if PositiveSafe(r.epoch) then r.epoch.value else 1;
      tokenHash := Some(r.hashed);
      epoch := Some(level);
      members := members[r.ownerKey := Member("owner", level, true)];
      return Changed;
    }

    method UpsertMember(r: Request) returns (reply: Reply)
      requires r.Upsert?
      modifies this
      ensures (Current(), reply) == Handle(old(Current()), r)
    {
      if !r.admin { return Refused(Forbidden); }
      if r.actorKey == "" || r.role == "" || !PositiveSafe(r.epoch) { return Refused(BadMember); }
      members := members[r.actorKey := Member(r.role, r.epoch.value, r.active)];
      if epoch.None? || epoch.value < r.epoch.value { epoch := Some(r.epoch.value); }
      return Changed;
    }

    method AssertMembership(e: Event) returns (problem: Option<Problem>)
      ensures problem == Membership(Current(), e)
    {
      if e.actor !in members { return Some(MemberInactive); }
      var member := members[e.actor];
      if !member.active { return Some(MemberInactive); }
      if member.role == "viewer" { return Some(ViewerCannotPublish); }
      if e.epoch < member.epoch { return Some(StaleEpoch); }
      if e.epoch != CurrentEpoch(Current()) { return Some(EpochMismatch); }
      return None;
    }

    /** Finds a row exactly when one clashes with the event, and prefers the one with its id. */
    method FindDuplicate(e: Event) returns (row: Option<Row>)
      ensures row == Earlier(log, e)
      ensures row.Some? <==> exists i :: 0 <= i < |log| && Clashes(log[i].event, e)
      ensures row.Some? ==> row.value in log && Clashes(row.value.event, e)
      ensures (exists i :: 0 <= i < |log| && log[i].event.id == e.id) ==> row.Some? && row.value.event.id == e.id
    {
      row := FirstWithId(log, e.id);
      if row.None? { row := FirstInSlot(log, e); }
      EarlierIff(log, e);
    }

    method AcceptEvent(r: Request) returns (reply: Reply)
      requires r.Push?
      modifies this
      ensures (Current(), reply) == Handle(old(Current()), r)
    {
      hide Validate, Membership, Earlier, InsertAllowed;
      var checked := Validate(r.input);
      if checked.Failure? { return Refused(checked.error); }
      var e := checked.value;
      if e.actor != r.actorKey { return Refused(WrongActor); }
      var problem := AssertMembership(e);
      if problem.Some? { return Refused(problem.value); }
      var duplicate := FindDuplicate(e);
      if duplicate.Some? { return Duplicate(duplicate.value.event.id, duplicate.value.order); }
      if !InsertAllowed(log, sequence + 1, e) { return Refused(ConstraintViolated); }
      sequence := sequence + 1;
      log := log + [Row(sequence, e)];
      return Accepted(e.id, sequence);
    }

    method PullEvents(rawAfter: Number, rawLimit: Number) returns (page: Page)
      ensures page == PageOf(log, PullWindow(rawAfter, rawLimit).0, PullWindow(rawAfter, rawLimit).1)
    {
      var (after, limit) := PullWindow(rawAfter, rawLimit);
      var found := Above(log, after);
      var rows := if |found| > limit + 1 then found[..limit + 1] else found;
      var hasMore := |rows| > limit;
      var events := if hasMore then rows[..limit] else rows;
      return Page(events, if events == [] then after else events[|events| - 1].order, hasMore);
    }

    method AdvanceCursor(r: Request) returns (reply: Reply)
      requires r.Advance?
      modifies this
      ensures (Current(), reply) == Handle(old(Current()), r)
    {
      if r.replicaId == "" || !Safe(r.lastServerOrder) || r.lastServerOrder.value < 0 { return Refused(BadCursor); }
      var key := (r.actorKey, r.replicaId);
      if key !in cursors || cursors[key] < r.lastServerOrder.value {
        cursors := cursors[key := r.lastServerOrder.value];
      } else {
        assert cursors == cursors[key := cursors[key]];
      }
      return Changed;
    }
  }
}
