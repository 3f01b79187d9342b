/**
 The coordinator's tables told by the requests alone: which pushes are logged, who was
 allowed to make them, and what the last or greatest request says about a member, a
 cursor, the epoch and the token.
 */
module CoordinatorHistory {
  import opened Wrappers
  import opened Coordinator

  // The protocol's patterns.

  const DIGITS := "0123456789"
  const LOWER := "abcdefghijklmnopqrstuvwxyz"
  const UPPER := "ABCDEFGHIJKLMNOPQRSTUVWXYZ"
  const UUID_PATTERN := "hhhhhhhh-hhhh-vhhh-whhh-hhhhhhhhhhhh"
  const LARGEST := 9007199254740991

  /** The characters that a place of the pattern stands for. */
  function Choices(place: char): string {
    if place == 'h' then DIGITS + "abcdef" + "ABCDEF"
    else if place == 'v' then "12345678"
    else if place == 'w' then "89abAB"
    else "-"
  }

  ghost predicate UuidText(s: string) {
    |s| == |UUID_PATTERN| && forall i :: 0 <= i < |s| ==> s[i] in Choices(UUID_PATTERN[i])
  }

  ghost predicate KeyText(s: string) {
    16 <= |s| <= 256 && forall i :: 0 <= i < |s| ==> s[i] in DIGITS + LOWER + UPPER + ":_-"
  }

  lemma DigitChoice(c: char)
    ensures '0' <= c <= '9' <==> c in DIGITS
  {
    if '0' <= c <= '9' { assert DIGITS[c as int - '0' as int] == c; }
  }

  lemma LowerChoice(c: char)
    ensures 'a' <= c <= 'z' <==> c in LOWER
  {
    if 'a' <= c <= 'z' { assert LOWER[c as int - 'a' as int] == c; }
  }

  lemma UpperChoice(c: char)
    ensures 'A' <= c <= 'Z' <==> c in UPPER
  {
    if 'A' <= c <= 'Z' { assert UPPER[c as int - 'A' as int] == c; }
  }

  lemma HexChoice(c: char)
    ensures HexDigit(c) <==> c in DIGITS + "abcdef" + "ABCDEF"
  {
    DigitChoice(c);
    if 'a' <= c <= 'f' { assert "abcdef"[c as int - 'a' as int] == c; }
    if 'A' <= c <= 'F' { assert "ABCDEF"[c as int - 'A' as int] == c; }
  }

  lemma VersionChoice(c: char)
    ensures '1' <= c <= '8' <==> c in "12345678"
  {
    if '1' <= c <= '8' { assert "12345678"[c as int - '1' as int] == c; }
  }

  lemma PatternPlace(i: nat)
    requires i < 36
    ensures UUID_PATTERN[i] ==
      if i in {8, 13, 18, 23} then '-' else if i == 14 then 'v' else if i == 19 then 'w' else 'h'
  {}

  /** The check of an id is the protocol's pattern. */
  lemma UuidPattern(s: string)
    ensures IsUuid(s) <==> UuidText(s)
  {
    hide HexDigit;
    assert |UUID_PATTERN| == 36;
    if |s| == 36 {
      forall i | 0 <= i < 36
        ensures s[i] in Choices(UUID_PATTERN[i]) <==>
          if i in {8, 13, 18, 23} then s[i] == '-'
          else if i == 14 then '1' <= s[i] <= '8'
          else if i == 19 then s[i] in "89abAB"
          else HexDigit(s[i])
      {
        PatternPlace(i);
        HexChoice(s[i]);
        VersionChoice(s[i]);
      }
    }
  }

  lemma KeyChoice(c: char)
    ensures '0' <= c <= '9' || 'a' <= c <= 'z' || 'A' <= c <= 'Z' || c in ":_-" <==> c in DIGITS + LOWER + UPPER + ":_-"
  {
    DigitChoice(c);
    LowerChoice(c);
    UpperChoice(c);
  }

  /** The check of an author's key is the protocol's alphabet and length. */
  lemma KeyPattern(s: string)
    ensures IsActorKey(s) <==> KeyText(s)
  {
    forall i | 0 <= i < |s| { KeyChoice(s[i]); }
  }

  // Pushes.

  predicate CountingNumber(n: Number) {
    n.Whole? && 1 <= n.value <= LARGEST
  }

  /** An event as the protocol asks for it, apart from its author. */
  ghost predicate Proper(input: Input) {
    input.Input? && input.eventId.Some? && UuidText(input.eventId.value)
    && input.replicaId.Some? && UuidText(input.replicaId.value)
    && CountingNumber(input.replicaSeq) && CountingNumber(input.membershipEpoch)
    && match input.envelope
       case Unserializable => false
       case Undefined => true
       case Json(_, bytes) => bytes <= 256 * 1024
  }

  /** The key belongs to an active member who may write at the epoch, which is the board's. */
  predicate Writer(s: State, key: string, epoch: int) {
    key in s.members && s.members[key].active && s.members[key].role != "viewer"
    && s.members[key].epoch <= epoch && epoch == (if s.epoch.Some? then s.epoch.value else 1)
  }

  predicate Taken(log: Log, input: Input)
    requires input.Input? && input.eventId.Some? && input.replicaId.Some? && input.replicaSeq.Whole?
  {
    exists row :: row in log
      && (row.event.id == input.eventId.value
          || (row.event.replica == input.replicaId.value && row.event.seqNo == input.replicaSeq.value))
  }

  /** An authenticated author pushes its own proper event and may write it. */
  ghost predicate Admissible(s: State, input: Input, actorKey: string) {
    Proper(input) && input.actorKey == Some(actorKey) && KeyText(actorKey)
      && Writer(s, actorKey, input.membershipEpoch.value)
  }

  /** The row that the push asks for. */
  ghost predicate RowOf(row: Row, order: nat, input: Input, actorKey: string) {
    row.order == order && row.event.actor == actorKey
    && input.Input? && input.eventId == Some(row.event.id) && input.replicaId == Some(row.event.replica)
    && input.replicaSeq == Whole(row.event.seqNo) && input.membershipEpoch == Whole(row.event.epoch)
    && input.envelope.Json? && row.event.envelope == Some(input.envelope.text)
  }

  lemma ValidIff(input: Input)
    ensures Validate(input).Success? <==> Proper(input) && input.actorKey.Some? && KeyText(input.actorKey.value)
  {
    hide IsUuid, IsActorKey, UuidText, KeyText;
    if input.Input? {
      if input.eventId.Some? { UuidPattern(input.eventId.value); }
      if input.replicaId.Some? { UuidPattern(input.replicaId.value); }
      if input.actorKey.Some? { KeyPattern(input.actorKey.value); }
    }
  }

  lemma WriterIff(s: State, e: Event)
    ensures Membership(s, e).None? <==> Writer(s, e.actor, e.epoch)
  {}

  lemma TakenIff(log: Log, e: Event, input: Input)
    requires input.Input? && input.eventId == Some(e.id) && input.replicaId == Some(e.replica)
    requires input.replicaSeq == Whole(e.seqNo)
    ensures Taken(log, input) <==> exists i :: 0 <= i < |log| && Clashes(log[i].event, e)
  {
    if i :| 0 <= i < |log| && Clashes(log[i].event, e) { assert log[i] in log; }
  }

  /** One row went to the end of the log, and nothing else changed. */
  ghost predicate Appended(s: State, t: State, input: Input, actorKey: string) {
    |t.log| == |s.log| + 1 && RowOf(t.log[|s.log|], s.sequence + 1, input, actorKey)
    && t == s.(log := s.log + [t.log[|s.log|]], sequence := s.sequence + 1)
  }

  /** A push is accepted exactly when it is admissible, nothing in the log has its id or its
      replica slot, and it carries an envelope; then its row goes to the end of the log under the
      next number. An admissible push of something that is there is answered as a duplicate, and
      nothing but an acceptance changes the tables. */
  lemma PushIff(s: State, input: Input, actorKey: string)
    requires LogValid(s)
    ensures var (t, reply) := Handle(s, Push(input, actorKey));
      && (reply.Accepted? <==> Admissible(s, input, actorKey) && !Taken(s.log, input) && input.envelope.Json?)
      && (reply.Duplicate? <==> Admissible(s, input, actorKey) && Taken(s.log, input))
      && (if reply.Accepted? then Appended(s, t, input, actorKey) else t == s)
  {
    hide LogValid, IsUuid, IsActorKey, UuidText, KeyText, Membership, Writer, Clashes, Earlier, InsertAllowed, Taken;
    ValidIff(input);
    if Validate(input).Success? {
      var e := Validate(input).value;
      WriterIff(s, e);
      TakenIff(s.log, e, input);
      EarlierIff(s.log, e);
      if Earlier(s.log, e).None? { InsertNeverClashes(s, e); }
    }
  }

  /** When a push is refused for which reason. */
  ghost predicate RefusedFor(s: State, input: Input, actorKey: string, p: Problem) {
    var formed := Proper(input) && input.actorKey.Some? && KeyText(input.actorKey.value);
    var own := formed && input.actorKey == Some(actorKey);
    var member := own && actorKey in s.members && s.members[actorKey].active;
    match p
    case BadEvent => !formed
    case WrongActor => formed && !own
    case MemberInactive => own && !member
    case ViewerCannotPublish => member && s.members[actorKey].role == "viewer"
    case StaleEpoch =>
      member && s.members[actorKey].role != "viewer" && input.membershipEpoch.value < s.members[actorKey].epoch
    case EpochMismatch =>
      member && s.members[actorKey].role != "viewer" && input.membershipEpoch.value >= s.members[actorKey].epoch
      && !Writer(s, actorKey, input.membershipEpoch.value)
    case ConstraintViolated => Admissible(s, input, actorKey) && !Taken(s.log, input) && !input.envelope.Json?
    case _ => false
  }

  lemma RefusedIff(s: State, input: Input, actorKey: string, p: Problem)
    requires LogValid(s)
    ensures Handle(s, Push(input, actorKey)).1 == Refused(p) <==> RefusedFor(s, input, actorKey, p)
  {
    hide LogValid, IsUuid, IsActorKey, UuidText, KeyText, Clashes, Earlier, InsertAllowed, Taken;
    ValidIff(input);
    PushIff(s, input, actorKey);
    if Validate(input).Success? {
      var e := Validate(input).value;
      TakenIff(s.log, e, input);
      EarlierIff(s.log, e);
    }
  }

  /** The row was pushed, at its step of the run, by an author who was then an active member,
      not a viewer, at the board's epoch. */
  ghost predicate PushedBy(s: State, rs: seq<Request>, row: Row, j: int) {
    0 <= j < |rs| && rs[j].Push?
    && var before := Run(s, rs[..j]);
       Admissible(before, rs[j].input, rs[j].actorKey) && RowOf(row, before.sequence + 1, rs[j].input, rs[j].actorKey)
  }

  lemma {:induction false} LoggedByWriters(s: State, rs: seq<Request>, row: Row)
    requires LogValid(s) && row in Run(s, rs).log && row !in s.log
    ensures exists j :: PushedBy(s, rs, row, j)
  {
    hide Handle, LogValid, Admissible, RowOf;
    var front, r := rs[..|rs| - 1], rs[|rs| - 1];
    RunKeepsLog(s, front);
    if row in Run(s, front).log {
      LoggedByWriters(s, front, row);
      var j :| PushedBy(s, front, row, j);
      assert front[..j] == rs[..j];
      assert PushedBy(s, rs, row, j);
    } else {
      LoggedNow(Run(s, front), r, row);
      assert PushedBy(s, rs, row, |rs| - 1);
    }
  }

  lemma LoggedNow(s: State, r: Request, row: Row)
    requires LogValid(s) && row in Handle(s, r).0.log && row !in s.log
    ensures r.Push? && Admissible(s, r.input, r.actorKey) && RowOf(row, s.sequence + 1, r.input, r.actorKey)
  {
    hide LogValid, PushEvent, Admissible, RowOf, Taken;
    if r.Push? { PushIff(s, r.input, r.actorKey); }
  }

  // Members.

  /** An administrator's request that is carried out and names the member. */
  predicate NamesMember(r: Request, key: string) {
    match r
    case Provision(admin, tokenLength, _, ownerKey, _) =>
      admin && 32 <= tokenLength && 16 <= |ownerKey| && ownerKey == key
    case Upsert(admin, actorKey, role, epoch, _) =>
      admin && actorKey == key && |key| > 0 && |role| > 0 && CountingNumber(epoch)
    case _ => false
  }

  /** What it says: the owner of a provisioning, at the first epoch unless a good one is given. */
  predicate Says(r: Request, m: Member) {
    match r
    case Provision(_, _, _, _, epoch) =>
      m.role == "owner" && m.active && epoch == (if CountingNumber(epoch) then Whole(m.epoch) else epoch)
      && (!CountingNumber(epoch) ==> m.epoch == 1)
    case Upsert(_, _, role, epoch, active) => m.role == role && epoch == Whole(m.epoch) && (m.active <==> active)
    case _ => false
  }

  lemma MemberStep(s: State, r: Request, key: string)
    ensures var t := Handle(s, r).0;
      if NamesMember(r, key) then key in t.members && Says(r, t.members[key])
      else (key in t.members <==> key in s.members) && (key in s.members ==> t.members[key] == s.members[key])
  {
    hide PushEvent;
    if r.Push? { PushKeepsMembers(s, r.input, r.actorKey); }
  }

  lemma PushKeepsMembers(s: State, input: Input, actorKey: string)
    ensures var t := PushEvent(s, input, actorKey).0; t == s.(log := t.log, sequence := t.sequence)
  {
    hide Validate, Membership, Earlier, InsertAllowed;
  }

  ghost predicate LastNaming(rs: seq<Request>, key: string, j: int) {
    0 <= j < |rs| && NamesMember(rs[j], key) && forall i :: j < i < |rs| ==> !NamesMember(rs[i], key)
  }

  /** A member is what the last request that names it says, or what it was at the start. */
  lemma {:induction false} MemberIsLastNamed(s: State, rs: seq<Request>, key: string)
    ensures var t := Run(s, rs);
      (key in t.members <==> key in s.members || exists j :: 0 <= j < |rs| && NamesMember(rs[j], key))
      && (forall j :: LastNaming(rs, key, j) ==> key in t.members && Says(rs[j], t.members[key]))
      && (key in s.members && (forall j :: 0 <= j < |rs| ==> !NamesMember(rs[j], key)) ==>
            t.members[key] == s.members[key])
  {
    hide Handle, NamesMember, Says;
    if rs != [] {
      var front, last := rs[..|rs| - 1], rs[|rs| - 1];
      MemberIsLastNamed(s, front, key);
      MemberStep(Run(s, front), last, key);
      if NamesMember(last, key) {
        assert NamesMember(rs[|rs| - 1], key);
      } else {
        forall j | LastNaming(rs, key, j) ensures LastNaming(front, key, j) && front[j] == rs[j] {}
      }
    }
  }

  // Cursors.

  /** The replica of the author reports the order, and is heard. */
  predicate Reports(r: Request, author: string, replica: string, order: int) {
    r.Advance? && r.actorKey == author && r.replicaId == replica && |replica| > 0
    && r.lastServerOrder == Whole(order) && 0 <= order <= LARGEST
  }

  lemma CursorStep(s: State, r: Request, author: string, replica: string)
    ensures var t, k := Handle(s, r).0, (author, replica);
      (forall n :: Reports(r, author, replica, n) ==>
         k in t.cursors && t.cursors[k] >= n && (t.cursors[k] == n || (k in s.cursors && t.cursors[k] == s.cursors[k]))
         && (k in s.cursors ==> t.cursors[k] >= s.cursors[k]))
      && ((forall n :: !Reports(r, author, replica, n)) ==>
         (k in t.cursors <==> k in s.cursors) && (k in s.cursors ==> t.cursors[k] == s.cursors[k]))
  {
    hide PushEvent;
    if r.Push? { PushKeepsMembers(s, r.input, r.actorKey); }
    if r.Advance? && r.lastServerOrder.Whole? && !Reports(r, author, replica, r.lastServerOrder.value) {
      forall n ensures !Reports(r, author, replica, n) {}
    }
  }

  ghost predicate Reported(rs: seq<Request>, author: string, replica: string, order: int) {
    exists j :: 0 <= j < |rs| && Reports(rs[j], author, replica, order)
  }

  lemma ReportedFront(rs: seq<Request>, author: string, replica: string, order: int)
    requires rs != []
    ensures Reported(rs, author, replica, order) <==>
      Reported(rs[..|rs| - 1], author, replica, order) || Reports(rs[|rs| - 1], author, replica, order)
  {
    hide Reports;
    var front := rs[..|rs| - 1];
    if j :| 0 <= j < |front| && Reports(front[j], author, replica, order) {
      assert Reports(rs[j], author, replica, order);
    }
    if j :| 0 <= j < |rs| && Reports(rs[j], author, replica, order) {
      assert j < |front| ==> Reports(front[j], author, replica, order);
    }
  }

  /** From empty tables a cursor exists exactly when its replica reported something, and it is
      the greatest order reported. */
  lemma {:induction false} CursorIsGreatest(rs: seq<Request>, author: string, replica: string)
    ensures var t, k := Run(EMPTY, rs), (author, replica);
      (k in t.cursors <==> exists n :: Reported(rs, author, replica, n))
      && (k in t.cursors ==> Reported(rs, author, replica, t.cursors[k]))
      && (forall n :: Reported(rs, author, replica, n) ==> k in t.cursors && n <= t.cursors[k])
  {
    hide Handle, Reports, Reported;
    if rs == [] {
      NothingReported(author, replica);
    } else {
      var front, r, k := rs[..|rs| - 1], rs[|rs| - 1], (author, replica);
      CursorIsGreatest(front, author, replica);
      CursorStep(Run(EMPTY, front), r, author, replica);
      forall n ensures Reported(rs, author, replica, n) <==>
        Reported(front, author, replica, n) || Reports(r, author, replica, n)
      {
        ReportedFront(rs, author, replica, n);
      }
    }
  }

  lemma NothingReported(author: string, replica: string)
    ensures forall n :: !Reported([], author, replica, n)
  {}

  /** What a refusal of a request that is not a push says about it. */
  predicate ExplainedBy(r: Request, p: Problem) {
    if r.Advance? then p == BadCursor
    else if r.Push? then false
    else if p == Forbidden then !r.admin
    else r.admin && match p
         case BadToken => r.Provision? && r.tokenLength < 32
         case BadOwner => r.Provision? && 32 <= r.tokenLength && |r.ownerKey| < 16
         case BadMember => r.Upsert?
         case _ => false
  }

  /** Every other request is carried out exactly when it names a member or reports an order;
      otherwise it is refused and changes nothing. */
  lemma CarriedOutIff(s: State, r: Request)
    requires !r.Push?
    ensures var (t, reply) := Handle(s, r);
      && (reply.Changed? <==> (exists key :: NamesMember(r, key)) || exists a, b, n :: Reports(r, a, b, n))
      && (reply.Changed? || (reply.Refused? && t == s && ExplainedBy(r, reply.problem)))
  {
    match r
    case Provision(_, _, _, ownerKey, _) => assert Handle(s, r).1.Changed? ==> NamesMember(r, ownerKey);
    case Upsert(_, actorKey, _, _, _) => assert Handle(s, r).1.Changed? ==> NamesMember(r, actorKey);
    case Advance(actorKey, replicaId, last) =>
      if last.Whole? { assert Handle(s, r).1.Changed? ==> Reports(r, actorKey, replicaId, last.value); }
  }

  // The epoch and the token.

  predicate Provisions(r: Request) {
    r.Provision? && NamesMember(r, r.ownerKey)
  }

  predicate NamesEpoch(r: Request, epoch: int) {
    if r.Provision? then Provisions(r) && (if CountingNumber(r.epoch) then r.epoch == Whole(epoch) else epoch == 1)
    else r.Upsert? && NamesMember(r, r.actorKey) && r.epoch == Whole(epoch)
  }

  /** Nothing after place `j` provisions the board again. */
  ghost predicate SinceProvision(rs: seq<Request>, j: int) {
    0 <= j < |rs| && forall i :: j < i < |rs| ==> !Provisions(rs[i])
  }

  ghost predicate EpochNamed(rs: seq<Request>, epoch: int) {
    exists j :: SinceProvision(rs, j) && NamesEpoch(rs[j], epoch)
  }

  lemma EpochNamedFront(rs: seq<Request>, epoch: int)
    requires rs != []
    ensures var r := rs[|rs| - 1];
      EpochNamed(rs, epoch) <==> NamesEpoch(r, epoch) || (!Provisions(r) && EpochNamed(rs[..|rs| - 1], epoch))
  {
    hide NamesEpoch, Provisions;
    var front, r := rs[..|rs| - 1], rs[|rs| - 1];
    if NamesEpoch(r, epoch) { assert SinceProvision(rs, |rs| - 1); }
    if !Provisions(r) && EpochNamed(front, epoch) {
      var j :| SinceProvision(front, j) && NamesEpoch(front[j], epoch);
      assert SinceProvision(rs, j) && NamesEpoch(rs[j], epoch);
    }
    if j :| SinceProvision(rs, j) && NamesEpoch(rs[j], epoch) {
      if j < |front| { assert SinceProvision(front, j) && NamesEpoch(front[j], epoch); }
    }
  }

  lemma EpochStep(s: State, r: Request)
    ensures var t := Handle(s, r).0;
      && (forall n :: NamesEpoch(r, n) ==> t.epoch.Some? && t.epoch.value >= n)
      && (forall n :: NamesEpoch(r, n) ==> t.epoch.value == n || (!Provisions(r) && t.epoch == s.epoch))
      && (!Provisions(r) && s.epoch.Some? ==> t.epoch.Some? && t.epoch.value >= s.epoch.value)
      && ((forall n :: !NamesEpoch(r, n)) ==> t.epoch == s.epoch && !Provisions(r))
  {
    hide PushEvent;
    if r.Push? { PushKeepsMembers(s, r.input, r.actorKey); }
    if r.Provision? { assert Provisions(r) ==> NamesEpoch(r, if CountingNumber(r.epoch) then r.epoch.value else 1); }
    if r.Upsert? && NamesMember(r, r.actorKey) { assert NamesEpoch(r, r.epoch.value); }
  }

  /** The board's epoch is the greatest that was named since it was last provisioned. */
  lemma {:induction false} EpochIsGreatest(rs: seq<Request>)
    ensures var t := Run(EMPTY, rs);
      (t.epoch.Some? <==> exists n :: EpochNamed(rs, n))
      && (t.epoch.Some? ==> EpochNamed(rs, t.epoch.value))
      && (forall n :: EpochNamed(rs, n) ==> t.epoch.Some? && n <= t.epoch.value)
  {
    hide Handle, NamesEpoch, Provisions, EpochNamed;
    if rs == [] {
      NothingNamed();
    } else {
      var front, r := rs[..|rs| - 1], rs[|rs| - 1];
      EpochIsGreatest(front);
      EpochStep(Run(EMPTY, front), r);
      forall n ensures EpochNamed(rs, n) <==> NamesEpoch(r, n) || (!Provisions(r) && EpochNamed(front, n)) {
        EpochNamedFront(rs, n);
      }
    }
  }

  lemma NothingNamed()
    ensures forall n :: !EpochNamed([], n)
  {}

  /** The token is that of the last provisioning. */
  lemma {:induction false} TokenIsLast(rs: seq<Request>)
    ensures var t := Run(EMPTY, rs);
      (forall j :: SinceProvision(rs, j) && Provisions(rs[j]) ==> t.tokenHash == Some(rs[j].hashed))
      && ((forall j :: 0 <= j < |rs| ==> !Provisions(rs[j])) ==> t.tokenHash.None?)
  {
    hide Handle, Provisions;
    if rs != [] {
      var front, r := rs[..|rs| - 1], rs[|rs| - 1];
      TokenIsLast(front);
      TokenStep(Run(EMPTY, front), r);
      forall j | SinceProvision(rs, j) && Provisions(rs[j])
        ensures rs[j].Provision? && Run(EMPTY, rs).tokenHash == Some(rs[j].hashed)
      {
        ProvisionsOnly(rs[j]);
        if j < |front| { assert SinceProvision(front, j) && Provisions(front[j]); }
      }
    }
  }

  lemma ProvisionsOnly(r: Request)
    ensures Provisions(r) ==> r.Provision?
  {}

  lemma TokenStep(s: State, r: Request)
    ensures Handle(s, r).0.tokenHash == if Provisions(r) then Some(r.hashed) else s.tokenHash
  {
    hide PushEvent;
    if r.Push? { PushKeepsMembers(s, r.input, r.actorKey); }
  }
}
