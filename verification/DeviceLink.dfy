/**
 Delegation chains: each grant is signed by the subject of the one before it and
 may only narrow it. Signatures, event ids and key syntax are foreign functions;
 they enter as the fields of `Crypto` and as the `authentic` flag of an event.
 */
module DeviceLink {
  import opened Wrappers
  import opened Stamps

  const PROTOCOL := "p2p-kanban-device-link/2"
  const GRANT_KIND: nat := 27780
  const MAX_DEPTH: nat := 8
  const CLOCK_SKEW: nat := 60

  datatype Grant = Grant(
    protocol: string, workspace: Uuid, board: Uuid, user: Uuid, epoch: int, subject: string,
    canDelegate: bool, parentId: Option<string>, expiresAt: nat)

  /** A signed event as it arrives; `grant` is its content if that parses. */
  datatype Signed = Signed(
    kind: nat, signer: string, id: string, createdAt: nat, authentic: bool, grant: Option<Grant>)

  datatype Crypto = Crypto(
    publicKey: string -> Option<string>,
    eventId: (string, nat, Grant) -> string,
    isKey: string -> bool)

  datatype LinkError =
    | BadDepth | WrongKind | BadSignature | FromFuture | BadContent | IssuedLater | ExpiredOrInvalid
    | BadSubjectKey | CannotDelegate | Escalates | RootHasParent | WrongDevice | Predates | BadSecret

  type Chain = seq<Signed>

  predicate Genuine(c: Crypto, e: Signed) {
    e.kind == GRANT_KIND && e.authentic && e.grant.Some?
    && e.grant.value.protocol == PROTOCOL && e.grant.value.epoch > 0 && c.isKey(e.grant.value.subject)
  }

  predicate SameScope(g: Grant, p: Grant) {
    g.board == p.board && g.workspace == p.workspace && g.user == p.user && g.epoch == p.epoch
  }

  /** `e` is a grant that the subject of `p` may issue. */
  predicate Delegates(p: Signed, e: Signed)
    requires p.grant.Some? && e.grant.Some?
  {
    p.grant.value.canDelegate && e.signer == p.grant.value.subject && e.grant.value.parentId == Some(p.id)
    && SameScope(e.grant.value, p.grant.value) && e.grant.value.expiresAt <= p.grant.value.expiresAt
  }

  predicate LinkedUpTo(c: Crypto, chain: Chain, n: nat)
    requires n <= |chain|
  {
    && (forall i :: 0 <= i < n ==> Genuine(c, chain[i]))
    && (n > 0 ==> chain[0].grant.value.parentId.None?)
    && (forall i :: 0 < i < n ==> Delegates(chain[i - 1], chain[i]))
  }

  /** The part of acceptance that does not depend on any clock. */
  predicate WellLinked(c: Crypto, chain: Chain) {
    1 <= |chain| <= MAX_DEPTH && LinkedUpTo(c, chain, |chain|)
  }

  function Last(chain: Chain): Signed
    requires chain != []
  {
    chain[|chain| - 1]
  }

  predicate OnTime(e: Signed, at: nat, clock: nat) {
    e.createdAt <= at && e.createdAt <= clock + CLOCK_SKEW && e.grant.Some? && e.grant.value.expiresAt > at
  }

  predicate Timely(chain: Chain, at: nat, clock: nat) {
    forall i :: 0 <= i < |chain| ==> OnTime(chain[i], at, clock)
  }

  predicate Accepts(c: Crypto, chain: Chain, subject: string, at: nat, clock: nat) {
    WellLinked(c, chain) && Timely(chain, at, clock) && Last(chain).grant.value.subject == subject
  }

  method CheckedEvent(e: Signed, kind: nat, clock: nat) returns (r: Result<(string, string, Option<Grant>), LinkError>)
    ensures r.Success? <==> e.kind == kind && e.authentic && e.createdAt <= clock + CLOCK_SKEW
    ensures r.Success? ==> r.value == (e.signer, e.id, e.grant)
  {
    if e.kind != kind { return Failure(WrongKind); }
    if !e.authentic { return Failure(BadSignature); }
    if e.createdAt > clock + CLOCK_SKEW { return Failure(FromFuture); }
    return Success((e.signer, e.id, e.grant));
  }

  /** One round of the verifier: the grant alone, then against its parent. */
  method CheckGrant(c: Crypto, e: Signed, parent: Option<(string, Grant)>, at: nat, clock: nat)
    returns (r: Result<(string, string, Grant), LinkError>)
    ensures r.Success? <==>
      Genuine(c, e) && OnTime(e, at, clock)
      && match parent
         case None => e.grant.value.parentId.None?
         case Some((pid, p)) =>
           p.canDelegate && e.signer == p.subject && e.grant.value.parentId == Some(pid)
           && SameScope(e.grant.value, p) && e.grant.value.expiresAt <= p.expiresAt
    ensures r.Success? ==> r.value == (e.signer, e.id, e.grant.value)
  {
    var checked := CheckedEvent(e, GRANT_KIND, clock);
    if checked.Failure? { return Failure(checked.error); }
    var (signer, id, content) := checked.value;
    if e.createdAt > at { return Failure(IssuedLater); }
    if content.None? { return Failure(BadContent); }
    var g := content.value;
    if g.protocol != PROTOCOL || g.epoch <= 0 || g.expiresAt <= at { return Failure(ExpiredOrInvalid); }
    if !c.isKey(g.subject) { return Failure(BadSubjectKey); }
    if parent.Some? {
      var (pid, p) := parent.value;
      if !p.canDelegate || signer != p.subject || g.parentId != Some(pid) { return Failure(CannotDelegate); }
      if !SameScope(g, p) || g.expiresAt > p.expiresAt { return Failure(Escalates); }
    } else if g.parentId.Some? {
      return Failure(RootHasParent);
    }
    return Success((signer, id, g));
  }

  /** The loop of the verifier: it remembers the parent grant and the root signer. */
  method VerifyChain(c: Crypto, chain: Chain, subject: string, at: nat, clock: nat)
    returns (r: Result<(string, Grant), LinkError>)
    ensures r.Success? <==> Accepts(c, chain, subject, at, clock)
    ensures r.Success? ==> r.value == (chain[0].signer, Last(chain).grant.value)
  {
    if chain == [] || |chain| > MAX_DEPTH { return Failure(BadDepth); }
    var parent: Option<(string, Grant)> := None;
    var root := "";
    for i := 0 to |chain|
      invariant i == 0 ==> parent.None?
      invariant i > 0 ==> chain[i - 1].grant.Some? && parent == Some((chain[i - 1].id, chain[i - 1].grant.value))
      invariant i > 0 ==> root == chain[0].signer
      invariant LinkedUpTo(c, chain, i)
      invariant forall j :: 0 <= j < i ==> OnTime(chain[j], at, clock)
    {
      var checked := CheckGrant(c, chain[i], parent, at, clock);
      if checked.Failure? {
        assert i > 0 ==> !(Genuine(c, chain[i]) && OnTime(chain[i], at, clock) && Delegates(chain[i - 1], chain[i]));
        return Failure(checked.error);
      }
      var (signer, id, g) := checked.value;
      if parent.None? { root := signer; }
      parent := Some((id, g));
    }
    var (_, g) := parent.value;
    if g.subject != subject { return Failure(WrongDevice); }
    return Success((root, g));
  }

  /** Acceptance of a replicated event: the chain is judged at the moment of enrolment. */
  predicate AcceptsReplication(c: Crypto, chain: Chain, subject: string, signedAt: nat, clock: nat) {
    chain != [] && Last(chain).createdAt <= signedAt && Accepts(c, chain, subject, Last(chain).createdAt, clock)
  }

  method VerifyReplicationChain(c: Crypto, chain: Chain, subject: string, signedAt: nat, clock: nat)
    returns (r: Result<(string, Grant), LinkError>)
    ensures r.Success? <==> AcceptsReplication(c, chain, subject, signedAt, clock)
    ensures r.Success? ==> r.value == (chain[0].signer, Last(chain).grant.value)
  {
    if chain == [] || Last(chain).createdAt > signedAt { return Failure(Predates); }
    r := VerifyChain(c, chain, subject, Last(chain).createdAt, clock);
  }

  /** What signing a grant yields; the clock is read again after the check. */
  function Sign(c: Crypto, signer: string, g: Grant, clock: nat): Signed {
    Signed(GRANT_KIND, signer, c.eventId(signer, clock, g), clock, true, Some(g))
  }

  function Extension(c: Crypto, signer: string, chain: Chain, subject: string, signedAt: nat): Chain
    requires chain != [] && Last(chain).grant.Some?
  {
    chain + [Sign(c, signer, Last(chain).grant.value.(subject := subject, parentId := Some(Last(chain).id)), signedAt)]
  }

  predicate CanExtend(c: Crypto, secret: string, chain: Chain, clock: nat) {
    c.publicKey(secret).Some? && Accepts(c, chain, c.publicKey(secret).value, clock, clock)
    && Last(chain).grant.value.canDelegate && |chain| < MAX_DEPTH
  }

  method Extend(c: Crypto, secret: string, chain: Chain, subject: string, clock: nat, signedAt: nat)
    returns (r: Result<Chain, LinkError>)
    ensures r.Success? <==> CanExtend(c, secret, chain, clock)
    ensures r.Success? ==> r.value == Extension(c, c.publicKey(secret).value, chain, subject, signedAt)
  {
    var key := c.publicKey(secret);
    if key.None? { return Failure(BadSecret); }
    var verified := VerifyChain(c, chain, key.value, clock, clock);
    if verified.Failure? { return Failure(verified.error); }
    var (_, g) := verified.value;
    if !g.canDelegate || |chain| >= MAX_DEPTH { return Failure(CannotDelegate); }
    g := g.(subject := subject, parentId := Some(Last(chain).id));
    return Success(chain + [Sign(c, key.value, g, signedAt)]);
  }

  // What acceptance means.

  /** A grant that stands on its own at the moment, whoever issued it. */
  predicate Stands(c: Crypto, e: Signed, at: nat, clock: nat) {
    e.kind == 27780 && e.authentic && e.createdAt <= at && e.createdAt <= clock + 60
    && match e.grant
       case None => false
       case Some(g) =>
         g.protocol == "p2p-kanban-device-link/2" && g.epoch >= 1 && g.expiresAt > at && c.isKey(g.subject)
  }

  /** The holder of the first grant may delegate and issued the second one, for the same user,
      board, workspace and epoch, and not for longer. */
  predicate Hands(a: Signed, b: Signed) {
    a.grant.Some? && b.grant.Some?
    && var p, g := a.grant.value, b.grant.value;
       p.canDelegate && b.signer == p.subject && g.parentId == Some(a.id)
       && (g.user, g.board, g.workspace, g.epoch) == (p.user, p.board, p.workspace, p.epoch)
       && g.expiresAt <= p.expiresAt
  }

  /** A chain is accepted for a device exactly when it has one to eight grants, each stands on
      its own, the first has no parent, each later one was handed on by the one before it, and
      the last is for the device. */
  lemma AcceptsIff(c: Crypto, chain: Chain, subject: string, at: nat, clock: nat)
    ensures Accepts(c, chain, subject, at, clock) <==>
      1 <= |chain| <= 8
      && (forall i :: 0 <= i < |chain| ==> Stands(c, chain[i], at, clock))
      && chain[0].grant.value.parentId.None?
      && (forall i :: 0 < i < |chain| ==> Hands(chain[i - 1], chain[i]))
      && chain[|chain| - 1].grant.value.subject == subject
  {
    if Accepts(c, chain, subject, at, clock) {
      forall i | 0 <= i < |chain| ensures Stands(c, chain[i], at, clock) {
        assert Genuine(c, chain[i]) && OnTime(chain[i], at, clock);
      }
    } else if 1 <= |chain| <= 8 && forall i :: 0 <= i < |chain| ==> Stands(c, chain[i], at, clock) {
      forall i | 0 <= i < |chain| ensures Genuine(c, chain[i]) && OnTime(chain[i], at, clock) {
        assert Stands(c, chain[i], at, clock);
      }
    }
  }

  /** The chain of an event counts from its last grant on, and is judged at the moment of that grant. */
  lemma AcceptsReplicationIff(c: Crypto, chain: Chain, subject: string, signedAt: nat, clock: nat)
    ensures AcceptsReplication(c, chain, subject, signedAt, clock) <==>
      |chain| > 0 && var enrolled := chain[|chain| - 1].createdAt;
        enrolled <= signedAt && Accepts(c, chain, subject, enrolled, clock)
  {}

  /** An extension is the chain with one more grant: signed by the holder at that moment, under
      the last one, for the new device; all else is as in the last one. Only the holder of an
      accepted chain of at most seven grants, the last of which may delegate, can make it. */
  lemma ExtensionMeans(c: Crypto, secret: string, chain: Chain, subject: string, clock: nat, signedAt: nat)
    ensures CanExtend(c, secret, chain, clock) <==>
      c.publicKey(secret).Some? && Accepts(c, chain, c.publicKey(secret).value, clock, clock)
      && |chain| <= 7 && chain[|chain| - 1].grant.value.canDelegate
    ensures CanExtend(c, secret, chain, clock) ==>
      var signer, last := c.publicKey(secret).value, chain[|chain| - 1];
      var longer := Extension(c, signer, chain, subject, signedAt);
      var added := longer[|chain|];
      |longer| == |chain| + 1 && longer[..|chain|] == chain
      && (added.kind, added.signer, added.createdAt) == (27780, signer, signedAt) && added.authentic
      && added.grant == Some(last.grant.value.(subject := subject, parentId := Some(last.id)))
      && added.id == c.eventId(signer, signedAt, added.grant.value)
  {}

  /** Scope and epoch are those of the root, and no grant outlives an earlier one. */
  lemma {:induction false} NarrowsFromRoot(c: Crypto, chain: Chain, i: nat, j: nat)
    requires WellLinked(c, chain) && i <= j < |chain|
    ensures SameScope(chain[j].grant.value, chain[i].grant.value)
    ensures var g, p := chain[j].grant.value, chain[i].grant.value;
      (g.user, g.board, g.workspace, g.epoch) == (p.user, p.board, p.workspace, p.epoch) && g.expiresAt <= p.expiresAt
    decreases j - i
  {
    if i < j {
      NarrowsFromRoot(c, chain, i, j - 1);
      assert Delegates(chain[j - 1], chain[j]);
    }
  }

  ghost predicate LatestIssue(chain: Chain, t: nat) {
    (exists i :: 0 <= i < |chain| && chain[i].createdAt == t)
    && forall i :: 0 <= i < |chain| ==> chain[i].createdAt <= t
  }

  /** A well-linked chain is accepted exactly from its latest issue to its last grant's expiry. */
  lemma AcceptedWindow(c: Crypto, chain: Chain, subject: string, at: nat, clock: nat, latest: nat)
    requires LatestIssue(chain, latest) && latest <= clock + CLOCK_SKEW
    ensures Accepts(c, chain, subject, at, clock) <==>
      WellLinked(c, chain) && Last(chain).grant.value.subject == subject
      && latest <= at < Last(chain).grant.value.expiresAt
  {
    if WellLinked(c, chain) && latest <= at < Last(chain).grant.value.expiresAt {
      forall i | 0 <= i < |chain| ensures chain[i].grant.value.expiresAt > at {
        NarrowsFromRoot(c, chain, i, |chain| - 1);
      }
    }
  }

  /** Every non-empty prefix is a valid chain for its own subject at the same moment. */
  lemma PrefixAccepted(c: Crypto, chain: Chain, subject: string, at: nat, clock: nat, n: nat)
    requires Accepts(c, chain, subject, at, clock) && 1 <= n <= |chain|
    ensures Accepts(c, chain[..n], chain[n - 1].grant.value.subject, at, clock)
  {
    assert forall i :: 0 <= i < n ==> chain[..n][i] == chain[i];
  }

  /** Enrolment outlives the grant: later events stay acceptable for ever, also under a later clock. */
  lemma ReplicationUpwardClosed(c: Crypto, chain: Chain, subject: string, t: nat, u: nat, clock: nat, later: nat)
    requires AcceptsReplication(c, chain, subject, t, clock) && t <= u && clock <= later
    ensures AcceptsReplication(c, chain, subject, u, later)
  {}

  /** Enrolment itself needs a live grant: some moment exists at which the plain check passes. */
  lemma ReplicationNeedsLiveEnrolment(c: Crypto, chain: Chain, subject: string, signedAt: nat, clock: nat)
    ensures AcceptsReplication(c, chain, subject, signedAt, clock) <==>
      chain != [] && Last(chain).createdAt <= signedAt
      && (exists at: nat :: at <= Last(chain).createdAt && Accepts(c, chain, subject, at, clock))
  {
    if chain != [] {
      var enrolled := Last(chain).createdAt;
      if at: nat :| at <= enrolled && Accepts(c, chain, subject, at, clock) {
        assert chain[|chain| - 1].createdAt <= at;
      }
    }
  }

  lemma ExtensionLinked(c: Crypto, signer: string, chain: Chain, subject: string, signedAt: nat)
    requires WellLinked(c, chain) && |chain| < MAX_DEPTH
    requires Last(chain).grant.value.subject == signer && Last(chain).grant.value.canDelegate
    ensures WellLinked(c, Extension(c, signer, chain, subject, signedAt)) <==> c.isKey(subject)
  {
    var longer := Extension(c, signer, chain, subject, signedAt);
    assert longer[|chain|].grant.value.subject == subject;
    assert forall i :: 0 <= i < |chain| ==> longer[i] == chain[i];
    if c.isKey(subject) {
      assert Genuine(c, longer[|chain| - 1]);
      assert Genuine(c, longer[|chain|]);
      forall i | 0 < i < |longer| ensures Delegates(longer[i - 1], longer[i]) {
        if i < |chain| { assert Delegates(chain[i - 1], chain[i]); }
      }
    } else {
      assert !Genuine(c, longer[|chain|]);
    }
  }

  /** An extension verifies for its new subject at `t` exactly when the subject is a key
      (which `extend` does not check), and `t` lies between the signing and the expiry,
      which the extension does not change. Root and scope are unchanged too. */
  lemma ExtendThenVerify(c: Crypto, secret: string, chain: Chain, subject: string,
                         clock: nat, signedAt: nat, t: nat, verifierClock: nat)
    requires CanExtend(c, secret, chain, clock)
    requires clock <= signedAt <= verifierClock + CLOCK_SKEW
    ensures var longer := Extension(c, c.publicKey(secret).value, chain, subject, signedAt);
      && (Accepts(c, longer, subject, t, verifierClock) <==>
           c.isKey(subject) && signedAt <= t < Last(chain).grant.value.expiresAt)
      && longer[0].signer == chain[0].signer
      && SameScope(Last(longer).grant.value, chain[0].grant.value)
      && Last(longer).grant.value.expiresAt == Last(chain).grant.value.expiresAt
  {
    var signer := c.publicKey(secret).value;
    var longer := Extension(c, signer, chain, subject, signedAt);
    ExtensionLinked(c, signer, chain, subject, signedAt);
    NarrowsFromRoot(c, chain, 0, |chain| - 1);
    assert forall i :: 0 <= i < |chain| ==> longer[i] == chain[i];
    assert longer[|chain|].createdAt == signedAt;
    assert LatestIssue(longer, signedAt);
    AcceptedWindow(c, longer, subject, t, verifierClock, signedAt);
  }

  /** A run of successful extensions, each by whoever holds the last grant. */
  ghost predicate ExtensionRun(c: Crypto, chains: seq<Chain>) {
    chains != [] && forall i :: 0 < i < |chains| ==> Extended(c, chains[i - 1], chains[i])
  }

  ghost predicate Extended(c: Crypto, chain: Chain, longer: Chain) {
    exists secret, subject, clock, signedAt :: ExtendedBy(c, secret, subject, clock, signedAt, chain, longer)
  }

  predicate ExtendedBy(c: Crypto, secret: string, subject: string, clock: nat, signedAt: nat, chain: Chain,
                       longer: Chain) {
    CanExtend(c, secret, chain, clock)
    && longer == Extension(c, c.publicKey(secret).value, chain, subject, signedAt)
  }

  /** A root grant admits at most seven extensions, and the root is never displaced. */
  lemma {:induction false} AtMostSevenExtensions(c: Crypto, chains: seq<Chain>)
    requires ExtensionRun(c, chains) && |chains[0]| == 1
    ensures |chains| - 1 <= 7
    ensures |chains[|chains| - 1]| == |chains| && chains[|chains| - 1][0] == chains[0][0]
  {
    if |chains| > 1 {
      var front := chains[..|chains| - 1];
      forall i | 0 < i < |front| ensures Extended(c, front[i - 1], front[i]) {
        assert Extended(c, chains[i - 1], chains[i]);
      }
      AtMostSevenExtensions(c, front);
      var i := |chains| - 1;
      assert Extended(c, chains[i - 1], chains[i]);
      var secret, subject, clock, signedAt :| ExtendedBy(c, secret, subject, clock, signedAt, chains[i - 1], chains[i]);
    }
  }
}
