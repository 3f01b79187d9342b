/**
 Authorization learned while events are applied. The usable writer keys only grow, and
 enough passes over one pool of deliveries, in any orders, reach one and the same table.
 */
module RoamingAuthorization {
  import opened Wrappers
  import opened Stamps
  import opened RoamingModel
  import opened RoamingConvergence
  import Link = DeviceLink

  /** Equal ids mean equal events by one author; only the wrapper around them may differ. */
  ghost predicate OneAuthor(pool: set<Delivery>) {
    Coherent(pool)
    && forall a, b :: a in pool && b in pool && a.event.id == b.event.id ==> a.author == b.author
  }

  predicate Vouched(ws: Workspace, auths: AuthTable, key: AuthKey) {
    Root(ws, auths, key) || Pinned(ws, key)
  }

  /** Everything about a delegated delivery except whether its root is known. */
  predicate OwnerGrant(ws: Workspace, d: Delivery) {
    d.event.workspace == ws.id && d.event.board in ws.epochs && d.event.epoch == ws.epochs[d.event.board]
    && d.event.delegation.Some? && DelegationInScope(ws, d)
    && Link.Last(d.event.delegation.value).grant.value.user == ws.owner
  }

  /** With `known` learned on top of `auths`, the delivery makes its author a known key. */
  predicate Teaches(ws: Workspace, auths: AuthTable, known: set<AuthKey>, d: Delivery) {
    OwnerGrant(ws, d) && !Usable(ws, auths, AuthorOf(d))
    && (Vouched(ws, auths, RootOf(d)) || RootOf(d) in known)
  }

  /** The keys that can be learned from the pool in `n` rounds. */
  ghost function Learned(ws: Workspace, auths: AuthTable, pool: set<Delivery>, n: nat): set<AuthKey> {
    if n == 0 then {} else Round(ws, auths, pool, Learned(ws, auths, pool, n - 1))
  }

  ghost function Round(ws: Workspace, auths: AuthTable, pool: set<Delivery>, known: set<AuthKey>): set<AuthKey> {
    set d | d in pool && Teaches(ws, auths, known, d) :: AuthorOf(d)
  }

  /** The table after learning `known`: learned keys act for the owner. */
  function Overlay(ws: Workspace, auths: AuthTable, known: set<AuthKey>): AuthTable {
    auths + map k | k in known && k.board in ws.epochs :: AuthRow(ws.owner, Owner, ws.epochs[k.board])
  }

  // The set of usable keys only grows.

  /** A row that gets overwritten was usable neither as a writer nor as a root. */
  lemma UsableOnlyGrows(ws: Workspace, s: Store, d: Delivery, key: AuthKey)
    ensures var t := Step(ws, s, d).0;
      && (Usable(ws, s.auths, key) ==> Usable(ws, t.auths, key) && t.auths[key] == s.auths[key])
      && (Root(ws, s.auths, key) ==> Root(ws, t.auths, key))
  {
    hide PutAppearance, DeleteCard, CheckDelta, ApplyDelta, CheckPut, PutCard, DelegationInScope;
    assert Root(ws, s.auths, key) ==> Usable(ws, s.auths, key);
  }

  /** Over any run of any deliveries the usable keys and the roots only grow. */
  lemma {:induction false} RunKeepsKeys(ws: Workspace, s: Store, ds: seq<Delivery>, key: AuthKey)
    ensures var t := Run(ws, s, ds);
      && (Usable(ws, s.auths, key) ==> Usable(ws, t.auths, key) && t.auths[key] == s.auths[key])
      && (Root(ws, s.auths, key) ==> Root(ws, t.auths, key))
  {
    hide Step, Root;
    if ds != [] {
      RunKeepsKeys(ws, s, ds[..|ds| - 1], key);
      UsableOnlyGrows(ws, Run(ws, s, ds[..|ds| - 1]), ds[|ds| - 1], key);
    }
  }

  // The least fixpoint.

  lemma TeachesMore(ws: Workspace, auths: AuthTable, a: set<AuthKey>, b: set<AuthKey>, d: Delivery)
    requires a <= b && Teaches(ws, auths, a, d)
    ensures Teaches(ws, auths, b, d)
  {}

  lemma RoundMonotone(ws: Workspace, auths: AuthTable, pool: set<Delivery>, a: set<AuthKey>, b: set<AuthKey>)
    requires a <= b
    ensures Round(ws, auths, pool, a) <= Round(ws, auths, pool, b)
  {
    forall k | k in Round(ws, auths, pool, a) ensures k in Round(ws, auths, pool, b) {
      var d :| d in pool && Teaches(ws, auths, a, d) && AuthorOf(d) == k;
      TeachesMore(ws, auths, a, b, d);
    }
  }

  lemma {:induction false} LearnedGrows(ws: Workspace, auths: AuthTable, pool: set<Delivery>, n: nat)
    ensures Learned(ws, auths, pool, n) <= Learned(ws, auths, pool, n + 1)
  {
    if n > 0 {
      LearnedGrows(ws, auths, pool, n - 1);
      RoundMonotone(ws, auths, pool, Learned(ws, auths, pool, n - 1), Learned(ws, auths, pool, n));
    }
  }

  ghost function Authors(pool: set<Delivery>): set<AuthKey> {
    set d | d in pool :: AuthorOf(d)
  }

  lemma {:induction false} AuthorsBounded(pool: set<Delivery>)
    ensures |Authors(pool)| <= |pool|
  {
    if pool != {} {
      var d :| d in pool;
      AuthorsBounded(pool - {d});
      assert Authors(pool) == Authors(pool - {d}) + {AuthorOf(d)} by {
        forall k | k in Authors(pool) ensures k in Authors(pool - {d}) + {AuthorOf(d)} {
          var x :| x in pool && AuthorOf(x) == k;
          assert x == d || x in pool - {d};
        }
      }
    }
  }

  lemma Smaller<T>(a: set<T>, b: set<T>)
    requires a <= b
    ensures |a| <= |b|
  {
    assert b == a + (b - a);
  }

  ghost predicate Stable(ws: Workspace, auths: AuthTable, pool: set<Delivery>, n: nat) {
    Learned(ws, auths, pool, n + 1) == Learned(ws, auths, pool, n)
  }

  lemma StrictlyMore(ws: Workspace, auths: AuthTable, pool: set<Delivery>, n: nat)
    requires !Stable(ws, auths, pool, n)
    ensures |Learned(ws, auths, pool, n + 1)| >= |Learned(ws, auths, pool, n)| + 1
  {
    LearnedGrows(ws, auths, pool, n);
    Larger(Learned(ws, auths, pool, n), Learned(ws, auths, pool, n + 1));
  }

  ghost function Count(ws: Workspace, auths: AuthTable, pool: set<Delivery>, n: nat): nat {
    |Learned(ws, auths, pool, n)|
  }

  lemma {:induction false} GrowsUntilStable(ws: Workspace, auths: AuthTable, pool: set<Delivery>, n: nat)
    ensures Stable(ws, auths, pool, n) || Count(ws, auths, pool, n + 1) >= n + 1
  {
    if Stable(ws, auths, pool, n) { return; }
    StrictlyMore(ws, auths, pool, n);
    if n > 0 {
      GrowsUntilStable(ws, auths, pool, n - 1);
    }
  }

  lemma Larger<T>(a: set<T>, b: set<T>)
    requires a <= b && a != b
    ensures |a| + 1 <= |b|
  {
    assert b - a != {};
    var extra :| extra in b - a;
    Smaller(a + {extra}, b);
  }

  /** After as many rounds as there are deliveries nothing more can be learned. */
  lemma RoundsSuffice(ws: Workspace, auths: AuthTable, pool: set<Delivery>)
    ensures Stable(ws, auths, pool, |pool|)
  {
    GrowsUntilStable(ws, auths, pool, |pool|);
    var b := Learned(ws, auths, pool, |pool| + 1);
    assert b <= Authors(pool);
    Smaller(b, Authors(pool));
    AuthorsBounded(pool);
  }

  ghost function Closure(ws: Workspace, auths: AuthTable, pool: set<Delivery>): set<AuthKey> {
    Learned(ws, auths, pool, |pool|)
  }

  /** The closure is a fixpoint: no delivery of the pool teaches a key outside it. */
  lemma ClosureClosed(ws: Workspace, auths: AuthTable, pool: set<Delivery>, d: Delivery)
    requires d in pool && Teaches(ws, auths, Closure(ws, auths, pool), d)
    ensures AuthorOf(d) in Closure(ws, auths, pool)
  {
    RoundsSuffice(ws, auths, pool);
    assert AuthorOf(d) in Learned(ws, auths, pool, |pool| + 1);
  }

  /** It is the least one: any closed set of keys contains it. */
  lemma {:induction false} ClosureLeast(ws: Workspace, auths: AuthTable, pool: set<Delivery>, k: set<AuthKey>, n: nat)
    requires forall d :: d in pool && Teaches(ws, auths, k, d) ==> AuthorOf(d) in k
    ensures Learned(ws, auths, pool, n) <= k
  {
    if n > 0 {
      ClosureLeast(ws, auths, pool, k, n - 1);
      forall x | x in Learned(ws, auths, pool, n) ensures x in k {
        var d :| d in pool && Teaches(ws, auths, Learned(ws, auths, pool, n - 1), d) && AuthorOf(d) == x;
        TeachesMore(ws, auths, Learned(ws, auths, pool, n - 1), k, d);
      }
    }
  }

  // Runs.

  /** The table is the initial one plus `known`, and whoever got an event processed by
      delegation is a usable author. */
  ghost predicate Knows(ws: Workspace, auths: AuthTable, pool: set<Delivery>, s: Store, known: set<AuthKey>) {
    && known <= Closure(ws, auths, pool)
    && s.auths == Overlay(ws, auths, known)
    && (forall k :: k in known ==> k.board in ws.epochs && !Usable(ws, auths, k))
    && (forall d :: d in pool && Processed(s.ledger, d.event.id) && d.event.delegation.Some?
          ==> Usable(ws, s.auths, AuthorOf(d)))
  }

  lemma OverlayKeys(ws: Workspace, auths: AuthTable, known: set<AuthKey>, key: AuthKey)
    requires key in known ==> key.board in ws.epochs
    ensures Usable(ws, Overlay(ws, auths, known), key) <==> key in known || Usable(ws, auths, key)
    ensures Root(ws, Overlay(ws, auths, known), key) <==> key in known || Root(ws, auths, key)
  {}

  ghost function NextKnown(ws: Workspace, s: Store, known: set<AuthKey>, d: Delivery): set<AuthKey> {
    if Step(ws, s, d).0.auths == s.auths then known else known + {AuthorOf(d)}
  }

  /** When a delivery is let through, and what the table is then. */
  lemma ActorCases(ws: Workspace, auths: AuthTable, d: Delivery)
    requires d.event.workspace == ws.id
    ensures Actor(ws, auths, d).Success? <==>
      d.event.board in ws.epochs && d.event.epoch == ws.epochs[d.event.board]
      && (Usable(ws, auths, AuthorOf(d))
          || (OwnerGrant(ws, d) && Vouched(ws, auths, RootOf(d)))
          || (d.event.delegation.None? && d.event.epoch == 1))
    ensures Actor(ws, auths, d).Success? ==>
      Actor(ws, auths, d).value.1 == TableAfter(ws, auths, d)
  {}

  function TableAfter(ws: Workspace, auths: AuthTable, d: Delivery): AuthTable
    requires d.event.board in ws.epochs
  {
    if Usable(ws, auths, AuthorOf(d)) || d.event.delegation.None? then auths
    else auths[AuthorOf(d) := AuthRow(ws.owner, Owner, ws.epochs[d.event.board])]
  }

  lemma StepAuths(ws: Workspace, s: Store, d: Delivery)
    ensures Step(ws, s, d).0.auths ==
      if d.event.workspace == ws.id && !Processed(s.ledger, d.event.id) && Actor(ws, s.auths, d).Success?
      then Actor(ws, s.auths, d).value.1 else s.auths
    ensures Processed(Step(ws, s, d).0.ledger, d.event.id) && !Processed(s.ledger, d.event.id) ==>
      d.event.workspace == ws.id && Actor(ws, s.auths, d).Success?
  {
    hide Usable, Root, Pinned, DelegationInScope, PutAppearance, DeleteCard, CheckDelta, ApplyDelta, CheckPut, PutCard;
  }

  lemma StepKnows(ws: Workspace, auths: AuthTable, pool: set<Delivery>, s: Store, known: set<AuthKey>, d: Delivery)
    requires OneAuthor(pool) && d in pool && Knows(ws, auths, pool, s, known)
    ensures Knows(ws, auths, pool, Step(ws, s, d).0, NextKnown(ws, s, known, d))
  {
    var t := Step(ws, s, d).0;
    StepTable(ws, auths, pool, s, known, d);
    forall x | x in pool && Processed(t.ledger, x.event.id) && x.event.delegation.Some?
      ensures Usable(ws, t.auths, AuthorOf(x))
    {
      StepVouchesProcessed(ws, auths, pool, s, known, d, x);
    }
  }

  lemma StepTable(ws: Workspace, auths: AuthTable, pool: set<Delivery>, s: Store, known: set<AuthKey>, d: Delivery)
    requires d in pool && Knows(ws, auths, pool, s, known)
    ensures var t, next := Step(ws, s, d).0, NextKnown(ws, s, known, d);
      next <= Closure(ws, auths, pool) && t.auths == Overlay(ws, auths, next)
      && forall k :: k in next ==> k.board in ws.epochs && !Usable(ws, auths, k)
  {
    StepAuths(ws, s, d);
    if Step(ws, s, d).0.auths != s.auths {
      TableLearns(ws, auths, pool, s.auths, known, d);
    }
  }

  lemma TableLearns(ws: Workspace, auths: AuthTable, pool: set<Delivery>, now: AuthTable, known: set<AuthKey>,
                    d: Delivery)
    requires d in pool && known <= Closure(ws, auths, pool) && now == Overlay(ws, auths, known)
    requires forall k :: k in known ==> k.board in ws.epochs && !Usable(ws, auths, k)
    requires d.event.workspace == ws.id && Actor(ws, now, d).Success? && Actor(ws, now, d).value.1 != now
    ensures Actor(ws, now, d).value.1 == Overlay(ws, auths, known + {AuthorOf(d)})
    ensures AuthorOf(d) in Closure(ws, auths, pool) && AuthorOf(d).board in ws.epochs && !Usable(ws, auths, AuthorOf(d))
  {
    hide Actor, DelegationInScope, Usable, Root, Pinned, Vouched, Overlay, Closure;
    ActorCases(ws, now, d);
    OverlayKeys(ws, auths, known, AuthorOf(d));
    StepLearns(ws, auths, pool, known, d);
    OverlayAdd(ws, auths, known, AuthorOf(d));
  }

  lemma OverlayAdd(ws: Workspace, auths: AuthTable, known: set<AuthKey>, key: AuthKey)
    requires key.board in ws.epochs
    ensures Overlay(ws, auths, known + {key}) ==
      Overlay(ws, auths, known)[key := AuthRow(ws.owner, Owner, ws.epochs[key.board])]
  {}

  lemma StepVouchesProcessed(ws: Workspace, auths: AuthTable, pool: set<Delivery>, s: Store, known: set<AuthKey>,
                             d: Delivery, x: Delivery)
    requires OneAuthor(pool) && d in pool && x in pool && Knows(ws, auths, pool, s, known)
    requires Processed(Step(ws, s, d).0.ledger, x.event.id) && x.event.delegation.Some?
    ensures Usable(ws, Step(ws, s, d).0.auths, AuthorOf(x))
  {
    StepLedger(ws, s, d);
    if Processed(s.ledger, x.event.id) {
      UsableOnlyGrows(ws, s, d, AuthorOf(x));
    } else {
      assert x.event == d.event && AuthorOf(x) == AuthorOf(d);
      StepAuths(ws, s, d);
      ActorCases(ws, s.auths, d);
    }
  }

  lemma StepLearns(ws: Workspace, auths: AuthTable, pool: set<Delivery>, known: set<AuthKey>, d: Delivery)
    requires d in pool && known <= Closure(ws, auths, pool)
    requires forall k :: k in known ==> k.board in ws.epochs
    requires OwnerGrant(ws, d) && Vouched(ws, Overlay(ws, auths, known), RootOf(d))
    requires !Usable(ws, Overlay(ws, auths, known), AuthorOf(d))
    ensures AuthorOf(d) in Closure(ws, auths, pool)
  {
    OverlayKeysAll(ws, auths, known);
    assert Teaches(ws, auths, known, d);
    TeachesMore(ws, auths, known, Closure(ws, auths, pool), d);
    ClosureClosed(ws, auths, pool, d);
  }

  lemma OverlayKeysAll(ws: Workspace, auths: AuthTable, known: set<AuthKey>)
    requires forall k :: k in known ==> k.board in ws.epochs
    ensures forall key :: Usable(ws, Overlay(ws, auths, known), key) <==> key in known || Usable(ws, auths, key)
    ensures forall key :: Root(ws, Overlay(ws, auths, known), key) <==> key in known || Root(ws, auths, key)
  {
    forall key { OverlayKeys(ws, auths, known, key); }
  }

  /** Seeing a delivery whose root is known makes its author known. */
  lemma StepTeaches(ws: Workspace, auths: AuthTable, pool: set<Delivery>, s: Store, known: set<AuthKey>, d: Delivery)
    requires OneAuthor(pool) && d in pool && Knows(ws, auths, pool, s, known) && Teaches(ws, auths, known, d)
    ensures AuthorOf(d) in NextKnown(ws, s, known, d)
  {
    OverlayKeysAll(ws, auths, known);
    StepAuths(ws, s, d);
    ActorCases(ws, s.auths, d);
    assert Vouched(ws, s.auths, RootOf(d));
  }

  /** The known keys after a run that starts from `known`. */
  ghost function KnownAfter(ws: Workspace, s: Store, known: set<AuthKey>, ds: seq<Delivery>): set<AuthKey> {
    if ds == [] then known
    else NextKnown(ws, Run(ws, s, ds[..|ds| - 1]), KnownAfter(ws, s, known, ds[..|ds| - 1]), ds[|ds| - 1])
  }

  lemma {:induction false} RunKnows(ws: Workspace, auths: AuthTable, pool: set<Delivery>, s: Store,
                                    known: set<AuthKey>, ds: seq<Delivery>)
    requires OneAuthor(pool) && From(ds, pool) && Knows(ws, auths, pool, s, known)
    ensures Knows(ws, auths, pool, Run(ws, s, ds), KnownAfter(ws, s, known, ds))
    ensures known <= KnownAfter(ws, s, known, ds)
  {
    if ds != [] {
      var front := ds[..|ds| - 1];
      RunKnows(ws, auths, pool, s, known, front);
      StepKnows(ws, auths, pool, Run(ws, s, front), KnownAfter(ws, s, known, front), ds[|ds| - 1]);
    }
  }

  /** A pass is one recovery of the pool: every delivery occurs, in some order. */
  ghost predicate Pass(ds: seq<Delivery>, pool: set<Delivery>) {
    From(ds, pool) && forall d :: d in pool ==> d in ds
  }

  lemma {:induction false} RunTeaches(ws: Workspace, auths: AuthTable, pool: set<Delivery>, s: Store,
                                      known: set<AuthKey>, ds: seq<Delivery>, d: Delivery)
    requires OneAuthor(pool) && From(ds, pool) && Knows(ws, auths, pool, s, known)
    requires d in ds && Teaches(ws, auths, known, d)
    ensures AuthorOf(d) in KnownAfter(ws, s, known, ds)
  {
    hide Step, Usable, Root, Pinned, Overlay, Vouched, Knows, Teaches, Closure;
    var front, last := ds[..|ds| - 1], ds[|ds| - 1];
    var mid, middle := KnownAfter(ws, s, known, front), Run(ws, s, front);
    RunKnows(ws, auths, pool, s, known, front);
    if last == d {
      TeachesMore(ws, auths, known, mid, d);
      StepTeaches(ws, auths, pool, middle, mid, d);
    } else {
      assert ds == front + [last];
      assert d in front;
      RunTeaches(ws, auths, pool, s, known, front, d);
    }
  }

  function Passes(ws: Workspace, s: Store, ps: seq<seq<Delivery>>): Store {
    if ps == [] then s else Run(ws, Passes(ws, s, ps[..|ps| - 1]), ps[|ps| - 1])
  }

  ghost predicate AllPasses(ps: seq<seq<Delivery>>, pool: set<Delivery>) {
    forall i :: 0 <= i < |ps| ==> Pass(ps[i], pool)
  }

  lemma {:induction false} PassesLearn(ws: Workspace, s0: Store, pool: set<Delivery>, ps: seq<seq<Delivery>>)
    returns (known: set<AuthKey>)
    requires OneAuthor(pool) && AllPasses(ps, pool) && Knows(ws, s0.auths, pool, s0, {})
    ensures Knows(ws, s0.auths, pool, Passes(ws, s0, ps), known)
    ensures Learned(ws, s0.auths, pool, |ps|) <= known
  {
    if ps == [] {
      known := {};
    } else {
      var front, last := ps[..|ps| - 1], ps[|ps| - 1];
      var before := PassesLearn(ws, s0, pool, front);
      var s := Passes(ws, s0, front);
      assert Pass(last, pool);
      RunKnows(ws, s0.auths, pool, s, before, last);
      known := KnownAfter(ws, s, before, last);
      forall k | k in Learned(ws, s0.auths, pool, |ps|) ensures k in known {
        var d :| d in pool && Teaches(ws, s0.auths, Learned(ws, s0.auths, pool, |ps| - 1), d) && AuthorOf(d) == k;
        TeachesMore(ws, s0.auths, Learned(ws, s0.auths, pool, |ps| - 1), before, d);
        RunTeaches(ws, s0.auths, pool, s, before, last, d);
      }
    }
  }

  lemma {:induction false} LearnedMonotone(ws: Workspace, auths: AuthTable, pool: set<Delivery>, m: nat, n: nat)
    requires m <= n
    ensures Learned(ws, auths, pool, m) <= Learned(ws, auths, pool, n)
    decreases n - m
  {
    if m < n {
      LearnedMonotone(ws, auths, pool, m, n - 1);
      LearnedGrows(ws, auths, pool, n - 1);
    }
  }

  ghost predicate NothingProcessed(s: Store, pool: set<Delivery>) {
    forall d :: d in pool ==> !Processed(s.ledger, d.event.id)
  }

  /** Whatever the orders of the passes, as many as there are deliveries reach the one
      table in which exactly the closure has been learned. */
  lemma AuthorizationFixpoint(ws: Workspace, s0: Store, pool: set<Delivery>, ps: seq<seq<Delivery>>)
    requires OneAuthor(pool) && AllPasses(ps, pool) && |ps| >= |pool| && NothingProcessed(s0, pool)
    ensures Passes(ws, s0, ps).auths == Overlay(ws, s0.auths, Closure(ws, s0.auths, pool))
    ensures Knows(ws, s0.auths, pool, Passes(ws, s0, ps), Closure(ws, s0.auths, pool))
  {
    assert Overlay(ws, s0.auths, {}) == s0.auths;
    var known := PassesLearn(ws, s0, pool, ps);
    LearnedMonotone(ws, s0.auths, pool, |pool|, |ps|);
    assert known == Closure(ws, s0.auths, pool);
  }

  /** The deliveries that end up authorized: those the final table lets act. */
  ghost predicate Authorized(ws: Workspace, auths: AuthTable, pool: set<Delivery>, d: Delivery) {
    d.event.workspace == ws.id && Actor(ws, Overlay(ws, auths, Closure(ws, auths, pool)), d).Success?
  }

  /** A delivery accepted at any moment of any run is among the finally authorized ones. */
  lemma AcceptedIsAuthorized(ws: Workspace, auths: AuthTable, pool: set<Delivery>, s: Store, known: set<AuthKey>,
                             d: Delivery)
    requires OneAuthor(pool) && d in pool && Knows(ws, auths, pool, s, known)
    requires d.event.workspace == ws.id && Actor(ws, s.auths, d).Success?
    ensures Authorized(ws, auths, pool, d)
  {
    var closure := Closure(ws, auths, pool);
    ClosureBoards(ws, auths, pool);
    OverlayKeysAll(ws, auths, known);
    OverlayKeysAll(ws, auths, closure);
    ActorCases(ws, s.auths, d);
    ActorCases(ws, Overlay(ws, auths, closure), d);
  }

  lemma ClosureBoards(ws: Workspace, auths: AuthTable, pool: set<Delivery>)
    ensures forall k :: k in Closure(ws, auths, pool) ==> k.board in ws.epochs && !Usable(ws, auths, k)
  {}
}
