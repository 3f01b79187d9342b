/**
 Exactly when everything a node may accept gets through, whatever the order; and that
 then all nodes end with the same board.
 */
module RoamingOutcome {
  import opened Wrappers
  import opened Stamps
  import opened RoamingModel
  import opened RoamingConvergence
  import opened RoamingAuthorization
  import opened RoamingDelivery
  import opened RoamingStuck
  import Cards = CardMerge
  import Dates = CardDates

  // The order with all deletes first.

  ghost function Deletes(ws: Workspace, s0: Store, pool: set<Delivery>): set<Delivery> {
    set d | d in Accepted(ws, s0, pool) && DeleteOn(d.event, d.event.entity)
  }

  /** The unknown cards that an accepted delete removes. */
  ghost function Gone(ws: Workspace, s0: Store, pool: set<Delivery>): set<Uuid> {
    set d | d in Deletes(ws, s0, pool) && d.event.entity !in s0.data.cards :: d.event.entity
  }

  lemma GoneIff(ws: Workspace, s0: Store, pool: set<Delivery>, c: Uuid)
    ensures c in Gone(ws, s0, pool) <==> c !in s0.data.cards && HasDelete(ws, s0, pool, c)
  {
    if c !in s0.data.cards && HasDelete(ws, s0, pool, c) {
      var x :| x in Accepted(ws, s0, pool) && DeleteOn(x.event, c);
      assert x in Deletes(ws, s0, pool);
    }
  }

  /** The deletes of unknown cards come from authors who can act from the start. */
  ghost predicate DeletesAct(ws: Workspace, s0: Store, pool: set<Delivery>) {
    forall d :: d in Deletes(ws, s0, pool) && d.event.entity !in s0.data.cards ==> Acts(ws, s0, d)
  }

  lemma {:induction false} DeletesMakeNoRow(ws: Workspace, s: Store, ds: seq<Delivery>)
    requires forall d :: d in ds ==> d.event.operation.CardDelete?
    ensures Run(ws, s, ds).data.cards.Keys == s.data.cards.Keys
  {
    hide Step;
    if ds != [] {
      DeletesMakeNoRow(ws, s, ds[..|ds| - 1]);
      assert ds[|ds| - 1] in ds;
      DeleteMakesNoRow(ws, Run(ws, s, ds[..|ds| - 1]), ds[|ds| - 1]);
    }
  }

  /** After the deletes, the cards that are gone wait for ever. */
  lemma GoneWait(ws: Workspace, s0: Store, pool: set<Delivery>, first: seq<Delivery>)
    requires Plain(ws, s0, pool) && DeletesAct(ws, s0, pool)
    requires forall d :: d in first <==> d in Deletes(ws, s0, pool)
    ensures Waiting(Run(ws, s0, first), pool, Gone(ws, s0, pool))
    ensures Run(ws, s0, first).data.cards.Keys == s0.data.cards.Keys
  {
    hide Run, Plain, Acts, Authorized, WaitsFor;
    DeletesMakeNoRow(ws, s0, first);
    forall c | c in Gone(ws, s0, pool) ensures c in Run(ws, s0, first).data.tombstones {
      var d :| d in Deletes(ws, s0, pool) && d.event.entity !in s0.data.cards && d.event.entity == c;
      DeleteTombstones(ws, s0, pool, first, d);
    }
  }

  lemma DeleteTombstones(ws: Workspace, s0: Store, pool: set<Delivery>, first: seq<Delivery>, d: Delivery)
    requires Plain(ws, s0, pool) && From(first, pool) && d in first && Acts(ws, s0, d)
    requires DeleteOn(d.event, d.event.entity)
    ensures d.event.entity in Run(ws, s0, first).data.tombstones
  {
    hide Run, Plain, Acts;
    var i :| 0 <= i < |first| && first[i] == d;
    var a, b := first[..i], first[i + 1..];
    assert first == a + [d] + b;
    DirectlyTaken(Run(ws, s0, a), d.event);
    TakenApplied(ws, s0, pool, a, d, b);
    DeletedTombstone(ws, s0, pool, first, d);
  }

  // Where a row comes from.

  /** The step of a run at which the card got its row. */
  ghost function MadeAt(ws: Workspace, s: Store, ds: seq<Delivery>, c: Uuid): (n: nat)
    ensures n <= |ds|
  {
    if ds == [] then 0
    else if c in Run(ws, s, ds[..|ds| - 1]).data.cards then MadeAt(ws, s, ds[..|ds| - 1], c)
    else |ds|
  }

  ghost function MadeOrder(ws: Workspace, s: Store, ds: seq<Delivery>): map<Uuid, nat> {
    map c | c in Run(ws, s, ds).data.cards :: MadeAt(ws, s, ds, c)
  }

  /** Every row that was not there at the start belongs to a card of the pool. */
  lemma {:induction false} RowsFromPool(ws: Workspace, s0: Store, pool: set<Delivery>, ds: seq<Delivery>, c: Uuid)
    requires RowsAllowed(s0.data) && From(ds, pool) && c in Run(ws, s0, ds).data.cards && c !in s0.data.cards
    ensures RowsAllowed(Run(ws, s0, ds).data)
    ensures exists d :: d in pool && d.event.entity == c
  {
    hide Step, RowAllowed;
    RunRows(ws, s0, ds);
    if ds != [] {
      var front, last := ds[..|ds| - 1], ds[|ds| - 1];
      assert last in ds;
      if c in Run(ws, s0, front).data.cards {
        RowsFromPool(ws, s0, pool, front, c);
      } else {
        RunRows(ws, s0, front);
        StepRows(ws, Run(ws, s0, front), last);
      }
    }
  }

  lemma {:induction false} RunRows(ws: Workspace, s: Store, ds: seq<Delivery>)
    requires RowsAllowed(s.data)
    ensures RowsAllowed(Run(ws, s, ds).data) && RowsKept(s.data, Run(ws, s, ds).data)
  {
    hide Step, RowsAllowed;
    if ds != [] {
      RunRows(ws, s, ds[..|ds| - 1]);
      StepRows(ws, Run(ws, s, ds[..|ds| - 1]), ds[|ds| - 1]);
    }
  }

  /** Where no card that is gone has a row, a row that is new is one that was sure to come. */
  lemma NewRowComes(ws: Workspace, s0: Store, pool: set<Delivery>, ds: seq<Delivery>, c: Uuid)
    requires Plain(ws, s0, pool) && From(ds, pool) && c in Run(ws, s0, ds).data.cards && c !in s0.data.cards
    requires Gone(ws, s0, pool) !! Run(ws, s0, ds).data.cards.Keys
    ensures Comes(ws, s0, pool, c, Run(ws, s0, ds).data.cards[c].board)
  {
    hide Run, PlainPut, PlainDelete, SeparateEntries, Authorized, Gone;
    var s := Run(ws, s0, ds);
    GoneIff(ws, s0, pool, c);
    assert !HasDelete(ws, s0, pool, c);
    RowsFromPool(ws, s0, pool, ds, c);
    var d :| d in pool && d.event.entity == c;
    PoolSound(ws, s0, pool, ds);
    assert Tracks(CardViewOf(s0.data, c), pool, c, s) && HomeBoard(s.data, d.event) && Ready(s0, pool, c);
    NotTombstoned(ws, s0, pool, s, c);
    RowHasPut(ws, s0, pool, s, c);
    var x :| x in Accepted(ws, s0, pool) && PutOn(x.event, c);
    assert HomeBoard(s.data, x.event);
  }

  lemma RowHasPut(ws: Workspace, s0: Store, pool: set<Delivery>, s: Store, c: Uuid)
    requires Sound(ws, s0, pool, s) && Tracks(CardViewOf(s0.data, c), pool, c, s) && Ready(s0, pool, c)
    requires c !in s0.data.cards && c in s.data.cards && c !in s.data.tombstones
    ensures exists x :: x in Accepted(ws, s0, pool) && PutOn(x.event, c)
  {
    hide Accepted, RowsAllowed, SeparateEntries, Cards.Puts, Cards.Came;
    var puts := AppliedWrites(s, pool, c);
    if puts == {} { Cards.CameEmpty(Cards.ABSENT, CardViewOf(s.data, c)); }
    var w :| w in puts;
    var d :| d in pool && PutOn(d.event, c) && IsApplied(s, d.event) && WriteFor(d.event) == w;
    assert HasAccepted(ws, s0, pool, d.event);
  }

  /** A parent in the table of such a state is found. */
  lemma InstalledFound(ws: Workspace, s0: Store, pool: set<Delivery>, ds: seq<Delivery>, e: Event)
    requires Plain(ws, s0, pool) && From(ds, pool) && PutOn(e, e.entity)
    requires Gone(ws, s0, pool) !! Run(ws, s0, ds).data.cards.Keys
    requires ParentInstalled(Run(ws, s0, ds).data.cards, e.board, e.entity, WriteFor(e).values)
    ensures Found(ws, s0, pool, e)
  {
    hide Run, PlainPut, PlainDelete, SeparateEntries, Authorized, Gone, WriteFor, Comes;
    if !ParentInstalled(s0.data.cards, e.board, e.entity, WriteFor(e).values) {
      var p := WriteFor(e).values.parent.value;
      RunRows(ws, s0, ds);
      NewRowComes(ws, s0, pool, ds, p);
    }
  }

  // The order in which rows appear.

  lemma {:induction false} PrefixRows(ws: Workspace, s: Store, ds: seq<Delivery>, k: nat, c: Uuid)
    requires RowsAllowed(s.data) && k <= |ds| && c in Run(ws, s, ds[..k]).data.cards
    ensures c in Run(ws, s, ds).data.cards
    decreases |ds|
  {
    hide Step, RowsAllowed;
    if k == |ds| {
      assert ds[..k] == ds;
    } else {
      var front := ds[..|ds| - 1];
      assert front[..k] == ds[..k];
      PrefixRows(ws, s, front, k, c);
      RunRows(ws, s, front);
      StepRows(ws, Run(ws, s, front), ds[|ds| - 1]);
    }
  }

  lemma {:induction false} MadeBefore(ws: Workspace, s: Store, ds: seq<Delivery>, k: nat, c: Uuid)
    requires RowsAllowed(s.data) && k <= |ds| && c in Run(ws, s, ds[..k]).data.cards
    ensures MadeAt(ws, s, ds, c) <= k
    decreases |ds|
  {
    hide Step, RowsAllowed;
    if k < |ds| {
      var front := ds[..|ds| - 1];
      assert front[..k] == ds[..k];
      PrefixRows(ws, s, front, k, c);
      MadeBefore(ws, s, front, k, c);
    }
  }

  lemma {:induction false} MadeHere(ws: Workspace, s: Store, ds: seq<Delivery>, c: Uuid)
    requires c in Run(ws, s, ds).data.cards && c !in s.data.cards
    ensures var n := MadeAt(ws, s, ds, c);
      0 < n <= |ds| && c !in Run(ws, s, ds[..n - 1]).data.cards
      && c in Step(ws, Run(ws, s, ds[..n - 1]), ds[n - 1]).0.data.cards
    decreases |ds|
  {
    hide Step;
    var front := ds[..|ds| - 1];
    if c in Run(ws, s, front).data.cards {
      MadeHere(ws, s, front, c);
      var n := MadeAt(ws, s, front, c);
      assert front[..n - 1] == ds[..n - 1];
    }
  }

  /** What makes a row is a put whose parent is in the table. */
  lemma MadeByPut(ws: Workspace, s: Store, d: Delivery, c: Uuid)
    requires c !in s.data.cards && c in Step(ws, s, d).0.data.cards
    ensures PutOn(d.event, c) && Processed(Step(ws, s, d).0.ledger, d.event.id)
    ensures ParentInstalled(s.data.cards, d.event.board, c, WriteFor(d.event).values)
  {
    hide Step, CheckPut, CardStampsOf, StampCard, WriteFor;
    var e := d.event;
    StepApplies(ws, s, d);
    assert Cards.Title in Cards.CardFields();
    if e.operation.CardPut? {
      if e.operation.delta.Some? { ApplyDeltaFrame(s.data, e, e.operation.delta.value); }
      else { PutCardStores(s.data, e, e.operation.card.value, WriteFor(e)); }
    }
  }

  /** A run in which the cards that are gone never get a row. */
  ghost predicate WithoutGone(ws: Workspace, s0: Store, pool: set<Delivery>, ds: seq<Delivery>) {
    Plain(ws, s0, pool) && From(ds, pool) && Gone(ws, s0, pool) !! Run(ws, s0, ds).data.cards.Keys
  }

  lemma PrefixWithoutGone(ws: Workspace, s0: Store, pool: set<Delivery>, ds: seq<Delivery>, k: nat)
    requires WithoutGone(ws, s0, pool, ds) && k <= |ds|
    ensures WithoutGone(ws, s0, pool, ds[..k])
  {
    hide Run, Gone, RowsAllowed, PlainPut, PlainDelete, SeparateEntries;
    forall c | c in Run(ws, s0, ds[..k]).data.cards ensures c !in Gone(ws, s0, pool) {
      PrefixRows(ws, s0, ds, k, c);
    }
  }

  /** Ranked by when their rows appeared, new cards are made by puts that wait for lower ranks only. */
  lemma RunSeeds(ws: Workspace, s0: Store, pool: set<Delivery>, ds: seq<Delivery>, c: Uuid)
    requires WithoutGone(ws, s0, pool, ds) && c in Run(ws, s0, ds).data.cards && c !in s0.data.cards
    ensures Seeded(ws, s0, pool, MadeOrder(ws, s0, ds), c)
  {
    hide Run, Step, Plain, Gone, WriteFor, Comes, RowsAllowed, Authorized, Seeds;
    var n := MadeAt(ws, s0, ds, c);
    MadeHere(ws, s0, ds, c);
    var before, d := ds[..n - 1], ds[n - 1];
    assert d in ds;
    MadeByPut(ws, Run(ws, s0, before), d, c);
    var x := AcceptedTwin(ws, s0, pool, before, d);
    PrefixWithoutGone(ws, s0, pool, ds, n - 1);
    MadeSeeds(ws, s0, pool, ds, n, x.event);
  }

  lemma AcceptedTwin(ws: Workspace, s0: Store, pool: set<Delivery>, before: seq<Delivery>, d: Delivery)
    returns (x: Delivery)
    requires Plain(ws, s0, pool) && From(before, pool) && d in pool
    requires Processed(Step(ws, Run(ws, s0, before), d).0.ledger, d.event.id)
    ensures x in Accepted(ws, s0, pool) && x.event == d.event
  {
    hide Run, Step, Plain, RowsAllowed, SeparateEntries, Tracks, HomeBoard, Accepted;
    RunAround(ws, s0, before, d, []);
    assert before + [d] + [] == before + [d];
    EmptyRun(ws, Step(ws, Run(ws, s0, before), d).0);
    PoolSound(ws, s0, pool, before + [d]);
    assert HasAccepted(ws, s0, pool, d.event);
    x :| x in Accepted(ws, s0, pool) && x.event == d.event;
  }

  lemma MadeSeeds(ws: Workspace, s0: Store, pool: set<Delivery>, ds: seq<Delivery>, n: nat, e: Event)
    requires 0 < n <= |ds| && WithoutGone(ws, s0, pool, ds) && WithoutGone(ws, s0, pool, ds[..n - 1])
    requires PutOn(e, e.entity)
    requires e.entity in Run(ws, s0, ds).data.cards && MadeAt(ws, s0, ds, e.entity) == n
    requires ParentInstalled(Run(ws, s0, ds[..n - 1]).data.cards, e.board, e.entity, WriteFor(e).values)
    ensures Seeds(ws, s0, pool, MadeOrder(ws, s0, ds), e)
  {
    hide Run, Gone, WriteFor, Comes, RowAllowed, PlainPut, PlainDelete, SeparateEntries;
    if !ParentInstalled(s0.data.cards, e.board, e.entity, WriteFor(e).values) {
      var p := WriteFor(e).values.parent.value;
      RunRows(ws, s0, ds[..n - 1]);
      NewRowComes(ws, s0, pool, ds[..n - 1], p);
      PrefixRows(ws, s0, ds, n - 1, p);
      MadeBefore(ws, s0, ds, n - 1, p);
    }
  }

  // Where a card ends up.

  /** Everything accepted was processed, and the cards that are gone have no row. */
  ghost predicate Finished(ws: Workspace, s0: Store, pool: set<Delivery>, ds: seq<Delivery>) {
    WithoutGone(ws, s0, pool, ds) && AllDelivered(ws, s0, pool, Run(ws, s0, ds))
  }

  lemma EndView(ws: Workspace, s0: Store, pool: set<Delivery>, ds: seq<Delivery>, d: Delivery)
    requires Finished(ws, s0, pool, ds) && Surviving(ws, s0, pool, d)
    ensures var c, t := d.event.entity, Run(ws, s0, ds);
      Cards.Came(CardViewOf(s0.data, c), Asked(ws, s0, pool, c), CardViewOf(t.data, c))
      && c !in t.data.tombstones && c in t.data.cards && t.data.cards[c].board == d.event.board
      && ParentInstalled(t.data.cards, d.event.board, c, t.data.cards[c].values)
      && Cards.DistinctStamps(Asked(ws, s0, pool, c)) && WriteFor(d.event) in Asked(ws, s0, pool, c)
  {
    hide Run, PlainPut, PlainDelete, SeparateEntries, Authorized, Gone, Cards.Came, WriteFor, CardViewOf;
    var c, t := d.event.entity, Run(ws, s0, ds);
    PoolSound(ws, s0, pool, ds);
    PutLeavesRow(ws, s0, pool, t, d);
    assert Tracks(CardViewOf(s0.data, c), pool, c, t);
    NotTombstoned(ws, s0, pool, t, c);
    EverythingApplied(ws, s0, pool, t, c);
    WritesDistinct(pool, c);
    assert RowAllowed(t.data.cards, t.data.cards[c].board, c, t.data.cards[c].values);
  }

  lemma LastMoveHolds(ws: Workspace, s0: Store, pool: set<Delivery>, ds: seq<Delivery>, d: Delivery)
    requires Finished(ws, s0, pool, ds) && Surviving(ws, s0, pool, d) && LastMove(ws, s0, pool, d.event)
    requires Cards.Determined(CardViewOf(s0.data, d.event.entity), Asked(ws, s0, pool, d.event.entity))
    ensures var cards := Run(ws, s0, ds).data.cards;
      d.event.entity in cards && cards[d.event.entity].values.parent == WriteFor(d.event).values.parent
  {
    hide Run, Finished, WriteFor, Cards.Came, Cards.Put, CardViewOf, Asked, ParentInstalled, Cards.Leads,
      Cards.Greatest, Cards.DistinctStamps, Cards.Full;
    var c, w := d.event.entity, WriteFor(d.event);
    var v0, v, all := CardViewOf(s0.data, c), CardViewOf(Run(ws, s0, ds).data, c), Asked(ws, s0, pool, c);
    EndView(ws, s0, pool, ds, d);
    RowParent(Run(ws, s0, ds), c);
    if Cards.Live(v0) {
      Cards.CameSettled(v0, all, v);
      LeaderParent(v0, all, v, w);
    } else {
      var g := Cards.CameWhole(all, v);
      OneGreatest(all, g, w);
      CreatedParent(g);
    }
  }

  lemma OneGreatest(s: set<Cards.CardWrite>, g: Cards.CardWrite, h: Cards.CardWrite)
    requires Cards.DistinctStamps(s) && Cards.Greatest(s, g) && Cards.Greatest(s, h)
    ensures g == h
  {
    assert g.stamp == h.stamp;
  }

  lemma CreatedParent(g: Cards.CardWrite)
    ensures Cards.Put(Cards.ABSENT, g).row.Some? && Cards.Put(Cards.ABSENT, g).row.value.values == g.values
  {}

  lemma LeaderParent(v0: Cards.CardView, all: set<Cards.CardWrite>, v: Cards.CardView, w: Cards.CardWrite)
    requires Cards.AllSettled(v0, all, v) && Cards.DistinctStamps(all)
    requires Cards.Leads(Cards.CellOf(v0, Cards.ParentCardId), all, Cards.ParentCardId, w)
    ensures v.row.value.values.parent == w.values.parent
  {
    var f := Cards.ParentCardId;
    var init := Cards.CellOf(v0, f);
    assert Cards.Settled(init, all, f, Cards.Cell(Some(w.stamp), Cards.Get(w.values, f)));
    assert Cards.Settled(init, all, f, Cards.CellOf(v, f));
    Cards.SettledUnique(init, all, f, Cards.CellOf(v, f), Cards.Cell(Some(w.stamp), Cards.Get(w.values, f)));
  }

  lemma FinishedParents(ws: Workspace, s0: Store, pool: set<Delivery>, ds: seq<Delivery>)
    requires Finished(ws, s0, pool, ds) && AllDetermined(ws, s0, pool)
    ensures ParentsCome(ws, s0, pool, MadeOrder(ws, s0, ds))
  {
    hide Run, Plain, Gone, AllDelivered, Accepted, WriteFor, LastMove, Found, Seeded, MadeOrder, Cards.Determined;
    forall d | Surviving(ws, s0, pool, d) ensures ParentComes(ws, s0, pool, MadeOrder(ws, s0, ds), d.event) {
      EndView(ws, s0, pool, ds, d);
      if d.event.entity !in s0.data.cards { RunSeeds(ws, s0, pool, ds, d.event.entity); }
      if LastMove(ws, s0, pool, d.event) {
        LastMoveHolds(ws, s0, pool, ds, d);
        InstalledFound(ws, s0, pool, ds, d.event);
      }
    }
  }

  // The main results.

  lemma {:induction false} PassesRun(ws: Workspace, s: Store, ps: seq<seq<Delivery>>, pool: set<Delivery>)
    returns (ds: seq<Delivery>)
    requires AllPasses(ps, pool)
    ensures From(ds, pool) && Passes(ws, s, ps) == Run(ws, s, ds)
  {
    hide Run;
    if ps == [] {
      ds := [];
      EmptyRun(ws, s);
    } else {
      var last := ps[|ps| - 1];
      assert Pass(last, pool);
      var front := PassesRun(ws, s, ps[..|ps| - 1], pool);
      RunSplit(ws, s, front, last);
      ds := front + last;
    }
  }

  /** Passes that list all accepted deletes first. */
  lemma DeletesFirst(ws: Workspace, s0: Store, pool: set<Delivery>, n: nat)
    returns (ps: seq<seq<Delivery>>, first: seq<Delivery>, rest: seq<Delivery>)
    requires n > 0
    ensures AllPasses(ps, pool) && |ps| == n && From(first, pool) && From(rest, pool)
    ensures forall d :: d in first <==> d in Deletes(ws, s0, pool)
    ensures Passes(ws, s0, ps) == Run(ws, s0, first + rest)
  {
    hide Run, Authorized;
    first := Cards.Enumerate(Deletes(ws, s0, pool));
    var all := Cards.Enumerate(pool);
    assert forall d :: d in first <==> d in Cards.Elements(first);
    assert forall d :: d in all <==> d in Cards.Elements(all);
    var pass := first + all;
    assert Pass(pass, pool);
    ps := seq(n, _ => pass);
    var more := seq(n - 1, _ => pass);
    assert ps == [pass] + more;
    assert AllPasses([pass], pool) && AllPasses(more, pool) && AllPasses(ps, pool);
    PassesSplit(ws, s0, [pass], more);
    assert Passes(ws, s0, [pass]) == Run(ws, s0, pass) by { OnePass(ws, s0, pass); }
    var later := PassesRun(ws, Run(ws, s0, pass), more, pool);
    RunSplit(ws, s0, pass, later);
    rest := all + later;
    assert pass + later == first + rest;
  }

  lemma OnePass(ws: Workspace, s: Store, pass: seq<Delivery>)
    ensures Passes(ws, s, [pass]) == Run(ws, s, pass)
  {
    assert [pass][..0] == [] && Passes(ws, s, []) == s;
  }

  /** Whatever the orders, enough passes deliver everything. */
  ghost predicate AlwaysDelivered(ws: Workspace, s0: Store, pool: set<Delivery>) {
    forall ps :: AllPasses(ps, pool) && |ps| >= 2 * |pool| ==> AllDelivered(ws, s0, pool, Passes(ws, s0, ps))
  }

  lemma AlwaysNeeds(ws: Workspace, s0: Store, pool: set<Delivery>) returns (rank: map<Uuid, nat>)
    requires Plain(ws, s0, pool) && AllDetermined(ws, s0, pool) && DeletesAct(ws, s0, pool)
    requires AlwaysDelivered(ws, s0, pool)
    ensures AllDatesEndOrdered(ws, s0, pool) && ParentsCome(ws, s0, pool, rank)
  {
    hide Run, Passes, Plain, AllDetermined, DeletesAct, AllDelivered, AllPasses, Gone, Deletes, DatesEndOrdered,
      ParentsCome;
    var ps, first, rest := DeletesFirst(ws, s0, pool, 2 * |pool| + 1);
    var ds := first + rest;
    GoneWait(ws, s0, pool, first);
    RunSplit(ws, s0, first, rest);
    WaitingNeverComes(ws, Run(ws, s0, first), pool, rest, Gone(ws, s0, pool));
    assert Finished(ws, s0, pool, ds);
    PoolSound(ws, s0, pool, ds);
    forall c ensures DatesEndOrdered(ws, s0, pool, c) {
      DatesNecessary(ws, s0, pool, Run(ws, s0, ds), c);
    }
    FinishedParents(ws, s0, pool, ds);
    rank := MadeOrder(ws, s0, ds);
  }

  /** Every sequence of enough passes, in any orders, gets every accepted event processed if and
      only if the merged dates of every card that survives are in order, and every card that no
      accepted delete removes is made without waiting for itself and ends under a parent that is
      sure to come: one that is there from the start, or that the pool makes and does not delete. */
  lemma DeliveredIff(ws: Workspace, s0: Store, pool: set<Delivery>)
    requires Plain(ws, s0, pool) && AllDetermined(ws, s0, pool) && MovesApart(ws, s0, pool) && DeletesAct(ws, s0, pool)
    ensures AlwaysDelivered(ws, s0, pool) <==>
      AllDatesEndOrdered(ws, s0, pool) && exists rank :: ParentsCome(ws, s0, pool, rank)
  {
    hide Plain, AllDetermined, MovesApart, DeletesAct, AllDatesEndOrdered, ParentsCome, Passes, AllPasses, AllDelivered;
    if AlwaysDelivered(ws, s0, pool) {
      var rank := AlwaysNeeds(ws, s0, pool);
    }
    if rank :| AllDatesEndOrdered(ws, s0, pool) && ParentsCome(ws, s0, pool, rank) {
      forall ps | AllPasses(ps, pool) && |ps| >= 2 * |pool| ensures AllDelivered(ws, s0, pool, Passes(ws, s0, ps)) {
        PoolDelivered(ws, s0, pool, rank, ps);
      }
    }
  }

  /** Two nodes that start alike and keep pulling the same pool, each in its own orders,
      end with the same authorization table and the same visible cards. */
  lemma EventualConvergence(ws: Workspace, s0: Store, pool: set<Delivery>, rank: map<Uuid, nat>,
                            ps: seq<seq<Delivery>>, qs: seq<seq<Delivery>>, c: Uuid)
    requires Plain(ws, s0, pool) && AllPasses(ps, pool) && AllPasses(qs, pool)
    requires |ps| >= 2 * |pool| && |qs| >= 2 * |pool|
    requires Deliverable(ws, s0, pool, rank)
    requires exists d :: d in pool && d.event.entity == c
    ensures var a, b := Passes(ws, s0, ps), Passes(ws, s0, qs);
      Visible(a, c) == Visible(b, c) && a.auths == b.auths
  {
    var a, b := Passes(ws, s0, ps), Passes(ws, s0, qs);
    StartNothing(ws, s0, pool);
    AuthorizationFixpoint(ws, s0, pool, ps);
    AuthorizationFixpoint(ws, s0, pool, qs);
    PoolDelivered(ws, s0, pool, rank, ps);
    PoolDelivered(ws, s0, pool, rank, qs);
    PassesSound(ws, s0, pool, ps);
    PassesSound(ws, s0, pool, qs);
    var d :| d in pool && d.event.entity == c;
    SameDelivered(ws, s0, pool, a, b);
    assert Tracks(CardViewOf(s0.data, c), pool, c, a) && Tracks(CardViewOf(s0.data, c), pool, c, b);
    DecidedAtEnd(ws, s0, pool, a, c);
    TracksAgree(CardViewOf(s0.data, c), pool, c, a, b);
  }

  lemma DecidedAtEnd(ws: Workspace, s0: Store, pool: set<Delivery>, a: Store, c: Uuid)
    requires Plain(ws, s0, pool) && Sound(ws, s0, pool, a) && AllDelivered(ws, s0, pool, a)
    requires Tracks(CardViewOf(s0.data, c), pool, c, a) && AllDetermined(ws, s0, pool) && Ready(s0, pool, c)
    ensures Decided(CardViewOf(s0.data, c), a, pool, c)
  {
    hide PlainPut, PlainDelete, SeparateEntries, Authorized, RowsAllowed, Cards.Came, CardViewOf;
    if !DeleteApplied(a, pool, c) {
      assert c !in a.data.tombstones;
      NoAcceptedDelete(ws, s0, pool, a, c);
      EverythingApplied(ws, s0, pool, a, c);
      if d :| d in Accepted(ws, s0, pool) && PutOn(d.event, c) {
        assert Surviving(ws, s0, pool, d);
      } else {
        assert Asked(ws, s0, pool, c) == {};
      }
    }
  }

  lemma NoAcceptedDelete(ws: Workspace, s0: Store, pool: set<Delivery>, a: Store, c: Uuid)
    requires AllDelivered(ws, s0, pool, a) && Tracks(CardViewOf(s0.data, c), pool, c, a) && !DeleteApplied(a, pool, c)
    ensures !HasDelete(ws, s0, pool, c)
  {
    hide Authorized, CardViewOf;
    forall x | x in Accepted(ws, s0, pool) && DeleteOn(x.event, c) ensures IsApplied(a, x.event) {}
  }

  lemma SameDelivered(ws: Workspace, s0: Store, pool: set<Delivery>, a: Store, b: Store)
    requires Sound(ws, s0, pool, a) && Sound(ws, s0, pool, b)
    requires AllDelivered(ws, s0, pool, a) && AllDelivered(ws, s0, pool, b)
    ensures SameProcessed(a, b, pool)
  {
    forall d | d in pool ensures Processed(a.ledger, d.event.id) <==> Processed(b.ledger, d.event.id) {
      if HasAccepted(ws, s0, pool, d.event) {
        var x :| x in Accepted(ws, s0, pool) && x.event == d.event;
        assert Processed(a.ledger, x.event.id);
      }
    }
  }
}
