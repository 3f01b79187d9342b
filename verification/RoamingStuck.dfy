/**
 What can keep an event of a pool from ever being stored: parents that wait for each other
 or for a deleted card, dates that only one order allows, and ledger entries that are taken.
 Where the order of arrival decides this, two nodes end with different boards.
 */
module RoamingStuck {
  import opened Wrappers
  import opened Stamps
  import opened RoamingModel
  import opened RoamingConvergence
  import opened RoamingAuthorization
  import opened RoamingDelivery
  import Cards = CardMerge
  import Dates = CardDates

  // Parents that never come.

  predicate WaitsFor(e: Event, cards: set<Uuid>)
    requires PutOn(e, e.entity)
  {
    var parent := WriteFor(e).values.parent;
    parent.Some? && parent.value in cards && parent.value != e.entity
  }

  /** Cards without a row, each of which is tombstoned or gets only puts that name another of
      these cards as the parent. */
  ghost predicate Waiting(s: Store, pool: set<Delivery>, cards: set<Uuid>) {
    cards !! s.data.cards.Keys
    && forall d :: d in pool && PutOn(d.event, d.event.entity) && d.event.entity in cards
         ==> d.event.entity in s.data.tombstones || WaitsFor(d.event, cards)
  }

  /** Such cards never get a row, in any run. */
  lemma {:induction false} WaitingNeverComes(ws: Workspace, s: Store, pool: set<Delivery>, ds: seq<Delivery>,
                                             cards: set<Uuid>)
    requires From(ds, pool) && Waiting(s, pool, cards)
    ensures Waiting(Run(ws, s, ds), pool, cards)
  {
    hide Step, Waiting;
    if ds != [] {
      WaitingNeverComes(ws, s, pool, ds[..|ds| - 1], cards);
      WaitingStep(ws, Run(ws, s, ds[..|ds| - 1]), pool, ds[|ds| - 1], cards);
    }
  }

  lemma WaitingStep(ws: Workspace, s: Store, pool: set<Delivery>, d: Delivery, cards: set<Uuid>)
    requires d in pool && Waiting(s, pool, cards)
    ensures Waiting(Step(ws, s, d).0, pool, cards)
  {
    hide Step, WaitsFor;
    NoRowStep(ws, s, pool, d, cards);
    forall c | c in s.data.tombstones ensures c in Step(ws, s, d).0.data.tombstones {
      TombstoneStays(ws, s, d, c);
    }
  }

  lemma TombstoneStays(ws: Workspace, s: Store, d: Delivery, c: Uuid)
    requires c in s.data.tombstones
    ensures c in Step(ws, s, d).0.data.tombstones
  {
    hide Step, CardViewOf;
    var effect := StepEffect(ws, s, d, c);
  }

  lemma NoRowStep(ws: Workspace, s: Store, pool: set<Delivery>, d: Delivery, cards: set<Uuid>)
    requires d in pool && Waiting(s, pool, cards)
    ensures cards !! Step(ws, s, d).0.data.cards.Keys
  {
    hide Step, ApplyDelta, CheckDelta, CheckPut, PutCard, WriteFor, CardStampsOf, StampCard;
    var e := d.event;
    StepApplies(ws, s, d);
    if NewlyApplied(s, Step(ws, s, d).0, e) && e.operation.CardPut? {
      if e.operation.delta.Some? {
        ApplyDeltaFrame(s.data, e, e.operation.delta.value);
      } else {
        PutCardStores(s.data, e, e.operation.card.value, WriteFor(e));
        if e.entity in cards { WaitingRefused(s.data, e, cards); }
      }
    }
  }

  lemma WaitingRefused(data: Data, e: Event, cards: set<Uuid>)
    requires PutOn(e, e.entity) && e.entity in cards && cards !! data.cards.Keys && WaitsFor(e, cards)
    ensures PutCard(data, e, e.operation.card.value, WriteFor(e)).Failure?
  {
    hide WriteFor;
    assert Cards.Title in Cards.CardFields();
  }

  // A parent that is created and deleted.

  /** The three events of the split, which any node may see in any order. */
  ghost predicate ParentCase(ws: Workspace, s0: Store, p: Delivery, c: Delivery, x: Delivery) {
    && Plain(ws, s0, {p, c, x})
    && PutOn(p.event, p.event.entity) && WriteFor(p.event).values.parent.None?
    && PutOn(c.event, c.event.entity) && WriteFor(c.event).values.parent == Some(p.event.entity)
    && DeleteOn(x.event, p.event.entity) && c.event.entity != p.event.entity && c.event.board == p.event.board
    && p.event.entity !in s0.data.cards && c.event.entity !in s0.data.cards
    && Acts(ws, s0, p) && Acts(ws, s0, c) && Acts(ws, s0, x)
  }

  /** Two nodes pull the same three events: a put that makes a card, a put that makes another
      one under it, and a delete of the first. Where the delete comes last the second card is
      shown for ever; where it comes first that card never gets a row. */
  lemma DeletedParentSplit(ws: Workspace, s0: Store, p: Delivery, c: Delivery, x: Delivery, ds: seq<Delivery>,
                           es: seq<Delivery>)
    requires ParentCase(ws, s0, p, c, x) && From(ds, {p, c, x}) && From(es, {p, c, x})
    ensures Visible(Run(ws, s0, [p, c] + ds), c.event.entity).Some?
    ensures Visible(Run(ws, s0, [x] + es), c.event.entity).None?
  {
    hide *;
    ShownUnder(ws, s0, p, c, x, ds);
    NeverUnder(ws, s0, p, c, x, es);
  }

  lemma ShownUnder(ws: Workspace, s0: Store, p: Delivery, c: Delivery, x: Delivery, ds: seq<Delivery>)
    requires ParentCase(ws, s0, p, c, x) && From(ds, {p, c, x})
    ensures Visible(Run(ws, s0, [p, c] + ds), c.event.entity).Some?
  {
    hide Run, Step, Acts, Actor, PlainPut, PlainDelete, SeparateEntries, WriteFor, CheckPut, Takes, Tracks, CardViewOf;
    var pool, child := {p, c, x}, c.event.entity;
    ParentStored(ws, s0, p, c, x);
    OneStep(ws, s0, p);
    PoolSound(ws, s0, pool, [p]);
    SeedTakes(ws, s0, pool, Run(ws, s0, [p]), c);
    TakenApplied(ws, s0, pool, [p], c, ds);
    assert [p] + [c] + ds == [p, c] + ds;
    var t := Run(ws, s0, [p, c] + ds);
    assert Ready(s0, pool, child);
    RunTracks(ws, s0, pool, [p, c] + ds, child);
    VisibleIff(ws, s0, pool, [p, c] + ds, child);
    AppliedNow(s0, pool, t, c);
  }

  lemma AppliedNow(s0: Store, pool: set<Delivery>, t: Store, d: Delivery)
    requires d in pool && PutOn(d.event, d.event.entity) && Processed(t.ledger, d.event.id)
    requires Tracks(CardViewOf(s0.data, d.event.entity), pool, d.event.entity, t)
    requires forall x :: x in pool ==> !DeleteOn(x.event, d.event.entity)
    ensures WriteFor(d.event) in AppliedWrites(t, pool, d.event.entity)
    ensures !DeleteApplied(t, pool, d.event.entity)
  {
    hide WriteFor, CardViewOf, Cards.Came;
  }

  lemma OneStep(ws: Workspace, s: Store, d: Delivery)
    ensures Run(ws, s, [d]) == Step(ws, s, d).0
  {
    assert [d][..0] == [] && Run(ws, s, []) == s;
  }

  lemma ParentStored(ws: Workspace, s0: Store, p: Delivery, c: Delivery, x: Delivery)
    requires ParentCase(ws, s0, p, c, x)
    ensures var t := Step(ws, s0, p).0;
      c.event.entity !in t.data.cards
        && ParentInstalled(t.data.cards, c.event.board, c.event.entity, WriteFor(c.event).values)
  {
    hide Step, Actor, PlainPut, SeparateEntries, WriteFor, CheckPut, CardStampsOf, StampCard;
    var e := p.event;
    StartSound(ws, s0, {p, c, x});
    SeedTakes(ws, s0, {p, c, x}, s0, p);
    assert Ready(s0, {p, c, x}, e.entity);
    FirstStored(ws, s0, {p, c, x}, p);
  }

  lemma NeverUnder(ws: Workspace, s0: Store, p: Delivery, c: Delivery, x: Delivery, es: seq<Delivery>)
    requires ParentCase(ws, s0, p, c, x) && From(es, {p, c, x})
    ensures Visible(Run(ws, s0, [x] + es), c.event.entity).None?
  {
    hide Run, Step, Acts, Actor, PlainPut, PlainDelete, SeparateEntries, WriteFor, CheckPut, Takes, Tracks, CardViewOf;
    var pool := {p, c, x};
    OneStep(ws, s0, x);
    RunSplit(ws, s0, [x], es);
    ParentGone(ws, s0, p, c, x);
    WaitingNeverComes(ws, Run(ws, s0, [x]), pool, es, {p.event.entity, c.event.entity});
  }

  lemma ParentGone(ws: Workspace, s0: Store, p: Delivery, c: Delivery, x: Delivery)
    requires ParentCase(ws, s0, p, c, x)
    ensures Waiting(Run(ws, s0, [x]), {p, c, x}, {p.event.entity, c.event.entity})
  {
    hide Run, Step, Actor, PlainPut, PlainDelete, SeparateEntries, WriteFor, CheckPut, CardViewOf;
    var pool := {p, c, x};
    assert Run(ws, s0, []) == s0 by { EmptyRun(ws, s0); }
    StartSound(ws, s0, pool);
    TakenApplied(ws, s0, pool, [], x, []);
    assert [] + [x] + [] == [x];
    DeletedTombstone(ws, s0, pool, [x], x);
    OneStep(ws, s0, x);
    DeleteMakesNoRow(ws, s0, x);
  }

  lemma EmptyRun(ws: Workspace, s: Store)
    ensures Run(ws, s, []) == s
  {}

  lemma DeletedTombstone(ws: Workspace, s0: Store, pool: set<Delivery>, ds: seq<Delivery>, x: Delivery)
    requires Plain(ws, s0, pool) && From(ds, pool) && x in pool && DeleteOn(x.event, x.event.entity)
    requires Processed(Run(ws, s0, ds).ledger, x.event.id)
    ensures x.event.entity in Run(ws, s0, ds).data.tombstones
  {
    hide Run, PlainPut, PlainDelete, SeparateEntries, CardViewOf, Cards.Came;
    assert Ready(s0, pool, x.event.entity);
    RunTracks(ws, s0, pool, ds, x.event.entity);
  }

  lemma DeleteMakesNoRow(ws: Workspace, s: Store, x: Delivery)
    requires x.event.operation.CardDelete?
    ensures Step(ws, s, x).0.data.cards.Keys == s.data.cards.Keys
  {
    hide Step;
    StepApplies(ws, s, x);
  }

  predicate Acts(ws: Workspace, s: Store, d: Delivery) {
    d.event.workspace == ws.id && Actor(ws, s.auths, d).Success?
  }

  /** Who may act keeps being allowed to. */
  lemma ActsStays(ws: Workspace, s: Store, ds: seq<Delivery>, d: Delivery)
    requires Acts(ws, s, d)
    ensures Acts(ws, Run(ws, s, ds), d)
  {
    hide Run, Actor;
    var t := Run(ws, s, ds);
    ActorCases(ws, s.auths, d);
    ActorCases(ws, t.auths, d);
    RunKeepsKeys(ws, s, ds, AuthorOf(d));
    if OwnerGrant(ws, d) { RunKeepsKeys(ws, s, ds, RootOf(d)); }
  }

  lemma PoolSound(ws: Workspace, s0: Store, pool: set<Delivery>, ds: seq<Delivery>)
    requires Plain(ws, s0, pool) && From(ds, pool)
    ensures Sound(ws, s0, pool, Run(ws, s0, ds))
  {
    StartSound(ws, s0, pool);
    StartNothing(ws, s0, pool);
    assert Overlay(ws, s0.auths, {}) == s0.auths;
    RunSound(ws, s0, pool, s0, {}, ds);
  }

  /** A delivery that may act from the start and is taken when it comes is applied for good,
      unless its card is gone. */
  lemma TakenApplied(ws: Workspace, s0: Store, pool: set<Delivery>, before: seq<Delivery>, d: Delivery,
                     after: seq<Delivery>)
    requires Plain(ws, s0, pool) && From(before, pool) && d in pool && From(after, pool)
    requires Acts(ws, s0, d) && Takes(Run(ws, s0, before), d.event)
    ensures Processed(Run(ws, s0, before + [d] + after).ledger, d.event.id)
  {
    hide Run, Step, Plain, Sound, Takes, Acts;
    PoolSound(ws, s0, pool, before);
    ActsStays(ws, s0, before, d);
    ActingTaken(ws, s0, pool, Run(ws, s0, before), d);
    RunAround(ws, s0, before, d, after);
    ProcessedStays(ws, Step(ws, Run(ws, s0, before), d).0, after, d);
  }

  lemma ActingTaken(ws: Workspace, s0: Store, pool: set<Delivery>, s: Store, d: Delivery)
    requires Plain(ws, s0, pool) && d in pool && Sound(ws, s0, pool, s) && Acts(ws, s, d) && Takes(s, d.event)
    ensures Processed(Step(ws, s, d).0.ledger, d.event.id)
  {
    hide Step, Plain, Sound, Takes, Actor;
    TakenIsProcessed(ws, s0, pool, s, d);
  }

  lemma {:induction false} ProcessedStays(ws: Workspace, s: Store, ds: seq<Delivery>, d: Delivery)
    requires Processed(s.ledger, d.event.id)
    ensures Processed(Run(ws, s, ds).ledger, d.event.id)
  {
    hide Step;
    if ds != [] {
      ProcessedStays(ws, s, ds[..|ds| - 1], d);
      StepLedger(ws, Run(ws, s, ds[..|ds| - 1]), ds[|ds| - 1]);
    }
  }

  // Dates that one order allows.

  /** The card is live and has no dates; `a` sets only its start and `b` only its due date. */
  predicate DatesApart(data: Data, card: Uuid, a: Cards.CardWrite, b: Cards.CardWrite, start: int, due: int) {
    && card in data.cards && data.cards[card].deletedAt.None?
    && data.cards[card].values.startAt.None? && data.cards[card].values.dueAt.None?
    && a.mask == {Cards.StartAt} && a.values.startAt == Some(start) && b.mask == {Cards.DueAt}
       && b.values.dueAt == Some(due)
    && Beats(a.stamp, Lookup(data.stamps, Key(card, CardStamp(Cards.StartAt))))
    && Beats(b.stamp, Lookup(data.stamps, Key(card, CardStamp(Cards.DueAt))))
  }

  /** Why the dates matter: of two puts that each set one date of a card without dates, either
      is stored if it comes first, and then the other is stored exactly when the two are in
      order. Otherwise nodes that saw them in different orders keep different cards. */
  lemma SecondDateFitsIff(data: Data, card: Uuid, board: Uuid, a: Cards.CardWrite, b: Cards.CardWrite, start: int,
                          due: int)
    requires DatesApart(data, card, a, b, start, due) && data.cards[card].board == board
    requires ParentInstalled(data.cards, board, card, data.cards[card].values)
    ensures PutAllowed(data, card, board, a) && PutAllowed(data, card, board, b)
    ensures PutAllowed(StorePut(data, card, board, a), card, board, b) <==> start <= due
    ensures PutAllowed(StorePut(data, card, board, b), card, board, a) <==> start <= due
    ensures StorePut(data, card, board, a).cards != StorePut(data, card, board, b).cards
  {
    OneDatePut(data, card, board, a, Cards.StartAt);
    OneDatePut(data, card, board, b, Cards.DueAt);
    ThenOther(data, card, board, a, Cards.StartAt, b, Cards.DueAt);
    ThenOther(data, card, board, b, Cards.DueAt, a, Cards.StartAt);
    hide PutAllowed, StorePut;
  }

  lemma ThenOther(data: Data, card: Uuid, board: Uuid, w: Cards.CardWrite, f: Cards.CardField, u: Cards.CardWrite,
                  g: Cards.CardField)
    requires card in data.cards && data.cards[card].board == board && data.cards[card].deletedAt.None?
    requires w.mask == {f} && u.mask == {g} && f != g && f != Cards.ParentCardId && g != Cards.ParentCardId
    requires Beats(w.stamp, Lookup(data.stamps, Key(card, CardStamp(f))))
    requires Beats(u.stamp, Lookup(data.stamps, Key(card, CardStamp(g))))
    requires ParentInstalled(data.cards, board, card, data.cards[card].values)
    ensures PutAllowed(StorePut(data, card, board, w), card, board, u) <==>
      Dates.DatesOrdered(Cards.Overwrite(Cards.Overwrite(data.cards[card].values, w.values, {f}), u.values, {g}))
  {
    hide PutAllowed, StorePut, Dates.DatesOrdered;
    OneDatePut(data, card, board, w, f);
    StorePutStamps(data, card, board, w, g);
    OneDatePut(StorePut(data, card, board, w), card, board, u, g);
  }

  /** A put of one field that wins writes that field of the row. */
  lemma OneDatePut(data: Data, card: Uuid, board: Uuid, w: Cards.CardWrite, f: Cards.CardField)
    requires card in data.cards && data.cards[card].deletedAt.None? && w.mask == {f}
    requires Beats(w.stamp, Lookup(data.stamps, Key(card, CardStamp(f))))
    ensures var v := Cards.Overwrite(data.cards[card].values, w.values, {f});
      (PutAllowed(data, card, board, w) <==> RowAllowed(data.cards, board, card, v))
      && StorePut(data, card, board, w).cards == data.cards[card := CardRow(board, v, None)]
      && StorePut(data, card, board, w).tombstones == data.tombstones
  {
    CardStampAt(data.stamps, card, f);
    assert Cards.Winning(CardViewOf(data, card), w) == {f};
  }

  lemma StorePutStamps(data: Data, card: Uuid, board: Uuid, w: Cards.CardWrite, other: Cards.CardField)
    requires card in data.cards && other !in w.mask
    ensures var k := Key(card, CardStamp(other));
      Lookup(StorePut(data, card, board, w).stamps, k) == Lookup(data.stamps, k)
  {
    StampCardAt(data.stamps, card, Cards.Winning(CardViewOf(data, card), w), w.stamp, Key(card, CardStamp(other)));
  }

  /** The node took this put first, and the other one of the pool can never follow it. */
  ghost predicate Stuck(s: Store, kept: Data, first: Delivery, other: Delivery) {
    s.data == kept && Processed(s.ledger, first.event.id)
    && PutOn(other.event, other.event.entity) && !IsApplied(s, other.event)
    && !PutAllowed(kept, other.event.entity, other.event.board, WriteFor(other.event))
  }

  lemma {:induction false} StaysStuck(ws: Workspace, s: Store, kept: Data, first: Delivery, other: Delivery,
                                      ds: seq<Delivery>)
    requires Stuck(s, kept, first, other) && From(ds, {first, other}) && first.event.id != other.event.id
    ensures Stuck(Run(ws, s, ds), kept, first, other)
  {
    hide Step, PutAllowed, IsApplied;
    if ds != [] {
      var front, d := ds[..|ds| - 1], ds[|ds| - 1];
      StaysStuck(ws, s, kept, first, other, front);
      StepLedger(ws, Run(ws, s, front), d);
      StepApplies(ws, Run(ws, s, front), d);
      assert d in ds;
      OtherRefused(ws, Run(ws, s, front), kept, first, other);
    }
  }

  lemma OtherRefused(ws: Workspace, s: Store, kept: Data, first: Delivery, other: Delivery)
    requires Stuck(s, kept, first, other) && first.event.id != other.event.id
    ensures Stuck(Step(ws, s, other).0, kept, first, other)
  {
    hide Step, PutAllowed;
    StepLedger(ws, s, other);
    StepApplies(ws, s, other);
  }

  /** A put that may act and that the table takes is stored as it is. */
  lemma FirstStored(ws: Workspace, s0: Store, pool: set<Delivery>, d: Delivery)
    requires Plain(ws, s0, pool) && d in pool && PutOn(d.event, d.event.entity)
    requires d.event.workspace == ws.id && Actor(ws, s0.auths, d).Success?
    requires PutAllowed(s0.data, d.event.entity, d.event.board, WriteFor(d.event))
    ensures var t := Step(ws, s0, d).0;
      Processed(t.ledger, d.event.id) && t.data == StorePut(s0.data, d.event.entity, d.event.board, WriteFor(d.event))
  {
    hide Step, Actor, PutAllowed, StorePut, CheckPut;
    var c, t := d.event.entity, Step(ws, s0, d).0;
    assert Ready(s0, pool, c) && PlainPut(ws, d.event);
    StartSound(ws, s0, pool);
    TakenIsProcessed(ws, s0, pool, s0, d);
    StepStatus(ws, s0, d, c);
    StepApplies(ws, s0, d);
  }

  lemma OneFirst(ws: Workspace, s0: Store, first: Delivery, other: Delivery, ds: seq<Delivery>)
    requires Plain(ws, s0, {first, other}) && first.event.id != other.event.id && From(ds, {first, other})
    requires PutOn(first.event, first.event.entity) && PutOn(other.event, other.event.entity)
    requires first.event.workspace == ws.id && Actor(ws, s0.auths, first).Success?
    requires PutAllowed(s0.data, first.event.entity, first.event.board, WriteFor(first.event))
    requires !PutAllowed(StorePut(s0.data, first.event.entity, first.event.board, WriteFor(first.event)),
      other.event.entity, other.event.board, WriteFor(other.event))
    ensures Run(ws, s0, [first] + ds).data ==
      StorePut(s0.data, first.event.entity, first.event.board, WriteFor(first.event))
  {
    hide Step, Actor, PutAllowed, StorePut, Plain;
    FirstStored(ws, s0, {first, other}, first);
    StepLedger(ws, s0, first);
    assert Unprocessed(s0, other) by { StartNothing(ws, s0, {first, other}); }
    RunSplit(ws, s0, [first], ds);
    assert [first][..0] == [] && Run(ws, s0, []) == s0;
    assert Run(ws, s0, [first]) == Step(ws, s0, first).0;
    StaysStuck(ws, Step(ws, s0, first).0,
      StorePut(s0.data, first.event.entity, first.event.board, WriteFor(first.event)), first, other, ds);
  }

  /** Two nodes start alike and pull the same two puts, a start date later than the due date.
      Whatever each receives after its first one, and however often, they show different cards. */
  lemma UnorderedDatesSplit(ws: Workspace, s0: Store, a: Delivery, b: Delivery, start: int, due: int,
                            ds: seq<Delivery>, es: seq<Delivery>)
    requires Plain(ws, s0, {a, b}) && From(ds, {a, b}) && From(es, {a, b})
    requires PutOn(a.event, a.event.entity) && PutOn(b.event, a.event.entity)
    requires a.event.workspace == ws.id && Actor(ws, s0.auths, a).Success?
    requires b.event.workspace == ws.id && Actor(ws, s0.auths, b).Success?
    requires DatesApart(s0.data, a.event.entity, WriteFor(a.event), WriteFor(b.event), start, due) && start > due
    ensures var c, s, t := a.event.entity, Run(ws, s0, [a] + ds), Run(ws, s0, [b] + es);
      Visible(s, c).Some? && Visible(s, c).value.startAt == Some(start) && Visible(s, c).value.dueAt.None?
      && Visible(t, c).Some? && Visible(t, c).value.dueAt == Some(due) && Visible(t, c).value.startAt.None?
  {
    hide Run, Actor, PutAllowed, StorePut, PlainPut, PlainDelete, SeparateEntries, WriteFor, From;
    var c, board, w, u := a.event.entity, a.event.board, WriteFor(a.event), WriteFor(b.event);
    assert Ready(s0, {a, b}, c) && HomeBoard(s0.data, a.event) && b.event.board == board;
    assert RowAllowed(s0.data.cards, board, c, s0.data.cards[c].values);
    assert a.event.id != b.event.id;
    SecondDateFitsIff(s0.data, c, board, w, u, start, due);
    OneDatePut(s0.data, c, board, w, Cards.StartAt);
    OneDatePut(s0.data, c, board, u, Cards.DueAt);
    assert {a, b} == {b, a};
    OneFirst(ws, s0, a, b, ds);
    OneFirst(ws, s0, b, a, es);
  }

  // A move and a date in one put.

  /** A live card with a due date, and two puts on it. The newer one sets a start after that due
      date and takes the card out from under any parent; the older one sets a later due date and
      moves the card under one that nobody has. */
  ghost predicate MixedCase(ws: Workspace, s0: Store, l: Delivery, m: Delivery) {
    && Plain(ws, s0, {l, m}) && Acts(ws, s0, l) && Acts(ws, s0, m)
    && PutOn(l.event, l.event.entity) && PutOn(m.event, l.event.entity) && l.event.entity in s0.data.cards
    && DueBeforeStart(s0.data.cards[l.event.entity].values, WriteFor(l.event).values, WriteFor(m.event).values)
    && WriteFor(l.event).mask == {Cards.ParentCardId, Cards.StartAt}
    && WriteFor(m.event).mask == {Cards.ParentCardId, Cards.DueAt}
    && WriteFor(l.event).values.parent.None?
    && WriteFor(m.event).values.parent.Some? && WriteFor(m.event).values.parent.value !in s0.data.cards
    && Newer(StampOf(l.event), StampOf(m.event))
    && forall f: Cards.CardField :: Beats(StampOf(m.event), Lookup(s0.data.stamps, Key(l.event.entity, CardStamp(f))))
  }

  predicate DueBeforeStart(row: Cards.CardValues, l: Cards.CardValues, m: Cards.CardValues) {
    row.dueAt.Some? && l.startAt.Some? && m.dueAt.Some? && row.dueAt.value < l.startAt.value <= m.dueAt.value
  }

  /** Neither of them is ever stored, though the merged dates are in order and the card would end
      without a parent: the dates ask for one first, the parents for the other. */
  lemma MixedMovesBlock(ws: Workspace, s0: Store, l: Delivery, m: Delivery, ds: seq<Delivery>)
    requires MixedCase(ws, s0, l, m) && From(ds, {l, m})
    ensures Run(ws, s0, ds).data == s0.data
    ensures !Processed(Run(ws, s0, ds).ledger, l.event.id) && !Processed(Run(ws, s0, ds).ledger, m.event.id)
    ensures AllDatesEndOrdered(ws, s0, {l, m}) && ParentsCome(ws, s0, {l, m}, map[])
  {
    hide *;
    BothRefused(ws, s0, l, m, ds);
    MixedAccepted(ws, s0, l, m);
    MixedDates(ws, s0, l, m);
    MixedParents(ws, s0, l, m);
  }

  lemma {:induction false} BothRefused(ws: Workspace, s0: Store, l: Delivery, m: Delivery, ds: seq<Delivery>)
    requires MixedCase(ws, s0, l, m) && From(ds, {l, m})
    ensures var t := Run(ws, s0, ds);
      t.data == s0.data && !Processed(t.ledger, l.event.id) && !Processed(t.ledger, m.event.id)
  {
    hide Step, PutOn, WriteFor, Actor, PlainPut, SeparateEntries, DueBeforeStart;
    if ds == [] {
      StartNothing(ws, s0, {l, m});
      assert !Processed(s0.ledger, l.event.id) && !Processed(s0.ledger, m.event.id);
    } else {
      var front, d := ds[..|ds| - 1], ds[|ds| - 1];
      assert d in ds;
      BothRefused(ws, s0, l, m, front);
      RefusedStep(ws, s0, Run(ws, s0, front), l, m, d);
    }
  }

  lemma RefusedStep(ws: Workspace, s0: Store, s: Store, l: Delivery, m: Delivery, d: Delivery)
    requires MixedCase(ws, s0, l, m) && (d == l || d == m) && s.data == s0.data
    requires !Processed(s.ledger, l.event.id) && !Processed(s.ledger, m.event.id)
    ensures var t := Step(ws, s, d).0;
      t.data == s0.data && !Processed(t.ledger, l.event.id) && !Processed(t.ledger, m.event.id)
  {
    hide Step, Actor, PlainPut, SeparateEntries, PutAllowed, WriteFor;
    StepLedger(ws, s, d);
    StepApplies(ws, s, d);
    assert Ready(s0, {l, m}, l.event.entity);
    StepStatus(ws, s, d, l.event.entity);
    MixedRefused(ws, s0, l, m);
    assert l.event.id != m.event.id;
  }

  lemma MixedRefused(ws: Workspace, s0: Store, l: Delivery, m: Delivery)
    requires MixedCase(ws, s0, l, m)
    ensures !PutAllowed(s0.data, l.event.entity, l.event.board, WriteFor(l.event))
    ensures !PutAllowed(s0.data, m.event.entity, m.event.board, WriteFor(m.event))
  {
    hide PlainPut, SeparateEntries, Acts, Written, Requested, WriteFor;
    var c := l.event.entity;
    assert Ready(s0, {l, m}, c) && HomeBoard(s0.data, m.event);
    StampsOfWrites(l.event, m.event);
    WinsAll(s0.data, c, WriteFor(l.event));
    WinsAll(s0.data, c, WriteFor(m.event));
  }

  lemma StampsOfWrites(a: Event, b: Event)
    requires PutOn(a, a.entity) && PutOn(b, b.entity)
    ensures WriteFor(a).stamp == StampOf(a) && WriteFor(b).stamp == StampOf(b)
  {}

  lemma WinsAll(data: Data, c: Uuid, w: Cards.CardWrite)
    requires c in data.cards
    requires forall f: Cards.CardField :: Beats(w.stamp, Lookup(data.stamps, Key(c, CardStamp(f))))
    ensures Cards.Winning(CardViewOf(data, c), w) == w.mask
  {
    forall f: Cards.CardField ensures Beats(w.stamp, Lookup(CardViewOf(data, c).stamps, f)) {
      CardStampAt(data.stamps, c, f);
    }
  }

  lemma MixedAccepted(ws: Workspace, s0: Store, l: Delivery, m: Delivery)
    requires MixedCase(ws, s0, l, m)
    ensures Accepted(ws, s0, {l, m}) == {l, m}
    ensures Asked(ws, s0, {l, m}, l.event.entity) == {WriteFor(l.event), WriteFor(m.event)}
  {
    hide PlainPut, SeparateEntries, WriteFor, Actor, Authorized;
    ActsAccepted(ws, s0, {l, m}, l);
    ActsAccepted(ws, s0, {l, m}, m);
  }

  lemma ActsAccepted(ws: Workspace, s0: Store, pool: set<Delivery>, d: Delivery)
    requires Plain(ws, s0, pool) && d in pool && Acts(ws, s0, d)
    ensures d in Accepted(ws, s0, pool)
  {
    hide Actor;
    StartNothing(ws, s0, pool);
    assert Overlay(ws, s0.auths, {}) == s0.auths;
    AcceptedIsAuthorized(ws, s0.auths, pool, s0, {}, d);
  }

  lemma MixedDates(ws: Workspace, s0: Store, l: Delivery, m: Delivery)
    requires MixedCase(ws, s0, l, m)
    requires Accepted(ws, s0, {l, m}) == {l, m}
    requires Asked(ws, s0, {l, m}, l.event.entity) == {WriteFor(l.event), WriteFor(m.event)}
    ensures AllDatesEndOrdered(ws, s0, {l, m})
  {
    hide Plain, PutOn, WriteFor, Accepted, Acts, CardViewOf, Dates.FinalDates, Newer, Beats;
    var c, pool := l.event.entity, {l, m};
    MixedFinal(ws, s0, l, m);
    forall x ensures DatesEndOrdered(ws, s0, pool, x) {
      if x != c && Cards.Live(CardViewOf(s0.data, x)) { OtherDates(ws, s0, l, m, x); }
    }
  }

  lemma OtherDates(ws: Workspace, s0: Store, l: Delivery, m: Delivery, x: Uuid)
    requires MixedCase(ws, s0, l, m) && x != l.event.entity && Cards.Live(CardViewOf(s0.data, x))
    ensures Dates.FinalDates(CardViewOf(s0.data, x), Asked(ws, s0, {l, m}, x))
  {
    hide WriteFor, Acts, PlainPut, SeparateEntries, Dates.FinalDates, CardViewOf;
    UntouchedDates(ws, s0, {l, m}, x);
  }

  lemma MixedFinal(ws: Workspace, s0: Store, l: Delivery, m: Delivery)
    requires MixedCase(ws, s0, l, m)
    ensures Dates.FinalDates(CardViewOf(s0.data, l.event.entity), {WriteFor(l.event), WriteFor(m.event)})
  {
    hide Plain, Acts, WriteFor, CardViewOf, Cards.Settled, Dates.DatesOrdered, Beats, Newer;
    forall v | Cards.AllSettled(CardViewOf(s0.data, l.event.entity), {WriteFor(l.event), WriteFor(m.event)}, v)
      ensures Dates.DatesOrdered(v.row.value.values)
    {
      MixedSettled(ws, s0, l, m, v);
    }
  }

  lemma MixedSettled(ws: Workspace, s0: Store, l: Delivery, m: Delivery, v: Cards.CardView)
    requires MixedCase(ws, s0, l, m)
    requires Cards.AllSettled(CardViewOf(s0.data, l.event.entity), {WriteFor(l.event), WriteFor(m.event)}, v)
    ensures Dates.DatesOrdered(v.row.value.values)
  {
    hide Plain, Acts, WriteFor;
    var c := l.event.entity;
    var v0, w, u := CardViewOf(s0.data, c), WriteFor(l.event), WriteFor(m.event);
    StampsOfWrites(l.event, m.event);
    CardStampAt(s0.data.stamps, c, Cards.StartAt);
    CardStampAt(s0.data.stamps, c, Cards.DueAt);
    Dates.DatesFromCells(v);
    assert Cards.Contends(Cards.CellOf(v0, Cards.StartAt), {w, u}, Cards.StartAt, w);
    assert Cards.Contends(Cards.CellOf(v0, Cards.DueAt), {w, u}, Cards.DueAt, u);
    assert Cards.Settled(Cards.CellOf(v0, Cards.StartAt), {w, u}, Cards.StartAt, Cards.CellOf(v, Cards.StartAt));
    assert Cards.Settled(Cards.CellOf(v0, Cards.DueAt), {w, u}, Cards.DueAt, Cards.CellOf(v, Cards.DueAt));
  }

  lemma MixedParents(ws: Workspace, s0: Store, l: Delivery, m: Delivery)
    requires MixedCase(ws, s0, l, m)
    requires Asked(ws, s0, {l, m}, l.event.entity) == {WriteFor(l.event), WriteFor(m.event)}
    ensures ParentsCome(ws, s0, {l, m}, map[])
  {
    hide PlainPut, SeparateEntries, Acts, WriteFor, Asked, Seeded;
    var c, pool, f := l.event.entity, {l, m}, Cards.ParentCardId;
    var v0, w := CardViewOf(s0.data, c), WriteFor(l.event);
    assert Ready(s0, pool, c);
    StampsOfWrites(l.event, m.event);
    CardStampAt(s0.data.stamps, c, f);
    assert Cards.Contends(Cards.CellOf(v0, f), Asked(ws, s0, pool, c), f, w);
    forall d | Surviving(ws, s0, pool, d) ensures ParentComes(ws, s0, pool, map[], d.event) {
      assert d == l || d == m;
    }
  }

  // Entries and boards that are taken.

  /** Another event was recorded for good under the delivery's wrapper or in its replica slot. */
  ghost predicate SlotTaken(s: Store, d: Delivery) {
    exists k :: k != d.event.id && Processed(s.ledger, k)
      && (s.ledger[k].nostrId == d.nostrId
         || (s.ledger[k].replica, s.ledger[k].seqNo) == (d.event.replica, d.event.seqNo))
  }

  /** The first of two events in one slot keeps the second out for ever. */
  lemma {:induction false} SlotStaysTaken(ws: Workspace, s: Store, ds: seq<Delivery>, d: Delivery)
    requires SlotTaken(s, d) && !Processed(s.ledger, d.event.id)
    requires forall x :: x in ds && x.event.id == d.event.id ==> x == d
    ensures SlotTaken(Run(ws, s, ds), d) && !Processed(Run(ws, s, ds).ledger, d.event.id)
  {
    hide Step, SlotTaken;
    if ds != [] {
      var front, last := ds[..|ds| - 1], ds[|ds| - 1];
      SlotStaysTaken(ws, s, front, d);
      assert last in ds;
      SlotStep(ws, Run(ws, s, front), last, d);
    }
  }

  lemma SlotStep(ws: Workspace, s: Store, x: Delivery, d: Delivery)
    requires SlotTaken(s, d) && !Processed(s.ledger, d.event.id) && (x.event.id == d.event.id ==> x == d)
    ensures SlotTaken(Step(ws, s, x).0, d) && !Processed(Step(ws, s, x).0.ledger, d.event.id)
  {
    hide Step;
    var k :| k != d.event.id && Processed(s.ledger, k)
      && (s.ledger[k].nostrId == d.nostrId
         || (s.ledger[k].replica, s.ledger[k].seqNo) == (d.event.replica, d.event.seqNo));
    StepLedger(ws, s, x);
    if x == d { TakenRefuses(ws, s, d, k); }
    assert Processed(Step(ws, s, x).0.ledger, k);
  }

  lemma TakenRefuses(ws: Workspace, s: Store, d: Delivery, k: Uuid)
    requires k != d.event.id && Processed(s.ledger, k) && !Processed(s.ledger, d.event.id)
    requires s.ledger[k].nostrId == d.nostrId
      || (s.ledger[k].replica, s.ledger[k].seqNo) == (d.event.replica, d.event.seqNo)
    ensures !Processed(Step(ws, s, d).0.ledger, d.event.id)
  {
    hide Actor, PutAppearance, DeleteCard, CheckDelta, ApplyDelta, CheckPut, PutCard;
    assert k in s.ledger - {d.event.id};
  }

  /** The first board to get a card keeps it: a put of the card on another board is never applied. */
  lemma {:induction false} BoardStays(ws: Workspace, s: Store, ds: seq<Delivery>, d: Delivery)
    requires d.event.operation.CardPut? && d.event.operation.delta.None?
    requires d.event.entity in s.data.cards && s.data.cards[d.event.entity].board != d.event.board
    requires !IsApplied(s, d.event) && (forall x :: x in ds && x.event.id == d.event.id ==> x.event == d.event)
    ensures var t := Run(ws, s, ds);
      d.event.entity in t.data.cards && t.data.cards[d.event.entity].board == s.data.cards[d.event.entity].board
      && !IsApplied(t, d.event)
  {
    hide Step, IsApplied;
    if ds != [] {
      var front, last := ds[..|ds| - 1], ds[|ds| - 1];
      BoardStays(ws, s, front, d);
      assert last in ds;
      BoardStep(ws, Run(ws, s, front), last, d.event);
    }
  }

  lemma BoardStep(ws: Workspace, s: Store, x: Delivery, e: Event)
    requires e.operation.CardPut? && e.operation.delta.None? && (x.event.id == e.id ==> x.event == e)
    requires e.entity in s.data.cards && s.data.cards[e.entity].board != e.board && !IsApplied(s, e)
    ensures var t := Step(ws, s, x).0;
      e.entity in t.data.cards && t.data.cards[e.entity].board == s.data.cards[e.entity].board && !IsApplied(t, e)
  {
    hide Step, CheckPut, CardViewOf, StampCard, WriteFor;
    StepLedger(ws, s, x);
    StepApplies(ws, s, x);
    var t := Step(ws, s, x).0;
    if NewlyApplied(s, t, x.event) && x.event.operation.CardPut? {
      if x.event.operation.delta.Some? {
        ApplyDeltaFrame(s.data, x.event, x.event.operation.delta.value);
      } else {
        PutCardStores(s.data, x.event, x.event.operation.card.value, WriteFor(x.event));
      }
    }
  }
}
