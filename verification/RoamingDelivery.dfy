/**
 Eventual delivery. Refused events are tried again on the next pass, so after enough
 passes over a pool of card events every authorized one has been processed, if the
 finally merged dates of each card are in order and the parents it needs are sure to
 come. RoamingOutcome shows that this is needed as well, RoamingStuck what goes wrong.
 */
module RoamingDelivery {
  import opened Wrappers
  import opened Stamps
  import opened RoamingModel
  import opened RoamingConvergence
  import opened RoamingAuthorization
  import Cards = CardMerge
  import Dates = CardDates

  /** A put without bundle or delta that passes every check which does not depend on
      other puts. */
  predicate PlainPut(ws: Workspace, e: Event) {
    PutOn(e, e.entity) && e.entityType == CardEntity && e.operation.bundle.None?
    && CheckPut(ws, e, e.operation.card).Success? && WellRead(e.operation.card.value)
    && Dates.DatesOrdered(WriteFor(e).values)
  }

  predicate WellRead(p: CardPayload) {
    !p.parent.MalformedParent? && !p.startAt.MalformedTime? && !p.dueAt.MalformedTime?
  }

  predicate PlainDelete(e: Event) {
    DeleteOn(e, e.entity) && e.entityType == CardEntity && e.operation.deletedAt.Some?
  }

  ghost predicate SeparateEntries(ledger: Ledger, d: Delivery) {
    forall k :: k in ledger && k != d.event.id ==>
      ledger[k].nostrId != d.nostrId && (ledger[k].replica, ledger[k].seqNo) != (d.event.replica, d.event.seqNo)
  }

  /** A pool of card events fit for delivery, seen from the starting store. */
  ghost predicate Plain(ws: Workspace, s0: Store, pool: set<Delivery>) {
    && OneAuthor(pool)
    && (forall d :: d in pool ==> PlainPut(ws, d.event) || PlainDelete(d.event))
    && (forall d, x :: d in pool && x in pool && d.event.entity == x.event.entity ==> d.event.board == x.event.board)
    && (forall d, x :: d in pool && x in pool && d.event.id != x.event.id ==>
          d.nostrId != x.nostrId && (d.event.replica, d.event.seqNo) != (x.event.replica, x.event.seqNo))
    && (forall d :: d in pool ==> SeparateEntries(s0.ledger, d))
    && (forall d :: d in pool ==> Ready(s0, pool, d.event.entity) && HomeBoard(s0.data, d.event))
    && RowsAllowed(s0.data)
  }

  /** Every card row satisfies the table constraints. */
  ghost predicate RowsAllowed(data: Data) {
    forall c :: c in data.cards ==> RowAllowed(data.cards, data.cards[c].board, c, data.cards[c].values)
  }

  ghost predicate RowsKept(a: Data, b: Data) {
    forall c :: c in a.cards ==> c in b.cards && b.cards[c].board == a.cards[c].board
  }

  /** Every row of `b` has its board from `a`, except a row the event itself makes. */
  ghost predicate OnlyNewRow(a: Data, b: Data, e: Event) {
    forall c :: c in b.cards ==>
      (c in a.cards && b.cards[c].board == a.cards[c].board) || (c == e.entity && b.cards[c].board == e.board)
  }

  // Invariants of the tables.

  lemma PutCardRows(data: Data, e: Event, p: CardPayload, w: Cards.CardWrite)
    requires e.operation.CardPut? && PutCard(data, e, p, w).Success? && RowsAllowed(data)
    ensures var after := PutCard(data, e, p, w).value;
      RowsAllowed(after) && RowsKept(data, after) && OnlyNewRow(data, after, e)
  {
    PutCardStores(data, e, p, w);
    StorePutRows(data, e.entity, e.board, w);
  }

  lemma StorePutRows(data: Data, card: Uuid, board: Uuid, w: Cards.CardWrite)
    requires RowsAllowed(data) && PutAllowed(data, card, board, w)
    requires card in data.cards ==> data.cards[card].board == board
    ensures RowsAllowed(StorePut(data, card, board, w))
  {
    hide CardStampsOf, StampCard;
    var after := StorePut(data, card, board, w);
    var merged := Cards.Put(CardViewOf(data, card), w).row.value;
    if card !in data.cards { assert Cards.Title in Cards.CardFields(); }
    assert merged.deleted || Cards.Winning(CardViewOf(data, card), w) == {} ==>
      merged.values == data.cards[card].values;
    assert RowAllowed(data.cards, board, card, merged.values);
    forall c | c in after.cards ensures RowAllowed(after.cards, after.cards[c].board, c, after.cards[c].values) {
      if c != card { assert RowAllowed(data.cards, data.cards[c].board, c, data.cards[c].values); }
    }
  }

  /** In every reachable state the table constraints hold, and no row leaves its board. */
  lemma StepRows(ws: Workspace, s: Store, d: Delivery)
    requires RowsAllowed(s.data)
    ensures var t := Step(ws, s, d).0;
      RowsAllowed(t.data) && RowsKept(s.data, t.data)
      && OnlyNewRow(s.data, t.data, d.event)
  {
    hide Step;
    var e, t := d.event, Step(ws, s, d).0;
    StepApplies(ws, s, d);
    if NewlyApplied(s, t, e) && e.operation.CardPut? {
      if e.operation.delta.Some? { ApplyDeltaFrame(s.data, e, e.operation.delta.value); }
      else { PutCardRows(s.data, e, e.operation.card.value, WriteFor(e)); }
    }
  }

  predicate Names(row: LedgerRow, d: Delivery) {
    row.nostrId == d.nostrId && row.replica == d.event.replica && row.seqNo == d.event.seqNo
  }

  lemma StepEntry(ws: Workspace, s: Store, d: Delivery)
    ensures var t, id := Step(ws, s, d).0, d.event.id;
      id in t.ledger ==> (id in s.ledger && t.ledger[id] == s.ledger[id]) || Names(t.ledger[id], d)
  {
    hide Actor, PutAppearance, DeleteCard, CheckDelta, ApplyDelta, CheckPut, PutCard;
  }

  /** The pool's deliveries that the final authorization table lets act. */
  ghost function Accepted(ws: Workspace, s0: Store, pool: set<Delivery>): set<Delivery> {
    set d | d in pool && Authorized(ws, s0.auths, pool, d)
  }

  ghost predicate HasPut(ws: Workspace, s0: Store, pool: set<Delivery>, c: Uuid, board: Uuid) {
    exists x :: x in Accepted(ws, s0, pool) && PutOn(x.event, c) && x.event.board == board
  }

  ghost predicate HasDelete(ws: Workspace, s0: Store, pool: set<Delivery>, c: Uuid) {
    exists x :: x in Accepted(ws, s0, pool) && DeleteOn(x.event, c)
  }

  /** An accepted put on a card that no accepted delete removes. */
  ghost predicate Surviving(ws: Workspace, s0: Store, pool: set<Delivery>, d: Delivery) {
    d in Accepted(ws, s0, pool) && PutOn(d.event, d.event.entity) && !HasDelete(ws, s0, pool, d.event.entity)
  }

  /** Every accepted put on the card. */
  ghost function Asked(ws: Workspace, s0: Store, pool: set<Delivery>, c: Uuid): set<Cards.CardWrite> {
    WritesOn(Accepted(ws, s0, pool), c)
  }

  // Parents.

  /** A row for the card is sure to come: something makes it, and nothing can come before that. */
  ghost predicate Comes(ws: Workspace, s0: Store, pool: set<Delivery>, c: Uuid, board: Uuid) {
    HasPut(ws, s0, pool, c, board) && !HasDelete(ws, s0, pool, c)
  }

  /** The put's parent is none, or the card itself, or in the table from the start, or sure to come. */
  ghost predicate Found(ws: Workspace, s0: Store, pool: set<Delivery>, e: Event)
    requires PutOn(e, e.entity)
  {
    var v := WriteFor(e).values;
    ParentInstalled(s0.data.cards, e.board, e.entity, v) || Comes(ws, s0, pool, v.parent.value, e.board)
  }

  function RankOf(rank: map<Uuid, nat>, c: Uuid): nat {
    if c in rank then rank[c] else 0
  }

  /** Some put makes the card without waiting for a card of the same or a higher rank. */
  ghost predicate Seeded(ws: Workspace, s0: Store, pool: set<Delivery>, rank: map<Uuid, nat>, c: Uuid) {
    exists d :: d in Accepted(ws, s0, pool) && PutOn(d.event, c) && Seeds(ws, s0, pool, rank, d.event)
  }

  ghost predicate Seeds(ws: Workspace, s0: Store, pool: set<Delivery>, rank: map<Uuid, nat>, e: Event)
    requires PutOn(e, e.entity)
  {
    var v := WriteFor(e).values;
    ParentInstalled(s0.data.cards, e.board, e.entity, v)
    || (Comes(ws, s0, pool, v.parent.value, e.board) && RankOf(rank, v.parent.value) < RankOf(rank, e.entity))
  }

  /** The put that decides where the card ends up: the one that leads the parent field of a live
      card, or the latest one of a card that is unknown at the start. */
  ghost predicate LastMove(ws: Workspace, s0: Store, pool: set<Delivery>, e: Event)
    requires PutOn(e, e.entity)
  {
    var v0 := CardViewOf(s0.data, e.entity);
    if Cards.Live(v0) then Decides(ws, s0, pool, e, Cards.ParentCardId)
    else Cards.Greatest(Asked(ws, s0, pool, e.entity), WriteFor(e))
  }

  ghost predicate Decides(ws: Workspace, s0: Store, pool: set<Delivery>, e: Event, f: Cards.CardField)
    requires PutOn(e, e.entity) && Cards.Live(CardViewOf(s0.data, e.entity))
  {
    Cards.Leads(Cards.CellOf(CardViewOf(s0.data, e.entity), f), Asked(ws, s0, pool, e.entity), f, WriteFor(e))
  }

  /** Every card that no accepted delete removes can get its row and end where its last move
      puts it; the rank rules out cards that wait for each other. */
  ghost predicate ParentsCome(ws: Workspace, s0: Store, pool: set<Delivery>, rank: map<Uuid, nat>) {
    forall d :: Surviving(ws, s0, pool, d) ==> ParentComes(ws, s0, pool, rank, d.event)
  }

  ghost predicate ParentComes(ws: Workspace, s0: Store, pool: set<Delivery>, rank: map<Uuid, nat>, e: Event)
    requires PutOn(e, e.entity)
  {
    (e.entity !in s0.data.cards ==> Seeded(ws, s0, pool, rank, e.entity))
    && (LastMove(ws, s0, pool, e) ==> Found(ws, s0, pool, e))
  }

  /** A put that decides a date of a live card does not also move it under a card that may
      never come. */
  ghost predicate MovesApart(ws: Workspace, s0: Store, pool: set<Delivery>) {
    forall d :: Surviving(ws, s0, pool, d) && Cards.Live(CardViewOf(s0.data, d.event.entity))
      && (Decides(ws, s0, pool, d.event, Cards.StartAt) || Decides(ws, s0, pool, d.event, Cards.DueAt))
      && MovesCard(s0, d.event)
      ==> Found(ws, s0, pool, d.event)
  }

  predicate MovesCard(s0: Store, e: Event)
    requires PutOn(e, e.entity)
  {
    Cards.ParentCardId in WriteFor(e).mask
    && Beats(StampOf(e), Lookup(s0.data.stamps, Key(e.entity, CardStamp(Cards.ParentCardId))))
  }

  /** The accepted puts of a card that no accepted delete removes leave no choice. */
  ghost predicate AllDetermined(ws: Workspace, s0: Store, pool: set<Delivery>) {
    forall d :: Surviving(ws, s0, pool, d) ==>
      Cards.Determined(CardViewOf(s0.data, d.event.entity), Asked(ws, s0, pool, d.event.entity))
  }

  ghost predicate HasAccepted(ws: Workspace, s0: Store, pool: set<Delivery>, e: Event) {
    exists x :: x in Accepted(ws, s0, pool) && x.event == e
  }

  /** What every state of every run from `s0` over the pool satisfies. */
  ghost predicate Sound(ws: Workspace, s0: Store, pool: set<Delivery>, s: Store) {
    && RowsAllowed(s.data) && RowsKept(s0.data, s.data)
    && (forall d :: d in pool ==> HomeBoard(s.data, d.event))
    && (forall d :: d in pool ==> SeparateEntries(s.ledger, d))
    && (forall d :: d in pool ==> Tracks(CardViewOf(s0.data, d.event.entity), pool, d.event.entity, s))
    && (forall d :: d in pool && Processed(s.ledger, d.event.id) ==> HasAccepted(ws, s0, pool, d.event))
  }

  lemma StartTracks(ws: Workspace, s0: Store, pool: set<Delivery>, c: Uuid)
    requires Coherent(pool) && Ready(s0, pool, c)
    ensures Tracks(CardViewOf(s0.data, c), pool, c, s0)
  {
    RunTracks(ws, s0, pool, [], c);
  }

  lemma StartSound(ws: Workspace, s0: Store, pool: set<Delivery>)
    requires Plain(ws, s0, pool)
    ensures Sound(ws, s0, pool, s0)
  {
    forall d | d in pool
      ensures Tracks(CardViewOf(s0.data, d.event.entity), pool, d.event.entity, s0)
      ensures Unprocessed(s0, d)
    {
      assert Ready(s0, pool, d.event.entity);
      StartTracks(ws, s0, pool, d.event.entity);
    }
    assert RowsKept(s0.data, s0.data);
  }

  lemma StepSeparate(ws: Workspace, s0: Store, pool: set<Delivery>, s: Store, d: Delivery, x: Delivery)
    requires Plain(ws, s0, pool) && d in pool && x in pool
    requires SeparateEntries(s.ledger, x) && SeparateEntries(s.ledger, d)
    ensures SeparateEntries(Step(ws, s, d).0.ledger, x)
  {
    StepLedger(ws, s, d);
    StepEntry(ws, s, d);
  }

  lemma StepSound(ws: Workspace, s0: Store, pool: set<Delivery>, s: Store, known: set<AuthKey>, d: Delivery)
    requires Plain(ws, s0, pool) && d in pool && Sound(ws, s0, pool, s) && Knows(ws, s0.auths, pool, s, known)
    ensures Sound(ws, s0, pool, Step(ws, s, d).0)
  {
    var t := Step(ws, s, d).0;
    StepRows(ws, s, d);
    StepLedger(ws, s, d);
    forall x | x in pool
      ensures HomeBoard(t.data, x.event) && SeparateEntries(t.ledger, x)
      ensures Tracks(CardViewOf(s0.data, x.event.entity), pool, x.event.entity, t)
      ensures Processed(t.ledger, x.event.id) ==> HasAccepted(ws, s0, pool, x.event)
    {
      StepSeparate(ws, s0, pool, s, d, x);
      assert Ready(s0, pool, x.event.entity);
      StepTracks(ws, CardViewOf(s0.data, x.event.entity), s, pool, d, x.event.entity);
      if Processed(t.ledger, x.event.id) && !Processed(s.ledger, x.event.id) {
        StepAuths(ws, s, d);
        AcceptedIsAuthorized(ws, s0.auths, pool, s, known, d);
        assert d in Accepted(ws, s0, pool) && d.event == x.event;
      }
    }
  }

  // Which outstanding delivery can be taken next.

  /** The database takes the put now, or needs not be asked. */
  ghost predicate Takes(s: Store, e: Event) {
    DeleteOn(e, e.entity) || e.entity in s.data.tombstones
    || (PutOn(e, e.entity) && PutAllowed(s.data, e.entity, e.board, WriteFor(e)))
  }

  lemma TakenIsProcessed(ws: Workspace, s0: Store, pool: set<Delivery>, s: Store, d: Delivery)
    requires Plain(ws, s0, pool) && d in pool && Sound(ws, s0, pool, s)
    requires d.event.workspace == ws.id && Actor(ws, s.auths, d).Success? && Takes(s, d.event)
    ensures Processed(Step(ws, s, d).0.ledger, d.event.id)
  {
    var e := d.event;
    assert PlainPut(ws, e) || PlainDelete(e);
    if !Processed(s.ledger, e.id) {
      var ready := s.(auths := Actor(ws, s.auths, d).value.1, ledger := s.ledger - {e.id});
      assert LedgerFree(ready.ledger, d);
      assert Step(ws, s, d) == Dispatch(ws, ready, d);
      DispatchTakes(ws, s0, ready, d);
    }
  }

  lemma DispatchTakes(ws: Workspace, s0: Store, s: Store, d: Delivery)
    requires PlainPut(ws, d.event) || PlainDelete(d.event)
    requires LedgerFree(s.ledger, d) && HomeBoard(s.data, d.event) && Takes(s, d.event)
    ensures Processed(Dispatch(ws, s, d).0.ledger, d.event.id)
  {}

  ghost predicate Unprocessed(s: Store, d: Delivery) {
    !Processed(s.ledger, d.event.id)
  }

  /** The dates that a card ends with, once all accepted puts are merged. */
  ghost predicate DatesEndOrdered(ws: Workspace, s0: Store, pool: set<Delivery>, c: Uuid) {
    var accepted := Accepted(ws, s0, pool);
    var survives := Cards.Live(CardViewOf(s0.data, c)) && !(exists d :: d in accepted && DeleteOn(d.event, c));
    survives ==> Dates.FinalDates(CardViewOf(s0.data, c), WritesOn(accepted, c))
  }

  ghost predicate AllDatesEndOrdered(ws: Workspace, s0: Store, pool: set<Delivery>) {
    forall c :: DatesEndOrdered(ws, s0, pool, c)
  }

  lemma WritesAccepted(ws: Workspace, s0: Store, pool: set<Delivery>, s: Store, c: Uuid)
    requires Plain(ws, s0, pool) && Sound(ws, s0, pool, s)
    ensures AppliedWrites(s, pool, c) <= WritesOn(Accepted(ws, s0, pool), c) <= WritesOn(pool, c)
  {
    forall w | w in AppliedWrites(s, pool, c) ensures w in WritesOn(Accepted(ws, s0, pool), c) {
      var d :| d in pool && PutOn(d.event, c) && IsApplied(s, d.event) && w == WriteFor(d.event);
      assert HasAccepted(ws, s0, pool, d.event);
    }
  }

  /** A write that is not applied belongs to an accepted event still outstanding. */
  lemma WriteOutstanding(ws: Workspace, s0: Store, pool: set<Delivery>, s: Store, c: Uuid, w: Cards.CardWrite)
    returns (d: Delivery)
    requires Plain(ws, s0, pool) && Sound(ws, s0, pool, s) && c !in s.data.tombstones
    requires w in WritesOn(Accepted(ws, s0, pool), c) && w !in AppliedWrites(s, pool, c)
    ensures d in Accepted(ws, s0, pool) && PutOn(d.event, c) && WriteFor(d.event) == w && Unprocessed(s, d)
  {
    d :| d in Accepted(ws, s0, pool) && PutOn(d.event, c) && w == WriteFor(d.event);
    assert Tracks(CardViewOf(s0.data, d.event.entity), pool, d.event.entity, s);
  }

  /** The parent is in the table, or the put leaves the row under the one it has. */
  predicate ParentHolds(s: Store, e: Event)
    requires PutOn(e, e.entity)
  {
    ParentInstalled(s.data.cards, e.board, e.entity, WriteFor(e).values)
    || (e.entity in s.data.cards
        && Cards.Put(CardViewOf(s.data, e.entity), WriteFor(e)).row.value.values.parent ==
           s.data.cards[e.entity].values.parent)
  }

  predicate DatesHold(s: Store, e: Event)
    requires PutOn(e, e.entity)
  {
    Dates.DatesOrdered(Cards.Put(CardViewOf(s.data, e.entity), WriteFor(e)).row.value.values)
  }

  lemma PutFits(s: Store, e: Event)
    requires PutOn(e, e.entity) && ParentHolds(s, e) && DatesHold(s, e)
    requires e.entity in s.data.cards ==>
      ParentInstalled(s.data.cards, e.board, e.entity, s.data.cards[e.entity].values)
    ensures PutAllowed(s.data, e.entity, e.board, WriteFor(e))
  {
    hide Written, Dates.DatesOrdered, CardStampsOf, Cards.Winning;
  }

  lemma PlainFits(ws: Workspace, s0: Store, pool: set<Delivery>, s: Store, d: Delivery)
    requires Plain(ws, s0, pool) && Sound(ws, s0, pool, s) && d in pool && PutOn(d.event, d.event.entity)
    requires ParentHolds(s, d.event) && DatesHold(s, d.event)
    ensures Takes(s, d.event)
  {
    hide ParentHolds, DatesHold, PutAllowed, PlainPut, SeparateEntries, Tracks;
    var e := d.event;
    assert HomeBoard(s.data, e);
    if e.entity in s.data.cards {
      assert RowAllowed(s.data.cards, s.data.cards[e.entity].board, e.entity, s.data.cards[e.entity].values);
    }
    PutFits(s, e);
  }

  lemma NotApplied(ws: Workspace, s0: Store, pool: set<Delivery>, s: Store, d: Delivery)
    requires Plain(ws, s0, pool) && d in pool && PutOn(d.event, d.event.entity) && Unprocessed(s, d)
    ensures WriteFor(d.event) !in AppliedWrites(s, pool, d.event.entity)
  {
    forall x | x in pool && PutOn(x.event, d.event.entity) && IsApplied(s, x.event)
      ensures WriteFor(x.event) != WriteFor(d.event)
    {
      assert WriteFor(x.event).stamp.event == x.event.id;
    }
  }

  lemma PutLeavesRow(ws: Workspace, s0: Store, pool: set<Delivery>, s: Store, x: Delivery)
    requires Plain(ws, s0, pool) && Sound(ws, s0, pool, s) && x in Accepted(ws, s0, pool)
    requires PutOn(x.event, x.event.entity) && !Unprocessed(s, x) && !HasDelete(ws, s0, pool, x.event.entity)
    ensures x.event.entity in s.data.cards && s.data.cards[x.event.entity].board == x.event.board
  {
    hide PlainPut, PlainDelete, RowAllowed, RowsAllowed, SeparateEntries, Cards.Puts, Cards.Came;
    var c := x.event.entity;
    var v0 := CardViewOf(s0.data, c);
    assert Ready(s0, pool, c) && HomeBoard(s.data, x.event);
    assert Tracks(v0, pool, c, s);
    NotTombstoned(ws, s0, pool, s, c);
    assert WriteFor(x.event) in AppliedWrites(s, pool, c);
    Cards.CameLive(v0, AppliedWrites(s, pool, c), CardViewOf(s.data, c));
  }

  lemma PutOrDelete(ws: Workspace, s0: Store, pool: set<Delivery>, d: Delivery)
    requires Plain(ws, s0, pool) && d in Accepted(ws, s0, pool)
    ensures d in pool && (PutOn(d.event, d.event.entity) || DeleteOn(d.event, d.event.entity))
  {
    assert PlainPut(ws, d.event) || PlainDelete(d.event);
  }

  lemma DirectlyTaken(s: Store, e: Event)
    requires DeleteOn(e, e.entity) || e.entity in s.data.tombstones
    ensures Takes(s, e)
  {}

  lemma LiveDates(ws: Workspace, s0: Store, pool: set<Delivery>, c: Uuid)
    requires AllDatesEndOrdered(ws, s0, pool) && Cards.Live(CardViewOf(s0.data, c))
    requires !(exists d :: d in Accepted(ws, s0, pool) && DeleteOn(d.event, c))
    ensures Dates.FinalDates(CardViewOf(s0.data, c), WritesOn(Accepted(ws, s0, pool), c))
  {
    assert DatesEndOrdered(ws, s0, pool, c);
  }

  /** Until a card is tombstoned its deletes are outstanding, and can be taken. */
  lemma DeleteOutstanding(ws: Workspace, s0: Store, pool: set<Delivery>, s: Store, c: Uuid, x: Delivery)
    requires Sound(ws, s0, pool, s) && x in Accepted(ws, s0, pool)
    requires DeleteOn(x.event, c) && c !in s.data.tombstones
    ensures Unprocessed(s, x) && Takes(s, x.event)
  {
    assert Tracks(CardViewOf(s0.data, x.event.entity), pool, x.event.entity, s);
  }

  /** What has to be known of a pool for all of it to get through. */
  ghost predicate Deliverable(ws: Workspace, s0: Store, pool: set<Delivery>, rank: map<Uuid, nat>) {
    AllDatesEndOrdered(ws, s0, pool) && ParentsCome(ws, s0, pool, rank)
    && MovesApart(ws, s0, pool) && AllDetermined(ws, s0, pool)
  }

  /** An outstanding delivery that can be taken. */
  ghost predicate Ripe(ws: Workspace, s0: Store, pool: set<Delivery>, s: Store, d: Delivery) {
    d in Accepted(ws, s0, pool) && Unprocessed(s, d) && Takes(s, d.event)
  }

  lemma NoRowNothingApplied(ws: Workspace, s0: Store, pool: set<Delivery>, s: Store, d: Delivery)
    requires Plain(ws, s0, pool) && Sound(ws, s0, pool, s) && d in Accepted(ws, s0, pool)
    requires PutOn(d.event, d.event.entity) && !HasDelete(ws, s0, pool, d.event.entity)
    requires d.event.entity !in s.data.cards
    ensures Unprocessed(s, d)
  {
    if !Unprocessed(s, d) { PutLeavesRow(ws, s0, pool, s, d); }
  }

  /** While a card that is sure to come has no row, one of the cards it waits for, or itself,
      can be made. */
  lemma {:induction false} RowSoon(ws: Workspace, s0: Store, pool: set<Delivery>, rank: map<Uuid, nat>, s: Store,
                                   c: Uuid, board: Uuid)
    returns (next: Delivery)
    requires Plain(ws, s0, pool) && Sound(ws, s0, pool, s) && ParentsCome(ws, s0, pool, rank)
    requires Comes(ws, s0, pool, c, board) && c !in s.data.cards
    ensures Ripe(ws, s0, pool, s, next)
    decreases RankOf(rank, c)
  {
    hide PlainPut, PlainDelete, RowAllowed, SeparateEntries, Authorized, Cards.Puts, Cards.Came, LastMove, Found,
      CheckPut;
    var x :| x in Accepted(ws, s0, pool) && PutOn(x.event, c) && x.event.board == board;
    assert Surviving(ws, s0, pool, x);
    assert ParentComes(ws, s0, pool, rank, x.event);
    assert c !in s0.data.cards;
    var d :| d in Accepted(ws, s0, pool) && PutOn(d.event, c) && Seeds(ws, s0, pool, rank, d.event);
    NoRowNothingApplied(ws, s0, pool, s, d);
    var v := WriteFor(d.event).values;
    if ParentInstalled(s.data.cards, d.event.board, c, v) {
      SeedTakes(ws, s0, pool, s, d);
      next := d;
    } else {
      KeptParent(s0, s, d.event);
      if v.parent.value in s.data.cards { RowHome(ws, s0, pool, s, v.parent.value, d.event.board); }
      next := RowSoon(ws, s0, pool, rank, s, v.parent.value, d.event.board);
    }
  }

  lemma KeptParent(s0: Store, s: Store, e: Event)
    requires PutOn(e, e.entity) && RowsKept(s0.data, s.data)
    ensures ParentInstalled(s0.data.cards, e.board, e.entity, WriteFor(e).values) ==>
      ParentInstalled(s.data.cards, e.board, e.entity, WriteFor(e).values)
  {}

  lemma RowHome(ws: Workspace, s0: Store, pool: set<Delivery>, s: Store, c: Uuid, board: Uuid)
    requires Sound(ws, s0, pool, s) && HasPut(ws, s0, pool, c, board) && c in s.data.cards
    ensures s.data.cards[c].board == board
  {
    var x :| x in Accepted(ws, s0, pool) && PutOn(x.event, c) && x.event.board == board;
    assert HomeBoard(s.data, x.event);
  }

  /** A put that finds no row carries the whole row. */
  lemma SeedTakes(ws: Workspace, s0: Store, pool: set<Delivery>, s: Store, d: Delivery)
    requires Plain(ws, s0, pool) && Sound(ws, s0, pool, s) && d in pool && PutOn(d.event, d.event.entity)
    requires d.event.entity !in s.data.cards
    requires ParentInstalled(s.data.cards, d.event.board, d.event.entity, WriteFor(d.event).values)
    ensures Takes(s, d.event)
  {
    assert PlainPut(ws, d.event);
    PlainFits(ws, s0, pool, s, d);
  }

  /** A put whose parent is found can be taken, or the parent can be made, if the dates allow it. */
  lemma TakesOrWaits(ws: Workspace, s0: Store, pool: set<Delivery>, rank: map<Uuid, nat>, s: Store, d: Delivery)
    returns (next: Delivery)
    requires Plain(ws, s0, pool) && Sound(ws, s0, pool, s) && ParentsCome(ws, s0, pool, rank)
    requires d in Accepted(ws, s0, pool) && Unprocessed(s, d) && PutOn(d.event, d.event.entity)
    requires DatesHold(s, d.event) && (Found(ws, s0, pool, d.event) || ParentHolds(s, d.event))
    ensures Ripe(ws, s0, pool, s, next)
  {
    hide Plain, Sound, Authorized, ParentsCome, DatesHold, Takes, PutOn, WriteFor;
    if ParentHolds(s, d.event) {
      PlainFits(ws, s0, pool, s, d);
      next := d;
    } else {
      var p := MissingParent(ws, s0, pool, s, d);
      next := RowSoon(ws, s0, pool, rank, s, p, d.event.board);
    }
  }

  lemma MissingParent(ws: Workspace, s0: Store, pool: set<Delivery>, s: Store, d: Delivery) returns (p: Uuid)
    requires Sound(ws, s0, pool, s) && PutOn(d.event, d.event.entity)
    requires Found(ws, s0, pool, d.event) && !ParentHolds(s, d.event)
    ensures Comes(ws, s0, pool, p, d.event.board) && p !in s.data.cards
  {
    hide WriteFor, Cards.Put, Tracks, SeparateEntries, RowsAllowed;
    KeptParent(s0, s, d.event);
    p := WriteFor(d.event).values.parent.value;
    if p in s.data.cards { RowHome(ws, s0, pool, s, p, d.event.board); }
  }

  /** The situation of a surviving card at which some accepted put is outstanding. */
  ghost predicate Pending(ws: Workspace, s0: Store, pool: set<Delivery>, s: Store, d: Delivery) {
    Plain(ws, s0, pool) && Sound(ws, s0, pool, s) && Surviving(ws, s0, pool, d) && Unprocessed(s, d)
    && d.event.entity !in s.data.tombstones && d.event.entity in s.data.cards
  }

  lemma PendingWrites(ws: Workspace, s0: Store, pool: set<Delivery>, s: Store, d: Delivery)
    requires Pending(ws, s0, pool, s, d)
    ensures var c := d.event.entity;
      var part, all := AppliedWrites(s, pool, c), Asked(ws, s0, pool, c);
      part <= all && Cards.DistinctStamps(all) && WriteFor(d.event) in all && WriteFor(d.event) !in part
      && Cards.Came(CardViewOf(s0.data, c), part, CardViewOf(s.data, c))
      && (forall u :: u in all ==> Dates.DatesOrdered(u.values))
  {
    hide Cards.Came, SeparateEntries, CheckPut, Authorized, RowsAllowed;
    var c, accepted := d.event.entity, Accepted(ws, s0, pool);
    assert Tracks(CardViewOf(s0.data, c), pool, c, s);
    WritesAccepted(ws, s0, pool, s, c);
    WritesDistinct(pool, c);
    NotApplied(ws, s0, pool, s, d);
    forall u | u in Asked(ws, s0, pool, c) ensures Dates.DatesOrdered(u.values) {
      var x :| x in accepted && PutOn(x.event, c) && u == WriteFor(x.event);
      assert PlainPut(ws, x.event);
    }
  }

  /** A card that was unknown at the start and has a row: its latest put can be taken, and after
      it the others change nothing. */
  lemma NewTakes(ws: Workspace, s0: Store, pool: set<Delivery>, rank: map<Uuid, nat>, s: Store, d: Delivery)
    returns (next: Delivery)
    requires Pending(ws, s0, pool, s, d) && ParentsCome(ws, s0, pool, rank) && AllDetermined(ws, s0, pool)
    requires !Cards.Live(CardViewOf(s0.data, d.event.entity))
    ensures Ripe(ws, s0, pool, s, next)
  {
    hide Plain, Sound, RowsAllowed, Authorized, WriteFor, Cards.Put, Cards.Came, CardViewOf, Seeded, Found;
    var c := d.event.entity;
    var part, all, v := AppliedWrites(s, pool, c), Asked(ws, s0, pool, c), CardViewOf(s.data, c);
    PendingWrites(ws, s0, pool, s, d);
    RowParent(s, c);
    var g :| Cards.Greatest(all, g) && (all == {g} || Cards.Full(g));
    if g in part {
      LaterLose(part, all, g, v, WriteFor(d.event));
      LosesTakes(s, d.event);
      next := d;
    } else {
      var x := WriteOutstanding(ws, s0, pool, s, c, g);
      GreatestOverwrites(part, all, g, v);
      assert Surviving(ws, s0, pool, x) && LastMove(ws, s0, pool, x.event);
      assert ParentComes(ws, s0, pool, rank, x.event);
      next := TakesOrWaits(ws, s0, pool, rank, s, x);
    }
  }

  lemma LaterLose(part: set<Cards.CardWrite>, all: set<Cards.CardWrite>, g: Cards.CardWrite, v: Cards.CardView,
                  w: Cards.CardWrite)
    requires part <= all && Cards.DistinctStamps(all) && Cards.Came(Cards.ABSENT, part, v)
    requires Cards.Greatest(all, g) && g in part && (all == {g} || Cards.Full(g)) && w in all && w !in part
    ensures Cards.Winning(v, w) == {} && v.row.Some?
  {
    assert Cards.Greatest(part, g);
    var h := Cards.CameWhole(part, v);
    assert h == g;
    Cards.FromAbsent(g, []);
    forall f: Cards.CardField ensures !Beats(w.stamp, Lookup(v.stamps, f)) {
      assert Cards.CellOf(v, f).stamp == Some(g.stamp);
    }
  }

  lemma LosesTakes(s: Store, e: Event)
    requires PutOn(e, e.entity) && Cards.Winning(CardViewOf(s.data, e.entity), WriteFor(e)) == {}
    ensures Takes(s, e)
  {}

  lemma GreatestOverwrites(part: set<Cards.CardWrite>, all: set<Cards.CardWrite>, g: Cards.CardWrite, v: Cards.CardView)
    requires part <= all && Cards.DistinctStamps(all) && Cards.Came(Cards.ABSENT, part, v) && v.row.Some?
    requires Cards.Greatest(all, g) && g !in part && (all == {g} || Cards.Full(g))
    ensures Cards.Put(v, g).row.value.values == g.values
  {
    hide Cards.Came;
    if all == {g} {
      assert part == {};
      Cards.CameEmpty(Cards.ABSENT, v);
    } else {
      var s := part + {g};
      Cards.CameStep(Cards.ABSENT, part, v, g);
      assert s <= all;
      assert Cards.Greatest(s, g);
      var h := Cards.CameWhole(s, Cards.Put(v, g));
      assert h == g;
    }
  }

  /** A card that was live at the start: the put that decides a date, or the one that decides the
      parent, or any other. */
  lemma LiveTakes(ws: Workspace, s0: Store, pool: set<Delivery>, rank: map<Uuid, nat>, s: Store, d: Delivery)
    returns (next: Delivery)
    requires Pending(ws, s0, pool, s, d) && ParentsCome(ws, s0, pool, rank) && MovesApart(ws, s0, pool)
    requires Cards.Live(CardViewOf(s0.data, d.event.entity))
    requires Dates.FinalDates(CardViewOf(s0.data, d.event.entity), Asked(ws, s0, pool, d.event.entity))
    ensures Ripe(ws, s0, pool, s, next)
  {
    hide Plain, Sound, RowsAllowed, Authorized, WriteFor, Cards.Put, Cards.Came, CardViewOf, Seeded, Found;
    var c := d.event.entity;
    var v0, v, part, all :=
      CardViewOf(s0.data, c), CardViewOf(s.data, c), AppliedWrites(s, pool, c), Asked(ws, s0, pool, c);
    PendingWrites(ws, s0, pool, s, d);
    Cards.CameSettled(v0, part, v);
    RowDates(ws, s0, pool, s, c);
    var w := Dates.NextPut(v0, part, all, v);
    next := WriteOutstanding(ws, s0, pool, s, c, w);
    assert Surviving(ws, s0, pool, next);
    assert ParentComes(ws, s0, pool, rank, next.event);
    if Cards.ParentCardId in Cards.Winning(v, w) {
      WinsMoves(s0, s, pool, part, next.event);
    } else {
      ParentStays(v, w);
    }
    RowParent(s, c);
    next := TakesOrWaits(ws, s0, pool, rank, s, next);
  }

  lemma RowDates(ws: Workspace, s0: Store, pool: set<Delivery>, s: Store, c: Uuid)
    requires Sound(ws, s0, pool, s) && Cards.Live(CardViewOf(s.data, c))
    ensures Dates.DatesOrdered(CardViewOf(s.data, c).row.value.values)
  {
    assert RowAllowed(s.data.cards, s.data.cards[c].board, c, s.data.cards[c].values);
  }

  lemma RowParent(s: Store, c: Uuid)
    requires c in s.data.cards
    ensures CardViewOf(s.data, c).row.Some? && CardViewOf(s.data, c).row.value.values == s.data.cards[c].values
  {}

  lemma ParentStays(v: Cards.CardView, w: Cards.CardWrite)
    requires v.row.Some? && Cards.ParentCardId !in Cards.Winning(v, w)
    ensures Cards.Put(v, w).row.value.values.parent == v.row.value.values.parent
  {}

  /** A put that moves the card now would have moved it at the start. */
  lemma WinsMoves(s0: Store, s: Store, pool: set<Delivery>, part: set<Cards.CardWrite>, e: Event)
    requires PutOn(e, e.entity) && Cards.Live(CardViewOf(s0.data, e.entity))
    requires Cards.AllSettled(CardViewOf(s0.data, e.entity), part, CardViewOf(s.data, e.entity))
    requires Cards.ParentCardId in Cards.Winning(CardViewOf(s.data, e.entity), WriteFor(e))
    ensures MovesCard(s0, e)
  {
    var f, v0, v := Cards.ParentCardId, CardViewOf(s0.data, e.entity), CardViewOf(s.data, e.entity);
    CardStampAt(s0.data.stamps, e.entity, f);
    assert Cards.Settled(Cards.CellOf(v0, f), part, f, Cards.CellOf(v, f));
  }

  /** While an accepted delivery is outstanding, some accepted delivery can be taken: if not
      for this card, then for one of the cards it waits for. */
  lemma SomeTaken(ws: Workspace, s0: Store, pool: set<Delivery>, rank: map<Uuid, nat>, s: Store, d: Delivery)
    returns (next: Delivery)
    requires Plain(ws, s0, pool) && Sound(ws, s0, pool, s) && Deliverable(ws, s0, pool, rank)
    requires d in Accepted(ws, s0, pool) && Unprocessed(s, d)
    ensures next in Accepted(ws, s0, pool) && Unprocessed(s, next) && Takes(s, next.event)
  {
    hide Plain, Sound, Takes, Accepted, AllDatesEndOrdered, ParentsCome, MovesApart, AllDetermined, CardViewOf, PutOn,
      DeleteOn;
    var c, accepted := d.event.entity, Accepted(ws, s0, pool);
    PutOrDelete(ws, s0, pool, d);
    if DeleteOn(d.event, c) || c in s.data.tombstones {
      DirectlyTaken(s, d.event);
      next := d;
    } else if x :| x in accepted && DeleteOn(x.event, c) {
      DeleteOutstanding(ws, s0, pool, s, c, x);
      next := x;
    } else if c !in s.data.cards {
      assert Comes(ws, s0, pool, c, d.event.board);
      next := RowSoon(ws, s0, pool, rank, s, c, d.event.board);
    } else if Cards.Live(CardViewOf(s0.data, c)) {
      LiveDates(ws, s0, pool, c);
      next := LiveTakes(ws, s0, pool, rank, s, d);
    } else {
      next := NewTakes(ws, s0, pool, rank, s, d);
    }
  }

  // Passes.

  /** Between two states no pool event was processed and nothing that matters moved. */
  ghost predicate Quiet(pool: set<Delivery>, s: Store, t: Store) {
    t.data == s.data && t.auths == s.auths
    && forall d :: d in pool ==> (Processed(t.ledger, d.event.id) <==> Processed(s.ledger, d.event.id))
  }

  ghost predicate Progress(ws: Workspace, s0: Store, pool: set<Delivery>, s: Store, t: Store) {
    exists d :: d in Accepted(ws, s0, pool) && Unprocessed(s, d) && !Unprocessed(t, d)
  }

  /** Once the closure is known the table no longer moves. */
  ghost predicate Settled(ws: Workspace, s0: Store, pool: set<Delivery>, s: Store) {
    Knows(ws, s0.auths, pool, s, Closure(ws, s0.auths, pool))
  }

  lemma StepStaysSettled(ws: Workspace, s0: Store, pool: set<Delivery>, s: Store, d: Delivery)
    requires OneAuthor(pool) && d in pool && Settled(ws, s0, pool, s)
    ensures Settled(ws, s0, pool, Step(ws, s, d).0) && Step(ws, s, d).0.auths == s.auths
  {
    var closure := Closure(ws, s0.auths, pool);
    var next := NextKnown(ws, s, closure, d);
    StepKnows(ws, s0.auths, pool, s, closure, d);
    SameOverlay(ws, s0.auths, pool, s, Step(ws, s, d).0, closure, next);
  }

  lemma SameOverlay(ws: Workspace, auths: AuthTable, pool: set<Delivery>, s: Store, t: Store, a: set<AuthKey>,
                    b: set<AuthKey>)
    requires Knows(ws, auths, pool, s, a) && Knows(ws, auths, pool, t, b)
    requires a <= b && a == Closure(ws, auths, pool)
    ensures a == b && t.auths == s.auths
  {}

  lemma StepQuiet(ws: Workspace, s: Store, d: Delivery)
    ensures Processed(s.ledger, d.event.id) || !Processed(Step(ws, s, d).0.ledger, d.event.id)
      ==> Step(ws, s, d).0.data == s.data
  {
    hide Step;
    StepApplies(ws, s, d);
  }

  ghost predicate NeverUndone(pool: set<Delivery>, s: Store, t: Store) {
    forall d :: d in pool && Processed(s.ledger, d.event.id) ==> Processed(t.ledger, d.event.id)
  }

  /** A state in which the table has settled and the invariants hold. */
  ghost predicate InRun(ws: Workspace, s0: Store, pool: set<Delivery>, s: Store) {
    Settled(ws, s0, pool, s) && Sound(ws, s0, pool, s)
  }

  lemma StepInRun(ws: Workspace, s0: Store, pool: set<Delivery>, s: Store, d: Delivery)
    requires Plain(ws, s0, pool) && d in pool && InRun(ws, s0, pool, s)
    ensures var t := Step(ws, s, d).0;
      InRun(ws, s0, pool, t) && NeverUndone(pool, s, t)
      && (Quiet(pool, s, t) || Progress(ws, s0, pool, s, t))
  {
    StepStaysSettled(ws, s0, pool, s, d);
    StepSound(ws, s0, pool, s, Closure(ws, s0.auths, pool), d);
    StepMoves(ws, s0, pool, s, d);
  }

  lemma StepMoves(ws: Workspace, s0: Store, pool: set<Delivery>, s: Store, d: Delivery)
    requires d in pool && Sound(ws, s0, pool, Step(ws, s, d).0) && Step(ws, s, d).0.auths == s.auths
    ensures var t := Step(ws, s, d).0;
      NeverUndone(pool, s, t) && (Quiet(pool, s, t) || Progress(ws, s0, pool, s, t))
  {
    hide Step, Accepted, RowsAllowed, RowsKept, HomeBoard, SeparateEntries, Tracks;
    var t := Step(ws, s, d).0;
    StepLedger(ws, s, d);
    if Processed(t.ledger, d.event.id) && !Processed(s.ledger, d.event.id) {
      assert HasAccepted(ws, s0, pool, d.event);
      var x :| x in Accepted(ws, s0, pool) && x.event == d.event;
      assert Unprocessed(s, x) && !Unprocessed(t, x);
    } else {
      StepQuiet(ws, s, d);
      forall x | x in pool ensures Processed(t.ledger, x.event.id) <==> Processed(s.ledger, x.event.id) {}
    }
  }

  lemma {:induction false} RunInRun(ws: Workspace, s0: Store, pool: set<Delivery>, s: Store, ds: seq<Delivery>)
    requires Plain(ws, s0, pool) && From(ds, pool) && InRun(ws, s0, pool, s)
    ensures var t := Run(ws, s, ds);
      InRun(ws, s0, pool, t) && NeverUndone(pool, s, t)
      && (Quiet(pool, s, t) || Progress(ws, s0, pool, s, t))
  {
    if ds == [] {
      assert Quiet(pool, s, s);
    } else {
      var mid := Run(ws, s, ds[..|ds| - 1]);
      RunInRun(ws, s0, pool, s, ds[..|ds| - 1]);
      StepInRun(ws, s0, pool, mid, ds[|ds| - 1]);
      JoinProgress(ws, s0, pool, s, mid, Step(ws, mid, ds[|ds| - 1]).0);
    }
  }

  lemma JoinProgress(ws: Workspace, s0: Store, pool: set<Delivery>, s: Store, mid: Store, t: Store)
    requires Quiet(pool, s, mid) || Progress(ws, s0, pool, s, mid)
    requires Quiet(pool, mid, t) || Progress(ws, s0, pool, mid, t)
    requires NeverUndone(pool, mid, t)
    ensures Quiet(pool, s, t) || Progress(ws, s0, pool, s, t)
  {
    if d :| d in Accepted(ws, s0, pool) && Unprocessed(s, d) && !Unprocessed(mid, d) {
      assert !Unprocessed(t, d);
    } else if d :| d in Accepted(ws, s0, pool) && Unprocessed(mid, d) && !Unprocessed(t, d) {
      assert Unprocessed(s, d);
    }
  }

  lemma RunSplit(ws: Workspace, s: Store, a: seq<Delivery>, b: seq<Delivery>)
    ensures Run(ws, s, a + b) == Run(ws, Run(ws, s, a), b)
  {
    if b == [] {
      assert a + b == a;
    } else {
      RunSplit(ws, s, a, b[..|b| - 1]);
      assert (a + b)[..|a + b| - 1] == a + b[..|b| - 1];
    }
  }

  lemma RunAround(ws: Workspace, s: Store, a: seq<Delivery>, d: Delivery, b: seq<Delivery>)
    ensures Run(ws, s, a + [d] + b) == Run(ws, Step(ws, Run(ws, s, a), d).0, b)
  {
    RunSplit(ws, s, a + [d], b);
    assert (a + [d])[..|a + [d]| - 1] == a;
  }

  lemma PassThrough(ws: Workspace, s0: Store, pool: set<Delivery>, s: Store, a: seq<Delivery>, next: Delivery,
                    b: seq<Delivery>)
    requires Plain(ws, s0, pool) && From(a, pool) && From(b, pool) && InRun(ws, s0, pool, s)
    requires next in Accepted(ws, s0, pool) && Unprocessed(s, next) && Takes(s, next.event)
    ensures Progress(ws, s0, pool, s, Run(ws, s, a + [next] + b))
  {
    RunAround(ws, s, a, next, b);
    var before := Run(ws, s, a);
    RunInRun(ws, s0, pool, s, a);
    StepInRun(ws, s0, pool, before, next);
    RunInRun(ws, s0, pool, Step(ws, before, next).0, b);
    TakenProgresses(ws, s0, pool, s, before, next);
    ProgressStays(ws, s0, pool, s, Step(ws, before, next).0, Run(ws, s, a + [next] + b));
  }

  lemma ProgressStays(ws: Workspace, s0: Store, pool: set<Delivery>, s: Store, mid: Store, t: Store)
    requires Progress(ws, s0, pool, s, mid) && NeverUndone(pool, mid, t)
    ensures Progress(ws, s0, pool, s, t)
  {
    var x :| x in Accepted(ws, s0, pool) && Unprocessed(s, x) && !Unprocessed(mid, x);
    assert !Unprocessed(t, x);
  }

  /** One pass gets at least one outstanding accepted event processed. */
  lemma PassProgresses(ws: Workspace, s0: Store, pool: set<Delivery>, rank: map<Uuid, nat>, s: Store,
                       ds: seq<Delivery>, d: Delivery)
    requires Plain(ws, s0, pool) && Pass(ds, pool) && InRun(ws, s0, pool, s)
    requires Deliverable(ws, s0, pool, rank)
    requires d in Accepted(ws, s0, pool) && Unprocessed(s, d)
    ensures Progress(ws, s0, pool, s, Run(ws, s, ds))
  {
    var next := SomeTaken(ws, s0, pool, rank, s, d);
    var a, b := Around(ds, pool, next);
    PassThrough(ws, s0, pool, s, a, next, b);
  }

  lemma Around(ds: seq<Delivery>, pool: set<Delivery>, d: Delivery) returns (a: seq<Delivery>, b: seq<Delivery>)
    requires Pass(ds, pool) && d in pool
    ensures ds == a + [d] + b && From(a, pool) && From(b, pool)
  {
    var i :| 0 <= i < |ds| && ds[i] == d;
    a, b := ds[..i], ds[i + 1..];
  }

  lemma TakenProgresses(ws: Workspace, s0: Store, pool: set<Delivery>, s: Store, before: Store, next: Delivery)
    requires Plain(ws, s0, pool) && InRun(ws, s0, pool, before)
    requires next in Accepted(ws, s0, pool) && Unprocessed(s, next) && Takes(s, next.event)
    requires Quiet(pool, s, before) || Progress(ws, s0, pool, s, before)
    ensures Progress(ws, s0, pool, s, Step(ws, before, next).0)
  {
    var after := Step(ws, before, next).0;
    StepInRun(ws, s0, pool, before, next);
    if Quiet(pool, s, before) {
      ActorNow(ws, s0, pool, before, next);
      TakenIsProcessed(ws, s0, pool, before, next);
      assert !Unprocessed(after, next);
    } else {
      var x :| x in Accepted(ws, s0, pool) && Unprocessed(s, x) && !Unprocessed(before, x);
      assert !Unprocessed(after, x);
    }
  }

  lemma ActorNow(ws: Workspace, s0: Store, pool: set<Delivery>, s: Store, d: Delivery)
    requires Settled(ws, s0, pool, s) && d in Accepted(ws, s0, pool)
    ensures d.event.workspace == ws.id && Actor(ws, s.auths, d).Success?
  {}

  ghost function Left(ws: Workspace, s0: Store, pool: set<Delivery>, s: Store): set<Delivery> {
    set d | d in Accepted(ws, s0, pool) && Unprocessed(s, d)
  }

  lemma PassShrinks(ws: Workspace, s0: Store, pool: set<Delivery>, rank: map<Uuid, nat>, s: Store, ds: seq<Delivery>)
    requires Plain(ws, s0, pool) && Pass(ds, pool) && InRun(ws, s0, pool, s)
    requires Deliverable(ws, s0, pool, rank)
    ensures Left(ws, s0, pool, s) == {} ==> Left(ws, s0, pool, Run(ws, s, ds)) == {}
    ensures Left(ws, s0, pool, s) != {} ==> |Left(ws, s0, pool, Run(ws, s, ds))| < |Left(ws, s0, pool, s)|
  {
    var t := Run(ws, s, ds);
    var before, after := Left(ws, s0, pool, s), Left(ws, s0, pool, t);
    RunInRun(ws, s0, pool, s, ds);
    assert after <= before;
    if before != {} {
      var d :| d in before;
      PassProgresses(ws, s0, pool, rank, s, ds, d);
      var x :| x in Accepted(ws, s0, pool) && Unprocessed(s, x) && !Unprocessed(t, x);
      assert x in before && x !in after;
      Larger(after, before);
    }
  }

  lemma {:induction false} PassesDeliver(ws: Workspace, s0: Store, pool: set<Delivery>, rank: map<Uuid, nat>, s: Store,
                                         ps: seq<seq<Delivery>>)
    requires Plain(ws, s0, pool) && AllPasses(ps, pool) && InRun(ws, s0, pool, s)
    requires Deliverable(ws, s0, pool, rank)
    ensures var t := Passes(ws, s, ps);
      InRun(ws, s0, pool, t)
      && (Left(ws, s0, pool, t) == {} || |Left(ws, s0, pool, t)| + |ps| <= |Left(ws, s0, pool, s)|)
  {
    if ps != [] {
      var front, last := ps[..|ps| - 1], ps[|ps| - 1];
      PassesDeliver(ws, s0, pool, rank, s, front);
      assert Pass(last, pool);
      RunInRun(ws, s0, pool, Passes(ws, s, front), last);
      PassShrinks(ws, s0, pool, rank, Passes(ws, s, front), last);
    }
  }

  // The main results.

  lemma FirstPasses(ws: Workspace, s0: Store, pool: set<Delivery>, ps: seq<seq<Delivery>>)
    requires Plain(ws, s0, pool) && AllPasses(ps, pool) && |ps| >= |pool|
    ensures InRun(ws, s0, pool, Passes(ws, s0, ps))
  {
    StartNothing(ws, s0, pool);
    AuthorizationFixpoint(ws, s0, pool, ps);
    PassesSound(ws, s0, pool, ps);
  }

  lemma StartNothing(ws: Workspace, s0: Store, pool: set<Delivery>)
    requires Plain(ws, s0, pool)
    ensures NothingProcessed(s0, pool)
  {
    forall d | d in pool ensures Unprocessed(s0, d) {
      assert Ready(s0, pool, d.event.entity);
    }
  }

  lemma {:induction false} RunSound(ws: Workspace, s0: Store, pool: set<Delivery>, s: Store, known: set<AuthKey>,
                                    ds: seq<Delivery>)
    requires Plain(ws, s0, pool) && From(ds, pool) && Knows(ws, s0.auths, pool, s, known) && Sound(ws, s0, pool, s)
    ensures Sound(ws, s0, pool, Run(ws, s, ds))
  {
    if ds != [] {
      var front := ds[..|ds| - 1];
      RunSound(ws, s0, pool, s, known, front);
      RunKnows(ws, s0.auths, pool, s, known, front);
      StepSound(ws, s0, pool, Run(ws, s, front), KnownAfter(ws, s, known, front), ds[|ds| - 1]);
    }
  }

  lemma {:induction false} PassesSound(ws: Workspace, s0: Store, pool: set<Delivery>, ps: seq<seq<Delivery>>)
    requires Plain(ws, s0, pool) && AllPasses(ps, pool)
    ensures Sound(ws, s0, pool, Passes(ws, s0, ps))
  {
    if ps == [] {
      StartSound(ws, s0, pool);
    } else {
      var front, last := ps[..|ps| - 1], ps[|ps| - 1];
      PassesSound(ws, s0, pool, front);
      StartNothing(ws, s0, pool);
      assert Overlay(ws, s0.auths, {}) == s0.auths;
      var known := PassesLearn(ws, s0, pool, front);
      assert Pass(last, pool);
      RunSound(ws, s0, pool, Passes(ws, s0, front), known, last);
    }
  }

  lemma {:induction false} PassesSplit(ws: Workspace, s: Store, a: seq<seq<Delivery>>, b: seq<seq<Delivery>>)
    ensures Passes(ws, s, a + b) == Passes(ws, Passes(ws, s, a), b)
  {
    if b == [] {
      assert a + b == a;
    } else {
      PassesSplit(ws, s, a, b[..|b| - 1]);
      assert (a + b)[..|a + b| - 1] == a + b[..|b| - 1];
    }
  }

  ghost predicate AllDelivered(ws: Workspace, s0: Store, pool: set<Delivery>, s: Store) {
    forall d :: d in Accepted(ws, s0, pool) ==> Processed(s.ledger, d.event.id)
  }

  lemma PassesCut(ps: seq<seq<Delivery>>, pool: set<Delivery>)
    requires AllPasses(ps, pool) && |ps| >= |pool|
    ensures AllPasses(ps[..|pool|], pool) && AllPasses(ps[|pool|..], pool)
  {
    forall i | 0 <= i < |ps| - |pool| ensures Pass(ps[|pool|..][i], pool) {
      assert Pass(ps[|pool| + i], pool);
    }
  }

  /** Under these conditions enough passes, in any orders, get every accepted event processed. */
  lemma PoolDelivered(ws: Workspace, s0: Store, pool: set<Delivery>, rank: map<Uuid, nat>, ps: seq<seq<Delivery>>)
    requires Plain(ws, s0, pool) && AllPasses(ps, pool) && |ps| >= 2 * |pool|
    requires Deliverable(ws, s0, pool, rank)
    ensures AllDelivered(ws, s0, pool, Passes(ws, s0, ps))
  {
    hide *;
    var a, b := ps[..|pool|], ps[|pool|..];
    assert ps == a + b;
    PassesCut(ps, pool);
    PassesSplit(ws, s0, a, b);
    FirstPasses(ws, s0, pool, a);
    PassesDeliver(ws, s0, pool, rank, Passes(ws, s0, a), b);
    NothingLeft(ws, s0, pool, Passes(ws, s0, a), Passes(ws, s0, ps), |b|);
  }

  lemma NothingLeft(ws: Workspace, s0: Store, pool: set<Delivery>, s: Store, t: Store, n: nat)
    requires n >= |pool|
    requires Left(ws, s0, pool, t) == {} || |Left(ws, s0, pool, t)| + n <= |Left(ws, s0, pool, s)|
    ensures AllDelivered(ws, s0, pool, t)
  {
    Smaller(Left(ws, s0, pool, s), pool);
    assert Left(ws, s0, pool, t) == {};
    forall d | d in Accepted(ws, s0, pool) ensures Processed(t.ledger, d.event.id) {
      assert d !in Left(ws, s0, pool, t);
    }
  }

  /** Where everything accepted was processed, the merged dates are in order: the table holds them. */
  lemma DatesNecessary(ws: Workspace, s0: Store, pool: set<Delivery>, s: Store, c: Uuid)
    requires Plain(ws, s0, pool) && Sound(ws, s0, pool, s) && AllDelivered(ws, s0, pool, s)
    ensures DatesEndOrdered(ws, s0, pool, c)
  {
    var accepted, v0 := Accepted(ws, s0, pool), CardViewOf(s0.data, c);
    if Cards.Live(v0) && !(exists d :: d in accepted && DeleteOn(d.event, c)) {
      if exists d :: d in accepted && d.event.entity == c {
        TouchedDates(ws, s0, pool, s, c);
      } else {
        UntouchedDates(ws, s0, pool, c);
      }
    }
  }

  lemma UntouchedDates(ws: Workspace, s0: Store, pool: set<Delivery>, c: Uuid)
    requires RowsAllowed(s0.data) && Cards.Live(CardViewOf(s0.data, c))
    requires forall d :: d in Accepted(ws, s0, pool) ==> d.event.entity != c
    ensures Dates.FinalDates(CardViewOf(s0.data, c), WritesOn(Accepted(ws, s0, pool), c))
  {
    var v0 := CardViewOf(s0.data, c);
    assert WritesOn(Accepted(ws, s0, pool), c) == {};
    assert RowAllowed(s0.data.cards, s0.data.cards[c].board, c, s0.data.cards[c].values);
    forall v | Cards.AllSettled(v0, {}, v) ensures Dates.DatesOrdered(v.row.value.values) {
      forall f: Cards.CardField ensures Cards.CellOf(v, f) == Cards.CellOf(v0, f) {
        assert Cards.Settled(Cards.CellOf(v0, f), {}, f, Cards.CellOf(v, f));
      }
      Cards.SameView(v, v0);
    }
  }

  lemma TouchedDates(ws: Workspace, s0: Store, pool: set<Delivery>, s: Store, c: Uuid)
    requires Plain(ws, s0, pool) && Sound(ws, s0, pool, s) && AllDelivered(ws, s0, pool, s)
    requires Cards.Live(CardViewOf(s0.data, c))
    requires exists d :: d in Accepted(ws, s0, pool) && d.event.entity == c
    requires !(exists d :: d in Accepted(ws, s0, pool) && DeleteOn(d.event, c))
    ensures Dates.FinalDates(CardViewOf(s0.data, c), WritesOn(Accepted(ws, s0, pool), c))
  {
    var v0, all := CardViewOf(s0.data, c), WritesOn(Accepted(ws, s0, pool), c);
    var d :| d in Accepted(ws, s0, pool) && d.event.entity == c;
    assert Tracks(v0, pool, c, s);
    NotTombstoned(ws, s0, pool, s, c);
    EverythingApplied(ws, s0, pool, s, c);
    WritesDistinct(pool, c);
    Cards.CameSettled(v0, all, CardViewOf(s.data, c));
    assert RowAllowed(s.data.cards, s.data.cards[c].board, c, s.data.cards[c].values);
    forall v | Cards.AllSettled(v0, all, v) ensures Dates.DatesOrdered(v.row.value.values) {
      Cards.AllSettledUnique(v0, all, v, CardViewOf(s.data, c));
    }
  }

  lemma EverythingApplied(ws: Workspace, s0: Store, pool: set<Delivery>, s: Store, c: Uuid)
    requires Plain(ws, s0, pool) && Sound(ws, s0, pool, s) && AllDelivered(ws, s0, pool, s)
    requires Tracks(CardViewOf(s0.data, c), pool, c, s) && c !in s.data.tombstones
    ensures AppliedWrites(s, pool, c) == WritesOn(Accepted(ws, s0, pool), c)
    ensures WritesOn(Accepted(ws, s0, pool), c) <= WritesOn(pool, c)
  {
    WritesAccepted(ws, s0, pool, s, c);
    forall w | w in WritesOn(Accepted(ws, s0, pool), c) ensures w in AppliedWrites(s, pool, c) {
      var d :| d in Accepted(ws, s0, pool) && PutOn(d.event, c) && w == WriteFor(d.event);
      assert IsApplied(s, d.event);
    }
  }

  lemma NotTombstoned(ws: Workspace, s0: Store, pool: set<Delivery>, s: Store, c: Uuid)
    requires Sound(ws, s0, pool, s) && Tracks(CardViewOf(s0.data, c), pool, c, s)
    requires !(exists d :: d in Accepted(ws, s0, pool) && DeleteOn(d.event, c))
    ensures c !in s.data.tombstones
  {
    forall d | d in pool && DeleteOn(d.event, c) ensures !IsApplied(s, d.event) {
      assert !HasAccepted(ws, s0, pool, d.event);
    }
  }
}
