/**
 The node as the program runs it: tables that each event updates in place, inside a
 transaction that is rolled back on failure. Every method is proved to do exactly what
 the corresponding function of RoamingModel says, so the theorems hold of this code.
 */
module RoamingReplica {
  import opened Wrappers
  import opened Stamps
  import opened RoamingModel
  import opened RoamingConvergence
  import Cards = CardMerge
  import Children = ChildMerge
  import Link = DeviceLink

  /** One write into the version table per element, in any order. */
  function StampAll(stamps: StampTable, keys: set<Key>, s: Stamp): StampTable {
    stamps + map k | k in keys :: s
  }

  function MaskFields(mask: seq<MaskEntry>): set<MaskEntry> {
    if Every in mask then set f | f in Cards.CardFields() :: Named(f) else set m | m in mask
  }

  function WinnersAmong(stamps: StampTable, card: Uuid, entries: set<MaskEntry>, s: Stamp): set<Cards.CardField> {
    set f | f in Cards.CardFields() && Named(f) in entries && Beats(s, Lookup(stamps, Key(card, CardStamp(f))))
  }

  lemma WinnersGrow(stamps: StampTable, card: Uuid, done: set<MaskEntry>, m: MaskEntry, s: Stamp)
    ensures WinnersAmong(stamps, card, done + {m}, s) ==
      if m.Named? && Beats(s, Lookup(stamps, Key(card, CardStamp(m.field))))
      then WinnersAmong(stamps, card, done, s) + {m.field} else WinnersAmong(stamps, card, done, s)
  {}

  lemma WinnersOfMask(data: Data, card: Uuid, w: Cards.CardWrite, mask: seq<MaskEntry>)
    requires w.mask == Requested(mask)
    ensures Cards.Winning(CardViewOf(data, card), w) ==
      if card in data.cards then WinnersAmong(data.stamps, card, MaskFields(mask), w.stamp) else Cards.CardFields()
  {
    if card in data.cards {
      forall f: Cards.CardField
        ensures f in w.mask <==> Named(f) in MaskFields(mask)
        ensures Lookup(CardStampsOf(data.stamps, card), f) == Lookup(data.stamps, Key(card, CardStamp(f)))
      {
        CardStampAt(data.stamps, card, f);
      }
    }
  }

  class Replica {
    const ws: Workspace
    var auths: AuthTable
    var ledger: Ledger
    var cards: map<Uuid, CardRow>
    var checklists: map<Uuid, ChildEntry>
    var items: map<Uuid, ChildEntry>
    var appearance: map<Uuid, Appearance>
    var tombstones: map<Uuid, int>
    var stamps: StampTable

    constructor (ws: Workspace, start: Store)
      ensures this.ws == ws && State() == start
    {
      this.ws := ws;
      auths, ledger := start.auths, start.ledger;
      cards, checklists, items := start.data.cards, start.data.checklists, start.data.items;
      appearance, tombstones, stamps := start.data.appearance, start.data.tombstones, start.data.stamps;
    }

    function Contents(): Data
      reads this
    {
      Data(cards, checklists, items, appearance, tombstones, stamps)
    }

    function State(): Store
      reads this
    {
      Store(auths, ledger, Contents())
    }

    method Rollback(saved: Store)
      modifies this
      ensures State() == saved
    {
      auths, ledger := saved.auths, saved.ledger;
      cards, checklists, items := saved.data.cards, saved.data.checklists, saved.data.items;
      appearance, tombstones, stamps := saved.data.appearance, saved.data.tombstones, saved.data.stamps;
    }

    /** The unique constraints of the ledger refuse the row, or it is stored. */
    method InsertLedger(d: Delivery, status: Status) returns (stored: bool)
      modifies this`ledger
      ensures stored == LedgerFree(old(ledger), d)
      ensures ledger == if stored then old(ledger)[d.event.id := Entry(d, status)] else old(ledger)
    {
      stored := LedgerFree(ledger, d);
      if stored {
        ledger := ledger[d.event.id := Entry(d, status)];
      }
    }

    method FieldWins(key: Key, s: Stamp) returns (wins: bool)
      ensures wins <==> Beats(s, Lookup(stamps, key))
    {
      if key !in stamps { return true; }
      var current := stamps[key];
      if s.clock != current.clock { return s.clock > current.clock; }
      if s.replica != current.replica { return s.replica > current.replica; }
      return s.event > current.event;
    }

    method StoreFieldVersion(key: Key, s: Stamp)
      modifies this`stamps
      ensures stamps == old(stamps)[key := s]
    {
      stamps := stamps[key := s];
    }

    method StoreFieldVersions(keys: set<Key>, s: Stamp)
      modifies this`stamps
      ensures stamps == StampAll(old(stamps), keys, s)
    {
      var left := keys;
      while left != {}
        invariant left <= keys
        invariant stamps == StampAll(old(stamps), keys - left, s)
        decreases |left|
      {
        var key :| key in left;
        StoreFieldVersion(key, s);
        assert keys - (left - {key}) == (keys - left) + {key};
        left := left - {key};
      }
    }

    // Appearance and deletion.

    method ApplyAppearance(d: Delivery) returns (outcome: Outcome)
      requires d.event.operation.AppearancePut?
      modifies this
      ensures (State(), outcome) == RoamingModel.ApplyAppearance(old(State()), d)
    {
      var board, s := d.event.board, StampOf(d.event);
      if d.event.operation.appearance.None? { return Refused(PayloadMissing); }
      var stored := InsertLedger(d, Applied);
      if !stored { return Refused(LedgerConflict); }
      var wins := FieldWins(Key(board, BoardAppearance), s);
      if wins {
        appearance := appearance[board := d.event.operation.appearance.value];
        StoreFieldVersion(Key(board, BoardAppearance), s);
      }
      return Done;
    }

    method ApplyCardDelete(d: Delivery) returns (outcome: Outcome)
      requires d.event.operation.CardDelete?
      modifies this
      ensures (State(), outcome) == RoamingModel.ApplyDelete(old(State()), d)
    {
      hide LedgerFree;
      var card, s := d.event.entity, StampOf(d.event);
      if card in cards && cards[card].board != d.event.board { return Refused(ForeignCard); }
      var saved := State();
      var stored := InsertLedger(d, Applied);
      if !stored { return Refused(LedgerConflict); }
      if d.event.operation.deletedAt.None? {
        Rollback(saved);
        return Refused(BadTime);
      }
      SoftDelete(card, d.event.operation.deletedAt.value, s);
      return Done;
    }

    method SoftDelete(card: Uuid, at: int, s: Stamp)
      modifies this`cards, this`tombstones, this`stamps
      ensures Contents() == DeleteCard(old(Contents()), card, at, s)
    {
      if card in cards {
        var row := cards[card];
        cards := cards[card :=
          row.(deletedAt := Some(if row.deletedAt.Some? then Max(row.deletedAt.value, at) else at))];
      }
      tombstones := tombstones[card := if card in tombstones then Max(tombstones[card], at) else at];
      var key := Key(card, CardLifecycle);
      if key !in stamps {
        stamps := stamps[key := s];
      } else if s.clock >= stamps[key].clock {
        stamps := stamps[key := Stamp(Max(stamps[key].clock, s.clock), s.replica, s.event)];
      }
    }

    // Cards.

    method WinningFields(mask: seq<MaskEntry>, card: Uuid, s: Stamp) returns (winning: set<Cards.CardField>)
      ensures winning == WinnersAmong(stamps, card, MaskFields(mask), s)
    {
      var left := MaskFields(mask);
      winning := {};
      ghost var all := left;
      while left != {}
        invariant left <= all
        invariant winning == WinnersAmong(stamps, card, all - left, s)
        decreases |left|
      {
        var entry :| entry in left;
        WinnersGrow(stamps, card, all - left, entry, s);
        assert all - (left - {entry}) == (all - left) + {entry};
        left := left - {entry};
        if entry.Named? {
          var wins := FieldWins(Key(card, CardStamp(entry.field)), s);
          if wins { winning := winning + {entry.field}; }
        }
      }
    }

    method FillItem(checklist: Uuid, p: ChildPayload) returns (r: Option<Fault>)
      modifies this`items
      ensures r.None? <==> RoamingModel.FillItem(old(Contents()), checklist, p).Success?
      ensures r.None? ==> RoamingModel.FillItem(old(Contents()), checklist, p) == Success(Contents())
      ensures r.Some? ==> RoamingModel.FillItem(old(Contents()), checklist, p) == Failure(r.value)
    {
      if p.owner != checklist { return Some(ScopeMismatch); }
      var title := CleanTitle(p.title);
      if title.None? { return Some(TitleMissing); }
      if p.done.None? { return Some(StateMissing); }
      if p.id in items && items[p.id].owner != checklist { return Some(ForeignChild); }
      if p.id !in items {
        var values := Children.ChildValues(title.value, PositionOf(p.position), p.done.value);
        items := items[p.id := ChildEntry(checklist, Children.ChildRow(values, false))];
      }
      return None;
    }

    method FillList(card: Uuid, l: BundleList) returns (r: Option<Fault>)
      modifies this`items, this`checklists
      ensures r.None? ==> RoamingModel.FillList(old(Contents()), card, l) == Success(Contents())
      ensures r.Some? ==> RoamingModel.FillList(old(Contents()), card, l) == Failure(r.value)
    {
      var p := l.head;
      if p.owner != card { return Some(ScopeMismatch); }
      var title := CleanTitle(p.title);
      if title.None? { return Some(TitleMissing); }
      if p.id in checklists && checklists[p.id].owner != card { return Some(ForeignChild); }
      if p.id !in checklists {
        var values := Children.ChildValues(title.value, PositionOf(p.position), false);
        checklists := checklists[p.id := ChildEntry(card, Children.ChildRow(values, false))];
      }
      if l.items.None? { return Some(PayloadMissing); }
      ghost var filled := Contents();
      for i := 0 to |l.items.value|
        invariant FillItems(filled, p.id, l.items.value) == FillItems(Contents(), p.id, l.items.value[i..])
        invariant checklists == filled.checklists
      {
        var fault := FillItem(p.id, l.items.value[i]);
        if fault.Some? { return fault; }
      }
      return None;
    }

    method ApplyChecklistBundle(card: Uuid, b: Bundle) returns (r: Option<Fault>)
      modifies this`items, this`checklists
      ensures r.None? ==> FillBundle(old(Contents()), card, b) == Success(Contents())
      ensures r.Some? ==> FillBundle(old(Contents()), card, b) == Failure(r.value)
    {
      hide RoamingModel.FillList;
      if b.NotAnArray? { return Some(PayloadMissing); }
      for i := 0 to |b.lists|
        invariant FillLists(old(Contents()), card, b.lists) == FillLists(Contents(), card, b.lists[i..])
      {
        var fault := FillList(card, b.lists[i]);
        if fault.Some? { return fault; }
      }
      return None;
    }

    /** Inserts the row, or updates its winning columns; a soft-deleted row is left alone. */
    method WriteRow(card: Uuid, board: Uuid, w: Cards.CardWrite, winning: set<Cards.CardField>) returns (allowed: bool)
      requires winning == Cards.Winning(CardViewOf(Contents(), card), w)
      requires card in cards ==> cards[card].board == board
      modifies this`cards
      ensures allowed == PutAllowed(old(Contents()), card, board, w)
      ensures cards == if allowed then StorePut(old(Contents()), card, board, w).cards else old(cards)
    {
      hide RowAllowed, Cards.Winning, CardStampsOf, StampCard;
      if card !in cards {
        allowed := RowAllowed(cards, board, card, w.values);
        assert winning != {} by { NewRowStampsAll(Contents(), card, w); }
        if allowed { cards := cards[card := CardRow(board, w.values, None)]; }
        return;
      }
      var row := cards[card];
      if winning != {} && row.deletedAt.None? {
        var values := Cards.Overwrite(row.values, w.values, winning);
        allowed := RowAllowed(cards, board, card, values);
        if allowed { cards := cards[card := row.(values := values)]; }
      } else {
        allowed := true;
        assert winning == {} ==> Cards.Overwrite(row.values, w.values, winning) == row.values;
        assert old(cards)[card := CardRow(board, row.values, row.deletedAt)] == cards;
      }
    }

    method ApplyPut(d: Delivery) returns (outcome: Outcome)
      requires d.event.operation.CardPut?
      modifies this
      ensures (State(), outcome) == RoamingModel.ApplyPut(ws, old(State()), d)
    {
      hide CheckPut, PutCard, LedgerFree, ApplyDelta, CheckDelta;
      var e := d.event;
      if e.entity in tombstones {
        var kept := InsertLedger(d, TombstoneWins);
        return if kept then Done else Refused(LedgerConflict);
      }
      if e.operation.delta.Some? {
        outcome := ApplyChecklistDelta(d, e.operation.delta.value);
        return;
      }
      var checked := CheckPut(ws, e, e.operation.card);
      if checked.Failure? { return Refused(checked.error); }
      CheckedPut(ws, e);
      var saved := State();
      var stored := InsertLedger(d, Applied);
      if !stored { return Refused(LedgerConflict); }
      var fault := MergeCard(e, e.operation.card.value, checked.value);
      if fault.Some? {
        Rollback(saved);
        return Refused(fault.value);
      }
      return Done;
    }

    /** The body of the put's transaction: on failure the caller rolls back. */
    method MergeCard(e: Event, p: CardPayload, w: Cards.CardWrite) returns (r: Option<Fault>)
      requires e.operation.CardPut? && w.mask == Requested(e.operation.mask)
      modifies this`cards, this`checklists, this`items, this`stamps
      ensures r.None? ==> PutCard(old(Contents()), e, p, w) == Success(Contents())
      ensures r.Some? ==> PutCard(old(Contents()), e, p, w) == Failure(r.value)
    {
      hide PutAllowed, StorePut, FillBundle, Cards.Winning, CardViewOf, WinnersAmong, MaskFields, Requested;
      var card := e.entity;
      var winning := WinningFields(e.operation.mask, card, w.stamp);
      WinnersOfMask(Contents(), card, w, e.operation.mask);
      if card in cards && cards[card].board != e.board { return Some(ForeignCard); }
      if card !in cards { winning := Cards.CardFields(); }
      if winning != {} && p.parent.MalformedParent? { return Some(BadParent); }
      var rewritten := card !in cards || cards[card].deletedAt.None?;
      if rewritten && StoresMalformedTime(p, winning) { return Some(BadTime); }
      ghost var before := Contents();
      var allowed := WriteRow(card, e.board, w, winning);
      if !allowed { return Some(ConstraintViolated); }
      StoreFieldVersions(CardKeys(card, winning), w.stamp);
      PutParts(before, card, e.board, w);
      assert Contents() == StorePut(before, card, e.board, w);
      if Cards.Checklists in winning && e.operation.bundle.Some? {
        r := ApplyChecklistBundle(card, e.operation.bundle.value);
        return;
      }
      return None;
    }

    // Checklists and items.

    method ApplyChecklistDelta(d: Delivery, delta: Delta) returns (outcome: Outcome)
      modifies this
      ensures var checked := CheckDelta(old(Contents()), d.event, delta);
        (State(), outcome) ==
          if checked.Refused? then (old(State()), checked)
          else Commit(old(State()), d, ApplyDelta(old(Contents()), d.event, delta))
    {
      hide LedgerFree, ApplyPutChecklist, ApplyPutItem, ApplyDeleteChecklist, ApplyDeleteItem;
      var e := d.event;
      if delta.card != e.entity { return Refused(ScopeMismatch); }
      if !(e.entity in cards && cards[e.entity].board == e.board && cards[e.entity].deletedAt.None?) {
        return Refused(CardMissing);
      }
      var saved := State();
      var stored := InsertLedger(d, Applied);
      if !stored { return Refused(LedgerConflict); }
      var fault: Option<Fault> := None;
      match delta {
        case PutChecklist(_, _, _, _) => fault := PutChecklistDelta(e, delta);
        case DeleteChecklist(card, id) => DeleteChecklistDelta(card, id, StampOf(e));
        case PutItem(_, _, _, _, _) => fault := PutItemDelta(e, delta);
        case DeleteItem(card, id) => DeleteItemDelta(card, id, StampOf(e));
        case UnknownDelta(_) => fault := Some(UnknownKind);
      }
      if fault.Some? {
        Rollback(saved);
        return Refused(fault.value);
      }
      return Done;
    }

    method PutChecklistDelta(e: Event, d: Delta) returns (r: Option<Fault>)
      requires d.PutChecklist?
      modifies this`checklists, this`items, this`stamps
      ensures r.None? ==> ApplyPutChecklist(old(Contents()), e, d) == Success(Contents())
      ensures r.Some? ==> ApplyPutChecklist(old(Contents()), e, d) == Failure(r.value)
    {
      hide PutChild;
      if d.payload.None? { return Some(PayloadMissing); }
      var p := d.payload.value;
      if p.id != d.checklist || p.owner != d.card { return Some(ScopeMismatch); }
      var title := CleanTitle(p.title);
      if title.None? { return Some(TitleMissing); }
      if d.checklist in checklists && checklists[d.checklist].owner != d.card { return Some(ForeignChild); }
      var values := Children.ChildValues(title.value, PositionOf(p.position), false);
      MergeChild(Children.Checklist, d.checklist, d.card, ChildWriteOf(e, d.mask, values));
      return None;
    }

    method PutItemDelta(e: Event, d: Delta) returns (r: Option<Fault>)
      requires d.PutItem?
      modifies this`checklists, this`items, this`stamps
      ensures r.None? ==> ApplyPutItem(old(Contents()), e, d) == Success(Contents())
      ensures r.Some? ==> ApplyPutItem(old(Contents()), e, d) == Failure(r.value)
    {
      hide PutChild;
      if d.payload.None? { return Some(PayloadMissing); }
      var p := d.payload.value;
      if p.id != d.item || p.owner != d.checklist { return Some(ScopeMismatch); }
      if !(d.checklist in checklists && checklists[d.checklist].owner == d.card
           && !checklists[d.checklist].row.deleted) { return Some(ParentMissing); }
      var title := CleanTitle(p.title);
      if title.None? { return Some(TitleMissing); }
      if p.done.None? { return Some(StateMissing); }
      if d.item in items && items[d.item].owner != d.checklist { return Some(ForeignChild); }
      var values := Children.ChildValues(title.value, PositionOf(p.position), p.done.value);
      MergeChild(Children.Item, d.item, d.checklist, ChildWriteOf(e, d.mask, values));
      return None;
    }

    method SetChild(kind: Children.ChildKind, id: Uuid, entry: ChildEntry)
      modifies this`checklists, this`items
      ensures Contents() == SetRow(old(Contents()), kind, id, entry.owner, Some(entry.row))
    {
      if kind.Checklist? {
        checklists := checklists[id := entry];
      } else {
        items := items[id := entry];
      }
    }

    /** Compares the lifecycle and every named column, writes the row, then stores the versions that won. */
    method MergeChild(kind: Children.ChildKind, id: Uuid, owner: Uuid, w: Children.ChildWrite)
      modifies this`checklists, this`items, this`stamps
      ensures Contents() == PutChild(old(Contents()), kind, id, owner, w)
    {
      hide Children.Winning, Children.Overwrite, ChildStampsOf, Contests;
      ghost var before, v := Contents(), ChildViewOf(Contents(), kind, id);
      var rows := Rows(Contents(), kind);
      var life := false;
      if w.all || id !in rows { life := FieldWins(Key(id, ChildLife(kind)), w.stamp); }
      assert life == Children.LifeWins(v, w);
      var win := WinningColumns(kind, id, w);
      ColumnWinners(before, kind, id, w);
      WriteChild(kind, id, owner, w, win, life);
      StoreFieldVersions(ChildKeys(kind, id, win), w.stamp);
      if life { StoreFieldVersion(Key(id, ChildLife(kind)), w.stamp); }
    }

    method WriteChild(kind: Children.ChildKind, id: Uuid, owner: Uuid, w: Children.ChildWrite,
                      win: set<Children.ChildField>, life: bool)
      modifies this`checklists, this`items
      ensures Contents() ==
        SetRow(old(Contents()), kind, id, owner, Children.PutRow(ChildViewOf(old(Contents()), kind, id), w, win, life))
    {
      hide Children.Overwrite, ChildStampsOf;
      var rows := Rows(Contents(), kind);
      if id !in rows {
        if life { SetChild(kind, id, ChildEntry(owner, Children.ChildRow(w.values, false))); }
      } else {
        var row := rows[id].row;
        if !row.deleted || life {
          row := Children.ChildRow(Children.Overwrite(row.values, w.values, win), row.deleted && !life);
        }
        SetChild(kind, id, ChildEntry(owner, row));
      }
    }

    method ColumnWins(kind: Children.ChildKind, id: Uuid, w: Children.ChildWrite, f: Children.ChildField)
      returns (wins: bool)
      ensures wins <==> Contests(stamps, kind, id, w, f)
    {
      if !w.all && f !in w.mask { return false; }
      wins := FieldWins(Key(id, ChildStamp(kind, f)), w.stamp);
    }

    method WinningColumns(kind: Children.ChildKind, id: Uuid, w: Children.ChildWrite)
      returns (win: set<Children.ChildField>)
      ensures win == set f | f in Children.FieldsOf(kind) && Contests(stamps, kind, id, w, f)
    {
      hide Contests;
      var title := ColumnWins(kind, id, w, Children.ChildTitle);
      var position := ColumnWins(kind, id, w, Children.ChildPosition);
      win := {};
      if title { win := win + {Children.ChildTitle}; }
      if position { win := win + {Children.ChildPosition}; }
      if kind.Item? {
        var done := ColumnWins(kind, id, w, Children.ChildDone);
        if done { win := win + {Children.ChildDone}; }
      }
    }

    method DeleteChecklistDelta(card: Uuid, id: Uuid, s: Stamp)
      modifies this`checklists, this`items, this`stamps
      ensures Contents() == ApplyDeleteChecklist(old(Contents()), card, id, s)
    {
      var wins := FieldWins(Key(id, ChildLife(Children.Checklist)), s);
      if wins {
        if id in checklists && checklists[id].owner == card && !checklists[id].row.deleted {
          checklists := checklists[id := checklists[id].(row := checklists[id].row.(deleted := true))];
          items := Cascade(items, id);
        } else {
          assert id in checklists && checklists[id].owner == card ==>
            checklists[id := checklists[id].(row := checklists[id].row.(deleted := true))] == checklists;
        }
        StoreFieldVersion(Key(id, ChildLife(Children.Checklist)), s);
      }
    }

    method DeleteItemDelta(card: Uuid, id: Uuid, s: Stamp)
      modifies this`items, this`stamps
      ensures Contents() == ApplyDeleteItem(old(Contents()), card, id, s)
    {
      var wins := FieldWins(Key(id, ChildLife(Children.Item)), s);
      if wins {
        if ItemUnder(Contents(), card, id) && !items[id].row.deleted {
          items := items[id := items[id].(row := items[id].row.(deleted := true))];
        } else {
          assert id in items && items[id].row.deleted ==>
            items[id := items[id].(row := items[id].row.(deleted := true))] == items;
        }
        StoreFieldVersion(Key(id, ChildLife(Children.Item)), s);
      }
    }

    // Authorization and dispatch.

    method EventActor(d: Delivery) returns (r: Result<Uuid, Fault>)
      modifies this`auths
      ensures r.Success? ==> Actor(ws, old(auths), d) == Success((r.value, auths))
      ensures r.Failure? ==> Actor(ws, old(auths), d) == Failure(r.error) && auths == old(auths)
    {
      hide Link.Accepts;
      var e := d.event;
      if e.board !in ws.epochs { return Failure(BoardNotActive); }
      var epoch := ws.epochs[e.board];
      if e.epoch != epoch { return Failure(StaleEpoch); }
      if Usable(ws, auths, AuthorOf(d)) { return Success(auths[AuthorOf(d)].user); }
      if e.delegation.Some? {
        var verified := Link.VerifyReplicationChain(ws.crypto, e.delegation.value, d.author, d.signedAt, ws.clock);
        if verified.Failure? { return Failure(BadDelegation); }
        var (root, g) := verified.value;
        if g.board != e.board || g.workspace != ws.id || g.epoch != epoch { return Failure(BadDelegation); }
        var trusted := Root(ws, auths, AuthKey(e.board, root)) && g.user == ws.owner;
        var pinned := Pinned(ws, AuthKey(e.board, root)) && g.user == ws.owner;
        if !trusted && !pinned { return Failure(UnknownRoot); }
        auths := auths[AuthorOf(d) := AuthRow(g.user, if g.user == ws.owner then Owner else Member, epoch)];
        return Success(g.user);
      }
      if epoch == 1 { return Success(ws.owner); }
      return Failure(NotAWriter);
    }

    method RecordRejected(d: Delivery) returns (outcome: Outcome)
      modifies this`ledger
      ensures (State(), outcome) == RejectUnauthorized(old(State()), d)
    {
      if d.event.id in ledger { return Done; }
      var stored := InsertLedger(d, Unauthorized);
      return if stored then Done else Refused(LedgerConflict);
    }

    method ApplyRemoteEvent(d: Delivery) returns (outcome: Outcome)
      modifies this
      ensures (State(), outcome) == Step(ws, old(State()), d)
    {
      hide RoamingModel.ApplyAppearance, RoamingModel.ApplyDelete, RoamingModel.ApplyPut, Actor, RejectUnauthorized;
      var e := d.event;
      if e.workspace != ws.id { return Refused(WrongWorkspace); }
      if e.id in ledger && ledger[e.id].status != Unauthorized { return Done; }
      if e.board !in ws.epochs { return Refused(BoardNotActive); }
      var actor := EventActor(d);
      if actor.Failure? {
        outcome := RecordRejected(d);
        return;
      }
      ledger := ledger - {e.id};
      assert State() == old(State()).(auths := auths, ledger := old(ledger) - {e.id});
      match e.operation
      case AppearancePut(_) =>
        if e.entityType != BoardEntity || e.entity != e.board { return Refused(BadShape); }
        outcome := ApplyAppearance(d);
      case CardDelete(_) =>
        if e.entityType != CardEntity { return Refused(BadShape); }
        outcome := ApplyCardDelete(d);
      case CardPut(_, _, _, _) =>
        if e.entityType != CardEntity { return Refused(BadShape); }
        outcome := ApplyPut(d);
      case OtherOperation(_) =>
        outcome := Refused(BadShape);
    }

    /** One recovery pass: every recovered event in turn, whatever became of the ones before. */
    method Recover(ds: seq<Delivery>)
      modifies this
      ensures State() == Run(ws, old(State()), ds)
    {
      hide Step;
      for i := 0 to |ds|
        invariant State() == Run(ws, old(State()), ds[..i])
      {
        assert ds[..i + 1][..i] == ds[..i];
        var _ := ApplyRemoteEvent(ds[i]);
      }
      assert ds[..|ds|] == ds;
    }
  }

  // How the loops' results fit the model.

  predicate Contests(stamps: StampTable, kind: Children.ChildKind, id: Uuid, w: Children.ChildWrite,
                     f: Children.ChildField) {
    (w.all || f in w.mask) && Beats(w.stamp, Lookup(stamps, Key(id, ChildStamp(kind, f))))
  }

  lemma ColumnWinners(data: Data, kind: Children.ChildKind, id: Uuid, w: Children.ChildWrite)
    ensures Children.Winning(kind, ChildViewOf(data, kind, id), w) ==
      set f | f in Children.FieldsOf(kind) && Contests(data.stamps, kind, id, w, f)
  {
    forall f | f in Children.FieldsOf(kind)
      ensures Lookup(ChildStampsOf(data.stamps, kind, id), f) == Lookup(data.stamps, Key(id, ChildStamp(kind, f)))
    {}
  }

  lemma NewRowStampsAll(data: Data, card: Uuid, w: Cards.CardWrite)
    requires card !in data.cards
    ensures Cards.Winning(CardViewOf(data, card), w) != {}
  {
    assert Cards.Title in Cards.CardFields();
  }

  lemma CheckedPut(ws: Workspace, e: Event)
    requires e.operation.CardPut? && CheckPut(ws, e, e.operation.card).Success?
    ensures e.operation.card.Some? && CheckPut(ws, e, e.operation.card).value.mask == Requested(e.operation.mask)
  {}

  lemma PutParts(data: Data, card: Uuid, board: Uuid, w: Cards.CardWrite)
    ensures var after := StorePut(data, card, board, w);
      after == data.(cards := after.cards,
        stamps := StampAll(data.stamps, CardKeys(card, Cards.Winning(CardViewOf(data, card), w)), w.stamp))
  {}
}
