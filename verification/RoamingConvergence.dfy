/**
 Strong convergence of the visible board: whatever a node received, in whatever order
 and however often, a card is a function of the set of events the node applied.
 */
module RoamingConvergence {
  import opened Wrappers
  import opened Stamps
  import opened RoamingModel
  import Cards = CardMerge
  import Children = ChildMerge

  // Which parts of the store a step can reach.

  lemma {:induction false} FillItemsFrame(data: Data, checklist: Uuid, items: seq<ChildPayload>)
    requires FillItems(data, checklist, items).Success?
    ensures var d := FillItems(data, checklist, items).value;
      d == data.(items := d.items) && (forall i :: i in data.items ==> i in d.items && d.items[i] == data.items[i])
    decreases |items|
  {
    if items != [] { FillItemsFrame(FillItem(data, checklist, items[0]).value, checklist, items[1..]); }
  }

  /** A bundle leaves every row and every stamp that exists as it was. */
  lemma {:induction false} FillListsFrame(data: Data, card: Uuid, lists: seq<BundleList>)
    requires FillLists(data, card, lists).Success?
    ensures var d := FillLists(data, card, lists).value;
      && d == data.(items := d.items, checklists := d.checklists)
      && (forall i :: i in data.items ==> i in d.items && d.items[i] == data.items[i])
      && (forall i :: i in data.checklists ==> i in d.checklists && d.checklists[i] == data.checklists[i])
    decreases |lists|
  {
    if lists != [] {
      var l := lists[0];
      var p := l.head;
      var values := Children.ChildValues(CleanTitle(p.title).value, PositionOf(p.position), false);
      var filled :=
        if p.id in data.checklists then data
        else data.(checklists := data.checklists[p.id := ChildEntry(card, Children.ChildRow(values, false))]);
      FillItemsFrame(filled, p.id, l.items.value);
      FillListsFrame(FillList(data, card, l).value, card, lists[1..]);
    }
  }

  /** The card side of the data is untouched. */
  ghost predicate SameCards(a: Data, b: Data) {
    a.cards == b.cards && a.tombstones == b.tombstones
    && forall c, f :: SameStampAt(a, b, Key(c, CardStamp(f)))
  }

  ghost predicate SameStampAt(a: Data, b: Data, k: Key) {
    Lookup(a.stamps, k) == Lookup(b.stamps, k)
  }

  lemma SameCardsView(a: Data, b: Data, c: Uuid)
    requires SameCards(a, b)
    ensures CardViewOf(a, c) == CardViewOf(b, c)
  {
    forall f: Cards.CardField
      ensures Lookup(CardStampsOf(a.stamps, c), f) == Lookup(CardStampsOf(b.stamps, c), f)
    {
      CardStampAt(a.stamps, c, f);
      CardStampAt(b.stamps, c, f);
      assert SameStampAt(a, b, Key(c, CardStamp(f)));
    }
    SameStamps(CardStampsOf(a.stamps, c), CardStampsOf(b.stamps, c));
  }

  lemma PutChildFrame(data: Data, kind: Children.ChildKind, id: Uuid, owner: Uuid, w: Children.ChildWrite)
    ensures SameCards(data, PutChild(data, kind, id, owner, w))
  {
    hide ChildViewOf, Children.PutRow, Children.Winning, Children.LifeWins;
    var after := PutChild(data, kind, id, owner, w);
    forall c, f ensures SameStampAt(data, after, Key(c, CardStamp(f))) {}
  }

  lemma ApplyDeltaFrame(data: Data, e: Event, d: Delta)
    requires ApplyDelta(data, e, d).Success?
    ensures SameCards(data, ApplyDelta(data, e, d).value)
  {
    hide PutChild, CleanTitle, Trim, ApplyDeleteChecklist, ApplyDeleteItem, SameCards;
    match d
    case PutChecklist(_, _, _, p) =>
      var values := Children.ChildValues(CleanTitle(p.value.title).value, PositionOf(p.value.position), false);
      PutChildFrame(data, Children.Checklist, d.checklist, d.card, ChildWriteOf(e, d.mask, values));
    case PutItem(_, _, _, _, p) =>
      var values :=
        Children.ChildValues(CleanTitle(p.value.title).value, PositionOf(p.value.position), p.value.done.value);
      PutChildFrame(data, Children.Item, d.item, d.checklist, ChildWriteOf(e, d.mask, values));
    case DeleteChecklist(card, id) => DeleteChecklistFrame(data, card, id, StampOf(e));
    case DeleteItem(card, id) => DeleteItemFrame(data, card, id, StampOf(e));
    case UnknownDelta(_) => assert false;
  }

  lemma HideFrame(data: Data, kind: Children.ChildKind, id: Uuid, s: Stamp, inScope: bool)
    requires inScope ==> id in Rows(data, kind)
    ensures SameCards(data, HideChild(data, kind, id, s, inScope))
  {
    forall c, f ensures SameStampAt(data, HideChild(data, kind, id, s, inScope), Key(c, CardStamp(f))) {}
  }

  lemma Unmoved(data: Data)
    ensures SameCards(data, data)
  {
    forall c, f ensures SameStampAt(data, data, Key(c, CardStamp(f))) {}
  }

  lemma DeleteChecklistFrame(data: Data, card: Uuid, id: Uuid, s: Stamp)
    ensures SameCards(data, ApplyDeleteChecklist(data, card, id, s))
  {
    hide HideChild, SameStampAt, Cascade;
    Unmoved(data);
    HideFrame(data, Children.Checklist, id, s, id in data.checklists && data.checklists[id].owner == card);
    ItemsFrame(data,
      HideChild(data, Children.Checklist, id, s, id in data.checklists && data.checklists[id].owner == card),
      Cascade(data.items, id));
  }

  lemma ItemsFrame(a: Data, b: Data, items: map<Uuid, ChildEntry>)
    requires SameCards(a, b)
    ensures SameCards(a, b.(items := items))
  {
    forall c, f ensures SameStampAt(a, b.(items := items), Key(c, CardStamp(f))) {
      assert SameStampAt(a, b, Key(c, CardStamp(f)));
    }
  }

  lemma DeleteItemFrame(data: Data, card: Uuid, id: Uuid, s: Stamp)
    ensures SameCards(data, ApplyDeleteItem(data, card, id, s))
  {
    hide HideChild, SameCards;
    Unmoved(data);
    HideFrame(data, Children.Item, id, s, ItemUnder(data, card, id));
  }

  lemma StampCardAt(stamps: StampTable, card: Uuid, fields: set<Cards.CardField>, s: Stamp, k: Key)
    ensures Lookup(StampCard(stamps, card, fields, s), k) ==
      if k.entity == card && k.name.CardStamp? && k.name.field in fields then Some(s) else Lookup(stamps, k)
  {
    assert k in CardKeys(card, fields) <==> k.entity == card && k.name.CardStamp? && k.name.field in fields by {
      if k.entity == card && k.name.CardStamp? && k.name.field in fields {
        assert k == Key(card, CardStamp(k.name.field));
      }
    }
  }

  lemma SameStamps(a: Cards.CardStamps, b: Cards.CardStamps)
    requires forall f: Cards.CardField :: Lookup(a, f) == Lookup(b, f)
    ensures a == b
  {
    forall f: Cards.CardField ensures f in a <==> f in b {
      assert Lookup(a, f) == Lookup(b, f);
    }
    forall f | f in a ensures a[f] == b[f] {
      assert Lookup(a, f) == Lookup(b, f);
    }
  }

  lemma CardStampAt(stamps: StampTable, c: Uuid, f: Cards.CardField)
    ensures Lookup(CardStampsOf(stamps, c), f) == Lookup(stamps, Key(c, CardStamp(f)))
  {}

  lemma StampCardView(stamps: StampTable, card: Uuid, win: set<Cards.CardField>, s: Stamp, c: Uuid)
    ensures CardStampsOf(StampCard(stamps, card, win, s), c) ==
      if c == card then Cards.Restamp(CardStampsOf(stamps, card), win, s) else CardStampsOf(stamps, c)
  {
    var after := StampCard(stamps, card, win, s);
    var b := if c == card then Cards.Restamp(CardStampsOf(stamps, card), win, s) else CardStampsOf(stamps, c);
    forall f: Cards.CardField ensures Lookup(CardStampsOf(after, c), f) == Lookup(b, f) {
      CardStampAt(after, c, f);
      CardStampAt(stamps, c, f);
      StampCardAt(stamps, card, win, s, Key(c, CardStamp(f)));
    }
    SameStamps(CardStampsOf(after, c), b);
  }

  lemma StorePutView(data: Data, card: Uuid, board: Uuid, w: Cards.CardWrite, c: Uuid)
    ensures CardViewOf(StorePut(data, card, board, w), c) ==
      if c == card then Cards.Put(CardViewOf(data, card), w) else CardViewOf(data, c)
  {
    StampCardView(data.stamps, card, Cards.Winning(CardViewOf(data, card), w), w.stamp, c);
  }

  lemma BundleFrame(data: Data, card: Uuid, b: Bundle)
    requires FillBundle(data, card, b).Success?
    ensures var d := FillBundle(data, card, b).value;
      d.cards == data.cards && d.tombstones == data.tombstones && d.stamps == data.stamps
  {
    FillListsFrame(data, card, b.lists);
  }

  lemma PutCardStores(data: Data, e: Event, p: CardPayload, w: Cards.CardWrite)
    requires e.operation.CardPut? && PutCard(data, e, p, w).Success?
    ensures var after, stored := PutCard(data, e, p, w).value, StorePut(data, e.entity, e.board, w);
      after.cards == stored.cards && after.stamps == stored.stamps && after.tombstones == data.tombstones
  {
    var stored := StorePut(data, e.entity, e.board, w);
    if PutCard(data, e, p, w).value != stored {
      BundleFrame(stored, e.entity, e.operation.bundle.value);
    }
  }

  /** A stored put is the field-by-field merge on its own card and nothing on any other. */
  lemma PutCardView(data: Data, e: Event, p: CardPayload, w: Cards.CardWrite, c: Uuid)
    requires e.operation.CardPut? && PutCard(data, e, p, w).Success?
    ensures PutCard(data, e, p, w).value.tombstones == data.tombstones
    ensures CardViewOf(PutCard(data, e, p, w).value, c) ==
      if c == e.entity then Cards.Put(CardViewOf(data, e.entity), w) else CardViewOf(data, c)
  {
    PutCardStores(data, e, p, w);
    StorePutView(data, e.entity, e.board, w, c);
    SameRowsAndStamps(PutCard(data, e, p, w).value, StorePut(data, e.entity, e.board, w), c);
  }

  lemma SameRowsAndStamps(a: Data, b: Data, c: Uuid)
    requires a.cards == b.cards && a.stamps == b.stamps
    ensures CardViewOf(a, c) == CardViewOf(b, c)
  {}

  // What one step does to one card.

  predicate PutOn(e: Event, c: Uuid) {
    e.operation.CardPut? && e.operation.delta.None? && e.entity == c
    && e.operation.card.Some? && e.operation.card.value.column.Some? && CleanTitle(e.operation.card.value.title).Some?
  }

  predicate DeleteOn(e: Event, c: Uuid) {
    e.operation.CardDelete? && e.entity == c
  }

  function WriteFor(e: Event): Cards.CardWrite
    requires PutOn(e, e.entity)
  {
    Cards.CardWrite(StampOf(e), Requested(e.operation.mask), Written(e.operation.card.value))
  }

  predicate IsApplied(s: Store, e: Event) {
    e.id in s.ledger && s.ledger[e.id].status == Applied
  }

  /** Only this event's ledger entry can change, and a final entry never does. */
  lemma StepLedger(ws: Workspace, s: Store, d: Delivery)
    ensures var t := Step(ws, s, d).0;
      && (forall k :: k != d.event.id ==>
         (k in t.ledger <==> k in s.ledger) && (k in s.ledger ==> t.ledger[k] == s.ledger[k]))
      && (Processed(s.ledger, d.event.id) ==> t == s)
  {
    hide Actor, PutAppearance, DeleteCard, CheckDelta, ApplyDelta, CheckPut, PutCard;
  }

  datatype CardEffect = Untouched | WasPut | WasDeleted

  ghost predicate HasEffect(s: Store, t: Store, d: Delivery, c: Uuid, effect: CardEffect) {
    var v, v' := CardViewOf(s.data, c), CardViewOf(t.data, c);
    match effect
    case Untouched =>
      v' == v && (c in t.data.tombstones <==> c in s.data.tombstones)
      && (PutOn(d.event, c) || DeleteOn(d.event, c) ==> (IsApplied(t, d.event) <==> IsApplied(s, d.event)))
    case WasPut =>
      PutOn(d.event, c) && c !in s.data.tombstones && c !in t.data.tombstones
      && IsApplied(t, d.event) && v' == Cards.Put(v, WriteFor(d.event))
    case WasDeleted =>
      DeleteOn(d.event, c) && IsApplied(t, d.event) && c in t.data.tombstones
      && (c in t.data.cards ==> t.data.cards[c].deletedAt.Some?)
  }

  predicate DeltaApplies(before: Data, e: Event, delta: Delta, after: Data) {
    CheckDelta(before, e, delta).Done? && ApplyDelta(before, e, delta) == Success(after)
  }

  predicate PutApplies(ws: Workspace, before: Data, e: Event, after: Data) {
    PutOn(e, e.entity) && CheckPut(ws, e, e.operation.card) == Success(WriteFor(e))
    && PutCard(before, e, e.operation.card.value, WriteFor(e)) == Success(after)
  }

  /** The data an event leaves when it is applied. */
  predicate Applies(ws: Workspace, before: Data, e: Event, after: Data) {
    match e.operation
    case AppearancePut(a) => a.Some? && after == PutAppearance(before, e.board, a.value, StampOf(e))
    case CardDelete(at) =>
      at.Some? && HomeBoard(before, e) && after == DeleteCard(before, e.entity, at.value, StampOf(e))
    case CardPut(_, card, _, delta) =>
      e.entity !in before.tombstones
      && (if delta.Some? then DeltaApplies(before, e, delta.value, after) else PutApplies(ws, before, e, after))
    case OtherOperation(_) => false
  }

  predicate HomeBoard(data: Data, e: Event) {
    e.entity in data.cards ==> data.cards[e.entity].board == e.board
  }

  predicate NewlyApplied(s: Store, t: Store, e: Event) {
    !Processed(s.ledger, e.id) && IsApplied(t, e)
  }

  /** A step moves the data only by applying its event. */
  lemma StepApplies(ws: Workspace, s: Store, d: Delivery)
    ensures var t := Step(ws, s, d).0;
      if NewlyApplied(s, t, d.event) then Applies(ws, s.data, d.event, t.data) else t.data == s.data
  {
    hide Actor, PutAppearance, DeleteCard, CheckDelta, ApplyDelta, PutCard, Trim;
  }

  lemma AppearanceEffect(data: Data, board: Uuid, a: Appearance, s: Stamp, c: Uuid)
    ensures CardViewOf(PutAppearance(data, board, a, s), c) == CardViewOf(data, c)
    ensures PutAppearance(data, board, a, s).tombstones == data.tombstones
  {
    var after := PutAppearance(data, board, a, s);
    assert SameCards(data, after) by {
      forall x, f ensures SameStampAt(data, after, Key(x, CardStamp(f))) {}
    }
    SameCardsView(data, after, c);
  }

  lemma DeleteEffect(data: Data, card: Uuid, deletedAt: int, s: Stamp, c: Uuid)
    ensures var after := DeleteCard(data, card, deletedAt, s);
      (c in after.tombstones <==> c == card || c in data.tombstones)
      && if c == card then c in after.cards ==> after.cards[c].deletedAt.Some?
         else CardViewOf(after, c) == CardViewOf(data, c)
  {
    var after := DeleteCard(data, card, deletedAt, s);
    assert CardStampsOf(after.stamps, c) == CardStampsOf(data.stamps, c);
  }

  lemma StepEffect(ws: Workspace, s: Store, d: Delivery, c: Uuid) returns (effect: CardEffect)
    ensures HasEffect(s, Step(ws, s, d).0, d, c, effect)
  {
    hide Step, PutAppearance, DeleteCard, CheckDelta, ApplyDelta, CheckPut, PutCard, CardViewOf, WriteFor, Cards.Put;
    effect := Untouched;
    var e, t := d.event, Step(ws, s, d).0;
    StepApplies(ws, s, d);
    if !NewlyApplied(s, t, e) {
      StepLedger(ws, s, d);
      return;
    }
    match e.operation
    case AppearancePut(a) =>
      AppearanceEffect(s.data, e.board, a.value, StampOf(e), c);
    case CardDelete(at) =>
      DeleteEffect(s.data, e.entity, at.value, StampOf(e), c);
      if e.entity == c { effect := WasDeleted; }
    case CardPut(_, _, _, delta) =>
      if delta.Some? {
        ApplyDeltaFrame(s.data, e, delta.value);
        SameCardsView(s.data, t.data, c);
      } else {
        PutCardView(s.data, e, e.operation.card.value, WriteFor(e), c);
        if e.entity == c { effect := WasPut; }
      }
  }

  // Runs.

  /** Equal event ids mean equal events; the wrapper around one may differ. */
  ghost predicate Coherent(pool: set<Delivery>) {
    forall a, b :: a in pool && b in pool && a.event.id == b.event.id ==> a.event == b.event
  }

  ghost function WritesOn(pool: set<Delivery>, c: Uuid): set<Cards.CardWrite> {
    set d | d in pool && PutOn(d.event, c) :: WriteFor(d.event)
  }

  ghost function AppliedWrites(s: Store, pool: set<Delivery>, c: Uuid): set<Cards.CardWrite> {
    set d | d in pool && PutOn(d.event, c) && IsApplied(s, d.event) :: WriteFor(d.event)
  }

  ghost predicate DeleteApplied(s: Store, pool: set<Delivery>, c: Uuid) {
    exists d :: d in pool && DeleteOn(d.event, c) && IsApplied(s, d.event)
  }

  /** The card is live or unknown; it has no tombstone, and nothing in the pool has reached
      the node yet. */
  ghost predicate Ready(s: Store, pool: set<Delivery>, c: Uuid) {
    && (forall d :: d in pool ==> !Processed(s.ledger, d.event.id))
    && c !in s.data.tombstones
    && (Cards.Live(CardViewOf(s.data, c)) || CardViewOf(s.data, c) == Cards.ABSENT)
  }

  /** The card is what the applied events of the pool make of its initial view. */
  ghost predicate Tracks(v0: Cards.CardView, pool: set<Delivery>, c: Uuid, s: Store) {
    TracksCard(v0, AppliedWrites(s, pool, c), DeleteApplied(s, pool, c), c, s.data) && TracksLedger(pool, c, s)
  }

  ghost predicate TracksCard(v0: Cards.CardView, applied: set<Cards.CardWrite>, deleted: bool, c: Uuid, data: Data) {
    && (c in data.tombstones <==> deleted)
    && (c in data.tombstones && c in data.cards ==> data.cards[c].deletedAt.Some?)
    && (c !in data.tombstones ==> Cards.Came(v0, applied, CardViewOf(data, c)))
  }

  /** Every processed put or delete of the card was applied, unless the card is gone. */
  ghost predicate TracksLedger(pool: set<Delivery>, c: Uuid, s: Store) {
    && (forall d :: d in pool && PutOn(d.event, c) && Processed(s.ledger, d.event.id) && c !in s.data.tombstones
          ==> IsApplied(s, d.event))
    && (forall d :: d in pool && DeleteOn(d.event, c) && Processed(s.ledger, d.event.id) ==> IsApplied(s, d.event))
  }

  lemma WritesDistinct(pool: set<Delivery>, c: Uuid)
    requires Coherent(pool)
    ensures Cards.DistinctStamps(WritesOn(pool, c))
  {
    forall a, b | a in WritesOn(pool, c) && b in WritesOn(pool, c) && a.stamp == b.stamp ensures a == b {
      var x :| x in pool && PutOn(x.event, c) && a == WriteFor(x.event);
      var y :| y in pool && PutOn(y.event, c) && b == WriteFor(y.event);
      assert x.event.id == y.event.id;
    }
  }

  lemma AppliedGrows(ws: Workspace, s: Store, pool: set<Delivery>, d: Delivery, c: Uuid)
    requires Coherent(pool) && d in pool
    ensures var t := Step(ws, s, d).0;
      AppliedWrites(t, pool, c) ==
        if PutOn(d.event, c) && IsApplied(t, d.event) then AppliedWrites(s, pool, c) + {WriteFor(d.event)}
        else AppliedWrites(s, pool, c)
  {
    StepLedger(ws, s, d);
    var t := Step(ws, s, d).0;
    forall x | x in pool ensures IsApplied(t, x.event) <==>
      IsApplied(s, x.event) || (x.event == d.event && IsApplied(t, d.event))
    {}
    assert IsApplied(s, d.event) ==> IsApplied(t, d.event);
    if PutOn(d.event, c) && IsApplied(t, d.event) {
      assert WriteFor(d.event) in AppliedWrites(t, pool, c);
    }
  }

  lemma DeletesGrow(ws: Workspace, s: Store, pool: set<Delivery>, d: Delivery, c: Uuid)
    requires Coherent(pool) && d in pool
    ensures var t := Step(ws, s, d).0;
      DeleteApplied(t, pool, c) <==> DeleteApplied(s, pool, c) || (DeleteOn(d.event, c) && IsApplied(t, d.event))
  {
    StepLedger(ws, s, d);
    var t := Step(ws, s, d).0;
    if DeleteApplied(s, pool, c) {
      var x :| x in pool && DeleteOn(x.event, c) && IsApplied(s, x.event);
      assert IsApplied(t, x.event);
    }
    if DeleteApplied(t, pool, c) {
      var x :| x in pool && DeleteOn(x.event, c) && IsApplied(t, x.event);
      assert x.event == d.event || IsApplied(s, x.event);
    }
  }

  lemma StepStatus(ws: Workspace, s: Store, d: Delivery, c: Uuid)
    requires (PutOn(d.event, c) || DeleteOn(d.event, c)) && !Processed(s.ledger, d.event.id)
    ensures var t := Step(ws, s, d).0;
      Processed(t.ledger, d.event.id) && !IsApplied(t, d.event) ==> PutOn(d.event, c) && c in t.data.tombstones
  {
    hide Actor, PutAppearance, DeleteCard, CheckDelta, ApplyDelta, CheckPut, PutCard;
  }

  lemma StepTracks(ws: Workspace, v0: Cards.CardView, s: Store, pool: set<Delivery>, d: Delivery, c: Uuid)
    requires Coherent(pool) && d in pool && Tracks(v0, pool, c, s)
    ensures Tracks(v0, pool, c, Step(ws, s, d).0)
  {
    hide Step, WriteFor, Cards.Put, Cards.Came, CardViewOf, HasEffect, TracksCard, TracksLedger;
    var t := Step(ws, s, d).0;
    StepLedger(ws, s, d);
    if Processed(s.ledger, d.event.id) { return; }
    var effect := StepEffect(ws, s, d, c);
    AppliedGrows(ws, s, pool, d, c);
    DeletesGrow(ws, s, pool, d, c);
    StepTracksLedger(ws, s, pool, d, c, effect);
    EffectTracks(v0, AppliedWrites(s, pool, c), DeleteApplied(s, pool, c), s, t, d, c, effect);
  }

  lemma EffectTracks(v0: Cards.CardView, applied: set<Cards.CardWrite>, deleted: bool, s: Store, t: Store, d: Delivery,
                     c: Uuid, effect: CardEffect)
    requires HasEffect(s, t, d, c, effect) && TracksCard(v0, applied, deleted, c, s.data) && !IsApplied(s, d.event)
    ensures TracksCard(v0,
      if PutOn(d.event, c) && IsApplied(t, d.event) then applied + {WriteFor(d.event)} else applied,
      deleted || (DeleteOn(d.event, c) && IsApplied(t, d.event)), c, t.data)
  {
    hide WriteFor, Cards.Put, Cards.Came;
    match effect
    case Untouched =>
    case WasDeleted =>
    case WasPut => Cards.CameStep(v0, applied, CardViewOf(s.data, c), WriteFor(d.event));
  }

  lemma StepTracksLedger(ws: Workspace, s: Store, pool: set<Delivery>, d: Delivery, c: Uuid, effect: CardEffect)
    requires Coherent(pool) && d in pool && TracksLedger(pool, c, s) && !Processed(s.ledger, d.event.id)
    requires HasEffect(s, Step(ws, s, d).0, d, c, effect)
    ensures TracksLedger(pool, c, Step(ws, s, d).0)
  {
    hide Step, WriteFor, Cards.Put, CardViewOf;
    StepLedger(ws, s, d);
    if PutOn(d.event, c) || DeleteOn(d.event, c) { StepStatus(ws, s, d, c); }
  }

  ghost predicate From(ds: seq<Delivery>, pool: set<Delivery>) {
    forall d :: d in ds ==> d in pool
  }

  lemma {:induction false} RunTracks(ws: Workspace, s0: Store, pool: set<Delivery>, ds: seq<Delivery>, c: Uuid)
    requires Coherent(pool) && Ready(s0, pool, c) && From(ds, pool)
    ensures Tracks(CardViewOf(s0.data, c), pool, c, Run(ws, s0, ds))
  {
    var v0 := CardViewOf(s0.data, c);
    if ds == [] {
      assert AppliedWrites(s0, pool, c) == {};
      Cards.CameNowhere(v0);
      assert Tracks(v0, pool, c, s0);
    } else {
      RunTracks(ws, s0, pool, ds[..|ds| - 1], c);
      StepTracks(ws, v0, Run(ws, s0, ds[..|ds| - 1]), pool, ds[|ds| - 1], c);
    }
  }

  function Visible(s: Store, c: Uuid): Option<Cards.CardValues> {
    if c in s.data.cards && s.data.cards[c].deletedAt.None? && c !in s.data.tombstones
    then Some(s.data.cards[c].values) else None
  }

  ghost predicate SameProcessed(a: Store, b: Store, pool: set<Delivery>) {
    forall d :: d in pool ==> (Processed(a.ledger, d.event.id) <==> Processed(b.ledger, d.event.id))
  }

  /** What the node received decides the card: it was deleted, or its puts leave no choice. */
  ghost predicate Decided(v0: Cards.CardView, s: Store, pool: set<Delivery>, c: Uuid) {
    DeleteApplied(s, pool, c) || Cards.Determined(v0, AppliedWrites(s, pool, c))
  }

  lemma TracksAgree(v0: Cards.CardView, pool: set<Delivery>, c: Uuid, a: Store, b: Store)
    requires Coherent(pool) && Tracks(v0, pool, c, a) && Tracks(v0, pool, c, b) && SameProcessed(a, b, pool)
    requires Decided(v0, a, pool, c)
    ensures Visible(a, c) == Visible(b, c)
    ensures c in a.data.tombstones <==> c in b.data.tombstones
    ensures c !in a.data.tombstones ==> CardViewOf(a.data, c) == CardViewOf(b.data, c)
  {
    DeletedAgree(v0, pool, c, a, b);
    DeletedAgree(v0, pool, c, b, a);
    if c !in a.data.tombstones {
      forall d | d in pool && PutOn(d.event, c) ensures IsApplied(a, d.event) <==> IsApplied(b, d.event) {}
      assert AppliedWrites(a, pool, c) == AppliedWrites(b, pool, c);
      WritesDistinct(pool, c);
      assert AppliedWrites(a, pool, c) <= WritesOn(pool, c);
      Cards.CameUnique(v0, AppliedWrites(a, pool, c), CardViewOf(a.data, c), CardViewOf(b.data, c));
    }
  }

  lemma DeletedAgree(v0: Cards.CardView, pool: set<Delivery>, c: Uuid, a: Store, b: Store)
    requires Coherent(pool) && Tracks(v0, pool, c, a) && Tracks(v0, pool, c, b) && SameProcessed(a, b, pool)
    ensures c in a.data.tombstones ==> c in b.data.tombstones
  {
    if c in a.data.tombstones {
      var d :| d in pool && DeleteOn(d.event, c) && IsApplied(a, d.event);
      assert Processed(b.ledger, d.event.id);
      assert IsApplied(b, d.event);
    }
  }

  /** Two nodes, with any authorization tables and any other content, start from the same
      view of a card and pull from one pool in any orders. Once they have processed the
      same events they show the same card, and if it lives they agree on its stamps. A card
      that was live at the start needs no more; one that was unknown must have been deleted,
      or its latest applied put must name every field or be the only one. */
  lemma StrongConvergence(ws1: Workspace, ws2: Workspace, s1: Store, s2: Store, pool: set<Delivery>,
                          ds1: seq<Delivery>, ds2: seq<Delivery>, c: Uuid)
    requires Coherent(pool) && From(ds1, pool) && From(ds2, pool)
    requires Ready(s1, pool, c) && Ready(s2, pool, c) && CardViewOf(s1.data, c) == CardViewOf(s2.data, c)
    requires SameProcessed(Run(ws1, s1, ds1), Run(ws2, s2, ds2), pool)
    requires Decided(CardViewOf(s1.data, c), Run(ws1, s1, ds1), pool, c)
    ensures var a, b := Run(ws1, s1, ds1), Run(ws2, s2, ds2);
      && Visible(a, c) == Visible(b, c)
      && (Visible(a, c).Some? ==> CardViewOf(a.data, c) == CardViewOf(b.data, c))
  {
    RunTracks(ws1, s1, pool, ds1, c);
    RunTracks(ws2, s2, pool, ds2, c);
    TracksAgree(CardViewOf(s1.data, c), pool, c, Run(ws1, s1, ds1), Run(ws2, s2, ds2));
  }

  /** When a card is shown: not once a delete was applied, and not before any put was. */
  lemma VisibleIff(ws: Workspace, s0: Store, pool: set<Delivery>, ds: seq<Delivery>, c: Uuid)
    requires Coherent(pool) && Ready(s0, pool, c) && From(ds, pool)
    ensures var s := Run(ws, s0, ds);
      Visible(s, c).Some? <==>
        !DeleteApplied(s, pool, c) && (Cards.Live(CardViewOf(s0.data, c)) || AppliedWrites(s, pool, c) != {})
  {
    hide Run, Cards.Came;
    RunTracks(ws, s0, pool, ds, c);
    var s, v0 := Run(ws, s0, ds), CardViewOf(s0.data, c);
    if c !in s.data.tombstones { Cards.CameLive(v0, AppliedWrites(s, pool, c), CardViewOf(s.data, c)); }
  }

  /** What the card is, from a live start: each field holds the latest applied put that names
      it and beats the initial stamp, together with that put's stamp. */
  lemma VisibleCard(ws: Workspace, s0: Store, pool: set<Delivery>, ds: seq<Delivery>, c: Uuid)
    requires Coherent(pool) && Ready(s0, pool, c) && From(ds, pool) && Cards.Live(CardViewOf(s0.data, c))
    ensures var s, v0 := Run(ws, s0, ds), CardViewOf(s0.data, c);
      && (Visible(s, c).None? <==> DeleteApplied(s, pool, c))
      && (Visible(s, c).Some? ==>
            forall f: Cards.CardField ::
              Cards.Settled(Cards.CellOf(v0, f), AppliedWrites(s, pool, c), f,
                Cards.Cell(Lookup(s.data.stamps, Key(c, CardStamp(f))), Cards.Get(Visible(s, c).value, f))))
  {
    hide Run, Cards.Came, Cards.Settled;
    RunTracks(ws, s0, pool, ds, c);
    VisibleIff(ws, s0, pool, ds, c);
    var s, v0 := Run(ws, s0, ds), CardViewOf(s0.data, c);
    if Visible(s, c).Some? {
      Cards.CameSettled(v0, AppliedWrites(s, pool, c), CardViewOf(s.data, c));
      forall f: Cards.CardField
        ensures Cards.Settled(Cards.CellOf(v0, f), AppliedWrites(s, pool, c), f,
          Cards.Cell(Lookup(s.data.stamps, Key(c, CardStamp(f))), Cards.Get(Visible(s, c).value, f)))
      {
        CardStampAt(s.data.stamps, c, f);
        assert Cards.Settled(Cards.CellOf(v0, f), AppliedWrites(s, pool, c), f, Cards.CellOf(CardViewOf(s.data, c), f));
      }
    }
  }

  /** What a fresh node shows: the values of the greatest applied put, and its stamp on every
      field, provided that put names every field or is the only one. */
  lemma FreshCard(ws: Workspace, s0: Store, pool: set<Delivery>, ds: seq<Delivery>, c: Uuid, g: Cards.CardWrite)
    requires Coherent(pool) && Ready(s0, pool, c) && From(ds, pool) && CardViewOf(s0.data, c) == Cards.ABSENT
    requires var puts := AppliedWrites(Run(ws, s0, ds), pool, c);
      Cards.Greatest(puts, g) && (puts == {g} || Cards.Full(g))
    ensures var s := Run(ws, s0, ds);
      && Visible(s, c) == (if DeleteApplied(s, pool, c) then None else Some(g.values))
      && (Visible(s, c).Some? ==>
         forall f: Cards.CardField :: Lookup(s.data.stamps, Key(c, CardStamp(f))) == Some(g.stamp))
  {
    hide Run, Cards.Came, Cards.Puts;
    RunTracks(ws, s0, pool, ds, c);
    VisibleIff(ws, s0, pool, ds, c);
    var s := Run(ws, s0, ds);
    var puts := AppliedWrites(s, pool, c);
    if !DeleteApplied(s, pool, c) {
      WritesDistinct(pool, c);
      assert puts <= WritesOn(pool, c);
      var h := Cards.CameWhole(puts, CardViewOf(s.data, c));
      assert h.stamp == g.stamp;
      Cards.FromAbsent(g, []);
      forall f: Cards.CardField ensures Lookup(s.data.stamps, Key(c, CardStamp(f))) == Some(g.stamp) {
        CardStampAt(s.data.stamps, c, f);
        assert Cards.CellOf(CardViewOf(s.data, c), f).stamp == Some(g.stamp);
      }
    }
  }

  // From the payload to the board.

  predicate AllSpace(s: string) {
    forall i :: 0 <= i < |s| ==> Space(s[i])
  }

  /** Trimming takes white space off both ends, all of it and nothing else. */
  lemma {:induction false} TrimMeans(s: string)
    ensures exists a, b :: Around(s, a, Trim(s), b)
    ensures Trim(s) != "" ==> !Space(Trim(s)[0]) && !Space(Trim(s)[|Trim(s)| - 1])
    decreases |s|
  {
    if s == "" {
      assert Trim(s) == "" && Around(s, "", "", "");
    } else if Space(s[0]) {
      TrimMeans(s[1..]);
      var a, b :| Around(s[1..], a, Trim(s), b);
      SpaceBefore(s, a, Trim(s), b);
    } else if Space(s[|s| - 1]) {
      TrimMeans(s[..|s| - 1]);
      var a, b :| Around(s[..|s| - 1], a, Trim(s), b);
      SpaceAfter(s, a, Trim(s), b);
    } else {
      assert Trim(s) == s && Around(s, "", s, "");
    }
  }

  /** `s` is `core` with white space on both sides. */
  predicate Around(s: string, a: string, core: string, b: string) {
    s == a + core + b && AllSpace(a) && AllSpace(b)
  }

  lemma SpaceBefore(s: string, a: string, core: string, b: string)
    requires s != "" && Space(s[0]) && Around(s[1..], a, core, b)
    ensures Around(s, [s[0]] + a, core, b)
  {
    assert s == [s[0]] + s[1..];
  }

  lemma SpaceAfter(s: string, a: string, core: string, b: string)
    requires s != "" && Space(s[|s| - 1]) && Around(s[..|s| - 1], a, core, b)
    ensures Around(s, a, core, b + [s[|s| - 1]])
  {
    assert s == s[..|s| - 1] + [s[|s| - 1]];
  }

  predicate Reads(t: TimeText, stored: Option<int>) {
    match stored
    case None => t.NoTime?
    case Some(at) => t == ReadAs(at)
  }

  /** Column by column, what a payload asks a card to be. */
  predicate ShowsPayload(v: Cards.CardValues, p: CardPayload) {
    p.column == Some(v.column)
    && v.parent == (if p.parent.Parent? then Some(p.parent.id) else None)
    && p.title.Some? && v.title == Trim(p.title.value) && v.title != ""
    && v.description == p.description
    && v.priority == p.priority && (v.priority.Some? ==> v.priority.value in {"low", "medium", "high", "urgent"})
    && v.position == (if p.position.Some? then p.position.value else 1000.0)
    && Reads(p.startAt, v.startAt) && Reads(p.dueAt, v.dueAt)
    && (v.startAt.Some? && v.dueAt.Some? ==> v.startAt.value <= v.dueAt.value)
    && (v.isArchived <==> p.isArchived == Some(true))
  }

  /** The put that creates a card makes it visible, with every column as the payload says,
      on a column of its board, and with its stamp on all ten fields. */
  lemma CreatedFromPayload(ws: Workspace, s: Store, d: Delivery)
    requires d.event.operation.CardPut? && d.event.operation.delta.None? && d.event.entity !in s.data.cards
    requires NewlyApplied(s, Step(ws, s, d).0, d.event)
    ensures var t, c := Step(ws, s, d).0, d.event.entity;
      d.event.operation.card.Some? && Visible(t, c).Some?
        && ShowsPayload(Visible(t, c).value, d.event.operation.card.value)
      && (d.event.board, Visible(t, c).value.column) in ws.columns && t.data.cards[c].board == d.event.board
      && forall f: Cards.CardField :: Lookup(t.data.stamps, Key(c, CardStamp(f))) == Some(StampOf(d.event))
  {
    hide Step, FillBundle, CardStampsOf, StampCard, Trim;
    StepApplies(ws, s, d);
    var e, t := d.event, Step(ws, s, d).0;
    var w := WriteFor(e);
    PutCardStores(s.data, e, e.operation.card.value, w);
    assert Cards.Title in Cards.Winning(CardViewOf(s.data, e.entity), w);
    forall f: Cards.CardField ensures Lookup(t.data.stamps, Key(e.entity, CardStamp(f))) == Some(StampOf(e)) {
      StampCardAt(s.data.stamps, e.entity, Cards.Winning(CardViewOf(s.data, e.entity), w), w.stamp,
        Key(e.entity, CardStamp(f)));
    }
  }

  /** Replaying events that were processed changes nothing at all, however many there are. */
  lemma {:induction false} ReplaysAreInert(ws: Workspace, s: Store, ds: seq<Delivery>, again: seq<Delivery>)
    requires forall d :: d in again ==> Processed(Run(ws, s, ds).ledger, d.event.id)
    ensures Run(ws, s, ds + again) == Run(ws, s, ds)
    decreases |again|
  {
    hide Step;
    if again == [] {
      assert ds + again == ds;
    } else {
      var front, last := again[..|again| - 1], again[|again| - 1];
      ReplaysAreInert(ws, s, ds, front);
      assert (ds + again)[..|ds + again| - 1] == ds + front;
      assert last in again;
      StepLedger(ws, Run(ws, s, ds), last);
    }
  }
}
