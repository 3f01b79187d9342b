/**
 Checklists and items in the whole store. A checklist is a function of how it was at the
 start and of the set of deltas a node applied to it; so is an item, as long as no delta
 deletes its checklist. ChildMerge says for which starts and sets the order is free.
 */
module RoamingChecklists {
  import opened Wrappers
  import opened Stamps
  import opened RoamingModel
  import opened RoamingConvergence
  import opened RoamingMonotone
  import Cards = CardMerge
  import Children = ChildMerge

  /** One checklist of a card, or one item of a checklist of a card. */
  datatype Child = Child(kind: Children.ChildKind, id: Uuid, owner: Uuid, card: Uuid)

  predicate ProperChild(x: Child) {
    x.kind.Checklist? ==> x.owner == x.card
  }

  function ViewOf(data: Data, x: Child): Children.ChildView {
    ChildViewOf(data, x.kind, x.id)
  }

  predicate Touches(x: Child, d: Delta) {
    match d
    case PutChecklist(_, id, _, _) => x.kind.Checklist? && id == x.id
    case DeleteChecklist(_, id) => x.kind.Checklist? && id == x.id
    case PutItem(_, _, id, _, _) => x.kind.Item? && id == x.id
    case DeleteItem(_, id) => x.kind.Item? && id == x.id
    case UnknownDelta(_) => false
  }

  predicate IsPut(d: Delta) {
    d.PutChecklist? || d.PutItem?
  }

  predicate GoodPayload(d: Delta)
    requires IsPut(d)
  {
    d.payload.Some? && CleanTitle(d.payload.value.title).Some? && (d.PutItem? ==> d.payload.value.done.Some?)
  }

  /** The event carries a delta for the child, with a payload that parses. */
  predicate OpOn(e: Event, x: Child) {
    e.operation.CardPut? && e.operation.delta.Some? && Touches(x, e.operation.delta.value)
    && (IsPut(e.operation.delta.value) ==> GoodPayload(e.operation.delta.value))
  }

  function ValuesOf(d: Delta): Children.ChildValues
    requires IsPut(d) && GoodPayload(d)
  {
    var p := d.payload.value;
    Children.ChildValues(CleanTitle(p.title).value, PositionOf(p.position), d.PutItem? && p.done.value)
  }

  function OpFor(e: Event, x: Child): Children.ChildOp
    requires OpOn(e, x)
  {
    var d := e.operation.delta.value;
    if IsPut(d) then Children.PutOp(ChildWriteOf(e, d.mask, ValuesOf(d))) else Children.DeleteOp(StampOf(e))
  }

  /** A delta that names the child comes from its own card and checklist; for an item, no
      delta deletes its checklist. */
  predicate Fits(x: Child, d: Delta) {
    (Touches(x, d) ==>
      d.card == x.card && (d.PutItem? ==> d.checklist == x.owner))
    && (x.kind.Item? && d.DeleteChecklist? ==> d.checklist != x.owner)
  }

  ghost predicate Omits(x: Child, b: Bundle) {
    b.Lists? ==> forall l :: l in b.lists ==> ListOmits(x, l)
  }

  ghost predicate ListOmits(x: Child, l: BundleList) {
    (x.kind.Checklist? ==> l.head.id != x.id)
    && (x.kind.Item? && l.items.Some? ==> forall p :: p in l.items.value ==> p.id != x.id)
  }

  ghost predicate EventFits(x: Child, e: Event) {
    e.operation.CardPut? ==>
      (e.operation.delta.Some? ==> Fits(x, e.operation.delta.value))
      && (e.operation.bundle.Some? ==> Omits(x, e.operation.bundle.value))
  }

  ghost predicate PoolFits(pool: set<Delivery>, x: Child) {
    Coherent(pool) && forall d :: d in pool ==> EventFits(x, d.event)
  }

  predicate OwnedRow(data: Data, x: Child) {
    x.id in Rows(data, x.kind) ==> Rows(data, x.kind)[x.id].owner == x.owner
  }

  predicate ParentThere(data: Data, x: Child) {
    x.owner in data.checklists && data.checklists[x.owner].owner == x.card
  }

  /** An item that has a row has its checklist beside it, under the same card. */
  predicate ParentKept(data: Data, x: Child) {
    x.kind.Item? && x.id in data.items ==> ParentThere(data, x)
  }

  // What each operation does to one child.

  /** Nothing the child's view depends on has moved, and its checklist did not go away. */
  ghost predicate SameChild(a: Data, b: Data, x: Child) {
    Lookup(Rows(a, x.kind), x.id) == Lookup(Rows(b, x.kind), x.id) && SameChildStamps(a.stamps, b.stamps, x)
    && (ParentKept(a, x) ==> ParentKept(b, x))
  }

  ghost predicate SameChildStamps(a: StampTable, b: StampTable, x: Child) {
    Lookup(a, Key(x.id, ChildLife(x.kind))) == Lookup(b, Key(x.id, ChildLife(x.kind)))
    && forall f :: f in Children.FieldsOf(x.kind) ==> SameColumnStamp(a, b, x, f)
  }

  predicate SameColumnStamp(a: StampTable, b: StampTable, x: Child, f: Children.ChildField) {
    Lookup(a, Key(x.id, ChildStamp(x.kind, f))) == Lookup(b, Key(x.id, ChildStamp(x.kind, f)))
  }

  lemma SameStampMap(a: StampTable, b: StampTable, x: Child)
    requires SameChildStamps(a, b, x)
    ensures ChildStampsOf(a, x.kind, x.id) == ChildStampsOf(b, x.kind, x.id)
  {
    forall f | f in Children.FieldsOf(x.kind)
      ensures Lookup(ChildStampsOf(a, x.kind, x.id), f) == Lookup(ChildStampsOf(b, x.kind, x.id), f)
    {
      assert SameColumnStamp(a, b, x, f);
      ChildStampAt(a, x.kind, x.id, f);
      ChildStampAt(b, x.kind, x.id, f);
    }
    SameColumns(ChildStampsOf(a, x.kind, x.id), ChildStampsOf(b, x.kind, x.id), x.kind);
  }

  lemma SameColumns(a: map<Children.ChildField, Stamp>, b: map<Children.ChildField, Stamp>, kind: Children.ChildKind)
    requires a.Keys <= Children.FieldsOf(kind) && b.Keys <= Children.FieldsOf(kind)
    requires forall f :: f in Children.FieldsOf(kind) ==> Lookup(a, f) == Lookup(b, f)
    ensures a == b
  {
    forall f ensures f in a <==> f in b {
      if f in Children.FieldsOf(kind) { assert Lookup(a, f) == Lookup(b, f); }
    }
    forall f | f in a ensures a[f] == b[f] {
      assert Lookup(a, f) == Lookup(b, f);
    }
  }

  lemma SameChildView(a: Data, b: Data, x: Child)
    requires SameChild(a, b, x)
    ensures ViewOf(a, x) == ViewOf(b, x) && (OwnedRow(a, x) ==> OwnedRow(b, x))
  {
    SameStampMap(a.stamps, b.stamps, x);
  }

  lemma PutStamps(stamps: StampTable, x: Child, win: set<Children.ChildField>, life: bool, s: Stamp)
    requires win <= Children.FieldsOf(x.kind)
    ensures var after := StampChild(stamps, x.kind, x.id, win, life, s);
      ChildStampsOf(after, x.kind, x.id) == ChildStampsOf(stamps, x.kind, x.id) + (map f | f in win :: s)
      && Lookup(after, Key(x.id, ChildLife(x.kind))) ==
         if life then Some(s) else Lookup(stamps, Key(x.id, ChildLife(x.kind)))
  {
    var after := StampChild(stamps, x.kind, x.id, win, life, s);
    var old', new' := ChildStampsOf(stamps, x.kind, x.id), ChildStampsOf(after, x.kind, x.id);
    forall f | f in Children.FieldsOf(x.kind)
      ensures Lookup(new', f) == Lookup(old' + (map f | f in win :: s), f)
    {
      ChildStampAt(stamps, x.kind, x.id, f);
      ChildStampAt(after, x.kind, x.id, f);
      StampChildAt(stamps, x.kind, x.id, win, life, s, Key(x.id, ChildStamp(x.kind, f)));
    }
    SameColumns(new', old' + (map f | f in win :: s), x.kind);
    StampChildAt(stamps, x.kind, x.id, win, life, s, Key(x.id, ChildLife(x.kind)));
  }

  lemma PutChildView(data: Data, x: Child, w: Children.ChildWrite)
    requires x.kind.Item? ==> ParentThere(data, x)
    ensures var after := PutChild(data, x.kind, x.id, x.owner, w);
      ViewOf(after, x) == Children.Put(x.kind, ViewOf(data, x), w)
      && (OwnedRow(data, x) ==> OwnedRow(after, x)) && ParentKept(after, x)
  {
    var v := ViewOf(data, x);
    var win, life := Children.Winning(x.kind, v, w), Children.LifeWins(v, w);
    assert win <= Children.FieldsOf(x.kind);
    PutStamps(data.stamps, x, win, life, w.stamp);
    hide Children.Winning, Children.LifeWins, Children.Overwrite, StampChild, ChildStampsOf, SetRow, ParentKept;
    SetRowShows(data, x, Children.PutRow(v, w, win, life));
  }

  /** Writing the row, unless there is none to write. */
  lemma SetRowShows(data: Data, x: Child, row: Option<Children.ChildRow>)
    requires x.kind.Item? ==> ParentThere(data, x)
    requires row.None? ==> x.id !in Rows(data, x.kind)
    ensures var after := SetRow(data, x.kind, x.id, x.owner, row);
      (x.id in Rows(after, x.kind) <==> row.Some?)
      && (row.Some? ==> Rows(after, x.kind)[x.id] == ChildEntry(x.owner, row.value))
    ensures forall stamps :: ParentKept(SetRow(data, x.kind, x.id, x.owner, row).(stamps := stamps), x)
  {}

  lemma PutOtherChild(data: Data, kind: Children.ChildKind, id: Uuid, owner: Uuid, w: Children.ChildWrite, x: Child)
    requires kind != x.kind || id != x.id
    requires kind.Checklist? && id in data.checklists ==> data.checklists[id].owner == owner
    ensures SameChild(data, PutChild(data, kind, id, owner, w), x)
  {
    var v := ChildViewOf(data, kind, id);
    var win, life := Children.Winning(kind, v, w), Children.LifeWins(v, w);
    StampOtherChild(data.stamps, kind, id, win, life, w.stamp, x);
    hide Children.Winning, Children.LifeWins, SameChildStamps, StampChild, Children.Overwrite;
    SetOtherRow(data, kind, id, owner, Children.PutRow(v, w, win, life), x);
  }

  lemma SetOtherRow(data: Data, kind: Children.ChildKind, id: Uuid, owner: Uuid, row: Option<Children.ChildRow>,
                    x: Child)
    requires kind != x.kind || id != x.id
    requires kind.Checklist? && id in data.checklists ==> data.checklists[id].owner == owner
    ensures var after := SetRow(data, kind, id, owner, row);
      Lookup(Rows(after, x.kind), x.id) == Lookup(Rows(data, x.kind), x.id)
      && (ParentKept(data, x) ==> ParentKept(after, x)) && after.stamps == data.stamps
  {}

  lemma StampOtherChild(stamps: StampTable, kind: Children.ChildKind, id: Uuid, win: set<Children.ChildField>,
                        life: bool, s: Stamp, x: Child)
    requires kind != x.kind || id != x.id
    ensures SameChildStamps(stamps, StampChild(stamps, kind, id, win, life, s), x)
  {
    var after := StampChild(stamps, kind, id, win, life, s);
    StampChildAt(stamps, kind, id, win, life, s, Key(x.id, ChildLife(x.kind)));
    forall f | f in Children.FieldsOf(x.kind) ensures SameColumnStamp(stamps, after, x, f) {
      StampChildAt(stamps, kind, id, win, life, s, Key(x.id, ChildStamp(x.kind, f)));
    }
  }

  lemma HideView(data: Data, x: Child, s: Stamp, inScope: bool)
    requires inScope ==> x.id in Rows(data, x.kind)
    requires Beats(s, Lookup(data.stamps, Key(x.id, ChildLife(x.kind))))
    ensures var after := HideChild(data, x.kind, x.id, s, inScope);
      ViewOf(after, x) == Children.Delete(ViewOf(data, x), s, inScope)
      && (OwnedRow(data, x) ==> OwnedRow(after, x)) && (ParentKept(data, x) ==> ParentKept(after, x))
  {
    var after := HideChild(data, x.kind, x.id, s, inScope);
    assert ChildStampsOf(after.stamps, x.kind, x.id) == ChildStampsOf(data.stamps, x.kind, x.id);
  }

  lemma HideOther(data: Data, kind: Children.ChildKind, id: Uuid, s: Stamp, inScope: bool, x: Child)
    requires kind != x.kind || id != x.id
    requires inScope ==> id in Rows(data, kind)
    requires x.kind.Item? && kind.Checklist? ==> id != x.owner
    ensures SameChild(data, HideChild(data, kind, id, s, inScope), x)
  {
    var after := HideChild(data, kind, id, s, inScope);
    forall f | f in Children.FieldsOf(x.kind) ensures SameColumnStamp(data.stamps, after.stamps, x, f) {}
  }

  // A delta of the child, and every other delta.

  lemma DeltaOnChild(data: Data, e: Event, x: Child)
    requires ProperChild(x) && OpOn(e, x) && Fits(x, e.operation.delta.value)
    requires e.operation.delta.value.card == e.entity
    requires ApplyDelta(data, e, e.operation.delta.value).Success? && OwnedRow(data, x) && ParentKept(data, x)
    ensures var after := ApplyDelta(data, e, e.operation.delta.value).value;
      ViewOf(after, x) == Children.Apply(x.kind, ViewOf(data, x), OpFor(e, x))
      && OwnedRow(after, x) && ParentKept(after, x)
  {
    hide PutChild, HideChild, ChildViewOf, CleanTitle, Cascade;
    var d := e.operation.delta.value;
    match d
    case PutChecklist(_, _, _, _) => PutChildView(data, x, ChildWriteOf(e, d.mask, ValuesOf(d)));
    case PutItem(_, _, _, _, _) => PutChildView(data, x, ChildWriteOf(e, d.mask, ValuesOf(d)));
    case DeleteChecklist(card, id) => DeleteChecklistView(data, x, StampOf(e));
    case DeleteItem(card, id) => DeleteItemView(data, x, StampOf(e));
  }

  lemma DeleteChecklistView(data: Data, x: Child, s: Stamp)
    requires ProperChild(x) && x.kind.Checklist? && OwnedRow(data, x)
    ensures var after := ApplyDeleteChecklist(data, x.card, x.id, s);
      ViewOf(after, x) == Children.Delete(ViewOf(data, x), s, true) && OwnedRow(after, x)
  {
    hide HideChild, Cascade;
    var inScope := x.id in data.checklists;
    if Beats(s, Lookup(data.stamps, Key(x.id, ChildLife(x.kind)))) {
      HideView(data, x, s, inScope);
      CascadeKeepsList(HideChild(data, x.kind, x.id, s, inScope), x, Cascade(data.items, x.id));
    }
  }

  lemma CascadeKeepsList(data: Data, x: Child, items: map<Uuid, ChildEntry>)
    requires x.kind.Checklist?
    ensures ViewOf(data.(items := items), x) == ViewOf(data, x)
      && OwnedRow(data.(items := items), x) == OwnedRow(data, x)
  {}

  lemma DeleteItemView(data: Data, x: Child, s: Stamp)
    requires x.kind.Item? && OwnedRow(data, x) && ParentKept(data, x)
    ensures var after := ApplyDeleteItem(data, x.card, x.id, s);
      ViewOf(after, x) == Children.Delete(ViewOf(data, x), s, true) && OwnedRow(after, x) && ParentKept(after, x)
  {
    hide HideChild;
    if Beats(s, Lookup(data.stamps, Key(x.id, ChildLife(x.kind)))) {
      HideView(data, x, s, ItemUnder(data, x.card, x.id));
    }
  }

  lemma DeltaElsewhere(data: Data, e: Event, d: Delta, x: Child)
    requires ApplyDelta(data, e, d).Success? && Fits(x, d) && !Touches(x, d) && OwnedRow(data, x)
    ensures SameChild(data, ApplyDelta(data, e, d).value, x)
  {
    hide PutChild, HideChild, CleanTitle, Trim, SameChild, ApplyDeleteChecklist, ApplyDeleteItem;
    match d
    case PutChecklist(_, _, _, p) =>
      var values := Children.ChildValues(CleanTitle(p.value.title).value, PositionOf(p.value.position), false);
      PutOtherChild(data, Children.Checklist, d.checklist, d.card, ChildWriteOf(e, d.mask, values), x);
    case PutItem(_, _, _, _, p) =>
      var values :=
        Children.ChildValues(CleanTitle(p.value.title).value, PositionOf(p.value.position), p.value.done.value);
      PutOtherChild(data, Children.Item, d.item, d.checklist, ChildWriteOf(e, d.mask, values), x);
    case DeleteChecklist(card, id) => DeleteListElsewhere(data, card, id, StampOf(e), x);
    case DeleteItem(card, id) => DeleteItemElsewhere(data, card, id, StampOf(e), x);
    case UnknownDelta(_) => assert false;
  }

  lemma DeleteItemElsewhere(data: Data, card: Uuid, id: Uuid, s: Stamp, x: Child)
    requires x.kind.Checklist? || id != x.id
    ensures SameChild(data, ApplyDeleteItem(data, card, id, s), x)
  {
    hide HideChild;
    if Beats(s, Lookup(data.stamps, Key(id, ChildLife(Children.Item)))) {
      HideOther(data, Children.Item, id, s, ItemUnder(data, card, id), x);
    } else {
      SameChildReflexive(data, x);
    }
  }

  lemma DeleteListElsewhere(data: Data, card: Uuid, id: Uuid, s: Stamp, x: Child)
    requires x.kind.Item? || id != x.id
    requires x.kind.Item? ==> id != x.owner
    requires OwnedRow(data, x)
    ensures SameChild(data, ApplyDeleteChecklist(data, card, id, s), x)
  {
    hide HideChild;
    var inScope := id in data.checklists && data.checklists[id].owner == card;
    if Beats(s, Lookup(data.stamps, Key(id, ChildLife(Children.Checklist)))) {
      HideOther(data, Children.Checklist, id, s, inScope, x);
      CascadeElsewhere(data, HideChild(data, Children.Checklist, id, s, inScope), id, x);
    } else {
      SameChildReflexive(data, x);
    }
  }

  lemma CascadeElsewhere(data: Data, hidden: Data, id: Uuid, x: Child)
    requires SameChild(data, hidden, x) && OwnedRow(data, x) && (x.kind.Item? ==> id != x.owner)
    ensures SameChild(data, hidden.(items := Cascade(data.items, id)), x)
  {}

  lemma SameChildReflexive(data: Data, x: Child)
    ensures SameChild(data, data, x)
  {
    forall f | f in Children.FieldsOf(x.kind) ensures SameColumnStamp(data.stamps, data.stamps, x, f) {}
  }

  // A bundle that does not name the child.

  lemma {:induction false} FillItemsOmit(data: Data, checklist: Uuid, items: seq<ChildPayload>, x: Uuid)
    requires FillItems(data, checklist, items).Success? && forall p :: p in items ==> p.id != x
    ensures Lookup(FillItems(data, checklist, items).value.items, x) == Lookup(data.items, x)
    decreases |items|
  {
    if items != [] {
      assert items[0] in items;
      FillItemsOmit(FillItem(data, checklist, items[0]).value, checklist, items[1..], x);
    }
  }

  lemma FillListOmits(data: Data, card: Uuid, l: BundleList, x: Child)
    requires FillList(data, card, l).Success? && ListOmits(x, l)
    ensures var d := FillList(data, card, l).value;
      Lookup(Rows(d, x.kind), x.id) == Lookup(Rows(data, x.kind), x.id)
      && (x.owner in data.checklists ==> Lookup(d.checklists, x.owner) == Lookup(data.checklists, x.owner))
  {
    var p := l.head;
    var values := Children.ChildValues(CleanTitle(p.title).value, PositionOf(p.position), false);
    var filled :=
      if p.id in data.checklists then data
      else data.(checklists := data.checklists[p.id := ChildEntry(card, Children.ChildRow(values, false))]);
    FillItemsFrame(filled, p.id, l.items.value);
    if x.kind.Item? { FillItemsOmit(filled, p.id, l.items.value, x.id); }
  }

  lemma {:induction false} FillListsOmit(data: Data, card: Uuid, lists: seq<BundleList>, x: Child)
    requires FillLists(data, card, lists).Success? && forall l :: l in lists ==> ListOmits(x, l)
    ensures var d := FillLists(data, card, lists).value;
      Lookup(Rows(d, x.kind), x.id) == Lookup(Rows(data, x.kind), x.id)
      && (x.owner in data.checklists ==> Lookup(d.checklists, x.owner) == Lookup(data.checklists, x.owner))
    decreases |lists|
  {
    hide FillList, ListOmits;
    if lists != [] {
      assert lists[0] in lists;
      FillListOmits(data, card, lists[0], x);
      FillListsOmit(FillList(data, card, lists[0]).value, card, lists[1..], x);
    }
  }

  lemma PutCardElsewhere(data: Data, e: Event, p: CardPayload, w: Cards.CardWrite, x: Child)
    requires e.operation.CardPut? && PutCard(data, e, p, w).Success?
    requires e.operation.bundle.Some? ==> Omits(x, e.operation.bundle.value)
    ensures SameChild(data, PutCard(data, e, p, w).value, x)
  {
    hide FillBundle, CheckPut, StorePut, PutAllowed;
    var stored, after := StorePut(data, e.entity, e.board, w), PutCard(data, e, p, w).value;
    PutCardStores(data, e, p, w);
    StorePutKeepsChildren(data, e.entity, e.board, w, x);
    if after != stored {
      BundleOmits(stored, e.entity, e.operation.bundle.value, x);
    }
    SameByParts(data, after, x);
  }

  lemma SameByParts(a: Data, b: Data, x: Child)
    requires SameChildStamps(a.stamps, b.stamps, x) && Lookup(Rows(a, x.kind), x.id) == Lookup(Rows(b, x.kind), x.id)
    requires x.owner in a.checklists ==> Lookup(b.checklists, x.owner) == Lookup(a.checklists, x.owner)
    ensures SameChild(a, b, x)
  {}

  lemma BundleOmits(data: Data, card: Uuid, b: Bundle, x: Child)
    requires FillBundle(data, card, b).Success? && Omits(x, b)
    ensures var d := FillBundle(data, card, b).value;
      Lookup(Rows(d, x.kind), x.id) == Lookup(Rows(data, x.kind), x.id)
      && (x.owner in data.checklists ==> Lookup(d.checklists, x.owner) == Lookup(data.checklists, x.owner))
  {
    FillListsOmit(data, card, b.lists, x);
  }

  lemma StorePutKeepsChildren(data: Data, card: Uuid, board: Uuid, w: Cards.CardWrite, x: Child)
    ensures var after := StorePut(data, card, board, w);
      after.checklists == data.checklists && after.items == data.items && SameChildStamps(data.stamps, after.stamps, x)
  {
    var win, after := Cards.Winning(CardViewOf(data, card), w), StorePut(data, card, board, w);
    StampCardAt(data.stamps, card, win, w.stamp, Key(x.id, ChildLife(x.kind)));
    forall f | f in Children.FieldsOf(x.kind) ensures SameColumnStamp(data.stamps, after.stamps, x, f) {
      StampCardAt(data.stamps, card, win, w.stamp, Key(x.id, ChildStamp(x.kind, f)));
    }
  }

  lemma OthersKeepChildren(data: Data, x: Child, card: Uuid, at: int, board: Uuid, a: Appearance, s: Stamp)
    ensures SameChild(data, DeleteCard(data, card, at, s), x) && SameChild(data, PutAppearance(data, board, a, s), x)
  {
    var b, c := DeleteCard(data, card, at, s), PutAppearance(data, board, a, s);
    forall f | f in Children.FieldsOf(x.kind)
      ensures SameColumnStamp(data.stamps, b.stamps, x, f) && SameColumnStamp(data.stamps, c.stamps, x, f)
    {}
  }

  // Runs.

  lemma AppliesElsewhere(ws: Workspace, before: Data, e: Event, after: Data, x: Child)
    requires Applies(ws, before, e, after) && EventFits(x, e) && !OpOn(e, x) && OwnedRow(before, x)
    ensures SameChild(before, after, x)
  {
    hide SameChild, ApplyDelta, PutCard, CheckDelta, CheckPut, Omits, Fits, DeleteCard, PutAppearance, OwnedRow,
      WriteFor;
    match e.operation
    case AppearancePut(a) => OthersKeepChildren(before, x, e.entity, 0, e.board, a.value, StampOf(e));
    case CardDelete(at) => OthersKeepChildren(before, x, e.entity, at.value, e.board, Appearance("", None, ""),
      StampOf(e));
    case CardPut(_, _, _, delta) =>
      if delta.Some? {
        UntouchedUnlessOp(before, e, delta.value, x);
        DeltaElsewhere(before, e, delta.value, x);
      } else {
        PutCardElsewhere(before, e, e.operation.card.value, WriteFor(e), x);
      }
  }

  lemma UntouchedUnlessOp(before: Data, e: Event, d: Delta, x: Child)
    requires e.operation.CardPut? && e.operation.delta == Some(d) && ApplyDelta(before, e, d).Success? && !OpOn(e, x)
    ensures !Touches(x, d)
  {}

  ghost function AppliedOps(s: Store, pool: set<Delivery>, x: Child): set<Children.ChildOp> {
    set d | d in pool && OpOn(d.event, x) && IsApplied(s, d.event) :: OpFor(d.event, x)
  }

  /** The child is what the applied deltas of the pool make of its initial view. */
  ghost predicate ChildTracks(v0: Children.ChildView, pool: set<Delivery>, x: Child, s: Store) {
    Children.Came(x.kind, v0, AppliedOps(s, pool, x), ViewOf(s.data, x)) && OwnedRow(s.data, x) && ParentKept(s.data, x)
  }

  /** Nothing was received yet. The child may be known, under its own card and checklist, or be
      unknown; then its checklist may be unknown as well. */
  ghost predicate ChildReady(s: Store, pool: set<Delivery>, x: Child) {
    ProperChild(x) && PoolFits(pool, x) && OwnedRow(s.data, x) && ParentKept(s.data, x)
    && forall d :: d in pool ==> !Processed(s.ledger, d.event.id)
  }

  lemma OpStamp(e: Event, x: Child)
    requires OpOn(e, x)
    ensures Children.StampOf(OpFor(e, x)) == StampOf(e)
  {}

  lemma OpsWellFormed(s: Store, pool: set<Delivery>, x: Child)
    requires PoolFits(pool, x)
    ensures Children.WellFormed(x.kind, AppliedOps(s, pool, x))
  {
    var ops := AppliedOps(s, pool, x);
    forall op | op in ops ensures Children.PlainOp(x.kind, op) {
      var d :| d in pool && OpOn(d.event, x) && op == OpFor(d.event, x);
    }
    forall a, b | a in ops && b in ops && Children.StampOf(a) == Children.StampOf(b) ensures a == b {
      var d :| d in pool && OpOn(d.event, x) && a == OpFor(d.event, x);
      var e :| e in pool && OpOn(e.event, x) && b == OpFor(e.event, x);
      OpStamp(d.event, x);
      OpStamp(e.event, x);
      assert d.event.id == e.event.id;
    }
  }

  lemma OpsGrow(ws: Workspace, s: Store, pool: set<Delivery>, d: Delivery, x: Child)
    requires Coherent(pool) && d in pool
    ensures var t := Step(ws, s, d).0;
      AppliedOps(t, pool, x) ==
        if OpOn(d.event, x) && NewlyApplied(s, t, d.event) then AppliedOps(s, pool, x) + {OpFor(d.event, x)}
        else AppliedOps(s, pool, x)
  {
    hide Step, OpFor, OpOn;
    StepLedger(ws, s, d);
    var t := Step(ws, s, d).0;
    forall y | y in pool
      ensures IsApplied(t, y.event) <==> IsApplied(s, y.event) || (y.event == d.event && NewlyApplied(s, t, d.event))
    {}
    if OpOn(d.event, x) && NewlyApplied(s, t, d.event) {
      assert OpFor(d.event, x) in AppliedOps(t, pool, x);
    }
  }

  lemma StepChildTracks(ws: Workspace, v0: Children.ChildView, s: Store, pool: set<Delivery>, d: Delivery, x: Child)
    requires ProperChild(x) && PoolFits(pool, x) && d in pool && ChildTracks(v0, pool, x, s)
    ensures ChildTracks(v0, pool, x, Step(ws, s, d).0)
  {
    hide Step, Applies, EventFits, OpOn, OpFor, AppliedOps, Children.Came, OwnedRow,
      ParentKept, NewlyApplied, ViewOf, Children.Apply, SameChild;
    var e, t := d.event, Step(ws, s, d).0;
    StepApplies(ws, s, d);
    OpsGrow(ws, s, pool, d, x);
    assert EventFits(x, e);
    if NewlyApplied(s, t, e) {
      if OpOn(e, x) {
        AppliesOnChild(ws, s.data, e, t.data, x);
        Children.CameStep(x.kind, v0, AppliedOps(s, pool, x), ViewOf(s.data, x), OpFor(e, x));
      } else {
        AppliesElsewhere(ws, s.data, e, t.data, x);
        SameChildView(s.data, t.data, x);
        SameParent(s.data, t.data, x);
      }
    }
  }

  lemma SameParent(a: Data, b: Data, x: Child)
    requires SameChild(a, b, x) && ParentKept(a, x)
    ensures ParentKept(b, x)
  {}

  lemma AppliesOnChild(ws: Workspace, before: Data, e: Event, after: Data, x: Child)
    requires ProperChild(x) && Applies(ws, before, e, after) && EventFits(x, e) && OpOn(e, x)
    requires OwnedRow(before, x) && ParentKept(before, x)
    ensures ViewOf(after, x) == Children.Apply(x.kind, ViewOf(before, x), OpFor(e, x))
    ensures OwnedRow(after, x) && ParentKept(after, x)
  {
    hide ApplyDelta, PutCard, CheckPut, Fits, ViewOf, OpFor, OwnedRow, ParentKept, ProperChild;
    DeltaOnChild(before, e, x);
  }

  lemma {:induction false} RunChildTracks(ws: Workspace, s0: Store, pool: set<Delivery>, ds: seq<Delivery>, x: Child)
    requires ChildReady(s0, pool, x) && From(ds, pool)
    ensures ChildTracks(ViewOf(s0.data, x), pool, x, Run(ws, s0, ds))
  {
    hide Step;
    if ds == [] {
      assert AppliedOps(s0, pool, x) == {};
      Children.CameNowhere(x.kind, ViewOf(s0.data, x));
    } else {
      RunChildTracks(ws, s0, pool, ds[..|ds| - 1], x);
      StepChildTracks(ws, ViewOf(s0.data, x), Run(ws, s0, ds[..|ds| - 1]), pool, ds[|ds| - 1], x);
    }
  }

  /** Whatever the order and the repetitions, if the latest delta applied to a child that nobody
      had seen can decide, the child is shown iff that is a put, and then with exactly its values. */
  lemma ChildVisible(ws: Workspace, s0: Store, pool: set<Delivery>, ds: seq<Delivery>, x: Child, g: Children.ChildOp)
    requires ChildReady(s0, pool, x) && From(ds, pool) && ViewOf(s0.data, x) == Children.UNSEEN
    requires Children.Greatest(AppliedOps(Run(ws, s0, ds), pool, x), g)
    requires Children.Decides(AppliedOps(Run(ws, s0, ds), pool, x), g)
    ensures var v := ViewOf(Run(ws, s0, ds).data, x);
      Children.Visible(v) == (if g.PutOp? then Some(g.write.values) else None) && v.life == Some(Children.StampOf(g))
  {
    hide Run, AppliedOps, Children.Agreed, Children.Greatest, Children.Decides, Children.Came;
    var s := Run(ws, s0, ds);
    RunChildTracks(ws, s0, pool, ds, x);
    OpsWellFormed(s, pool, x);
    Children.CameAgrees(x.kind, AppliedOps(s, pool, x), ViewOf(s.data, x));
    Children.AgreedVisible(x.kind, AppliedOps(s, pool, x), g, ViewOf(s.data, x));
  }

  /** The same for a child that is there at the start: a latest delta that is a delete or a full
      put and beats the lifecycle stamp decides whether it is shown. A put then sets every column
      whose stamp it beats; the others stay as they were. */
  lemma KnownChildVisible(ws: Workspace, s0: Store, pool: set<Delivery>, ds: seq<Delivery>, x: Child,
                          g: Children.ChildOp)
    requires ChildReady(s0, pool, x) && From(ds, pool) && ViewOf(s0.data, x).row.Some?
    requires Children.DecidesKnown(ViewOf(s0.data, x), AppliedOps(Run(ws, s0, ds), pool, x), g)
    ensures var v0, v := ViewOf(s0.data, x), ViewOf(Run(ws, s0, ds).data, x);
      v.row.Some? && v.life == Some(Children.StampOf(g)) && (Children.Visible(v).Some? <==> g.PutOp?)
      && (g.PutOp? ==> forall f :: f in Children.FieldsOf(x.kind) ==>
         Children.CellOf(v, f) == Children.WonCell(v0, g.write, f))
  {
    hide Run, AppliedOps, ViewOf, Children.DecidesKnown, Children.CellOf, Children.WonCell;
    var s, v0 := Run(ws, s0, ds), ViewOf(s0.data, x);
    RunChildTracks(ws, s0, pool, ds, x);
    OpsWellFormed(s, pool, x);
    var a := CameBy(x.kind, v0, AppliedOps(s, pool, x), ViewOf(s.data, x));
    Children.KnownDecided(x.kind, v0, a);
    Children.HasRow(x.kind, v0, Children.Elements(a), ViewOf(s.data, x));
    assert Children.KnownOutcome(x.kind, v0, g, ViewOf(s.data, x));
  }

  lemma CameBy(kind: Children.ChildKind, v0: Children.ChildView, ops: set<Children.ChildOp>, v: Children.ChildView)
    returns (a: seq<Children.ChildOp>)
    requires Children.Came(kind, v0, ops, v)
    ensures Children.Elements(a) == ops && v == Children.ApplyAll(kind, v0, a)
  {
    a :| Children.Elements(a) == ops && v == Children.ApplyAll(kind, v0, a);
  }

  /** A shown child that no applied delete can hide stays shown, and each of its columns is that
      of the latest applied put that names it and beats the stamp from the start. */
  lemma ShownChildColumns(ws: Workspace, s0: Store, pool: set<Delivery>, ds: seq<Delivery>, x: Child)
    requires ChildReady(s0, pool, x) && From(ds, pool)
    requires Children.Unhidden(ViewOf(s0.data, x), AppliedOps(Run(ws, s0, ds), pool, x))
    ensures var v0, v, ops := ViewOf(s0.data, x), ViewOf(Run(ws, s0, ds).data, x), AppliedOps(Run(ws, s0, ds), pool, x);
      Children.Visible(v).Some? && forall f :: f in Children.FieldsOf(x.kind) ==> Children.ColumnSettled(v0, ops, f, v)
  {
    hide Run, AppliedOps, ViewOf, Children.ColumnSettled;
    var s, v0 := Run(ws, s0, ds), ViewOf(s0.data, x);
    RunChildTracks(ws, s0, pool, ds, x);
    var a := CameBy(x.kind, v0, AppliedOps(s, pool, x), ViewOf(s.data, x));
    Children.LiveSettles(x.kind, v0, a);
  }

  /** The child as a board shows it: its columns, or nothing. */
  ghost predicate SameShown(kind: Children.ChildKind, a: Children.ChildView, b: Children.ChildView) {
    (Children.Visible(a).Some? <==> Children.Visible(b).Some?)
    && (Children.Visible(a).Some? ==> forall f :: f in Children.FieldsOf(kind) ==>
       Children.CellOf(a, f) == Children.CellOf(b, f))
  }

  /** The deltas leave no choice about the child, whether it was known or not. */
  ghost predicate ChildDecided(v0: Children.ChildView, ops: set<Children.ChildOp>) {
    if v0.row.Some? then Children.DecisiveFrom(v0, ops) else v0 == Children.UNSEEN && Children.Decisive(ops)
  }

  /** Two nodes that start with the same view of the child, pull one pool in any orders and end
      with the same events processed and no tombstone on its card show the same child, if the
      deltas leave no choice; a child that nobody had seen agrees in its lifecycle stamp as well. */
  lemma ChildConverges(ws1: Workspace, ws2: Workspace, s1: Store, s2: Store, pool: set<Delivery>,
                       ds1: seq<Delivery>, ds2: seq<Delivery>, x: Child)
    requires ChildReady(s1, pool, x) && ChildReady(s2, pool, x) && From(ds1, pool) && From(ds2, pool)
    requires ViewOf(s1.data, x) == ViewOf(s2.data, x)
    requires var a, b := Run(ws1, s1, ds1), Run(ws2, s2, ds2);
      SameProcessed(a, b, pool) && x.card !in a.data.tombstones && x.card !in b.data.tombstones
      && ChildDecided(ViewOf(s1.data, x), AppliedOps(a, pool, x))
    ensures var a, b := ViewOf(Run(ws1, s1, ds1).data, x), ViewOf(Run(ws2, s2, ds2).data, x);
      if ViewOf(s1.data, x).row.Some? then SameShown(x.kind, a, b)
      else Children.Visible(a) == Children.Visible(b) && a.life == b.life
  {
    hide Run, ViewOf, Children.Came, Children.Agreed, Children.Decisive, Children.DecisiveFrom, Children.Visible,
      Children.CellOf;
    var a, b := Run(ws1, s1, ds1), Run(ws2, s2, ds2);
    ProcessedOps(ws1, s1, pool, ds1, x);
    ProcessedOps(ws2, s2, pool, ds2, x);
    SameOps(a, b, pool, x);
    RunChildTracks(ws1, s1, pool, ds1, x);
    RunChildTracks(ws2, s2, pool, ds2, x);
    var ops, v0 := AppliedOps(a, pool, x), ViewOf(s1.data, x);
    OpsWellFormed(a, pool, x);
    if v0.row.Some? {
      var first := CameBy(x.kind, v0, ops, ViewOf(a.data, x));
      var second := CameBy(x.kind, v0, ops, ViewOf(b.data, x));
      Children.KnownUnique(x.kind, v0, first, second);
    } else {
      Children.CameAgrees(x.kind, ops, ViewOf(a.data, x));
      Children.CameAgrees(x.kind, ops, ViewOf(b.data, x));
      Children.AgreedUnique(x.kind, ops, ViewOf(a.data, x), ViewOf(b.data, x));
    }
  }

  predicate OwnCard(e: Event)
    requires e.operation.CardPut? && e.operation.delta.Some?
  {
    e.operation.delta.value.card == e.entity
  }

  /** Without a tombstone on its card, a processed delta was applied iff it is addressed to that card. */
  ghost predicate DeltasApplied(s: Store, pool: set<Delivery>, x: Child) {
    forall d :: d in pool && OpOn(d.event, x) && Processed(s.ledger, d.event.id) && x.card !in s.data.tombstones
      ==> (IsApplied(s, d.event) <==> OwnCard(d.event))
  }

  lemma SameOps(a: Store, b: Store, pool: set<Delivery>, x: Child)
    requires SameProcessed(a, b, pool) && DeltasApplied(a, pool, x) && DeltasApplied(b, pool, x)
    requires x.card !in a.data.tombstones && x.card !in b.data.tombstones
    ensures AppliedOps(a, pool, x) == AppliedOps(b, pool, x)
  {
    hide OpFor, Touches;
    forall d | d in pool && OpOn(d.event, x) ensures IsApplied(a, d.event) <==> IsApplied(b, d.event) {}
  }

  lemma {:induction false} ProcessedOps(ws: Workspace, s0: Store, pool: set<Delivery>, ds: seq<Delivery>, x: Child)
    requires ChildReady(s0, pool, x) && From(ds, pool)
    ensures DeltasApplied(Run(ws, s0, ds), pool, x)
  {
    hide Step, Touches, ViewOf, ParentKept;
    if ds != [] {
      ProcessedOps(ws, s0, pool, ds[..|ds| - 1], x);
      StepDeltasApplied(ws, Run(ws, s0, ds[..|ds| - 1]), pool, ds[|ds| - 1], x);
    }
  }

  lemma StepDeltasApplied(ws: Workspace, s: Store, pool: set<Delivery>, d: Delivery, x: Child)
    requires PoolFits(pool, x) && d in pool && DeltasApplied(s, pool, x)
    ensures DeltasApplied(Step(ws, s, d).0, pool, x)
  {
    hide Step;
    var t := Step(ws, s, d).0;
    StepLedger(ws, s, d);
    StepKeepsTombstones(ws, s, d);
    forall y | y in pool && OpOn(y.event, x) && Processed(t.ledger, y.event.id) && x.card !in t.data.tombstones
      ensures IsApplied(t, y.event) <==> OwnCard(y.event)
    {
      if y.event.id == d.event.id && !Processed(s.ledger, d.event.id) {
        assert y.event == d.event;
        assert EventFits(x, d.event);
        StepDeltaStatus(ws, s, d);
      }
    }
  }

  lemma StepKeepsTombstones(ws: Workspace, s: Store, d: Delivery)
    ensures s.data.tombstones.Keys <= Step(ws, s, d).0.data.tombstones.Keys
  {
    hide Step, ApplyDelta, CheckDelta, CheckPut, PutCard, StorePut;
    var e, t := d.event, Step(ws, s, d).0;
    StepApplies(ws, s, d);
    if NewlyApplied(s, t, e) && e.operation.CardPut? {
      if e.operation.delta.Some? { ApplyDeltaFrame(s.data, e, e.operation.delta.value); }
      else { PutCardStores(s.data, e, e.operation.card.value, WriteFor(e)); }
    }
  }

  lemma StepDeltaStatus(ws: Workspace, s: Store, d: Delivery)
    requires d.event.operation.CardPut? && d.event.operation.delta.Some? && !Processed(s.ledger, d.event.id)
    ensures var t := Step(ws, s, d).0;
      Processed(t.ledger, d.event.id) && !IsApplied(t, d.event) ==> d.event.entity in t.data.tombstones
    ensures var t := Step(ws, s, d).0;
      IsApplied(t, d.event) ==> d.event.operation.delta.value.card == d.event.entity
  {}
}
