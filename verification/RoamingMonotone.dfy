/**
 Stamps never go back. Over every run of every operation, no card, appearance,
 checklist or item stamp is replaced by an earlier one, and the clock of a card's
 lifecycle stamp never decreases. The create path overwrites card stamps without
 comparing them, so this needs an invariant: a card stamp exists only beside its row.
 */
module RoamingMonotone {
  import opened Wrappers
  import opened Stamps
  import opened RoamingModel
  import opened RoamingConvergence
  import Cards = CardMerge
  import Children = ChildMerge

  predicate ClockNotBehind(now: Option<Stamp>, before: Option<Stamp>) {
    before.Some? ==> now.Some? && now.value.clock >= before.value.clock
  }

  /** At one key: `b` is not behind `a`; for a card's lifecycle only the clock counts. */
  predicate AdvancesAt(a: StampTable, b: StampTable, k: Key) {
    if k.name.CardLifecycle? then ClockNotBehind(Lookup(b, k), Lookup(a, k)) else NotBehind(Lookup(b, k), Lookup(a, k))
  }

  ghost predicate Advances(a: StampTable, b: StampTable) {
    forall k :: AdvancesAt(a, b, k)
  }

  ghost predicate StampsHaveRows(data: Data) {
    forall k :: k in data.stamps && k.name.CardStamp? ==> k.entity in data.cards
  }

  /** A row that a remote delete hid has a tombstone, so no put reaches it again. */
  ghost predicate DeletedHaveTombstones(data: Data) {
    forall c :: c in data.cards && data.cards[c].deletedAt.Some? ==> c in data.tombstones
  }

  ghost predicate Guarded(data: Data) {
    StampsHaveRows(data) && DeletedHaveTombstones(data)
  }

  lemma NotBehindTransitive(a: Option<Stamp>, b: Option<Stamp>, c: Option<Stamp>)
    requires NotBehind(b, a) && NotBehind(c, b)
    ensures NotBehind(c, a)
  {}

  lemma AdvancesTransitive(a: StampTable, b: StampTable, c: StampTable)
    requires Advances(a, b) && Advances(b, c)
    ensures Advances(a, c)
  {
    forall k ensures AdvancesAt(a, c, k) {
      assert AdvancesAt(a, b, k) && AdvancesAt(b, c, k);
      if !k.name.CardLifecycle? { NotBehindTransitive(Lookup(a, k), Lookup(b, k), Lookup(c, k)); }
    }
  }

  // One operation at a time.

  lemma PutAdvances(data: Data, card: Uuid, board: Uuid, w: Cards.CardWrite)
    requires StampsHaveRows(data)
    ensures Advances(data.stamps, StorePut(data, card, board, w).stamps)
  {
    var win := Cards.Winning(CardViewOf(data, card), w);
    forall k ensures AdvancesAt(data.stamps, StorePut(data, card, board, w).stamps, k) {
      StampCardAt(data.stamps, card, win, w.stamp, k);
      if k.entity == card && k.name.CardStamp? && k.name.field in win {
        CardStampAt(data.stamps, card, k.name.field);
      }
    }
  }

  lemma PutGuards(data: Data, card: Uuid, board: Uuid, w: Cards.CardWrite)
    requires Guarded(data)
    ensures Guarded(StorePut(data, card, board, w))
  {
    var win, after := Cards.Winning(CardViewOf(data, card), w), StorePut(data, card, board, w);
    forall k | k in after.stamps && k.name.CardStamp? ensures k.entity in after.cards {
      StampCardAt(data.stamps, card, win, w.stamp, k);
    }
  }

  lemma DeleteAdvances(data: Data, card: Uuid, deletedAt: int, s: Stamp)
    requires Guarded(data)
    ensures var after := DeleteCard(data, card, deletedAt, s);
      Advances(data.stamps, after.stamps) && Guarded(after)
  {
    var after := DeleteCard(data, card, deletedAt, s);
    forall k ensures AdvancesAt(data.stamps, after.stamps, k) {}
  }

  lemma AppearanceAdvances(data: Data, board: Uuid, a: Appearance, s: Stamp)
    requires Guarded(data)
    ensures var after := PutAppearance(data, board, a, s);
      Advances(data.stamps, after.stamps) && Guarded(after)
  {
    var after := PutAppearance(data, board, a, s);
    forall k ensures AdvancesAt(data.stamps, after.stamps, k) {}
  }

  lemma StampChildAt(stamps: StampTable, kind: Children.ChildKind, id: Uuid, win: set<Children.ChildField>, life: bool,
                     s: Stamp, k: Key)
    ensures Lookup(StampChild(stamps, kind, id, win, life, s), k) ==
      if life && k == Key(id, ChildLife(kind)) then Some(s)
      else if k.entity == id && k.name.ChildStamp? && k.name.kind == kind && k.name.part in win then Some(s)
      else Lookup(stamps, k)
  {
    assert k in ChildKeys(kind, id, win) <==>
      k.entity == id && k.name.ChildStamp? && k.name.kind == kind && k.name.part in win by {
      if k.entity == id && k.name.ChildStamp? && k.name.kind == kind && k.name.part in win {
        assert k == Key(id, ChildStamp(kind, k.name.part));
      }
    }
  }

  lemma ChildStampAt(stamps: StampTable, kind: Children.ChildKind, id: Uuid, f: Children.ChildField)
    requires f in Children.FieldsOf(kind)
    ensures Lookup(ChildStampsOf(stamps, kind, id), f) == Lookup(stamps, Key(id, ChildStamp(kind, f)))
  {}

  lemma PutChildAdvances(data: Data, kind: Children.ChildKind, id: Uuid, owner: Uuid, w: Children.ChildWrite)
    ensures Advances(data.stamps, PutChild(data, kind, id, owner, w).stamps)
  {
    var v := ChildViewOf(data, kind, id);
    var win, life := Children.Winning(kind, v, w), Children.LifeWins(v, w);
    forall k ensures AdvancesAt(data.stamps, PutChild(data, kind, id, owner, w).stamps, k) {
      StampChildAt(data.stamps, kind, id, win, life, w.stamp, k);
      if k.entity == id && k.name.ChildStamp? && k.name.kind == kind && k.name.part in win {
        ChildStampAt(data.stamps, kind, id, k.name.part);
      }
    }
  }

  lemma HideAdvances(data: Data, kind: Children.ChildKind, id: Uuid, s: Stamp, inScope: bool)
    requires inScope ==> id in Rows(data, kind)
    requires Beats(s, Lookup(data.stamps, Key(id, ChildLife(kind))))
    ensures Advances(data.stamps, HideChild(data, kind, id, s, inScope).stamps)
  {
    forall k ensures AdvancesAt(data.stamps, HideChild(data, kind, id, s, inScope).stamps, k) {}
  }

  lemma DeltaAdvances(data: Data, e: Event, d: Delta)
    requires ApplyDelta(data, e, d).Success?
    ensures Advances(data.stamps, ApplyDelta(data, e, d).value.stamps)
  {
    hide PutChild, HideChild, CleanTitle, Trim;
    match d
    case PutChecklist(_, _, _, p) =>
      var values := Children.ChildValues(CleanTitle(p.value.title).value, PositionOf(p.value.position), false);
      PutChildAdvances(data, Children.Checklist, d.checklist, d.card, ChildWriteOf(e, d.mask, values));
    case PutItem(_, _, _, _, p) =>
      var values :=
        Children.ChildValues(CleanTitle(p.value.title).value, PositionOf(p.value.position), p.value.done.value);
      PutChildAdvances(data, Children.Item, d.item, d.checklist, ChildWriteOf(e, d.mask, values));
    case DeleteChecklist(card, id) => DeleteChecklistAdvances(data, card, id, StampOf(e));
    case DeleteItem(card, id) =>
      if Beats(StampOf(e), Lookup(data.stamps, Key(id, ChildLife(Children.Item)))) {
        HideAdvances(data, Children.Item, id, StampOf(e), ItemUnder(data, card, id));
      } else {
        forall k ensures AdvancesAt(data.stamps, data.stamps, k) {}
      }
    case UnknownDelta(_) => assert false;
  }

  lemma DeleteChecklistAdvances(data: Data, card: Uuid, id: Uuid, s: Stamp)
    ensures Advances(data.stamps, ApplyDeleteChecklist(data, card, id, s).stamps)
  {
    hide HideChild;
    if Beats(s, Lookup(data.stamps, Key(id, ChildLife(Children.Checklist)))) {
      HideAdvances(data, Children.Checklist, id, s, id in data.checklists && data.checklists[id].owner == card);
    } else {
      forall k ensures AdvancesAt(data.stamps, data.stamps, k) {}
    }
  }

  lemma SameCardsGuards(a: Data, b: Data)
    requires SameCards(a, b) && Guarded(a)
    ensures Guarded(b)
  {
    forall k | k in b.stamps && k.name.CardStamp? ensures k.entity in b.cards {
      assert SameStampAt(a, b, Key(k.entity, CardStamp(k.name.field)));
      assert k == Key(k.entity, CardStamp(k.name.field));
    }
  }

  // Every step, every run.

  ghost predicate Later(a: Data, b: Data) {
    Advances(a.stamps, b.stamps) && a.tombstones.Keys <= b.tombstones.Keys
    && forall c :: c in a.tombstones && c in b.tombstones ==> a.tombstones[c] <= b.tombstones[c]
  }

  lemma LaterReflexive(a: Data)
    ensures Later(a, a)
  {
    forall k ensures AdvancesAt(a.stamps, a.stamps, k) {}
  }

  lemma AppliesAdvances(ws: Workspace, before: Data, e: Event, after: Data)
    requires Guarded(before) && Applies(ws, before, e, after)
    ensures Later(before, after) && Guarded(after)
  {
    hide ApplyDelta, PutCard, StorePut, CheckPut, CheckDelta, Guarded, Advances;
    match e.operation
    case AppearancePut(a) => AppearanceAdvances(before, e.board, a.value, StampOf(e));
    case CardDelete(at) => DeleteAdvances(before, e.entity, at.value, StampOf(e));
    case CardPut(_, _, _, delta) =>
      if delta.Some? {
        ApplyDeltaFrame(before, e, delta.value);
        DeltaAdvances(before, e, delta.value);
        SameCardsGuards(before, after);
      } else {
        PutCardStores(before, e, e.operation.card.value, WriteFor(e));
        PutCardAdvances(before, e, after, WriteFor(e));
      }
  }

  lemma PutCardAdvances(before: Data, e: Event, after: Data, w: Cards.CardWrite)
    requires Guarded(before)
    requires var stored := StorePut(before, e.entity, e.board, w);
      after.cards == stored.cards && after.stamps == stored.stamps && after.tombstones == before.tombstones
    ensures Advances(before.stamps, after.stamps) && Guarded(after)
  {
    PutAdvances(before, e.entity, e.board, w);
    PutGuards(before, e.entity, e.board, w);
  }

  lemma StepAdvances(ws: Workspace, s: Store, d: Delivery)
    requires Guarded(s.data)
    ensures Later(s.data, Step(ws, s, d).0.data) && Guarded(Step(ws, s, d).0.data)
  {
    hide Step, Applies, Later, Guarded;
    StepApplies(ws, s, d);
    if NewlyApplied(s, Step(ws, s, d).0, d.event) {
      AppliesAdvances(ws, s.data, d.event, Step(ws, s, d).0.data);
    } else {
      LaterReflexive(s.data);
    }
  }

  /** Over any run no stamp goes back and no tombstone is lifted or moved to an earlier time. */
  lemma {:induction false} RunAdvances(ws: Workspace, s: Store, ds: seq<Delivery>)
    requires Guarded(s.data)
    ensures Later(s.data, Run(ws, s, ds).data) && Guarded(Run(ws, s, ds).data)
  {
    hide Step, Guarded;
    if ds == [] {
      LaterReflexive(s.data);
    } else {
      var mid := Run(ws, s, ds[..|ds| - 1]);
      RunAdvances(ws, s, ds[..|ds| - 1]);
      StepAdvances(ws, mid, ds[|ds| - 1]);
      AdvancesTransitive(s.data.stamps, mid.data.stamps, Run(ws, s, ds).data.stamps);
    }
  }

  /** A card hidden by a delete keeps its values for ever: no later event of any kind writes them. */
  lemma StepFreezesDeleted(ws: Workspace, s: Store, d: Delivery, c: Uuid)
    requires c in s.data.cards && c in s.data.tombstones
    ensures var t := Step(ws, s, d).0;
      c in t.data.cards && c in t.data.tombstones && t.data.cards[c].values == s.data.cards[c].values
      && (s.data.cards[c].deletedAt.Some? ==> t.data.cards[c].deletedAt.Some?)
  {
    hide Step, ApplyDelta, CheckDelta, CheckPut, PutCard, StorePut;
    var e, t := d.event, Step(ws, s, d).0;
    StepApplies(ws, s, d);
    if NewlyApplied(s, t, e) && e.operation.CardPut? {
      if e.operation.delta.Some? {
        ApplyDeltaFrame(s.data, e, e.operation.delta.value);
      } else {
        PutCardStores(s.data, e, e.operation.card.value, WriteFor(e));
        PutElsewhere(s.data, e.entity, e.board, WriteFor(e), c);
      }
    }
  }

  lemma PutElsewhere(data: Data, card: Uuid, board: Uuid, w: Cards.CardWrite, c: Uuid)
    requires c != card && c in data.cards
    ensures var after := StorePut(data, card, board, w); c in after.cards && after.cards[c] == data.cards[c]
  {}

  lemma {:induction false} DeletedIsFrozen(ws: Workspace, s: Store, ds: seq<Delivery>, c: Uuid)
    requires Guarded(s.data) && c in s.data.cards && s.data.cards[c].deletedAt.Some?
    ensures var t := Run(ws, s, ds);
      c in t.data.cards && t.data.cards[c].deletedAt.Some? && t.data.cards[c].values == s.data.cards[c].values
      && c in t.data.tombstones
  {
    hide Step;
    if ds != [] {
      DeletedIsFrozen(ws, s, ds[..|ds| - 1], c);
      StepFreezesDeleted(ws, Run(ws, s, ds[..|ds| - 1]), ds[|ds| - 1], c);
    }
  }

  // What is not monotone.

  /** The lifecycle stamp after deletes that arrive in this order. */
  function MergeAll(stamps: seq<Stamp>): Option<Stamp> {
    if stamps == [] then None else Some(MergeLifecycle(MergeAll(stamps[..|stamps| - 1]), stamps[|stamps| - 1]))
  }

  ghost predicate Highest(s: set<Stamp>, x: Stamp) {
    x in s && forall y :: y in s ==> y.clock <= x.clock
  }

  lemma {:induction false} MergeAllHighest(stamps: seq<Stamp>)
    requires stamps != []
    ensures MergeAll(stamps).Some? && Highest(Cards.Elements(stamps), MergeAll(stamps).value)
    ensures Highest(Cards.Elements(stamps), stamps[|stamps| - 1]) ==> MergeAll(stamps) == Some(stamps[|stamps| - 1])
  {
    var front, last := stamps[..|stamps| - 1], stamps[|stamps| - 1];
    assert stamps == front + [last];
    if front != [] { MergeAllHighest(front); }
    assert last in Cards.Elements(stamps);
  }

  /** On equal clocks the later arrival wins. So the lifecycle stamp that a set of deletes
      leaves is the same for every order exactly when one of them has the greatest clock alone. */
  ghost predicate LifecycleOrderFree(s: set<Stamp>) {
    forall a, b :: Cards.Elements(a) == s && Cards.Elements(b) == s ==> MergeAll(a) == MergeAll(b)
  }

  ghost predicate OneHighest(s: set<Stamp>) {
    forall x, y :: Highest(s, x) && Highest(s, y) ==> x == y
  }

  lemma LifecycleOrderFreeIff(s: set<Stamp>)
    ensures LifecycleOrderFree(s) <==> OneHighest(s)
  {
    if OneHighest(s) {
      forall a, b | Cards.Elements(a) == s && Cards.Elements(b) == s ensures MergeAll(a) == MergeAll(b) {
        SameMerge(s, a, b);
      }
    } else {
      var x, y :| Highest(s, x) && Highest(s, y) && x != y;
      var all := Cards.Enumerate(s);
      EndsWith(s, all, x);
      EndsWith(s, all, y);
    }
  }

  lemma SameMerge(s: set<Stamp>, a: seq<Stamp>, b: seq<Stamp>)
    requires OneHighest(s) && Cards.Elements(a) == s && Cards.Elements(b) == s
    ensures MergeAll(a) == MergeAll(b)
  {
    if a != [] {
      assert a[0] in s;
      MergeAllHighest(a);
    }
    if b != [] {
      assert b[0] in s;
      MergeAllHighest(b);
    }
  }

  lemma EndsWith(s: set<Stamp>, all: seq<Stamp>, x: Stamp)
    requires Cards.Elements(all) == s && Highest(s, x)
    ensures Cards.Elements(all + [x]) == s && MergeAll(all + [x]) == Some(x)
  {
    assert Cards.Elements(all + [x]) == s;
    MergeAllHighest(all + [x]);
  }
}
