/**
 The appearance of a board is a register that the latest stamp wins: after any run it is
 the one that the greatest applied event of the board carries, on every node alike.
 */
module RoamingAppearance {
  import opened Wrappers
  import opened Stamps
  import opened RoamingModel
  import opened RoamingConvergence
  import opened RoamingMonotone
  import Cards = CardMerge
  import Children = ChildMerge

  predicate AppearanceOn(e: Event, board: Uuid) {
    e.operation.AppearancePut? && e.operation.appearance.Some? && e.board == board
  }

  /** What a node holds for the board: the stamp, and the appearance once there is one. */
  datatype Register = Register(stamp: Option<Stamp>, value: Option<Appearance>)

  function RegisterOf(data: Data, board: Uuid): Register {
    Register(Lookup(data.stamps, Key(board, BoardAppearance)), Lookup(data.appearance, board))
  }

  ghost function AppliedLooks(s: Store, pool: set<Delivery>, board: Uuid): set<Event> {
    set d | d in pool && AppearanceOn(d.event, board) && IsApplied(s, d.event) :: d.event
  }

  ghost predicate Leads(init: Register, looks: set<Event>, g: Event) {
    g in looks && Beats(StampOf(g), init.stamp) && forall e :: e in looks ==> !Newer(StampOf(e), StampOf(g))
  }

  ghost predicate Holds(r: Register, g: Event) {
    g.operation.AppearancePut? && r == Register(Some(StampOf(g)), g.operation.appearance)
  }

  /** The greatest of the events that beats the initial stamp decides, if there is one. */
  ghost predicate Decided(init: Register, looks: set<Event>, r: Register) {
    (exists g :: Leads(init, looks, g) && Holds(r, g))
    || ((forall e :: e in looks ==> !Beats(StampOf(e), init.stamp)) && r == init)
  }

  ghost predicate AllLooks(looks: set<Event>, board: Uuid) {
    forall e :: e in looks ==> AppearanceOn(e, board)
  }

  lemma PutDecides(init: Register, looks: set<Event>, r: Register, e: Event, board: Uuid)
    requires AllLooks(looks, board) && AppearanceOn(e, board) && Decided(init, looks, r)
    ensures Decided(init, looks + {e},
      if Beats(StampOf(e), r.stamp) then Register(Some(StampOf(e)), e.operation.appearance) else r)
  {
    var more := looks + {e};
    if g :| Leads(init, looks, g) && Holds(r, g) {
      assert Leads(init, more, if Newer(StampOf(e), StampOf(g)) then e else g);
    } else if Beats(StampOf(e), init.stamp) {
      forall x | x in more ensures !Newer(StampOf(x), StampOf(e)) {}
      assert Leads(init, more, e);
    }
  }

  lemma DecidedUnique(init: Register, looks: set<Event>, a: Register, b: Register)
    requires Decided(init, looks, a) && Decided(init, looks, b)
    requires forall x, y :: x in looks && y in looks && x.id == y.id ==> x == y
    ensures a == b
  {
    if x :| x in looks && Beats(StampOf(x), init.stamp) {
      var g :| Leads(init, looks, g) && Holds(a, g);
      var h :| Leads(init, looks, h) && Holds(b, h);
      assert StampOf(g) == StampOf(h);
    }
  }

  // What a step does to the register.

  lemma DeltaKeepsLook(data: Data, e: Event, d: Delta, board: Uuid)
    requires ApplyDelta(data, e, d).Success?
    ensures RegisterOf(ApplyDelta(data, e, d).value, board) == RegisterOf(data, board)
  {
    hide CleanTitle, Trim, PutChild, HideChild, ChildViewOf;
    match d
    case PutChecklist(_, _, _, p) =>
      var values := Children.ChildValues(CleanTitle(p.value.title).value, PositionOf(p.value.position), false);
      PutChildKeepsLook(data, Children.Checklist, d.checklist, d.card, ChildWriteOf(e, d.mask, values), board);
    case PutItem(_, _, _, _, p) =>
      var values :=
        Children.ChildValues(CleanTitle(p.value.title).value, PositionOf(p.value.position), p.value.done.value);
      PutChildKeepsLook(data, Children.Item, d.item, d.checklist, ChildWriteOf(e, d.mask, values), board);
    case DeleteChecklist(card, id) =>
      HideKeepsLook(data, Children.Checklist, id, StampOf(e),
        id in data.checklists && data.checklists[id].owner == card, board);
    case DeleteItem(card, id) =>
      HideKeepsLook(data, Children.Item, id, StampOf(e), ItemUnder(data, card, id), board);
    case UnknownDelta(_) => assert false;
  }

  lemma PutChildKeepsLook(data: Data, kind: Children.ChildKind, id: Uuid, owner: Uuid, w: Children.ChildWrite,
                          board: Uuid)
    ensures RegisterOf(PutChild(data, kind, id, owner, w), board) == RegisterOf(data, board)
  {
    var v := ChildViewOf(data, kind, id);
    var win, life := Children.Winning(kind, v, w), Children.LifeWins(v, w);
    StampChildAt(data.stamps, kind, id, win, life, w.stamp, Key(board, BoardAppearance));
    hide StampChild, Children.Winning, Children.LifeWins, Children.Overwrite;
  }

  lemma HideKeepsLook(data: Data, kind: Children.ChildKind, id: Uuid, s: Stamp, inScope: bool, board: Uuid)
    requires inScope ==> id in Rows(data, kind)
    ensures RegisterOf(HideChild(data, kind, id, s, inScope), board) == RegisterOf(data, board)
  {}

  lemma PutCardKeepsLook(data: Data, e: Event, p: CardPayload, w: Cards.CardWrite, board: Uuid)
    requires e.operation.CardPut? && PutCard(data, e, p, w).Success?
    ensures RegisterOf(PutCard(data, e, p, w).value, board) == RegisterOf(data, board)
  {
    hide PutAllowed, FillBundle, CardViewOf, Cards.Winning;
    var stored := StorePut(data, e.entity, e.board, w);
    StampCardAt(data.stamps, e.entity, Cards.Winning(CardViewOf(data, e.entity), w), w.stamp,
      Key(board, BoardAppearance));
    assert RegisterOf(stored, board) == RegisterOf(data, board);
    hide StorePut;
    PutCardStores(data, e, p, w);
    if PutCard(data, e, p, w).value != stored { FilledKeepsLook(stored, e.entity, e.operation.bundle.value); }
  }

  lemma FilledKeepsLook(data: Data, card: Uuid, b: Bundle)
    requires FillBundle(data, card, b).Success?
    ensures FillBundle(data, card, b).value.appearance == data.appearance
  {
    FillListsFrame(data, card, b.lists);
  }

  lemma AppliesLook(ws: Workspace, before: Data, e: Event, after: Data, board: Uuid)
    requires Applies(ws, before, e, after)
    ensures var r := RegisterOf(before, board);
      RegisterOf(after, board) ==
        if AppearanceOn(e, board) && Beats(StampOf(e), r.stamp) then Register(Some(StampOf(e)), e.operation.appearance)
        else r
  {
    hide ApplyDelta, PutCard, CheckPut, CheckDelta, WriteFor, PutAppearance, DeleteCard, RegisterOf;
    match e.operation
    case AppearancePut(a) => PutAppearanceLook(before, e.board, a.value, StampOf(e), board);
    case CardDelete(at) => DeleteKeepsLook(before, e.entity, at.value, StampOf(e), board);
    case CardPut(_, card, _, delta) =>
      if delta.Some? { DeltaKeepsLook(before, e, delta.value, board); }
      else { PutCardKeepsLook(before, e, card.value, WriteFor(e), board); }
  }

  lemma PutAppearanceLook(data: Data, on: Uuid, a: Appearance, s: Stamp, board: Uuid)
    ensures var r := RegisterOf(data, board);
      RegisterOf(PutAppearance(data, on, a, s), board) ==
        if on == board && Beats(s, r.stamp) then Register(Some(s), Some(a)) else r
  {}

  lemma DeleteKeepsLook(data: Data, card: Uuid, at: int, s: Stamp, board: Uuid)
    ensures RegisterOf(DeleteCard(data, card, at, s), board) == RegisterOf(data, board)
  {}

  // Runs.

  ghost predicate LookTracks(init: Register, pool: set<Delivery>, board: Uuid, s: Store) {
    Decided(init, AppliedLooks(s, pool, board), RegisterOf(s.data, board))
    && forall d :: d in pool && AppearanceOn(d.event, board) && Processed(s.ledger, d.event.id) ==>
       IsApplied(s, d.event)
  }

  lemma LooksGrow(ws: Workspace, s: Store, pool: set<Delivery>, d: Delivery, board: Uuid)
    requires Coherent(pool) && d in pool
    ensures var t := Step(ws, s, d).0;
      AppliedLooks(t, pool, board) ==
        if AppearanceOn(d.event, board) && NewlyApplied(s, t, d.event) then AppliedLooks(s, pool, board) + {d.event}
        else AppliedLooks(s, pool, board)
  {
    hide Step, AppearanceOn;
    StepLedger(ws, s, d);
    var t := Step(ws, s, d).0;
    forall x | x in pool
      ensures IsApplied(t, x.event) <==> IsApplied(s, x.event) || (x.event == d.event && NewlyApplied(s, t, d.event))
    {}
    if AppearanceOn(d.event, board) && NewlyApplied(s, t, d.event) {
      assert d.event in AppliedLooks(t, pool, board);
    }
  }

  lemma LookStatus(ws: Workspace, s: Store, d: Delivery, board: Uuid)
    requires AppearanceOn(d.event, board) && !Processed(s.ledger, d.event.id)
    ensures var t := Step(ws, s, d).0; Processed(t.ledger, d.event.id) ==> IsApplied(t, d.event)
  {
    hide Actor, PutAppearance;
  }

  lemma StepLookTracks(ws: Workspace, init: Register, s: Store, pool: set<Delivery>, d: Delivery, board: Uuid)
    requires Coherent(pool) && d in pool && LookTracks(init, pool, board, s)
    ensures LookTracks(init, pool, board, Step(ws, s, d).0)
  {
    hide Step, Applies, Decided, RegisterOf;
    var t := Step(ws, s, d).0;
    StepLedger(ws, s, d);
    StepApplies(ws, s, d);
    LooksGrow(ws, s, pool, d, board);
    if NewlyApplied(s, t, d.event) {
      AppliesLook(ws, s.data, d.event, t.data, board);
      if AppearanceOn(d.event, board) {
        PutDecides(init, AppliedLooks(s, pool, board), RegisterOf(s.data, board), d.event, board);
      }
    }
    if AppearanceOn(d.event, board) && !Processed(s.ledger, d.event.id) { LookStatus(ws, s, d, board); }
  }

  /** After any run over the pool, the board shows what its greatest applied event carries. */
  lemma {:induction false} RunLookTracks(ws: Workspace, s0: Store, pool: set<Delivery>, ds: seq<Delivery>, board: Uuid)
    requires Coherent(pool) && From(ds, pool) && forall d :: d in pool ==> !Processed(s0.ledger, d.event.id)
    ensures LookTracks(RegisterOf(s0.data, board), pool, board, Run(ws, s0, ds))
  {
    hide Step, RegisterOf;
    if ds == [] {
      assert AppliedLooks(s0, pool, board) == {};
    } else {
      RunLookTracks(ws, s0, pool, ds[..|ds| - 1], board);
      StepLookTracks(ws, RegisterOf(s0.data, board), Run(ws, s0, ds[..|ds| - 1]), pool, ds[|ds| - 1], board);
    }
  }

  /** Two nodes that start alike and processed the same events show the same appearance. */
  lemma AppearanceConverges(ws1: Workspace, ws2: Workspace, s1: Store, s2: Store, pool: set<Delivery>,
                            ds1: seq<Delivery>, ds2: seq<Delivery>, board: Uuid)
    requires Coherent(pool) && From(ds1, pool) && From(ds2, pool)
    requires forall d :: d in pool ==> !Processed(s1.ledger, d.event.id) && !Processed(s2.ledger, d.event.id)
    requires RegisterOf(s1.data, board) == RegisterOf(s2.data, board)
    requires SameProcessed(Run(ws1, s1, ds1), Run(ws2, s2, ds2), pool)
    ensures RegisterOf(Run(ws1, s1, ds1).data, board) == RegisterOf(Run(ws2, s2, ds2).data, board)
  {
    hide Run, Decided, RegisterOf;
    var a, b := Run(ws1, s1, ds1), Run(ws2, s2, ds2);
    RunLookTracks(ws1, s1, pool, ds1, board);
    RunLookTracks(ws2, s2, pool, ds2, board);
    forall d | d in pool && AppearanceOn(d.event, board) ensures IsApplied(a, d.event) <==> IsApplied(b, d.event) {}
    assert AppliedLooks(a, pool, board) == AppliedLooks(b, pool, board);
    DecidedUnique(RegisterOf(s1.data, board), AppliedLooks(a, pool, board), RegisterOf(a.data, board),
      RegisterOf(b.data, board));
  }
}
