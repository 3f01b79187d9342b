/**
 What one event asks for, and what it leaves behind: which events are let in, by whom, and
 field by field what they make of cards, checklists and items. The statements speak of
 masks, payloads, stamps and table rows only.
 */
module RoamingEffects {
  import opened Wrappers
  import opened Stamps
  import opened RoamingModel
  import opened RoamingConvergence
  import Cards = CardMerge
  import Children = ChildMerge
  import Link = DeviceLink

  // Who acts.

  /** The author is enrolled on the board in its current epoch, as an owner or member, for a user
      who owns the workspace or is an active member of it. */
  predicate EnrolledFor(ws: Workspace, auths: AuthTable, board: Uuid, author: string, user: Uuid) {
    AuthKey(board, author) in auths && board in ws.epochs
    && var row := auths[AuthKey(board, author)];
       row.user == user && row.epoch == ws.epochs[board] && row.role in {Owner, Member}
       && (user == ws.owner || user in ws.members)
  }

  predicate Enrolled(ws: Workspace, auths: AuthTable, board: Uuid, author: string) {
    exists user :: EnrolledFor(ws, auths, board, author, user)
  }

  /** A delegation chain whose last grant is for this board, workspace and epoch and for the owner,
      judged at its enrolment, from a root that the owner is enrolled with or has pinned. */
  predicate OwnersChain(ws: Workspace, auths: AuthTable, d: Delivery) {
    var e := d.event;
    e.delegation.Some? && e.board in ws.epochs
    && Link.AcceptsReplication(ws.crypto, e.delegation.value, d.author, d.signedAt, ws.clock)
    && var chain := e.delegation.value;
       var g := chain[|chain| - 1].grant.value;
       (g.board, g.workspace, g.epoch, g.user) == (e.board, ws.id, ws.epochs[e.board], ws.owner)
       && OwnersRoot(ws, auths, e.board, chain[0].signer)
  }

  predicate OwnersRoot(ws: Workspace, auths: AuthTable, board: Uuid, root: string)
    requires board in ws.epochs
  {
    (AuthKey(board, root) in auths && auths[AuthKey(board, root)] == AuthRow(ws.owner, Owner, ws.epochs[board]))
    || Pin(board, root, ws.owner, ws.epochs[board]) in ws.pinned
  }

  lemma EnrolledIff(ws: Workspace, auths: AuthTable, d: Delivery)
    ensures Usable(ws, auths, AuthorOf(d)) <==> Enrolled(ws, auths, d.event.board, d.author)
    ensures Usable(ws, auths, AuthorOf(d)) ==>
      EnrolledFor(ws, auths, d.event.board, d.author, auths[AuthorOf(d)].user)
  {
    if Usable(ws, auths, AuthorOf(d)) {
      assert EnrolledFor(ws, auths, d.event.board, d.author, auths[AuthorOf(d)].user);
    }
  }

  /** Who acts for a delivery on an active board, in its epoch: the enrolled user; or, for an author
      who is not enrolled, the owner, with an owner's chain or at epoch one without any chain. */
  lemma ActorIff(ws: Workspace, auths: AuthTable, d: Delivery)
    ensures var e, r := d.event, Actor(ws, auths, d);
      var current := e.board in ws.epochs && e.epoch == ws.epochs[e.board];
      var enrolled := Enrolled(ws, auths, e.board, d.author);
      (r.Success? <==> current && (enrolled || OwnersChain(ws, auths, d) || (e.delegation.None? && e.epoch == 1)))
      && (r.Success? ==>
            if enrolled then EnrolledFor(ws, auths, e.board, d.author, r.value.0) && r.value.1 == auths
            else r.value.0 == ws.owner
                 && r.value.1 == (if e.delegation.None? then auths
                                  else auths[AuthKey(e.board, d.author) := AuthRow(ws.owner, Owner, e.epoch)]))
  {
    hide Enrolled, EnrolledFor;
    EnrolledIff(ws, auths, d);
  }

  /** A guest never acts beyond epoch one without a chain. */
  lemma GuestRefused(ws: Workspace, auths: AuthTable, d: Delivery)
    requires AuthorOf(d) in auths && auths[AuthorOf(d)].role == Guest && d.event.delegation.None? && d.event.epoch != 1
    ensures Actor(ws, auths, d).Failure?
  {
    ActorIff(ws, auths, d);
  }

  // What a step records.

  /** The event is new to the workspace's node and comes from someone who may act on the board. */
  predicate LetIn(ws: Workspace, s: Store, d: Delivery) {
    d.event.workspace == ws.id && !Processed(s.ledger, d.event.id) && Actor(ws, s.auths, d).Success?
  }

  /** No other event holds the delivery's wrapper or its replica slot. */
  predicate SlotFree(ledger: Ledger, d: Delivery) {
    forall k :: k in ledger && k != d.event.id ==>
      ledger[k].nostrId != d.nostrId && !(ledger[k].replica == d.event.replica && ledger[k].seqNo == d.event.seqNo)
  }

  lemma FreeIff(ledger: Ledger, d: Delivery)
    ensures LedgerFree(ledger - {d.event.id}, d) <==> SlotFree(ledger, d)
  {
    var rest := ledger - {d.event.id};
    assert forall k :: k in rest <==> k in ledger && k != d.event.id;
    assert forall k :: k in rest ==> rest[k] == ledger[k];
    if LedgerFree(rest, d) {
      forall k | k in ledger && k != d.event.id
        ensures ledger[k].nostrId != d.nostrId
        ensures !(ledger[k].replica == d.event.replica && ledger[k].seqNo == d.event.seqNo)
      {
        assert k in rest;
      }
    }
  }

  predicate RecordedAs(s: Store, d: Delivery, status: Status) {
    d.event.id in s.ledger && s.ledger[d.event.id] == LedgerRow(d.nostrId, d.event.replica, d.event.seqNo, status)
  }

  /** What a step leaves under the id of its event: a final entry stays; an event of another
      workspace or of a board that is not active leaves nothing; one whose author may not act is
      recorded as rejected, once; any other ends applied, or set aside because its card has a
      tombstone, or without an entry, to be tried again. */
  lemma StepRecords(ws: Workspace, s: Store, d: Delivery)
    ensures var (t, outcome) := Step(ws, s, d);
      var e, id := d.event, d.event.id;
      var known := id in s.ledger && s.ledger[id].status in {Applied, TombstoneWins};
      if known then t == s && (outcome.Done? <==> e.workspace == ws.id)
      else if e.workspace != ws.id || e.board !in ws.epochs then t == s && outcome.Refused?
      else if !LetIn(ws, s, d) then
        if id in s.ledger then t == s && outcome == Done
        else if SlotFree(s.ledger, d) then
          t == s.(ledger := t.ledger) && RecordedAs(t, d, Unauthorized) && t.ledger == s.ledger[id := t.ledger[id]]
            && outcome == Done
        else t == s && outcome.Refused?
      else
        t.auths == Actor(ws, s.auths, d).value.1
        && t.ledger - {id} == s.ledger - {id}
        && (outcome == Done <==> id in t.ledger)
        && (id in t.ledger ==>
              SlotFree(s.ledger, d)
              && (RecordedAs(t, d, Applied)
                  || (RecordedAs(t, d, TombstoneWins) && e.operation.CardPut? && e.entity in s.data.tombstones)))
  {
    hide Actor, PutAppearance, DeleteCard, CheckDelta, ApplyDelta, CheckPut, PutCard, FillBundle;
    FreeIff(s.ledger, d);
    if d.event.id !in s.ledger { assert s.ledger - {d.event.id} == s.ledger; }
  }

  // Which of two writes wins.

  /** An event overrules a stamp that is not there, or that has an older clock, at equal clocks a
      smaller replica, and for one replica a smaller event id. */
  predicate Overrules(e: Event, held: Option<Stamp>) {
    match held
    case None => true
    case Some(s) =>
      e.clock > s.clock
      || (e.clock == s.clock && (if e.replica == s.replica then e.id > s.event else e.replica > s.replica))
  }

  /** The stamp of an event is its clock, replica and id, and it beats what the event overrules. */
  lemma OverrulesIff(e: Event, held: Option<Stamp>)
    ensures Beats(StampOf(e), held) <==> Overrules(e, held)
    ensures StampOf(e).clock == e.clock && StampOf(e).replica == e.replica && StampOf(e).event == e.id
  {}

  // Which puts of a card are stored.

  /** Some character of the title is not white space. */
  ghost predicate Titled(title: Option<string>) {
    title.Some? && exists i :: 0 <= i < |title.value| && title.value[i] !in " \t\n\r"
  }

  lemma SpaceIff(c: char)
    ensures Space(c) <==> c in " \t\n\r"
  {}

  lemma {:induction false} BlankIff(s: string)
    ensures Trim(s) == "" <==> AllSpace(s)
    decreases |s|
  {
    if s != "" {
      if Space(s[0]) { BlankIff(s[1..]); assert s == [s[0]] + s[1..]; }
      else if Space(s[|s| - 1]) { BlankIff(s[..|s| - 1]); assert s[..|s| - 1][0] == s[0]; }
    }
  }

  lemma TitledIff(title: Option<string>)
    ensures CleanTitle(title).Some? <==> Titled(title)
    ensures CleanTitle(title).Some? ==> CleanTitle(title).value == Trim(title.value)
  {
    if title.Some? {
      BlankIff(title.value);
      forall i | 0 <= i < |title.value| { SpaceIff(title.value[i]); }
    }
  }

  /** The payload is for this card and board, names a column of the board, has a title, and its
      priority, if any, is one of four. */
  ghost predicate ProperPut(ws: Workspace, e: Event)
    requires e.operation.CardPut?
  {
    e.operation.card.Some?
    && var p := e.operation.card.value;
       p.id == e.entity && p.board == e.board && p.column.Some? && (e.board, p.column.value) in ws.columns
       && Titled(p.title) && p.priority in {None, Some("low"), Some("medium"), Some("high"), Some("urgent")}
  }

  lemma PriorityIff(p: Option<string>)
    ensures KnownPriority(p) <==> p in {None, Some("low"), Some("medium"), Some("high"), Some("urgent")}
  {}

  lemma ProperIff(ws: Workspace, e: Event)
    requires e.operation.CardPut? && e.operation.delta.None?
    ensures CheckPut(ws, e, e.operation.card).Success? <==> ProperPut(ws, e)
    ensures CheckPut(ws, e, e.operation.card).Success? ==>
      PutOn(e, e.entity) && e.operation.card.value.title.Some?
      && CheckPut(ws, e, e.operation.card) == Success(WriteFor(e))
  {
    hide Trim, Titled, KnownPriority;
    if e.operation.card.Some? {
      TitledIff(e.operation.card.value.title);
      PriorityIff(e.operation.card.value.priority);
    }
  }

  predicate Names(mask: seq<MaskEntry>, f: Cards.CardField) {
    Every in mask || Named(f) in mask
  }

  /** The put names the field and is newer than its stamp. */
  predicate Wins(data: Data, e: Event, f: Cards.CardField)
    requires e.operation.CardPut?
  {
    Names(e.operation.mask, f) && Beats(StampOf(e), Lookup(data.stamps, Key(e.entity, CardStamp(f))))
  }

  /** The put writes the field: it makes the card, or wins the field. */
  predicate Takes(data: Data, e: Event, f: Cards.CardField)
    requires e.operation.CardPut?
  {
    e.entity !in data.cards || Wins(data, e, f)
  }

  function Told(t: TimeText): Option<int> {
    match t case ReadAs(at) => Some(at) case _ => None
  }

  /** What the payload asks of a field. */
  function Asks(p: CardPayload, f: Cards.CardField): Cards.Value
    requires p.column.Some? && p.title.Some?
  {
    match f
    case ColumnId => Cards.Ref(p.column.value)
    case ParentCardId => Cards.MaybeRef(match p.parent case Parent(id) => Some(id) case _ => None)
    case Title => Cards.Text(Trim(p.title.value))
    case Description => Cards.MaybeText(p.description)
    case Priority => Cards.MaybeText(p.priority)
    case Position => Cards.Number(match p.position case Some(x) => x case None => 1000.0)
    case StartAt => Cards.Moment(Told(p.startAt))
    case DueAt => Cards.Moment(Told(p.dueAt))
    case IsArchived => Cards.Flag(p.isArchived == Some(true))
    case Checklists => Cards.NoColumn
  }

  lemma AsksWritten(e: Event, f: Cards.CardField)
    requires PutOn(e, e.entity)
    ensures e.operation.card.value.title.Some?
    ensures Cards.Get(WriteFor(e).values, f) == Asks(e.operation.card.value, f)
  {
    hide Trim;
  }

  lemma TakesIff(data: Data, e: Event, f: Cards.CardField)
    requires PutOn(e, e.entity)
    ensures f in Cards.Winning(CardViewOf(data, e.entity), WriteFor(e)) <==> Takes(data, e, f)
  {
    hide Written;
    CardStampAt(data.stamps, e.entity, f);
    Cards.ListedField(f);
  }

  predicate Moment(v: Cards.Value, at: int) {
    v == Cards.Moment(Some(at))
  }

  /** The value of the field after the put. */
  function Result(data: Data, e: Event, f: Cards.CardField): Cards.Value
    requires PutOn(e, e.entity) && e.operation.card.value.title.Some?
  {
    if Takes(data, e, f) then Asks(e.operation.card.value, f) else Cards.Get(data.cards[e.entity].values, f)
  }

  /** The due date does not come before the start. */
  ghost predicate InOrder(start: Cards.Value, due: Cards.Value) {
    forall a, b :: Moment(start, a) && Moment(due, b) ==> a <= b
  }

  /** The parent, if any, is the card itself or a card of the same board. */
  predicate Placed(data: Data, e: Event, parent: Cards.Value) {
    match parent
    case MaybeRef(Some(id)) => id == e.entity || (id in data.cards && data.cards[id].board == e.board)
    case _ => true
  }

  /** Whether the tables take the put: a card stays on its board; if the put takes any field, its
      parent must be readable; and unless the card is soft-deleted, the times it takes must be
      readable, and the dates and the parent that result must be allowed. */
  ghost predicate Storable(data: Data, e: Event)
    requires PutOn(e, e.entity) && e.operation.card.value.title.Some?
  {
    var c, p := e.entity, e.operation.card.value;
    var moves := exists f: Cards.CardField :: Takes(data, e, f);
    (c in data.cards ==> data.cards[c].board == e.board)
    && (moves ==> !p.parent.MalformedParent?)
    && (moves && (c !in data.cards || data.cards[c].deletedAt.None?) ==>
          && (Takes(data, e, Cards.StartAt) ==> !p.startAt.MalformedTime?)
          && (Takes(data, e, Cards.DueAt) ==> !p.dueAt.MalformedTime?)
          && InOrder(Result(data, e, Cards.StartAt), Result(data, e, Cards.DueAt))
          && Placed(data, e, Result(data, e, Cards.ParentCardId)))
  }

  lemma ResultIff(data: Data, e: Event, f: Cards.CardField)
    requires PutOn(e, e.entity) && e.operation.card.value.title.Some?
    requires e.entity in data.cards ==> data.cards[e.entity].deletedAt.None?
    ensures Cards.Get(Cards.Put(CardViewOf(data, e.entity), WriteFor(e)).row.value.values, f) == Result(data, e, f)
  {
    hide WriteFor, Cards.Winning, CardStampsOf, Asks;
    AsksWritten(e, f);
    TakesIff(data, e, f);
    if e.entity in data.cards {
      Cards.OverwriteGet(data.cards[e.entity].values, WriteFor(e).values,
        Cards.Winning(CardViewOf(data, e.entity), WriteFor(e)), f);
    }
  }

  lemma AllowedIff(data: Data, e: Event, v: Cards.CardValues)
    ensures RowAllowed(data.cards, e.board, e.entity, v) <==>
      InOrder(Cards.Get(v, Cards.StartAt), Cards.Get(v, Cards.DueAt))
        && Placed(data, e, Cards.Get(v, Cards.ParentCardId))
  {
    if v.startAt.Some? && v.dueAt.Some? {
      assert Moment(Cards.Get(v, Cards.StartAt), v.startAt.value) && Moment(Cards.Get(v, Cards.DueAt), v.dueAt.value);
    }
  }

  lemma MovesIff(data: Data, e: Event)
    requires PutOn(e, e.entity)
    ensures Cards.Winning(CardViewOf(data, e.entity), WriteFor(e)) != {} <==>
      exists f: Cards.CardField :: Takes(data, e, f)
  {
    hide WriteFor, Takes, CardViewOf, Cards.Winning;
    var win := Cards.Winning(CardViewOf(data, e.entity), WriteFor(e));
    forall f: Cards.CardField ensures f in win <==> Takes(data, e, f) { TakesIff(data, e, f); }
    if win != {} {
      var f :| f in win;
      assert Takes(data, e, f);
    }
  }

  lemma AllowedPutIff(data: Data, e: Event)
    requires PutOn(e, e.entity) && e.operation.card.value.title.Some?
    requires e.entity in data.cards ==> data.cards[e.entity].deletedAt.None?
    ensures PutAllowed(data, e.entity, e.board, WriteFor(e)) <==>
      ((exists f: Cards.CardField :: Takes(data, e, f)) ==>
        InOrder(Result(data, e, Cards.StartAt), Result(data, e, Cards.DueAt))
        && Placed(data, e, Result(data, e, Cards.ParentCardId)))
  {
    hide WriteFor, Takes, Result, InOrder, Placed, RowAllowed, Cards.Winning, Cards.Overwrite, CardStampsOf, Cards.Get;
    MovesIff(data, e);
    ResultIff(data, e, Cards.StartAt);
    ResultIff(data, e, Cards.DueAt);
    ResultIff(data, e, Cards.ParentCardId);
    AllowedIff(data, e, Cards.Put(CardViewOf(data, e.entity), WriteFor(e)).row.value.values);
  }

  /** The put finds no bundle to unpack, or one that unpacks. */
  ghost predicate Unpacks(data: Data, e: Event)
    requires PutOn(e, e.entity)
  {
    Takes(data, e, Cards.Checklists) && e.operation.bundle.Some? ==>
      e.operation.bundle.value.Lists? && ListsFit(data, e.entity, e.operation.bundle.value.lists)
  }

  lemma UnpacksIff(data: Data, e: Event)
    requires PutOn(e, e.entity)
    ensures Unpacks(data, e) <==>
      (Takes(data, e, Cards.Checklists) && e.operation.bundle.Some? ==>
        FillBundle(StorePut(data, e.entity, e.board, WriteFor(e)), e.entity, e.operation.bundle.value).Success?)
  {
    hide WriteFor, Takes, FillBundle, StampCard, CardStampsOf, ListsFit;
    if e.operation.bundle.Some? {
      var stored := StorePut(data, e.entity, e.board, WriteFor(e));
      BundleIff(stored, e.entity, e.operation.bundle.value);
      if e.operation.bundle.value.Lists? { SameListsFit(data, stored, e.entity, e.operation.bundle.value.lists); }
    }
  }

  lemma SameListsFit(a: Data, b: Data, card: Uuid, lists: seq<BundleList>)
    requires a.checklists == b.checklists && a.items == b.items
    ensures ListsFit(a, card, lists) <==> ListsFit(b, card, lists)
  {
    hide ItemsApart, ItemsFit, Titled;
    forall i | 0 <= i < |lists| ensures ListFits(a, card, lists[i]) <==> ListFits(b, card, lists[i]) {
      if lists[i].items.Some? { SameItemsFit(a, b, lists[i].head.id, lists[i].items.value); }
    }
  }

  lemma PutCardIff(data: Data, e: Event)
    requires PutOn(e, e.entity) && e.operation.card.value.title.Some?
    ensures PutCard(data, e, e.operation.card.value, WriteFor(e)).Success? <==> Storable(data, e) && Unpacks(data, e)
  {
    hide WriteFor, PutAllowed, Takes, Result, InOrder, Placed, Cards.Winning, CardViewOf, StorePut, FillBundle, Unpacks;
    UnpacksIff(data, e);
    MovesIff(data, e);
    TakesIff(data, e, Cards.StartAt);
    TakesIff(data, e, Cards.DueAt);
    TakesIff(data, e, Cards.Checklists);
    if e.entity in data.cards && data.cards[e.entity].deletedAt.Some? {
      DeletedAllowed(data, e);
    } else {
      AllowedPutIff(data, e);
    }
  }

  lemma DeletedAllowed(data: Data, e: Event)
    requires PutOn(e, e.entity) && e.entity in data.cards && data.cards[e.entity].deletedAt.Some?
    ensures PutAllowed(data, e.entity, e.board, WriteFor(e))
  {
    hide WriteFor;
  }

  /** A put that is let in is applied exactly when it is of a card without a tombstone, nobody
      holds its slot, its payload is proper, and the tables take it and its bundle. */
  lemma PutAppliedIff(ws: Workspace, s: Store, d: Delivery)
    requires LetIn(ws, s, d) && d.event.operation.CardPut? && d.event.operation.delta.None?
    ensures IsApplied(Step(ws, s, d).0, d.event) <==>
      d.event.entityType.CardEntity? && d.event.entity !in s.data.tombstones && SlotFree(s.ledger, d)
      && ProperPut(ws, d.event) && PutOn(d.event, d.event.entity)
      && Storable(s.data, d.event) && Unpacks(s.data, d.event)
  {
    hide *;
    PutStep(ws, s, d);
    ProperIff(ws, d.event);
    if CheckPut(ws, d.event, d.event.operation.card).Success? { PutCardIff(s.data, d.event); }
  }

  lemma PutStep(ws: Workspace, s: Store, d: Delivery)
    requires LetIn(ws, s, d) && d.event.operation.CardPut? && d.event.operation.delta.None?
    ensures var e := d.event;
      var checked := CheckPut(ws, e, e.operation.card);
      IsApplied(Step(ws, s, d).0, e) <==>
        e.entityType.CardEntity? && e.entity !in s.data.tombstones && SlotFree(s.ledger, d)
        && checked.Success? && PutCard(s.data, e, e.operation.card.value, checked.value).Success?
  {
    hide DelegationInScope, Usable, Root, Pinned, PutCard, Trim;
    FreeIff(s.ledger, d);
  }

  /** Field by field, what an applied put leaves: a field it takes has the payload's value and the
      event's stamp, any other is as before; a soft-deleted card keeps its values but not its
      stamps. Nothing else in the tables changes but the rows its bundle fills in. */
  lemma PutLeaves(ws: Workspace, s: Store, d: Delivery, f: Cards.CardField)
    requires d.event.operation.CardPut? && d.event.operation.delta.None? && NewlyApplied(s, Step(ws, s, d).0, d.event)
    ensures PutOn(d.event, d.event.entity) && d.event.operation.card.value.title.Some?
    ensures var e, a, b := d.event, s.data, Step(ws, s, d).0.data;
      var c := e.entity;
      var kept := if c in a.cards then a.cards[c].deletedAt else None;
      c in b.cards && b.cards[c].board == e.board && b.cards[c].deletedAt == kept
      && Cards.Get(b.cards[c].values, f) == (if kept.Some? then Cards.Get(a.cards[c].values, f) else Result(a, e, f))
      && Lookup(b.stamps, Key(c, CardStamp(f))) ==
           (if Takes(a, e, f) then Some(StampOf(e)) else Lookup(a.stamps, Key(c, CardStamp(f))))
  {
    hide Step, CheckPut, PutCard, WriteFor, Takes, Asks, Cards.Winning, StampCard, CardStampsOf, Cards.Overwrite;
    var e := d.event;
    StepApplies(ws, s, d);
    PutCardStores(s.data, e, e.operation.card.value, WriteFor(e));
    var win := Cards.Winning(CardViewOf(s.data, e.entity), WriteFor(e));
    AsksWritten(e, f);
    TakesIff(s.data, e, f);
    StampCardAt(s.data.stamps, e.entity, win, WriteFor(e).stamp, Key(e.entity, CardStamp(f)));
    WrittenStamp(e);
    if e.entity in s.data.cards ==> s.data.cards[e.entity].deletedAt.None? { ResultIff(s.data, e, f); }
  }

  lemma WrittenStamp(e: Event)
    requires PutOn(e, e.entity)
    ensures WriteFor(e).stamp == StampOf(e)
  {}

  lemma PutFrame(ws: Workspace, s: Store, d: Delivery, k: Key)
    requires d.event.operation.CardPut? && d.event.operation.delta.None? && NewlyApplied(s, Step(ws, s, d).0, d.event)
    ensures var e, a, b := d.event, s.data, Step(ws, s, d).0.data;
      (forall x :: x != e.entity ==> Lookup(b.cards, x) == Lookup(a.cards, x))
      && b.tombstones == a.tombstones && b.appearance == a.appearance
      && (k.entity != e.entity || !k.name.CardStamp? ==> Lookup(b.stamps, k) == Lookup(a.stamps, k))
      && (!Takes(a, e, Cards.Checklists) || e.operation.bundle.None? ==>
         b.checklists == a.checklists && b.items == a.items)
      && (forall x :: x in a.checklists ==> x in b.checklists && b.checklists[x] == a.checklists[x])
      && (forall x :: x in a.items ==> x in b.items && b.items[x] == a.items[x])
  {
    hide Step, CheckPut, WriteFor, Takes, Cards.Winning, StampCard, CardStampsOf, PutAllowed, FillBundle;
    var e := d.event;
    StepApplies(ws, s, d);
    var stored := StorePut(s.data, e.entity, e.board, WriteFor(e));
    PutCardStores(s.data, e, e.operation.card.value, WriteFor(e));
    TakesIff(s.data, e, Cards.Checklists);
    StampCardAt(s.data.stamps, e.entity, Cards.Winning(CardViewOf(s.data, e.entity), WriteFor(e)), WriteFor(e).stamp,
      k);
    if Step(ws, s, d).0.data != stored { BundleKeeps(stored, e.entity, e.operation.bundle.value); }
  }

  /** Where an applied put takes the checklists and brings a bundle, the bundle's missing rows are there. */
  lemma PutFills(ws: Workspace, s: Store, d: Delivery)
    requires d.event.operation.CardPut? && d.event.operation.delta.None? && NewlyApplied(s, Step(ws, s, d).0, d.event)
    requires Takes(s.data, d.event, Cards.Checklists) && d.event.operation.bundle.Some?
    ensures d.event.operation.bundle.value.Lists?
    ensures var lists, a, b := d.event.operation.bundle.value.lists, s.data, Step(ws, s, d).0.data;
      FilledFrom(a.checklists, b.checklists, Children.Checklist, Heads(lists))
      && FilledFrom(a.items, b.items, Children.Item, ItemsIn(lists))
  {
    hide Step, CheckPut, WriteFor, Takes, Cards.Winning, StampCard, CardStampsOf, PutAllowed, FillLists, FilledFrom;
    var e := d.event;
    StepApplies(ws, s, d);
    TakesIff(s.data, e, Cards.Checklists);
    FillListsLeaves(StorePut(s.data, e.entity, e.board, WriteFor(e)), e.entity, e.operation.bundle.value.lists);
  }

  lemma BundleKeeps(data: Data, card: Uuid, b: Bundle)
    requires FillBundle(data, card, b).Success?
    ensures var after := FillBundle(data, card, b).value;
      after == data.(items := after.items, checklists := after.checklists)
      && (forall x :: x in data.checklists ==> x in after.checklists && after.checklists[x] == data.checklists[x])
      && (forall x :: x in data.items ==> x in after.items && after.items[x] == data.items[x])
  {
    FillListsFrame(data, card, b.lists);
  }

  // Deletes and appearances.

  /** A delete that is let in is applied exactly when it is of a card that is not on another board,
      nobody holds its slot, and its time can be read. */
  lemma DeleteAppliedIff(ws: Workspace, s: Store, d: Delivery)
    requires LetIn(ws, s, d) && d.event.operation.CardDelete?
    ensures IsApplied(Step(ws, s, d).0, d.event) <==>
      d.event.entityType.CardEntity? && SlotFree(s.ledger, d) && d.event.operation.deletedAt.Some?
      && (d.event.entity in s.data.cards ==> s.data.cards[d.event.entity].board == d.event.board)
  {
    hide DelegationInScope, Usable, Root, Pinned, DeleteCard;
    FreeIff(s.ledger, d);
  }

  /** The later of two times, the first of which may be missing. */
  predicate Latest(was: Option<int>, at: int, now: int) {
    now >= at && (now == at || was == Some(now)) && (was.Some? ==> now >= was.value)
  }

  /** An applied delete sets the time of the card's row, if there is one, and of its tombstone to the
      later of the old and the new one, and the lifecycle stamp to its own unless that is of a later
      clock; the card's values and all other tables stay. */
  lemma DeleteLeaves(ws: Workspace, s: Store, d: Delivery)
    requires d.event.operation.CardDelete? && NewlyApplied(s, Step(ws, s, d).0, d.event)
    ensures d.event.operation.deletedAt.Some?
    ensures var c, at, a, b := d.event.entity, d.event.operation.deletedAt.value, s.data, Step(ws, s, d).0.data;
      var life := Lookup(a.stamps, Key(c, CardLifecycle));
      && b.cards.Keys == a.cards.Keys && (forall x :: x in a.cards && x != c ==> b.cards[x] == a.cards[x])
      && (c in a.cards ==> b.cards[c] == a.cards[c].(deletedAt := b.cards[c].deletedAt))
      && (c in a.cards ==> b.cards[c].deletedAt.Some? && Latest(a.cards[c].deletedAt, at, b.cards[c].deletedAt.value))
      && b.tombstones.Keys == a.tombstones.Keys + {c} && Latest(Lookup(a.tombstones, c), at, b.tombstones[c])
      && (forall x :: x in a.tombstones && x != c ==> b.tombstones[x] == a.tombstones[x])
      && b.stamps == a.stamps[Key(c, CardLifecycle) :=
           if life.Some? && life.value.clock > d.event.clock then life.value else StampOf(d.event)]
      && (b.checklists, b.items, b.appearance) == (a.checklists, a.items, a.appearance)
  {
    hide Step;
    StepApplies(ws, s, d);
  }

  /** An appearance that is let in is applied exactly when it is of the board itself, nobody holds
      its slot, and its payload is there; then the board looks as it says if it is newer than the
      board's stamp, and nothing else changes. */
  lemma AppearanceIff(ws: Workspace, s: Store, d: Delivery)
    requires LetIn(ws, s, d) && d.event.operation.AppearancePut?
    ensures var e, a, t := d.event, s.data, Step(ws, s, d).0;
      var k := Key(e.board, BoardAppearance);
      (IsApplied(t, e) <==>
        e.entityType.BoardEntity? && e.entity == e.board && SlotFree(s.ledger, d) && e.operation.appearance.Some?)
      && (IsApplied(t, e) ==>
        t.data == if Beats(StampOf(e), Lookup(a.stamps, k))
          then a.(appearance := a.appearance[e.board := e.operation.appearance.value],
            stamps := a.stamps[k := StampOf(e)])
          else a)
  {
    hide DelegationInScope, Usable, Root, Pinned;
    FreeIff(s.ledger, d);
  }

  // Checklists and items.

  /** The put of a checklist or item has a payload for it, with a title. */
  ghost predicate ProperChild(p: Option<ChildPayload>, id: Uuid, owner: Uuid) {
    p.Some? && p.value.id == id && p.value.owner == owner && Titled(p.value.title)
  }

  /** The delta fits the tables: a row stays under its owner, an item is put under a live checklist
      of the card and says whether it is done. */
  ghost predicate DeltaFits(data: Data, delta: Delta) {
    match delta
    case PutChecklist(card, id, _, p) =>
      ProperChild(p, id, card) && (id in data.checklists ==> data.checklists[id].owner == card)
    case PutItem(card, list, id, _, p) =>
      ProperChild(p, id, list) && p.value.done.Some? && (id in data.items ==> data.items[id].owner == list)
      && list in data.checklists && data.checklists[list].owner == card && !data.checklists[list].row.deleted
    case DeleteChecklist(_, _) => true
    case DeleteItem(_, _) => true
    case UnknownDelta(_) => false
  }

  lemma DeltaFitsIff(data: Data, e: Event, delta: Delta)
    ensures ApplyDelta(data, e, delta).Success? <==> DeltaFits(data, delta)
  {
    hide PutChild, Trim, ApplyDeleteChecklist, ApplyDeleteItem;
    match delta
    case PutChecklist(_, _, _, p) => if p.Some? { TitledIff(p.value.title); }
    case PutItem(_, _, _, _, p) => if p.Some? { TitledIff(p.value.title); }
    case _ =>
  }

  /** A delta that is let in is applied exactly when it is for its own card, which is live on the
      board and has no tombstone, nobody holds its slot, and it fits. */
  lemma DeltaAppliedIff(ws: Workspace, s: Store, d: Delivery)
    requires LetIn(ws, s, d) && d.event.operation.CardPut? && d.event.operation.delta.Some?
    ensures var e, delta := d.event, d.event.operation.delta.value;
      IsApplied(Step(ws, s, d).0, e) <==>
        e.entityType.CardEntity? && e.entity !in s.data.tombstones && SlotFree(s.ledger, d) && delta.card == e.entity
        && e.entity in s.data.cards && s.data.cards[e.entity].board == e.board && s.data.cards[e.entity].deletedAt.None?
        && DeltaFits(s.data, delta)
  {
    hide DelegationInScope, Usable, Root, Pinned, ApplyDelta, DeltaFits;
    FreeIff(s.ledger, d);
    DeltaFitsIff(s.data, d.event, d.event.operation.delta.value);
  }

  predicate NamesColumn(mask: seq<ChildMaskEntry>, f: Children.ChildField) {
    EveryColumn in mask || Column(f) in mask
  }

  /** The delta names the column and is newer than its stamp. */
  predicate WinsColumn(data: Data, kind: Children.ChildKind, id: Uuid, mask: seq<ChildMaskEntry>, s: Stamp,
                       f: Children.ChildField) {
    NamesColumn(mask, f) && Beats(s, Lookup(data.stamps, Key(id, ChildStamp(kind, f))))
  }

  /** It decides whether the row is there: it names every column, or there is no row yet, and it is
      newer than the lifecycle stamp. */
  predicate WinsLife(data: Data, kind: Children.ChildKind, id: Uuid, mask: seq<ChildMaskEntry>, s: Stamp) {
    (EveryColumn in mask || id !in Rows(data, kind)) && Beats(s, Lookup(data.stamps, Key(id, ChildLife(kind))))
  }

  /** What the payload asks of a column; a checklist is never done. */
  function AsksColumn(kind: Children.ChildKind, p: ChildPayload, f: Children.ChildField): Cards.Value
    requires p.title.Some? && (kind.Item? ==> p.done.Some?)
  {
    match f
    case ChildTitle => Cards.Text(Trim(p.title.value))
    case ChildPosition => Cards.Number(match p.position case Some(x) => x case None => 1000.0)
    case ChildDone => Cards.Flag(if kind.Item? then p.done.value else false)
  }

  function ColumnValue(v: Children.ChildValues, f: Children.ChildField): Cards.Value {
    match f
    case ChildTitle => Cards.Text(v.title)
    case ChildPosition => Cards.Number(v.position)
    case ChildDone => Cards.Flag(v.done)
  }

  /** The column of the row after the put: the payload's in a new row, and in a row that is live or
      comes back whatever the put wins. */
  predicate ColumnAfter(a: Data, b: Data, kind: Children.ChildKind, p: ChildPayload, mask: seq<ChildMaskEntry>,
                        s: Stamp, f: Children.ChildField)
    requires p.title.Some? && (kind.Item? ==> p.done.Some?) && p.id in Rows(b, kind)
  {
    var now := ColumnValue(Rows(b, kind)[p.id].row.values, f);
    if p.id !in Rows(a, kind) then now == AsksColumn(kind, p, f)
    else
      var before := Rows(a, kind)[p.id].row;
      if WinsColumn(a, kind, p.id, mask, s, f) && (!before.deleted || WinsLife(a, kind, p.id, mask, s))
      then now == AsksColumn(kind, p, f)
      else now == ColumnValue(before.values, f)
  }

  /** What a put of a checklist or item leaves: its row, its stamps, and nothing else changed. */
  ghost predicate ChildPutLeaves(a: Data, b: Data, kind: Children.ChildKind, p: ChildPayload,
                                 mask: seq<ChildMaskEntry>, s: Stamp)
    requires p.title.Some? && (kind.Item? ==> p.done.Some?)
  {
    var id, life := p.id, WinsLife(a, kind, p.id, mask, s);
    (id in Rows(b, kind) <==> id in Rows(a, kind) || life)
    && (id in Rows(b, kind) ==>
          Rows(b, kind)[id].owner == p.owner
          && (Rows(b, kind)[id].row.deleted <==> id in Rows(a, kind) && Rows(a, kind)[id].row.deleted && !life)
          && forall f :: kind.Item? || f != Children.ChildDone ==> ColumnAfter(a, b, kind, p, mask, s, f))
    && (kind.Checklist? && id in Rows(b, kind) ==>
          Rows(b, kind)[id].row.values.done == (id in Rows(a, kind) && Rows(a, kind)[id].row.values.done))
    && (forall x :: x != id ==> Lookup(Rows(b, kind), x) == Lookup(Rows(a, kind), x))
    && b == (if kind.Checklist? then a.(checklists := b.checklists, stamps := b.stamps)
             else a.(items := b.items, stamps := b.stamps))
    && forall k: Key :: Lookup(b.stamps, k) ==
         if ChildStamped(a, kind, id, mask, s, k) then Some(s) else Lookup(a.stamps, k)
  }

  /** The put stamps each column that it wins, and the lifecycle if it wins that. */
  predicate ChildStamped(a: Data, kind: Children.ChildKind, id: Uuid, mask: seq<ChildMaskEntry>, s: Stamp, k: Key) {
    k.entity == id
    && match k.name
       case ChildStamp(kind', f) => kind' == kind && (kind.Item? || f != Children.ChildDone)
         && WinsColumn(a, kind, id, mask, s, f)
       case ChildLife(kind') => kind' == kind && WinsLife(a, kind, id, mask, s)
       case _ => false
  }

  /** The values that a payload gives a new row. */
  predicate PayloadValues(kind: Children.ChildKind, p: ChildPayload, v: Children.ChildValues) {
    p.title.Some? && v.title == Trim(p.title.value) && v.position == PositionOf(p.position)
    && (if kind.Item? then p.done == Some(v.done) else !v.done)
  }

  lemma ChildWinsIff(data: Data, kind: Children.ChildKind, id: Uuid, e: Event, mask: seq<ChildMaskEntry>,
                     values: Children.ChildValues, f: Children.ChildField)
    ensures var w, v := ChildWriteOf(e, mask, values), ChildViewOf(data, kind, id);
      (f in Children.Winning(kind, v, w) <==>
        (kind.Item? || f != Children.ChildDone) && WinsColumn(data, kind, id, mask, StampOf(e), f))
      && (Children.LifeWins(v, w) <==> WinsLife(data, kind, id, mask, StampOf(e)))
      && w.stamp == StampOf(e) && w.values == values
  {}

  lemma PutChildStamps(data: Data, kind: Children.ChildKind, id: Uuid, owner: Uuid, e: Event, mask: seq<ChildMaskEntry>,
                       values: Children.ChildValues, k: Key)
    ensures Lookup(PutChild(data, kind, id, owner, ChildWriteOf(e, mask, values)).stamps, k) ==
      if ChildStamped(data, kind, id, mask, StampOf(e), k) then Some(StampOf(e)) else Lookup(data.stamps, k)
  {
    hide ChildWriteOf, Children.Winning, Children.LifeWins, ChildViewOf, Children.PutRow, WinsColumn, WinsLife;
    var w, v := ChildWriteOf(e, mask, values), ChildViewOf(data, kind, id);
    ChildWinsIff(data, kind, id, e, mask, values, Children.ChildTitle);
    if k.name.ChildStamp? { ChildWinsIff(data, kind, id, e, mask, values, k.name.part); }
    var fields := Children.Winning(kind, v, w);
    assert k in ChildKeys(kind, id, fields) <==>
      k.entity == id && k.name.ChildStamp? && k.name.kind == kind && k.name.part in fields
    by {
      if k.entity == id && k.name.ChildStamp? && k.name.kind == kind && k.name.part in fields {
        assert k == Key(id, ChildStamp(kind, k.name.part));
      }
    }
  }

  lemma PutChildRow(data: Data, kind: Children.ChildKind, id: Uuid, owner: Uuid, e: Event, mask: seq<ChildMaskEntry>,
                    values: Children.ChildValues)
    ensures var a, b := Rows(data, kind), Rows(PutChild(data, kind, id, owner, ChildWriteOf(e, mask, values)), kind);
      var life := WinsLife(data, kind, id, mask, StampOf(e));
      (id in b <==> id in a || life)
      && (id in b ==> b[id].owner == owner && (b[id].row.deleted <==> id in a && a[id].row.deleted && !life))
      && (id in b && id !in a ==> b[id].row.values == values)
      && (id in b && id in a && a[id].row.deleted && !life ==> b[id].row.values == a[id].row.values)
      && (id in b && id in a && (!a[id].row.deleted || life) ==>
            b[id].row.values == Children.Overwrite(a[id].row.values, values,
              Children.Winning(kind, ChildViewOf(data, kind, id), ChildWriteOf(e, mask, values))))
      && (forall x :: x != id ==> Lookup(b, x) == Lookup(a, x))
  {
    hide ChildWriteOf, Children.Winning, Children.LifeWins, WinsColumn, WinsLife, StampChild, ChildStampsOf,
      Children.Overwrite;
    ChildWinsIff(data, kind, id, e, mask, values, Children.ChildTitle);
  }

  lemma OverwrittenColumn(v: Children.ChildValues, w: Children.ChildValues, win: set<Children.ChildField>,
                          f: Children.ChildField)
    ensures ColumnValue(Children.Overwrite(v, w, win), f) == if f in win then ColumnValue(w, f) else ColumnValue(v, f)
  {}

  lemma PayloadColumn(kind: Children.ChildKind, p: ChildPayload, v: Children.ChildValues, f: Children.ChildField)
    requires PayloadValues(kind, p, v)
    ensures ColumnValue(v, f) == AsksColumn(kind, p, f)
  {}

  lemma PutChildMeans(data: Data, kind: Children.ChildKind, p: ChildPayload, e: Event, mask: seq<ChildMaskEntry>,
                      values: Children.ChildValues)
    requires PayloadValues(kind, p, values) && (p.id in Rows(data, kind) ==> Rows(data, kind)[p.id].owner == p.owner)
    ensures ChildPutLeaves(data, PutChild(data, kind, p.id, p.owner, ChildWriteOf(e, mask, values)), kind, p, mask,
      StampOf(e))
  {
    hide ChildWriteOf, PutChild, Children.Winning, Children.Overwrite, WinsLife, WinsColumn, ColumnValue, AsksColumn,
      ChildStamped, ChildViewOf, Trim;
    var id, b := p.id, PutChild(data, kind, p.id, p.owner, ChildWriteOf(e, mask, values));
    PutChildRow(data, kind, id, p.owner, e, mask, values);
    PutChildFrameRows(data, kind, id, p.owner, ChildWriteOf(e, mask, values));
    forall k: Key { PutChildStamps(data, kind, id, p.owner, e, mask, values, k); }
    forall f: Children.ChildField | id in Rows(b, kind) && (kind.Checklist? ==> f != Children.ChildDone)
      ensures ColumnAfter(data, b, kind, p, mask, StampOf(e), f)
    {
      ChildWinsIff(data, kind, id, e, mask, values, f);
      PayloadColumn(kind, p, values, f);
      if id in Rows(data, kind) {
        OverwrittenColumn(Rows(data, kind)[id].row.values, values,
          Children.Winning(kind, ChildViewOf(data, kind, id), ChildWriteOf(e, mask, values)), f);
      }
    }
    if kind.Checklist? && id in Rows(b, kind) { ListStaysDone(data, p, e, mask, values); }
  }

  lemma ListStaysDone(data: Data, p: ChildPayload, e: Event, mask: seq<ChildMaskEntry>, values: Children.ChildValues)
    requires PayloadValues(Children.Checklist, p, values)
    ensures var b := PutChild(data, Children.Checklist, p.id, p.owner, ChildWriteOf(e, mask, values)).checklists;
      p.id in b ==> b[p.id].row.values.done == (p.id in data.checklists && data.checklists[p.id].row.values.done)
  {
    hide StampChild, Trim;
  }

  lemma PutChildFrameRows(data: Data, kind: Children.ChildKind, id: Uuid, owner: Uuid, w: Children.ChildWrite)
    ensures var b := PutChild(data, kind, id, owner, w);
      b == (if kind.Checklist? then data.(checklists := b.checklists, stamps := b.stamps)
            else data.(items := b.items, stamps := b.stamps))
  {}

  /** An applied put of an item leaves exactly what its payload and mask ask for. */
  lemma PutItemLeaves(ws: Workspace, s: Store, d: Delivery)
    requires d.event.operation.CardPut? && d.event.operation.delta.Some? && d.event.operation.delta.value.PutItem?
    requires NewlyApplied(s, Step(ws, s, d).0, d.event)
    ensures var delta := d.event.operation.delta.value;
      delta.payload.Some? && var p := delta.payload.value;
        p.title.Some? && p.done.Some? && p.id == delta.item && p.owner == delta.checklist
        && ChildPutLeaves(s.data, Step(ws, s, d).0.data, Children.Item, p, delta.mask, StampOf(d.event))
  {
    hide Step, PutChild, Trim, ChildWriteOf, ChildPutLeaves;
    StepApplies(ws, s, d);
    var p := d.event.operation.delta.value.payload.value;
    TitledIff(p.title);
    PutChildMeans(s.data, Children.Item, p, d.event, d.event.operation.delta.value.mask,
      Children.ChildValues(CleanTitle(p.title).value, PositionOf(p.position), p.done.value));
  }

  /** The same for a checklist. */
  lemma PutChecklistLeaves(ws: Workspace, s: Store, d: Delivery)
    requires d.event.operation.CardPut? && d.event.operation.delta.Some? && d.event.operation.delta.value.PutChecklist?
    requires NewlyApplied(s, Step(ws, s, d).0, d.event)
    ensures var delta := d.event.operation.delta.value;
      delta.payload.Some? && var p := delta.payload.value;
        p.title.Some? && p.id == delta.checklist && p.owner == delta.card
        && ChildPutLeaves(s.data, Step(ws, s, d).0.data, Children.Checklist, p, delta.mask, StampOf(d.event))
  {
    hide Step, PutChild, Trim, ChildWriteOf, ChildPutLeaves;
    StepApplies(ws, s, d);
    var p := d.event.operation.delta.value.payload.value;
    TitledIff(p.title);
    PutChildMeans(s.data, Children.Checklist, p, d.event, d.event.operation.delta.value.mask,
      Children.ChildValues(CleanTitle(p.title).value, PositionOf(p.position), false));
  }

  /** A row that is hidden keeps its owner and values. */
  predicate HiddenRow(was: ChildEntry, now: ChildEntry) {
    now.owner == was.owner && now.row.values == was.row.values && now.row.deleted
  }

  /** An applied delete of a checklist does nothing unless it is newer than the lifecycle stamp. If it
      is, it takes the stamp, and hides a row under its card; and if that was live, its items as well. */
  lemma DeleteChecklistLeaves(ws: Workspace, s: Store, d: Delivery)
    requires d.event.operation.CardPut? && d.event.operation.delta.Some?
    requires d.event.operation.delta.value.DeleteChecklist?
    requires NewlyApplied(s, Step(ws, s, d).0, d.event)
    ensures var id, card, a, b :=
      d.event.operation.delta.value.checklist, d.event.entity, s.data, Step(ws, s, d).0.data;
      var k := Key(id, ChildLife(Children.Checklist));
      var here := id in a.checklists && a.checklists[id].owner == card;
      if !Beats(StampOf(d.event), Lookup(a.stamps, k)) then b == a
      else
        b == a.(checklists := b.checklists, items := b.items, stamps := a.stamps[k := StampOf(d.event)])
        && b.checklists.Keys == a.checklists.Keys && b.items.Keys == a.items.Keys
        && (forall x :: x in a.checklists ==>
              if x == id && here then HiddenRow(a.checklists[x], b.checklists[x])
              else b.checklists[x] == a.checklists[x])
        && (forall x :: x in a.items ==>
              if here && !a.checklists[id].row.deleted && a.items[x].owner == id then HiddenRow(a.items[x], b.items[x])
              else b.items[x] == a.items[x])
  {
    hide Step;
    StepApplies(ws, s, d);
  }

  /** An applied delete of an item: the same for its row, if that is under a checklist of the card. */
  lemma DeleteItemLeaves(ws: Workspace, s: Store, d: Delivery)
    requires d.event.operation.CardPut? && d.event.operation.delta.Some? && d.event.operation.delta.value.DeleteItem?
    requires NewlyApplied(s, Step(ws, s, d).0, d.event)
    ensures var id, card, a, b := d.event.operation.delta.value.item, d.event.entity, s.data, Step(ws, s, d).0.data;
      var k := Key(id, ChildLife(Children.Item));
      var here := id in a.items && a.items[id].owner in a.checklists && a.checklists[a.items[id].owner].owner == card;
      if !Beats(StampOf(d.event), Lookup(a.stamps, k)) then b == a
      else
        b == a.(items := b.items, stamps := a.stamps[k := StampOf(d.event)]) && b.items.Keys == a.items.Keys
        && (forall x :: x in a.items ==>
              if x == id && here then HiddenRow(a.items[x], b.items[x]) else b.items[x] == a.items[x])
  {
    hide Step;
    StepApplies(ws, s, d);
  }

  // Bundles.

  /** An item of a list: under it, with a title, and done or not. */
  ghost predicate ProperItem(p: ChildPayload, list: Uuid) {
    p.owner == list && Titled(p.title) && p.done.Some?
  }

  /** The list is for the card and titled, has items, all proper; no row of another owner is named. */
  ghost predicate ListFits(data: Data, card: Uuid, l: BundleList) {
    l.head.owner == card && Titled(l.head.title) && l.items.Some?
    && (l.head.id in data.checklists ==> data.checklists[l.head.id].owner == card)
    && ItemsFit(data, l.head.id, l.items.value)
  }

  ghost predicate ItemsFit(data: Data, list: Uuid, items: seq<ChildPayload>) {
    forall i :: 0 <= i < |items| ==>
      ProperItem(items[i], list) && (items[i].id in data.items ==> data.items[items[i].id].owner == list)
  }

  /** A row that a payload makes: with its title, position and state, not deleted. */
  predicate MadeFrom(row: ChildEntry, kind: Children.ChildKind, p: ChildPayload) {
    row.owner == p.owner && !row.row.deleted && PayloadValues(kind, p, row.row.values)
  }

  /** Of two tables the second has the rows of the first, and for each other row a payload. */
  ghost predicate FilledFrom(a: map<Uuid, ChildEntry>, b: map<Uuid, ChildEntry>, kind: Children.ChildKind,
                             ps: seq<ChildPayload>) {
    (forall x :: x in b <==> x in a || Listed(ps, x))
    && (forall x :: x in a ==> b[x] == a[x])
    && (forall x :: x in b && x !in a ==> exists i :: 0 <= i < |ps| && ps[i].id == x && MadeFrom(b[x], kind, ps[i]))
  }

  ghost predicate Listed(ps: seq<ChildPayload>, x: Uuid) {
    exists i :: 0 <= i < |ps| && ps[i].id == x
  }

  lemma FillItemIff(data: Data, list: Uuid, p: ChildPayload)
    ensures FillItem(data, list, p).Success? <==>
      ProperItem(p, list) && (p.id in data.items ==> data.items[p.id].owner == list)
    ensures FillItem(data, list, p).Success? ==>
      var after := FillItem(data, list, p).value;
      after == data.(items := after.items) && FilledFrom(data.items, after.items, Children.Item, [p])
  {
    hide Trim;
    TitledIff(p.title);
    if FillItem(data, list, p).Success? {
      var after := FillItem(data, list, p).value;
      assert forall x :: Listed([p], x) <==> x == p.id by { assert [p][0] == p; }
      forall x | x in after.items && x !in data.items
        ensures exists i :: 0 <= i < |[p]| && [p][i].id == x && MadeFrom(after.items[x], Children.Item, [p][i])
      {
        assert [p][0] == p;
      }
    }
  }

  lemma {:induction false} FillItemsIff(data: Data, list: Uuid, items: seq<ChildPayload>)
    ensures FillItems(data, list, items).Success? <==> ItemsFit(data, list, items)
    ensures FillItems(data, list, items).Success? ==>
      var after := FillItems(data, list, items).value;
      after == data.(items := after.items) && FilledFrom(data.items, after.items, Children.Item, items)
    decreases |items|
  {
    hide FillItem, MadeFrom, Titled;
    if items == [] {
      assert forall x :: !Listed(items, x);
    } else {
      var first, rest := items[0], items[1..];
      FillItemIff(data, list, first);
      if FillItem(data, list, first).Success? {
        var mid := FillItem(data, list, first).value;
        FillItemsIff(mid, list, rest);
        FitAfter(data, mid, list, items);
        if FillItems(mid, list, rest).Success? {
          FilledJoin(data.items, mid.items, FillItems(mid, list, rest).value.items, Children.Item, [first], rest);
          assert [first] + rest == items;
        }
      }
    }
  }

  lemma FitAfter(data: Data, mid: Data, list: Uuid, items: seq<ChildPayload>)
    requires items != [] && ProperItem(items[0], list)
    requires items[0].id in data.items ==> data.items[items[0].id].owner == list
    requires FilledFrom(data.items, mid.items, Children.Item, [items[0]])
    ensures ItemsFit(mid, list, items[1..]) <==> ItemsFit(data, list, items)
  {
    hide Titled;
    OwnersOf(data.items, mid.items, [items[0]], list);
    if ItemsFit(data, list, items) {
      forall i | 0 <= i < |items[1..]|
        ensures ProperItem(items[1..][i], list)
        ensures items[1..][i].id in mid.items ==> mid.items[items[1..][i].id].owner == list
      {
        assert items[1..][i] == items[i + 1];
      }
    }
    if ItemsFit(mid, list, items[1..]) {
      forall i | 0 <= i < |items|
        ensures ProperItem(items[i], list) && (items[i].id in data.items ==> data.items[items[i].id].owner == list)
      {
        if i > 0 { assert items[i] == items[1..][i - 1]; }
      }
    }
  }

  /** New rows of payloads for one list belong to it. */
  lemma OwnersOf(a: map<Uuid, ChildEntry>, b: map<Uuid, ChildEntry>, ps: seq<ChildPayload>, list: Uuid)
    requires FilledFrom(a, b, Children.Item, ps) && forall i :: 0 <= i < |ps| ==> ps[i].owner == list
    ensures forall x :: x in b ==> if x in a then b[x] == a[x] else b[x].owner == list
  {}

  lemma FilledJoin(a: map<Uuid, ChildEntry>, b: map<Uuid, ChildEntry>, c: map<Uuid, ChildEntry>,
                   kind: Children.ChildKind, ps: seq<ChildPayload>, qs: seq<ChildPayload>)
    requires FilledFrom(a, b, kind, ps) && FilledFrom(b, c, kind, qs)
    ensures FilledFrom(a, c, kind, ps + qs)
  {
    hide MadeFrom;
    forall x ensures Listed(ps + qs, x) <==> Listed(ps, x) || Listed(qs, x) {
      if i :| 0 <= i < |ps| && ps[i].id == x { assert (ps + qs)[i].id == x; }
      if i :| 0 <= i < |qs| && qs[i].id == x { assert (ps + qs)[|ps| + i].id == x; }
    }
    forall x | x in c && x !in a
      ensures exists i :: 0 <= i < |ps + qs| && (ps + qs)[i].id == x && MadeFrom(c[x], kind, (ps + qs)[i])
    {
      if x in b {
        var i :| 0 <= i < |ps| && ps[i].id == x && MadeFrom(b[x], kind, ps[i]);
        assert (ps + qs)[i] == ps[i];
      } else {
        var i :| 0 <= i < |qs| && qs[i].id == x && MadeFrom(c[x], kind, qs[i]);
        assert (ps + qs)[|ps| + i] == qs[i];
      }
    }
  }

  function Heads(lists: seq<BundleList>): seq<ChildPayload> {
    if lists == [] then [] else [lists[0].head] + Heads(lists[1..])
  }

  function ItemsIn(lists: seq<BundleList>): seq<ChildPayload> {
    if lists == [] then []
    else (match lists[0].items case Some(items) => items case None => []) + ItemsIn(lists[1..])
  }

  lemma FillListIff(data: Data, card: Uuid, l: BundleList)
    ensures FillList(data, card, l).Success? <==> ListFits(data, card, l)
    ensures FillList(data, card, l).Success? ==>
      var after := FillList(data, card, l).value;
      after == data.(checklists := after.checklists, items := after.items)
      && FilledFrom(data.checklists, after.checklists, Children.Checklist, [l.head])
      && FilledFrom(data.items, after.items, Children.Item, l.items.value)
  {
    hide Trim, FillItems, ItemsFit, Titled;
    var p := l.head;
    TitledIff(p.title);
    if p.owner == card && CleanTitle(p.title).Some? && l.items.Some? {
      var values := Children.ChildValues(CleanTitle(p.title).value, PositionOf(p.position), false);
      var filled :=
        if p.id in data.checklists then data
        else data.(checklists := data.checklists[p.id := ChildEntry(card, Children.ChildRow(values, false))]);
      FillItemsIff(filled, p.id, l.items.value);
      SameItemsFit(data, filled, p.id, l.items.value);
      HeadFilled(data.checklists, filled.checklists, p);
    }
  }

  lemma SameItemsFit(a: Data, b: Data, list: Uuid, items: seq<ChildPayload>)
    requires a.items == b.items
    ensures ItemsFit(a, list, items) <==> ItemsFit(b, list, items)
  {}

  lemma HeadFilled(a: map<Uuid, ChildEntry>, b: map<Uuid, ChildEntry>, p: ChildPayload)
    requires if p.id in a then b == a
      else p.id in b && b == a[p.id := b[p.id]] && MadeFrom(b[p.id], Children.Checklist, p)
    ensures FilledFrom(a, b, Children.Checklist, [p])
  {
    hide MadeFrom;
    assert [p][0] == p;
    assert forall x :: Listed([p], x) <==> x == p.id;
  }

  /** A bundle that unpacks gives a row to each checklist and item it lists that has none, as its
      payload says, and leaves all other rows, all stamps and the cards as they were. */
  lemma {:induction false} FillListsLeaves(data: Data, card: Uuid, lists: seq<BundleList>)
    requires FillLists(data, card, lists).Success?
    ensures var after := FillLists(data, card, lists).value;
      after == data.(checklists := after.checklists, items := after.items)
      && FilledFrom(data.checklists, after.checklists, Children.Checklist, Heads(lists))
      && FilledFrom(data.items, after.items, Children.Item, ItemsIn(lists))
    decreases |lists|
  {
    hide FillList, FilledFrom;
    if lists == [] {
      NothingFilled(data.checklists, Children.Checklist);
      NothingFilled(data.items, Children.Item);
    } else {
      FillListIff(data, card, lists[0]);
      var mid := FillList(data, card, lists[0]).value;
      FillListsLeaves(mid, card, lists[1..]);
      var after := FillLists(data, card, lists).value;
      FilledJoin(data.checklists, mid.checklists, after.checklists, Children.Checklist, [lists[0].head],
        Heads(lists[1..]));
      FilledJoin(data.items, mid.items, after.items, Children.Item, lists[0].items.value, ItemsIn(lists[1..]));
    }
  }

  lemma NothingFilled(rows: map<Uuid, ChildEntry>, kind: Children.ChildKind)
    ensures FilledFrom(rows, rows, kind, [])
  {}

  /** No item is listed under two checklists. */
  ghost predicate ItemsApart(lists: seq<BundleList>) {
    forall i, j :: 0 <= i < j < |lists| ==> Apart(lists[i], lists[j])
  }

  /** A bundle unpacks exactly when it is a list whose every entry fits and no item is listed twice
      under different checklists. */
  lemma BundleIff(data: Data, card: Uuid, b: Bundle)
    ensures FillBundle(data, card, b).Success? <==>
      b.Lists? && ListsFit(data, card, b.lists)
  {
    if b.Lists? { FillListsIff(data, card, b.lists); }
  }

  ghost predicate ListsFit(data: Data, card: Uuid, lists: seq<BundleList>) {
    (forall i :: 0 <= i < |lists| ==> ListFits(data, card, lists[i])) && ItemsApart(lists)
  }

  lemma {:induction false} FillListsIff(data: Data, card: Uuid, lists: seq<BundleList>)
    ensures FillLists(data, card, lists).Success? <==> ListsFit(data, card, lists)
    decreases |lists|
  {
    hide FillList, ListFits, ItemsApart, FilledFrom;
    if lists == [] {
      assert ItemsApart(lists) by { NothingListed(); }
    } else {
      FillListIff(data, card, lists[0]);
      if ListFits(data, card, lists[0]) {
        var mid := FillList(data, card, lists[0]).value;
        FillListsIff(mid, card, lists[1..]);
        ListsFitAfter(data, mid, card, lists);
      }
    }
  }

  lemma NothingListed()
    ensures ItemsApart([])
  {}

  /** After the first list the others fit exactly if they fitted before and share no item with it. */
  lemma ListsFitAfter(data: Data, mid: Data, card: Uuid, lists: seq<BundleList>)
    requires lists != [] && ListFits(data, card, lists[0])
    requires FilledFrom(data.checklists, mid.checklists, Children.Checklist, [lists[0].head])
    requires FilledFrom(data.items, mid.items, Children.Item, lists[0].items.value)
    ensures ListsFit(mid, card, lists[1..]) <==> ListsFit(data, card, lists)
  {
    hide ListFits, FilledFrom, ItemsApart;
    var rest := lists[1..];
    forall i | 0 <= i < |rest|
      ensures ListFits(mid, card, rest[i]) <==> ListFits(data, card, rest[i]) && Apart(lists[0], rest[i])
    {
      OneFitsAfter(data, mid, card, lists[0], rest[i]);
    }
    ApartFirst(lists);
    assert forall i :: 0 < i < |lists| ==> lists[i] == rest[i - 1];
  }

  ghost predicate Apart(l: BundleList, m: BundleList) {
    l.items.Some? && m.items.Some? ==>
      forall a, b :: a in l.items.value && b in m.items.value && a.id == b.id ==> l.head.id == m.head.id
  }

  lemma ApartFirst(lists: seq<BundleList>)
    requires lists != []
    ensures ItemsApart(lists) <==>
      ItemsApart(lists[1..]) && forall i :: 0 <= i < |lists[1..]| ==> Apart(lists[0], lists[1..][i])
  {
    hide Apart;
    var rest := lists[1..];
    assert forall i :: 0 < i < |lists| ==> lists[i] == rest[i - 1];
    assert forall i :: 0 <= i < |rest| ==> rest[i] == lists[i + 1];
    if ItemsApart(rest) && forall i :: 0 <= i < |rest| ==> Apart(lists[0], rest[i]) {
      forall i, j | 0 <= i < j < |lists| ensures Apart(lists[i], lists[j]) {
        assert lists[j] == rest[j - 1];
        if i > 0 { assert lists[i] == rest[i - 1]; }
      }
    }
  }

  lemma OneFitsAfter(data: Data, mid: Data, card: Uuid, l: BundleList, m: BundleList)
    requires ListFits(data, card, l)
    requires FilledFrom(data.checklists, mid.checklists, Children.Checklist, [l.head])
    requires FilledFrom(data.items, mid.items, Children.Item, l.items.value)
    ensures ListFits(mid, card, m) <==> ListFits(data, card, m) && Apart(l, m)
  {
    hide Titled, FilledFrom;
    HeadOwner(data.checklists, mid.checklists, l.head, m.head.id);
    if m.items.Some? {
      forall i | 0 <= i < |m.items.value| {
        ItemOwner(data, mid, l, m.items.value[i]);
      }
      if ItemsFit(mid, m.head.id, m.items.value) { FitsApart(data, mid, l, m); }
      if ItemsFit(data, m.head.id, m.items.value) && Apart(l, m) { ApartFits(data, mid, l, m); }
    }
  }

  lemma HeadOwner(a: map<Uuid, ChildEntry>, b: map<Uuid, ChildEntry>, p: ChildPayload, x: Uuid)
    requires FilledFrom(a, b, Children.Checklist, [p])
    ensures x in b <==> x in a || x == p.id
    ensures x in a ==> b[x] == a[x]
    ensures x in b && x !in a ==> b[x].owner == p.owner
  {
    if x == p.id { assert [p][0].id == x; }
  }

  /** Where the item stands after the first list: as before, or newly under that list. */
  lemma ItemOwner(data: Data, mid: Data, l: BundleList, p: ChildPayload)
    requires l.items.Some? && ItemsFit(data, l.head.id, l.items.value)
    requires FilledFrom(data.items, mid.items, Children.Item, l.items.value)
    ensures p.id in mid.items <==> p.id in data.items || Listed(l.items.value, p.id)
    ensures p.id in data.items ==> mid.items[p.id] == data.items[p.id]
    ensures Listed(l.items.value, p.id) ==> mid.items[p.id].owner == l.head.id
  {
    hide Titled;
    if p.id !in data.items && p.id in mid.items {
      var i :| 0 <= i < |l.items.value| && l.items.value[i].id == p.id
        && MadeFrom(mid.items[p.id], Children.Item, l.items.value[i]);
    }
  }

  lemma FitsApart(data: Data, mid: Data, l: BundleList, m: BundleList)
    requires l.items.Some? && m.items.Some? && ItemsFit(data, l.head.id, l.items.value)
    requires FilledFrom(data.items, mid.items, Children.Item, l.items.value) && ItemsFit(mid, m.head.id, m.items.value)
    ensures ItemsFit(data, m.head.id, m.items.value) && Apart(l, m)
  {
    hide Titled, FilledFrom;
    forall i | 0 <= i < |m.items.value|
      ensures m.items.value[i].id in data.items ==> data.items[m.items.value[i].id].owner == m.head.id
    {
      ItemOwner(data, mid, l, m.items.value[i]);
    }
    forall a, b | a in l.items.value && b in m.items.value && a.id == b.id ensures l.head.id == m.head.id {
      ItemOwner(data, mid, l, b);
      assert Listed(l.items.value, b.id);
    }
  }

  lemma ApartFits(data: Data, mid: Data, l: BundleList, m: BundleList)
    requires l.items.Some? && m.items.Some? && ItemsFit(data, l.head.id, l.items.value)
    requires FilledFrom(data.items, mid.items, Children.Item, l.items.value)
    requires ItemsFit(data, m.head.id, m.items.value) && Apart(l, m)
    ensures ItemsFit(mid, m.head.id, m.items.value)
  {
    hide Titled, FilledFrom;
    forall i | 0 <= i < |m.items.value|
      ensures m.items.value[i].id in mid.items ==> mid.items[m.items.value[i].id].owner == m.head.id
    {
      var b := m.items.value[i];
      ItemOwner(data, mid, l, b);
      if b.id in mid.items && b.id !in data.items {
        var j :| 0 <= j < |l.items.value| && l.items.value[j].id == b.id;
        assert l.items.value[j] in l.items.value && b in m.items.value;
      }
    }
  }
}
