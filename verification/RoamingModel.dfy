/**
 The roaming store of one node and what each remote event does to it, as functions.
 The class RoamingReplica carries out the same steps in place and is proved equal
 to these functions; the theorems are about them.
 */
module RoamingModel {
  import opened Wrappers
  import opened Stamps
  import Cards = CardMerge
  import Children = ChildMerge
  import Dates = CardDates
  import Link = DeviceLink

  // Events as they arrive, already parsed.

  datatype ParentLink = NoParent | Parent(id: Uuid) | MalformedParent

  /** A time as the payload gives it: none, one that the database reads, or one that it does not. */
  datatype TimeText = NoTime | ReadAs(at: int) | MalformedTime

  datatype CardPayload = CardPayload(
    id: Uuid, board: Uuid, column: Option<Uuid>, parent: ParentLink, title: Option<string>,
    description: Option<string>, priority: Option<string>, position: Option<real>,
    startAt: TimeText, dueAt: TimeText, isArchived: Option<bool>)

  datatype MaskEntry = Every | Named(field: Cards.CardField) | UnknownField(name: string)

  datatype ChildMaskEntry = EveryColumn | Column(part: Children.ChildField) | UnknownColumn(name: string)

  datatype ChildPayload = ChildPayload(
    id: Uuid, owner: Uuid, title: Option<string>, position: Option<real>, done: Option<bool>)

  datatype BundleList = BundleList(head: ChildPayload, items: Option<seq<ChildPayload>>)

  datatype Bundle = NotAnArray | Lists(lists: seq<BundleList>)

  datatype Delta =
    | PutChecklist(card: Uuid, checklist: Uuid, mask: seq<ChildMaskEntry>, payload: Option<ChildPayload>)
    | DeleteChecklist(card: Uuid, checklist: Uuid)
    | PutItem(card: Uuid, checklist: Uuid, item: Uuid, mask: seq<ChildMaskEntry>, payload: Option<ChildPayload>)
    | DeleteItem(card: Uuid, item: Uuid)
    | UnknownDelta(card: Uuid)

  datatype Appearance = Appearance(theme: string, wallpaper: Option<string>, options: string)

  datatype EntityType = BoardEntity | CardEntity | OtherEntity(name: string)

  datatype Operation =
    | CardPut(mask: seq<MaskEntry>, card: Option<CardPayload>, bundle: Option<Bundle>, delta: Option<Delta>)
    | CardDelete(deletedAt: Option<int>)
    | AppearancePut(appearance: Option<Appearance>)
    | OtherOperation(name: string)

  datatype Event = Event(
    id: Uuid, workspace: Uuid, board: Uuid, entity: Uuid, entityType: EntityType, replica: Uuid, seqNo: int,
    clock: int, epoch: int, operation: Operation, delegation: Option<Link.Chain>)

  /** An event as a relay hands it over, inside a signed wrapper. */
  datatype Delivery = Delivery(event: Event, nostrId: string, author: string, signedAt: nat)

  function StampOf(e: Event): Stamp {
    Stamp(e.clock, e.replica, e.id)
  }

  // What the node stores.

  datatype CardRow = CardRow(board: Uuid, values: Cards.CardValues, deletedAt: Option<int>)

  /** A checklist row belongs to a card, an item row to a checklist. */
  datatype ChildEntry = ChildEntry(owner: Uuid, row: Children.ChildRow)

  datatype FieldName =
    | CardStamp(field: Cards.CardField)
    | CardLifecycle
    | BoardAppearance
    | ChildLife(kind: Children.ChildKind)
    | ChildStamp(kind: Children.ChildKind, part: Children.ChildField)

  datatype Key = Key(entity: Uuid, name: FieldName)

  type StampTable = map<Key, Stamp>

  datatype Data = Data(
    cards: map<Uuid, CardRow>, checklists: map<Uuid, ChildEntry>, items: map<Uuid, ChildEntry>,
    appearance: map<Uuid, Appearance>, tombstones: map<Uuid, int>, stamps: StampTable)

  datatype Status = Applied | TombstoneWins | Unauthorized

  datatype LedgerRow = LedgerRow(nostrId: string, replica: Uuid, seqNo: int, status: Status)

  type Ledger = map<Uuid, LedgerRow>

  datatype Role = Owner | Member | Guest

  datatype AuthKey = AuthKey(board: Uuid, author: string)

  datatype AuthRow = AuthRow(user: Uuid, role: Role, epoch: int)

  type AuthTable = map<AuthKey, AuthRow>

  datatype Store = Store(auths: AuthTable, ledger: Ledger, data: Data)

  datatype Pin = Pin(board: Uuid, root: string, user: Uuid, epoch: int)

  /** What stays fixed while events are applied: the workspace, its members, the
      active boards with their epochs, the board columns and the pinned roots. */
  datatype Workspace = Workspace(
    id: Uuid, owner: Uuid, members: set<Uuid>, epochs: map<Uuid, int>, columns: set<(Uuid, Uuid)>,
    pinned: set<Pin>, crypto: Link.Crypto, clock: nat)

  datatype Fault =
    | WrongWorkspace | BoardNotActive | StaleEpoch | BadDelegation | UnknownRoot | NotAWriter
    | LedgerConflict | BadShape | PayloadMissing | ScopeMismatch | ColumnMissing | TitleMissing
    | BadPriority | ForeignCard | BadParent | BadTime | ConstraintViolated | CardMissing | ForeignChild
    | ParentMissing | StateMissing | UnknownKind

  datatype Outcome = Done | Refused(fault: Fault)

  // Text.

  predicate Space(c: char) {
    c == ' ' || c == '\t' || c == '\n' || c == '\r'
  }

  function Trim(s: string): string {
    if s == "" then ""
    else if Space(s[0]) then Trim(s[1..])
    else if Space(s[|s| - 1]) then Trim(s[..|s| - 1])
    else s
  }

  function CleanTitle(title: Option<string>): Option<string> {
    if title.Some? && Trim(title.value) != "" then Some(Trim(title.value)) else None
  }

  predicate KnownPriority(p: Option<string>) {
    p.Some? ==> p.value in {"low", "medium", "high", "urgent"}
  }

  const DEFAULT_POSITION := 1000.0

  function PositionOf(p: Option<real>): real {
    if p.Some? then p.value else DEFAULT_POSITION
  }

  // Cards.

  function Requested(mask: seq<MaskEntry>): set<Cards.CardField> {
    if Every in mask then Cards.CardFields() else set f | f in Cards.CardFields() && Named(f) in mask
  }

  function ParentOf(p: CardPayload): Option<Uuid> {
    if p.parent.Parent? then Some(p.parent.id) else None
  }

  function TimeOf(t: TimeText): Option<int> {
    if t.ReadAs? then Some(t.at) else None
  }

  function Written(p: CardPayload): Cards.CardValues
    requires p.column.Some? && CleanTitle(p.title).Some?
  {
    Cards.CardValues(
      p.column.value, ParentOf(p), CleanTitle(p.title).value, p.description, p.priority,
      PositionOf(p.position), TimeOf(p.startAt), TimeOf(p.dueAt), p.isArchived == Some(true))
  }

  function CardStampsOf(stamps: StampTable, card: Uuid): Cards.CardStamps {
    map f | f in Cards.CardFields() && Key(card, CardStamp(f)) in stamps :: stamps[Key(card, CardStamp(f))]
  }

  function CardViewOf(data: Data, card: Uuid): Cards.CardView {
    Cards.CardView(
      if card in data.cards then Some(Cards.Row(data.cards[card].values, data.cards[card].deletedAt.Some?)) else None,
      CardStampsOf(data.stamps, card))
  }

  function CardKeys(card: Uuid, fields: set<Cards.CardField>): set<Key> {
    set f | f in fields :: Key(card, CardStamp(f))
  }

  function StampCard(stamps: StampTable, card: Uuid, fields: set<Cards.CardField>, s: Stamp): StampTable {
    stamps + map k | k in CardKeys(card, fields) :: s
  }

  predicate ParentInstalled(cards: map<Uuid, CardRow>, board: Uuid, card: Uuid, v: Cards.CardValues) {
    v.parent.Some? ==> v.parent.value == card || (v.parent.value in cards && cards[v.parent.value].board == board)
  }

  /** The table constraints on a card row: the dates and the parent foreign key. */
  predicate RowAllowed(cards: map<Uuid, CardRow>, board: Uuid, card: Uuid, v: Cards.CardValues) {
    Dates.DatesOrdered(v) && ParentInstalled(cards, board, card, v)
  }

  /** The checks a put passes before its transaction starts. */
  function CheckPut(ws: Workspace, e: Event, card: Option<CardPayload>): Result<Cards.CardWrite, Fault>
    requires e.operation.CardPut?
  {
    if card.None? then Failure(PayloadMissing)
    else var p := card.value;
      if p.id != e.entity || p.board != e.board then Failure(ScopeMismatch)
      else if p.column.None? || (e.board, p.column.value) !in ws.columns then Failure(ColumnMissing)
      else if CleanTitle(p.title).None? then Failure(TitleMissing)
      else if !KnownPriority(p.priority) then Failure(BadPriority)
      else Success(Cards.CardWrite(StampOf(e), Requested(e.operation.mask), Written(p)))
  }

  /** The row and the stamps after the merge. */
  function StorePut(data: Data, card: Uuid, board: Uuid, w: Cards.CardWrite): Data {
    var before := CardViewOf(data, card);
    var deletedAt := if card in data.cards then data.cards[card].deletedAt else None;
    data.(
      cards := data.cards[card := CardRow(board, Cards.Put(before, w).row.value.values, deletedAt)],
      stamps := StampCard(data.stamps, card, Cards.Winning(before, w), w.stamp))
  }

  /** Whether the database takes the merged row; a soft-deleted row is not rewritten. */
  predicate PutAllowed(data: Data, card: Uuid, board: Uuid, w: Cards.CardWrite) {
    var after := Cards.Put(CardViewOf(data, card), w).row.value;
    after.deleted || Cards.Winning(CardViewOf(data, card), w) == {} || RowAllowed(data.cards, board, card, after.values)
  }

  /** Some time that the statement would store cannot be read. */
  predicate StoresMalformedTime(p: CardPayload, win: set<Cards.CardField>) {
    (Cards.StartAt in win && p.startAt.MalformedTime?) || (Cards.DueAt in win && p.dueAt.MalformedTime?)
  }

  predicate SoftDeleted(data: Data, card: Uuid) {
    card in data.cards && data.cards[card].deletedAt.Some?
  }

  /** The put itself: the times it stores must be readable, and the merged row must satisfy
      the table constraints. */
  function PutCard(data: Data, e: Event, p: CardPayload, w: Cards.CardWrite): Result<Data, Fault>
    requires e.operation.CardPut?
  {
    var c := e.entity;
    var win := Cards.Winning(CardViewOf(data, c), w);
    if c in data.cards && data.cards[c].board != e.board then Failure(ForeignCard)
    else if win != {} && p.parent.MalformedParent? then Failure(BadParent)
    else if !SoftDeleted(data, c) && StoresMalformedTime(p, win) then Failure(BadTime)
    else if !PutAllowed(data, c, e.board, w) then Failure(ConstraintViolated)
    else
      var stored := StorePut(data, c, e.board, w);
      if Cards.Checklists in win && e.operation.bundle.Some?
      then FillBundle(stored, c, e.operation.bundle.value)
      else Success(stored)
  }

  function FillItems(data: Data, checklist: Uuid, items: seq<ChildPayload>): Result<Data, Fault>
    decreases |items|
  {
    if items == [] then Success(data)
    else match FillItem(data, checklist, items[0])
      case Failure(f) => Failure(f)
      case Success(d) => FillItems(d, checklist, items[1..])
  }

  /** A bundle only fills rows that are missing; it never touches a row or a stamp that exists. */
  function FillItem(data: Data, checklist: Uuid, p: ChildPayload): Result<Data, Fault> {
    if p.owner != checklist then Failure(ScopeMismatch)
    else if CleanTitle(p.title).None? then Failure(TitleMissing)
    else if p.done.None? then Failure(StateMissing)
    else if p.id in data.items then
      if data.items[p.id].owner != checklist then Failure(ForeignChild) else Success(data)
    else
      var values := Children.ChildValues(CleanTitle(p.title).value, PositionOf(p.position), p.done.value);
      Success(data.(items := data.items[p.id := ChildEntry(checklist, Children.ChildRow(values, false))]))
  }

  function FillList(data: Data, card: Uuid, l: BundleList): Result<Data, Fault> {
    var p := l.head;
    if p.owner != card then Failure(ScopeMismatch)
    else if CleanTitle(p.title).None? then Failure(TitleMissing)
    else if p.id in data.checklists && data.checklists[p.id].owner != card then Failure(ForeignChild)
    else
      var values := Children.ChildValues(CleanTitle(p.title).value, PositionOf(p.position), false);
      var filled :=
        if p.id in data.checklists then data
        else data.(checklists := data.checklists[p.id := ChildEntry(card, Children.ChildRow(values, false))]);
      if l.items.None? then Failure(PayloadMissing) else FillItems(filled, p.id, l.items.value)
  }

  function FillLists(data: Data, card: Uuid, lists: seq<BundleList>): Result<Data, Fault>
    decreases |lists|
  {
    if lists == [] then Success(data)
    else match FillList(data, card, lists[0])
      case Failure(f) => Failure(f)
      case Success(d) => FillLists(d, card, lists[1..])
  }

  function FillBundle(data: Data, card: Uuid, b: Bundle): Result<Data, Fault> {
    if b.NotAnArray? then Failure(PayloadMissing) else FillLists(data, card, b.lists)
  }

  function Max(a: int, b: int): int {
    if a >= b then a else b
  }

  /** The lifecycle stamp keeps the larger clock; on equal clocks the later arrival replaces the rest. */
  function MergeLifecycle(current: Option<Stamp>, s: Stamp): Stamp {
    if current.None? then s
    else if s.clock >= current.value.clock then s
    else current.value
  }

  function DeleteCard(data: Data, card: Uuid, deletedAt: int, s: Stamp): Data {
    var cards :=
      if card in data.cards then
        var r := data.cards[card];
        data.cards[card :=
          r.(deletedAt := Some(if r.deletedAt.Some? then Max(r.deletedAt.value, deletedAt) else deletedAt))]
      else data.cards;
    var key := Key(card, CardLifecycle);
    data.(
      cards := cards,
      tombstones :=
        data.tombstones[card := if card in data.tombstones then Max(data.tombstones[card], deletedAt) else deletedAt],
      stamps := data.stamps[key := MergeLifecycle(Lookup(data.stamps, key), s)])
  }

  // Appearance.

  function PutAppearance(data: Data, board: Uuid, a: Appearance, s: Stamp): Data {
    var key := Key(board, BoardAppearance);
    if Beats(s, Lookup(data.stamps, key))
    then data.(appearance := data.appearance[board := a], stamps := data.stamps[key := s])
    else data
  }

  // Checklists and items.

  function Rows(data: Data, kind: Children.ChildKind): map<Uuid, ChildEntry> {
    if kind.Checklist? then data.checklists else data.items
  }

  function ChildStampsOf(stamps: StampTable, kind: Children.ChildKind, id: Uuid): map<Children.ChildField, Stamp> {
    map f | f in Children.FieldsOf(kind) && Key(id, ChildStamp(kind, f)) in stamps ::
      stamps[Key(id, ChildStamp(kind, f))]
  }

  function ChildViewOf(data: Data, kind: Children.ChildKind, id: Uuid): Children.ChildView {
    var rows := Rows(data, kind);
    Children.ChildView(
      if id in rows then Some(rows[id].row) else None,
      Lookup(data.stamps, Key(id, ChildLife(kind))),
      ChildStampsOf(data.stamps, kind, id))
  }

  function ChildKeys(kind: Children.ChildKind, id: Uuid, fields: set<Children.ChildField>): set<Key> {
    set f | f in fields :: Key(id, ChildStamp(kind, f))
  }

  function StampChild(stamps: StampTable, kind: Children.ChildKind, id: Uuid, fields: set<Children.ChildField>,
                      life: bool, s: Stamp): StampTable {
    var columns := stamps + map k | k in ChildKeys(kind, id, fields) :: s;
    if life then columns[Key(id, ChildLife(kind)) := s] else columns
  }

  function SetRow(data: Data, kind: Children.ChildKind, id: Uuid, owner: Uuid, row: Option<Children.ChildRow>): Data {
    if row.None? then data
    else if kind.Checklist? then data.(checklists := data.checklists[id := ChildEntry(owner, row.value)])
    else data.(items := data.items[id := ChildEntry(owner, row.value)])
  }

  function PutChild(data: Data, kind: Children.ChildKind, id: Uuid, owner: Uuid, w: Children.ChildWrite): Data {
    var v := ChildViewOf(data, kind, id);
    var win, life := Children.Winning(kind, v, w), Children.LifeWins(v, w);
    SetRow(data, kind, id, owner, Children.PutRow(v, w, win, life))
      .(stamps := StampChild(data.stamps, kind, id, win, life, w.stamp))
  }

  function ChildWriteOf(e: Event, mask: seq<ChildMaskEntry>, values: Children.ChildValues): Children.ChildWrite {
    Children.ChildWrite(StampOf(e), EveryColumn in mask,
      (set f | f in Children.FieldsOf(Children.Item) && Column(f) in mask), values)
  }

  function ApplyPutChecklist(data: Data, e: Event, d: Delta): Result<Data, Fault>
    requires d.PutChecklist?
  {
    if d.payload.None? then Failure(PayloadMissing)
    else var p := d.payload.value;
      if p.id != d.checklist || p.owner != d.card then Failure(ScopeMismatch)
      else if CleanTitle(p.title).None? then Failure(TitleMissing)
      else if d.checklist in data.checklists && data.checklists[d.checklist].owner != d.card then Failure(ForeignChild)
      else
        var values := Children.ChildValues(CleanTitle(p.title).value, PositionOf(p.position), false);
        Success(PutChild(data, Children.Checklist, d.checklist, d.card, ChildWriteOf(e, d.mask, values)))
  }

  function ApplyPutItem(data: Data, e: Event, d: Delta): Result<Data, Fault>
    requires d.PutItem?
  {
    if d.payload.None? then Failure(PayloadMissing)
    else var p := d.payload.value;
      if p.id != d.item || p.owner != d.checklist then Failure(ScopeMismatch)
      else if !(d.checklist in data.checklists && data.checklists[d.checklist].owner == d.card
                && !data.checklists[d.checklist].row.deleted) then Failure(ParentMissing)
      else if CleanTitle(p.title).None? then Failure(TitleMissing)
      else if p.done.None? then Failure(StateMissing)
      else if d.item in data.items && data.items[d.item].owner != d.checklist then Failure(ForeignChild)
      else
        var values := Children.ChildValues(CleanTitle(p.title).value, PositionOf(p.position), p.done.value);
        Success(PutChild(data, Children.Item, d.item, d.checklist, ChildWriteOf(e, d.mask, values)))
  }

  /** Deleting a checklist hides the items under it, without stamping them. */
  function Cascade(items: map<Uuid, ChildEntry>, checklist: Uuid): map<Uuid, ChildEntry> {
    map i | i in items ::
      if items[i].owner == checklist then items[i].(row := items[i].row.(deleted := true)) else items[i]
  }

  function HideChild(data: Data, kind: Children.ChildKind, id: Uuid, s: Stamp, inScope: bool): Data
    requires inScope ==> id in Rows(data, kind)
  {
    var rows := Rows(data, kind);
    var hidden :=
      if inScope then SetRow(data, kind, id, rows[id].owner, Some(rows[id].row.(deleted := true))) else data;
    hidden.(stamps := data.stamps[Key(id, ChildLife(kind)) := s])
  }

  function ApplyDeleteChecklist(data: Data, card: Uuid, id: Uuid, s: Stamp): Data {
    var inScope := id in data.checklists && data.checklists[id].owner == card;
    if !Beats(s, Lookup(data.stamps, Key(id, ChildLife(Children.Checklist)))) then data
    else
      var hidden := HideChild(data, Children.Checklist, id, s, inScope);
      if inScope && !data.checklists[id].row.deleted
      then hidden.(items := Cascade(data.items, id))
      else hidden
  }

  predicate ItemUnder(data: Data, card: Uuid, item: Uuid) {
    item in data.items && data.items[item].owner in data.checklists
    && data.checklists[data.items[item].owner].owner == card
  }

  function ApplyDeleteItem(data: Data, card: Uuid, id: Uuid, s: Stamp): Data {
    if !Beats(s, Lookup(data.stamps, Key(id, ChildLife(Children.Item)))) then data
    else HideChild(data, Children.Item, id, s, ItemUnder(data, card, id))
  }

  /** The two checks of a delta made before its transaction starts. */
  function CheckDelta(data: Data, e: Event, d: Delta): Outcome {
    if d.card != e.entity then Refused(ScopeMismatch)
    else if !(e.entity in data.cards && data.cards[e.entity].board == e.board && data.cards[e.entity].deletedAt.None?)
    then Refused(CardMissing)
    else Done
  }

  function ApplyDelta(data: Data, e: Event, d: Delta): Result<Data, Fault> {
    match d
    case PutChecklist(_, _, _, _) => ApplyPutChecklist(data, e, d)
    case DeleteChecklist(card, id) => Success(ApplyDeleteChecklist(data, card, id, StampOf(e)))
    case PutItem(_, _, _, _, _) => ApplyPutItem(data, e, d)
    case DeleteItem(card, id) => Success(ApplyDeleteItem(data, card, id, StampOf(e)))
    case UnknownDelta(_) => Failure(UnknownKind)
  }

  // Authorization.

  predicate WritesFor(ws: Workspace, row: AuthRow) {
    row.role != Guest && (ws.owner == row.user || row.user in ws.members)
  }

  /** The key may publish on the board without further proof. */
  predicate Usable(ws: Workspace, auths: AuthTable, key: AuthKey) {
    key in auths && key.board in ws.epochs && auths[key].epoch == ws.epochs[key.board] && WritesFor(ws, auths[key])
  }

  /** The key may be the root of an owner's delegation chain. */
  predicate Root(ws: Workspace, auths: AuthTable, key: AuthKey) {
    key in auths && key.board in ws.epochs && auths[key].epoch == ws.epochs[key.board]
    && auths[key].role == Owner && auths[key].user == ws.owner
  }

  predicate Pinned(ws: Workspace, key: AuthKey) {
    key.board in ws.epochs && Pin(key.board, key.author, ws.owner, ws.epochs[key.board]) in ws.pinned
  }

  /** The grant at the end of the chain is for the owner, on this board, in this epoch. */
  predicate DelegationInScope(ws: Workspace, d: Delivery)
    requires d.event.delegation.Some? && d.event.board in ws.epochs
  {
    var chain := d.event.delegation.value;
    Link.AcceptsReplication(ws.crypto, chain, d.author, d.signedAt, ws.clock)
    && Link.Last(chain).grant.value.board == d.event.board
    && Link.Last(chain).grant.value.workspace == ws.id
    && Link.Last(chain).grant.value.epoch == ws.epochs[d.event.board]
  }

  function RootOf(d: Delivery): AuthKey
    requires d.event.delegation.Some? && d.event.delegation.value != []
  {
    AuthKey(d.event.board, d.event.delegation.value[0].signer)
  }

  function AuthorOf(d: Delivery): AuthKey {
    AuthKey(d.event.board, d.author)
  }

  /** Who acts, and the table after the delegated author, if new, has been remembered. */
  function Actor(ws: Workspace, auths: AuthTable, d: Delivery): Result<(Uuid, AuthTable), Fault> {
    if d.event.board !in ws.epochs then Failure(BoardNotActive)
    else if d.event.epoch != ws.epochs[d.event.board] then Failure(StaleEpoch)
    else if Usable(ws, auths, AuthorOf(d)) then Success((auths[AuthorOf(d)].user, auths))
    else if d.event.delegation.Some? then
      if !DelegationInScope(ws, d) then Failure(BadDelegation)
      else
        var user := Link.Last(d.event.delegation.value).grant.value.user;
        if user != ws.owner || !(Root(ws, auths, RootOf(d)) || Pinned(ws, RootOf(d))) then Failure(UnknownRoot)
        else Success((user, auths[AuthorOf(d) := AuthRow(user, Owner, d.event.epoch)]))
    else if d.event.epoch == 1 then Success((ws.owner, auths))
    else Failure(NotAWriter)
  }

  // The ledger, and one event from end to end.

  predicate LedgerFree(ledger: Ledger, d: Delivery) {
    d.event.id !in ledger
    && forall k :: k in ledger ==>
      ledger[k].nostrId != d.nostrId && (ledger[k].replica, ledger[k].seqNo) != (d.event.replica, d.event.seqNo)
  }

  function Entry(d: Delivery, status: Status): LedgerRow {
    LedgerRow(d.nostrId, d.event.replica, d.event.seqNo, status)
  }

  /** An authorization rejection is looked at again; every other entry is final. */
  predicate Processed(ledger: Ledger, id: Uuid) {
    id in ledger && ledger[id].status != Unauthorized
  }

  /** A transaction that records the event as applied, or leaves nothing behind. */
  function Commit(s: Store, d: Delivery, r: Result<Data, Fault>): (Store, Outcome) {
    if !LedgerFree(s.ledger, d) then (s, Refused(LedgerConflict))
    else match r
      case Failure(f) => (s, Refused(f))
      case Success(data) => (s.(ledger := s.ledger[d.event.id := Entry(d, Applied)], data := data), Done)
  }

  function RejectUnauthorized(s: Store, d: Delivery): (Store, Outcome) {
    if d.event.id in s.ledger then (s, Done)
    else if !LedgerFree(s.ledger, d) then (s, Refused(LedgerConflict))
    else (s.(ledger := s.ledger[d.event.id := Entry(d, Unauthorized)]), Done)
  }

  function ApplyAppearance(s: Store, d: Delivery): (Store, Outcome)
    requires d.event.operation.AppearancePut?
  {
    var a := d.event.operation.appearance;
    if a.None? then (s, Refused(PayloadMissing))
    else Commit(s, d, Success(PutAppearance(s.data, d.event.board, a.value, StampOf(d.event))))
  }

  function ApplyDelete(s: Store, d: Delivery): (Store, Outcome)
    requires d.event.operation.CardDelete?
  {
    var e := d.event;
    if e.entity in s.data.cards && s.data.cards[e.entity].board != e.board then (s, Refused(ForeignCard))
    else if e.operation.deletedAt.None? then Commit(s, d, Failure(BadTime))
    else Commit(s, d, Success(DeleteCard(s.data, e.entity, e.operation.deletedAt.value, StampOf(e))))
  }

  function ApplyPut(ws: Workspace, s: Store, d: Delivery): (Store, Outcome)
    requires d.event.operation.CardPut?
  {
    var e := d.event;
    if e.entity in s.data.tombstones then
      if !LedgerFree(s.ledger, d) then (s, Refused(LedgerConflict))
      else (s.(ledger := s.ledger[e.id := Entry(d, TombstoneWins)]), Done)
    else if e.operation.delta.Some? then
      var checked := CheckDelta(s.data, e, e.operation.delta.value);
      if checked.Refused? then (s, checked)
      else Commit(s, d, ApplyDelta(s.data, e, e.operation.delta.value))
    else
      match CheckPut(ws, e, e.operation.card)
      case Failure(f) => (s, Refused(f))
      case Success(w) => Commit(s, d, PutCard(s.data, e, e.operation.card.value, w))
  }

  function Dispatch(ws: Workspace, s: Store, d: Delivery): (Store, Outcome) {
    var e := d.event;
    match e.operation
    case AppearancePut(_) =>
      if e.entityType != BoardEntity || e.entity != e.board then (s, Refused(BadShape)) else ApplyAppearance(s, d)
    case CardDelete(_) => if e.entityType != CardEntity then (s, Refused(BadShape)) else ApplyDelete(s, d)
    case CardPut(_, _, _, _) => if e.entityType != CardEntity then (s, Refused(BadShape)) else ApplyPut(ws, s, d)
    case OtherOperation(_) => (s, Refused(BadShape))
  }

  function Step(ws: Workspace, s: Store, d: Delivery): (Store, Outcome) {
    if d.event.workspace != ws.id then (s, Refused(WrongWorkspace))
    else if Processed(s.ledger, d.event.id) then (s, Done)
    else if d.event.board !in ws.epochs then (s, Refused(BoardNotActive))
    else match Actor(ws, s.auths, d)
      case Failure(_) => RejectUnauthorized(s, d)
      case Success((_, auths)) =>
        Dispatch(ws, s.(auths := auths, ledger := s.ledger - {d.event.id}), d)
  }

  function Run(ws: Workspace, s: Store, ds: seq<Delivery>): Store {
    if ds == [] then s else Step(ws, Run(ws, s, ds[..|ds| - 1]), ds[|ds| - 1]).0
  }
}
