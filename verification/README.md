# Verification of the p2p kanban board

This project models the parts of the repository whose correctness does not show in any single
function body: the roaming engine by which nodes that pull the same events come to the same board,
the delegation chains that authorize those events, the edge coordinator's log, the launcher's update
and rollback history, the lease outbox, the rate limiter, the WebSocket client, the restriction of
linked-device payloads, and the line-end portability of the migration history.

`dafny verify dfyconfig.toml` checks everything. Code that the source writes as loops and updates is
a class or a method here, proved equal to a function; the theorems are lemmas about that function.

## The roaming engine

| file | what it holds |
|---|---|
| `Stamps.dfy` | the version stamp and its order |
| `CardMerge.dfy` | the field-by-field merge of one card |
| `ChildMerge.dfy` | the lifecycle and column merge of one checklist or item |
| `CardDates.dfy` | why some outstanding put is always acceptable while the final dates are in order |
| `DeviceLink.dfy` | delegation chains |
| `RoamingModel.dfy` | the whole store and every step an event can cause |
| `RoamingConvergence.dfy` | one card is a function of the set of events applied to it |
| `RoamingAppearance.dfy` | the appearance of a board as a latest-stamp register |
| `RoamingChecklists.dfy` | the same for one checklist or item inside the store |
| `RoamingMonotone.dfy` | stamps and tombstones never go back, deleted cards are frozen |
| `RoamingAuthorization.dfy` | learned keys: growth, least fixpoint, independence of order |
| `RoamingDelivery.dfy` | repeated passes deliver everything if the dates and the parents allow it |
| `RoamingStuck.dfy` | what keeps an event out for ever, and where two nodes then differ |
| `RoamingOutcome.dfy` | exactly when every order of passes delivers everything, and that then all nodes agree |
| `RoamingEffects.dfy` | which events are let in, by whom, and field by field what they leave |
| `RoamingReplica.dfy` | the store as a class whose methods update it in place, equal to the model |
| `RecoveryOrder.dfy` | the canonical order in which recovered events are applied |

`Replica.Recover` ties the class to `Run`, so every theorem over `Run` speaks about it.

Four assumptions recur and are spelled out as predicates: equal event ids mean equal events
(`Coherent`, `OneAuthor`), the workspace with its members, board epochs and columns does not change
during a run (`Workspace`), nothing of the pool was processed before the start (`Ready`, `ChildReady`),
and clock and signature checks are functions of their inputs (`DeviceLink.Crypto`).

## The other machines

`Coordinator.dfy` with `CoordinatorHistory.dfy`, `ReleaseHistory.dfy`, `Outbox.dfy`, `RateLimiter.dfy`, `WebSocket.dfy`,
`PayloadSelection.dfy` and `Migrations.dfy` each stand alone. The answers of Docker, of the network,
of the random generator and of the digest are parameters, and every answer is covered.

## Where the code does not do what one would expect

Each of these has a lemma that gives the exact condition.

* Two dates of a card merge separately, but the table refuses a due date before the start date
  (`backend/migrations/0003_boards_cards_and_collaboration.sql:75`), and it refuses a card whose parent has
  no row. A put can therefore be refused on one node and stored on another, and nodes can differ for ever:
  over two dates (`UnorderedDatesSplit`, `SecondDateFitsIff`), or over a card whose parent the same pool
  creates and deletes (`DeletedParentSplit`). `DeliveredIff` is the exact condition: in whatever orders the
  passes come, all accepted events get through if and only if the merged dates of each surviving card are in
  order, some put makes each card without a circle of parents, and each card ends under a parent that is
  there from the start or that the pool makes and does not delete. It supposes that the deletes of unknown
  cards come from authors who can act from the start, and that no put both decides a date of a live card and
  moves it under a card that may never come; where one does, two puts can block each other
  (`MixedMovesBlock`). Without the first supposition the condition still suffices (`PoolDelivered`).
* Recovered ids are compared as text, and the store reads an id in any case and in four forms. Two hyphenated
  ids that mix the cases of their letters can compare against the order of the stamps (`IdOrderIff`); one case
  throughout is enough for them (`OneCaseAgrees`). Ids in different forms agree exactly as `FormOrderIff` says,
  so even two lower-case ones can misorder.
* A put that creates a card stamps all fields whatever its mask. From an absent card the result is
  independent of the order if and only if the latest put names every field, or is the only one
  (`AbsentCardConvergesIff`).
* Likewise a partial delta of an unseen checklist or item makes its row and takes its lifecycle stamp.
  The result is independent of the order if and only if every partial put is older than some full put or
  delete, or is the only put (`OrderFreeIff`, `DecidesIff`; `PartialMasksAreOrderSensitive` is a small case).
* `extend` never looks at the key it delegates to. Its result verifies if and only if that text is a
  public key (`ExtendThenVerify`).
* Provisioning a board again sets its epoch outright, so epochs can go back along the log
  (`ProvisionKeepsEpochsIff`, `LowerProvisionBreaksOrder`).
* An event without an envelope passes validation and is refused by the table only (`InsertNeverClashes`).
* History entries that are already undone still count towards the ten that are kept, so ten undone
  updates hide an older one that is still in place (`UndoableIff`).
* A failed rollback restarts the tag in the state file. A forced rebuild that was refused may have moved
  that tag, and then other images come up than were running (`FailedRollbackRestoresIff`,
  `ForcedRebuildTakesTag`).
* Counting the entities after the switch may take longer than its minute. That error is not among those the
  tool recovers from: the switched images stay up, the state file still describes the others, and an update
  also removes the sources of what now runs (`UnansweredCountAbandons`, `UnansweredCountAbandonsRollback`).
  When the images from before run after a failure is stated exactly (`FailedUpdateRestoresIff`,
  `FailedRollbackRestoresIff`).
* An update whose release directory already exists removes it, be it in use or not
  (`SameDirectoryIsRemoved`).
* A bucket can be dropped by the other category while it is still within its window. Then a client gets
  more than the bound (`BoundedIff`, `EvictionUnnoticedIff`).
* A pong for a ping of more than 125 bytes is not a readable frame (`PongReadableIff`).
* An outbox row on its last claim that no marking reaches stays in `retry` for ever once a worker has polled
  after the lease, without attempts left and without being given up (`LostReceiptStrandsIff`).
* With several workers a delivered row is safe if and only if no batch still holds it (`DeliverySafeIff`;
  `TwoWorkersUndeliver` is how it comes about).

## Model

| member | source | states |
|---|---|---|
| CardMerge.LiveCardConverges | backend/src/transports/roaming.rs:2193-2324 | Two replicas that see the same set of puts of a live card hold the same row and the same stamps, whatever the order and the repetitions |
| CardMerge.AllSettledUnique | backend/src/transports/roaming.rs:2198-2222 | The independent description of the result (each field holds the latest put that names it and beats the initial stamp, or is unchanged) determines the card |
| CardMerge.PutsSettle | backend/src/transports/roaming.rs:2273-2324 | Every sequence of puts on a live card ends in the card that description gives |
| CardMerge.FullGreatestWins | backend/src/transports/roaming.rs:2237-2272 | From an absent card, a greatest put that names every field is the result of every order |
| CardMerge.AbsentCardConvergesIff | backend/src/transports/roaming.rs:2237-2272 | From an absent card all orders and repetitions agree if and only if the greatest put has a full mask or is the only one |
| ChildMerge.LifecycleConverges | backend/src/transports/roaming.rs:949-1114 | Deltas of an unseen checklist or item, in any order, whose greatest is a delete, a full put or the only put: it is live iff that is a put, with exactly its title, position and done state |
| ChildMerge.OrderFreeIff | backend/src/transports/roaming.rs:976-1075 | From an unseen row, what is shown and the lifecycle stamp are the same for every order and repetition iff the greatest delta is a delete, a full put or the only put |
| ChildMerge.DecidesIff | backend/src/transports/roaming.rs:976-1075 | Said without the greatest: every partial put is older than some full put or delete, or is the only put |
| CardDates.SomePutFits | backend/migrations/0003_boards_cards_and_collaboration.sql:75 | While puts are outstanding and the final dates are in order, some outstanding put satisfies the date constraint now |
| DeviceLink.CheckedEvent | backend/crates/nostr-transport/src/device_link.rs:38-48 | Accepts exactly an authentic event of the kind, signed at most a minute ahead of the clock |
| DeviceLink.CheckGrant | backend/crates/nostr-transport/src/device_link.rs:56-83 | One round of the loop accepts exactly a genuine, timely grant that is a root or that its parent may issue |
| DeviceLink.VerifyChain | backend/crates/nostr-transport/src/device_link.rs:49-87 | Accepts exactly the well-linked, timely chains of depth 1 to 8 for the subject, and returns the root signer and the last grant |
| DeviceLink.VerifyReplicationChain | backend/crates/nostr-transport/src/device_link.rs:89-93 | The same judged at the moment of enrolment, which must not be after the event |
| DeviceLink.Extend | backend/crates/nostr-transport/src/device_link.rs:94-102 | Succeeds exactly for the holder of an accepted, delegating, not yet full chain, and appends its signed grant |
| DeviceLink.AcceptsIff | backend/crates/nostr-transport/src/device_link.rs:49-87 | Acceptance written out: one to eight grants, each of the kind, authentic, in time, of the protocol, for a key; each handed on by a holder who may delegate, for the same user, board, workspace and epoch, not for longer; the last for the device |
| DeviceLink.AcceptsReplicationIff | backend/crates/nostr-transport/src/device_link.rs:88-93 | A chain counts for an event signed from its last grant on, and is judged at that moment |
| DeviceLink.ExtensionMeans | backend/crates/nostr-transport/src/device_link.rs:94-102 | Who can extend, and what the added grant is: the last one with the new device and parent, signed by the holder then |
| DeviceLink.AcceptedWindow | backend/crates/nostr-transport/src/device_link.rs:58-63 | A well-linked chain is accepted exactly from its latest issue to the expiry of its last grant |
| DeviceLink.NarrowsFromRoot | backend/crates/nostr-transport/src/device_link.rs:65-77 | Along an accepted chain scope and epoch are the root's and the expiry never increases |
| DeviceLink.PrefixAccepted | backend/crates/nostr-transport/src/device_link.rs:55-86 | Every non-empty prefix is accepted for its own subject at the same time |
| DeviceLink.ExtendThenVerify | backend/crates/nostr-transport/src/device_link.rs:94-102 | An extension verifies at a time iff the new subject is a key and the time lies between signing and the unchanged expiry; root and scope stay |
| DeviceLink.AtMostSevenExtensions | backend/crates/nostr-transport/src/device_link.rs:96 | Any run of extensions from a root grant has at most seven, and never displaces the root |
| DeviceLink.ReplicationUpwardClosed | backend/crates/nostr-transport/src/device_link.rs:88-93 | Once accepted for an event, a chain is accepted for every later one, beyond the expiry of its grants |
| DeviceLink.ReplicationNeedsLiveEnrolment | backend/crates/nostr-transport/src/device_link.rs:88-93 | It is accepted iff the plain check passes at some moment up to the enrolment, before the event |
| RoamingConvergence.StrongConvergence | backend/src/transports/roaming.rs:1984-2427 | Two nodes with any authorization tables that start with the same view of a card, live or unknown, and processed the same events, in any orders, show the same card, and agree on its stamps if it lives; an unknown card must have been deleted, or its latest applied put must name every field or be the only one |
| RoamingConvergence.VisibleIff | backend/src/transports/roaming.rs:2091-2427 | After any run a card is shown iff no delete of it was applied and it was live at the start or a put was applied |
| RoamingConvergence.VisibleCard | backend/src/transports/roaming.rs:2193-2324 | From a live start each field and its stamp are those of the latest applied put naming it, or the initial ones |
| RoamingConvergence.FreshCard | backend/src/transports/roaming.rs:2237-2272 | A node that did not know the card shows the values of the greatest applied put, with its stamp on all fields, if that put is full or the only one |
| RoamingConvergence.StepApplies | backend/src/transports/roaming.rs:1997-2427 | A step changes the data only by applying its event, and only when that event passed its checks |
| RoamingConvergence.StepEffect | backend/src/transports/roaming.rs:1997-2427 | On any one card a step of any kind is nothing, one merged put, or one delete |
| RoamingConvergence.FillListsFrame | backend/src/transports/roaming.rs:661-768 | A bundle leaves every existing row and every stamp as it was |
| RoamingConvergence.ReplaysAreInert | backend/src/transports/roaming.rs:1997-2009 | After any run, any sequence of events that were processed changes nothing at all |
| RoamingConvergence.CreatedFromPayload | backend/src/transports/roaming.rs:2136-2272 | The put that creates a card makes it visible with every column as its payload says, on a column of its board, and stamps all ten fields |
| RoamingConvergence.TrimMeans | backend/src/transports/roaming.rs:2161-2164 | Trimming takes the white space off both ends and nothing else |
| RoamingEffects.ActorIff | backend/src/transports/roaming.rs:1810-1895 | On an active board and in its epoch acts the enrolled owner or member who owns the workspace or is an active member of it; else the owner, for a chain whose last grant is for this board, workspace, epoch and owner from an enrolled or pinned root, or without a chain at epoch one |
| RoamingEffects.GuestRefused | backend/src/transports/roaming.rs:1843-1851 | A guest without a chain is refused at every other epoch |
| RoamingEffects.StepRecords | backend/src/transports/roaming.rs:1984-2043 | What every step leaves in the ledger: final entries stay, who may not act is recorded once, and any other event ends applied, set aside for its tombstone, or without an entry |
| RoamingEffects.OverrulesIff | backend/src/transports/roaming.rs:770-793 | Which of two writes wins: the later clock, at equal clocks the greater replica, then the greater event id; the first write of a field always |
| RoamingEffects.PutAppliedIff | backend/src/transports/roaming.rs:2091-2324 | A put is applied iff its card has no tombstone, its slot is free, its payload is for the card on a column of the board with a title and a known priority, and parent, times, dates, board and bundle are such that the tables take it |
| RoamingEffects.PutLeaves | backend/src/transports/roaming.rs:2193-2324 | Field by field: a field that the mask names and whose stamp is older gets the payload's value and the stamp, any other stays; a new card gets all, a soft-deleted one keeps its values |
| RoamingEffects.PutFrame | backend/src/transports/roaming.rs:2237-2427 | Nothing else changes: other cards, tombstones, appearance, other stamps, rows of checklists and items that exist |
| RoamingEffects.PutFills | backend/src/transports/roaming.rs:2326-2330 | Where the put takes the checklists, each checklist and item its bundle lists has a row, the missing ones as the payload says |
| RoamingEffects.DeleteAppliedIff | backend/src/transports/roaming.rs:1375-1426 | A delete is applied iff its card is not on another board, its slot is free and its time can be read |
| RoamingEffects.DeleteLeaves | backend/src/transports/roaming.rs:1425-1494 | It sets the time of row and tombstone to the later one and the lifecycle stamp unless that has a later clock; values and all other tables stay |
| RoamingEffects.AppearanceIff | backend/src/transports/roaming.rs:1721-1773 | An appearance is applied iff it is of the board itself; it shows iff it is newer than the board's stamp |
| RoamingEffects.DeltaAppliedIff | backend/src/transports/roaming.rs:878-925 | A checklist delta is applied iff it is for its own card, live on the board and without a tombstone, its slot is free, and payload, owners and parent fit |
| RoamingEffects.PutItemLeaves | backend/src/transports/roaming.rs:1135-1318 | What a put of an item leaves: each column that the mask names and whose stamp is older gets the payload's value and the stamp; when the row is made, comes back or stays hidden; nothing else changes |
| RoamingEffects.PutChecklistLeaves | backend/src/transports/roaming.rs:950-1098 | The same for a checklist |
| RoamingEffects.DeleteChecklistLeaves | backend/src/transports/roaming.rs:1099-1134 | A newer delete hides a checklist of the card, and if it was live its items, keeping owners and values |
| RoamingEffects.DeleteItemLeaves | backend/src/transports/roaming.rs:1319-1358 | A newer delete hides an item under a checklist of the card |
| RoamingEffects.BundleIff | backend/src/transports/roaming.rs:661-768 | A bundle unpacks iff each list is for the card and titled, each item for its list, titled and with a state, no row has another owner, and no item is under two lists |
| RoamingEffects.FillListsLeaves | backend/src/transports/roaming.rs:661-768 | Then each listed checklist and item has a row, the missing ones with the payload's title, position and state |
| RoamingAppearance.RunLookTracks | backend/src/transports/roaming.rs:1721-1773 | After any run a board's appearance and its stamp are those of the greatest applied event that beats the initial stamp |
| RoamingAppearance.AppearanceConverges | backend/src/transports/roaming.rs:1721-1773 | Two nodes that start alike and processed the same events show the same appearance |
| RoamingChecklists.ChildVisible | backend/src/transports/roaming.rs:878-1360 | In the whole store, after any run, a checklist or item nobody had seen whose latest applied delta is a delete, a full put or the only put is shown iff that is a put, with that put's values; an item may arrive in one pool with its checklist |
| RoamingChecklists.KnownChildVisible | backend/src/transports/roaming.rs:878-1360 | A checklist or item that is there at the start: a latest delta that is a delete or full put and beats its lifecycle stamp decides whether it is shown; a put sets exactly the columns whose stamps it beats |
| RoamingChecklists.ShownChildColumns | backend/src/transports/roaming.rs:949-1114 | One that is shown and that no applied delete can hide stays shown, each column with the latest applied put that names it, partial masks included |
| RoamingChecklists.ChildConverges | backend/src/transports/roaming.rs:878-1360 | Two nodes that start with the same view of a checklist or item, processed the same events and hold no tombstone of the card show the same, if the deltas leave no choice |
| RoamingMonotone.RunAdvances | backend/src/transports/roaming.rs:770-825 | Over every run of every operation no card, appearance, checklist or item stamp and no lifecycle clock goes back, and no tombstone is lifted or moved earlier |
| RoamingMonotone.DeletedIsFrozen | backend/src/transports/roaming.rs:1425-1468 | A card hidden by a delete stays hidden, tombstoned and with its values for ever |
| RoamingMonotone.LifecycleOrderFreeIff | backend/src/transports/roaming.rs:1470-1494 | A set of deletes leaves the same lifecycle stamp in every order iff one of them alone has the greatest clock |
| RoamingAuthorization.RunKeepsKeys | backend/src/transports/roaming.rs:1834-1882 | No run takes a usable key or a root away, because an overwritten row was neither |
| RoamingAuthorization.ActorCases | backend/src/transports/roaming.rs:1810-1895 | A delivery is let through iff its epoch is current and its author is usable, or holds an owner's chain from a trusted or pinned root, or is a keyless author of epoch one; a delegated author is remembered |
| RoamingAuthorization.RoundsSuffice | backend/src/transports/roaming.rs:1862-1882 | After as many rounds as there are deliveries nothing more can be learned |
| RoamingAuthorization.ClosureClosed | backend/src/transports/roaming.rs:1862-1882 | No delivery of the pool teaches a key outside the closure |
| RoamingAuthorization.ClosureLeast | backend/src/transports/roaming.rs:1862-1882 | Every closed set of keys contains it |
| RoamingAuthorization.AuthorizationFixpoint | backend/src/transports/roaming.rs:1810-1895 | As many passes as deliveries, in any orders, end with the one table in which exactly the closure was learned |
| RoamingAuthorization.AcceptedIsAuthorized | backend/src/transports/roaming.rs:2019-2039 | A delivery let through at any moment of any run is one that the final table lets through |
| RoamingDelivery.PoolDelivered | backend/src/transports/roaming.rs:2019-2043 | If merged dates end in order and parents are sure to come, enough passes, in any orders, process every authorized event; a card may come in one pool with the cards above it |
| RoamingOutcome.DeliveredIff | backend/src/transports/roaming.rs:2019-2043 | All sequences of enough passes process every authorized event iff the merged dates of surviving cards are in order, each such card is made without waiting for itself, and it ends under a parent that is there from the start or made and not deleted by the pool |
| RoamingOutcome.EventualConvergence | backend/src/transports/roaming.rs:523-604 | Two nodes that keep pulling one such pool, each in its own orders, end with the same authorization table and the same visible cards |
| RoamingDelivery.StepRows | backend/migrations/0003_boards_cards_and_collaboration.sql:75 | Every step keeps the table constraints of all card rows, and no row leaves its board |
| RoamingStuck.SecondDateFitsIff | backend/migrations/0003_boards_cards_and_collaboration.sql:75 | Of two puts that each set one date, the second to arrive is stored iff the dates are in order |
| RoamingStuck.UnorderedDatesSplit | backend/src/transports/roaming.rs:2273-2324 | Two nodes that start alike and pull the same two puts in different orders show different cards for ever, if the start date is later than the due date |
| RoamingStuck.DeletedParentSplit | backend/src/transports/roaming.rs:2091-2122 | Of two nodes that pull a put of a card, a put of a card under it and a delete of the first, the one that gets the delete last shows the second card for ever, the one that gets it first never does |
| RoamingStuck.MixedMovesBlock | backend/src/transports/roaming.rs:2273-2324 | Two puts that each mix a date and a move are both refused in every run, though merged dates and final parent are fine |
| RoamingStuck.WaitingNeverComes | backend/src/transports/roaming.rs:2237-2272 | Cards without a row that are tombstoned, or get only puts under each other, never get a row, in any run over any pool |
| RoamingStuck.SlotStaysTaken | backend/migrations/0009_roaming_board_sync.sql:41-42 | An event whose wrapper or replica slot another processed event has is never processed |
| RoamingStuck.BoardStays | backend/src/transports/roaming.rs:2223-2230 | A card stays on its first board, and a put of it on another board is never applied |
| RoamingReplica.Replica.FieldWins | backend/src/transports/roaming.rs:770-793 | True iff there is no stamp or the event's is lexicographically later |
| RoamingReplica.Replica.StoreFieldVersions | backend/src/transports/roaming.rs:2398-2419 | The loop stores the stamp under exactly the given keys |
| RoamingReplica.Replica.WinningFields | backend/src/transports/roaming.rs:2193-2222 | The loop over the mask finds exactly the known fields named and won |
| RoamingReplica.Replica.WriteRow | backend/src/transports/roaming.rs:2237-2324 | Inserts or updates the winning columns, leaves a soft-deleted row alone, and is refused exactly when the constraints fail |
| RoamingReplica.Replica.ApplyPut | backend/src/transports/roaming.rs:2091-2427 | The whole put, with tombstone check, delta dispatch and rollback, is the model's step |
| RoamingReplica.Replica.ApplyCardDelete | backend/src/transports/roaming.rs:1375-1500 | The delete is the model's step: row, tombstone and lifecycle stamp, or nothing when its time cannot be read |
| RoamingReplica.Replica.ApplyChecklistBundle | backend/src/transports/roaming.rs:661-768 | The nested loops fill exactly the missing rows or fail as the model does |
| RoamingReplica.Replica.ApplyChecklistDelta | backend/src/transports/roaming.rs:878-1373 | Each kind of delta, with its checks and rollback, is the model's step |
| RoamingReplica.Replica.MergeChild | backend/src/transports/roaming.rs:976-1075 | Lifecycle and column contests, the row and the versions together are the model's child merge |
| RoamingReplica.Replica.ApplyAppearance | backend/src/transports/roaming.rs:1683-1808 | Appearance is last-writer-wins on one stamp |
| RoamingReplica.Replica.EventActor | backend/src/transports/roaming.rs:1810-1895 | Decides the actor and remembers a delegated author exactly as the model says, with the chain verifier inside |
| RoamingReplica.Replica.RecordRejected | backend/src/transports/roaming.rs:1897-1932 | Records an authorization rejection once |
| RoamingReplica.Replica.ApplyRemoteEvent | backend/src/transports/roaming.rs:1984-2427 | One event from end to end is one step of the model |
| RoamingReplica.Replica.Recover | backend/src/transports/roaming.rs:586-602 | One pass over recovered events is a run of the model |
| RecoveryOrder.RecoveryIsCanonical | backend/crates/nostr-transport/src/lib.rs:599-606 | The recovered list of events is the same for every order and multiplicity of what relays send, strictly increasing, nothing lost or repeated |
| RecoveryOrder.RecoveredByStamp | backend/crates/nostr-transport/src/lib.rs:599-606 | With canonical ids each recovered event has a newer stamp than the ones before it |
| RecoveryOrder.UuidTextOrder | backend/src/transports/roaming.rs:787-792 | Canonical UUID text compares like its sixteen bytes |
| RecoveryOrder.HexValue | backend/src/transports/roaming.rs:787-792 | Reading the digits of a number back gives the number |
| RecoveryOrder.IdOrderIff | backend/crates/nostr-transport/src/lib.rs:603-604 | Two hyphenated ids in either case compare like their numbers iff the first character that differs points the same way as the first digit that differs |
| RecoveryOrder.CrossedIff | backend/crates/nostr-transport/src/lib.rs:603-604 | If those are at one place, iff it is not an upper-case letter against a smaller lower-case one |
| RecoveryOrder.OneCaseAgrees | backend/crates/nostr-transport/src/lib.rs:603-604 | Hyphenated ids all in lower case, or all in upper case, compare like their numbers |
| RecoveryOrder.FormOrderIff | backend/crates/nostr-transport/src/lib.rs:603-604 | Ids in any two of the forms plain, hyphenated, URN and braced compare like their numbers iff: in one form the digits do, in forms of different classes the lower class is smaller, and with against without hyphens the first eight digits, or on a tie the hyphens, point the right way |
| RecoveryOrder.ChooseWinnerIsNewer | backend/crates/sync-core/src/merge.rs:20-31 | The merge crate decides the order by which the store lets a write win, and says equal only for equal stamps |
| RecoveryOrder.Recover | backend/crates/nostr-transport/src/lib.rs:577-608 | Pushing what opens, sorting and deduplicating is the recovered list |
| Coordinator.RunKeepsLog | edge-coordinator/src/index.ts:154-164 | In every run orders increase, no two events share an id or a replica slot, and the log only grows at its end |
| Coordinator.InsertNeverClashes | edge-coordinator/src/index.ts:312-330 | After the duplicate lookup the insert fails iff the event has no envelope |
| Coordinator.PushReplies | edge-coordinator/src/index.ts:298-349 | Duplicate iff something clashes; accepted means appended above every earlier order; otherwise nothing changes |
| Coordinator.Resubmission | edge-coordinator/src/index.ts:310-315 | At any later time the accepted event leaves the state alone and gets its order back iff its author may still publish in its epoch |
| Coordinator.EpochOrder | edge-coordinator/src/index.ts:219-246 | After one provisioning the coordinator's epoch bounds all members and events and epochs never decrease along the log |
| Coordinator.ProvisionKeepsEpochsIff | edge-coordinator/src/index.ts:200-215 | Provisioning again keeps these bounds iff the new epoch is not below any other member's or accepted event's |
| Coordinator.LowerProvisionBreaksOrder | edge-coordinator/src/index.ts:204-207 | An event accepted after a lower provisioning is out of epoch order in the log |
| Coordinator.CursorsAdvance | edge-coordinator/src/index.ts:401-411 | A stored cursor never goes back |
| CoordinatorHistory.UuidPattern | edge-coordinator/src/protocol.ts:23 | The check of ids is the protocol's pattern, place by place |
| CoordinatorHistory.KeyPattern | edge-coordinator/src/protocol.ts:24 | The check of keys is the protocol's alphabet and length |
| CoordinatorHistory.PushIff | edge-coordinator/src/index.ts:298-361 | A push is accepted iff it is a proper event by its authenticated author, an active member, not a viewer, of the board's epoch and not a later one, new in id and slot, with an envelope; then it is the next row; a known one is a duplicate; nothing else changes the tables |
| CoordinatorHistory.RefusedIff | edge-coordinator/src/index.ts:298-361 | Which reason refuses which push |
| CoordinatorHistory.LoggedByWriters | edge-coordinator/src/index.ts:298-361 | In every run each row was pushed, at some step, by a member who could then write it |
| CoordinatorHistory.MemberIsLastNamed | edge-coordinator/src/index.ts:182-247 | In every run a member is what the last request that names it says |
| CoordinatorHistory.CursorIsGreatest | edge-coordinator/src/index.ts:396-413 | From empty tables a cursor is the greatest order its replica reported |
| CoordinatorHistory.CarriedOutIff | edge-coordinator/src/index.ts:182-247 | Every other request is carried out iff it names a member or reports an order; else it is refused for its reason and nothing changes |
| CoordinatorHistory.EpochIsGreatest | edge-coordinator/src/index.ts:200-246 | The board's epoch is the greatest named since it was last provisioned |
| CoordinatorHistory.TokenIsLast | edge-coordinator/src/index.ts:200-203 | The token is that of the last provisioning |
| Coordinator.PullWindow | edge-coordinator/src/protocol.ts:71-79 | A good cursor is kept and a bad one starts over; a readable limit is brought as close as one to a thousand allow, an unreadable one is a hundred |
| Coordinator.PageIsSlice | edge-coordinator/src/index.ts:378-394 | A page is the next rows above the cursor, moves the cursor iff it is not empty, and says there is no more iff it reached the end |
| Coordinator.PagingIsExact | edge-coordinator/src/index.ts:378-394 | Whatever is appended between pulls, the pages so far are the rows from the start up to the cursor |
| Coordinator.GapFree | edge-coordinator/src/index.ts:378-394 | With any requests between any pulls, following the cursor to the end returns every event above the start exactly once, in order |
| Coordinator.BoardCoordinator.Provision | edge-coordinator/src/index.ts:182-217 | Provisioning changes the tables as the model says |
| Coordinator.BoardCoordinator.UpsertMember | edge-coordinator/src/index.ts:219-247 | Stores the member and raises the epoch to the maximum |
| Coordinator.BoardCoordinator.AssertMembership | edge-coordinator/src/index.ts:351-361 | The first reason, if any, why the author may not publish |
| Coordinator.BoardCoordinator.FindDuplicate | edge-coordinator/src/index.ts:363-376 | Finds a row iff one clashes with the event, and prefers the one with its id |
| Coordinator.BoardCoordinator.AcceptEvent | edge-coordinator/src/index.ts:298-349 | Accepting is the model's push |
| Coordinator.BoardCoordinator.PullEvents | edge-coordinator/src/index.ts:378-394 | Asking for one row more than the limit yields the model's page |
| Coordinator.BoardCoordinator.AdvanceCursor | edge-coordinator/src/index.ts:396-413 | Keeps the larger cursor |
| ReleaseHistory.RunFaithful | tools/container_bootstrap.py:2450-2503 | In every interleaving of updates and rollbacks the history mirrors a stack of installations and its entries in place form a chain that ends at the current one |
| ReleaseHistory.RollbackUndoesUpdate | tools/container_bootstrap.py:2532-2693 | A successful rollback restores version, revision, source root and images from just before the update it matches |
| ReleaseHistory.UpdateSucceedsIff | tools/container_bootstrap.py:2205-2503 | An update succeeds iff it is fetched, forced or new, and every stage went well; then the built images run, the file names the target and its tag, the tag those images, the snapshot the old ones, the new sources are in use, and the history ends with the entry that leads back |
| ReleaseHistory.RollbackMeans | tools/container_bootstrap.py:2535-2693 | A rollback undoes the last entry in place iff its sources and images are there and every stage went well; then all four fields of the file are those of before and that entry is marked |
| ReleaseHistory.ExitIff | tools/container_bootstrap.py:2359-2443 | From the switch on: completed, restored, left unrecorded or abandoned, exactly when |
| ReleaseHistory.BuildLeaves | tools/container_bootstrap.py:2228-2293 | Which tags a build moves, also one that fails half-way |
| ReleaseHistory.SourcesLeft | tools/container_bootstrap.py:2359-2529 | When the target's sources stay on disk: after every update that went well to the end, written down or not |
| ReleaseHistory.HalfTagged | tools/container_bootstrap.py:1613-1652 | Which tag a snapshot that fails half-way leaves, and that the update then stops |
| ReleaseHistory.RestartLeaves | tools/container_bootstrap.py:2604-2650 | A rollback that fails after the switch in a way it expects brings up the images of the file's tag, or without one those of `local` |
| ReleaseHistory.OtherTagsStay | tools/container_bootstrap.py:2171-2699 | No command moves any other tag |
| ReleaseHistory.RollbackSucceedsIff | tools/container_bootstrap.py:2543-2693 | A rollback succeeds iff there is something to undo and every stage went well; then the file's tag leads to what runs |
| ReleaseHistory.FailureKeepsFile | tools/container_bootstrap.py:2359-2443 | A command that does not succeed leaves the state file and the history as they were |
| ReleaseHistory.TailCandidate | tools/container_bootstrap.py:2486 | Keeping ten entries does not change which one is undone next, if it is kept at all |
| ReleaseHistory.UndoableIff | tools/container_bootstrap.py:2534-2544 | Rollback refuses for want of history iff all of the last ten updates are undone |
| ReleaseHistory.FailedUpdateRestoresIff | tools/container_bootstrap.py:2359-2442 | After any failed update the images from before run iff it failed before the switch, or in a way it expects and the restart brought them back, or the switch left the same ones |
| ReleaseHistory.UnansweredCountAbandons | tools/container_bootstrap.py:2402-2406 | A count that takes too long after the switch leaves the new images running under the old state file, and their sources are removed |
| ReleaseHistory.FailedRollbackRestoresIff | tools/container_bootstrap.py:2590-2650 | After any failed rollback they run iff it failed before the switch, or in a way it expects and restarting the file's tag brought them back, or the switch left the same ones |
| ReleaseHistory.UnansweredCountAbandonsRollback | tools/container_bootstrap.py:2629-2632 | A count that takes too long after a rollback leaves the older images running under a file that names the newer ones |
| ReleaseHistory.SameDirectoryIsRemoved | tools/container_bootstrap.py:2205-2215 | An update whose release directory exists fails and removes it, and with it the sources in use if they are there |
| ReleaseHistory.ForcedRebuildTakesTag | tools/container_bootstrap.py:2228-2293 | A forced rebuild that was refused leaves that tag on other images |
| ReleaseHistory.AssertCountsPreserved | tools/container_bootstrap.py:1655-1665 | The loop accepts iff no kind of entity is rarer than before |
| ReleaseHistory.Bootstrap.TagRunningImages | tools/container_bootstrap.py:1613-1652 | The snapshot tag names the running images, half-way failures included |
| ReleaseHistory.Bootstrap.CommandUpdate | tools/container_bootstrap.py:2171-2529 | The command, with all its failure exits, is the model's update |
| ReleaseHistory.Bootstrap.CommandRollback | tools/container_bootstrap.py:2532-2699 | The command, with all its failure exits, is the model's rollback |
| ReleaseHistory.Bootstrap.FindCandidate | tools/container_bootstrap.py:2535-2542 | The backward search finds the last entry not undone |
| WebSocket.FrameRoundTrip | tools/uiux/cdp_client.py:61-92 | Every frame, in each of the three length forms, masked or not, is read back, and nothing after it is taken |
| WebSocket.TextWire | tools/uiux/cdp_client.py:61-76 | The bytes of a sent text: 0x81, the length in the shortest field, most significant byte first, the mask, and each byte with exactly the bits in which text and mask differ |
| WebSocket.MaskedBits | tools/uiux/cdp_client.py:75 | Masking sets a bit iff exactly one of the two bytes has it, the mask's bytes in turn |
| WebSocket.BytesAt | tools/uiux/cdp_client.py:69-72 | The most significant byte comes first |
| WebSocket.PongWire | tools/uiux/cdp_client.py:103-110 | The bytes of a pong: 0x8A, the length with the top bit or-ed in, the mask and the masked payload; none above 255 bytes |
| WebSocket.MessageArrives | tools/uiux/cdp_client.py:78-101 | For any fragmentation with pings and other control frames in between, exactly the text is returned, exactly its frames are taken, and every ping is answered in order |
| WebSocket.SentTextArrives | tools/uiux/cdp_client.py:61-76 | What the client sends such a receiver returns |
| WebSocket.PongReadableIff | tools/uiux/cdp_client.py:103-110 | A pong is a frame with the ping's payload iff the payload has at most 125 bytes |
| WebSocket.PongsReadBack | tools/uiux/cdp_client.py:95-110 | The answers on the wire are one readable frame per ping, with its payload |
| WebSocket.WebSocketClient.RecvExact | tools/uiux/cdp_client.py:112-121 | However the socket splits the bytes, exactly the next ones are returned |
| WebSocket.WebSocketClient.RecvText | tools/uiux/cdp_client.py:78-101 | The receive loop computes the message, its pongs and what is left of the stream |
| WebSocket.WebSocketClient.SendText | tools/uiux/cdp_client.py:61-76 | Puts the text on the wire as one masked frame in the shortest form |
| WebSocket.WebSocketClient.SendPong | tools/uiux/cdp_client.py:103-110 | Puts the pong bytes on the wire, or fails above 255 bytes |
| RateLimiter.EvictionUnnoticedIff | backend/src/http/middleware.rs:119-121 | Dropping old buckets never changes an answer iff the window is at most twice the other category's, or nothing is admitted anyway |
| RateLimiter.BoundedIff | backend/src/http/middleware.rs:124-135 | In any half-open interval of a window's length at most twice the limit less one requests pass, over all sequences, iff the same condition holds |
| RateLimiter.BoundedBySettings | backend/src/http/middleware.rs:71-135 | The same written with the four settings: signing in is bounded by its own limit and window, the rest by the other two |
| RateLimiter.ClassifyIff | backend/src/http/middleware.rs:67-87 | Exactly which paths are counted as signing in, which as sensitive, and which not at all |
| RateLimiter.Limiter.Middleware | backend/src/http/middleware.rs:92-155 | Retain, reset and count in place are the model's step, and an unclassified path passes untouched |
| Outbox.ClaimsBounded | backend/src/transports/repo.rs:60-81 | In any run, with any workers, a row is claimed at most the maximum number of times, one attempt each |
| Outbox.PollEffect | backend/src/transports/repo.rs:50-119 | Row by row, what a poll does: takes only due rows, with a lease of sixty seconds, sends expired leases back, leaves the rest |
| Outbox.DueIsTaken | backend/src/transports/repo.rs:60-81 | A due row is taken unless the batch is full of rows at least as old |
| Outbox.LoadedIff | backend/src/transports/repo.rs:82-100 | The batch holds the taken rows whose event exists, in order |
| Outbox.ReceiptEffect | backend/src/transports/repo.rs:186-237 | Row by row, what a receipt does to the first of the batch: delivered, retried after the delay, or given up at the maximum |
| Outbox.OtherEffect | backend/src/transports/worker.rs:71-129 | A new row is due at once; a restart only empties the batch |
| Outbox.ReclaimWaits | backend/src/transports/repo.rs:102-119 | Unless marked in between, a row is claimed again only after what it waits for |
| Outbox.ReclaimAfterLease | backend/src/transports/repo.rs:60-81 | A claimed row that no marking reaches is claimed again, by any worker, only after its sixty seconds |
| Outbox.RetryAfterDelay | backend/src/transports/repo.rs:211-237 | A failed row is claimed again, by any worker, only after its delay |
| Outbox.DelayGrows | backend/src/transports/repo.rs:223-225 | The delay never shrinks with the attempts and lies within 10 to 3600 seconds iff there was an attempt |
| Outbox.DelayDoubles | backend/src/transports/repo.rs:223-225 | Five seconds, doubling with each attempt, up to an hour |
| Outbox.FinalIsAbsorbing | backend/src/transports/worker.rs:71-129 | With one worker delivered, given-up and stranded rows never change again |
| Outbox.LostReceiptStrandsIff | backend/src/transports/repo.rs:102-119 | In every run, with any workers and restarts, a row on its last claim ends stranded iff it is never marked and some worker polls after the lease, and ends delivered or given up iff it is marked |
| Outbox.DeliverySafeIff | backend/src/transports/repo.rs:186-237 | A delivered row stays delivered in every continuation, with any number of workers, iff no worker's batch still holds it |
| Outbox.Queue.ClaimBatch | backend/src/transports/repo.rs:50-100 | Releases, claims and loads the batch as the model says |
| Outbox.Queue.ReleaseExpiredLeases | backend/src/transports/repo.rs:102-119 | Returns exactly the rows with an expired lease |
| Outbox.Queue.MarkDelivered | backend/src/transports/repo.rs:186-209 | Marks the row and nothing else |
| Outbox.Queue.MarkFailed | backend/src/transports/repo.rs:211-237 | Retries with the delay or gives up at the maximum |
| Outbox.Queue.WorkerRound | backend/src/transports/worker.rs:72-128 | One round of the loop is a run of the model and leaves no batch behind |
| PayloadSelection.SelectTwice | backend/src/auth/device_supplement.rs:21-44 | Restricting twice is restricting once, to the boards in both selections and without the cards deleted in either |
| PayloadSelection.SelectCommutes | backend/src/auth/device_supplement.rs:21-44 | The order of restrictions does not matter and repeating one does nothing |
| PayloadSelection.SelectionIsClosed | backend/src/auth/device_supplement.rs:32-42 | Every kept row belongs to a selected board, or refers to a kept card, label or checklist |
| PayloadSelection.CardKeptIff | backend/src/auth/device_supplement.rs:25-31 | A card is kept iff its board is selected and it is not deleted; only a deleted parent is forgotten |
| PayloadSelection.RefersIff | backend/src/auth/device_supplement.rs:12-14 | A row refers to an entity iff the field is there and is its id as text |
| PayloadSelection.DetachedMeans | backend/src/auth/device_supplement.rs:28-30 | Only a deleted parent is set to null, and nothing else in the row |
| PayloadSelection.RowKeptIff | backend/src/auth/device_supplement.rs:22-43 | Table by table, a row is kept iff it belongs to a selected board, or refers to a card, label or checklist that is kept |
| PayloadSelection.NoDeletedParents | backend/src/auth/device_supplement.rs:26-31 | No kept card is deleted or has a deleted parent |
| PayloadSelection.Retain | backend/src/auth/device_supplement.rs:12-14 | The loop keeps exactly the referring rows, in order |
| PayloadSelection.Bundle.SelectPayload | backend/src/auth/device_supplement.rs:21-44 | The in-place version is the model's selection |
| Migrations.CollapseExpand | backend/src/db/migrations.rs:43-50 | Expanding LF to CR LF and collapsing again is the identity on every text |
| Migrations.AcceptedIff | backend/src/db/migrations.rs:39-57 | A checksum is accepted iff it is that of the LF or the CR LF text, and the choice reproduces it |
| Migrations.RecordDecides | backend/src/db/migrations.rs:39-57 | Nothing recorded means the LF text; otherwise the checksum under the migration's own version decides |
| Migrations.ChooseAlikeIff | backend/src/db/migrations.rs:39-57 | Two checkouts choose alike for every history iff their texts collapse to the same |
| Migrations.PortableIff | backend/src/db/migrations.rs:39-57 | A checkout and its CR LF copy choose alike iff the former has no CR LF |
| Migrations.DoctorAgrees | tools/container_bootstrap.py:1374-1400 | For successful rows with a known file the launcher says LF, CR LF or unknown exactly when the server chooses so or refuses |
| Migrations.DiagnoseIff | tools/container_bootstrap.py:1374-1400 | Each of the verdicts, failed and unknown rows included, exactly when |
| Migrations.MigrationChecksumReport | tools/container_bootstrap.py:1383-1400 | The loop reports each row with its verdict |
| Migrations.SelectAll | backend/src/db/migrations.rs:72-80 | All migrations are selected, or the error names the first one that mismatches |

## Left out

- RoamingOutcome.DeliveredIff: supposes that each put's own dates are readable and in order, that a surviving card unknown at the start has a latest put that is full or the only one, and that puts carry neither a bundle nor a delta; two events in one replica slot or under one wrapper, and one card on two boards, are excluded because the first to arrive keeps the other out (SlotStaysTaken, BoardStays).
- RoamingConvergence.StrongConvergence: speaks of the card's row, tombstone and stamps; checklists and items are in RoamingChecklists.
- RoamingChecklists.ChildVisible: supposes a child that no bundle in the pool names and whose deltas all address it under the same card and checklist, and for an item that no delta deletes its checklist; a child without a row whose delete was already seen is not covered.
- RoamingReplica.Replica.ApplyPut: activity entries, `updated_at`, `archived_at` and `completed_at` times are decoration and not stored; `archived_at` is a flag.
- RoamingReplica.Replica.ApplyAppearance: the validation of the appearance payload is a parsed option.
- RoamingReplica.Replica.EventActor: revoked authorization rows are not in the table, and one row per board and author is kept, as the partial unique index has it.
- RoamingReplica.Replica.ApplyRemoteEvent: `board.snapshot` and `board.activity` events are refused as another shape; the SQL functions behind them are not part of this model. Activity attached to other events asks for the actor again, which finds its author usable and changes nothing.
- RecoveryOrder.Recover: the library's stable sort is insertion; records that do not open are absent; of copies of one event in different wrappers the kept wrapper depends on the order of arrival.
- RateLimiter.Limiter.Middleware: the count does not wrap at 32 bits, and requests take the lock in the order of their clock readings.
- Coordinator.BoardCoordinator.AcceptEvent: broadcasting, sessions and the check of the board token are not modelled, nor the 2^63 limit of row numbers; paging supposes orders within the safe integers of JavaScript.
- ReleaseHistory.RunFaithful: rollback tags differ from each other and from release tags, each update gets a directory that is not there yet, and `start` and `reset` do not intervene.
- WebSocket.WebSocketClient.RecvText: texts are bytes, UTF-8 decoding and socket timeouts are outside.
- Outbox.Queue.ClaimBatch: the rows the database picks are an argument that satisfies the query; the queue has one transport.
- Migrations.MigrationChecksumReport: the split of the history text into rows is done before.
- DeviceLink.VerifyChain: the clock is one value per call.
- Parsing of JSON, UUID text and timestamps: events arrive as parsed values, malformed parts as absent ones, except that malformed parents and times of cards are kept apart because they are refused later; trimming knows ASCII white space only.
- Numbers: positions are reals, timestamps integers.
- Reasons of refused roaming events: each is a name for the source's message; nothing in the engine depends on which one it is, so the laws say when an event is refused, not under which name.
- HTTP handlers, relay networking, encryption, key derivation, the frontend and the static checks: no property across calls was found to state.
- Device catalogs, workspace epoch rotation during a run, public read-only visibility: the workspace is fixed.
