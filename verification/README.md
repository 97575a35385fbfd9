# Fridge terminal: what the firmware guarantees

A model of the beer terminal's firmware and of the guarantees it is built for. The
terminal records purchases on a touch screen, keeps them in a queue on flash, and sends
them one at a time to a spreadsheet behind an HTTPS script. Nothing here runs the
firmware: the modules restate its logic and prove properties of it.

Check everything with `dafny verify dfyconfig.toml`.

## How it is organised

| module | what it models |
|---|---|
| `Bits`, `Crc32`, `Format`, `Codec` | the four binary files on flash: checksum, fields, records, and the encoders and decoders that work in place on byte arrays |
| `Division`, `CheckValue`, `Layouts` | the checksum as a long division and its published check value, and the four files byte by byte |
| `DeviceStorage`, `TransactionQueue` | the flash volume as the sequence of states a write takes it through, and the array queue that is written to it |
| `ProductCatalog`, `PurchaseLog`, `Figures`, `CatalogLayout` | the merge of the server's product list, the consumption figures and what one more entry makes of them, the grid of tiles |
| `Clock`, `ApiClient`, `ApiWorker`, `Backend`, `Upkeep`, `Handshake` | wrapping deadlines, the one-request HTTPS client and its worker, the one-slot operation machine, what each of its operations leaves behind, and the interleaving of the two tasks |
| `Server`, `Replay`, `ShelfCap`, `Resend` | the contract of the spreadsheet, what sending a queue to it again does, what its cap on active products costs, and queues sent with any number of falls back |
| `Delivery`, `Runs`, `Drain`, `Boot`, `Interrupted` | the whole path of an entry as a step system, what holds after every run of it, what a drain does, undisturbed, from power-on, and with lost messages, late effects, flushes and power cuts |
| `Charged`, `Hazards` | when a purchase can still come to be charged, and what goes wrong when a safety condition is broken or an undo leaves a trace |
| `AppState`, `AppMachine`, `MainLoop`, `Loop` | the screen state machine as functions and as the object that updates itself in place, and its loop with backend and worker, as a step system and on the objects |
| `Screens`, `HandOver` | what leads to each screen, what it keeps in hand and how long it stays; what is handed over, field by field |
| `QueueOrder`, `Identity`, `Bridge`, `Journey` | the order of what the screens queue, the id of a purchase over runs, the screens as a source of delivery steps, and purchases, undos and product changes from the tap to the sheet |

State that the source keeps in file-scope variables and updates in place is a class whose
methods are proved against functions of the old state (`Codec`, `Flash`, `Queue`,
`Catalog`, `Log`, `Client`, `BoundedSink`, `Service`, `Machine`); runs of several parts
together are step systems over those functions.

## Main results

- **Exactly once** (`Runs.ExactlyOnce`). After every run of pushes, failed flushes, lost
  requests, lost replies, effects that come late or twice, refusals, undos and reboots, an
  entry that was safely stored is still queued, or was refused, or was taken back, or was
  acknowledged; an acknowledged purchase stands under exactly one row. The run must not
  undo the purchase in flight and must not lose power while the queue file is missing.
  `Hazards` gives the runs that show both conditions are needed;
  `Delivery.UndoKeepsHeadIff` and `RebootKeepsIff` say exactly when an undo and a reboot are
  harmless. `Bridge.ScreensDeliver` carries the theorem to the screens: everything the state
  machine and its loop do is a run of that step system (`Bridge.ActFollows`).
- **From the tap to the sheet** (`Journey.PurchaseLeavesRow`). A beer tapped, a resident
  tapped and one answered round trip leave one more row, with that beer, that price and
  that resident under the new id; `UndoReversesRow` and `ChangeReachesSheet` do the same for
  an undo and for every change of a product. `HandOver.ChoiceBuys` has every field.
- **What can still be charged** (`Charged.ChargedIff`). At any moment, over all legal
  continuations that do not make the purchase again, it can come to be charged (to stand
  in the sheet under a row that is not reversed) if and only if it is charged now, or the
  sheet does not have it and it was sent before, or is queued, or is on flash. An
  acknowledged undo is final whatever comes (`Charged.AcknowledgedUndoIsFinal`).
- **A sync never takes back a change that was pushed** (`Runs.SyncKeepsChanges`), and is
  applied exactly if none is queued and something is new (`Upkeep.SyncApplies`,
  `Backend.Service.Update`).
- **Replay** (`Replay.LedgerConvergesIff`, `ReplayConvergesIff`). Sending a prefix of a queue
  and then all of it leaves the ledger that sending it once leaves, for every prefix: on a
  given sheet if and only if every purchase with a reversal ahead of it and none behind it
  is there already, on all sheets if and only if there is no such purchase.
  `QueueOrder.QueueReplays`: the screens never build a queue that fails this. The products
  converge too while the shelf has room (`Replay.ReplayedProducts`); the bound on the room
  is exact (`ShelfCap.RoomIsExact`).
- **Interrupted drains** (`Interrupted.DrainConverges`, `CutConverges`). Requests and replies
  get lost, effects come late or twice, the main loop flushes or fails to, the power fails,
  in any order and any number of times: at every moment what memory holds and what flash
  would bring back both lead to the ledger of one undisturbed pass; and, while no effect
  comes late and the shelf has room, to its products.
- **Checksum** (`Format.BurstRejected`). A valid blob damaged within 32 consecutive bits
  (hence within four consecutive bytes), wholly inside or wholly outside the checksum
  field, is rejected. The bitwise loop is the table-driven CRC-32 of section 8 of RFC 1952
  (`Crc32.TableFeedAgrees`), and both are the remainder of a long division by its generator
  polynomial (`Division.CrcIsRemainder`), with the published check value
  (`CheckValue.CheckValue`).
- **Round trips** (`Format.RoundTrip`): what is encoded is decoded again exactly if every
  text fits its field; a rejected decode leaves the caller's memory as it was.
  `Layouts.FileLayout` and the lemmas beside it say where every byte lies.
- **Crash atomicity** (`TransactionQueue.FlushCrashAtomic`).
- **The two tasks** (`Handshake.BuffersOwned`, `NeverResetBusy`, `ReportsNoticed`,
  `StepsAreWhole`): after every interleaving each task touches only buffers it owns, and
  the interleaving refines the one-step handover that the other models use.
- **The screens** (`Screens.ScreenLaws`: every screen is come to by exactly these events,
  with exactly this in hand; `CancelsHome`; `MainLoop.NeverWaitsForNothing`, `RefusedNeverConfirmed`,
  `Identity.IdKeptOverRuns`, `AppState.RetrySame`). `AppMachine.Machine.HandleEvent`:
  whatever an event changed in the queue is on flash when the call returns, and was there
  before any request was started. `Loop.Iterate`: an iteration on the objects is a turn and
  a flush of the step system.
- **Figures, merge, grid** (`Figures.FreeDrink`, `PaidDrink`; `PurchaseLog.SummaryConserves`, `SummaryExact`,
  `NobodyDroppedIff`, `TotalsExact`; `ProductCatalog.MergeIdempotent`;
  `CatalogLayout.PlaceTiles`, `NoRowEmpty`, `RowCentred`).

## What the code does that its documentation does not say

- `device_storage.h:21-22` and `docs/milestone-6.md` say a power cut during a write leaves
  the previous version intact. Between the removal of the old file and the rename of the new
  one (`device_storage.cpp:52-77`) there is neither, and the next boot starts with an empty queue:
  `TransactionQueue.FlushCrashAtomic` gives the window exactly, `Hazards.RebootInWindow` the loss.
- `docs/milestone-9.md` says a rejection would be repeated for the same bytes. The script
  also answers `ok: false` when its lock is busy (`Api.gs:127-128`), and the device drops
  that entry too; in the model any posted entry may be refused at any time.
- `app_state.cpp:151-152` says an undone purchase that is still queued never reached the
  backend. After a lost reply it has: `Hazards.UndoAfterLostReply` ends with a live row
  and nothing queued to reverse it. What holds is `Charged.ChargedIff`: an undone purchase
  can still come to be charged exactly if it is charged now, or the sheet does not have it
  and it was sent before or a copy of it is left in memory or on flash. A second copy is
  left when the purchase was pushed again by a retry (`Hazards.UndoLeavesCopy`), a stored
  one when the flush of the undo fails (`Hazards.UndoLeavesFlash`). The ordinary undo, sent
  behind its purchase, is final (`Hazards.UndoIsFinal`).
- Sending a queue again after a reboot is meant to be harmless; `api_protocol.h:43-45` says
  so of a new product. With the shelf cap (`Admin.gs:78-93`) a change that was accepted can
  be refused the second time: `ShelfCap.CapDiverges` has five changes that leave a beer on
  the shelf and take it off when they are sent again. One that was refused can be accepted
  the second time: `ShelfCap.TwoDiverge`.
- The list on the device changes with an archive even when nothing could be queued for it
  (`app_state.cpp:446-461`): it is pushed exactly if there is a backend and room
  (`AppMachine.ArchivePushedIff`), and otherwise the next applied sync that lists the
  product takes it back (`AppMachine.SyncTakesBackIff`).
- `enqueue_undo` does not ask whether the entry is in flight (`app_state.cpp:155`):
  `MainLoop.UndoTakesInFlight` and `Hazards.UndoInFlightLoses`.
- A refused undo arms the failure of the next submission and is itself confirmed as done
  (`app_state.cpp:43-52`, `app_state.cpp:429-433`): `MainLoop.RefusedUndoConfirmed`, `NextPurchaseSpoiled`.
- Zero stands for "no deadline", so a simulated wait that starts 800 ms before the clock
  wraps never ends: `MainLoop.ArmedIff`, `StuckForGood`.
- A device that has met no failure for 25 days drains nothing by itself for the next 25,
  because the retry time is compared by signed difference; only another push sends the
  head: `Backend.DrainsIff`. For the same reason the sync that an acknowledgement asks for
  does not start in every other 25 days: `Backend.SyncAfterAckIff`.

## Assumptions

- The server is its documented contract (`Server`), with the shelf cap where the script
  enforces it. Its other validation of an entry is a fixed function of the entry where a
  queue is sent again, and arbitrary at every request in `Delivery`.
- `remove` and `rename` each happen whole or not at all, and a status byte is read and
  written at once.
- One backend turn and one screen turn per loop iteration, in that order, as in
  `beer_terminal.ino`.
- The clock, the radio, the length of a built request, what a response parses to and the
  minted ids are inputs of each step. A minted id is not that of a queued reversal.

## Model

| member | source | states |
|---|---|---|
| `Crc32.CrcFeed` | firmware/beer_terminal/catalog_codec.cpp:74-80 | The byte loop with its eight bit steps computes the fold of the bit step over the data; which polynomial that is, is what the rows of `Division` and `CheckValue` say |
| `Crc32.BitStepLinear` | firmware/beer_terminal/catalog_codec.cpp:76-78 | The bit step is linear over GF(2) |
| `Crc32.BitStepInjective` | firmware/beer_terminal/catalog_codec.cpp:76-78 | The bit step loses nothing: two registers that step to the same one are equal |
| `Crc32.StepsLinear` | firmware/beer_terminal/catalog_codec.cpp:76-78 | So is any number of bit steps |
| `Crc32.RunIsFold` | firmware/beer_terminal/catalog_codec.cpp:73-81 | Feeding up to 32 bits is stepping the register xored with them |
| `Crc32.FeedIsRun` | firmware/beer_terminal/catalog_codec.cpp:74-80 | Feeding bytes is feeding their bits, lowest first |
| `Crc32.FeedAppend` | firmware/beer_terminal/catalog_codec.cpp:73-86 | Feeding two spans in turn is feeding their concatenation |
| `Crc32.WindowRecovered` | firmware/beer_terminal/catalog_codec.cpp:73-81 | The checksum and everything around a window of at most 32 bits determine the window |
| `Crc32.CrcDetectsBurst` | firmware/beer_terminal/catalog_codec.cpp:73-81 | Two equally long messages that differ, and only within 32 consecutive bits, have different checksums |
| `Crc32.CrcInjective` | firmware/beer_terminal/catalog_codec.cpp:81 | The final inversion and the conversion to an integer lose nothing |
| `Crc32.TableFeedAgrees` | firmware/beer_terminal/catalog_codec.cpp:73-81 | For the polynomial of `Division.PolyValue`, the bitwise loop equals the table-driven update of section 8 of RFC 1952 on all data |
| `Division.PolyValue` | firmware/beer_terminal/catalog_codec.cpp:77 | The feedback constant is 0xEDB88320 |
| `Division.PolyIs` | firmware/beer_terminal/catalog_codec.cpp:77 | Its bits are the terms of the CRC-32 generator below the highest, reflected: 26, 23, 22, 16, 12, 11, 10, 8, 7, 5, 4, 2, 1 and 0 |
| `Division.RegisterIsRemainder` | firmware/beer_terminal/catalog_codec.cpp:73-81 | The register after a bit string is the remainder of its long division by the generator, with 32 zeros behind it and the first register on top |
| `Division.CodeDivides` | firmware/beer_terminal/catalog_codec.cpp:73-81 | A bit string with its remainder behind it is divisible |
| `Division.CrcIsRemainder` | firmware/beer_terminal/catalog_codec.cpp:73-81 | The checksum is that remainder, begun with all ones and inverted |
| `CheckValue.CheckValue` | firmware/beer_terminal/catalog_codec.cpp:70-81 | The checksum of the digits "123456789" is 0xCBF43926 |
| `Codec.ComputeCrc` | firmware/beer_terminal/catalog_codec.cpp:118-122 | crc32() is the checksum of the whole span |
| `Format.U32RoundTrip` | firmware/beer_terminal/catalog_codec.cpp:44-54 | A little-endian 32-bit field reads back as written |
| `Format.TextRoundTrip` | firmware/beer_terminal/catalog_codec.cpp:58-69 | A text field reads back as the longest part that fits beside its terminator |
| `Format.EntryRoundTrip` | firmware/beer_terminal/catalog_codec.cpp:195-214 | A queue record reads back with every text clipped to its field, the price signed, the flag and the kind kept |
| `Format.ProductRoundTrip` | firmware/beer_terminal/catalog_codec.cpp:277-292 | The same for a catalog record and its two flags |
| `Format.ResidentRoundTrip` | firmware/beer_terminal/catalog_codec.cpp:331-340 | The same for a resident record |
| `Format.TallyRoundTrip` | firmware/beer_terminal/catalog_codec.cpp:147-159 | The same for a summary record |
| `Format.QueueSound` | firmware/beer_terminal/catalog_codec.cpp:184-263 | The queue layout has a record size, an encoder, a decoder and a clip that belong together; clipping changes nothing exactly if every text fits |
| `Format.CatalogSound` | firmware/beer_terminal/catalog_codec.cpp:265-317 | The same for the catalog layout |
| `Format.ResidentsSound` | firmware/beer_terminal/catalog_codec.cpp:319-358 | The same for the residents layout |
| `Format.SummarySound` | firmware/beer_terminal/catalog_codec.cpp:135-182 | The same for the summary layout |
| `Format.RoundTrip` | firmware/beer_terminal/catalog_codec.cpp:135-358 | For every layout and every list within capacity, decoding an encoded blob yields the clipped records with revision and seed, and the very list exactly if every record fits |
| `Format.KindsDistinct` | firmware/beer_terminal/catalog_codec.cpp:89-114 | A blob of one kind is never read as another kind |
| `Format.SealChecks` | firmware/beer_terminal/catalog_codec.cpp:83-114 | A finished blob passes check() for its own magic, record size and a sufficient capacity |
| `Format.BurstRejected` | firmware/beer_terminal/catalog_codec.cpp:89-114 | A blob that check() accepts is rejected after any change within 32 consecutive bits that lies inside or outside the checksum field |
| `Format.FourBytesRejected` | firmware/beer_terminal/catalog_codec.cpp:89-114 | In particular after any change within four consecutive bytes |
| `Format.ClearedBits` | firmware/beer_terminal/catalog_codec.cpp:100-108 | check() recomputes the checksum of the blob with its field zeroed, as finalise stored it |
| `Layouts.EntryLayout` | firmware/beer_terminal/catalog_codec.cpp:197-211 | A queue record is 120 bytes: texts at 0, 24, 38, 78 and 90 in fields of 24, 14, 40, 12 and 24, the price at 114, the free flag at 118, the kind at 119 |
| `Layouts.ProductLayout` | firmware/beer_terminal/catalog_codec.cpp:277-292 | A catalog record is 219 bytes: barcode, name, price, two flags, image address |
| `Layouts.ResidentLayout` | firmware/beer_terminal/catalog_codec.cpp:331-340 | A resident record is 36 bytes: id and name |
| `Layouts.TallyLayout` | firmware/beer_terminal/catalog_codec.cpp:147-159 | A summary record is 42 bytes: id, name, drinks, sum |
| `Layouts.FileLayout` | firmware/beer_terminal/catalog_codec.cpp:135-158 | A file is the 20-byte header, each number in its place, the checksum at 16, and the records one behind the other |
| `Layouts.FourFiles` | firmware/beer_terminal/catalog_codec.cpp:8-34 | The four magics and record sizes |
| `Layouts.AcceptedIff` | firmware/beer_terminal/catalog_codec.cpp:89-114 | A blob is accepted if and only if magic, version, record size, count, length and checksum are right |
| `Layouts.KindRead` | firmware/beer_terminal/catalog_codec.cpp:216-263 | An unknown kind reads as a purchase |
| `Codec.PutText` | firmware/beer_terminal/catalog_codec.cpp:58-63 | The field holds the clipped text and zeros; nothing else changes |
| `Codec.PutFields` | firmware/beer_terminal/catalog_codec.cpp:135-158 | The header bytes in place |
| `Codec.Finalise` | firmware/beer_terminal/catalog_codec.cpp:83-86 | The checksum over the blob with its field zeroed is stored in the field, and nothing past the blob changes |
| `Codec.CheckBlob` | firmware/beer_terminal/catalog_codec.cpp:89-114 | Accepts exactly what the specification accepts, with the same header values |
| `Codec.TwoSpanCrc` | firmware/beer_terminal/catalog_codec.cpp:100-108 | Feeding the span before the field, four zeros and the span after it is the checksum of the cleared blob |
| `Codec.EncodeQueue` | firmware/beer_terminal/catalog_codec.cpp:184-214 | Fills the front of the buffer with the encoded queue, leaves the rest, and returns 0 without touching anything if it does not fit |
| `Codec.DecodeQueue` | firmware/beer_terminal/catalog_codec.cpp:216-263 | Decodes exactly what the specification decodes; a rejected blob leaves the array unchanged |
| `Codec.EncodeCatalog` | firmware/beer_terminal/catalog_codec.cpp:265-292 | As EncodeQueue, with revision and seed |
| `Codec.DecodeCatalog` | firmware/beer_terminal/catalog_codec.cpp:294-317 | As DecodeQueue, with revision and seed |
| `Codec.EncodeResidents` | firmware/beer_terminal/catalog_codec.cpp:319-340 | As EncodeQueue |
| `Codec.DecodeResidents` | firmware/beer_terminal/catalog_codec.cpp:342-358 | As DecodeQueue |
| `Codec.EncodeSummary` | firmware/beer_terminal/catalog_codec.cpp:135-159 | As EncodeQueue |
| `Codec.DecodeSummary` | firmware/beer_terminal/catalog_codec.cpp:161-182 | As DecodeQueue |
| `Codec.ReadRecords` | firmware/beer_terminal/catalog_codec.cpp:225-263 | The record loop of the decoders, for any record decoder |
| `DeviceStorage.CrashAtomic` | firmware/beer_terminal/device_storage.cpp:52-77 | After power loss at any step of write() the target holds its old content, its new content, or nothing, and which one is a function of the step; other files keep theirs |
| `DeviceStorage.WriteOutcome` | firmware/beer_terminal/device_storage.cpp:52-77 | write() returning true means the target holds the new content; false means the old one, or nothing exactly if it was the rename that failed |
| `DeviceStorage.Flash.Write` | firmware/beer_terminal/device_storage.cpp:52-77 | The volume goes through exactly the states of the trace, in order, and the result says whether every step succeeded |
| `DeviceStorage.Flash.Read` | firmware/beer_terminal/device_storage.cpp:36-50 | A mounted, present, non-empty file within capacity is read, and nothing else |
| `TransactionQueue.FlushThenBegin` | firmware/beer_terminal/transaction_queue.cpp:24-45 | begin() after a successful flush() restores the same sequence |
| `TransactionQueue.FlushCrashAtomic` | firmware/beer_terminal/transaction_queue.cpp:24-45 | Power loss after any step of a flush: the next boot has exactly the old queue, exactly the new one, or none, and none only between removal and rename |
| `TransactionQueue.RemoveFirstIs` | firmware/beer_terminal/transaction_queue.cpp:87-98 | Exactly the first match leaves; all others stay in order |
| `TransactionQueue.RemoveFirstNone` | firmware/beer_terminal/transaction_queue.cpp:87-98 | Without a match nothing changes |
| `TransactionQueue.Queue.Push` | firmware/beer_terminal/transaction_queue.cpp:55-60 | Appends, unless 64 entries are queued |
| `TransactionQueue.Queue.Pop` | firmware/beer_terminal/transaction_queue.cpp:62-67 | The shifting loop drops the head and keeps the rest in order |
| `TransactionQueue.Queue.HasProductChanges` | firmware/beer_terminal/transaction_queue.cpp:69-77 | True exactly if some entry changes a product |
| `TransactionQueue.Queue.Contains` | firmware/beer_terminal/transaction_queue.cpp:79-85 | True exactly if some entry has the id |
| `TransactionQueue.Queue.RemovePurchase` | firmware/beer_terminal/transaction_queue.cpp:87-98 | Deletes the first Purchase with the id and only that, and says whether there was one |
| `TransactionQueue.Queue.Flush` | firmware/beer_terminal/transaction_queue.cpp:102-111 | Writes the encoded queue if it is dirty and clears the flag only if that succeeded |
| `TransactionQueue.Queue.Begin` | firmware/beer_terminal/transaction_queue.cpp:24-45 | Starts with what flash decodes to, and with nothing on an unmounted volume or an unreadable file; only the latter leaves the queue dirty |
| `ProductCatalog.Catalog.ReplaceAll` | firmware/beer_terminal/product_catalog.cpp:208-235 | In place, the list becomes the server list followed in order by the old barcode-less products the server does not name, cut to capacity |
| `ProductCatalog.MergeIdempotent` | firmware/beer_terminal/product_catalog.cpp:208-235 | Applying the same server list twice is applying it once |
| `ProductCatalog.MergeKeepsLocals` | firmware/beer_terminal/product_catalog.cpp:208-235 | While at most 32 fit, the merged list holds exactly the server products and the old ones, active or archived, that have no barcode and a name the server does not list |
| `ProductCatalog.Superseded` | firmware/beer_terminal/product_catalog.cpp:225-230 | True exactly if the server list has the name |
| `ProductCatalog.Catalog.NthMatching` | firmware/beer_terminal/product_catalog.cpp:60-68 | Finds the product with exactly index matching ones before it, or none if there are no more |
| `ProductCatalog.Catalog.CountMatching` | firmware/beer_terminal/product_catalog.cpp:138-152 | Counts the products in the wanted state |
| `ProductCatalog.CountIs` | firmware/beer_terminal/product_catalog.cpp:138-152 | The count is the number of places with a product in that state |
| `ProductCatalog.Catalog.Archive` | firmware/beer_terminal/product_catalog.cpp:182-188 | Archives an active product at a valid index and changes nothing else |
| `PurchaseLog.Log.Rebuild` | firmware/beer_terminal/purchase_log.cpp:38-54 | The view is the fold of the queue over the baseline; what one entry makes of it is what the rows of `Figures` say |
| `PurchaseLog.Log.FindOrAdd` | firmware/beer_terminal/purchase_log.cpp:26-36 | The row of the resident, appended if there is room, or none |
| `Figures.FreeDrink` | firmware/beer_terminal/purchase_log.cpp:44-53 | A free purchase of a shown resident adds one drink to that resident and leaves everyone's money |
| `Figures.PaidDrink` | firmware/beer_terminal/purchase_log.cpp:44-53 | A paid one adds its price to that resident modulo 2^32 and one drink, and nothing to anybody else |
| `Figures.FirstDrink` | firmware/beer_terminal/purchase_log.cpp:26-53 | The first of a resident opens a row behind the others, if fewer than 11 are shown |
| `Figures.NoDrink` | firmware/beer_terminal/purchase_log.cpp:44-53 | A reversal, a product change and a purchase without a resident change no row |
| `PurchaseLog.SummaryConserves` | firmware/beer_terminal/purchase_log.cpp:38-54 | Per shown resident, drinks and money are baseline plus queue modulo the counter widths; a resident with figures is missing only from a full view |
| `PurchaseLog.FiguresConserve` | firmware/beer_terminal/purchase_log.cpp:38-54 | The same as an equation, with the number of 16-bit and 32-bit turns as witnesses |
| `PurchaseLog.SummaryExact` | firmware/beer_terminal/purchase_log.cpp:38-54 | With distinct baseline residents a row shows exactly baseline plus queue if and only if that sum fits its counter |
| `PurchaseLog.NobodyDroppedIff` | firmware/beer_terminal/purchase_log.cpp:26-54 | Every resident with queued purchases has a row in the view if and only if those without a baseline row fit behind the baseline |
| `PurchaseLog.TotalsConserve` | firmware/beer_terminal/purchase_log.cpp:99-112 | In total, the view is baseline plus queue up to whole turns, if everybody with queued purchases fits |
| `PurchaseLog.TotalsExact` | firmware/beer_terminal/purchase_log.cpp:99-112 | Then the totals shown are exactly baseline plus queue if and only if those sums fit their counters |
| `PurchaseLog.Log.TotalDrinks` | firmware/beer_terminal/purchase_log.cpp:99-105 | The 16-bit sum over the rebuilt view |
| `PurchaseLog.Log.TotalRappen` | firmware/beer_terminal/purchase_log.cpp:107-112 | The 32-bit sum over the rebuilt view |
| `PurchaseLog.Log.SetBaseline` | firmware/beer_terminal/purchase_log.cpp:79-86 | Replaces the baseline and rebuilds; a list beyond capacity changes nothing |
| `CatalogLayout.Isqrt` | firmware/beer_terminal/catalog_layout.cpp:7-11 | The loop returns the floor of the square root |
| `CatalogLayout.GridGeometry` | firmware/beer_terminal/catalog_layout.cpp:30-43 | Rows are the floor of the root, columns just suffice, tiles are as large as gaps and bounds allow |
| `CatalogLayout.TilePosition` | firmware/beer_terminal/catalog_layout.cpp:45-55 | The position of tile (row, column) in its centred row |
| `CatalogLayout.ShapeBounds` | firmware/beer_terminal/catalog_layout.cpp:30-43 | Rows never exceed columns, and columns exceed rows by at most two |
| `CatalogLayout.NoRowEmpty` | firmware/beer_terminal/catalog_layout.cpp:30-43 | Every row holds at least one tile |
| `CatalogLayout.TilesInside` | firmware/beer_terminal/catalog_layout.cpp:45-55 | Every tile lies inside the bounds |
| `CatalogLayout.TilesApart` | firmware/beer_terminal/catalog_layout.cpp:45-55 | Distinct tiles are at least the gap apart |
| `CatalogLayout.IndexApart` | firmware/beer_terminal/catalog_layout.cpp:45-55 | The tiles of two indices are at least the gap apart |
| `CatalogLayout.PlaceTiles` | firmware/beer_terminal/catalog_layout.cpp:30-55 | The positions of all indices on the grid for their number lie inside the bounds and apart from each other, if the bounds have room for the gaps |
| `CatalogLayout.RowCentred` | firmware/beer_terminal/catalog_layout.cpp:45-55 | The slack left of the first and right of the last tile of a row differs by at most one pixel |
| `Clock.DueIff` | firmware/beer_terminal/backend.cpp:261 | A signed-difference deadline test is true exactly in every other half cycle of the clock after the deadline |
| `Clock.DueWithinHalf` | firmware/beer_terminal/backend.cpp:286 | So it is correct across the wrap while the two times are within half a cycle |
| `ApiClient.Post` | firmware/beer_terminal/api_client.cpp:241-272 | A request is accepted if and only if the client is configured, ready, idle and online and the length fits; a refusal changes the error alone |
| `Upkeep.RefusalNames` | firmware/beer_terminal/api_client.cpp:241-272 | The error of a refused request names the first thing that was missing |
| `ApiClient.Client.PostRequest` | firmware/beer_terminal/api_client.cpp:241-272 | The branches of post(), in order, with the error each leaves |
| `ApiClient.Client.ResetStatus` | firmware/beer_terminal/api_client.cpp:284 | Back to Idle, nothing else |
| `ApiWorker.Perform` | firmware/beer_terminal/api_client.cpp:148-213 | The body goes out once, to the configured endpoint; later requests are bare GETs of allowed targets, at most four in all; Done exactly for a 2xx answer, otherwise the error of the branch |
| `ApiWorker.OneAnswer` | firmware/beer_terminal/api_client.cpp:159-200 | Exactly one hop is the answer of an exchange |
| `ApiWorker.BoundedSink.Write` | firmware/beer_terminal/api_client.cpp:58-87 | The buffer holds the longest prefix of all that arrived that fits beside the terminator; overflow says that was not all; the rest of the buffer is untouched |
| `Backend.Service.FinishOp` | firmware/beer_terminal/backend.cpp:45-53 | A background operation resolves to no result; the slot is free and the client idle |
| `Backend.Service.StartOp` | firmware/beer_terminal/backend.cpp:56-73 | An unbuildable request starts nothing; otherwise the slot, the deadline and the pending result |
| `Backend.Service.NoteFailure` | firmware/beer_terminal/backend.cpp:77-81 | The failure counter saturates and the retry time is the capped backoff |
| `Backend.Service.ApplySyncBody` | firmware/beer_terminal/backend.cpp:83-132 | Figures if they were sent; the catalog with its revision and the residents exactly if no product change is queued and the server says it changed or has another revision; every server product is in the catalog then |
| `Backend.Service.SendQueuedNow` | firmware/beer_terminal/backend.cpp:196-243 | The head of the queue is started, or nothing |
| `Backend.Service.SyncNow` | firmware/beer_terminal/backend.cpp:187-194 | A sync never preempts an operation |
| `Backend.Service.AskMySummary` | firmware/beer_terminal/backend.cpp:150-169 | The overview is started, parked until the slot is free, or unavailable |
| `Backend.Service.Activate` | firmware/beer_terminal/backend.cpp:174-185 | Waking refreshes unless the last sync is less than a minute old |
| `Backend.Service.Update` | firmware/beer_terminal/backend.cpp:247-365 | One call of update() does to slot, client, queue, catalog, residents and figures exactly what the tick function says; when a readable sync is in, what it brings is spelled out |
| `Backend.AttemptEnds` | firmware/beer_terminal/backend.cpp:273-364 | An attempt that ends was answered, and exactly then the entry is popped with the matching result; or was not, and then the next attempt is held back for 4 to 120 s |
| `Backend.SlotOrder` | firmware/beer_terminal/backend.cpp:250-271 | A free slot goes exactly to a waiting overview, else to the head of a queue that is due, else, with an empty queue, to a sync that is due; a held-back queue keeps the sync out |
| `Backend.SyncAfterAckIff` | firmware/beer_terminal/backend.cpp:265-271 | After an acknowledgement the sync starts exactly in every other half cycle of the clock, counted from ten minutes after power-on |
| `Backend.BackoffBounds` | firmware/beer_terminal/backend.cpp:77-81 | The backoff doubles from 4 s and is capped at 120 s |
| `Backend.NextAttemptEnabled` | firmware/beer_terminal/backend.cpp:260-263 | From 120 s after an unanswered attempt on, until half a cycle, the next one is enabled |
| `Backend.DrainsIff` | firmware/beer_terminal/backend.cpp:260-263 | An idle slot starts the head by itself exactly in every other half cycle after the retry time |
| `Upkeep.SyncApplies` | firmware/beer_terminal/backend.cpp:83-126 | A finished sync brings figures if it has them, the catalog if and only if no product change is queued and it changed or has another revision, and with it the residents if there are any |
| `Upkeep.OnlySyncApplies` | firmware/beer_terminal/backend.cpp:83-132 | Nothing else brings lists |
| `Upkeep.HoldsOffIff` | firmware/beer_terminal/transaction_queue.cpp:69-77 | The queue holds a catalog off if and only if it archives, restores, creates or prices a product |
| `Upkeep.SyncEnds` | firmware/beer_terminal/backend.cpp:326-331 | A sync ends without a result for the screens and the next one counts from now |
| `Upkeep.AckEnds` | firmware/beer_terminal/backend.cpp:335-348 | An acknowledgement pops, succeeds, forgets the failures and asks for fresh figures |
| `Upkeep.RejectionEnds` | firmware/beer_terminal/backend.cpp:349-357 | A refusal pops, is reported, and changes nothing else |
| `Upkeep.FailureEnds` | firmware/beer_terminal/backend.cpp:77-81 | An attempt without an answer keeps the entry, is reported unreachable, and holds the next back for 4, 8, 16, 32, 64, then 120 s; a sync counts as made |
| `Upkeep.WaitsForRadio` | firmware/beer_terminal/backend.cpp:66-67 | A started request waits 32 s for the radio before it is given up |
| `Upkeep.HandsOver` | firmware/beer_terminal/backend.cpp:276-279 | With the radio up it is posted at once, as it was built |
| `Upkeep.WakesWithSync` | firmware/beer_terminal/backend.cpp:174-185 | Waking starts a sync on a free slot exactly if there was none yet or a minute has passed; going to sleep starts nothing |
| `Upkeep.OverviewAsked` | firmware/beer_terminal/backend.cpp:150-169 | The overview is started on a free slot, parked behind a running operation, or unavailable |
| `Upkeep.OverviewUnparked` | firmware/beer_terminal/backend.cpp:250-258 | A parked one is started by the first turn that finds the slot free |
| `Upkeep.OverviewEnds` | firmware/beer_terminal/backend.cpp:310-324 | Its answer makes it ready exactly if it can be read; no answer makes it unavailable |
| `Upkeep.SyncsEveryTenMinutes` | firmware/beer_terminal/backend.cpp:265-271 | With nothing queued, a sync starts while somebody is there, exactly from ten minutes after the last one in every other half cycle |
| `Upkeep.PowerOnDrains` | firmware/beer_terminal/backend.cpp:247-271 | A device just switched on sends the head of its queue at once |
| `Upkeep.HeadSent` | firmware/beer_terminal/backend.cpp:196-243 | The head of the queue is sent as its own request, as a reversal exactly if it is one, if the slot is free and the request can be built |
| `Handshake.MoveCoupled` | firmware/beer_terminal/api_client.cpp:241-277 | Every step of either task keeps the coupling of slot, status, notification and worker |
| `Handshake.BuffersOwned` | firmware/beer_terminal/api_client.cpp:148-284 | After every interleaving each step touches only buffers its task owns |
| `Handshake.NeverResetBusy` | firmware/beer_terminal/backend.cpp:273-364 | The client is never reset while the worker is busy, only finish() makes it idle, and post() is never refused as busy |
| `Handshake.ReportsNoticed` | firmware/beer_terminal/backend.cpp:297-364 | Every Done or Failed ends the operation at the next update() |
| `Handshake.StepsAreWhole` | firmware/beer_terminal/api_client.cpp:241-277 | Every interleaved step is, seen from outside, one whole call, one report of a busy worker, or nothing |
| `Server.ServedKeeps` | backend/README.md:105-108 | A request never duplicates, removes or rewrites a row, and never takes a reversal back |
| `Server.VoidTwice` | backend/README.md:105-108 | Reversing twice is reversing once, for any two sets of ids |
| `Server.HasVoided` | backend/README.md:105-108 | Reversing adds and removes no id |
| `Server.PurchaseAnswered` | backend/README.md:105-108 | A purchase is accepted for new once and ever after as a duplicate, without another row |
| `Server.VoidAnswered` | backend/apps-script/Api.gs:208-228 | A reversal is accepted exactly of an id that is there |
| `Replay.PassKeeps` | backend/README.md:105-108 | A pass over a queue keeps every id and the uniqueness of ids |
| `Replay.ReplayedLedger` | firmware/beer_terminal/backend.cpp:213-241 | A prefix and then the whole queue leaves the ledger of one pass with the reversals of the prefix applied to it |
| `Replay.ProductsAfter` | backend/apps-script/Data.gs:180-246 | Where no change is refused for lack of room, what a queue makes of one product is one patch that depends on the queue alone |
| `Replay.ChangeAbsorbed` | firmware/beer_terminal/api_protocol.h:43-45 | A change that the queue makes anyway makes no difference ahead of it |
| `Replay.RoomyPass` | backend/apps-script/Data.gs:200-228 | While the shelf and everything the queue puts on it fit the cap together, no change is refused for lack of room, at any step |
| `Replay.ReplayedProducts` | firmware/beer_terminal/api_protocol.h:43-45 | A prefix and then the whole queue leaves the product table of one pass, if the shelf and everything the queue puts on it fit the cap together |
| `Replay.StrayDiverges` | firmware/beer_terminal/transaction_queue.cpp:24-45 | On every sheet without the id of a stray reversal, a replay after the purchase was sent reverses what one pass lets stand |
| `Replay.LedgerConvergesIff` | firmware/beer_terminal/transaction_queue.cpp:24-45 | On a given sheet a replay from every prefix leaves the ledger of one pass if and only if every purchase with a stray reversal is there already |
| `Replay.ReplayConvergesIff` | firmware/beer_terminal/transaction_queue.cpp:24-45 | The ledger converges for all sheets and all prefixes if and only if the queue has no stray reversal |
| `Replay.RoomyConvergesIff` | firmware/beer_terminal/transaction_queue.cpp:24-45 | On a sheet with room, the whole sheet converges for all prefixes if and only if the ledger does |
| `ShelfCap.CapDiverges` | backend/apps-script/Admin.gs:78-93 | Five changes that are all accepted leave a beer on the shelf, and sent again take it off |
| `ShelfCap.TwoDiverge` | backend/apps-script/Admin.gs:78-93 | On a full shelf, a change that is refused and one that makes room for it end differently when they are sent again |
| `ShelfCap.RoomIsExact` | backend/apps-script/Admin.gs:78-93 | All queues replay on all sheets whose shelf and whose queue need at most m places together, if and only if m is at most the eight there are |
| `Resend.LedgerMoves` | firmware/beer_terminal/backend.cpp:213-241 | Of the entries that were sent, and the one behind them, any can be served at any time: the ledger stays one on which the rest may follow |
| `Resend.MovesOn` | firmware/beer_terminal/backend.cpp:213-241 | Sending the entry at a position the device stands at, for the first time or again, brings it to the next |
| `Resend.Finishes` | firmware/beer_terminal/transaction_queue.cpp:24-45 | From wherever the device stands, after any falls back, the rest of the queue leads to the ledger of one pass if no stray reversal does harm, and with room on the shelf to its sheet |
| `Resend.SuffixConverges` | firmware/beer_terminal/transaction_queue.cpp:24-45 | The same for a prefix and then the queue from any position not behind it |
| `ShelfCap.PlaceIff` | backend/apps-script/Admin.gs:78-93 | A product is restored while fewer than eight are on the shelf, and on a full one exactly if its barcode, or without one any product of its name, is there |
| `Delivery.StepInv` | firmware/beer_terminal/backend.cpp:247-365 | Every step keeps: tickets accounted for, the head is the entry being sent, the worker has the posted request, replies and acknowledgements are true of the sheet, syncs fresh |
| `Delivery.PopsTheAnswered` | firmware/beer_terminal/backend.cpp:335-356 | A pop removes the very entry that was answered and records its answer |
| `Delivery.UndoKeepsHeadIff` | firmware/beer_terminal/app_state.cpp:153-160 | An undo keeps the head stable if and only if it does not take out the entry being sent |
| `Delivery.FlushFates` | firmware/beer_terminal/device_storage.cpp:52-77 | Each power loss inside a flush is one of the three fates of the step system |
| `Delivery.EffectLasts` | backend/README.md:105-108 | An effect that was acknowledged survives everything served later |
| `Delivery.VerdictTrue` | backend/README.md:105-108 | An accepting answer is true of the sheet at once |
| `Delivery.RebootInv` | firmware/beer_terminal/transaction_queue.cpp:24-45 | A reboot outside the window keeps the invariant with the queue flash held |
| `Delivery.RebootKeepsIff` | firmware/beer_terminal/transaction_queue.cpp:24-45 | A reboot keeps everything stored if and only if the queue file is not missing or nothing stored is still open |
| `Runs.RunKeeps` | firmware/beer_terminal/backend.cpp:247-365 | The invariant holds after every legal run |
| `Runs.ExactlyOnce` | firmware/beer_terminal/backend.cpp:335-364 | Stored entries are queued, refused, undone or acknowledged; acknowledged purchases stand under exactly one row and acknowledged reversals leave it reverted |
| `Runs.SyncKeepsChanges` | firmware/beer_terminal/backend.cpp:107-126 | When a catalog is applied every pushed product change had been answered before that sync was started, and none is queued |
| `Runs.SyncStarts` | firmware/beer_terminal/backend.cpp:187-194 | Whatever starts a sync notes the entries answered so far |
| `Runs.NothingInvented` | firmware/beer_terminal/backend.cpp:196-243 | A row that was not there before records an entry the user pushed and the device sent |
| `Runs.UnsentUncharged` | firmware/beer_terminal/app_state.cpp:151-160 | An id under which no purchase was ever sent has no row |
| `Drain.RoundTripDone` | firmware/beer_terminal/backend.cpp:247-365 | A round trip takes the head out of the queue and puts it into effect once, with flash and backoff as they were |
| `Drain.QueueDrains` | firmware/beer_terminal/backend.cpp:259-263 | A reachable server gets the whole queue, in order, as one pass, and the queue is empty |
| `Boot.Boots` | firmware/beer_terminal/backend.cpp:136-146 | Whether the sync of a boot is not built, not sent, answered or lost, the device comes to rest with what flash held; only a failed sync holds the queue back, for four seconds |
| `Boot.RebootSends` | firmware/beer_terminal/backend.cpp:136-263 | After a power cut, the boot and its sync, the first entries that flash held go out in order |
| `Boot.RebootDrains` | firmware/beer_terminal/backend.cpp:136-263 | And with a turn for each of them all of it goes out, as one pass, and the queue is empty |
| `Interrupted.DrainConverges` | firmware/beer_terminal/beer_terminal.ino:94-100 | Through every run of lost requests and replies, late effects of what is sent meanwhile, flushes that succeed, fail or leave no file, and reboots, both what is queued and what is stored lead to the ledger of one undisturbed pass if no stray reversal does harm; and, with no late effect and room on the shelf, to its sheet |
| `Interrupted.CutConverges` | firmware/beer_terminal/beer_terminal.ino:94-100 | Cut at any moment of such a run, booted, however the sync of the boot ends, and drained, the device has left that ledger, and in that case that sheet, and an empty queue |
| `Charged.ChargedIff` | firmware/beer_terminal/app_state.cpp:151-160 | At any moment the id can come to stand under a row that is not reversed, without the purchase being made again, if and only if it does now, or the sheet does not have it and it was sent, or is queued, or is on flash; over all legal continuations |
| `Charged.AcknowledgedUndoIsFinal` | firmware/beer_terminal/app_state.cpp:161-176 | Once an undo is acknowledged, no continuation, even with new pushes of the purchase, brings a row back that is not reversed |
| `Charged.RunKeepsRows` | backend/README.md:105-108 | Over every run no row is lost or rewritten and no reversal taken back |
| `Hazards.UndoInFlightLoses` | firmware/beer_terminal/app_state.cpp:155-160 | A run of possible steps, only the undo unsafe: undone while its request is out, a purchase stays charged, and the answer to it pops the next one, which was stored and is lost |
| `Hazards.UndoAfterLostReply` | firmware/beer_terminal/app_state.cpp:151-160 | An allowed run after which an undone purchase stands in the sheet with nothing queued to reverse it |
| `Hazards.UndoLeavesCopy` | firmware/beer_terminal/app_state.cpp:155-160 | A legal run after which an undone, never sent purchase can still come to be charged: a retry had pushed it twice, and the undo took out one copy |
| `Hazards.UndoLeavesFlash` | firmware/beer_terminal/app_state.cpp:155-160 | Another: the flush of the undo fails, and the copy on flash can still be charged |
| `Hazards.UndoIsFinal` | firmware/beer_terminal/app_state.cpp:161-176 | A purchase that was sent, undone, and its reversal sent: a request for it may still be under way, and yet it is never charged again |
| `Hazards.RebootInWindow` | firmware/beer_terminal/device_storage.cpp:52-77 | A run of possible steps, only the reboot unsafe: power lost between removal and rename loses a stored purchase |
| `AppState.DispatchSound` | firmware/beer_terminal/app_state.cpp:248-377 | Every event keeps: Undoing implies an undo in flight, Submitting its negation, lookup screens unreachable, an id wherever a purchase can be retried |
| `AppState.UpdateSound` | firmware/beer_terminal/app_state.cpp:379-441 | So does every turn of update() |
| `AppState.IdKept` | firmware/beer_terminal/app_state.cpp:178-184 | In one event, the id changes only when it is minted on the resident screen or the whole context is blanked |
| `AppState.RetrySame` | firmware/beer_terminal/app_state.cpp:364-371 | Retry hands over the same purchase or the same reversal under the same id, never one for the other |
| `Identity.IdKeptOverRuns` | firmware/beer_terminal/app_state.cpp:178-184 | Over every run of events, timers, results and restarts in which none is minted, the id stays or is blanked, and every purchase or reversal queued since has it |
| `AppState.EnterUi` | firmware/beer_terminal/app_state.cpp:54-93 | A transition changes of the purchase at most whether it is deferred, and only the two handing-over screens touch the queue |
| `AppState.Leaves` | firmware/beer_terminal/app_state.cpp:336-344 | A waiting screen has two exits, which carry nothing else along |
| `AppMachine.Machine.EnqueueThePurchase` | firmware/beer_terminal/app_state.cpp:117-149 | Stored, on flash if the write goes through, and only then tried; watched, deferred, refused or without backend; the fields are in `HandOver.ChoiceBuys` |
| `AppMachine.Machine.EnqueueTheUndo` | firmware/beer_terminal/app_state.cpp:153-176 | Removed from the queue, or a reversal stored and tried, or refused; on flash likewise |
| `AppMachine.Machine.ApplyEnqueued` | firmware/beer_terminal/app_state.cpp:43-52 | Only a watched request is not simulated; a refusal arms the failure |
| `AppMachine.Machine.EnterScreen` | firmware/beer_terminal/app_state.cpp:54-93 | Screen, hand-over, dwell, deadline and the radio, in place; durable as the hand-over |
| `AppMachine.Machine.HandleEvent` | firmware/beer_terminal/app_state.cpp:248-377 | The device and the catalog as the event leaves them, which `Screens.ScreenLaws` characterises; whatever changed in the queue is on flash if the write goes through, and was before a request was started; an untouched queue leaves flash alone |
| `AppMachine.Machine.UpdateScreen` | firmware/beer_terminal/app_state.cpp:379-441 | A result moves a watching screen on, a deadline a timed one; neither touches the queue or flash |
| `AppMachine.Machine.QueueProduct` | firmware/beer_terminal/app_state.cpp:446-461 | A product change is queued if there is a backend and room, on flash if the write goes through, and only then tried |
| `AppMachine.ArchivePushedIff` | firmware/beer_terminal/app_state.cpp:446-461 | A confirmed archive is pushed if and only if there is a backend and room in the queue |
| `AppMachine.SyncTakesBackIff` | firmware/beer_terminal/product_catalog.cpp:208-235 | While everything fits, a product archived on the device is active again after an applied sync if and only if the sync lists it so |
| `AppMachine.Machine.Start` | firmware/beer_terminal/app_state.cpp:188-195 | begin() ends on the product grid with a blank context |
| `AppMachine.Machine.SelectProduct` | firmware/beer_terminal/app_state.cpp:227-235 | The context takes the product with that many active ones before it, cut to its fields; without one it stays |
| `AppMachine.Machine.SetAdHocProduct` | firmware/beer_terminal/app_state.cpp:237-243 | The context takes a product without barcode or place in the catalog |
| `Screens.ScreenLaws` | firmware/beer_terminal/app_state.cpp:248-377 | For every screen: exactly from which screens, by which events and under which condition it is come to, and with exactly what purchase in hand |
| `Screens.StaysPut` | firmware/beer_terminal/app_state.cpp:248-377 | An event that leads nowhere changes nothing |
| `Screens.BuysFromGrid` | firmware/beer_terminal/app_state.cpp:266-318 | A beer and a resident lead to the submission of that product under the new id |
| `Screens.BuysUnlisted` | firmware/beer_terminal/app_state.cpp:266-302 | So does a new product where none is archived |
| `Screens.BuysPastArchive` | firmware/beer_terminal/app_state.cpp:266-302 | And by way of the archive list where some are |
| `Screens.ArchivesFromGrid` | firmware/beer_terminal/app_state.cpp:303-318 | Managing a tapped product asks for its archive and queues nothing yet |
| `Screens.CancelsHome` | firmware/beer_terminal/app_state.cpp:248-377 | From every screen that neither waits nor sleeps, exactly so many Cancels lead to the grid: none, one, two from managing a product, three from confirming its archive; and where the purchase in hand is given up |
| `Screens.SleepsAndWakes` | firmware/beer_terminal/app_state.cpp:249-275 | Asleep and awake, the grid, what is in hand and the queue are as they were; only a sync may be started |
| `Screens.DeadlineSet` | firmware/beer_terminal/app_state.cpp:62-89 | The confirmation stays 6 s, that of an undo 2 s, the overview 15 s, a wait without a request 0.8 s |
| `Screens.ConfirmationEnds` | firmware/beer_terminal/app_state.cpp:415-440 | After that time, in every other half cycle, the terminal is back on the grid with nothing in hand, and before as it was |
| `Screens.HandOverShown` | firmware/beer_terminal/app_state.cpp:43-52 | A purchase is watched if its request was started, deferred if it was stored and not started; one without room arms the failure |
| `Screens.ChoiceForgets` | firmware/beer_terminal/app_state.cpp:303-307 | With a choice of resident the last report is forgotten |
| `Screens.ResultShown` | firmware/beer_terminal/app_state.cpp:391-413 | A result is confirmed if it is success or unreachable, deferred if unreachable, ends an undo, and is not shown twice |
| `Screens.OverviewFor` | firmware/beer_terminal/app_state.cpp:70-81 | The overview is asked for the resident of the purchase |
| `HandOver.ChoiceBuys` | firmware/beer_terminal/app_state.cpp:117-136 | Choosing a resident appends one purchase: the new id, barcode, name, price and free flag of the context, id and name of the resident at the index, cut to 11 and 23 characters, or empty |
| `HandOver.RetryBuys` | firmware/beer_terminal/app_state.cpp:364-369 | A retried submission appends the same under the id it had |
| `HandOver.UndoReverses` | firmware/beer_terminal/app_state.cpp:153-172 | An undo takes the first queued purchase with the id out, or appends one reversal with id and name, or, without room, does nothing |
| `HandOver.ChangeTells` | firmware/beer_terminal/app_state.cpp:446-458 | A product change appends one entry with kind, barcode, name, price and free flag |
| `HandOver.ArchiveTells` | firmware/beer_terminal/app_state.cpp:320-330 | A confirmed archive is one, and ends on the grid |
| `HandOver.ChangeNames` | firmware/beer_terminal/app_state.cpp:449-455 | Of a product, cut to 13 and 39 characters |
| `HandOver.NoBackendQueuesNothing` | firmware/beer_terminal/app_state.cpp:118 | A device without a backend queues nothing, and its waits are simulated |
| `MainLoop.NeverWaitsForNothing` | firmware/beer_terminal/app_state.cpp:391-433 | After every run a waiting screen has a live request or an armed deadline, and the state machine is sound |
| `MainLoop.WatchedTurn` | firmware/beer_terminal/app_state.cpp:391-413 | A request that ends moves its screen on in the same iteration, to the error page only if the server refused |
| `MainLoop.ResultMovesOn` | firmware/beer_terminal/app_state.cpp:391-413 | A result leads to the error page exactly if it is neither success nor unreachable |
| `MainLoop.TimerMovesOn` | firmware/beer_terminal/app_state.cpp:415-433 | The timer leads to the error page exactly for a submission that is to fail, and confirms every undo |
| `MainLoop.FullRefuses` | firmware/beer_terminal/app_state.cpp:117-123 | A full queue refuses the purchase and dooms the submission |
| `MainLoop.RefusedNeverConfirmed` | firmware/beer_terminal/app_state.cpp:415-427 | Whatever happens while a refused purchase waits, the next screen is the error page |
| `MainLoop.UndoRefusedIff` | firmware/beer_terminal/app_state.cpp:153-176 | An undo does nothing exactly if the queue is full and the purchase has left it |
| `MainLoop.RefusedUndoConfirmed` | firmware/beer_terminal/app_state.cpp:429-433 | A refused undo is confirmed as done and stays armed against the next submission |
| `MainLoop.NextPurchaseSpoiled` | firmware/beer_terminal/app_state.cpp:419-427 | The next deferred purchase then ends on the error page although it is stored |
| `MainLoop.UndoTakesInFlight` | firmware/beer_terminal/app_state.cpp:153-160 | The undo on the confirmation screen takes out the entry whose request is under way |
| `MainLoop.ArmedIff` | firmware/beer_terminal/app_state.cpp:89 | A simulated wait has a deadline exactly if the clock is not 800 ms short of wrapping |
| `MainLoop.StuckForGood` | firmware/beer_terminal/app_state.cpp:415 | Without a deadline no button and no turn of the loop leads away |
| `Loop.Iterate` | firmware/beer_terminal/beer_terminal.ino:86-102 | An iteration on the objects is a turn of the step system, after which the queue is stored, or flash keeps what it held, or is left without the file; stored if the write goes through |
| `Loop.Happens` | firmware/beer_terminal/app_state.cpp:248-377 | An event on the objects is an event of the step system, and a queue that is not dirty stays the one flash holds |
| `Loop.ListsSeen` | firmware/beer_terminal/app_state.cpp:271-272 | An event finds an archived product exactly if there is one, and of the product to be archived what the catalog holds |
| `QueueOrder.ActInOrder` | firmware/beer_terminal/app_state.cpp:117-176 | Every step keeps queue and flash free of a purchase behind its own reversal |
| `QueueOrder.QueueReplays` | firmware/beer_terminal/transaction_queue.cpp:24-45 | After every run of the screens, reboots included, sending a prefix of the queue and then all of it from any position not behind leaves the ledger of one pass, and the sheet of one pass with room on the shelf |
| `Bridge.ActFollows` | firmware/beer_terminal/app_state.cpp:248-441 | Every event, turn, product change, flush and restart of the screens is a run of possible delivery steps, with the same slot, client, queue and flash in the end |
| `Bridge.ScreensDeliver` | firmware/beer_terminal/beer_terminal.ino:86-102 | Exactly once from the screens: after every run of acts, with server and worker acting at any time between them, whatever was stored is settled, if no purchase was undone in flight and no power lost in the window |
| `Journey.PurchaseLeavesRow` | firmware/beer_terminal/app_state.cpp:117-149 | A beer tapped, a resident tapped, one answered round trip: one more row with that beer, price and resident under the new id, nothing else in the sheet changed, the queue empty, the purchase confirmed |
| `Journey.UndoReversesRow` | firmware/beer_terminal/app_state.cpp:153-176 | Undo and one answered round trip: the row of the purchase is reversed and every other one is as it was |
| `Journey.ChangeReachesSheet` | firmware/beer_terminal/app_state.cpp:446-461 | A product change and one answered round trip: the sheet has exactly that change, or none if it was refused |
| `Journey.TripArrives` | firmware/beer_terminal/backend.cpp:196-365 | What has the slot is handed over, served and noticed in two turns, and a screen that waits for it moves on |

## Left out

- JSON building and parsing: the length of a request and what a response parses to are inputs. A parsed resident always has an id and a name, so the guard that refuses a list with an unusable one never fires and is not modelled.
- TLS, `HTTPClient`, Wi-Fi association and the task scheduler: a request comes back with any status, a worker step happens at any time.
- LittleFS: a file is a byte sequence, `remove` and `rename` are atomic, reads are not short, and a full volume shows as a write that stops early.
- Screens, fonts, keyboard, battery, serial logging, message texts, price formatting and tile colours.
- The reply text of a refusal; only whether the server accepted, refused or answered unreadably is modelled.
- The validation of the script other than the shelf cap: any entry may be refused.
- `restore`, `add_product`, `set_price` and `find` of the catalog, the seeds and the resident directory's own file: easy members; the queue entries that the screens push for them are modelled.
- The redraw of the overview when its figures land, which changes no state.
- The host check of a redirect target: any predicate on the target.
- Null pointers: the callers pass none.
- 8-bit counters and 16-bit coordinates: indices stay below 65 and the layout theorems keep every coordinate inside the bounds, so the casts are exact. Sums in the totals wrap at 16 and 32 bits; signed overflow is taken as wrapping.
- Service: the file-scope variables of the backend are one record field, and so are those of the state machine and of the client; what aliasing between single variables could do is not captured.
- Handshake.StepsAreWhole: assumes sequentially consistent status and notification, which release, acquire and the notification give the source.
- Delivery.Step: an enqueue, its flush and the attempt to send are one step, as in the source, where nothing runs in between; the worker's own steps are those of `Handshake`.
- A refused or unreadable sync, and a partial one, change nothing but what `ApplySync` says; what the residents sheet contains is not modelled.
- A queue that needs more places on the shelf than there are may still replay on a given sheet; which ones do is not characterised beyond the exact bound of `ShelfCap.RoomIsExact`.
- Late effects in a drain: for products, and for requests that were sent before the drain began, `Interrupted` says nothing; a late change of a product can undo a newer one, and an old purchase adds its row. `Runs` and `Charged` cover them.
- AppMachine.Machine.HandleEvent: the decision of the 16 by 23 switch is the function `AppState.Planned`, which the methods call and `Screens.ScreenLaws` pins; the updates around it are in place.
- Bridge.ActFollows: the write to flash inside a hand-over is followed as a separate act of the loop, since nothing runs between the two; that it comes before the request is what `AppMachine` proves.
