# The storage engine, modelled and proved

discord-free-cloud cuts files into parts, seals each part with AES-GCM, wraps it as a PNG
and posts it to a chat server, keeping a catalog of files and part rows in a database. This
project models that engine in Dafny and proves what it keeps. `dafny verify dfyconfig.toml`
checks all of it.

| module | what it models |
|---|---|
| Upload, UploadRuns, UploadJobs | the worker pool of an upload, dedup by plaintext sum, the completion gate; any number of jobs at once, as a state machine |
| Layout | where parts begin and end and which channel each goes to |
| WholeReads | reads cut short by an error, and what the stored rows tell of them |
| Recovery, SampleRuns | finding an attachment again and guessing the data it was sealed under; deletion; runs that end badly |
| OrderedWriter, Ranges, HttpRange | the streaming pipeline with its condition variable, range selection, Range headers |
| Assemble, Verify, VerifyUpload | downloading to a file out of order; the backup check, alone and after an upload |
| RoundTrip | layout, upload, fetching and download together |
| Tree, Relocation, Catalog | the catalog tree and the handlers that change it |
| Uploads | the catalog row an upload is entered under |
| FastCdc | the content-defined chunker |
| Polyglot | the PNG wrapper and its tolerant parser |
| PoolNames, Pool, PoolOpenings, PoolSync | the channel pool of a server |
| Health, Cache | storage summaries; the two first-in first-out caches |
| Wrappers, Text, Sorting | lists, byte slices, string functions, sorting |

Goroutines become steps of a state machine: a step is what one of them does between two
points at which another can run. Objects that methods change in place become classes, loops
stay loops, and each such method is proved against a function or predicate whose own
properties are lemmas.

## Assumptions

- AES-GCM is ideal: a blob opens under the key and additional data it was sealed with and
  yields what was sealed. SHA-256 has no collisions. The master key does not change.
- A database statement is either carried out or fails without effect. MarkChunkFailed,
  counting and status updates may fail unnoticed, as the code ignores their errors; a failing
  UpdateChunkComplete leaves the row as it was.
- Each file is uploaded once, and the staged file does not change while it is read.
- The attachment host returns what was posted, or fails.
- Letters are ASCII where case and white space matter; strings are sequences of one-byte
  characters where their length does.

## Where the code does other than its documentation or callers expect

Each of these is a theorem that says exactly when the expected property holds.

- A read that fails after its first byte is taken for a whole one: the truncated part is
  stored and the job marked COMPLETED (`SampleRuns.TornReadIsCompleted`). VerifyFile tells
  exactly whether that happened to a row it picks (`VerifyUpload.OkTellsReads`).
- The part of an empty file is stored but can never be opened (`Recovery.EveryPartOpens`,
  `SampleRuns.EmptyFileIsLocked`).
- Deleting a file deletes messages that deduplicated parts of other files still use
  (`Recovery.DeleteSpares`, `SampleRuns.DeleteTakesShared`).
- A full download of rows with a gap either waits for ever or ends as a success with parts
  missing (`Ranges.GapsHurt`, `OrderedWriter.DeliversExactlyWhenGapless`).
- A request to cancel a job marks it PAUSED whatever its status, so a COMPLETED or FAILED one
  is PAUSED from then on, an upload (`UploadJobs.OverForGood`, `SampleRuns.CompletedIsPaused`)
  and a download (`Assemble.OverForGood`) alike; the mark on a job that still runs is written
  over when it ends (`UploadJobs.PausedWhileRunning`, `UploadJobs.GateIsExact`).
- A cancelled download to a file can be marked COMPLETED (`Assemble.CancelledIsCompleted`).
- A suffix range longer than the file is answered with the whole file and status 200, and one
  that does not fit 64 bits with the first byte (`HttpRange.WellFormedRange`).
- The comment in handleFileMove says that a trashed row must not block a move; it makes the
  move fail after the folder's contents have been rewritten (`Catalog.MoveIntoTrashedNameBreaks`).
- A rename to a run of slashes is let through as "/" (`Catalog.Catalog.HandleFileRename`,
  `Catalog.RenameToSlashes`); a folder can be created under a name of "..", under a parent that
  is missing or under a file (`Catalog.Catalog.HandleCreateFolder`, `Catalog.CreateBreaks`).
- An upload is entered under whatever parent is named: one that is missing or a file, one that
  the path does not name, or, for a name of slashes, the folder itself
  (`Uploads.EnterUpload`, `Uploads.UploadInto`, `Uploads.SlashUploadBreaks`).
- The chunker's constructor does not put the sizes in order (`FastCdc.NewFastCDC`,
  `FastCdc.ConstructedOutOfOrder`), and a minimum of twice the maximum or more makes Split
  differ from cutting the whole stream (`FastCdc.FastCDC.Split`, `FastCdc.ConstructedIsFaithful`).
- The PNG length field wraps at 4 GiB (`Polyglot.RoundTrip`).
- An overflow category whose name is cut to 90 bytes is not recognised later
  (`PoolNames.CutNameReadsBack`, `PoolNames.TenthCategoryIsCut`), and where the cut name leads
  to a category in use that one is overfilled (`PoolSync.SyncIsExact`, `PoolSync.LongBaseSyncIsNot`).

## Model

| member | source | states |
|---|---|---|
| RoundTrip.UploadThenDownload | internal/downloader/downloader.go:240-643 | The law the storage is for: from any reachable state, after a run in which a file's upload job ends completed and none of its own reads was cut short (other jobs, restarts and refreshes interleaved at will), and whatever is done after that (requests to cancel included), take the rows fetched back, in any order and with replicas: in every run of the download pipeline what has been sent is a prefix of the file, or for a range request of the bytes asked for; it is all of it when the pipeline returns without an error; and when nothing fails the pipeline does return so |
| RoundTrip.UploadedPartsTile | internal/downloader/downloader.go:519-532 | At any time after such a run the first row of each index, in index order, are the pieces of the file without gap or overlap |
| RoundTrip.LayoutIsWellPlanned | internal/uploader/uploader.go:399-450 | The rows that the layout loop builds are each in their place, and every place has a row as soon as one server has a channel |
| RoundTrip.RunAddsNone | internal/uploader/uploader.go:350-367 | No other upload, and no step of any job, adds rows to a file whose upload has started |
| UploadRuns.StepInv | internal/uploader/uploader.go:503-745 | Every step of every job, any number of jobs interleaved, keeps the invariant: completed rows lead to an attachment with the bytes read for them and to a row naming the data it was sealed under, every part of a running job is queued once, held once, stored or given up, and nothing recovery rests on is taken away |
| UploadRuns.RunKeeps | internal/uploader/uploader.go:553-633 | The same over whole runs; a row once COMPLETED keeps its sum, its place and its bytes for the rest of the run, changing only by a fresher link |
| UploadRuns.ReuseSound | internal/uploader/uploader.go:556-563 | Dedup: a row completed from a found row is sealed under what some completed row names, through dedup chains of any length |
| UploadRuns.RecordSound | internal/uploader/uploader.go:587-632 | A row completed from its own upload names the additional data it was sealed under |
| UploadRuns.MoveWrites | internal/db/db.go:817-840 | A worker writes rows of its own job only, only pending ones, and only the one it holds |
| UploadRuns.StartKeepsJobs | internal/uploader/uploader.go:369-453 | Starting a job leaves every other job's invariant and establishes the new one |
| UploadJobs.CountsSum | internal/db/db.go:854-860 | Pending, failed and completed copies always make up TotalChunks |
| UploadJobs.SendsNeverBlock | internal/uploader/uploader.go:510-630 | A worker about to report an error finds room in the error channel, in every reachable state |
| UploadJobs.CompletedMeansStored | internal/uploader/uploader.go:711-745 | In every run a job marked COMPLETED raised no error and has every one of its rows COMPLETED |
| UploadJobs.GateIsExact | internal/uploader/uploader.go:711-745 | The gate passes exactly when no error was raised and every row is stored; with neither error nor cancellation it always passes; and errors, untaken and stored parts add up to the total |
| UploadJobs.OverForGood | internal/uploader/uploader.go:855-863 | A job that is over makes no more moves and nothing of it changes but its status; and the status, COMPLETED included, is kept through a later run exactly when no later request to cancel it is written down, or it was PAUSED before |
| UploadJobs.PausedWhileRunning | internal/uploader/uploader.go:855-863 | While a job runs it is marked PAUSED exactly when a request to cancel it has been written down, whatever else is done; its end writes over the mark |
| SampleRuns.CompletedIsPaused | internal/server/server.go:1390-1399 | A run for any file of one part: its job is marked COMPLETED with the part stored, and one request to cancel it later marks it PAUSED |
| UploadJobs.MovesAreBounded | internal/uploader/uploader.go:522-706 | However jobs interleave, a job makes no more moves than a bound fixed at any point of the run |
| UploadJobs.NeverStuck | internal/uploader/uploader.go:503-709 | A running job can always go on without a fault: some worker can take a part or leave, read the whole of the part it holds, reuse, send under a fresh message or record it, or all workers are gone and the job ends |
| Layout.BuildParts | internal/uploader/uploader.go:399-450 | The nested loops build the planned parts of every server that has channels, in order |
| Layout.PartSizeFits | internal/uploader/uploader.go:413-418 | Every part lies in the file, ends where the next begins or at the end of the file, and is empty only when the file is |
| Layout.PlanTotals | internal/uploader/uploader.go:372-377 | Planned sizes sum to the file size times the servers with channels, and planned rows to the part count times those |
| Layout.JobTotals | internal/uploader/uploader.go:372-385 | Every server kept has channels, so the sizes of all rows sum to TotalBytes and the rows number TotalChunks |
| Layout.PartsTile | internal/uploader/uploader.go:413-418 | The parts of one server tile a non-empty file |
| Layout.TurnOf | internal/uploader/uploader.go:420 | Part i of a server goes to channel j exactly at its turns |
| Layout.CountOnChannel | internal/uploader/uploader.go:406-420 | How many turns of the rotation a channel gets, for any random start |
| Layout.PlanPartsFor | internal/uploader/uploader.go:399-450 | The parts of the whole plan that name a channel of a server are as many as its turns in that server's rotation |
| Layout.RotationIsFair | internal/uploader/uploader.go:399-450 | Any two distinct channels of a server are named by part counts of the whole plan that differ by at most one |
| Recovery.FetchSingleChunk | internal/downloader/downloader.go:182-236 | Link first, then message; then the candidate list; an empty plaintext counts as a failure |
| Recovery.ListCandidates | internal/downloader/downloader.go:206-220 | The additional data tried, in order |
| Recovery.TryCandidates | internal/downloader/downloader.go:222-235 | Opens exactly when the blob's own additional data is among the candidates and it holds some bytes |
| Recovery.StoredPartOpens | internal/downloader/downloader.go:182-236 | In every reachable state a COMPLETED row yields exactly the bytes that were read for it, whatever file id it is asked under, whichever order the rows with its sum come in and whichever of the two ways to the attachment is up; and these are its bytes of the file exactly when none was missed and there is one |
| Recovery.EveryPartOpens | internal/downloader/downloader.go:204-235 | Over runs in which no read for a part was cut short: its COMPLETED row yields exactly file[offset..offset+size], except that a row of no bytes never opens |
| WholeReads.RunKeepsWhole | internal/uploader/uploader.go:543-558 | For any set of parts: when no read for them is cut short, each of their sums on record is of all the bytes of its part |
| WholeReads.StoredTellsReads | internal/uploader/uploader.go:543-633 | For any parts of a job that ends completed: none of their reads was cut short if and only if each is stored under a sum of as many bytes as it has |
| SampleRuns.TornReadIsCompleted | internal/uploader/uploader.go:544-554 | A run for any file of one part: a read that fails after some but not all of its bytes is stored as the part, and the job is marked COMPLETED |
| SampleRuns.EmptyFileIsLocked | internal/downloader/downloader.go:222-233 | A run that stores an empty file: the job is marked COMPLETED, and its row is refused under whatever file id it is asked |
| SampleRuns.DeleteTakesShared | internal/server/server.go:1148-1275 | A run in which a second file is stored as a reference to the first one's message: it can be read until the first file is deleted, and not afterwards |
| Recovery.DeleteSpares | internal/server/server.go:1148-1275 | Messages are deleted without counting references: another file's stored part survives a deletion exactly when it shares no attachment with the deleted file |
| OrderedWriter.StepInv | internal/downloader/downloader.go:329-447 | Every step of workers, writer and watcher keeps: each unwritten part is queued, held, in the map, or an error or cancellation is set |
| OrderedWriter.SentIsPrefix | internal/downloader/downloader.go:388-447 | In every interleaving the bytes written are a prefix of the stream, each turn is taken at most once and in order, and a return without error means all were written |
| OrderedWriter.Progress | internal/downloader/downloader.go:403-443 | No lost wakeup: until the writer has returned some goroutine can go on without a fault, when the part indexes are the ones asked for |
| OrderedWriter.MeasureDecreases | internal/downloader/downloader.go:338-446 | Every step of every goroutine lowers a measure, so every run is finite |
| OrderedWriter.EveryRunReturns | internal/downloader/downloader.go:338-447 | A run that can go no further has returned, whatever failed on the way |
| OrderedWriter.DeliversExactlyWhenGapless | internal/downloader/downloader.go:557-643 | Every fault-free run ends with the whole stream delivered if and only if each turn asks for the part queued in its place; if not, every fault-free run ends with the writer asleep and all workers gone |
| Ranges.SelectRows | internal/downloader/downloader.go:519-532 | The loops that pick the first row of each index and put them in order |
| Ranges.SelectedIsWholeIffContiguous | internal/downloader/downloader.go:527-532 | Compaction keeps every part exactly when indexes are contiguous from 0 |
| Ranges.JobsAreValid | internal/downloader/downloader.go:519-532 | Any selection of rows is a job the writer can run, and it asks for the parts in their places exactly when indexes are contiguous |
| Ranges.GapsHurt | internal/downloader/downloader.go:527-532 | Rows 0, 2, 3: every fault-free run ends with the writer asleep for good; rows 0, 1, 3: every fault-free run ends as a success that has sent parts 0 and 1 only |
| Ranges.SelectNeeded | internal/downloader/downloader.go:270-277 | The parts that overlap a range, in order |
| Ranges.NeededIsInterval | internal/downloader/downloader.go:270-277 | They are exactly the parts from the one with the first byte to the one with the last |
| Ranges.RangeIsExact | internal/downloader/downloader.go:270-447 | What a range request sends, the first part at once and the others through the pipeline, is file[start..end+1] |
| Ranges.FixedSizeIndexes | internal/downloader/downloader.go:270-277 | With fixed-size parts the part that holds a byte is the one whose index is the quotient |
| Ranges.FullIsWhole | internal/downloader/downloader.go:557-643 | The job of a full download of parts that tile a file sends the file |
| Ranges.RangeDelivers | internal/downloader/downloader.go:282-447 | In every run of a range request's pipeline, the first slice and what it has sent are a prefix of file[start..end+1], equal to it on a return without error, which every fault-free run reaches |
| Ranges.FullDelivers | internal/downloader/downloader.go:557-643 | The same of a full download and the file |
| HttpRange.ReadRange | internal/server/server.go:957-997 | The handler's parsing, clamping and Content-Length |
| HttpRange.WellFormedRange | internal/server/server.go:957-994 | A well-formed single range (section 14.1.2 of RFC 9110) is answered with the bytes it asks for exactly when it is satisfiable, fits 64 bits and, for a suffix, is no longer than the file; every other case is pinned down |
| HttpRange.ContentLengthIsExact | internal/server/server.go:982-997 | Whatever the header, for parts that tile the file and for an empty file, the declared length is the number of bytes a complete response sends, and they are the promised ones |
| Assemble.StepInv | internal/downloader/downloader.go:801-841 | Every step of the download workers keeps: bytes of no taken row are zero, and every taken row is in hand or landed unless an error was sent |
| Assemble.CompletedIsTheFile | internal/downloader/downloader.go:789-920 | In whatever order fetches finish, replicas included, a download marked COMPLETED holds exactly the rows that were taken: it is the file whenever the queue was drained, as it always is without cancellation, and otherwise exactly when the rows left behind held only zeros |
| Assemble.CancelledIsCompleted | internal/downloader/downloader.go:814-821 | A concrete run: cancelled before any part is taken, the job is marked COMPLETED with an all-zero file |
| Assemble.EveryDownloadEnds | internal/downloader/downloader.go:801-943 | No run of a download is longer than a bound fixed by its parts and workers, requests to cancel it not counted; and one whose own goroutines can go no further has ended |
| Assemble.QuietDownloadIsTheFile | internal/downloader/downloader.go:789-943 | A run in which nothing fails and nobody cancels, once it can go no further, has ended COMPLETED with the file, in whatever order the workers went |
| Assemble.OverForGood | internal/downloader/downloader.go:961-969 | A download that is over keeps its bytes, and keeps its status through a later run exactly when no later request to cancel it is written down, or it was PAUSED before |
| Assemble.SendHasRoom | internal/downloader/downloader.go:798-837 | A download worker about to report an error finds room in the error channel |
| Assemble.TilesCover | internal/downloader/downloader.go:791-795 | The rows of all servers cover the file when those of one server tile it |
| Assemble.WriteAt | internal/downloader/downloader.go:832 | Writing a piece of the file leaves every piece that had landed in place |
| Assemble.WriteParts | internal/downloader/downloader.go:814-837 | Any order of writes that mentions every row, duplicates allowed, leaves the file |
| Verify.CompletedChunksForFile | internal/downloader/verify.go:148-173 | The first completed row of each index in order, or the least index that is missing, exactly |
| Verify.FirstCompletedIs | internal/downloader/verify.go:153-161 | Which row the map keeps for an index |
| Sorting.SortKeys | internal/downloader/verify.go:166 | The keys of the map in increasing order, each once |
| Verify.JudgeAll | internal/downloader/verify.go:72-116 | Workers taking parts in any order fill in the same verdicts |
| Verify.VerifyFile | internal/downloader/verify.go:72-145 | OK exactly when every part was fetched and matches its sum (or has none), the sizes add up and the whole sum matches when recorded |
| Verify.OkIsTheFile | internal/downloader/verify.go:72-145 | With the file's sum on record, OK means that the parts put together are the file |
| Verify.OkMeansWhole | internal/downloader/verify.go:72-145 | For parts that may be cut short and sums of what is stored, OK holds exactly when every part came back whole, even without a sum of the file |
| VerifyUpload.PickedAreContiguous | internal/downloader/verify.go:148-173 | A file whose upload job ended completed has a first completed row for every part, so its parts are contiguous |
| VerifyUpload.OkTellsReads | internal/downloader/verify.go:43-145 | For such a file, whatever else ran meanwhile or was done since: OK holds exactly when the file is not empty and none of the reads for the rows that are picked was cut short |
| Tree.UnderIsBelow | internal/server/server.go:1127-1136 | Under the tree invariant a path lies under a folder's path exactly when the row reaches the folder through parent_id |
| Tree.NoCycle | internal/db/db.go:538-574 | Parent chains have no cycles |
| Relocation.NewPathIsFree | internal/server/qol.go:515-523 | No rewritten path of a rename or move meets a current path or another rewritten one, whatever the order |
| Relocation.RelocationKeepsTree | internal/server/qol.go:574-589 | Relocating a subtree to a free place outside itself keeps the tree invariant |
| Catalog.GuardIsExact | internal/server/qol.go:569-573 | The guard rejects exactly the folder itself and its descendants |
| Catalog.NeverTaken | internal/server/qol.go:574-581 | With the target free no single-row rewrite hits the UNIQUE constraint at any point of the loop |
| Catalog.Catalog.RewriteSubtree | internal/server/qol.go:574-581 | The loop ends with every row below the folder rewritten when the target is free; else a row moved exactly when not all were blocked from the start |
| Catalog.Catalog.HandleFileMove | internal/server/qol.go:533-592 | Every answer and the whole new table; the tree invariant survives if and only if the move is not one of a folder onto a trashed row's path with some row free to follow |
| Catalog.Catalog.HandleFileRename | internal/server/qol.go:485-530 | Every answer and the whole new table; the tree invariant survives if and only if the cleaned name is not "/" |
| Catalog.SlashNames | internal/server/qol.go:499 | Cleaning gives "/" exactly for names of nothing but slashes and backslashes |
| Catalog.RenameToSlashes | internal/server/qol.go:499-528 | A concrete tree in which a rename of a root folder to "//" is answered Done |
| Catalog.HalfMovedIsBroken | internal/server/qol.go:574-585 | A folder left behind by its contents breaks the tree |
| Catalog.MoveIntoTrashedNameBreaks | internal/server/qol.go:556-585 | A concrete tree that a move onto a trashed name breaks |
| Catalog.CleanNameIsElement | internal/server/qol.go:499-503 | A cleaned name holds no slash, unless it is "/" itself |
| Catalog.Catalog.HandleCreateFolder | internal/server/server.go:598-656 | Every answer and the whole new table; the tree invariant survives if and only if a folder that is made has an ordinary name and a parent that is a folder |
| Catalog.CreateBreaks | internal/server/server.go:618-656 | Three requests answered Done that leave no tree: the name "..", a parent that is missing, a parent that is a file |
| Catalog.Catalog.HandleDelete | internal/server/server.go:1090-1153 | Exactly the targets and everything below them go, the rest is untouched, and no orphan is left |
| Catalog.Catalog.Subtree | internal/server/server.go:1121-1138 | The prefix test collects exactly the subtree |
| Catalog.Catalog.ZipEntries | internal/downloader/downloader.go:659-684 | A zip export holds exactly the files below the folder, each under its path relative to it, no two under one name |
| Catalog.ListingMatchesPaths | internal/db/db.go:530-574 | Each live row is listed in exactly one folder, the one its path names |
| Uploads.UpsertFile | internal/db/db.go:461-483 | The row that has the path takes over parent, name and kind; else the row is inserted unless its id is in use |
| Uploads.UpsertKeepsTree | internal/db/db.go:461-483 | The tree survives an upsert if and only if the row names the place its path is at and does not make a file of a folder with contents, or its path is new and spells out an ordinary name below a folder or at the root |
| Uploads.EnterUpload | internal/uploader/uploader.go:243-254 | The table after an upload is entered; the tree survives if and only if the path was in use under the parent that is named, or is new and spells out the name below that parent |
| Uploads.UploadInto | internal/server/server.go:688-739 | An upload by form (and a new text file, lines 1019-1057): the tree survives if and only if the name is not "/" and the parent is a folder or none is named |
| Uploads.PlainUploadFits | internal/server/server.go:731-739 | With an ordinary name, a path made from the parent fits the tree exactly when the parent is a folder or none is named, a path in use included |
| Uploads.SlashUploadBreaks | internal/server/server.go:702-739 | A name of slashes only never fits: the path is the folder's own, whose row is moved into itself |
| Catalog.Catalog.RenameFile | internal/db/qol.go:114-119 | The update fails exactly when another row holds the path |
| FastCdc.FastCDC.Split | internal/chunker/fastcdc.go:81-147 | Through a buffer of twice the maximum, for every reader that ends in EOF the chunks are those of the pure recursion if and only if the minimum is below twice the maximum or the whole stream fits the buffer; a failing reader yields its error |
| FastCdc.FastCDC.NextCut | internal/chunker/fastcdc.go:61-79 | The first boundary past the minimum, or as many bytes as are allowed |
| FastCdc.FastCDC.CutIsUnique | internal/chunker/fastcdc.go:61-79 | There is exactly one such cut |
| FastCdc.FastCDC.BufferDecidesCut | internal/chunker/fastcdc.go:88-118 | A full buffer decides the cut of the whole stream behind it |
| FastCdc.FastCDC.SplitKeepsData | internal/chunker/fastcdc.go:81-147 | Chunks concatenate to the input |
| FastCdc.FastCDC.SplitPlaces | internal/chunker/fastcdc.go:81-147 | Indexes and offsets are contiguous, no chunk is empty, and with a minimum below the maximum every chunk but the last is longer than the minimum and none longer than the maximum |
| FastCdc.Window | internal/chunker/fastcdc.go:70-76 | Twenty-four bytes decide the masked hash whatever came before and whatever wrapped |
| FastCdc.BoundaryIsContentDefined | internal/chunker/fastcdc.go:66-76 | Two streams that share those bytes agree on the boundary test wherever their chunks started, whatever their chunkers' sizes |
| FastCdc.Buffer.Fill | internal/chunker/fastcdc.go:89-90 | Topping up keeps what is buffered and unread equal to the rest of the stream |
| FastCdc.Buffer.Shift | internal/chunker/fastcdc.go:117-118 | Shifting drops exactly the bytes cut off |
| FastCdc.InitGearTable | internal/chunker/fastcdc.go:19-25 | The 256 gear values, with 64-bit wraparound |
| FastCdc.NewFastCDC | internal/chunker/fastcdc.go:42-59 | All three sizes for any arguments, and exactly when neighbours come out in order |
| FastCdc.ConstructedIsFaithful | internal/chunker/fastcdc.go:42-59 | For which arguments the chunker splits every stream as the pure recursion does: exactly when the chosen minimum is below twice the chosen maximum |
| FastCdc.ConstructedOutOfOrder | internal/chunker/fastcdc.go:42-59 | A minimum of 100 MiB alone gives a chunker that splits exactly the streams of up to 48 MiB as it should; 22 MiB with a maximum of 21 MiB gives a least chunk above the greatest |
| Polyglot.RoundTrip | internal/crypto/polyglot.go:48-107 | Unwrapping a wrapped payload gives it back if and only if its length fits 32 bits |
| Polyglot.UnwrapEncoded | internal/crypto/polyglot.go:61-107 | Any list of printed chunks and an incomplete tail: the carrier payloads in order, or the data itself in the cases without |
| Polyglot.ParseEncoded | internal/crypto/polyglot.go:61-107 | The parser reads back any list of printed chunks (sections 5.3 and 5.5 of ISO/IEC 15948) and stops at a tail that is no whole chunk |
| Polyglot.UnwrapPNG | internal/crypto/polyglot.go:61-107 | On arbitrary bytes the scan stays in bounds, ends, and finds exactly the payloads |
| Polyglot.WritePNGChunk | internal/crypto/polyglot.go:31-46 | A chunk is appended as length, type, data and checksum |
| Polyglot.WrapPNG | internal/crypto/polyglot.go:48-59 | Magic and the four chunks, in order |
| Polyglot.Uint32RoundTrip | internal/crypto/polyglot.go:33 | Big-endian lengths read back modulo 2^32 |
| PoolSync.SyncIsExact | internal/discord/pool.go:151-266 | A sync that no call fails leaves a pool of exactly max(present, clamp(desired)) channels without duplicates, having created exactly the missing ones, opened ceil(max(0, need - free)/40) categories and put none over max(40, what it held), if and only if, in the listing it starts from, the names of as many next numbers as it needs categories are each free or lead to an unmanaged and empty category, and no two of them are the same up to case |
| PoolOpenings.WellExactlyWhenClear | internal/discord/pool.go:192-222 | Every opening of the loop goes well, judged at the moment it happens, exactly when the names it will ask for are vacant at the start and differ pairwise up to case |
| PoolSync.LongBaseSyncIsNot | internal/discord/pool.go:151-266 | A concrete server, full under a base name of 90 letters, on which a sync for one channel more is not exact |
| PoolSync.SyncPool | internal/discord/pool.go:151-266 | The loop creates each missing channel in the first category with a free place and returns the listed channels of the managed categories and the new ones; when a call fails the server is as it was, or as the loop left it before that call |
| PoolSync.FillUp | internal/discord/pool.go:192-222 | A failing call ends the sync with what was done before it and nothing else |
| PoolSync.BuildManagedCategories | internal/discord/pool.go:98-127 | Base first, then overflow categories by number, each with its count |
| PoolSync.StartTracks | internal/discord/pool.go:65-127 | What a sync starts from agrees with the server: counts are right, ids are distinct, no category carries a higher number |
| PoolSync.PoolIsDistinct | internal/discord/pool.go:228-265 | Which ids the pool holds, none twice |
| Pool.OpensAsFewAsNeeded | internal/discord/pool.go:192-222 | First fit opens a category only when all are full, so as few as can hold the new channels |
| Pool.NoneOverfilled | internal/discord/pool.go:192-222 | No category is filled past 40 and full ones are left alone |
| Pool.NoneOverfilledOnServer | internal/discord/pool.go:192-222 | When each category that is opened is new or found unmanaged and empty, the same holds of the channels on the server |
| Pool.GoodNamesOpenWell | internal/discord/pool.go:192-222 | With names that read back and are not cut, each category that is opened is new |
| Pool.FillTracks | internal/discord/pool.go:185-222 | The counts kept in the loop are those of the server, and overflow numbers follow on from the highest |
| Pool.OpensNew | internal/discord/pool.go:200-210 | A good overflow name is new, so a category of its own is opened, and it reads back as its number |
| Pool.OpeningIs | internal/discord/pool.go:199-222 | What the loop does whatever the overflow name: one channel in the category the cut name leads to, counted as 1, which is right exactly when it was empty; and that category reads back as its number exactly when the name was good |
| Pool.LongBaseOverfills | internal/discord/client.go:703-720 | A base name of exactly 90 bytes: the cut turns the overflow name into the base name and the full base category gets one channel more |
| PoolNames.OverflowNameReadsBack | internal/discord/pool.go:130-145 | An overflow name, uncut, reads back as its number exactly when the base name is not blank, its trailing white space begins with a blank if there is any, and the counter did not wrap round |
| PoolNames.CutNameReadsBack | internal/discord/client.go:703-706 | Trimmed and cut to 90 bytes as the server holds it, it reads back as its number exactly when it reads back uncut and is no longer than that |
| PoolNames.TenthCategoryIsCut | internal/discord/client.go:703-706 | A base name of 88 letters: the tenth category is opened as "<base> 1", which is no overflow name |
| Health.FileHealth | internal/server/qol.go:42-69 | The per-file summary |
| Health.BulkChunkHealth | internal/db/db.go:1031-1111 | For any id list and any batch size: each file's rows gathered once for every batch that names it |
| Health.BulkIsSingle | internal/db/db.go:1096-1109 | The batched summary is the per-file one exactly when the file is named in one batch only or has nothing stored |
| Health.DistinctOnce | internal/db/db.go:1047-1062 | A list without duplicates names each file in one batch, wherever it is cut |
| Health.Decorate | internal/server/qol.go:111-151 | Each file of a listing is shown with the summary fileHealth would give |
| Health.StatusIsExact | internal/server/qol.go:61-68 | ok exactly when there are parts and each has a stored copy; empty exactly when nothing is stored; partial in between |
| Health.FilePartsBreakdown | internal/server/qol.go:74-109 | One entry per part in index order, with its copies, servers and size |
| Health.EntryIs | internal/server/qol.go:82-100 | An entry's copies and servers are those of the part's stored rows |
| Health.BreakdownSums | internal/server/qol.go:74-109 | The copies of a breakdown sum to the attachments of the summary |
| Cache.Fifo.Put | internal/downloader/downloader.go:98-123 | Admits, evicts the oldest when full, overwrites in place; the map always holds the last values of the reference queue |
| Cache.Fifo.Lookup | internal/downloader/downloader.go:88-96 | A hit returns the last value put, and a key hits exactly when it is one of the last admissions |
| Cache.QueueIsDistinct | internal/server/thumb.go:57-69 | The order list never holds a key twice |
| Cache.StaysForCap | internal/server/thumb.go:60-66 | A key just admitted stays while fewer than cap further keys are admitted |
| Cache.GetThumb | internal/server/thumb.go:47-55 | A thumbnail is served only with the file's modification time and within the hour |
| Cache.PutCachedChunk | internal/downloader/downloader.go:98-101 | Empty parts are left out |
| Cache.KeyInjective | internal/downloader/downloader.go:155 | A cache key tells file and index apart even when ids hold colons |
| Cache.FetchChunk | internal/downloader/downloader.go:154-180 | With the cache the answer is the one without it wherever that one succeeds, and never a made-up one |

## Left out

- Recovery.DeleteSpares: takes every Discord deletion to succeed and one file to be deleted; rows of a file deleted while its own upload runs are not followed.
- Recovery.FetchSingleChunk: the PNG is taken as already unwrapped (Polyglot.RoundTrip says when that is harmless), and the query for rows with the sum is taken to answer.
- RoundTrip.UploadThenDownload: fetches are those of fetchSingleChunk for each row, with nothing cached (Cache.FetchChunk covers the cache and the fallback to replicas); deletions are not among the steps of the run (Recovery.DeleteSpares covers one), and re-uploads of a path, which keep old rows, are left out.
- UploadJobs.OverForGood: completed_at, which the same request clears, is not modelled.
- Uploads.UploadInto: the checks before the row is entered (storage set up, staging, channels) may refuse the upload and are left out, and so is the second upsert at the end of a job, which writes the row as it was at its start (Uploads.UpsertKeepsTree says of any table when that keeps the tree).
- Assemble.OverForGood: a restart, which drops the goroutines of a download, is not among its steps.
- Health.Decorate: the rows are the same for all of its queries, and each query answers (a bulk query that fails falls back to the per-file summaries).
- PoolSync.SyncIsExact: is stated for a server nobody else changes meanwhile and with every webhook to be had.
- PoolSync.SyncPool: a failing call is taken to leave the server as it was, whereas a channel whose webhook fails stays behind; new channels carry no running number in their names and the pool lists them in order of creation, not sorted by id; the server is a value, so two syncs at once are not modelled.
- Cache.FetchChunk: replicas of a part are taken to agree where they open, which Recovery.EveryPartOpens shows of rows read whole; concurrent calls are taken one at a time, as the mutexes make each cache access.
- Catalog.Catalog.HandleDelete: shares, messages and the progress job are not modelled, and the order of GetAllFiles, on which nothing depends, is not either.
- Catalog.Catalog.HandleFileMove: the table is one value, so two handlers changing it at once are not modelled.
- FastCdc.FastCDC.Split: the SHA-256 field of a chunk is left out.
- HttpRange.WellFormedRange: headers that are no single well-formed range are covered by HttpRange.ContentLengthIsExact only.
- Polyglot.WrapPNG: the CRC is a parameter; the parser never checks it.
- Layout.PartSizeFits: the part count is the integer ceiling; the source computes it in floating point.
- VerifyUpload.OkTellsReads: the fetches are those of fetchSingleChunk for the rows that are picked, with nothing cached; a replica of a picked row is never looked at, as the row itself opens unless it has no bytes.
- Catalog.Catalog.RenameFile: fails on the UNIQUE constraint only; a statement that the database refuses for another reason, after which the loop goes on with the next row, is left out.
- Ranges.FullDelivers: a download of one part writes it without the pipeline, which sends the same bytes.
- Verify.VerifyFile: cancellation, which returns an error without a report, is left out.
- Assemble.CompletedIsTheFile: the sum check after the download is left out; the file is open for writing only, so the check never takes place.
- poolDesired, speed, ETA and progress figures: floating point for display.
- Discord HTTP calls, retries, webhooks, SQL text, Postgres: calls become steps that succeed or fail, tables become maps.
- AES-GCM, SHA-256 and Argon2 internals, key rotation, sessions, tokens, access modes, shares, settings.
- Catalog Restore, which drops flags and so is no inverse of Sync, and handleFileUpdate, which no route reaches.
- CompletedChunks of a job, a counter for display that the gate does not use.
- Frontend, directory walking, staging of temporary files, telemetry.
