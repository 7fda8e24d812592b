# The TrueBlocks index: scraper, query and accounting

A Dafny model of the parts of TrueBlocks that keep and read the index of appearances, with proofs over all
inputs and all runs.

* **Scraper** (`Chain`, `Pipeline`, `Soundness`, `Runs`, `Recovery`, `Chunking`, `Growth`, `Grid`,
  `Scraper`, `Exits`, `Scenarios`, `Window`, `Control`). `blockScrape` moves appearance records from ripe files to a temporary
  stage, to the stage, to finalized chunks. `Scraper.Consolidator` is the code, with its loops and updates;
  each of its methods is proved equal to a function on the state of the disk (`Pipeline`), and the theorems
  are about runs of those functions. A run is any sequence of passes, abrupt exits and restarts. In each pass
  blaze may fail or leave gaps, files may fail to open, `acctExport` may be running, the process may die of a
  division by zero, and every poll of `shouldQuit` has its own answer. `trace` records the disk after every change
  outside a locked section, so an abrupt exit is a stop at any entry of the trace.
* **Query** (`Bloom`, `Index`, `Monitors`, `Freshening`, `Interrupted`, `Inputs`, `Freshener`, `EndToEnd`, `Order`,
  `Store`).
  `acctExport` finds the chunks of an address by bloom filter and binary search and appends its rows to monitor
  files, steered by watermark files.
* **Accounting and export** (`Ledger`, `Clean`, `Paging`).

The chain is an arbitrary function `apps` from block numbers to records, with at least one record per block
and each record carrying its block's number (`WellFormedChain`). What blaze leaves in the ripe folder are
files of this chain in ascending order from the block it was told to start at, with or without gaps
(`BlazeHolds`). MAX_ROWS, SNAP_TO_GRID_BLKS and FIRST_SNAP_TO_GRID are parameters; MAX_ROWS is at least 12, as both
its values, 2000000 and 6000, are.

## Where the code departs from its comments

Each is proved as an exact condition and shown at an input: for the scraper runs from the block-zero index, with the
configurations the program has, for the query published chunks.

* `temp.txt` is opened for appending and never cleared first. An abrupt exit (the third control+C calls `exit`)
  between append and rename leaves it, and the next pass stages the same records twice
  (`StagingSoundIffTempEmpty`, `KillCorrupts`). The comment at handle_block_scrape.cpp:136-140 promises
  that stopping abruptly does not corrupt. With `temp.txt` empty it does hold (`EveryRunConserves`).
* `getBlockProgress` never answers NOPOS, and the constructor reads the position before it truncates
  `000000000-temp.txt`. After the stage was drained, a left-over temporary file therefore reads as
  "block 0 is staged". If nothing is ripe then, the pass creates an empty stage `000000000.txt` and no later
  pass ever adds a block (`GetsStuckIff`, `StuckForever`, `StuckFromGenesis`).
* The index writer takes a remainder by a twelfth of the number of lines (indexing.cpp:106 and 120), so a chunk of
  fewer than twelve lines ends the process before it is written. Only the last chunk of a grid step can be that
  short (`OnlyLastIsShort`). The grid block then stays on the stage.
* A request to quit between staging a grid block and draining it, or such a short chunk, skips the snap (`SnapIff`,
  `QuitSkipsSnap`, `ShortChunkSkipsSnap`), and so does an abrupt exit in between (`EventSnapsIff`).
* The exit on a malformed line leaves the section locked, and no later request to quit is heard. It is reached exactly
  if no quit and no short piece comes first, in whichever piece the line is (`StaysLockedIff`, `LaterLineLocks`).
* `.last.txt` holds the first block not yet visited, but query_final.cpp:39 compares it with `<` to the first
  block of a chunk, as if it were the last block visited. The chunk right after the watermark is
  skipped: a monitor in production gets every other new chunk, and one that is freshened after every new chunk
  gets nothing (`ProductionAlternates`, `ProductionCompleteIff`, `OneNewChunkIsIgnored`, `NextChunkIsLost`).
  Only the first freshen of a new monitor is complete (`NewMonitorComplete`). No row is ever appended twice by
  freshens that finish (`EveryRunAtMostOnce`), and exactly which are lost is known (`EveryRunCompleteIff`, `FreshensLose`).
* A visit that fails midway is followed by the move to production all the same. Running again duplicates the rows
  of production monitors that had been written (`RerunRightIff`, `RerunDoubles`). A monitor that was on the stage has become one in
  production: it skips the failed chunk and then every second one, or, if the failed chunk was the first it was
  offered, takes that chunk again and skips the next (`StagedRerunRightIff`, `StagedRerunLoses`).
* Control+C ends `acctExport` at once, whether a section is locked or not. A monitor on the stage starts over at the
  next run; a production monitor gets rows twice if the exit fell between its append and its watermark, and a monitor
  on the stage if it fell between the moves of its two files (`ExitRightIff`, `MoveExitRightIff`, `RerunDoubles`, `MoveExitDoubles`).
* The loop over the monitors also polls for a request to quit. In `acctExport` nothing sets that flag before the
  loop: its handler exits instead, and the two calls in pinlib.cpp:325 and 341 follow a failed download, after which
  the visit fails. If it were set, rows would be lost (`QuitRightIff`, `StagedQuitRightIff`,
  `QuitLoses`, `StagedQuitLoses`).
* Cleaning a monitor loses the appearance (0, 0) (`LosslessIff`, `OriginIsLost`).
* A window wraps around if and only if first plus maximum reaches 2^64: with the default maximum every first
  record above 0 selects nothing (`LoadDefault`). The same holds for the blocks handed to blaze (`PlanBlaze`,
  `WrapEscapes`).
* `nTotalHits` equals the records appended even when visits fail midway (`ProcessFreshen`).

## Model

| member | source | states |
|---|---|---|
| `Soundness.StageEffect` | src/apps/blockScrape/handle_stage_chunks.cpp:24-84 | Staging either finds the stage current and changes nothing, or succeeds with the stage replaced by temp.txt, old stage and temporary stage in that order, or fails with stage, chunks and temporary stage as they were. |
| `Soundness.StageKeeps` | src/apps/blockScrape/handle_stage_chunks.cpp:44-84 | In every state it passes through, the disk is sound and the frontier does not fall; temp.txt is empty afterwards; success moves the frontier exactly to the last block copied. |
| `Soundness.WriteKeeps` | src/apps/blockScrape/handle_write_chunks.cpp:10-140 | On a sound disk, for any chunk size, with or without `once` and wherever the user quits, writing chunks fails only by the death of the process at a piece of fewer than twelve lines, keeps every intermediate state sound and leaves the frontier where it was. |
| `Soundness.CutParts` | src/apps/blockScrape/handle_write_chunks.cpp:69-129 | Cutting a stage at the end of a block gives a chunk that continues the tiling and a rest that continues the chunk; the frontier is unchanged. |
| `Soundness.SnapKeeps` | src/apps/blockScrape/consolidator.cpp:103-142 | The grid step keeps every intermediate state sound and temp.txt empty, whichever way it leaves. |
| `Soundness.CopyAllKeeps` | src/apps/blockScrape/consolidator.cpp:71-147 | So does the copy of any ripe folder, with gaps, unreadable files, grid blocks and requests to quit. |
| `Soundness.BeginCopying` | src/apps/blockScrape/consolidator.cpp:10-26 | A pass starts at the frontier exactly if the staging folder's last file names the block before it; otherwise it takes itself to be at block 0. |
| `Soundness.ConsolidationKeeps` | src/apps/blockScrape/handle_block_scrape.cpp:165-198 | From the copy to the end, every state of a pass is sound. |
| `Soundness.ScrapeKeeps` | src/apps/blockScrape/handle_block_scrape.cpp:11-199 | One whole pass, whatever fails in it, goes only through sound states and never behind the frontier it began at, and leaves temp.txt empty. |
| `Runs.EveryRunIsSound` | src/apps/blockScrape/handle_block_scrape.cpp:136-198 | Every run of passes, restarts and abrupt exits that do not leave temp.txt keeps the disk sound, and the frontier never falls. |
| `Runs.TilesTheChain` | src/apps/blockScrape/handle_write_chunks.cpp:84-113 | On a sound disk each chunk holds exactly the records of the blocks in its name and begins one after the chunk before it ends, the first at 0. |
| `Runs.ChunkRows` | src/apps/blockScrape/handle_write_chunks.cpp:72-93 | All chunks together hold each record from block 0 to the last chunk's end once. |
| `Runs.Conservation` | src/apps/blockScrape/handle_write_chunks.cpp:69-126 | On a sound disk, chunks plus stage hold each record of the blocks before the frontier exactly once and nothing else. |
| `Runs.GenesisSound` | src/apps/blockScrape/options.cpp:211-233 | The index built for block zero is sound with frontier 1. |
| `Runs.EveryRunConserves` | src/apps/blockScrape/handle_block_scrape.cpp:136-198 | From the block-zero index, after every such run, chunks tile the chain and chunks plus stage are, as a multiset, the records of blocks 0 to the frontier. |
| `Runs.EveryVisibleStateConserves` | src/apps/blockScrape/handle_block_scrape.cpp:136-147 | The same holds of every state that an abrupt exit from a pass can leave behind. |
| `Recovery.StagingSoundIffTempEmpty` | src/apps/blockScrape/handle_stage_chunks.cpp:47-82 | Staging leaves a sound disk if and only if temp.txt was empty before. |
| `Recovery.GetsStuckIff` | src/apps/blockScrape/consolidator.cpp:15-25 | A pass or an abrupt exit leaves the scraper stuck if and only if the pass begins with no stage, a left-over temporary file and chunks beyond block 0, gets past blaze with nothing ripe, and opens its files; an abrupt exit, only right after the rename. |
| `Recovery.StuckForever` | src/apps/blockScrape/consolidator.cpp:82-86 | Once stuck, no run changes stage or chunks again. |
| `Recovery.StuckPass` | src/apps/blockScrape/handle_stage_chunks.cpp:36-42 | Nor does any state within a pass. |
| `Recovery.StraightPass` | src/apps/blockScrape/handle_stage_chunks.cpp:32-33 | A pass that starts at the frontier has the stage named by its last block in every state. |
| `Recovery.CopyStopsAtGap` | src/apps/blockScrape/consolidator.cpp:80-101 | If a file out of sequence comes before any grid block, the copy ends there or before and touches only ripe folder and temporary stage. |
| `Recovery.GapHeals` | src/apps/blockScrape/handle_block_scrape.cpp:165-175 | Such a pass ends with ripe folder and temporary stage gone and all else unchanged; blaze next starts at the frontier, so no block is skipped; the next copy starts there too unless the scraper is stuck. |
| `Recovery.HealthyCopy` | src/apps/blockScrape/consolidator.cpp:95-145 | An undisturbed copy of a ripe folder that is contiguous up to its end or its first grid block gets there. |
| `Recovery.HealthyPassAdvances` | src/apps/blockScrape/handle_block_scrape.cpp:165-198 | An undisturbed pass over such a ripe folder moves the frontier by exactly the number of blocks up to its end or its first grid block. |
| `Chunking.WriteCuts` | src/apps/blockScrape/handle_write_chunks.cpp:18-136 | The loop cuts a block-ordered stage, malformed lines included, into pieces, one chunk per piece in order. |
| `Chunking.WritePartitions` | src/apps/blockScrape/handle_write_chunks.cpp:37-126 | However the call ends: pieces and remaining stage joined are the original stage; no block is split between two pieces or a piece and the stage; every piece written is free of malformed lines and has at least twelve; called with MAX_ROWS and not `once`, each has at least MAX_ROWS records, and those from number MAX_ROWS on are of one block. |
| `Chunking.ConsolidationBound` | src/apps/blockScrape/handle_consolidate_chunks.cpp:15-36 | If no one quits, at most MAX_ROWS records stay staged. |
| `Chunking.DrainsIff` | src/apps/blockScrape/handle_write_chunks.cpp:131-135 | Called with `once`, the loop drains the stage if and only if none of its polls is answered with a quit and no piece has fewer than twelve lines. |
| `Chunking.OnlyLastIsShort` | src/apps/blockScrape/consolidator.cpp:128-135 | With the chunk sizes of the grid step, no piece is too short if and only if the last one is not. |
| `Chunking.StaysLockedIff` | src/apps/blockScrape/handle_write_chunks.cpp:18-136 | For any chunk size, with or without `once`: the call leaves one lock too many if and only if a piece with a malformed line comes before a quit that is heard, the end of the work and a piece of fewer than twelve lines; then the pieces before it are in chunks, the rest stays staged, and no later request to quit is heard. |
| `Chunking.WriteEnds` | src/apps/blockScrape/handle_write_chunks.cpp:18-136 | Success, locks and life of the process after the call are what the staged lines and the polls say. |
| `Growth.ScrapeExtends` | src/apps/blockScrape/handle_write_chunks.cpp:83-113 | In no state of a pass has a finalized chunk been changed or removed, or one of fewer than twelve rows been added. |
| `Growth.EveryRunExtends` | src/apps/blockScrape/handle_block_scrape.cpp:136-198 | Over every run, even one that leaves temp.txt behind or gets stuck, the chunks before are the first chunks after, and every new one has at least twelve rows. |
| `Pipeline.EndOfBlock` | src/apps/blockScrape/handle_write_chunks.cpp:37-50 | The position found is the end of the run of equal blocks that begins at the given record. |
| `Pipeline.BreakAt` | src/apps/blockScrape/handle_write_chunks.cpp:52-58 | The break is a record after which the block changes or the stage ends. |
| `Pipeline.CutOnce` | src/apps/blockScrape/handle_write_chunks.cpp:69-131 | Every cut that succeeds on a non-empty stage leaves it strictly shorter: the measure with which the loop terminates. |
| `Grid.WriteSnaps` | src/apps/blockScrape/handle_write_chunks.cpp:18-135 | As long as only the last staged block may be on the grid, no chunk that is cut holds a grid block and a later block. |
| `Grid.SnapIff` | src/apps/blockScrape/consolidator.cpp:114-135 | A grid step leaves no grid block on the stage if and only if neither the poll after staging nor a poll of the drain is answered with a quit and no piece of the drain has fewer than twelve lines. |
| `Grid.QuietCalmIff` | src/apps/blockScrape/consolidator.cpp:122-123 | For a pass that hears no request to quit, no grid step is cut short if and only if no piece of its grid steps is too short. |
| `Grid.ScrapeTidy` | src/apps/blockScrape/handle_block_scrape.cpp:79-198 | From a disk without a staged grid block, every state of a pass, whatever stops it, has only chunks that end at grid blocks and at most the last staged block on the grid. |
| `Grid.EventSnapsIff` | src/apps/blockScrape/handle_block_scrape.cpp:136-147 | After any pass, abrupt exit or restart from such a disk, all chunks end at grid blocks, and the disk is such a one again if and only if the last staged block is not on the grid. |
| `Grid.EveryCalmRunSnaps` | src/apps/blockScrape/consolidator.cpp:103-142 | In every run in which no grid step is cut short by a quit or a short piece and no abrupt exit leaves a grid block last on the stage, whatever else fails, quits or exits, no finalized chunk holds a grid block together with a later block. |
| `Scraper.FindBreak` | src/apps/blockScrape/handle_write_chunks.cpp:37-58 | The search loop finds the break. |
| `Scraper.TakeLines` | src/apps/blockScrape/handle_write_chunks.cpp:70-81 | The lines up to the break are taken exactly if all have two tabs. |
| `Scraper.Consolidator.constructor` | src/apps/blockScrape/consolidator.cpp:10-26 | The position is read before the temporary file is truncated. |
| `Scraper.Consolidator.ShouldQuit` | src/libs/utillib/database.cpp:375-394 | No quit is reported while a section is locked. |
| `Scraper.Consolidator.AppendTemp` | src/apps/blockScrape/consolidator.cpp:51-68 | The output is created even if the input cannot be opened. |
| `Scraper.Consolidator.StageChunks` | src/apps/blockScrape/handle_stage_chunks.cpp:10-85 | The method computes the staging function the theorems are about. |
| `Scraper.Consolidator.CutChunk` | src/apps/blockScrape/handle_write_chunks.cpp:19-132 | The locked section is one cut, or the end of the process if the index writer divides by zero. |
| `Scraper.Consolidator.WriteChunks` | src/apps/blockScrape/handle_write_chunks.cpp:10-140 | The loop over `once`, `chunkSize` and `nRecords` computes the recursive form. |
| `Scraper.Consolidator.ConsolidateChunks` | src/apps/blockScrape/handle_consolidate_chunks.cpp:10-37 | Nothing happens up to MAX_ROWS records, else chunks are written. |
| `Scraper.Consolidator.CleanUp` | src/apps/blockScrape/handle_block_scrape.cpp:170-173 | Ripe folder and temporary stage are removed, the rest stays. |
| `Scraper.Consolidator.CopyRipeToStage` | src/apps/blockScrape/consolidator.cpp:71-147 | Sequence check, locked copy and grid step of one ripe file. |
| `Scraper.Consolidator.CopyAllRipe` | src/apps/blockScrape/handle_block_scrape.cpp:165-176 | The visit of the ripe folder in order, stopping at the first refusal. |
| `Scraper.Consolidator.Pass` | src/apps/blockScrape/handle_block_scrape.cpp:79-198 | The loop-and-update form of a pass is `PassFrom`; what that leaves at each exit is stated in the next nine rows. |
| `Exits.NotStarted` | src/apps/blockScrape/handle_block_scrape.cpp:79-90 | If the index is ahead of the chain or the user quits before blaze, the pass fails, only the temporary stage is truncated, and blaze starts behind the same ripe files the next time. |
| `Exits.BlazeFails` | src/apps/blockScrape/handle_block_scrape.cpp:107-116 | If blaze fails, the ripe folder is empty, stage, chunks and temp.txt are as before, and blaze starts at the frontier the next time, whatever it had left. |
| `Exits.NotCopied` | src/apps/blockScrape/handle_block_scrape.cpp:126-158 | If acctExport runs or the temporary stage is not open, everything blaze left stays ripe, and it starts behind that the next time. |
| `Exits.CopyOkIff` | src/apps/blockScrape/consolidator.cpp:71-101 | Away from the grid the copy reaches its end if and only if the files are in sequence, all can be opened and no quit is heard; it touches nothing but ripe folder and temporary stage. |
| `Exits.CopyRefused` | src/apps/blockScrape/handle_block_scrape.cpp:165-175 | Any copy away from the grid that does not reach its end fails the pass, with ripe folder and temporary stage removed and nothing else changed, and blaze starts at the frontier. |
| `Exits.StagingFails` | src/apps/blockScrape/handle_block_scrape.cpp:184-198 | If staging fails, the rest is dropped, stage and chunks stay, and the pass counts as completed exactly if no quit is heard. |
| `Exits.QuitBeforeChunks` | src/apps/blockScrape/handle_block_scrape.cpp:190-192 | A quit heard after staging fails the pass and leaves the disk as staged. |
| `Exits.ChunksWritten` | src/apps/blockScrape/handle_consolidate_chunks.cpp:10-37 | Without a quit, at most MAX_ROWS records stay staged, and nothing is cut if and only if there were no more than that. |
| `Exits.OnGridIs` | src/apps/blockScrape/consolidator.cpp:103-103 | Grid blocks are the multiples of SNAP_TO_GRID_BLKS above FIRST_SNAP_TO_GRID. |
| `Scraper.ScrapeBlocks` | src/apps/blockScrape/handle_block_scrape.cpp:11-199 | The imperative pass from start to end: sound again, frontier not lower, every record up to it kept exactly once. |
| `Scenarios.KillCorrupts` | src/libs/utillib/database.cpp:414-425 | For every configuration, a run from the block-zero index in which an abrupt exit between append and rename makes the next pass stage block 1 twice. |
| `Scenarios.StuckFromGenesis` | src/apps/blockScrape/handle_block_scrape.cpp:123-129 | For every configuration with block 1 off the grid, three undisturbed passes from the block-zero index after which the scraper is stuck. |
| `Scenarios.QuitSkipsSnap` | src/apps/blockScrape/consolidator.cpp:121-123 | For every configuration with a first grid block, a run from the block-zero index with one quit right after that block is staged, after which a chunk holds it together with the next block. |
| `Scenarios.ShortChunkSkipsSnap` | src/libs/acctlib/indexing.cpp:105-123 | The same with no quit, no failure and no signal from outside: the grid block has eleven appearances and the index writer dies of them. |
| `Scenarios.SourceConfigs` | src/apps/blockScrape/consolidator.h:44-46 | Both configurations of the program have a first grid block, 30 and 2300000. |
| `Scenarios.LaterLineLocks` | src/apps/blockScrape/handle_write_chunks.cpp:72-79 | For every configuration with blocks 1 and 2 off the grid, two undisturbed passes from the block-zero index after which a malformed line in the second piece has left the section locked, with the first piece in a chunk. |
| `Window.PlanBlaze` | src/apps/blockScrape/handle_block_scrape.cpp:28-98 | In 64-bit arithmetic: blaze is launched exactly if the start is not beyond the head, and then start plus count stays within the head if and only if start plus the wanted count is below 2^64. |
| `Window.WrapEscapes` | src/apps/blockScrape/handle_block_scrape.cpp:58-62 | On every chain there is a block count a user can give with which the range handed to blaze runs past the head. |
| `Control.Options.GetCurrentState` | src/apps/blockScrape/options.cpp:292-306 | The state is that of the control file. |
| `Control.Options.ChangeState` | src/apps/blockScrape/options.cpp:309-369 | For every control file and mode: a stopped scraper runs, with result false, exactly on "run" or nothing; a running one pauses exactly on "pause"; a paused one runs exactly on "restart" or "run"; either stops exactly on "quit"; nothing else changes the file, and the state set is the one a re-read gives. |
| `Control.StoppedBetween` | src/apps/blockScrape/options.cpp:327-361 | Between a state that is not stopped and a later one that is, some event stopped it. |
| `Control.EntriesAreSeparated` | src/apps/blockScrape/options.cpp:163-168 | Between two invocations that enter scraping there is a `quit` or a control+C of the scraper that stopped it. |
| `Bloom.LightedBits` | src/libs/etherlib/bloom.cpp:58-64 | Lighting a bit adds that bit, and no other, to the lit bits of the byte array. |
| `Bloom.BitArray.LightBit` | src/libs/etherlib/bloom.cpp:58-64 | The same, in place: the byte at index length - bit / 8 - 1 is or-ed with `1 << (bit % 8)`, and no other byte changes. |
| `Bloom.BitArray.LightAll` | src/libs/etherlib/bloom.cpp:135-137 | Lighting the bits of an address adds exactly these. |
| `Bloom.BitArray.IsInBloom` | src/libs/etherlib/bloom.cpp:106-111 | The test is inclusion of the lit bits. |
| `Bloom.AddrBits` | src/libs/etherlib/bloom.cpp:113-126 | An address has five bits within the width of the filter. |
| `Index.AddrBitsAreWords` | src/libs/etherlib/bloom.cpp:113-126 | The bits are the bytes 0-3, 4-7, 8-11, 12-15 and 16-19 of the address as numbers, modulo 1048576. |
| `Bloom.AddToSet` | src/libs/etherlib/bloom.cpp:129-144 | The bytes of some filter have all bits of the address lit afterwards, and no filter loses a bit; only the last filter changes, and an empty one follows it exactly if it then holds more than 50000 addresses. |
| `Bloom.Insert` | src/libs/etherlib/bloom.cpp:135-138 | The bytes of a filter gain exactly the bits of the address. |
| `Bloom.GrownMember` | src/libs/etherlib/bloom.cpp:129-144 | Members stay members: no false negatives however many addresses follow. |
| `Bloom.IsMember` | src/libs/etherlib/bloom.cpp:147-153 | True exactly if the bytes of some filter have all bits of the address lit. |
| `Index.FindAddresses` | src/libs/etherlib/appearance.cpp:411-420 | The byte-wise comparison is the order of the addresses as numbers. |
| `Index.BSearch` | src/apps/acctExport/query_final.cpp:146-150 | Finds the address exactly if the table has it. |
| `Index.SliceIsScan` | src/apps/acctExport/query_final.cpp:156-162 | Rows offset to offset plus count are what a scan of all lines for the address gives, in order. |
| `Index.AbsentIsEmpty` | src/apps/acctExport/query_final.cpp:169-171 | An address without entry has no line. |
| `Index.Lookup` | src/apps/acctExport/query_final.cpp:146-171 | Search and slice equal the plain scan for every address, found or not. |
| `Index.WriteIndexAsBinary` | src/libs/acctlib/indexing.cpp:90-179 | From sorted lines, if there are at least twelve: a table with ascending distinct addresses, running offsets and all rows, and filters that contain every address of every line. With one to eleven the process dies; with none the one entry has no address. |
| `Monitors.PublishedIsFaithful` | src/apps/acctExport/query_final.cpp:73-95 | If the filters miss an address, its scan is empty, so the bloom test never loses a row. |
| `Monitors.VisitAllMark` | src/libs/acctlib/monitor.cpp:333-336 | The watermark after a visit of any chunks depends on the chunks' ranges alone. |
| `Monitors.ProductionRows` | src/apps/acctExport/query_final.cpp:37-41 | A production monitor gains exactly the rows of the chunks that its moving watermark admits. |
| `Monitors.StagingRows` | src/apps/acctExport/query_final.cpp:164-176 | A monitor on the stage gains the rows of the chunks its fixed watermark admits, and its production files stay untouched. |
| `Freshening.NewVisitsAll` | src/apps/acctExport/query_final.cpp:38-41 | A monitor with watermark 0 on the stage is offered every chunk. |
| `Freshening.StagingMissesOne` | src/apps/acctExport/query_final.cpp:38-41 | One on the stage whose watermark is the end of k chunks is offered exactly the chunks after the next. |
| `Freshening.ProductionAlternates` | src/apps/acctExport/query_final.cpp:38-41 | One in production is offered exactly every second of the chunks after its watermark. |
| `Freshening.CompleteIffNoneMissed` | src/apps/acctExport/query_final.cpp:37-41 | The rows appended are all new rows if and only if no chunk with a row of the address is skipped. |
| `Freshening.ProductionCompleteIff` | src/apps/acctExport/query_final.cpp:37-41 | A freshen of a production monitor is complete if and only if the address has no row in the chunks at even distance from its watermark. |
| `Inputs.ProductionLoses` | src/apps/acctExport/query_final.cpp:37-41 | Two chunks and a production monitor that misses the rows of the second. |
| `Freshening.NewMonitorComplete` | src/apps/acctExport/query_freshen.cpp:29-33 | The first freshen gives a new monitor every row of every chunk in order, and the watermark after the last. |
| `Freshening.FreshensHold` | src/apps/acctExport/query_freshen.cpp:9-37 | Over any number of freshens and growing chunks, a monitor holds the rows of an ascending list of distinct chunks, and rows and watermark stay in step. |
| `Freshening.EveryRunAtMostOnce` | src/apps/acctExport/query_freshen.cpp:9-37 | From a new monitor, over any such freshens, no chunk is appended twice or out of order, and those appended are exactly the ones that the watermark rule offers. |
| `Freshening.EveryRunCompleteIff` | src/apps/acctExport/query_final.cpp:37-41 | After any such freshens the monitor has all its rows if and only if it has none in the chunks that no freshen offered to it. |
| `Inputs.FreshensLose` | src/apps/acctExport/query_final.cpp:37-41 | Two chunks and two freshens of a new monitor that has no row of the second chunk. |
| `Freshening.RowsComplete` | src/apps/acctExport/query_final.cpp:156-168 | The rows of ascending chunks are all rows if and only if no other chunk has any. |
| `Freshening.NextChunkIsLost` | src/apps/acctExport/query_final.cpp:39-39 | The chunk at the watermark is never appended by any later freshens. |
| `Freshening.OneNewChunkIsIgnored` | src/apps/acctExport/query_final.cpp:39-39 | A freshen with exactly one new chunk adds nothing, although all new rows are in that chunk. |
| `Interrupted.RerunRightIff` | src/apps/acctExport/query_final.cpp:109-176 | A freshen that stops at some chunk and is run again gives a production monitor the rows of an uninterrupted one if and only if its rows of that chunk had not been written or there are none. |
| `Inputs.RerunDoubles` | src/apps/acctExport/query_final.cpp:109-176 | Three chunks on which running again, after a failure or an exit, doubles the rows of a production monitor. |
| `Interrupted.StagedRerunRightIff` | src/libs/acctlib/monitor.cpp:426-450 | The same for a monitor that was on the stage and is moved to production by the failed freshen: if earlier chunks had been offered, the rows of the failed chunk must have been written or not exist, and with a binary file those at even distance behind it must have none; if it was the first chunk offered, all is well without a binary file, else no row of it may have been written and those at odd distance must have none. |
| `Inputs.StagedRerunLoses` | src/apps/acctExport/query_final.cpp:109-142 | Four chunks with which the monitor is right after the failure and wrong after running again. |
| `Interrupted.ExitRightIff` | src/libs/utillib/database.cpp:428-432 | Wherever acctExport exits during the visits, running again is right for a monitor that was on the stage, and for one in production if and only if the exit did not fall between its append and its watermark or it has no row in that chunk. |
| `Interrupted.FreshenTwice` | src/apps/acctExport/query_freshen.cpp:29-33 | If it exits after the files were moved, running again adds nothing. |
| `Interrupted.MoveExitRightIff` | src/libs/acctlib/monitor.cpp:440-442 | If it exits between the moves of the two files, running again is right if and only if there is no binary file or no row in the first chunk offered and those at even distance behind it. |
| `Inputs.MoveExitDoubles` | src/libs/acctlib/monitor.cpp:440-442 | A chunk and a new monitor whose rows an exit between the moves doubles. |
| `Interrupted.QuitRightIff` | src/apps/acctExport/query_final.cpp:109-176 | A quit in the loop moves all watermarks; running again is right for a production monitor if and only if its rows of the chunk had been written or there are none. |
| `Inputs.QuitLoses` | src/apps/acctExport/query_final.cpp:109-176 | Three chunks on which a quit before its turn loses the rows of a production monitor. |
| `Interrupted.StagedQuitRightIff` | src/apps/acctExport/query_final.cpp:109-176 | For a monitor on the stage the next chunk must have no row either, nor, with a binary file, those at even distance behind it. |
| `Inputs.StagedQuitLoses` | src/apps/acctExport/query_final.cpp:109-176 | Two chunks on which a quit loses rows of a monitor on the stage. |
| `Freshener.Visitor.AppendHits` | src/apps/acctExport/query_final.cpp:110-172 | One turn of the loop appends what a scan gives to that monitor only if its bloom hit, and counts its rows, a positive if it has any and a false positive if not. |
| `Freshener.Visitor.OpenForWriting` | src/libs/acctlib/monitor.cpp:314-321 | Opening creates the file and adds no record. |
| `Freshener.Visitor.TestBlooms` | src/apps/acctExport/query_final.cpp:74-84 | The hit map holds exactly the possible monitors that are members. |
| `Freshener.Visitor.AppendAll` | src/apps/acctExport/query_final.cpp:109-173 | Which monitors are written, which only have their file created and which are untouched, wherever the loop is quit or fails to open a monitor or the chunk. |
| `Freshener.AppendedIs` | src/apps/acctExport/query_final.cpp:98-173 | Who is written: no one if the chunk cannot be fetched; every hit if the loop is not cut short; the hits before a quit or before a monitor that cannot be opened; and if the chunk cannot be read none, but the first hit has its file created. |
| `Freshener.Visitor.AdvanceAll` | src/apps/acctExport/query_final.cpp:175-176 | The watermark of every possible monitor moves, and no other file. |
| `Freshener.Visitor.VisitBinaryFile` | src/apps/acctExport/query_final.cpp:63-193 | The files of all monitors after the visit of a chunk, in every outcome, with the counters; it returns true if and only if no filter hits, or the chunk was fetched, nothing in the loop failed and no quit is heard. |
| `Freshener.Visitor.FindPossibles` | src/apps/acctExport/query_final.cpp:37-41 | The possible monitors are selected. |
| `Freshener.PossiblesAscend` | src/apps/acctExport/query_final.cpp:37-41 | They are taken in list order. |
| `Freshener.Visitor.VisitFinalIndexFile` | src/apps/acctExport/query_final.cpp:9-60 | A chunk outside the range or without possible monitors is counted as skipped and changes nothing, any other is counted as checked; the run goes on if and only if no quit is heard and the visit, if there was one, did not fail. |
| `Freshener.Visitor.VisitAllFiles` | src/apps/acctExport/query_freshen.cpp:29-29 | If every visit is fine (no quit, and if a filter hits, the chunk is fetched and the loop gets to all hits), every monitor has seen every chunk in the list range as if alone; if the first visit that is not fine fails or hears a quit, the chunks before it and that visit; in any case nFiles is skipped plus checked, checked is misses plus hits plus not fetched, and hits counted are records appended. |
| `Freshener.RangeSavesWork` | src/apps/acctExport/query_final.cpp:31-35 | A list range that starts at or before a monitor's watermark skips only chunks that are not possible for it. |
| `Freshener.FirstBlockToVisit` | src/apps/acctExport/options.cpp:280-317 | The least last visited block over all monitors that have one; 0 if none has. |
| `Freshener.ProcessFreshen` | src/apps/acctExport/query_freshen.cpp:9-37 | A chunk that all filters keep the monitors out of never needs its file: if every other is fetched and nothing else goes wrong, each monitor ends as its own freshen says, over the chunks in the list range, and over all chunks if every binary file has its watermark; with watermarks that also holds for any fine visits, and if the first visit that is not fine fails or hears a quit, each ends where that visit left it; in any case nTotalHits is the number of records gained. |
| `EndToEnd.Publish` | src/apps/blockScrape/handle_write_chunks.cpp:83-93 | A chunk of at least twelve rows written by the scraper meets all that the query relies on. |
| `EndToEnd.PublishAll` | src/apps/blockScrape/handle_write_chunks.cpp:69-93 | Publishing all chunks in order gives the published index. |
| `EndToEnd.EveryChunkPublishable` | src/apps/blockScrape/handle_write_chunks.cpp:83-93 | Every chunk of every run can be published, if block zero can. |
| `EndToEnd.PublishIndex` | src/apps/blockScrape/handle_write_chunks.cpp:83-93 | The index that any run of the scraper left can be published. |
| `EndToEnd.RowsAreScan` | src/apps/acctExport/query_final.cpp:152-168 | The rows of all published chunks are the scan of all chunk rows. |
| `EndToEnd.ScanPermutes` | src/apps/blockScrape/handle_write_chunks.cpp:89-89 | Sorting lines for the index changes the order of an address's rows only. |
| `EndToEnd.FirstFreshenIsExact` | src/apps/acctExport/query_freshen.cpp:9-37 | After any run of the scraper, the first freshen of a new monitor gives exactly the appearances of its address in the chain up to the last chunk, each once. |
| `Order.PublishedAreKept` | src/apps/blockScrape/handle_write_chunks.cpp:84-93 | The published chunks of a sound index tile the chain, and each has sorted lines of its own blocks only. |
| `Order.RowsOrdered` | src/apps/acctExport/query_final.cpp:156-168 | The rows of an address in ascending chunks are in order of block and transaction. |
| `Order.RowsAreSome` | src/apps/acctExport/query_final.cpp:156-168 | Ascending chunks give no row more often than all chunks do. |
| `Order.EveryMonitorIsInOrder` | src/apps/acctExport/query_freshen.cpp:9-37 | After any run of the scraper and any finished freshens of a monitor over a growing index, its appearances are in order of block and transaction and each is there at most as often as the chain has it. |
| `Store.Serve` | src/apps/acctExport/query_freshen.cpp:9-37 | An undisturbed call freshens the monitors asked for as if each were alone and leaves all others as they were. |
| `Store.ServeAll` | src/apps/acctExport/options.cpp:283-317 | Over any calls for any sets of addresses, each monitor ends as if it had been freshened alone at the times it was asked for. |
| `Store.ServeIndex` | src/apps/acctExport/query_freshen.cpp:9-37 | On the index of any run of the scraper, after any such calls, every monitor is in order, has nothing more often than the chain, and is complete if and only if the chunks never offered to it have no row of it. |
| `Paging.LoadWindow` | src/apps/acctExport/query_loadapps.cpp:60-75 | The loop in 64-bit arithmetic selects nothing if first plus maximum wraps or first is behind the end; else each record of that window up to the head as often as it is there and no other, at ascending positions. |
| `Paging.UpToKeeps` | src/apps/acctExport/query_loadapps.cpp:65-65 | Only records after the head are dropped: counts and ascending positions of the kept ones. |
| `Paging.SelectedIs` | src/apps/acctExport/query_loadapps.cpp:63-75 | A sum that wraps selects nothing, and one that does not gives the window. |
| `Paging.LoadDefault` | src/apps/acctExport/options.cpp:408-409 | With the default maximum the loop selects everything from first record 0 and nothing from any other. |
| `Paging.PagesConcatenate` | src/apps/acctExport/query_loadapps.cpp:63-75 | Any number of consecutive pages concatenate to the list's prefix up to the head, as long as nothing wraps. |
| `Paging.AllPages` | src/apps/acctExport/query_loadapps.cpp:63-75 | Enough pages give the whole list up to the head. |
| `Ledger.Reconcile` | src/apps/acctExport/process_reconciliation.cpp:43-50 | Beginning balance plus net amount is the ending balance, and in or out is zero. |
| `Ledger.ProcessReconciliation` | src/apps/acctExport/process_reconciliation.cpp:20-59 | A token has a statement, and only one, if and only if it is the address of a log, is a named token or airdrop or the transaction has a token, and the balance at the block differs from the previous one; the statement leads from the one to the other; the balances kept are the new ones for all such tokens and the previous ones for all others; statements are in the order of first logs. |
| `Ledger.LogsSettle` | src/apps/acctExport/process_reconciliation.cpp:26-56 | The same of any list of logs, with the tokens done being exactly those due. |
| `Ledger.LogsInOrder` | src/apps/acctExport/process_reconciliation.cpp:26-54 | The statements are in the order of the first logs of their tokens. |
| `Ledger.OncePerTransaction` | src/apps/acctExport/process_reconciliation.cpp:26-53 | No two statements of a transaction are of one token, for any logs. |
| `Ledger.EveryRunChains` | src/apps/acctExport/process_reconciliation.cpp:42-56 | Over any run of transactions each token's statements chain from its first to its last balance, also across dropped ones. |
| `Ledger.EveryRunAddsUp` | src/apps/acctExport/process_reconciliation.cpp:42-56 | The net amounts of a token's statements add up to the change of its balance. |
| `Ledger.AccountFor` | src/apps/acctExport/handle_accounting.cpp:9-24 | The same of the imperative loop over the transactions. |
| `Clean.CleanMonitor` | src/apps/acctExport/process_clean.cpp:31-40 | The result is strictly ascending by block and then transaction, and a value is in it if and only if it is in the input and not (0, 0). |
| `Clean.CleanedValues` | src/apps/acctExport/process_clean.cpp:31-40 | Sorting and dropping neighbours keeps every other value once. |
| `Clean.LosslessIff` | src/apps/acctExport/process_clean.cpp:33-36 | No value is lost if and only if (0, 0) is not among them. |
| `Clean.OriginIsLost` | src/apps/acctExport/process_clean.cpp:33-36 | A monitor that holds (0, 0) only is emptied. |
| `Clean.CleaningIsIdempotent` | src/apps/acctExport/process_clean.cpp:9-64 | Cleaning twice is cleaning once. |

## Left out

- Blaze, the node, IPFS and pinning: their results are parameters (`scraped`, `blazeOk`, `fetched`).
- Abrupt exits inside one file write, or of the scraper inside a locked section: those regions are single steps.
- The 59-byte text lines: a record has an address, a block, a transaction index and its number of tabs.
- The comparison of lines in the sort is that of addresses, blocks and transaction indices as numbers, which is the order of zero-padded text. The library's sort is represented by an insertion sort, its `bsearch` by a binary search.
- The unripe and staging queries (src/apps/acctExport/query_flatfile.cpp): their comparator is not an order.
- The division by zero is taken to end the process, as it does on the processors the program is built for; the unfinished .tmp file it leaves in the finalized folder, which only a detailed report of cacheStatus visits, is not modelled.
- 32-bit widths of offsets, counts, blocks and transaction indices in the index file; the reading of its bytes.
- Freshener.ProcessFreshen: does not say what each monitor ends as when a request to quit is heard in the loop over the monitors and no longer at the end of that visit; the counter behind `shouldQuit` does not fall there. `VisitBinaryFile` covers that visit.
- Monitors marked as deleted, monitor lock files, and monitors given twice (addresses are unique after parsing).
- Growth.EveryRunExtends: chunks are a list; that two of them could have one file name is not modelled, and on a sound disk it cannot happen because they tile the chain.
- Control.EntriesAreSeparated: the check for another running process at options.cpp:125-129 and the refusal while acctExport runs are not modelled.
- `reconcileEth`, articulation, transaction and trace caches, timestamps, naming of assets.
- Test and live-test branches other than the constants, logging, sleeping, output formats.
- cacheStatus, makeClass, chifra, fireStorm and the other programs: they would add accessors, templates and dispatch.
