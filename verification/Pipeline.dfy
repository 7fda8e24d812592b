/** The scraper's consolidation pipeline as functions on the state of the disk: ripe files, the
    temporary stage, the stage, and the finalized chunks. The class `Scraper.Consolidator` is the
    code itself; it is proved to compute these functions. */
module Pipeline {
  import opened Util
  import opened Chain

  /** MAX_ROWS, SNAP_TO_GRID_BLKS and FIRST_SNAP_TO_GRID: 2000000, 100000 and 2250000, or 6000, 30 and 0. */
  datatype Config = Config(maxRows: rowLimit, gridBlks: pos, firstSnap: nat)

  /** MAX_ROWS is not below the number of progress messages of the index writer. */
  type rowLimit = n: nat | 12 <= n witness 12

  datatype RipeFile = RipeFile(blk: nat, recs: seq<Record>)

  /** staging/{name}.txt */
  datatype StageFile = StageFile(name: nat, recs: seq<Record>)

  /** finalized/{first}-{last}.bin, with the lines in the order they are handed to the index writer. */
  datatype Chunk = Chunk(first: nat, last: nat, rows: seq<Record>)

  /** Everything that survives the process. Folders are listed in name order. `tmp` is
      staging/000000000-temp.txt, `temp` is temp.txt in the root of the index. */
  datatype Disk = Disk(
    ripe: seq<RipeFile>,
    tmp: Option<seq<Record>>,
    temp: Option<seq<Record>>,
    stage: Option<StageFile>,
    chunks: seq<Chunk>)

  /** A running pass: the disk, the consolidator's fields, and what the environment will answer.
      `linked` says that the open temporary stream still writes to the file `tmp`. `quits` are the
      coming answers to `shouldQuit`, `faults` the coming failures to open a file (no answer left
      means neither). `alive` is false once the process has died by a division by zero. `trace` records
      the disk after every change that is visible outside a locked section: the states an abrupt exit
      can leave behind. */
  datatype World = World(
    disk: Disk,
    prev: nat,
    newStage: nat,
    linked: bool,
    locks: nat,
    alive: bool,
    quits: seq<bool>,
    faults: seq<bool>,
    trace: seq<Disk>)

  datatype Outcome = Outcome(ok: bool, w: World)

  function Put(w: World, d: Disk): World {
    w.(disk := d, trace := w.trace + [d])
  }

  predicate Head(s: seq<bool>) {
    |s| > 0 && s[0]
  }

  function Tail(s: seq<bool>): seq<bool> {
    if |s| > 0 then s[1..] else []
  }

  /** `shouldQuit` never answers yes while a section is locked. */
  predicate Quits(w: World) {
    w.locks == 0 && Head(w.quits)
  }

  function Polled(w: World): World {
    w.(quits := Tail(w.quits))
  }

  // ----- position -----

  function Finalized(d: Disk): nat {
    if d.chunks == [] then 0 else d.chunks[|d.chunks| - 1].last
  }

  /** The block number of the last file in the staging folder. The temporary file sorts first and
      reads as block 0; an empty folder falls back on the finalized chunks. */
  function Staging(d: Disk): nat {
    if d.stage.Some? then d.stage.value.name else if d.tmp.Some? then 0 else Finalized(d)
  }

  function Ripe(d: Disk): nat {
    if d.ripe == [] then Staging(d) else d.ripe[|d.ripe| - 1].blk
  }

  function BlazeStart(d: Disk): nat {
    Max(Ripe(d), Max(Staging(d), Finalized(d))) + 1
  }

  // ----- stage_chunks -----

  /** appendFile(temp.txt, from): the output is opened (and created) before the input. */
  function AppendTemp(w: World, from: Option<seq<Record>>): Outcome {
    var w1 := w.(faults := Tail(w.faults));
    if Head(w.faults) then
      Outcome(false, w1)
    else
      var w2 := Put(w1, w1.disk.(temp := Some(Contents(w1.disk.temp))));
      var w3 := w2.(faults := Tail(w2.faults));
      if from.None? || Head(w2.faults) then
        Outcome(false, w3)
      else
        Outcome(true, Put(w3, w3.disk.(temp := Some(Contents(w3.disk.temp) + from.value))))
  }

  /** oldStage is the temporary file itself when nothing else is in the staging folder. */
  predicate OldStageIsTmp(d: Disk) {
    d.stage.None? && d.tmp.Some?
  }

  function OldStage(d: Disk): Option<seq<Record>> {
    if d.stage.Some? then Some(d.stage.value.recs) else None
  }

  function StageChunks(w0: World): Outcome {
    var w := w0.(newStage := w0.prev);
    if w.disk.stage.Some? && w.disk.stage.value.name == w.newStage then
      Outcome(true, w)
    else
      var r1 := if OldStageIsTmp(w.disk) then Outcome(true, w) else AppendTemp(w, OldStage(w.disk));
      if !r1.ok then
        r1
      else
        var r2 := AppendTemp(r1.w, r1.w.disk.tmp);
        if !r2.ok then
          Outcome(false, Put(r2.w, r2.w.disk.(temp := None)))
        else
          var d := r2.w.disk;
          var stage := Some(StageFile(w.newStage, Contents(d.temp)));
          Outcome(true, Put(r2.w, d.(temp := None, tmp := None, stage := stage)).(linked := false))
  }

  // ----- write_chunks -----

  /** The lines of the file the consolidator calls newStage. */
  function Staged(w: World): seq<Record> {
    if w.disk.stage.Some? && w.disk.stage.value.name == w.newStage then w.disk.stage.value.recs else []
  }

  /** The last record of the run of equal block numbers that record `i` starts. */
  function EndOfBlock(lines: seq<Record>, i: nat): (loc: nat)
    requires i < |lines|
    ensures i <= loc < |lines|
    ensures forall k :: i <= k <= loc ==> lines[k].blk == lines[i].blk
    ensures loc + 1 == |lines| || lines[loc + 1].blk != lines[loc].blk
    decreases |lines| - i
  {
    if i + 1 < |lines| && lines[i + 1].blk == lines[i].blk then EndOfBlock(lines, i + 1) else i
  }

  /** Where the chunk ends. A chunk size of zero wraps around, so nothing is searched. */
  function BreakAt(lines: seq<Record>, chunkSize: nat): (loc: nat)
    requires |lines| > 0
    ensures loc < |lines|
    ensures loc + 1 == |lines| || lines[loc + 1].blk != lines[loc].blk
  {
    if 0 < chunkSize <= |lines| then EndOfBlock(lines, chunkSize - 1) else |lines| - 1
  }

  predicate AllTabbed(lines: seq<Record>) {
    forall i :: 0 <= i < |lines| ==> lines[i].tabs == 2
  }

  function ChunkOf(piece: seq<Record>): Chunk
    requires |piece| > 0
  {
    Chunk(piece[0].blk, piece[|piece| - 1].blk, SortRecords(piece))
  }

  /** The index writer reports its progress twelve times. For fewer lines than that it divides by zero at
      the first line, before it has written the chunk. */
  predicate TooShort(piece: seq<Record>) {
    |piece| < 12
  }

  /** The locked body of the write_chunks loop. A malformed line returns without unlocking; a piece that
      is too short for the index writer ends the process with stage and chunks as they were. */
  function CutOnce(w: World, chunkSize: nat): (r: Outcome)
    ensures r.ok && Staged(w) != [] ==> |Staged(r.w)| < |Staged(w)|
    ensures Staged(w) == [] ==> r == Outcome(true, w)
  {
    var lines := Staged(w);
    if lines == [] then
      Outcome(true, w)
    else
      var loc := BreakAt(lines, chunkSize);
      if !AllTabbed(lines[..loc + 1]) then
        Outcome(false, w.(locks := w.locks + 1))
      else if TooShort(lines[..loc + 1]) then
        Outcome(false, w.(alive := false))
      else
        var rest := lines[loc + 1..];
        var stage := if rest == [] then None else Some(StageFile(w.newStage, rest));
        Outcome(true, Put(w, w.disk.(chunks := w.disk.chunks + [ChunkOf(lines[..loc + 1])], stage := stage)))
  }

  function WriteChunks(cfg: Config, w: World, chunkSize: nat, once: bool): Outcome
    decreases |Staged(w)|, once
  {
    if !(once || |Staged(w)| > chunkSize) then
      Outcome(true, w)
    else if Quits(w) then
      Outcome(true, Polled(w))
    else
      var r := CutOnce(Polled(w), chunkSize);
      assert Staged(Polled(w)) == Staged(w);
      if !r.ok then
        r
      else
        WriteChunks(cfg, r.w, Min(cfg.maxRows, |Staged(r.w)|), once && |Staged(r.w)| > 0)
  }

  // ----- consolidate_chunks -----

  function ConsolidateChunks(cfg: Config, w: World): Outcome {
    if |Staged(w)| <= cfg.maxRows then Outcome(true, w) else WriteChunks(cfg, w, cfg.maxRows, false)
  }

  // ----- copyRipeToStage -----

  predicate OnGrid(cfg: Config, bn: nat) {
    bn > cfg.firstSnap && bn % cfg.gridBlks == 0
  }

  /** Clean the ripe folder and remove the temporary stage. */
  function CleanUp(w: World): World {
    var w1 := Put(w, w.disk.(ripe := []));
    Put(w1, w1.disk.(tmp := None)).(linked := false)
  }

  /** The locked copy of one ripe file onto the temporary stream. */
  function MoveRipe(w: World): World
    requires w.disk.ripe != []
  {
    var f := w.disk.ripe[0];
    var tmp := if w.linked then Some(Contents(w.disk.tmp) + f.recs) else w.disk.tmp;
    Put(w, w.disk.(ripe := w.disk.ripe[1..], tmp := tmp)).(prev := f.blk)
  }

  /** Stage everything up to the grid block just copied and drain the stage into chunks. */
  function Snap(cfg: Config, w: World): Outcome {
    var r := StageChunks(w);
    if !r.ok then
      Outcome(false, CleanUp(r.w))
    else if Quits(r.w) then
      Outcome(true, Polled(r.w))
    else
      var w2 := Polled(r.w);
      Outcome(false, WriteChunks(cfg, w2, Min(|Staged(w2)|, cfg.maxRows), true).w)
  }

  /** copyRipeToStage on the first file of the ripe folder; `ok` means go on with the next file. */
  function CopyOne(cfg: Config, w: World): (r: Outcome)
    requires w.disk.ripe != []
    ensures r.ok ==> r.w.disk.ripe == w.disk.ripe[1..]
  {
    var bn := w.disk.ripe[0].blk;
    if w.prev + 1 != bn then
      Outcome(false, w)
    else if Head(w.faults) then
      Outcome(false, w.(faults := Tail(w.faults)))
    else
      var w1 := MoveRipe(w.(faults := Tail(w.faults)));
      if OnGrid(cfg, bn) then Snap(cfg, w1) else Outcome(!Quits(w1), Polled(w1))
  }

  /** forEveryFileInFolder(ripe, copyRipeToStage) */
  function CopyAll(cfg: Config, w: World): Outcome
    decreases |w.disk.ripe|
  {
    if w.disk.ripe == [] then
      Outcome(true, w)
    else
      var r := CopyOne(cfg, w);
      if r.ok then CopyAll(cfg, r.w) else r
  }

  // ----- scrape_blocks -----

  /** What one pass meets. `scraped` are the files blaze adds to the ripe folder, `opens` says that
      the temporary stream could be opened, `exporting` that acctExport is running, and `locks` how
      many sections an earlier pass of this process left locked. */
  datatype Round = Round(
    client: nat,
    opens: bool,
    blazeOk: bool,
    scraped: seq<RipeFile>,
    exporting: bool,
    locks: nat,
    quits: seq<bool>,
    faults: seq<bool>)

  /** The consolidator's constructor reads the position and only then truncates the temporary file. */
  function Begin(d: Disk, r: Round): World {
    var d1 := if r.opens then d.(tmp := Some([])) else d;
    World(d1, Staging(d), 0, r.opens, r.locks, true, r.quits, r.faults, [d1])
  }

  /** Blaze has added its files to the ripe folder. */
  function Blazed(w: World, r: Round): World {
    Put(Polled(w), w.disk.(ripe := w.disk.ripe + r.scraped))
  }

  function AfterBlaze(d: Disk, r: Round): World {
    Blazed(Begin(d, r), r)
  }

  /** From the copy to the end of the pass. A process that has died cleans nothing up. */
  function Consolidation(cfg: Config, w: World): Outcome {
    var c := CopyAll(cfg, w);
    if !c.ok then
      Outcome(false, if c.w.alive then CleanUp(c.w) else c.w)
    else
      var s := StageChunks(c.w);
      var w1 := if s.ok then s.w else CleanUp(s.w);
      if Quits(w1) then Outcome(false, Polled(w1)) else ConsolidateChunks(cfg, Polled(w1))
  }

  /** The pass once the consolidator exists. */
  function PassFrom(cfg: Config, w: World, blazeStart: nat, r: Round): Outcome {
    if blazeStart > r.client then
      Outcome(false, w)
    else if Quits(w) then
      Outcome(false, Polled(w))
    else
      var w1 := Blazed(w, r);
      if !r.blazeOk then
        Outcome(false, Put(w1, w1.disk.(ripe := [])))
      else if r.exporting || !r.opens then
        Outcome(false, w1)
      else
        Consolidation(cfg, w1)
  }

  function Scrape(cfg: Config, d: Disk, r: Round): Outcome {
    PassFrom(cfg, Begin(d, r), BlazeStart(d), r)
  }

  // ----- whole runs -----

  /** A pass of the running scraper, a pass cut off by an abrupt exit that leaves the disk as it was
      after change number `at`, or a new start of the program (which removes the temporary stage). */
  datatype Event = Pass(round: Round) | Killed(round: Round, at: nat) | Restart

  function After(cfg: Config, d: Disk, e: Event): Disk {
    match e
    case Pass(r) => Scrape(cfg, d, r).w.disk
    case Killed(r, at) =>
      var t := Scrape(cfg, d, r).w.trace;
      if at < |t| then t[at] else d
    case Restart => d.(tmp := None)
  }

  function Run(cfg: Config, d: Disk, events: seq<Event>): Disk
    decreases |events|
  {
    if events == [] then d else Run(cfg, After(cfg, d, events[0]), events[1..])
  }
}
