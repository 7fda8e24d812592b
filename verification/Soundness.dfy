/** What every state of the disk keeps, over every run of the pipeline. */
module Soundness {
  import opened Util
  import opened Chain
  import opened Pipeline

  // ----- the invariant -----

  /** The first block that no finalized chunk covers. */
  function FinalNext(chunks: seq<Chunk>): nat {
    if chunks == [] then 0 else chunks[|chunks| - 1].last + 1
  }

  function NextOf(chunks: seq<Chunk>, stage: Option<StageFile>): nat {
    if stage.Some? && stage.value.recs != []
    then stage.value.recs[|stage.value.recs| - 1].blk + 1
    else FinalNext(chunks)
  }

  /** The frontier: the first block whose records are neither in a chunk nor on the stage. */
  function Next(d: Disk): nat {
    NextOf(d.chunks, d.stage)
  }

  /** A chunk holds exactly the records of the blocks in its name, sorted. */
  ghost predicate ChunkHolds(apps: nat -> seq<Record>, c: Chunk) {
    && c.first <= c.last
    && multiset(c.rows) == multiset(Span(apps, c.first, c.last + 1))
    && SortedRecords(c.rows)
  }

  /** The chunks tile the chain from block 0: each begins where the one before it ends. */
  ghost predicate Tiled(apps: nat -> seq<Record>, chunks: seq<Chunk>)
    decreases |chunks|
  {
    && |chunks| > 0
    && var n := |chunks| - 1;
       && ChunkHolds(apps, chunks[n])
       && chunks[n].first == FinalNext(chunks[..n])
       && (n > 0 ==> Tiled(apps, chunks[..n]))
  }

  /** The stage continues where the chunks end and is named by its last block. An empty stage may
      also be named 0: see `Stuck`. */
  ghost predicate StageHolds(apps: nat -> seq<Record>, chunks: seq<Chunk>, stage: Option<StageFile>) {
    && FinalNext(chunks) <= NextOf(chunks, stage)
    && (stage.Some? ==>
      && stage.value.recs == Span(apps, FinalNext(chunks), NextOf(chunks, stage))
      && (stage.value.name + 1 == NextOf(chunks, stage) || stage.value == StageFile(0, [])))
  }

  ghost predicate RipeHolds(apps: nat -> seq<Record>, ripe: seq<RipeFile>, from: nat) {
    && (forall i :: 0 <= i < |ripe| ==> from <= ripe[i].blk && ripe[i].recs == apps(ripe[i].blk))
    && (forall i, j :: 0 <= i < j < |ripe| ==> ripe[i].blk < ripe[j].blk)
  }

  ghost predicate Sound(apps: nat -> seq<Record>, d: Disk) {
    && Tiled(apps, d.chunks)
    && StageHolds(apps, d.chunks, d.stage)
    && RipeHolds(apps, d.ripe, Next(d))
  }

  /** temp.txt is missing or empty. */
  predicate TempEmpty(d: Disk) {
    Contents(d.temp) == []
  }

  /** Every state the disk went through was sound and at or beyond block `lo`. */
  ghost predicate TraceSound(apps: nat -> seq<Record>, lo: nat, trace: seq<Disk>) {
    forall i :: 0 <= i < |trace| ==> Sound(apps, trace[i]) && lo <= Next(trace[i])
  }

  ghost predicate Kept(apps: nat -> seq<Record>, lo: nat, w: World) {
    Sound(apps, w.disk) && lo <= Next(w.disk) && TraceSound(apps, lo, w.trace)
  }

  // ----- the states of a pass -----

  /** The temporary stage holds the blocks between the frontier and `prev`. */
  ghost predicate Positioned(apps: nat -> seq<Record>, w: World) {
    && w.linked && w.disk.tmp.Some?
    && Next(w.disk) <= w.prev + 1
    && w.disk.tmp.value == Span(apps, Next(w.disk), w.prev + 1)
  }

  /** The pass took a left-over temporary file, or a stage named 0, for the position: it believes
      that block 0 is the last staged block although chunks go further. */
  predicate Misplaced(w: World) {
    && w.linked && w.disk.tmp == Some([])
    && w.prev == 0 && 1 < Next(w.disk)
    && (w.disk.stage.None? || w.disk.stage.value == StageFile(0, []))
  }

  /** The temporary file was removed under the open stream by a grid step. */
  predicate Unlinked(w: World) {
    !w.linked && w.disk.tmp.None? && w.disk.stage.Some?
  }

  ghost predicate Copying(apps: nat -> seq<Record>, w: World) {
    && Sound(apps, w.disk) && TempEmpty(w.disk)
    && (forall i :: 0 <= i < |w.disk.ripe| ==> w.prev < w.disk.ripe[i].blk)
    && (Positioned(apps, w) || Misplaced(w) || Unlinked(w))
  }

  // ----- each step keeps it -----

  lemma PutKept(apps: nat -> seq<Record>, lo: nat, w: World, d: Disk)
    requires TraceSound(apps, lo, w.trace) && Sound(apps, d) && lo <= Next(d)
    ensures Kept(apps, lo, Put(w, d))
  {
  }

  /** Only the two temporary files differ. */
  predicate SameIndex(d: Disk, e: Disk) {
    d.ripe == e.ripe && d.stage == e.stage && d.chunks == e.chunks
  }

  lemma PutTemporaries(apps: nat -> seq<Record>, lo: nat, w: World, d: Disk)
    requires Kept(apps, lo, w) && SameIndex(d, w.disk)
    ensures Kept(apps, lo, Put(w, d))
  {
    PutKept(apps, lo, w, d);
  }

  /** An append touches temp.txt only, and only a successful one adds to it. */
  lemma AppendTempEffect(w: World, from: Option<seq<Record>>)
    ensures var r := AppendTemp(w, from);
            && r.w == w.(disk := r.w.disk, trace := r.w.trace, faults := r.w.faults)
            && r.w.disk == w.disk.(temp := r.w.disk.temp)
            && Contents(r.w.disk.temp) == Contents(w.disk.temp) + (if r.ok then Contents(from) else [])
  {
    assert Contents(w.disk.temp) + [] == Contents(w.disk.temp);
  }

  lemma AppendTempKeeps(apps: nat -> seq<Record>, lo: nat, w: World, from: Option<seq<Record>>)
    requires Kept(apps, lo, w)
    ensures Kept(apps, lo, AppendTemp(w, from).w)
  {
    var w1 := w.(faults := Tail(w.faults));
    if !Head(w.faults) {
      var w2 := Put(w1, w1.disk.(temp := Some(Contents(w1.disk.temp))));
      PutTemporaries(apps, lo, w1, w2.disk);
      var w3 := w2.(faults := Tail(w2.faults));
      if from.Some? {
        PutTemporaries(apps, lo, w3, w3.disk.(temp := Some(Contents(w3.disk.temp) + from.value)));
      }
    }
  }

  predicate StageIsCurrent(w: World) {
    w.disk.stage.Some? && w.disk.stage.value.name == w.prev
  }

  /** The disk after a successful stage_chunks: one file, the left-over temp.txt followed by the old
      stage and the temporary stage. */
  function RenamedDisk(w: World): Disk
    requires w.disk.tmp.Some?
  {
    var recs := Contents(w.disk.temp) + Contents(OldStage(w.disk)) + w.disk.tmp.value;
    w.disk.(temp := None, tmp := None, stage := Some(StageFile(w.prev, recs)))
  }

  /** stage_chunks does nothing, or fails and leaves stage, chunks and ripe alone, or renames. */
  lemma StageEffect(w: World)
    ensures var r := StageChunks(w);
            && r.w.prev == w.prev == r.w.newStage
            && r.w.quits == w.quits && r.w.locks == w.locks && r.w.alive == w.alive
            && (StageIsCurrent(w) ==> r.ok && r.w.disk == w.disk && r.w.linked == w.linked)
            && (!StageIsCurrent(w) && r.ok ==> w.disk.tmp.Some? && r.w.disk == RenamedDisk(w) && !r.w.linked)
            && (!r.ok ==> SameIndex(r.w.disk, w.disk) && r.w.linked == w.linked && r.w.disk.tmp == w.disk.tmp
                          && (TempEmpty(w.disk) ==> TempEmpty(r.w.disk)))
  {
    var w0 := w.(newStage := w.prev);
    var d := w.disk;
    if !StageIsCurrent(w) {
      AppendTempEffect(w0, OldStage(d));
      var r1 := if OldStageIsTmp(d) then Outcome(true, w0) else AppendTemp(w0, OldStage(d));
      assert OldStageIsTmp(d) ==> Contents(d.temp) + Contents(OldStage(d)) == Contents(d.temp);
      AppendTempEffect(r1.w, r1.w.disk.tmp);
    }
  }

  function StageRecs(stage: Option<StageFile>): seq<Record> {
    if stage.Some? then stage.value.recs else []
  }

  /** A stage extended up to block `end` is the stage of that frontier. */
  lemma StageExtended(apps: nat -> seq<Record>, chunks: seq<Chunk>, stage: Option<StageFile>, end: pos)
    requires WellFormedChain(apps) && StageHolds(apps, chunks, stage) && NextOf(chunks, stage) <= end
    ensures var recs := StageRecs(stage) + Span(apps, NextOf(chunks, stage), end);
            && recs == Span(apps, FinalNext(chunks), end)
            && NextOf(chunks, Some(StageFile(end - 1, recs))) == end
            && StageHolds(apps, chunks, Some(StageFile(end - 1, recs)))
  {
    SpanJoin(apps, FinalNext(chunks), NextOf(chunks, stage), end);
    SpanBlocks(apps, FinalNext(chunks), end);
    assert stage.None? ==> StageRecs(stage) == Span(apps, FinalNext(chunks), FinalNext(chunks));
  }

  /** A new stage that holds makes a sound disk, if the ripe files lie beyond it. */
  lemma Restaged(apps: nat -> seq<Record>, d: Disk, stage: Option<StageFile>)
    requires Sound(apps, d) && StageHolds(apps, d.chunks, stage)
    requires forall i :: 0 <= i < |d.ripe| ==> NextOf(d.chunks, stage) <= d.ripe[i].blk
    ensures Sound(apps, d.(temp := None, tmp := None, stage := stage))
  {
  }

  /** With temp.txt empty, renaming extends the stage by the temporary stage. */
  lemma RenamedSound(apps: nat -> seq<Record>, w: World)
    requires WellFormedChain(apps) && Copying(apps, w) && w.disk.tmp.Some?
    ensures Sound(apps, RenamedDisk(w))
    ensures Next(RenamedDisk(w)) == if Positioned(apps, w) then w.prev + 1 else Next(w.disk)
  {
    if Positioned(apps, w) {
      RenamedForward(apps, w);
    } else {
      RenamedEmpty(apps, w);
    }
  }

  lemma RenamedForward(apps: nat -> seq<Record>, w: World)
    requires WellFormedChain(apps) && Copying(apps, w) && Positioned(apps, w)
    ensures Sound(apps, RenamedDisk(w)) && Next(RenamedDisk(w)) == w.prev + 1
  {
    var d := RenamedDisk(w);
    var staged, added := StageRecs(w.disk.stage), w.disk.tmp.value;
    assert [] + staged + added == staged + added;
    assert d.stage == Some(StageFile(w.prev, staged + added));
    StageExtended(apps, w.disk.chunks, w.disk.stage, w.prev + 1);
    Restaged(apps, w.disk, d.stage);
  }

  lemma RenamedEmpty(apps: nat -> seq<Record>, w: World)
    requires Copying(apps, w) && !Positioned(apps, w) && w.disk.tmp.Some?
    ensures Sound(apps, RenamedDisk(w)) && Next(RenamedDisk(w)) == Next(w.disk)
  {
    var d := RenamedDisk(w);
    assert Misplaced(w);
    assert [] + [] + w.disk.tmp.value == [];
    assert d.stage == Some(StageFile(0, []));
    Restaged(apps, w.disk, d.stage);
  }

  lemma StageTrace(apps: nat -> seq<Record>, lo: nat, w: World)
    requires WellFormedChain(apps)
    requires Copying(apps, w) && Kept(apps, lo, w)
    ensures Kept(apps, lo, StageChunks(w).w)
  {
    var w0 := w.(newStage := w.prev);
    if !StageIsCurrent(w) {
      var r1 := if OldStageIsTmp(w.disk) then Outcome(true, w0) else AppendTemp(w0, OldStage(w.disk));
      AppendTempKeeps(apps, lo, w0, OldStage(w.disk));
      if r1.ok {
        var r2 := AppendTemp(r1.w, r1.w.disk.tmp);
        AppendTempKeeps(apps, lo, r1.w, r1.w.disk.tmp);
        if r2.ok {
          StageEffect(w);
          RenamedSound(apps, w);
          PutKept(apps, lo, r2.w, RenamedDisk(w));
        } else {
          PutTemporaries(apps, lo, r2.w, r2.w.disk.(temp := None));
        }
      }
    }
  }

  /** Staging moves the frontier to the last copied block and nothing else. */
  lemma StageKeeps(apps: nat -> seq<Record>, lo: nat, w: World)
    requires WellFormedChain(apps)
    requires Copying(apps, w) && Kept(apps, lo, w)
    ensures var r := StageChunks(w);
            && Kept(apps, lo, r.w) && TempEmpty(r.w.disk)
            && (r.ok ==> Next(r.w.disk) == if Positioned(apps, w) then w.prev + 1 else Next(w.disk))
  {
    StageTrace(apps, lo, w);
    StageEffect(w);
    if StageIsCurrent(w) {
      if Positioned(apps, w) { SpanBlocks(apps, Next(w.disk), w.prev + 1); }
    } else if StageChunks(w).ok {
      RenamedSound(apps, w);
    }
  }

  // ----- write_chunks -----

  function RestStage(name: nat, rest: seq<Record>): Option<StageFile> {
    if rest == [] then None else Some(StageFile(name, rest))
  }

  lemma TiledAppend(apps: nat -> seq<Record>, chunks: seq<Chunk>, c: Chunk)
    requires Tiled(apps, chunks) && ChunkHolds(apps, c) && c.first == FinalNext(chunks)
    ensures Tiled(apps, chunks + [c]) && FinalNext(chunks + [c]) == c.last + 1
  {
    assert (chunks + [c])[..|chunks|] == chunks;
  }

  /** The chunk made of whole blocks is named by them and holds them. */
  lemma ChunkOfSpan(apps: nat -> seq<Record>, lo: nat, b: nat)
    requires WellFormedChain(apps) && lo <= b
    ensures Span(apps, lo, b + 1) != []
    ensures var c := ChunkOf(Span(apps, lo, b + 1));
            c.first == lo && c.last == b && ChunkHolds(apps, c)
  {
    SpanBlocks(apps, lo, b + 1);
    RecordsSorted(Span(apps, lo, b + 1));
  }

  lemma RestHolds(apps: nat -> seq<Record>, chunks: seq<Chunk>, name: nat, end: nat)
    requires WellFormedChain(apps) && FinalNext(chunks) <= end && name + 1 == end
    ensures var stage := RestStage(name, Span(apps, FinalNext(chunks), end));
            StageHolds(apps, chunks, stage) && NextOf(chunks, stage) == end
  {
    SpanBlocks(apps, FinalNext(chunks), end);
    if FinalNext(chunks) < end {
      assert NextOf(chunks, Some(StageFile(name, Span(apps, FinalNext(chunks), end)))) == end;
    } else {
      assert Span(apps, FinalNext(chunks), end) == [];
    }
  }

  lemma CutSpans(apps: nat -> seq<Record>, chunks: seq<Chunk>, name: nat, b: nat)
    requires WellFormedChain(apps) && Tiled(apps, chunks) && FinalNext(chunks) <= b <= name
    ensures Span(apps, FinalNext(chunks), b + 1) != []
    ensures var c := ChunkOf(Span(apps, FinalNext(chunks), b + 1));
            var stage := RestStage(name, Span(apps, b + 1, name + 1));
            && c.first == FinalNext(chunks) && c.last == b
            && Tiled(apps, chunks + [c]) && StageHolds(apps, chunks + [c], stage)
            && NextOf(chunks + [c], stage) == name + 1
  {
    ChunkOfSpan(apps, FinalNext(chunks), b);
    var c := ChunkOf(Span(apps, FinalNext(chunks), b + 1));
    TiledAppend(apps, chunks, c);
    RestHolds(apps, chunks + [c], name, name + 1);
  }

  /** Where a stage is cut, in terms of blocks. */
  lemma StageCut(apps: nat -> seq<Record>, chunks: seq<Chunk>, stage: StageFile, loc: nat)
    requires WellFormedChain(apps) && StageHolds(apps, chunks, Some(stage))
    requires loc < |stage.recs| && (loc + 1 == |stage.recs| || stage.recs[loc + 1].blk != stage.recs[loc].blk)
    ensures var b := stage.recs[loc].blk;
            && FinalNext(chunks) <= b <= stage.name && NextOf(chunks, Some(stage)) == stage.name + 1
            && stage.recs[..loc + 1] == Span(apps, FinalNext(chunks), b + 1)
            && stage.recs[loc + 1..] == Span(apps, b + 1, stage.name + 1)
  {
    SpanCut(apps, FinalNext(chunks), stage.name + 1, loc);
  }

  /** Cutting the stage after a whole block moves blocks from the stage to a new last chunk. */
  lemma CutParts(apps: nat -> seq<Record>, chunks: seq<Chunk>, stage: StageFile, loc: nat)
    requires WellFormedChain(apps) && Tiled(apps, chunks) && StageHolds(apps, chunks, Some(stage))
    requires loc < |stage.recs| && (loc + 1 == |stage.recs| || stage.recs[loc + 1].blk != stage.recs[loc].blk)
    ensures var c := ChunkOf(stage.recs[..loc + 1]);
            var stage' := RestStage(stage.name, stage.recs[loc + 1..]);
            && c.first == FinalNext(chunks) && c.last == stage.recs[loc].blk
            && Tiled(apps, chunks + [c]) && StageHolds(apps, chunks + [c], stage')
            && NextOf(chunks + [c], stage') == NextOf(chunks, Some(stage))
  {
    StageCut(apps, chunks, stage, loc);
    CutSpans(apps, chunks, stage.name, stage.recs[loc].blk);
  }

  function CutDisk(d: Disk, loc: nat): Disk
    requires d.stage.Some? && loc < |d.stage.value.recs|
  {
    var s := d.stage.value;
    d.(chunks := d.chunks + [ChunkOf(s.recs[..loc + 1])], stage := RestStage(s.name, s.recs[loc + 1..]))
  }

  /** What a cut does to the disk: it takes the piece off, unless the piece is too short. */
  lemma CutEffect(w: World, chunkSize: nat)
    requires AllTabbed(Staged(w)) && Staged(w) != []
    ensures var loc := BreakAt(Staged(w), chunkSize);
            CutOnce(w, chunkSize) == if TooShort(Staged(w)[..loc + 1]) then Outcome(false, w.(alive := false))
                                     else Outcome(true, Put(w, CutDisk(w.disk, loc)))
  {
  }

  /** The stage file is not renamed, but may be gone. */
  predicate SameName(before: Option<StageFile>, after: Option<StageFile>) {
    after.Some? ==> before.Some? && before.value.name == after.value.name
  }

  lemma StagedTabbed(apps: nat -> seq<Record>, w: World)
    requires WellFormedChain(apps) && Sound(apps, w.disk)
    ensures AllTabbed(Staged(w))
  {
    SpanBlocks(apps, FinalNext(w.disk.chunks), Next(w.disk));
  }

  lemma CutSound(apps: nat -> seq<Record>, d: Disk, loc: nat)
    requires WellFormedChain(apps) && Sound(apps, d) && d.stage.Some? && loc < |d.stage.value.recs|
    requires loc + 1 == |d.stage.value.recs| || d.stage.value.recs[loc + 1].blk != d.stage.value.recs[loc].blk
    ensures Sound(apps, CutDisk(d, loc)) && Next(CutDisk(d, loc)) == Next(d)
  {
    CutParts(apps, d.chunks, d.stage.value, loc);
  }

  /** From `w` to `w'` blocks went from the stage to new chunks, and nothing else happened. */
  ghost predicate Written(apps: nat -> seq<Record>, lo: nat, w: World, w': World) {
    && Kept(apps, lo, w') && Next(w'.disk) == Next(w.disk) && w.disk.chunks <= w'.disk.chunks
    && w' == w.(disk := w'.disk, trace := w'.trace, quits := w'.quits, alive := w'.alive)
    && w'.disk == w.disk.(chunks := w'.disk.chunks, stage := w'.disk.stage)
    && SameName(w.disk.stage, w'.disk.stage)
  }

  lemma CutKeeps(apps: nat -> seq<Record>, lo: nat, w: World, chunkSize: nat)
    requires WellFormedChain(apps) && Kept(apps, lo, w)
    ensures var r := CutOnce(w, chunkSize);
            Written(apps, lo, w, r.w) && (if r.ok then r.w.alive == w.alive else !r.w.alive && r.w.disk == w.disk)
  {
    if Staged(w) != [] {
      StagedTabbed(apps, w);
      CutEffect(w, chunkSize);
      var loc := BreakAt(Staged(w), chunkSize);
      if !TooShort(Staged(w)[..loc + 1]) {
        CutSound(apps, w.disk, loc);
        PutKept(apps, lo, w, CutDisk(w.disk, loc));
      }
    }
  }

  lemma WrittenTwice(apps: nat -> seq<Record>, lo: nat, w: World, w1: World, w2: World)
    requires Written(apps, lo, Polled(w), w1) && Written(apps, lo, w1, w2)
    ensures Written(apps, lo, w, w2)
  {
  }

  /** The next turn of the loop. */
  lemma WriteStep(cfg: Config, w: World, chunkSize: nat, once: bool)
    requires (once || |Staged(w)| > chunkSize) && !Quits(w)
    ensures Staged(Polled(w)) == Staged(w)
    ensures var r := CutOnce(Polled(w), chunkSize);
            WriteChunks(cfg, w, chunkSize, once)
            == if r.ok then WriteChunks(cfg, r.w, Min(cfg.maxRows, |Staged(r.w)|), once && |Staged(r.w)| > 0) else r
  {
  }

  /** write_chunks keeps every record and the frontier, whenever it is interrupted, and fails only by the
      death of the process. */
  lemma {:induction false} WriteKeeps(apps: nat -> seq<Record>, lo: nat, cfg: Config, w: World, chunkSize: nat,
                                      once: bool)
    requires WellFormedChain(apps) && Kept(apps, lo, w)
    ensures var r := WriteChunks(cfg, w, chunkSize, once);
            Written(apps, lo, w, r.w) && (if r.ok then r.w.alive == w.alive else !r.w.alive)
    decreases |Staged(w)|, once
  {
    if (once || |Staged(w)| > chunkSize) && !Quits(w) {
      var p := Polled(w);
      WriteStep(cfg, w, chunkSize, once);
      CutKeeps(apps, lo, p, chunkSize);
      var r := CutOnce(p, chunkSize);
      if r.ok {
        var size, again := Min(cfg.maxRows, |Staged(r.w)|), once && |Staged(r.w)| > 0;
        WriteKeeps(apps, lo, cfg, r.w, size, again);
        WrittenTwice(apps, lo, w, r.w, WriteChunks(cfg, r.w, size, again).w);
      }
    }
  }

  // ----- copyRipeToStage -----

  lemma RipeEmptied(apps: nat -> seq<Record>, d: Disk)
    requires Sound(apps, d)
    ensures Sound(apps, d.(ripe := []))
  {
  }

  lemma CleanUpKeeps(apps: nat -> seq<Record>, lo: nat, w: World)
    requires Kept(apps, lo, w)
    ensures Kept(apps, lo, CleanUp(w))
    ensures CleanUp(w).disk == w.disk.(ripe := [], tmp := None)
  {
    RipeEmptied(apps, w.disk);
    PutKept(apps, lo, w, w.disk.(ripe := []));
    var w1 := Put(w, w.disk.(ripe := []));
    PutTemporaries(apps, lo, w1, w1.disk.(tmp := None));
  }

  lemma RipeTail(apps: nat -> seq<Record>, ripe: seq<RipeFile>, from: nat)
    requires RipeHolds(apps, ripe, from) && ripe != []
    ensures RipeHolds(apps, ripe[1..], from)
    ensures forall i :: 0 <= i < |ripe[1..]| ==> ripe[0].blk < ripe[1..][i].blk
  {
  }

  /** Copying the next block in sequence extends the temporary stage by that block. */
  lemma MoveKeeps(apps: nat -> seq<Record>, lo: nat, w: World)
    requires WellFormedChain(apps) && Copying(apps, w) && Kept(apps, lo, w)
    requires w.disk.ripe != [] && w.prev + 1 == w.disk.ripe[0].blk
    ensures Copying(apps, MoveRipe(w)) && Kept(apps, lo, MoveRipe(w))
    ensures SameIndex(MoveRipe(w).disk, w.disk.(ripe := w.disk.ripe[1..]))
    ensures Positioned(apps, w) ==> Positioned(apps, MoveRipe(w))
  {
    var w1 := MoveRipe(w);
    RipeTail(apps, w.disk.ripe, Next(w.disk));
    assert Next(w1.disk) == Next(w.disk);
    assert Sound(apps, w1.disk);
    PutKept(apps, lo, w, w1.disk);
    if Positioned(apps, w) {
      assert Span(apps, Next(w.disk), w.prev + 2) == Span(apps, Next(w.disk), w.prev + 1) + apps(w.prev + 1);
    }
  }

  lemma SnapKeeps(apps: nat -> seq<Record>, lo: nat, cfg: Config, w: World)
    requires WellFormedChain(apps) && Copying(apps, w) && Kept(apps, lo, w)
    ensures var r := Snap(cfg, w);
            && Kept(apps, lo, r.w) && TempEmpty(r.w.disk)
            && (r.ok ==> Copying(apps, r.w) && r.w.disk.ripe == w.disk.ripe)
  {
    var s := StageChunks(w);
    StageKeeps(apps, lo, w);
    StageEffect(w);
    if !s.ok {
      CleanUpKeeps(apps, lo, s.w);
    } else if !Quits(s.w) {
      var w2 := Polled(s.w);
      WriteKeeps(apps, lo, cfg, w2, Min(|Staged(w2)|, cfg.maxRows), true);
    }
  }

  lemma CopyOneKeeps(apps: nat -> seq<Record>, lo: nat, cfg: Config, w: World)
    requires WellFormedChain(apps) && Copying(apps, w) && Kept(apps, lo, w) && w.disk.ripe != []
    ensures var r := CopyOne(cfg, w);
            Kept(apps, lo, r.w) && TempEmpty(r.w.disk) && (r.ok ==> Copying(apps, r.w))
  {
    if w.prev + 1 == w.disk.ripe[0].blk && !Head(w.faults) {
      var w0 := w.(faults := Tail(w.faults));
      assert Copying(apps, w0) && Kept(apps, lo, w0);
      MoveKeeps(apps, lo, w0);
      if OnGrid(cfg, w.disk.ripe[0].blk) { SnapKeeps(apps, lo, cfg, MoveRipe(w0)); }
    }
  }

  lemma {:induction false} CopyAllKeeps(apps: nat -> seq<Record>, lo: nat, cfg: Config, w: World)
    requires WellFormedChain(apps) && Copying(apps, w) && Kept(apps, lo, w)
    ensures var r := CopyAll(cfg, w);
            Kept(apps, lo, r.w) && TempEmpty(r.w.disk) && (r.ok ==> Copying(apps, r.w))
    decreases |w.disk.ripe|
  {
    if w.disk.ripe != [] {
      CopyOneKeeps(apps, lo, cfg, w);
      var r := CopyOne(cfg, w);
      if r.ok { CopyAllKeeps(apps, lo, cfg, r.w); }
    }
  }

  // ----- scrape_blocks -----

  lemma ConsolidationKeeps(apps: nat -> seq<Record>, lo: nat, cfg: Config, w: World)
    requires WellFormedChain(apps) && Copying(apps, w) && Kept(apps, lo, w)
    ensures var r := Consolidation(cfg, w);
            Kept(apps, lo, r.w) && TempEmpty(r.w.disk)
  {
    var c := CopyAll(cfg, w);
    CopyAllKeeps(apps, lo, cfg, w);
    if !c.ok {
      CleanUpKeeps(apps, lo, c.w);
    } else {
      var s := StageChunks(c.w);
      StageKeeps(apps, lo, c.w);
      if !s.ok { CleanUpKeeps(apps, lo, s.w); }
      var w1 := if s.ok then s.w else CleanUp(s.w);
      if !Quits(w1) && |Staged(Polled(w1))| > cfg.maxRows {
        WriteKeeps(apps, lo, cfg, Polled(w1), cfg.maxRows, false);
      }
    }
  }

  /** Blaze writes files in its own window only, each with the appearances of its block. It may leave
      gaps, and may stop anywhere. */
  ghost predicate BlazeHolds(apps: nat -> seq<Record>, d: Disk, r: Round) {
    RipeHolds(apps, r.scraped, BlazeStart(d))
  }

  lemma ScrapedHolds(apps: nat -> seq<Record>, d: Disk, scraped: seq<RipeFile>)
    requires Sound(apps, d) && RipeHolds(apps, scraped, BlazeStart(d))
    ensures RipeHolds(apps, d.ripe + scraped, Next(d))
    ensures Next(d) <= BlazeStart(d)
  {
    var ripe := d.ripe + scraped;
    forall i, j | 0 <= i < j < |ripe| ensures ripe[i].blk < ripe[j].blk {
      if i < |d.ripe| <= j {
        assert ripe[j] == scraped[j - |d.ripe|];
        assert ripe[i].blk <= d.ripe[|d.ripe| - 1].blk;
      }
    }
  }

  /** The position a pass starts from: the frontier, or block 0 by mistake. */
  lemma BeginCopying(apps: nat -> seq<Record>, d: Disk, r: Round, w: World)
    requires Sound(apps, d) && TempEmpty(d) && BlazeHolds(apps, d, r) && r.opens
    requires w.disk == d.(tmp := Some([]), ripe := d.ripe + r.scraped) && w.prev == Staging(d) && w.linked
    ensures Copying(apps, w)
    ensures Positioned(apps, w) <==> Staging(d) + 1 == Next(d)
    ensures !Positioned(apps, w) ==> Misplaced(w)
  {
    ScrapedHolds(apps, d, r.scraped);
    assert Next(w.disk) == Next(d);
    if Staging(d) + 1 == Next(d) {
      assert Span(apps, Next(w.disk), w.prev + 1) == [];
      assert Positioned(apps, w);
    } else {
      assert Staging(d) == 0;
    }
  }

  lemma AfterBlazeKept(apps: nat -> seq<Record>, d: Disk, r: Round)
    requires Sound(apps, d) && BlazeHolds(apps, d, r)
    ensures Kept(apps, Next(d), Begin(d, r)) && Kept(apps, Next(d), AfterBlaze(d, r))
  {
    var w := Polled(Begin(d, r));
    var d1 := AfterBlaze(d, r).disk;
    ScrapedHolds(apps, d, r.scraped);
    assert Sound(apps, d1);
    PutKept(apps, Next(d), w, d1);
  }

  /** One pass keeps the disk sound at every visible step, never moves the frontier back, and ends
      with temp.txt empty. */
  lemma ScrapeKeeps(apps: nat -> seq<Record>, cfg: Config, d: Disk, r: Round)
    requires WellFormedChain(apps) && Sound(apps, d) && TempEmpty(d) && BlazeHolds(apps, d, r)
    ensures var o := Scrape(cfg, d, r);
            Kept(apps, Next(d), o.w) && TempEmpty(o.w.disk)
  {
    var w := Begin(d, r);
    AfterBlazeKept(apps, d, r);
    if BlazeStart(d) <= r.client && !Quits(w) {
      var w1 := AfterBlaze(d, r);
      RipeEmptied(apps, w1.disk);
      PutKept(apps, Next(d), w1, w1.disk.(ripe := []));
      if r.blazeOk && !r.exporting && r.opens {
        BeginCopying(apps, d, r, w1);
        ConsolidationKeeps(apps, Next(d), cfg, w1);
      }
    }
  }
}
