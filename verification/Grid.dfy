/** Snap to grid: chunks end at grid blocks. */
module Grid {
  import opened Util
  import opened Chain
  import opened Pipeline
  import opened Soundness
  import opened Runs
  import opened Chunking
  import opened Recovery

  /** The chunk does not hold both a grid block and a later block. */
  predicate ChunkSnaps(cfg: Config, c: Chunk) {
    forall g :: c.first <= g < c.last ==> !OnGrid(cfg, g)
  }

  predicate AllSnap(cfg: Config, chunks: seq<Chunk>) {
    forall i :: 0 <= i < |chunks| ==> ChunkSnaps(cfg, chunks[i])
  }

  /** No grid block from `lo` up to but not including `end`. */
  predicate Clear(cfg: Config, lo: nat, end: nat) {
    forall g :: lo <= g < end ==> !OnGrid(cfg, g)
  }

  /** Chunks end at grid blocks, and no grid block waits on the stage. */
  predicate Snapped(cfg: Config, d: Disk) {
    AllSnap(cfg, d.chunks) && Clear(cfg, FinalNext(d.chunks), Next(d))
  }

  /** As long as only the last staged block is on the grid, every chunk cut from the stage snaps. */
  lemma {:induction false} WriteSnaps(apps: nat -> seq<Record>, lo: nat, cfg: Config, w: World, chunkSize: nat,
                                      once: bool)
    requires WellFormedChain(apps) && Kept(apps, lo, w) && AllSnap(cfg, w.disk.chunks)
    requires Next(w.disk) > 0 && Clear(cfg, FinalNext(w.disk.chunks), Next(w.disk) - 1)
    ensures var d := WriteChunks(cfg, w, chunkSize, once).w.disk;
            && AllSnap(cfg, d.chunks) && Clear(cfg, FinalNext(d.chunks), Next(w.disk) - 1)
            && FinalNext(w.disk.chunks) <= FinalNext(d.chunks)
    decreases |Staged(w)|, once
  {
    if (once || |Staged(w)| > chunkSize) && !Quits(w) {
      var p := Polled(w);
      WriteStep(cfg, w, chunkSize, once);
      CutKeeps(apps, lo, p, chunkSize);
      var r := CutOnce(p, chunkSize);
      CutSnaps(apps, cfg, p, chunkSize);
      if r.ok { WriteSnaps(apps, lo, cfg, r.w, Min(cfg.maxRows, |Staged(r.w)|), once && |Staged(r.w)| > 0); }
    }
  }

  lemma AppendSnaps(cfg: Config, chunks: seq<Chunk>, c: Chunk, end: nat)
    requires AllSnap(cfg, chunks) && c.first == FinalNext(chunks) && c.first <= c.last <= end
    requires Clear(cfg, FinalNext(chunks), end)
    ensures AllSnap(cfg, chunks + [c]) && Clear(cfg, FinalNext(chunks + [c]), end)
    ensures FinalNext(chunks) <= FinalNext(chunks + [c])
  {
  }

  lemma CutSnaps(apps: nat -> seq<Record>, cfg: Config, w: World, chunkSize: nat)
    requires WellFormedChain(apps) && Sound(apps, w.disk) && AllSnap(cfg, w.disk.chunks)
    requires Next(w.disk) > 0 && Clear(cfg, FinalNext(w.disk.chunks), Next(w.disk) - 1)
    ensures var d := CutOnce(w, chunkSize).w.disk;
            && AllSnap(cfg, d.chunks) && Clear(cfg, FinalNext(d.chunks), Next(w.disk) - 1)
            && FinalNext(w.disk.chunks) <= FinalNext(d.chunks)
  {
    if Staged(w) != [] {
      StagedTabbed(apps, w);
      CutEffect(w, chunkSize);
      var loc := BreakAt(Staged(w), chunkSize);
      var c := ChunkOf(Staged(w)[..loc + 1]);
      assert c.first == FinalNext(w.disk.chunks) && c.first <= c.last < Next(w.disk) by {
        StageCut(apps, w.disk.chunks, w.disk.stage.value, loc);
        CutParts(apps, w.disk.chunks, w.disk.stage.value, loc);
      }
      AppendSnaps(cfg, w.disk.chunks, c, Next(w.disk) - 1);
    }
  }

  /** The stage named newStage is empty exactly when the chunks reach the frontier. */
  lemma DrainedIff(apps: nat -> seq<Record>, w: World)
    requires WellFormedChain(apps) && Sound(apps, w.disk)
    requires w.disk.stage.Some? ==> w.disk.stage.value.name == w.newStage
    ensures Staged(w) == [] <==> FinalNext(w.disk.chunks) == Next(w.disk)
  {
    SpanBlocks(apps, FinalNext(w.disk.chunks), Next(w.disk));
  }

  lemma SnapDrain(apps: nat -> seq<Record>, lo: nat, cfg: Config, w: World, g: nat)
    requires WellFormedChain(apps) && Kept(apps, lo, w) && AllSnap(cfg, w.disk.chunks)
    requires w.disk.stage.Some? && w.disk.stage.value.name == w.newStage && Staged(w) != []
    requires Next(w.disk) == g + 1 && OnGrid(cfg, g) && Clear(cfg, FinalNext(w.disk.chunks), g)
    ensures var size := Min(|Staged(w)|, cfg.maxRows);
            var d := WriteChunks(cfg, w, size, true).w.disk;
            && AllSnap(cfg, d.chunks)
            && (Snapped(cfg, d)
                <==> Undisturbed(w, DrainCount(cfg, Staged(w), size)) && Writable(cfg, Staged(w), size))
  {
    var size := Min(|Staged(w)|, cfg.maxRows);
    var r := WriteChunks(cfg, w, size, true);
    WriteSnaps(apps, lo, cfg, w, size, true);
    WriteKeeps(apps, lo, cfg, w, size, true);
    StagedTabbed(apps, w);
    DrainsIff(cfg, w, size);
    DrainedIff(apps, r.w);
  }

  /** Staging at block `w.prev` puts the whole span up to it on the stage. */
  lemma StagedThere(apps: nat -> seq<Record>, lo: nat, w: World)
    requires WellFormedChain(apps) && Copying(apps, w) && Kept(apps, lo, w) && Positioned(apps, w)
    requires FinalNext(w.disk.chunks) <= w.prev && StageChunks(w).ok
    ensures var v := StageChunks(w).w;
            && Kept(apps, lo, v) && Next(v.disk) == w.prev + 1 && v.disk.chunks == w.disk.chunks
            && v.disk.stage.Some? && v.disk.stage.value.name == v.newStage && Staged(v) != []
            && v.quits == w.quits && v.locks == w.locks
  {
    StageKeeps(apps, lo, w);
    StageEffect(w);
    DrainedIff(apps, StageChunks(w).w);
  }

  /** How often a grid step polls if nothing stops it: once after staging and once per chunk. */
  function SnapPolls(cfg: Config, w: World): nat {
    var s := Staged(StageChunks(w).w);
    1 + DrainCount(cfg, s, Min(|s|, cfg.maxRows))
  }

  /** No chunk of the grid step is too short for the index writer. */
  predicate SnapWritable(cfg: Config, w: World) {
    var s := Staged(StageChunks(w).w);
    Writable(cfg, s, Min(|s|, cfg.maxRows))
  }

  lemma SnapAfter(apps: nat -> seq<Record>, lo: nat, cfg: Config, w: World, v: World)
    requires WellFormedChain(apps) && StageChunks(w) == Outcome(true, v)
    requires Kept(apps, lo, v) && AllSnap(cfg, v.disk.chunks) && v.quits == w.quits && v.locks == w.locks
    requires v.disk.stage.Some? && v.disk.stage.value.name == v.newStage && Staged(v) != []
    requires FinalNext(v.disk.chunks) <= w.prev && Next(v.disk) == w.prev + 1
    requires OnGrid(cfg, w.prev) && Clear(cfg, FinalNext(v.disk.chunks), w.prev)
    ensures var d := Snap(cfg, w).w.disk;
            && AllSnap(cfg, d.chunks)
            && (Snapped(cfg, d) <==> Undisturbed(w, SnapPolls(cfg, w)) && SnapWritable(cfg, w))
  {
    var w2, n := Polled(v), DrainCount(cfg, Staged(v), Min(|Staged(v)|, cfg.maxRows));
    if Quits(v) {
      assert Snap(cfg, w).w.disk == v.disk;
    } else {
      UndisturbedStep(w, w2, 1 + n);
      assert Staged(w2) == Staged(v);
      SnapDrain(apps, lo, cfg, w2, w.prev);
    }
  }

  /** At a grid block, staging and draining leaves the disk snapped exactly when the user does not ask
      to quit at the poll after staging or at one of the polls of the drain, and no chunk of the drain is
      too short. */
  lemma SnapIff(apps: nat -> seq<Record>, lo: nat, cfg: Config, w: World)
    requires WellFormedChain(apps) && Copying(apps, w) && Kept(apps, lo, w) && Positioned(apps, w)
    requires AllSnap(cfg, w.disk.chunks) && Clear(cfg, FinalNext(w.disk.chunks), w.prev) && OnGrid(cfg, w.prev)
    requires FinalNext(w.disk.chunks) <= w.prev && StageChunks(w).ok
    ensures AllSnap(cfg, Snap(cfg, w).w.disk.chunks)
    ensures Snapped(cfg, Snap(cfg, w).w.disk) <==> Undisturbed(w, SnapPolls(cfg, w)) && SnapWritable(cfg, w)
  {
    StagedThere(apps, lo, w);
    SnapAfter(apps, lo, cfg, w, StageChunks(w).w);
  }

  // ----- whole passes -----

  /** If the next ripe file starts a grid step, no poll of that step answers yes and no chunk of it is too
      short. */
  predicate GridStepCalm(cfg: Config, w: World)
    requires w.disk.ripe != []
  {
    var bn, w1 := w.disk.ripe[0].blk, MoveRipe(w.(faults := Tail(w.faults)));
    w.prev + 1 == bn && !Head(w.faults) && OnGrid(cfg, bn) && StageChunks(w1).ok ==>
      Undisturbed(w1, SnapPolls(cfg, w1)) && SnapWritable(cfg, w1)
  }

  /** No grid step of the copy that lies ahead is cut short; other steps may be. */
  predicate GridCalm(cfg: Config, w: World)
    decreases |w.disk.ripe|
  {
    w.disk.ripe == [] || (GridStepCalm(cfg, w) && (CopyOne(cfg, w).ok ==> GridCalm(cfg, CopyOne(cfg, w).w)))
  }

  /** No grid block in what is staged or copied so far. */
  ghost predicate SnapCopying(apps: nat -> seq<Record>, lo: nat, cfg: Config, w: World) {
    && Copying(apps, w) && Kept(apps, lo, w) && !Unlinked(w) && GridCalm(cfg, w)
    && Snapped(cfg, w.disk)
    && (Positioned(apps, w) ==> Clear(cfg, FinalNext(w.disk.chunks), w.prev + 1))
  }

  /** Staging what was copied, if no block of it is on the grid, leaves the disk snapped. */
  lemma StageSnaps(apps: nat -> seq<Record>, lo: nat, cfg: Config, w: World)
    requires WellFormedChain(apps) && SnapCopying(apps, lo, cfg, w)
    ensures Snapped(cfg, StageChunks(w).w.disk)
  {
    StageKeeps(apps, lo, w);
    StageEffect(w);
  }

  lemma GridStep(apps: nat -> seq<Record>, lo: nat, cfg: Config, w: World)
    requires WellFormedChain(apps) && Copying(apps, w) && Kept(apps, lo, w) && Positioned(apps, w)
    requires StageChunks(w).ok ==> Undisturbed(w, SnapPolls(cfg, w)) && SnapWritable(cfg, w)
    requires Snapped(cfg, w.disk) && Clear(cfg, FinalNext(w.disk.chunks), w.prev) && OnGrid(cfg, w.prev)
    requires FinalNext(w.disk.chunks) <= w.prev
    ensures !Snap(cfg, w).ok && Snapped(cfg, Snap(cfg, w).w.disk)
  {
    StageEffect(w);
    if StageChunks(w).ok {
      SnapIff(apps, lo, cfg, w);
      StagedThere(apps, lo, w);
      assert !Quits(StageChunks(w).w);
    }
  }

  lemma CopyOneSnaps(apps: nat -> seq<Record>, lo: nat, cfg: Config, w: World)
    requires WellFormedChain(apps) && SnapCopying(apps, lo, cfg, w) && w.disk.ripe != []
    ensures var r := CopyOne(cfg, w);
            Snapped(cfg, r.w.disk) && (r.ok ==> SnapCopying(apps, lo, cfg, r.w))
  {
    if w.prev + 1 == w.disk.ripe[0].blk && !Head(w.faults) {
      var w0 := w.(faults := Tail(w.faults));
      assert Copying(apps, w0) && Kept(apps, lo, w0);
      MoveKeeps(apps, lo, w0);
      var w1 := MoveRipe(w0);
      MoveSnaps(apps, lo, cfg, w0);
      if OnGrid(cfg, w1.prev) {
        GridStep(apps, lo, cfg, w1);
      } else {
        assert CopyOne(cfg, w).w == Polled(w1);
      }
    }
  }

  /** Copying a block stages nothing. */
  lemma MoveSnaps(apps: nat -> seq<Record>, lo: nat, cfg: Config, w: World)
    requires WellFormedChain(apps) && Copying(apps, w) && Kept(apps, lo, w) && !Unlinked(w) && Snapped(cfg, w.disk)
    requires Positioned(apps, w) ==> Clear(cfg, FinalNext(w.disk.chunks), w.prev + 1)
    requires w.disk.ripe != [] && w.prev + 1 == w.disk.ripe[0].blk
    ensures var w1 := MoveRipe(w);
            && Copying(apps, w1) && Kept(apps, lo, w1) && Positioned(apps, w1) && !Unlinked(w1) && Snapped(cfg, w1.disk)
            && FinalNext(w1.disk.chunks) <= w1.prev && Clear(cfg, FinalNext(w1.disk.chunks), w1.prev)
            && (!OnGrid(cfg, w1.prev) ==> Clear(cfg, FinalNext(w1.disk.chunks), w1.prev + 1))
  {
    MoveKeeps(apps, lo, w);
    var w1 := MoveRipe(w);
    assert Next(w1.disk) == Next(w.disk) <= w1.prev;
    assert Positioned(apps, w);
  }

  lemma {:induction false} CopyAllSnaps(apps: nat -> seq<Record>, lo: nat, cfg: Config, w: World)
    requires WellFormedChain(apps) && SnapCopying(apps, lo, cfg, w)
    ensures var r := CopyAll(cfg, w);
            Snapped(cfg, r.w.disk) && (r.ok ==> SnapCopying(apps, lo, cfg, r.w))
    decreases |w.disk.ripe|
  {
    if w.disk.ripe != [] {
      CopyOneSnaps(apps, lo, cfg, w);
      if CopyOne(cfg, w).ok { CopyAllSnaps(apps, lo, cfg, CopyOne(cfg, w).w); }
    }
  }

  lemma ConsolidateSnaps(apps: nat -> seq<Record>, lo: nat, cfg: Config, w: World)
    requires WellFormedChain(apps) && Kept(apps, lo, w) && Snapped(cfg, w.disk)
    ensures Snapped(cfg, ConsolidateChunks(cfg, w).w.disk)
  {
    if |Staged(w)| > cfg.maxRows {
      WriteSnaps(apps, lo, cfg, w, cfg.maxRows, false);
      WriteKeeps(apps, lo, cfg, w, cfg.maxRows, false);
    }
  }

  lemma ConsolidationSnaps(apps: nat -> seq<Record>, lo: nat, cfg: Config, w: World)
    requires WellFormedChain(apps) && SnapCopying(apps, lo, cfg, w)
    ensures Snapped(cfg, Consolidation(cfg, w).w.disk)
  {
    var c := CopyAll(cfg, w);
    CopyAllSnaps(apps, lo, cfg, w);
    if c.ok {
      var s := StageChunks(c.w);
      StageSnaps(apps, lo, cfg, c.w);
      StageKeeps(apps, lo, c.w);
      if !s.ok { CleanUpKeeps(apps, lo, s.w); }
      var w1 := if s.ok then s.w else CleanUp(s.w);
      assert Snapped(cfg, w1.disk);
      ConsolidateSnaps(apps, lo, cfg, Polled(w1));
    }
  }

  /** If the next ripe file starts a grid step, no chunk of that step is too short. */
  predicate GridStepLong(cfg: Config, w: World)
    requires w.disk.ripe != []
  {
    var bn, w1 := w.disk.ripe[0].blk, MoveRipe(w.(faults := Tail(w.faults)));
    w.prev + 1 == bn && !Head(w.faults) && OnGrid(cfg, bn) && StageChunks(w1).ok ==> SnapWritable(cfg, w1)
  }

  predicate GridLong(cfg: Config, w: World)
    decreases |w.disk.ripe|
  {
    w.disk.ripe == [] || (GridStepLong(cfg, w) && (CopyOne(cfg, w).ok ==> GridLong(cfg, CopyOne(cfg, w).w)))
  }

  /** For a pass that hears no request to quit, the length of the chunks decides. */
  lemma {:induction false} QuietCalmIff(cfg: Config, w: World)
    requires w.locks > 0 || NoneTrue(w.quits)
    ensures GridCalm(cfg, w) <==> GridLong(cfg, w)
    decreases |w.disk.ripe|
  {
    if w.disk.ripe != [] && CopyOne(cfg, w).ok {
      var w1 := MoveRipe(w.(faults := Tail(w.faults)));
      if OnGrid(cfg, w1.prev) { StageEffect(w1); }
      assert CopyOne(cfg, w).w == Polled(w1);
      QuietCalmIff(cfg, Polled(w1));
    }
  }

  // ----- every state of a pass -----

  /** Chunks end at grid blocks, and of the staged blocks at most the last is on the grid. */
  predicate Tidy(cfg: Config, d: Disk) {
    AllSnap(cfg, d.chunks) && Next(d) > 0 && Clear(cfg, FinalNext(d.chunks), Next(d) - 1)
  }

  /** The last staged block is on the grid. */
  predicate GridLeft(cfg: Config, d: Disk) {
    FinalNext(d.chunks) < Next(d) && OnGrid(cfg, Next(d) - 1)
  }

  lemma SnappedIff(apps: nat -> seq<Record>, cfg: Config, d: Disk)
    requires Sound(apps, d)
    ensures Snapped(cfg, d) <==> Tidy(cfg, d) && !GridLeft(cfg, d)
  {
    assert FinalNext(d.chunks) <= Next(d);
    if Tidy(cfg, d) && !GridLeft(cfg, d) {
      forall g | FinalNext(d.chunks) <= g < Next(d) ensures !OnGrid(cfg, g) {
        assert g < Next(d) - 1 || g == Next(d) - 1;
      }
    }
  }

  ghost predicate AllTidy(cfg: Config, w: World) {
    Tidy(cfg, w.disk) && forall i :: 0 <= i < |w.trace| ==> Tidy(cfg, w.trace[i])
  }

  lemma PutTidy(cfg: Config, w: World, d: Disk)
    requires AllTidy(cfg, w) && Tidy(cfg, d)
    ensures AllTidy(cfg, Put(w, d))
  {
  }

  lemma SameIsTidy(cfg: Config, w: World, d: Disk)
    requires AllTidy(cfg, w) && d.stage == w.disk.stage && d.chunks == w.disk.chunks
    ensures AllTidy(cfg, Put(w, d))
  {
    PutTidy(cfg, w, d);
  }

  lemma AppendTempTidy(cfg: Config, w: World, from: Option<seq<Record>>)
    requires AllTidy(cfg, w)
    ensures AllTidy(cfg, AppendTemp(w, from).w)
  {
    var w1 := w.(faults := Tail(w.faults));
    if !Head(w.faults) {
      var w2 := Put(w1, w1.disk.(temp := Some(Contents(w1.disk.temp))));
      SameIsTidy(cfg, w1, w2.disk);
      var w3 := w2.(faults := Tail(w2.faults));
      if from.Some? { SameIsTidy(cfg, w3, w3.disk.(temp := Some(Contents(w3.disk.temp) + from.value))); }
    }
  }

  /** Staging keeps the disk tidy if at most the last block copied is on the grid. */
  lemma StageTidy(apps: nat -> seq<Record>, cfg: Config, w: World)
    requires WellFormedChain(apps) && Copying(apps, w) && AllTidy(cfg, w)
    requires Positioned(apps, w) ==> Clear(cfg, FinalNext(w.disk.chunks), w.prev)
    ensures AllTidy(cfg, StageChunks(w).w)
  {
    var w0 := w.(newStage := w.prev);
    if !StageIsCurrent(w) {
      var r1 := if OldStageIsTmp(w.disk) then Outcome(true, w0) else AppendTemp(w0, OldStage(w.disk));
      AppendTempTidy(cfg, w0, OldStage(w.disk));
      if r1.ok {
        var r2 := AppendTemp(r1.w, r1.w.disk.tmp);
        AppendTempTidy(cfg, r1.w, r1.w.disk.tmp);
        if r2.ok {
          StageEffect(w);
          RenamedSound(apps, w);
          PutTidy(cfg, r2.w, RenamedDisk(w));
        } else {
          SameIsTidy(cfg, r2.w, r2.w.disk.(temp := None));
        }
      }
    }
  }

  lemma CutTidy(apps: nat -> seq<Record>, lo: nat, cfg: Config, w: World, chunkSize: nat)
    requires WellFormedChain(apps) && Kept(apps, lo, w) && AllTidy(cfg, w)
    ensures AllTidy(cfg, CutOnce(w, chunkSize).w)
  {
    if Staged(w) != [] {
      StagedTabbed(apps, w);
      CutEffect(w, chunkSize);
      var loc := BreakAt(Staged(w), chunkSize);
      if !TooShort(Staged(w)[..loc + 1]) {
        CutSnaps(apps, cfg, w, chunkSize);
        CutSound(apps, w.disk, loc);
        PutTidy(cfg, w, CutDisk(w.disk, loc));
      }
    }
  }

  lemma {:induction false} WriteTidy(apps: nat -> seq<Record>, lo: nat, cfg: Config, w: World, chunkSize: nat,
                                     once: bool)
    requires WellFormedChain(apps) && Kept(apps, lo, w) && AllTidy(cfg, w)
    ensures AllTidy(cfg, WriteChunks(cfg, w, chunkSize, once).w)
    decreases |Staged(w)|, once
  {
    if (once || |Staged(w)| > chunkSize) && !Quits(w) {
      var p := Polled(w);
      WriteStep(cfg, w, chunkSize, once);
      CutKeeps(apps, lo, p, chunkSize);
      CutTidy(apps, lo, cfg, p, chunkSize);
      var r := CutOnce(p, chunkSize);
      if r.ok { WriteTidy(apps, lo, cfg, r.w, Min(cfg.maxRows, |Staged(r.w)|), once && |Staged(r.w)| > 0); }
    }
  }

  lemma CleanUpTidy(cfg: Config, w: World)
    requires AllTidy(cfg, w)
    ensures AllTidy(cfg, CleanUp(w))
  {
    var w1 := Put(w, w.disk.(ripe := []));
    SameIsTidy(cfg, w, w1.disk);
    SameIsTidy(cfg, w1, w1.disk.(tmp := None));
  }

  /** Tidy so far, and no grid block among those copied but not yet staged. */
  ghost predicate TidyCopying(apps: nat -> seq<Record>, lo: nat, cfg: Config, w: World) {
    && Copying(apps, w) && Kept(apps, lo, w) && AllTidy(cfg, w)
    && (Positioned(apps, w) ==> Clear(cfg, FinalNext(w.disk.chunks), w.prev + 1))
  }

  lemma SnapTidy(apps: nat -> seq<Record>, lo: nat, cfg: Config, w: World)
    requires WellFormedChain(apps) && Copying(apps, w) && Kept(apps, lo, w) && AllTidy(cfg, w)
    requires Positioned(apps, w) ==> Clear(cfg, FinalNext(w.disk.chunks), w.prev)
    ensures AllTidy(cfg, Snap(cfg, w).w)
  {
    var s := StageChunks(w);
    StageTidy(apps, cfg, w);
    StageKeeps(apps, lo, w);
    if !s.ok {
      CleanUpTidy(cfg, s.w);
    } else if !Quits(s.w) {
      var w2 := Polled(s.w);
      WriteTidy(apps, lo, cfg, w2, Min(|Staged(w2)|, cfg.maxRows), true);
    }
  }

  /** A grid step after which the copy goes on leaves nothing to copy into. */
  lemma SnapUnlinks(apps: nat -> seq<Record>, lo: nat, cfg: Config, w: World)
    requires WellFormedChain(apps) && Copying(apps, w) && Kept(apps, lo, w) && Snap(cfg, w).ok
    requires Positioned(apps, w) ==> Next(w.disk) <= w.prev
    ensures !Positioned(apps, Snap(cfg, w).w)
  {
    StageEffect(w);
  }

  lemma CopyOneTidy(apps: nat -> seq<Record>, lo: nat, cfg: Config, w: World)
    requires WellFormedChain(apps) && TidyCopying(apps, lo, cfg, w) && w.disk.ripe != []
    ensures var r := CopyOne(cfg, w);
            AllTidy(cfg, r.w) && (r.ok ==> TidyCopying(apps, lo, cfg, r.w))
  {
    CopyOneKeeps(apps, lo, cfg, w);
    if w.prev + 1 == w.disk.ripe[0].blk && !Head(w.faults) {
      var w0 := w.(faults := Tail(w.faults));
      assert Copying(apps, w0) && Kept(apps, lo, w0);
      MoveKeeps(apps, lo, w0);
      var w1 := MoveRipe(w0);
      MoveTidy(apps, lo, cfg, w0);
      if OnGrid(cfg, w1.prev) {
        SnapTidy(apps, lo, cfg, w1);
        if Snap(cfg, w1).ok { SnapUnlinks(apps, lo, cfg, w1); }
      }
    }
  }

  lemma MoveTidy(apps: nat -> seq<Record>, lo: nat, cfg: Config, w: World)
    requires WellFormedChain(apps) && TidyCopying(apps, lo, cfg, w) && w.disk.ripe != []
    requires w.prev + 1 == w.disk.ripe[0].blk
    ensures var w1 := MoveRipe(w);
            && AllTidy(cfg, w1)
            && (Positioned(apps, w1) ==>
                  && Clear(cfg, FinalNext(w1.disk.chunks), w1.prev) && Next(w1.disk) <= w1.prev
                  && (!OnGrid(cfg, w1.prev) ==> Clear(cfg, FinalNext(w1.disk.chunks), w1.prev + 1)))
  {
    var w1 := MoveRipe(w);
    SameIsTidy(cfg, w, w1.disk);
    assert Next(w1.disk) == Next(w.disk) <= w1.prev;
    if Positioned(apps, w1) {
      assert !Misplaced(w) && !Unlinked(w);
      assert Positioned(apps, w);
    }
  }

  lemma {:induction false} CopyAllTidy(apps: nat -> seq<Record>, lo: nat, cfg: Config, w: World)
    requires WellFormedChain(apps) && TidyCopying(apps, lo, cfg, w)
    ensures var r := CopyAll(cfg, w);
            AllTidy(cfg, r.w) && (r.ok ==> TidyCopying(apps, lo, cfg, r.w))
    decreases |w.disk.ripe|
  {
    if w.disk.ripe != [] {
      CopyOneTidy(apps, lo, cfg, w);
      if CopyOne(cfg, w).ok { CopyAllTidy(apps, lo, cfg, CopyOne(cfg, w).w); }
    }
  }

  /** Staging and consolidation after the copy. */
  lemma FinishTidy(apps: nat -> seq<Record>, lo: nat, cfg: Config, w: World)
    requires WellFormedChain(apps) && TidyCopying(apps, lo, cfg, w)
    ensures var s := StageChunks(w);
            var w1 := if s.ok then s.w else CleanUp(s.w);
            AllTidy(cfg, w1) && AllTidy(cfg, ConsolidateChunks(cfg, Polled(w1)).w)
  {
    var s := StageChunks(w);
    StageTidy(apps, cfg, w);
    StageKeeps(apps, lo, w);
    if !s.ok {
      CleanUpTidy(cfg, s.w);
      CleanUpKeeps(apps, lo, s.w);
    }
    var p := Polled(if s.ok then s.w else CleanUp(s.w));
    WriteTidy(apps, lo, cfg, p, cfg.maxRows, false);
  }

  lemma ConsolidationTidy(apps: nat -> seq<Record>, lo: nat, cfg: Config, w: World)
    requires WellFormedChain(apps) && TidyCopying(apps, lo, cfg, w)
    ensures AllTidy(cfg, Consolidation(cfg, w).w)
  {
    var c := CopyAll(cfg, w);
    CopyAllTidy(apps, lo, cfg, w);
    if !c.ok {
      CleanUpTidy(cfg, c.w);
    } else {
      FinishTidy(apps, lo, cfg, c.w);
    }
  }

  /** A pass from a snapped disk, whatever stops it and whenever, goes only through tidy states. */
  lemma ScrapeTidy(apps: nat -> seq<Record>, cfg: Config, d: Disk, r: Round)
    requires WellFormedChain(apps) && Sound(apps, d) && TempEmpty(d) && Snapped(cfg, d) && BlazeHolds(apps, d, r)
    ensures AllTidy(cfg, Scrape(cfg, d, r).w)
  {
    var w, w1 := Begin(d, r), AfterBlaze(d, r);
    SnappedIff(apps, cfg, d);
    assert AllTidy(cfg, w);
    SameIsTidy(cfg, Polled(w), w1.disk);
    SameIsTidy(cfg, w1, w1.disk.(ripe := []));
    if ReachesCopy(d, r) {
      AfterBlazeKept(apps, d, r);
      BeginCopying(apps, d, r, w1);
      ConsolidationTidy(apps, Next(d), cfg, w1);
    }
  }

  // ----- whole runs -----

  /** No grid step is cut short by a request to quit or by a chunk that is too short, and no abrupt exit
      leaves a grid block last on the stage. */
  predicate CalmAtGrid(cfg: Config, d: Disk, e: Event) {
    match e
    case Pass(r) => ReachesCopy(d, r) ==> GridCalm(cfg, AfterBlaze(d, r))
    case Killed(_, _) => !GridLeft(cfg, After(cfg, d, e))
    case Restart => true
  }

  lemma BeginSnapCopying(apps: nat -> seq<Record>, cfg: Config, d: Disk, r: Round)
    requires WellFormedChain(apps) && Sound(apps, d) && TempEmpty(d) && Snapped(cfg, d)
    requires BlazeHolds(apps, d, r) && ReachesCopy(d, r) && GridCalm(cfg, AfterBlaze(d, r))
    ensures SnapCopying(apps, Next(d), cfg, AfterBlaze(d, r))
  {
    var w := AfterBlaze(d, r);
    AfterBlazeKept(apps, d, r);
    BeginCopying(apps, d, r, w);
  }

  /** From a snapped disk, after any event: every chunk ends at a grid block if it reaches one, and the disk
      is snapped again exactly if no grid block is last on the stage. */
  lemma EventSnapsIff(apps: nat -> seq<Record>, cfg: Config, d: Disk, e: Event)
    requires WellFormedChain(apps) && Sound(apps, d) && TempEmpty(d) && Snapped(cfg, d)
    requires BlazeBehaves(apps, d, e) && Harmless(cfg, d, e)
    ensures AllSnap(cfg, After(cfg, d, e).chunks)
    ensures Snapped(cfg, After(cfg, d, e)) <==> !GridLeft(cfg, After(cfg, d, e))
  {
    SnappedIff(apps, cfg, d);
    if !e.Restart? { ScrapeTidy(apps, cfg, d, e.round); }
    EventKeeps(apps, cfg, d, e);
    SnappedIff(apps, cfg, After(cfg, d, e));
  }

  lemma EventSnaps(apps: nat -> seq<Record>, cfg: Config, d: Disk, e: Event)
    requires WellFormedChain(apps) && Sound(apps, d) && TempEmpty(d) && Snapped(cfg, d)
    requires BlazeBehaves(apps, d, e) && Harmless(cfg, d, e) && CalmAtGrid(cfg, d, e)
    ensures Snapped(cfg, After(cfg, d, e))
  {
    if e.Killed? {
      EventSnapsIff(apps, cfg, d, e);
    } else if e.Pass? && ReachesCopy(d, e.round) {
      BeginSnapCopying(apps, cfg, d, e.round);
      ConsolidationSnaps(apps, Next(d), cfg, AfterBlaze(d, e.round));
    }
  }

  /** Every event of the run is calm at the grid. */
  predicate RunCalmAtGrid(cfg: Config, d: Disk, events: seq<Event>)
    decreases |events|
  {
    events == [] || (CalmAtGrid(cfg, d, events[0]) && RunCalmAtGrid(cfg, After(cfg, d, events[0]), events[1..]))
  }

  /** In every run in which no grid step is cut short, whatever else fails or stops, no finalized chunk
      holds both a grid block and a later block, and no grid block waits on the stage. */
  lemma {:induction false} EveryCalmRunSnaps(apps: nat -> seq<Record>, cfg: Config, d: Disk, events: seq<Event>)
    requires WellFormedChain(apps) && Sound(apps, d) && TempEmpty(d) && Snapped(cfg, d)
    requires Runnable(apps, cfg, d, events) && RunCalmAtGrid(cfg, d, events)
    ensures Snapped(cfg, Run(cfg, d, events))
    decreases |events|
  {
    if events != [] {
      EventSnaps(apps, cfg, d, events[0]);
      EventKeeps(apps, cfg, d, events[0]);
      EveryCalmRunSnaps(apps, cfg, After(cfg, d, events[0]), events[1..]);
    }
  }
}
