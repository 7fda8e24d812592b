/** The consolidator and the pass that drives it, as they update the disk step by step. Each method is
    proved to compute the function of `Pipeline` that carries its name. */
module Scraper {
  import opened Util
  import opened Chain
  import opened Pipeline
  import opened Soundness
  import opened Runs

  /** The break search of write_chunks: start at record `chunkSize - 1`, remember the block number of
      the first record looked at, and stop one before it changes. */
  method FindBreak(lines: seq<Record>, chunkSize: nat) returns (loc: nat)
    requires |lines| > 0
    ensures loc == BreakAt(lines, chunkSize)
    ensures 0 < chunkSize <= |lines| ==> chunkSize - 1 <= loc
    ensures loc < |lines| && (loc + 1 == |lines| || lines[loc + 1].blk != lines[loc].blk)
  {
    var found: Option<nat> := None;
    var prevBlock: Option<nat> := None;
    var start := if chunkSize == 0 then |lines| else chunkSize - 1;
    var record := start;
    while record < |lines| && found.None?
      invariant start <= record
      invariant prevBlock.None? <==> record == start
      invariant prevBlock.Some? && found.None? ==>
                  start < record <= |lines| && prevBlock.value == lines[record - 1].blk
                  && EndOfBlock(lines, start) == EndOfBlock(lines, record - 1)
      invariant found.Some? ==> start < |lines| && found.value == EndOfBlock(lines, start)
      decreases |lines| - record, found.None?
    {
      if prevBlock != Some(lines[record].blk) {
        if prevBlock.Some? {
          found := Some(record - 1);
        }
        prevBlock := Some(lines[record].blk);
      }
      record := record + 1;
    }
    loc := if found.Some? then found.value else |lines| - 1;
  }

  /** Collect the lines of a chunk, checking that each has two tabs. */
  method TakeLines(lines: seq<Record>, loc: nat) returns (good: bool, taken: seq<Record>)
    requires loc < |lines|
    ensures good <==> AllTabbed(lines[..loc + 1])
    ensures good ==> taken == lines[..loc + 1]
  {
    taken := [];
    var record := 0;
    while record <= loc
      invariant 0 <= record <= loc + 1 && taken == lines[..record] && AllTabbed(taken)
    {
      if lines[record].tabs != 2 {
        assert lines[..loc + 1][record].tabs != 2;
        return false, taken;
      }
      taken := taken + [lines[record]];
      record := record + 1;
    }
    good := true;
  }

  class Consolidator {
    var disk: Disk
    var prevBlock: nat
    var newStage: nat
    var linked: bool
    var locks: nat
    var alive: bool
    var quits: seq<bool>
    var faults: seq<bool>
    ghost var trace: seq<Disk>

    ghost function World(): World
      reads this
    {
      Pipeline.World(disk, prevBlock, newStage, linked, locks, alive, quits, faults, trace)
    }

    /** Read the position from the disk, then truncate the temporary stage. */
    constructor (d: Disk, r: Round)
      ensures World() == Begin(d, r)
    {
      prevBlock := if d.stage.Some? then d.stage.value.name else if d.tmp.Some? then 0 else Pipeline.Finalized(d);
      newStage := 0;
      linked := r.opens;
      locks := r.locks;
      alive := true;
      quits := r.quits;
      faults := r.faults;
      var d1 := if r.opens then d.(tmp := Some([])) else d;
      disk := d1;
      trace := [d1];
    }

    /** Make a change to the disk visible. */
    method Commit(d: Disk)
      modifies this`disk, this`trace
      ensures World() == Put(old(World()), d)
    {
      disk := d;
      trace := trace + [d];
    }

    method ShouldQuit() returns (quit: bool)
      modifies this`quits
      ensures quit == Quits(old(World())) && World() == Polled(old(World()))
    {
      quit := locks == 0 && |quits| > 0 && quits[0];
      quits := if |quits| > 0 then quits[1..] else [];
    }

    method CannotOpen() returns (fault: bool)
      modifies this`faults
      ensures fault == Head(old(faults)) && World() == old(World()).(faults := Tail(old(faults)))
    {
      fault := |faults| > 0 && faults[0];
      faults := if |faults| > 0 then faults[1..] else [];
    }

    method AppendTemp(from: Option<seq<Record>>) returns (ok: bool)
      modifies this
      ensures Outcome(ok, World()) == Pipeline.AppendTemp(old(World()), from)
    {
      var fault := CannotOpen();
      if fault {
        return false;
      }
      Commit(disk.(temp := Some(Contents(disk.temp))));
      fault := CannotOpen();
      if from.None? || fault {
        return false;
      }
      Commit(disk.(temp := Some(Contents(disk.temp) + from.value)));
      return true;
    }

    method StageChunks() returns (ok: bool)
      modifies this
      ensures Outcome(ok, World()) == Pipeline.StageChunks(old(World()))
    {
      newStage := prevBlock;
      if disk.stage.Some? && disk.stage.value.name == newStage {
        return true;
      }
      if !(disk.stage.None? && disk.tmp.Some?) {
        var from := if disk.stage.Some? then Some(disk.stage.value.recs) else None;
        ok := AppendTemp(from);
        if !ok {
          return false;
        }
      }
      ok := AppendTemp(disk.tmp);
      if !ok {
        Commit(disk.(temp := None));
        return false;
      }
      var merged := StageFile(newStage, Contents(disk.temp));
      Commit(disk.(temp := None, tmp := None, stage := Some(merged)));
      linked := false;
      return true;
    }

    /** The number of records of the file newStage, zero if it is missing. */
    method CountStaged() returns (nRecords: nat)
      ensures nRecords == |Staged(World())|
    {
      nRecords := if disk.stage.Some? && disk.stage.value.name == newStage then |disk.stage.value.recs| else 0;
    }

    /** Write the lines of a chunk in sorted order, and what remains back to the stage. */
    method WriteChunk(consolidated: seq<Record>, remaining: seq<Record>)
      requires consolidated != []
      modifies this`disk, this`trace
      ensures World() == Put(old(World()), old(disk).(chunks := old(disk).chunks + [ChunkOf(consolidated)],
                                                      stage := RestStage(newStage, remaining)))
    {
      var chunk := Chunk(consolidated[0].blk, consolidated[|consolidated| - 1].blk, SortRecords(consolidated));
      var rest := if remaining == [] then None else Some(StageFile(newStage, remaining));
      Commit(disk.(chunks := disk.chunks + [chunk], stage := rest));
    }

    /** The locked part of the write_chunks loop. */
    method CutChunk(chunkSize: nat) returns (ok: bool)
      modifies this
      ensures Outcome(ok, World()) == CutOnce(old(World()), chunkSize)
    {
      locks := locks + 1;
      var nRecords := CountStaged();
      if nRecords > 0 {
        var lines := disk.stage.value.recs;
        var loc := FindBreak(lines, chunkSize);
        var good, consolidated := TakeLines(lines, loc);
        if !good {
          return false;
        }
        var notifyCnt := |consolidated| / 12;
        if notifyCnt == 0 {
          // the index writer takes the remainder by notifyCnt
          alive, locks := false, locks - 1;
          return false;
        }
        WriteChunk(consolidated, lines[loc + 1..]);
      }
      locks := locks - 1;
      return true;
    }

    method WriteChunks(cfg: Config, size: nat, onceIn: bool) returns (ok: bool)
      modifies this
      ensures Outcome(ok, World()) == Pipeline.WriteChunks(cfg, old(World()), size, onceIn)
    {
      var chunkSize, once := size, onceIn;
      var nRecords := CountStaged();
      while once || nRecords > chunkSize
        invariant nRecords == |Staged(World())|
        invariant Pipeline.WriteChunks(cfg, World(), chunkSize, once)
                  == Pipeline.WriteChunks(cfg, old(World()), size, onceIn)
        decreases |Staged(World())|, once
      {
        ghost var w := World();
        var quit := ShouldQuit();
        assert Staged(World()) == Staged(w);
        if quit {
          return true;
        }
        ok := CutChunk(chunkSize);
        if !ok {
          return false;
        }
        nRecords := CountStaged();
        if once {
          once := nRecords > 0;
        }
        chunkSize := Min(cfg.maxRows, nRecords);
      }
      return true;
    }

    method ConsolidateChunks(cfg: Config) returns (ok: bool)
      modifies this
      ensures Outcome(ok, World()) == Pipeline.ConsolidateChunks(cfg, old(World()))
    {
      var nRecords := CountStaged();
      if nRecords <= cfg.maxRows {
        return true;
      }
      ok := WriteChunks(cfg, cfg.maxRows, false);
    }

    method CleanUp()
      modifies this
      ensures World() == Pipeline.CleanUp(old(World()))
    {
      Commit(disk.(ripe := []));
      Commit(disk.(tmp := None));
      linked := false;
    }

    /** Visit the first file of the ripe folder; false stops the visit of the folder. */
    method CopyRipeToStage(cfg: Config) returns (goOn: bool)
      requires disk.ripe != []
      modifies this
      ensures Outcome(goOn, World()) == CopyOne(cfg, old(World()))
    {
      var bn, recs := disk.ripe[0].blk, disk.ripe[0].recs;
      if prevBlock + 1 != bn {
        return false;
      }
      var fault := CannotOpen();
      if fault {
        return false;
      }
      var tmp := if linked then Some(Contents(disk.tmp) + recs) else disk.tmp;
      Commit(disk.(ripe := disk.ripe[1..], tmp := tmp));
      prevBlock := bn;
      if bn > cfg.firstSnap && bn % cfg.gridBlks == 0 {
        var ok := StageChunks();
        if !ok {
          CleanUp();
          return false;
        }
        var quit := ShouldQuit();
        if quit {
          return true;
        }
        var nRecords := CountStaged();
        ok := WriteChunks(cfg, Min(nRecords, cfg.maxRows), true);
        return false;
      }
      var quit := ShouldQuit();
      return !quit;
    }

    method CopyAllRipe(cfg: Config) returns (finished: bool)
      modifies this
      ensures Outcome(finished, World()) == CopyAll(cfg, old(World()))
    {
      while disk.ripe != []
        invariant CopyAll(cfg, World()) == CopyAll(cfg, old(World()))
        decreases |disk.ripe|
      {
        var goOn := CopyRipeToStage(cfg);
        if !goOn {
          return false;
        }
      }
      return true;
    }

    /** The pass from blaze on. Blaze itself is the parameter `r`. */
    method Pass(cfg: Config, blazeStart: nat, r: Round) returns (ok: bool)
      modifies this
      ensures Outcome(ok, World()) == PassFrom(cfg, old(World()), blazeStart, r)
    {
      if blazeStart > r.client {
        return false;
      }
      var quit := ShouldQuit();
      if quit {
        return false;
      }
      Commit(disk.(ripe := disk.ripe + r.scraped));
      if !r.blazeOk {
        Commit(disk.(ripe := []));
        return false;
      }
      if r.exporting || !r.opens {
        return false;
      }
      var finished := CopyAllRipe(cfg);
      if !finished {
        if alive {
          CleanUp();
        }
        return false;
      }
      ok := StageChunks();
      if !ok {
        CleanUp();
      }
      quit := ShouldQuit();
      if quit {
        return false;
      }
      ok := ConsolidateChunks(cfg);
    }
  }

  /** One call of scrape_blocks on a sound disk: the new disk is the function of the old one, every
      record is still there exactly once, and the frontier has not moved back. */
  method ScrapeBlocks(cfg: Config, d: Disk, r: Round, ghost apps: nat -> seq<Record>) returns (ok: bool, d': Disk)
    requires WellFormedChain(apps) && Sound(apps, d) && TempEmpty(d) && BlazeHolds(apps, d, r)
    ensures ok == Scrape(cfg, d, r).ok && d' == Scrape(cfg, d, r).w.disk
    ensures Sound(apps, d') && TempEmpty(d') && Next(d) <= Next(d')
    ensures multiset(AllRows(d'.chunks)) + multiset(StageRecs(d'.stage)) == multiset(Span(apps, 0, Next(d')))
  {
    var cons := new Consolidator(d, r);
    var blazeStart := BlazeStart(d);
    ok := cons.Pass(cfg, blazeStart, r);
    d' := cons.disk;
    assert Outcome(ok, cons.World()) == Scrape(cfg, d, r);
    ScrapeKeeps(apps, cfg, d, r);
    Conservation(apps, d');
  }
}
