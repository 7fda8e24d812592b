/** Short runs from the block-zero index in which the pipeline does not do what its comments promise. Each
    shows that the matching condition in `Recovery` or `Grid` is met by real runs. */
module Scenarios {
  import opened Util
  import opened Chain
  import opened Pipeline
  import opened Soundness
  import opened Runs
  import opened Recovery
  import opened Chunking
  import opened Grid

  /** A block with `n` appearances of one address. */
  function Block(b: nat, n: nat): (recs: seq<Record>)
    ensures |recs| == n && forall i :: 0 <= i < n ==> recs[i].blk == b && recs[i].tabs == 2
  {
    seq(n, i requires 0 <= i < n => Record(7, b, i, 2))
  }

  /** An undisturbed pass for which blaze adds the one file `f`. */
  function Solo(f: RipeFile): Round {
    Round(f.blk, true, true, [f], false, 0, [], [])
  }

  /** A pass near the head of the chain for which blaze adds nothing; acctExport may be running after it. */
  function Idle(client: nat, exporting: bool): Round {
    Round(client, true, true, [], exporting, 0, [], [])
  }

  // ----- runs, event by event -----

  lemma {:induction false} RunSnoc(apps: nat -> seq<Record>, cfg: Config, d: Disk, events: seq<Event>, e: Event)
    ensures Run(cfg, d, events + [e]) == After(cfg, Run(cfg, d, events), e)
    ensures var d1 := Run(cfg, d, events);
            Runnable(apps, cfg, d, events) && BlazeBehaves(apps, d1, e) && Harmless(cfg, d1, e)
            ==> Runnable(apps, cfg, d, events + [e])
    decreases |events|
  {
    if events == [] {
      assert events + [e] == [e] && [e][1..] == [];
      assert Run(cfg, d, [e]) == Run(cfg, After(cfg, d, e), []);
      assert Runnable(apps, cfg, After(cfg, d, e), []);
    } else {
      assert (events + [e])[1..] == events[1..] + [e] && (events + [e])[0] == events[0];
      RunSnoc(apps, cfg, After(cfg, d, events[0]), events[1..], e);
    }
  }

  lemma BlazeOne(apps: nat -> seq<Record>, d: Disk, f: RipeFile, r: Round)
    requires r.scraped == [f] && f.recs == apps(f.blk) && BlazeStart(d) == f.blk
    ensures BlazeBehaves(apps, d, Pass(r))
  {
  }

  // ----- one block at a time -----

  /** `staged` is on the stage and the block of `f` is next. */
  predicate ReadyFor(d: Disk, staged: seq<Record>, f: RipeFile) {
    && d.ripe == [] && d.tmp.None? && d.temp.None? && BlazeStart(d) == f.blk == Staging(d) + 1
    && d.stage == RestStage(f.blk - 1, staged) && AllTabbed(staged)
  }

  /** The block is copied and staged. */
  lemma StageBlock(d: Disk, staged: seq<Record>, f: RipeFile, r: Round, w1: World)
    requires ReadyFor(d, staged, f) && r == Solo(f).(quits := r.quits)
    requires w1 == MoveRipe(AfterBlaze(d, r))
    ensures w1.prev == f.blk && w1.disk.ripe == [] && w1.quits == Tail(r.quits) && w1.locks == 0 && w1.alive
    ensures var s := StageChunks(w1);
            && s.ok && s.w.disk == d.(stage := Some(StageFile(f.blk, staged + f.recs)))
            && s.w.newStage == s.w.prev == f.blk && s.w.quits == w1.quits && s.w.locks == 0 && s.w.alive
  {
    var w := AfterBlaze(d, r);
    assert w.disk.ripe == [f];
    assert w.disk.ripe[1..] == [] && [] + f.recs == f.recs && [] + staged == staged;
    assert w1.disk == d.(tmp := Some(f.recs));
  }

  /** The locked cut of a whole stage. */
  lemma CutAll(w: World, recs: seq<Record>, chunkSize: nat)
    requires Staged(w) == recs && 12 <= |recs| && AllTabbed(recs) && BreakAt(recs, chunkSize) + 1 == |recs|
    ensures CutOnce(w, chunkSize)
            == Outcome(true, Put(w, w.disk.(chunks := w.disk.chunks + [ChunkOf(recs)], stage := None)))
  {
    assert recs[..|recs|] == recs && recs[|recs|..] == [];
  }

  lemma {:induction false} BlockEnd(recs: seq<Record>, i: nat)
    requires i < |recs| && forall j :: i <= j < |recs| ==> recs[j].blk == recs[i].blk
    ensures EndOfBlock(recs, i) == |recs| - 1
    decreases |recs| - i
  {
    if i + 1 < |recs| { BlockEnd(recs, i + 1); }
  }

  /** The block is large and not on the grid: with what was staged it becomes one chunk. */
  lemma WidePass(cfg: Config, d: Disk, staged: seq<Record>, f: RipeFile)
    requires ReadyFor(d, staged, f) && !OnGrid(cfg, f.blk) && AllTabbed(f.recs)
    requires |staged| < cfg.maxRows < |f.recs| && forall i :: 0 <= i < |f.recs| ==> f.recs[i].blk == f.blk
    ensures After(cfg, d, Pass(Solo(f))) == d.(stage := None, chunks := d.chunks + [ChunkOf(staged + f.recs)])
  {
    var r := Solo(f);
    var w := AfterBlaze(d, r);
    assert w.disk.ripe == [f];
    var w1 := MoveRipe(w);
    StageBlock(d, staged, f, r, w1);
    assert CopyAll(cfg, w) == Outcome(true, Polled(w1)) by {
      assert CopyOne(cfg, w) == Outcome(true, Polled(w1));
    }
    assert StageChunks(Polled(w1)).w == StageChunks(w1).w;
    WideEnd(cfg, d, Polled(StageChunks(w1).w), staged + f.recs, f.blk, |staged|);
  }

  /** The consolidation of a stage whose records from number `n` on are of one block. */
  lemma WideEnd(cfg: Config, d: Disk, w: World, recs: seq<Record>, b: nat, n: nat)
    requires w.disk == d.(stage := Some(StageFile(b, recs))) && w.newStage == b && w.quits == []
    requires AllTabbed(recs) && n < cfg.maxRows < |recs| && forall i :: n <= i < |recs| ==> recs[i].blk == b
    ensures ConsolidateChunks(cfg, w).w.disk == d.(stage := None, chunks := d.chunks + [ChunkOf(recs)])
  {
    BlockEnd(recs, cfg.maxRows - 1);
    WriteStep(cfg, w, cfg.maxRows, false);
    CutAll(Polled(w), recs, cfg.maxRows);
  }

  /** The block is on the grid and small, and nothing was staged: the process dies and leaves it there. */
  lemma ThinPass(cfg: Config, d: Disk, f: RipeFile)
    requires ReadyFor(d, [], f) && OnGrid(cfg, f.blk) && 0 < |f.recs| && TooShort(f.recs) && AllTabbed(f.recs)
    ensures After(cfg, d, Pass(Solo(f))) == d.(stage := Some(StageFile(f.blk, f.recs)))
  {
    var r := Solo(f);
    var w := AfterBlaze(d, r);
    assert w.disk.ripe == [f];
    var w1 := MoveRipe(w);
    StageBlock(d, [], f, r, w1);
    assert [] + f.recs == f.recs;
    ThinEnd(cfg, Polled(StageChunks(w1).w), f.recs);
    assert CopyOne(cfg, w) == Snap(cfg, w1);
    assert CopyAll(cfg, w) == CopyOne(cfg, w);
  }

  lemma ThinEnd(cfg: Config, w: World, recs: seq<Record>)
    requires Staged(w) == recs && 0 < |recs| && TooShort(recs) && AllTabbed(recs) && !Quits(w)
    ensures var o := WriteChunks(cfg, w, Min(|recs|, cfg.maxRows), true);
            !o.ok && o.w == Polled(w).(alive := false)
  {
    WriteStep(cfg, w, |recs|, true);
    CutEffect(Polled(w), |recs|);
  }

  /** The block is on the grid and the user asks to quit right after it is staged. */
  lemma QuitPass(cfg: Config, d: Disk, f: RipeFile, r: Round)
    requires ReadyFor(d, [], f) && OnGrid(cfg, f.blk) && |f.recs| <= cfg.maxRows
    requires r == Solo(f).(quits := [false, true, true])
    ensures After(cfg, d, Pass(r)) == d.(stage := Some(StageFile(f.blk, f.recs)))
  {
    var w := AfterBlaze(d, r);
    assert w.disk.ripe == [f];
    var w1 := MoveRipe(w);
    StageBlock(d, [], f, r, w1);
    assert [] + f.recs == f.recs;
    var s := StageChunks(w1).w;
    assert CopyAll(cfg, w) == Outcome(true, Polled(s)) by {
      assert CopyOne(cfg, w) == Outcome(true, Polled(s));
    }
    assert StageChunks(Polled(s)) == Outcome(true, Polled(s));
  }

  // ----- killed between append and rename -----

  /** Twelve appearances in block 0 and one in every other block. */
  function Narrow(b: nat): seq<Record> {
    Block(b, if b == 0 then 12 else 1)
  }

  /** The pass after block zero stages block 1; what was in temp.txt comes first. */
  lemma FirstPass(cfg: Config, d: Disk, f: RipeFile)
    requires d == Genesis(Narrow).(temp := d.temp) && |Contents(d.temp)| <= 1 && AllTabbed(Contents(d.temp))
    requires f == RipeFile(1, Narrow(1))
    ensures var o := Scrape(cfg, d, Solo(f));
            && |o.w.trace| > 4
            && o.w.trace[4] == d.(tmp := Some(f.recs), temp := Some(Contents(d.temp) + f.recs))
            && o.w.disk.stage == Some(StageFile(1, Contents(d.temp) + f.recs))
  {
    var w := AfterBlaze(d, Solo(f));
    assert w.disk.ripe == [f];
    var w1 := MoveRipe(w);
    assert w.disk.ripe[1..] == [] && [] + f.recs == f.recs;
    assert w1.disk == d.(tmp := Some(f.recs));
    var both := Contents(d.temp) + f.recs;
    if OnGrid(cfg, 1) {
      FirstGridPass(cfg, d, w, w1, both);
    } else {
      FirstPlainPass(cfg, d, w, w1, both);
    }
  }

  predicate Copied(d: Disk, w: World, w1: World, both: seq<Record>) {
    && |w.disk.ripe| == 1 && w.disk.ripe[0].blk == 1 && w.prev == 0 && w.faults == [] && w.quits == [] && w.locks == 0
    && w.alive && |w.trace| == 2 && w1 == MoveRipe(w) && w1.disk == d.(tmp := w1.disk.tmp)
    && d.ripe == [] && d.stage.None? && w1.disk.tmp.Some? && w1.disk.tmp.value == Narrow(1)
    && both == Contents(d.temp) + Narrow(1) && |both| <= 2 && AllTabbed(both)
  }

  lemma FirstStage(d: Disk, w: World, w1: World, both: seq<Record>)
    requires Copied(d, w, w1, both)
    ensures var s := StageChunks(w1);
            && s.ok && s.w.disk == d.(temp := None, tmp := None, stage := Some(StageFile(1, both))) && s.w.alive
            && s.w.newStage == 1 && s.w.quits == [] && s.w.locks == 0
            && |s.w.trace| == 6 && s.w.trace[4] == w1.disk.(temp := Some(both))
  {
  }

  lemma FirstPlainPass(cfg: Config, d: Disk, w: World, w1: World, both: seq<Record>)
    requires Copied(d, w, w1, both) && !OnGrid(cfg, 1)
    ensures var o := Consolidation(cfg, w);
            && |o.w.trace| > 4 && o.w.trace[4] == w1.disk.(temp := Some(both))
            && o.w.disk.stage == Some(StageFile(1, both))
  {
    FirstStage(d, w, w1, both);
    assert CopyAll(cfg, w) == Outcome(true, Polled(w1)) by {
      assert CopyOne(cfg, w) == Outcome(true, Polled(w1));
    }
    assert Polled(w1) == w1;
    assert Staged(Polled(StageChunks(w1).w)) == both;
  }

  lemma FirstGridPass(cfg: Config, d: Disk, w: World, w1: World, both: seq<Record>)
    requires Copied(d, w, w1, both) && OnGrid(cfg, 1)
    ensures var o := Consolidation(cfg, w);
            && |o.w.trace| > 4 && o.w.trace[4] == w1.disk.(temp := Some(both))
            && o.w.disk.stage == Some(StageFile(1, both))
  {
    FirstStage(d, w, w1, both);
    ThinEnd(cfg, Polled(StageChunks(w1).w), both);
    assert CopyOne(cfg, w) == Snap(cfg, w1);
    assert CopyAll(cfg, w) == CopyOne(cfg, w);
  }

  /** Whatever the configuration, killing the process between the append to temp.txt and its rename makes
      the next pass stage the same block twice. */
  lemma KillCorrupts(cfg: Config) returns (events: seq<Event>)
    ensures WellFormedChain(Narrow)
    ensures Run(cfg, Genesis(Narrow), events).stage == Some(StageFile(1, Narrow(1) + Narrow(1)))
    ensures !Sound(Narrow, Run(cfg, Genesis(Narrow), events))
  {
    var f := RipeFile(1, Narrow(1));
    var r := Solo(f);
    events := [Killed(r, 4), Restart, Pass(r)];
    var d0 := Genesis(Narrow);
    var d1 := d0.(tmp := Some(f.recs), temp := Some(f.recs));
    assert After(cfg, d0, Killed(r, 4)) == d1 by {
      FirstPass(cfg, d0, f);
      assert Contents(d0.temp) + f.recs == f.recs;
    }
    var d2 := d0.(temp := Some(f.recs));
    assert After(cfg, d1, Restart) == d2;
    FirstPass(cfg, d2, f);
    RunThree(cfg, d0, d1, d2, events[0], Restart, Pass(r));
    Twice(Run(cfg, d0, events));
  }

  lemma RunThree(cfg: Config, d: Disk, d1: Disk, d2: Disk, a: Event, b: Event, c: Event)
    requires After(cfg, d, a) == d1 && After(cfg, d1, b) == d2
    ensures Run(cfg, d, [a, b, c]) == After(cfg, d2, c)
  {
    assert [a, b, c][1..] == [b, c] && [b, c][1..] == [c] && [c][1..] == [];
    assert Run(cfg, d2, [c]) == Run(cfg, After(cfg, d2, c), []);
    assert Run(cfg, d1, [b, c]) == Run(cfg, d2, [c]);
  }

  lemma Twice(d: Disk)
    requires d.stage == Some(StageFile(1, Narrow(1) + Narrow(1)))
    ensures !Sound(Narrow, d)
  {
    assert |Span(Narrow, 1, 2)| == 1 by { assert Span(Narrow, 1, 2) == Span(Narrow, 1, 1) + Narrow(1); }
    if Sound(Narrow, d) {
      var recs := d.stage.value.recs;
      assert recs[1].blk == 1 && Next(d) == 2;
      assert recs == Span(Narrow, FinalNext(d.chunks), 2);
      SpanBlocks(Narrow, FinalNext(d.chunks), 2);
      assert false;
    }
  }

  // ----- from the block-zero index to the first grid block -----

  /** Blocks on the grid have `thin` appearances, all others one more than MAX_ROWS. */
  function Size(cfg: Config, thin: pos, b: nat): pos {
    if OnGrid(cfg, b) then thin else cfg.maxRows + 1
  }

  function Uneven(cfg: Config, thin: pos): nat -> seq<Record> {
    (b: nat) => Block(b, Size(cfg, thin, b))
  }

  function File(cfg: Config, thin: pos, b: nat): RipeFile {
    RipeFile(b, Block(b, Size(cfg, thin, b)))
  }

  lemma UnevenHolds(cfg: Config, thin: pos)
    ensures WellFormedChain(Uneven(cfg, thin))
    ensures forall b :: Uneven(cfg, thin)(b) == Block(b, Size(cfg, thin, b))
  {
  }

  /** Blocks 0 to `k` are in chunks and there is nothing else. */
  predicate Drained(d: Disk, k: nat) {
    d == Disk([], None, None, None, d.chunks) && d.chunks != [] && Finalized(d) == k
  }

  lemma DrainedIsReady(cfg: Config, thin: pos, d: Disk, k: nat)
    requires Drained(d, k)
    ensures ReadyFor(d, [], File(cfg, thin, k + 1))
  {
  }

  lemma WideStep(cfg: Config, thin: pos, d: Disk, k: nat, f: RipeFile) returns (d1: Disk)
    requires Drained(d, k) && !OnGrid(cfg, k + 1) && f == File(cfg, thin, k + 1)
    ensures d1 == After(cfg, d, Pass(Solo(f))) && Drained(d1, k + 1)
  {
    DrainedIsReady(cfg, thin, d, k);
    WidePass(cfg, d, [], f);
    assert [] + f.recs == f.recs;
    d1 := d.(stage := None, chunks := d.chunks + [ChunkOf(f.recs)]);
  }

  lemma WideBlazes(cfg: Config, thin: pos, d: Disk, k: nat, f: RipeFile)
    requires Drained(d, k) && f == File(cfg, thin, k + 1)
    ensures BlazeBehaves(Uneven(cfg, thin), d, Pass(Solo(f)))
  {
    UnevenHolds(cfg, thin);
    BlazeOne(Uneven(cfg, thin), d, f, Solo(f));
  }

  /** The run `before` leads from the block-zero index to `d`, with blocks 0 to `k` in chunks. */
  ghost predicate AtBlock(apps: nat -> seq<Record>, cfg: Config, before: seq<Event>, d: Disk, k: nat)
    requires |apps(0)| > 0
  {
    && d == Run(cfg, Genesis(apps), before) && Drained(d, k) && Runnable(apps, cfg, Genesis(apps), before)
    && QuietPasses(before)
  }

  /** One pass per block, for blocks 1 to `k`. */
  lemma {:induction false} UpToGrid(apps: nat -> seq<Record>, cfg: Config, thin: pos, k: nat)
    returns (before: seq<Event>, d: Disk)
    requires apps == Uneven(cfg, thin) && Clear(cfg, 1, k + 1) && |apps(0)| > 0
    ensures AtBlock(apps, cfg, before, d, k)
  {
    if k == 0 {
      before, d := [], Genesis(apps);
      assert Run(cfg, Genesis(apps), []) == Genesis(apps);
    } else {
      before, d := UpToGrid(apps, cfg, thin, k - 1);
      before, d := SoloStep(apps, cfg, thin, before, d, k - 1);
    }
  }

  lemma SoloStep(apps: nat -> seq<Record>, cfg: Config, thin: pos, before: seq<Event>, d: Disk, k: nat)
    returns (after: seq<Event>, d1: Disk)
    requires apps == Uneven(cfg, thin) && !OnGrid(cfg, k + 1) && |apps(0)| > 0 && AtBlock(apps, cfg, before, d, k)
    ensures AtBlock(apps, cfg, after, d1, k + 1)
  {
    var f := File(cfg, thin, k + 1);
    d1 := WideStep(cfg, thin, d, k, f);
    WideBlazes(cfg, thin, d, k, f);
    RunSnoc(apps, cfg, Genesis(apps), before, Pass(Solo(f)));
    after := before + [Pass(Solo(f))];
  }

  predicate Quiet(e: Event) {
    e.Pass? && e.round.quits == [] && e.round.faults == []
  }

  predicate QuietPasses(events: seq<Event>) {
    forall i :: 0 <= i < |events| ==> Quiet(events[i])
  }

  /** No pass hears a request to quit or fails to open a file, and none is killed. */
  predicate AllQuiet(events: seq<Event>) {
    forall i :: 0 <= i < |events| ==> events[i].Restart? || Quiet(events[i])
  }

  /** `g` is the first grid block. */
  predicate FirstGrid(cfg: Config, g: nat) {
    OnGrid(cfg, g) && Clear(cfg, 1, g) && 1 < cfg.gridBlks && 12 < cfg.maxRows
  }

  /** The two configurations of the program and their first grid blocks. */
  lemma SourceConfigs()
    ensures FirstGrid(Config(6000, 30, 0), 30) && FirstGrid(Config(2000000, 100000, 2250000), 2300000)
  {
  }

  /** A grid block is left alone on the stage, and the next pass makes it one chunk with the next block. */
  lemma LeftThenWide(cfg: Config, thin: pos, d: Disk, d1: Disk, g: nat)
    requires FirstGrid(cfg, g) && Drained(d, g - 1) && thin < cfg.maxRows
    requires d1 == d.(stage := Some(StageFile(g, Block(g, thin))))
    ensures var e := Pass(Solo(File(cfg, thin, g + 1)));
            BlazeBehaves(Uneven(cfg, thin), d1, e) && !AllSnap(cfg, After(cfg, d1, e).chunks)
  {
    var f, staged := File(cfg, thin, g + 1), Block(g, thin);
    assert !OnGrid(cfg, g + 1) by { NextIsOff(g, cfg.gridBlks); }
    assert ReadyFor(d1, staged, f);
    WidePass(cfg, d1, staged, f);
    var chunks := d.chunks + [ChunkOf(staged + f.recs)];
    assert (staged + f.recs)[0].blk == g && (staged + f.recs)[|staged + f.recs| - 1].blk == g + 1;
    assert !ChunkSnaps(cfg, chunks[|d.chunks|]);
    UnevenHolds(cfg, thin);
    BlazeOne(Uneven(cfg, thin), d1, f, Solo(f));
  }

  lemma NextIsOff(g: nat, n: pos)
    requires g % n == 0 && 1 < n
    ensures (g + 1) % n != 0
  {
    if (g + 1) % n == 0 {
      var a, b := g / n, (g + 1) / n;
      assert n * b - n * a == 1;
      assert n * (b - a) == 1;
      if b - a >= 1 { AtLeast(n, b - a); } else { AtLeast(n, 1 - (b - a)); }
      assert false;
    }
  }

  lemma AtLeast(n: nat, k: nat)
    requires k >= 1
    ensures n * k >= n
  {
  }

  /** The pass for grid block `g` is asked to quit right after it is staged. */
  lemma QuitStep(cfg: Config, thin: pos, d: Disk, g: nat) returns (a: Event)
    requires FirstGrid(cfg, g) && Drained(d, g - 1) && thin <= cfg.maxRows
    ensures a.Pass? && BlazeBehaves(Uneven(cfg, thin), d, a)
    ensures After(cfg, d, a) == d.(stage := Some(StageFile(g, Block(g, thin))))
  {
    var f := File(cfg, thin, g);
    a := Pass(Solo(f).(quits := [false, true, true]));
    DrainedIsReady(cfg, thin, d, g - 1);
    QuitPass(cfg, d, f, a.round);
    UnevenHolds(cfg, thin);
    BlazeOne(Uneven(cfg, thin), d, f, a.round);
  }

  /** The pass for grid block `g` dies of it. */
  lemma ThinStep(cfg: Config, thin: pos, d: Disk, g: nat) returns (a: Event)
    requires FirstGrid(cfg, g) && Drained(d, g - 1) && thin < 12
    ensures Quiet(a) && BlazeBehaves(Uneven(cfg, thin), d, a)
    ensures After(cfg, d, a) == d.(stage := Some(StageFile(g, Block(g, thin))))
  {
    var f := File(cfg, thin, g);
    a := Pass(Solo(f));
    DrainedIsReady(cfg, thin, d, g - 1);
    ThinPass(cfg, d, f);
    UnevenHolds(cfg, thin);
    BlazeOne(Uneven(cfg, thin), d, f, a.round);
  }

  /** However block `g` came to be left on the stage, the next pass joins it with the block after it. */
  lemma LeftJoins(apps: nat -> seq<Record>, cfg: Config, thin: pos, g: nat, before: seq<Event>, a: Event, d: Disk)
    returns (events: seq<Event>)
    requires apps == Uneven(cfg, thin) && FirstGrid(cfg, g) && thin < cfg.maxRows && a.Pass? && |apps(0)| > 0
    requires d == Run(cfg, Genesis(apps), before) && Runnable(apps, cfg, Genesis(apps), before)
    requires Drained(d, g - 1) && BlazeBehaves(apps, d, a)
    requires After(cfg, d, a) == d.(stage := Some(StageFile(g, Block(g, thin))))
    ensures Runnable(apps, cfg, Genesis(apps), events) && !AllSnap(cfg, Run(cfg, Genesis(apps), events).chunks)
    ensures |events| == |before| + 3 && events[..|before|] == before && events[|before|] == a
    ensures events[|before| + 1] == Restart && Quiet(events[|before| + 2])
  {
    var b := Pass(Solo(File(cfg, thin, g + 1)));
    var d1 := After(cfg, d, a);
    RunSnoc(apps, cfg, Genesis(apps), before, a);
    RunSnoc(apps, cfg, Genesis(apps), before + [a], Restart);
    assert After(cfg, d1, Restart) == d1;
    LeftThenWide(cfg, thin, d, d1, g);
    RunSnoc(apps, cfg, Genesis(apps), before + [a] + [Restart], b);
    events := before + [a] + [Restart] + [b];
  }

  /** A run up to grid block `g`, which a quit or its own few lines leave on the stage, and one pass more. */
  lemma JoinedRun(apps: nat -> seq<Record>, cfg: Config, thin: pos, g: nat, quit: bool) returns (events: seq<Event>)
    requires apps == Uneven(cfg, thin) && FirstGrid(cfg, g) && thin <= 12 && (quit || thin < 12)
    ensures WellFormedChain(apps) && |apps(0)| > 0
    ensures Runnable(apps, cfg, Genesis(apps), events) && !AllSnap(cfg, Run(cfg, Genesis(apps), events).chunks)
    ensures forall i :: 0 <= i < |events| ==> !events[i].Killed?
    ensures !quit ==> AllQuiet(events)
  {
    UnevenHolds(cfg, thin);
    var before, d := UpToGrid(apps, cfg, thin, g - 1);
    var a := LeaveGrid(apps, cfg, thin, d, g, quit);
    events := LeftJoins(apps, cfg, thin, g, before, a, d);
    JoinedEvents(before, a, events, quit);
  }

  /** The pass for grid block `g`, cut short in one of the two ways. */
  lemma LeaveGrid(apps: nat -> seq<Record>, cfg: Config, thin: pos, d: Disk, g: nat, quit: bool) returns (a: Event)
    requires apps == Uneven(cfg, thin) && FirstGrid(cfg, g) && Drained(d, g - 1) && thin <= 12 && (quit || thin < 12)
    ensures a.Pass? && (quit || Quiet(a)) && BlazeBehaves(apps, d, a)
    ensures After(cfg, d, a) == d.(stage := Some(StageFile(g, Block(g, thin))))
  {
    if quit {
      a := QuitStep(cfg, thin, d, g);
    } else {
      a := ThinStep(cfg, thin, d, g);
    }
  }

  lemma JoinedEvents(before: seq<Event>, a: Event, events: seq<Event>, quit: bool)
    requires QuietPasses(before) && a.Pass? && (quit || Quiet(a))
    requires |events| == |before| + 3 && events[..|before|] == before && events[|before|] == a
    requires events[|before| + 1] == Restart && Quiet(events[|before| + 2])
    ensures forall i :: 0 <= i < |events| ==> !events[i].Killed?
    ensures !quit ==> AllQuiet(events)
  {
    forall i | 0 <= i < |events|
      ensures !events[i].Killed? && (!quit ==> events[i].Restart? || Quiet(events[i]))
    {
      if i < |before| { assert events[i] == before[i]; }
    }
  }

  /** In every configuration with a first grid block `g`: a request to quit right after block `g` is staged,
      and after a new start a chunk is written that holds both `g` and the block after it. */
  lemma QuitSkipsSnap(cfg: Config, g: nat) returns (apps: nat -> seq<Record>, events: seq<Event>)
    requires FirstGrid(cfg, g)
    ensures WellFormedChain(apps) && |apps(0)| > 0 && Runnable(apps, cfg, Genesis(apps), events)
    ensures forall i :: 0 <= i < |events| ==> !events[i].Killed?
    ensures !AllSnap(cfg, Run(cfg, Genesis(apps), events).chunks)
  {
    apps := Uneven(cfg, 12);
    events := JoinedRun(apps, cfg, 12, g, true);
  }

  /** The same without any request to quit, any failure and any signal from outside: block `g` has eleven
      appearances, the index writer dies of them, and after a new start the next block joins them in a chunk. */
  lemma ShortChunkSkipsSnap(cfg: Config, g: nat) returns (apps: nat -> seq<Record>, events: seq<Event>)
    requires FirstGrid(cfg, g)
    ensures WellFormedChain(apps) && |apps(0)| > 0 && Runnable(apps, cfg, Genesis(apps), events)
    ensures AllQuiet(events)
    ensures !AllSnap(cfg, Run(cfg, Genesis(apps), events).chunks)
  {
    apps := Uneven(cfg, 11);
    events := JoinedRun(apps, cfg, 11, g, false);
  }

  // ----- a malformed line in a later piece -----

  /** Block 1, just short enough to stay staged. */
  function FullBlock(cfg: Config): RipeFile {
    RipeFile(1, Block(1, cfg.maxRows))
  }

  /** Block 2, with a line of one tab at the end. */
  function BadBlock(cfg: Config): RipeFile {
    RipeFile(2, Block(2, cfg.maxRows + 1) + [Record(7, 2, 0, 1)])
  }

  /** Block 1 is staged and not yet cut. */
  lemma FullPass(cfg: Config, d: Disk, f: RipeFile)
    requires ReadyFor(d, [], f) && !OnGrid(cfg, f.blk) && |f.recs| <= cfg.maxRows
    ensures After(cfg, d, Pass(Solo(f))) == d.(stage := Some(StageFile(f.blk, f.recs)))
  {
    var r := Solo(f);
    var w := AfterBlaze(d, r);
    assert w.disk.ripe == [f];
    var w1 := MoveRipe(w);
    StageBlock(d, [], f, r, w1);
    assert [] + f.recs == f.recs;
    assert CopyAll(cfg, w) == Outcome(true, Polled(w1)) by {
      assert CopyOne(cfg, w) == Outcome(true, Polled(w1));
    }
    assert StageChunks(Polled(w1)).w == StageChunks(w1).w;
    assert Staged(Polled(StageChunks(w1).w)) == f.recs;
  }

  /** The stage of both blocks is cut between them, and the second piece stops the loop. */
  lemma TwoPieces(cfg: Config, w: World, good: seq<Record>, bad: seq<Record>)
    requires w.disk.stage.Some? && w.disk.stage.value == StageFile(w.newStage, good + bad) && w.quits == []
    requires |good| == cfg.maxRows < |bad| && AllTabbed(good) && !AllTabbed(bad)
    requires forall i :: 0 <= i < |good| ==> good[i].blk == 1
    requires forall i :: 0 <= i < |bad| ==> bad[i].blk == 2
    ensures var o := ConsolidateChunks(cfg, w);
            && !o.ok && o.w.locks == w.locks + 1
            && o.w.disk == w.disk.(chunks := w.disk.chunks + [ChunkOf(good)], stage := Some(StageFile(w.newStage, bad)))
  {
    GoodPiece(cfg, w, good, bad);
    var w1 := CutOnce(Polled(w), cfg.maxRows).w;
    WriteStep(cfg, w, cfg.maxRows, false);
    BadPiece(cfg, w1, bad);
  }

  lemma GoodPiece(cfg: Config, w: World, good: seq<Record>, bad: seq<Record>)
    requires w.disk.stage.Some? && w.disk.stage.value == StageFile(w.newStage, good + bad) && w.quits == []
    requires |good| == cfg.maxRows < |bad| && AllTabbed(good)
    requires forall i :: 0 <= i < |good| ==> good[i].blk == 1
    requires forall i :: 0 <= i < |bad| ==> bad[i].blk == 2
    ensures var r := CutOnce(Polled(w), cfg.maxRows);
            && r.ok && Staged(r.w) == bad && r.w.quits == [] && r.w.locks == w.locks
            && r.w.disk == w.disk.(chunks := w.disk.chunks + [ChunkOf(good)], stage := Some(StageFile(w.newStage, bad)))
  {
    var recs := good + bad;
    assert BreakAt(recs, cfg.maxRows) + 1 == |good| by { BlockEnds(recs, cfg.maxRows - 1); }
    assert recs[..|good|] == good && recs[|good|..] == bad;
  }

  lemma BlockEnds(recs: seq<Record>, i: nat)
    requires i + 1 < |recs| && recs[i + 1].blk != recs[i].blk
    ensures EndOfBlock(recs, i) == i
  {
  }

  lemma BadPiece(cfg: Config, w: World, bad: seq<Record>)
    requires Staged(w) == bad && w.quits == [] && cfg.maxRows < |bad| && !AllTabbed(bad)
    requires forall i :: 0 <= i < |bad| ==> bad[i].blk == 2
    ensures WriteChunks(cfg, w, cfg.maxRows, false) == Outcome(false, Polled(w).(locks := w.locks + 1))
  {
    assert BreakAt(bad, cfg.maxRows) + 1 == |bad| by { BlockEnd(bad, cfg.maxRows - 1); }
    WriteStep(cfg, w, cfg.maxRows, false);
    CutBad(Polled(w), bad, cfg.maxRows);
  }

  lemma CutBad(w: World, recs: seq<Record>, chunkSize: nat)
    requires Staged(w) == recs && recs != [] && !AllTabbed(recs) && BreakAt(recs, chunkSize) + 1 == |recs|
    ensures CutOnce(w, chunkSize) == Outcome(false, w.(locks := w.locks + 1))
  {
    assert recs[..|recs|] == recs;
  }

  lemma BadPass(cfg: Config, d: Disk, staged: seq<Record>, f: RipeFile)
    requires ReadyFor(d, staged, f) && !OnGrid(cfg, f.blk) && f.blk == 2
    requires |staged| == cfg.maxRows < |f.recs| && !AllTabbed(f.recs)
    requires forall i :: 0 <= i < |staged| ==> staged[i].blk == 1
    requires forall i :: 0 <= i < |f.recs| ==> f.recs[i].blk == 2
    ensures var o := Scrape(cfg, d, Solo(f));
            && !o.ok && o.w.locks == 1
            && o.w.disk == d.(chunks := d.chunks + [ChunkOf(staged)], stage := Some(StageFile(2, f.recs)))
  {
    var r := Solo(f);
    var w := AfterBlaze(d, r);
    assert w.disk.ripe == [f];
    var w1 := MoveRipe(w);
    StageBlock(d, staged, f, r, w1);
    assert CopyAll(cfg, w) == Outcome(true, Polled(w1)) by {
      assert CopyOne(cfg, w) == Outcome(true, Polled(w1));
    }
    assert StageChunks(Polled(w1)).w == StageChunks(w1).w;
    TwoPieces(cfg, Polled(StageChunks(w1).w), staged, f.recs);
  }

  /** Wherever blocks 1 and 2 are not on the grid: after two undisturbed passes from the block-zero index, the
      second with a malformed line far behind the first cut, block 1 is in a chunk, block 2 stays on the stage, and
      the section stays locked. */
  lemma LaterLineLocks(cfg: Config, d: Disk) returns (a: Round, b: Round)
    requires d == Genesis(Narrow) && !OnGrid(cfg, 1) && !OnGrid(cfg, 2)
    ensures Quiet(Pass(a)) && Quiet(Pass(b))
    ensures var o := Scrape(cfg, After(cfg, d, Pass(a)), b);
            && !o.ok && o.w.locks == 1
            && o.w.disk.chunks == d.chunks + [ChunkOf(FullBlock(cfg).recs)]
            && o.w.disk.stage == Some(StageFile(2, BadBlock(cfg).recs))
  {
    var f, g := FullBlock(cfg), BadBlock(cfg);
    a, b := Solo(f), Solo(g);
    FullPass(cfg, d, f);
    assert !AllTabbed(g.recs) by { assert g.recs[cfg.maxRows + 1].tabs == 1; }
    BadPass(cfg, After(cfg, d, Pass(a)), f.recs, g);
  }

  // ----- stuck -----

  /** A pass that acctExport interrupts with nothing ripe leaves its temporary file and nothing else. */
  lemma ExportingPass(cfg: Config, d: Disk, client: nat)
    requires d.ripe == [] && BlazeStart(d) <= client
    ensures After(cfg, d, Pass(Idle(client, true))) == d.(tmp := Some([]))
  {
    assert [] + Idle(client, true).scraped == [];
  }

  /** Block 1 is in a chunk, nothing is staged, and a temporary file is left. */
  lemma DrainedAndLeft(d: Disk, d2: Disk)
    requires Drained(d, 1) && d2 == d.(tmp := Some([]))
    ensures AboutToStick(d2, Idle(2, false))
  {
    assert d2.ripe + Idle(2, false).scraped == [];
  }

  /** Wherever block 1 is not on the grid, three ordinary passes from the block-zero index: a large block
      becomes a chunk and drains the stage, acctExport interrupts a pass with nothing ripe, and the next pass
      with nothing ripe leaves the scraper stuck. */
  lemma StuckFromGenesis(cfg: Config) returns (apps: nat -> seq<Record>, events: seq<Event>)
    requires !OnGrid(cfg, 1)
    ensures WellFormedChain(apps) && |apps(0)| > 0 && Runnable(apps, cfg, Genesis(apps), events)
    ensures QuietPasses(events)
    ensures Stuck(Run(cfg, Genesis(apps), events))
  {
    apps := Uneven(cfg, 12);
    UnevenHolds(cfg, 12);
    var first, _ := UpToGrid(apps, cfg, 12, 1);
    var a, b := Pass(Idle(2, true)), Pass(Idle(2, false));
    StuckAfter(apps, cfg, first, a, b);
    events := first + [a] + [b];
  }

  lemma StuckAfter(apps: nat -> seq<Record>, cfg: Config, first: seq<Event>, a: Event, b: Event)
    requires WellFormedChain(apps) && |apps(0)| > 0 && Runnable(apps, cfg, Genesis(apps), first)
    requires a == Pass(Idle(2, true)) && b == Pass(Idle(2, false)) && Drained(Run(cfg, Genesis(apps), first), 1)
    ensures Runnable(apps, cfg, Genesis(apps), first + [a] + [b])
    ensures Stuck(Run(cfg, Genesis(apps), first + [a] + [b]))
  {
    var d := Run(cfg, Genesis(apps), first);
    var d2 := d.(tmp := Some([]));
    assert After(cfg, d, a) == d2 by { ExportingPass(cfg, d, 2); }
    RunSnoc(apps, cfg, Genesis(apps), first, a);
    assert Sound(apps, d2) && TempEmpty(d2) by {
      GenesisSound(apps);
      EveryRunIsSound(apps, cfg, Genesis(apps), first);
    }
    DrainedAndLeft(d, d2);
    GetsStuckIff(apps, cfg, d2, b);
    RunSnoc(apps, cfg, Genesis(apps), first + [a], b);
  }
}
