/** What a pass does after something went wrong: which left-overs heal, which corrupt the stage, which
    stop the scraper for good, and how far a healthy pass gets. */
module Recovery {
  import opened Util
  import opened Chain
  import opened Pipeline
  import opened Soundness
  import opened Runs

  // ----- a left-over temp.txt -----

  /** Nothing can be put in front of a stage that holds. */
  lemma PrefixedStageFails(apps: nat -> seq<Record>, chunks: seq<Chunk>, stage: StageFile, x: seq<Record>)
    requires WellFormedChain(apps) && StageHolds(apps, chunks, Some(stage)) && chunks != [] && x != []
    ensures !StageHolds(apps, chunks, Some(StageFile(stage.name, x + stage.recs)))
  {
    var longer := StageFile(stage.name, x + stage.recs);
    assert |longer.recs| > |stage.recs|;
    if StageHolds(apps, chunks, Some(longer)) {
      assert longer.recs == Span(apps, FinalNext(chunks), stage.name + 1);
    }
  }

  function WithoutTemp(w: World): World {
    w.(disk := w.disk.(temp := None))
  }

  /** What is left in temp.txt ends up in front of the stage. */
  lemma RenamedPrefix(w: World)
    requires w.disk.tmp.Some?
    ensures RenamedDisk(w).stage
            == Some(StageFile(w.prev, Contents(w.disk.temp) + RenamedDisk(WithoutTemp(w)).stage.value.recs))
    ensures TempEmpty(w.disk) ==> RenamedDisk(w) == RenamedDisk(WithoutTemp(w))
  {
    var x, a, b := Contents(w.disk.temp), Contents(OldStage(w.disk)), w.disk.tmp.value;
    assert x + a + b == x + ([] + a + b);
  }

  /** temp.txt is opened for appending and never cleared on entry: a staging step that renames leaves
      a sound disk exactly when temp.txt was empty before. */
  lemma StagingSoundIffTempEmpty(apps: nat -> seq<Record>, w: World)
    requires WellFormedChain(apps) && Copying(apps, WithoutTemp(w))
    requires StageChunks(w).ok && !StageIsCurrent(w)
    ensures Sound(apps, StageChunks(w).w.disk) <==> TempEmpty(w.disk)
  {
    StageEffect(w);
    RenamedSound(apps, WithoutTemp(w));
    RenamedPrefix(w);
    if !TempEmpty(w.disk) {
      PrefixedStageFails(apps, w.disk.chunks, RenamedDisk(WithoutTemp(w)).stage.value, Contents(w.disk.temp));
    }
  }

  // ----- a pass that starts from block 0 by mistake -----

  /** The only stage file is empty and named 0, although chunks go beyond block 0. */
  predicate Stuck(d: Disk) {
    d.stage == Some(StageFile(0, [])) && 1 < FinalNext(d.chunks)
  }

  /** The stage, if there is one, is named by its last block. */
  predicate WellNamed(d: Disk) {
    d.stage.Some? ==> d.stage.value.name + 1 == Next(d)
  }

  lemma StuckIsMisnamed(apps: nat -> seq<Record>, d: Disk)
    requires Sound(apps, d)
    ensures Stuck(d) <==> !WellNamed(d)
  {
  }

  ghost predicate SameIndexEver(d: Disk, trace: seq<Disk>) {
    forall i :: 0 <= i < |trace| ==> trace[i].stage == d.stage && trace[i].chunks == d.chunks
  }

  /** A misplaced pass with anything in the ripe folder only cleans up. */
  lemma MisplacedCopy(apps: nat -> seq<Record>, cfg: Config, w: World)
    requires Copying(apps, w) && Misplaced(w) && w.disk.ripe != [] && w.alive
    ensures Consolidation(cfg, w) == Outcome(false, CleanUp(w))
  {
    assert Next(w.disk) <= w.disk.ripe[0].blk;
    assert CopyOne(cfg, w) == Outcome(false, w);
  }

  /** A stuck pass with nothing ripe does nothing at all. */
  lemma StuckIdle(cfg: Config, w: World)
    requires Misplaced(w) && w.disk.ripe == [] && w.disk.stage.Some?
    ensures var r := Consolidation(cfg, w);
            r.w.disk == w.disk && r.w.trace == w.trace
  {
    assert CopyAll(cfg, w) == Outcome(true, w);
    assert StageIsCurrent(w);
  }

  lemma StuckCopy(apps: nat -> seq<Record>, cfg: Config, d: Disk, w: World)
    requires Copying(apps, w) && Misplaced(w) && w.alive && SameIndexEver(d, w.trace)
    requires w.disk.stage == d.stage && w.disk.chunks == d.chunks && d.stage.Some?
    ensures var o := Consolidation(cfg, w).w;
            SameIndexEver(d, o.trace) && o.disk.stage == d.stage && o.disk.chunks == d.chunks
  {
    if w.disk.ripe != [] {
      MisplacedCopy(apps, cfg, w);
    } else {
      StuckIdle(cfg, w);
    }
  }

  /** Once stuck, no pass and no abrupt exit changes stage or chunks again. */
  lemma StuckPass(apps: nat -> seq<Record>, cfg: Config, d: Disk, r: Round)
    requires WellFormedChain(apps) && Sound(apps, d) && TempEmpty(d) && BlazeHolds(apps, d, r) && Stuck(d)
    ensures var w := Scrape(cfg, d, r).w;
            SameIndexEver(d, w.trace) && w.disk.stage == d.stage && w.disk.chunks == d.chunks
  {
    var w := Begin(d, r);
    if BlazeStart(d) <= r.client && !Quits(w) && r.blazeOk && !r.exporting && r.opens {
      BeginCopying(apps, d, r, AfterBlaze(d, r));
      StuckCopy(apps, cfg, d, AfterBlaze(d, r));
    }
  }

  lemma {:induction false} StuckForever(apps: nat -> seq<Record>, cfg: Config, d: Disk, events: seq<Event>)
    requires WellFormedChain(apps) && Sound(apps, d) && TempEmpty(d) && Stuck(d)
    requires Runnable(apps, cfg, d, events)
    ensures Run(cfg, d, events).stage == d.stage && Run(cfg, d, events).chunks == d.chunks
    decreases |events|
  {
    if events != [] {
      var e := events[0];
      if !e.Restart? { StuckPass(apps, cfg, d, e.round); }
      EventKeeps(apps, cfg, d, e);
      StuckForever(apps, cfg, After(cfg, d, e), events[1..]);
    }
  }

  /** The pass gets past blaze to the copy of the ripe files. */
  predicate ReachesCopy(d: Disk, r: Round) {
    && BlazeStart(d) <= r.client && !(r.locks == 0 && Head(r.quits))
    && r.blazeOk && !r.exporting && r.opens
  }

  /** A drained stage, a left-over temporary file, and nothing ripe. */
  predicate AboutToStick(d: Disk, r: Round) {
    && d.stage.None? && d.tmp.Some? && 1 < FinalNext(d.chunks)
    && ReachesCopy(d, r) && d.ripe + r.scraped == []
    && !Head(r.faults) && !Head(Tail(r.faults))
  }

  ghost predicate Straight(apps: nat -> seq<Record>, w: World) {
    Copying(apps, w) && WellNamed(w.disk) && (Positioned(apps, w) || Unlinked(w))
  }

  /** Well named now and in every state on the way. */
  ghost predicate AllNamed(w: World) {
    WellNamed(w.disk) && forall i :: 0 <= i < |w.trace| ==> WellNamed(w.trace[i])
  }

  lemma PutNamed(w: World, d: Disk)
    requires AllNamed(w) && WellNamed(d)
    ensures AllNamed(Put(w, d))
  {
  }

  lemma SameIsNamed(w: World, d: Disk)
    requires AllNamed(w) && d.stage == w.disk.stage && d.chunks == w.disk.chunks
    ensures AllNamed(Put(w, d))
  {
    PutNamed(w, d);
  }

  lemma AppendTempNamed(w: World, from: Option<seq<Record>>)
    requires AllNamed(w)
    ensures AllNamed(AppendTemp(w, from).w)
  {
    var w1 := w.(faults := Tail(w.faults));
    if !Head(w.faults) {
      var w2 := Put(w1, w1.disk.(temp := Some(Contents(w1.disk.temp))));
      SameIsNamed(w1, w2.disk);
      var w3 := w2.(faults := Tail(w2.faults));
      if from.Some? { SameIsNamed(w3, w3.disk.(temp := Some(Contents(w3.disk.temp) + from.value))); }
    }
  }

  lemma StageNamed(apps: nat -> seq<Record>, w: World)
    requires WellFormedChain(apps) && Straight(apps, w) && AllNamed(w)
    ensures AllNamed(StageChunks(w).w)
  {
    var w0 := w.(newStage := w.prev);
    if !StageIsCurrent(w) {
      var r1 := if OldStageIsTmp(w.disk) then Outcome(true, w0) else AppendTemp(w0, OldStage(w.disk));
      AppendTempNamed(w0, OldStage(w.disk));
      if r1.ok {
        var r2 := AppendTemp(r1.w, r1.w.disk.tmp);
        AppendTempNamed(r1.w, r1.w.disk.tmp);
        if r2.ok {
          StageEffect(w);
          RenamedSound(apps, w);
          PutNamed(r2.w, RenamedDisk(w));
        } else {
          SameIsNamed(r2.w, r2.w.disk.(temp := None));
        }
      }
    }
  }

  lemma WrittenNamed(apps: nat -> seq<Record>, lo: nat, w: World, w': World)
    requires Written(apps, lo, w, w') && WellNamed(w.disk)
    ensures WellNamed(w'.disk)
  {
  }

  lemma CutNamed(apps: nat -> seq<Record>, lo: nat, w: World, chunkSize: nat)
    requires WellFormedChain(apps) && Kept(apps, lo, w) && AllNamed(w)
    ensures AllNamed(CutOnce(w, chunkSize).w)
  {
    var r := CutOnce(w, chunkSize);
    CutKeeps(apps, lo, w, chunkSize);
    WrittenNamed(apps, lo, w, r.w);
    if r.ok && Staged(w) != [] { PutNamed(w, r.w.disk); }
  }

  lemma {:induction false} WriteNamed(apps: nat -> seq<Record>, lo: nat, cfg: Config, w: World, chunkSize: nat,
                                      once: bool)
    requires WellFormedChain(apps) && Kept(apps, lo, w) && AllNamed(w)
    ensures AllNamed(WriteChunks(cfg, w, chunkSize, once).w)
    decreases |Staged(w)|, once
  {
    if (once || |Staged(w)| > chunkSize) && !Quits(w) {
      var p := Polled(w);
      WriteStep(cfg, w, chunkSize, once);
      CutKeeps(apps, lo, p, chunkSize);
      CutNamed(apps, lo, p, chunkSize);
      var r := CutOnce(p, chunkSize);
      if r.ok { WriteNamed(apps, lo, cfg, r.w, Min(cfg.maxRows, |Staged(r.w)|), once && |Staged(r.w)| > 0); }
    }
  }

  lemma CleanUpNamed(w: World)
    requires AllNamed(w)
    ensures AllNamed(CleanUp(w))
  {
    var w1 := Put(w, w.disk.(ripe := []));
    SameIsNamed(w, w1.disk);
    SameIsNamed(w1, w1.disk.(tmp := None));
  }

  lemma SnapNamed(apps: nat -> seq<Record>, lo: nat, cfg: Config, w: World)
    requires WellFormedChain(apps) && Straight(apps, w) && Kept(apps, lo, w) && AllNamed(w)
    ensures var r := Snap(cfg, w);
            AllNamed(r.w) && (r.ok ==> Straight(apps, r.w))
  {
    var s := StageChunks(w);
    SnapKeeps(apps, lo, cfg, w);
    StageKeeps(apps, lo, w);
    StageEffect(w);
    StageNamed(apps, w);
    if !s.ok {
      CleanUpNamed(s.w);
    } else if !Quits(s.w) {
      var w2 := Polled(s.w);
      WriteNamed(apps, lo, cfg, w2, Min(|Staged(w2)|, cfg.maxRows), true);
    }
  }

  lemma CopyOneNamed(apps: nat -> seq<Record>, lo: nat, cfg: Config, w: World)
    requires WellFormedChain(apps) && Straight(apps, w) && Kept(apps, lo, w) && AllNamed(w) && w.disk.ripe != []
    ensures var r := CopyOne(cfg, w);
            AllNamed(r.w) && (r.ok ==> Straight(apps, r.w))
  {
    if w.prev + 1 == w.disk.ripe[0].blk && !Head(w.faults) {
      var w0 := w.(faults := Tail(w.faults));
      assert Copying(apps, w0) && Kept(apps, lo, w0);
      MoveKeeps(apps, lo, w0);
      SameIsNamed(w0, MoveRipe(w0).disk);
      assert Straight(apps, MoveRipe(w0));
      if OnGrid(cfg, w.disk.ripe[0].blk) { SnapNamed(apps, lo, cfg, MoveRipe(w0)); }
    }
  }

  lemma {:induction false} CopyAllNamed(apps: nat -> seq<Record>, lo: nat, cfg: Config, w: World)
    requires WellFormedChain(apps) && Straight(apps, w) && Kept(apps, lo, w) && AllNamed(w)
    ensures var r := CopyAll(cfg, w);
            AllNamed(r.w) && (r.ok ==> Straight(apps, r.w))
    decreases |w.disk.ripe|
  {
    if w.disk.ripe != [] {
      CopyOneNamed(apps, lo, cfg, w);
      CopyOneKeeps(apps, lo, cfg, w);
      if CopyOne(cfg, w).ok { CopyAllNamed(apps, lo, cfg, CopyOne(cfg, w).w); }
    }
  }

  /** Staging and consolidation after the copy. */
  lemma FinishNamed(apps: nat -> seq<Record>, lo: nat, cfg: Config, w: World)
    requires WellFormedChain(apps) && Straight(apps, w) && Kept(apps, lo, w) && AllNamed(w)
    ensures var s := StageChunks(w);
            var w1 := if s.ok then s.w else CleanUp(s.w);
            AllNamed(w1) && AllNamed(ConsolidateChunks(cfg, Polled(w1)).w)
  {
    var s := StageChunks(w);
    StageNamed(apps, w);
    StageKeeps(apps, lo, w);
    if !s.ok {
      CleanUpNamed(s.w);
      CleanUpKeeps(apps, lo, s.w);
    }
    var p := Polled(if s.ok then s.w else CleanUp(s.w));
    WriteNamed(apps, lo, cfg, p, cfg.maxRows, false);
  }

  /** A pass that starts at the frontier keeps the stage well named throughout. */
  lemma StraightPass(apps: nat -> seq<Record>, lo: nat, cfg: Config, w: World)
    requires WellFormedChain(apps) && Straight(apps, w) && Kept(apps, lo, w) && AllNamed(w)
    ensures AllNamed(Consolidation(cfg, w).w)
  {
    var c := CopyAll(cfg, w);
    CopyAllNamed(apps, lo, cfg, w);
    CopyAllKeeps(apps, lo, cfg, w);
    if c.ok {
      FinishNamed(apps, lo, cfg, c.w);
    } else {
      CleanUpNamed(c.w);
    }
  }

  /** Staging from block 0 by mistake: the stage file named 0 appears with the last change, unless an append
      fails. */
  lemma MisplacedStage(w: World)
    requires Misplaced(w) && w.disk.ripe == [] && w.disk.stage.None? && TempEmpty(w.disk)
    ensures var s := StageChunks(w);
            && s.ok == (!Head(w.faults) && !Head(Tail(w.faults)))
            && s.w.disk.chunks == w.disk.chunks && s.w.newStage == 0 && s.w.alive == w.alive
            && s.w.disk.stage == (if s.ok then Some(StageFile(0, [])) else None)
            && w.trace <= s.w.trace
            && (s.ok ==> |s.w.trace| == |w.trace| + 3 && s.w.trace[|w.trace| + 2] == s.w.disk)
            && forall i :: |w.trace| <= i < |s.w.trace| && (s.ok ==> i < |w.trace| + 2) ==> s.w.trace[i].stage.None?
  {
    var w0 := w.(newStage := 0);
    var r := AppendTemp(w0, w0.disk.tmp);
    var d := r.w.disk;
    assert StageChunks(w)
           == if r.ok
              then Outcome(true, Put(r.w, RenamedTo(d)).(linked := false))
              else Outcome(false, Put(r.w, d.(temp := None)));
    MisplacedAppend(w0);
  }

  /** The stage made of temp.txt alone and named 0. */
  function RenamedTo(d: Disk): Disk {
    d.(temp := None, tmp := None, stage := Some(StageFile(0, Contents(d.temp))))
  }

  lemma MisplacedAppend(w: World)
    requires w.disk.tmp == Some([]) && TempEmpty(w.disk) && w.disk.stage.None?
    ensures var r := AppendTemp(w, w.disk.tmp);
            && r.ok == (!Head(w.faults) && !Head(Tail(w.faults)))
            && r.w.disk == w.disk.(temp := r.w.disk.temp) && (r.ok ==> Contents(r.w.disk.temp) == [])
            && r.w.newStage == w.newStage && r.w.alive == w.alive
            && w.trace <= r.w.trace && (r.ok ==> |r.w.trace| == |w.trace| + 2)
            && forall i :: |w.trace| <= i < |r.w.trace| ==> r.w.trace[i].stage.None?
  {
  }

  /** A misplaced pass with nothing ripe is stuck from its last change on, unless an append fails. */
  lemma MisplacedPass(cfg: Config, w: World)
    requires Misplaced(w) && w.disk.ripe == [] && w.disk.stage.None? && TempEmpty(w.disk)
    requires forall i :: 0 <= i < |w.trace| ==> w.trace[i].stage.None?
    ensures var r, fine := Consolidation(cfg, w), !Head(w.faults) && !Head(Tail(w.faults));
            && (Stuck(r.w.disk) <==> fine) && |w.trace| <= |r.w.trace|
            && (fine ==> |r.w.trace| == |w.trace| + 3)
            && forall i :: 0 <= i < |r.w.trace| ==> (Stuck(r.w.trace[i]) <==> fine && i == |w.trace| + 2)
  {
    var s := StageChunks(w);
    assert CopyAll(cfg, w) == Outcome(true, w);
    MisplacedStage(w);
    MisplacedEnd(cfg, w, s);
  }

  /** Nothing is left to do after that staging. */
  lemma MisplacedEnd(cfg: Config, w: World, s: Outcome)
    requires CopyAll(cfg, w) == Outcome(true, w) && s == StageChunks(w) && s.w.newStage == 0
    requires s.w.disk.stage == if s.ok then Some(StageFile(0, [])) else None
    ensures Consolidation(cfg, w).w == Polled(if s.ok then s.w else CleanUp(s.w))
  {
    var w1 := if s.ok then s.w else CleanUp(s.w);
    assert Staged(Polled(w1)) == [];
  }

  /** No state of the pass is stuck, except, if it sticks, the one after its fifth and last change. */
  predicate SticksAtEnd(w: World, sticks: bool) {
    && (Stuck(w.disk) <==> sticks) && (sticks ==> |w.trace| == 5)
    && forall i :: 0 <= i < |w.trace| ==> (Stuck(w.trace[i]) <==> sticks && i == 4)
  }

  /** A pass that does not get to the copy changes neither stage nor chunks. */
  lemma EarlyStates(cfg: Config, d: Disk, r: Round)
    requires !Stuck(d) && !ReachesCopy(d, r)
    ensures SticksAtEnd(Scrape(cfg, d, r).w, false)
  {
  }

  lemma CleanedStates(w: World)
    requires SticksAtEnd(w, false)
    ensures SticksAtEnd(CleanUp(w), false)
  {
  }

  lemma StraightStates(apps: nat -> seq<Record>, lo: nat, cfg: Config, w: World)
    requires WellFormedChain(apps) && Straight(apps, w) && Kept(apps, lo, w) && AllNamed(w)
    ensures SticksAtEnd(Consolidation(cfg, w).w, false)
  {
    StraightPass(apps, lo, cfg, w);
    ConsolidationKeeps(apps, lo, cfg, w);
    NoneStuck(apps, lo, Consolidation(cfg, w).w);
  }

  lemma MisplacedStates(apps: nat -> seq<Record>, cfg: Config, w: World)
    requires Copying(apps, w) && Misplaced(w) && w.alive && w.disk.stage.None?
    requires |w.trace| == 2 && forall i :: 0 <= i < 2 ==> w.trace[i].stage.None?
    ensures SticksAtEnd(Consolidation(cfg, w).w, w.disk.ripe == [] && !Head(w.faults) && !Head(Tail(w.faults)))
  {
    if w.disk.ripe != [] {
      MisplacedCopy(apps, cfg, w);
      CleanedStates(w);
    } else {
      MisplacedPass(cfg, w);
    }
  }

  /** Where a pass that is not stuck starts to copy. */
  lemma CopyStarts(apps: nat -> seq<Record>, d: Disk, r: Round, w: World)
    requires WellFormedChain(apps) && Sound(apps, d) && TempEmpty(d) && BlazeHolds(apps, d, r) && !Stuck(d)
    requires ReachesCopy(d, r) && w == AfterBlaze(d, r)
    ensures Copying(apps, w) && Kept(apps, Next(d), w) && AllNamed(w) && w.alive && |w.trace| == 2
    ensures forall i :: 0 <= i < 2 ==> w.trace[i].stage == d.stage
    ensures if Positioned(apps, w) then !AboutToStick(d, r)
            else Misplaced(w) && w.disk.stage.None?
                 && (AboutToStick(d, r) <==> w.disk.ripe == [] && !Head(w.faults) && !Head(Tail(w.faults)))
  {
    BeginCopying(apps, d, r, w);
    AfterBlazeKept(apps, d, r);
    StuckIsMisnamed(apps, d);
  }

  lemma CopyStates(apps: nat -> seq<Record>, cfg: Config, d: Disk, r: Round, w: World)
    requires WellFormedChain(apps) && Sound(apps, d) && TempEmpty(d) && BlazeHolds(apps, d, r) && !Stuck(d)
    requires ReachesCopy(d, r) && w == AfterBlaze(d, r)
    ensures SticksAtEnd(Consolidation(cfg, w).w, AboutToStick(d, r))
  {
    CopyStarts(apps, d, r, w);
    if Positioned(apps, w) {
      StraightStates(apps, Next(d), cfg, w);
    } else {
      MisplacedStates(apps, cfg, w);
    }
  }

  /** The states that a pass of a scraper that is not stuck can leave, by its end or by an abrupt exit. */
  lemma StuckStates(apps: nat -> seq<Record>, cfg: Config, d: Disk, r: Round)
    requires WellFormedChain(apps) && Sound(apps, d) && TempEmpty(d) && BlazeHolds(apps, d, r) && !Stuck(d)
    ensures SticksAtEnd(Scrape(cfg, d, r).w, AboutToStick(d, r))
  {
    if ReachesCopy(d, r) {
      CopyStates(apps, cfg, d, r, AfterBlaze(d, r));
    } else {
      EarlyStates(cfg, d, r);
    }
  }

  lemma NoneStuck(apps: nat -> seq<Record>, lo: nat, w: World)
    requires Kept(apps, lo, w) && AllNamed(w)
    ensures !Stuck(w.disk) && forall i :: 0 <= i < |w.trace| ==> !Stuck(w.trace[i])
  {
    StuckIsMisnamed(apps, w.disk);
    forall i | 0 <= i < |w.trace| ensures !Stuck(w.trace[i]) {
      StuckIsMisnamed(apps, w.trace[i]);
    }
  }

  /** A scraper that is not stuck gets stuck in exactly one situation, by a pass or by an abrupt exit right
      after the rename of one. */
  lemma GetsStuckIff(apps: nat -> seq<Record>, cfg: Config, d: Disk, e: Event)
    requires WellFormedChain(apps) && Sound(apps, d) && TempEmpty(d) && BlazeBehaves(apps, d, e) && !Stuck(d)
    ensures Stuck(After(cfg, d, e)) <==> !e.Restart? && AboutToStick(d, e.round) && (e.Killed? ==> e.at == 4)
  {
    if !e.Restart? { StuckStates(apps, cfg, d, e.round); }
  }

  // ----- gaps in the ripe folder heal -----

  predicate Contiguous(files: seq<RipeFile>, from: nat) {
    forall i :: 0 <= i < |files| ==> files[i].blk == from + i
  }

  /** A file out of sequence comes before any grid block does. */
  predicate GapFirst(cfg: Config, files: seq<RipeFile>, from: nat)
    decreases |files|
  {
    files != [] && (files[0].blk != from || (!OnGrid(cfg, from) && GapFirst(cfg, files[1..], from + 1)))
  }

  /** Copying up to the gap touches the temporary stage and the ripe folder only, and stops there or before. */
  lemma {:induction false} CopyStopsAtGap(cfg: Config, w: World)
    requires GapFirst(cfg, w.disk.ripe, w.prev + 1)
    ensures var r := CopyAll(cfg, w);
            && !r.ok && r.w.disk == w.disk.(ripe := r.w.disk.ripe, tmp := r.w.disk.tmp)
            && r.w.alive == w.alive
    decreases |w.disk.ripe|
  {
    var r := CopyOne(cfg, w);
    if r.ok { CopyStopsAtGap(cfg, r.w); }
  }

  /** A pass that finds a gap (or starts from the wrong block) drops everything that was not staged:
      ripe folder and temporary stage are gone, stage and chunks are untouched. The next pass scrapes
      from the frontier, and it starts there unless the scraper was stuck. */
  lemma GapHeals(apps: nat -> seq<Record>, cfg: Config, d: Disk, r: Round)
    requires Sound(apps, d) && BlazeHolds(apps, d, r) && ReachesCopy(d, r)
    requires GapFirst(cfg, d.ripe + r.scraped, Staging(d) + 1)
    ensures var o := Scrape(cfg, d, r);
            && !o.ok && o.w.disk == d.(ripe := [], tmp := None)
            && BlazeStart(o.w.disk) == Next(d)
            && (Staging(o.w.disk) + 1 == Next(d) <==> !Stuck(d))
  {
    var w1 := AfterBlaze(d, r);
    CopyStopsAtGap(cfg, w1);
    StuckIsMisnamed(apps, d);
  }

  // ----- a healthy pass -----

  predicate NoneTrue(s: seq<bool>) {
    forall i :: 0 <= i < |s| ==> !s[i]
  }

  lemma HealthyAppend(w: World, from: Option<seq<Record>>)
    requires from.Some? && NoneTrue(w.faults)
    ensures var r := AppendTemp(w, from);
            r.ok && NoneTrue(r.w.faults) && r.w.disk.tmp == w.disk.tmp
  {
  }

  lemma HealthyStage(w: World)
    requires w.disk.tmp.Some? && NoneTrue(w.faults)
    ensures StageChunks(w).ok && NoneTrue(StageChunks(w).w.faults)
  {
    var w0 := w.(newStage := w.prev);
    if !StageIsCurrent(w) {
      if OldStageIsTmp(w.disk) {
        HealthyAppend(w0, w0.disk.tmp);
      } else {
        HealthyAppend(w0, OldStage(w.disk));
        HealthyAppend(AppendTemp(w0, OldStage(w.disk)).w, w.disk.tmp);
      }
    }
  }

  /** How many files a pass gets through: up to the end or to the first grid block. */
  function Reach(cfg: Config, files: seq<RipeFile>): (n: nat)
    ensures n <= |files| && (files != [] ==> n > 0)
  {
    if files == [] then 0 else if OnGrid(cfg, files[0].blk) then 1 else 1 + Reach(cfg, files[1..])
  }

  lemma ContiguousTail(cfg: Config, files: seq<RipeFile>, from: nat)
    requires files != [] && Contiguous(files[..Reach(cfg, files)], from)
    ensures files[0].blk == from
    ensures !OnGrid(cfg, from) ==> Contiguous(files[1..][..Reach(cfg, files[1..])], from + 1)
  {
    var near := files[..Reach(cfg, files)];
    assert files[0] == near[0];
    if !OnGrid(cfg, from) {
      var tail := files[1..][..Reach(cfg, files[1..])];
      forall i | 0 <= i < |tail| ensures tail[i].blk == from + 1 + i {
        assert tail[i] == near[i + 1];
      }
    }
  }

  ghost predicate Healthy(apps: nat -> seq<Record>, lo: nat, w: World) {
    && Copying(apps, w) && Kept(apps, lo, w) && Positioned(apps, w)
    && NoneTrue(w.quits) && NoneTrue(w.faults)
  }

  lemma HealthySnap(apps: nat -> seq<Record>, lo: nat, cfg: Config, w: World)
    requires WellFormedChain(apps) && Healthy(apps, lo, w)
    ensures !Snap(cfg, w).ok && Next(Snap(cfg, w).w.disk) == w.prev + 1
  {
    HealthyStage(w);
    StageEffect(w);
    StageKeeps(apps, lo, w);
    var w2 := Polled(StageChunks(w).w);
    WriteKeeps(apps, lo, cfg, w2, Min(|Staged(w2)|, cfg.maxRows), true);
  }

  lemma HealthyMove(apps: nat -> seq<Record>, lo: nat, w: World)
    requires WellFormedChain(apps) && Healthy(apps, lo, w)
    requires w.disk.ripe != [] && w.prev + 1 == w.disk.ripe[0].blk
    ensures var w1 := MoveRipe(w.(faults := Tail(w.faults)));
            && Healthy(apps, lo, w1) && Healthy(apps, lo, Polled(w1))
            && Next(w1.disk) == Next(w.disk) && w1.disk.ripe == w.disk.ripe[1..] && w1.prev == w.prev + 1
  {
    var w0 := w.(faults := Tail(w.faults));
    assert Copying(apps, w0) && Kept(apps, lo, w0);
    MoveKeeps(apps, lo, w0);
  }

  /** Undisturbed copying of consecutive blocks reaches the end, or stages up to the first grid block. */
  lemma {:induction false} HealthyCopy(apps: nat -> seq<Record>, lo: nat, cfg: Config, w: World)
    requires WellFormedChain(apps) && Healthy(apps, lo, w)
    requires Contiguous(w.disk.ripe[..Reach(cfg, w.disk.ripe)], w.prev + 1)
    ensures var r := CopyAll(cfg, w);
            if r.ok
            then Healthy(apps, lo, r.w) && r.w.prev == w.prev + Reach(cfg, w.disk.ripe)
            else Next(r.w.disk) == w.prev + Reach(cfg, w.disk.ripe) + 1
    decreases |w.disk.ripe|
  {
    if w.disk.ripe != [] {
      ContiguousTail(cfg, w.disk.ripe, w.prev + 1);
      HealthyMove(apps, lo, w);
      var w1 := MoveRipe(w.(faults := Tail(w.faults)));
      if OnGrid(cfg, w.disk.ripe[0].blk) {
        HealthySnap(apps, lo, cfg, w1);
        assert CopyOne(cfg, w) == Snap(cfg, w1);
      } else {
        assert CopyOne(cfg, w) == Outcome(true, Polled(w1));
        HealthyCopy(apps, lo, cfg, Polled(w1));
      }
    }
  }

  lemma HealthyFinish(apps: nat -> seq<Record>, lo: nat, cfg: Config, w: World)
    requires WellFormedChain(apps) && Healthy(apps, lo, w)
    requires CopyAll(cfg, w).ok && Healthy(apps, lo, CopyAll(cfg, w).w)
    ensures Next(Consolidation(cfg, w).w.disk) == CopyAll(cfg, w).w.prev + 1
  {
    var c := CopyAll(cfg, w);
    HealthyStage(c.w);
    StageKeeps(apps, lo, c.w);
    StageEffect(c.w);
    var w1 := StageChunks(c.w).w;
    assert !Quits(w1);
    if |Staged(Polled(w1))| > cfg.maxRows {
      WriteKeeps(apps, lo, cfg, Polled(w1), cfg.maxRows, false);
    }
  }

  /** A pass that starts at the frontier, meets consecutive ripe files up to the first grid block, and is
      neither quit nor hit by a fault moves the frontier past every file it can take: all of them, or those up
      to the first grid block. */
  lemma HealthyPassAdvances(apps: nat -> seq<Record>, cfg: Config, d: Disk, r: Round)
    requires WellFormedChain(apps) && Sound(apps, d) && TempEmpty(d) && BlazeHolds(apps, d, r)
    requires ReachesCopy(d, r) && Staging(d) + 1 == Next(d) && NoneTrue(r.quits) && NoneTrue(r.faults)
    requires Contiguous((d.ripe + r.scraped)[..Reach(cfg, d.ripe + r.scraped)], Next(d))
    ensures Next(Scrape(cfg, d, r).w.disk) == Next(d) + Reach(cfg, d.ripe + r.scraped)
  {
    var lo := Next(d);
    var w := AfterBlaze(d, r);
    AfterBlazeKept(apps, d, r);
    BeginCopying(apps, d, r, w);
    assert Scrape(cfg, d, r) == Consolidation(cfg, w);
    assert Healthy(apps, lo, w);
    HealthyCopy(apps, lo, cfg, w);
    if CopyAll(cfg, w).ok { HealthyFinish(apps, lo, cfg, w); }
  }
}
