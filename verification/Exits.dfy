/** What a pass leaves at each of its exits, and where blaze starts the next time. */
module Exits {
  import opened Util
  import opened Chain
  import opened Pipeline
  import opened Soundness
  import opened Runs
  import opened Recovery
  import opened Chunking

  /** The block after the last ripe file, or the frontier if there is none. */
  function NextBlaze(ripe: seq<RipeFile>, next: nat): nat {
    if ripe == [] then next else ripe[|ripe| - 1].blk + 1
  }

  /** The temporary stage is truncated if it can be opened. */
  function Truncated(d: Disk, r: Round): Disk {
    d.(tmp := if r.opens then Some([]) else d.tmp)
  }

  /** Whatever the temporary stage, blaze starts behind the ripe files, or else at the frontier. */
  lemma StartIs(apps: nat -> seq<Record>, d: Disk, e: Disk)
    requires Sound(apps, d) && RipeHolds(apps, e.ripe, Next(d)) && e.stage == d.stage && e.chunks == d.chunks
    ensures BlazeStart(e) == NextBlaze(e.ripe, Next(d))
  {
    assert d.chunks != [] && FinalNext(d.chunks) <= Next(d);
  }

  // ----- before the copy -----

  /** The index is ahead of the chain, or the user asked to quit before blaze: nothing ripe is touched. */
  lemma NotStarted(apps: nat -> seq<Record>, cfg: Config, d: Disk, r: Round)
    requires Sound(apps, d)
    requires BlazeStart(d) > r.client || (r.locks == 0 && r.quits != [] && r.quits[0])
    ensures var o := Scrape(cfg, d, r);
            && !o.ok && o.w.disk == Truncated(d, r) && BlazeStart(o.w.disk) == NextBlaze(d.ripe, Next(d))
  {
    StartIs(apps, d, Truncated(d, r));
  }

  /** Blaze was launched. */
  predicate Launched(d: Disk, r: Round) {
    BlazeStart(d) <= r.client && !(r.locks == 0 && r.quits != [] && r.quits[0])
  }

  /** Blaze failed: the ripe folder is cleaned, nothing else is, and the next time blaze starts at the frontier. */
  lemma BlazeFails(apps: nat -> seq<Record>, cfg: Config, d: Disk, r: Round)
    requires Sound(apps, d) && Launched(d, r) && !r.blazeOk
    ensures var o := Scrape(cfg, d, r);
            && !o.ok && o.w.disk == Truncated(d, r).(ripe := []) && BlazeStart(o.w.disk) == Next(d)
  {
    StartIs(apps, d, Truncated(d, r).(ripe := []));
  }

  /** acctExport is running, or the temporary stage could not be opened: what blaze left stays ripe, and the next
      time blaze starts behind it. */
  lemma NotCopied(apps: nat -> seq<Record>, cfg: Config, d: Disk, r: Round)
    requires Sound(apps, d) && BlazeHolds(apps, d, r) && Launched(d, r) && r.blazeOk && (r.exporting || !r.opens)
    ensures var o, ripe := Scrape(cfg, d, r), d.ripe + r.scraped;
            && !o.ok && o.w.disk == Truncated(d, r).(ripe := ripe) && BlazeStart(o.w.disk) == NextBlaze(ripe, Next(d))
  {
    ScrapedHolds(apps, d, r.scraped);
    StartIs(apps, d, Truncated(d, r).(ripe := d.ripe + r.scraped));
  }

  // ----- the copy -----

  /** None of the first `n` answers is yes. */
  predicate NoneIn(answers: seq<bool>, n: nat) {
    forall i :: 0 <= i < n && i < |answers| ==> !answers[i]
  }

  lemma NoneInTail(answers: seq<bool>, n: nat)
    requires n > 0
    ensures NoneIn(answers, n) <==> !Head(answers) && NoneIn(Tail(answers), n - 1)
  {
    if !Head(answers) && NoneIn(Tail(answers), n - 1) {
      forall i | 0 <= i < n && i < |answers| ensures !answers[i] {
        if i > 0 { assert answers[i] == Tail(answers)[i - 1]; }
      }
    }
    if NoneIn(answers, n) {
      forall i | 0 <= i < n - 1 && i < |Tail(answers)| ensures !Tail(answers)[i] {
        assert Tail(answers)[i] == answers[i + 1];
      }
    }
  }

  lemma ContiguousStep(files: seq<RipeFile>, from: nat)
    requires files != []
    ensures Contiguous(files, from) <==> files[0].blk == from && Contiguous(files[1..], from + 1)
  {
    if files[0].blk == from && Contiguous(files[1..], from + 1) {
      forall i | 0 <= i < |files| ensures files[i].blk == from + i {
        if i > 0 { assert files[i] == files[1..][i - 1]; }
      }
    }
    if Contiguous(files, from) {
      forall i | 0 <= i < |files[1..]| ensures files[1..][i].blk == from + 1 + i {
        assert files[1..][i] == files[i + 1];
      }
    }
  }

  predicate OffGrid(cfg: Config, files: seq<RipeFile>) {
    forall i :: 0 <= i < |files| ==> !OnGrid(cfg, files[i].blk)
  }

  /** Away from the grid the copy gets to the end of the ripe folder exactly if the files are in sequence, all can
      be opened, and no request to quit is heard after any of them. It never touches more than the ripe folder and
      the temporary stage. */
  lemma {:induction false} CopyOkIff(cfg: Config, w: World)
    requires OffGrid(cfg, w.disk.ripe)
    ensures var r, n := CopyAll(cfg, w), |w.disk.ripe|;
            && (r.ok <==> Contiguous(w.disk.ripe, w.prev + 1) && NoneIn(w.faults, n)
                          && (w.locks > 0 || NoneIn(w.quits, n)))
            && (r.ok ==> r.w.prev == w.prev + n && r.w.disk.ripe == [])
            && r.w.disk == w.disk.(ripe := r.w.disk.ripe, tmp := r.w.disk.tmp) && r.w.alive == w.alive
    decreases |w.disk.ripe|
  {
    if w.disk.ripe != [] {
      var n := |w.disk.ripe|;
      CopyOneIs(cfg, w);
      ContiguousStep(w.disk.ripe, w.prev + 1);
      NoneInTail(w.faults, n);
      NoneInTail(w.quits, n);
      if CopyOne(cfg, w).ok { CopyOkIff(cfg, CopyOne(cfg, w).w); }
    }
  }

  lemma CopyOneIs(cfg: Config, w: World)
    requires w.disk.ripe != [] && !OnGrid(cfg, w.disk.ripe[0].blk)
    ensures var r := CopyOne(cfg, w);
            && (r.ok <==> w.disk.ripe[0].blk == w.prev + 1 && !Head(w.faults) && !Quits(w))
            && (r.ok ==> r.w.prev == w.prev + 1 && r.w.disk.ripe == w.disk.ripe[1..] && r.w.locks == w.locks
                         && r.w.faults == Tail(w.faults) && r.w.quits == Tail(w.quits))
            && r.w.disk == w.disk.(ripe := r.w.disk.ripe, tmp := r.w.disk.tmp) && r.w.alive == w.alive
  {
  }

  /** A copy that does not get to the end, for whatever reason, ends the pass with everything not staged dropped, and
      blaze starts at the frontier the next time. */
  lemma CopyRefused(apps: nat -> seq<Record>, cfg: Config, d: Disk, r: Round)
    requires Sound(apps, d) && BlazeHolds(apps, d, r) && ReachesCopy(d, r)
    requires OffGrid(cfg, d.ripe + r.scraped)
    requires var n, quits := |d.ripe + r.scraped|, Tail(r.quits);
             !(Contiguous(d.ripe + r.scraped, Staging(d) + 1) && NoneIn(r.faults, n)
               && (r.locks > 0 || NoneIn(quits, n)))
    ensures var o := Scrape(cfg, d, r);
            && !o.ok && o.w.disk == d.(ripe := [], tmp := None) && BlazeStart(o.w.disk) == Next(d)
  {
    CopyOkIff(cfg, AfterBlaze(d, r));
    StartIs(apps, d, d.(ripe := [], tmp := None));
  }

  // ----- after the copy -----

  /** If staging fails after the copy, the rest is dropped, stage and chunks stay, and the pass goes on to a
      consolidation that finds nothing: it counts as completed unless the user asked to quit. */
  lemma StagingFails(cfg: Config, w: World)
    requires CopyAll(cfg, w).ok && !StageChunks(CopyAll(cfg, w).w).ok
    ensures var c, s, o := CopyAll(cfg, w).w, StageChunks(CopyAll(cfg, w).w).w, Consolidation(cfg, w);
            && (o.ok <==> !Quits(s))
            && o.w.disk == s.disk.(ripe := [], tmp := None)
            && o.w.disk.stage == c.disk.stage && o.w.disk.chunks == c.disk.chunks
  {
    var c := CopyAll(cfg, w).w;
    var s := StageChunks(c).w;
    StageEffect(c);
    assert Staged(Polled(CleanUp(s))) == [];
  }

  /** A request to quit heard after the staging leaves the stage uncut. */
  lemma QuitBeforeChunks(cfg: Config, w: World)
    requires CopyAll(cfg, w).ok && StageChunks(CopyAll(cfg, w).w).ok && Quits(StageChunks(CopyAll(cfg, w).w).w)
    ensures var o := Consolidation(cfg, w);
            !o.ok && o.w.disk == StageChunks(CopyAll(cfg, w).w).w.disk
  {
  }

  /** Without one, a stage of up to MAX_ROWS records is left as it is, and of a larger one no more than that many
      records stay. */
  lemma ChunksWritten(apps: nat -> seq<Record>, lo: nat, cfg: Config, w: World)
    requires WellFormedChain(apps) && Copying(apps, w) && Kept(apps, lo, w)
    requires CopyAll(cfg, w).ok && StageChunks(CopyAll(cfg, w).w).ok
    requires var s := StageChunks(CopyAll(cfg, w).w).w; s.locks > 0 || NoneTrue(s.quits)
    ensures var o, s := Consolidation(cfg, w), StageChunks(CopyAll(cfg, w).w).w;
            && o.ok && |StageRecs(o.w.disk.stage)| <= cfg.maxRows
            && (|StageRecs(s.disk.stage)| <= cfg.maxRows <==> o.w.disk == s.disk)
  {
    var c := CopyAll(cfg, w).w;
    var s := StageChunks(c).w;
    CopyAllKeeps(apps, lo, cfg, w);
    StageKeeps(apps, lo, c);
    StageEffect(c);
    ChunksWrittenFrom(apps, lo, cfg, s);
  }

  lemma ChunksWrittenFrom(apps: nat -> seq<Record>, lo: nat, cfg: Config, s: World)
    requires WellFormedChain(apps) && Kept(apps, lo, s) && s.disk.stage.Some? && s.disk.stage.value.name == s.newStage
    requires s.locks > 0 || NoneTrue(s.quits)
    ensures var o := ConsolidateChunks(cfg, Polled(s));
            && o.ok && |StageRecs(o.w.disk.stage)| <= cfg.maxRows
            && (|StageRecs(s.disk.stage)| <= cfg.maxRows <==> o.w.disk == s.disk)
  {
    var p := Polled(s);
    assert Staged(p) == StageRecs(s.disk.stage);
    if |Staged(p)| > cfg.maxRows {
      StagedTabbed(apps, p);
      StageOrdered(apps, p);
      ConsolidationBound(cfg, p, cfg.maxRows);
      WriteKeeps(apps, lo, cfg, p, cfg.maxRows, false);
      var pieces := WritePartitions(cfg, p, cfg.maxRows, false);
      NoneBreaks(cfg, Staged(p), cfg.maxRows, false, p.locks > 0, p.quits);
      var o := WriteChunks(cfg, p, cfg.maxRows, false);
      assert Staged(o.w) == StageRecs(o.w.disk.stage);
    }
  }

  lemma StageOrdered(apps: nat -> seq<Record>, w: World)
    requires WellFormedChain(apps) && Sound(apps, w.disk)
    ensures BlockOrdered(Staged(w))
  {
    SpanOrdered(apps, FinalNext(w.disk.chunks), Next(w.disk));
  }

  /** Well-formed lines never break the loop. */
  lemma {:induction false} NoneBreaks(cfg: Config, lines: seq<Record>, chunkSize: nat, once: bool, locked: bool,
                                      quits: seq<bool>)
    requires AllTabbed(lines)
    ensures !EndingOf(cfg, lines, chunkSize, once, locked, quits).Broke?
    decreases |lines|
  {
    if (once || |lines| > chunkSize) && !(!locked && Head(quits)) && lines != [] {
      var a, rest := lines[..BreakAt(lines, chunkSize) + 1], lines[BreakAt(lines, chunkSize) + 1..];
      EndingStep(cfg, lines, chunkSize, once, locked, quits, a, rest);
      NoneBreaks(cfg, rest, Min(cfg.maxRows, |rest|), once && |rest| > 0, locked, Tail(quits));
    }
  }

  // ----- the grid -----

  /** Grid blocks are the multiples of the grid behind the first snap. */
  lemma OnGridIs(cfg: Config, bn: nat)
    ensures OnGrid(cfg, bn) <==> bn > cfg.firstSnap && exists k: nat :: bn == k * cfg.gridBlks
  {
    var n := cfg.gridBlks;
    assert bn == (bn / n) * n + bn % n;
    if bn % n == 0 {
      assert bn == (bn / n) * n;
    }
    if k: nat :| bn == k * n { MultipleOf(k, n); }
  }

  lemma MultipleOf(k: nat, n: pos)
    ensures (k * n) % n == 0
  {
    var q, r := k * n / n, k * n % n;
    assert n * k == n * q + r;
    assert n * (k - q) == r;
    SmallMultiple(n, k - q, r);
  }

  /** The only multiple of `n` from 0 to below `n` is 0. */
  lemma SmallMultiple(n: pos, d: int, r: nat)
    requires n * d == r < n
    ensures r == 0
  {
    Products(n, d);
  }

  lemma Products(n: pos, d: int)
    ensures (d >= 1 ==> n * d >= n) && (d <= -1 ==> n * d + n <= 0)
  {
    if d >= 1 { assert n * d >= n * 1; }
    if d <= -1 { assert n * d <= n * -1; }
  }
}
