/** Finalized chunks are never rewritten or removed: the index only grows at its end, and never by a chunk
    that the index writer cannot write. */
module Growth {
  import opened Util
  import opened Chain
  import opened Pipeline
  import opened Soundness

  /** `chunks` begins with `base`, and every later chunk has at least twelve rows. */
  predicate Grown(base: seq<Chunk>, chunks: seq<Chunk>) {
    base <= chunks && forall i :: |base| <= i < |chunks| ==> 12 <= |chunks[i].rows|
  }

  /** The chunks have grown from `base`, now and in every state on the way. */
  ghost predicate Extends(base: seq<Chunk>, w: World) {
    Grown(base, w.disk.chunks) && forall i :: 0 <= i < |w.trace| ==> Grown(base, w.trace[i].chunks)
  }

  lemma PutExtends(base: seq<Chunk>, w: World, d: Disk)
    requires Extends(base, w) && Grown(base, d.chunks)
    ensures Extends(base, Put(w, d))
  {
  }

  lemma AppendTempExtends(base: seq<Chunk>, w: World, from: Option<seq<Record>>)
    requires Extends(base, w)
    ensures Extends(base, AppendTemp(w, from).w)
  {
    var w1 := w.(faults := Tail(w.faults));
    if !Head(w.faults) {
      PutExtends(base, w1, w1.disk.(temp := Some(Contents(w1.disk.temp))));
    }
  }

  /** The end of staging, once both files were appended or not. */
  lemma StageEndExtends(base: seq<Chunk>, w: World, name: nat)
    requires Extends(base, w)
    ensures Extends(base, Put(w, w.disk.(temp := None)))
    ensures var stage := Some(StageFile(name, Contents(w.disk.temp)));
            Extends(base, Put(w, w.disk.(temp := None, tmp := None, stage := stage)).(linked := false))
  {
    var stage := Some(StageFile(name, Contents(w.disk.temp)));
    PutExtends(base, w, w.disk.(temp := None));
    PutExtends(base, w, w.disk.(temp := None, tmp := None, stage := stage));
  }

  lemma StageExtends(base: seq<Chunk>, w: World)
    requires Extends(base, w)
    ensures Extends(base, StageChunks(w).w)
  {
    var w0 := w.(newStage := w.prev);
    assert Extends(base, w0);
    if !(w0.disk.stage.Some? && w0.disk.stage.value.name == w0.newStage) {
      var r1 := if OldStageIsTmp(w0.disk) then Outcome(true, w0) else AppendTemp(w0, OldStage(w0.disk));
      assert Extends(base, r1.w) by { AppendTempExtends(base, w0, OldStage(w0.disk)); }
      if r1.ok {
        var r2 := AppendTemp(r1.w, r1.w.disk.tmp);
        AppendTempExtends(base, r1.w, r1.w.disk.tmp);
        StageEndExtends(base, r2.w, w0.newStage);
      }
    }
  }

  lemma CutExtends(base: seq<Chunk>, w: World, chunkSize: nat)
    requires Extends(base, w)
    ensures Extends(base, CutOnce(w, chunkSize).w)
  {
    if CutOnce(w, chunkSize).ok && Staged(w) != [] {
      var piece := Staged(w)[..BreakAt(Staged(w), chunkSize) + 1];
      RecordsSorted(piece);
      assert CutOnce(w, chunkSize).w.disk.chunks == w.disk.chunks + [ChunkOf(piece)];
      PutExtends(base, w, CutOnce(w, chunkSize).w.disk);
    }
  }

  lemma {:induction false} WriteExtends(base: seq<Chunk>, cfg: Config, w: World, chunkSize: nat, once: bool)
    requires Extends(base, w)
    ensures Extends(base, WriteChunks(cfg, w, chunkSize, once).w)
    decreases |Staged(w)|, once
  {
    if (once || |Staged(w)| > chunkSize) && !Quits(w) {
      WriteStep(cfg, w, chunkSize, once);
      CutExtends(base, Polled(w), chunkSize);
      var r := CutOnce(Polled(w), chunkSize);
      if r.ok { WriteExtends(base, cfg, r.w, Min(cfg.maxRows, |Staged(r.w)|), once && |Staged(r.w)| > 0); }
    }
  }

  lemma CleanUpExtends(base: seq<Chunk>, w: World)
    requires Extends(base, w)
    ensures Extends(base, CleanUp(w))
  {
  }

  lemma SnapExtends(base: seq<Chunk>, cfg: Config, w: World)
    requires Extends(base, w)
    ensures Extends(base, Snap(cfg, w).w)
  {
    var r := StageChunks(w);
    StageExtends(base, w);
    if !r.ok {
      CleanUpExtends(base, r.w);
    } else if !Quits(r.w) {
      var w2 := Polled(r.w);
      WriteExtends(base, cfg, w2, Min(|Staged(w2)|, cfg.maxRows), true);
    }
  }

  lemma CopyOneExtends(base: seq<Chunk>, cfg: Config, w: World)
    requires Extends(base, w) && w.disk.ripe != []
    ensures Extends(base, CopyOne(cfg, w).w)
  {
    if w.prev + 1 == w.disk.ripe[0].blk && !Head(w.faults) {
      var w0 := w.(faults := Tail(w.faults));
      PutExtends(base, w0, MoveRipe(w0).disk);
      if OnGrid(cfg, w.disk.ripe[0].blk) { SnapExtends(base, cfg, MoveRipe(w0)); }
    }
  }

  lemma {:induction false} CopyAllExtends(base: seq<Chunk>, cfg: Config, w: World)
    requires Extends(base, w)
    ensures Extends(base, CopyAll(cfg, w).w)
    decreases |w.disk.ripe|
  {
    if w.disk.ripe != [] {
      CopyOneExtends(base, cfg, w);
      if CopyOne(cfg, w).ok { CopyAllExtends(base, cfg, CopyOne(cfg, w).w); }
    }
  }

  lemma ConsolidationExtends(base: seq<Chunk>, cfg: Config, w: World)
    requires Extends(base, w)
    ensures Extends(base, Consolidation(cfg, w).w)
  {
    var c := CopyAll(cfg, w);
    CopyAllExtends(base, cfg, w);
    CleanUpExtends(base, c.w);
    if c.ok {
      var s := StageChunks(c.w);
      StageExtends(base, c.w);
      CleanUpExtends(base, s.w);
      var w1 := Polled(if s.ok then s.w else CleanUp(s.w));
      WriteExtends(base, cfg, w1, cfg.maxRows, false);
    }
  }

  /** A pass, whatever happens in it, keeps the chunks there are and adds none that is too short. */
  lemma ScrapeExtends(cfg: Config, d: Disk, r: Round)
    ensures Extends(d.chunks, Scrape(cfg, d, r).w)
  {
    var w := Begin(d, r);
    assert Extends(d.chunks, w);
    var w1 := Blazed(w, r);
    PutExtends(d.chunks, Polled(w), w1.disk);
    PutExtends(d.chunks, w1, w1.disk.(ripe := []));
    ConsolidationExtends(d.chunks, cfg, w1);
  }

  lemma GrownTwice(a: seq<Chunk>, b: seq<Chunk>, c: seq<Chunk>)
    requires Grown(a, b) && Grown(b, c)
    ensures Grown(a, c)
  {
    forall i | |a| <= i < |c| ensures 12 <= |c[i].rows| {
      if i < |b| { assert c[i] == b[i]; }
    }
  }

  /** No run of passes, abrupt exits and restarts changes or removes a finalized chunk, or adds one that is
      too short. */
  lemma {:induction false} EveryRunExtends(cfg: Config, d: Disk, events: seq<Event>)
    ensures Grown(d.chunks, Run(cfg, d, events).chunks)
    decreases |events|
  {
    if events != [] {
      var e := After(cfg, d, events[0]);
      if !events[0].Restart? { ScrapeExtends(cfg, d, events[0].round); }
      EveryRunExtends(cfg, e, events[1..]);
      GrownTwice(d.chunks, e.chunks, Run(cfg, e, events[1..]).chunks);
    }
  }
}
