/** Theorems about every run of the scraper: any number of passes that fail, quit or succeed, abrupt
    exits at any visible step, and restarts. */
module Runs {
  import opened Util
  import opened Chain
  import opened Pipeline
  import opened Soundness

  /** An abrupt exit is harmless unless it falls between the appends to temp.txt and its rename. */
  predicate Harmless(cfg: Config, d: Disk, e: Event) {
    e.Killed? ==> TempEmpty(After(cfg, d, e))
  }

  ghost predicate BlazeBehaves(apps: nat -> seq<Record>, d: Disk, e: Event) {
    !e.Restart? ==> BlazeHolds(apps, d, e.round)
  }

  /** In this run blaze keeps its contract and no abrupt exit leaves temp.txt behind. */
  ghost predicate Runnable(apps: nat -> seq<Record>, cfg: Config, d: Disk, events: seq<Event>)
    decreases |events|
  {
    events == [] ||
    (BlazeBehaves(apps, d, events[0]) && Harmless(cfg, d, events[0])
     && Runnable(apps, cfg, After(cfg, d, events[0]), events[1..]))
  }

  lemma EventKeeps(apps: nat -> seq<Record>, cfg: Config, d: Disk, e: Event)
    requires WellFormedChain(apps) && Sound(apps, d) && TempEmpty(d)
    requires BlazeBehaves(apps, d, e) && Harmless(cfg, d, e)
    ensures Sound(apps, After(cfg, d, e)) && TempEmpty(After(cfg, d, e))
    ensures Next(d) <= Next(After(cfg, d, e))
  {
    if !e.Restart? { ScrapeKeeps(apps, cfg, d, e.round); }
  }

  /** Every run keeps the disk sound and never moves the frontier back. */
  lemma {:induction false} EveryRunIsSound(apps: nat -> seq<Record>, cfg: Config, d: Disk, events: seq<Event>)
    requires WellFormedChain(apps) && Sound(apps, d) && TempEmpty(d)
    requires Runnable(apps, cfg, d, events)
    ensures Sound(apps, Run(cfg, d, events)) && TempEmpty(Run(cfg, d, events))
    ensures Next(d) <= Next(Run(cfg, d, events))
    decreases |events|
  {
    if events != [] {
      EventKeeps(apps, cfg, d, events[0]);
      EveryRunIsSound(apps, cfg, After(cfg, d, events[0]), events[1..]);
    }
  }

  // ----- conservation -----

  function AllRows(chunks: seq<Chunk>): seq<Record> {
    if chunks == [] then [] else AllRows(chunks[..|chunks| - 1]) + chunks[|chunks| - 1].rows
  }

  lemma RowsJoin(apps: nat -> seq<Record>, rows: seq<Record>, c: Chunk)
    requires multiset(rows) == multiset(Span(apps, 0, c.first)) && c.first <= c.last
    requires multiset(c.rows) == multiset(Span(apps, c.first, c.last + 1))
    ensures multiset(rows + c.rows) == multiset(Span(apps, 0, c.last + 1))
  {
    SpanJoin(apps, 0, c.first, c.last + 1);
  }

  lemma {:induction false} ChunkRows(apps: nat -> seq<Record>, chunks: seq<Chunk>)
    requires Tiled(apps, chunks)
    ensures multiset(AllRows(chunks)) == multiset(Span(apps, 0, FinalNext(chunks)))
    decreases |chunks|
  {
    var n := |chunks| - 1;
    if n > 0 {
      ChunkRows(apps, chunks[..n]);
    } else {
      NoRows(apps, chunks[..n]);
    }
    RowsStep(apps, chunks, AllRows(chunks[..n]), chunks[n]);
  }

  lemma NoRows(apps: nat -> seq<Record>, chunks: seq<Chunk>)
    requires chunks == []
    ensures multiset(AllRows(chunks)) == multiset(Span(apps, 0, FinalNext(chunks)))
  {
  }

  lemma RowsStep(apps: nat -> seq<Record>, chunks: seq<Chunk>, before: seq<Record>, c: Chunk)
    requires chunks != [] && before == AllRows(chunks[..|chunks| - 1]) && c == chunks[|chunks| - 1]
    requires multiset(before) == multiset(Span(apps, 0, c.first)) && ChunkHolds(apps, c)
    ensures multiset(AllRows(chunks)) == multiset(Span(apps, 0, FinalNext(chunks)))
  {
    RowsJoin(apps, before, c);
  }

  /** Tiling, chunk by chunk. */
  lemma {:induction false} TilesTheChain(apps: nat -> seq<Record>, chunks: seq<Chunk>, i: nat)
    requires Tiled(apps, chunks) && i < |chunks|
    ensures ChunkHolds(apps, chunks[i])
    ensures chunks[i].first == if i == 0 then 0 else chunks[i - 1].last + 1
    decreases |chunks|
  {
    if i < |chunks| - 1 { TilesTheChain(apps, chunks[..|chunks| - 1], i); }
  }

  /** Chunks and stage together hold every record of blocks 0 up to the frontier exactly once. */
  lemma Conservation(apps: nat -> seq<Record>, d: Disk)
    requires WellFormedChain(apps) && Sound(apps, d)
    ensures multiset(AllRows(d.chunks)) + multiset(StageRecs(d.stage)) == multiset(Span(apps, 0, Next(d)))
  {
    ChunkRows(apps, d.chunks);
    SpanJoin(apps, 0, FinalNext(d.chunks), Next(d));
    assert Span(apps, 0, Next(d)) == Span(apps, 0, FinalNext(d.chunks)) + StageRecs(d.stage);
  }

  /** The index after block zero has been written and nothing else. */
  function Genesis(apps: nat -> seq<Record>): Disk
    requires |apps(0)| > 0
  {
    Disk([], None, None, None, [ChunkOf(apps(0))])
  }

  lemma GenesisSound(apps: nat -> seq<Record>)
    requires WellFormedChain(apps)
    ensures Sound(apps, Genesis(apps)) && TempEmpty(Genesis(apps)) && Next(Genesis(apps)) == 1
  {
    assert Span(apps, 0, 1) == apps(0) by { assert Span(apps, 0, 0) + apps(0) == apps(0); }
    ChunkOfSpan(apps, 0, 0);
  }

  /** From the block-zero index, every run conserves every record; and so does every state an abrupt
      exit can leave behind. */
  lemma EveryRunConserves(apps: nat -> seq<Record>, cfg: Config, events: seq<Event>)
    requires WellFormedChain(apps)
    requires Runnable(apps, cfg, Genesis(apps), events)
    ensures var d := Run(cfg, Genesis(apps), events);
            && Tiled(apps, d.chunks)
            && multiset(AllRows(d.chunks)) + multiset(StageRecs(d.stage)) == multiset(Span(apps, 0, Next(d)))
  {
    GenesisSound(apps);
    EveryRunIsSound(apps, cfg, Genesis(apps), events);
    Conservation(apps, Run(cfg, Genesis(apps), events));
  }

  /** Every state a pass makes visible holds every record up to the frontier, whatever happens next. */
  lemma EveryVisibleStateConserves(apps: nat -> seq<Record>, cfg: Config, d: Disk, r: Round, at: nat)
    requires WellFormedChain(apps) && Sound(apps, d) && TempEmpty(d) && BlazeHolds(apps, d, r)
    requires at < |Scrape(cfg, d, r).w.trace|
    ensures var e := Scrape(cfg, d, r).w.trace[at];
            && Sound(apps, e) && Next(d) <= Next(e)
            && multiset(AllRows(e.chunks)) + multiset(StageRecs(e.stage)) == multiset(Span(apps, 0, Next(e)))
  {
    ScrapeKeeps(apps, cfg, d, r);
    Conservation(apps, Scrape(cfg, d, r).w.trace[at]);
  }
}
