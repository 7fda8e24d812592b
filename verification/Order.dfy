/** What a monitor holds after any freshens of any scraped index: in block order, and nothing more often
    than the chain has it. */
module Order {
  import opened Util
  import opened Chain
  import opened Pipeline
  import opened Soundness
  import opened Runs
  import opened Index
  import opened Monitors
  import opened Freshening
  import opened EndToEnd
  import Clean

  /** The lines of a chunk are sorted and of the blocks in its name. */
  predicate WellKept(c: FinalFile) {
    SortedRecords(c.lines) && forall j :: 0 <= j < |c.lines| ==> c.first <= c.lines[j].blk <= c.last
  }

  predicate AllKept(chunks: seq<FinalFile>) {
    forall i :: 0 <= i < |chunks| ==> WellKept(chunks[i])
  }

  /** Blocks from `lo` on and before `hi`. */
  predicate Between(s: seq<App>, lo: nat, hi: nat) {
    forall i :: 0 <= i < |s| ==> lo <= s[i].blk < hi
  }

  /** No element is after `x`. */
  predicate NotAfter(s: seq<App>, x: App) {
    forall i :: 0 <= i < |s| ==> !Clean.Before(x, s[i])
  }

  lemma {:induction false} ScanNotAfter(lines: seq<Record>, addr: nat, x: App)
    requires forall j :: 0 <= j < |lines| && lines[j].addr == addr ==> !Clean.Before(x, AppOf(lines[j]))
    ensures NotAfter(Scan(lines, addr), x)
    decreases |lines|
  {
    if lines != [] { ScanNotAfter(lines[..|lines| - 1], addr, x); }
  }

  /** The rows of one address in sorted lines are in order of block and transaction. */
  lemma {:induction false} ScanOrdered(lines: seq<Record>, addr: nat)
    requires SortedRecords(lines)
    ensures Clean.Ordered(Scan(lines, addr))
    decreases |lines|
  {
    if lines != [] {
      var n := |lines| - 1;
      ScanOrdered(lines[..n], addr);
      if lines[n].addr == addr {
        forall j | 0 <= j < n && lines[..n][j].addr == addr
          ensures !Clean.Before(AppOf(lines[n]), AppOf(lines[..n][j]))
        {
          assert AtMost(lines[j], lines[n]);
        }
        ScanNotAfter(lines[..n], addr, AppOf(lines[n]));
      }
    }
  }

  lemma {:induction false} ScanBetween(lines: seq<Record>, addr: nat, lo: nat, hi: nat)
    requires forall j :: 0 <= j < |lines| ==> lo <= lines[j].blk < hi
    ensures Between(Scan(lines, addr), lo, hi)
    decreases |lines|
  {
    if lines != [] { ScanBetween(lines[..|lines| - 1], addr, lo, hi); }
  }

  lemma OrderedJoin(a: seq<App>, b: seq<App>, lo: nat, mid: nat, hi: nat)
    requires Clean.Ordered(a) && Clean.Ordered(b) && Between(a, lo, mid) && Between(b, mid, hi) && lo <= mid <= hi
    ensures Clean.Ordered(a + b) && Between(a + b, lo, hi)
  {
  }

  /** The first block not covered by the chunks `idx`. */
  function Covered(chunks: seq<FinalFile>, idx: seq<nat>): nat
    requires Within(idx, 0, |chunks|)
  {
    if idx == [] then 0 else EndOf(chunks, idx[|idx| - 1] + 1)
  }

  lemma CoveredStep(chunks: seq<FinalFile>, idx: seq<nat>)
    requires TiledFiles(chunks) && Within(idx, 0, |chunks|) && Strictly(idx) && idx != []
    ensures var n := |idx| - 1;
            Covered(chunks, idx[..n]) <= chunks[idx[n]].first <= chunks[idx[n]].last < Covered(chunks, idx)
  {
    var n := |idx| - 1;
    FirstIsEnd(chunks, idx[n]);
    if n > 0 && idx[n - 1] + 1 < idx[n] { EndsAscend(chunks, idx[n - 1] + 1, idx[n]); }
  }

  /** The rows of ascending chunks are in order. */
  lemma {:induction false} RowsOrdered(chunks: seq<FinalFile>, addr: nat, idx: seq<nat>)
    requires TiledFiles(chunks) && AllKept(chunks) && Within(idx, 0, |chunks|) && Strictly(idx)
    ensures Clean.Ordered(RowsAt(chunks, addr, idx)) && Between(RowsAt(chunks, addr, idx), 0, Covered(chunks, idx))
    decreases |idx|
  {
    if idx != [] {
      var n := |idx| - 1;
      var c := chunks[idx[n]];
      RowsOrdered(chunks, addr, idx[..n]);
      CoveredStep(chunks, idx);
      ScanOrdered(c.lines, addr);
      ScanBetween(c.lines, addr, Covered(chunks, idx[..n]), Covered(chunks, idx));
      OrderedJoin(RowsAt(chunks, addr, idx[..n]), Scan(c.lines, addr), 0, Covered(chunks, idx[..n]),
                  Covered(chunks, idx));
    }
  }

  /** Ascending chunks have no row more often than all chunks have it. */
  lemma {:induction false} RowsAreSome(chunks: seq<FinalFile>, addr: nat, idx: seq<nat>)
    requires Within(idx, 0, |chunks|) && Strictly(idx)
    ensures multiset(RowsAt(chunks, addr, idx)) <= multiset(RowsFrom(chunks, addr, 0))
    decreases |chunks|
  {
    if chunks != [] && idx != [] {
      var n, l := |chunks| - 1, |idx| - 1;
      var low := if idx[l] == n then idx[..l] else idx;
      assert Within(low, 0, n) && Strictly(low);
      RowsAtPrefix(chunks, n, addr, low);
      RowsAreSome(chunks[..n], addr, low);
    }
  }

  // ----- the scraper's chunks -----

  lemma ChunkIsKept(apps: nat -> seq<Record>, c: Chunk, f: FinalFile)
    requires WellFormedChain(apps) && ChunkHolds(apps, c) && f.lines == c.rows && f.first == c.first && f.last == c.last
    ensures WellKept(f)
  {
    var s := Span(apps, c.first, c.last + 1);
    SpanBlocks(apps, c.first, c.last + 1);
    forall j | 0 <= j < |f.lines| ensures f.first <= f.lines[j].blk <= f.last {
      assert f.lines[j] in multiset(s);
      assert f.lines[j] in s;
    }
  }

  lemma {:induction false} FileOfChunk(files: seq<FinalFile>, chunks: seq<Chunk>, i: nat)
    requires Publishes(files, chunks) && i < |chunks|
    ensures |files| == |chunks| && files[i].lines == chunks[i].rows
    ensures files[i].first == chunks[i].first && files[i].last == chunks[i].last
    decreases |chunks|
  {
    if i < |chunks| - 1 { FileOfChunk(files[..|chunks| - 1], chunks[..|chunks| - 1], i); }
  }

  /** The published chunks of a sound index tile the chain and are well kept. */
  lemma PublishedAreKept(apps: nat -> seq<Record>, files: seq<FinalFile>, chunks: seq<Chunk>)
    requires WellFormedChain(apps) && Tiled(apps, chunks) && Publishes(files, chunks)
    ensures TiledFiles(files) && AllKept(files)
  {
    forall i | 0 <= i < |files|
      ensures WellKept(files[i]) && files[i].first <= files[i].last
      ensures files[i].first == if i == 0 then 0 else files[i - 1].last + 1
    {
      TilesTheChain(apps, chunks, i);
      FileOfChunk(files, chunks, i);
      if i > 0 { FileOfChunk(files, chunks, i - 1); }
      ChunkIsKept(apps, chunks[i], files[i]);
    }
  }

  /** After any run of the scraper and any freshens of a monitor, each over any number of the finalized
      chunks that does not shrink: its appearances are in order of block and transaction, and each is
      there at most as often as the chain has it. */
  lemma EveryMonitorIsInOrder(apps: nat -> seq<Record>, cfg: Config, events: seq<Event>, files: seq<FinalFile>,
                              addr: nat, upTo: seq<nat>)
    requires WellFormedChain(apps) && Runnable(apps, cfg, Genesis(apps), events)
    requires Publishes(files, Run(cfg, Genesis(apps), events).chunks) && Growing(upTo, 0, |files|)
    ensures var rows := Apps(Freshens(NewMonitor(), addr, files, upTo).bin);
            var all := Scan(Span(apps, 0, FinalNext(Run(cfg, Genesis(apps), events).chunks)), addr);
            Clean.Ordered(rows) && multiset(rows) <= multiset(all)
  {
    var d := Run(cfg, Genesis(apps), events);
    GenesisSound(apps);
    EveryRunIsSound(apps, cfg, Genesis(apps), events);
    MonitorIsInOrder(apps, d, files, addr, upTo);
  }

  lemma MonitorIsInOrder(apps: nat -> seq<Record>, d: Disk, files: seq<FinalFile>, addr: nat, upTo: seq<nat>)
    requires WellFormedChain(apps) && Sound(apps, d) && Publishes(files, d.chunks) && Growing(upTo, 0, |files|)
    ensures var rows := Apps(Freshens(NewMonitor(), addr, files, upTo).bin);
            var all := Scan(Span(apps, 0, FinalNext(d.chunks)), addr);
            Clean.Ordered(rows) && multiset(rows) <= multiset(all)
  {
    PublishedAreFaithful(files, d.chunks);
    PublishedAreKept(apps, files, d.chunks);
    var seen := EveryRunAtMostOnce(addr, files, upTo);
    RowsOrdered(files, addr, seen);
    RowsAreSome(files, addr, seen);
    PublishedIsChain(apps, d.chunks, files, addr);
  }

  /** All published rows of an address are its appearances in the finalized part of the chain. */
  lemma PublishedIsChain(apps: nat -> seq<Record>, chunks: seq<Chunk>, files: seq<FinalFile>, addr: nat)
    requires WellFormedChain(apps) && Tiled(apps, chunks) && Publishes(files, chunks)
    ensures multiset(RowsFrom(files, addr, 0)) == multiset(Scan(Span(apps, 0, FinalNext(chunks)), addr))
  {
    RowsAreScan(files, chunks, addr);
    ChunkRows(apps, chunks);
    SpanBlocks(apps, 0, FinalNext(chunks));
    ScanPermutes(AllRows(chunks), Span(apps, 0, FinalNext(chunks)), addr);
  }
}
