/** From the chain to a monitor: scraped, chunked, indexed, looked up. */
module EndToEnd {
  import opened Util
  import opened Chain
  import opened Pipeline
  import opened Soundness
  import opened Runs
  import opened Growth
  import opened Index
  import opened Monitors
  import opened Freshening

  /** Publish a finalized chunk: its index, its filters, its name. A chunk of fewer than twelve rows ends the
      process instead. */
  method Publish(c: Chunk) returns (r: Option<FinalFile>)
    requires c.first <= c.last && |c.rows| > 0 && SortedRecords(c.rows)
    requires forall j :: 0 <= j < |c.rows| ==> IsAddress(c.rows[j].addr)
    ensures r.Some? <==> 12 <= |c.rows|
    ensures r.Some? ==> var f := r.value; Published(f) && f.first == c.first && f.last == c.last && f.lines == c.rows
  {
    var written := WriteIndexAsBinary(c.rows);
    if written.None? {
      return None;
    }
    var t := written.value.table;
    forall i | 0 <= i < |t.addrs| ensures IsAddress(t.addrs[i].addr) {
      assert EntryHolds(c.rows, t.addrs[i]);
      assert c.rows[t.addrs[i].offset].addr == t.addrs[i].addr;
    }
    return Some(FinalFile(c.first, c.last, c.rows, t, written.value.filters));
  }

  /** The files are the published chunks. */
  ghost predicate Publishes(files: seq<FinalFile>, chunks: seq<Chunk>)
    decreases |chunks|
  {
    && |files| == |chunks|
    && (chunks != [] ==>
      var n := |chunks| - 1;
      && Published(files[n]) && files[n].lines == chunks[n].rows
      && files[n].first == chunks[n].first && files[n].last == chunks[n].last
      && Publishes(files[..n], chunks[..n]))
  }

  /** All that the index writer needs of a chunk. */
  predicate Publishable(c: Chunk) {
    && c.first <= c.last && 12 <= |c.rows| && SortedRecords(c.rows)
    && forall j :: 0 <= j < |c.rows| ==> IsAddress(c.rows[j].addr)
  }

  method PublishAll(chunks: seq<Chunk>) returns (files: seq<FinalFile>)
    requires forall i :: 0 <= i < |chunks| ==> Publishable(chunks[i])
    ensures Publishes(files, chunks)
  {
    files := [];
    var i := 0;
    while i < |chunks|
      invariant i <= |chunks| && Publishes(files, chunks[..i])
    {
      var f := Publish(chunks[i]);
      assert chunks[..i + 1][..i] == chunks[..i] && (files + [f.value])[..i] == files;
      files := files + [f.value];
      i := i + 1;
    }
    assert chunks[..i] == chunks;
  }

  /** Records carry twenty-byte addresses. */
  ghost predicate Addressed(apps: nat -> seq<Record>) {
    forall b: nat :: forall i :: 0 <= i < |apps(b)| ==> IsAddress(apps(b)[i].addr)
  }

  lemma {:induction false} SpanAddressed(apps: nat -> seq<Record>, lo: nat, end: nat)
    requires Addressed(apps)
    ensures forall i :: 0 <= i < |Span(apps, lo, end)| ==> IsAddress(Span(apps, lo, end)[i].addr)
    decreases end
  {
    if lo < end {
      SpanAddressed(apps, lo, end - 1);
      var s, a, b := Span(apps, lo, end), Span(apps, lo, end - 1), apps(end - 1);
      forall i | 0 <= i < |s| ensures IsAddress(s[i].addr) {
        assert s[i] == if i < |a| then a[i] else b[i - |a|];
      }
    }
  }

  lemma ChunkPublishable(apps: nat -> seq<Record>, c: Chunk)
    requires Addressed(apps) && ChunkHolds(apps, c) && 12 <= |c.rows|
    ensures Publishable(c)
  {
    var s := Span(apps, c.first, c.last + 1);
    SpanAddressed(apps, c.first, c.last + 1);
    forall j | 0 <= j < |c.rows| ensures IsAddress(c.rows[j].addr) {
      assert c.rows[j] in multiset(s);
      assert c.rows[j] in s;
    }
  }

  /** Every chunk of every run can be published, if block zero can. */
  lemma EveryChunkPublishable(apps: nat -> seq<Record>, cfg: Config, events: seq<Event>, i: nat)
    requires WellFormedChain(apps) && Addressed(apps) && 12 <= |apps(0)| && Runnable(apps, cfg, Genesis(apps), events)
    requires i < |Run(cfg, Genesis(apps), events).chunks|
    ensures Publishable(Run(cfg, Genesis(apps), events).chunks[i])
  {
    var d := Run(cfg, Genesis(apps), events);
    GenesisSound(apps);
    EveryRunIsSound(apps, cfg, Genesis(apps), events);
    TilesTheChain(apps, d.chunks, i);
    EveryRunExtends(cfg, Genesis(apps), events);
    RecordsSorted(apps(0));
    if i == 0 { assert d.chunks[0] == Genesis(apps).chunks[0]; }
    ChunkPublishable(apps, d.chunks[i]);
  }

  /** Publish the index that a run of the scraper has left. */
  method PublishIndex(d: Disk, ghost apps: nat -> seq<Record>, ghost cfg: Config, ghost events: seq<Event>)
    returns (files: seq<FinalFile>)
    requires WellFormedChain(apps) && Addressed(apps) && 12 <= |apps(0)| && Runnable(apps, cfg, Genesis(apps), events)
    requires d == Run(cfg, Genesis(apps), events)
    ensures Publishes(files, d.chunks)
  {
    forall i | 0 <= i < |d.chunks| ensures Publishable(d.chunks[i]) {
      EveryChunkPublishable(apps, cfg, events, i);
    }
    files := PublishAll(d.chunks);
  }

  lemma {:induction false} PublishedAreFaithful(files: seq<FinalFile>, chunks: seq<Chunk>)
    requires Publishes(files, chunks)
    ensures AllFaithful(files)
    decreases |chunks|
  {
    if chunks != [] {
      var n := |chunks| - 1;
      PublishedIsFaithful(files[n]);
      PublishedAreFaithful(files[..n], chunks[..n]);
    }
  }

  lemma {:induction false} ScanJoin(a: seq<Record>, b: seq<Record>, addr: nat)
    ensures Scan(a + b, addr) == Scan(a, addr) + Scan(b, addr)
    decreases |b|
  {
    if b == [] {
      assert a + b == a;
    } else {
      var n := |b| - 1;
      ScanJoin(a, b[..n], addr);
      assert (a + b)[..|a + b| - 1] == a + b[..n];
    }
  }

  /** Scanning chunk by chunk is scanning all the chunks' rows. */
  lemma {:induction false} RowsAreScan(files: seq<FinalFile>, chunks: seq<Chunk>, addr: nat)
    requires Publishes(files, chunks)
    ensures RowsFrom(files, addr, 0) == Scan(AllRows(chunks), addr)
    decreases |chunks|
  {
    if chunks != [] {
      var n := |chunks| - 1;
      var before, rows := AllRows(chunks[..n]), chunks[n].rows;
      assert RowsFrom(files[..n], addr, 0) == Scan(before, addr) by { RowsAreScan(files[..n], chunks[..n], addr); }
      assert RowsFrom(files, addr, 0) == RowsFrom(files[..n], addr, 0) + Scan(rows, addr) by {
        LastRows(files, chunks, addr);
      }
      assert AllRows(chunks) == before + rows;
      ScanJoin(before, rows, addr);
    }
  }

  lemma LastRows(files: seq<FinalFile>, chunks: seq<Chunk>, addr: nat)
    requires Publishes(files, chunks) && chunks != []
    ensures var n := |chunks| - 1;
            RowsFrom(files, addr, 0) == RowsFrom(files[..n], addr, 0) + Scan(chunks[n].rows, addr)
  {
  }

  /** A scan finds each appearance as often as it is in the lines. */
  lemma {:induction false} ScanCounts(s: seq<Record>, addr: nat, x: App)
    requires AllTabbed(s)
    ensures multiset(Scan(s, addr))[x] == multiset(s)[Record(addr, x.blk, x.txid, 2)]
    decreases |s|
  {
    if s != [] {
      var n := |s| - 1;
      ScanCounts(s[..n], addr, x);
      assert s == s[..n] + [s[n]];
    }
  }

  lemma ScanPermutes(s: seq<Record>, t: seq<Record>, addr: nat)
    requires multiset(s) == multiset(t) && AllTabbed(t)
    ensures multiset(Scan(s, addr)) == multiset(Scan(t, addr))
  {
    forall i | 0 <= i < |s| ensures s[i].tabs == 2 {
      assert s[i] in multiset(t);
    }
    forall x: App ensures multiset(Scan(s, addr))[x] == multiset(Scan(t, addr))[x] {
      ScanCounts(s, addr, x);
      ScanCounts(t, addr, x);
    }
  }

  /** After any run of the scraper, the first freshen of an address records exactly the address's
      appearances in the finalized part of the chain, each as often as it occurs. */
  lemma FirstFreshenIsExact(apps: nat -> seq<Record>, cfg: Config, events: seq<Event>, files: seq<FinalFile>, addr: nat)
    requires WellFormedChain(apps) && Runnable(apps, cfg, Genesis(apps), events)
    requires Publishes(files, Run(cfg, Genesis(apps), events).chunks)
    ensures var d := Run(cfg, Genesis(apps), events);
            multiset(Apps(Freshen(NewMonitor(), addr, files).bin))
            == multiset(Scan(Span(apps, 0, FinalNext(d.chunks)), addr))
  {
    var d := Run(cfg, Genesis(apps), events);
    GenesisSound(apps);
    EveryRunIsSound(apps, cfg, Genesis(apps), events);
    PublishedAreFaithful(files, d.chunks);
    NewMonitorComplete(addr, files);
    RowsAreScan(files, d.chunks, addr);
    ChunkRows(apps, d.chunks);
    SpanBlocks(apps, 0, FinalNext(d.chunks));
    ScanPermutes(AllRows(d.chunks), Span(apps, 0, FinalNext(d.chunks)), addr);
  }
}
