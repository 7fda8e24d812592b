/** The files of a monitored address, and what visiting finalized chunks does to them. */
module Monitors {
  import opened Util
  import opened Chain
  import opened Index
  import Bloom

  /** The two files of a monitor in production and the two in the monitor staging folder. */
  datatype Files = Files(
    bin: Option<seq<App>>,
    last: Option<nat>,
    stagedBin: Option<seq<App>>,
    stagedLast: Option<nat>)

  /** `staging` is decided once, before the chunks are visited: production has no binary file yet. */
  datatype Monitor = Monitor(addr: nat, staging: bool)

  /** A finalized chunk with its bloom filters, and the lines it was written from. */
  datatype FinalFile = FinalFile(first: nat, last: nat, lines: seq<Record>, table: Table, filters: seq<Bloom.Filter>)

  ghost predicate Published(c: FinalFile) {
    && c.first <= c.last && Indexes(c.table, c.lines)
    && (forall j :: 0 <= j < |c.lines| ==> Bloom.Member(c.filters, c.lines[j].addr))
    && (forall i :: 0 <= i < |c.table.addrs| ==> IsAddress(c.table.addrs[i].addr))
  }

  function Apps(f: Option<seq<App>>): seq<App> {
    if f.Some? then f.value else []
  }

  function NewMonitor(): Files {
    Files(None, None, None, None)
  }

  /** getLastBlockInMonitor reads the production watermark file, zero if there is none. */
  function Watermark(f: Files): nat {
    if f.last.Some? then f.last.value else 0
  }

  predicate Possible(f: Files, c: FinalFile) {
    Watermark(f) == 0 || Watermark(f) < c.first
  }

  // ----- one monitor, one chunk -----

  /** Opening the binary file for appending creates it, even if nothing is appended. */
  function Append(f: Files, staging: bool, items: seq<App>): Files {
    if staging then f.(stagedBin := Some(Apps(f.stagedBin) + items)) else f.(bin := Some(Apps(f.bin) + items))
  }

  function Advance(f: Files, staging: bool, c: FinalFile): Files {
    if staging then f.(stagedLast := Some(c.last + 1)) else f.(last := Some(c.last + 1))
  }

  /** How far a visit got with a monitor: not to it, as far as opening its file, or all the way. */
  datatype Reach = Untouched | Opened | Written

  /** What a visit does to a possible monitor: append if the loop got to it and its bloom hit, then
      move the watermark unless the visit failed. */
  ghost function Effect(f: Files, m: Monitor, c: FinalFile, reach: Reach, advanced: bool): Files {
    var f1 := if reach.Untouched? || !Bloom.Member(c.filters, m.addr) then f
              else Append(f, m.staging, if reach.Written? then Scan(c.lines, m.addr) else []);
    if advanced then Advance(f1, m.staging, c) else f1
  }

  /** The filters have no false negatives: an address they miss has no rows. */
  ghost predicate Faithful(c: FinalFile) {
    forall addr: nat :: Scan(c.lines, addr) != [] ==> Bloom.Member(c.filters, addr)
  }

  lemma PublishedIsFaithful(c: FinalFile)
    requires Published(c)
    ensures Faithful(c)
  {
    forall addr: nat | !Bloom.Member(c.filters, addr) ensures Scan(c.lines, addr) == [] {
      ScanRange(c.lines, addr, 0, 0);
    }
  }

  // ----- one monitor, one freshen -----

  ghost function VisitAll(f: Files, m: Monitor, chunks: seq<FinalFile>): Files
  {
    if chunks == [] then f
    else
      var n := |chunks| - 1;
      var g := VisitAll(f, m, chunks[..n]);
      if Possible(g, chunks[n]) then Effect(g, m, chunks[n], Written, true) else g
  }

  /** Where a visit of chunk `a` stops for a monitor that was offered the chunks before it. */
  ghost function StoppedAt(f: Files, m: Monitor, chunks: seq<FinalFile>, a: nat, reach: Reach): Files
    requires a < |chunks|
  {
    Effect(VisitAll(f, m, chunks[..a]), m, chunks[a], reach, false)
  }

  function MoveToProduction(f: Files): Files {
    Files(if f.stagedBin.Some? then f.stagedBin else f.bin,
          if f.stagedLast.Some? then f.stagedLast else f.last, None, None)
  }

  /** One undisturbed freshen of the monitor of `addr` over the finalized chunks. */
  ghost function Freshen(f: Files, addr: nat, chunks: seq<FinalFile>): Files {
    var m := Monitor(addr, f.bin.None?);
    var g := VisitAll(f.(stagedBin := None, stagedLast := None), m, chunks);
    if m.staging then MoveToProduction(g) else g
  }

  /** Freshens one after the other, each over the first `upTo[i]` of the chunks. */
  ghost function Freshens(f: Files, addr: nat, chunks: seq<FinalFile>, upTo: seq<nat>): Files
    requires forall i :: 0 <= i < |upTo| ==> upTo[i] <= |chunks|
    decreases |upTo|
  {
    if upTo == [] then f else Freshens(Freshen(f, addr, chunks[..upTo[0]]), addr, chunks, upTo[1..])
  }

  // ----- which chunks are visited -----

  ghost predicate AllFaithful(chunks: seq<FinalFile>) {
    chunks == [] || (Faithful(chunks[|chunks| - 1]) && AllFaithful(chunks[..|chunks| - 1]))
  }

  /** The first block after the first `k` chunks. */
  function EndOf(chunks: seq<FinalFile>, k: nat): nat
    requires k <= |chunks|
  {
    if k == 0 then 0 else chunks[k - 1].last + 1
  }

  /** Chunk ranges are not empty, and each begins where the one before it ends. */
  predicate TiledFiles(chunks: seq<FinalFile>) {
    && (forall i :: 0 <= i < |chunks| ==> chunks[i].first <= chunks[i].last)
    && (|chunks| > 0 ==> chunks[0].first == 0)
    && (forall i, j :: 0 <= i < |chunks| && j == i + 1 < |chunks| ==> chunks[j].first == chunks[i].last + 1)
  }

  lemma FirstIsEnd(chunks: seq<FinalFile>, i: nat)
    requires TiledFiles(chunks) && i < |chunks|
    ensures chunks[i].first == EndOf(chunks, i) && EndOf(chunks, i) < EndOf(chunks, i + 1)
  {
    if i > 0 { assert chunks[i].first == chunks[i - 1].last + 1; }
  }

  lemma {:induction false} EndsAscend(chunks: seq<FinalFile>, i: nat, j: nat)
    requires TiledFiles(chunks) && i < j <= |chunks|
    ensures EndOf(chunks, i) < EndOf(chunks, j)
    decreases j
  {
    FirstIsEnd(chunks, j - 1);
    if i < j - 1 { EndsAscend(chunks, i, j - 1); }
  }

  /** The watermark the filter sees after the first `n` chunks: a monitor that appends to production
      moves it with every visit, a staging monitor does not move it at all. */
  function Mark(w: nat, moves: bool, chunks: seq<FinalFile>): nat
  {
    if chunks == [] || !moves then w
    else
      var n := |chunks| - 1;
      var v := Mark(w, moves, chunks[..n]);
      if v == 0 || v < chunks[n].first then chunks[n].last + 1 else v
  }

  predicate Visits(w: nat, moves: bool, chunks: seq<FinalFile>, i: nat)
    requires i < |chunks|
  {
    var v := Mark(w, moves, chunks[..i]);
    v == 0 || v < chunks[i].first
  }

  /** The chunks that are visited, in order. */
  function VisitedChunks(w: nat, moves: bool, chunks: seq<FinalFile>): (idx: seq<nat>)
    ensures forall j :: 0 <= j < |idx| ==> idx[j] < |chunks|
  {
    if chunks == [] then []
    else
      var n := |chunks| - 1;
      VisitedChunks(w, moves, chunks[..n]) + (if Visits(w, moves, chunks, n) then [n] else [])
  }

  /** The rows of some chunks, in the order given. */
  function RowsAt(chunks: seq<FinalFile>, addr: nat, idx: seq<nat>): seq<App>
    requires forall j :: 0 <= j < |idx| ==> idx[j] < |chunks|
  {
    if idx == [] then []
    else
      var n := |idx| - 1;
      RowsAt(chunks, addr, idx[..n]) + Scan(chunks[idx[n]].lines, addr)
  }

  lemma {:induction false} RowsAtPrefix(chunks: seq<FinalFile>, n: nat, addr: nat, idx: seq<nat>)
    requires n <= |chunks| && forall j :: 0 <= j < |idx| ==> idx[j] < n
    ensures RowsAt(chunks, addr, idx) == RowsAt(chunks[..n], addr, idx)
    decreases |idx|
  {
    if idx != [] { RowsAtPrefix(chunks, n, addr, idx[..|idx| - 1]); }
  }

  lemma {:induction false} RowsAtJoin(chunks: seq<FinalFile>, addr: nat, a: seq<nat>, b: seq<nat>)
    requires forall j :: 0 <= j < |a| ==> a[j] < |chunks|
    requires forall j :: 0 <= j < |b| ==> b[j] < |chunks|
    ensures RowsAt(chunks, addr, a + b) == RowsAt(chunks, addr, a) + RowsAt(chunks, addr, b)
    decreases |b|
  {
    if b == [] {
      assert a + b == a;
    } else {
      var n := |b| - 1;
      RowsAtJoin(chunks, addr, a, b[..n]);
      assert (a + b)[..|a + b| - 1] == a + b[..n] && (a + b)[|a + b| - 1] == b[n];
      Assoc(RowsAt(chunks, addr, a), RowsAt(chunks, addr, b[..n]), Scan(chunks[b[n]].lines, addr));
    }
  }

  /** The watermark file of the monitor staging folder after the visited chunks. */
  function StagedMark(before: Option<nat>, chunks: seq<FinalFile>, idx: seq<nat>): Option<nat>
    requires forall j :: 0 <= j < |idx| ==> idx[j] < |chunks|
  {
    if idx == [] then before else Some(chunks[idx[|idx| - 1]].last + 1)
  }

  /** An undisturbed visit appends the address's rows and moves the watermark. */
  lemma EffectRows(f: Files, m: Monitor, c: FinalFile)
    requires Faithful(c)
    ensures var g, rows := Effect(f, m, c, Written, true), Scan(c.lines, m.addr);
            if m.staging
            then g.bin == f.bin && g.last == f.last && g.stagedLast == Some(c.last + 1)
                 && Apps(g.stagedBin) == Apps(f.stagedBin) + rows
            else g.stagedBin == f.stagedBin && g.stagedLast == f.stagedLast && g.last == Some(c.last + 1)
                 && Apps(g.bin) == Apps(f.bin) + rows
  {
    assert !Bloom.Member(c.filters, m.addr) ==> Scan(c.lines, m.addr) == [];
  }

  lemma {:induction false} VisitAllMark(f: Files, m: Monitor, chunks: seq<FinalFile>)
    ensures Watermark(VisitAll(f, m, chunks)) == Mark(Watermark(f), !m.staging, chunks)
  {
    if chunks != [] { VisitAllMark(f, m, chunks[..|chunks| - 1]); }
  }

  lemma VisitedStep(w: nat, moves: bool, addr: nat, chunks: seq<FinalFile>)
    requires chunks != []
    ensures var n := |chunks| - 1;
            var idx, before := VisitedChunks(w, moves, chunks), VisitedChunks(w, moves, chunks[..n]);
            && idx == before + (if Visits(w, moves, chunks, n) then [n] else [])
            && RowsAt(chunks, addr, idx)
               == RowsAt(chunks[..n], addr, before)
                  + (if Visits(w, moves, chunks, n) then Scan(chunks[n].lines, addr) else [])
  {
    var n := |chunks| - 1;
    var before := VisitedChunks(w, moves, chunks[..n]);
    RowsAtPrefix(chunks, n, addr, before);
    if Visits(w, moves, chunks, n) {
      assert (before + [n])[..|before|] == before;
    } else {
      assert before + [] == before;
      var rows := RowsAt(chunks[..n], addr, before);
      assert rows + [] == rows;
    }
  }

  lemma Assoc(a: seq<App>, b: seq<App>, c: seq<App>)
    ensures (a + b) + c == a + (b + c)
    ensures a + (b + []) == a + b
  {
  }

  /** A monitor with a binary file: a freshen appends the rows of the chunks it visits, each once and
      in order, to production. */
  lemma {:induction false} ProductionRows(f: Files, m: Monitor, chunks: seq<FinalFile>)
    requires !m.staging && AllFaithful(chunks)
    ensures var idx := VisitedChunks(Watermark(f), true, chunks);
            Apps(VisitAll(f, m, chunks).bin) == Apps(f.bin) + RowsAt(chunks, m.addr, idx)
  {
    if chunks != [] {
      var n := |chunks| - 1;
      ProductionRows(f, m, chunks[..n]);
      VisitAllMark(f, m, chunks[..n]);
      VisitedStep(Watermark(f), true, m.addr, chunks);
      EffectRows(VisitAll(f, m, chunks[..n]), m, chunks[n]);
      Assoc(Apps(f.bin), RowsAt(chunks[..n], m.addr, VisitedChunks(Watermark(f), true, chunks[..n])),
            Scan(chunks[n].lines, m.addr));
    }
  }

  lemma {:induction false} ProductionKept(f: Files, m: Monitor, chunks: seq<FinalFile>)
    requires !m.staging && f.bin.Some?
    ensures VisitAll(f, m, chunks).bin.Some?
  {
    if chunks != [] { ProductionKept(f, m, chunks[..|chunks| - 1]); }
  }

  /** A monitor without one: the same happens in the monitor staging folder. */
  lemma {:induction false} StagingRows(f: Files, m: Monitor, chunks: seq<FinalFile>)
    requires m.staging && AllFaithful(chunks)
    ensures var g, idx := VisitAll(f, m, chunks), VisitedChunks(Watermark(f), false, chunks);
            g.bin == f.bin && g.last == f.last && Apps(g.stagedBin) == Apps(f.stagedBin) + RowsAt(chunks, m.addr, idx)
  {
    if chunks != [] {
      var n := |chunks| - 1;
      StagingRows(f, m, chunks[..n]);
      VisitAllMark(f, m, chunks[..n]);
      VisitedStep(Watermark(f), false, m.addr, chunks);
      EffectRows(VisitAll(f, m, chunks[..n]), m, chunks[n]);
      Assoc(Apps(f.stagedBin), RowsAt(chunks[..n], m.addr, VisitedChunks(Watermark(f), false, chunks[..n])),
            Scan(chunks[n].lines, m.addr));
    }
  }

  lemma {:induction false} StagingMark(f: Files, m: Monitor, chunks: seq<FinalFile>)
    requires m.staging
    ensures var idx := VisitedChunks(Watermark(f), false, chunks);
            VisitAll(f, m, chunks).stagedLast == StagedMark(f.stagedLast, chunks, idx)
  {
    if chunks != [] {
      var n := |chunks| - 1;
      StagingMark(f, m, chunks[..n]);
      VisitAllMark(f, m, chunks[..n]);
    }
  }
}
