/** What a monitor holds after any sequence of freshens, and what it misses. */
module Freshening {
  import opened Util
  import opened Chain
  import opened Index
  import opened Monitors
  import Bloom

  // ----- which chunks a freshen visits -----

  /** A new monitor visits every chunk. */
  lemma NewVisitsAll(chunks: seq<FinalFile>, i: nat)
    requires i < |chunks|
    ensures Visits(0, false, chunks, i)
  {
  }

  /** A monitor that was visited before but has no binary file yet misses the chunk at its watermark. */
  lemma StagingMissesOne(chunks: seq<FinalFile>, k: nat, i: nat)
    requires TiledFiles(chunks) && 0 < k <= |chunks| && i < |chunks|
    ensures Visits(EndOf(chunks, k), false, chunks, i) <==> k < i
  {
    FirstIsEnd(chunks, i);
    EndsAscend(chunks, 0, k);
    if i < k { EndsAscend(chunks, i, k); }
    if k < i { EndsAscend(chunks, k, i); }
  }

  /** The watermark as production monitors move it: two chunks at a time. */
  lemma {:induction false} MarkJumps(chunks: seq<FinalFile>, k: nat, j: nat)
    requires TiledFiles(chunks) && 0 < k <= |chunks| && j <= |chunks|
    ensures Mark(EndOf(chunks, k), true, chunks[..j])
            == if j <= k then EndOf(chunks, k) else EndOf(chunks, j - (j - k) % 2)
    decreases j
  {
    if j > 0 {
      var n := j - 1;
      MarkJumps(chunks, k, n);
      assert chunks[..j][..n] == chunks[..n];
      FirstIsEnd(chunks, n);
      EndsAscend(chunks, 0, k);
      if n < k { EndsAscend(chunks, n, k); }
    }
  }

  /** A monitor with a binary file, whose watermark is the first block of chunk `k`, skips chunk `k`,
      visits the next, skips the next, and so on. */
  lemma ProductionAlternates(chunks: seq<FinalFile>, k: nat, i: nat)
    requires TiledFiles(chunks) && 0 < k <= |chunks| && i < |chunks|
    ensures Visits(EndOf(chunks, k), true, chunks, i) <==> k < i && (i - k) % 2 == 1
  {
    MarkJumps(chunks, k, i);
    FirstIsEnd(chunks, i);
    EndsAscend(chunks, 0, k);
    if i < k { EndsAscend(chunks, i, k); }
    if k < i && (i - k) % 2 == 1 && 0 < i - 1 { EndsAscend(chunks, 0, i - 1); }
  }

  /** In ascending order. */
  predicate Strictly(idx: seq<nat>) {
    forall i, j :: 0 <= i < j < |idx| ==> idx[i] < idx[j]
  }

  predicate Within(idx: seq<nat>, lo: nat, hi: nat) {
    forall j :: 0 <= j < |idx| ==> lo <= idx[j] < hi
  }

  /** The visited chunks in ascending order. */
  lemma {:induction false} VisitedAscend(w: nat, moves: bool, chunks: seq<FinalFile>)
    ensures Strictly(VisitedChunks(w, moves, chunks)) && Within(VisitedChunks(w, moves, chunks), 0, |chunks|)
    ensures forall i :: 0 <= i < |chunks| ==> (i in VisitedChunks(w, moves, chunks) <==> Visits(w, moves, chunks, i))
  {
    if chunks != [] {
      var n := |chunks| - 1;
      VisitedAscend(w, moves, chunks[..n]);
      forall i | 0 <= i < n ensures Visits(w, moves, chunks[..n], i) == Visits(w, moves, chunks, i) {
        assert chunks[..n][..i] == chunks[..i];
      }
    }
  }

  // ----- what is missed -----

  /** All rows of the chunks from number `k` on. */
  function RowsFrom(chunks: seq<FinalFile>, addr: nat, k: nat): seq<App> {
    if chunks == [] then []
    else
      var n := |chunks| - 1;
      RowsFrom(chunks[..n], addr, k) + (if k <= n then Scan(chunks[n].lines, addr) else [])
  }

  /** Chunk `i` has rows of the address and is not among the chunks `idx`. */
  predicate Lost(chunks: seq<FinalFile>, addr: nat, idx: seq<nat>, k: nat, i: nat)
    requires i < |chunks|
  {
    k <= i && i !in idx && Scan(chunks[i].lines, addr) != []
  }

  predicate NoneLost(chunks: seq<FinalFile>, addr: nat, idx: seq<nat>, k: nat) {
    forall i :: 0 <= i < |chunks| ==> !Lost(chunks, addr, idx, k, i)
  }

  lemma NoneLostStep(chunks: seq<FinalFile>, addr: nat, idx: seq<nat>, low: seq<nat>, k: nat)
    requires chunks != [] && low == if idx != [] && idx[|idx| - 1] == |chunks| - 1 then idx[..|idx| - 1] else idx
    requires Strictly(idx) && Within(idx, k, |chunks|)
    ensures var n := |chunks| - 1;
            && Strictly(low) && Within(low, k, n) && (n in idx <==> |low| < |idx|)
            && (NoneLost(chunks, addr, idx, k)
                <==> NoneLost(chunks[..n], addr, low, k) && !Lost(chunks, addr, idx, k, n))
  {
    var n := |chunks| - 1;
    forall i | 0 <= i < n ensures Lost(chunks[..n], addr, low, k, i) == Lost(chunks, addr, idx, k, i) {
      if i in idx {
        var j :| 0 <= j < |idx| && idx[j] == i;
        assert j < |low| && low[j] == i;
      }
    }
  }

  /** The rows of ascending chunks from `k` on are all the rows from `k` on exactly if no other of these chunks
      has any. */
  lemma {:induction false} RowsComplete(chunks: seq<FinalFile>, addr: nat, idx: seq<nat>, k: nat)
    requires Strictly(idx) && Within(idx, k, |chunks|)
    ensures var got, all := RowsAt(chunks, addr, idx), RowsFrom(chunks, addr, k);
            && |got| <= |all|
            && (|got| == |all| <==> NoneLost(chunks, addr, idx, k))
            && (|got| == |all| ==> got == all)
    decreases |chunks|
  {
    if chunks != [] {
      var n := |chunks| - 1;
      var low := if idx != [] && idx[|idx| - 1] == n then idx[..|idx| - 1] else idx;
      NoneLostStep(chunks, addr, idx, low, k);
      RowsAtPrefix(chunks, n, addr, low);
      RowsComplete(chunks[..n], addr, low, k);
    }
  }

  /** Chunk `i` is new to the monitor, holds rows of its address, and is not visited. */
  predicate Missed(w: nat, moves: bool, addr: nat, chunks: seq<FinalFile>, k: nat, i: nat)
    requires i < |chunks|
  {
    k <= i && !Visits(w, moves, chunks, i) && Scan(chunks[i].lines, addr) != []
  }

  predicate NoneMissed(w: nat, moves: bool, addr: nat, chunks: seq<FinalFile>, k: nat) {
    forall i :: 0 <= i < |chunks| ==> !Missed(w, moves, addr, chunks, k, i)
  }

  /** The rows appended are all the new rows if and only if no chunk is missed. */
  lemma CompleteIffNoneMissed(w: nat, moves: bool, addr: nat, chunks: seq<FinalFile>, k: nat)
    requires forall i :: 0 <= i < |chunks| && Visits(w, moves, chunks, i) ==> k <= i
    ensures var got, all := RowsAt(chunks, addr, VisitedChunks(w, moves, chunks)), RowsFrom(chunks, addr, k);
            && |got| <= |all|
            && (|got| == |all| <==> NoneMissed(w, moves, addr, chunks, k))
            && (|got| == |all| ==> got == all)
  {
    var idx := VisitedChunks(w, moves, chunks);
    VisitedAscend(w, moves, chunks);
    forall j | 0 <= j < |idx| ensures k <= idx[j] {
      assert idx[j] in idx;
    }
    RowsComplete(chunks, addr, idx, k);
    assert NoneLost(chunks, addr, idx, k) <==> NoneMissed(w, moves, addr, chunks, k) by {
      forall i | 0 <= i < |chunks| ensures Missed(w, moves, addr, chunks, k, i) <==> Lost(chunks, addr, idx, k, i) {
        assert i in idx <==> Visits(w, moves, chunks, i);
      }
    }
  }

  /** What one freshen does to a monitor with a binary file. */
  lemma FreshenProduction(f: Files, addr: nat, chunks: seq<FinalFile>)
    requires AllFaithful(chunks) && f.bin.Some?
    ensures var g := Freshen(f, addr, chunks);
            && Apps(g.bin) == Apps(f.bin) + RowsAt(chunks, addr, VisitedChunks(Watermark(f), f.bin.Some?, chunks))
            && g.bin.Some? && Watermark(g) == Mark(Watermark(f), true, chunks)
  {
    var f0, m := f.(stagedBin := None, stagedLast := None), Monitor(addr, false);
    ProductionRows(f0, m, chunks);
    ProductionKept(f0, m, chunks);
    VisitAllMark(f0, m, chunks);
  }

  /** What one freshen does to a monitor without a binary file. */
  lemma FreshenStaging(f: Files, addr: nat, chunks: seq<FinalFile>)
    requires AllFaithful(chunks) && f.bin.None?
    ensures var g, idx := Freshen(f, addr, chunks), VisitedChunks(Watermark(f), f.bin.Some?, chunks);
            && Apps(g.bin) == Apps(f.bin) + RowsAt(chunks, addr, idx)
            && g.last == StagedMark(f.last, chunks, idx)
  {
    var f0, m := f.(stagedBin := None, stagedLast := None), Monitor(addr, true);
    StagingRows(f0, m, chunks);
    StagingMark(f0, m, chunks);
  }

  /** Chunks at even distance from the watermark. */
  predicate Even(k: nat, i: nat) {
    k <= i && (i - k) % 2 == 0
  }

  lemma MissedIsEven(addr: nat, chunks: seq<FinalFile>, k: nat, i: nat)
    requires TiledFiles(chunks) && 0 < k <= |chunks| && i < |chunks|
    ensures Missed(EndOf(chunks, k), true, addr, chunks, k, i) <==> Even(k, i) && Scan(chunks[i].lines, addr) != []
    ensures Visits(EndOf(chunks, k), true, chunks, i) ==> k <= i
  {
    ProductionAlternates(chunks, k, i);
  }

  /** Freshening a monitor with a binary file gives it every new row if and only if the chunks at even
      distance from its watermark have none of its rows. */
  lemma ProductionCompleteIff(f: Files, addr: nat, chunks: seq<FinalFile>, k: nat)
    requires TiledFiles(chunks) && AllFaithful(chunks) && 0 < k <= |chunks|
    requires f.bin.Some? && f.last == Some(EndOf(chunks, k))
    ensures Apps(Freshen(f, addr, chunks).bin) == Apps(f.bin) + RowsFrom(chunks, addr, k)
            <==> forall i :: 0 <= i < |chunks| && Even(k, i) ==> Scan(chunks[i].lines, addr) == []
  {
    var w := EndOf(chunks, k);
    FreshenProduction(f, addr, chunks);
    forall i | 0 <= i < |chunks|
      ensures Missed(w, true, addr, chunks, k, i) <==> Even(k, i) && Scan(chunks[i].lines, addr) != []
      ensures Visits(w, true, chunks, i) ==> k <= i
    {
      MissedIsEven(addr, chunks, k, i);
    }
    CompleteIffNoneMissed(w, true, addr, chunks, k);
    SamePrefix(Apps(f.bin), RowsAt(chunks, addr, VisitedChunks(w, true, chunks)), RowsFrom(chunks, addr, k));
  }

  lemma SamePrefix(a: seq<App>, b: seq<App>, c: seq<App>)
    ensures a + b == a + c <==> b == c
  {
    if a + b == a + c {
      assert b == (a + b)[|a|..] == (a + c)[|a|..] == c;
    }
  }

  lemma {:induction false} AllFromZero(chunks: seq<FinalFile>, addr: nat)
    ensures RowsAt(chunks, addr, VisitedChunks(0, false, chunks)) == RowsFrom(chunks, addr, 0)
  {
    if chunks != [] {
      VisitedStep(0, false, addr, chunks);
      AllFromZero(chunks[..|chunks| - 1], addr);
    }
  }

  /** The first freshen of a new monitor gives it every row of every chunk. */
  lemma NewMonitorComplete(addr: nat, chunks: seq<FinalFile>)
    requires AllFaithful(chunks)
    ensures Apps(Freshen(NewMonitor(), addr, chunks).bin) == RowsFrom(chunks, addr, 0)
    ensures chunks != [] ==> Freshen(NewMonitor(), addr, chunks).last == Some(EndOf(chunks, |chunks|))
  {
    FreshenStaging(NewMonitor(), addr, chunks);
    AllFromZero(chunks, addr);
    assert [] + RowsFrom(chunks, addr, 0) == RowsFrom(chunks, addr, 0);
    if chunks != [] { LastVisitedIsLast(0, false, chunks, None); }
  }

  lemma LastVisitedIsLast(w: nat, moves: bool, chunks: seq<FinalFile>, before: Option<nat>)
    requires w == 0 && !moves && chunks != []
    ensures StagedMark(before, chunks, VisitedChunks(w, moves, chunks)) == Some(EndOf(chunks, |chunks|))
  {
    var n := |chunks| - 1;
    assert Visits(w, moves, chunks, n);
    assert VisitedChunks(w, moves, chunks) == VisitedChunks(w, moves, chunks[..n]) + [n];
  }

  // ----- any number of freshens -----

  /** The monitor holds the rows of the chunks `seen`, each once and in chain order. */
  ghost predicate HoldsRows(f: Files, addr: nat, chunks: seq<FinalFile>, seen: seq<nat>) {
    Within(seen, 0, |chunks|) && Strictly(seen) && Apps(f.bin) == RowsAt(chunks, addr, seen)
  }

  /** The watermark is the end of the first `k` chunks; a monitor at 0 has no binary file. */
  predicate MarkedAt(f: Files, chunks: seq<FinalFile>, k: nat) {
    k <= |chunks| && Watermark(f) == EndOf(chunks, k) && (k == 0 ==> f.bin.None?)
  }

  /** Rows and watermark agree. */
  ghost predicate Holds(f: Files, addr: nat, chunks: seq<FinalFile>, seen: seq<nat>, k: nat) {
    HoldsRows(f, addr, chunks, seen) && MarkedAt(f, chunks, k) && Within(seen, 0, k)
  }

  /** Where the watermark is after a freshen: at the end of the last visited chunk. */
  lemma {:induction false} MarkIsLastVisited(w: nat, chunks: seq<FinalFile>)
    ensures var idx := VisitedChunks(w, true, chunks);
            Mark(w, true, chunks) == if idx == [] then w else EndOf(chunks, idx[|idx| - 1] + 1)
  {
    if chunks != [] {
      MarkIsLastVisited(w, chunks[..|chunks| - 1]);
    }
  }

  /** Only chunks beyond the watermark are visited, and never the one right at it. */
  lemma VisitsBeyond(chunks: seq<FinalFile>, k: nat, moves: bool, i: nat)
    requires TiledFiles(chunks) && k <= |chunks| && i < |chunks| && Visits(EndOf(chunks, k), moves, chunks, i)
    requires k == 0 ==> !moves
    ensures k <= i && (0 < k ==> k < i)
  {
    if k > 0 {
      if moves { ProductionAlternates(chunks, k, i); } else { StagingMissesOne(chunks, k, i); }
    }
  }

  /** The chunks a freshen adds to those already seen. */
  lemma NewlySeen(chunks: seq<FinalFile>, k: nat, moves: bool, seen: seq<nat>) returns (idx: seq<nat>)
    requires TiledFiles(chunks) && k <= |chunks| && (k == 0 ==> !moves)
    requires Within(seen, 0, k) && Strictly(seen)
    ensures idx == VisitedChunks(EndOf(chunks, k), moves, chunks)
    ensures Within(idx, if k == 0 then 0 else k + 1, |chunks|) && Strictly(seen + idx)
    ensures k <= NextMark(k, idx) && Within(idx, k, NextMark(k, idx))
  {
    idx := VisitedChunks(EndOf(chunks, k), moves, chunks);
    VisitedAscend(EndOf(chunks, k), moves, chunks);
    forall j | 0 <= j < |idx| ensures (if k == 0 then 0 else k + 1) <= idx[j] {
      VisitsBeyond(chunks, k, moves, idx[j]);
    }
  }

  function NextMark(k: nat, idx: seq<nat>): nat {
    if idx == [] then k else idx[|idx| - 1] + 1
  }

  lemma ProductionMark(f: Files, addr: nat, chunks: seq<FinalFile>, k: nat)
    requires AllFaithful(chunks) && MarkedAt(f, chunks, k) && f.bin.Some?
    ensures MarkedAt(Freshen(f, addr, chunks), chunks, NextMark(k, VisitedChunks(Watermark(f), true, chunks)))
  {
    var g, w, idx := Freshen(f, addr, chunks), Watermark(f), VisitedChunks(Watermark(f), true, chunks);
    assert Within(idx, 0, |chunks|) by { VisitedAscend(w, true, chunks); }
    assert g.bin.Some? && Watermark(g) == Mark(w, true, chunks) by { FreshenProduction(f, addr, chunks); }
    assert Mark(w, true, chunks) == if idx == [] then w else EndOf(chunks, idx[|idx| - 1] + 1) by {
      MarkIsLastVisited(w, chunks);
    }
  }

  lemma UnpublishedMark(f: Files, addr: nat, chunks: seq<FinalFile>, k: nat)
    requires AllFaithful(chunks) && MarkedAt(f, chunks, k) && f.bin.None?
    ensures MarkedAt(Freshen(f, addr, chunks), chunks, NextMark(k, VisitedChunks(Watermark(f), false, chunks)))
  {
    var idx := VisitedChunks(Watermark(f), false, chunks);
    var g := Freshen(f, addr, chunks);
    assert Within(idx, 0, |chunks|) && (k == 0 ==> idx != [] || chunks == []) by {
      VisitedAscend(Watermark(f), false, chunks);
      if k == 0 && chunks != [] { NewVisitsAll(chunks, |chunks| - 1); }
    }
    assert g.last == StagedMark(f.last, chunks, idx) by { FreshenStaging(f, addr, chunks); }
  }

  lemma FreshenMark(f: Files, addr: nat, chunks: seq<FinalFile>, k: nat)
    requires AllFaithful(chunks) && MarkedAt(f, chunks, k)
    ensures MarkedAt(Freshen(f, addr, chunks), chunks, NextMark(k, VisitedChunks(Watermark(f), f.bin.Some?, chunks)))
  {
    if f.bin.Some? { ProductionMark(f, addr, chunks, k); } else { UnpublishedMark(f, addr, chunks, k); }
  }

  lemma FreshenRows(f: Files, addr: nat, chunks: seq<FinalFile>)
    requires AllFaithful(chunks)
    ensures Apps(Freshen(f, addr, chunks).bin)
            == Apps(f.bin) + RowsAt(chunks, addr, VisitedChunks(Watermark(f), f.bin.Some?, chunks))
  {
    if f.bin.Some? { FreshenProduction(f, addr, chunks); } else { FreshenStaging(f, addr, chunks); }
  }

  lemma {:induction false} FaithfulPrefix(chunks: seq<FinalFile>, u: nat)
    requires AllFaithful(chunks) && u <= |chunks|
    ensures AllFaithful(chunks[..u])
    decreases |chunks|
  {
    if u < |chunks| {
      FaithfulPrefix(chunks[..|chunks| - 1], u);
      assert chunks[..|chunks| - 1][..u] == chunks[..u];
    } else {
      assert chunks[..u] == chunks;
    }
  }

  lemma SeenWithin(seen: seq<nat>, idx: seq<nat>, k: nat)
    requires Within(seen, 0, k) && Within(idx, k, NextMark(k, idx)) && k <= NextMark(k, idx)
    ensures Within(seen + idx, 0, NextMark(k, idx))
  {
  }

  lemma TiledPrefix(chunks: seq<FinalFile>, u: nat)
    requires TiledFiles(chunks) && u <= |chunks|
    ensures TiledFiles(chunks[..u])
    ensures forall k :: 0 <= k <= u ==> EndOf(chunks[..u], k) == EndOf(chunks, k)
  {
  }

  lemma FreshenAppends(f: Files, addr: nat, chunks: seq<FinalFile>, seen: seq<nat>, u: nat, idx: seq<nat>)
    requires AllFaithful(chunks) && u <= |chunks| && HoldsRows(f, addr, chunks, seen)
    requires idx == VisitedChunks(Watermark(f), f.bin.Some?, chunks[..u]) && Strictly(seen + idx)
    ensures HoldsRows(Freshen(f, addr, chunks[..u]), addr, chunks, seen + idx)
  {
    FaithfulPrefix(chunks, u);
    FreshenRows(f, addr, chunks[..u]);
    RowsAtPrefix(chunks, u, addr, idx);
    RowsAtJoin(chunks, addr, seen, idx);
    WithinJoin(seen, idx, 0, |chunks|);
  }

  lemma FreshenMoves(f: Files, addr: nat, chunks: seq<FinalFile>, k: nat, u: nat)
    requires TiledFiles(chunks) && AllFaithful(chunks) && MarkedAt(f, chunks, k) && k <= u <= |chunks|
    ensures var idx := VisitedChunks(Watermark(f), f.bin.Some?, chunks[..u]);
            NextMark(k, idx) <= u && MarkedAt(Freshen(f, addr, chunks[..u]), chunks, NextMark(k, idx))
  {
    FaithfulPrefix(chunks, u);
    TiledPrefix(chunks, u);
    FreshenMark(f, addr, chunks[..u], k);
  }

  // ----- exactly which chunks -----

  /** Which chunks a freshen offers to a monitor whose watermark is the end of `k` chunks. */
  predicate Offered(k: nat, bin: bool, i: nat) {
    k == 0 || (k < i && (bin ==> (i - k) % 2 == 1))
  }

  /** Where the watermark is after a freshen over `u` chunks. */
  function NextK(k: nat, bin: bool, u: nat): nat {
    if k == 0 then u
    else if bin then (if u <= k then k else u - (u - k) % 2)
    else if u <= k + 1 then k else u
  }

  /** Whether the monitor has a binary file after it: it had one, or an offered chunk's filters hit. */
  ghost predicate HasFile(addr: nat, chunks: seq<FinalFile>, k: nat, bin: bool, u: nat)
    requires u <= |chunks|
  {
    bin || exists j :: 0 <= j < u && Offered(k, bin, j) && Bloom.Member(chunks[j].filters, addr)
  }

  /** Some freshen of the run offers chunk `i` to the monitor. */
  ghost predicate Gets(addr: nat, chunks: seq<FinalFile>, k: nat, bin: bool, upTo: seq<nat>, i: nat)
    requires forall j :: 0 <= j < |upTo| ==> upTo[j] <= |chunks|
    decreases |upTo|
  {
    upTo != [] &&
    ((i < upTo[0] && Offered(k, bin, i))
     || Gets(addr, chunks, NextK(k, bin, upTo[0]), HasFile(addr, chunks, k, bin, upTo[0]), upTo[1..], i))
  }

  lemma VisitsIffOffered(chunks: seq<FinalFile>, k: nat, bin: bool, i: nat)
    requires TiledFiles(chunks) && k <= |chunks| && i < |chunks| && (k == 0 ==> !bin)
    ensures Visits(EndOf(chunks, k), bin, chunks, i) <==> Offered(k, bin, i)
  {
    if k > 0 {
      if bin { ProductionAlternates(chunks, k, i); } else { StagingMissesOne(chunks, k, i); }
    }
  }

  /** The last chunk offered decides the next watermark. */
  lemma NextMarkIsNextK(idx: seq<nat>, k: nat, bin: bool, u: nat)
    requires Strictly(idx) && Within(idx, 0, u) && (k == 0 ==> !bin) && k <= u
    requires forall i :: 0 <= i < u ==> (i in idx <==> Offered(k, bin, i))
    ensures NextMark(k, idx) == NextK(k, bin, u)
  {
    var t := NextK(k, bin, u);
    assert idx != [] ==> idx[0] in idx && idx[|idx| - 1] in idx;
    if t > k {
      assert Offered(k, bin, t - 1);
      var j :| 0 <= j < |idx| && idx[j] == t - 1;
      assert idx[j] <= idx[|idx| - 1];
    } else if idx != [] {
      assert false;
    }
  }

  /** The filters of some chunk that is possible for the monitor hit. */
  ghost predicate SomeHit(f: Files, m: Monitor, chunks: seq<FinalFile>) {
    exists j :: 0 <= j < |chunks| && Possible(f, chunks[j]) && Bloom.Member(chunks[j].filters, m.addr)
  }

  lemma {:induction false} StagingFile(f: Files, m: Monitor, chunks: seq<FinalFile>)
    requires m.staging
    ensures VisitAll(f, m, chunks).stagedBin.Some?
            <==> f.stagedBin.Some? || SomeHit(f, m, chunks)
    ensures VisitAll(f, m, chunks).last == f.last && VisitAll(f, m, chunks).bin == f.bin
    decreases |chunks|
  {
    if chunks != [] {
      var n := |chunks| - 1;
      StagingFile(f, m, chunks[..n]);
      assert forall j :: 0 <= j < n ==> chunks[..n][j] == chunks[j];
    }
  }

  lemma FreshenFile(f: Files, addr: nat, chunks: seq<FinalFile>, k: nat)
    requires TiledFiles(chunks) && AllFaithful(chunks) && MarkedAt(f, chunks, k)
    ensures Freshen(f, addr, chunks).bin.Some? <==> HasFile(addr, chunks, k, f.bin.Some?, |chunks|)
  {
    if f.bin.Some? {
      FreshenProduction(f, addr, chunks);
    } else {
      StagingFile(f.(stagedBin := None, stagedLast := None), Monitor(addr, true), chunks);
      forall j | 0 <= j < |chunks| ensures Possible(f, chunks[j]) <==> Offered(k, false, j) {
        VisitsIffOffered(chunks, k, false, j);
      }
    }
  }

  lemma HasFilePrefix(addr: nat, chunks: seq<FinalFile>, k: nat, bin: bool, u: nat)
    requires u <= |chunks|
    ensures HasFile(addr, chunks[..u], k, bin, u) <==> HasFile(addr, chunks, k, bin, u)
  {
    assert forall j :: 0 <= j < u ==> chunks[..u][j] == chunks[j];
  }

  /** One freshen over the first `u` chunks. */
  lemma FreshenHolds(f: Files, addr: nat, chunks: seq<FinalFile>, seen: seq<nat>, k: nat, u: nat)
    returns (idx: seq<nat>, k': nat)
    requires TiledFiles(chunks) && AllFaithful(chunks) && Holds(f, addr, chunks, seen, k) && k <= u <= |chunks|
    ensures Holds(Freshen(f, addr, chunks[..u]), addr, chunks, seen + idx, k') && k <= k' <= u
    ensures Within(idx, if k == 0 then 0 else k + 1, u)
    ensures forall i :: 0 <= i < u ==> (i in idx <==> Offered(k, f.bin.Some?, i))
    ensures k' == NextK(k, f.bin.Some?, u)
  {
    TiledPrefix(chunks, u);
    idx := NewlySeen(chunks[..u], k, f.bin.Some?, seen);
    k' := NextMark(k, idx);
    FreshenMoves(f, addr, chunks, k, u);
    FreshenAppends(f, addr, chunks, seen, u, idx);
    SeenWithin(seen, idx, k);
    OfferedSeen(chunks[..u], k, f.bin.Some?, idx);
    NextMarkIsNextK(idx, k, f.bin.Some?, u);
  }

  lemma OfferedSeen(chunks: seq<FinalFile>, k: nat, bin: bool, idx: seq<nat>)
    requires TiledFiles(chunks) && k <= |chunks| && (k == 0 ==> !bin)
    requires idx == VisitedChunks(EndOf(chunks, k), bin, chunks)
    ensures Strictly(idx) && Within(idx, 0, |chunks|)
    ensures forall i :: 0 <= i < |chunks| ==> (i in idx <==> Offered(k, bin, i))
  {
    VisitedAscend(EndOf(chunks, k), bin, chunks);
    forall i | 0 <= i < |chunks| ensures i in idx <==> Offered(k, bin, i) {
      VisitsIffOffered(chunks, k, bin, i);
    }
  }

  predicate Growing(upTo: seq<nat>, k: nat, total: nat) {
    && (forall i :: 0 <= i < |upTo| ==> k <= upTo[i] <= total)
    && (forall i, j :: 0 <= i < j < |upTo| ==> upTo[i] <= upTo[j])
  }

  lemma JoinAssoc(a: seq<nat>, b: seq<nat>, c: seq<nat>)
    ensures a + (b + c) == a + b + c
  {
  }

  lemma WithinJoin(a: seq<nat>, b: seq<nat>, lo: nat, hi: nat)
    requires Within(a, lo, hi) && Within(b, lo, hi)
    ensures Within(a + b, lo, hi)
  {
  }

  /** Over any number of freshens on a growing set of chunks, a monitor holds the rows of the chunks
      visited for it exactly once and in chain order. A chunk that begins at its watermark is never
      visited again. */
  lemma {:induction false} FreshensHold(f: Files, addr: nat, chunks: seq<FinalFile>, seen: seq<nat>, k: nat,
                                        upTo: seq<nat>)
    returns (more: seq<nat>, k': nat)
    requires TiledFiles(chunks) && AllFaithful(chunks) && Holds(f, addr, chunks, seen, k) && Growing(upTo, k, |chunks|)
    ensures Holds(Freshens(f, addr, chunks, upTo), addr, chunks, seen + more, k')
    ensures Within(more, if k == 0 then 0 else k + 1, |chunks|)
    ensures forall i :: 0 <= i < |chunks| ==> (i in more <==> Gets(addr, chunks, k, f.bin.Some?, upTo, i))
    decreases |upTo|
  {
    if upTo == [] {
      more, k' := [], k;
      assert seen + [] == seen;
    } else {
      var u := upTo[0];
      var idx, k1 := FreshenHolds(f, addr, chunks, seen, k, u);
      var g := Freshen(f, addr, chunks[..u]);
      var rest;
      assert g.bin.Some? <==> HasFile(addr, chunks, k, f.bin.Some?, u) by { FreshenFileUpTo(f, addr, chunks, k, u); }
      rest, k' := FreshensHold(g, addr, chunks, seen + idx, k1, upTo[1..]);
      more := idx + rest;
      JoinAssoc(seen, idx, rest);
      WithinJoin(idx, rest, if k == 0 then 0 else k + 1, |chunks|);
      GetsStep(addr, chunks, k, f.bin.Some?, upTo, idx, rest);
    }
  }

  lemma FreshenFileUpTo(f: Files, addr: nat, chunks: seq<FinalFile>, k: nat, u: nat)
    requires TiledFiles(chunks) && AllFaithful(chunks) && MarkedAt(f, chunks, k) && k <= u <= |chunks|
    ensures Freshen(f, addr, chunks[..u]).bin.Some? <==> HasFile(addr, chunks, k, f.bin.Some?, u)
  {
    FaithfulPrefix(chunks, u);
    TiledPrefix(chunks, u);
    FreshenFile(f, addr, chunks[..u], k);
    HasFilePrefix(addr, chunks, k, f.bin.Some?, u);
  }

  lemma GetsStep(addr: nat, chunks: seq<FinalFile>, k: nat, bin: bool, upTo: seq<nat>, idx: seq<nat>, rest: seq<nat>)
    requires upTo != [] && forall j :: 0 <= j < |upTo| ==> upTo[j] <= |chunks|
    requires Within(idx, 0, upTo[0]) && forall i :: 0 <= i < upTo[0] ==> (i in idx <==> Offered(k, bin, i))
    requires forall i :: 0 <= i < |chunks| ==>
               (i in rest <==> Gets(addr, chunks, NextK(k, bin, upTo[0]), HasFile(addr, chunks, k, bin, upTo[0]),
                                    upTo[1..], i))
    ensures forall i :: 0 <= i < |chunks| ==> (i in idx + rest <==> Gets(addr, chunks, k, bin, upTo, i))
  {
    forall i | 0 <= i < |chunks| ensures i in idx + rest <==> Gets(addr, chunks, k, bin, upTo, i) {
      assert i in idx ==> i < upTo[0];
    }
  }

  /** From a new monitor: no appearance is recorded twice, chunks come in chain order, and they are exactly
      those that some freshen offers. */
  lemma EveryRunAtMostOnce(addr: nat, chunks: seq<FinalFile>, upTo: seq<nat>) returns (seen: seq<nat>)
    requires TiledFiles(chunks) && AllFaithful(chunks) && Growing(upTo, 0, |chunks|)
    ensures Within(seen, 0, |chunks|) && Strictly(seen)
    ensures Apps(Freshens(NewMonitor(), addr, chunks, upTo).bin) == RowsAt(chunks, addr, seen)
    ensures forall i :: 0 <= i < |chunks| ==> (i in seen <==> Gets(addr, chunks, 0, false, upTo, i))
  {
    var more, k := FreshensHold(NewMonitor(), addr, chunks, [], 0, upTo);
    seen := [] + more;
    assert seen == more;
  }

  /** After any freshens from a new monitor it has all its rows exactly if it has none in the chunks that no
      freshen offers to it. */
  lemma EveryRunCompleteIff(addr: nat, chunks: seq<FinalFile>, upTo: seq<nat>)
    requires TiledFiles(chunks) && AllFaithful(chunks) && Growing(upTo, 0, |chunks|)
    ensures Apps(Freshens(NewMonitor(), addr, chunks, upTo).bin) == RowsFrom(chunks, addr, 0)
            <==> forall i :: 0 <= i < |chunks| && !Gets(addr, chunks, 0, false, upTo, i) ==>
                Scan(chunks[i].lines, addr) == []
  {
    var seen := EveryRunAtMostOnce(addr, chunks, upTo);
    RowsComplete(chunks, addr, seen, 0);
    assert NoneLost(chunks, addr, seen, 0)
           <==> forall i :: 0 <= i < |chunks| && !Gets(addr, chunks, 0, false, upTo, i) ==>
               Scan(chunks[i].lines, addr) == [] by {
      forall i | 0 <= i < |chunks|
        ensures Lost(chunks, addr, seen, 0, i)
                <==> !Gets(addr, chunks, 0, false, upTo, i) && Scan(chunks[i].lines, addr) != []
      {
      }
    }
  }

  /** The chunk that follows a monitor's watermark is lost: however often it is freshened, and however
      the index grows, the monitor never records it. */
  lemma NextChunkIsLost(f: Files, addr: nat, chunks: seq<FinalFile>, seen: seq<nat>, k: nat, upTo: seq<nat>)
    returns (all: seq<nat>)
    requires TiledFiles(chunks) && AllFaithful(chunks) && Holds(f, addr, chunks, seen, k) && Growing(upTo, k, |chunks|)
    requires 0 < k < |chunks|
    ensures Within(all, 0, |chunks|) && Strictly(all) && k !in all
    ensures Apps(Freshens(f, addr, chunks, upTo).bin) == RowsAt(chunks, addr, all)
  {
    var more, k' := FreshensHold(f, addr, chunks, seen, k, upTo);
    all := seen + more;
  }

  lemma VisitsNone(w: nat, moves: bool, chunks: seq<FinalFile>, k: nat)
    requires TiledFiles(chunks) && 0 < k && k + 1 == |chunks| && w == EndOf(chunks, k)
    ensures VisitedChunks(w, moves, chunks) == []
  {
    var idx := VisitedChunks(w, moves, chunks);
    VisitedAscend(w, moves, chunks);
    if idx != [] {
      assert Visits(w, moves, chunks, idx[0]);
      VisitsBeyond(chunks, k, moves, idx[0]);
      assert false;
    }
  }

  /** A freshen that finds exactly one chunk more than the last one did adds nothing at all. */
  lemma OneNewChunkIsIgnored(f: Files, addr: nat, chunks: seq<FinalFile>, k: nat)
    requires TiledFiles(chunks) && AllFaithful(chunks) && MarkedAt(f, chunks, k) && 0 < k && k + 1 == |chunks|
    ensures Apps(Freshen(f, addr, chunks).bin) == Apps(f.bin)
    ensures RowsFrom(chunks, addr, k) == Scan(chunks[k].lines, addr)
  {
    VisitsNone(Watermark(f), f.bin.Some?, chunks, k);
    FreshenRows(f, addr, chunks);
    assert RowsFrom(chunks, addr, k) == Scan(chunks[k].lines, addr) by { NothingFrom(chunks[..k], addr, k); }
  }

  lemma {:induction false} NothingFrom(chunks: seq<FinalFile>, addr: nat, k: nat)
    requires |chunks| <= k
    ensures RowsFrom(chunks, addr, k) == []
    decreases |chunks|
  {
    if chunks != [] { NothingFrom(chunks[..|chunks| - 1], addr, k); }
  }
}
