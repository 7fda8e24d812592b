/** Freshens that do not finish, and what running them again makes of the monitors. */
module Interrupted {
  import opened Util
  import opened Chain
  import opened Index
  import opened Monitors
  import opened Freshening
  import opened Order
  import Bloom

  /** Nothing is in the monitor staging folder, as after cleanMonitorStage. */
  predicate Unstaged(f: Files) {
    f.stagedBin.None? && f.stagedLast.None?
  }

  predicate Ranges(chunks: seq<FinalFile>) {
    forall i :: 0 <= i < |chunks| ==> chunks[i].first <= chunks[i].last
  }

  // ----- monitors in production -----

  /** Once a production monitor has been offered the chunks, it is not offered any of them again. */
  lemma {:induction false} AlreadySeen(f: Files, m: Monitor, chunks: seq<FinalFile>, j: nat)
    requires !m.staging && j < |chunks| && Ranges(chunks)
    ensures !Possible(VisitAll(f, m, chunks), chunks[j])
    decreases |chunks|
  {
    var n := |chunks| - 1;
    if j < n { AlreadySeen(f, m, chunks[..n], j); }
  }

  lemma {:induction false} IdleVisits(f: Files, m: Monitor, chunks: seq<FinalFile>)
    requires forall j :: 0 <= j < |chunks| ==> !Possible(f, chunks[j])
    ensures VisitAll(f, m, chunks) == f
    decreases |chunks|
  {
    if chunks != [] { IdleVisits(f, m, chunks[..|chunks| - 1]); }
  }

  /** The same watermark, and `extra` more rows. */
  predicate Twins(x: Files, y: Files, extra: nat) {
    && x.last == y.last && |Apps(x.bin)| == |Apps(y.bin)| + extra
    && (extra == 0 ==> Apps(x.bin) == Apps(y.bin))
  }

  lemma TwinStep(x: Files, y: Files, extra: nat, m: Monitor, c: FinalFile)
    requires Twins(x, y, extra) && !m.staging
    ensures Possible(x, c) == Possible(y, c)
    ensures Twins(Effect(x, m, c, Written, true), Effect(y, m, c, Written, true), extra)
  {
  }

  /** From the same watermark, two visits of the same chunks keep the difference. */
  lemma {:induction false} TwinVisits(h: Files, f: Files, m: Monitor, chunks: seq<FinalFile>, a: nat, extra: nat)
    requires !m.staging && a <= |chunks|
    requires Twins(VisitAll(h, m, chunks[..a]), VisitAll(f, m, chunks[..a]), extra)
    ensures Twins(VisitAll(h, m, chunks), VisitAll(f, m, chunks), extra)
    decreases |chunks|
  {
    if a == |chunks| {
      assert chunks[..a] == chunks;
    } else {
      var n := |chunks| - 1;
      assert chunks[..n][..a] == chunks[..a];
      TwinVisits(h, f, m, chunks[..n], a, extra);
      TwinStep(VisitAll(h, m, chunks[..n]), VisitAll(f, m, chunks[..n]), extra, m, chunks[n]);
    }
  }

  /** A production monitor that has the watermark of the first `a` chunks is not offered them again. */
  lemma ResumesAt(f: Files, h: Files, m: Monitor, chunks: seq<FinalFile>, a: nat)
    requires !m.staging && a <= |chunks| && Ranges(chunks) && h.last == VisitAll(f, m, chunks[..a]).last
    ensures VisitAll(h, m, chunks[..a]) == h
  {
    forall j | 0 <= j < a ensures !Possible(h, chunks[..a][j]) {
      AlreadySeen(f, m, chunks[..a], j);
    }
    IdleVisits(h, m, chunks[..a]);
  }

  /** A freshen that stops at chunk `a`, by a failure or an exit, leaves the watermark of a production monitor
      behind that chunk. Running it again over all chunks completes the monitors whose rows of that chunk were
      not written, but appends them a second time to those whose rows were. */
  lemma RerunRightIff(f: Files, addr: nat, chunks: seq<FinalFile>, a: nat, reach: Reach)
    requires a < |chunks| && Ranges(chunks) && Faithful(chunks[a])
    requires Possible(VisitAll(f, Monitor(addr, false), chunks[..a]), chunks[a])
    ensures var m := Monitor(addr, false);
            Apps(VisitAll(StoppedAt(f, m, chunks, a, reach), m, chunks).bin) == Apps(VisitAll(f, m, chunks).bin)
            <==> !reach.Written? || Scan(chunks[a].lines, addr) == []
  {
    var m, c := Monitor(addr, false), chunks[a];
    var g := VisitAll(f, m, chunks[..a]);
    var stopped, extra := StoppedAt(f, m, chunks, a, reach), if reach.Written? then |Scan(c.lines, addr)| else 0;
    ResumesAt(f, stopped, m, chunks, a);
    assert Twins(stopped, g, extra);
    TwinVisits(stopped, f, m, chunks, a, extra);
  }

  // ----- monitors on the stage: a visit that fails -----

  /** Later chunks are offered to a staging monitor whenever an earlier one is. */
  lemma OfferedOnwards(f: Files, chunks: seq<FinalFile>, a: nat, i: nat)
    requires TiledFiles(chunks) && a <= i < |chunks| && Possible(f, chunks[a])
    ensures Possible(f, chunks[i])
  {
    if a < i {
      FirstIsEnd(chunks, a);
      FirstIsEnd(chunks, i);
      EndsAscend(chunks, a, i);
    }
  }

  /** A staging monitor gets the chunks offered before `a`, and then all from `a` on. */
  lemma {:induction false} StagedSplit(w: nat, moves: bool, addr: nat, chunks: seq<FinalFile>, a: nat, before: seq<App>)
    requires a <= |chunks| && !moves && forall i :: a <= i < |chunks| ==> Visits(w, moves, chunks, i)
    requires before == RowsAt(chunks[..a], addr, VisitedChunks(w, moves, chunks[..a]))
    ensures RowsAt(chunks, addr, VisitedChunks(w, moves, chunks)) == before + RowsFrom(chunks, addr, a)
    decreases |chunks|
  {
    if a == |chunks| {
      assert chunks[..a] == chunks;
      NothingFrom(chunks, addr, a);
      assert before + [] == before;
    } else {
      var n := |chunks| - 1;
      OnwardPrefix(w, moves, chunks, a);
      StagedSplit(w, moves, addr, chunks[..n], a, before);
      SplitStep(w, moves, addr, chunks, before, a);
    }
  }

  lemma OnwardPrefix(w: nat, moves: bool, chunks: seq<FinalFile>, a: nat)
    requires a < |chunks| && forall i :: a <= i < |chunks| ==> Visits(w, moves, chunks, i)
    ensures var n := |chunks| - 1;
            chunks[..n][..a] == chunks[..a] && forall i :: a <= i < n ==> Visits(w, moves, chunks[..n], i)
  {
    var n := |chunks| - 1;
    forall i | a <= i < n ensures Visits(w, moves, chunks[..n], i) {
      assert Visits(w, moves, chunks, i) && chunks[..n][..i] == chunks[..i];
    }
  }

  lemma SplitStep(w: nat, moves: bool, addr: nat, chunks: seq<FinalFile>, before: seq<App>, a: nat)
    requires a < |chunks| && Visits(w, moves, chunks, |chunks| - 1)
    requires var n := |chunks| - 1;
             RowsAt(chunks[..n], addr, VisitedChunks(w, moves, chunks[..n])) == before + RowsFrom(chunks[..n], addr, a)
    ensures RowsAt(chunks, addr, VisitedChunks(w, moves, chunks)) == before + RowsFrom(chunks, addr, a)
  {
    var n := |chunks| - 1;
    VisitedStep(w, moves, addr, chunks);
    Assoc(before, RowsFrom(chunks[..n], addr, a), Scan(chunks[n].lines, addr));
  }

  /** Whether chunks before `a` were offered: the one before it was. */
  predicate Prior(f: Files, chunks: seq<FinalFile>, a: nat)
    requires a <= |chunks|
  {
    a > 0 && Possible(f, chunks[a - 1])
  }

  /** A staging monitor in production after the visit of chunk `a` failed. */
  ghost function MovedEarly(f: Files, addr: nat, chunks: seq<FinalFile>, a: nat, reach: Reach): Files
    requires a < |chunks|
  {
    MoveToProduction(StoppedAt(f, Monitor(addr, true), chunks, a, reach))
  }

  ghost predicate Staged(f: Files, chunks: seq<FinalFile>, a: nat) {
    && TiledFiles(chunks) && AllFaithful(chunks) && f.bin.None? && Unstaged(f)
    && a < |chunks| && Possible(f, chunks[a])
  }

  /** What the failed freshen leaves: the rows written so far, and the watermark of chunk `a` if earlier chunks
      were offered, else the old one. */
  lemma MovedState(f: Files, addr: nat, chunks: seq<FinalFile>, a: nat, reach: Reach)
    requires Staged(f, chunks, a)
    ensures var after := MovedEarly(f, addr, chunks, a, reach);
            var before := RowsAt(chunks[..a], addr, VisitedChunks(Watermark(f), false, chunks[..a]));
            && Apps(after.bin) == before + (if reach.Written? then Scan(chunks[a].lines, addr) else [])
            && Unstaged(after)
            && Watermark(after) == (if Prior(f, chunks, a) then EndOf(chunks, a) else Watermark(f))
  {
    var m, g := Monitor(addr, true), VisitAll(f, Monitor(addr, true), chunks[..a]);
    var rows := RowsAt(chunks[..a], addr, VisitedChunks(Watermark(f), false, chunks[..a]));
    assert g.bin.None? && g.last == f.last && Apps(g.stagedBin) == rows by { StagedRows(f, m, chunks, a, rows); }
    assert g.stagedLast == if Prior(f, chunks, a) then Some(EndOf(chunks, a)) else None by {
      StagingMark(f, m, chunks[..a]);
      PriorMark(f, chunks, a);
    }
    FaithfulAt(chunks, a);
    MoveStopped(g, m, chunks[a], reach);
  }

  lemma StagedRows(f: Files, m: Monitor, chunks: seq<FinalFile>, a: nat, rows: seq<App>)
    requires Staged(f, chunks, a) && m.staging
            && rows == RowsAt(chunks[..a], m.addr, VisitedChunks(Watermark(f), false, chunks[..a]))
    ensures var g := VisitAll(f, m, chunks[..a]); g.bin.None? && g.last == f.last && Apps(g.stagedBin) == rows
  {
    FaithfulPrefix(chunks, a);
    StagingRows(f, m, chunks[..a]);
    assert [] + rows == rows;
  }

  /** A staging monitor that is moved to production after a failed visit of `c`. */
  lemma MoveStopped(g: Files, m: Monitor, c: FinalFile, reach: Reach)
    requires m.staging && g.bin.None? && Faithful(c)
    ensures var after := MoveToProduction(Effect(g, m, c, reach, false));
            && Apps(after.bin) == Apps(g.stagedBin) + (if reach.Written? then Scan(c.lines, m.addr) else [])
            && Unstaged(after) && after.last == if g.stagedLast.Some? then g.stagedLast else g.last
  {
    assert Apps(g.stagedBin) + [] == Apps(g.stagedBin);
  }

  lemma {:induction false} FaithfulAt(chunks: seq<FinalFile>, a: nat)
    requires AllFaithful(chunks) && a < |chunks|
    ensures Faithful(chunks[a])
    decreases |chunks|
  {
    if a < |chunks| - 1 { FaithfulAt(chunks[..|chunks| - 1], a); }
  }

  lemma PriorMark(f: Files, chunks: seq<FinalFile>, a: nat)
    requires TiledFiles(chunks) && a <= |chunks|
    ensures var idx := VisitedChunks(Watermark(f), false, chunks[..a]);
            StagedMark(None, chunks[..a], idx) == if Prior(f, chunks, a) then Some(EndOf(chunks, a)) else None
  {
    var idx := VisitedChunks(Watermark(f), false, chunks[..a]);
    VisitedAscend(Watermark(f), false, chunks[..a]);
    if Prior(f, chunks, a) {
      assert Visits(Watermark(f), false, chunks[..a], a - 1);
    } else if idx != [] {
      assert idx[0] in idx && Visits(Watermark(f), false, chunks[..a], idx[0]);
      OfferedOnwards(f, chunks, idx[0], a - 1);
      assert false;
    }
  }

  /** The rows a monitor has if it is freshened uninterrupted. */
  lemma Uninterrupted(f: Files, addr: nat, chunks: seq<FinalFile>, a: nat)
    requires Staged(f, chunks, a)
    ensures Apps(Freshen(f, addr, chunks).bin)
            == RowsAt(chunks[..a], addr, VisitedChunks(Watermark(f), false, chunks[..a])) + RowsFrom(chunks, addr, a)
  {
    FreshenRows(f, addr, chunks);
    forall i | a <= i < |chunks| ensures Visits(Watermark(f), false, chunks, i) {
      OfferedOnwards(f, chunks, a, i);
    }
    StagedSplit(Watermark(f), false, addr, chunks, a,
                RowsAt(chunks[..a], addr, VisitedChunks(Watermark(f), false, chunks[..a])));
    var rows := RowsAt(chunks, addr, VisitedChunks(Watermark(f), false, chunks));
    assert [] + rows == rows;
  }

  /** The rows of chunk `a` if written, and of the chunks offered by the second freshen, against all rows from
      `a` on. */
  lemma RestRight(before: seq<App>, x: seq<App>, got: seq<App>, all: seq<App>)
    ensures (before + x) + got == before + all <==> x + got == all
  {
    Assoc(before, x, got);
    SamePrefix(before, x + got, all);
  }

  /** Chunk `i` lies behind chunk `a`, at a distance of this parity. */
  predicate Behind(a: nat, parity: nat, i: nat) {
    a < i && (i - a) % 2 == parity
  }

  ghost predicate NoRows(chunks: seq<FinalFile>, addr: nat, a: nat, parity: nat) {
    forall i :: 0 <= i < |chunks| && Behind(a, parity, i) ==> Scan(chunks[i].lines, addr) == []
  }

  /** The second freshen from the watermark `b`: chunk `b` is not offered. */
  lemma RestFromMark(chunks: seq<FinalFile>, addr: nat, a: nat, b: nat, bin: bool, wrote: bool)
    requires TiledFiles(chunks) && AllFaithful(chunks) && a < |chunks| && 0 < b && a <= b <= a + 1
    ensures var idx := VisitedChunks(EndOf(chunks, b), bin, chunks);
            var x := if wrote then Scan(chunks[a].lines, addr) else [];
            x + RowsAt(chunks, addr, idx) == RowsFrom(chunks, addr, a) <==> RestRows(chunks, addr, a, b, bin, wrote)
  {
    var idx := VisitedChunks(EndOf(chunks, b), bin, chunks);
    OfferedSeen(chunks, b, bin, idx);
    var all := (if wrote then [a] else []) + idx;
    RowsAtJoin(chunks, addr, if wrote then [a] else [], idx);
    RowsOfOne(chunks, addr, a);
    MarkComplete(chunks, addr, a, b, bin, wrote, idx, all);
  }

  /** The rows of chunk `a` if written, and those offered from the watermark `b` on, against all from `a` on. */
  lemma MarkComplete(chunks: seq<FinalFile>, addr: nat, a: nat, b: nat, bin: bool, wrote: bool, idx: seq<nat>,
                     all: seq<nat>)
    requires a < |chunks| && 0 < b && a <= b <= a + 1 && Strictly(idx) && Within(idx, 0, |chunks|)
    requires forall i :: 0 <= i < |chunks| ==> (i in idx <==> Offered(b, bin, i))
    requires all == (if wrote then [a] else []) + idx
    ensures Within(all, 0, |chunks|)
    ensures RowsAt(chunks, addr, all) == RowsFrom(chunks, addr, a) <==> RestRows(chunks, addr, a, b, bin, wrote)
  {
    forall j | 0 <= j < |idx| ensures b < idx[j] {
      assert idx[j] in idx;
    }
    RowsComplete(chunks, addr, all, a);
    forall i | 0 <= i < |chunks|
      ensures Lost(chunks, addr, all, a, i)
              <==> (Scan(chunks[i].lines, addr) != []
                    && ((i == a && !wrote) || (i == b && a < b) || (bin && Behind(b, 0, i))))
    {
      assert i in all <==> (wrote && i == a) || i in idx;
    }
    assert NoneLost(chunks, addr, all, a) <==> RestRows(chunks, addr, a, b, bin, wrote);
  }

  /** No rows where the second freshen does not look. */
  ghost predicate RestRows(chunks: seq<FinalFile>, addr: nat, a: nat, b: nat, bin: bool, wrote: bool)
    requires a < |chunks|
  {
    && (wrote || Scan(chunks[a].lines, addr) == [])
    && (a < b < |chunks| ==> Scan(chunks[b].lines, addr) == [])
    && (bin ==> NoRows(chunks, addr, b, 0))
  }

  lemma RowsOfOne(chunks: seq<FinalFile>, addr: nat, a: nat)
    requires a < |chunks|
    ensures RowsAt(chunks, addr, [a]) == Scan(chunks[a].lines, addr)
  {
    assert [a][..0] == [] && RowsAt(chunks, addr, [a][..0]) == [];
    assert [] + Scan(chunks[a].lines, addr) == Scan(chunks[a].lines, addr);
  }

  // ----- the same when chunk `a` was the first offered -----

  lemma {:induction false} MarkFromVisited(w: nat, chunks: seq<FinalFile>, a: nat, j: nat)
    requires TiledFiles(chunks) && a < j <= |chunks| && Visits(w, true, chunks, a)
    ensures Mark(w, true, chunks[..j]) == Mark(EndOf(chunks, a + 1), true, chunks[..j])
    decreases j
  {
    var n := j - 1;
    assert chunks[..j][..n] == chunks[..n];
    MarkJumps(chunks, a + 1, j);
    if a < n { MarkFromVisited(w, chunks, a, n); }
  }

  /** A production monitor to which chunk `a` is the first offered then takes every second one. */
  lemma FirstThenAlternates(w: nat, chunks: seq<FinalFile>, a: nat, i: nat)
    requires TiledFiles(chunks) && a < |chunks| && i < |chunks|
    requires w == 0 || w < chunks[a].first
    requires a > 0 ==> w != 0 && chunks[a - 1].first <= w
    ensures Visits(w, true, chunks, i) <==> i == a || Behind(a, 0, i)
  {
    if i < a {
      NoneBefore(w, chunks, a, i);
      if i < a - 1 { FirstsAscend(chunks, i, a - 1); }
    } else {
      NoneBefore(w, chunks, a, a);
      assert Visits(w, true, chunks, a);
      if a < i {
        MarkFromVisited(w, chunks, a, i);
        ProductionAlternates(chunks, a + 1, i);
      }
    }
  }

  lemma FirstsAscend(chunks: seq<FinalFile>, i: nat, j: nat)
    requires TiledFiles(chunks) && i < j < |chunks|
    ensures chunks[i].first < chunks[j].first
  {
    FirstIsEnd(chunks, i);
    FirstIsEnd(chunks, j);
    EndsAscend(chunks, i, j);
  }

  lemma {:induction false} NoneBefore(w: nat, chunks: seq<FinalFile>, a: nat, j: nat)
    requires TiledFiles(chunks) && j <= a < |chunks| && (a > 0 ==> w != 0 && chunks[a - 1].first <= w)
    ensures Mark(w, true, chunks[..j]) == w
    decreases j
  {
    if j > 0 {
      var n := j - 1;
      assert chunks[..j][..n] == chunks[..n];
      NoneBefore(w, chunks, a, n);
      if n < a - 1 {
        FirstIsEnd(chunks, n);
        FirstIsEnd(chunks, a - 1);
        EndsAscend(chunks, n, a - 1);
      }
    }
  }

  /** All rows of chunks from `k` on are of blocks from the end of `k` chunks on. */
  lemma {:induction false} RowsAbove(chunks: seq<FinalFile>, addr: nat, k: nat)
    requires TiledFiles(chunks) && AllKept(chunks) && k <= |chunks|
    ensures forall j :: 0 <= j < |RowsFrom(chunks, addr, k)| ==> EndOf(chunks, k) <= RowsFrom(chunks, addr, k)[j].blk
    decreases |chunks|
  {
    if k == |chunks| {
      NothingFrom(chunks, addr, k);
    } else {
      var n := |chunks| - 1;
      TiledPrefix(chunks, n);
      RowsAbove(chunks[..n], addr, k);
      FirstIsEnd(chunks, n);
      if k < n { EndsAscend(chunks, k, n); }
      ScanBetween(chunks[n].lines, addr, EndOf(chunks, k), chunks[n].last + 1);
    }
  }

  lemma {:induction false} RowsFromStep(chunks: seq<FinalFile>, addr: nat, a: nat)
    requires a < |chunks|
    ensures RowsFrom(chunks, addr, a) == Scan(chunks[a].lines, addr) + RowsFrom(chunks, addr, a + 1)
    decreases |chunks|
  {
    var n := |chunks| - 1;
    var first, last := Scan(chunks[a].lines, addr), Scan(chunks[n].lines, addr);
    var rest := RowsFrom(chunks[..n], addr, a + 1);
    if a < n {
      assert RowsFrom(chunks[..n], addr, a) == first + rest by { RowsFromStep(chunks[..n], addr, a); }
      assert RowsFrom(chunks, addr, a) == (first + rest) + last;
      assert RowsFrom(chunks, addr, a + 1) == rest + last;
      Assoc(first, rest, last);
    } else {
      RowsFromLast(chunks, addr, a);
    }
  }

  lemma RowsFromLast(chunks: seq<FinalFile>, addr: nat, a: nat)
    requires a + 1 == |chunks|
    ensures RowsFrom(chunks, addr, a) == Scan(chunks[a].lines, addr) + RowsFrom(chunks, addr, a + 1)
  {
    var rows := Scan(chunks[a].lines, addr);
    assert RowsFrom(chunks[..a], addr, a) == [] by { NothingFrom(chunks[..a], addr, a); }
    assert RowsFrom(chunks, addr, a + 1) == [] by { NothingFrom(chunks, addr, a + 1); }
    assert [] + rows == rows && rows + [] == rows;
  }

  /** The chunks a monitor takes that starts over in production with chunk `a`. */
  lemma StartsOver(w: nat, chunks: seq<FinalFile>, a: nat) returns (idx: seq<nat>)
    requires TiledFiles(chunks) && a < |chunks|
    requires w == 0 || w < chunks[a].first
    requires a > 0 ==> w != 0 && chunks[a - 1].first <= w
    ensures idx == VisitedChunks(w, true, chunks) && Strictly(idx) && Within(idx, a, |chunks|)
    ensures forall i :: 0 <= i < |chunks| ==> (i in idx <==> i == a || Behind(a, 0, i))
  {
    idx := VisitedChunks(w, true, chunks);
    VisitedAscend(w, true, chunks);
    forall i | 0 <= i < |chunks| ensures i in idx <==> i == a || Behind(a, 0, i) {
      FirstThenAlternates(w, chunks, a, i);
    }
    forall j | 0 <= j < |idx| ensures a <= idx[j] {
      assert idx[j] in idx;
    }
  }

  /** The second freshen when chunk `a` was the first offered: it is offered again. */
  lemma RestFromFirst(w: nat, chunks: seq<FinalFile>, addr: nat, a: nat, wrote: bool)
    requires TiledFiles(chunks) && AllKept(chunks) && a < |chunks|
    requires w == 0 || w < chunks[a].first
    requires a > 0 ==> w != 0 && chunks[a - 1].first <= w
    ensures var x := if wrote then Scan(chunks[a].lines, addr) else [];
            x + RowsAt(chunks, addr, VisitedChunks(w, true, chunks)) == RowsFrom(chunks, addr, a)
            <==> (!wrote || Scan(chunks[a].lines, addr) == []) && NoRows(chunks, addr, a, 1)
  {
    var idx := StartsOver(w, chunks, a);
    var got := RowsAt(chunks, addr, idx);
    assert [] + got == got;
    if wrote && Scan(chunks[a].lines, addr) != [] {
      TwiceIsWrong(chunks, addr, a, idx);
    } else {
      FirstComplete(chunks, addr, a, idx);
    }
  }

  lemma FirstComplete(chunks: seq<FinalFile>, addr: nat, a: nat, idx: seq<nat>)
    requires Strictly(idx) && Within(idx, a, |chunks|)
    requires forall i :: 0 <= i < |chunks| ==> (i in idx <==> i == a || Behind(a, 0, i))
    ensures RowsAt(chunks, addr, idx) == RowsFrom(chunks, addr, a) <==> NoRows(chunks, addr, a, 1)
  {
    RowsComplete(chunks, addr, idx, a);
    forall i | 0 <= i < |chunks|
      ensures Lost(chunks, addr, idx, a, i) <==> Scan(chunks[i].lines, addr) != [] && Behind(a, 1, i)
    {
    }
    assert NoneLost(chunks, addr, idx, a) <==> NoRows(chunks, addr, a, 1);
  }

  /** A row of chunk `a` cannot stand where a row of a later chunk should. */
  lemma TwiceIsWrong(chunks: seq<FinalFile>, addr: nat, a: nat, idx: seq<nat>)
    requires TiledFiles(chunks) && AllKept(chunks) && a < |chunks| && Strictly(idx) && Within(idx, a, |chunks|)
    requires a in idx && Scan(chunks[a].lines, addr) != []
    ensures Scan(chunks[a].lines, addr) + RowsAt(chunks, addr, idx) != RowsFrom(chunks, addr, a)
  {
    var rows, got := Scan(chunks[a].lines, addr), RowsAt(chunks, addr, idx);
    RowsFromStep(chunks, addr, a);
    SamePrefix(rows, got, RowsFrom(chunks, addr, a + 1));
    FirstRows(chunks, addr, idx, a);
    ScanBetween(chunks[a].lines, addr, chunks[a].first, chunks[a].last + 1);
    RowsAbove(chunks, addr, a + 1);
    assert got[0] == rows[0] && got[0].blk < EndOf(chunks, a + 1);
  }

  lemma {:induction false} FirstRows(chunks: seq<FinalFile>, addr: nat, idx: seq<nat>, a: nat)
    requires Strictly(idx) && Within(idx, a, |chunks|) && a in idx
    ensures Scan(chunks[a].lines, addr) <= RowsAt(chunks, addr, idx)
    decreases |idx|
  {
    var n := |idx| - 1;
    var j :| 0 <= j < |idx| && idx[j] == a;
    assert idx[0] == a;
    if n > 0 {
      assert idx[..n][0] == a;
      FirstRows(chunks, addr, idx[..n], a);
    } else {
      RowsOfOne(chunks, addr, a);
      assert idx == [a];
    }
  }

  /** A first freshen, or any of a monitor without a binary file, that fails at chunk `a` is followed by the move
      to production. Running it again over all chunks gives the rows of an uninterrupted freshen exactly if:
      when earlier chunks had been offered, the rows of chunk `a` had been written or there are none, and, if
      there is a binary file by now, the chunks at even distance behind `a` have no rows;
      when `a` was the first chunk offered, there is no binary file yet, or no row of chunk `a` had been
      written and the chunks at odd distance behind `a` have none. */
  lemma StagedRerunRightIff(f: Files, addr: nat, chunks: seq<FinalFile>, a: nat, reach: Reach)
    requires Staged(f, chunks, a) && AllKept(chunks)
    ensures var after, rows := MovedEarly(f, addr, chunks, a, reach), Scan(chunks[a].lines, addr);
            Apps(Freshen(after, addr, chunks).bin) == Apps(Freshen(f, addr, chunks).bin)
            <==> if Prior(f, chunks, a)
                 then (reach.Written? || rows == []) && (after.bin.Some? ==> NoRows(chunks, addr, a, 0))
                 else after.bin.Some? ==> (!reach.Written? || rows == []) && NoRows(chunks, addr, a, 1)
  {
    var after, w := MovedEarly(f, addr, chunks, a, reach), Watermark(f);
    var before := RowsAt(chunks[..a], addr, VisitedChunks(w, false, chunks[..a]));
    var x := if reach.Written? then Scan(chunks[a].lines, addr) else [];
    var got := RowsAt(chunks, addr, VisitedChunks(Watermark(after), after.bin.Some?, chunks));
    MovedState(f, addr, chunks, a, reach);
    Uninterrupted(f, addr, chunks, a);
    FreshenRows(after, addr, chunks);
    RestRight(before, x, got, RowsFrom(chunks, addr, a));
    if Prior(f, chunks, a) {
      RestFromMark(chunks, addr, a, a, after.bin.Some?, reach.Written?);
    } else if after.bin.Some? {
      RestFromFirst(w, chunks, addr, a, reach.Written?);
    } else {
      assert Apps(after.bin) == [] && [] + got == got;
      FreshenRows(f, addr, chunks);
    }
  }

  // ----- the process exits -----

  /** The files of a monitor if the process exits while chunk `a` is next, before or during its visit. */
  ghost function ExitState(f: Files, addr: nat, chunks: seq<FinalFile>, a: nat, reach: Reach): Files
    requires a <= |chunks| && (!reach.Untouched? ==> a < |chunks|)
  {
    var m := Monitor(addr, f.bin.None?);
    if reach.Untouched? then VisitAll(f, m, chunks[..a]) else StoppedAt(f, m, chunks, a, reach)
  }

  lemma {:induction false} ProductionStays(f: Files, m: Monitor, chunks: seq<FinalFile>)
    requires !m.staging && f.bin.Some? && Unstaged(f)
    ensures VisitAll(f, m, chunks).bin.Some? && Unstaged(VisitAll(f, m, chunks))
    decreases |chunks|
  {
    if chunks != [] { ProductionStays(f, m, chunks[..|chunks| - 1]); }
  }

  /** Wherever the process exits during the visits, running again gives the rows of an uninterrupted freshen,
      except to a production monitor whose rows of the chunk were written and its watermark not yet. A monitor
      on the stage starts over, because the stage is cleaned. */
  lemma ExitRightIff(f: Files, addr: nat, chunks: seq<FinalFile>, a: nat, reach: Reach)
    requires Unstaged(f) && Ranges(chunks) && a <= |chunks|
    requires !reach.Untouched? ==> a < |chunks| && Faithful(chunks[a])
                                   && Possible(VisitAll(f, Monitor(addr, f.bin.None?), chunks[..a]), chunks[a])
    ensures Apps(Freshen(ExitState(f, addr, chunks, a, reach), addr, chunks).bin) == Apps(Freshen(f, addr, chunks).bin)
            <==> f.bin.None? || !reach.Written? || Scan(chunks[a].lines, addr) == []
  {
    var m, exit := Monitor(addr, f.bin.None?), ExitState(f, addr, chunks, a, reach);
    if f.bin.None? {
      StagingFile(f, m, chunks[..a]);
      assert exit.(stagedBin := None, stagedLast := None) == f;
    } else {
      ProductionStays(f, m, chunks[..a]);
      assert f.(stagedBin := None, stagedLast := None) == f && exit.(stagedBin := None, stagedLast := None) == exit;
      if reach.Untouched? {
        ResumesAt(f, exit, m, chunks, a);
        TwinVisits(exit, f, m, chunks, a, 0);
      } else {
        RerunRightIff(f, addr, chunks, a, reach);
      }
    }
  }

  /** Once the visits are done and the files moved, running again adds nothing. */
  lemma FreshenTwice(f: Files, addr: nat, chunks: seq<FinalFile>)
    requires TiledFiles(chunks) && Unstaged(f)
    ensures Apps(Freshen(Freshen(f, addr, chunks), addr, chunks).bin) == Apps(Freshen(f, addr, chunks).bin)
  {
    var m, g := Monitor(addr, f.bin.None?), Freshen(f, addr, chunks);
    assert f.(stagedBin := None, stagedLast := None) == f;
    if f.bin.Some? {
      ProductionStays(f, m, chunks);
      assert chunks[..|chunks|] == chunks;
      ResumesAt(f, g, m, chunks, |chunks|);
      assert g.(stagedBin := None, stagedLast := None) == g;
    } else {
      forall j | 0 <= j < |chunks| ensures !Possible(g, chunks[j]) {
        SeenAll(f, addr, chunks, j);
      }
      IdleVisits(g, Monitor(addr, g.bin.None?), chunks);
    }
  }

  /** After a freshen no chunk is offered to the monitor that was on the stage. */
  lemma SeenAll(f: Files, addr: nat, chunks: seq<FinalFile>, j: nat)
    requires TiledFiles(chunks) && Unstaged(f) && f.bin.None? && j < |chunks|
    ensures !Possible(Freshen(f, addr, chunks), chunks[j])
  {
    var m, n := Monitor(addr, true), |chunks| - 1;
    var g := VisitAll(f, m, chunks);
    assert f.(stagedBin := None, stagedLast := None) == f;
    StagingFile(f, m, chunks);
    assert g.stagedLast == if Prior(f, chunks, |chunks|) then Some(EndOf(chunks, |chunks|)) else None by {
      StagingMark(f, m, chunks);
      PriorMark(f, chunks, |chunks|);
      assert chunks[..|chunks|] == chunks;
    }
    if Prior(f, chunks, |chunks|) {
      FirstIsEnd(chunks, j);
      EndsAscend(chunks, j, |chunks|);
    } else if Possible(f, chunks[j]) {
      OfferedOnwards(f, chunks, j, n);
      assert false;
    }
  }

  lemma {:induction false} RowsEmptyIff(chunks: seq<FinalFile>, addr: nat, idx: seq<nat>)
    requires Within(idx, 0, |chunks|)
    ensures RowsAt(chunks, addr, idx) == [] <==> forall i :: 0 <= i < |chunks| && i in idx ==>
            Scan(chunks[i].lines, addr) == []
    decreases |idx|
  {
    if idx != [] {
      var n := |idx| - 1;
      RowsEmptyIff(chunks, addr, idx[..n]);
      assert idx == idx[..n] + [idx[n]];
    }
  }

  /** The binary file has been moved to production, and its watermark file not yet. */
  ghost function HalfMoved(f: Files, addr: nat, chunks: seq<FinalFile>): Files {
    var g := VisitAll(f, Monitor(addr, true), chunks);
    f.(bin := if g.stagedBin.Some? then g.stagedBin else f.bin)
  }

  /** If the process exits between the two moves, the monitor starts over in production with all its rows:
      running again is right exactly if there is no binary file, or there is no row in the first chunk offered
      and in those at even distance behind it. */
  lemma MoveExitRightIff(f: Files, addr: nat, chunks: seq<FinalFile>, a: nat)
    requires Staged(f, chunks, a) && !Prior(f, chunks, a)
    ensures var half := HalfMoved(f, addr, chunks);
            Apps(Freshen(half, addr, chunks).bin) == Apps(Freshen(f, addr, chunks).bin)
            <==> half.bin.None? || (Scan(chunks[a].lines, addr) == [] && NoRows(chunks, addr, a, 0))
  {
    var half := HalfMoved(f, addr, chunks);
    HalfState(f, addr, chunks);
    if half.bin.Some? {
      FreshenRows(half, addr, chunks);
      var rows := RowsAt(chunks, addr, VisitedChunks(Watermark(half), half.bin.Some?, chunks));
      OverAgain(Watermark(half), half.bin.Some?, chunks, addr, a, rows);
      assert Apps(half.bin) + [] == Apps(half.bin);
      SamePrefix(Apps(half.bin), rows, []);
    }
  }

  /** All the rows are there, under the old watermark; or nothing has moved. */
  lemma HalfState(f: Files, addr: nat, chunks: seq<FinalFile>)
    requires f.bin.None? && Unstaged(f)
    ensures var half := HalfMoved(f, addr, chunks);
            && Watermark(half) == Watermark(f)
            && (if half.bin.Some? then Apps(half.bin) == Apps(Freshen(f, addr, chunks).bin) else half == f)
  {
    assert f.(stagedBin := None, stagedLast := None) == f;
    StagingFile(f, Monitor(addr, true), chunks);
  }

  /** The rows a monitor gets that starts over in production: none exactly if those chunks have none. */
  lemma OverAgain(w: nat, moves: bool, chunks: seq<FinalFile>, addr: nat, a: nat, rows: seq<App>)
    requires TiledFiles(chunks) && a < |chunks| && moves && (w == 0 || w < chunks[a].first)
    requires a > 0 ==> w != 0 && chunks[a - 1].first <= w
    requires rows == RowsAt(chunks, addr, VisitedChunks(w, moves, chunks))
    ensures rows == [] <==> Scan(chunks[a].lines, addr) == [] && NoRows(chunks, addr, a, 0)
  {
    var idx := StartsOver(w, chunks, a);
    RowsEmptyIff(chunks, addr, idx);
  }

  // ----- a quit inside the monitor loop -----

  /** A quit still moves every watermark. Running again is right for a production monitor exactly if its rows of
      the chunk had been written or there are none. */
  lemma QuitRightIff(f: Files, addr: nat, chunks: seq<FinalFile>, a: nat, reach: Reach)
    requires a < |chunks| && Ranges(chunks) && Faithful(chunks[a])
    requires Possible(VisitAll(f, Monitor(addr, false), chunks[..a]), chunks[a])
    ensures var m := Monitor(addr, false);
            var quit := Effect(VisitAll(f, m, chunks[..a]), m, chunks[a], reach, true);
            Apps(VisitAll(quit, m, chunks).bin) == Apps(VisitAll(f, m, chunks).bin)
            <==> reach.Written? || Scan(chunks[a].lines, addr) == []
  {
    var m, c := Monitor(addr, false), chunks[a];
    var g, y := VisitAll(f, m, chunks[..a]), VisitAll(f, m, chunks[..a + 1]);
    assert y == Effect(g, m, c, Written, true) by { assert chunks[..a + 1][..a] == chunks[..a]; }
    var quit, extra := Effect(g, m, c, reach, true), if reach.Written? then 0 else |Scan(c.lines, addr)|;
    ResumesAt(f, quit, m, chunks, a + 1);
    assert Twins(y, quit, extra);
    TwinVisits(f, quit, m, chunks, a + 1, extra);
  }

  /** For a monitor on the stage, which is moved to production, the next chunk must have no row either, nor, if
      there is a binary file by now, the chunks at even distance behind that. */
  lemma StagedQuitRightIff(f: Files, addr: nat, chunks: seq<FinalFile>, a: nat, reach: Reach)
    requires Staged(f, chunks, a)
    ensures var m := Monitor(addr, true);
            var after := MoveToProduction(Effect(VisitAll(f, m, chunks[..a]), m, chunks[a], reach, true));
            Apps(Freshen(after, addr, chunks).bin) == Apps(Freshen(f, addr, chunks).bin)
            <==> RestRows(chunks, addr, a, a + 1, after.bin.Some?, reach.Written?)
  {
    var m := Monitor(addr, true);
    var g := VisitAll(f, m, chunks[..a]);
    var after := MoveToProduction(Effect(g, m, chunks[a], reach, true));
    var before := RowsAt(chunks[..a], addr, VisitedChunks(Watermark(f), false, chunks[..a]));
    var x := if reach.Written? then Scan(chunks[a].lines, addr) else [];
    StagedRows(f, m, chunks, a, before);
    FaithfulAt(chunks, a);
    assert Apps(after.bin) == before + x && Watermark(after) == EndOf(chunks, a + 1) by {
      assert before + [] == before;
    }
    Uninterrupted(f, addr, chunks, a);
    FreshenRows(after, addr, chunks);
    var got := RowsAt(chunks, addr, VisitedChunks(Watermark(after), after.bin.Some?, chunks));
    RestRight(before, x, got, RowsFrom(chunks, addr, a));
    RestFromMark(chunks, addr, a, a + 1, after.bin.Some?, reach.Written?);
  }
}
