/** How write_chunks cuts a stage: whole blocks, full chunks, and when it drains the stage. */
module Chunking {
  import opened Util
  import opened Chain
  import opened Pipeline
  import opened Soundness

  function Join(pieces: seq<seq<Record>>): seq<Record> {
    if pieces == [] then [] else pieces[0] + Join(pieces[1..])
  }

  /** Every block of `a` comes before every block of `b`. */
  predicate Apart(a: seq<Record>, b: seq<Record>) {
    forall i, j :: 0 <= i < |a| && 0 <= j < |b| ==> a[i].blk < b[j].blk
  }

  /** At least MAX_ROWS records, and everything from record MAX_ROWS - 1 on is one block. */
  predicate FullPiece(cfg: Config, p: seq<Record>) {
    |p| >= cfg.maxRows && forall k :: cfg.maxRows - 1 <= k < |p| ==> p[k].blk == p[cfg.maxRows - 1].blk
  }

  /** `chunks'` is `chunks` followed by one chunk per piece. */
  predicate Writes(chunks: seq<Chunk>, pieces: seq<seq<Record>>, chunks': seq<Chunk>) {
    && |chunks'| == |chunks| + |pieces| && chunks'[..|chunks|] == chunks
    && forall i :: 0 <= i < |pieces| ==> pieces[i] != [] && chunks'[|chunks| + i] == ChunkOf(pieces[i])
  }

  lemma CutApart(lines: seq<Record>, loc: nat)
    requires BlockOrdered(lines) && loc < |lines|
    requires loc + 1 == |lines| || lines[loc + 1].blk != lines[loc].blk
    ensures Apart(lines[..loc + 1], lines[loc + 1..])
    ensures BlockOrdered(lines[loc + 1..])
  {
    if loc + 1 < |lines| {
      forall i, j | 0 <= i <= loc && loc < j < |lines| ensures lines[i].blk < lines[j].blk {
        assert lines[i].blk <= lines[loc].blk < lines[loc + 1].blk <= lines[j].blk;
      }
    }
  }

  lemma {:induction false} ApartJoin(a: seq<Record>, pieces: seq<seq<Record>>, rest: seq<Record>)
    requires Apart(a, Join(pieces) + rest)
    ensures forall i :: 0 <= i < |pieces| ==> Apart(a, pieces[i])
    ensures Apart(a, rest)
    decreases |pieces|
  {
    var s := Join(pieces) + rest;
    if pieces == [] {
      assert s == rest;
    } else {
      var tail := Join(pieces[1..]) + rest;
      assert s == pieces[0] + tail;
      assert forall j :: 0 <= j < |tail| ==> tail[j] == s[|pieces[0]| + j];
      assert forall j :: 0 <= j < |pieces[0]| ==> pieces[0][j] == s[j];
      ApartJoin(a, pieces[1..], rest);
    }
  }

  /** After a cut the stage named newStage holds what was not taken. */
  lemma CutRest(w: World, chunkSize: nat)
    requires AllTabbed(Staged(w)) && Staged(w) != []
    requires !TooShort(Staged(w)[..BreakAt(Staged(w), chunkSize) + 1])
    ensures var lines, loc, w1 := Staged(w), BreakAt(Staged(w), chunkSize), CutOnce(w, chunkSize).w;
            && CutOnce(w, chunkSize).ok && Staged(w1) == lines[loc + 1..] && w1.newStage == w.newStage
            && w1.disk.chunks == w.disk.chunks + [ChunkOf(lines[..loc + 1])]
            && w1.quits == w.quits && w1.locks == w.locks && w1.alive == w.alive
  {
    CutEffect(w, chunkSize);
  }

  /** `lines` is the pieces in order followed by `rest`, and no block is divided between them. */
  predicate Partition(lines: seq<Record>, pieces: seq<seq<Record>>, rest: seq<Record>) {
    && Join(pieces) + rest == lines
    && (forall i, j :: 0 <= i < j < |pieces| ==> Apart(pieces[i], pieces[j]))
    && (forall i :: 0 <= i < |pieces| ==> Apart(pieces[i], rest))
  }

  lemma PartitionCons(a: seq<Record>, lines: seq<Record>, pieces: seq<seq<Record>>, rest: seq<Record>)
    requires Partition(lines, pieces, rest) && Apart(a, lines)
    ensures Partition(a + lines, [a] + pieces, rest)
  {
    ApartJoin(a, pieces, rest);
    assert Join([a] + pieces) == a + Join(pieces) by { assert ([a] + pieces)[1..] == pieces; }
    assert a + Join(pieces) + rest == a + (Join(pieces) + rest);
  }

  lemma WritesCons(chunks: seq<Chunk>, a: seq<Record>, pieces: seq<seq<Record>>, chunks': seq<Chunk>)
    requires a != [] && Writes(chunks + [ChunkOf(a)], pieces, chunks')
    ensures Writes(chunks, [a] + pieces, chunks')
  {
    forall i | 0 <= i < |[a] + pieces|
      ensures ([a] + pieces)[i] != [] && chunks'[|chunks| + i] == ChunkOf(([a] + pieces)[i])
    {
      if i == 0 {
        assert chunks'[|chunks|] == (chunks + [ChunkOf(a)])[|chunks|];
      } else {
        assert ([a] + pieces)[i] == pieces[i - 1];
        assert chunks'[|chunks| + i] == chunks'[|chunks + [ChunkOf(a)]| + (i - 1)];
      }
    }
    assert chunks'[..|chunks|] == chunks'[..|chunks| + 1][..|chunks|];
  }

  /** What the index writer needs of each piece. */
  predicate AllGood(pieces: seq<seq<Record>>) {
    forall i :: 0 <= i < |pieces| ==> AllTabbed(pieces[i]) && !TooShort(pieces[i])
  }

  predicate AllFull(cfg: Config, pieces: seq<seq<Record>>) {
    forall i :: 0 <= i < |pieces| ==> FullPiece(cfg, pieces[i])
  }

  lemma CutFull(cfg: Config, lines: seq<Record>)
    requires cfg.maxRows <= |lines|
    ensures FullPiece(cfg, lines[..BreakAt(lines, cfg.maxRows) + 1])
  {
  }

  lemma AllFullCons(cfg: Config, a: seq<Record>, pieces: seq<seq<Record>>)
    requires FullPiece(cfg, a) && AllFull(cfg, pieces)
    ensures AllFull(cfg, [a] + pieces)
  {
  }

  lemma CutLines(cfg: Config, lines: seq<Record>, chunkSize: nat) returns (a: seq<Record>, rest: seq<Record>)
    requires BlockOrdered(lines) && lines != []
    ensures a == lines[..BreakAt(lines, chunkSize) + 1] && rest == lines[BreakAt(lines, chunkSize) + 1..]
    ensures lines == a + rest && a != [] && Apart(a, rest) && BlockOrdered(rest)
  {
    var loc := BreakAt(lines, chunkSize);
    a, rest := lines[..loc + 1], lines[loc + 1..];
    CutApart(lines, loc);
  }

  /** Taking the pieces off the front of `lines`, one chunk each and only between blocks, leads from
      `chunks` to `chunks'` and leaves `rest`. */
  predicate Cuts(cfg: Config, full: bool, chunks: seq<Chunk>, lines: seq<Record>,
                 pieces: seq<seq<Record>>, chunks': seq<Chunk>, rest: seq<Record>)
    decreases |pieces|
  {
    if pieces == [] then
      chunks' == chunks && rest == lines
    else
      var a := pieces[0];
      && a != [] && a <= lines && Apart(a, lines[|a|..]) && (full ==> FullPiece(cfg, a))
      && AllTabbed(a) && !TooShort(a)
      && Cuts(cfg, full, chunks + [ChunkOf(a)], lines[|a|..], pieces[1..], chunks', rest)
  }

  lemma {:induction false} CutsPartition(cfg: Config, full: bool, chunks: seq<Chunk>, lines: seq<Record>,
                                         pieces: seq<seq<Record>>, chunks': seq<Chunk>, rest: seq<Record>)
    requires Cuts(cfg, full, chunks, lines, pieces, chunks', rest)
    ensures Partition(lines, pieces, rest) && Writes(chunks, pieces, chunks')
    ensures AllGood(pieces) && (full ==> AllFull(cfg, pieces))
    decreases |pieces|
  {
    if pieces == [] {
      assert Join(pieces) + rest == lines;
    } else {
      var a, tail := pieces[0], lines[|pieces[0]|..];
      CutsPartition(cfg, full, chunks + [ChunkOf(a)], tail, pieces[1..], chunks', rest);
      assert lines == a + tail && pieces == [a] + pieces[1..];
      PartitionCons(a, tail, pieces[1..], rest);
      WritesCons(chunks, a, pieces[1..], chunks');
      if full { AllFullCons(cfg, a, pieces[1..]); }
    }
  }

  /** The loop of an ordinary consolidation has full chunks left to write, or nothing to do. */
  predicate FullCuts(cfg: Config, n: nat, chunkSize: nat, once: bool) {
    !once && (chunkSize == cfg.maxRows || n <= chunkSize)
  }

  /** How a call of write_chunks ends: the loop is done, a malformed line, or the death of the process. */
  datatype Ending = Done | Broke | Died

  /** The ending, computed from the staged lines and the polls: what comes first of a quit that is heard, the
      end of the work, a piece with a malformed line, and a piece that is too short. */
  function EndingOf(cfg: Config, lines: seq<Record>, chunkSize: nat, once: bool, locked: bool, quits: seq<bool>): Ending
    decreases |lines|
  {
    if !(once || |lines| > chunkSize) || (!locked && Head(quits)) || lines == [] then
      Done
    else
      var loc := BreakAt(lines, chunkSize);
      var rest := lines[loc + 1..];
      if !AllTabbed(lines[..loc + 1]) then Broke
      else if TooShort(lines[..loc + 1]) then Died
      else EndingOf(cfg, rest, Min(cfg.maxRows, |rest|), once && |rest| > 0, locked, Tail(quits))
  }

  /** The three ways a cut of a stage with records goes. */
  lemma CutCases(w: World, chunkSize: nat)
    requires Staged(w) != []
    ensures var loc := BreakAt(Staged(w), chunkSize);
            var a, r := Staged(w)[..loc + 1], CutOnce(w, chunkSize);
            if !AllTabbed(a) then r == Outcome(false, w.(locks := w.locks + 1))
            else if TooShort(a) then r == Outcome(false, w.(alive := false))
            else r == Outcome(true, Put(w, CutDisk(w.disk, loc)))
  {
  }

  lemma CutDiskRest(w: World, loc: nat)
    requires Staged(w) != [] && loc < |Staged(w)|
    ensures var w1 := Put(w, CutDisk(w.disk, loc));
            Staged(w1) == Staged(w)[loc + 1..] && w1.disk.chunks == w.disk.chunks + [ChunkOf(Staged(w)[..loc + 1])]
  {
  }

  /** One turn of the loop on a stage with records: `a` becomes a chunk and `rest` stays, unless `a` has a
      malformed line or is too short. */
  lemma CutStep(cfg: Config, w: World, chunkSize: nat) returns (a: seq<Record>, rest: seq<Record>)
    requires BlockOrdered(Staged(w)) && Staged(w) != []
    ensures a == Staged(w)[..BreakAt(Staged(w), chunkSize) + 1]
            && rest == Staged(w)[BreakAt(Staged(w), chunkSize) + 1..]
    ensures Staged(w) == a + rest && a != [] && Apart(a, rest) && BlockOrdered(rest)
    ensures chunkSize == cfg.maxRows <= |Staged(w)| ==> FullPiece(cfg, a) && !TooShort(a)
    ensures var r := CutOnce(w, chunkSize);
            if !AllTabbed(a) then r == Outcome(false, w.(locks := w.locks + 1))
            else if TooShort(a) then r == Outcome(false, w.(alive := false))
            else r.ok && Staged(r.w) == rest && r.w.disk.chunks == w.disk.chunks + [ChunkOf(a)]
                 && r.w.quits == w.quits && r.w.locks == w.locks && r.w.alive == w.alive
  {
    a, rest := CutLines(cfg, Staged(w), chunkSize);
    CutCases(w, chunkSize);
    CutDiskRest(w, BreakAt(Staged(w), chunkSize));
    if chunkSize == cfg.maxRows <= |Staged(w)| { CutFull(cfg, Staged(w)); }
  }

  lemma CutsCons(cfg: Config, full: bool, chunks: seq<Chunk>, a: seq<Record>, rest: seq<Record>,
                 more: seq<seq<Record>>, chunks': seq<Chunk>, left: seq<Record>)
    requires a != [] && Apart(a, rest) && (full ==> FullPiece(cfg, a)) && AllTabbed(a) && !TooShort(a)
    requires Cuts(cfg, full, chunks + [ChunkOf(a)], rest, more, chunks', left)
    ensures Cuts(cfg, full, chunks, a + rest, [a] + more, chunks', left)
  {
    assert ([a] + more)[1..] == more && (a + rest)[|a|..] == rest;
  }

  lemma SameStaged(w: World, w': World)
    requires w' == w.(locks := w'.locks, alive := w'.alive)
    ensures Staged(w') == Staged(w)
  {
  }

  /** The ending after one more turn. */
  lemma EndingStep(cfg: Config, lines: seq<Record>, chunkSize: nat, once: bool, locked: bool, quits: seq<bool>,
                   a: seq<Record>, rest: seq<Record>)
    requires (once || |lines| > chunkSize) && !(!locked && Head(quits)) && lines != []
    requires a == lines[..BreakAt(lines, chunkSize) + 1] && rest == lines[BreakAt(lines, chunkSize) + 1..]
    ensures EndingOf(cfg, lines, chunkSize, once, locked, quits)
            == if !AllTabbed(a) then Broke
               else if TooShort(a) then Died
               else EndingOf(cfg, rest, Min(cfg.maxRows, |rest|), once && |rest| > 0, locked, Tail(quits))
  {
  }

  /** One turn `r` of the loop, and what follows it. */
  lemma CombineEnds(w: World, p: World, r: Outcome, next: Outcome, endNext: Ending, a: seq<Record>, rest: seq<Record>,
                    out: Outcome, end: Ending)
    requires p == Polled(w) && Staged(w) == a + rest
    requires if !AllTabbed(a) then r == Outcome(false, p.(locks := p.locks + 1))
             else if TooShort(a) then r == Outcome(false, p.(alive := false))
             else r.ok && r.w.locks == p.locks && r.w.alive == p.alive
    requires r.ok ==> EndsAs(r.w, next, endNext) && (endNext.Broke? ==> !AllTabbed(Staged(next.w)))
    requires out == if r.ok then next else r
    requires end == if !AllTabbed(a) then Broke else if TooShort(a) then Died else endNext
    ensures EndsAs(w, out, end) && (end.Broke? ==> !AllTabbed(Staged(out.w)))
  {
    if !AllTabbed(a) {
      assert Staged(r.w) == Staged(w) && (a + rest)[..|a|] == a;
      NotTabbed(Staged(w), |a|);
    }
  }

  /** One turn of the loop: what it does to the world, and what is left to do. */
  lemma Turn(cfg: Config, w: World, chunkSize: nat, once: bool)
    returns (r: Outcome, a: seq<Record>, rest: seq<Record>, size: nat, again: bool)
    requires BlockOrdered(Staged(w)) && Staged(w) != [] && (once || |Staged(w)| > chunkSize) && !Quits(w)
    ensures Staged(w) == a + rest && |rest| < |Staged(w)| && a != [] && Apart(a, rest)
    ensures chunkSize == cfg.maxRows <= |Staged(w)| ==> FullPiece(cfg, a)
    ensures size == Min(cfg.maxRows, |rest|) && again == (once && |rest| > 0)
    ensures r.ok ==> r.w.disk.chunks == w.disk.chunks + [ChunkOf(a)]
    ensures if !AllTabbed(a) then r == Outcome(false, Polled(w).(locks := w.locks + 1))
            else if TooShort(a) then r == Outcome(false, Polled(w).(alive := false))
            else r.ok && r.w.locks == w.locks && r.w.alive == w.alive && r.w.quits == Tail(w.quits)
                 && Staged(r.w) == rest && BlockOrdered(rest)
    ensures WriteChunks(cfg, w, chunkSize, once) == if r.ok then WriteChunks(cfg, r.w, size, again) else r
    ensures EndingOf(cfg, Staged(w), chunkSize, once, w.locks > 0, w.quits)
            == if !AllTabbed(a) then Broke
               else if TooShort(a) then Died
               else EndingOf(cfg, rest, size, again, w.locks > 0, Tail(w.quits))
  {
    var p := Polled(w);
    assert Staged(p) == Staged(w);
    a, rest := CutStep(cfg, p, chunkSize);
    r := CutOnce(p, chunkSize);
    size, again := Min(cfg.maxRows, |rest|), once && |rest| > 0;
    assert WriteChunks(cfg, w, chunkSize, once) == if r.ok then WriteChunks(cfg, r.w, size, again) else r by {
      WriteStep(cfg, w, chunkSize, once);
    }
    EndingStep(cfg, Staged(w), chunkSize, once, w.locks > 0, w.quits, a, rest);
  }

  /** The call ends as the staged lines and the polls say, and a malformed line stays staged. */
  predicate EndsRight(cfg: Config, w: World, chunkSize: nat, once: bool) {
    var r, end := WriteChunks(cfg, w, chunkSize, once), EndingOf(cfg, Staged(w), chunkSize, once, w.locks > 0, w.quits);
    EndsAs(w, r, end) && (end.Broke? ==> !AllTabbed(Staged(r.w)))
  }

  lemma {:induction false} WriteEnds(cfg: Config, w: World, chunkSize: nat, once: bool)
    requires BlockOrdered(Staged(w))
    ensures EndsRight(cfg, w, chunkSize, once)
    decreases |Staged(w)|
  {
    if !(once || |Staged(w)| > chunkSize) || Quits(w) || Staged(w) == [] {
      WriteStops(cfg, w, chunkSize, once);
    } else {
      var r, a, rest, size, again := Turn(cfg, w, chunkSize, once);
      if r.ok {
        WriteEnds(cfg, r.w, size, again);
        EndsRightStep(cfg, r.w, size, again, rest, w.locks > 0, Tail(w.quits));
      }
      CombineEnds(w, Polled(w), r, WriteChunks(cfg, r.w, size, again),
                  EndingOf(cfg, rest, size, again, w.locks > 0, Tail(w.quits)), a, rest,
                  WriteChunks(cfg, w, chunkSize, once),
                  EndingOf(cfg, Staged(w), chunkSize, once, w.locks > 0, w.quits));
    }
  }

  /** The same with the arguments of the ending spelled out. */
  lemma EndsRightStep(cfg: Config, w: World, chunkSize: nat, once: bool, lines: seq<Record>, locked: bool,
                      quits: seq<bool>)
    requires EndsRight(cfg, w, chunkSize, once) && lines == Staged(w) && locked == (w.locks > 0) && quits == w.quits
    ensures var r, end := WriteChunks(cfg, w, chunkSize, once), EndingOf(cfg, lines, chunkSize, once, locked, quits);
            EndsAs(w, r, end) && (end.Broke? ==> !AllTabbed(Staged(r.w)))
  {
  }

  /** Nothing to write, or a quit. */
  lemma WriteStops(cfg: Config, w: World, chunkSize: nat, once: bool)
    requires !(once || |Staged(w)| > chunkSize) || Quits(w) || Staged(w) == []
    ensures EndingOf(cfg, Staged(w), chunkSize, once, w.locks > 0, w.quits).Done?
    ensures EndsAs(w, WriteChunks(cfg, w, chunkSize, once), Done)
  {
    if once && !Quits(w) && Staged(w) == [] { WriteNothing(cfg, w, chunkSize, once); }
  }

  lemma WriteNothing(cfg: Config, w: World, chunkSize: nat, once: bool)
    requires Staged(w) == [] && once && !Quits(w)
    ensures WriteChunks(cfg, w, chunkSize, once) == Outcome(true, Polled(w))
  {
    WriteStep(cfg, w, chunkSize, once);
  }

  lemma {:induction false} WriteCuts(cfg: Config, full: bool, w: World, chunkSize: nat, once: bool)
    returns (pieces: seq<seq<Record>>)
    requires BlockOrdered(Staged(w))
    requires full ==> FullCuts(cfg, |Staged(w)|, chunkSize, once)
    ensures var r := WriteChunks(cfg, w, chunkSize, once);
            Cuts(cfg, full, w.disk.chunks, Staged(w), pieces, r.w.disk.chunks, Staged(r.w))
    decreases |Staged(w)|
  {
    pieces := [];
    if !(once || |Staged(w)| > chunkSize) || Quits(w) {
      assert Staged(Polled(w)) == Staged(w);
    } else if Staged(w) == [] {
      WriteNothing(cfg, w, chunkSize, once);
      assert Staged(Polled(w)) == Staged(w);
    } else {
      var r, a, rest, size, again := Turn(cfg, w, chunkSize, once);
      if r.ok {
        var more := WriteCuts(cfg, full, r.w, size, again);
        pieces := [a] + more;
        var out := WriteChunks(cfg, w, chunkSize, once).w;
        CutsCons(cfg, full, w.disk.chunks, a, rest, more, out.disk.chunks, Staged(out));
      } else {
        SameStaged(Polled(w), r.w);
      }
    }
  }

  lemma NotTabbed(lines: seq<Record>, n: nat)
    requires n <= |lines| && !AllTabbed(lines[..n])
    ensures !AllTabbed(lines)
  {
    var i :| 0 <= i < n && lines[..n][i].tabs != 2;
    assert lines[i].tabs != 2;
  }

  /** An ordinary consolidation does not die. */
  lemma {:induction false} FullNeverDies(cfg: Config, lines: seq<Record>, chunkSize: nat, once: bool, locked: bool,
                                         quits: seq<bool>)
    requires FullCuts(cfg, |lines|, chunkSize, once)
    ensures !EndingOf(cfg, lines, chunkSize, once, locked, quits).Died?
    decreases |lines|
  {
    if |lines| > chunkSize && !(!locked && Head(quits)) && lines != [] {
      var a, rest := lines[..BreakAt(lines, chunkSize) + 1], lines[BreakAt(lines, chunkSize) + 1..];
      CutFull(cfg, lines);
      EndingStep(cfg, lines, chunkSize, once, locked, quits, a, rest);
      FullNeverDies(cfg, rest, Min(cfg.maxRows, |rest|), false, locked, Tail(quits));
    }
  }

  /** Success, locks and life of the process after a call that ends in this way. */
  predicate EndsAs(w: World, r: Outcome, end: Ending) {
    && (r.ok <==> end.Done?)
    && r.w.locks == w.locks + (if end.Broke? then 1 else 0)
    && (r.w.alive <==> w.alive && !end.Died?)
  }

  /** write_chunks on any block-ordered stage, however it ends: the chunk inputs in order followed by what
      remains staged are the original stage, no block is divided, the pieces written have no malformed line and
      are long enough, and an ordinary consolidation writes full chunks. */
  lemma WritePartitions(cfg: Config, w: World, chunkSize: nat, once: bool) returns (pieces: seq<seq<Record>>)
    requires BlockOrdered(Staged(w))
    ensures var r, end := WriteChunks(cfg, w, chunkSize, once),
            EndingOf(cfg, Staged(w), chunkSize, once, w.locks > 0, w.quits);
            && Writes(w.disk.chunks, pieces, r.w.disk.chunks)
            && Partition(Staged(w), pieces, Staged(r.w)) && AllGood(pieces)
            && EndsAs(w, r, end)
            && (FullCuts(cfg, |Staged(w)|, chunkSize, once) ==> !end.Died? && AllFull(cfg, pieces))
  {
    var full := FullCuts(cfg, |Staged(w)|, chunkSize, once);
    pieces := WriteCuts(cfg, full, w, chunkSize, once);
    var r := WriteChunks(cfg, w, chunkSize, once);
    CutsPartition(cfg, full, w.disk.chunks, Staged(w), pieces, r.w.disk.chunks, Staged(r.w));
    WriteEnds(cfg, w, chunkSize, once);
    if full { FullNeverDies(cfg, Staged(w), chunkSize, once, w.locks > 0, w.quits); }
  }

  /** Undisturbed, an ordinary consolidation leaves at most MAX_ROWS records staged. */
  lemma {:induction false} ConsolidationBound(cfg: Config, w: World, chunkSize: nat)
    requires AllTabbed(Staged(w)) && (w.locks > 0 || forall i :: 0 <= i < |w.quits| ==> !w.quits[i])
    requires FullCuts(cfg, |Staged(w)|, chunkSize, false) && chunkSize <= cfg.maxRows
    ensures |Staged(WriteChunks(cfg, w, chunkSize, false).w)| <= cfg.maxRows
    decreases |Staged(w)|
  {
    var p := Polled(w);
    assert Staged(p) == Staged(w);
    if |Staged(w)| > chunkSize {
      CutFull(cfg, Staged(w));
      CutRest(p, chunkSize);
      var w1 := CutOnce(p, chunkSize).w;
      ConsolidationBound(cfg, w1, Min(cfg.maxRows, |Staged(w1)|));
    }
  }

  // ----- draining -----

  /** How many chunks a stage is drained into. */
  function DrainCount(cfg: Config, lines: seq<Record>, chunkSize: nat): nat
    decreases |lines|
  {
    if lines == [] then 0
    else
      var rest := lines[BreakAt(lines, chunkSize) + 1..];
      1 + DrainCount(cfg, rest, Min(cfg.maxRows, |rest|))
  }

  /** No piece that the stage is cut into is too short for the index writer. */
  predicate Writable(cfg: Config, lines: seq<Record>, chunkSize: nat)
    decreases |lines|
  {
    lines == [] ||
    (var loc := BreakAt(lines, chunkSize);
     var rest := lines[loc + 1..];
     !TooShort(lines[..loc + 1]) && Writable(cfg, rest, Min(cfg.maxRows, |rest|)))
  }

  /** The piece the stage ends with. */
  function LastPiece(cfg: Config, lines: seq<Record>): seq<Record>
    requires lines != []
    decreases |lines|
  {
    var loc := BreakAt(lines, Min(|lines|, cfg.maxRows));
    if loc + 1 == |lines| then lines else LastPiece(cfg, lines[loc + 1..])
  }

  /** With the sizes the grid step uses, only the last piece can be too short. */
  lemma {:induction false} OnlyLastIsShort(cfg: Config, lines: seq<Record>)
    requires lines != []
    ensures Writable(cfg, lines, Min(|lines|, cfg.maxRows)) <==> !TooShort(LastPiece(cfg, lines))
    decreases |lines|
  {
    var size := Min(|lines|, cfg.maxRows);
    var loc := BreakAt(lines, size);
    var rest := lines[loc + 1..];
    assert Writable(cfg, lines, size) <==> !TooShort(lines[..loc + 1]) && Writable(cfg, rest, Min(cfg.maxRows, |rest|));
    if rest == [] {
      assert lines[..loc + 1] == lines;
    } else {
      assert size == cfg.maxRows <= loc + 1;
      assert Min(cfg.maxRows, |rest|) == Min(|rest|, cfg.maxRows);
      OnlyLastIsShort(cfg, rest);
    }
  }

  /** None of the next `n` polls answers yes. */
  predicate Undisturbed(w: World, n: nat) {
    w.locks > 0 || forall i :: 0 <= i < n && i < |w.quits| ==> !w.quits[i]
  }

  /** A once-driven write_chunks drains the stage exactly when no poll it makes answers yes and no piece
      is too short. */
  lemma {:induction false} DrainsIff(cfg: Config, w: World, chunkSize: nat)
    requires AllTabbed(Staged(w)) && Staged(w) != []
    ensures Staged(WriteChunks(cfg, w, chunkSize, true).w) == []
            <==> Undisturbed(w, DrainCount(cfg, Staged(w), chunkSize)) && Writable(cfg, Staged(w), chunkSize)
    decreases |Staged(w)|
  {
    var p := Polled(w);
    if Quits(w) {
      assert Staged(p) == Staged(w);
    } else {
      WriteStep(cfg, w, chunkSize, true);
      CutEffect(p, chunkSize);
      if TooShort(Staged(w)[..BreakAt(Staged(w), chunkSize) + 1]) {
        assert Staged(p.(alive := false)) == Staged(w);
      } else {
        CutRest(p, chunkSize);
        var w1 := CutOnce(p, chunkSize).w;
        var size := Min(cfg.maxRows, |Staged(w1)|);
        UndisturbedStep(w, w1, 1 + DrainCount(cfg, Staged(w1), size));
        if Staged(w1) != [] { DrainsIff(cfg, w1, size); }
      }
    }
  }

  lemma UndisturbedStep(w: World, w1: World, n: nat)
    requires !Quits(w) && n > 0 && w1.quits == Tail(w.quits) && w1.locks == w.locks
    ensures Undisturbed(w, n) <==> Undisturbed(w1, n - 1)
  {
    if Undisturbed(w1, n - 1) && w.locks == 0 {
      forall i | 0 <= i < n && i < |w.quits| ensures !w.quits[i] {
        if i > 0 { assert w.quits[i] == w1.quits[i - 1]; }
      }
    }
    if Undisturbed(w, n) && w.locks == 0 {
      forall i | 0 <= i < n - 1 && i < |w1.quits| ensures !w1.quits[i] {
        assert w1.quits[i] == w.quits[i + 1];
      }
    }
  }

  // ----- the malformed line -----

  /** The locks are out of balance after write_chunks, by one, exactly if a piece with a malformed line is
      reached before a quit that is heard, before the end of the work and before a piece that is too short. Then
      the call fails, the pieces before that one are written, the rest with the malformed line stays staged, and
      from then on no request to quit is heard. */
  lemma StaysLockedIff(cfg: Config, w: World, chunkSize: nat, once: bool) returns (pieces: seq<seq<Record>>)
    requires BlockOrdered(Staged(w))
    ensures var r := WriteChunks(cfg, w, chunkSize, once);
            var broke := EndingOf(cfg, Staged(w), chunkSize, once, w.locks > 0, w.quits).Broke?;
            && r.w.locks == w.locks + (if broke then 1 else 0)
            && Writes(w.disk.chunks, pieces, r.w.disk.chunks)
            && Partition(Staged(w), pieces, Staged(r.w)) && AllGood(pieces)
            && (broke ==> !r.ok && !AllTabbed(Staged(r.w)) && forall later: seq<bool> :: !Quits(r.w.(quits := later)))
  {
    pieces := WritePartitions(cfg, w, chunkSize, once);
    WriteEnds(cfg, w, chunkSize, once);
  }
}
