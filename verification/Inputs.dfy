/** Published chunks on which freshens lose or double rows: that the conditions of `Freshening` and `Interrupted`
    are met by real inputs. */
module Inputs {
  import opened Util
  import opened Chain
  import opened Index
  import opened Monitors
  import opened Freshening
  import opened Order
  import opened Interrupted
  import Bloom

  function FullBytes(): (s: Bloom.FilterBytes) {
    seq(Bloom.WIDTH_IN_BYTES, (i: nat) => 255 as bv8)
  }

  lemma FullHas(addr: nat)
    ensures Bloom.Member([Bloom.Filter(1, FullBytes())], addr)
  {
    var f := Bloom.Filter(1, FullBytes());
    forall b: nat | b < Bloom.WIDTH_IN_BITS ensures Bloom.BitLit(f.bytes, b) {
      assert f.bytes[Bloom.ByteOf(b)] == 255;
    }
    assert Bloom.Has([f][0], addr);
  }

  /** The chunk of block `b`, with twelve rows of one address. */
  function Plain(b: nat, addr: nat): FinalFile {
    var lines := seq(12, i requires 0 <= i < 12 => Record(addr, b, i, 2));
    FinalFile(b, b, lines, Table([Entry(addr, 0, 12)], seq(12, i requires 0 <= i < 12 => App(b, i))),
              [Bloom.Filter(1, FullBytes())])
  }

  lemma PlainIndexed(c: FinalFile, b: nat, addr: nat)
    requires c == Plain(b, addr)
    ensures Indexes(c.table, c.lines)
  {
    assert EntryHolds(c.lines, c.table.addrs[0]);
    assert Cover(c.table.addrs, 12) by { assert c.table.addrs[..0] == []; }
  }

  lemma PlainPublished(c: FinalFile, b: nat, addr: nat)
    requires c == Plain(b, addr) && IsAddress(addr)
    ensures Published(c) && Faithful(c) && WellKept(c)
  {
    PlainIndexed(c, b, addr);
    forall x: nat ensures Bloom.Member(c.filters, x) { FullHas(x); }
  }

  lemma PlainRows(c: FinalFile, b: nat, addr: nat, other: nat)
    requires c == Plain(b, addr)
    ensures Scan(c.lines, other) != [] <==> other == addr
  {
    ScanRange(c.lines, other, 0, if other == addr then 12 else 0);
  }

  /** Rows in chunks 0 and 3 of four; the first freshen fails at chunk 1, with nothing left to write there. The
      monitor that is moved to production has all the rows it should have by then, yet running again loses those
      of chunk 3. */
  lemma StagedRerunLoses() returns (chunks: seq<FinalFile>, addr: nat)
    ensures |chunks| == 4 && Real(chunks)
    ensures var after := MovedEarly(NewMonitor(), addr, chunks, 1, Written);
            && Apps(after.bin) == RowsFrom(chunks[..2], addr, 0)
            && Apps(Freshen(after, addr, chunks).bin) != Apps(Freshen(NewMonitor(), addr, chunks).bin)
  {
    SevenAndEight();
    addr := 7;
    chunks := PlainChunks([7, 8, 8, 7], 7);
    FourRerun(chunks, addr);
  }

  lemma PlainFile(b: nat, addr: nat, other: nat) returns (c: FinalFile)
    requires IsAddress(addr)
    ensures c.first == c.last == b && Published(c) && Faithful(c) && WellKept(c)
    ensures Scan(c.lines, other) != [] <==> other == addr
  {
    c := Plain(b, addr);
    PlainPublished(c, b, addr);
    PlainRows(c, b, addr, other);
  }

  lemma SevenAndEight()
    ensures IsAddress(7) && IsAddress(8)
  {
    assert Pow256(1) == 256;
    PowGrows(1, 20);
  }

  lemma {:induction false} PowGrows(i: nat, j: nat)
    requires i <= j
    ensures Pow256(i) <= Pow256(j)
    decreases j
  {
    if i < j { PowGrows(i, j - 1); }
  }

  lemma FourRerun(chunks: seq<FinalFile>, addr: nat)
    requires |chunks| == 4 && TiledFiles(chunks) && AllFaithful(chunks) && AllKept(chunks)
    requires Scan(chunks[0].lines, addr) != [] && Scan(chunks[1].lines, addr) == [] && Scan(chunks[3].lines, addr) != []
    ensures var after := MovedEarly(NewMonitor(), addr, chunks, 1, Written);
            && Apps(after.bin) == RowsFrom(chunks[..2], addr, 0)
            && Apps(Freshen(after, addr, chunks).bin) != Apps(Freshen(NewMonitor(), addr, chunks).bin)
  {
    var f, after := NewMonitor(), MovedEarly(NewMonitor(), addr, chunks, 1, Written);
    StagedRerunRightIff(f, addr, chunks, 1, Written);
    MovedState(f, addr, chunks, 1, Written);
    AllFromZero(chunks[..1], addr);
    RowsFromStep(chunks[..1], addr, 0);
    assert RowsFrom(chunks[..2], addr, 0) == RowsFrom(chunks[..1], addr, 0) + Scan(chunks[1].lines, addr) by {
      assert chunks[..2][..1] == chunks[..1];
    }
    assert |RowsFrom(chunks[..1], addr, 0)| > 0;
    assert after.bin.Some?;
    assert Behind(1, 0, 3);
  }

  // ----- chunks and a monitor -----

  /** What the lemmas ask of chunks. */
  ghost predicate Real(chunks: seq<FinalFile>) {
    && TiledFiles(chunks) && AllFaithful(chunks) && AllKept(chunks)
    && forall i :: 0 <= i < |chunks| ==> Published(chunks[i])
  }

  /** One chunk per block, each with rows of one address; `owners[b]` is that of block `b`. */
  lemma {:induction false} PlainChunks(owners: seq<nat>, other: nat) returns (chunks: seq<FinalFile>)
    requires forall b :: 0 <= b < |owners| ==> IsAddress(owners[b])
    ensures |chunks| == |owners| && Real(chunks)
    ensures forall b :: 0 <= b < |owners| ==> chunks[b].first == chunks[b].last == b
    ensures forall b :: 0 <= b < |owners| ==> (Scan(chunks[b].lines, other) != [] <==> owners[b] == other)
    decreases |owners|
  {
    chunks := [];
    if owners != [] {
      var n := |owners| - 1;
      var before := PlainChunks(owners[..n], other);
      var c := PlainFile(n, owners[n], other);
      chunks := before + [c];
      RealAppend(before, c);
    }
  }

  lemma RealAppend(before: seq<FinalFile>, c: FinalFile)
    requires Real(before) && c.first == c.last == |before| && Published(c) && Faithful(c) && WellKept(c)
    requires forall b :: 0 <= b < |before| ==> before[b].first == before[b].last == b
    ensures Real(before + [c])
  {
    assert (before + [c])[..|before|] == before;
  }

  /** A monitor after its first freshen, over one chunk that has rows of it. */
  lemma Seeded(addr: nat, chunks: seq<FinalFile>) returns (f: Files)
    requires Real(chunks) && chunks != [] && chunks[0].last == 0 && Scan(chunks[0].lines, addr) != []
    ensures f == Freshen(NewMonitor(), addr, chunks[..1])
    ensures Unstaged(f) && f.bin.Some? && f.last == Some(1)
  {
    f := Freshen(NewMonitor(), addr, chunks[..1]);
    FaithfulPrefix(chunks, 1);
    NewMonitorComplete(addr, chunks[..1]);
    RowsFromStep(chunks[..1], addr, 0);
  }

  // ----- freshens that finish -----

  /** A new monitor freshened after each of two chunks has no row of the second. */
  lemma FreshensLose() returns (chunks: seq<FinalFile>, addr: nat, upTo: seq<nat>)
    ensures Real(chunks) && Growing(upTo, 0, |chunks|)
    ensures Apps(Freshens(NewMonitor(), addr, chunks, upTo).bin) != RowsFrom(chunks, addr, 0)
  {
    SevenAndEight();
    addr, upTo := 7, [1, 2];
    chunks := PlainChunks([7, 7], 7);
    EveryRunCompleteIff(addr, chunks, upTo);
    NotGot(addr, chunks, upTo);
  }

  lemma NotGot(addr: nat, chunks: seq<FinalFile>, upTo: seq<nat>)
    requires |chunks| == 2 && upTo == [1, 2]
    ensures !Gets(addr, chunks, 0, false, upTo, 1)
  {
    var bin := HasFile(addr, chunks, 0, false, 1);
    assert upTo[1..] == [2] && [2][1..] == [];
    assert !Gets(addr, chunks, NextK(1, bin, 2), HasFile(addr, chunks, 1, bin, 2), [], 1);
    assert !Gets(addr, chunks, 1, bin, [2], 1);
  }

  /** The second of these freshens alone. */
  lemma ProductionLoses() returns (f: Files, chunks: seq<FinalFile>, addr: nat)
    ensures Real(chunks) && |chunks| == 2 && f.bin.Some? && f.last == Some(EndOf(chunks, 1))
    ensures Apps(Freshen(f, addr, chunks).bin) != Apps(f.bin) + RowsFrom(chunks, addr, 1)
  {
    SevenAndEight();
    addr := 7;
    chunks := PlainChunks([7, 7], 7);
    f := Seeded(addr, chunks);
    ProductionCompleteIff(f, addr, chunks, 1);
    assert Even(1, 1);
  }

  // ----- freshens that do not -----

  /** A production monitor to which the last of three chunks is offered, with rows of it. */
  lemma Offered3() returns (f: Files, chunks: seq<FinalFile>, addr: nat)
    ensures Real(chunks) && |chunks| == 3 && Unstaged(f) && f.bin.Some? && Scan(chunks[2].lines, addr) != []
    ensures Ranges(chunks) && Faithful(chunks[2]) && Possible(VisitAll(f, Monitor(addr, false), chunks[..2]), chunks[2])
  {
    SevenAndEight();
    addr := 7;
    chunks := PlainChunks([7, 8, 7], 7);
    f := Seeded(addr, chunks);
    FaithfulAt(chunks, 2);
    var m := Monitor(addr, false);
    forall j | 0 <= j < 2 ensures !Possible(f, chunks[..2][j]) {
    }
    IdleVisits(f, m, chunks[..2]);
  }

  /** A failure or an exit after its rows were written and before its watermark was: running again doubles them. */
  lemma RerunDoubles() returns (f: Files, chunks: seq<FinalFile>, addr: nat)
    ensures Real(chunks) && |chunks| == 3 && Unstaged(f) && f.bin.Some?
    ensures var m := Monitor(addr, false);
            Apps(VisitAll(StoppedAt(f, m, chunks, 2, Written), m, chunks).bin) != Apps(VisitAll(f, m, chunks).bin)
    ensures Apps(Freshen(ExitState(f, addr, chunks, 2, Written), addr, chunks).bin)
            != Apps(Freshen(f, addr, chunks).bin)
  {
    f, chunks, addr := Offered3();
    RerunRightIff(f, addr, chunks, 2, Written);
    ExitRightIff(f, addr, chunks, 2, Written);
  }

  /** A quit before its turn: running again loses its rows. */
  lemma QuitLoses() returns (f: Files, chunks: seq<FinalFile>, addr: nat)
    ensures Real(chunks) && |chunks| == 3 && Unstaged(f) && f.bin.Some?
    ensures var m := Monitor(addr, false);
            var quit := Effect(VisitAll(f, m, chunks[..2]), m, chunks[2], Untouched, true);
            Apps(VisitAll(quit, m, chunks).bin) != Apps(VisitAll(f, m, chunks).bin)
  {
    f, chunks, addr := Offered3();
    QuitRightIff(f, addr, chunks, 2, Untouched);
  }

  /** An exit between the moves of the two files of a new monitor: running again doubles its rows. */
  lemma MoveExitDoubles() returns (chunks: seq<FinalFile>, addr: nat)
    ensures Real(chunks) && |chunks| == 1
    ensures Apps(Freshen(HalfMoved(NewMonitor(), addr, chunks), addr, chunks).bin)
            != Apps(Freshen(NewMonitor(), addr, chunks).bin)
  {
    SevenAndEight();
    addr := 7;
    chunks := PlainChunks([7], 7);
    var f := NewMonitor();
    MoveExitRightIff(f, addr, chunks, 0);
    StagingFile(f, Monitor(addr, true), chunks);
    FaithfulAt(chunks, 0);
  }

  /** A quit seen by a new monitor right after its rows of the first chunk were written: the next chunk is lost. */
  lemma StagedQuitLoses() returns (chunks: seq<FinalFile>, addr: nat)
    ensures Real(chunks) && |chunks| == 2
    ensures var m := Monitor(addr, true);
            var after := MoveToProduction(Effect(VisitAll(NewMonitor(), m, chunks[..0]), m, chunks[0], Written, true));
            Apps(Freshen(after, addr, chunks).bin) != Apps(Freshen(NewMonitor(), addr, chunks).bin)
  {
    SevenAndEight();
    addr := 7;
    chunks := PlainChunks([7, 7], 7);
    StagedQuitRightIff(NewMonitor(), addr, chunks, 0, Written);
  }
}
