/** process_freshen: the visit of all finalized chunks on behalf of a set of monitors. */
module Freshener {
  import opened Util
  import opened Chain
  import opened Index
  import opened Monitors
  import Bloom

  datatype Stats = Stats(
    nFiles: nat, nSkipped: nat, nChecked: nat, nBloomMisses: nat, nBloomHits: nat,
    nPositive: nat, nFalsePositive: nat, nTotalHits: nat)

  /** How the loop over the possible monitors ends early: by a request to quit before monitor `p`, because
      the file of monitor `p` cannot be opened, or because the chunk cannot be locked or read, which is tried
      once the first file is open. */
  datatype Stop = Never | QuitAt(p: nat) | NoMonitorAt(p: nat) | NoChunk

  /** What a visit of one chunk meets: whether the chunk could be fetched, how the loop ends, the last poll. */
  datatype Visit = Visit(fetched: bool, stop: Stop, quit: bool)

  predicate RangesIntersect(a: (nat, nat), b: (nat, nat)) {
    !(a.1 < b.0 || a.0 > b.1)
  }

  // ----- how many records the monitors hold -----

  function Size(f: Files): nat {
    |Apps(f.bin)| + |Apps(f.stagedBin)|
  }

  function Held(files: seq<Files>): nat {
    if files == [] then 0 else Held(files[..|files| - 1]) + Size(files[|files| - 1])
  }

  lemma {:induction false} HeldUpdate(files: seq<Files>, k: nat, f: Files)
    requires k < |files|
    ensures Held(files[k := f]) == Held(files) - Size(files[k]) + Size(f)
    decreases |files|
  {
    var n := |files| - 1;
    if k == n {
      assert files[k := f][..n] == files[..n];
    } else {
      HeldUpdate(files[..n], k, f);
      assert files[k := f][..n] == files[..n][k := f];
    }
  }

  // ----- what a visit does to all possible monitors -----

  /** Positions in the list of monitors, each once. */
  predicate Positions(poss: seq<nat>, n: nat) {
    && (forall p :: 0 <= p < |poss| ==> poss[p] < n)
    && (forall p, q :: 0 <= p < q < |poss| ==> poss[p] != poss[q])
  }

  ghost predicate Hits(c: FinalFile, m: Monitor) {
    Bloom.Member(c.filters, m.addr)
  }

  /** A monitor before number `p` hits. */
  ghost predicate HitBefore(c: FinalFile, ms: seq<Monitor>, poss: seq<nat>, p: nat)
    requires Positions(poss, |ms|) && p <= |poss|
  {
    exists q :: 0 <= q < p && Hits(c, ms[poss[q]])
  }

  ghost predicate AnyHit(c: FinalFile, ms: seq<Monitor>, poss: seq<nat>)
    requires Positions(poss, |ms|)
  {
    exists p :: 0 <= p < |poss| && Hits(c, ms[poss[p]])
  }

  /** The visit fails inside the loop: a monitor whose bloom hit, or the chunk itself, cannot be opened. */
  ghost predicate Fails(c: FinalFile, ms: seq<Monitor>, poss: seq<nat>, v: Visit)
    requires Positions(poss, |ms|)
  {
    match v.stop
    case NoMonitorAt(q) => q < |poss| && Hits(c, ms[poss[q]])
    case NoChunk => AnyHit(c, ms, poss)
    case _ => false
  }

  /** The visit returns with an error, the chunk or a monitor's file being out of reach. */
  ghost predicate VisitFails(files: seq<Files>, c: FinalFile, ms: seq<Monitor>, v: Visit)
    requires |files| == |ms|
  {
    var poss := PossibleOnes(files, c);
    AnyHit(c, ms, poss) && (!v.fetched || Fails(c, ms, poss, v))
  }

  /** How far the loop gets with possible monitor number `p`. */
  ghost function Reached(c: FinalFile, ms: seq<Monitor>, poss: seq<nat>, v: Visit, p: nat): Reach
    requires Positions(poss, |ms|) && p < |poss|
  {
    if !v.fetched then Untouched
    else match v.stop
      case Never => Written
      case QuitAt(q) => if p < q then Written else Untouched
      case NoMonitorAt(q) => if p < q || !Fails(c, ms, poss, v) then Written else Untouched
      case NoChunk => if HitBefore(c, ms, poss, p) then Untouched else Opened
  }

  /** The watermarks move: nothing hit, or the loop ended other than by a failure. */
  ghost predicate Advances(c: FinalFile, ms: seq<Monitor>, poss: seq<nat>, v: Visit)
    requires Positions(poss, |ms|)
  {
    !AnyHit(c, ms, poss) || (v.fetched && !Fails(c, ms, poss, v))
  }

  /** Only the files of the monitors at these positions differ. */
  predicate Elsewhere(before: seq<Files>, after: seq<Files>, poss: seq<nat>) {
    |after| == |before| && forall i :: 0 <= i < |before| && i !in poss ==> after[i] == before[i]
  }

  /** The first `n` of the positions have got their new files `to`, the others still have their old ones. */
  predicate Progress(before: seq<Files>, after: seq<Files>, to: seq<Files>, poss: seq<nat>, n: nat)
    requires |to| == |poss| && Positions(poss, |before|)
  {
    && Elsewhere(before, after, poss)
    && forall p :: 0 <= p < |poss| ==> after[poss[p]] == if p < n then to[p] else before[poss[p]]
  }

  lemma ProgressStep(before: seq<Files>, after: seq<Files>, to: seq<Files>, poss: seq<nat>, n: nat)
    requires |to| == |poss| && Positions(poss, |before|) && n < |poss| && Progress(before, after, to, poss, n)
    ensures Progress(before, after[poss[n] := to[n]], to, poss, n + 1)
  {
    var next := after[poss[n] := to[n]];
    forall p | 0 <= p < |poss| ensures next[poss[p]] == if p < n + 1 then to[p] else before[poss[p]] {
      if p != n { assert poss[p] != poss[n]; }
    }
  }

  /** The files of the possible monitors after the loop. */
  ghost function Appended(before: seq<Files>, c: FinalFile, ms: seq<Monitor>, poss: seq<nat>,
                          v: Visit): (to: seq<Files>)
    requires |before| == |ms| && Positions(poss, |ms|)
    ensures |to| == |poss|
    ensures forall p :: 0 <= p < |poss| ==>
              to[p] == Effect(before[poss[p]], ms[poss[p]], c, Reached(c, ms, poss, v, p), false)
  {
    seq(|poss|, p requires 0 <= p < |poss| =>
                  Effect(before[poss[p]], ms[poss[p]], c, Reached(c, ms, poss, v, p), false))
  }

  /** Who is written: no one if the chunk cannot be fetched; without an early end every monitor whose bloom hit; if
      the user quits, or the file of a monitor cannot be opened, those before it; if the chunk cannot be read none,
      but the first file is created. */
  lemma AppendedIs(before: seq<Files>, c: FinalFile, ms: seq<Monitor>, poss: seq<nat>, v: Visit, p: nat)
    requires |before| == |ms| && Positions(poss, |ms|) && p < |poss|
    ensures var f, m, to := before[poss[p]], ms[poss[p]], Appended(before, c, ms, poss, v)[p];
            var full := Append(f, m.staging, Scan(c.lines, m.addr));
            if !v.fetched || !Hits(c, m) then to == f
            else if Harmless(c, ms, poss, v) then to == full
            else match v.stop
              case QuitAt(q) => to == (if p < q then full else f)
              case NoMonitorAt(q) => to == (if p < q then full else f)
              case _ => to == if HitBefore(c, ms, poss, p) then f else Append(f, m.staging, [])
  {
    assert Hits(c, ms[poss[p]]) && v.stop.NoChunk? ==> !Harmless(c, ms, poss, v);
  }

  /** If nothing is to change from position `n` on, the loop may stop there. */
  lemma ProgressEnds(before: seq<Files>, after: seq<Files>, to: seq<Files>, poss: seq<nat>, n: nat)
    requires |to| == |poss| && Positions(poss, |before|) && Progress(before, after, to, poss, n)
    requires forall p :: n <= p < |poss| ==> to[p] == before[poss[p]]
    ensures Progress(before, after, to, poss, |poss|)
  {
  }

  ghost function Advanced(before: seq<Files>, c: FinalFile, ms: seq<Monitor>, poss: seq<nat>): (to: seq<Files>)
    requires |before| == |ms| && Positions(poss, |ms|)
    ensures |to| == |poss| && forall p :: 0 <= p < |poss| ==> to[p] == Advance(before[poss[p]], ms[poss[p]].staging, c)
  {
    seq(|poss|, p requires 0 <= p < |poss| => Advance(before[poss[p]], ms[poss[p]].staging, c))
  }

  /** The files of all monitors after a visit. */
  ghost predicate Visited(before: seq<Files>, after: seq<Files>, c: FinalFile, ms: seq<Monitor>,
                          poss: seq<nat>, v: Visit)
    requires |before| == |ms| && Positions(poss, |ms|)
  {
    && Elsewhere(before, after, poss)
    && forall p :: 0 <= p < |poss| ==>
         after[poss[p]] == Effect(before[poss[p]], ms[poss[p]], c, Reached(c, ms, poss, v, p), Advances(c, ms, poss, v))
  }

  /** The monitors that still have to see this chunk, in list order. */
  function PossibleOnes(files: seq<Files>, c: FinalFile): (poss: seq<nat>)
    ensures Positions(poss, |files|) && |poss| <= |files|
    ensures forall i :: 0 <= i < |files| ==> (i in poss <==> Possible(files[i], c))
  {
    if files == [] then []
    else
      var n := |files| - 1;
      PossibleOnes(files[..n], c) + (if Possible(files[n], c) then [n] else [])
  }

  lemma {:induction false} PossiblesAscend(files: seq<Files>, c: FinalFile, p: nat, q: nat)
    requires p < q < |PossibleOnes(files, c)|
    ensures PossibleOnes(files, c)[p] < PossibleOnes(files, c)[q]
    decreases |files|
  {
    var n := |files| - 1;
    var front := PossibleOnes(files[..n], c);
    if q < |front| { PossiblesAscend(files[..n], c, p, q); }
  }

  /** The loop over the possible monitors gets to all whose bloom hit. */
  ghost predicate Harmless(c: FinalFile, ms: seq<Monitor>, poss: seq<nat>, v: Visit)
    requires Positions(poss, |ms|)
  {
    match v.stop
    case Never => true
    case QuitAt(q) => forall p :: q <= p < |poss| ==> !Hits(c, ms[poss[p]])
    case NoMonitorAt(q) => q >= |poss| || !Hits(c, ms[poss[q]])
    case NoChunk => !AnyHit(c, ms, poss)
  }

  /** Nothing that goes wrong in the visit matters: if no filter hits, neither the chunk nor a monitor's file is
      opened. */
  ghost predicate Fine(files: seq<Files>, c: FinalFile, ms: seq<Monitor>, v: Visit)
    requires |files| == |ms|
  {
    var poss := PossibleOnes(files, c);
    !v.quit && (AnyHit(c, ms, poss) ==> v.fetched && Harmless(c, ms, poss, v))
  }

  /** The visit ends the run: by a request to quit or by a failure. */
  ghost predicate Stops(files: seq<Files>, c: FinalFile, ms: seq<Monitor>, v: Visit)
    requires |files| == |ms|
  {
    v.quit || VisitFails(files, c, ms, v)
  }

  lemma FineGoesOn(files: seq<Files>, c: FinalFile, ms: seq<Monitor>, v: Visit)
    requires |files| == |ms| && Fine(files, c, ms, v)
    ensures !Stops(files, c, ms, v)
  {
  }

  /** Without a request to quit a chunk that is fetched, or that the filters keep all monitors out of, is enough. */
  lemma EnoughIsFine(files: seq<Files>, c: FinalFile, ms: seq<Monitor>, v: Visit)
    requires |files| == |ms| && !v.quit && v.stop.Never?
    requires v.fetched || forall i :: 0 <= i < |ms| ==> !Hits(c, ms[i])
    ensures Fine(files, c, ms, v)
  {
  }

  /** The chunks that the list range lets through. */
  function InRange(chunks: seq<FinalFile>, listRange: (nat, nat)): seq<FinalFile> {
    if chunks == [] then []
    else
      var n := |chunks| - 1;
      InRange(chunks[..n], listRange)
      + (if RangesIntersect(listRange, (chunks[n].first, chunks[n].last)) then [chunks[n]] else [])
  }

  lemma {:induction false} WatermarkGrows(f: Files, m: Monitor, chunks: seq<FinalFile>)
    requires forall a :: 0 <= a < |chunks| ==> chunks[a].first <= chunks[a].last
    ensures Watermark(f) <= Watermark(VisitAll(f, m, chunks))
    decreases |chunks|
  {
    if chunks != [] { WatermarkGrows(f, m, chunks[..|chunks| - 1]); }
  }

  /** A list range that covers all watermarks and chunks only saves work: what it skips is not possible for
      any monitor. */
  lemma {:induction false} RangeSavesWork(f: Files, m: Monitor, chunks: seq<FinalFile>, listRange: (nat, nat))
    requires forall i :: 0 <= i < |chunks| ==> chunks[i].first <= chunks[i].last && chunks[i].first <= listRange.1
    requires listRange.0 <= Watermark(f)
    ensures VisitAll(f, m, InRange(chunks, listRange)) == VisitAll(f, m, chunks)
    decreases |chunks|
  {
    if chunks != [] {
      var n := |chunks| - 1;
      RangeSavesWork(f, m, chunks[..n], listRange);
      WatermarkGrows(f, m, chunks[..n]);
      InRangeStep(f, m, chunks, listRange);
    }
  }

  lemma InRangeStep(f: Files, m: Monitor, chunks: seq<FinalFile>, listRange: (nat, nat))
    requires chunks != []
    ensures var n := |chunks| - 1;
            var c, g := chunks[n], VisitAll(f, m, InRange(chunks[..n], listRange));
            VisitAll(f, m, InRange(chunks, listRange))
            == if RangesIntersect(listRange, (c.first, c.last)) && Possible(g, c)
               then Effect(g, m, c, Written, true)
               else g
  {
    var n := |chunks| - 1;
    var before, c := InRange(chunks[..n], listRange), chunks[n];
    if RangesIntersect(listRange, (c.first, c.last)) {
      assert (before + [c])[..|before|] == before;
    } else {
      assert before + [] == before;
    }
  }

  /** In a fine visit a possible monitor gets the full effect and any other none. */
  lemma FineEffect(before: seq<Files>, after: seq<Files>, c: FinalFile, ms: seq<Monitor>, v: Visit, i: nat)
    requires |before| == |ms| && i < |ms| && Fine(before, c, ms, v)
    requires Visited(before, after, c, ms, PossibleOnes(before, c), v)
    ensures after[i] == if Possible(before[i], c) then Effect(before[i], ms[i], c, Written, true) else before[i]
  {
    var poss := PossibleOnes(before, c);
    if i in poss {
      var p :| 0 <= p < |poss| && poss[p] == i;
      assert Advances(c, ms, poss, v);
      if Hits(c, ms[i]) {
        assert Reached(c, ms, poss, v, p) == Written;
      }
    }
  }

  /** The files of all monitors after fine visits of these chunks. */
  ghost function AllAfter(before: seq<Files>, ms: seq<Monitor>, chunks: seq<FinalFile>): (after: seq<Files>)
    requires |before| == |ms|
    ensures |after| == |before|
    ensures forall i :: 0 <= i < |after| ==> after[i] == VisitAll(before[i], ms[i], chunks)
  {
    seq(|before|, i requires 0 <= i < |before| => VisitAll(before[i], ms[i], chunks))
  }

  /** The visit of a chunk in the list range is fine, or that of one outside hears no request to quit. */
  ghost predicate FineIn(files: seq<Files>, c: FinalFile, ms: seq<Monitor>, listRange: (nat, nat), v: Visit)
    requires |files| == |ms|
  {
    if RangesIntersect(listRange, (c.first, c.last)) then Fine(files, c, ms, v) else !v.quit
  }

  ghost predicate StopsIn(files: seq<Files>, c: FinalFile, ms: seq<Monitor>, listRange: (nat, nat), v: Visit)
    requires |files| == |ms|
  {
    if RangesIntersect(listRange, (c.first, c.last)) then Stops(files, c, ms, v) else v.quit
  }

  /** All visits before number `a` are fine, each with the files the ones before it leave. */
  ghost predicate FineBefore(before: seq<Files>, ms: seq<Monitor>, chunks: seq<FinalFile>, listRange: (nat, nat),
                             visits: seq<Visit>, a: nat)
    requires |before| == |ms| && a <= |chunks| == |visits|
  {
    a > 0 ==>
      && FineBefore(before, ms, chunks, listRange, visits, a - 1)
      && FineIn(AllAfter(before, ms, InRange(chunks[..a - 1], listRange)), chunks[a - 1], ms, listRange, visits[a - 1])
  }

  lemma AllVisitedStep(before: seq<Files>, mid: seq<Files>, after: seq<Files>, ms: seq<Monitor>,
                       chunks: seq<FinalFile>, a: nat, listRange: (nat, nat), v: Visit)
    requires |before| == |mid| == |ms| && a < |chunks| && FineIn(mid, chunks[a], ms, listRange, v)
    requires mid == AllAfter(before, ms, InRange(chunks[..a], listRange))
    requires VisitedFile(mid, after, chunks[a], ms, listRange, v)
    ensures after == AllAfter(before, ms, InRange(chunks[..a + 1], listRange))
  {
    assert chunks[..a + 1][..a] == chunks[..a];
    assert |after| == |before|;
    forall i | 0 <= i < |after| ensures after[i] == VisitAll(before[i], ms[i], InRange(chunks[..a + 1], listRange)) {
      InRangeStep(before[i], ms[i], chunks[..a + 1], listRange);
      if RangesIntersect(listRange, (chunks[a].first, chunks[a].last)) {
        FineEffect(mid, after, chunks[a], ms, v, i);
      }
    }
  }

  /** The visits before number `a` are fine, and that one ends the run. */
  ghost predicate StopsFirst(before: seq<Files>, ms: seq<Monitor>, chunks: seq<FinalFile>, listRange: (nat, nat),
                             visits: seq<Visit>, a: nat)
    requires |before| == |ms| && a < |chunks| == |visits|
  {
    && FineBefore(before, ms, chunks, listRange, visits, a)
    && StopsIn(AllAfter(before, ms, InRange(chunks[..a], listRange)), chunks[a], ms, listRange, visits[a])
  }

  /** The chunk is out of range or not possible for any monitor. */
  predicate Skips(files: seq<Files>, c: FinalFile, listRange: (nat, nat)) {
    !RangesIntersect(listRange, (c.first, c.last)) || PossibleOnes(files, c) == []
  }

  /** One more file, skipped or checked. */
  predicate Counted(before: Stats, after: Stats, skipped: bool) {
    && after.nFiles == before.nFiles + 1
    && after.nSkipped == before.nSkipped + (if skipped then 1 else 0)
    && after.nChecked == before.nChecked + (if skipped then 0 else 1)
  }

  /** What a visit of one bloom file does to all monitors. */
  ghost predicate VisitedFile(before: seq<Files>, after: seq<Files>, c: FinalFile, ms: seq<Monitor>,
                              listRange: (nat, nat), v: Visit)
    requires |before| == |ms|
  {
    if RangesIntersect(listRange, (c.first, c.last))
    then Visited(before, after, c, ms, PossibleOnes(before, c), v)
    else after == before
  }

  /** The first `a` visits are done and the run goes on. */
  ghost predicate VisitedUpTo(before: seq<Files>, files: seq<Files>, ms: seq<Monitor>, chunks: seq<FinalFile>,
                              listRange: (nat, nat), visits: seq<Visit>, a: nat)
    requires |before| == |ms| && a <= |chunks| == |visits|
  {
    && (FineBefore(before, ms, chunks, listRange, visits, a) ==>
          files == AllAfter(before, ms, InRange(chunks[..a], listRange)))
    && forall b :: 0 <= b < a ==> !StopsFirst(before, ms, chunks, listRange, visits, b)
  }

  /** The run is over: every monitor has seen all chunks if all visits were fine, or the chunks before the first
      visit that was not, and that visit, if that ended the run. */
  ghost predicate VisitedOutcome(before: seq<Files>, files: seq<Files>, ms: seq<Monitor>, chunks: seq<FinalFile>,
                                 listRange: (nat, nat), visits: seq<Visit>)
    requires |before| == |ms| && |chunks| == |visits|
  {
    && (FineBefore(before, ms, chunks, listRange, visits, |chunks|) ==>
          files == AllAfter(before, ms, InRange(chunks, listRange)))
    && forall a :: 0 <= a < |chunks| && StopsFirst(before, ms, chunks, listRange, visits, a) ==>
         VisitedFile(AllAfter(before, ms, InRange(chunks[..a], listRange)), files, chunks[a], ms, listRange, visits[a])
  }

  lemma VisitsStart(before: seq<Files>, ms: seq<Monitor>, chunks: seq<FinalFile>, listRange: (nat, nat),
                    visits: seq<Visit>)
    requires |before| == |ms| && |chunks| == |visits|
    ensures VisitedUpTo(before, before, ms, chunks, listRange, visits, 0)
  {
    assert chunks[..0] == [];
    assert before == AllAfter(before, ms, []);
  }

  lemma VisitsGoOn(before: seq<Files>, mid: seq<Files>, after: seq<Files>, ms: seq<Monitor>, chunks: seq<FinalFile>,
                   listRange: (nat, nat), visits: seq<Visit>, a: nat)
    requires |before| == |mid| == |ms| && a < |chunks| == |visits|
    requires VisitedUpTo(before, mid, ms, chunks, listRange, visits, a)
    requires VisitedFile(mid, after, chunks[a], ms, listRange, visits[a])
    requires !StopsIn(mid, chunks[a], ms, listRange, visits[a])
    ensures VisitedUpTo(before, after, ms, chunks, listRange, visits, a + 1)
  {
    if FineBefore(before, ms, chunks, listRange, visits, a + 1) {
      assert FineBefore(before, ms, chunks, listRange, visits, a);
      AllVisitedStep(before, mid, after, ms, chunks, a, listRange, visits[a]);
    }
  }

  /** No visit among fine ones ends the run. */
  lemma {:induction false} FineUpTo(before: seq<Files>, ms: seq<Monitor>, chunks: seq<FinalFile>, listRange: (nat, nat),
                 visits: seq<Visit>, a: nat, b: nat)
    requires |before| == |ms| && a < b <= |chunks| == |visits|
    requires FineBefore(before, ms, chunks, listRange, visits, b)
    ensures FineBefore(before, ms, chunks, listRange, visits, a)
    ensures !StopsIn(AllAfter(before, ms, InRange(chunks[..a], listRange)), chunks[a], ms, listRange, visits[a])
  {
    if b > a + 1 {
      FineUpTo(before, ms, chunks, listRange, visits, a, b - 1);
    } else {
      var mid := AllAfter(before, ms, InRange(chunks[..a], listRange));
      assert FineIn(mid, chunks[a], ms, listRange, visits[a]);
    }
  }

  lemma VisitsStop(before: seq<Files>, mid: seq<Files>, after: seq<Files>, ms: seq<Monitor>, chunks: seq<FinalFile>,
                   listRange: (nat, nat), visits: seq<Visit>, a: nat)
    requires |before| == |mid| == |ms| && a < |chunks| == |visits|
    requires VisitedUpTo(before, mid, ms, chunks, listRange, visits, a)
    requires VisitedFile(mid, after, chunks[a], ms, listRange, visits[a])
    requires StopsIn(mid, chunks[a], ms, listRange, visits[a])
    ensures VisitedOutcome(before, after, ms, chunks, listRange, visits)
  {
    forall b | a < b <= |chunks| ensures !FineBefore(before, ms, chunks, listRange, visits, b) {
      if FineBefore(before, ms, chunks, listRange, visits, b) {
        FineUpTo(before, ms, chunks, listRange, visits, a, b);
      }
    }
  }

  lemma VisitsEnd(before: seq<Files>, files: seq<Files>, ms: seq<Monitor>, chunks: seq<FinalFile>,
                  listRange: (nat, nat), visits: seq<Visit>)
    requires |before| == |ms| && |chunks| == |visits|
    requires VisitedUpTo(before, files, ms, chunks, listRange, visits, |chunks|)
    ensures VisitedOutcome(before, files, ms, chunks, listRange, visits)
  {
    assert chunks[..|chunks|] == chunks;
  }

  /** One more visit. */
  lemma VisitsStep(before: seq<Files>, mid: seq<Files>, after: seq<Files>, ms: seq<Monitor>, chunks: seq<FinalFile>,
                   listRange: (nat, nat), visits: seq<Visit>, a: nat, goOn: bool)
    requires |before| == |mid| == |ms| && a < |chunks| == |visits| && Fits(mid, ms)
    requires VisitedUpTo(before, mid, ms, chunks, listRange, visits, a)
    requires VisitedFile(mid, after, chunks[a], ms, listRange, visits[a])
    requires goOn <==> !StopsIn(mid, chunks[a], ms, listRange, visits[a])
    ensures Fits(after, ms)
    ensures if goOn then VisitedUpTo(before, after, ms, chunks, listRange, visits, a + 1)
            else VisitedOutcome(before, after, ms, chunks, listRange, visits)
  {
    VisitedFits(mid, after, chunks[a], ms, listRange, visits[a]);
    if goOn {
      VisitsGoOn(before, mid, after, ms, chunks, listRange, visits, a);
    } else {
      VisitsStop(before, mid, after, ms, chunks, listRange, visits, a);
    }
  }

  /** A monitor on the stage has no production file yet. */
  predicate Fits(files: seq<Files>, ms: seq<Monitor>) {
    |files| == |ms| && forall i :: 0 <= i < |ms| && ms[i].staging ==> files[i].bin.None?
  }

  lemma VisitedFits(before: seq<Files>, after: seq<Files>, c: FinalFile, ms: seq<Monitor>, listRange: (nat, nat),
                    v: Visit)
    requires Fits(before, ms) && VisitedFile(before, after, c, ms, listRange, v)
    ensures Fits(after, ms)
  {
    if RangesIntersect(listRange, (c.first, c.last)) {
      var poss := PossibleOnes(before, c);
      forall i | 0 <= i < |ms| && ms[i].staging ensures after[i].bin.None? {
        if i in poss {
          var p :| 0 <= p < |poss| && poss[p] == i;
          assert after[poss[p]].bin == before[poss[p]].bin;
        }
      }
    }
  }

  function Moved(files: seq<Files>, ms: seq<Monitor>): (out: seq<Files>)
    requires |files| == |ms|
    ensures |out| == |files|
    ensures forall i :: 0 <= i < |out| ==> out[i] == if ms[i].staging then MoveToProduction(files[i]) else files[i]
  {
    seq(|files|, i requires 0 <= i < |files| => if ms[i].staging then MoveToProduction(files[i]) else files[i])
  }

  /** The move to production neither loses nor invents a record. */
  lemma {:induction false} MovedHolds(files: seq<Files>, ms: seq<Monitor>)
    requires Fits(files, ms)
    ensures Held(Moved(files, ms)) == Held(files)
    decreases |files|
  {
    if files != [] {
      var n := |files| - 1;
      MovedHolds(files[..n], ms[..n]);
      assert Moved(files, ms)[..n] == Moved(files[..n], ms[..n]);
      assert Size(Moved(files, ms)[n]) == Size(files[n]);
    }
  }

  /** Only the counters of the monitor loop differ. */
  predicate SameCounts(before: Stats, after: Stats) {
    after == before.(nPositive := after.nPositive, nFalsePositive := after.nFalsePositive,
                     nTotalHits := after.nTotalHits)
  }

  /** The loop has come to monitor `mo` without an early end. */
  ghost predicate Going(c: FinalFile, ms: seq<Monitor>, poss: seq<nat>, v: Visit, mo: nat)
    requires Positions(poss, |ms|) && mo <= |poss|
  {
    match v.stop
    case Never => true
    case QuitAt(q) => mo <= q || |poss| <= q
    case NoMonitorAt(q) => mo <= q || !Fails(c, ms, poss, v)
    case NoChunk => !HitBefore(c, ms, poss, mo)
  }

  /** At an early end the monitors from `mo` on keep their files. */
  lemma StopsHere(before: seq<Files>, c: FinalFile, ms: seq<Monitor>, poss: seq<nat>, v: Visit, mo: nat)
    requires |before| == |ms| && Positions(poss, |ms|) && mo < |poss|
    requires v.stop == QuitAt(mo) || (v.stop == NoMonitorAt(mo) && Hits(c, ms[poss[mo]]))
    ensures forall p :: mo <= p < |poss| ==> Appended(before, c, ms, poss, v)[p] == before[poss[p]]
    ensures Fails(c, ms, poss, v) <==> v.stop.NoMonitorAt?
  {
  }

  /** At the first hit of a chunk that cannot be read its monitor's file is created, and no other changes. */
  lemma StopsUnread(before: seq<Files>, c: FinalFile, ms: seq<Monitor>, poss: seq<nat>, v: Visit, mo: nat)
    requires |before| == |ms| && Positions(poss, |ms|) && mo < |poss| && v.fetched
    requires v.stop == NoChunk && Hits(c, ms[poss[mo]]) && !HitBefore(c, ms, poss, mo)
    ensures var to := Appended(before, c, ms, poss, v);
            && to[mo] == Append(before[poss[mo]], ms[poss[mo]].staging, [])
            && (forall p :: mo < p < |poss| ==> to[p] == before[poss[p]])
    ensures Fails(c, ms, poss, v)
  {
    forall p | mo < p < |poss| ensures Reached(c, ms, poss, v, p) == Untouched {
      assert HitBefore(c, ms, poss, p);
    }
  }

  /** Otherwise the monitor gets its rows and the loop goes on. */
  lemma GoesOn(before: seq<Files>, c: FinalFile, ms: seq<Monitor>, poss: seq<nat>, v: Visit, mo: nat)
    requires |before| == |ms| && Positions(poss, |ms|) && mo < |poss| && v.fetched && Going(c, ms, poss, v, mo)
    requires v.stop != QuitAt(mo) && (Hits(c, ms[poss[mo]]) ==> v.stop != NoMonitorAt(mo) && v.stop != NoChunk)
    ensures Going(c, ms, poss, v, mo + 1)
    ensures var f, m := before[poss[mo]], ms[poss[mo]];
            Appended(before, c, ms, poss, v)[mo]
            == if Hits(c, m) then Append(f, m.staging, Scan(c.lines, m.addr)) else f
  {
  }

  class Visitor {
    const monitors: seq<Monitor>
    var files: seq<Files>
    var stats: Stats
    ghost var unfetched: nat

    constructor (ms: seq<Monitor>, fs: seq<Files>)
      requires |fs| == |ms| && forall i :: 0 <= i < |ms| ==> IsAddress(ms[i].addr)
      ensures Valid() && monitors == ms && files == fs && stats == Stats(0, 0, 0, 0, 0, 0, 0, 0)
    {
      monitors := ms;
      files := fs;
      stats := Stats(0, 0, 0, 0, 0, 0, 0, 0);
      unfetched := 0;
    }

    ghost predicate Matched()
      reads this
    {
      |files| == |monitors| && forall i :: 0 <= i < |monitors| ==> IsAddress(monitors[i].addr)
    }

    /** Every file is skipped or checked; every checked one is a miss, a hit or could not be fetched. */
    ghost predicate Valid()
      reads this
    {
      && Matched()
      && stats.nFiles == stats.nSkipped + stats.nChecked
      && stats.nChecked == stats.nBloomMisses + stats.nBloomHits + unfetched
    }

    /** Records counted as hits minus records held. */
    ghost function Balance(): int
      reads this
    {
      var held: int := Held(files);
      stats.nTotalHits - held
    }

    /** One turn of the monitor loop: if the bloom hit, look the address up and append what is found. */
    method AppendHits(k: nat, c: FinalFile, hit: bool)
      requires Matched() && Published(c) && k < |monitors|
      modifies this`files, this`stats
      ensures Balance() == old(Balance()) && SameCounts(old(stats), stats)
      ensures var none := !hit || Scan(c.lines, monitors[k].addr) == [];
              && stats.nPositive == old(stats).nPositive + (if none then 0 else 1)
              && stats.nFalsePositive == old(stats).nFalsePositive + (if hit && none then 1 else 0)
      ensures var f, m := old(files)[k], monitors[k];
              files == old(files)[k := if hit then Append(f, m.staging, Scan(c.lines, m.addr)) else f]
    {
      if hit {
        var m := monitors[k];
        var found, items := Lookup(c.table, m.addr, c.lines);
        var f := Append(files[k], m.staging, items);
        HeldUpdate(files, k, f);
        files := files[k := f];
        if found {
          stats := stats.(nPositive := stats.nPositive + 1, nTotalHits := stats.nTotalHits + |items|);
        } else {
          stats := stats.(nFalsePositive := stats.nFalsePositive + 1);
        }
      }
    }

    /** Write the watermark of every possible monitor. */
    method AdvanceAll(poss: seq<nat>, c: FinalFile)
      requires Matched() && Positions(poss, |monitors|)
      modifies this`files
      ensures Matched() && Balance() == old(Balance()) && Elsewhere(old(files), files, poss)
      ensures forall p :: 0 <= p < |poss| ==>
                files[poss[p]] == Advance(old(files)[poss[p]], monitors[poss[p]].staging, c)
    {
      ghost var before, to := files, Advanced(files, c, monitors, poss);
      var a := 0;
      while a < |poss|
        invariant a <= |poss| && |files| == |before| && Balance() == old(Balance())
        invariant Progress(before, files, to, poss, a)
      {
        var k := poss[a];
        var f := Advance(files[k], monitors[k].staging, c);
        HeldUpdate(files, k, f);
        ProgressStep(before, files, to, poss, a);
        files := files[k := f];
        a := a + 1;
      }
    }

    /** The bloom test of every possible monitor. */
    method TestBlooms(poss: seq<nat>, c: FinalFile) returns (hits: seq<bool>, any: bool)
      requires Positions(poss, |monitors|)
      ensures |hits| == |poss| && forall p :: 0 <= p < |poss| ==> (hits[p] <==> Hits(c, monitors[poss[p]]))
      ensures any <==> AnyHit(c, monitors, poss)
    {
      hits, any := [], false;
      var a := 0;
      while a < |poss|
        invariant a <= |poss| && |hits| == a
        invariant forall p :: 0 <= p < a ==> (hits[p] <==> Hits(c, monitors[poss[p]]))
        invariant any <==> exists p :: 0 <= p < a && hits[p]
      {
        var hit := Bloom.IsMember(c.filters, monitors[poss[a]].addr);
        hits := hits + [hit];
        any := any || hit;
        a := a + 1;
      }
      if any {
        var p :| 0 <= p < |hits| && hits[p];
        assert Hits(c, monitors[poss[p]]);
      }
    }

    /** Open the file of a monitor, which creates it. */
    method OpenForWriting(k: nat)
      requires Matched() && k < |monitors|
      modifies this`files
      ensures Balance() == old(Balance()) && files == old(files)[k := Append(old(files)[k], monitors[k].staging, [])]
    {
      var f := Append(files[k], monitors[k].staging, []);
      HeldUpdate(files, k, f);
      files := files[k := f];
    }

    /** The loop over the possible monitors; false if it failed. */
    method AppendAll(poss: seq<nat>, c: FinalFile, hits: seq<bool>, v: Visit) returns (ok: bool)
      requires Matched() && Positions(poss, |monitors|) && Published(c) && v.fetched && AnyHit(c, monitors, poss)
      requires |hits| == |poss| && forall p :: 0 <= p < |poss| ==> (hits[p] <==> Hits(c, monitors[poss[p]]))
      modifies this`files, this`stats
      ensures Matched() && Balance() == old(Balance())
      ensures Progress(old(files), files, Appended(old(files), c, monitors, poss, v), poss, |poss|)
      ensures ok <==> !Fails(c, monitors, poss, v)
      ensures SameCounts(old(stats), stats)
    {
      ghost var before, to := files, Appended(files, c, monitors, poss, v);
      var mo := 0;
      while mo < |poss|
        invariant mo <= |poss| && |files| == |before| && Balance() == old(Balance())
        invariant Going(c, monitors, poss, v, mo) && SameCounts(old(stats), stats)
        invariant Progress(before, files, to, poss, mo)
      {
        if v.stop == QuitAt(mo) || (hits[mo] && v.stop == NoMonitorAt(mo)) {
          StopsHere(before, c, monitors, poss, v, mo);
          ProgressEnds(before, files, to, poss, mo);
          return v.stop.QuitAt?;
        }
        ProgressStep(before, files, to, poss, mo);
        if hits[mo] && v.stop == NoChunk {
          StopsUnread(before, c, monitors, poss, v, mo);
          OpenForWriting(poss[mo]);
          ProgressEnds(before, files, to, poss, mo + 1);
          return false;
        }
        GoesOn(before, c, monitors, poss, v, mo);
        AppendHits(poss[mo], c, hits[mo]);
        mo := mo + 1;
      }
      return true;
    }

    /** visitBinaryFile */
    method VisitBinaryFile(poss: seq<nat>, c: FinalFile, v: Visit) returns (ok: bool)
      requires Matched() && Positions(poss, |monitors|) && Published(c)
      requires stats.nFiles == stats.nSkipped + stats.nChecked + 1
      requires stats.nChecked == stats.nBloomMisses + stats.nBloomHits + unfetched
      modifies this
      ensures Valid() && Balance() == old(Balance()) && Visited(old(files), files, c, monitors, poss, v)
      ensures stats.nFiles == old(stats).nFiles && stats.nSkipped == old(stats).nSkipped
      ensures stats.nChecked == old(stats).nChecked + 1
      ensures stats.nBloomMisses == old(stats).nBloomMisses + (if AnyHit(c, monitors, poss) then 0 else 1)
      ensures stats.nBloomHits == old(stats).nBloomHits + (if AnyHit(c, monitors, poss) && v.fetched then 1 else 0)
      ensures ok <==> !AnyHit(c, monitors, poss) || (v.fetched && !Fails(c, monitors, poss, v) && !v.quit)
    {
      stats := stats.(nChecked := stats.nChecked + 1);
      var hits, any := TestBlooms(poss, c);
      if !any {
        AdvanceAll(poss, c);
        stats := stats.(nBloomMisses := stats.nBloomMisses + 1);
        return true;
      }
      if !v.fetched {
        unfetched := unfetched + 1;
        return false;
      }
      stats := stats.(nBloomHits := stats.nBloomHits + 1);
      ok := AppendAll(poss, c, hits, v);
      if !ok {
        return false;
      }
      AdvanceAll(poss, c);
      return !v.quit;
    }

    /** The monitors to consider for this chunk. */
    method FindPossibles(c: FinalFile) returns (poss: seq<nat>)
      ensures poss == PossibleOnes(files, c)
    {
      poss := [];
      var i := 0;
      while i < |files|
        invariant i <= |files| && poss == PossibleOnes(files[..i], c)
      {
        assert files[..i + 1][..i] == files[..i];
        if Possible(files[i], c) {
          poss := poss + [i];
        }
        i := i + 1;
      }
      assert files[..i] == files;
    }

    /** visitFinalIndexFiles on one bloom file. */
    method VisitFinalIndexFile(c: FinalFile, listRange: (nat, nat), v: Visit) returns (goOn: bool)
      requires Valid() && Published(c)
      modifies this
      ensures Valid() && Balance() == old(Balance())
      ensures VisitedFile(old(files), files, c, monitors, listRange, v)
      ensures var skipped := Skips(old(files), c, listRange);
              Counted(old(stats), stats, skipped) && (skipped ==> files == old(files))
      ensures goOn <==> !v.quit && (Skips(old(files), c, listRange) || !VisitFails(old(files), c, monitors, v))
      ensures goOn <==> !StopsIn(old(files), c, monitors, listRange, v)
    {
      stats := stats.(nFiles := stats.nFiles + 1);
      if !RangesIntersect(listRange, (c.first, c.last)) {
        stats := stats.(nSkipped := stats.nSkipped + 1);
        return !v.quit;
      }
      var poss := FindPossibles(c);
      if poss == [] {
        stats := stats.(nSkipped := stats.nSkipped + 1);
        return !v.quit;
      }
      goOn := VisitBinaryFile(poss, c, v);
      goOn := goOn && !v.quit;
    }

    /** forEveryFileInFolder over the bloom folder. If all visits are fine, every monitor has seen every chunk in
        the list range; if the first visit that is not fine ends the run, every monitor has seen the chunks before
        it, and that visit; whatever goes wrong, counted and appended records agree. */
    method VisitAllFiles(chunks: seq<FinalFile>, listRange: (nat, nat), visits: seq<Visit>)
      requires Valid() && Fits(files, monitors)
      requires |visits| == |chunks| && forall i :: 0 <= i < |chunks| ==> Published(chunks[i])
      modifies this
      ensures Valid() && Fits(files, monitors) && Balance() == old(Balance())
      ensures VisitedOutcome(old(files), files, monitors, chunks, listRange, visits)
    {
      ghost var before := files;
      VisitsStart(before, monitors, chunks, listRange, visits);
      var a := 0;
      while a < |chunks|
        invariant a <= |chunks| && Valid() && Fits(files, monitors) && Balance() == old(Balance())
        invariant VisitedUpTo(before, files, monitors, chunks, listRange, visits, a)
      {
        ghost var mid := files;
        var goOn := VisitFinalIndexFile(chunks[a], listRange, visits[a]);
        VisitsStep(before, mid, files, monitors, chunks, listRange, visits, a, goOn);
        if !goOn {
          return;
        }
        a := a + 1;
      }
      VisitsEnd(before, files, monitors, chunks, listRange, visits);
    }
  }

  // ----- a whole freshen -----

  /** getLastVisited: the production watermark, else the block the account was deployed at, or nothing if the
      settings say not to ask for it. A monitor without any file counts as block 0. */
  function LastVisited(f: Files, deployed: Option<nat>): Option<nat> {
    if f.last.Some? then f.last else if f.bin.Some? then deployed else Some(0)
  }

  predicate AnyVisited(fs: seq<Files>, deployed: seq<Option<nat>>)
    requires |deployed| == |fs|
  {
    exists i :: 0 <= i < |fs| && LastVisited(fs[i], deployed[i]).Some?
  }

  /** The smallest last visited block of all monitors that have one; block 0 if none has. */
  predicate IsLeast(fs: seq<Files>, deployed: seq<Option<nat>>, first: nat)
    requires |deployed| == |fs|
  {
    && (forall i :: 0 <= i < |fs| && LastVisited(fs[i], deployed[i]).Some? ==>
        first <= LastVisited(fs[i], deployed[i]).value)
    && if AnyVisited(fs, deployed) then exists i :: 0 <= i < |fs| && LastVisited(fs[i], deployed[i]) == Some(first)
       else first == 0
  }

  /** Where to start. */
  method FirstBlockToVisit(fs: seq<Files>, deployed: seq<Option<nat>>) returns (first: nat)
    requires |deployed| == |fs|
    ensures IsLeast(fs, deployed, first)
  {
    var smallest: Option<nat> := None;
    var a := 0;
    while a < |fs|
      invariant a <= |fs|
      invariant smallest.None? ==> forall i :: 0 <= i < a ==> LastVisited(fs[i], deployed[i]).None?
      invariant smallest.Some? ==> forall i :: 0 <= i < a && LastVisited(fs[i], deployed[i]).Some? ==>
                                     smallest.value <= LastVisited(fs[i], deployed[i]).value
      invariant smallest.Some? ==> exists i :: 0 <= i < a && LastVisited(fs[i], deployed[i]) == smallest
    {
      var here := LastVisited(fs[a], deployed[a]);
      if here.Some? && (smallest.None? || here.value < smallest.value) {
        smallest := here;
      }
      a := a + 1;
    }
    first := if smallest.None? then 0 else smallest.value;
  }

  function Cleaned(f: Files): Files {
    f.(stagedBin := None, stagedLast := None)
  }

  function AllCleaned(fs: seq<Files>): (clean: seq<Files>)
    ensures |clean| == |fs| && forall i :: 0 <= i < |fs| ==> clean[i] == Cleaned(fs[i])
  {
    seq(|fs|, i requires 0 <= i < |fs| => Cleaned(fs[i]))
  }

  /** No request to quit, no monitor or chunk out of reach, and every chunk is fetched that any monitor's filter
      test lets through. */
  ghost predicate Enough(addrs: seq<nat>, chunks: seq<FinalFile>, visits: seq<Visit>)
    requires |chunks| == |visits|
  {
    forall a :: 0 <= a < |chunks| ==>
      && !visits[a].quit && visits[a].stop.Never?
      && (visits[a].fetched || forall i :: 0 <= i < |addrs| ==> !Bloom.Member(chunks[a].filters, addrs[i]))
  }

  /** Parse the addresses, clean the monitor staging folder, visit every chunk, move to production. If
      all chunks are at hand that a filter does not keep the monitors out of, each monitor is freshened as if it were
      alone, over the chunks in the list range. If every binary file has its watermark, these are as good as all
      chunks, and fine visits do; then, if the first visit that is not fine ends the run, each monitor ends where that
      visit left it. Whatever goes wrong, the records counted as hits are the records the monitors have gained. */
  method ProcessFreshen(addrs: seq<nat>, fs: seq<Files>, deployed: seq<Option<nat>>, chunks: seq<FinalFile>,
                        finalized: nat, visits: seq<Visit>)
    returns (out: seq<Files>, stats: Stats, listRange: (nat, nat))
    requires |fs| == |addrs| == |deployed| && forall i :: 0 <= i < |addrs| ==> IsAddress(addrs[i])
    requires |visits| == |chunks| && forall a :: 0 <= a < |chunks| ==>
            Published(chunks[a]) && chunks[a].last <= finalized
    ensures |out| == |fs| && stats.nFiles == stats.nSkipped + stats.nChecked
    ensures stats.nTotalHits == Held(out) - Held(AllCleaned(fs))
    ensures IsLeast(fs, deployed, listRange.0) && listRange.1 == Max(1, finalized)
    ensures Outcome(fs, addrs, chunks, listRange, visits, out)
  {
    var first := FirstBlockToVisit(fs, deployed);
    listRange := (first, Max(1, finalized));
    var ms := MonitorsOf(addrs, fs);
    var visitor := new Visitor(ms, AllCleaned(fs));
    visitor.VisitAllFiles(chunks, listRange, visits);
    stats := visitor.stats;
    out := Moved(visitor.files, ms);
    MovedHolds(visitor.files, ms);
    if Marked(fs) { LeastCovers(fs, deployed, chunks, finalized, listRange); }
    AnyOutcome(fs, addrs, chunks, listRange, visits, visitor.files);
  }

  /** What the monitors end as, for any visits. */
  ghost predicate Outcome(fs: seq<Files>, addrs: seq<nat>, chunks: seq<FinalFile>, listRange: (nat, nat),
                          visits: seq<Visit>, out: seq<Files>)
    requires |fs| == |addrs| == |out| && |chunks| == |visits|
  {
    && (Enough(addrs, chunks, visits) ==>
          forall i :: 0 <= i < |fs| ==> out[i] == Freshen(fs[i], addrs[i], InRange(chunks, listRange)))
    && (Marked(fs) && (Enough(addrs, chunks, visits) || AllFine(fs, addrs, chunks, visits, |chunks|)) ==>
          forall i :: 0 <= i < |fs| ==> out[i] == Freshen(fs[i], addrs[i], chunks))
    && (Marked(fs) ==> StoppedOutcome(fs, addrs, chunks, visits, out))
  }

  lemma AnyOutcome(fs: seq<Files>, addrs: seq<nat>, chunks: seq<FinalFile>, listRange: (nat, nat),
                   visits: seq<Visit>, after: seq<Files>)
    requires |fs| == |addrs| && |visits| == |chunks| && |after| == |fs|
    requires Marked(fs) ==> Covers(fs, chunks, listRange)
    requires VisitedOutcome(AllCleaned(fs), after, MonitorsOf(addrs, fs), chunks, listRange, visits)
    ensures Outcome(fs, addrs, chunks, listRange, visits, Moved(after, MonitorsOf(addrs, fs)))
  {
    var ms := MonitorsOf(addrs, fs);
    if Enough(addrs, chunks, visits) {
      EnoughBefore(addrs, AllCleaned(fs), ms, chunks, listRange, visits, |chunks|);
      EachFreshened(addrs, fs, ms, after, InRange(chunks, listRange));
    }
    if Marked(fs) { MarkedOutcome(fs, addrs, chunks, listRange, visits, after); }
  }

  /** With watermarks for all binary files the list range starts at or before all of them. */
  lemma LeastCovers(fs: seq<Files>, deployed: seq<Option<nat>>, chunks: seq<FinalFile>, finalized: nat,
                    listRange: (nat, nat))
    requires |deployed| == |fs| && Marked(fs) && IsLeast(fs, deployed, listRange.0)
    requires listRange.1 == Max(1, finalized)
    requires forall i :: 0 <= i < |chunks| ==> chunks[i].first <= chunks[i].last <= finalized
    ensures Covers(fs, chunks, listRange)
  {
    forall i | 0 <= i < |fs| ensures listRange.0 <= Watermark(fs[i]) {
      assert HasMark(fs[i]) && LastVisited(fs[i], deployed[i]).Some?;
    }
  }

  lemma {:induction false} EnoughBefore(addrs: seq<nat>, before: seq<Files>, ms: seq<Monitor>, chunks: seq<FinalFile>,
                                        listRange: (nat, nat), visits: seq<Visit>, a: nat)
    requires |addrs| == |ms| == |before| && a <= |chunks| == |visits| && Enough(addrs, chunks, visits)
    requires forall i :: 0 <= i < |ms| ==> ms[i].addr == addrs[i]
    ensures FineBefore(before, ms, chunks, listRange, visits, a)
    decreases a
  {
    if a > 0 {
      EnoughBefore(addrs, before, ms, chunks, listRange, visits, a - 1);
      EnoughIsFine(AllAfter(before, ms, InRange(chunks[..a - 1], listRange)), chunks[a - 1], ms, visits[a - 1]);
    }
  }

  /** What the visits say, said of the monitors' own freshens over all chunks. */
  lemma MarkedOutcome(fs: seq<Files>, addrs: seq<nat>, chunks: seq<FinalFile>, listRange: (nat, nat),
                      visits: seq<Visit>, after: seq<Files>)
    requires |fs| == |addrs| && |visits| == |chunks| && |after| == |fs| && Covers(fs, chunks, listRange)
    requires VisitedOutcome(AllCleaned(fs), after, MonitorsOf(addrs, fs), chunks, listRange, visits)
    ensures Enough(addrs, chunks, visits) || AllFine(fs, addrs, chunks, visits, |chunks|) ==>
            forall i :: 0 <= i < |fs| ==> Moved(after, MonitorsOf(addrs, fs))[i] == Freshen(fs[i], addrs[i], chunks)
    ensures StoppedOutcome(fs, addrs, chunks, visits, Moved(after, MonitorsOf(addrs, fs)))
  {
    var ms := MonitorsOf(addrs, fs);
    if Enough(addrs, chunks, visits) {
      EnoughBefore(addrs, AllCleaned(fs), ms, chunks, listRange, visits, |chunks|);
    }
    if AllFine(fs, addrs, chunks, visits, |chunks|) {
      FineInRange(fs, addrs, chunks, |chunks|, listRange, visits);
    }
    if FineBefore(AllCleaned(fs), ms, chunks, listRange, visits, |chunks|) {
      assert chunks[..|chunks|] == chunks;
      RangeSavesAll(fs, ms, chunks, |chunks|, listRange);
      EachFreshened(addrs, fs, ms, after, chunks);
    }
    forall a | 0 <= a < |chunks| && FineThenStops(fs, addrs, chunks, visits, a)
      ensures forall i :: 0 <= i < |fs| ==> Moved(after, ms)[i] == Stopped(fs, addrs, chunks, visits[a], a, i)
    {
      StopInRange(fs, addrs, chunks, a, listRange, visits, after);
      EachStopped(fs, addrs, chunks, a, visits[a], after);
    }
  }

  /** The list range starts at or before every watermark and ends at or after the start of every chunk. */
  predicate Covers(fs: seq<Files>, chunks: seq<FinalFile>, listRange: (nat, nat)) {
    && (forall i :: 0 <= i < |fs| ==> listRange.0 <= Watermark(fs[i]))
    && forall i :: 0 <= i < |chunks| ==> chunks[i].first <= chunks[i].last && chunks[i].first <= listRange.1
  }

  /** The files before the visit of chunk `a`, if the ones before it were fine. */
  ghost function Mid(fs: seq<Files>, addrs: seq<nat>, chunks: seq<FinalFile>, a: nat): (mid: seq<Files>)
    requires |fs| == |addrs| && a <= |chunks|
    ensures |mid| == |fs|
  {
    AllAfter(AllCleaned(fs), MonitorsOf(addrs, fs), chunks[..a])
  }

  /** The visits before number `a` are fine. */
  ghost predicate AllFine(fs: seq<Files>, addrs: seq<nat>, chunks: seq<FinalFile>, visits: seq<Visit>, a: nat)
    requires |fs| == |addrs| && a <= |chunks| == |visits|
  {
    forall b :: 0 <= b < a ==> Fine(Mid(fs, addrs, chunks, b), chunks[b], MonitorsOf(addrs, fs), visits[b])
  }

  /** The visits before number `a` are fine, and that one ends the run. */
  ghost predicate FineThenStops(fs: seq<Files>, addrs: seq<nat>, chunks: seq<FinalFile>, visits: seq<Visit>, a: nat)
    requires |fs| == |addrs| && a < |chunks| == |visits|
  {
    && AllFine(fs, addrs, chunks, visits, a)
    && Stops(Mid(fs, addrs, chunks, a), chunks[a], MonitorsOf(addrs, fs), visits[a])
  }

  /** No chunk outside the list range is possible for any monitor. */
  lemma PossibleInRange(fs: seq<Files>, addrs: seq<nat>, chunks: seq<FinalFile>, a: nat, listRange: (nat, nat))
    requires |fs| == |addrs| && a < |chunks| && Covers(fs, chunks, listRange)
    requires PossibleOnes(Mid(fs, addrs, chunks, a), chunks[a]) != []
    ensures RangesIntersect(listRange, (chunks[a].first, chunks[a].last))
  {
    var ms, mid := MonitorsOf(addrs, fs), Mid(fs, addrs, chunks, a);
    var i := PossibleOnes(mid, chunks[a])[0];
    assert i in PossibleOnes(mid, chunks[a]) && Possible(mid[i], chunks[a]);
    WatermarkGrows(Cleaned(fs[i]), ms[i], chunks[..a]);
  }

  /** With watermarks for all binary files the list range leaves out no visit that matters. */
  lemma {:induction false} FineInRange(fs: seq<Files>, addrs: seq<nat>, chunks: seq<FinalFile>, a: nat,
                                       listRange: (nat, nat), visits: seq<Visit>)
    requires |fs| == |addrs| && a <= |chunks| == |visits| && Covers(fs, chunks, listRange)
    requires AllFine(fs, addrs, chunks, visits, a)
    ensures FineBefore(AllCleaned(fs), MonitorsOf(addrs, fs), chunks, listRange, visits, a)
  {
    if a > 0 {
      FineInRange(fs, addrs, chunks, a - 1, listRange, visits);
      RangeSavesAll(fs, MonitorsOf(addrs, fs), chunks, a - 1, listRange);
      assert Fine(Mid(fs, addrs, chunks, a - 1), chunks[a - 1], MonitorsOf(addrs, fs), visits[a - 1]);
    }
  }

  /** A visit that ends the run does so within the list range. */
  lemma StopInRange(fs: seq<Files>, addrs: seq<nat>, chunks: seq<FinalFile>, a: nat, listRange: (nat, nat),
                    visits: seq<Visit>, after: seq<Files>)
    requires |fs| == |addrs| && a < |chunks| == |visits| && Covers(fs, chunks, listRange)
    requires FineThenStops(fs, addrs, chunks, visits, a)
    requires VisitedOutcome(AllCleaned(fs), after, MonitorsOf(addrs, fs), chunks, listRange, visits)
    ensures var mid := Mid(fs, addrs, chunks, a);
            Visited(mid, after, chunks[a], MonitorsOf(addrs, fs), PossibleOnes(mid, chunks[a]), visits[a])
  {
    var ms, mid := MonitorsOf(addrs, fs), Mid(fs, addrs, chunks, a);
    FineInRange(fs, addrs, chunks, a, listRange, visits);
    RangeSavesAll(fs, ms, chunks, a, listRange);
    if PossibleOnes(mid, chunks[a]) != [] { PossibleInRange(fs, addrs, chunks, a, listRange); }
    assert StopsFirst(AllCleaned(fs), ms, chunks, listRange, visits, a);
  }

  /** How far the visit gets with monitor `i`, if the chunk is possible for it. */
  ghost function ReachFor(files: seq<Files>, c: FinalFile, ms: seq<Monitor>, v: Visit, i: nat): Reach
    requires |files| == |ms| && i < |ms| && Possible(files[i], c)
  {
    var poss := PossibleOnes(files, c);
    var p :| 0 <= p < |poss| && poss[p] == i;
    Reached(c, ms, poss, v, p)
  }

  /** What monitor `i` ends as if the visit of chunk `a` ends the run: where that visit left it, with its watermark
      moved unless the visit failed, moved to production if it was on the stage. */
  ghost function Stopped(fs: seq<Files>, addrs: seq<nat>, chunks: seq<FinalFile>, v: Visit, a: nat, i: nat): Files
    requires |fs| == |addrs| && a < |chunks| && i < |fs|
  {
    var ms, mid, c := MonitorsOf(addrs, fs), Mid(fs, addrs, chunks, a), chunks[a];
    var f := if Possible(mid[i], c)
             then Effect(mid[i], ms[i], c, ReachFor(mid, c, ms, v, i), !VisitFails(mid, c, ms, v))
             else mid[i];
    if ms[i].staging then MoveToProduction(f) else f
  }

  /** If the first visit that is not fine ends the run, each monitor ends where that visit left it. */
  ghost predicate StoppedOutcome(fs: seq<Files>, addrs: seq<nat>, chunks: seq<FinalFile>, visits: seq<Visit>,
                                 out: seq<Files>)
    requires |fs| == |addrs| == |out| && |chunks| == |visits|
  {
    forall a :: 0 <= a < |chunks| && FineThenStops(fs, addrs, chunks, visits, a) ==>
      forall i :: 0 <= i < |fs| ==> out[i] == Stopped(fs, addrs, chunks, visits[a], a, i)
  }

  /** With watermarks for all binary files the list range leaves out nothing that matters. */
  lemma RangeSavesAll(fs: seq<Files>, ms: seq<Monitor>, chunks: seq<FinalFile>, a: nat, listRange: (nat, nat))
    requires |ms| == |fs| && a <= |chunks| && forall i :: 0 <= i < |fs| ==> listRange.0 <= Watermark(fs[i])
    requires forall i :: 0 <= i < |chunks| ==> chunks[i].first <= chunks[i].last && chunks[i].first <= listRange.1
    ensures AllAfter(AllCleaned(fs), ms, InRange(chunks[..a], listRange)) == AllAfter(AllCleaned(fs), ms, chunks[..a])
  {
    forall i | 0 <= i < |fs|
      ensures VisitAll(Cleaned(fs[i]), ms[i], InRange(chunks[..a], listRange))
              == VisitAll(Cleaned(fs[i]), ms[i], chunks[..a])
    {
      RangeSavesWork(Cleaned(fs[i]), ms[i], chunks[..a], listRange);
    }
  }

  lemma EachStopped(fs: seq<Files>, addrs: seq<nat>, chunks: seq<FinalFile>, a: nat, v: Visit, after: seq<Files>)
    requires |fs| == |addrs| && a < |chunks|
    requires var mid, ms := Mid(fs, addrs, chunks, a), MonitorsOf(addrs, fs);
             Visited(mid, after, chunks[a], ms, PossibleOnes(mid, chunks[a]), v)
    ensures |after| == |fs|
    ensures forall i :: 0 <= i < |fs| ==> Moved(after, MonitorsOf(addrs, fs))[i] == Stopped(fs, addrs, chunks, v, a, i)
  {
    var ms, mid := MonitorsOf(addrs, fs), Mid(fs, addrs, chunks, a);
    forall i | 0 <= i < |fs| ensures Moved(after, ms)[i] == Stopped(fs, addrs, chunks, v, a, i) {
      OneStopped(mid, after, chunks[a], ms, v, i);
    }
  }

  lemma OneStopped(mid: seq<Files>, after: seq<Files>, c: FinalFile, ms: seq<Monitor>, v: Visit, i: nat)
    requires |mid| == |ms| && i < |ms| && Visited(mid, after, c, ms, PossibleOnes(mid, c), v)
    ensures after[i]
            == if Possible(mid[i], c)
               then Effect(mid[i], ms[i], c, ReachFor(mid, c, ms, v, i), !VisitFails(mid, c, ms, v))
               else mid[i]
  {
    var poss := PossibleOnes(mid, c);
    assert Advances(c, ms, poss, v) <==> !VisitFails(mid, c, ms, v);
    if Possible(mid[i], c) {
      assert i in poss;
      var p :| 0 <= p < |poss| && poss[p] == i;
      assert forall q :: 0 <= q < |poss| && poss[q] == i ==> q == p;
    }
  }

  function MonitorsOf(addrs: seq<nat>, fs: seq<Files>): (ms: seq<Monitor>)
    requires |fs| == |addrs|
    ensures |ms| == |fs| && forall i :: 0 <= i < |ms| ==> ms[i] == Monitor(addrs[i], fs[i].bin.None?)
  {
    seq(|fs|, i requires 0 <= i < |fs| => Monitor(addrs[i], fs[i].bin.None?))
  }

  lemma EachFreshened(addrs: seq<nat>, fs: seq<Files>, ms: seq<Monitor>, after: seq<Files>, chunks: seq<FinalFile>)
    requires |fs| == |addrs| && ms == MonitorsOf(addrs, fs) && after == AllAfter(AllCleaned(fs), ms, chunks)
    ensures forall i :: 0 <= i < |fs| ==> Moved(after, ms)[i] == Freshen(fs[i], addrs[i], chunks)
  {
  }

  /** Every monitor with a binary file has a watermark too. */
  predicate Marked(fs: seq<Files>) {
    forall i :: 0 <= i < |fs| ==> HasMark(fs[i])
  }

  predicate HasMark(f: Files) {
    f.bin.Some? ==> f.last.Some?
  }
}
