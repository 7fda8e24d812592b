/** Appearance records, the order they are sorted in, and the chain they are extracted from. */
module Chain {
  import opened Util

  /** One line of a ripe, staging or temporary file: three tab-separated fields. `tabs` is the
      number of tab characters on the line, which is two unless the line is malformed. */
  datatype Record = Record(addr: nat, blk: nat, txid: nat, tabs: nat)

  /** The contents of a file, where a missing file reads as empty. */
  function Contents(f: Option<seq<Record>>): seq<Record> {
    if f.Some? then f.value else []
  }

  // ----- the order of the text lines -----

  /** Lines are fixed width, so their text order is the order of their fields. */
  predicate AtMost(x: Record, y: Record) {
    x.addr < y.addr
    || (x.addr == y.addr && (x.blk < y.blk || (x.blk == y.blk && x.txid <= y.txid)))
  }

  predicate SortedRecords(s: seq<Record>) {
    forall i, j :: 0 <= i < j < |s| ==> AtMost(s[i], s[j])
  }

  function SortRecords(s: seq<Record>): seq<Record> {
    Sort(AtMost, s)
  }

  /** Sorting permutes and orders. */
  lemma RecordsSorted(s: seq<Record>)
    ensures SortedRecords(SortRecords(s))
    ensures multiset(SortRecords(s)) == multiset(s)
    ensures |SortRecords(s)| == |s|
  {
    SortSorts(AtMost, s);
    assert InOrder(AtMost, SortRecords(s));
  }

  // ----- the chain -----

  /** `apps(b)` is the file that blaze writes for block `b`: never empty (every block pays a miner)
      and every line carries the block's own number. */
  ghost predicate WellFormedChain(apps: nat -> seq<Record>) {
    forall b: nat ::
      |apps(b)| > 0 && forall i :: 0 <= i < |apps(b)| ==> apps(b)[i].blk == b && apps(b)[i].tabs == 2
  }

  /** The appearances of blocks `lo` up to but not including `end`, in block order. */
  function Span(apps: nat -> seq<Record>, lo: nat, end: nat): seq<Record>
    decreases end
  {
    if lo >= end then [] else Span(apps, lo, end - 1) + apps(end - 1)
  }

  lemma {:induction false} SpanJoin(apps: nat -> seq<Record>, lo: nat, mid: nat, end: nat)
    requires lo <= mid <= end
    ensures Span(apps, lo, mid) + Span(apps, mid, end) == Span(apps, lo, end)
    decreases end
  {
    if mid < end {
      SpanJoin(apps, lo, mid, end - 1);
      var a, b := Span(apps, lo, mid), Span(apps, mid, end - 1);
      assert a + (b + apps(end - 1)) == (a + b) + apps(end - 1);
    } else {
      assert Span(apps, lo, mid) + [] == Span(apps, lo, mid);
    }
  }

  lemma {:induction false} SpanBlocks(apps: nat -> seq<Record>, lo: nat, end: nat)
    requires WellFormedChain(apps)
    ensures forall i :: 0 <= i < |Span(apps, lo, end)| ==>
              lo <= Span(apps, lo, end)[i].blk < end && Span(apps, lo, end)[i].tabs == 2
    ensures lo < end ==>
              var s := Span(apps, lo, end);
              |s| > 0 && s[|s| - 1].blk == end - 1 && s[0].blk == lo
    decreases end
  {
    if lo < end {
      SpanBlocks(apps, lo, end - 1);
      var s, a, b := Span(apps, lo, end), Span(apps, lo, end - 1), apps(end - 1);
      forall i | 0 <= i < |s| ensures lo <= s[i].blk < end && s[i].tabs == 2 {
        if i >= |a| { assert s[i] == b[i - |a|]; }
      }
      assert s[|s| - 1] == b[|b| - 1];
      assert s[0] == if lo < end - 1 then a[0] else b[0];
    }
  }

  /** Lines grouped by block, blocks ascending. */
  predicate BlockOrdered(s: seq<Record>) {
    forall i, j :: 0 <= i < j < |s| ==> s[i].blk <= s[j].blk
  }

  lemma {:induction false} SpanOrdered(apps: nat -> seq<Record>, lo: nat, end: nat)
    requires WellFormedChain(apps)
    ensures BlockOrdered(Span(apps, lo, end))
    decreases end
  {
    if lo < end {
      SpanOrdered(apps, lo, end - 1);
      SpanBlocks(apps, lo, end - 1);
      var s, a, b := Span(apps, lo, end), Span(apps, lo, end - 1), apps(end - 1);
      assert forall i :: |a| <= i < |s| ==> s[i] == b[i - |a|];
    }
  }

  lemma SplitAt(s: seq<Record>, left: seq<Record>, right: seq<Record>)
    requires s == left + right
    ensures s[..|left|] == left && s[|left|..] == right
  {
  }

  /** A sequence whose left part has blocks below `end` and whose right part has the others is cut between
      the two wherever its blocks pass from below `end` to others. */
  lemma CutBetween(left: seq<Record>, right: seq<Record>, end: nat, loc: nat)
    requires forall i :: 0 <= i < |left| ==> left[i].blk < end
    requires forall i :: 0 <= i < |right| ==> end <= right[i].blk
    requires loc < |left + right| && (left + right)[loc].blk < end
    requires loc + 1 == |left + right| || end <= (left + right)[loc + 1].blk
    ensures (left + right)[..loc + 1] == left && (left + right)[loc + 1..] == right
  {
    assert loc < |left|;
    assert |left| <= loc + 1;
    SplitAt(left + right, left, right);
  }

  /** A span cut after the last record of one of its blocks is two spans. */
  lemma {:induction false} SpanCut(apps: nat -> seq<Record>, lo: nat, end: nat, loc: nat)
    requires WellFormedChain(apps)
    requires loc < |Span(apps, lo, end)|
    requires loc + 1 == |Span(apps, lo, end)|
             || Span(apps, lo, end)[loc + 1].blk != Span(apps, lo, end)[loc].blk
    ensures var s := Span(apps, lo, end);
            var b := s[loc].blk;
            lo <= b < end && s[..loc + 1] == Span(apps, lo, b + 1) && s[loc + 1..] == Span(apps, b + 1, end)
  {
    var s := Span(apps, lo, end);
    var b := s[loc].blk;
    assert lo <= b < end by { SpanBlocks(apps, lo, end); }
    assert loc + 1 == |s| || b < s[loc + 1].blk by { SpanOrdered(apps, lo, end); }
    var left, right := SpanParts(apps, lo, b + 1, end);
    CutBetween(left, right, b + 1, loc);
  }

  lemma SpanParts(apps: nat -> seq<Record>, lo: nat, mid: nat, end: nat) returns (left: seq<Record>, right: seq<Record>)
    requires WellFormedChain(apps) && lo <= mid <= end
    ensures left == Span(apps, lo, mid) && right == Span(apps, mid, end) && Span(apps, lo, end) == left + right
    ensures forall i :: 0 <= i < |left| ==> left[i].blk < mid
    ensures forall i :: 0 <= i < |right| ==> mid <= right[i].blk
  {
    left, right := Span(apps, lo, mid), Span(apps, mid, end);
    SpanJoin(apps, lo, mid, end);
    SpanBlocks(apps, lo, mid);
    SpanBlocks(apps, mid, end);
  }
}
