/** The binary index of a chunk: how it is written, and how an address is looked up in it. */
module Index {
  import opened Util
  import opened Chain
  import Bloom

  /** What a monitor records of an appearance. */
  datatype App = App(blk: nat, txid: nat)

  /** One row of the address table. */
  datatype Entry = Entry(addr: nat, offset: nat, cnt: nat)

  datatype Table = Table(addrs: seq<Entry>, rows: seq<App>)

  // ----- the plain scan -----

  function AppOf(r: Record): App {
    App(r.blk, r.txid)
  }

  /** All appearances of an address, in the order of the lines. */
  function Scan(lines: seq<Record>, addr: nat): (apps: seq<App>)
  {
    if lines == [] then []
    else
      var n := |lines| - 1;
      Scan(lines[..n], addr) + (if lines[n].addr == addr then [AppOf(lines[n])] else [])
  }

  // ----- addresses as bytes -----

  predicate Bytes(s: seq<nat>) {
    forall i :: 0 <= i < |s| ==> s[i] < 256
  }

  function Value(s: seq<nat>): nat {
    if s == [] then 0 else 256 * Value(s[..|s| - 1]) + s[|s| - 1]
  }

  function Pow256(n: nat): nat {
    if n == 0 then 1 else 256 * Pow256(n - 1)
  }

  predicate IsAddress(addr: nat) {
    addr < Pow256(20)
  }

  /** The `n` bytes of a number, most significant first. */
  function ToBytes(v: nat, n: nat): (s: seq<nat>)
    ensures |s| == n && Bytes(s)
  {
    if n == 0 then [] else ToBytes(v / 256, n - 1) + [v % 256]
  }

  lemma {:induction false} ToBytesValue(v: nat, n: nat)
    requires v < Pow256(n)
    ensures Value(ToBytes(v, n)) == v
  {
    if n > 0 {
      ToBytesValue(v / 256, n - 1);
      var s := ToBytes(v, n);
      assert s[..n - 1] == ToBytes(v / 256, n - 1);
    }
  }

  /** The bits of an address in a filter: of its twenty bytes each four in turn, as a number modulo the width. */
  lemma AddrBitsAreWords(addr: nat, k: nat)
    requires IsAddress(addr) && k < 5
    ensures Bloom.AddrBits(addr)[k] == Value(ToBytes(addr, 20)[4 * k..4 * k + 4]) % 1048576
  {
    WordIsBytes(addr, k, 20);
  }

  /** The last four bytes, and those before them. */
  lemma LastFour(v: nat, n: nat)
    requires n >= 4
    ensures ToBytes(v, n)[..n - 4] == ToBytes(v / 0x1_0000_0000, n - 4)
    ensures Value(ToBytes(v, n)[n - 4..]) == v % 0x1_0000_0000
  {
    var a, b, c, d := v % 256, v / 256 % 256, v / 256 / 256 % 256, v / 256 / 256 / 256 % 256;
    var high := ToBytes(v / 256 / 256 / 256 / 256, n - 4);
    assert ToBytes(v / 256 / 256 / 256, n - 3) == high + [d];
    assert ToBytes(v / 256 / 256, n - 2) == high + [d] + [c];
    assert ToBytes(v / 256, n - 1) == high + [d] + [c] + [b];
    assert ToBytes(v, n) == high + [d] + [c] + [b] + [a];
    assert ToBytes(v, n)[n - 4..] == [d, c, b, a];
    FourBytes(d, c, b, a);
    assert v / 256 / 256 / 256 / 256 == v / 0x1_0000_0000;
  }

  lemma FourBytes(d: nat, c: nat, b: nat, a: nat)
    ensures Value([d, c, b, a]) == 256 * (256 * (256 * d + c) + b) + a
  {
    assert [d, c, b, a][..3] == [d, c, b] && [d, c, b][..2] == [d, c] && [d, c][..1] == [d] && [d][..0] == [];
    assert Value([d]) == d;
    assert Value([d, c]) == 256 * d + c;
    assert Value([d, c, b]) == 256 * (256 * d + c) + b;
  }

  lemma {:induction false} WordIsBytes(v: nat, k: nat, n: nat)
    requires k < 5 && n >= 4 * (5 - k)
    ensures Bloom.Word(v, k) == Value(ToBytes(v, n)[n - 4 * (5 - k)..n - 4 * (4 - k)])
    decreases 4 - k
  {
    LastFour(v, n);
    if k < 4 {
      WordIsBytes(v / 0x1_0000_0000, k + 1, n - 4);
      var s := ToBytes(v, n);
      assert s[..n - 4][n - 4 * (5 - k)..n - 4 * (4 - k)] == s[n - 4 * (5 - k)..n - 4 * (4 - k)];
    } else {
      assert ToBytes(v, n)[n - 4..n] == ToBytes(v, n)[n - 4..];
    }
  }

  lemma {:induction false} FirstDifference(a: seq<nat>, b: seq<nat>, d: nat)
    requires |a| == |b| && Bytes(a) && Bytes(b) && d < |a|
    requires a[..d] == b[..d] && a[d] < b[d]
    ensures Value(a) < Value(b)
    decreases |a|
  {
    var n := |a| - 1;
    if d < n {
      assert a[..n][..d] == a[..d] && b[..n][..d] == b[..d];
      FirstDifference(a[..n], b[..n], d);
    }
  }

  /** The comparison that bsearch is given. */
  method FindAddresses(a: seq<nat>, b: seq<nat>) returns (ret: int)
    requires |a| == |b| == 20 && Bytes(a) && Bytes(b)
    ensures ret < 0 <==> Value(a) < Value(b)
    ensures ret == 0 <==> Value(a) == Value(b)
  {
    var i := 0;
    while i < 20
      invariant i <= 20 && a[..i] == b[..i]
    {
      var x: int, y: int := a[i], b[i];
      ret := x - y;
      if ret < 0 {
        FirstDifference(a, b, i);
        return;
      }
      if ret > 0 {
        FirstDifference(b, a, i);
        return;
      }
      i := i + 1;
    }
    assert a == a[..20] == b[..20] == b;
    return 0;
  }

  // ----- what a table says about its lines -----

  ghost predicate EntryHolds(lines: seq<Record>, e: Entry) {
    && 0 < e.cnt && e.offset + e.cnt <= |lines|
    && forall j :: e.offset <= j < e.offset + e.cnt ==> lines[j].addr == e.addr
  }

  /** The entries cover rows 0 to `total`, each beginning where the one before it ends. */
  predicate Cover(addrs: seq<Entry>, total: nat)
    decreases |addrs|
  {
    if addrs == [] then total == 0
    else
      var e := addrs[|addrs| - 1];
      e.offset + e.cnt == total && Cover(addrs[..|addrs| - 1], e.offset)
  }

  predicate Ascending(addrs: seq<Entry>) {
    forall i, j :: 0 <= i < j < |addrs| ==> addrs[i].addr < addrs[j].addr
  }

  ghost predicate Indexes(t: Table, lines: seq<Record>) {
    && |t.rows| == |lines| && (forall j :: 0 <= j < |lines| ==> t.rows[j] == AppOf(lines[j]))
    && (forall i :: 0 <= i < |t.addrs| ==> EntryHolds(lines, t.addrs[i]))
    && Cover(t.addrs, |lines|)
    && Ascending(t.addrs)
  }

  /** Every row belongs to an entry. */
  lemma {:induction false} Owner(addrs: seq<Entry>, total: nat, j: nat) returns (i: nat)
    requires Cover(addrs, total) && j < total
    ensures i < |addrs| && addrs[i].offset <= j < addrs[i].offset + addrs[i].cnt
    decreases |addrs|
  {
    var n := |addrs| - 1;
    if addrs[n].offset <= j {
      i := n;
    } else {
      i := Owner(addrs[..n], addrs[n].offset, j);
    }
  }

  /** The lines of an address are exactly those from `lo` to `hi`. */
  predicate OwnRange(lines: seq<Record>, addr: nat, lo: nat, hi: nat) {
    lo <= hi <= |lines| && forall j :: 0 <= j < |lines| ==> (lines[j].addr == addr <==> lo <= j < hi)
  }

  lemma OwnRangePrefix(lines: seq<Record>, addr: nat, lo: nat, hi: nat)
    requires OwnRange(lines, addr, lo, hi) && lines != []
    ensures var n := |lines| - 1;
            OwnRange(lines[..n], addr, if lo < n then lo else n, if hi < n then hi else n)
  {
  }

  /** If the lines of an address are those from `lo` to `hi`, scanning finds those rows. */
  lemma {:induction false} ScanRange(lines: seq<Record>, addr: nat, lo: nat, hi: nat)
    requires OwnRange(lines, addr, lo, hi)
    ensures |Scan(lines, addr)| == hi - lo
    ensures forall k :: lo <= k < hi ==> Scan(lines, addr)[k - lo] == AppOf(lines[k])
    decreases |lines|
  {
    if lines != [] {
      var n := |lines| - 1;
      OwnRangePrefix(lines, addr, lo, hi);
      ScanRange(lines[..n], addr, if lo < n then lo else n, if hi < n then hi else n);
    }
  }

  /** The slice of an address's entry is the scan for that address. */
  lemma SliceIsScan(t: Table, lines: seq<Record>, i: nat)
    requires Indexes(t, lines) && i < |t.addrs|
    ensures var e := t.addrs[i];
            t.rows[e.offset..e.offset + e.cnt] == Scan(lines, e.addr)
  {
    var e := t.addrs[i];
    forall j | 0 <= j < |lines| ensures lines[j].addr == e.addr <==> e.offset <= j < e.offset + e.cnt {
      var k := Owner(t.addrs, |lines|, j);
      assert EntryHolds(lines, t.addrs[k]) && EntryHolds(lines, e);
      assert lines[j].addr == t.addrs[k].addr;
      if k != i { assert lines[j].addr != e.addr; }
    }
    ScanRange(lines, e.addr, e.offset, e.offset + e.cnt);
  }

  /** An address without an entry has no appearance. */
  lemma AbsentIsEmpty(t: Table, lines: seq<Record>, addr: nat)
    requires Indexes(t, lines) && forall i :: 0 <= i < |t.addrs| ==> t.addrs[i].addr != addr
    ensures Scan(lines, addr) == []
  {
    forall j | 0 <= j < |lines| ensures lines[j].addr != addr {
      var k := Owner(t.addrs, |lines|, j);
      assert EntryHolds(lines, t.addrs[k]);
    }
    ScanRange(lines, addr, 0, 0);
  }

  // ----- looking up -----

  /** The comparison the search makes: of the twenty bytes of the key with those of an entry. */
  method CompareKey(key: nat, e: Entry) returns (c: int)
    requires IsAddress(key) && IsAddress(e.addr)
    ensures (c == 0 <==> key == e.addr) && (c < 0 <==> key < e.addr)
  {
    ToBytesValue(key, 20);
    ToBytesValue(e.addr, 20);
    c := FindAddresses(ToBytes(key, 20), ToBytes(e.addr, 20));
  }

  /** bsearch on the address table, by the contract of section 7.22.5.1 of ISO/IEC 9899:2011. */
  method BSearch(addrs: seq<Entry>, key: nat) returns (found: Option<nat>)
    requires Ascending(addrs) && IsAddress(key) && forall i :: 0 <= i < |addrs| ==> IsAddress(addrs[i].addr)
    ensures found.Some? ==> found.value < |addrs| && addrs[found.value].addr == key
    ensures found.None? ==> forall i :: 0 <= i < |addrs| ==> addrs[i].addr != key
  {
    var lo, hi := 0, |addrs|;
    while lo < hi
      invariant 0 <= lo <= hi <= |addrs|
      invariant forall i :: 0 <= i < lo ==> addrs[i].addr < key
      invariant forall i :: hi <= i < |addrs| ==> key < addrs[i].addr
    {
      var mid := (lo + hi) / 2;
      var c := CompareKey(key, addrs[mid]);
      if c == 0 {
        return Some(mid);
      } else if c < 0 {
        hi := mid;
      } else {
        lo := mid + 1;
      }
    }
    return None;
  }

  /** Binary search and slice find exactly what a scan of the chunk's lines finds. */
  method Lookup(t: Table, addr: nat, ghost lines: seq<Record>) returns (found: bool, items: seq<App>)
    requires Indexes(t, lines) && IsAddress(addr) && forall i :: 0 <= i < |t.addrs| ==> IsAddress(t.addrs[i].addr)
    ensures items == Scan(lines, addr)
    ensures found <==> items != []
  {
    var i := BSearch(t.addrs, addr);
    if i.Some? {
      SliceIsScan(t, lines, i.value);
      var e := t.addrs[i.value];
      assert EntryHolds(lines, e);
      return true, t.rows[e.offset..e.offset + e.cnt];
    }
    AbsentIsEmpty(t, lines, addr);
    return false, [];
  }

  // ----- writing -----

  ghost predicate Listed(filters: seq<Bloom.Filter>, addrs: seq<Entry>) {
    forall i :: 0 <= i < |addrs| ==> Bloom.Member(filters, addrs[i].addr)
  }

  /** Add the finished group of an address to table and filters. */
  method CloseGroup(addrs: seq<Entry>, filters: seq<Bloom.Filter>, addr: nat, offset: nat, cnt: nat,
                    ghost lines: seq<Record>) returns (addrs': seq<Entry>, filters': seq<Bloom.Filter>)
    requires Cover(addrs, offset) && Ascending(addrs) && Listed(filters, addrs)
    requires forall i :: 0 <= i < |addrs| ==> EntryHolds(lines, addrs[i]) && addrs[i].addr < addr
    requires EntryHolds(lines, Entry(addr, offset, cnt))
    ensures addrs' == addrs + [Entry(addr, offset, cnt)]
    ensures Cover(addrs', offset + cnt) && Ascending(addrs') && Listed(filters', addrs')
    ensures forall i :: 0 <= i < |addrs'| ==> EntryHolds(lines, addrs'[i]) && addrs'[i].addr <= addr
  {
    filters' := Bloom.AddToSet(filters, addr);
    addrs' := addrs + [Entry(addr, offset, cnt)];
    assert addrs'[..|addrs|] == addrs;
    forall i | 0 <= i < |addrs'| ensures Bloom.Member(filters', addrs'[i].addr) {
      if i < |addrs| { Bloom.GrownMember(filters, filters', addrs[i].addr); }
    }
  }

  /** What the index writer leaves for one chunk. Without any lines it is a table whose one entry has an offset
      and a count but no address. */
  datatype IndexFile = IndexFile(table: Table, filters: seq<Bloom.Filter>) | Headless(filters: seq<Bloom.Filter>)

  /** One turn of the loop: a line of a new address closes the group before it. */
  method NextLine(lines: seq<Record>, l: nat, addrs: seq<Entry>, filters: seq<Bloom.Filter>, prev: Option<nat>,
                  offset: nat, cnt: nat)
    returns (addrs': seq<Entry>, filters': seq<Bloom.Filter>, offset': nat, cnt': nat)
    requires SortedRecords(lines) && l < |lines| && offset + cnt == l
    requires l == 0 ==> prev.None? && addrs == [] && offset == 0
    requires l > 0 ==> prev == Some(lines[l - 1].addr) && Grouping(lines, addrs, filters, prev.value, offset, cnt)
    ensures offset' + cnt' == l + 1 && Grouping(lines, addrs', filters', lines[l].addr, offset', cnt')
  {
    addrs', filters', offset', cnt' := addrs, filters, offset, cnt;
    if prev.Some? && lines[l].addr != prev.value {
      assert AtMost(lines[l - 1], lines[l]);
      addrs', filters' := CloseGroup(addrs, filters, prev.value, offset, cnt, lines);
      offset' := offset + cnt;
      cnt' := 0;
    }
    if cnt' == 0 {
      GroupOpens(lines, addrs', filters', lines[l].addr, offset');
    } else {
      GroupGrows(lines, addrs', filters', prev.value, offset', cnt');
    }
    cnt' := cnt' + 1;
  }

  /** Group sorted lines by address. With one to eleven lines the progress counter is divided by zero at the
      first line, and there is no result. */
  method WriteIndexAsBinary(lines: seq<Record>) returns (r: Option<IndexFile>)
    requires SortedRecords(lines)
    ensures r.Some? <==> lines == [] || 12 <= |lines|
    ensures r.Some? ==> (r.value.Headless? <==> lines == [])
    ensures 12 <= |lines| ==> Indexes(r.value.table, lines) && Listed(r.value.filters, r.value.table.addrs)
    ensures r.Some? ==> forall j :: 0 <= j < |lines| ==> Bloom.Member(r.value.filters, lines[j].addr)
  {
    var addrs: seq<Entry>, rows: seq<App>, offset, cnt := [], [], 0, 0;
    var filters: seq<Bloom.Filter> := [];
    var prev: Option<nat> := None;
    var notifyCnt := |lines| / 12;
    var l := 0;
    while l < |lines|
      invariant l <= |lines| && offset + cnt == l && |rows| == l && (l > 0 ==> notifyCnt > 0)
      invariant forall j :: 0 <= j < l ==> rows[j] == AppOf(lines[j])
      invariant l == 0 ==> prev.None? && addrs == [] && offset == 0
      invariant l > 0 ==> prev == Some(lines[l - 1].addr) && Grouping(lines, addrs, filters, prev.value, offset, cnt)
    {
      if notifyCnt == 0 {
        return None;
      }
      rows := rows + [AppOf(lines[l])];
      addrs, filters, offset, cnt := NextLine(lines, l, addrs, filters, prev, offset, cnt);
      prev := Some(lines[l].addr);
      l := l + 1;
    }
    if prev.None? {
      return Some(Headless([Bloom.Filter(1, Bloom.NoBytes())]));
    }
    addrs, filters := CloseGroup(addrs, filters, prev.value, offset, cnt, lines);
    var t := Table(addrs, rows);
    LinesListed(t, lines, filters);
    return Some(IndexFile(t, filters));
  }

  lemma GroupGrows(lines: seq<Record>, addrs: seq<Entry>, filters: seq<Bloom.Filter>, addr: nat, offset: nat, cnt: nat)
    requires Grouping(lines, addrs, filters, addr, offset, cnt)
    requires offset + cnt < |lines| && lines[offset + cnt].addr == addr
    ensures Grouping(lines, addrs, filters, addr, offset, cnt + 1)
  {
  }

  lemma GroupOpens(lines: seq<Record>, addrs: seq<Entry>, filters: seq<Bloom.Filter>, addr: nat, offset: nat)
    requires Cover(addrs, offset) && Ascending(addrs) && Listed(filters, addrs)
    requires forall i :: 0 <= i < |addrs| ==> EntryHolds(lines, addrs[i]) && addrs[i].addr < addr
    requires offset < |lines| && lines[offset].addr == addr
    ensures Grouping(lines, addrs, filters, addr, offset, 1)
  {
  }

  /** Some addresses are in table and filters, and the rows from `offset` on are of the next one. */
  ghost predicate Grouping(lines: seq<Record>, addrs: seq<Entry>, filters: seq<Bloom.Filter>, addr: nat, offset: nat,
                           cnt: nat) {
    && Cover(addrs, offset) && Ascending(addrs) && Listed(filters, addrs)
    && (forall i :: 0 <= i < |addrs| ==> EntryHolds(lines, addrs[i]) && addrs[i].addr < addr)
    && EntryHolds(lines, Entry(addr, offset, cnt))
  }

  lemma LinesListed(t: Table, lines: seq<Record>, filters: seq<Bloom.Filter>)
    requires Indexes(t, lines) && Listed(filters, t.addrs)
    ensures forall j :: 0 <= j < |lines| ==> Bloom.Member(filters, lines[j].addr)
  {
    forall j | 0 <= j < |lines| ensures Bloom.Member(filters, lines[j].addr) {
      var i := Owner(t.addrs, |lines|, j);
      assert EntryHolds(lines, t.addrs[i]);
    }
  }
}
