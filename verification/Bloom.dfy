/** The bloom filters that stand in front of the index chunks. */
module Bloom {

  const WIDTH_IN_BYTES: nat := 131072
  const WIDTH_IN_BITS: nat := WIDTH_IN_BYTES * 8
  const MAX_ADDRS: nat := 50000

  // ----- bits in an array of bytes -----

  /** 1 << k */
  function Mask(k: nat): bv8
    requires k < 8
  {
    if k == 0 then 1 else if k == 1 then 2 else if k == 2 then 4 else if k == 3 then 8
    else if k == 4 then 16 else if k == 5 then 32 else if k == 6 then 64 else 128
  }

  lemma MaskIsShift(k: nat)
    requires k < 8
    ensures Mask(k) == 1 << k
  {
  }

  predicate TestBit(x: bv8, k: nat)
    requires k < 8
  {
    x & Mask(k) != 0
  }

  function SetBit(x: bv8, k: nat): bv8
    requires k < 8
  {
    x | Mask(k)
  }

  /** Setting bit `i` of a byte sets that bit and no other. */
  lemma SetBitSets(x: bv8, i: nat, j: nat)
    requires i < 8 && j < 8
    ensures TestBit(SetBit(x, i), j) <==> i == j || TestBit(x, j)
  {
    if i == j {
      assert (x | Mask(i)) & Mask(i) == Mask(i);
    } else {
      assert Mask(i) & Mask(j) == 0;
      assert (x | Mask(i)) & Mask(j) == (x & Mask(j)) | (Mask(i) & Mask(j));
    }
  }

  /** Which byte holds a bit: bit 0 is the lowest bit of the last byte. */
  function ByteOf(bit: nat): nat
    requires bit < WIDTH_IN_BITS
  {
    WIDTH_IN_BYTES - bit / 8 - 1
  }

  predicate BitLit(s: seq<bv8>, bit: nat)
    requires |s| == WIDTH_IN_BYTES && bit < WIDTH_IN_BITS
  {
    TestBit(s[ByteOf(bit)], bit % 8)
  }

  /** The bits that are lit. */
  ghost function LitBits(s: seq<bv8>): set<nat>
    requires |s| == WIDTH_IN_BYTES
  {
    set b: nat | b < WIDTH_IN_BITS && BitLit(s, b)
  }

  function Lighted(s: seq<bv8>, bit: nat): seq<bv8>
    requires |s| == WIDTH_IN_BYTES && bit < WIDTH_IN_BITS
  {
    s[ByteOf(bit) := SetBit(s[ByteOf(bit)], bit % 8)]
  }

  lemma SameByte(b: nat, c: nat)
    requires b < WIDTH_IN_BITS && c < WIDTH_IN_BITS && ByteOf(b) == ByteOf(c)
    ensures b == c <==> b % 8 == c % 8
  {
  }

  lemma LightedAt(s: seq<bv8>, bit: nat, b: nat)
    requires |s| == WIDTH_IN_BYTES && bit < WIDTH_IN_BITS && b < WIDTH_IN_BITS
    ensures BitLit(Lighted(s, bit), b) <==> b == bit || BitLit(s, b)
  {
    var x, y := s[ByteOf(b)], Lighted(s, bit)[ByteOf(b)];
    if ByteOf(b) == ByteOf(bit) {
      assert y == SetBit(x, bit % 8);
      SetBitSets(x, bit % 8, b % 8);
      SameByte(b, bit);
    } else {
      assert y == x;
    }
  }

  /** Lighting a bit lights that bit and no other. */
  lemma LightedBits(s: seq<bv8>, bit: nat)
    requires |s| == WIDTH_IN_BYTES && bit < WIDTH_IN_BITS
    ensures LitBits(Lighted(s, bit)) == LitBits(s) + {bit}
  {
    forall b: nat | b < WIDTH_IN_BITS ensures BitLit(Lighted(s, bit), b) <==> b == bit || BitLit(s, b) {
      LightedAt(s, bit, b);
    }
  }

  /** What is on file of one filter. */
  type FilterBytes = s: seq<bv8> | |s| == WIDTH_IN_BYTES witness seq(WIDTH_IN_BYTES, (i: nat) => 0 as bv8)

  function NoBytes(): (s: FilterBytes)
    ensures LitBits(s) == {}
  {
    seq(WIDTH_IN_BYTES, (i: nat) => 0 as bv8)
  }

  /** The byte array of one filter. */
  class BitArray {
    const bytes: array<bv8>

    ghost predicate Valid()
    {
      bytes.Length == WIDTH_IN_BYTES
    }

    ghost function Lit(): (s: set<nat>)
      requires Valid()
      reads bytes
    {
      LitBits(bytes[..])
    }

    constructor (from: FilterBytes)
      ensures Valid() && fresh(bytes) && bytes[..] == from
    {
      bytes := new bv8[WIDTH_IN_BYTES](i requires 0 <= i < |from| => from[i]);
    }

    function IsBitLit(bit: nat): (lit: bool)
      requires Valid() && bit < WIDTH_IN_BITS
      reads bytes
      ensures lit <==> bytes[bytes.Length - bit / 8 - 1] & (1 << (bit % 8)) != 0
    {
      MaskIsShift(bit % 8);
      TestBit(bytes[ByteOf(bit)], bit % 8)
    }

    method LightBit(bit: nat)
      requires Valid() && bit < WIDTH_IN_BITS
      modifies bytes
      ensures Lit() == old(Lit()) + {bit}
      ensures forall i :: 0 <= i < bytes.Length ==>
                bytes[i] == if i == bytes.Length - bit / 8 - 1 then old(bytes[i]) | (1 << (bit % 8)) else old(bytes[i])
    {
      LightedBits(bytes[..], bit);
      MaskIsShift(bit % 8);
      var index := ByteOf(bit);
      bytes[index] := SetBit(bytes[index], bit % 8);
      assert bytes[..] == Lighted(old(bytes[..]), bit);
    }

    /** Light all of these bits. */
    method LightAll(litBits: seq<nat>)
      requires Valid() && forall i :: 0 <= i < |litBits| ==> litBits[i] < WIDTH_IN_BITS
      modifies bytes
      ensures Lit() == old(Lit()) + Elements(litBits)
    {
      var k := 0;
      while k < |litBits|
        invariant k <= |litBits| && Lit() == old(Lit()) + Elements(litBits[..k])
      {
        LightBit(litBits[k]);
        ElementsStep(litBits, k);
        k := k + 1;
      }
      assert litBits[..k] == litBits;
    }

    /** Every bit of `test` is lit here. */
    method IsInBloom(test: BitArray) returns (r: bool)
      requires Valid() && test.Valid()
      ensures r <==> test.Lit() <= Lit()
    {
      var b := 0;
      while b < WIDTH_IN_BITS
        invariant b <= WIDTH_IN_BITS
        invariant forall c: nat :: c < b && BitLit(test.bytes[..], c) ==> BitLit(bytes[..], c)
      {
        if test.IsBitLit(b) && !IsBitLit(b) {
          assert BitLit(test.bytes[..], b) && !BitLit(bytes[..], b);
          assert b in test.Lit() && b !in Lit();
          return false;
        }
        b := b + 1;
      }
      return true;
    }
  }

  ghost function Elements(s: seq<nat>): set<nat> {
    set i | 0 <= i < |s| :: s[i]
  }

  lemma ElementsStep(s: seq<nat>, k: nat)
    requires k < |s|
    ensures Elements(s[..k + 1]) == Elements(s[..k]) + {s[k]}
  {
    var a, b := s[..k], s[..k + 1];
    forall x | x in Elements(b) ensures x in Elements(a) + {s[k]} {
      var i :| 0 <= i < |b| && b[i] == x;
      if i < k { assert a[i] == x; }
    }
    forall x | x in Elements(a) ensures x in Elements(b) {
      var i :| 0 <= i < |a| && a[i] == x;
      assert b[i] == x;
    }
    assert b[k] == s[k];
  }

  // ----- the array of filters of a chunk -----

  datatype Filter = Filter(nInserted: nat, bytes: FilterBytes)

  /** Four bytes of the address, the k-th from the left of five. */
  function Word(addr: nat, k: nat): nat
    requires k < 5
    decreases 4 - k
  {
    if k == 4 then addr % 0x1_0000_0000 else Word(addr / 0x1_0000_0000, k + 1)
  }

  /** The bits that stand for an address. */
  function AddrBits(addr: nat): (bits: seq<nat>)
    ensures |bits| == 5 && forall i :: 0 <= i < 5 ==> bits[i] < WIDTH_IN_BITS
  {
    seq(5, k requires 0 <= k < 5 => Word(addr, k) % WIDTH_IN_BITS)
  }

  /** The bytes of the filter have all the bits of the address lit. */
  ghost predicate Has(f: Filter, addr: nat) {
    Elements(AddrBits(addr)) <= LitBits(f.bytes)
  }

  /** Some filter has all the bits of the address. */
  ghost predicate Member(filters: seq<Filter>, addr: nat) {
    exists i :: 0 <= i < |filters| && Has(filters[i], addr)
  }

  /** The filters' lit bits only grow, filter by filter. */
  ghost predicate Grown(before: seq<Filter>, after: seq<Filter>) {
    |before| <= |after| && forall i :: 0 <= i < |before| ==> LitBits(before[i].bytes) <= LitBits(after[i].bytes)
  }

  /** Light the bits of an address in one filter. */
  method Insert(f: Filter, addr: nat) returns (out: Filter)
    ensures LitBits(out.bytes) == LitBits(f.bytes) + Elements(AddrBits(addr)) && out.nInserted == f.nInserted + 1
  {
    var bits := new BitArray(f.bytes);
    bits.LightAll(AddrBits(addr));
    out := Filter(f.nInserted + 1, bits.bytes[..]);
  }

  /** Add an address to the last filter, and start a new one when that is full. */
  method AddToSet(filters: seq<Filter>, addr: nat) returns (out: seq<Filter>)
    ensures out != [] && Grown(filters, out) && Member(out, addr)
    ensures var n := if filters == [] then 0 else |filters| - 1;
            && n < |out| && out[..n] == filters[..n]
            && out[n].nInserted == (if filters == [] then 0 else filters[n].nInserted) + 1
            && out[n + 1..] == if out[n].nInserted > 50000 then [Filter(0, NoBytes())] else []
  {
    out := if filters == [] then [Filter(0, NoBytes())] else filters;
    var n := |out| - 1;
    var last := Insert(out[n], addr);
    out := out[n := last];
    if last.nInserted > MAX_ADDRS {
      out := out + [Filter(0, NoBytes())];
    }
    assert Has(out[n], addr);
    assert out[..n] == filters[..n];
  }

  method IsMember(filters: seq<Filter>, addr: nat) returns (r: bool)
    ensures r <==> Member(filters, addr)
  {
    var test := new BitArray(NoBytes());
    test.LightAll(AddrBits(addr));
    var i := 0;
    while i < |filters|
      invariant i <= |filters| && forall j :: 0 <= j < i ==> !Has(filters[j], addr)
      invariant test.Valid() && test.Lit() == Elements(AddrBits(addr))
    {
      var bloom := new BitArray(filters[i].bytes);
      var hit := bloom.IsInBloom(test);
      if hit {
        return true;
      }
      i := i + 1;
    }
    return false;
  }

  lemma GrownMember(before: seq<Filter>, after: seq<Filter>, addr: nat)
    requires Grown(before, after) && Member(before, addr)
    ensures Member(after, addr)
  {
    var i :| 0 <= i < |before| && Has(before[i], addr);
    assert Has(after[i], addr);
  }
}
