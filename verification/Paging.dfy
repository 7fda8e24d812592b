/** Which records of a monitor an export selects. */
module Paging {
  import opened Util
  import opened Index
  import opened Window

  /** The appearances up to the chain's head. */
  function UpTo(apps: seq<App>, client: nat): seq<App> {
    if apps == [] then []
    else
      var n := |apps| - 1;
      UpTo(apps[..n], client) + (if apps[n].blk > client then [] else [apps[n]])
  }

  lemma {:induction false} UpToJoin(a: seq<App>, b: seq<App>, client: nat)
    ensures UpTo(a + b, client) == UpTo(a, client) + UpTo(b, client)
    decreases |b|
  {
    if b == [] {
      assert a + b == a;
    } else {
      UpToJoin(a, b[..|b| - 1], client);
      assert (a + b)[..|a + b| - 1] == a + b[..|b| - 1];
    }
  }

  /** The window first to first + max of the list, without wrap-around. */
  function Slice(tmp: seq<App>, first: nat, max: nat): seq<App> {
    if first <= |tmp| then tmp[first..Min(|tmp|, first + max)] else []
  }

  /** The selection of loadAllAppearances: the records from `first` to the end that the wrapping sum gives. */
  function Selected(tmp: seq<App>, first: u64, max: u64, client: nat): seq<App> {
    var end := Min(|tmp|, (first + max) % TWO64);
    if first <= end then UpTo(tmp[first..end], client) else []
  }

  /** `apps` are the records of the window with a block up to the head, in their order: they stand at ascending
      positions of the window, which are exactly those of such records, and each value is there as often as in the
      window. */
  ghost predicate Kept(window: seq<App>, client: nat, apps: seq<App>) {
    && (forall x: App :: multiset(apps)[x] == if x.blk <= client then multiset(window)[x] else 0)
    && exists at: seq<nat> :: StandAt(window, client, apps, at)
  }

  predicate StandAt(window: seq<App>, client: nat, apps: seq<App>, at: seq<nat>) {
    && |at| == |apps| && (forall i, j :: 0 <= i < j < |at| ==> at[i] < at[j])
    && (forall i :: 0 <= i < |at| ==> at[i] < |window| && apps[i] == window[at[i]])
    && (forall k :: 0 <= k < |window| ==> (k in at <==> window[k].blk <= client))
  }

  lemma StandStep(window: seq<App>, client: nat, apps: seq<App>, at: seq<nat>, x: App)
    requires StandAt(window, client, apps, at)
    ensures if x.blk <= client then StandAt(window + [x], client, apps + [x], at + [|window|])
            else StandAt(window + [x], client, apps, at)
  {
    var n, more := |window|, window + [x];
    assert n !in at;
    forall k | 0 <= k < |more| ensures k in at + [n] <==> k in at || k == n {
    }
    forall k | 0 <= k < n ensures more[k] == window[k] {
    }
  }

  lemma {:induction false} UpToStands(window: seq<App>, client: nat) returns (at: seq<nat>)
    ensures StandAt(window, client, UpTo(window, client), at)
    decreases |window|
  {
    at := [];
    if window != [] {
      var n := |window| - 1;
      var before := UpToStands(window[..n], client);
      StandStep(window[..n], client, UpTo(window[..n], client), before, window[n]);
      assert window == window[..n] + [window[n]];
      at := if window[n].blk <= client then before + [n] else before;
      assert UpTo(window, client) == UpTo(window[..n], client) + (if window[n].blk > client then [] else [window[n]]);
      assert UpTo(window[..n], client) + [] == UpTo(window[..n], client);
    }
  }

  lemma {:induction false} UpToCounts(window: seq<App>, client: nat, x: App)
    ensures multiset(UpTo(window, client))[x] == if x.blk <= client then multiset(window)[x] else 0
    decreases |window|
  {
    if window != [] {
      var n := |window| - 1;
      UpToCounts(window[..n], client, x);
      assert window == window[..n] + [window[n]];
    }
  }

  lemma UpToKeeps(window: seq<App>, client: nat)
    ensures Kept(window, client, UpTo(window, client))
  {
    var at := UpToStands(window, client);
    forall x: App ensures multiset(UpTo(window, client))[x] == if x.blk <= client then multiset(window)[x] else 0 {
      UpToCounts(window, client, x);
    }
  }

  lemma SelectedKeeps(tmp: seq<App>, first: u64, max: u64, client: nat)
    ensures if first + max < TWO64 && first <= |tmp|
            then Kept(tmp[first..Min(|tmp|, first + max)], client, Selected(tmp, first, max, client))
            else Selected(tmp, first, max, client) == []
  {
    SelectedIs(tmp, first, max, client);
    if first <= |tmp| { UpToKeeps(tmp[first..Min(|tmp|, first + max)], client); }
  }

  /** The loop selects the requested window exactly when the sum does not wrap, or nothing was to be selected
      anyway. */
  method LoadWindow(tmp: seq<App>, first: u64, max: u64, client: nat) returns (apps: seq<App>)
    requires |tmp| < TWO64
    ensures apps == Selected(tmp, first, max, client)
    ensures apps == UpTo(Slice(tmp, first, max), client)
            <==> first + max < TWO64 || UpTo(Slice(tmp, first, max), client) == []
    ensures if first + max < TWO64 && first <= |tmp|
            then Kept(tmp[first..Min(|tmp|, first + max)], client, apps)
            else apps == []
  {
    SelectedKeeps(tmp, first, max, client);
    apps := CollectWindow(tmp, first, Min(|tmp|, (first + max) % TWO64), client);
    SelectedRightIff(tmp, first, max, client);
  }

  /** The loop over the records from `first` up to `end`. */
  method CollectWindow(tmp: seq<App>, first: nat, end: nat, client: nat) returns (apps: seq<App>)
    requires end <= |tmp|
    ensures apps == if first <= end then UpTo(tmp[first..end], client) else []
  {
    apps := [];
    var i := first;
    while i < end
      invariant first <= i && (first <= end ==> i <= end)
      invariant apps == if i <= end then UpTo(tmp[first..i], client) else []
    {
      assert tmp[first..i + 1][..i - first] == tmp[first..i];
      if tmp[i].blk <= client {
        apps := apps + [tmp[i]];
      }
      i := i + 1;
    }
  }

  /** A sum that wraps ends before it begins, and one that does not gives the slice. */
  lemma SelectedIs(tmp: seq<App>, first: u64, max: u64, client: nat)
    ensures Selected(tmp, first, max, client)
            == if first + max < TWO64 then UpTo(Slice(tmp, first, max), client) else []
  {
    if first + max < TWO64 {
      var end := Min(|tmp|, first + max);
      assert (first + max) % TWO64 == first + max;
      if first <= |tmp| { assert Slice(tmp, first, max) == tmp[first..end]; }
    } else {
      assert (first + max) % TWO64 == first + max - TWO64 < first;
    }
  }

  lemma SelectedRightIff(tmp: seq<App>, first: u64, max: u64, client: nat)
    ensures Selected(tmp, first, max, client) == UpTo(Slice(tmp, first, max), client)
            <==> first + max < TWO64 || UpTo(Slice(tmp, first, max), client) == []
  {
    SelectedIs(tmp, first, max, client);
  }

  /** With the default of 2^64 - 1 records the loop selects all if it starts at 0, and else nothing. */
  method LoadDefault(tmp: seq<App>, first: u64, client: nat) returns (apps: seq<App>)
    requires |tmp| < TWO64
    ensures apps == if first == 0 then UpTo(tmp, client) else []
  {
    apps := LoadWindow(tmp, first, TWO64 - 1, client);
    SelectedIs(tmp, first, TWO64 - 1, client);
    assert tmp[0..|tmp|] == tmp;
  }

  /** `n` consecutive pages of `k` records, one after the other. */
  function Pages(tmp: seq<App>, k: nat, n: nat, client: nat): seq<App>
    requires k * n < TWO64
  {
    if n == 0 then []
    else
      PageFits(k, n);
      Pages(tmp, k, n - 1, client) + Selected(tmp, k * (n - 1), k, client)
  }

  lemma PageFits(k: nat, n: nat)
    requires n > 0 && k * n < TWO64
    ensures k * (n - 1) + k == k * n && 0 <= k * (n - 1) <= k * n && k <= k * n
  {
    assert k * n == k * (n - 1) + k;
  }

  /** The next page continues the list. */
  lemma PageContinues(tmp: seq<App>, lo: nat, k: nat, client: nat)
    ensures UpTo(tmp[..Min(|tmp|, lo)], client) + UpTo(Slice(tmp, lo, k), client)
            == UpTo(tmp[..Min(|tmp|, lo + k)], client)
  {
    var a, b := tmp[..Min(|tmp|, lo)], Slice(tmp, lo, k);
    UpToJoin(a, b, client);
    assert a + b == tmp[..Min(|tmp|, lo + k)];
  }

  lemma PageSelected(tmp: seq<App>, lo: u64, k: u64, client: nat)
    requires lo + k < TWO64
    ensures UpTo(tmp[..Min(|tmp|, lo)], client) + Selected(tmp, lo, k, client)
            == UpTo(tmp[..Min(|tmp|, lo + k)], client)
  {
    SelectedIs(tmp, lo, k, client);
    PageContinues(tmp, lo, k, client);
  }

  /** Pages put together are the list up to their end, each record once and in order. */
  lemma {:induction false} PagesConcatenate(tmp: seq<App>, k: nat, n: nat, client: nat)
    requires k * n < TWO64
    ensures Pages(tmp, k, n, client) == UpTo(tmp[..Min(|tmp|, k * n)], client)
  {
    if n > 0 {
      PageFits(k, n);
      PagesConcatenate(tmp, k, n - 1, client);
      PageSelected(tmp, k * (n - 1), k, client);
    }
  }

  /** Enough pages give the whole list up to the head of the chain. */
  lemma AllPages(tmp: seq<App>, k: nat, n: nat, client: nat)
    requires |tmp| <= k * n < TWO64
    ensures Pages(tmp, k, n, client) == UpTo(tmp, client)
  {
    PagesConcatenate(tmp, k, n, client);
    assert tmp[..|tmp|] == tmp;
  }
}
