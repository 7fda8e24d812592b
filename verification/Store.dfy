/** All monitors together: any number of freshens, each for its own set of addresses. */
module Store {
  import opened Util
  import opened Chain
  import opened Pipeline
  import opened Soundness
  import opened Runs
  import opened Index
  import opened Monitors
  import opened Freshening
  import opened Freshener
  import opened EndToEnd
  import opened Order
  import Clean

  /** One call of acctExport for these addresses, when the first `upTo` chunks were finalized. */
  datatype Request = Request(addrs: seq<nat>, upTo: nat)

  function FilesOf(store: map<nat, Files>, addr: nat): Files {
    if addr in store then store[addr] else NewMonitor()
  }

  /** The freshens that an address takes part in. */
  function UpTos(requests: seq<Request>, addr: nat): seq<nat> {
    if requests == [] then []
    else
      var n := |requests| - 1;
      UpTos(requests[..n], addr) + (if addr in requests[n].addrs then [requests[n].upTo] else [])
  }

  /** Twenty-byte addresses, each once, and no more chunks than there are. */
  predicate Fair(r: Request, total: nat) {
    && r.upTo <= total
    && (forall i :: 0 <= i < |r.addrs| ==> IsAddress(r.addrs[i]))
    && (forall i, j :: 0 <= i < j < |r.addrs| ==> r.addrs[i] != r.addrs[j])
  }

  predicate AllFair(requests: seq<Request>, total: nat) {
    forall i :: 0 <= i < |requests| ==> Fair(requests[i], total)
  }

  ghost predicate AllMarked(store: map<nat, Files>) {
    forall addr: nat :: HasMark(FilesOf(store, addr))
  }

  // ----- watermarks -----

  lemma {:induction false} VisitsKeepMark(f: Files, m: Monitor, chunks: seq<FinalFile>)
    requires HasMark(f) && (f.stagedBin.Some? ==> f.stagedLast.Some?)
    ensures var g := VisitAll(f, m, chunks); HasMark(g) && (g.stagedBin.Some? ==> g.stagedLast.Some?)
    decreases |chunks|
  {
    if chunks != [] { VisitsKeepMark(f, m, chunks[..|chunks| - 1]); }
  }

  lemma FreshenKeepsMark(f: Files, addr: nat, chunks: seq<FinalFile>)
    requires HasMark(f)
    ensures HasMark(Freshen(f, addr, chunks))
  {
    VisitsKeepMark(f.(stagedBin := None, stagedLast := None), Monitor(addr, f.bin.None?), chunks);
  }

  // ----- one request -----

  /** Write the files of these addresses back. */
  method PutAll(store: map<nat, Files>, addrs: seq<nat>, files: seq<Files>) returns (out: map<nat, Files>)
    requires |files| == |addrs| && forall i, j :: 0 <= i < j < |addrs| ==> addrs[i] != addrs[j]
    ensures forall i :: 0 <= i < |addrs| ==> FilesOf(out, addrs[i]) == files[i]
    ensures forall addr: nat :: addr !in addrs ==> FilesOf(out, addr) == FilesOf(store, addr)
  {
    out := store;
    var k := 0;
    while k < |addrs|
      invariant k <= |addrs|
      invariant forall i :: 0 <= i < k ==> FilesOf(out, addrs[i]) == files[i]
      invariant forall addr: nat :: addr !in addrs[..k] ==> FilesOf(out, addr) == FilesOf(store, addr)
    {
      out := out[addrs[k] := files[k]];
      assert addrs[..k + 1] == addrs[..k] + [addrs[k]];
      k := k + 1;
    }
    assert addrs[..k] == addrs;
  }

  function Undisturbed(n: nat): (visits: seq<Visit>)
    ensures |visits| == n && forall a :: 0 <= a < n ==> visits[a] == Visit(true, Never, false)
  {
    seq(n, i => Visit(true, Never, false))
  }

  function FilesFor(store: map<nat, Files>, addrs: seq<nat>): (fs: seq<Files>)
    ensures |fs| == |addrs| && forall i :: 0 <= i < |fs| ==> fs[i] == FilesOf(store, addrs[i])
  {
    seq(|addrs|, i requires 0 <= i < |addrs| => FilesOf(store, addrs[i]))
  }

  lemma ReadyToServe(store: map<nat, Files>, r: Request, chunks: seq<FinalFile>, finalized: nat)
    requires Fair(r, |chunks|) && TiledFiles(chunks) && AllMarked(store)
    requires forall a :: 0 <= a < |chunks| ==> Published(chunks[a])
    requires r.upTo > 0 ==> finalized == chunks[r.upTo - 1].last
    ensures Marked(FilesFor(store, r.addrs)) && Enough(r.addrs, chunks[..r.upTo], Undisturbed(r.upTo))
    ensures forall a :: 0 <= a < r.upTo ==> Published(chunks[..r.upTo][a]) && chunks[..r.upTo][a].last <= finalized
  {
    LastIsGreatest(chunks, r.upTo, finalized);
    assert forall a :: 0 <= a < r.upTo ==> chunks[..r.upTo][a] == chunks[a];
  }

  /** An undisturbed call freshens the monitors asked for, each as if it were alone, and no other. */
  method Serve(store: map<nat, Files>, r: Request, chunks: seq<FinalFile>, deployed: nat -> Option<nat>)
    returns (out: map<nat, Files>)
    requires Fair(r, |chunks|) && TiledFiles(chunks) && AllMarked(store)
    requires forall a :: 0 <= a < |chunks| ==> Published(chunks[a])
    ensures AllMarked(out)
    ensures forall addr: nat ::
              FilesOf(out, addr)
              == if addr in r.addrs then Freshen(FilesOf(store, addr), addr, chunks[..r.upTo]) else FilesOf(store, addr)
  {
    var now := chunks[..r.upTo];
    var fs := FilesFor(store, r.addrs);
    var ds := seq(|r.addrs|, i requires 0 <= i < |r.addrs| => deployed(r.addrs[i]));
    var finalized := if now == [] then 0 else now[|now| - 1].last;
    ReadyToServe(store, r, chunks, finalized);
    var files, _, _ := ProcessFreshen(r.addrs, fs, ds, now, finalized, Undisturbed(|now|));
    assert forall i :: 0 <= i < |fs| ==> files[i] == Freshen(fs[i], r.addrs[i], now);
    out := PutAll(store, r.addrs, files);
    ServedEach(store, r, now, files, out);
  }

  lemma ServedEach(store: map<nat, Files>, r: Request, now: seq<FinalFile>, files: seq<Files>, out: map<nat, Files>)
    requires AllMarked(store) && |files| == |r.addrs|
    requires forall i :: 0 <= i < |r.addrs| ==> files[i] == Freshen(FilesOf(store, r.addrs[i]), r.addrs[i], now)
    requires forall i :: 0 <= i < |r.addrs| ==> FilesOf(out, r.addrs[i]) == files[i]
    requires forall addr: nat :: addr !in r.addrs ==> FilesOf(out, addr) == FilesOf(store, addr)
    ensures AllMarked(out)
    ensures forall addr: nat ::
              FilesOf(out, addr)
              == if addr in r.addrs then Freshen(FilesOf(store, addr), addr, now) else FilesOf(store, addr)
  {
    forall addr: nat
      ensures HasMark(FilesOf(out, addr))
      ensures FilesOf(out, addr)
              == if addr in r.addrs then Freshen(FilesOf(store, addr), addr, now) else FilesOf(store, addr)
    {
      if addr in r.addrs {
        var i :| 0 <= i < |r.addrs| && r.addrs[i] == addr;
        FreshenKeepsMark(FilesOf(store, addr), addr, now);
      }
    }
  }

  lemma LastIsGreatest(chunks: seq<FinalFile>, u: nat, finalized: nat)
    requires TiledFiles(chunks) && u <= |chunks| && (u > 0 ==> finalized == chunks[u - 1].last)
    ensures forall a :: 0 <= a < u ==> chunks[..u][a].last <= finalized
  {
    forall a | 0 <= a < u ensures chunks[..u][a].last <= finalized {
      if a + 1 < u { EndsAscend(chunks, a + 1, u); }
    }
  }

  // ----- any number of requests -----

  lemma {:induction false} FreshensSnoc(f: Files, addr: nat, chunks: seq<FinalFile>, upTo: seq<nat>, u: nat)
    requires u <= |chunks| && forall i :: 0 <= i < |upTo| ==> upTo[i] <= |chunks|
    ensures Freshens(f, addr, chunks, upTo + [u]) == Freshen(Freshens(f, addr, chunks, upTo), addr, chunks[..u])
    decreases |upTo|
  {
    if upTo == [] {
      assert upTo + [u] == [u] && [u][1..] == [];
      assert Freshens(Freshen(f, addr, chunks[..u]), addr, chunks, []) == Freshen(f, addr, chunks[..u]);
    } else {
      assert (upTo + [u])[1..] == upTo[1..] + [u];
      FreshensSnoc(Freshen(f, addr, chunks[..upTo[0]]), addr, chunks, upTo[1..], u);
    }
  }

  lemma {:induction false} UpTosWithin(requests: seq<Request>, addr: nat, total: nat)
    requires AllFair(requests, total)
    ensures forall i :: 0 <= i < |UpTos(requests, addr)| ==> UpTos(requests, addr)[i] <= total
    decreases |requests|
  {
    if requests != [] { UpTosWithin(requests[..|requests| - 1], addr, total); }
  }

  /** What the monitor of `addr` should have after some requests. */
  ghost function After(f: Files, addr: nat, chunks: seq<FinalFile>, requests: seq<Request>): Files
    requires AllFair(requests, |chunks|)
  {
    UpTosWithin(requests, addr, |chunks|);
    Freshens(f, addr, chunks, UpTos(requests, addr))
  }

  lemma AfterStep(f: Files, addr: nat, chunks: seq<FinalFile>, requests: seq<Request>, k: nat)
    requires AllFair(requests, |chunks|) && k < |requests|
    ensures var g := After(f, addr, chunks, requests[..k]);
            After(f, addr, chunks, requests[..k + 1])
            == if addr in requests[k].addrs then Freshen(g, addr, chunks[..requests[k].upTo]) else g
  {
    assert requests[..k + 1][..k] == requests[..k];
    UpTosWithin(requests[..k], addr, |chunks|);
    var ups := UpTos(requests[..k], addr);
    if addr in requests[k].addrs {
      FreshensSnoc(f, addr, chunks, ups, requests[k].upTo);
    } else {
      assert ups + [] == ups;
    }
  }

  /** Over any requests, for any sets of addresses, each monitor ends as if it had been freshened alone, at
      the times it was asked for. */
  method ServeAll(store: map<nat, Files>, requests: seq<Request>, chunks: seq<FinalFile>, deployed: nat -> Option<nat>)
    returns (out: map<nat, Files>)
    requires AllFair(requests, |chunks|) && TiledFiles(chunks) && AllMarked(store)
    requires forall a :: 0 <= a < |chunks| ==> Published(chunks[a])
    ensures forall addr: nat :: FilesOf(out, addr) == After(FilesOf(store, addr), addr, chunks, requests)
  {
    out := store;
    var k := 0;
    while k < |requests|
      invariant k <= |requests| && AllMarked(out)
      invariant forall addr: nat :: FilesOf(out, addr) == After(FilesOf(store, addr), addr, chunks, requests[..k])
    {
      ghost var before := out;
      out := Serve(out, requests[k], chunks, deployed);
      forall addr: nat ensures FilesOf(out, addr) == After(FilesOf(store, addr), addr, chunks, requests[..k + 1]) {
        AfterStep(FilesOf(store, addr), addr, chunks, requests, k);
      }
      k := k + 1;
    }
    assert requests[..k] == requests;
  }

  // ----- on the index of the scraper -----

  predicate RequestsGrow(requests: seq<Request>) {
    forall i, j :: 0 <= i < j < |requests| ==> requests[i].upTo <= requests[j].upTo
  }

  lemma {:induction false} UpTosGrow(requests: seq<Request>, addr: nat, total: nat)
    requires AllFair(requests, total) && RequestsGrow(requests)
    ensures Growing(UpTos(requests, addr), 0, total)
    ensures forall i :: 0 <= i < |UpTos(requests, addr)| ==> UpTos(requests, addr)[i] <= requests[|requests| - 1].upTo
    decreases |requests|
  {
    if requests != [] {
      var n := |requests| - 1;
      UpTosGrow(requests[..n], addr, total);
      if n > 0 { assert requests[n - 1].upTo <= requests[n].upTo; }
    }
  }

  /** After any run of the scraper and any requests on the index it grew, starting without monitors: every
      monitor's appearances are in order of block and transaction, none is there more often than in the chain,
      and all are there exactly if the chunks that no request offered to it have none. */
  method ServeIndex(requests: seq<Request>, files: seq<FinalFile>, deployed: nat -> Option<nat>,
                    ghost apps: nat -> seq<Record>, ghost d: Disk) returns (out: map<nat, Files>)
    requires WellFormedChain(apps) && Sound(apps, d) && Publishes(files, d.chunks)
    requires AllFair(requests, |files|) && RequestsGrow(requests)
    ensures forall addr: nat ::
              var rows := Apps(FilesOf(out, addr).bin);
              && Clean.Ordered(rows) && multiset(rows) <= multiset(Scan(Span(apps, 0, FinalNext(d.chunks)), addr))
              && (rows == RowsFrom(files, addr, 0) <==> NoneUnasked(files, addr, requests))
  {
    PublishedAreKept(apps, files, d.chunks);
    forall a | 0 <= a < |files| ensures Published(files[a]) {
      FileIsPublished(files, d.chunks, a);
    }
    out := ServeAll(map[], requests, files, deployed);
    forall addr: nat
      ensures var rows := Apps(FilesOf(out, addr).bin);
              && Clean.Ordered(rows) && multiset(rows) <= multiset(Scan(Span(apps, 0, FinalNext(d.chunks)), addr))
              && (rows == RowsFrom(files, addr, 0) <==> NoneUnasked(files, addr, requests))
    {
      MonitorServed(apps, d, files, addr, requests);
    }
  }

  /** Chunks that no request offers to the monitor of `addr` have no row of it. */
  ghost predicate NoneUnasked(chunks: seq<FinalFile>, addr: nat, requests: seq<Request>)
    requires AllFair(requests, |chunks|)
  {
    UpTosWithin(requests, addr, |chunks|);
    forall i :: 0 <= i < |chunks| && !Gets(addr, chunks, 0, false, UpTos(requests, addr), i) ==>
        Scan(chunks[i].lines, addr) == []
  }

  lemma {:induction false} FileIsPublished(files: seq<FinalFile>, chunks: seq<Chunk>, a: nat)
    requires Publishes(files, chunks) && a < |files|
    ensures Published(files[a])
    decreases |chunks|
  {
    if a < |chunks| - 1 { FileIsPublished(files[..|chunks| - 1], chunks[..|chunks| - 1], a); }
  }

  lemma MonitorServed(apps: nat -> seq<Record>, d: Disk, files: seq<FinalFile>, addr: nat, requests: seq<Request>)
    requires WellFormedChain(apps) && Sound(apps, d) && Publishes(files, d.chunks)
    requires AllFair(requests, |files|) && RequestsGrow(requests)
    ensures var rows := Apps(After(NewMonitor(), addr, files, requests).bin);
            && Clean.Ordered(rows) && multiset(rows) <= multiset(Scan(Span(apps, 0, FinalNext(d.chunks)), addr))
            && (rows == RowsFrom(files, addr, 0) <==> NoneUnasked(files, addr, requests))
  {
    UpTosGrow(requests, addr, |files|);
    var ups := UpTos(requests, addr);
    MonitorIsInOrder(apps, d, files, addr, ups);
    ServedComplete(apps, d, files, addr, requests);
  }

  lemma ServedComplete(apps: nat -> seq<Record>, d: Disk, files: seq<FinalFile>, addr: nat, requests: seq<Request>)
    requires WellFormedChain(apps) && Sound(apps, d) && Publishes(files, d.chunks)
    requires AllFair(requests, |files|) && Growing(UpTos(requests, addr), 0, |files|)
    ensures Apps(After(NewMonitor(), addr, files, requests).bin) == RowsFrom(files, addr, 0)
            <==> NoneUnasked(files, addr, requests)
  {
    MonitorComplete(apps, d, files, addr, UpTos(requests, addr));
  }

  lemma MonitorComplete(apps: nat -> seq<Record>, d: Disk, files: seq<FinalFile>, addr: nat, ups: seq<nat>)
    requires WellFormedChain(apps) && Sound(apps, d) && Publishes(files, d.chunks) && Growing(ups, 0, |files|)
    ensures Apps(Freshens(NewMonitor(), addr, files, ups).bin) == RowsFrom(files, addr, 0)
            <==> forall i :: 0 <= i < |files| && !Gets(addr, files, 0, false, ups, i) ==>
                Scan(files[i].lines, addr) == []
  {
    PublishedAreKept(apps, files, d.chunks);
    PublishedAreFaithful(files, d.chunks);
    EveryRunCompleteIff(addr, files, ups);
  }
}
