/** Cleaning a monitor file: sort, then drop adjacent duplicates. */
module Clean {
  import opened Util
  import opened Index

  predicate Before(x: App, y: App) {
    if x.blk != y.blk then x.blk < y.blk else x.txid < y.txid
  }

  predicate Ordered(s: seq<App>) {
    forall i, j :: 0 <= i < j < |s| ==> !Before(s[j], s[i])
  }

  predicate Strict(s: seq<App>) {
    forall i, j :: 0 <= i < j < |s| ==> Before(s[i], s[j])
  }

  predicate NotAfter(x: App, y: App) {
    !Before(y, x)
  }

  function SortApps(s: seq<App>): seq<App> {
    Sort(NotAfter, s)
  }

  lemma AppsSorted(s: seq<App>)
    ensures Ordered(SortApps(s)) && multiset(SortApps(s)) == multiset(s)
    ensures Strict(s) ==> SortApps(s) == s
  {
    SortSorts(NotAfter, s);
    if Strict(s) { SortedIsFixed(NotAfter, s); }
  }

  /** A default-constructed appearance. */
  const DEFAULT: App := App(0, 0)

  /** The loop: keep what differs from its predecessor, the first record's being the default. */
  function Dedup(prev: App, s: seq<App>): seq<App>
    decreases |s|
  {
    if s == [] then [] else (if s[0] != prev then [s[0]] else []) + Dedup(s[0], s[1..])
  }

  function Cleaned(s: seq<App>): seq<App> {
    Dedup(DEFAULT, SortApps(s))
  }

  /** The values of a list. */
  ghost function Values(s: seq<App>): set<App> {
    set i | 0 <= i < |s| :: s[i]
  }

  lemma ValuesCons(x: App, s: seq<App>)
    ensures Values([x] + s) == {x} + Values(s)
  {
    forall y | y in Values(s) ensures y in Values([x] + s) {
      var i :| 0 <= i < |s| && s[i] == y;
      assert ([x] + s)[i + 1] == y;
    }
    assert ([x] + s)[0] == x;
  }

  lemma OrderedTail(s: seq<App>)
    requires Ordered(s) && s != []
    ensures Ordered(s[1..]) && forall i :: 0 <= i < |s[1..]| ==> !Before(s[1..][i], s[0])
  {
  }

  /** On an ordered list that does not go below `prev`, what is kept is strictly ascending, above
      `prev`, and all values but `prev`. */
  lemma {:induction false} DedupKeeps(prev: App, s: seq<App>)
    requires Ordered(s) && forall i :: 0 <= i < |s| ==> !Before(s[i], prev)
    ensures Strict(Dedup(prev, s)) && forall i :: 0 <= i < |Dedup(prev, s)| ==> Before(prev, Dedup(prev, s)[i])
    ensures Values(Dedup(prev, s)) == Values(s) - {prev}
    decreases |s|
  {
    if s != [] {
      OrderedTail(s);
      DedupKeeps(s[0], s[1..]);
      ValuesCons(s[0], s[1..]);
      assert s == [s[0]] + s[1..];
      var d := Dedup(s[0], s[1..]);
      if s[0] != prev {
        ValuesCons(s[0], d);
        assert Before(prev, s[0]);
      } else {
        assert [] + d == d;
      }
    }
  }

  lemma SameValues(s: seq<App>, t: seq<App>)
    requires multiset(s) == multiset(t)
    ensures Values(s) == Values(t)
  {
    forall y | y in Values(s) ensures y in Values(t) { assert y in multiset(t); }
    forall y | y in Values(t) ensures y in Values(s) { assert y in multiset(s); }
  }

  /** Cleaning leaves every distinct record once, in ascending order, except that a record (0, 0) is
      always lost. */
  lemma CleanedValues(s: seq<App>)
    ensures Strict(Cleaned(s)) && Values(Cleaned(s)) == Values(s) - {DEFAULT}
  {
    AppsSorted(s);
    DedupKeeps(DEFAULT, SortApps(s));
    SameValues(s, SortApps(s));
  }

  /** Nothing is lost if and only if the file does not hold appearance 0 of block 0. */
  lemma LosslessIff(s: seq<App>)
    ensures Values(Cleaned(s)) == Values(s) <==> DEFAULT !in s
  {
    CleanedValues(s);
    assert DEFAULT in s <==> DEFAULT in Values(s);
  }

  /** A monitor of one presale account, whose only appearance is the first one in block zero, is emptied. */
  lemma OriginIsLost(s: seq<App>)
    requires s == [App(0, 0)]
    ensures Cleaned(s) == [] && Values(Cleaned(s)) != Values(s)
  {
    CleanedValues(s);
    LosslessIff(s);
    assert Values(s) - {DEFAULT} == {};
    NoValues(Cleaned(s));
  }

  lemma NoValues(s: seq<App>)
    ensures Values(s) == {} <==> s == []
  {
    if s != [] { assert s[0] in Values(s); }
  }

  lemma {:induction false} StrictIsKept(prev: App, s: seq<App>)
    requires Strict(s) && prev !in s
    ensures Dedup(prev, s) == s
    decreases |s|
  {
    if s != [] {
      assert s[0] !in s[1..];
      StrictIsKept(s[0], s[1..]);
    }
  }

  /** Cleaning twice is cleaning once. */
  lemma CleaningIsIdempotent(s: seq<App>)
    ensures Cleaned(Cleaned(s)) == Cleaned(s)
  {
    var c := Cleaned(s);
    CleanedValues(s);
    AppsSorted(c);
    assert DEFAULT !in c by { assert DEFAULT in c ==> DEFAULT in Values(c); }
    StrictIsKept(DEFAULT, c);
  }

  /** One turn of the loop. */
  lemma DedupStep(deduped: seq<App>, prev: App, sorted: seq<App>, i: nat)
    requires i < |sorted|
    ensures var a := sorted[i];
            deduped + Dedup(prev, sorted[i..])
            == (if a.blk != prev.blk || a.txid != prev.txid then deduped + [a] else deduped) + Dedup(a, sorted[i + 1..])
  {
    var a, rest := sorted[i], Dedup(sorted[i], sorted[i + 1..]);
    assert sorted[i..][1..] == sorted[i + 1..] && sorted[i..][0] == a;
    assert deduped + ([a] + rest) == (deduped + [a]) + rest;
  }

  /** cleanMonitorFile on the records of one file. */
  method CleanMonitor(apps: seq<App>) returns (deduped: seq<App>)
    ensures deduped == Cleaned(apps)
    ensures forall i, j :: 0 <= i < j < |deduped| ==>
              deduped[i].blk < deduped[j].blk || (deduped[i].blk == deduped[j].blk && deduped[i].txid < deduped[j].txid)
    ensures forall x: App :: x in deduped <==> x in apps && x != App(0, 0)
  {
    var sorted := SortApps(apps);
    var prev := DEFAULT;
    deduped := [];
    var i := 0;
    while i < |sorted|
      invariant i <= |sorted| && deduped + Dedup(prev, sorted[i..]) == Dedup(DEFAULT, sorted)
    {
      var a := sorted[i];
      DedupStep(deduped, prev, sorted, i);
      if a.blk != prev.blk || a.txid != prev.txid {
        deduped := deduped + [a];
      }
      prev := a;
      i := i + 1;
    }
    assert deduped + [] == deduped;
    CleanedValues(apps);
    forall x: App ensures x in deduped <==> x in apps && x != App(0, 0) {
      assert x in deduped <==> x in Values(deduped);
      assert x in apps <==> x in Values(apps);
    }
  }
}
