/**
 * The kind-count summary of `updateResourceCount`: a dictionary from kind to
 * the number of accepted objects of that kind, filled in one pass, whose
 * entries are then put in the order of the default array sort. The badges
 * the entries become are rendering and are not modelled.
 */
module ResourceCount {
  import opened KubeObjects
  import opened Decimal
  import opened TextOrder

  /** One `[kind, count]` entry of `Object.entries(counts)`. */
  datatype KindCount = KindCount(kind: string, count: nat)

  // ---- the reference counts ----

  /** How many of `resources` have kind `kind` (as the dictionary key `${kind}`). */
  function Occurrences(resources: seq<Doc>, kind: string): nat
  {
    if resources == [] then 0
    else
      var last := resources[|resources| - 1];
      Occurrences(resources[..|resources| - 1], kind) + (if KindText(last) == kind then 1 else 0)
  }

  /** The kinds of `resources` without repetition, in the order they first occur. */
  function FirstSeen(resources: seq<Doc>): (ks: seq<string>)
    ensures forall kind :: kind in ks <==> Occurrences(resources, kind) > 0
    ensures forall i, j :: 0 <= i < j < |ks| ==> ks[i] != ks[j]
  {
    if resources == [] then []
    else
      var init := FirstSeen(resources[..|resources| - 1]);
      var kind := KindText(resources[|resources| - 1]);
      if kind in init then init else init + [kind]
  }

  /** The entries for the kinds `ks`, each with its count in `resources`. */
  function Tally(ks: seq<string>, resources: seq<Doc>): (t: seq<KindCount>)
    ensures |t| == |ks|
    ensures forall j :: 0 <= j < |ks| ==> t[j] == KindCount(ks[j], Occurrences(resources, ks[j]))
  {
    if ks == [] then []
    else Tally(ks[..|ks| - 1], resources) + [KindCount(ks[|ks| - 1], Occurrences(resources, ks[|ks| - 1]))]
  }

  /** `Object.entries(counts)` once every object has been counted. */
  function Entries(resources: seq<Doc>): seq<KindCount>
  {
    Tally(FirstSeen(resources), resources)
  }

  function SumCounts(s: seq<KindCount>): nat
  {
    if s == [] then 0 else s[0].count + SumCounts(s[1..])
  }

  // ---- the default sort ----

  /** The text the default sort compares an entry by: `${kind},${count}`. */
  function EntryText(e: KindCount): string
  {
    e.kind + "," + NatToString(e.count)
  }

  /** An entry is determined by its sort text, since the count part holds no comma. */
  lemma EntryTextInjective(x: KindCount, y: KindCount)
    requires EntryText(x) == EntryText(y)
    ensures x == y
  {
    var a, b := x.kind, y.kind;
    var s, t := NatToString(x.count), NatToString(y.count);
    assert EntryText(x) == a + "," + s && EntryText(y) == b + "," + t;
    assert EntryText(x)[|a|] == ',' && EntryText(y)[|b|] == ',';
    if |a| == |b| {
      assert a == EntryText(x)[..|a|] && b == EntryText(y)[..|b|];
      assert s == EntryText(x)[|a| + 1..] && t == EntryText(y)[|b| + 1..];
      NatToStringInjective(x.count, y.count);
    }
  }

  /** Non-decreasing by sort text. */
  predicate Sorted(s: seq<KindCount>)
  {
    forall i, j :: 0 <= i < j < |s| ==> AtMost(EntryText(s[i]), EntryText(s[j]))
  }

  /** Strictly increasing by sort text. */
  predicate StrictlySorted(s: seq<KindCount>)
  {
    forall i, j :: 0 <= i < j < |s| ==> Below(EntryText(s[i]), EntryText(s[j]))
  }

  /** Pairwise different kinds. */
  predicate DistinctKinds(s: seq<KindCount>)
  {
    forall i, j :: 0 <= i < j < |s| ==> s[i].kind != s[j].kind
  }

  /** Inserts `e` before the first entry it does not sort after. */
  function Insert(e: KindCount, s: seq<KindCount>): (r: seq<KindCount>)
    ensures multiset(r) == multiset(s) + multiset{e}
    ensures |r| == |s| + 1
  {
    if s == [] || AtMost(EntryText(e), EntryText(s[0])) then [e] + s
    else
      assert s == [s[0]] + s[1..];
      [s[0]] + Insert(e, s[1..])
  }

  lemma {:induction false} InsertSum(e: KindCount, s: seq<KindCount>)
    ensures SumCounts(Insert(e, s)) == SumCounts(s) + e.count
  {
    var r := Insert(e, s);
    if s == [] || AtMost(EntryText(e), EntryText(s[0])) {
      assert r[1..] == s;
    } else {
      InsertSum(e, s[1..]);
      assert r[1..] == Insert(e, s[1..]);
    }
  }

  lemma {:induction false} InsertSorted(e: KindCount, s: seq<KindCount>)
    requires Sorted(s)
    ensures Sorted(Insert(e, s))
  {
    var r := Insert(e, s);
    if s == [] || AtMost(EntryText(e), EntryText(s[0])) {
      assert r[1..] == s;
      forall j | 0 < j < |r|
        ensures AtMost(EntryText(e), EntryText(r[j]))
      {
        if j > 1 {
          AtMostTransitive(EntryText(e), EntryText(s[0]), EntryText(r[j]));
        }
      }
    } else {
      var rest := Insert(e, s[1..]);
      InsertSorted(e, s[1..]);
      assert r[1..] == rest;
      BelowTotal(EntryText(e), EntryText(s[0]));
      forall j | 0 < j < |r|
        ensures AtMost(EntryText(s[0]), EntryText(r[j]))
      {
        assert r[j] in multiset(rest);
        if r[j] != e {
          var k :| 0 <= k < |s[1..]| && s[1..][k] == r[j];
          assert s[k + 1] == r[j];
        }
      }
    }
  }

  lemma {:induction false} InsertStrict(e: KindCount, s: seq<KindCount>)
    requires StrictlySorted(s)
    requires forall y :: y in s ==> y.kind != e.kind
    ensures StrictlySorted(Insert(e, s))
  {
    var r := Insert(e, s);
    if s == [] || AtMost(EntryText(e), EntryText(s[0])) {
      assert r[1..] == s;
      if s != [] {
        if EntryText(e) == EntryText(s[0]) {
          EntryTextInjective(e, s[0]);
        }
        forall j | 0 < j < |r|
          ensures Below(EntryText(e), EntryText(r[j]))
        {
          if j > 1 {
            BelowTransitive(EntryText(e), EntryText(s[0]), EntryText(r[j]));
          }
        }
      }
    } else {
      var rest := Insert(e, s[1..]);
      InsertStrict(e, s[1..]);
      assert r[1..] == rest;
      BelowTotal(EntryText(e), EntryText(s[0]));
      forall j | 0 < j < |r|
        ensures Below(EntryText(s[0]), EntryText(r[j]))
      {
        assert r[j] in multiset(rest);
        if r[j] != e {
          var k :| 0 <= k < |s[1..]| && s[1..][k] == r[j];
          assert s[k + 1] == r[j];
        }
      }
    }
  }

  /** The default array sort, as an insertion sort on sort texts. */
  function SortEntries(s: seq<KindCount>): (r: seq<KindCount>)
    ensures multiset(r) == multiset(s)
    ensures |r| == |s|
  {
    if s == [] then []
    else
      assert s == [s[0]] + s[1..];
      Insert(s[0], SortEntries(s[1..]))
  }

  /** Sorting keeps the sum of the counts. */
  lemma {:induction false} SortSum(s: seq<KindCount>)
    ensures SumCounts(SortEntries(s)) == SumCounts(s)
  {
    if s != [] {
      SortSum(s[1..]);
      InsertSum(s[0], SortEntries(s[1..]));
    }
  }

  /**
   * The sort leaves the entries in order of their sort texts, strictly so
   * when the kinds are pairwise different (as the keys of a dictionary are).
   */
  lemma {:induction false} SortSorted(s: seq<KindCount>)
    ensures Sorted(SortEntries(s))
    ensures DistinctKinds(s) ==> StrictlySorted(SortEntries(s))
  {
    if s != [] {
      var rest := SortEntries(s[1..]);
      SortSorted(s[1..]);
      InsertSorted(s[0], rest);
      if DistinctKinds(s) {
        forall y | y in rest
          ensures y.kind != s[0].kind
        {
          assert y in multiset(s[1..]);
          var j :| 0 <= j < |s[1..]| && s[1..][j] == y;
          assert s[j + 1] == y;
        }
        InsertStrict(s[0], rest);
      }
    }
  }

  // ---- the summary ----

  /** The entries of `updateResourceCount` in the order they are displayed. */
  function Summary(resources: seq<Doc>): seq<KindCount>
  {
    SortEntries(Entries(resources))
  }

  /** The counting loop and the sort of `updateResourceCount`. */
  method UpdateResourceCount(resources: seq<Doc>) returns (summary: seq<KindCount>)
    ensures summary == Summary(resources)
  {
    var counts: map<string, nat> := map[];
    var order: seq<string> := [];
    for i := 0 to |resources|
      invariant order == FirstSeen(resources[..i])
      invariant forall kind :: kind in counts <==> kind in order
      invariant forall kind :: kind in counts ==> counts[kind] == Occurrences(resources[..i], kind)
    {
      assert resources[..i + 1][..i] == resources[..i];
      var kind := KindText(resources[i]);
      var current := if kind in counts then counts[kind] else 0;
      if kind !in counts {
        order := order + [kind];
      }
      counts := counts[kind := current + 1];
    }
    assert resources[..|resources|] == resources;
    var entries := seq(|order|, j requires 0 <= j < |order| => KindCount(order[j], counts[order[j]]));
    assert entries == Entries(resources);
    summary := SortEntries(entries);
  }

  // ---- what the summary states ----

  lemma {:induction false} SumCountsAppend(s: seq<KindCount>, x: KindCount)
    ensures SumCounts(s + [x]) == SumCounts(s) + x.count
  {
    if s != [] {
      SumCountsAppend(s[1..], x);
      assert (s + [x])[1..] == s[1..] + [x];
    }
  }

  /** How many times `kind` occurs in `ks`. */
  function Hits(ks: seq<string>, kind: string): nat
  {
    if ks == [] then 0 else Hits(ks[..|ks| - 1], kind) + (if ks[|ks| - 1] == kind then 1 else 0)
  }

  lemma {:induction false} HitsDistinct(ks: seq<string>, kind: string)
    requires forall i, j :: 0 <= i < j < |ks| ==> ks[i] != ks[j]
    ensures Hits(ks, kind) == if kind in ks then 1 else 0
  {
    if ks != [] {
      var init := ks[..|ks| - 1];
      HitsDistinct(init, kind);
      assert ks == init + [ks[|ks| - 1]];
    }
  }

  /** Counting one more object adds one to the tally of its kind, once per listing of that kind. */
  lemma {:induction false} TallyStep(ks: seq<string>, resources: seq<Doc>)
    requires resources != []
    ensures SumCounts(Tally(ks, resources)) ==
              SumCounts(Tally(ks, resources[..|resources| - 1])) + Hits(ks, KindText(resources[|resources| - 1]))
  {
    if ks != [] {
      var init := ks[..|ks| - 1];
      var last := ks[|ks| - 1];
      TallyStep(init, resources);
      SumCountsAppend(Tally(init, resources), KindCount(last, Occurrences(resources, last)));
      SumCountsAppend(Tally(init, resources[..|resources| - 1]),
                      KindCount(last, Occurrences(resources[..|resources| - 1], last)));
    }
  }

  /** A tally over distinct kinds that lists every kind present adds up to the number of objects. */
  lemma {:induction false} TallyTotal(ks: seq<string>, resources: seq<Doc>)
    requires forall i, j :: 0 <= i < j < |ks| ==> ks[i] != ks[j]
    requires forall kind :: Occurrences(resources, kind) > 0 ==> kind in ks
    ensures SumCounts(Tally(ks, resources)) == |resources|
  {
    if resources == [] {
      forall j | 0 <= j < |ks|
        ensures Tally(ks, resources)[j].count == 0
      {
      }
      TallyZero(Tally(ks, resources));
    } else {
      var init := resources[..|resources| - 1];
      var kind := KindText(resources[|resources| - 1]);
      TallyTotal(ks, init);
      TallyStep(ks, resources);
      assert Occurrences(resources, kind) > 0;
      HitsDistinct(ks, kind);
    }
  }

  lemma {:induction false} TallyZero(s: seq<KindCount>)
    requires forall j :: 0 <= j < |s| ==> s[j].count == 0
    ensures SumCounts(s) == 0
  {
    if s != [] {
      TallyZero(s[1..]);
    }
  }

  /** Each count of the summary is the number of objects of that kind. */
  lemma EntriesCounts(resources: seq<Doc>, x: KindCount)
    ensures x in Entries(resources) <==> Occurrences(resources, x.kind) > 0 && x.count == Occurrences(resources, x.kind)
  {
    var ks := FirstSeen(resources);
    if Occurrences(resources, x.kind) > 0 && x.count == Occurrences(resources, x.kind) {
      var j :| 0 <= j < |ks| && ks[j] == x.kind;
      assert Entries(resources)[j] == x;
    }
  }

  /**
   * What `updateResourceCount` displays: one entry per kind present, whose
   * count is the number of accepted objects of that kind (objects the graph
   * builder synthesises are not among them).
   */
  lemma SummaryMembership(resources: seq<Doc>)
    ensures forall x :: x in Summary(resources) <==>
              Occurrences(resources, x.kind) > 0 && x.count == Occurrences(resources, x.kind)
    ensures forall kind :: Occurrences(resources, kind) > 0 ==>
              KindCount(kind, Occurrences(resources, kind)) in Summary(resources)
  {
    var entries := Entries(resources);
    forall x
      ensures x in Summary(resources) <==>
                Occurrences(resources, x.kind) > 0 && x.count == Occurrences(resources, x.kind)
    {
      EntriesCounts(resources, x);
      assert x in Summary(resources) <==> x in multiset(entries);
    }
  }

  /** The displayed counts add up to the number of accepted objects. */
  lemma SummaryTotal(resources: seq<Doc>)
    ensures SumCounts(Summary(resources)) == |resources|
  {
    TallyTotal(FirstSeen(resources), resources);
    SortSum(Entries(resources));
  }

  /** The displayed entries are in strictly increasing order of their sort texts. */
  lemma SummarySorted(resources: seq<Doc>)
    ensures StrictlySorted(Summary(resources))
  {
    SortSorted(Entries(resources));
  }

  lemma OccurrencesWitness(resources: seq<Doc>, kind: string) returns (i: nat)
    requires Occurrences(resources, kind) > 0
    ensures i < |resources| && KindText(resources[i]) == kind
  {
    var last := |resources| - 1;
    if KindText(resources[last]) == kind {
      i := last;
    } else {
      i := OccurrencesWitness(resources[..last], kind);
    }
  }

  /**
   * When no kind holds a character sorting at or below ',' (Kubernetes kinds
   * are alphanumeric), the display order is strictly increasing by kind.
   */
  lemma SummaryByKind(resources: seq<Doc>)
    requires forall i :: 0 <= i < |resources| ==> AllAbove(KindText(resources[i]), ',')
    ensures forall i, j :: 0 <= i < j < |Summary(resources)| ==>
              Below(Summary(resources)[i].kind, Summary(resources)[j].kind)
  {
    var s := Summary(resources);
    SummaryMembership(resources);
    SummarySorted(resources);
    forall i, j | 0 <= i < j < |s|
      ensures Below(s[i].kind, s[j].kind)
    {
      var x, y := s[i], s[j];
      assert x in s && y in s;
      if x.kind == y.kind {
        BelowIrreflexive(EntryText(x));
      }
      var ix := OccurrencesWitness(resources, x.kind);
      var iy := OccurrencesWitness(resources, y.kind);
      assert EntryText(x) == x.kind + [','] + NatToString(x.count);
      assert EntryText(y) == y.kind + [','] + NatToString(y.count);
      BelowKeptBySeparator(x.kind, y.kind, ',', NatToString(x.count), NatToString(y.count));
    }
  }
}
