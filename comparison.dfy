/** Month-over-month comparison shared by both backends: one difference per category of
    either month, sorted by the size of the change, and a one-line summary of the top one. */
module Comparison {
  import opened Tables

  /** One entry of `differences`: (category, old value, new value, change). */
  datatype Diff = Diff(category: string, before: real, after: real, change: real)

  function Abs(x: real): real {
    if x < 0.0 then -x else x
  }

  /** The difference for category `c`, a missing amount read as 0.0. */
  function DiffOf(s1: Table, s2: Table, c: string): Diff {
    Diff(c, Get(s1, c), Get(s2, c), Get(s2, c) - Get(s1, c))
  }

  ghost function Categories(ds: seq<Diff>): set<string> {
    set d | d in ds :: d.category
  }

  /** `ds` lists the differences of `s2` against `s1`, in some order: every entry is the
      difference of its category, the categories are those of either month, and there are
      as many entries as categories. */
  ghost predicate IsDifferences(s1: Table, s2: Table, ds: seq<Diff>) {
    && (forall d :: d in ds ==> d == DiffOf(s1, s2, d.category))
    && Categories(ds) == s1.Keys + s2.Keys
    && |ds| == |s1.Keys + s2.Keys|
  }

  /** Non-increasing by |change|, as `sort(key=abs(change), reverse=True)` leaves it. */
  predicate SortedByChange(ds: seq<Diff>) {
    forall i, j :: 0 <= i < j < |ds| ==> Abs(ds[i].change) >= Abs(ds[j].change)
  }

  lemma {:induction false} CategoriesCard(ds: seq<Diff>)
    ensures |Categories(ds)| <= |ds|
    decreases |ds|
  {
    if |ds| > 0 {
      var init := ds[..|ds| - 1];
      CategoriesCard(init);
      assert ds == init + [ds[|ds| - 1]];
      assert Categories(ds) == Categories(init) + {ds[|ds| - 1].category};
    }
  }

  lemma DuplicateShrinks(ds: seq<Diff>, i: nat, j: nat)
    requires i < j < |ds| && ds[i].category == ds[j].category
    ensures |Categories(ds)| < |ds|
  {
    var rest := ds[..j] + ds[j + 1..];
    assert ds == ds[..j] + [ds[j]] + ds[j + 1..];
    assert ds[i] == rest[i];
    assert Categories(ds) == Categories(rest);
    CategoriesCard(rest);
  }

  lemma CategoriesSnoc(ds: seq<Diff>, d: Diff)
    ensures Categories(ds + [d]) == Categories(ds) + {d.category}
  {
    assert forall e :: e in ds + [d] <==> e in ds || e == d;
  }

  /** Each category of either month appears exactly once. */
  lemma DifferencesExactlyOnce(s1: Table, s2: Table, ds: seq<Diff>)
    requires IsDifferences(s1, s2, ds)
    ensures forall i, j :: 0 <= i < j < |ds| ==> ds[i].category != ds[j].category
    ensures forall c :: c in s1 || c in s2 ==> DiffOf(s1, s2, c) in ds
  {
    forall i, j | 0 <= i < j < |ds|
      ensures ds[i].category != ds[j].category
    {
      if ds[i].category == ds[j].category {
        DuplicateShrinks(ds, i, j);
      }
    }
    DifferencesCover(s1, s2, ds);
  }

  /** Each category of either month has its difference in the list. */
  lemma DifferencesCover(s1: Table, s2: Table, ds: seq<Diff>)
    requires IsDifferences(s1, s2, ds)
    ensures forall c :: c in s1 || c in s2 ==> DiffOf(s1, s2, c) in ds
  {
    forall c | c in s1 || c in s2
      ensures DiffOf(s1, s2, c) in ds
    {
      assert c in Categories(ds);
    }
  }

  /** The loop state of `Differences`: `ds` holds the differences of the categories already
      taken, `rest` the categories still to take. */
  ghost predicate Partial(s1: Table, s2: Table, ds: seq<Diff>, rest: set<string>) {
    && rest <= s1.Keys + s2.Keys
    && (forall d :: d in ds ==> d == DiffOf(s1, s2, d.category))
    && Categories(ds) == (s1.Keys + s2.Keys) - rest
    && |ds| + |rest| == |s1.Keys + s2.Keys|
  }

  lemma PartialStep(s1: Table, s2: Table, ds: seq<Diff>, rest: set<string>, c: string)
    requires Partial(s1, s2, ds, rest) && c in rest
    ensures Partial(s1, s2, ds + [DiffOf(s1, s2, c)], rest - {c})
  {
    CategoriesSnoc(ds, DiffOf(s1, s2, c));
  }

  /** Builds the differences, one category at a time, in whatever order the set yields. */
  method Differences(s1: Table, s2: Table) returns (ds: seq<Diff>)
    ensures IsDifferences(s1, s2, ds)
  {
    ds := [];
    var rest := s1.Keys + s2.Keys;
    while rest != {}
      invariant Partial(s1, s2, ds, rest)
      decreases rest
    {
      var c :| c in rest;
      PartialStep(s1, s2, ds, rest, c);
      ds := ds + [DiffOf(s1, s2, c)];
      rest := rest - {c};
    }
  }

  /** Putting `x` in front of a sorted list keeps it sorted when `x`'s change is at least as
      large as every entry's. */
  lemma ConsSorted(x: Diff, ds: seq<Diff>, tail: seq<Diff>, d: Diff)
    requires SortedByChange(ds) && |ds| > 0 && x == ds[0]
    requires SortedByChange(tail) && multiset(tail) == multiset(ds[1..]) + multiset{d}
    requires Abs(d.change) <= Abs(x.change)
    ensures SortedByChange([x] + tail)
  {
    var r := [x] + tail;
    forall i, j | 0 <= i < j < |r|
      ensures Abs(r[i].change) >= Abs(r[j].change)
    {
      assert r[j] == tail[j - 1];
      if i == 0 {
        assert tail[j - 1] in multiset(tail);
        if tail[j - 1] != d {
          assert tail[j - 1] in multiset(ds[1..]);
          var k :| 0 <= k < |ds[1..]| && ds[1..][k] == tail[j - 1];
          assert ds[k + 1] == tail[j - 1];
        }
      } else {
        assert r[i] == tail[i - 1];
      }
    }
  }

  /** Places `d` before the first entry whose change is smaller. */
  function Insert(d: Diff, ds: seq<Diff>): (r: seq<Diff>)
    requires SortedByChange(ds)
    ensures multiset(r) == multiset(ds) + multiset{d}
    ensures SortedByChange(r)
  {
    if |ds| == 0 || Abs(d.change) >= Abs(ds[0].change) then
      [d] + ds
    else
      var tail := Insert(d, ds[1..]);
      assert ds == [ds[0]] + ds[1..];
      ConsSorted(ds[0], ds, tail, d);
      [ds[0]] + tail
  }

  /** Python's `diffs.sort(key=lambda x: abs(x[3]), reverse=True)`, up to the order of ties. */
  function SortByChange(ds: seq<Diff>): (r: seq<Diff>)
    ensures multiset(r) == multiset(ds)
    ensures SortedByChange(r)
  {
    if |ds| == 0 then []
    else
      assert ds == [ds[0]] + ds[1..];
      Insert(ds[0], SortByChange(ds[1..]))
  }

  /** A permutation of a differences list is a differences list of the same months. */
  lemma PermutedDifferences(s1: Table, s2: Table, ds: seq<Diff>, es: seq<Diff>)
    requires IsDifferences(s1, s2, ds)
    requires multiset(es) == multiset(ds)
    ensures IsDifferences(s1, s2, es)
  {
    assert forall d :: d in es <==> d in ds by {
      forall d ensures d in es <==> d in ds {
        assert d in es <==> d in multiset(es);
        assert d in ds <==> d in multiset(ds);
      }
    }
    assert |es| == |multiset(es)| == |multiset(ds)| == |ds|;
    assert Categories(es) == Categories(ds);
  }

  /** The `differences` field of compare_months: the differences sorted by |change|. */
  method Compare(s1: Table, s2: Table) returns (ds: seq<Diff>)
    ensures IsDifferences(s1, s2, ds)
    ensures SortedByChange(ds)
  {
    var unsorted := Differences(s1, s2);
    ds := SortByChange(unsorted);
    PermutedDifferences(s1, s2, unsorted, ds);
  }

  datatype Direction = More | Less

  /** The `top_change_summary` without its wording and rounding: nothing to compare, or the
      top category, whether it rose or fell, and by how much. */
  datatype Summary = NothingToCompare | Biggest(category: string, direction: Direction, amount: real)

  /** SpentML's summary: a change of 0 or more reads as "more". */
  function MlSummary(ds: seq<Diff>): Summary {
    if |ds| == 0 then NothingToCompare
    else Biggest(ds[0].category, if ds[0].change >= 0.0 then More else Less, Abs(ds[0].change))
  }

  /** SpendingInsights' summary: only a change above 0 reads as "more". */
  function InsightsSummary(ds: seq<Diff>): Summary {
    if |ds| == 0 then NothingToCompare
    else Biggest(ds[0].category, if ds[0].change > 0.0 then More else Less, Abs(ds[0].change))
  }

  /** In a sorted differences list the first entry's change is as large as any category's. */
  lemma FirstIsLargest(s1: Table, s2: Table, ds: seq<Diff>)
    requires IsDifferences(s1, s2, ds) && SortedByChange(ds) && |ds| > 0
    ensures forall c :: c in s1 || c in s2 ==> Abs(Get(s2, c) - Get(s1, c)) <= Abs(ds[0].change)
  {
    DifferencesCover(s1, s2, ds);
    forall c | c in s1 || c in s2
      ensures Abs(Get(s2, c) - Get(s1, c)) <= Abs(ds[0].change)
    {
      var k :| 0 <= k < |ds| && ds[k] == DiffOf(s1, s2, c);
      if k > 0 { assert Abs(ds[0].change) >= Abs(ds[k].change); }
    }
  }

  /** The summary names a category whose change is as large as any, says "more" exactly when
      the second month is at least the first, and reports nothing only when neither month has
      a category. */
  lemma MlSummaryNamesLargest(s1: Table, s2: Table, ds: seq<Diff>)
    requires IsDifferences(s1, s2, ds) && SortedByChange(ds)
    ensures MlSummary(ds).NothingToCompare? <==> s1.Keys + s2.Keys == {}
    ensures MlSummary(ds).Biggest? ==>
              var c := MlSummary(ds).category;
              && (c in s1 || c in s2)
              && (forall c' :: c' in s1 || c' in s2 ==> Abs(Get(s2, c') - Get(s1, c')) <= Abs(Get(s2, c) - Get(s1, c)))
              && (MlSummary(ds).direction == More <==> Get(s2, c) >= Get(s1, c))
              && MlSummary(ds).amount == Abs(Get(s2, c) - Get(s1, c))
  {
    if |ds| > 0 {
      assert ds[0] in ds;
      assert ds[0].category in Categories(ds);
      FirstIsLargest(s1, s2, ds);
    } else {
      assert Categories(ds) == {};
    }
  }

  /** The two summaries agree on category and amount and differ in direction exactly when the
      top change is zero, which SpendingInsights reads as "less". */
  lemma SummariesDifferOnlyOnZero(ds: seq<Diff>)
    ensures MlSummary(ds).NothingToCompare? <==> InsightsSummary(ds).NothingToCompare?
    ensures MlSummary(ds).Biggest? ==>
              && MlSummary(ds).category == InsightsSummary(ds).category
              && MlSummary(ds).amount == InsightsSummary(ds).amount
              && (MlSummary(ds).direction != InsightsSummary(ds).direction <==> ds[0].change == 0.0)
  {
  }

  /** Dining 10.00 in one month against Dining 40.00 and Groceries 5.00 in the next: whatever
      order the categories come in, the top change is Dining, up by 30.00. */
  lemma DiningExample(ds: seq<Diff>)
    requires IsDifferences(map["Dining" := 10.0], map["Dining" := 40.0, "Groceries" := 5.0], ds)
    requires SortedByChange(ds)
    ensures MlSummary(ds) == Biggest("Dining", More, 30.0)
    ensures InsightsSummary(ds) == Biggest("Dining", More, 30.0)
  {
    var s1: Table := map["Dining" := 10.0];
    var s2: Table := map["Dining" := 40.0, "Groceries" := 5.0];
    MlSummaryNamesLargest(s1, s2, ds);
    var c := MlSummary(ds).category;
    assert Abs(Get(s2, "Dining") - Get(s1, "Dining")) == 30.0;
    assert c == "Dining";
  }
}
