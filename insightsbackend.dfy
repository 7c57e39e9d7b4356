/** Backend/SpendingInsights.py: the keyword categoriser. It names a transaction's category by
    the first keyword of an insertion-ordered table found in its lower-cased description, keeps
    a month -> category -> amount table, compares two months, reports one, and lets the user
    point a description's first word at a new category. */
module InsightsBackend {
  import opened Wrappers
  import opened Text
  import opened Tables
  import opened Comparison
  import opened Dates

  /** One entry `keyword: category` of `keyword_map`. */
  datatype Rule = Rule(keyword: string, category: string)

  /** `keyword_map` is a dict: its keywords are distinct, its order the order of insertion. */
  predicate UniqueKeywords(rules: seq<Rule>) {
    forall i, j :: 0 <= i < j < |rules| ==> rules[i].keyword != rules[j].keyword
  }

  /** The table `__init__` sets up. */
  const InitialKeywords: seq<Rule> := [
    Rule("shoes", "Clothing"), Rule("shirt", "Clothing"), Rule("pants", "Clothing"),
    Rule("grocery", "Groceries"), Rule("supermarket", "Groceries"),
    Rule("restaurant", "Dining"), Rule("cafe", "Dining"),
    Rule("electricity", "Utilities"), Rule("water", "Utilities"),
    Rule("rent", "Housing"), Rule("mortgage", "Housing")
  ]

  lemma InitialKeywordsUnique()
    ensures UniqueKeywords(InitialKeywords)
  {
    forall i, j | 0 <= i < j < |InitialKeywords|
      ensures InitialKeywords[i].keyword != InitialKeywords[j].keyword
    {
      var a, b := InitialKeywords[i].keyword, InitialKeywords[j].keyword;
      assert |a| != |b| || a[0] != b[0] || a[2] != b[2];
    }
  }

  /** The category the scan from entry `i` on returns: that of the first keyword contained in
      `d`, or "Misc". */
  function CategorizeFrom(rules: seq<Rule>, d: string, i: nat): string
    decreases |rules| - i
  {
    if i >= |rules| then Misc
    else if Contains(d, rules[i].keyword) then rules[i].category
    else CategorizeFrom(rules, d, i + 1)
  }

  /** `categorize_transaction` on the already lower-cased description `d`. */
  function Categorize(rules: seq<Rule>, d: string): string {
    CategorizeFrom(rules, d, 0)
  }

  lemma {:induction false} CategorizeFromNoMatch(rules: seq<Rule>, d: string, k: nat)
    requires forall j :: k <= j < |rules| ==> !Contains(d, rules[j].keyword)
    ensures CategorizeFrom(rules, d, k) == Misc
    decreases |rules| - k
  {
    if k < |rules| {
      CategorizeFromNoMatch(rules, d, k + 1);
    }
  }

  lemma {:induction false} CategorizeFromMatch(rules: seq<Rule>, d: string, k: nat, i: nat)
    requires k <= i < |rules| && Contains(d, rules[i].keyword)
    requires forall j :: k <= j < i ==> !Contains(d, rules[j].keyword)
    ensures CategorizeFrom(rules, d, k) == rules[i].category
    decreases i - k
  {
    if k < i {
      CategorizeFromMatch(rules, d, k + 1, i);
    }
  }

  lemma CategorizeFromFirstMatch(rules: seq<Rule>, d: string, k: nat)
    ensures (forall j :: k <= j < |rules| ==> !Contains(d, rules[j].keyword)) ==> CategorizeFrom(rules, d, k) == Misc
    ensures forall i :: k <= i < |rules| && Contains(d, rules[i].keyword)
                        && (forall j :: k <= j < i ==> !Contains(d, rules[j].keyword))
                        ==> CategorizeFrom(rules, d, k) == rules[i].category
  {
    if forall j :: k <= j < |rules| ==> !Contains(d, rules[j].keyword) {
      CategorizeFromNoMatch(rules, d, k);
    }
    forall i | k <= i < |rules| && Contains(d, rules[i].keyword)
               && (forall j :: k <= j < i ==> !Contains(d, rules[j].keyword))
      ensures CategorizeFrom(rules, d, k) == rules[i].category
    {
      CategorizeFromMatch(rules, d, k, i);
    }
  }

  /** The category is that of the first keyword, in table order, that occurs in `d`; "Misc"
      when none does. */
  lemma CategorizeIsFirstMatch(rules: seq<Rule>, d: string)
    ensures (forall j :: 0 <= j < |rules| ==> !Contains(d, rules[j].keyword)) ==> Categorize(rules, d) == Misc
    ensures forall i :: 0 <= i < |rules| && Contains(d, rules[i].keyword)
                        && (forall j :: 0 <= j < i ==> !Contains(d, rules[j].keyword))
                        ==> Categorize(rules, d) == rules[i].category
  {
    CategorizeFromFirstMatch(rules, d, 0);
  }

  /** With the initial table, a description mentioning "grocery" and none of the clothing
      keywords listed before it is a grocery purchase. */
  lemma GroceryCategorised(description: string)
    requires Contains(Lower(description), "grocery")
    requires !Contains(Lower(description), "shoes") && !Contains(Lower(description), "shirt")
    requires !Contains(Lower(description), "pants")
    ensures Categorize(InitialKeywords, Lower(description)) == "Groceries"
  {
    CategorizeIsFirstMatch(InitialKeywords, Lower(description));
    assert InitialKeywords[3] == Rule("grocery", "Groceries");
  }

  // ---------------------------------------------------------------------------------------
  // keyword_map[key] = new_cat

  /** Where `key` stands in the table, or |rules| when it is absent. */
  function IndexOfKey(rules: seq<Rule>, key: string): (k: nat)
    ensures k <= |rules|
    ensures k < |rules| ==> rules[k].keyword == key
    ensures forall j :: 0 <= j < k ==> rules[j].keyword != key
  {
    if |rules| == 0 || rules[0].keyword == key then 0 else 1 + IndexOfKey(rules[1..], key)
  }

  /** `keyword_map.get(key)`. */
  function Lookup(rules: seq<Rule>, key: string): Option<string> {
    var k := IndexOfKey(rules, key);
    if k < |rules| then Some(rules[k].category) else None
  }

  function Keywords(rules: seq<Rule>): seq<string> {
    seq(|rules|, i requires 0 <= i < |rules| => rules[i].keyword)
  }

  /** `keyword_map[key] = cat`: an existing key keeps its place and takes the new category, a
      new key goes at the end. */
  function SetRule(rules: seq<Rule>, key: string, cat: string): seq<Rule> {
    var k := IndexOfKey(rules, key);
    if k < |rules| then rules[k := Rule(key, cat)] else rules + [Rule(key, cat)]
  }

  /** The store reads back: `key` now gives `cat`, every other key what it gave before; the
      keys stay distinct and keep their order, a new key joining at the end. */
  lemma SetRuleSpec(rules: seq<Rule>, key: string, cat: string)
    requires UniqueKeywords(rules)
    ensures UniqueKeywords(SetRule(rules, key, cat))
    ensures Lookup(SetRule(rules, key, cat), key) == Some(cat)
    ensures forall key' :: key' != key ==> Lookup(SetRule(rules, key, cat), key') == Lookup(rules, key')
    ensures Keywords(SetRule(rules, key, cat))
            == if key in Keywords(rules) then Keywords(rules) else Keywords(rules) + [key]
  {
    var r := SetRule(rules, key, cat);
    var k := IndexOfKey(rules, key);
    assert key in Keywords(rules) <==> k < |rules| by {
      if key in Keywords(rules) {
        var i :| 0 <= i < |rules| && Keywords(rules)[i] == key;
        assert rules[i].keyword == key;
      }
      if k < |rules| {
        assert Keywords(rules)[k] == key;
      }
    }
    forall key' | key' != key
      ensures Lookup(r, key') == Lookup(rules, key')
    {
      var k' := IndexOfKey(rules, key');
      if k' < |rules| {
        assert r[k'] == rules[k'];
        assert IndexOfKey(r, key') == k' by { UniqueIndex(r, key', k'); }
      } else {
        assert forall j :: 0 <= j < |r| ==> r[j].keyword != key';
        NoIndex(r, key');
      }
    }
    UniqueIndex(r, key, k);
  }

  lemma {:induction false} UniqueIndex(rules: seq<Rule>, key: string, k: nat)
    requires k < |rules| && rules[k].keyword == key
    requires forall j :: 0 <= j < k ==> rules[j].keyword != key
    ensures IndexOfKey(rules, key) == k
    decreases k
  {
    if k > 0 {
      UniqueIndex(rules[1..], key, k - 1);
    }
  }

  lemma {:induction false} NoIndex(rules: seq<Rule>, key: string)
    requires forall j :: 0 <= j < |rules| ==> rules[j].keyword != key
    ensures IndexOfKey(rules, key) == |rules|
    decreases |rules|
  {
    if |rules| > 0 {
      NoIndex(rules[1..], key);
    }
  }

  /** The scan gives the same answer on two tables that agree up to a match before `k`. */
  lemma {:induction false} CategorizeAgrees(r: seq<Rule>, rules: seq<Rule>, d: string, i: nat, k: nat)
    requires k <= |rules| && k <= |r| && i <= k
    requires forall j :: 0 <= j < k ==> r[j] == rules[j]
    requires exists j :: i <= j < k && Contains(d, rules[j].keyword)
    ensures CategorizeFrom(r, d, i) == CategorizeFrom(rules, d, i)
    decreases k - i
  {
    if !Contains(d, rules[i].keyword) {
      var j :| i <= j < k && Contains(d, rules[j].keyword);
      assert j > i;
      CategorizeAgrees(r, rules, d, i + 1, k);
    }
  }

  /** Whether the next categorisation of the same description picks the correction up: it
      does when no keyword listed before the first word's place matches; otherwise the
      earlier keyword still wins, as before the correction. */
  lemma CorrectionPickedUp(rules: seq<Rule>, description: string, newCat: string)
    requires UniqueKeywords(rules) && FirstWord(Lower(description)).Some?
    ensures var d := Lower(description);
            var key := FirstWord(d).value;
            var k := IndexOfKey(rules, key);
            && ((forall j :: 0 <= j < k ==> !Contains(d, rules[j].keyword)) ==> Categorize(SetRule(rules, key, newCat), d) == newCat)
            && ((exists j :: 0 <= j < k && Contains(d, rules[j].keyword)) ==> Categorize(SetRule(rules, key, newCat), d) == Categorize(rules, d))
  {
    var d := Lower(description);
    var key := FirstWord(d).value;
    var k := IndexOfKey(rules, key);
    var r := SetRule(rules, key, newCat);
    assert forall j :: 0 <= j < k ==> r[j] == rules[j];
    assert k < |r| && r[k] == Rule(key, newCat);
    assert Contains(d, key) by { ContainsIff(d, key); }
    CategorizeIsFirstMatch(r, d);
    if exists j :: 0 <= j < k && Contains(d, rules[j].keyword) {
      CategorizeAgrees(r, rules, d, 0, k);
    }
  }

  lemma NewShoesWords(d: string)
    requires d == "new shoes"
    ensures Lower(d) == d
    ensures FirstWord(d) == Some("new")
  {
    LowerOfLower(d);
    assert LeadingSpace(d) == 0;
    assert d[3..] == " shoes";
    assert WordLength(d[3..]) == 0;
    assert WordLength(d) == 3;
    assert d[0..3] == "new";
  }

  lemma NewShoesHasShoes(d: string)
    requires d == "new shoes"
    ensures Contains(d, "shoes")
  {
    assert d[4..9] == "shoes";
    assert OccursAt("shoes", d, 4);
    ContainsIff(d, "shoes");
  }

  /** "new shoes" pointed at "Sports" adds the keyword "new" at the end, after "shoes": the
      next "new shoes" is still Clothing. */
  lemma NewShoesStillClothing(d: string)
    requires d == "new shoes"
    ensures FirstWord(Lower(d)) == Some("new")
    ensures Categorize(SetRule(InitialKeywords, "new", "Sports"), Lower(d)) == "Clothing"
  {
    NewShoesWords(d);
    NewShoesHasShoes(d);
    NoIndex(InitialKeywords, "new");
    var r := SetRule(InitialKeywords, "new", "Sports");
    assert r[0] == Rule("shoes", "Clothing");
  }

  // ---------------------------------------------------------------------------------------
  // The engine

  /** Indexing `monthly_spend[m]` on the defaultdict stores an empty table under a new month
      and changes no amount. */
  lemma MaterialiseMonth(l: Ledger, m: string)
    ensures l[m := MonthOf(l, m)].Keys == l.Keys + {m}
    ensures forall m', c :: Get(MonthOf(l[m := MonthOf(l, m)], m'), c) == Get(MonthOf(l, m'), c)
  {
  }

  /** SpendingInsights' summary names a category whose change is as large as any, reads
      "more" only when the second month is strictly above the first, and reports nothing only
      when neither month has a category. */
  lemma InsightsSummaryNamesLargest(s1: Table, s2: Table, ds: seq<Diff>)
    requires IsDifferences(s1, s2, ds) && SortedByChange(ds)
    ensures InsightsSummary(ds).NothingToCompare? <==> s1.Keys + s2.Keys == {}
    ensures InsightsSummary(ds).Biggest? ==>
              var c := InsightsSummary(ds).category;
              && (c in s1 || c in s2)
              && (forall c' :: c' in s1 || c' in s2 ==> Abs(Get(s2, c') - Get(s1, c')) <= Abs(Get(s2, c) - Get(s1, c)))
              && (InsightsSummary(ds).direction == More <==> Get(s2, c) > Get(s1, c))
              && InsightsSummary(ds).amount == Abs(Get(s2, c) - Get(s1, c))
  {
    MlSummaryNamesLargest(s1, s2, ds);
    SummariesDifferOnlyOnZero(ds);
    if |ds| > 0 {
      assert ds[0] in ds;
    }
  }

  /** Posting a transaction dated YYYY-MM-DD changes exactly the entry (YYYY-MM, category). */
  lemma PostedUnderDatePrefix(l: Ledger, dateStr: string, category: string, amount: real)
    requires IsIsoDate(dateStr)
    ensures ParseDate(dateStr).Some?
    ensures var l' := Record(l, YearMonth(ParseDate(dateStr).value), category, amount);
            && l'.Keys == l.Keys + {dateStr[..7]}
            && forall m, c :: Get(MonthOf(l', m), c) == Get(MonthOf(l, m), c) + (if m == dateStr[..7] && c == category then amount else 0.0)
  {
    IsoDateMonth(dateStr);
    RecordAt(l, dateStr[..7], category, amount);
  }

  class SpendingInsights {
    var keywordMap: seq<Rule>
    var monthlySpend: Ledger

    ghost predicate Valid()
      reads this
    {
      UniqueKeywords(keywordMap)
    }

    constructor ()
      ensures Valid()
      ensures keywordMap == InitialKeywords && monthlySpend == map[]
    {
      keywordMap := InitialKeywords;
      monthlySpend := map[];
      InitialKeywordsUnique();
    }

    /** `categorize_transaction`: scans the table in order and returns on the first keyword
        found in the lower-cased description. */
    method CategorizeTransaction(description: string) returns (category: string)
      ensures category == Categorize(keywordMap, Lower(description))
    {
      var d := Lower(description);
      var i := 0;
      while i < |keywordMap|
        invariant 0 <= i <= |keywordMap|
        invariant CategorizeFrom(keywordMap, d, i) == Categorize(keywordMap, d)
      {
        if Contains(d, keywordMap[i].keyword) {
          return keywordMap[i].category;
        }
        i := i + 1;
      }
      return Misc;
    }

    /** `add_transaction`: `ok` is false for the ValueError strptime raises, and then nothing
        has changed; otherwise the amount is added to (year-month, category). */
    method AddTransaction(dateStr: string, description: string, amount: real) returns (ok: bool)
      requires Valid()
      modifies this
      ensures Valid() && keywordMap == old(keywordMap)
      ensures ok == ParseDate(dateStr).Some?
      ensures !ok ==> monthlySpend == old(monthlySpend)
      ensures ok ==> monthlySpend == Record(old(monthlySpend), YearMonth(ParseDate(dateStr).value),
                                            Categorize(keywordMap, Lower(description)), amount)
    {
      var date := ParseDate(dateStr);
      if date.None? {
        return false;
      }
      var yearMonth := YearMonth(date.value);
      var category := CategorizeTransaction(description);
      monthlySpend := Record(monthlySpend, yearMonth, category, amount);
      ok := true;
    }

    /** `compare_months`: indexing `monthly_spend[m1]` and `[m2]` stores empty tables for
        months never seen; the differences and the summary are those of the two tables. */
    method CompareMonths(m1: string, m2: string) returns (ds: seq<Diff>, summary: Summary)
      modifies this
      ensures keywordMap == old(keywordMap)
      ensures var l1 := old(monthlySpend)[m1 := MonthOf(old(monthlySpend), m1)];
              monthlySpend == l1[m2 := MonthOf(l1, m2)]
      ensures IsDifferences(MonthOf(old(monthlySpend), m1), MonthOf(old(monthlySpend), m2), ds)
      ensures SortedByChange(ds)
      ensures summary == InsightsSummary(ds)
    {
      monthlySpend := monthlySpend[m1 := MonthOf(monthlySpend, m1)];
      var s1 := monthlySpend[m1];
      monthlySpend := monthlySpend[m2 := MonthOf(monthlySpend, m2)];
      var s2 := monthlySpend[m2];
      ds := Compare(s1, s2);
      summary := InsightsSummary(ds);
    }

    /** `monthly_report`: a copy of the month's table, empty for a month never recorded (which
        indexing stores). */
    method MonthlyReport(yearMonth: string) returns (report: Table)
      modifies this
      ensures keywordMap == old(keywordMap)
      ensures yearMonth in old(monthlySpend) ==> report == old(monthlySpend)[yearMonth]
      ensures yearMonth !in old(monthlySpend) ==> report == map[]
      ensures monthlySpend == old(monthlySpend)[yearMonth := report]
    {
      monthlySpend := monthlySpend[yearMonth := MonthOf(monthlySpend, yearMonth)];
      report := monthlySpend[yearMonth];
    }

    /** `user_correct_category`: the lower-cased description's first word now maps to
        `newCat`. `ok` is false for the IndexError of a description without a word, and then
        nothing has changed. */
    method UserCorrectCategory(oldDesc: string, newCat: string) returns (ok: bool)
      requires Valid()
      modifies this
      ensures Valid() && monthlySpend == old(monthlySpend)
      ensures ok == FirstWord(Lower(oldDesc)).Some?
      ensures !ok ==> keywordMap == old(keywordMap)
      ensures ok ==> keywordMap == SetRule(old(keywordMap), FirstWord(Lower(oldDesc)).value, newCat)
    {
      var word := FirstWord(Lower(oldDesc));
      if word.None? {
        return false;
      }
      SetRuleSpec(keywordMap, word.value, newCat);
      keywordMap := SetRule(keywordMap, word.value, newCat);
      ok := true;
    }
  }
}
