/** Screens/InsightsScreen.py: the checks the entry forms make before they call the engine, and
    the split of a month's table into spending for the charts and income for the totals, with
    the user's recurring subscriptions and recurring income laid over it. */
module InsightsScreen {
  import opened Wrappers
  import opened Text
  import opened Numeric
  import opened Tables
  import opened Accounts
  import opened Recurring
  import opened Comparison
  import opened MLBackend

  // ---------------------------------------------------------------------------------------
  // add_transaction / add_income

  /** What a form submission comes to: one of the three status messages that stop it, or the
      month, description and amount handed to the engine. */
  datatype Entry = PickDateFirst | FillFields | NotANumber | Accepted(ym: string, desc: string, amount: real)

  /** `s[:7]`; Python's slice stops at the end of a shorter string. */
  function Prefix7(s: string): string {
    if |s| <= 7 then s else s[..7]
  }

  /** The guards of `add_transaction`: a date must have been picked (`date_str` is `None` or
      "" until then), the stripped description and amount must be non-empty, and `float` must
      accept the amount. */
  function TransactionEntry(dateStr: string, descText: string, amtText: string): Entry {
    if dateStr == "" then PickDateFirst
    else
      var desc, amt := Strip(descText), Strip(amtText);
      if desc == "" || amt == "" then FillFields
      else
        match ParseFloat(amt)
        case None => NotANumber
        case Some(x) => Accepted(Prefix7(dateStr), desc, x)
  }

  /** The guards of `add_income`, the same as above; the source's name is required but not
      passed on: the engine records "income" with the amount negated. */
  function IncomeEntry(dateStr: string, sourceText: string, amtText: string): Entry {
    if dateStr == "" then PickDateFirst
    else
      var source, amt := Strip(sourceText), Strip(amtText);
      if source == "" || amt == "" then FillFields
      else
        match ParseFloat(amt)
        case None => NotANumber
        case Some(x) => Accepted(Prefix7(dateStr), IncomeKey, -x)
  }

  /** A transaction reaches the engine exactly when there is a date, a description, an amount
      and the amount is a number; it then carries the date's month, the stripped description
      and the number. */
  lemma TransactionEntryAccepts(dateStr: string, descText: string, amtText: string)
    ensures TransactionEntry(dateStr, descText, amtText).Accepted?
            <==> dateStr != "" && Strip(descText) != "" && Strip(amtText) != "" && ParseFloat(Strip(amtText)).Some?
    ensures dateStr == "" ==> TransactionEntry(dateStr, descText, amtText) == PickDateFirst
    ensures dateStr != "" && (Strip(descText) == "" || Strip(amtText) == "") ==> TransactionEntry(dateStr, descText, amtText) == FillFields
    ensures TransactionEntry(dateStr, descText, amtText).Accepted? ==>
              TransactionEntry(dateStr, descText, amtText)
              == Accepted(Prefix7(dateStr), Strip(descText), ParseFloat(Strip(amtText)).value)
  {
  }

  /** An income entry is accepted under the same conditions as a transaction with the source
      as description, and then records "income" with the amount negated. */
  lemma IncomeEntryNegates(dateStr: string, sourceText: string, amtText: string)
    ensures IncomeEntry(dateStr, sourceText, amtText).Accepted? <==> TransactionEntry(dateStr, sourceText, amtText).Accepted?
    ensures IncomeEntry(dateStr, sourceText, amtText).Accepted? ==>
              var e, t := IncomeEntry(dateStr, sourceText, amtText), TransactionEntry(dateStr, sourceText, amtText);
              e.ym == t.ym && e.desc == IncomeKey && e.amount == -t.amount
    ensures !IncomeEntry(dateStr, sourceText, amtText).Accepted? ==>
              IncomeEntry(dateStr, sourceText, amtText) == TransactionEntry(dateStr, sourceText, amtText)
  {
  }

  /** For a date picked in the calendar, written YYYY-MM-DD, the month passed on is YYYY-MM. */
  lemma PickedDateMonth(dateStr: string)
    requires |dateStr| == 10
    ensures Prefix7(dateStr) == dateStr[..7] && |Prefix7(dateStr)| == 7
  {
  }

  /** `add_transaction` of the screen: the form's guards, then the engine's `add_transaction`
      on the accepted entry. A rejected entry leaves the engine alone. */
  method AddTransaction(engine: SpentML, dateStr: string, descText: string, amtText: string, users: UserStore)
    returns (entry: Entry, ok: bool)
    modifies engine
    ensures entry == TransactionEntry(dateStr, descText, amtText)
    ensures !entry.Accepted? ==> ok && unchanged(engine)
    ensures entry.Accepted? ==>
              && engine.monthlySpend == Record(old(engine.monthlySpend), entry.ym, old(engine.PredictCategory(entry.desc)), entry.amount)
              && engine.transactions == old(engine.transactions) + (if ok then [Transaction(entry.ym, entry.desc, entry.amount, old(engine.PredictCategory(entry.desc)))] else [])
              && engine.trainingSamples == old(engine.trainingSamples)
    ensures entry.Accepted? && |engine.username| == 0 ==> ok && engine.userSpending == old(engine.userSpending)
    ensures entry.Accepted? && |engine.username| > 0 ==>
              var a := AdjustUser(old(engine.userSpending), engine.username, users, entry.ym, StoredIncome(users, engine.username));
              && ok == a.ok
              && engine.userSpending
                 == if a.ok then a.ledgers[engine.username := Record(UserOf(a.ledgers, engine.username), entry.ym, old(engine.PredictCategory(entry.desc)), entry.amount)]
                    else a.ledgers
    ensures engine.isFitted == old(engine.isFitted) && engine.fittedOn == old(engine.fittedOn)
    ensures engine.Valid() <==> old(engine.Valid())
  {
    ok := true;
    if dateStr == "" {
      return PickDateFirst, ok;
    }
    var desc := Strip(descText);
    var amtTxt := Strip(amtText);
    if desc == "" || amtTxt == "" {
      return FillFields, ok;
    }
    var amt := ParseFloat(amtTxt);
    if amt.None? {
      return NotANumber, ok;
    }
    entry := Accepted(Prefix7(dateStr), desc, amt.value);
    ok := engine.AddTransaction(entry.ym, entry.desc, entry.amount, users);
  }

  /** `add_income` of the screen: the same guards, then "income" with the negated amount. */
  method AddIncome(engine: SpentML, dateStr: string, sourceText: string, amtText: string, users: UserStore)
    returns (entry: Entry, ok: bool)
    modifies engine
    ensures entry == IncomeEntry(dateStr, sourceText, amtText)
    ensures !entry.Accepted? ==> ok && unchanged(engine)
    ensures entry.Accepted? ==>
              && engine.monthlySpend == Record(old(engine.monthlySpend), entry.ym, old(engine.PredictCategory(IncomeKey)), entry.amount)
              && engine.transactions == old(engine.transactions) + (if ok then [Transaction(entry.ym, IncomeKey, entry.amount, old(engine.PredictCategory(IncomeKey)))] else [])
              && engine.trainingSamples == old(engine.trainingSamples)
    ensures entry.Accepted? && |engine.username| == 0 ==> ok && engine.userSpending == old(engine.userSpending)
    ensures entry.Accepted? && |engine.username| > 0 ==>
              var a := AdjustUser(old(engine.userSpending), engine.username, users, entry.ym, StoredIncome(users, engine.username));
              && ok == a.ok
              && engine.userSpending
                 == if a.ok then a.ledgers[engine.username := Record(UserOf(a.ledgers, engine.username), entry.ym, old(engine.PredictCategory(IncomeKey)), entry.amount)]
                    else a.ledgers
    ensures engine.isFitted == old(engine.isFitted) && engine.fittedOn == old(engine.fittedOn)
    ensures engine.Valid() <==> old(engine.Valid())
  {
    ok := true;
    if dateStr == "" {
      return PickDateFirst, ok;
    }
    var source := Strip(sourceText);
    var amtTxt := Strip(amtText);
    if source == "" || amtTxt == "" {
      return FillFields, ok;
    }
    var amt := ParseFloat(amtTxt);
    if amt.None? {
      return NotANumber, ok;
    }
    entry := Accepted(Prefix7(dateStr), IncomeKey, -amt.value);
    ok := engine.AddTransaction(entry.ym, IncomeKey, entry.amount, users);
  }

  // ---------------------------------------------------------------------------------------
  // _filter_spending_data: the split

  /** The chart's spending as written: every positive amount outside the "income" category.
      The `__adjusted__` flag, stored as True (1), passes this test. */
  function SpendPartAsWritten(t: Table): Table {
    map c | c in t && t[c] > 0.0 && Lower(c) != IncomeKey :: t[c]
  }

  /** The chart's spending: every positive amount outside the "income" category, leaving out
      the `__adjusted__` flag, which is a marker and not money spent. */
  function SpendPart(t: Table): Table {
    map c | c in t && t[c] > 0.0 && Lower(c) != IncomeKey && c != AdjustedKey :: t[c]
  }

  /** What `total_income` sums: |amount| of every negative amount and of the "income" category. */
  function IncomePart(t: Table): Table {
    map c | c in t && (t[c] < 0.0 || Lower(c) == IncomeKey) :: Abs(t[c])
  }

  /** `filtered` holds exactly the positive amounts of categories other than "income" and the
      flag, unchanged; the income part holds the size of every negative amount and of the
      "income" category's. */
  lemma SplitSpec(t: Table)
    ensures forall c :: c in SpendPart(t) <==> c in t && t[c] > 0.0 && Lower(c) != IncomeKey && c != AdjustedKey
    ensures forall c :: c in SpendPart(t) ==> SpendPart(t)[c] == t[c]
    ensures forall c :: c in IncomePart(t) <==> c in t && (t[c] < 0.0 || Lower(c) == IncomeKey)
    ensures forall c :: c in IncomePart(t) ==> IncomePart(t)[c] == Abs(t[c]) >= 0.0
  {
  }

  /** No category counts both as spending and as income, and every non-zero amount other than
      the flag counts as one of them. */
  lemma SplitPartitions(t: Table, c: string)
    requires c in t && t[c] != 0.0 && c != AdjustedKey
    ensures c in SpendPart(t) <==> c !in IncomePart(t)
  {
  }

  lemma LowerAdjustedKey()
    ensures Lower(AdjustedKey) == AdjustedKey && AdjustedKey != IncomeKey
  {
    LowerOfLower(AdjustedKey);
  }

  /** As written, every month the onboarding adjustment has flagged shows the flag as one unit
      of spending, whatever else the month holds. */
  lemma AdjustedFlagCountedAsSpend(t: Table, ob: Onboarding, v: real)
    ensures var m := AdjustedMonth(t, ob, v);
            AdjustedKey in SpendPartAsWritten(m) && SpendPartAsWritten(m)[AdjustedKey] == 1.0
  {
    LowerAdjustedKey();
  }

  /** `__adjusted__ = True` in an otherwise empty month: as written the chart shows 1.00 spent. */
  lemma FlagOnlyMonth()
    ensures SpendPartAsWritten(map[AdjustedKey := 1.0]) == map[AdjustedKey := 1.0]
    ensures SpendPart(map[AdjustedKey := 1.0]) == map[]
  {
    LowerAdjustedKey();
  }

  /** With the flag left out, the spending shown does not depend on whether the month has been
      adjusted or on what the flag holds. */
  lemma FlagNeverSpent(t: Table, x: real)
    ensures SpendPart(t[AdjustedKey := x]) == SpendPart(t - {AdjustedKey})
    ensures AdjustedKey !in SpendPart(t)
  {
  }

  /** The chart as written is the corrected chart plus the flag whenever the flag is positive,
      and its total spent exceeds the corrected one by exactly the flag's value. */
  lemma AsWrittenAddsFlag(t: Table)
    ensures SpendPartAsWritten(t)
            == if AdjustedKey in t && t[AdjustedKey] > 0.0 then SpendPart(t)[AdjustedKey := t[AdjustedKey]] else SpendPart(t)
    ensures Total(SpendPartAsWritten(t))
            == Total(SpendPart(t)) + (if AdjustedKey in t && t[AdjustedKey] > 0.0 then t[AdjustedKey] else 0.0)
  {
    LowerAdjustedKey();
    var w := SpendPartAsWritten(t);
    if AdjustedKey in t && t[AdjustedKey] > 0.0 {
      assert w == SpendPart(t)[AdjustedKey := t[AdjustedKey]];
      TotalRemove(w, AdjustedKey);
      assert w - {AdjustedKey} == SpendPart(t);
    } else {
      assert w == SpendPart(t);
    }
  }

  /** As written, every non-zero amount, the flag included, counts either as spending or as
      income, never both. */
  lemma SplitPartitionsAsWritten(t: Table, c: string)
    requires c in t && t[c] != 0.0
    ensures c in SpendPartAsWritten(t) <==> c !in IncomePart(t)
  {
  }

  // ---------------------------------------------------------------------------------------
  // _filter_spending_data: the recurring overlay

  /** What one subscription adds to the chart: under its category ("Misc" if none), its amount
      monthly or four times it weekly; nothing for a zero amount or another frequency. */
  function SubscriptionCharge(s: Subscription): Option<Charge> {
    match MonthlyAmount(Lower(s.frequency.GetOr("")), s.amount)
    case None => None
    case Some(x) => Some(Charge(s.category.GetOr(Misc), x))
  }

  function SubscriptionCharges(subs: seq<Subscription>): seq<Charge>
    decreases |subs|
  {
    if |subs| == 0 then []
    else
      var c := SubscriptionCharge(subs[|subs| - 1]);
      SubscriptionCharges(subs[..|subs| - 1]) + (if c.Some? then [c.value] else [])
  }

  /** What one recurring income adds to `total_income`: |amount| monthly, |4 × amount|
      weekly, nothing for a zero amount, "annually" or anything else. */
  function IncomeAdded(inc: IncomeSource): real {
    match MonthlyAmount(Lower(inc.frequency.GetOr("")), inc.amount)
    case None => 0.0
    case Some(x) => Abs(x)
  }

  function IncomeAddedSum(incs: seq<IncomeSource>): real
    decreases |incs|
  {
    if |incs| == 0 then 0.0 else IncomeAddedSum(incs[..|incs| - 1]) + IncomeAdded(incs[|incs| - 1])
  }

  lemma SubscriptionChargeCases(s: Subscription)
    ensures var freq := Lower(s.frequency.GetOr(""));
            && (SubscriptionCharge(s).Some? <==> s.amount != 0.0 && (freq == "monthly" || freq == "weekly"))
            && (SubscriptionCharge(s).Some? ==> SubscriptionCharge(s).value.category == s.category.GetOr(Misc))
            && (SubscriptionCharge(s).Some? && freq == "monthly" ==> SubscriptionCharge(s).value.amount == s.amount)
            && (SubscriptionCharge(s).Some? && freq == "weekly" ==> SubscriptionCharge(s).value.amount == 4.0 * s.amount)
  {
    MonthlyAmountCases(Lower(s.frequency.GetOr("")), s.amount);
  }

  lemma IncomeAddedCases(inc: IncomeSource)
    ensures var freq := Lower(inc.frequency.GetOr(""));
            && (inc.amount == 0.0 || (freq != "monthly" && freq != "weekly") ==> IncomeAdded(inc) == 0.0)
            && (inc.amount != 0.0 && freq == "monthly" ==> IncomeAdded(inc) == Abs(inc.amount))
            && (inc.amount != 0.0 && freq == "weekly" ==> IncomeAdded(inc) == Abs(4.0 * inc.amount))
            && IncomeAdded(inc) >= 0.0
  {
    MonthlyAmountCases(Lower(inc.frequency.GetOr("")), inc.amount);
  }

  /** The overlay applies only for a signed-in user the store knows. */
  predicate Overlaid(username: string, users: UserStore) {
    username != "" && username in users
  }

  /** Each category of the chart ends up with its own positive amount plus exactly the
      subscriptions charged to it, and the total of the chart grows by their sum. */
  lemma OverlayAt(t: Table, subs: seq<Subscription>, c: string)
    ensures Get(PostCharges(SpendPart(t), SubscriptionCharges(subs)), c)
            == Get(SpendPart(t), c) + ChargedTo(SubscriptionCharges(subs), c)
    ensures Total(PostCharges(SpendPart(t), SubscriptionCharges(subs)))
            == Total(SpendPart(t)) + ChargeSum(SubscriptionCharges(subs))
  {
    PostChargesAt(SpendPart(t), SubscriptionCharges(subs), c);
    PostChargesTotal(SpendPart(t), SubscriptionCharges(subs));
  }

  /** One turn of the subscription loop, in the loop's own terms. */
  lemma SubscriptionStep(t0: Table, subs: seq<Subscription>, i: nat, t: Table)
    requires i < |subs|
    requires t == PostCharges(t0, SubscriptionCharges(subs[..i]))
    ensures var freq, cat, amount := Lower(subs[i].frequency.GetOr("")), subs[i].category.GetOr(Misc), subs[i].amount;
            PostCharges(t0, SubscriptionCharges(subs[..i + 1]))
            == if amount != 0.0 && freq == "monthly" then Add(t, cat, amount)
               else if amount != 0.0 && freq == "weekly" then Add(t, cat, 4.0 * amount)
               else t
  {
    assert subs[..i + 1][..i] == subs[..i];
    SubscriptionChargeCases(subs[i]);
    PostChargesMaybe(t0, SubscriptionCharges(subs[..i]), SubscriptionCharge(subs[i]));
  }

  /** One turn of the recurring-income loop, in the loop's own terms. */
  lemma IncomeStep(incs: seq<IncomeSource>, j: nat)
    requires j < |incs|
    ensures var freq, amount := Lower(incs[j].frequency.GetOr("")), incs[j].amount;
            IncomeAddedSum(incs[..j + 1])
            == IncomeAddedSum(incs[..j])
               + (if amount != 0.0 && freq == "monthly" then Abs(amount)
                  else if amount != 0.0 && freq == "weekly" then Abs(4.0 * amount)
                  else 0.0)
  {
    assert incs[..j + 1][..j] == incs[..j];
    IncomeAddedCases(incs[j]);
  }

  /** `_filter_spending_data(cat_dict)` for the signed-in `username` and the store `users`:
      the chart's table, `total_spent`, which stays the sum of the chart's table throughout,
      and `total_income`. */
  method FilterSpendingData(catDict: Table, username: string, users: UserStore)
    returns (filtered: Table, totalSpent: real, totalIncome: real)
    ensures !Overlaid(username, users) ==> filtered == SpendPart(catDict)
    ensures !Overlaid(username, users) ==> totalIncome == Total(IncomePart(catDict))
    ensures Overlaid(username, users) ==> filtered == PostCharges(SpendPart(catDict), SubscriptionCharges(users[username].recurring))
    ensures Overlaid(username, users) ==>
              totalIncome == Total(IncomePart(catDict)) + IncomeAddedSum(users[username].recurringIncome)
    ensures totalSpent == Total(filtered)
  {
    filtered := SpendPart(catDict);
    totalSpent := SumValues(filtered);
    totalIncome := SumValues(IncomePart(catDict));
    if username != "" && username in users {
      var record := users[username];
      filtered, totalSpent := AddSubscriptions(filtered, totalSpent, record.recurring);
      totalIncome := AddRecurringIncome(totalIncome, record.recurringIncome);
    }
  }

  /** The subscription loop of `_filter_spending_data`: posts each subscription into the
      chart's table and keeps `total_spent` equal to the table's sum. */
  method AddSubscriptions(filtered0: Table, totalSpent0: real, subs: seq<Subscription>)
    returns (filtered: Table, totalSpent: real)
    requires totalSpent0 == Total(filtered0)
    ensures filtered == PostCharges(filtered0, SubscriptionCharges(subs))
    ensures totalSpent == Total(filtered)
  {
    filtered, totalSpent := filtered0, totalSpent0;
    var i := 0;
    while i < |subs|
      invariant 0 <= i <= |subs|
      invariant filtered == PostCharges(filtered0, SubscriptionCharges(subs[..i]))
      invariant totalSpent == Total(filtered)
    {
      SubscriptionStep(filtered0, subs, i, filtered);
      var freq := Lower(subs[i].frequency.GetOr(""));
      var cat := subs[i].category.GetOr(Misc);
      var amount := subs[i].amount;
      if amount != 0.0 {
        if freq == "monthly" {
          TotalAdd(filtered, cat, amount);
          filtered := Add(filtered, cat, amount);
          totalSpent := totalSpent + amount;
        } else if freq == "weekly" {
          var weeklyTotal := 4.0 * amount;
          TotalAdd(filtered, cat, weeklyTotal);
          filtered := Add(filtered, cat, weeklyTotal);
          totalSpent := totalSpent + weeklyTotal;
        }
      }
      i := i + 1;
    }
    assert subs[..i] == subs;
  }

  /** The recurring-income loop of `_filter_spending_data`. */
  method AddRecurringIncome(totalIncome0: real, incs: seq<IncomeSource>) returns (totalIncome: real)
    ensures totalIncome == totalIncome0 + IncomeAddedSum(incs)
  {
    totalIncome := totalIncome0;
    var j := 0;
    while j < |incs|
      invariant 0 <= j <= |incs|
      invariant totalIncome == totalIncome0 + IncomeAddedSum(incs[..j])
    {
      IncomeStep(incs, j);
      var freq := Lower(incs[j].frequency.GetOr(""));
      var amount := incs[j].amount;
      if amount != 0.0 {
        if freq == "monthly" {
          totalIncome := totalIncome + Abs(amount);
        } else if freq == "weekly" {
          totalIncome := totalIncome + Abs(4.0 * amount);
        }
      }
      j := j + 1;
    }
    assert incs[..j] == incs;
  }
}
