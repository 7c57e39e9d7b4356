/** Posting recurring items into a month's table: the rule shared by the onboarding adjuster
    (Backend/SpentML.py) and the spend/income overview (Screens/InsightsScreen.py). */
module Recurring {
  import opened Wrappers
  import opened Tables

  /** One amount to add to one category. */
  datatype Charge = Charge(category: string, amount: real)

  /** What a recurring item adds to a month, given its lower-cased frequency: a zero amount
      adds nothing, "monthly" adds it once, "weekly" four times, any other frequency nothing. */
  function MonthlyAmount(frequency: string, amount: real): Option<real> {
    if amount == 0.0 then None
    else if frequency == "monthly" then Some(amount)
    else if frequency == "weekly" then Some(4.0 * amount)
    else None
  }

  lemma MonthlyAmountCases(frequency: string, amount: real)
    ensures MonthlyAmount(frequency, amount).Some? <==> amount != 0.0 && (frequency == "monthly" || frequency == "weekly")
    ensures frequency == "monthly" && amount != 0.0 ==> MonthlyAmount(frequency, amount) == Some(amount)
    ensures frequency == "weekly" && amount != 0.0 ==> MonthlyAmount(frequency, amount) == Some(4.0 * amount)
    ensures MonthlyAmount(frequency, amount).Some? ==> MonthlyAmount(frequency, amount).value != 0.0
  {
  }

  /** Adds each charge in turn, as `t[cat] += amount` does on a defaultdict. */
  function PostCharges(t: Table, cs: seq<Charge>): Table
    decreases |cs|
  {
    if |cs| == 0 then t
    else
      var last := cs[|cs| - 1];
      Add(PostCharges(t, cs[..|cs| - 1]), last.category, last.amount)
  }

  /** The sum of the charges to category `c`. */
  function ChargedTo(cs: seq<Charge>, c: string): real
    decreases |cs|
  {
    if |cs| == 0 then 0.0
    else ChargedTo(cs[..|cs| - 1], c) + (if cs[|cs| - 1].category == c then cs[|cs| - 1].amount else 0.0)
  }

  /** The sum of all charges. */
  function ChargeSum(cs: seq<Charge>): real
    decreases |cs|
  {
    if |cs| == 0 then 0.0 else ChargeSum(cs[..|cs| - 1]) + cs[|cs| - 1].amount
  }

  function Categories(cs: seq<Charge>): set<string> {
    set i | 0 <= i < |cs| :: cs[i].category
  }

  lemma PostChargesSnoc(t: Table, cs: seq<Charge>, x: Charge)
    ensures PostCharges(t, cs + [x]) == Add(PostCharges(t, cs), x.category, x.amount)
    ensures ChargedTo(cs + [x], x.category) == ChargedTo(cs, x.category) + x.amount
    ensures ChargeSum(cs + [x]) == ChargeSum(cs) + x.amount
  {
    assert (cs + [x])[..|cs|] == cs;
  }

  /** Appending a charge that may be absent posts it, or nothing. */
  lemma PostChargesMaybe(t: Table, cs: seq<Charge>, o: Option<Charge>)
    ensures PostCharges(t, cs + (if o.Some? then [o.value] else []))
            == if o.Some? then Add(PostCharges(t, cs), o.value.category, o.value.amount) else PostCharges(t, cs)
  {
    if o.Some? { PostChargesSnoc(t, cs, o.value); } else { assert cs + [] == cs; }
  }

  /** Each category ends up with its old amount plus exactly the charges made to it. */
  lemma {:induction false} PostChargesAt(t: Table, cs: seq<Charge>, c: string)
    ensures Get(PostCharges(t, cs), c) == Get(t, c) + ChargedTo(cs, c)
    decreases |cs|
  {
    if |cs| > 0 {
      PostChargesAt(t, cs[..|cs| - 1], c);
    }
  }

  /** Posting creates exactly the charged categories and removes none. */
  lemma {:induction false} PostChargesKeys(t: Table, cs: seq<Charge>)
    ensures PostCharges(t, cs).Keys == t.Keys + Categories(cs)
    decreases |cs|
  {
    if |cs| > 0 {
      var init := cs[..|cs| - 1];
      PostChargesKeys(t, init);
      assert Categories(cs) == Categories(init) + {cs[|cs| - 1].category} by {
        forall c | c in Categories(cs) ensures c in Categories(init) + {cs[|cs| - 1].category} {
          var i :| 0 <= i < |cs| && cs[i].category == c;
          if i < |cs| - 1 { assert init[i] == cs[i]; }
        }
        forall c | c in Categories(init) ensures c in Categories(cs) {
          var i :| 0 <= i < |init| && init[i].category == c;
          assert cs[i] == init[i];
        }
      }
    }
  }

  /** The table's grand total grows by exactly the sum of the charges. */
  lemma {:induction false} PostChargesTotal(t: Table, cs: seq<Charge>)
    ensures Total(PostCharges(t, cs)) == Total(t) + ChargeSum(cs)
    decreases |cs|
  {
    if |cs| > 0 {
      var init := cs[..|cs| - 1];
      PostChargesTotal(t, init);
      TotalAdd(PostCharges(t, init), cs[|cs| - 1].category, cs[|cs| - 1].amount);
    }
  }
}
