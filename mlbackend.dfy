/** Backend/SpentML.py: the ledger engine. It keeps a global month -> category -> amount
    table, one such table per user, the log of every transaction and the classifier's
    training samples, and posts a user's declared income and bills into a month once. */
module MLBackend {
  import opened Wrappers
  import opened Text
  import opened Numeric
  import opened Tables
  import opened Accounts
  import opened Recurring
  import opened Comparison

  /** The category under which a month records that it has been adjusted. Python stores
      `True` there, which is the number 1 among the floats. */
  const AdjustedKey := "__adjusted__"
  const IncomeKey := "income"

  /** One training pair `[desc, cat]`. */
  datatype Sample = Sample(desc: string, category: string)

  /** One log record: `{date_ym, desc, amount, category}`. */
  datatype Transaction = Transaction(month: string, desc: string, amount: real, category: string)

  /** A month's table carries the flag when its `__adjusted__` entry is truthy. */
  predicate Flagged(t: Table) {
    Get(t, AdjustedKey) != 0.0
  }

  // ---------------------------------------------------------------------------------------
  // _convert_income

  /** `_convert_income`: lower-case and strip, then a trailing "k" means thousands.
      `None` is the ValueError that `float` raises on anything else. */
  function ConvertIncome(s: string): Option<real> {
    Thousands(Strip(Lower(s)))
  }

  /** The part of `_convert_income` after lower-casing and stripping. */
  function Thousands(t: string): Option<real> {
    if EndsWith(t, "k") then
      var v :- ParseFloat(t[..|t| - 1]);
      Some(v * 1000.0)
    else
      ParseFloat(t)
  }

  /** A string that lower-casing and stripping leave alone is converted as it stands. */
  lemma ConvertIncomeOfPlain(t: string)
    requires forall i :: 0 <= i < |t| ==> !('A' <= t[i] <= 'Z')
    requires t == [] || (!IsSpace(t[0]) && !IsSpace(t[|t| - 1]))
    ensures ConvertIncome(t) == Thousands(t)
  {
    LowerOfLower(t);
    StripOfTrimmed(t);
  }

  lemma ThousandsOfDecimal(x: string)
    requires IsDecimal(x)
    ensures Thousands(x + "k") == Some(DecimalValue(x) * 1000.0)
    ensures Thousands(x) == Some(DecimalValue(x))
  {
    ThousandsOfDecimalK(x);
    DecimalChars(x);
    assert !EndsWith(x, "k") by {
      assert x[|x| - 1..] == [x[|x| - 1]];
    }
    ParseFloatOfDecimal(x);
  }

  lemma ThousandsOfDecimalK(x: string)
    requires IsDecimal(x)
    ensures Thousands(x + "k") == Some(DecimalValue(x) * 1000.0)
  {
    var xk := x + "k";
    assert xk[|xk| - 1..] == "k";
    assert xk[..|xk| - 1] == x;
    ParseFloatOfDecimal(x);
  }

  /** A decimal has no capital letter and no space at either end, and neither has it with
      a "k" appended. */
  lemma DecimalIsPlain(x: string)
    requires IsDecimal(x)
    ensures forall i :: 0 <= i < |x| ==> !('A' <= x[i] <= 'Z')
    ensures !IsSpace(x[0]) && !IsSpace(x[|x| - 1])
    ensures forall i :: 0 <= i < |x + "k"| ==> !('A' <= (x + "k")[i] <= 'Z')
  {
    DecimalChars(x);
    var xk := x + "k";
    forall i | 0 <= i < |xk| ensures !('A' <= xk[i] <= 'Z') {
      if i < |x| { assert xk[i] == x[i]; }
    }
  }

  /** A decimal with a "k" is that many thousands; a bare decimal is itself. */
  lemma ConvertIncomeOfDecimal(x: string)
    requires IsDecimal(x)
    ensures ConvertIncome(x + "k") == Some(DecimalValue(x) * 1000.0)
    ensures ConvertIncome(x) == Some(DecimalValue(x))
  {
    DecimalIsPlain(x);
    var xk := x + "k";
    assert xk[0] == x[0] && xk[|xk| - 1] == 'k';
    ConvertIncomeOfPlain(x);
    ConvertIncomeOfPlain(xk);
    ThousandsOfDecimal(x);
  }

  /** The conversion ignores letter case: "2.2K" reads as "2.2k". */
  lemma ConvertIncomeIgnoresCase(s: string)
    ensures ConvertIncome(s) == ConvertIncome(Lower(s))
  {
    LowerIdempotent(s);
    var t := Lower(s);
    assert Lower(t) == t;
  }

  // ---------------------------------------------------------------------------------------
  // apply_onboarding_adjustments

  /** The lower-cased pay type, "monthly" when the record has none. */
  function PayType(ob: Onboarding): string {
    Lower(ob.payType.GetOr("monthly"))
  }

  /** What the income posts: the whole income for "monthly", a quarter of it for "annually". */
  function IncomeCharges(payType: string, v: real): seq<Charge> {
    if payType == "monthly" then [Charge(IncomeKey, -v)]
    else if payType == "annually" then [Charge(IncomeKey, -(v / 4.0))]
    else []
  }

  /** A bill's amount: a missing one is 0, one `float` rejects counts as 0. */
  function BillAmount(b: Bill): real {
    match b.amount
    case None => 0.0
    case Some(s) => ParseFloat(s).GetOr(0.0)
  }

  /** What one bill posts into the month: its description (or "Misc") as category and its
      monthly amount, if it has one. */
  function BillCharge(b: Bill): Option<Charge> {
    match MonthlyAmount(Lower(b.frequency.GetOr("")), BillAmount(b))
    case None => None
    case Some(x) => Some(Charge(b.description.GetOr(Misc), x))
  }

  function BillCharges(bs: seq<Bill>): seq<Charge>
    decreases |bs|
  {
    if |bs| == 0 then []
    else
      var init := BillCharges(bs[..|bs| - 1]);
      match BillCharge(bs[|bs| - 1])
      case None => init
      case Some(c) => init + [c]
  }

  /** The month after the adjustment: income, then bills, then the flag. */
  function AdjustedMonth(t: Table, ob: Onboarding, v: real): Table {
    PostCharges(PostCharges(t, IncomeCharges(PayType(ob), v)), BillCharges(ob.bills))[AdjustedKey := 1.0]
  }

  /** The per-user tables after `apply_onboarding_adjustments`, and whether it returned
      normally (`ok == false` is the ValueError of an unparsable income). */
  datatype Adjustment = Adjustment(ledgers: UserLedgers, ok: bool)

  /** What `_convert_income` makes of the user's stored income ("0" when there is none);
      `None` is its ValueError, and also stands for a user the store does not know. */
  function StoredIncome(users: UserStore, username: string): Option<real> {
    if username in users then ConvertIncome(users[username].onboarding.monthlyIncome.GetOr("0")) else None
  }

  /** The adjustment, given `income`, the result of converting the stored income
      (StoredIncome); it is only consulted once the month is known to need adjusting. */
  function AdjustUser(us: UserLedgers, username: string, users: UserStore, ym: string, income: Option<real>): Adjustment {
    if |username| == 0 || username !in users then Adjustment(us, true)
    else
      var l := UserOf(us, username);
      var ob := users[username].onboarding;
      if Flagged(MonthOf(l, ym)) then Adjustment(us[username := l], true)
      else
        match income
        case None => Adjustment(us[username := l], false)
        case Some(v) => Adjustment(us[username := l[ym := AdjustedMonth(MonthOf(l, ym), ob, v)]], true)
  }

  /** No amount anywhere differs between two families of tables. */
  ghost predicate SameAmounts(a: UserLedgers, b: UserLedgers) {
    forall u, m, c :: Get(MonthOf(UserOf(a, u), m), c) == Get(MonthOf(UserOf(b, u), m), c)
  }

  /** Without a username, or for a user the store does not know, nothing changes at all. */
  lemma AdjustWithoutUser(us: UserLedgers, username: string, users: UserStore, ym: string, income: Option<real>)
    requires |username| == 0 || username !in users
    ensures AdjustUser(us, username, users, ym, income) == Adjustment(us, true)
  {
  }

  /** In a month already flagged no amount changes; the user's entry may be created empty. */
  lemma AdjustFlaggedMonth(us: UserLedgers, username: string, users: UserStore, ym: string, income: Option<real>)
    requires |username| > 0 && username in users
    requires Flagged(MonthOf(UserOf(us, username), ym))
    ensures AdjustUser(us, username, users, ym, income).ok
    ensures SameAmounts(AdjustUser(us, username, users, ym, income).ledgers, us)
    ensures AdjustUser(us, username, users, ym, income).ledgers.Keys == us.Keys + {username}
  {
  }

  /** Running the adjustment a second time for the same month changes nothing more. */
  lemma AdjustIdempotent(us: UserLedgers, username: string, users: UserStore, ym: string, income: Option<real>)
    ensures var a := AdjustUser(us, username, users, ym, income);
            AdjustUser(a.ledgers, username, users, ym, income) == a
  {
    if |username| > 0 && username in users {
      var l := UserOf(us, username);
      var ob := users[username].onboarding;
      if !Flagged(MonthOf(l, ym)) && income.Some? {
        AdjustTwicePosted(us, username, users, ym, income.value);
      }
    }
  }

  lemma AdjustTwicePosted(us: UserLedgers, username: string, users: UserStore, ym: string, v: real)
    requires |username| > 0 && username in users
    requires !Flagged(MonthOf(UserOf(us, username), ym))
    ensures var a := AdjustUser(us, username, users, ym, Some(v));
            AdjustUser(a.ledgers, username, users, ym, Some(v)) == a
  {
    var l := UserOf(us, username);
    var t := AdjustedMonth(MonthOf(l, ym), users[username].onboarding, v);
    var r := us[username := l[ym := t]];
    AdjustUserPosted(us, username, users, ym, v);
    assert UserOf(r, username) == l[ym := t];
    assert Get(MonthOf(UserOf(r, username), ym), AdjustedKey) == 1.0;
    AdjustUserSkipped(r, username, users, ym, Some(v));
    assert r[username := UserOf(r, username)] == r;
  }

  /** An unparsable income raises before anything is posted. */
  lemma AdjustBadIncome(us: UserLedgers, username: string, users: UserStore, ym: string)
    requires |username| > 0 && username in users
    requires !Flagged(MonthOf(UserOf(us, username), ym))
    ensures !AdjustUser(us, username, users, ym, None).ok
    ensures SameAmounts(AdjustUser(us, username, users, ym, None).ledgers, us)
  {
  }

  /** The income part of an adjustment for one category. */
  function IncomeDelta(payType: string, v: real, c: string): real {
    if c != IncomeKey then 0.0
    else if payType == "monthly" then -v
    else if payType == "annually" then -(v / 4.0)
    else 0.0
  }

  /** The posting itself: the month gets its flag, "income" falls by the income (monthly) or a
      quarter of it (annually), every bill category rises by its bills, and no other month and
      no other user changes. */
  lemma AdjustPosts(us: UserLedgers, username: string, users: UserStore, ym: string, v: real)
    requires |username| > 0 && username in users
    requires !Flagged(MonthOf(UserOf(us, username), ym))
    ensures var a := AdjustUser(us, username, users, ym, Some(v));
            var ob := users[username].onboarding;
            var before := MonthOf(UserOf(us, username), ym);
            var after := MonthOf(UserOf(a.ledgers, username), ym);
            && a.ok
            && Flagged(after) && Get(after, AdjustedKey) == 1.0
            && (forall c :: c != AdjustedKey ==>
                  Get(after, c) == Get(before, c) + IncomeDelta(PayType(ob), v, c) + ChargedTo(BillCharges(ob.bills), c))
            && (forall m :: m != ym ==> MonthOf(UserOf(a.ledgers, username), m) == MonthOf(UserOf(us, username), m))
            && (forall u :: u != username ==> UserOf(a.ledgers, u) == UserOf(us, u))
  {
    var ob := users[username].onboarding;
    var l := UserOf(us, username);
    var before := MonthOf(l, ym);
    var after := AdjustedMonth(before, ob, v);
    var r := us[username := l[ym := after]];
    AdjustUserPosted(us, username, users, ym, v);
    assert UserOf(r, username) == l[ym := after];
    assert MonthOf(UserOf(r, username), ym) == after;
    assert Get(after, AdjustedKey) == 1.0;
    forall c | c != AdjustedKey
      ensures Get(after, c) == Get(before, c) + IncomeDelta(PayType(ob), v, c) + ChargedTo(BillCharges(ob.bills), c)
    {
      AdjustedMonthAt(before, ob, v, c);
    }
  }

  lemma AdjustUserSkipped(us: UserLedgers, username: string, users: UserStore, ym: string, income: Option<real>)
    requires |username| > 0 && username in users
    requires Flagged(MonthOf(UserOf(us, username), ym))
    ensures AdjustUser(us, username, users, ym, income) == Adjustment(us[username := UserOf(us, username)], true)
  {
  }

  lemma AdjustUserFailed(us: UserLedgers, username: string, users: UserStore, ym: string)
    requires |username| > 0 && username in users
    requires !Flagged(MonthOf(UserOf(us, username), ym))
    ensures AdjustUser(us, username, users, ym, None) == Adjustment(us[username := UserOf(us, username)], false)
  {
  }

  lemma IncomePosting(t: Table, payType: string, v: real)
    ensures PostCharges(t, IncomeCharges(payType, v))
            == if payType == "monthly" then Add(t, IncomeKey, -v)
               else if payType == "annually" then Add(t, IncomeKey, -(v / 4.0))
               else t
  {
    var inc := IncomeCharges(payType, v);
    if |inc| == 1 { assert inc[..0] == []; }
  }

  lemma AdjustUserPosted(us: UserLedgers, username: string, users: UserStore, ym: string, v: real)
    requires |username| > 0 && username in users
    requires !Flagged(MonthOf(UserOf(us, username), ym))
    ensures var l := UserOf(us, username);
            AdjustUser(us, username, users, ym, Some(v))
            == Adjustment(us[username := l[ym := AdjustedMonth(MonthOf(l, ym), users[username].onboarding, v)]], true)
  {
  }

  lemma AdjustedMonthAt(t: Table, ob: Onboarding, v: real, c: string)
    requires c != AdjustedKey
    ensures Get(AdjustedMonth(t, ob, v), c) == Get(t, c) + IncomeDelta(PayType(ob), v, c) + ChargedTo(BillCharges(ob.bills), c)
  {
    var inc := IncomeCharges(PayType(ob), v);
    var mid := PostCharges(t, inc);
    PostChargesAt(t, inc, c);
    PostChargesAt(mid, BillCharges(ob.bills), c);
    assert ChargedTo(inc, c) == IncomeDelta(PayType(ob), v, c) by {
      if |inc| == 1 {
        assert inc[..0] == [];
      }
    }
  }


  /** What one bill contributes: a monthly bill its amount, a weekly bill four times it, under
      its description or "Misc"; a bill whose amount is missing, zero or not a number, or whose
      frequency is anything else (such as "annual"), contributes nothing. */
  lemma BillChargeCases(b: Bill)
    ensures var freq := Lower(b.frequency.GetOr(""));
            var x := BillAmount(b);
            && (BillCharge(b).Some? <==> x != 0.0 && (freq == "monthly" || freq == "weekly"))
            && (BillCharge(b).Some? ==> BillCharge(b).value.category == b.description.GetOr(Misc))
            && (BillCharge(b).Some? && freq == "monthly" ==> BillCharge(b).value.amount == x)
            && (BillCharge(b).Some? && freq == "weekly" ==> BillCharge(b).value.amount == 4.0 * x)
            && (b.amount.None? || ParseFloat(b.amount.value).None? ==> BillCharge(b).None?)
  {
    MonthlyAmountCases(Lower(b.frequency.GetOr("")), BillAmount(b));
  }

  lemma BillChargesSnoc(init: seq<Bill>, b: Bill)
    ensures BillCharges(init + [b]) == BillCharges(init) + (if BillCharge(b).Some? then [BillCharge(b).value] else [])
  {
    assert (init + [b])[..|init|] == init;
  }

  /** One turn of the bill loop on the specification side. */
  lemma PostBillStep(t0: Table, bills: seq<Bill>, i: nat, t: Table)
    requires i < |bills|
    requires t == PostCharges(t0, BillCharges(bills[..i]))
    ensures BillCharge(bills[i]).Some? ==>
              PostCharges(t0, BillCharges(bills[..i + 1]))
              == Add(t, BillCharge(bills[i]).value.category, BillCharge(bills[i]).value.amount)
    ensures BillCharge(bills[i]).None? ==> PostCharges(t0, BillCharges(bills[..i + 1])) == t
  {
    assert bills[..i + 1] == bills[..i] + [bills[i]];
    BillChargesSnoc(bills[..i], bills[i]);
    PostChargesMaybe(t0, BillCharges(bills[..i]), BillCharge(bills[i]));
  }

  /** The bill loop of `apply_onboarding_adjustments`, posting into the month's table `t0`. */
  method PostBills(t0: Table, bills: seq<Bill>) returns (t: Table)
    ensures t == PostCharges(t0, BillCharges(bills))
  {
    t := t0;
    var i := 0;
    while i < |bills|
      invariant 0 <= i <= |bills|
      invariant t == PostCharges(t0, BillCharges(bills[..i]))
    {
      var b := bills[i];
      var freq := Lower(b.frequency.GetOr(""));
      var amount := 0.0;
      if b.amount.Some? {
        var parsed := ParseFloat(b.amount.value);
        if parsed.Some? {
          amount := parsed.value;
        }
      }
      var category := b.description.GetOr(Misc);
      PostBillStep(t0, bills, i, t);
      // The monthly/weekly branches of the loop are MonthlyAmount's.
      var monthly := MonthlyAmount(freq, amount);
      if monthly.Some? {
        t := Add(t, category, monthly.value);
      }
      i := i + 1;
    }
    assert bills[..i] == bills;
  }

  /** The steps of `apply_onboarding_adjustments` on the per-user tables `us0`: without a
      known user nothing happens; the user's entry is created; a flagged month is left alone;
      an unconverted income (`None`) raises; otherwise the month is posted. */
  method AdjustMonth(us0: UserLedgers, username: string, users: UserStore, ym: string, income: Option<real>) returns (a: Adjustment)
    ensures a == AdjustUser(us0, username, users, ym, income)
  {
    if |username| == 0 || username !in users {
      return Adjustment(us0, true);
    }
    var ob := users[username].onboarding;
    var us := us0[username := UserOf(us0, username)];
    if Flagged(MonthOf(us[username], ym)) {
      AdjustUserSkipped(us0, username, users, ym, income);
      return Adjustment(us, true);
    }
    if income.None? {
      AdjustUserFailed(us0, username, users, ym);
      return Adjustment(us, false);
    }
    us := PostOnboarding(us, username, ym, ob, income.value);
    AdjustUserPosted(us0, username, users, ym, income.value);
    assert UserOf(us0[username := UserOf(us0, username)], username) == UserOf(us0, username);
    return Adjustment(us, true);
  }

  /** The posting part of `apply_onboarding_adjustments`, once the income `v` is converted:
      the income by pay type, the bills, then the flag, all in the user's table for `ym`. */
  method PostOnboarding(us: UserLedgers, username: string, ym: string, ob: Onboarding, v: real) returns (r: UserLedgers)
    ensures var l := UserOf(us, username);
            r == us[username := l[ym := AdjustedMonth(MonthOf(l, ym), ob, v)]]
  {
    var l := UserOf(us, username);
    var payType := Lower(ob.payType.GetOr("monthly"));
    var t := MonthOf(l, ym);
    IncomePosting(t, payType, v);
    if payType == "monthly" {
      t := Add(t, IncomeKey, -v);
    } else if payType == "annually" {
      t := Add(t, IncomeKey, -(v / 4.0));
    }
    assert t == PostCharges(MonthOf(l, ym), IncomeCharges(PayType(ob), v));
    t := PostBills(t, ob.bills);
    t := t[AdjustedKey := 1.0];
    r := us[username := l[ym := t]];
  }

  // ---------------------------------------------------------------------------------------
  // correct_category

  /** Whether the correction moves entry `t`: its description matches and its category is
      not yet the new one. */
  predicate Moved(t: Transaction, desc: string, newCat: string) {
    t.desc == desc && t.category != newCat
  }

  /** `l[month][old] -= amount; l[month][newCat] += amount` for an entry that is moved; any
      other entry leaves the ledger alone. */
  function Shift(l: Ledger, t: Transaction, desc: string, newCat: string): Ledger {
    if Moved(t, desc, newCat) then Record(Record(l, t.month, t.category, -t.amount), t.month, newCat, t.amount)
    else l
  }

  /** The global ledger once the loop has passed the first `n` log entries. */
  function Corrected(l: Ledger, ts: seq<Transaction>, n: nat, desc: string, newCat: string): Ledger
    requires n <= |ts|
    decreases n
  {
    if n == 0 then l else Shift(Corrected(l, ts, n - 1, desc, newCat), ts[n - 1], desc, newCat)
  }

  /** The per-user ledgers once the loop has passed the first `n` entries: with a username,
      each moved entry shifts that user's ledger too (creating it on the first move). */
  function CorrectedUsers(us: UserLedgers, username: string, ts: seq<Transaction>, n: nat, desc: string, newCat: string): UserLedgers
    requires n <= |ts|
    decreases n
  {
    if n == 0 then us
    else
      var prev := CorrectedUsers(us, username, ts, n - 1, desc, newCat);
      if |username| > 0 && Moved(ts[n - 1], desc, newCat)
      then prev[username := Shift(UserOf(prev, username), ts[n - 1], desc, newCat)]
      else prev
  }

  /** What the correction does to one log entry. */
  function RelabelOne(t: Transaction, desc: string, newCat: string): Transaction {
    if Moved(t, desc, newCat) then t.(category := newCat) else t
  }

  /** The log after the correction: every entry with the description carries the new category,
      and nothing else about any entry changes. */
  function Relabel(ts: seq<Transaction>, desc: string, newCat: string): (r: seq<Transaction>)
    ensures |r| == |ts|
    ensures forall i :: 0 <= i < |ts| ==>
              && r[i].month == ts[i].month && r[i].desc == ts[i].desc && r[i].amount == ts[i].amount
              && r[i].category == (if ts[i].desc == desc then newCat else ts[i].category)
  {
    seq(|ts|, i requires 0 <= i < |ts| => RelabelOne(ts[i], desc, newCat))
  }

  /** The sum moved in month `m` by the first `n` entries, and the part of it that left
      category `c`. */
  function MovedIn(ts: seq<Transaction>, n: nat, desc: string, newCat: string, m: string): real
    requires n <= |ts|
    decreases n
  {
    if n == 0 then 0.0
    else
      var t := ts[n - 1];
      MovedIn(ts, n - 1, desc, newCat, m) + (if Moved(t, desc, newCat) && t.month == m then t.amount else 0.0)
  }

  function MovedOut(ts: seq<Transaction>, n: nat, desc: string, newCat: string, m: string, c: string): real
    requires n <= |ts|
    decreases n
  {
    if n == 0 then 0.0
    else
      var t := ts[n - 1];
      MovedOut(ts, n - 1, desc, newCat, m, c) + (if Moved(t, desc, newCat) && t.month == m && t.category == c then t.amount else 0.0)
  }

  lemma ShiftAt(l: Ledger, t: Transaction, desc: string, newCat: string, m: string, c: string)
    ensures Get(MonthOf(Shift(l, t, desc, newCat), m), c)
            == Get(MonthOf(l, m), c)
               + (if !Moved(t, desc, newCat) || m != t.month then 0.0
                  else if c == newCat then t.amount
                  else if c == t.category then -t.amount
                  else 0.0)
  {
    if Moved(t, desc, newCat) {
      var l1 := Record(l, t.month, t.category, -t.amount);
      RecordAt(l, t.month, t.category, -t.amount);
      RecordAt(l1, t.month, newCat, t.amount);
    }
  }

  lemma ShiftConserves(l: Ledger, t: Transaction, desc: string, newCat: string, m: string)
    ensures Total(MonthOf(Shift(l, t, desc, newCat), m)) == Total(MonthOf(l, m))
  {
    if Moved(t, desc, newCat) {
      var l1 := Record(l, t.month, t.category, -t.amount);
      var l2 := Record(l1, t.month, newCat, t.amount);
      if m == t.month {
        var t1 := Add(MonthOf(l, m), t.category, -t.amount);
        assert MonthOf(l1, m) == t1;
        assert MonthOf(l2, m) == Add(t1, newCat, t.amount);
        TotalAdd(MonthOf(l, m), t.category, -t.amount);
        TotalAdd(t1, newCat, t.amount);
      } else {
        assert MonthOf(l2, m) == MonthOf(l, m);
      }
    }
  }

  /** The new category gains everything moved in its month; every other category loses what
      was moved out of it. */
  lemma {:induction false} CorrectedAt(l: Ledger, ts: seq<Transaction>, n: nat, desc: string, newCat: string, m: string, c: string)
    requires n <= |ts|
    ensures Get(MonthOf(Corrected(l, ts, n, desc, newCat), m), c)
            == Get(MonthOf(l, m), c)
               + (if c == newCat then MovedIn(ts, n, desc, newCat, m) else -MovedOut(ts, n, desc, newCat, m, c))
    decreases n
  {
    if n > 0 {
      CorrectedAt(l, ts, n - 1, desc, newCat, m, c);
      ShiftAt(Corrected(l, ts, n - 1, desc, newCat), ts[n - 1], desc, newCat, m, c);
    }
  }

  /** A correction moves money but never creates or destroys it: each month's total is the same. */
  lemma {:induction false} CorrectedConserves(l: Ledger, ts: seq<Transaction>, n: nat, desc: string, newCat: string, m: string)
    requires n <= |ts|
    ensures Total(MonthOf(Corrected(l, ts, n, desc, newCat), m)) == Total(MonthOf(l, m))
    decreases n
  {
    if n > 0 {
      CorrectedConserves(l, ts, n - 1, desc, newCat, m);
      ShiftConserves(Corrected(l, ts, n - 1, desc, newCat), ts[n - 1], desc, newCat, m);
    }
  }

  /** With a username, the user's ledger receives exactly the correction the global ledger
      does, and no other user's entry changes; without one, no user's entry changes. */
  lemma {:induction false} CorrectedUsersMirror(us: UserLedgers, username: string, ts: seq<Transaction>, n: nat, desc: string, newCat: string)
    requires n <= |ts|
    ensures |username| == 0 ==> CorrectedUsers(us, username, ts, n, desc, newCat) == us
    ensures |username| > 0 ==>
              Corrected(UserOf(us, username), ts, n, desc, newCat) == UserOf(CorrectedUsers(us, username, ts, n, desc, newCat), username)
    ensures forall u :: u != username ==>
              (u in CorrectedUsers(us, username, ts, n, desc, newCat) <==> u in us)
              && UserOf(CorrectedUsers(us, username, ts, n, desc, newCat), u) == UserOf(us, u)
    decreases n
  {
    if n > 0 {
      CorrectedUsersMirror(us, username, ts, n - 1, desc, newCat);
    }
  }

  /** After a correction no entry is left to move: correcting again changes no amount. */
  lemma {:induction false} NothingLeftToMove(l: Ledger, us: UserLedgers, username: string, ts: seq<Transaction>, n: nat, desc: string, newCat: string)
    requires n <= |ts|
    ensures Corrected(l, Relabel(ts, desc, newCat), n, desc, newCat) == l
    ensures CorrectedUsers(us, username, Relabel(ts, desc, newCat), n, desc, newCat) == us
    decreases n
  {
    if n > 0 {
      NothingLeftToMove(l, us, username, ts, n - 1, desc, newCat);
      assert !Moved(Relabel(ts, desc, newCat)[n - 1], desc, newCat);
    }
  }

  /** The loop of `correct_category` over the log `ts`: relabels every entry with the
      description and moves the amounts of those whose category changes, in the global ledger
      `l` and (with a username) in the user's tables `us`. */
  method CorrectLog(ts: seq<Transaction>, l: Ledger, us: UserLedgers, username: string, desc: string, newCat: string)
    returns (log: seq<Transaction>, ledger: Ledger, users: UserLedgers)
    ensures log == Relabel(ts, desc, newCat)
    ensures ledger == Corrected(l, ts, |ts|, desc, newCat)
    ensures users == CorrectedUsers(us, username, ts, |ts|, desc, newCat)
  {
    log, ledger, users := ts, l, us;
    var i := 0;
    while i < |log|
      invariant RelabelledUpTo(ts, log, i, desc, newCat)
      invariant ledger == Corrected(l, ts, i, desc, newCat)
      invariant users == CorrectedUsers(us, username, ts, i, desc, newCat)
    {
      // Entry `i` is still as it was in `ts`.
      var t := ts[i];
      RelabelStep(ts, log, i, desc, newCat);
      if t.desc == desc && t.category != newCat {
        MovedStep(l, ts, i, desc, newCat);
        MovedUserStep(us, username, ts, i, desc, newCat);
        ledger := Record(Record(ledger, t.month, t.category, -t.amount), t.month, newCat, t.amount);
        if |username| > 0 {
          users := users[username := Record(Record(UserOf(users, username), t.month, t.category, -t.amount), t.month, newCat, t.amount)];
        }
        log := log[i := t.(category := newCat)];
      } else {
        UnmovedStep(l, us, username, ts, i, desc, newCat);
      }
      i := i + 1;
    }
    RelabelledAll(ts, log, desc, newCat);
  }

  /** A turn of the loop of `CorrectLog` that moves entry `i`, spelled out as the loop does it
      on the global ledger. */
  lemma MovedStep(l: Ledger, ts: seq<Transaction>, i: nat, desc: string, newCat: string)
    requires i < |ts| && Moved(ts[i], desc, newCat)
    ensures var t, prev := ts[i], Corrected(l, ts, i, desc, newCat);
            Corrected(l, ts, i + 1, desc, newCat) == Record(Record(prev, t.month, t.category, -t.amount), t.month, newCat, t.amount)
  {
  }

  /** The same turn on the per-user ledgers. */
  lemma MovedUserStep(us: UserLedgers, username: string, ts: seq<Transaction>, i: nat, desc: string, newCat: string)
    requires i < |ts| && Moved(ts[i], desc, newCat)
    ensures var t, prev := ts[i], CorrectedUsers(us, username, ts, i, desc, newCat);
            CorrectedUsers(us, username, ts, i + 1, desc, newCat)
            == if |username| > 0
               then prev[username := Record(Record(UserOf(prev, username), t.month, t.category, -t.amount), t.month, newCat, t.amount)]
               else prev
  {
  }

  /** A turn that does not move entry `i` leaves both ledgers alone. */
  lemma UnmovedStep(l: Ledger, us: UserLedgers, username: string, ts: seq<Transaction>, i: nat, desc: string, newCat: string)
    requires i < |ts| && !Moved(ts[i], desc, newCat)
    ensures Corrected(l, ts, i + 1, desc, newCat) == Corrected(l, ts, i, desc, newCat)
    ensures CorrectedUsers(us, username, ts, i + 1, desc, newCat) == CorrectedUsers(us, username, ts, i, desc, newCat)
  {
  }

  /** The log state of the loop of `CorrectLog`: entries before `i` relabelled, the rest as
      they were. */
  predicate RelabelledUpTo(ts: seq<Transaction>, log: seq<Transaction>, i: nat, desc: string, newCat: string) {
    && |log| == |ts| && i <= |ts|
    && forall j :: 0 <= j < |log| ==> log[j] == if j < i then RelabelOne(ts[j], desc, newCat) else ts[j]
  }

  lemma RelabelStep(ts: seq<Transaction>, log: seq<Transaction>, i: nat, desc: string, newCat: string)
    requires RelabelledUpTo(ts, log, i, desc, newCat) && i < |ts|
    ensures RelabelledUpTo(ts, if Moved(ts[i], desc, newCat) then log[i := ts[i].(category := newCat)] else log, i + 1, desc, newCat)
  {
  }

  lemma RelabelledAll(ts: seq<Transaction>, log: seq<Transaction>, desc: string, newCat: string)
    requires RelabelledUpTo(ts, log, |ts|, desc, newCat)
    ensures log == Relabel(ts, desc, newCat)
  {
  }

  // ---------------------------------------------------------------------------------------
  // The engine

  class SpentML {
    /** The signed-in user; "" when there is none (Python's `None` and "" are both falsy). */
    const username: string
    /** The classifier fitted on a list of samples, applied to a description. */
    const learner: seq<Sample> -> string -> string

    var trainingSamples: seq<Sample>
    var monthlySpend: Ledger
    var userSpending: UserLedgers
    var transactions: seq<Transaction>
    var isFitted: bool
    /** The samples of the last fit: what the classifier now reflects. */
    var fittedOn: seq<Sample>

    /** The classifier is fitted exactly when there are samples, and then on all of them. */
    ghost predicate Valid()
      reads this
    {
      && isFitted == (|trainingSamples| > 0)
      && (isFitted ==> fittedOn == trainingSamples)
    }

    /** `__init__` after `load_data`: the loaded state, then a fit if there are samples. */
    constructor (username: string, learner: seq<Sample> -> string -> string, samples: seq<Sample>,
                 monthlySpend: Ledger, userSpending: UserLedgers, transactions: seq<Transaction>)
      ensures Valid()
      ensures this.username == username && this.learner == learner
      ensures this.trainingSamples == samples && this.monthlySpend == monthlySpend
      ensures this.userSpending == userSpending && this.transactions == transactions
      ensures isFitted ==> fittedOn == samples
    {
      this.username := username;
      this.learner := learner;
      this.trainingSamples := samples;
      this.monthlySpend := monthlySpend;
      this.userSpending := userSpending;
      this.transactions := transactions;
      this.isFitted := false;
      this.fittedOn := [];
      new;
      if |samples| > 0 {
        TrainFull();
      }
    }

    /** `train_full`: refits on every sample; with no samples nothing changes. */
    method TrainFull()
      modifies this
      ensures |trainingSamples| > 0 ==> isFitted && fittedOn == trainingSamples
      ensures |trainingSamples| == 0 ==> isFitted == old(isFitted) && fittedOn == old(fittedOn)
      ensures trainingSamples == old(trainingSamples) && monthlySpend == old(monthlySpend)
      ensures userSpending == old(userSpending) && transactions == old(transactions)
    {
      if |trainingSamples| > 0 {
        fittedOn := trainingSamples;
        isFitted := true;
      }
    }

    /** `partial_fit_sample`: appends one pair at the end and refits. */
    method PartialFitSample(desc: string, category: string)
      modifies this
      ensures trainingSamples == old(trainingSamples) + [Sample(desc, category)]
      ensures isFitted && fittedOn == trainingSamples
      ensures monthlySpend == old(monthlySpend) && userSpending == old(userSpending)
      ensures transactions == old(transactions)
      ensures Valid()
    {
      trainingSamples := trainingSamples + [Sample(desc, category)];
      TrainFull();
    }

    /** `predict_category`: "Misc" until the classifier is fitted. */
    function PredictCategory(desc: string): (r: string)
      reads this
      ensures !isFitted ==> r == Misc
      ensures isFitted ==> r == learner(fittedOn)(desc)
    {
      if !isFitted then Misc else learner(fittedOn)(desc)
    }

    /** `apply_onboarding_adjustments(date_ym)` with `users` the store as loaded. */
    method ApplyOnboardingAdjustments(ym: string, users: UserStore) returns (ok: bool)
      modifies this
      ensures Adjustment(userSpending, ok) == AdjustUser(old(userSpending), username, users, ym, StoredIncome(users, username))
      ensures trainingSamples == old(trainingSamples) && monthlySpend == old(monthlySpend)
      ensures transactions == old(transactions)
      ensures isFitted == old(isFitted) && fittedOn == old(fittedOn)
    {
      // The conversion has no effect of its own; its ValueError (None) is acted on only at
      // the point where `_convert_income` is called, inside AdjustMonth.
      var a := AdjustMonth(userSpending, username, users, ym, StoredIncome(users, username));
      userSpending := a.ledgers;
      ok := a.ok;
      assert Adjustment(userSpending, ok) == a;
    }

    /** `add_transaction(date_ym, desc, amount)`: posts to the global table under the predicted
        category, then (with a user) adjusts the month and posts to the user's table, then logs
        one record. If the adjustment raises, the global posting has already happened and
        nothing is logged. */
    method AddTransaction(ym: string, desc: string, amount: real, users: UserStore) returns (ok: bool)
      modifies this
      ensures var c := old(PredictCategory(desc));
              && monthlySpend == Record(old(monthlySpend), ym, c, amount)
              && (|username| == 0 ==> ok && userSpending == old(userSpending))
              && (|username| > 0 ==>
                    var a := AdjustUser(old(userSpending), username, users, ym, StoredIncome(users, username));
                    && ok == a.ok
                    && userSpending == (if a.ok then a.ledgers[username := Record(UserOf(a.ledgers, username), ym, c, amount)] else a.ledgers))
              && transactions == old(transactions) + (if ok then [Transaction(ym, desc, amount, c)] else [])
      ensures trainingSamples == old(trainingSamples) && isFitted == old(isFitted) && fittedOn == old(fittedOn)
      ensures Valid() <==> old(Valid())
    {
      var category := PredictCategory(desc);
      monthlySpend := Record(monthlySpend, ym, category, amount);
      ok := true;
      if |username| > 0 {
        ok := ApplyOnboardingAdjustments(ym, users);
        if !ok {
          return;
        }
        userSpending := userSpending[username := Record(UserOf(userSpending, username), ym, category, amount)];
      }
      transactions := transactions + [Transaction(ym, desc, amount, category)];
    }

    /** `correct_category(desc, new_cat)`: relabels the matching log entries, moves their
        amounts to the new category in both scopes, and always adds one training sample. */
    method CorrectCategory(desc: string, newCat: string)
      modifies this
      ensures monthlySpend == Corrected(old(monthlySpend), old(transactions), |old(transactions)|, desc, newCat)
      ensures userSpending == CorrectedUsers(old(userSpending), username, old(transactions), |old(transactions)|, desc, newCat)
      ensures transactions == Relabel(old(transactions), desc, newCat)
      ensures trainingSamples == old(trainingSamples) + [Sample(desc, newCat)]
      ensures isFitted && fittedOn == trainingSamples
      ensures Valid()
    {
      transactions, monthlySpend, userSpending := CorrectLog(transactions, monthlySpend, userSpending, username, desc, newCat);
      PartialFitSample(desc, newCat);
    }

    /** The tables a comparison reads: the user's when there is one, else the global ones. */
    function Scope(): Ledger
      reads this
    {
      if |username| > 0 then UserOf(userSpending, username) else monthlySpend
    }

    /** `compare_months(m1, m2)`: the differences of m2 against m1 in the scope's tables, sorted
        by |change|, and the summary of the top one. Reading the user's tables creates the
        user's (empty) entry if it was missing. */
    method CompareMonths(m1: string, m2: string) returns (ds: seq<Diff>, summary: Summary)
      modifies this
      ensures IsDifferences(MonthOf(old(Scope()), m1), MonthOf(old(Scope()), m2), ds)
      ensures SortedByChange(ds)
      ensures summary == MlSummary(ds)
      ensures userSpending == (if |username| > 0 then old(userSpending)[username := old(Scope())] else old(userSpending))
      ensures monthlySpend == old(monthlySpend) && transactions == old(transactions)
      ensures trainingSamples == old(trainingSamples) && isFitted == old(isFitted) && fittedOn == old(fittedOn)
    {
      var s1, s2;
      if |username| > 0 {
        userSpending := userSpending[username := UserOf(userSpending, username)];
        s1 := MonthOf(userSpending[username], m1);
        s2 := MonthOf(userSpending[username], m2);
      } else {
        s1 := MonthOf(monthlySpend, m1);
        s2 := MonthOf(monthlySpend, m2);
      }
      ds := Compare(s1, s2);
      summary := MlSummary(ds);
    }
  }
}
