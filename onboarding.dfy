/** The onboarding wizard of Screens/OnboardingScreen.py: a list of question steps walked with
    Next and Back, each answer checked by the step's validator, steps for the pay day, the
    number of bills and each bill inserted as the answers arrive, and the record gathered at
    the end in the shape Backend/SpentML.py reads back. */
module Onboarding {
  import opened Wrappers
  import opened Text
  import opened Numeric
  import opened Accounts
  import MLBackend

  // ---------------------------------------------------------------------------------------
  // Validators

  /** Python's `$` at the end of a pattern also matches before one final newline: a whole
      match of `s` is a match of `s` without that newline. */
  function Chomp(s: string): string {
    if |s| > 0 && s[|s| - 1] == '\n' then s[..|s| - 1] else s
  }

  predicate IsPayTypeWord(t: string) {
    t == "monthly" || t == "annually"
  }

  /** validate_pay_type: "monthly" or "annually", in any letter case. */
  predicate ValidPayType(a: string) {
    IsPayTypeWord(Lower(a))
  }

  /** `[0-9]+(\.[0-9]+)?k`. */
  predicate IsIncomeText(t: string) {
    |t| > 0 && t[|t| - 1] == 'k' && IsDecimal(t[..|t| - 1])
  }

  /** validate_income: the lower-cased answer matches `^[0-9]+(\.[0-9]+)?k$`. */
  predicate ValidIncome(a: string) {
    IsIncomeText(Chomp(Lower(a)))
  }

  predicate IsDaySuffix(s: string) {
    s == "st" || s == "nd" || s == "rd" || s == "th"
  }

  /** `\d+(st|nd|rd|th)`. */
  predicate IsMonthlyDayText(t: string) {
    |t| >= 3 && IsNumeral(t[..|t| - 2]) && IsDaySuffix(t[|t| - 2..])
  }

  /** validate_monthly_day: the lower-cased answer matches `^\d+(st|nd|rd|th)$`. */
  predicate ValidMonthlyDay(a: string) {
    IsMonthlyDayText(Chomp(Lower(a)))
  }

  /** One or two digits, `\d{1,2}`. */
  predicate ShortNumeral(s: string) {
    IsNumeral(s) && |s| <= 2
  }

  /** `\d{1,2}\/\d{1,2}`: digits are never '/', so the slash is the second or third
      character. */
  predicate IsDayMonthText(t: string) {
    || (|t| > 1 && t[1] == '/' && ShortNumeral(t[..1]) && ShortNumeral(t[2..]))
    || (|t| > 2 && t[2] == '/' && ShortNumeral(t[..2]) && ShortNumeral(t[3..]))
  }

  /** validate_annual_day: the answer as typed matches `^\d{1,2}\/\d{1,2}$`. */
  predicate ValidAnnualDay(a: string) {
    IsDayMonthText(Chomp(a))
  }

  /** validate_num_bills: `str.isdigit()`. */
  predicate ValidNumBills(a: string) {
    IsNumeral(a)
  }

  /** validate_nonempty. */
  predicate ValidNonEmpty(a: string) {
    |a| > 0
  }

  predicate IsFrequencyWord(t: string) {
    t == "monthly" || t == "annual" || t == "annually" || t == "weekly"
  }

  /** validate_frequency: "monthly", "annual", "annually" or "weekly", in any letter case. */
  predicate ValidFrequency(a: string) {
    IsFrequencyWord(Lower(a))
  }

  /** `\d+(\.\d{1,2})?`: a decimal with at most two digits after the point. */
  predicate IsAmountText(t: string) {
    IsDecimal(t) && |t| - DotIndex(t) <= 3
  }

  /** validate_amount: the answer as typed matches `^\d+(\.\d{1,2})?$`. */
  predicate ValidAmount(a: string) {
    IsAmountText(Chomp(a))
  }

  /** The validator a step carries. */
  datatype Validator =
    | PayTypeCheck | IncomeCheck | MonthlyDayCheck | AnnualDayCheck
    | NumBillsCheck | NonEmptyCheck | FrequencyCheck | AmountCheck

  /** The validator returns no error message. */
  predicate Accepts(v: Validator, a: string) {
    match v
    case PayTypeCheck => ValidPayType(a)
    case IncomeCheck => ValidIncome(a)
    case MonthlyDayCheck => ValidMonthlyDay(a)
    case AnnualDayCheck => ValidAnnualDay(a)
    case NumBillsCheck => ValidNumBills(a)
    case NonEmptyCheck => ValidNonEmpty(a)
    case FrequencyCheck => ValidFrequency(a)
    case AmountCheck => ValidAmount(a)
  }

  /** No whitespace at either end, as `strip()` leaves a string. */
  predicate Trimmed(a: string) {
    a == [] || (!IsSpace(a[0]) && !IsSpace(a[|a| - 1]))
  }

  /** Stripping leaves nothing for `Chomp` to drop. */
  lemma ChompOfStripped(a: string)
    requires Trimmed(a)
    ensures Chomp(a) == a
    ensures Chomp(Lower(a)) == Lower(a)
  {
    if |a| > 0 {
      assert !IsSpace(a[|a| - 1]);
      assert Lower(a)[|a| - 1] == LowerChar(a[|a| - 1]);
    }
  }

  /** The number an accepted income gives before its "k". */
  function IncomeFigure(a: string): string
    requires ValidIncome(a)
  {
    Chomp(Lower(a))[..|Chomp(Lower(a))| - 1]
  }

  /** A stripped income the wizard accepts is its figure followed by "k". */
  lemma IncomeFigureSplits(a: string)
    requires Trimmed(a) && ValidIncome(a)
    ensures IsDecimal(IncomeFigure(a))
    ensures Lower(a) == IncomeFigure(a) + "k"
  {
    ChompOfStripped(a);
  }

  /** For a stripped answer that reads `x` + "k" once lower-cased, the wizard accepts it
      exactly when `x` is a decimal, and `_convert_income` then reads it as `x` thousands. */
  lemma IncomeAnswerConverts(a: string, x: string)
    requires Trimmed(a) && Lower(a) == x + "k"
    ensures ValidIncome(a) <==> IsDecimal(x)
    ensures IsDecimal(x) ==> MLBackend.ConvertIncome(a) == Some(DecimalValue(x) * 1000.0)
  {
    ChompOfStripped(a);
    assert (x + "k")[..|x|] == x;
    if IsDecimal(x) {
      MLBackend.ConvertIncomeIgnoresCase(a);
      MLBackend.ConvertIncomeOfDecimal(x);
    }
  }

  /** An amount the wizard accepts is one `float` reads, as a value of at least 0. */
  lemma AmountAnswerParses(a: string)
    requires Trimmed(a) && ValidAmount(a)
    ensures IsDecimal(a)
    ensures ParseFloat(a) == Some(DecimalValue(a)) && DecimalValue(a) >= 0.0
  {
    ChompOfStripped(a);
    ParseFloatOfDecimal(a);
  }

  /** A pay type the wizard accepts posts exactly one income charge in
      apply_onboarding_adjustments. */
  lemma PayTypeAnswerPostsIncome(a: string, v: real)
    requires ValidPayType(a)
    ensures |MLBackend.IncomeCharges(MLBackend.PayType(Onboarding(Some(a), None, [])), v)| == 1
  {
  }

  /** Of the frequencies the wizard accepts, only "monthly" and "weekly" make a bill post
      anything: an "annual" or "annually" bill is accepted and then never charged. */
  lemma FrequencyAnswerPosts(d: Option<string>, f: string, amt: Option<string>)
    requires ValidFrequency(f)
    ensures MLBackend.BillCharge(Bill(d, Some(f), amt)).Some? <==>
              (Lower(f) == "monthly" || Lower(f) == "weekly") && MLBackend.BillAmount(Bill(d, Some(f), amt)) != 0.0
  {
  }

  /** The suffix is not checked against the number: "1nd" passes as a monthly pay day. */
  lemma MonthlyDaySuffixUnchecked(a: string)
    requires a == "1nd"
    ensures ValidMonthlyDay(a)
  {
    LowerOfLower(a);
    assert Chomp(a) == a;
    assert a[..1] == "1" && a[1..] == "nd";
  }

  /** Nor are day and month ranges: "99/99" passes as an annual pay day. */
  lemma AnnualDayRangeUnchecked(a: string)
    requires a == "99/99"
    ensures ValidAnnualDay(a)
  {
    assert Chomp(a) == a;
    assert a[..2] == "99" && a[3..] == "99";
  }

  /** An income without the "k" is refused, though `_convert_income` could read it. */
  lemma IncomeNeedsThousands(a: string)
    requires a == "150"
    ensures !ValidIncome(a)
  {
    LowerOfLower(a);
    assert Chomp(a) == a;
  }

  // ---------------------------------------------------------------------------------------
  // Step keys

  /** The `key` of a step, which is also its key in `user_data`. */
  datatype Key =
    | PayTypeKey | MonthlyIncomeKey | PayDayKey | NumBillsKey
    | BillDescKey(i: nat) | BillFreqKey(i: nat) | BillAmountKey(i: nat)

  /** The key as the Python code spells it. */
  function KeyName(k: Key): string {
    match k
    case PayTypeKey => "pay_type"
    case MonthlyIncomeKey => "monthly_income"
    case PayDayKey => "pay_day"
    case NumBillsKey => "num_bills"
    case BillDescKey(i) => "bill_" + NatToString(i) + "_desc"
    case BillFreqKey(i) => "bill_" + NatToString(i) + "_freq"
    case BillAmountKey(i) => "bill_" + NatToString(i) + "_amount"
  }

  predicate IsBillKey(k: Key) {
    k.BillDescKey? || k.BillFreqKey? || k.BillAmountKey?
  }

  /** `key.startswith('bill_')` picks out exactly the keys of the bill steps. */
  lemma BillKeyName(k: Key)
    ensures IsBillKey(k) <==> StartsWith(KeyName(k), "bill_")
  {
    var s := KeyName(k);
    if !IsBillKey(k) {
      assert s[0] != 'b';
    }
  }

  lemma {:induction false} NatToStringValue(n: nat)
    ensures AllDigits(NatToString(n)) && DigitsValue(NatToString(n)) == n
    decreases n
  {
    var s := NatToString(n);
    if n < 10 {
      assert s[..0] == [];
    } else {
      NatToStringValue(n / 10);
      assert s[..|s| - 1] == NatToString(n / 10);
    }
  }

  lemma NatToStringInjective(m: nat, n: nat)
    requires NatToString(m) == NatToString(n)
    ensures m == n
  {
    NatToStringValue(m);
    NatToStringValue(n);
  }

  /** Digits followed by an underscore split one way only. */
  lemma DigitsBeforeUnderscore(p: string, q: string, p2: string, q2: string)
    requires AllDigits(p) && AllDigits(p2) && |q| > 0 && |q2| > 0 && q[0] == '_' && q2[0] == '_'
    requires p + q == p2 + q2
    ensures p == p2 && q == q2
  {
    assert p == (p + q)[..|p|] && p2 == (p2 + q2)[..|p2|];
    assert q == (p + q)[|p|..] && q2 == (p2 + q2)[|p2|..];
  }

  /** What follows the number in a bill key's name. */
  function BillKeyTail(k: Key): string
    requires IsBillKey(k)
  {
    if k.BillDescKey? then "_desc" else if k.BillFreqKey? then "_freq" else "_amount"
  }

  /** A bill key's name is "bill_", its number and its tail. */
  lemma BillKeyNameParts(k: Key)
    requires IsBillKey(k)
    ensures |KeyName(k)| >= 5 && KeyName(k)[5..] == NatToString(k.i) + BillKeyTail(k)
  {
    assert KeyName(k) == "bill_" + (NatToString(k.i) + BillKeyTail(k));
  }

  /** The four fixed names differ in their fifth character. */
  lemma FixedKeyNames(a: Key, b: Key)
    requires !IsBillKey(a) && !IsBillKey(b) && KeyName(a) == KeyName(b)
    ensures a == b
  {
    assert KeyName(a)[4] == KeyName(b)[4];
  }

  /** Different keys have different names, so a `Key` stands for its name in `user_data`. */
  lemma KeyNameInjective(a: Key, b: Key)
    requires KeyName(a) == KeyName(b)
    ensures a == b
  {
    BillKeyName(a);
    BillKeyName(b);
    if IsBillKey(a) {
      BillKeyNameParts(a);
      BillKeyNameParts(b);
      var ta, tb := BillKeyTail(a), BillKeyTail(b);
      DigitsBeforeUnderscore(NatToString(a.i), ta, NatToString(b.i), tb);
      NatToStringInjective(a.i, b.i);
      assert ta[1] == tb[1];
    } else {
      FixedKeyNames(a, b);
    }
  }

  // ---------------------------------------------------------------------------------------
  // Steps

  /** A step without its question text: the key the answer is stored under and the
      validator. */
  datatype Step = Step(key: Key, check: Validator)

  const PayTypeStep := Step(PayTypeKey, PayTypeCheck)
  const IncomeStep := Step(MonthlyIncomeKey, IncomeCheck)
  const NumBillsStep := Step(NumBillsKey, NumBillsCheck)

  /** The pay-day step insert_pay_day_step builds: "monthly" asks for a day of the month,
      any other pay type for a day and month. */
  function PayDayCheck(payType: string): Validator {
    if Lower(payType) == "monthly" then MonthlyDayCheck else AnnualDayCheck
  }

  /** The three steps of bill `i`: description, frequency, amount. */
  function BillStepsOf(i: nat): seq<Step> {
    [Step(BillDescKey(i), NonEmptyCheck), Step(BillFreqKey(i), FrequencyCheck), Step(BillAmountKey(i), AmountCheck)]
  }

  /** The steps of bills 0 to n - 1, in order. */
  function BillSteps(n: nat): seq<Step> {
    if n == 0 then [] else BillSteps(n - 1) + BillStepsOf(n - 1)
  }

  /** Step `j` of the bill steps: bill j / 3, and of its three steps the (j % 3)-th. */
  function BillStep(j: nat): Step {
    BillStepsOf(j / 3)[j % 3]
  }

  /** There are 3n bill steps, bill 0's first, each bill's in the order description,
      frequency, amount. */
  lemma {:induction false} BillStepsAt(n: nat)
    ensures |BillSteps(n)| == 3 * n
    ensures forall j :: 0 <= j < 3 * n ==> BillSteps(n)[j] == BillStep(j)
    decreases n
  {
    if n > 0 {
      BillStepsAt(n - 1);
      forall j | 0 <= j < 3 * n
        ensures BillSteps(n)[j] == BillStep(j)
      {
        if j >= 3 * (n - 1) {
          assert j / 3 == n - 1 && j % 3 == j - 3 * (n - 1);
        }
      }
    }
  }

  lemma {:induction false} BillStepsLength(n: nat)
    ensures |BillSteps(n)| == 3 * n
  {
    if n > 0 {
      BillStepsLength(n - 1);
    }
  }

  /** Python's `list.insert(i, x)`: past the end it appends. */
  function Insert(s: seq<Step>, i: nat, x: Step): seq<Step> {
    var j := if i <= |s| then i else |s|;
    s[..j] + [x] + s[j..]
  }

  /** `[s for s in steps if not s['key'].startswith('bill_')]`. */
  function WithoutBillSteps(s: seq<Step>): (r: seq<Step>)
    ensures forall j :: 0 <= j < |r| ==> !IsBillKey(r[j].key)
    decreases |s|
  {
    if |s| == 0 then []
    else
      var last := s[|s| - 1];
      WithoutBillSteps(s[..|s| - 1]) + (if IsBillKey(last.key) then [] else [last])
  }

  /** `any(s['key'] == k for s in steps)`. */
  predicate HasKey(s: seq<Step>, k: Key) {
    exists j :: 0 <= j < |s| && s[j].key == k
  }

  /** The step lists the wizard can reach: pay type, the pay-day step once it is inserted,
      income, and once inserted the bill-count step followed by the steps of that many
      bills. */
  function Layout(payDay: Option<Validator>, bills: Option<nat>): seq<Step> {
    [PayTypeStep] + (if payDay.Some? then [Step(PayDayKey, payDay.value)] else []) + [IncomeStep]
      + (if bills.Some? then [NumBillsStep] + BillSteps(bills.value) else [])
  }

  /** Index of the income step, and so of the question after which the bill count goes. */
  function IncomeIndex(payDay: Option<Validator>): nat {
    if payDay.Some? then 2 else 1
  }

  /** The validator every step of a key carries (`payDay` for the pay-day step). */
  function KeyCheck(k: Key, payDay: Option<Validator>): Validator {
    match k
    case PayTypeKey => PayTypeCheck
    case MonthlyIncomeKey => IncomeCheck
    case PayDayKey => payDay.GetOr(MonthlyDayCheck)
    case NumBillsKey => NumBillsCheck
    case BillDescKey(_) => NonEmptyCheck
    case BillFreqKey(_) => FrequencyCheck
    case BillAmountKey(_) => AmountCheck
  }

  /** Where each key sits in a reachable step list: pay type first, the pay day second, then
      income, the bill count right after it and the bill steps after that. */
  lemma LayoutAt(pd: Option<Validator>, bc: Option<nat>, j: nat)
    requires j < |Layout(pd, bc)|
    ensures |Layout(pd, bc)| == IncomeIndex(pd) + 1 + (if bc.Some? then 1 + 3 * bc.value else 0)
    ensures var s := Layout(pd, bc)[j];
            && (s.key == PayTypeKey <==> j == 0)
            && (s.key == PayDayKey <==> pd.Some? && j == 1)
            && (s.key == MonthlyIncomeKey <==> j == IncomeIndex(pd))
            && (s.key == NumBillsKey <==> bc.Some? && j == IncomeIndex(pd) + 1)
            && (IsBillKey(s.key) <==> j > IncomeIndex(pd) + 1)
            && (j > IncomeIndex(pd) + 1 ==> s == BillStep(j - IncomeIndex(pd) - 2))
            && s.check == KeyCheck(s.key, pd)
  {
    var head := [PayTypeStep] + (if pd.Some? then [Step(PayDayKey, pd.value)] else []) + [IncomeStep];
    assert |head| == IncomeIndex(pd) + 1;
    if bc.Some? {
      BillStepsAt(bc.value);
      var n := IncomeIndex(pd) + 2;
      if j >= n {
        assert Layout(pd, bc)[j] == BillSteps(bc.value)[j - n];
      }
    }
  }

  /** Every key occurs at most once in a reachable step list; in particular the pay-day and
      bill-count steps are never there twice. */
  lemma LayoutKeysDistinct(pd: Option<Validator>, bc: Option<nat>, i: nat, j: nat)
    requires i < j < |Layout(pd, bc)|
    ensures Layout(pd, bc)[i].key != Layout(pd, bc)[j].key
  {
    LayoutAt(pd, bc, i);
    LayoutAt(pd, bc, j);
    var n := IncomeIndex(pd) + 2;
    if i >= n {
      var p, q := i - n, j - n;
      if p / 3 == q / 3 {
        assert p % 3 != q % 3;
      }
    }
  }

  /** With the bill count answered as n there are exactly 3n bill steps, all after it. */
  lemma LayoutBillCount(pd: Option<Validator>, n: nat)
    ensures |Layout(pd, Some(n))| == IncomeIndex(pd) + 2 + 3 * n
    ensures forall j :: 0 <= j < |Layout(pd, Some(n))| ==>
              (IsBillKey(Layout(pd, Some(n))[j].key) <==> j >= IncomeIndex(pd) + 2)
  {
    LayoutAt(pd, Some(n), 0);
    forall j | 0 <= j < |Layout(pd, Some(n))|
      ensures IsBillKey(Layout(pd, Some(n))[j].key) <==> j >= IncomeIndex(pd) + 2
    {
      LayoutAt(pd, Some(n), j);
    }
  }

  lemma HasKeyLayout(pd: Option<Validator>, bc: Option<nat>)
    ensures HasKey(Layout(pd, bc), PayDayKey) <==> pd.Some?
    ensures HasKey(Layout(pd, bc), NumBillsKey) <==> bc.Some?
  {
    var s := Layout(pd, bc);
    LayoutAt(pd, bc, 0);
    if pd.Some? { assert s[1].key == PayDayKey; }
    if bc.Some? { assert s[IncomeIndex(pd) + 1].key == NumBillsKey; }
    forall j | 0 <= j < |s| ensures s[j].key == PayDayKey ==> pd.Some? {
      LayoutAt(pd, bc, j);
    }
    forall j | 0 <= j < |s| ensures s[j].key == NumBillsKey ==> bc.Some? {
      LayoutAt(pd, bc, j);
    }
  }

  /** Inserting the pay-day step after the pay-type question gives the list with it. */
  lemma InsertPayDay(bc: Option<nat>, v: Validator)
    ensures Insert(Layout(None, bc), 1, Step(PayDayKey, v)) == Layout(Some(v), bc)
  {
  }

  /** Inserting the bill-count step after the income question gives the list with it and no
      bills. */
  lemma InsertNumBills(pd: Option<Validator>)
    ensures Insert(Layout(pd, None), IncomeIndex(pd) + 1, NumBillsStep) == Layout(pd, Some(0))
  {
  }

  lemma {:induction false} WithoutBillStepsAppend(a: seq<Step>, b: seq<Step>)
    ensures WithoutBillSteps(a + b) == WithoutBillSteps(a) + WithoutBillSteps(b)
    decreases |b|
  {
    if |b| == 0 {
      assert a + b == a;
    } else {
      var init := b[..|b| - 1];
      assert (a + b)[..|a + b| - 1] == a + init;
      WithoutBillStepsAppend(a, init);
    }
  }

  lemma {:induction false} WithoutOnlyBillSteps(s: seq<Step>)
    requires forall j :: 0 <= j < |s| ==> IsBillKey(s[j].key)
    ensures WithoutBillSteps(s) == []
    decreases |s|
  {
    if |s| > 0 {
      WithoutOnlyBillSteps(s[..|s| - 1]);
    }
  }

  lemma WithoutBillStepsOfBills(n: nat)
    ensures WithoutBillSteps(BillSteps(n)) == []
  {
    BillStepsAt(n);
    WithoutOnlyBillSteps(BillSteps(n));
  }

  /** Dropping the bill steps of a reachable list leaves the steps up to the bill count. */
  lemma DropBills(pd: Option<Validator>, n: nat)
    ensures WithoutBillSteps(Layout(pd, Some(n))) == Layout(pd, Some(0))
  {
    var head := [PayTypeStep] + (if pd.Some? then [Step(PayDayKey, pd.value)] else []) + [IncomeStep] + [NumBillsStep];
    assert Layout(pd, Some(n)) == head + BillSteps(n);
    assert Layout(pd, Some(0)) == head;
    WithoutBillStepsAppend(head, BillSteps(n));
    WithoutBillStepsOfBills(n);
    WithoutNoBillSteps(head);
  }

  lemma {:induction false} WithoutNoBillSteps(s: seq<Step>)
    requires forall j :: 0 <= j < |s| ==> !IsBillKey(s[j].key)
    ensures WithoutBillSteps(s) == s
    decreases |s|
  {
    if |s| > 0 {
      WithoutNoBillSteps(s[..|s| - 1]);
    }
  }

  /** Three inserts at one index, amount then frequency then description, leave the bill's
      steps in the order description, frequency, amount. */
  lemma InsertBill(pre: seq<Step>, post: seq<Step>, i: nat)
    ensures var t := BillStepsOf(i);
            Insert(Insert(Insert(pre + post, |pre|, t[2]), |pre|, t[1]), |pre|, t[0]) == pre + t + post
  {
    var t := BillStepsOf(i);
    var s1 := Insert(pre + post, |pre|, t[2]);
    assert s1 == pre + [t[2]] + post;
    var s2 := Insert(s1, |pre|, t[1]);
    assert s2 == pre + [t[1], t[2]] + post;
  }

  // ---------------------------------------------------------------------------------------
  // The answers

  type Answers = map<Key, string>

  function Lookup(ud: Answers, k: Key): Option<string> {
    if k in ud then Some(ud[k]) else None
  }

  /** `int(user_data.get('num_bills', 0))`: the count answered, 0 before that. */
  function NumBillsAnswer(ud: Answers): nat
    requires NumBillsKey in ud ==> AllDigits(ud[NumBillsKey])
  {
    if NumBillsKey in ud then DigitsValue(ud[NumBillsKey]) else 0
  }

  /** The bills complete_onboarding gathers: one per index below n, a missing field read as
      "". */
  function GatheredBills(ud: Answers, n: nat): (bs: seq<Bill>)
    ensures |bs| == n
  {
    seq(n, i requires 0 <= i < n =>
      Bill(Some(Lookup(ud, BillDescKey(i)).GetOr("")),
           Some(Lookup(ud, BillFreqKey(i)).GetOr("")),
           Some(Lookup(ud, BillAmountKey(i)).GetOr(""))))
  }

  /** The answer stored under `k`, if any, passed the validator of `k` and is stripped. */
  predicate Kept(ud: Answers, pd: Option<Validator>, k: Key) {
    k in ud ==> Accepts(KeyCheck(k, pd), ud[k]) && Trimmed(ud[k])
  }

  /** Every stored answer passed the validator of its key and is stripped. */
  ghost predicate Checked(ud: Answers, pd: Option<Validator>) {
    && (PayDayKey in ud ==> pd.Some?)
    && forall k :: Kept(ud, pd, k)
  }

  /** Every step before the current one has an answer. */
  ghost predicate Answered(steps: seq<Step>, cur: nat, ud: Answers) {
    cur <= |steps| && forall j :: 0 <= j < cur ==> steps[j].key in ud
  }

  /** A bill as the adjustments read it: a description, an accepted frequency and an amount
      `float` reads. */
  ghost predicate UsableBill(b: Bill) {
    && b.description.Some? && |b.description.value| > 0
    && b.frequency.Some? && ValidFrequency(b.frequency.value)
    && b.amount.Some? && ParseFloat(b.amount.value).Some?
    && MLBackend.BillAmount(b) >= 0.0
  }

  /** An onboarding record apply_onboarding_adjustments can use without an exception: an
      accepted pay type, an income `_convert_income` reads, and usable bills. */
  ghost predicate Usable(ob: Onboarding) {
    && ob.payType.Some? && ValidPayType(ob.payType.value)
    && ob.monthlyIncome.Some? && MLBackend.ConvertIncome(ob.monthlyIncome.value).Some?
    && forall i :: 0 <= i < |ob.bills| ==> UsableBill(ob.bills[i])
  }

  /** The record saved under `onboarding`, restricted to the fields the core reads back. */
  function Record(ud: Answers): Onboarding
    requires NumBillsKey in ud ==> AllDigits(ud[NumBillsKey])
  {
    Onboarding(Lookup(ud, PayTypeKey), Lookup(ud, MonthlyIncomeKey), GatheredBills(ud, NumBillsAnswer(ud)))
  }

  /** The bill steps follow the bill count. */
  lemma LayoutBills(pd: Option<Validator>, n: nat)
    ensures Layout(pd, Some(n)) == Layout(pd, Some(0)) + BillSteps(n)
    ensures |Layout(pd, Some(0))| == IncomeIndex(pd) + 2
  {
  }

  /** The three steps of bill `i` sit at 3i, 3i + 1 and 3i + 2 after the bill count. */
  lemma BillStepsOfAt(pd: Option<Validator>, n: nat, i: nat)
    requires i < n
    ensures var s, j := Layout(pd, Some(n)), IncomeIndex(pd) + 2 + 3 * i;
            && j + 2 < |s|
            && s[j] == Step(BillDescKey(i), NonEmptyCheck)
            && s[j + 1] == Step(BillFreqKey(i), FrequencyCheck)
            && s[j + 2] == Step(BillAmountKey(i), AmountCheck)
  {
    LayoutBills(pd, n);
    BillStepsAt(n);
    var b := BillSteps(n);
    assert b[3 * i] == BillStep(3 * i) && b[3 * i + 1] == BillStep(3 * i + 1) && b[3 * i + 2] == BillStep(3 * i + 2);
    assert (3 * i) / 3 == i && (3 * i + 1) / 3 == i && (3 * i + 2) / 3 == i;
  }

  /** Answers that passed the three bill validators make a bill the adjustments can use. */
  lemma UsableBillOf(d: string, f: string, a: string)
    requires ValidNonEmpty(d) && ValidFrequency(f) && Trimmed(a) && ValidAmount(a)
    ensures UsableBill(Bill(Some(d), Some(f), Some(a)))
  {
    AmountAnswerParses(a);
  }

  /** The answer stored under `k` passed the validator of `k`. */
  lemma KeptAt(ud: Answers, pd: Option<Validator>, k: Key)
    requires Kept(ud, pd, k) && k in ud
    ensures Accepts(KeyCheck(k, pd), ud[k]) && Trimmed(ud[k])
  {
  }

  /** Bill `i` of a reachable list whose steps are all answered is usable. */
  lemma AnsweredBillUsable(pd: Option<Validator>, n: nat, ud: Answers, i: nat)
    requires Checked(ud, pd)
    requires forall j :: 0 <= j < |Layout(pd, Some(n))| ==> Layout(pd, Some(n))[j].key in ud
    requires i < n
    ensures BillDescKey(i) in ud && BillFreqKey(i) in ud && BillAmountKey(i) in ud
    ensures UsableBill(Bill(Some(ud[BillDescKey(i)]), Some(ud[BillFreqKey(i)]), Some(ud[BillAmountKey(i)])))
  {
    var s, j := Layout(pd, Some(n)), IncomeIndex(pd) + 2 + 3 * i;
    BillStepsOfAt(pd, n, i);
    assert s[j].key in ud && s[j + 1].key in ud && s[j + 2].key in ud;
    var d, f, a := ud[BillDescKey(i)], ud[BillFreqKey(i)], ud[BillAmountKey(i)];
    assert Kept(ud, pd, BillDescKey(i)) && Kept(ud, pd, BillFreqKey(i)) && Kept(ud, pd, BillAmountKey(i));
    KeptAt(ud, pd, BillDescKey(i));
    KeptAt(ud, pd, BillFreqKey(i));
    KeptAt(ud, pd, BillAmountKey(i));
    UsableBillOf(d, f, a);
  }

  /** Once every step of a reachable list is answered, the pay type is accepted and the
      income is one `_convert_income` reads. */
  lemma AnsweredIncomeUsable(pd: Option<Validator>, n: nat, ud: Answers)
    requires Checked(ud, pd)
    requires forall j :: 0 <= j < |Layout(pd, Some(n))| ==> Layout(pd, Some(n))[j].key in ud
    ensures PayTypeKey in ud && ValidPayType(ud[PayTypeKey])
    ensures MonthlyIncomeKey in ud && MLBackend.ConvertIncome(ud[MonthlyIncomeKey]).Some?
  {
    var s := Layout(pd, Some(n));
    LayoutAt(pd, Some(n), 0);
    assert s[0].key == PayTypeKey && s[IncomeIndex(pd)].key == MonthlyIncomeKey;
    var m := ud[MonthlyIncomeKey];
    assert Kept(ud, pd, PayTypeKey) && Kept(ud, pd, MonthlyIncomeKey);
    IncomeFigureSplits(m);
    IncomeAnswerConverts(m, IncomeFigure(m));
  }

  /** Once every step of a reachable list with n bills is answered, each of the n gathered
      bills is usable. */
  lemma AnsweredBillsUsable(pd: Option<Validator>, n: nat, ud: Answers)
    requires Checked(ud, pd)
    requires forall j :: 0 <= j < |Layout(pd, Some(n))| ==> Layout(pd, Some(n))[j].key in ud
    ensures forall i :: 0 <= i < n ==> UsableBill(GatheredBills(ud, n)[i])
  {
    forall i | 0 <= i < n ensures UsableBill(GatheredBills(ud, n)[i]) {
      AnsweredBillUsable(pd, n, ud, i);
    }
  }

  /** Once every step of a reachable list with n bills is answered, the record is usable and
      holds exactly n bills. */
  lemma CompletedRecordUsable(pd: Option<Validator>, n: nat, ud: Answers)
    requires Checked(ud, pd)
    requires forall j :: 0 <= j < |Layout(pd, Some(n))| ==> Layout(pd, Some(n))[j].key in ud
    requires NumBillsKey in ud ==> AllDigits(ud[NumBillsKey])
    requires NumBillsAnswer(ud) == n
    ensures Usable(Record(ud))
    ensures |Record(ud).bills| == n
  {
    AnsweredIncomeUsable(pd, n, ud);
    AnsweredBillsUsable(pd, n, ud);
  }

  /** The states the wizard can be in. */
  ghost predicate Reachable(steps: seq<Step>, cur: nat, ud: Answers, pd: Option<Validator>, bc: Option<nat>) {
    && steps == Layout(pd, bc)
    && cur < |steps|
    && (pd.Some? ==> pd.value == MonthlyDayCheck || pd.value == AnnualDayCheck)
    && Checked(ud, pd) && Answered(steps, cur, ud)
    && (NumBillsKey in ud ==> bc.Some? && AllDigits(ud[NumBillsKey]))
    && (bc.Some? ==> bc.value == NumBillsAnswer(ud))
  }

  /** Dropping the bill steps and building m bills after the bill count turns the list for
      n bills into the list for m. */
  lemma RebuildBills(pd: Option<Validator>, n: nat, m: nat)
    ensures var l0, j := WithoutBillSteps(Layout(pd, Some(n))), IncomeIndex(pd) + 2;
            && j == |l0| && l0[..j] + BillSteps(m) + l0[j..] == Layout(pd, Some(m))
  {
    DropBills(pd, n);
    LayoutBills(pd, m);
    var l0 := Layout(pd, Some(0));
    assert l0[..|l0|] == l0 && l0[|l0|..] == [];
  }

  /** `self.user_data[key] = raw_answer` keeps every stored answer checked, the pay-day
      validator fixed once it is chosen. */
  lemma StoreAnswer(ud: Answers, pd: Option<Validator>, pd2: Option<Validator>, k: Key, raw: string)
    requires Checked(ud, pd)
    requires Accepts(KeyCheck(k, pd2), raw) && Trimmed(raw)
    requires pd2 == pd || (pd.None? && k != PayDayKey)
    requires k == PayDayKey ==> pd2.Some?
    ensures Checked(ud[k := raw], pd2)
  {
    var ud2 := ud[k := raw];
    forall k2 ensures Kept(ud2, pd2, k2) {
      if k2 != k {
        assert Kept(ud, pd, k2);
        if k2 == PayDayKey {
          assert pd2 == pd || k2 !in ud;
        }
      }
    }
  }

  /** Answering step `cur` of a list keeps the earlier answers and adds that one, so every
      step up to and including it is answered in any list with the same prefix. */
  lemma AnsweredAfter(st: seq<Step>, st2: seq<Step>, cur: nat, ud: Answers, raw: string)
    requires Answered(st, cur, ud) && cur < |st| && cur < |st2|
    requires st2[..cur + 1] == st[..cur + 1]
    ensures Answered(st2, cur + 1, ud[st[cur].key := raw])
  {
    forall j | 0 <= j < cur + 1 ensures st2[j] == st[j] {
      assert st2[j] == st2[..cur + 1][j];
    }
  }

  /** One accepted answer moves a reachable state to a reachable one: the step list grows by
      the pay-day step after the first pay-type answer, by the bill-count step after the
      first income answer, and is rebuilt for the new count after a bill-count answer; the
      steps up to the answered one stay in place, and the wizard can only finish once the
      bill count is asked. */
  lemma AnswerStep(st: seq<Step>, cur: nat, ud: Answers, pd: Option<Validator>, bc: Option<nat>,
                   raw: string, pd2: Option<Validator>, bc2: Option<nat>)
    requires Reachable(st, cur, ud, pd, bc)
    requires Trimmed(raw) && Accepts(st[cur].check, raw)
    requires pd2 == if st[cur].key == PayTypeKey && pd.None? then Some(PayDayCheck(raw)) else pd
    requires st[cur].key == NumBillsKey ==> IsNumeral(raw) && bc2 == Some(DigitsValue(raw))
    requires st[cur].key == MonthlyIncomeKey ==> bc2 == if bc.None? then Some(0) else bc
    requires st[cur].key != NumBillsKey && st[cur].key != MonthlyIncomeKey ==> bc2 == bc
    ensures cur < |Layout(pd2, bc2)|
    ensures cur + 1 < |Layout(pd2, bc2)| ==> Reachable(Layout(pd2, bc2), cur + 1, ud[st[cur].key := raw], pd2, bc2)
    ensures cur + 1 == |Layout(pd2, bc2)| ==>
              && Reachable(Layout(pd2, bc2), cur, ud[st[cur].key := raw], pd2, bc2) && bc2.Some?
              && Usable(Record(ud[st[cur].key := raw])) && |Record(ud[st[cur].key := raw]).bills| == bc2.value
  {
    var k := st[cur].key;
    var ud2, st2 := ud[k := raw], Layout(pd2, bc2);
    LayoutAt(pd, bc, cur);
    LayoutAt(pd2, bc2, 0);
    assert KeyCheck(k, pd2) == KeyCheck(k, pd);
    StoreAnswer(ud, pd, pd2, k, raw);
    var head := [PayTypeStep] + (if pd.Some? then [Step(PayDayKey, pd.value)] else []) + [IncomeStep];
    if k == PayTypeKey {
      assert st2[..1] == st[..1];
    } else if k == NumBillsKey {
      LayoutBills(pd, bc.value);
      LayoutBills(pd, bc2.value);
      assert st2[..cur + 1] == Layout(pd, Some(0)) == st[..cur + 1];
    } else if k == MonthlyIncomeKey && bc.None? {
      assert st2[..cur + 1] == head == st[..cur + 1];
    } else {
      assert st2 == st;
    }
    AnsweredAfter(st, st2, cur, ud, raw);
    if cur == |st2| - 1 {
      if bc2.None? {
        LayoutAt(pd2, bc2, cur);
        assert false;
      }
      CompletedRecordUsable(pd2, bc2.value, ud2);
    }
  }

  /** The onboarding wizard: the list of steps, which one is shown, and the answers. */
  class OnboardingScreen {
    var steps: seq<Step>
    var currentStep: nat
    var userData: Answers
    /** The validator of the pay-day step, once it is inserted. */
    ghost var payDay: Option<Validator>
    /** The bill count the bill steps were built for, once the bill-count step is inserted. */
    ghost var billCount: Option<nat>

    ghost predicate Valid()
      reads this
    {
      Reachable(steps, currentStep, userData, payDay, billCount)
    }

    /** Two steps, pay type and income, the first one shown, nothing answered. */
    constructor ()
      ensures Valid()
      ensures steps == [PayTypeStep, IncomeStep] && currentStep == 0 && userData == map[]
      ensures payDay.None? && billCount.None?
    {
      steps := [PayTypeStep, IncomeStep];
      currentStep := 0;
      userData := map[];
      payDay := None;
      billCount := None;
    }

    /** One step back, unless on the first. */
    method GoBack()
      requires Valid()
      modifies this
      ensures Valid()
      ensures currentStep == if old(currentStep) > 0 then old(currentStep) - 1 else 0
      ensures steps == old(steps) && userData == old(userData)
      ensures payDay == old(payDay) && billCount == old(billCount)
    {
      if currentStep > 0 {
        currentStep := currentStep - 1;
      }
    }

    /** The pay-day step, after the current one: a day of the month for "monthly", a day and
        month otherwise. */
    method InsertPayDayStep(payType: string)
      modifies this
      ensures steps == Insert(old(steps), old(currentStep) + 1, Step(PayDayKey, PayDayCheck(payType)))
      ensures currentStep == old(currentStep) && userData == old(userData)
      ensures payDay == old(payDay) && billCount == old(billCount)
    {
      var check := if Lower(payType) == "monthly" then MonthlyDayCheck else AnnualDayCheck;
      steps := Insert(steps, currentStep + 1, Step(PayDayKey, check));
    }

    /** The bill-count step, after the current one. */
    method InsertNumBillsStep()
      modifies this
      ensures steps == Insert(old(steps), old(currentStep) + 1, NumBillsStep)
      ensures currentStep == old(currentStep) && userData == old(userData)
      ensures payDay == old(payDay) && billCount == old(billCount)
    {
      steps := Insert(steps, currentStep + 1, NumBillsStep);
    }

    /** The three steps of each of n bills, in bill order, right after the current step. */
    method BuildBillSteps(n: nat)
      requires currentStep < |steps|
      modifies this
      ensures steps == old(steps[..currentStep + 1]) + BillSteps(n) + old(steps[currentStep + 1..])
      ensures currentStep == old(currentStep) && userData == old(userData)
      ensures payDay == old(payDay) && billCount == old(billCount)
    {
      ghost var pre, post := steps[..currentStep + 1], steps[currentStep + 1..];
      var insertIndex := currentStep + 1;
      assert steps == pre + BillSteps(0) + post;
      var i := 0;
      while i < n
        invariant i <= n
        invariant insertIndex == |pre| + 3 * i
        invariant steps == pre + BillSteps(i) + post
        invariant currentStep == old(currentStep) && userData == old(userData)
        invariant payDay == old(payDay) && billCount == old(billCount)
      {
        var desc, freq, amount := Step(BillDescKey(i), NonEmptyCheck), Step(BillFreqKey(i), FrequencyCheck), Step(BillAmountKey(i), AmountCheck);
        BillStepsLength(i);
        InsertBill(pre + BillSteps(i), post, i);
        steps := Insert(steps, insertIndex, amount);
        steps := Insert(steps, insertIndex, freq);
        steps := Insert(steps, insertIndex, desc);
        assert pre + BillSteps(i) + BillStepsOf(i) + post == pre + BillSteps(i + 1) + post;
        insertIndex := insertIndex + 3;
        i := i + 1;
      }
    }

    /** The record complete_onboarding saves: the pay type, the income and one bill per
        index below the bill count, fields not answered read as "". */
    method CompleteOnboarding() returns (record: Onboarding)
      requires NumBillsKey in userData ==> AllDigits(userData[NumBillsKey])
      ensures record == Record(userData)
    {
      var nb := NumBillsAnswer(userData);
      var bills: seq<Bill> := [];
      for i := 0 to nb
        invariant bills == GatheredBills(userData, i)
      {
        var desc := Lookup(userData, BillDescKey(i)).GetOr("");
        var freq := Lookup(userData, BillFreqKey(i)).GetOr("");
        var amount := Lookup(userData, BillAmountKey(i)).GetOr("");
        bills := bills + [Bill(Some(desc), Some(freq), Some(amount))];
      }
      record := Onboarding(Lookup(userData, PayTypeKey), Lookup(userData, MonthlyIncomeKey), bills);
    }

    /** The step-list updates of go_next after an answer to the step of `key`: the pay-day
        step after the first pay-type answer, the bill-count step after the first income
        answer, and the bill steps rebuilt for the count after a bill-count answer. */
    method AdjustSteps(key: Key, raw: string)
      requires steps == Layout(payDay, billCount) && currentStep < |steps| && steps[currentStep].key == key
      requires key == NumBillsKey ==> IsNumeral(raw)
      modifies this
      ensures payDay == if key == PayTypeKey && old(payDay).None? then Some(PayDayCheck(raw)) else old(payDay)
      ensures key == NumBillsKey ==> billCount == Some(DigitsValue(raw))
      ensures key == MonthlyIncomeKey ==> billCount == if old(billCount).None? then Some(0) else old(billCount)
      ensures key != NumBillsKey && key != MonthlyIncomeKey ==> billCount == old(billCount)
      ensures steps == Layout(payDay, billCount)
      ensures currentStep == old(currentStep) && userData == old(userData)
    {
      LayoutAt(payDay, billCount, currentStep);
      HasKeyLayout(payDay, billCount);
      if key == PayTypeKey && !HasKey(steps, PayDayKey) {
        InsertPayDayStep(raw);
        InsertPayDay(billCount, PayDayCheck(raw));
        payDay := Some(PayDayCheck(raw));
      }
      if key == MonthlyIncomeKey && !HasKey(steps, NumBillsKey) {
        InsertNumBillsStep();
        InsertNumBills(payDay);
        billCount := Some(0);
      }
      if key == NumBillsKey {
        var nb := DigitsValue(raw);
        RebuildBills(payDay, billCount.value, nb);
        steps := WithoutBillSteps(steps);
        BuildBillSteps(nb);
        billCount := Some(nb);
      }
    }

    /** Next/Finish: the stripped answer is checked by the current step's validator; if it
        passes it is stored, the step list grows or is rebuilt as the answer requires, and the
        wizard moves on, or on the last step returns the completed record, which the income
        and bill adjustments can use. */
    method GoNext(answer: string) returns (accepted: bool, completed: Option<Onboarding>)
      requires Valid()
      modifies this
      ensures Valid()
      ensures accepted == Accepts(old(steps[currentStep].check), Strip(answer))
      ensures !accepted ==> && completed.None? && steps == old(steps) && currentStep == old(currentStep)
                            && userData == old(userData) && payDay == old(payDay) && billCount == old(billCount)
      ensures accepted ==> userData == old(userData)[old(steps[currentStep].key) := Strip(answer)]
      ensures accepted ==> payDay == if old(steps[currentStep].key) == PayTypeKey && old(payDay).None?
                                     then Some(PayDayCheck(Strip(answer))) else old(payDay)
      ensures accepted && old(steps[currentStep].key) == NumBillsKey ==>
                billCount == Some(DigitsValue(Strip(answer)))
      ensures accepted && old(steps[currentStep].key) == MonthlyIncomeKey ==>
                billCount == if old(billCount).None? then Some(0) else old(billCount)
      ensures accepted && old(steps[currentStep].key) != NumBillsKey && old(steps[currentStep].key) != MonthlyIncomeKey ==>
                billCount == old(billCount)
      ensures steps == Layout(payDay, billCount)
      ensures accepted ==> (completed.Some? <==> old(currentStep) == |steps| - 1)
      ensures accepted && completed.None? ==> currentStep == old(currentStep) + 1
      ensures completed.Some? ==> && currentStep == old(currentStep) && billCount.Some?
                                  && completed.value == Record(userData)
                                  && Usable(completed.value) && |completed.value.bills| == billCount.value
    {
      var step := steps[currentStep];
      var raw := Strip(answer);
      if !Accepts(step.check, raw) {
        return false, None;
      }
      accepted := true;
      ghost var st0, cur0, ud0, pd0, bc0 := steps, currentStep, userData, payDay, billCount;
      LayoutAt(payDay, billCount, currentStep);
      userData := userData[step.key := raw];
      AdjustSteps(step.key, raw);
      AnswerStep(st0, cur0, ud0, pd0, bc0, raw, payDay, billCount);
      if currentStep == |steps| - 1 {
        var record := CompleteOnboarding();
        completed := Some(record);
      } else {
        currentStep := currentStep + 1;
        completed := None;
      }
    }
  }
}
