# Spending tracker core, modelled in Dafny

A personal-finance desktop app records spending by month and category. It has two
bookkeeping engines and two screens that feed them.

- **`SpentML`** (Backend/SpentML.py) keeps several things:
  - a global month → category → amount ledger;
  - one such ledger per user;
  - a log of every transaction;
  - the training samples of a text classifier that predicts each transaction's category.

  Once per month and user, it posts the user's declared income and recurring bills into that
  user's month and flags the month as adjusted. A category correction relabels the log and
  moves the amounts. A month comparison lists every category's change, sorted by size, and
  summarises the largest one.
- **`SpendingInsights`** (Backend/SpendingInsights.py) is the older keyword engine. The first
  keyword of its table that occurs in the lower-cased description names the category. Dates
  are parsed with `strptime("%Y-%m-%d")`. A correction maps the description's first word to
  the new category.
- **The insights screen** (Screens/InsightsScreen.py) guards the transaction and income forms
  before calling the engine. It also splits a month's table into the spending chart and the
  income total, and overlays the user's recurring subscriptions and incomes.
- **The onboarding wizard** (Screens/OnboardingScreen.py) asks a list of questions:
  - It starts with pay type, then income.
  - It inserts a pay-day question after the pay type.
  - It inserts a bill-count question after the income.
  - It inserts three questions per bill after the bill count.
  - It checks every answer with a validator and gathers the record that `SpentML` reads back.

The modules follow the program:

| module | contents |
|---|---|
| `Wrappers`, `Text`, `Numeric`, `Dates` | Python's `Option`-like results, `str.lower`/`strip`/`split`/`in`, `float(str)`, and `strptime`/`strftime` for `%Y-%m-%d` |
| `Tables`, `Recurring`, `Comparison` | defaultdict ledgers, posting of recurring charges, and the month comparison both engines share |
| `Accounts` | the `users.json` records the core reads |
| `MLBackend` | `class SpentML` and the functions specifying it |
| `InsightsBackend` | `class SpendingInsights` and the keyword categoriser |
| `InsightsScreen` | the form guards and `_filter_spending_data` |
| `Onboarding` | `class OnboardingScreen`, its validators and its reachable step lists |

Each state-changing method is proved against a specification function. The properties the
source promises are proved as lemmas about those functions:

- the comparison lists every category exactly once and is sorted;
- adjustments run once per month, are idempotent and post exactly income, bills and the flag;
- corrections conserve every month's total;
- the wizard only ever completes with a record the adjustments can use.

Python's dynamic structures are modelled as follows:

- Amounts are `real`, not floats.
- A `defaultdict` becomes a `map` that is read with a default (`Get`, `MonthOf`, `UserOf`).
  Indexing that creates an entry is written out explicitly.
- An exception becomes a `false` or `None` result at the point where the source raises it.
- The classifier, a scikit-learn model, becomes the function `learner` from training samples
  to a predictor.
- The contents of `users.json` are a parameter (`UserStore`).

## Model

| member | source | states |
|---|---|---|
| Text.Lower | Backend/SpendingInsights.py:43 | lower-casing keeps the length and maps each character through ASCII `lower()` |
| Text.LowerIdempotent | Backend/SpentML.py:106 | lower-casing twice is lower-casing once |
| Text.Strip | Screens/OnboardingScreen.py:138 | `strip()` leaves no whitespace at either end, is empty only for all-whitespace input, and otherwise occurs inside the input |
| Text.StripOfTrimmed | Backend/SpentML.py:106 | stripping a string with no whitespace at its ends leaves it unchanged |
| Text.ContainsIff | Backend/SpendingInsights.py:45 | `kw in desc` holds exactly when `kw` occurs at some index of `desc` |
| Text.FirstWord | Backend/SpendingInsights.py:120 | `split()[0]` fails (IndexError) exactly for all-whitespace input; otherwise it is the first maximal run of non-space characters |
| Text.NatToString | Screens/OnboardingScreen.py:241 | `str(i)` of a natural number is a non-empty digit string |
| Numeric.ParseFloatOfTrimmed | Screens/InsightsScreen.py:351-352 | `float` of an already stripped string that starts with a digit is the unsigned numeral reading |
| Numeric.ParseFloatOfDecimal | Backend/SpentML.py:140-141 | every `digits[.digits]` string is accepted by `float` with its decimal value, which is at least 0 |
| Tables.AddAt | Backend/SpentML.py:132 | `t[c] += x` on a defaultdict creates `c` if missing and changes only the amount of `c`, by exactly `x` |
| Tables.RecordAt | Backend/SpentML.py:157 | `l[m][c] += x` creates month `m` if missing and changes exactly entry (m, c), by `x`; every other month is untouched |
| Tables.TotalAdd | Screens/InsightsScreen.py:445-446 | adding `x` to one category adds `x` to the table's sum |
| Tables.SumValues | Screens/InsightsScreen.py:431 | the loop computing `sum(t.values())` returns the sum of every amount in the table |
| Recurring.MonthlyAmountCases | Backend/SpentML.py:145-149 | a recurring item posts exactly when its amount is non-zero and it is monthly or weekly; monthly posts the amount, weekly four times it |
| Recurring.PostChargesAt | Backend/SpentML.py:138-149 | after posting a list of charges, each category holds its old amount plus exactly the charges made to it |
| Recurring.PostChargesKeys | Backend/SpentML.py:138-149 | posting creates exactly the charged categories and removes none |
| Recurring.PostChargesTotal | Screens/InsightsScreen.py:439-450 | posting raises the table's total by exactly the sum of the charges |
| Comparison.DifferencesExactlyOnce | Backend/SpentML.py:192-198 | a differences list names each category of either month exactly once, and every such category's (old, new, change) is in it |
| Comparison.Differences | Backend/SpentML.py:192-198 | the loop over `set(s1) \| set(s2)` builds one (category, old, new, new - old) entry per category of either month, missing amounts read as 0.0 |
| Comparison.SortByChange | Backend/SpentML.py:199 | the sort by \|change\| descending is a permutation of its input and non-increasing in \|change\| |
| Comparison.PermutedDifferences | Backend/SpentML.py:199 | reordering a differences list keeps it a differences list of the same two months |
| Comparison.Compare | Backend/SpentML.py:192-199 | the `differences` result lists every category's change exactly once, sorted by \|change\| descending |
| Comparison.FirstIsLargest | Backend/SpentML.py:199-201 | the first entry of the sorted list has a change at least as large in magnitude as any category's |
| Comparison.MlSummaryNamesLargest | Backend/SpentML.py:200-207 | the summary is "nothing to compare" exactly when both months are empty; otherwise it names a category of either month with the largest \|change\|, says "more" exactly when the change is 0 or above, and gives \|change\| |
| Comparison.SummariesDifferOnlyOnZero | Backend/SpendingInsights.py:90-95 | the two engines' summaries agree on category and amount, and differ in direction exactly when the top change is 0 (SpentML says "more", SpendingInsights "less") |
| Comparison.DiningExample | Backend/SpentML.py:185-207 | Dining 10 → 40 with Groceries 0 → 5 is summarised by both engines as 30.00 more on Dining |
| Dates.ParseDate | Backend/SpendingInsights.py:58 | whatever `strptime("%Y-%m-%d")` accepts is a real calendar day between years 1 and 9999 |
| Dates.IsoDateMonth | Backend/SpendingInsights.py:57-59 | a valid zero-padded YYYY-MM-DD date is accepted, and its `%Y-%m` key is its first seven characters |
| Dates.MonthThirteenRejected | Backend/SpendingInsights.py:58 | "2023-13-01" raises ValueError: `%m` takes "1", and the '3' after it is not '-' |
| Dates.UnconvertedDataRejected | Backend/SpendingInsights.py:58 | "2023-05-123" raises ValueError because text remains after the day |
| Dates.February29Rejected | Backend/SpendingInsights.py:58 | "2023-02-29" raises ValueError because 2023 is not a leap year |
| Dates.UnpaddedDate | Backend/SpendingInsights.py:58-59 | unpadded fields are accepted: "2024-2-29" is 29 February 2024 |
| InsightsBackend.InitialKeywordsUnique | Backend/SpendingInsights.py:17-30 | the initial keyword table, as a dict, has distinct keywords |
| InsightsBackend.CategorizeIsFirstMatch | Backend/SpendingInsights.py:43-47 | the category is that of the first keyword in table order that occurs in the description, and "Misc" when none does |
| InsightsBackend.GroceryCategorised | Backend/SpendingInsights.py:17-30 | with the initial table, a description containing "grocery" (in any case) and none of the clothing words is "Groceries" |
| InsightsBackend.SetRuleSpec | Backend/SpendingInsights.py:121 | `keyword_map[key] = cat` keeps keywords distinct, makes `key` read `cat`, leaves every other key's lookup alone, keeps the order, and appends a new key at the end |
| InsightsBackend.CorrectionPickedUp | Backend/SpendingInsights.py:114-122 | after a correction, a description is categorised as the new category exactly when no earlier keyword in the table matches it; otherwise its category is unchanged |
| InsightsBackend.NewShoesStillClothing | Backend/SpendingInsights.py:116-121 | correcting "new shoes" to "Sports" adds the keyword "new" after "shoes", so "new shoes" is still "Clothing" |
| InsightsBackend.MaterialiseMonth | Backend/SpendingInsights.py:72-73 | indexing a missing month adds an empty table under it and changes no amount |
| InsightsBackend.InsightsSummaryNamesLargest | Backend/SpendingInsights.py:86-97 | SpendingInsights' summary names a category with the largest \|change\|, says "more" exactly when the change is above 0, gives \|change\|, and reports nothing to compare exactly when both months are empty |
| InsightsBackend.PostedUnderDatePrefix | Backend/SpendingInsights.py:57-62 | a transaction dated YYYY-MM-DD is accepted and changes exactly entry (YYYY-MM, category), by its amount |
| InsightsBackend.SpendingInsights.constructor | Backend/SpendingInsights.py:13-34 | starts with the keyword table above and no spending |
| InsightsBackend.SpendingInsights.CategorizeTransaction | Backend/SpendingInsights.py:36-47 | the scanning loop returns the first-match category of the lower-cased description |
| InsightsBackend.SpendingInsights.AddTransaction | Backend/SpendingInsights.py:49-62 | succeeds exactly when `strptime` accepts the date; then it adds the amount to (`%Y-%m` of the date, category); otherwise nothing changes |
| InsightsBackend.SpendingInsights.CompareMonths | Backend/SpendingInsights.py:64-102 | materialises both months, returns their differences sorted by \|change\|, and gives SpendingInsights' summary of them |
| InsightsBackend.SpendingInsights.MonthlyReport | Backend/SpendingInsights.py:104-110 | returns a copy of the month's table (empty for an unknown month) and stores that empty table |
| InsightsBackend.SpendingInsights.UserCorrectCategory | Backend/SpendingInsights.py:114-121 | fails (IndexError) exactly for a blank description and then changes nothing; otherwise maps its lower-cased first word to the new category |
| InsightsScreen.TransactionEntryAccepts | Screens/InsightsScreen.py:342-356 | the form passes a transaction on exactly when a date is picked, the stripped description and amount are non-empty, and `float` reads the amount; it names which guard stops it otherwise, and passes on `date[:7]`, the stripped description and the amount |
| InsightsScreen.IncomeEntryNegates | Screens/InsightsScreen.py:365-381 | an income entry passes under the same guards and is passed on as category "income" with the negated amount |
| InsightsScreen.PickedDateMonth | Screens/InsightsScreen.py:356 | for a calendar date YYYY-MM-DD, `date_str[:7]` is YYYY-MM |
| InsightsScreen.AddTransaction | Screens/InsightsScreen.py:342-360 | a stopped form leaves the engine untouched. An accepted one performs the engine's `add_transaction` under the predicted category: the global ledger, the log and, for a signed-in user, the user's ledger after the month's adjustment. `ok` is false exactly when that adjustment raises. The fit is unchanged |
| InsightsScreen.AddIncome | Screens/InsightsScreen.py:365-384 | a stopped form leaves the engine untouched. An accepted one posts the negated amount under the category predicted for "income", in the same global ledger, log and user ledger as a transaction, with `ok` false exactly when the adjustment raises. The fit is unchanged |
| InsightsScreen.SplitSpec | Screens/InsightsScreen.py:430-432 | the corrected chart holds exactly the positive amounts of categories other than "income" (in any case) and other than the `__adjusted__` flag, at their own value. The income total is over exactly the negative amounts and the "income" category, taken as absolute values |
| InsightsScreen.SplitPartitions | Screens/InsightsScreen.py:430-432 | in the corrected split, every non-zero amount other than the flag counts either as spending or as income, never both |
| InsightsScreen.SplitPartitionsAsWritten | Screens/InsightsScreen.py:430-432 | in the split as written, every non-zero amount, the flag included, counts either as spending or as income, never both |
| InsightsScreen.AsWrittenAddsFlag | Screens/InsightsScreen.py:430-431 | the chart as written is the corrected chart plus the flag whenever the flag is positive, and its total spent is higher by exactly the flag's value |
| InsightsScreen.AdjustedFlagCountedAsSpend | Screens/InsightsScreen.py:430 | as written, every month flagged by the onboarding adjustment shows its `__adjusted__` flag as 1.00 spent |
| InsightsScreen.FlagOnlyMonth | Screens/InsightsScreen.py:430 | as written, a month holding only the flag charts 1.00 spent; with the correction it charts nothing |
| InsightsScreen.FlagNeverSpent | Screens/InsightsScreen.py:430 | corrected: the chart never contains the flag, and does not depend on whether the month is flagged |
| InsightsScreen.SubscriptionChargeCases | Screens/InsightsScreen.py:439-450 | a subscription charts only when its amount is non-zero and it is monthly or weekly: the amount, or four times it, under its category or "Misc" |
| InsightsScreen.IncomeAddedCases | Screens/InsightsScreen.py:453-460 | a recurring income adds \|amount\| when monthly and \|4 × amount\| when weekly; a zero or other income adds nothing; nothing added is negative |
| InsightsScreen.OverlayAt | Screens/InsightsScreen.py:438-450 | with subscriptions overlaid, each category of the chart shows its filtered amount plus exactly its subscriptions, and the total spent grows by exactly their sum |
| InsightsScreen.FilterSpendingData | Screens/InsightsScreen.py:415-462 | charts the month without the `__adjusted__` flag (the corrected split). Without a known signed-in user, it returns that split of the month; with one, the split plus the subscriptions, and the income total plus the recurring incomes; the total spent is always the sum of what the chart shows |
| InsightsScreen.AddSubscriptions | Screens/InsightsScreen.py:438-450 | the subscription loop posts every subscription's charge and keeps `total_spent` equal to the chart's sum |
| InsightsScreen.AddRecurringIncome | Screens/InsightsScreen.py:452-460 | the income loop adds exactly every recurring income's contribution |
| MLBackend.ConvertIncomeOfDecimal | Backend/SpentML.py:104-109 | `_convert_income` reads "x" + "k" as x × 1000 and a bare decimal "x" as x |
| MLBackend.ConvertIncomeIgnoresCase | Backend/SpentML.py:106 | the conversion gives the same result before and after lower-casing ("2.2K" reads as "2.2k") |
| MLBackend.IncomePosting | Backend/SpentML.py:131-134 | a monthly income lowers "income" by the whole income, an annual one by a quarter of it, and any other pay type posts nothing |
| MLBackend.BillChargeCases | Backend/SpentML.py:138-149 | a bill posts only when its amount is non-zero and it is monthly or weekly: the amount, or four times it, under its description or "Misc". A missing amount, or one `float` rejects, posts nothing |
| MLBackend.AdjustWithoutUser | Backend/SpentML.py:116-120 | with no username, or one the store does not know, nothing changes and nothing raises |
| MLBackend.AdjustFlaggedMonth | Backend/SpentML.py:124-125 | a month already flagged keeps every amount; only the user's (empty) entry may be created |
| MLBackend.AdjustBadIncome | Backend/SpentML.py:128-130 | an income `_convert_income` rejects raises before any amount is posted |
| MLBackend.AdjustPosts | Backend/SpentML.py:127-152 | posting flags the month with 1; "income" changes by the income part; each category rises by exactly its bills; no other month and no other user changes |
| MLBackend.AdjustIdempotent | Backend/SpentML.py:111-125 | adjusting a month a second time changes nothing: adjustments are applied once per month |
| MLBackend.PostBills | Backend/SpentML.py:137-149 | the bill loop posts exactly the charges of the bills, in order |
| MLBackend.PostOnboarding | Backend/SpentML.py:127-152 | the income branch, the bill loop and the flag together produce the adjusted month in the user's ledger |
| MLBackend.AdjustMonth | Backend/SpentML.py:116-152 | the early returns, the conversion's ValueError and the posting together produce the adjustment specification |
| MLBackend.Relabel | Backend/SpentML.py:171-181 | after the correction, every logged entry with the description carries the new category, and nothing else about any entry changes |
| MLBackend.CorrectedAt | Backend/SpentML.py:171-180 | in each month, the new category gains everything moved in that month, and every other category loses what was moved out of it |
| MLBackend.CorrectedConserves | Backend/SpentML.py:176-177 | a correction never changes a month's total |
| MLBackend.CorrectedUsersMirror | Backend/SpentML.py:178-180 | with a username, the user's ledger receives exactly the global correction and no other user changes; without one, no user's ledger changes |
| MLBackend.NothingLeftToMove | Backend/SpentML.py:171-172 | correcting the relabelled log again with the same description and category changes nothing |
| MLBackend.CorrectLog | Backend/SpentML.py:171-181 | the loop over the log produces the relabelled log and both corrected ledgers |
| MLBackend.SpentML.constructor | Backend/SpentML.py:37-54 | starts from the loaded state and is fitted (on all the samples) exactly when there are samples |
| MLBackend.SpentML.TrainFull | Backend/SpentML.py:84-90 | refits on every sample when there are any, and otherwise leaves the fit as it was |
| MLBackend.SpentML.PartialFitSample | Backend/SpentML.py:92-95 | appends the sample at the end and leaves the classifier fitted on all samples |
| MLBackend.SpentML.PredictCategory | Backend/SpentML.py:97-102 | "Misc" until the first fit, and afterwards the classifier fitted on the latest samples |
| MLBackend.SpentML.ApplyOnboardingAdjustments | Backend/SpentML.py:111-153 | changes the per-user ledgers exactly as the adjustment specification says for the store's income, raises exactly when it does, and leaves the other state alone |
| MLBackend.SpentML.AddTransaction | Backend/SpentML.py:155-168 | posts to the global ledger under the predicted category. With a user, it adjusts the month and then posts to the user's ledger. It logs one record. If the adjustment raises, the global posting stays and nothing is logged |
| MLBackend.SpentML.CorrectCategory | Backend/SpentML.py:170-183 | relabels the log, moves the amounts in both scopes, and always adds the training sample and refits |
| MLBackend.SpentML.CompareMonths | Backend/SpentML.py:185-211 | compares in the user's ledger when there is a user, else the global one; returns every category's change sorted by \|change\| with SpentML's summary; creates only the user's empty entry |
| Onboarding.IncomeFigureSplits | Screens/OnboardingScreen.py:293-302 | an accepted income answer is a decimal followed by "k" |
| Onboarding.IncomeAnswerConverts | Screens/OnboardingScreen.py:293-302 | an answer "x"+"k" passes the income validator exactly when x is a decimal, and then `_convert_income` reads it as x × 1000 |
| Onboarding.IncomeNeedsThousands | Screens/OnboardingScreen.py:299-301 | "150" is refused, although `_convert_income` could read it |
| Onboarding.PayTypeAnswerPostsIncome | Screens/OnboardingScreen.py:286-291 | every accepted pay type makes the adjustment post exactly one income charge |
| Onboarding.FrequencyAnswerPosts | Screens/OnboardingScreen.py:330-335 | of the accepted frequencies, only monthly and weekly ones ever post a bill; "annual" and "annually" are accepted and never posted |
| Onboarding.AmountAnswerParses | Screens/OnboardingScreen.py:337-344 | an accepted amount is read by `float` as a value of at least 0 |
| Onboarding.MonthlyDaySuffixUnchecked | Screens/OnboardingScreen.py:304-309 | the ordinal suffix is not matched to the number: "1nd" is accepted |
| Onboarding.AnnualDayRangeUnchecked | Screens/OnboardingScreen.py:311-316 | day and month ranges are not checked: "99/99" is accepted |
| Onboarding.BillKeyName | Screens/OnboardingScreen.py:162 | `key.startswith('bill_')` picks out exactly the keys of bill steps |
| Onboarding.KeyNameInjective | Screens/OnboardingScreen.py:241-251 | distinct steps have distinct key names, so no two answers share a `user_data` entry |
| Onboarding.WithoutBillSteps | Screens/OnboardingScreen.py:162 | the filtered step list contains no bill step |
| Onboarding.DropBills | Screens/OnboardingScreen.py:162 | dropping the bill steps of a reachable list leaves exactly the steps up to the bill count |
| Onboarding.BillStepsAt | Screens/OnboardingScreen.py:235-258 | there are 3n bill steps, bill 0's first, each bill's in the order description, frequency, amount |
| Onboarding.InsertBill | Screens/OnboardingScreen.py:255-258 | inserting amount, then frequency, then description at one index leaves them in the order description, frequency, amount |
| Onboarding.InsertPayDay | Screens/OnboardingScreen.py:208-223 | inserting the pay-day step after the pay-type question yields the list with a pay day |
| Onboarding.InsertNumBills | Screens/OnboardingScreen.py:225-233 | inserting the bill-count step after the income question yields the list with a bill count and no bills |
| Onboarding.LayoutAt | Screens/OnboardingScreen.py:150-163 | in every reachable step list, pay type comes first, then the pay day once inserted, then income, then the bill count once inserted, then 3 steps per bill, each step carrying its key's validator |
| Onboarding.LayoutKeysDistinct | Screens/OnboardingScreen.py:151-155 | no key occurs twice in a reachable step list, so the pay-day and bill-count steps are inserted once only |
| Onboarding.LayoutBillCount | Screens/OnboardingScreen.py:158-163 | with n bills answered there are exactly 3n bill steps, all after the bill count |
| Onboarding.HasKeyLayout | Screens/OnboardingScreen.py:151-155 | the guards `any(... 'pay_day')` and `'num_bills' in ...` hold exactly when those steps have been inserted |
| Onboarding.RebuildBills | Screens/OnboardingScreen.py:159-163 | a changed bill count drops the old bill steps and builds the new ones right after the bill count |
| Onboarding.GatheredBills | Screens/OnboardingScreen.py:181-191 | `complete_onboarding` gathers exactly one bill per index below the bill count |
| Onboarding.UsableBillOf | Screens/OnboardingScreen.py:324-344 | answers that passed the description, frequency and amount validators make a bill the adjustment can post without error |
| Onboarding.StoreAnswer | Screens/OnboardingScreen.py:147 | storing an accepted, stripped answer keeps every stored answer one that its key's validator accepts |
| Onboarding.AnswerStep | Screens/OnboardingScreen.py:134-170 | one accepted answer moves the wizard from a reachable state to a reachable state, or completes it with every step answered, the record usable, and one bill per bill counted |
| Onboarding.CompletedRecordUsable | Screens/OnboardingScreen.py:178-192 | once every step is answered, the gathered record has an accepted pay type, an income `_convert_income` reads, and n usable bills |
| Onboarding.OnboardingScreen.constructor | Screens/OnboardingScreen.py:18-39 | the wizard starts on the pay-type step of [pay type, income] with nothing answered |
| Onboarding.OnboardingScreen.GoBack | Screens/OnboardingScreen.py:172-176 | moves one step back unless on the first, and changes nothing else |
| Onboarding.OnboardingScreen.InsertPayDayStep | Screens/OnboardingScreen.py:208-223 | inserts after the current step the pay-day step, whose validator is a monthly day for "monthly" (in any case) and a day/month otherwise |
| Onboarding.OnboardingScreen.InsertNumBillsStep | Screens/OnboardingScreen.py:225-233 | inserts the bill-count step after the current step |
| Onboarding.OnboardingScreen.BuildBillSteps | Screens/OnboardingScreen.py:235-258 | the loop places the n bills' 3n steps right after the current step, in bill order |
| Onboarding.OnboardingScreen.CompleteOnboarding | Screens/OnboardingScreen.py:178-192 | the loop gathers the record of the pay type, the income and one bill per index below `int(num_bills)` |
| Onboarding.OnboardingScreen.AdjustSteps | Screens/OnboardingScreen.py:150-163 | the three step-list updates of Next keep the step list the reachable one for the answers so far |
| Onboarding.OnboardingScreen.GoNext | Screens/OnboardingScreen.py:134-170 | the stripped answer is accepted exactly when the current step's validator accepts it. A refused answer changes nothing. An accepted one is stored under the step's key, the step list is updated, and the wizard either advances or, on the last step, completes with a usable record holding one bill per answered bill |

## Left out

- I/O is not modelled: reading and writing the JSON files (`load_data`, `save_data`,
  `load_users`, `save_onboarding_data`), `print`, and moving to the next screen. The users
  file is a `UserStore` parameter, and a save has no effect in the model.
- The scikit-learn vectoriser and classifier are not modelled: they are the opaque function
  `learner`. `TrainFull` records which samples the fit saw; nothing is proved about what the
  classifier predicts.
- MLBackend.SpentML.TrainFull: a failing fit is not modelled; every fit succeeds.
  `CountVectorizer.fit_transform` raises ValueError when no sample has a word of two or more
  characters, for example when every sample is one character long. `correct_category` has then
  already moved the amounts and appended the sample, but it raises before saving.
- Floating point is not modelled: amounts are exact reals, and the `:.2f` formatting and
  wording of the messages are dropped. `Summary` keeps what a message says: the category,
  more or less, and the amount.
- `float(str)` is modelled on ASCII decimal numerals with an optional sign and surrounding
  whitespace. Exponents, `inf`, `nan`, underscores and non-ASCII digits are read as
  rejected. A bill amount is modelled as a string, not as a number stored in the JSON.
- `lower()`, `isspace()`, `isdigit()` and the regex `\d` are ASCII only. Unicode case mapping
  and Unicode digits are not modelled.
- `Dates.YearMonth`: `strftime("%Y")` is modelled as the Linux C library writes it, with no
  padding below year 1000. Other platforms pad to four digits.
- Comparison.SortByChange: the order of entries with equal |change| is not fixed. Python's
  sort is stable over the set's iteration order, which is itself unspecified.
- The UI is not modelled: question texts, `show_step`, button labels, error and status labels,
  and clearing the input fields.
- `Onboarding.Record`: it keeps only the fields the core reads back (pay type, income,
  bills). `pay_day`, `num_bills` and the `user_data['bills']` entry that
  `complete_onboarding` writes are not part of it.
- The wizard's initial `None` values for `pay_type` and `monthly_income` are not modelled. A
  completed record always has both answered (`CompletedRecordUsable`).
- Step keys are a datatype, not strings. `KeyNameInjective` shows that the Python key names
  are distinct, so nothing is lost.
- The pay-day validator is chosen by the first pay-type answer. Going back and answering
  "annually" instead of "monthly" does not replace the old pay-day step, because the guard
  on line 151 of Screens/OnboardingScreen.py finds it. The ghost field `payDay` records this.
- `Onboarding.OnboardingScreen.AdjustSteps` is not a separate function in the source. It is
  the three `if`s of `go_next`, split out so each half of the proof stays small.
- After an exception, the screen's `add_transaction` does not continue. When
  `apply_onboarding_adjustments` raises, the ValueError propagates out of the button handler.
  The model returns `ok == false`, and nothing the screen does after the engine call is
  modelled.
- InsightsScreen.FilterSpendingData: it computes the corrected chart, which leaves out the
  `__adjusted__` flag. As written, line 430 of Screens/InsightsScreen.py keeps the flag (True, 1)
  in every flagged month, and `total_spent` counts it. `AsWrittenAddsFlag` states the exact
  difference: the flag's entry in the chart and its value in the total (see "## Findings").
- The sign-in bookkeeping (`get_user`) and the other screens are not modelled. They lie
  outside this core.

## Findings

| source | as written | input that shows it | evidently intended | confidence | as-written member | corrected member |
|---|---|---|---|---|---|---|
| Screens/InsightsScreen.py:430-431 | Every positive amount outside "income" is charted as spending. That includes the `__adjusted__` flag, which `SpentML.apply_onboarding_adjustments` stores as `True`, and `True` counts as 1. | A user month flagged by the adjustment, such as `{"__adjusted__": True}` with nothing else, charts 1.00 spent under "__adjusted__". | The flag is bookkeeping and should never be charted or counted in the total spent. | not executed | InsightsScreen.SpendPartAsWritten / InsightsScreen.AdjustedFlagCountedAsSpend / InsightsScreen.FlagOnlyMonth / InsightsScreen.AsWrittenAddsFlag | InsightsScreen.SpendPart / InsightsScreen.FlagNeverSpent |

`InsightsScreen.FilterSpendingData` uses the corrected `SpendPart`.
