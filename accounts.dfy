/** The parts of a user's record in the account store (users.json) that the core reads.
    A field the JSON record lacks is `None` (or an empty list); the code supplies its own
    default at each read. */
module Accounts {
  import opened Wrappers

  /** One recurring bill declared during onboarding; every field is a string there. */
  datatype Bill = Bill(description: Option<string>, frequency: Option<string>, amount: Option<string>)

  /** The `onboarding` object: pay type, income such as "2.2k", and the bills. */
  datatype Onboarding = Onboarding(payType: Option<string>, monthlyIncome: Option<string>, bills: seq<Bill>)

  /** One entry of `recurring`; a missing `amount` reads as 0. */
  datatype Subscription = Subscription(category: Option<string>, frequency: Option<string>, amount: real)

  /** One entry of `recurring_income`; a missing `amount` reads as 0. */
  datatype IncomeSource = IncomeSource(frequency: Option<string>, amount: real)

  datatype UserRecord = UserRecord(onboarding: Onboarding, recurring: seq<Subscription>, recurringIncome: seq<IncomeSource>)

  /** Username -> record, as loaded from users.json. */
  type UserStore = map<string, UserRecord>
}
