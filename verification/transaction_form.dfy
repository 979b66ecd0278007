/**
 * The entry form of one context (components/TransactionForm.tsx): its field
 * state, the category list offered for the context, and `handleSubmit`, which
 * validates the fields, emits a new record without an id and partly resets
 * the form.
 */
module TransactionForm {
  import opened Types
  import opened Constants
  import opened Ledger

  /** The category every income record is filed under. */
  const IncomeCategory: string := "Income"

  /** `categories`: the expense categories offered in the selected context. */
  function CategoryChoices(ctx: Context): seq<string>
  {
    if ctx == Home then HomeExpenseCategories else SchoolExpenseCategories
  }

  /** Each context offers ten categories, none of them empty or the income category. */
  lemma CategoryChoicesAreExpenseCategories(ctx: Context)
    ensures |CategoryChoices(ctx)| == 10
    ensures forall c :: c in CategoryChoices(ctx) ==> c != "" && c != IncomeCategory
  {
    forall c | c in CategoryChoices(ctx)
      ensures c != "" && c != IncomeCategory
    {
      assert c[0] != 'I' || c == "Internet/Phone";
    }
  }

  /** The two contexts have only the catch-all "Others" in common. */
  lemma CategoryChoicesShareOnlyOthers()
    ensures forall c :: c in CategoryChoices(Home) && c in CategoryChoices(School) <==> c == "Others"
  {
    var home, school := HomeExpenseCategories, SchoolExpenseCategories;
    assert home[9] == "Others" && school[9] == "Others";
    assert home[..9] + [home[9]] == home;
    forall c | c in home[..9]
      ensures c !in school
    {
      assert c[0] in "RGEWIMD";
      assert c == "Electricity" || c[0] != 'E';
    }
  }

  /**
   * The payment methods offered for income are the entries of
   * `INCOME_SUBMENUS`, in order, and each is spelled as the record shows it.
   */
  lemma PaymentChoicesAreIncomeSubmenus()
    ensures IncomeSubmenus == [PaymentLabel(Some(Cash)), PaymentLabel(Some(Bank)), PaymentLabel(Some(Other))]
    ensures forall m: PaymentMethod :: PaymentLabel(Some(m)) in IncomeSubmenus
  {
    forall m: PaymentMethod
      ensures PaymentLabel(Some(m)) in IncomeSubmenus
    {
      match m
      case Cash => assert IncomeSubmenus[0] == "Cash";
      case Bank => assert IncomeSubmenus[1] == "Bank";
      case Other => assert IncomeSubmenus[2] == "Other";
    }
  }

  /** `!amount || !date || (type === 'expense' && !category)`: the submission is ignored. */
  predicate Rejects(kind: TxType, amount: string, date: Date, category: string)
  {
    amount == "" || date == "" || (kind == Expense && category == "")
  }

  /**
   * The record handed to `onAddTransaction`. `parsed` stands for
   * `parseFloat(amount)`.
   */
  function BuildCandidate(kind: TxType, date: Date, parsed: real, ctx: Context,
                          category: string, paymentMethod: PaymentMethod, description: string): (c: Candidate)
    ensures c.date == date && c.amount == parsed && c.kind == kind && c.context == ctx
    ensures c.description == Some(description)
    ensures c.category == if kind == Income then IncomeCategory else category
    ensures c.paymentMethod.Some? <==> kind == Income
    ensures c.paymentMethod.Some? ==> c.paymentMethod.value == paymentMethod
  {
    Candidate(
      date, parsed, kind, ctx,
      if kind == Income then IncomeCategory else category,
      if kind == Income then Some(paymentMethod) else None,
      Some(description))
  }

  /**
   * The form's state. The parent renders one form for both tabs and passes the
   * active tab as `currentContext`, so a tab switch changes that prop and
   * keeps every field the user has filled in.
   */
  class Form {
    var currentContext: Context
    var kind: TxType
    var amount: string
    var category: string
    var description: string
    var paymentMethod: PaymentMethod
    var date: Date

    /** A fresh form: an expense, empty fields, paid in cash, dated `today`. */
    constructor(ctx: Context, today: Date)
      ensures currentContext == ctx && kind == Expense && paymentMethod == Cash && date == today
      ensures amount == "" && category == "" && description == ""
    {
      currentContext := ctx;
      kind := Expense;
      amount := "";
      category := "";
      description := "";
      paymentMethod := Cash;
      date := today;
    }

    /** A tab switch in the parent: only the `currentContext` prop changes. */
    method SetContext(ctx: Context)
      modifies this
      ensures currentContext == ctx
      ensures kind == old(kind) && amount == old(amount) && category == old(category)
      ensures description == old(description) && paymentMethod == old(paymentMethod) && date == old(date)
    {
      currentContext := ctx;
    }

    /**
     * `handleSubmit`. A rejected submission emits nothing and leaves the form
     * alone. An accepted one emits the candidate and clears the amount and the
     * item name, and the category too when the record is an expense. The
     * record is filed under the form's context at the time of the submit;
     * type, date, payment method and context stay as they were.
     */
    method Submit(parsed: real) returns (emitted: Option<Candidate>)
      modifies this
      ensures emitted.None? <==> Rejects(old(kind), old(amount), old(date), old(category))
      ensures emitted.Some? ==> emitted.value == BuildCandidate(old(kind), old(date), parsed, old(currentContext),
                                                                old(category), old(paymentMethod), old(description))
      ensures emitted.Some? ==> emitted.value.category != "" && emitted.value.date != ""
      ensures emitted.None? ==> amount == old(amount) && category == old(category) && description == old(description)
      ensures emitted.Some? ==> amount == "" && description == ""
      ensures emitted.Some? ==> category == if old(kind) == Expense then "" else old(category)
      ensures kind == old(kind) && date == old(date) && paymentMethod == old(paymentMethod)
      ensures currentContext == old(currentContext)
    {
      if Rejects(kind, amount, date, category) {
        return None;
      }
      emitted := Some(BuildCandidate(kind, date, parsed, currentContext, category, paymentMethod, description));
      amount := "";
      description := "";
      if kind == Expense {
        category := "";
      }
    }
  }

  /**
   * `handleSubmit` does not check the category against the current list: an
   * expense category chosen under one context and still held after a switch
   * to the other is submitted under the new context, although that context
   * does not offer it. Only `Others` is offered by both.
   */
  lemma StaleCategoryCrossesContexts(from: Context, to: Context, date: Date, parsed: real,
                                     category: string, paymentMethod: PaymentMethod, description: string)
    requires from != to
    requires category in CategoryChoices(from) && category != "Others"
    ensures BuildCandidate(Expense, date, parsed, to, category, paymentMethod, description).context == to
    ensures BuildCandidate(Expense, date, parsed, to, category, paymentMethod, description).category !in CategoryChoices(to)
  {
    CategoryChoicesShareOnlyOthers();
  }
}
