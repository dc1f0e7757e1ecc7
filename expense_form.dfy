/** The expense form: amount, description, category, date and account, with
    a submit that needs every field filled in, and the currency symbol shown
    next to the amount. */
module ExpenseForm {
  import opened Wrappers
  import Numbers
  import Text

  /** An entry of the app's currency list. */
  datatype Currency = Currency(code: string, symbol: string)

  /** The values the form may be opened with. */
  datatype FormValues = FormValues(
    amount: real,
    description: string,
    category: string,
    date: string,
    account: string)

  /** What the form hands to `onSubmit`. The amount is `parseFloat` of what
      was typed, `None` standing for NaN: the form does not check it. */
  datatype FormSubmission = FormSubmission(
    amount: Option<real>,
    description: string,
    category: string,
    date: string,
    account: string)

  /** `accounts[0] || ''`. */
  function FirstAccount(accounts: seq<string>): (account: string)
    ensures accounts == [] ==> account == ""
    ensures accounts != [] ==> account == accounts[0]
  {
    if accounts != [] && accounts[0] != "" then accounts[0] else ""
  }

  /** `initialValues?.account || accounts[0] || ''`: the account the form
      starts with. */
  function InitialAccount(initialValues: Option<FormValues>, accounts: seq<string>): (account: string)
    ensures initialValues.Some? && initialValues.value.account != "" ==> account == initialValues.value.account
    ensures !(initialValues.Some? && initialValues.value.account != "") ==> account == FirstAccount(accounts)
    ensures account == "" || (initialValues.Some? && account == initialValues.value.account) || account in accounts
  {
    if initialValues.Some? && initialValues.value.account != "" then initialValues.value.account
    else FirstAccount(accounts)
  }

  /** `CURRENCIES.find(c => c.code === code)?.symbol || '$'`: the symbol of
      the first currency with that code, or `$` when there is none or its
      symbol is empty. */
  function CurrencySymbol(currencies: seq<Currency>, code: string): (symbol: string)
    ensures symbol != ""
    ensures (forall i :: 0 <= i < |currencies| ==> currencies[i].code != code) ==> symbol == "$"
    ensures forall i :: 0 <= i < |currencies| && currencies[i].code == code
                        && (forall j :: 0 <= j < i ==> currencies[j].code != code) ==>
              symbol == (if currencies[i].symbol != "" then currencies[i].symbol else "$")
  {
    if currencies == [] then "$"
    else if currencies[0].code == code then
      (if currencies[0].symbol != "" then currencies[0].symbol else "$")
    else
      var symbol := CurrencySymbol(currencies[1..], code);
      assert forall i :: 1 <= i < |currencies| ==> currencies[i] == currencies[1..][i - 1];
      symbol
  }

  /** The form state. `toText` stands for `Number.prototype.toString`, and
      `today` for the date part of the current time in ISO form. */
  class ExpenseFormState {
    var amount: string
    var description: string
    var category: string
    var date: string
    var selectedAccount: string

    /** The first render: each field from the initial values, or empty (the
        date: today, the account: the first one). */
    constructor (initialValues: Option<FormValues>, accounts: seq<string>, toText: real -> string, today: string)
      ensures initialValues.None? ==> amount == "" && description == "" && category == "" && date == today
      ensures initialValues.Some? ==>
        && amount == toText(initialValues.value.amount)
        && description == initialValues.value.description
        && category == initialValues.value.category
        && date == (if initialValues.value.date != "" then initialValues.value.date else today)
      ensures selectedAccount == InitialAccount(initialValues, accounts)
    {
      if initialValues.Some? {
        var init := initialValues.value;
        amount := toText(init.amount);
        description := init.description;
        category := init.category;
        date := if init.date != "" then init.date else today;
      } else {
        amount := "";
        description := "";
        category := "";
        date := today;
      }
      selectedAccount := InitialAccount(initialValues, accounts);
    }

    /** Typing in the amount field. */
    method SetAmount(text: string)
      modifies this`amount
      ensures amount == text
    {
      amount := text;
    }

    /** Typing in the description field. */
    method SetDescription(text: string)
      modifies this`description
      ensures description == text
    {
      description := text;
    }

    /** Typing in the category field. */
    method SetCategory(text: string)
      modifies this`category
      ensures category == text
    {
      category := text;
    }

    /** Typing in the date field. */
    method SetDate(text: string)
      modifies this`date
      ensures date == text
    {
      date := text;
    }

    /** Pressing an account button. */
    method SelectAccount(account: string)
      modifies this`selectedAccount
      ensures selectedAccount == account
    {
      selectedAccount := account;
    }

    /** `handleSubmit`: with any field empty nothing happens; otherwise the
        fields are submitted as typed, the amount read by `parseFloat`, and
        the form is reset: amount, description and category empty, the date
        today and the account the first one. */
    method HandleSubmit(accounts: seq<string>, today: string) returns (submitted: Option<FormSubmission>)
      modifies this
      ensures old(amount == "" || description == "" || category == "" || date == "" || selectedAccount == "") ==>
        && submitted == None
        && amount == old(amount) && description == old(description) && category == old(category)
        && date == old(date) && selectedAccount == old(selectedAccount)
      ensures old(amount != "" && description != "" && category != "" && date != "" && selectedAccount != "") ==>
        && submitted == Some(FormSubmission(
             Numbers.ParseFloat(old(amount)), old(description), old(category), old(date), old(selectedAccount)))
        && amount == "" && description == "" && category == ""
        && date == today && selectedAccount == FirstAccount(accounts)
    {
      if amount == "" || description == "" || category == "" || date == "" || selectedAccount == "" {
        return None;
      }
      submitted := Some(FormSubmission(Numbers.ParseFloat(amount), description, category, date, selectedAccount));
      amount := "";
      description := "";
      category := "";
      date := today;
      selectedAccount := FirstAccount(accounts);
    }
  }

  /** The form accepts what the amount filter of the dialogs rejects: a
      submitted amount may be missing (NaN) or not positive. */
  method SubmitsUnreadableAmount() returns (submitted: Option<FormSubmission>)
    ensures submitted.Some? && submitted.value.amount.None?
  {
    var form := new ExpenseFormState(None, ["Cash"], (x: real) => "", "2024-01-01");
    form.SetAmount("abc");
    form.SetDescription("Lunch");
    form.SetCategory("Food");
    assert Numbers.ParseFloat("abc").None? by {
      assert !Text.IsSpace('a');
    }
    submitted := form.HandleSubmit(["Cash"], "2024-01-01");
  }
}
