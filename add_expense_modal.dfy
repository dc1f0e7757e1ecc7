/** The "Add New Expense" dialog: amount, description, optional category and
    date, filled in from the values it is opened with (a card dragged to
    today, say), the amount filtered as it is typed, and a submit that checks
    the amount and sends the expense, with the card it came from. */
module AddExpenseModal {
  import opened Wrappers
  import opened AmountInput
  import Numbers
  import Text

  /** A `Date`, as the milliseconds since the epoch it stands for. */
  type Moment = int

  /** The values the dialog may be opened with; every one is optional. */
  datatype InitialValues = InitialValues(
    amount: Option<real>,
    description: Option<string>,
    category: Option<string>,
    date: Option<Moment>,
    expenseCardId: Option<string>)

  /** What the dialog hands to `onSubmit`. */
  datatype ExpenseSubmission = ExpenseSubmission(
    amount: real,
    description: string,
    category: Option<string>,
    date: Moment,
    expenseCardId: Option<string>)

  /** `initialValues.amount?.toString() || ''`, with `toText` standing for
      `Number.prototype.toString`. */
  function InitialAmountText(amount: Option<real>, toText: real -> string): string {
    match amount
    case Some(x) => toText(x)
    case None => ""
  }

  /** The dialog's form state. */
  class AddExpenseForm {
    var amount: string
    var description: string
    var category: string
    var date: Moment
    var showDatePicker: bool
    var amountError: Option<string>

    /** The first render: each field from the initial values, or empty (the
        date: now). */
    constructor (initialValues: Option<InitialValues>, toText: real -> string, now: Moment)
      ensures initialValues.None? ==> amount == "" && description == "" && category == "" && date == now
      ensures initialValues.Some? ==>
        && amount == InitialAmountText(initialValues.value.amount, toText)
        && description == initialValues.value.description.GetOr("")
        && category == initialValues.value.category.GetOr("")
        && date == initialValues.value.date.GetOr(now)
      ensures !showDatePicker && amountError == None
    {
      if initialValues.Some? {
        var init := initialValues.value;
        amount := InitialAmountText(init.amount, toText);
        description := init.description.GetOr("");
        category := init.category.GetOr("");
        date := init.date.GetOr(now);
      } else {
        amount := "";
        description := "";
        category := "";
        date := now;
      }
      showDatePicker := false;
      amountError := None;
    }

    /** The effect run when the dialog is shown or gets other initial values:
        when visible with initial values, every field is reset from them and
        the error cleared; otherwise nothing changes. */
    method OnOpen(visible: bool, initialValues: Option<InitialValues>, toText: real -> string, now: Moment)
      modifies this`amount, this`description, this`category, this`date, this`amountError
      ensures visible && initialValues.Some? ==>
        && amount == InitialAmountText(initialValues.value.amount, toText)
        && description == initialValues.value.description.GetOr("")
        && category == initialValues.value.category.GetOr("")
        && date == initialValues.value.date.GetOr(now)
        && amountError == None
      ensures !(visible && initialValues.Some?) ==>
        && amount == old(amount) && description == old(description) && category == old(category)
        && date == old(date) && amountError == old(amountError)
    {
      if visible && initialValues.Some? {
        var init := initialValues.value;
        amount := InitialAmountText(init.amount, toText);
        description := init.description.GetOr("");
        category := init.category.GetOr("");
        date := init.date.GetOr(now);
        amountError := None;
      }
    }

    /** Typing in the description field. */
    method SetDescription(text: string)
      modifies this`description
      ensures description == text
    {
      description := text;
    }

    /** Typing in the category field. */
    method SetCategory(text: string)
      modifies this`category
      ensures category == text
    {
      category := text;
    }

    /** `showPicker`. */
    method ShowPicker()
      modifies this`showDatePicker
      ensures showDatePicker
    {
      showDatePicker := true;
    }

    /** `handleDateChange`: the picked date, or the current one when none was
        picked; the picker stays open only on iOS. */
    method HandleDateChange(selectedDate: Option<Moment>, isIOS: bool)
      modifies this`date, this`showDatePicker
      ensures date == selectedDate.GetOr(old(date)) && showDatePicker == isIOS
    {
      var currentDate := selectedDate.GetOr(date);
      showDatePicker := isIOS;
      date := currentDate;
    }

    /** `handleAmountChange`: keep the digits and points of `text`; with more
        than one point ignore the keystroke, otherwise take the kept text and
        show the "valid number" error when it is not empty and does not read
        as a number. */
    method HandleAmountChange(text: string)
      modifies this`amount, this`amountError
      ensures SanitizeAmount(text).None? ==> amount == old(amount) && amountError == old(amountError)
      ensures SanitizeAmount(text).Some? ==>
        amount == SanitizeAmount(text).value && amountError == AmountErrorFor(amount)
    {
      var numericValue := KeepNumeric(text);
      if |Split(numericValue, '.')| > 2 {
        return;
      }
      amount := numericValue;
      if Numbers.IsNaN(numericValue) && numericValue != "" {
        amountError := Some(ValidNumberMessage);
      } else {
        amountError := None;
      }
    }

    /** `handleSubmit`: nothing while a submit is under way; an amount that
        is not a positive number shows the "valid positive amount" error;
        otherwise the amount, the trimmed description (which may be empty),
        the trimmed category (absent when empty), the date and the id of the
        card in the initial values are submitted. The form is not reset. */
    method HandleSubmit(submitting: bool, initialValues: Option<InitialValues>)
      returns (submitted: Option<ExpenseSubmission>)
      modifies this`amountError
      ensures submitting ==> submitted == None && amountError == old(amountError)
      ensures !submitting && PositiveAmount(amount).None? ==>
        submitted == None && amountError == Some(PositiveAmountMessage)
      ensures !submitting && PositiveAmount(amount).Some? ==>
        && amountError == old(amountError)
        && submitted == Some(ExpenseSubmission(
             PositiveAmount(amount).value,
             Text.Trim(description),
             Text.NonEmpty(Text.Trim(category)),
             date,
             if initialValues.Some? then initialValues.value.expenseCardId else None))
    {
      if submitting {
        return None;
      }
      var numericAmount := PositiveAmount(amount);
      if numericAmount.None? {
        amountError := Some(PositiveAmountMessage);
        return None;
      }
      var cardId := if initialValues.Some? then initialValues.value.expenseCardId else None;
      submitted := Some(ExpenseSubmission(
        numericAmount.value, Text.Trim(description), Text.NonEmpty(Text.Trim(category)), date, cardId));
    }
  }

  /** A category that is sent is never blank: `category.trim() || undefined`
      leaves out exactly the blank ones. */
  lemma SentCategoryNotBlank(category: string)
    ensures Text.NonEmpty(Text.Trim(category)).Some? <==> !Text.IsBlank(category)
    ensures Text.NonEmpty(Text.Trim(category)).Some? ==> !Text.IsBlank(Text.NonEmpty(Text.Trim(category)).value)
  {
    Text.TrimEmptyIffBlank(category);
    var t := Text.Trim(category);
    if t != [] {
      assert !Text.IsSpace(t[0]);
    }
  }
}
