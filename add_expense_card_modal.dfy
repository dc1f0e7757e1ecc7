/** The "Add Expense Card" dialog: name, amount and optional category, the
    amount filtered as it is typed, a submit that checks the amount and the
    name, and a form that is emptied after each submit. */
module AddExpenseCardModal {
  import opened Wrappers
  import opened AmountInput
  import Numbers
  import Text

  /** What the dialog hands to `onSubmit`. */
  datatype CardSubmission = CardSubmission(name: string, amount: real, category: Option<string>)

  /** The dialog's form state. */
  class AddExpenseCardForm {
    var name: string
    var amount: string
    var category: string
    var amountError: Option<string>

    /** The amount holds only what the filter let through, at most one
        point, and when no error is shown it is empty or holds a digit (so
        it reads as a number). */
    ghost predicate Valid()
      reads this
    {
      && AllNumeric(amount)
      && Count(amount, '.') <= 1
      && (amountError.None? ==> amount == [] || HasDigit(amount))
    }

    constructor ()
      ensures Valid()
      ensures name == "" && amount == "" && category == "" && amountError == None
    {
      name := "";
      amount := "";
      category := "";
      amountError := None;
    }

    /** Typing in the name field. */
    method SetName(text: string)
      modifies this`name
      ensures name == text
    {
      name := text;
    }

    /** Typing in the category field. */
    method SetCategory(text: string)
      modifies this`category
      ensures category == text
    {
      category := text;
    }

    /** `handleAmountChange`: keep the digits and points of `text`; with more
        than one point ignore the keystroke, otherwise take the kept text and
        show the "valid number" error when it is not empty and does not read
        as a number. */
    method HandleAmountChange(text: string)
      requires Valid()
      modifies this`amount, this`amountError
      ensures Valid()
      ensures SanitizeAmount(text).None? ==> amount == old(amount) && amountError == old(amountError)
      ensures SanitizeAmount(text).Some? ==>
        amount == SanitizeAmount(text).value && amountError == AmountErrorFor(amount)
    {
      var numericValue := KeepNumeric(text);
      if |Split(numericValue, '.')| > 2 {
        return;
      }
      amount := numericValue;
      NumericParse(numericValue);
      if Numbers.IsNaN(numericValue) && numericValue != "" {
        amountError := Some(ValidNumberMessage);
      } else {
        amountError := None;
      }
    }

    /** `handleSubmit`: nothing while a submit is under way; an amount that
        is not a positive number shows the "valid positive amount" error; a
        blank name stops silently; otherwise the trimmed name, the amount and
        the trimmed category (absent when empty) are submitted and the form
        is emptied. */
    method HandleSubmit(submitting: bool) returns (submitted: Option<CardSubmission>)
      requires Valid()
      modifies this
      ensures Valid()
      ensures submitting ==>
        && submitted == None
        && name == old(name) && amount == old(amount) && category == old(category)
        && amountError == old(amountError)
      ensures !submitting && PositiveAmount(old(amount)).None? ==>
        && submitted == None
        && name == old(name) && amount == old(amount) && category == old(category)
        && amountError == Some(PositiveAmountMessage)
      ensures !submitting && PositiveAmount(old(amount)).Some? && Text.IsBlank(old(name)) ==>
        && submitted == None
        && name == old(name) && amount == old(amount) && category == old(category)
        && amountError == old(amountError)
      ensures !submitting && PositiveAmount(old(amount)).Some? && !Text.IsBlank(old(name)) ==>
        && submitted == Some(CardSubmission(
             Text.Trim(old(name)), PositiveAmount(old(amount)).value, Text.NonEmpty(Text.Trim(old(category)))))
        && name == "" && amount == "" && category == "" && amountError == None
    {
      if submitting {
        return None;
      }
      var numericAmount := PositiveAmount(amount);
      if numericAmount.None? {
        amountError := Some(PositiveAmountMessage);
        return None;
      }
      Text.TrimEmptyIffBlank(name);
      if Text.Trim(name) == "" {
        return None;
      }
      submitted := Some(CardSubmission(Text.Trim(name), numericAmount.value, Text.NonEmpty(Text.Trim(category))));
      Reset();
    }

    /** The reset after a submit: every field empty, no error. */
    method Reset()
      modifies this
      ensures Valid()
      ensures name == "" && amount == "" && category == "" && amountError == None
    {
      name := "";
      amount := "";
      category := "";
      amountError := None;
    }

    /** The submit button's `disabled`: while submitting, with a blank name
        or amount, or while an error is shown. When it is enabled the name is
        not blank and the amount reads as a number that is not negative (it
        may still be zero, which the submit then rejects). */
    function SubmitDisabled(submitting: bool): (disabled: bool)
      reads this
      ensures disabled <==> submitting || Text.IsBlank(name) || Text.IsBlank(amount) || amountError.Some?
      ensures Valid() && !disabled ==>
        && !Text.IsBlank(name)
        && Numbers.ParseFloat(amount).Some? && Numbers.ParseFloat(amount).value >= 0.0
    {
      Text.TrimEmptyIffBlank(name);
      Text.TrimEmptyIffBlank(amount);
      var parsed := Numbers.ParseFloat(amount);
      assert Valid() ==> (parsed.Some? <==> HasDigit(amount)) && (parsed.Some? ==> parsed.value >= 0.0) by {
        if Valid() { NumericParse(amount); }
      }
      submitting || Text.Trim(name) == "" || Text.Trim(amount) == "" || amountError.Some?
    }
  }
}
