/** The "Edit Expense Card" dialog: the card's name, amount and category,
    filled in from the card each time the dialog opens, the amount filtered
    as it is typed, and a submit that checks the amount and the name and
    sends the changes for the card's id. */
module EditExpenseCardModal {
  import opened Wrappers
  import opened AmountInput
  import Numbers
  import Text
  import opened ExpenseCards

  /** What the dialog hands to `onSubmit`: the card's id and its new fields. */
  datatype EditSubmission = EditSubmission(cardId: string, updates: CardUpdates)

  /** The dialog's form state. `toText` stands for `Number.prototype.toString`. */
  class EditExpenseCardForm {
    var name: string
    var amount: string
    var category: string
    var amountError: Option<string>

    /** When no error is shown the amount is empty or reads as a number. */
    ghost predicate Valid()
      reads this
    {
      amountError.None? ==> amount == [] || Numbers.ParseFloat(amount).Some?
    }

    /** The first render: the fields start from the card. */
    constructor (card: Card, toText: real -> string)
      ensures name == card.name && amount == toText(card.amount)
      ensures category == card.category.GetOr("") && amountError == None
    {
      name := card.name;
      amount := toText(card.amount);
      category := card.category.GetOr("");
      amountError := None;
    }

    /** The effect run when the dialog becomes visible or gets another card:
        when visible, the fields are reset from the card and the error cleared. */
    method OnOpen(visible: bool, card: Card, toText: real -> string)
      modifies this
      ensures visible ==>
        && name == card.name && amount == toText(card.amount)
        && category == card.category.GetOr("") && amountError == None
      ensures !visible ==>
        name == old(name) && amount == old(amount) && category == old(category) && amountError == old(amountError)
    {
      if visible {
        name := card.name;
        amount := toText(card.amount);
        category := card.category.GetOr("");
        amountError := None;
      }
    }

    /** Typing in the name field. */
    method SetName(text: string)
      modifies this`name
      ensures name == text
    {
      name := text;
    }

    /** Typing in the category field. */
    method SetCategory(text: string)
      modifies this`category
      ensures category == text
    {
      category := text;
    }

    /** `handleAmountChange`, as in the other two dialogs. An accepted
        keystroke leaves the form valid. */
    method HandleAmountChange(text: string)
      modifies this`amount, this`amountError
      ensures SanitizeAmount(text).None? ==> amount == old(amount) && amountError == old(amountError)
      ensures SanitizeAmount(text).Some? ==>
        amount == SanitizeAmount(text).value && amountError == AmountErrorFor(amount) && Valid()
    {
      var numericValue := KeepNumeric(text);
      if |Split(numericValue, '.')| > 2 {
        return;
      }
      amount := numericValue;
      if Numbers.IsNaN(numericValue) && numericValue != "" {
        amountError := Some(ValidNumberMessage);
      } else {
        amountError := None;
      }
    }

    /** `handleSubmit`: nothing while a submit is under way; an amount that
        is not a positive number shows the "valid positive amount" error; a
        blank name stops silently; otherwise the card's id is submitted with
        the trimmed name, the amount and the trimmed category (absent when
        empty). The form is not reset. */
    method HandleSubmit(submitting: bool, card: Card) returns (submitted: Option<EditSubmission>)
      modifies this`amountError
      ensures old(Valid()) ==> Valid()
      ensures submitting ==> submitted == None && amountError == old(amountError)
      ensures !submitting && PositiveAmount(amount).None? ==>
        submitted == None && amountError == Some(PositiveAmountMessage)
      ensures !submitting && PositiveAmount(amount).Some? && Text.IsBlank(name) ==>
        submitted == None && amountError == old(amountError)
      ensures !submitting && PositiveAmount(amount).Some? && !Text.IsBlank(name) ==>
        && amountError == old(amountError)
        && submitted == Some(EditSubmission(card.id, CardUpdates(
             Some(Text.Trim(name)), Some(PositiveAmount(amount).value),
             ReplaceCategory(Text.NonEmpty(Text.Trim(category))))))
    {
      if submitting {
        return None;
      }
      var numericAmount := PositiveAmount(amount);
      if numericAmount.None? {
        amountError := Some(PositiveAmountMessage);
        return None;
      }
      Text.TrimEmptyIffBlank(name);
      if Text.Trim(name) == "" {
        return None;
      }
      submitted := Some(EditSubmission(card.id, CardUpdates(
        Some(Text.Trim(name)), Some(numericAmount.value), ReplaceCategory(Text.NonEmpty(Text.Trim(category))))));
    }

    /** The submit button's `disabled`: while submitting, with a blank name
        or amount, or while an error is shown. When it is enabled on a valid
        form the name is not blank and the amount reads as a number. */
    function SubmitDisabled(submitting: bool): (disabled: bool)
      reads this
      ensures disabled <==> submitting || Text.IsBlank(name) || Text.IsBlank(amount) || amountError.Some?
      ensures Valid() && !disabled ==> !Text.IsBlank(name) && Numbers.ParseFloat(amount).Some?
    {
      Text.TrimEmptyIffBlank(name);
      Text.TrimEmptyIffBlank(amount);
      submitting || Text.Trim(name) == "" || Text.Trim(amount) == "" || amountError.Some?
    }
  }

  /** What the dialog submits is an edit that, applied by the card hook,
      gives the card the trimmed name, the amount and the category, and
      keeps its id and favourite flag. */
  lemma SubmittedEditApplies(cards: seq<Card>, submission: EditSubmission, name: string, amount: real, category: string, i: nat)
    requires submission.updates == CardUpdates(Some(name), Some(amount), ReplaceCategory(Text.NonEmpty(category)))
    requires i < |cards| && cards[i].id == submission.cardId
    ensures WithUpdates(cards, submission.cardId, submission.updates)[i]
      == Card(cards[i].id, name, amount, Text.NonEmpty(category), cards[i].isFavorite)
  {
  }
}
