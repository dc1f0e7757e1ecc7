/** The expense-card hook: the signed-in user's list of reusable expense
    templates ("cards"), with the `loading`, `adding` and `error` flags the
    screens show, and the local list updates made after each backend call. */
module ExpenseCards {
  import opened Wrappers
  import opened Remote
  import Lists

  /** A row of the `expense_cards` table. */
  datatype CardRow = CardRow(
    id: string,
    userId: string,
    name: string,
    amount: real,
    category: Option<string>,
    createdAt: string,
    updatedAt: string,
    isFavorite: bool)

  /** What a card shows: the row without its owner and time stamps. */
  datatype Card = Card(
    id: string,
    name: string,
    amount: real,
    category: Option<string>,
    isFavorite: bool)

  /** The fields a new card is created with. */
  datatype NewCard = NewCard(name: string, amount: real, category: Option<string>)

  /** The row `addExpenseCard` inserts. */
  datatype CardInsert = CardInsert(
    userId: string,
    name: string,
    amount: real,
    category: Option<string>,
    isFavorite: bool)

  /** The value of the `category` key of an edit: absent (the card keeps its
      category), or present, possibly as `undefined` (the spread then
      overwrites the category with it). */
  datatype CategoryUpdate = KeepCategory | ReplaceCategory(category: Option<string>)

  /** The fields an edit may supply; an absent field is left as it was. */
  datatype CardUpdates = CardUpdates(name: Option<string>, amount: Option<real>, category: CategoryUpdate)

  const FetchFailedMessage: string := "Failed to fetch expense cards"
  const AddFailedMessage: string := "Failed to add expense card"

  /** One fetched row as a card; a `null` category stays absent. */
  function CardFromRow(row: CardRow): Card {
    Card(row.id, row.name, row.amount, row.category, row.isFavorite)
  }

  /** The fetched rows as cards, one for one and in the same order. */
  function CardsFromRows(rows: seq<CardRow>): (cards: seq<Card>)
    ensures |cards| == |rows|
    ensures forall i :: 0 <= i < |rows| ==>
      && cards[i].id == rows[i].id
      && cards[i].name == rows[i].name
      && cards[i].amount == rows[i].amount
      && cards[i].category == rows[i].category
      && cards[i].isFavorite == rows[i].isFavorite
  {
    Lists.Map(rows, CardFromRow)
  }

  /** The cards after `toggleFavorite`: every card with id `cardId` gets the
      flag `favorite`; nothing else changes. */
  function WithFavorite(cards: seq<Card>, cardId: string, favorite: bool): (r: seq<Card>)
    ensures |r| == |cards|
    ensures forall i :: 0 <= i < |cards| ==>
      && r[i] == cards[i].(isFavorite := r[i].isFavorite)
      && r[i].isFavorite == if cards[i].id == cardId then favorite else cards[i].isFavorite
  {
    Lists.Map(cards, (c: Card) => if c.id == cardId then c.(isFavorite := favorite) else c)
  }

  /** Toggling sets the flag named by its argument, not the negation of the
      stored one, so a repeated toggle with the same argument changes nothing more. */
  lemma WithFavoriteIdempotent(cards: seq<Card>, cardId: string, favorite: bool)
    ensures WithFavorite(WithFavorite(cards, cardId, favorite), cardId, favorite) == WithFavorite(cards, cardId, favorite)
  {
    var once := WithFavorite(cards, cardId, favorite);
    var twice := WithFavorite(once, cardId, favorite);
    forall i | 0 <= i < |cards| ensures twice[i] == once[i] {
      assert once[i].id == cards[i].id;
    }
  }

  /** The cards after `deleteExpenseCard`: every card with id `cardId` is
      gone, every other card stays as often as it was there. */
  function WithoutCard(cards: seq<Card>, cardId: string): (r: seq<Card>)
    ensures |r| <= |cards|
    ensures forall c :: multiset(r)[c] == if c.id == cardId then 0 else multiset(cards)[c]
  {
    Lists.Filter(cards, (c: Card) => c.id != cardId)
  }

  /** The cards left by a delete keep their order. */
  lemma WithoutCardKeepsOrder(a: seq<Card>, b: seq<Card>, cardId: string)
    ensures WithoutCard(a + b, cardId) == WithoutCard(a, cardId) + WithoutCard(b, cardId)
  {
    Lists.FilterAppend(a, b, (c: Card) => c.id != cardId);
  }

  /** Deleting an id no card has changes nothing. */
  lemma WithoutAbsentCard(cards: seq<Card>, cardId: string)
    requires forall i :: 0 <= i < |cards| ==> cards[i].id != cardId
    ensures WithoutCard(cards, cardId) == cards
  {
    Lists.FilterKeepsAll(cards, (c: Card) => c.id != cardId);
  }

  /** A card deleted after it was toggled is deleted all the same: toggling
      touches no other card. */
  lemma DeleteAfterToggle(cards: seq<Card>, cardId: string, favorite: bool)
    ensures WithoutCard(WithFavorite(cards, cardId, favorite), cardId) == WithoutCard(cards, cardId)
  {
    Lists.FilterAfterMap(cards, (c: Card) => if c.id == cardId then c.(isFavorite := favorite) else c,
      (c: Card) => c.id != cardId);
  }

  /** `{ ...card, ...updates }`. */
  function Updated(card: Card, updates: CardUpdates): Card {
    Card(
      card.id,
      updates.name.GetOr(card.name),
      updates.amount.GetOr(card.amount),
      match updates.category
      case KeepCategory => card.category
      case ReplaceCategory(c) => c,
      card.isFavorite)
  }

  /** The cards after `editExpenseCard`: the card with id `cardId` takes the
      supplied fields and keeps its id and favourite flag; other cards are unchanged. */
  function WithUpdates(cards: seq<Card>, cardId: string, updates: CardUpdates): (r: seq<Card>)
    ensures |r| == |cards|
    ensures forall i :: 0 <= i < |cards| ==>
      && r[i].id == cards[i].id
      && r[i].isFavorite == cards[i].isFavorite
      && (cards[i].id != cardId ==> r[i] == cards[i])
      && (cards[i].id == cardId ==>
            && (updates.name.Some? ==> r[i].name == updates.name.value)
            && (updates.name.None? ==> r[i].name == cards[i].name)
            && (updates.amount.Some? ==> r[i].amount == updates.amount.value)
            && (updates.amount.None? ==> r[i].amount == cards[i].amount)
            && (updates.category.ReplaceCategory? ==> r[i].category == updates.category.category)
            && (updates.category.KeepCategory? ==> r[i].category == cards[i].category))
  {
    Lists.Map(cards, (c: Card) => if c.id == cardId then Updated(c, updates) else c)
  }

  /** An edit that supplies nothing changes nothing. */
  lemma EmptyEditChangesNothing(cards: seq<Card>, cardId: string)
    ensures WithUpdates(cards, cardId, CardUpdates(None, None, KeepCategory)) == cards
  {
    var r := WithUpdates(cards, cardId, CardUpdates(None, None, KeepCategory));
    forall i | 0 <= i < |cards| ensures r[i] == cards[i] {
      assert r[i] == if cards[i].id == cardId then Updated(cards[i], CardUpdates(None, None, KeepCategory)) else cards[i];
    }
  }

  /** Applying the same edit twice is applying it once. */
  lemma WithUpdatesIdempotent(cards: seq<Card>, cardId: string, updates: CardUpdates)
    ensures WithUpdates(WithUpdates(cards, cardId, updates), cardId, updates) == WithUpdates(cards, cardId, updates)
  {
    var once := WithUpdates(cards, cardId, updates);
    var twice := WithUpdates(once, cardId, updates);
    forall i | 0 <= i < |cards| ensures twice[i] == once[i] {
      assert once[i].id == cards[i].id;
    }
  }

  /** The hook's state. */
  class ExpenseCardsState {
    var expenseCards: seq<Card>
    var loading: bool
    var adding: bool
    var error: Option<string>

    constructor ()
      ensures expenseCards == [] && !loading && !adding && error == None
    {
      expenseCards := [];
      loading := false;
      adding := false;
      error := None;
    }

    /** `fetchExpenseCards`: clear the error, then load the user's cards; on
        success the list is replaced, otherwise it is kept and the error is
        stored. `loading` is false afterwards whatever happened. */
    method FetchExpenseCards(session: Session, result: Outcome<seq<CardRow>>)
      modifies this`expenseCards, this`loading, this`error
      ensures !loading
      ensures session.SignedIn? && result.Ok? ==> expenseCards == CardsFromRows(result.value) && error == None
      ensures !session.SignedIn? ==> expenseCards == old(expenseCards) && error == Some(NotAuthenticatedMessage)
      ensures session.SignedIn? && result.Failed? ==>
        expenseCards == old(expenseCards) && error == Some(ErrorMessage(result.thrown, FetchFailedMessage))
    {
      loading := true;
      error := None;
      if !session.SignedIn? {
        error := Some(NotAuthenticatedMessage);
      } else {
        match result
        case Ok(rows) =>
          expenseCards := CardsFromRows(rows);
        case Failed(thrown) =>
          error := Some(ErrorMessage(thrown, FetchFailedMessage));
      }
      loading := false;
    }

    /** `addExpenseCard`: insert the card, not a favourite, for the signed-in
        user, then fetch the list again (with the session and result of that
        second fetch). Returns the inserted row, if the insert was made.
        `adding` is false afterwards whatever happened. */
    method AddExpenseCard(cardData: NewCard, session: Session, insertError: Option<Thrown>,
                          refetchSession: Session, refetch: Outcome<seq<CardRow>>)
      returns (inserted: Option<CardInsert>)
      modifies this
      ensures !adding
      ensures inserted.Some? <==> session.SignedIn?
      ensures inserted.Some? ==>
        inserted.value == CardInsert(session.userId, cardData.name, cardData.amount, cardData.category, false)
      ensures !session.SignedIn? ==>
        && expenseCards == old(expenseCards) && loading == old(loading)
        && error == Some(NotAuthenticatedMessage)
      ensures session.SignedIn? && insertError.Some? ==>
        && expenseCards == old(expenseCards) && loading == old(loading)
        && error == Some(ErrorMessage(insertError.value, AddFailedMessage))
      ensures session.SignedIn? && insertError.None? ==>
        && !loading
        && (refetchSession.SignedIn? && refetch.Ok? ==> expenseCards == CardsFromRows(refetch.value) && error == None)
        && (!(refetchSession.SignedIn? && refetch.Ok?) ==> expenseCards == old(expenseCards))
        && (!refetchSession.SignedIn? ==> error == Some(NotAuthenticatedMessage))
        && (refetchSession.SignedIn? && refetch.Failed? ==>
              error == Some(ErrorMessage(refetch.thrown, FetchFailedMessage)))
    {
      adding := true;
      error := None;
      inserted := None;
      if !session.SignedIn? {
        error := Some(NotAuthenticatedMessage);
      } else {
        inserted := Some(CardInsert(session.userId, cardData.name, cardData.amount, cardData.category, false));
        if insertError.Some? {
          error := Some(ErrorMessage(insertError.value, AddFailedMessage));
        } else {
          FetchExpenseCards(refetchSession, refetch);
        }
      }
      adding := false;
    }

    /** `toggleFavorite`: after a successful update, the cards with that id
        get the flag `!currentFavorite`; on failure the list is kept. */
    method ToggleFavorite(cardId: string, currentFavorite: bool, session: Session, updateError: Option<Thrown>)
      modifies this`expenseCards
      ensures session.SignedIn? && updateError.None? ==>
        expenseCards == WithFavorite(old(expenseCards), cardId, !currentFavorite)
      ensures !(session.SignedIn? && updateError.None?) ==> expenseCards == old(expenseCards)
    {
      if session.SignedIn? && updateError.None? {
        expenseCards := WithFavorite(expenseCards, cardId, !currentFavorite);
      }
    }

    /** `deleteExpenseCard`: after a successful delete, the cards with that id
        are removed; on failure the list is kept. */
    method DeleteExpenseCard(cardId: string, session: Session, deleteError: Option<Thrown>)
      modifies this`expenseCards
      ensures session.SignedIn? && deleteError.None? ==> expenseCards == WithoutCard(old(expenseCards), cardId)
      ensures !(session.SignedIn? && deleteError.None?) ==> expenseCards == old(expenseCards)
    {
      if session.SignedIn? && deleteError.None? {
        expenseCards := WithoutCard(expenseCards, cardId);
      }
    }

    /** `editExpenseCard`: after a successful update, the card with that id
        takes the supplied fields; on failure the list is kept. */
    method EditExpenseCard(cardId: string, updates: CardUpdates, session: Session, updateError: Option<Thrown>)
      modifies this`expenseCards
      ensures session.SignedIn? && updateError.None? ==>
        expenseCards == WithUpdates(old(expenseCards), cardId, updates)
      ensures !(session.SignedIn? && updateError.None?) ==> expenseCards == old(expenseCards)
    {
      if session.SignedIn? && updateError.None? {
        expenseCards := WithUpdates(expenseCards, cardId, updates);
      }
    }
  }
}
