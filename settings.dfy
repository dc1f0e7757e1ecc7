/** The app settings: currency, language, dark mode, the list of account
    names and the budget per category, with their defaults, what loading the
    stored values does to them, and the updates the settings screen makes. */
module Settings {
  import opened Wrappers

  const DefaultCurrency: string := "USD"
  const DefaultLanguage: string := "en"

  /** The texts found in storage under the five keys; `None` is a key never
      written (`getItem` gives `null`). */
  datatype StoredSettings = StoredSettings(
    currency: Option<string>,
    language: Option<string>,
    isDarkMode: Option<string>,
    accounts: Option<string>,
    budgets: Option<string>)

  /** `if (saved)`: a stored text that exists and is not empty. */
  predicate Present(saved: Option<string>) {
    saved.Some? && saved.value != ""
  }

  /** `value.toString()`: the text dark mode is stored as. It is never empty,
      so loading it overrides the default, and it reads back (`=== 'true'`)
      as the value it was written from. */
  function DarkModeText(value: bool): (text: string)
    ensures Present(Some(text))
    ensures (text == "true") == value
  {
    if value then "true" else "false"
  }

  /** The accounts after `deleteAccount(index)`, which keeps every account
      whose position is not `index`: the one at `index` is removed and the
      order of the rest kept; an index out of range removes nothing. */
  function WithoutAccountAt(accounts: seq<string>, index: int): (r: seq<string>)
    ensures 0 <= index < |accounts| ==> r == accounts[..index] + accounts[index + 1..]
    ensures !(0 <= index < |accounts|) ==> r == accounts
  {
    if accounts == [] then []
    else if index == 0 then accounts[1..]
    else
      var rest := WithoutAccountAt(accounts[1..], index - 1);
      assert 0 <= index < |accounts| ==> accounts[1..][..index - 1] == accounts[1..index];
      [accounts[0]] + rest
  }

  /** The budgets after `addBudget(category, amount)`: `category` holds
      `amount`, and every other category keeps its budget or its absence. */
  function WithBudget(budgets: map<string, real>, category: string, amount: real): (r: map<string, real>)
    ensures category in r && r[category] == amount
    ensures forall k :: k != category ==> (k in r <==> k in budgets)
    ensures forall k :: k != category && k in budgets ==> r[k] == budgets[k]
  {
    budgets[category := amount]
  }

  /** The budgets after `deleteBudget(category)`: `category` has no budget,
      and every other category keeps its budget or its absence. */
  function WithoutBudget(budgets: map<string, real>, category: string): (r: map<string, real>)
    ensures category !in r
    ensures forall k :: k != category ==> (k in r <==> k in budgets)
    ensures forall k :: k in r ==> r[k] == budgets[k]
  {
    budgets - {category}
  }

  /** Deleting a budget that is not there changes nothing. */
  lemma WithoutAbsentBudget(budgets: map<string, real>, category: string)
    requires category !in budgets
    ensures WithoutBudget(budgets, category) == budgets
  {
    var r := WithoutBudget(budgets, category);
    assert r.Keys == budgets.Keys;
  }

  /** Deleting the budget just added gives back the budgets without that
      category. */
  lemma DeleteAfterAdd(budgets: map<string, real>, category: string, amount: real)
    ensures WithoutBudget(WithBudget(budgets, category, amount), category) == WithoutBudget(budgets, category)
  {
    var a := WithoutBudget(WithBudget(budgets, category, amount), category);
    var b := WithoutBudget(budgets, category);
    assert a.Keys == b.Keys;
  }

  /** The settings state. */
  class SettingsState {
    var currency: string
    var language: string
    var isDarkMode: bool
    var accounts: seq<string>
    var budgets: map<string, real>

    /** The defaults: US dollars, English, light mode, no accounts, no budgets. */
    constructor ()
      ensures currency == DefaultCurrency && language == DefaultLanguage && !isDarkMode
      ensures accounts == [] && budgets == map[]
    {
      currency := DefaultCurrency;
      language := DefaultLanguage;
      isDarkMode := false;
      accounts := [];
      budgets := map[];
    }

    /** `loadSettings`: each stored value that is present overrides its
        setting, in the order currency, language, dark mode, accounts,
        budgets. `read` is `None` when reading storage failed, which changes
        nothing; `parseAccounts` and `parseBudgets` stand for `JSON.parse`,
        `None` when it throws, which stops the settings after it from loading. */
    method LoadSettings(read: Option<StoredSettings>,
                        parseAccounts: string -> Option<seq<string>>,
                        parseBudgets: string -> Option<map<string, real>>)
      modifies this
      ensures read.None? ==>
        && currency == old(currency) && language == old(language) && isDarkMode == old(isDarkMode)
        && accounts == old(accounts) && budgets == old(budgets)
      ensures read.Some? ==>
        var saved := read.value;
        var accountsRead := !Present(saved.accounts) || parseAccounts(saved.accounts.value).Some?;
        && currency == (if Present(saved.currency) then saved.currency.value else old(currency))
        && language == (if Present(saved.language) then saved.language.value else old(language))
        && isDarkMode == (if Present(saved.isDarkMode) then saved.isDarkMode.value == "true" else old(isDarkMode))
        && accounts == (if Present(saved.accounts) && accountsRead then parseAccounts(saved.accounts.value).value
                        else old(accounts))
        && budgets == (if accountsRead && Present(saved.budgets) && parseBudgets(saved.budgets.value).Some?
                       then parseBudgets(saved.budgets.value).value else old(budgets))
    {
      if read.None? {
        return;
      }
      var saved := read.value;
      if Present(saved.currency) { currency := saved.currency.value; }
      if Present(saved.language) { language := saved.language.value; }
      if Present(saved.isDarkMode) { isDarkMode := saved.isDarkMode.value == "true"; }
      if Present(saved.accounts) {
        var parsed := parseAccounts(saved.accounts.value);
        if parsed.None? {
          return;
        }
        accounts := parsed.value;
      }
      if Present(saved.budgets) {
        var parsed := parseBudgets(saved.budgets.value);
        if parsed.None? {
          return;
        }
        budgets := parsed.value;
      }
    }

    /** `setCurrency`: returns the text stored. */
    method SetCurrency(newCurrency: string) returns (stored: string)
      modifies this`currency
      ensures currency == newCurrency && stored == newCurrency
    {
      currency := newCurrency;
      stored := newCurrency;
    }

    /** `setLanguage`: returns the text stored. */
    method SetLanguage(newLanguage: string) returns (stored: string)
      modifies this`language
      ensures language == newLanguage && stored == newLanguage
    {
      language := newLanguage;
      stored := newLanguage;
    }

    /** `setIsDarkMode`: returns the text stored, which a later load reads
        back as `value`. */
    method SetIsDarkMode(value: bool) returns (stored: string)
      modifies this`isDarkMode
      ensures isDarkMode == value && stored == DarkModeText(value)
    {
      isDarkMode := value;
      stored := DarkModeText(value);
    }

    /** `addAccount`: the account goes at the end. */
    method AddAccount(account: string)
      modifies this`accounts
      ensures accounts == old(accounts) + [account]
    {
      accounts := accounts + [account];
    }

    /** `deleteAccount`. */
    method DeleteAccount(index: int)
      modifies this`accounts
      ensures accounts == WithoutAccountAt(old(accounts), index)
    {
      accounts := WithoutAccountAt(accounts, index);
    }

    /** `addBudget`. */
    method AddBudget(category: string, amount: real)
      modifies this`budgets
      ensures budgets == WithBudget(old(budgets), category, amount)
    {
      budgets := WithBudget(budgets, category, amount);
    }

    /** `deleteBudget`. */
    method DeleteBudget(category: string)
      modifies this`budgets
      ensures budgets == WithoutBudget(old(budgets), category)
    {
      budgets := WithoutBudget(budgets, category);
    }
  }

  /** Dark mode survives a restart: whatever the setting before the load,
      loading what `setIsDarkMode(value)` stored gives `value` back. */
  method DarkModeRoundTrip(value: bool, stored: StoredSettings,
                           parseAccounts: string -> Option<seq<string>>,
                           parseBudgets: string -> Option<map<string, real>>)
    returns (loaded: bool)
    ensures loaded == value
  {
    var settings := new SettingsState();
    var text := settings.SetIsDarkMode(value);
    var restarted := new SettingsState();
    restarted.LoadSettings(Some(stored.(isDarkMode := Some(text))), parseAccounts, parseBudgets);
    loaded := restarted.isDarkMode;
  }
}
