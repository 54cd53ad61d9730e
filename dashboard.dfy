// The dashboard's state and its event handlers (src/App.tsx): the account
// list and the API key held by the `App` component, the two browser-storage
// slots they are saved to, and the form and confirmation guards in front of
// each update.

module Dashboard {
  import opened Types
  import opened Ledger

  /**
   * A form input: `Blank` is the empty string, which the form's truthiness
   * guard rejects; `Filled` carries the value the input parses to. Any
   * non-empty input passes the guard, "0" included.
   */
  datatype Field<T> = Blank | Filled(value: T)

  /** The stored key, read as `getItem(...) || ''`. */
  function KeyOrEmpty(stored: Option<string>): string
  {
    if stored.Some? then stored.value else ""
  }

  class Dashboard {
    /** The `accounts` state of the `App` component. */
    var accounts: seq<Account>
    /** The `apiKey` state of the `App` component. */
    var apiKey: string
    /** What the `debtTracker_accounts` storage slot holds, already parsed. */
    var storedAccounts: seq<Account>
    /** What the `gemini_api_key` storage slot holds, if anything. */
    var storedKey: Option<string>

    /**
     * Storage follows the state: every change to the account list is written
     * back, and the key in memory is the stored one.
     */
    ghost predicate Valid()
      reads this
    {
      storedAccounts == accounts && apiKey == KeyOrEmpty(storedKey)
    }

    /** Page load: the saved list if there is one, else the seed accounts; the saved key or "". */
    constructor (saved: Option<seq<Account>>, savedKey: Option<string>)
      ensures Valid()
      ensures accounts == (if saved.Some? then saved.value else InitialAccounts)
      ensures apiKey == KeyOrEmpty(savedKey) && storedKey == savedKey
    {
      accounts := if saved.Some? then saved.value else InitialAccounts;
      apiKey := KeyOrEmpty(savedKey);
      storedAccounts := if saved.Some? then saved.value else InitialAccounts;
      storedKey := savedKey;
    }

    /** `handleAddBalance`: the new entry goes into the history of every account with that id. */
    method AddBalance(accountId: string, balance: real, date: Date)
      requires Valid()
      modifies this
      ensures Valid()
      ensures accounts == RecordBalance(old(accounts), accountId, BalanceEntry(date, balance))
      ensures apiKey == old(apiKey) && storedKey == old(storedKey)
    {
      accounts := RecordBalance(accounts, accountId, BalanceEntry(date, balance));
      storedAccounts := accounts;
    }

    /**
     * `handleAddAccount`: the new account goes last. `id` stands for the
     * random id the source draws; ids stay distinct when it is fresh.
     */
    method AddAccount(id: string, name: string, kind: AccountType, interestRate: int,
                      initialBalance: real, date: Date)
      requires Valid()
      modifies this
      ensures Valid()
      ensures accounts == old(accounts) + [NewAccount(id, name, kind, interestRate, initialBalance, date)]
      ensures apiKey == old(apiKey) && storedKey == old(storedKey)
      ensures DistinctIds(old(accounts)) && (forall i :: 0 <= i < |old(accounts)| ==> old(accounts)[i].id != id)
              ==> DistinctIds(accounts)
      ensures Chronological(old(accounts)) ==> Chronological(accounts)
    {
      var account := NewAccount(id, name, kind, interestRate, initialBalance, date);
      if DistinctIds(accounts) && forall i :: 0 <= i < |accounts| ==> accounts[i].id != id {
        AddAccountDistinct(accounts, account);
      }
      if Chronological(accounts) {
        AddAccountChronological(accounts, id, name, kind, interestRate, initialBalance, date);
      }
      accounts := accounts + [account];
      storedAccounts := accounts;
    }

    /** `handleDeleteAccount`: removes every account with that id, once the user confirms. */
    method DeleteAccount(id: string, confirmed: bool)
      requires Valid()
      modifies this
      ensures Valid()
      ensures accounts == (if confirmed then WithoutAccount(old(accounts), id) else old(accounts))
      ensures apiKey == old(apiKey) && storedKey == old(storedKey)
    {
      if confirmed {
        accounts := WithoutAccount(accounts, id);
        storedAccounts := accounts;
      }
    }

    /** The settings form's reset: once confirmed, the account list is emptied; the key stays. */
    method ResetData(confirmed: bool)
      requires Valid()
      modifies this
      ensures Valid()
      ensures accounts == (if confirmed then [] else old(accounts))
      ensures apiKey == old(apiKey) && storedKey == old(storedKey)
    {
      if confirmed {
        accounts := [];
        storedAccounts := accounts;
      }
    }

    /** `handleSaveApiKey`: the key is kept in memory and in storage; accounts are untouched. */
    method SaveApiKey(key: string)
      requires Valid()
      modifies this
      ensures Valid()
      ensures apiKey == key && storedKey == Some(key)
      ensures accounts == old(accounts)
    {
      apiKey := key;
      storedKey := Some(key);
    }

    /**
     * The update-balance form: submitted only when an account is selected
     * and both the amount and the date are filled in; otherwise nothing
     * changes.
     */
    method SubmitBalance(accountId: string, amount: Field<real>, date: Field<Date>) returns (submitted: bool)
      requires Valid()
      modifies this
      ensures Valid()
      ensures submitted <==> accountId != "" && amount.Filled? && date.Filled?
      ensures submitted ==> accounts == RecordBalance(old(accounts), accountId, BalanceEntry(date.value, amount.value))
      ensures !submitted ==> accounts == old(accounts)
      ensures apiKey == old(apiKey) && storedKey == old(storedKey)
    {
      submitted := accountId != "" && amount.Filled? && date.Filled?;
      if submitted {
        AddBalance(accountId, amount.value, date.value);
      }
    }

    /**
     * The add-account form: submitted only when the name, the rate and the
     * balance are all filled in; the new account's single entry is dated
     * `today`.
     */
    method SubmitAccount(name: string, kind: AccountType, rate: Field<int>, balance: Field<real>,
                         today: Date, id: string) returns (added: bool)
      requires Valid()
      modifies this
      ensures Valid()
      ensures added <==> name != "" && rate.Filled? && balance.Filled?
      ensures added ==> accounts == old(accounts) + [NewAccount(id, name, kind, rate.value, balance.value, today)]
      ensures !added ==> accounts == old(accounts)
      ensures apiKey == old(apiKey) && storedKey == old(storedKey)
    {
      added := name != "" && rate.Filled? && balance.Filled?;
      if added {
        AddAccount(id, name, kind, rate.value, balance.value, today);
      }
    }
  }

  /** Reloading the page after any sequence of handlers restores the same list and key. */
  method Reload(d: Dashboard) returns (e: Dashboard)
    requires d.Valid()
    ensures fresh(e) && e.Valid()
    ensures e.accounts == d.accounts && e.apiKey == d.apiKey
  {
    e := new Dashboard(Some(d.storedAccounts), d.storedKey);
  }
}
