// The account-list updates of src/App.tsx as functions from the old list to
// the new one, with the properties each update promises: recording a
// balance, adding an account, deleting one by id.

module Ledger {
  import opened Types
  import opened Seqs
  import opened Sorting
  import opened Views

  /** Every history is in date order. */
  predicate Chronological(accounts: seq<Account>)
  {
    forall i :: 0 <= i < |accounts| ==> SortedBy(accounts[i].history, EntryDate)
  }

  /** One account after `entry` is appended to its history and the history is re-sorted by date. */
  function WithEntry(a: Account, entry: BalanceEntry): Account
  {
    a.(history := SortBy(a.history + [entry], EntryDate))
  }

  /**
   * Records `entry` for the account(s) with id `id`: their history becomes
   * the old history with `entry` appended, stably sorted by date. Every
   * other account, the list's length and its order stay as they were.
   */
  function RecordBalance(accounts: seq<Account>, id: string, entry: BalanceEntry): (r: seq<Account>)
    ensures |r| == |accounts|
    ensures forall i :: 0 <= i < |r| ==>
      r[i].id == accounts[i].id && r[i].name == accounts[i].name &&
      r[i].kind == accounts[i].kind && r[i].interestRate == accounts[i].interestRate
    ensures forall i :: 0 <= i < |r| && accounts[i].id != id ==> r[i] == accounts[i]
    ensures forall i :: 0 <= i < |r| && accounts[i].id == id ==>
      var old_, new_ := accounts[i].history + [entry], r[i].history;
      |new_| == |accounts[i].history| + 1 &&
      multiset(new_) == multiset(old_) &&
      SortedBy(new_, EntryDate) &&
      Stable(old_, new_, EntryDate)
  {
    var r := seq(|accounts|, i requires 0 <= i < |accounts| =>
      if accounts[i].id == id then WithEntry(accounts[i], entry) else accounts[i]);
    forall i | 0 <= i < |r| && accounts[i].id == id
      ensures SortedBy(r[i].history, EntryDate) && Stable(accounts[i].history + [entry], r[i].history, EntryDate)
    {
      SortBySorted(accounts[i].history + [entry], EntryDate);
      SortByStable(accounts[i].history + [entry], EntryDate);
    }
    r
  }

  /** An id no account has makes recording a balance a no-op. */
  lemma RecordBalanceUnknownId(accounts: seq<Account>, id: string, entry: BalanceEntry)
    requires forall i :: 0 <= i < |accounts| ==> accounts[i].id != id
    ensures RecordBalance(accounts, id, entry) == accounts
  {
  }

  /** The history's new order is the one any stable sort by date gives. */
  lemma RecordBalanceIsStableSort(accounts: seq<Account>, id: string, entry: BalanceEntry, i: nat)
    requires i < |accounts| && accounts[i].id == id
    ensures RecordBalance(accounts, id, entry)[i].history == SortBy(accounts[i].history + [entry], EntryDate)
  {
    var h := RecordBalance(accounts, id, entry)[i].history;
    SortByUnique(accounts[i].history + [entry], h, EntryDate);
  }

  /**
   * An entry dated on or after every existing entry becomes the last entry,
   * so it is the current balance; on a history already in date order
   * nothing else moves.
   */
  lemma RecordBalanceLatest(accounts: seq<Account>, id: string, entry: BalanceEntry, i: nat)
    requires i < |accounts| && accounts[i].id == id
    requires forall k :: 0 <= k < |accounts[i].history| ==> accounts[i].history[k].date <= entry.date
    ensures var a := RecordBalance(accounts, id, entry)[i];
      a.history[|a.history| - 1] == entry && CurrentBalance(a) == entry.balance
    ensures SortedBy(accounts[i].history, EntryDate) ==>
      RecordBalance(accounts, id, entry)[i].history == accounts[i].history + [entry]
  {
    var h := accounts[i].history;
    RecordBalanceIsStableSort(accounts, id, entry, i);
    SortAppendLatest(h, entry, EntryDate);
    if SortedBy(h, EntryDate) {
      SortBySortedIdentity(h, EntryDate);
    }
  }

  /**
   * On a history in date order, an entry dated before the latest one is
   * placed inside the history and the current entry stays the same.
   */
  lemma RecordBalanceEarlier(accounts: seq<Account>, id: string, entry: BalanceEntry, i: nat)
    requires i < |accounts| && accounts[i].id == id
    requires SortedBy(accounts[i].history, EntryDate) && accounts[i].history != []
    requires entry.date < accounts[i].history[|accounts[i].history| - 1].date
    ensures var a := RecordBalance(accounts, id, entry)[i];
      a.history[|a.history| - 1] == accounts[i].history[|accounts[i].history| - 1] &&
      CurrentBalance(a) == CurrentBalance(accounts[i])
  {
    RecordBalanceIsStableSort(accounts, id, entry, i);
    SortAppendEarlier(accounts[i].history, entry, EntryDate);
  }

  /** Recording a balance keeps every history in date order. */
  lemma RecordBalanceChronological(accounts: seq<Account>, id: string, entry: BalanceEntry)
    requires Chronological(accounts)
    ensures Chronological(RecordBalance(accounts, id, entry))
  {
  }

  /**
   * On a history in date order, recording the current balance again at a
   * date on or after the latest leaves "debt reduced" for that account as it was.
   */
  lemma ReductionUnchanged(a: Account, entry: BalanceEntry)
    requires SortedBy(a.history, EntryDate)
    requires forall k :: 0 <= k < |a.history| ==> a.history[k].date <= entry.date
    requires entry.balance == CurrentBalance(a)
    ensures Reduction(WithEntry(a, entry)) == Reduction(a)
  {
    SortAppendLatest(a.history, entry, EntryDate);
    SortBySortedIdentity(a.history, EntryDate);
    assert WithEntry(a, entry).history == a.history + [entry];
  }

  /**
   * Recording, for every account with the id, a balance equal to its
   * current one at a date on or after its latest leaves total "debt
   * reduced" unchanged.
   */
  lemma {:induction false} DebtReducedUnchanged(accounts: seq<Account>, id: string, entry: BalanceEntry)
    requires Chronological(accounts)
    requires forall i :: 0 <= i < |accounts| && accounts[i].id == id ==>
      entry.balance == CurrentBalance(accounts[i]) &&
      forall k :: 0 <= k < |accounts[i].history| ==> accounts[i].history[k].date <= entry.date
    ensures DebtReduced(RecordBalance(accounts, id, entry)) == DebtReduced(accounts)
    decreases |accounts|
  {
    if accounts != [] {
      var n := |accounts| - 1;
      var r := RecordBalance(accounts, id, entry);
      assert RecordBalance(accounts[..n], id, entry) == r[..n];
      DebtReducedUnchanged(accounts[..n], id, entry);
      if accounts[n].id == id {
        ReductionUnchanged(accounts[n], entry);
        assert r[n] == WithEntry(accounts[n], entry) by {
          RecordBalanceIsStableSort(accounts, id, entry, n);
        }
      }
    }
  }

  /**
   * With distinct ids, recording balance B at a date on or after the
   * latest for an account whose current balance was C raises "debt
   * reduced" by exactly C - B.
   */
  lemma DebtReducedAfterRecord(accounts: seq<Account>, id: string, entry: BalanceEntry, i: nat)
    requires DistinctIds(accounts) && i < |accounts| && accounts[i].id == id
    requires SortedBy(accounts[i].history, EntryDate) && accounts[i].history != []
    requires forall k :: 0 <= k < |accounts[i].history| ==> accounts[i].history[k].date <= entry.date
    ensures DebtReduced(RecordBalance(accounts, id, entry))
         == DebtReduced(accounts) + CurrentBalance(accounts[i]) - entry.balance
  {
    var r := RecordBalance(accounts, id, entry);
    var a := accounts[i];
    RecordBalanceLatest(accounts, id, entry, i);
    assert r == accounts[i := r[i]];
    SumUpdate(accounts, i, r[i], Reduction);
    assert r[i].history[0] == a.history[0];
  }

  /** A new account: the form's fields and a one-entry history. */
  function NewAccount(id: string, name: string, kind: AccountType, interestRate: int,
                      initialBalance: real, date: Date): Account
  {
    Account(id, name, kind, interestRate, [BalanceEntry(date, initialBalance)])
  }

  /** Adding an account raises total liabilities by exactly its initial balance. */
  lemma AddAccountTotal(accounts: seq<Account>, id: string, name: string, kind: AccountType,
                        interestRate: int, initialBalance: real, date: Date)
    ensures TotalLiabilities(accounts + [NewAccount(id, name, kind, interestRate, initialBalance, date)])
         == TotalLiabilities(accounts) + initialBalance
  {
    var acc := NewAccount(id, name, kind, interestRate, initialBalance, date);
    SumLast(accounts, acc);
  }

  /** Adding an account under a fresh id keeps ids distinct. */
  lemma AddAccountDistinct(accounts: seq<Account>, account: Account)
    requires DistinctIds(accounts)
    requires forall i :: 0 <= i < |accounts| ==> accounts[i].id != account.id
    ensures DistinctIds(accounts + [account])
  {
  }

  /** Adding an account keeps every history in date order. */
  lemma AddAccountChronological(accounts: seq<Account>, id: string, name: string, kind: AccountType,
                                interestRate: int, initialBalance: real, date: Date)
    requires Chronological(accounts)
    ensures Chronological(accounts + [NewAccount(id, name, kind, interestRate, initialBalance, date)])
  {
  }

  /** The filter condition of `handleDeleteAccount`: the account does not carry `id`. */
  function NotId(id: string): Account -> bool
  {
    (a: Account) => a.id != id
  }

  /** The list after deleting `id`: every account with another id, in list order. */
  function WithoutAccount(accounts: seq<Account>, id: string): (r: seq<Account>)
    ensures |r| <= |accounts|
    ensures forall i :: 0 <= i < |r| ==> r[i].id != id
  {
    Filter(accounts, NotId(id))
  }

  /** Deleting removes exactly the accounts with the id: nothing else goes, nothing new comes. */
  lemma WithoutAccountMembers(accounts: seq<Account>, id: string)
    ensures var r := WithoutAccount(accounts, id);
      (forall i :: 0 <= i < |r| ==> r[i].id != id && r[i] in accounts) &&
      (forall i :: 0 <= i < |accounts| && accounts[i].id != id ==> accounts[i] in r)
  {
    var r := WithoutAccount(accounts, id);
    forall i | 0 <= i < |r|
      ensures r[i] in accounts
    {
      FilterMembers(accounts, NotId(id), r[i]);
    }
    forall i | 0 <= i < |accounts| && accounts[i].id != id
      ensures accounts[i] in r
    {
      FilterMembers(accounts, NotId(id), accounts[i]);
    }
  }

  /** Deleting an id no account has is a no-op. */
  lemma WithoutAccountUnknownId(accounts: seq<Account>, id: string)
    requires forall i :: 0 <= i < |accounts| ==> accounts[i].id != id
    ensures WithoutAccount(accounts, id) == accounts
  {
    FilterAll(accounts, NotId(id));
  }

  /** Deleting the id of an account no other account shares removes exactly it and closes the gap. */
  lemma WithoutAccountAt(accounts: seq<Account>, i: nat)
    requires i < |accounts| && OnlyWithId(accounts, i)
    ensures WithoutAccount(accounts, accounts[i].id) == accounts[..i] + accounts[i + 1..]
  {
    var pre, post := accounts[..i], accounts[i + 1..];
    assert accounts == pre + [accounts[i]] + post;
    UnknownIdPart(accounts, i, 0, i);
    UnknownIdPart(accounts, i, i + 1, |accounts|);
    assert accounts[0..i] == pre && accounts[i + 1..|accounts|] == post;
    FilterSplice(pre, accounts[i], post, NotId(accounts[i].id));
  }

  /** A slice not holding `accounts[i]` is kept whole by deleting its id. */
  lemma UnknownIdPart(accounts: seq<Account>, i: nat, lo: nat, hi: nat)
    requires i < |accounts| && OnlyWithId(accounts, i)
    requires lo <= hi <= |accounts| && (hi <= i || i < lo)
    ensures WithoutAccount(accounts[lo..hi], accounts[i].id) == accounts[lo..hi]
  {
    var part := accounts[lo..hi];
    assert forall k :: 0 <= k < |part| ==> part[k] == accounts[lo + k];
    WithoutAccountUnknownId(part, accounts[i].id);
  }

  /** `accounts[i]` is the only account carrying its id (as when all ids are distinct). */
  predicate OnlyWithId(accounts: seq<Account>, i: nat)
    requires i < |accounts|
  {
    forall k :: 0 <= k < |accounts| && k != i ==> accounts[k].id != accounts[i].id
  }

  /** Deleting an account removes exactly its current balance from the total. */
  lemma DeleteTotal(accounts: seq<Account>, i: nat)
    requires i < |accounts| && OnlyWithId(accounts, i)
    ensures TotalLiabilities(WithoutAccount(accounts, accounts[i].id))
         == TotalLiabilities(accounts) - CurrentBalance(accounts[i])
  {
    var pre, post := accounts[..i], accounts[i + 1..];
    WithoutAccountAt(accounts, i);
    assert accounts == (pre + [accounts[i]]) + post;
    SumConcat(pre + [accounts[i]], post, CurrentBalance);
    SumConcat(pre, post, CurrentBalance);
    SumLast(pre, accounts[i]);
  }

  /**
   * Deleting a credit card removes exactly its current balance from the
   * credit-card debt tile; deleting any other account leaves the tile as it was.
   */
  lemma DeleteCardDebt(accounts: seq<Account>, i: nat)
    requires i < |accounts| && OnlyWithId(accounts, i)
    ensures TotalCCDebt(WithoutAccount(accounts, accounts[i].id))
         == TotalCCDebt(accounts) - (if accounts[i].kind == CreditCard then CurrentBalance(accounts[i]) else 0.0)
  {
    var a := accounts[i];
    var pre, post := accounts[..i], accounts[i + 1..];
    var r := WithoutAccount(accounts, a.id);
    WithoutAccountAt(accounts, i);
    assert accounts == pre + ([a] + post);
    FilterConcat(pre, [a] + post, IsCreditCard);
    FilterConcat([a], post, IsCreditCard);
    FilterConcat(pre, post, IsCreditCard);
    assert [a][..0] == [];
    var cPre, cA, cPost := Filter(pre, IsCreditCard), Filter([a], IsCreditCard), Filter(post, IsCreditCard);
    SumConcat(cPre, cA + cPost, CurrentBalance);
    SumConcat(cA, cPost, CurrentBalance);
    SumConcat(cPre, cPost, CurrentBalance);
    assert SumBy(cA, CurrentBalance) == if a.kind == CreditCard then CurrentBalance(a) else 0.0 by {
      if a.kind == CreditCard {
        assert cA == [a] && cA[..0] == [];
      }
    }
    CardDebtIsFilterSum(accounts);
    CardDebtIsFilterSum(r);
  }

  /** Credit-card debt is the sum over the credit cards in list order. */
  lemma CardDebtIsFilterSum(accounts: seq<Account>)
    ensures TotalCCDebt(accounts) == SumBy(Filter(accounts, IsCreditCard), CurrentBalance)
  {
    SumPermutation(CreditCards(accounts), Filter(accounts, IsCreditCard), CurrentBalance);
  }

  /** Deleting the only credit card empties the avalanche list and zeroes credit-card debt. */
  lemma DeleteOnlyCard(accounts: seq<Account>, i: nat)
    requires i < |accounts| && OnlyWithId(accounts, i) && accounts[i].kind == CreditCard
    requires forall k :: 0 <= k < |accounts| && k != i ==> accounts[k].kind != CreditCard
    ensures CreditCards(WithoutAccount(accounts, accounts[i].id)) == []
    ensures TotalCCDebt(WithoutAccount(accounts, accounts[i].id)) == 0.0
  {
    var r := WithoutAccount(accounts, accounts[i].id);
    WithoutAccountMembers(accounts, accounts[i].id);
    forall j | 0 <= j < |r|
      ensures !IsCreditCard(r[j])
    {
      var k :| 0 <= k < |accounts| && accounts[k] == r[j];
      assert k != i;
    }
    FilterNone(r, IsCreditCard);
  }

  /** Deleting keeps ids distinct and histories in date order. */
  lemma WithoutAccountInvariants(accounts: seq<Account>, id: string)
    requires DistinctIds(accounts) && Chronological(accounts)
    ensures DistinctIds(WithoutAccount(accounts, id)) && Chronological(WithoutAccount(accounts, id))
  {
    var r := WithoutAccount(accounts, id);
    WithoutAccountMembers(accounts, id);
    forall i | 0 <= i < |r|
      ensures SortedBy(r[i].history, EntryDate)
    {
      var j :| 0 <= j < |accounts| && accounts[j] == r[i];
    }
    WithoutAccountDistinct(accounts, id);
  }

  lemma {:induction false} WithoutAccountDistinct(accounts: seq<Account>, id: string)
    requires DistinctIds(accounts)
    ensures DistinctIds(WithoutAccount(accounts, id))
  {
    if accounts != [] {
      var n := |accounts| - 1;
      WithoutAccountDistinct(accounts[..n], id);
      var r' := WithoutAccount(accounts[..n], id);
      WithoutAccountMembers(accounts[..n], id);
      forall k | 0 <= k < |r'|
        ensures r'[k].id != accounts[n].id
      {
        var j :| 0 <= j < n && accounts[..n][j] == r'[k];
      }
    }
  }
}
