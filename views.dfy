// The dashboard's derived views (src/App.tsx): the avalanche payoff order,
// the split into credit cards and other liabilities, the two totals and the
// "debt reduced since tracking began" tile.

module Views {
  import opened Types
  import opened Seqs
  import opened Sorting

  /** Balance of the last history entry, or 0 for an empty history. */
  function CurrentBalance(a: Account): real
  {
    if |a.history| > 0 then a.history[|a.history| - 1].balance else 0.0
  }

  /** Balance of the first history entry, or 0 for an empty history. */
  function FirstBalance(a: Account): real
  {
    if |a.history| > 0 then a.history[0].balance else 0.0
  }

  /** How much one account went down since its first entry (0 for an empty history). */
  function Reduction(a: Account): real
  {
    FirstBalance(a) - CurrentBalance(a)
  }

  predicate IsCreditCard(a: Account)
  {
    a.kind == CreditCard
  }

  predicate IsOtherLiability(a: Account)
  {
    a.kind != CreditCard
  }

  /** Sort key for the descending-rate order: a higher rate sorts earlier. */
  function RateKey(a: Account): int
  {
    -a.interestRate
  }

  /** Interest rates never increase along `s`. */
  predicate RatesNonIncreasing(s: seq<Account>)
  {
    forall i, j :: 0 <= i < j < |s| ==> s[i].interestRate >= s[j].interestRate
  }

  /**
   * The avalanche payoff order: the credit cards of `accounts`, highest
   * interest rate first, cards with equal rates in their list order.
   * Position 0 is rank 1.
   */
  function CreditCards(accounts: seq<Account>): (r: seq<Account>)
    ensures multiset(r) == multiset(Filter(accounts, IsCreditCard))
    ensures forall i :: 0 <= i < |r| ==> r[i].kind == CreditCard
    ensures RatesNonIncreasing(r)
    ensures Stable(Filter(accounts, IsCreditCard), r, RateKey)
  {
    var cards := Filter(accounts, IsCreditCard);
    var r := SortBy(cards, RateKey);
    SortByStable(cards, RateKey);
    SortedByRate(cards);
    OnlyCards(accounts, r);
    r
  }

  lemma SortedByRate(cards: seq<Account>)
    ensures RatesNonIncreasing(SortBy(cards, RateKey))
  {
    var r := SortBy(cards, RateKey);
    SortBySorted(cards, RateKey);
    forall i, j | 0 <= i < j < |r|
      ensures r[i].interestRate >= r[j].interestRate
    {
      assert RateKey(r[i]) <= RateKey(r[j]);
    }
  }

  lemma OnlyCards(accounts: seq<Account>, r: seq<Account>)
    requires multiset(r) == multiset(Filter(accounts, IsCreditCard))
    ensures forall i :: 0 <= i < |r| ==> r[i].kind == CreditCard
  {
    var cards := Filter(accounts, IsCreditCard);
    forall i | 0 <= i < |r|
      ensures r[i].kind == CreditCard
    {
      assert r[i] in multiset(cards);
      var j :| 0 <= j < |cards| && cards[j] == r[i];
    }
  }

  /** Every account that is not a credit card, in list order. */
  function OtherLiabilities(accounts: seq<Account>): seq<Account>
  {
    Filter(accounts, IsOtherLiability)
  }

  /** Sum of current balances over all accounts. */
  function TotalLiabilities(accounts: seq<Account>): real
  {
    SumBy(accounts, CurrentBalance)
  }

  /** Sum of current balances over the avalanche list. */
  function TotalCCDebt(accounts: seq<Account>): real
  {
    SumBy(CreditCards(accounts), CurrentBalance)
  }

  /** Sum over accounts of first-ever balance minus current balance. */
  function DebtReduced(accounts: seq<Account>): real
  {
    SumBy(accounts, Reduction)
  }

  /** Rank 1 of the avalanche order carries the highest rate of any credit card. */
  lemma TopRankHighestRate(accounts: seq<Account>, i: nat)
    requires i < |accounts| && accounts[i].kind == CreditCard
    ensures CreditCards(accounts) != []
    ensures accounts[i].interestRate <= CreditCards(accounts)[0].interestRate
  {
    var cards := Filter(accounts, IsCreditCard);
    var r := CreditCards(accounts);
    FilterMembers(accounts, IsCreditCard, accounts[i]);
    assert accounts[i] in multiset(r);
    var j :| 0 <= j < |r| && r[j] == accounts[i];
  }

  /** Credit cards and other liabilities split the account list between them. */
  lemma {:induction false} Partition(accounts: seq<Account>)
    ensures |CreditCards(accounts)| + |OtherLiabilities(accounts)| == |accounts|
    ensures multiset(CreditCards(accounts)) + multiset(OtherLiabilities(accounts)) == multiset(accounts)
    ensures forall i :: 0 <= i < |OtherLiabilities(accounts)| ==>
              OtherLiabilities(accounts)[i].kind != CreditCard
  {
    FilterSplit(accounts);
  }

  lemma {:induction false} FilterSplit(s: seq<Account>)
    ensures |Filter(s, IsCreditCard)| + |Filter(s, IsOtherLiability)| == |s|
    ensures multiset(Filter(s, IsCreditCard)) + multiset(Filter(s, IsOtherLiability)) == multiset(s)
    ensures SumBy(Filter(s, IsCreditCard), CurrentBalance) + SumBy(Filter(s, IsOtherLiability), CurrentBalance)
         == SumBy(s, CurrentBalance)
  {
    FilterSplitMultiset(s);
    FilterSplitSum(s);
    assert |multiset(Filter(s, IsCreditCard)) + multiset(Filter(s, IsOtherLiability))| == |multiset(s)|;
  }

  lemma {:induction false} FilterSplitMultiset(s: seq<Account>)
    ensures multiset(Filter(s, IsCreditCard)) + multiset(Filter(s, IsOtherLiability)) == multiset(s)
  {
    if s != [] {
      var s', x := s[..|s| - 1], s[|s| - 1];
      assert s == s' + [x];
      FilterSplitMultiset(s');
      FilterLast(s', x, IsCreditCard);
      FilterLast(s', x, IsOtherLiability);
    }
  }

  lemma {:induction false} FilterSplitSum(s: seq<Account>)
    ensures SumBy(Filter(s, IsCreditCard), CurrentBalance) + SumBy(Filter(s, IsOtherLiability), CurrentBalance)
         == SumBy(s, CurrentBalance)
  {
    if s != [] {
      var s', x := s[..|s| - 1], s[|s| - 1];
      assert s == s' + [x];
      FilterSplitSum(s');
      var c', o' := Filter(s', IsCreditCard), Filter(s', IsOtherLiability);
      FilterLast(s', x, IsCreditCard);
      FilterLast(s', x, IsOtherLiability);
      if x.kind == CreditCard {
        assert Filter(s, IsCreditCard) == c' + [x] && Filter(s, IsOtherLiability) == o';
        SumLast(c', x);
      } else {
        assert Filter(s, IsCreditCard) == c' && Filter(s, IsOtherLiability) == o' + [x];
        SumLast(o', x);
      }
    }
  }

  lemma SumLast(s: seq<Account>, x: Account)
    ensures SumBy(s + [x], CurrentBalance) == SumBy(s, CurrentBalance) + CurrentBalance(x)
  {
    assert (s + [x])[..|s|] == s;
  }

  /** Total liabilities is credit-card debt plus the same sum over the other liabilities. */
  lemma LiabilitiesSplit(accounts: seq<Account>)
    ensures TotalLiabilities(accounts)
         == TotalCCDebt(accounts) + SumBy(OtherLiabilities(accounts), CurrentBalance)
  {
    FilterSplit(accounts);
    SumPermutation(CreditCards(accounts), Filter(accounts, IsCreditCard), CurrentBalance);
  }

  /** Debt reduced is the sum of first balances minus the sum of current balances. */
  lemma {:induction false} DebtReducedSplit(accounts: seq<Account>)
    ensures DebtReduced(accounts) == SumBy(accounts, FirstBalance) - TotalLiabilities(accounts)
  {
    if accounts != [] {
      DebtReducedSplit(accounts[..|accounts| - 1]);
    }
  }

  /** The "debt reduced" tile, accumulated by one pass over the accounts. */
  method TotalDebtReduced(accounts: seq<Account>) returns (reduced: real)
    ensures reduced == DebtReduced(accounts)
    ensures reduced == SumBy(accounts, FirstBalance) - TotalLiabilities(accounts)
  {
    var startTotal, currentTotal := 0.0, 0.0;
    var i := 0;
    while i < |accounts|
      invariant 0 <= i <= |accounts|
      invariant startTotal == SumBy(accounts[..i], FirstBalance)
      invariant currentTotal == TotalLiabilities(accounts[..i])
    {
      var acc := accounts[i];
      assert accounts[..i + 1][..i] == accounts[..i];
      if |acc.history| > 0 {
        startTotal := startTotal + acc.history[0].balance;
        currentTotal := currentTotal + acc.history[|acc.history| - 1].balance;
      }
      i := i + 1;
    }
    assert accounts[..i] == accounts;
    reduced := startTotal - currentTotal;
    DebtReducedSplit(accounts);
  }
}
