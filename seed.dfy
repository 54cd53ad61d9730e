// What the dashboard shows for its seed dataset (src/types.ts): a credit
// card at 24.99% and an auto loan at 5.40%, each with three monthly
// balances from January to March 2023.

module SeedScenario {
  import opened Types
  import opened Seqs
  import opened Sorting
  import opened Views
  import opened Ledger
  import opened Charts

  /** The seed ids are distinct and every seed history is non-empty and strictly ascending by date. */
  lemma SeedWellFormed()
    ensures DistinctIds(InitialAccounts) && Chronological(InitialAccounts)
    ensures forall i :: 0 <= i < |InitialAccounts| ==> InitialAccounts[i].history != []
    ensures forall i :: 0 <= i < |InitialAccounts| ==> StrictlySortedBy(InitialAccounts[i].history, EntryDate)
  {
    assert SortedBy(InitialAccounts[0].history, EntryDate);
    assert SortedBy(InitialAccounts[1].history, EntryDate);
  }

  /** The avalanche list holds only the Chase card; the auto loan is the one other liability. */
  lemma SeedSplit()
    ensures CreditCards(InitialAccounts) == [InitialAccounts[0]]
    ensures OtherLiabilities(InitialAccounts) == [InitialAccounts[1]]
  {
    var a := InitialAccounts;
    assert a[..1] == [a[0]] && a[..1][..0] == [];
    assert Filter(a, IsCreditCard) == [a[0]];
    assert Filter(a, IsOtherLiability) == [a[1]];
  }

  /** The three stat tiles: $28,700 owed, $4,500 of it on cards, $1,300 paid down. */
  lemma SeedTotals()
    ensures TotalLiabilities(InitialAccounts) == 28700.0
    ensures TotalCCDebt(InitialAccounts) == 4500.0
    ensures DebtReduced(InitialAccounts) == 1300.0
  {
    var a := InitialAccounts;
    SeedSplit();
    SumTwo(a, CurrentBalance);
    SumTwo(a, Reduction);
    SumOne([a[0]], CurrentBalance);
  }

  /** The combined liabilities chart for the seed data. */
  const SeedCombined: seq<Point> := [
    Point(20230101, 30000.0),
    Point(20230201, 29400.0),
    Point(20230301, 28700.0)
  ]

  /** The credit-card debt chart for the seed data. */
  const SeedCardDebt: seq<Point> := [
    Point(20230101, 5000.0),
    Point(20230201, 4800.0),
    Point(20230301, 4500.0)
  ]

  /** The "all" selection charts exactly three points, the monthly sums of both accounts. */
  lemma SeedCombinedSeries(series: seq<Point>)
    requires SummedByDate(series, InitialAccounts)
    ensures series == SeedCombined
  {
    SeedCombinedSummed();
    SummedByDateUnique(series, SeedCombined, InitialAccounts);
  }

  /** The credit-card debt chart charts the Chase card's three balances. */
  lemma SeedCardDebtSeries(series: seq<Point>)
    requires SummedByDate(series, Filter(InitialAccounts, IsCreditCard))
    ensures series == SeedCardDebt
  {
    SeedCardDebtSummed();
    SummedByDateUnique(series, SeedCardDebt, Filter(InitialAccounts, IsCreditCard));
  }

  lemma SeedCombinedSummed()
    ensures SummedByDate(SeedCombined, InitialAccounts)
  {
    var a, s := InitialAccounts, SeedCombined;
    TwoAccounts(a);
    HistoryFacts(a[0].history);
    HistoryFacts(a[1].history);
    ThreeDates(s);
    SumThree(s, PointAmount);
    SumThree(a[0].history, EntryBalance);
    SumThree(a[1].history, EntryBalance);
  }

  lemma SeedCardDebtSummed()
    ensures SummedByDate(SeedCardDebt, Filter(InitialAccounts, IsCreditCard))
  {
    var a, s := InitialAccounts, SeedCardDebt;
    SeedSplit();
    OneAccount([a[0]]);
    HistoryFacts(a[0].history);
    ThreeDates(s);
    SumThree(s, PointAmount);
    SumThree(a[0].history, EntryBalance);
  }

  lemma SumOne<T>(s: seq<T>, f: T -> real)
    requires |s| == 1
    ensures SumBy(s, f) == f(s[0])
  {
    assert s[..0] == [];
  }

  lemma SumTwo<T>(s: seq<T>, f: T -> real)
    requires |s| == 2
    ensures SumBy(s, f) == f(s[0]) + f(s[1])
  {
    SumOne(s[..1], f);
  }

  lemma SumThree<T>(s: seq<T>, f: T -> real)
    requires |s| == 3
    ensures SumBy(s, f) == f(s[0]) + f(s[1]) + f(s[2])
  {
    SumTwo(s[..2], f);
  }

  lemma ThreeDates(s: seq<Point>)
    requires |s| == 3
    ensures SeriesDates(s) == {s[0].date, s[1].date, s[2].date}
  {
    assert s[0] in s && s[1] in s && s[2] in s;
  }

  /** Unfolds a three-entry history: its dates and per-date amounts. */
  lemma HistoryFacts(h: seq<BalanceEntry>)
    requires |h| == 3
    ensures HistoryDates(h) == {h[0].date, h[1].date, h[2].date}
    ensures forall d :: HistoryAmountOn(h, d) == EntryOn(h[0], d) + EntryOn(h[1], d) + EntryOn(h[2], d)
  {
    var h2, h1 := h[..2], h[..1];
    assert h2[..1] == h1 && h1[..0] == [];
    assert h1[0] == h[0] && h2[1] == h[1];
    assert HistoryDates(h1) == {h[0].date};
    assert HistoryDates(h2) == {h[0].date, h[1].date};
    forall d
      ensures HistoryAmountOn(h, d) == EntryOn(h[0], d) + EntryOn(h[1], d) + EntryOn(h[2], d)
    {
      assert HistoryAmountOn(h1, d) == EntryOn(h[0], d);
      assert HistoryAmountOn(h2, d) == EntryOn(h[0], d) + EntryOn(h[1], d);
    }
  }

  function EntryOn(e: BalanceEntry, d: Date): real
  {
    if e.date == d then e.balance else 0.0
  }

  /** Unfolds a one-account list. */
  lemma OneAccount(a: seq<Account>)
    requires |a| == 1
    ensures Dates(a) == HistoryDates(a[0].history)
    ensures forall d :: AmountOn(a, d) == HistoryAmountOn(a[0].history, d)
    ensures BalanceTotal(a) == AccountTotal(a[0])
  {
    assert a[..0] == [];
    SumOne(a, AccountTotal);
  }

  /** Unfolds a two-account list. */
  lemma TwoAccounts(a: seq<Account>)
    requires |a| == 2
    ensures Dates(a) == HistoryDates(a[0].history) + HistoryDates(a[1].history)
    ensures forall d :: AmountOn(a, d) == HistoryAmountOn(a[0].history, d) + HistoryAmountOn(a[1].history, d)
    ensures BalanceTotal(a) == AccountTotal(a[0]) + AccountTotal(a[1])
  {
    OneAccount(a[..1]);
    SumTwo(a, AccountTotal);
  }
}
