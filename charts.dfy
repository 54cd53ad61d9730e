// The data behind the three charts (src/components/Charts.tsx): balances
// summed per date over a set of accounts, the per-card sparse points on the
// union of card dates, and the single-account or combined liability series.

module Charts {
  import opened Types
  import opened Seqs
  import opened Sorting
  import opened Views

  /** One point of a single-metric series. */
  datatype Point = Point(date: Date, amount: real)

  /**
   * One point of the per-card chart: for each card name with an entry on
   * exactly `date`, that entry's balance. A name absent from `values` means
   * "no data on this date", not zero.
   */
  datatype CardPoint = CardPoint(date: Date, values: map<string, real>)

  function PointDate(p: Point): int
  {
    p.date
  }

  function PointAmount(p: Point): real
  {
    p.amount
  }

  function CardPointDate(p: CardPoint): int
  {
    p.date
  }

  function DateKey(d: Date): int
  {
    d
  }

  /** The id that selects the combined series instead of one account. */
  const AllAccounts: string := "all"

  /** No value occurs twice in `s`. */
  predicate Distinct(s: seq<Date>)
  {
    forall p, q :: 0 <= p < q < |s| ==> s[p] != s[q]
  }

  /** The dates of the entries of `h`. */
  function HistoryDates(h: seq<BalanceEntry>): set<Date>
  {
    if h == [] then {} else HistoryDates(h[..|h| - 1]) + {h[|h| - 1].date}
  }

  /** Every date on which some account of `accounts` has an entry. */
  function Dates(accounts: seq<Account>): set<Date>
  {
    if accounts == [] then {}
    else Dates(accounts[..|accounts| - 1]) + HistoryDates(accounts[|accounts| - 1].history)
  }

  /** Sum of the balances of the entries of `h` dated exactly `d`. */
  function HistoryAmountOn(h: seq<BalanceEntry>, d: Date): real
  {
    if h == [] then 0.0
    else HistoryAmountOn(h[..|h| - 1], d) + (if h[|h| - 1].date == d then h[|h| - 1].balance else 0.0)
  }

  /** Sum of the balances of all entries of all `accounts` dated exactly `d`. */
  function AmountOn(accounts: seq<Account>, d: Date): real
  {
    if accounts == [] then 0.0
    else AmountOn(accounts[..|accounts| - 1], d) + HistoryAmountOn(accounts[|accounts| - 1].history, d)
  }

  /** Sum of every balance in an account's history. */
  function AccountTotal(a: Account): real
  {
    SumBy(a.history, EntryBalance)
  }

  /** Sum of every balance in every history. */
  function BalanceTotal(accounts: seq<Account>): real
  {
    SumBy(accounts, AccountTotal)
  }

  function SeriesDates(series: seq<Point>): set<Date>
  {
    set p | p in series :: p.date
  }

  /**
   * `series` is the per-date sum over `accounts`: every date with an entry
   * exactly once, in ascending order, each with the sum of the balances
   * dated that day; the amounts add up to every balance of every history.
   */
  ghost predicate SummedByDate(series: seq<Point>, accounts: seq<Account>)
  {
    && StrictlySortedBy(series, PointDate)
    && SeriesDates(series) == Dates(accounts)
    && (forall k :: 0 <= k < |series| ==> series[k].amount == AmountOn(accounts, series[k].date))
    && SumBy(series, PointAmount) == BalanceTotal(accounts)
  }

  /** The value a JavaScript `Map` holds for `d`, read as `get(d) || 0`. */
  function ValueAt(m: map<Date, real>, d: Date): real
  {
    if d in m then m[d] else 0.0
  }

  /** Sum of the values of `keys` in `m`. */
  function SumAt(keys: seq<Date>, m: map<Date, real>): real
  {
    if keys == [] then 0.0 else SumAt(keys[..|keys| - 1], m) + ValueAt(m, keys[|keys| - 1])
  }

  /** `Array.from(map.entries()).map(...)`: the map's entries in key insertion order. */
  function ToPoints(keys: seq<Date>, m: map<Date, real>): (r: seq<Point>)
  {
    seq(|keys|, k requires 0 <= k < |keys| => Point(keys[k], ValueAt(m, keys[k])))
  }

  lemma {:induction false} SumAtOther(keys: seq<Date>, m: map<Date, real>, d: Date, v: real)
    requires d !in keys
    ensures SumAt(keys, m[d := v]) == SumAt(keys, m)
  {
    if keys != [] {
      SumAtOther(keys[..|keys| - 1], m, d, v);
    }
  }

  lemma {:induction false} SumAtBump(keys: seq<Date>, m: map<Date, real>, d: Date, b: real)
    requires Distinct(keys) && d in keys
    ensures SumAt(keys, m[d := ValueAt(m, d) + b]) == SumAt(keys, m) + b
  {
    var n := |keys| - 1;
    var m' := m[d := ValueAt(m, d) + b];
    if keys[n] == d {
      assert d !in keys[..n];
      SumAtOther(keys[..n], m, d, ValueAt(m, d) + b);
    } else {
      assert d in keys[..n];
      SumAtBump(keys[..n], m, d, b);
    }
  }

  lemma {:induction false} SumToPoints(keys: seq<Date>, m: map<Date, real>)
    ensures SumBy(ToPoints(keys, m), PointAmount) == SumAt(keys, m)
  {
    if keys != [] {
      var n := |keys| - 1;
      assert ToPoints(keys, m)[..n] == ToPoints(keys[..n], m);
      SumToPoints(keys[..n], m);
    }
  }

  /** The values occurring in `keys`. */
  function KeySet(keys: seq<Date>): set<Date>
  {
    if keys == [] then {} else KeySet(keys[..|keys| - 1]) + {keys[|keys| - 1]}
  }

  lemma {:induction false} KeySetMembers(keys: seq<Date>, d: Date)
    ensures d in KeySet(keys) <==> d in keys
  {
    if keys != [] {
      KeySetMembers(keys[..|keys| - 1], d);
      assert keys == keys[..|keys| - 1] + [keys[|keys| - 1]];
    }
  }

  /** `keys` lists the keys of `m`, each once (the `Map`'s insertion order). */
  predicate Tracks(keys: seq<Date>, m: map<Date, real>)
  {
    Distinct(keys) && m.Keys == KeySet(keys)
  }

  /**
   * The state of `SumByDate` after all entries of `done` and the entries
   * `seen` of the next account: `m` holds, per date, the sum of the balances
   * seen so far on that date.
   */
  ghost predicate SummedSoFar(keys: seq<Date>, m: map<Date, real>, done: seq<Account>, seen: seq<BalanceEntry>)
  {
    KeysSoFar(keys, m, done, seen) && ValuesSoFar(m, done, seen)
  }

  /** The keys seen so far, in order, and the total of every balance seen so far. */
  ghost predicate KeysSoFar(keys: seq<Date>, m: map<Date, real>, done: seq<Account>, seen: seq<BalanceEntry>)
  {
    && Tracks(keys, m)
    && KeySet(keys) == Dates(done) + HistoryDates(seen)
    && SumAt(keys, m) == BalanceTotal(done) + SumBy(seen, EntryBalance)
  }

  /** Per date, the sum of the balances seen so far on that date. */
  ghost predicate ValuesSoFar(m: map<Date, real>, done: seq<Account>, seen: seq<BalanceEntry>)
  {
    forall d {:trigger ValueAt(m, d)} :: ValueAt(m, d) == AmountOn(done, d) + HistoryAmountOn(seen, d)
  }

  lemma AddNewKey(keys: seq<Date>, m: map<Date, real>, d: Date, v: real)
    requires Tracks(keys, m) && d !in m
    ensures Tracks(keys + [d], m[d := v]) && KeySet(keys + [d]) == KeySet(keys) + {d}
    ensures SumAt(keys + [d], m[d := v]) == SumAt(keys, m) + v
  {
    KeySetMembers(keys, d);
    SumAtOther(keys, m, d, v);
    assert (keys + [d])[..|keys|] == keys;
  }

  lemma AddExistingKey(keys: seq<Date>, m: map<Date, real>, d: Date, b: real)
    requires Tracks(keys, m) && d in m
    ensures Tracks(keys, m[d := m[d] + b])
    ensures SumAt(keys, m[d := m[d] + b]) == SumAt(keys, m) + b
  {
    KeySetMembers(keys, d);
    SumAtBump(keys, m, d, b);
  }

  /** One more entry of a history: how its dates, per-date sums and total grow. */
  lemma HistoryStep(h: seq<BalanceEntry>, j: nat)
    requires j < |h|
    ensures HistoryDates(h[..j + 1]) == HistoryDates(h[..j]) + {h[j].date}
    ensures SumBy(h[..j + 1], EntryBalance) == SumBy(h[..j], EntryBalance) + h[j].balance
    ensures forall d :: HistoryAmountOn(h[..j + 1], d)
                        == HistoryAmountOn(h[..j], d) + (if h[j].date == d then h[j].balance else 0.0)
  {
    assert h[..j + 1][..j] == h[..j];
  }

  /** One step of the inner loop: adding entry `h[j]` to its date's sum. */
  lemma AddEntryStep(keys: seq<Date>, m: map<Date, real>, done: seq<Account>, h: seq<BalanceEntry>, j: nat,
                     keys': seq<Date>, m': map<Date, real>)
    requires j < |h| && SummedSoFar(keys, m, done, h[..j])
    requires keys' == if h[j].date in m then keys else keys + [h[j].date]
    requires m' == m[h[j].date := ValueAt(m, h[j].date) + h[j].balance]
    ensures SummedSoFar(keys', m', done, h[..j + 1])
  {
    HistoryStep(h, j);
    AddEntryKeys(keys, m, done, h, j, keys', m');
    AddEntryValues(m, done, h, j, m');
  }

  lemma AddEntryKeys(keys: seq<Date>, m: map<Date, real>, done: seq<Account>, h: seq<BalanceEntry>, j: nat,
                     keys': seq<Date>, m': map<Date, real>)
    requires j < |h| && KeysSoFar(keys, m, done, h[..j])
    requires HistoryDates(h[..j + 1]) == HistoryDates(h[..j]) + {h[j].date}
    requires SumBy(h[..j + 1], EntryBalance) == SumBy(h[..j], EntryBalance) + h[j].balance
    requires keys' == if h[j].date in m then keys else keys + [h[j].date]
    requires m' == m[h[j].date := ValueAt(m, h[j].date) + h[j].balance]
    ensures KeysSoFar(keys', m', done, h[..j + 1])
  {
    var e := h[j];
    if e.date in m {
      AddExistingKey(keys, m, e.date, e.balance);
    } else {
      AddNewKey(keys, m, e.date, e.balance);
    }
  }

  lemma AddEntryValues(m: map<Date, real>, done: seq<Account>, h: seq<BalanceEntry>, j: nat, m': map<Date, real>)
    requires j < |h| && ValuesSoFar(m, done, h[..j])
    requires forall d :: HistoryAmountOn(h[..j + 1], d)
                        == HistoryAmountOn(h[..j], d) + (if h[j].date == d then h[j].balance else 0.0)
    requires m' == m[h[j].date := ValueAt(m, h[j].date) + h[j].balance]
    ensures ValuesSoFar(m', done, h[..j + 1])
  {
    forall d
      ensures ValueAt(m', d) == AmountOn(done, d) + HistoryAmountOn(h[..j + 1], d)
    {
      assert ValueAt(m, d) == AmountOn(done, d) + HistoryAmountOn(h[..j], d);
    }
  }

  /** The end of the inner loop: account `accounts[i]` is done. */
  lemma AccountDone(keys: seq<Date>, m: map<Date, real>, accounts: seq<Account>, i: nat)
    requires i < |accounts| && SummedSoFar(keys, m, accounts[..i], accounts[i].history)
    ensures SummedSoFar(keys, m, accounts[..i + 1], [])
  {
    var done, done' := accounts[..i], accounts[..i + 1];
    assert done'[..i] == done;
    assert Dates(done') == Dates(done) + HistoryDates(accounts[i].history);
    forall d
      ensures ValueAt(m, d) == AmountOn(done', d)
    {
    }
  }

  lemma SeriesAmounts(keys: seq<Date>, m: map<Date, real>, accounts: seq<Account>)
    requires SummedSoFar(keys, m, accounts, [])
    ensures var series := SortBy(ToPoints(keys, m), PointDate);
      forall k :: 0 <= k < |series| ==>
        series[k].amount == AmountOn(accounts, series[k].date) && series[k].date in Dates(accounts)
  {
    var points := ToPoints(keys, m);
    var series := SortBy(points, PointDate);
    forall k | 0 <= k < |series|
      ensures series[k].amount == AmountOn(accounts, series[k].date) && series[k].date in Dates(accounts)
    {
      assert series[k] in multiset(points);
      var j :| 0 <= j < |points| && points[j] == series[k];
      assert ValueAt(m, keys[j]) == AmountOn(accounts, keys[j]) + HistoryAmountOn([], keys[j]);
      KeySetMembers(keys, keys[j]);
    }
  }

  lemma SeriesCovers(keys: seq<Date>, m: map<Date, real>, accounts: seq<Account>)
    requires SummedSoFar(keys, m, accounts, [])
    ensures Dates(accounts) <= SeriesDates(SortBy(ToPoints(keys, m), PointDate))
  {
    var points := ToPoints(keys, m);
    var series := SortBy(points, PointDate);
    forall d | d in Dates(accounts)
      ensures d in SeriesDates(series)
    {
      KeySetMembers(keys, d);
      var j :| 0 <= j < |keys| && keys[j] == d;
      assert points[j] in multiset(series);
    }
  }

  /** What the two loops of `SumByDate` leave behind yields the summed series. */
  lemma SeriesFromMap(keys: seq<Date>, m: map<Date, real>, accounts: seq<Account>)
    requires SummedSoFar(keys, m, accounts, [])
    ensures SummedByDate(SortBy(ToPoints(keys, m), PointDate), accounts)
  {
    var points := ToPoints(keys, m);
    var series := SortBy(points, PointDate);
    SortByDistinctKeys(points, PointDate);
    SeriesAmounts(keys, m, accounts);
    SeriesCovers(keys, m, accounts);
    SumToPoints(keys, m);
    SumPermutation(series, points, PointAmount);
  }

  /**
   * Sums balances per date across `accounts` into a `Map` filled by two
   * nested loops, then lists its entries sorted by date.
   */
  method SumByDate(accounts: seq<Account>) returns (series: seq<Point>)
    ensures SummedByDate(series, accounts)
  {
    var keys: seq<Date> := [];
    var m: map<Date, real> := map[];
    var i := 0;
    while i < |accounts|
      invariant 0 <= i <= |accounts|
      invariant SummedSoFar(keys, m, accounts[..i], [])
    {
      var h := accounts[i].history;
      var j := 0;
      while j < |h|
        invariant 0 <= j <= |h|
        invariant SummedSoFar(keys, m, accounts[..i], h[..j])
      {
        var entry := h[j];
        ghost var keys0, m0 := keys, m;
        var current := ValueAt(m, entry.date);
        if entry.date !in m {
          keys := keys + [entry.date];
        }
        m := m[entry.date := current + entry.balance];
        AddEntryStep(keys0, m0, accounts[..i], h, j, keys, m);
        j := j + 1;
      }
      assert h[..j] == h;
      AccountDone(keys, m, accounts, i);
      i := i + 1;
    }
    assert accounts[..i] == accounts;
    series := SortBy(ToPoints(keys, m), PointDate);
    SeriesFromMap(keys, m, accounts);
  }

  /** The summed series is determined: two series summing the same accounts by date are equal. */
  lemma SummedByDateUnique(s1: seq<Point>, s2: seq<Point>, accounts: seq<Account>)
    requires SummedByDate(s1, accounts) && SummedByDate(s2, accounts)
    ensures s1 == s2
  {
    SameDatesSameOrder(s1, s2);
    forall k | 0 <= k < |s1|
      ensures s1[k] == s2[k]
    {
      assert s1[k].amount == AmountOn(accounts, s1[k].date);
      assert s2[k].amount == AmountOn(accounts, s2[k].date);
    }
  }

  lemma {:induction false} SameDatesSameOrder(s1: seq<Point>, s2: seq<Point>)
    requires StrictlySortedBy(s1, PointDate) && StrictlySortedBy(s2, PointDate)
    requires SeriesDates(s1) == SeriesDates(s2)
    ensures |s1| == |s2| && forall k :: 0 <= k < |s1| ==> s1[k].date == s2[k].date
    decreases |s1|
  {
    NoDatesNoPoints(s1);
    NoDatesNoPoints(s2);
    if s1 != [] && s2 != [] {
      var n1, n2 := |s1| - 1, |s2| - 1;
      LastDateIsLargest(s1);
      LastDateIsLargest(s2);
      assert s1[n1].date in SeriesDates(s2);
      assert s2[n2].date in SeriesDates(s1);
      assert s1[n1].date == s2[n2].date;
      DropLastDate(s1);
      DropLastDate(s2);
      SameDatesSameOrder(s1[..n1], s2[..n2]);
      forall k | 0 <= k < n1
        ensures s1[k].date == s2[k].date
      {
        assert s1[..n1][k] == s1[k] && s2[..n2][k] == s2[k];
      }
    }
  }

  lemma NoDatesNoPoints(s: seq<Point>)
    ensures SeriesDates(s) == {} <==> s == []
  {
    if s != [] {
      assert s[0].date in SeriesDates(s);
    }
  }

  lemma LastDateIsLargest(s: seq<Point>)
    requires StrictlySortedBy(s, PointDate) && s != []
    ensures forall d :: d in SeriesDates(s) ==> d <= s[|s| - 1].date
  {
    forall d | d in SeriesDates(s)
      ensures d <= s[|s| - 1].date
    {
      var p :| p in s && p.date == d;
      var k :| 0 <= k < |s| && s[k] == p;
      if k < |s| - 1 {
        assert PointDate(s[k]) < PointDate(s[|s| - 1]);
      }
    }
  }

  lemma DropLastDate(s: seq<Point>)
    requires StrictlySortedBy(s, PointDate) && s != []
    ensures StrictlySortedBy(s[..|s| - 1], PointDate)
    ensures SeriesDates(s[..|s| - 1]) == SeriesDates(s) - {s[|s| - 1].date}
  {
    var n := |s| - 1;
    var t := s[..n];
    assert s == t + [s[n]];
    forall d | d in SeriesDates(t)
      ensures d != s[n].date
    {
      var p :| p in t && p.date == d;
      var k :| 0 <= k < n && t[k] == p;
      assert PointDate(s[k]) < PointDate(s[n]);
    }
  }

  /** The "Total Credit Card Debt" chart: balances of credit cards only, summed per date. */
  method CreditCardSeries(accounts: seq<Account>) returns (series: seq<Point>)
    ensures SummedByDate(series, Filter(accounts, IsCreditCard))
  {
    series := SumByDate(Filter(accounts, IsCreditCard));
  }

  /** The first entry of `h` dated exactly `d` (`Array.prototype.find`). */
  function FirstOn(h: seq<BalanceEntry>, d: Date): (r: Option<BalanceEntry>)
    ensures r.None? <==> forall k :: 0 <= k < |h| ==> h[k].date != d
    ensures r.Some? ==> exists k :: 0 <= k < |h| && h[k] == r.value && h[k].date == d &&
                                    forall q :: 0 <= q < k ==> h[q].date != d
  {
    if h == [] then None
    else if h[0].date == d then Some(h[0])
    else
      var r := FirstOn(h[1..], d);
      assert forall k :: 1 <= k < |h| ==> h[k] == h[1..][k - 1];
      r
  }

  /**
   * The values of one per-card point: cards are visited in list order and
   * each card with an entry on exactly `d` sets its name to that entry's
   * balance (a later card with the same name overwrites an earlier one).
   */
  function CardValues(cards: seq<Account>, d: Date): map<string, real>
  {
    if cards == [] then map[]
    else
      var m := CardValues(cards[..|cards| - 1], d);
      match FirstOn(cards[|cards| - 1].history, d)
      case Some(entry) => m[cards[|cards| - 1].name := entry.balance]
      case None => m
  }

  /** Card `a` is called `name` and has an entry on exactly `d`. */
  predicate HasValueOn(a: Account, name: string, d: Date)
  {
    a.name == name && FirstOn(a.history, d).Some?
  }

  /** A point has a value under a name iff some card of that name has an entry on exactly that date. */
  lemma {:induction false} CardValuesMembers(cards: seq<Account>, d: Date, name: string)
    ensures name in CardValues(cards, d) <==> exists c :: 0 <= c < |cards| && HasValueOn(cards[c], name, d)
  {
    if cards != [] {
      var n := |cards| - 1;
      var prefix := cards[..n];
      CardValuesMembers(prefix, d, name);
      CardValuesStep(cards, d, name);
      if name in CardValues(prefix, d) {
        var c :| 0 <= c < n && HasValueOn(prefix[c], name, d);
        assert cards[c] == prefix[c];
      }
      if exists c :: 0 <= c < |cards| && HasValueOn(cards[c], name, d) {
        var c :| 0 <= c < |cards| && HasValueOn(cards[c], name, d);
        if c < n {
          assert prefix[c] == cards[c];
        }
      }
    }
  }

  lemma CardValuesStep(cards: seq<Account>, d: Date, name: string)
    requires cards != []
    ensures name in CardValues(cards, d) <==>
              name in CardValues(cards[..|cards| - 1], d) || HasValueOn(cards[|cards| - 1], name, d)
  {
  }

  /** `cards[c]` is the only card with its name. */
  predicate OnlyWithName(cards: seq<Account>, c: nat)
    requires c < |cards|
  {
    forall k :: 0 <= k < |cards| && k != c ==> cards[k].name != cards[c].name
  }

  /**
   * For a card whose name no other card shares, a point holds a value under
   * that name iff the card has an entry on exactly that date, and the value
   * is the balance of the first such entry. No earlier balance is carried
   * forward to a date the card has no entry on.
   */
  lemma CardValuesAt(cards: seq<Account>, d: Date, c: nat)
    requires c < |cards| && OnlyWithName(cards, c)
    ensures cards[c].name in CardValues(cards, d) <==>
              exists k :: 0 <= k < |cards[c].history| && cards[c].history[k].date == d
    ensures cards[c].name in CardValues(cards, d) ==>
              FirstOn(cards[c].history, d).Some? &&
              CardValues(cards, d)[cards[c].name] == FirstOn(cards[c].history, d).value.balance
  {
    CardValuesFirst(cards, d, c);
  }

  lemma {:induction false} CardValuesFirst(cards: seq<Account>, d: Date, c: nat)
    requires c < |cards| && OnlyWithName(cards, c)
    ensures var m, f := CardValues(cards, d), FirstOn(cards[c].history, d);
      (cards[c].name in m <==> f.Some?) && (f.Some? ==> m[cards[c].name] == f.value.balance)
    decreases |cards|
  {
    var n := |cards| - 1;
    var name := cards[c].name;
    if c == n {
      NameAbsent(cards[..n], d, name);
    } else {
      assert cards[..n][c] == cards[c];
      assert OnlyWithName(cards[..n], c) by {
        forall k | 0 <= k < n && k != c
          ensures cards[..n][k].name != name
        {
          assert cards[..n][k] == cards[k];
        }
      }
      CardValuesFirst(cards[..n], d, c);
      assert cards[n].name != name;
      OtherNameLast(cards, d, name);
    }
  }

  lemma {:induction false} NameAbsent(cards: seq<Account>, d: Date, name: string)
    requires forall k :: 0 <= k < |cards| ==> cards[k].name != name
    ensures name !in CardValues(cards, d)
  {
    if cards != [] {
      var n := |cards| - 1;
      assert forall k :: 0 <= k < n ==> cards[..n][k] == cards[k];
      NameAbsent(cards[..n], d, name);
    }
  }

  lemma OtherNameLast(cards: seq<Account>, d: Date, name: string)
    requires cards != [] && cards[|cards| - 1].name != name
    ensures var m, m' := CardValues(cards, d), CardValues(cards[..|cards| - 1], d);
      (name in m <==> name in m') && (name in m ==> m[name] == m'[name])
  {
  }

  /** One per-card point, filled by a loop over the cards. */
  method PointOn(cards: seq<Account>, d: Date) returns (p: CardPoint)
    ensures p.date == d && p.values == CardValues(cards, d)
  {
    var values: map<string, real> := map[];
    var c := 0;
    while c < |cards|
      invariant 0 <= c <= |cards|
      invariant values == CardValues(cards[..c], d)
    {
      assert cards[..c + 1][..c] == cards[..c];
      var entry := FirstOn(cards[c].history, d);
      if entry.Some? {
        values := values[cards[c].name := entry.value.balance];
      }
      c := c + 1;
    }
    assert cards[..c] == cards;
    p := CardPoint(d, values);
  }

  /** The distinct entry dates of `cards`, collected into a `Set` in first-seen order. */
  method CollectDates(cards: seq<Account>) returns (dates: seq<Date>)
    ensures Distinct(dates)
    ensures forall k :: 0 <= k < |dates| ==> dates[k] in Dates(cards)
    ensures forall d :: d in Dates(cards) ==> d in dates
  {
    dates := [];
    var i := 0;
    while i < |cards|
      invariant 0 <= i <= |cards|
      invariant Distinct(dates)
      invariant forall d :: d in dates <==> d in Dates(cards[..i])
    {
      var h := cards[i].history;
      var j := 0;
      while j < |h|
        invariant 0 <= j <= |h|
        invariant Distinct(dates)
        invariant forall d :: d in dates <==> d in Dates(cards[..i]) + HistoryDates(h[..j])
      {
        assert h[..j + 1][..j] == h[..j];
        if h[j].date !in dates {
          dates := dates + [h[j].date];
        }
        j := j + 1;
      }
      assert h[..j] == h;
      assert cards[..i + 1][..i] == cards[..i];
      i := i + 1;
    }
    assert cards[..i] == cards;
  }

  /**
   * The "Credit Card Breakdown" chart: one point per distinct credit-card
   * entry date, ascending, each holding the card values of that date.
   */
  method CardSeries(accounts: seq<Account>) returns (points: seq<CardPoint>)
    ensures StrictlySortedBy(points, CardPointDate)
    ensures forall k :: 0 <= k < |points| ==> points[k].date in Dates(Filter(accounts, IsCreditCard))
    ensures forall d :: d in Dates(Filter(accounts, IsCreditCard)) ==>
              exists k :: 0 <= k < |points| && points[k].date == d
    ensures forall k :: 0 <= k < |points| ==>
              points[k].values == CardValues(Filter(accounts, IsCreditCard), points[k].date)
  {
    var cards := Filter(accounts, IsCreditCard);
    var dates := CollectDates(cards);
    var sorted := SortBy(dates, DateKey);
    SortByDistinctKeys(dates, DateKey);
    points := PointsOn(cards, sorted);
    CardPointsCover(cards, dates, sorted, points);
  }

  /** `dates.map(...)`: the per-card point of each date, in the order of `dates`. */
  method PointsOn(cards: seq<Account>, dates: seq<Date>) returns (points: seq<CardPoint>)
    ensures |points| == |dates|
    ensures forall q :: 0 <= q < |points| ==> points[q] == CardPoint(dates[q], CardValues(cards, dates[q]))
  {
    points := [];
    var k := 0;
    while k < |dates|
      invariant 0 <= k <= |dates|
      invariant |points| == k
      invariant forall q :: 0 <= q < k ==> points[q] == CardPoint(dates[q], CardValues(cards, dates[q]))
    {
      var p := PointOn(cards, dates[k]);
      points := points + [p];
      k := k + 1;
    }
  }

  lemma CardPointsCover(cards: seq<Account>, dates: seq<Date>, sorted: seq<Date>, points: seq<CardPoint>)
    requires forall k :: 0 <= k < |dates| ==> dates[k] in Dates(cards)
    requires forall d :: d in Dates(cards) ==> d in dates
    requires sorted == SortBy(dates, DateKey) && StrictlySortedBy(sorted, DateKey)
    requires |points| == |sorted|
    requires forall q :: 0 <= q < |points| ==> points[q] == CardPoint(sorted[q], CardValues(cards, sorted[q]))
    ensures StrictlySortedBy(points, CardPointDate)
    ensures forall k :: 0 <= k < |points| ==> points[k].date in Dates(cards)
    ensures forall d :: d in Dates(cards) ==> exists k :: 0 <= k < |points| && points[k].date == d
    ensures forall k :: 0 <= k < |points| ==> points[k].values == CardValues(cards, points[k].date)
  {
    forall i, j | 0 <= i < j < |points|
      ensures CardPointDate(points[i]) < CardPointDate(points[j])
    {
      assert DateKey(sorted[i]) < DateKey(sorted[j]);
    }
    forall q | 0 <= q < |points|
      ensures points[q].date in Dates(cards)
    {
      assert sorted[q] in multiset(dates);
    }
    forall d | d in Dates(cards)
      ensures exists q :: 0 <= q < |points| && points[q].date == d
    {
      assert d in multiset(sorted);
      var q :| 0 <= q < |sorted| && sorted[q] == d;
      assert points[q].date == d;
    }
  }

  /** The first account with id `id` (`Array.prototype.find`). */
  function FindAccount(accounts: seq<Account>, id: string): (r: Option<Account>)
    ensures r.None? <==> forall i :: 0 <= i < |accounts| ==> accounts[i].id != id
    ensures r.Some? ==> exists i :: 0 <= i < |accounts| && accounts[i] == r.value && r.value.id == id &&
                                    forall k :: 0 <= k < i ==> accounts[k].id != id
  {
    if accounts == [] then None
    else if accounts[0].id == id then Some(accounts[0])
    else
      var r := FindAccount(accounts[1..], id);
      assert forall i :: 1 <= i < |accounts| ==> accounts[i] == accounts[1..][i - 1];
      r
  }

  /** An account's history as chart points, in history order. */
  function ToSeries(h: seq<BalanceEntry>): seq<Point>
  {
    seq(|h|, k requires 0 <= k < |h| => Point(h[k].date, h[k].balance))
  }

  /** One account's series: its history as points, sorted by date. */
  function HistorySeries(a: Account): (r: seq<Point>)
    ensures |r| == |a.history|
    ensures multiset(r) == multiset(ToSeries(a.history))
    ensures SortedBy(r, PointDate)
  {
    SortBySorted(ToSeries(a.history), PointDate);
    SortBy(ToSeries(a.history), PointDate)
  }

  /** A history already in date order is charted point for point. */
  lemma HistorySeriesInOrder(a: Account)
    requires SortedBy(a.history, EntryDate)
    ensures forall k :: 0 <= k < |a.history| ==>
      HistorySeries(a)[k] == Point(a.history[k].date, a.history[k].balance)
  {
    var s := ToSeries(a.history);
    assert SortedBy(s, PointDate) by {
      forall i, j | 0 <= i < j < |s|
        ensures PointDate(s[i]) <= PointDate(s[j])
      {
        assert EntryDate(a.history[i]) <= EntryDate(a.history[j]);
      }
    }
    SortBySortedIdentity(s, PointDate);
  }

  /**
   * The "Liabilities" chart: with the `'all'` selection, the per-date sum
   * over every account; otherwise the series of the first account with the
   * selected id, or no points when there is none.
   */
  method LiabilitySeries(accounts: seq<Account>, selected: string) returns (series: seq<Point>)
    ensures selected == AllAccounts ==> SummedByDate(series, accounts)
    ensures selected != AllAccounts && FindAccount(accounts, selected).None? ==> series == []
    ensures selected != AllAccounts && FindAccount(accounts, selected).Some? ==>
              series == HistorySeries(FindAccount(accounts, selected).value)
  {
    if selected != AllAccounts {
      var account := FindAccount(accounts, selected);
      if account.None? {
        return [];
      }
      return HistorySeries(account.value);
    }
    series := SumByDate(accounts);
  }

  lemma {:induction false} DatesOfFilter(accounts: seq<Account>, p: Account -> bool)
    ensures Dates(Filter(accounts, p)) <= Dates(accounts)
  {
    if accounts != [] {
      var n := |accounts| - 1;
      DatesOfFilter(accounts[..n], p);
      var f, x := Filter(accounts[..n], p), accounts[n];
      assert Dates(accounts) == Dates(accounts[..n]) + HistoryDates(x.history);
      if p(x) {
        assert Filter(accounts, p) == f + [x];
        assert (f + [x])[..|f|] == f;
        assert Dates(f + [x]) == Dates(f) + HistoryDates(x.history);
      } else {
        assert Filter(accounts, p) == f;
      }
    }
  }

  /** On every date, the combined amount is the credit-card amount plus the amount of the other liabilities. */
  lemma {:induction false} AmountOnSplit(accounts: seq<Account>, d: Date)
    ensures AmountOn(accounts, d)
         == AmountOn(Filter(accounts, IsCreditCard), d) + AmountOn(Filter(accounts, IsOtherLiability), d)
  {
    if accounts != [] {
      var s', x := accounts[..|accounts| - 1], accounts[|accounts| - 1];
      assert accounts == s' + [x];
      AmountOnSplit(s', d);
      var c', o' := Filter(s', IsCreditCard), Filter(s', IsOtherLiability);
      FilterLast(s', x, IsCreditCard);
      FilterLast(s', x, IsOtherLiability);
      AmountLast(s', x, d);
      if x.kind == CreditCard {
        assert Filter(accounts, IsCreditCard) == c' + [x] && Filter(accounts, IsOtherLiability) == o';
        AmountLast(c', x, d);
      } else {
        assert Filter(accounts, IsCreditCard) == c' && Filter(accounts, IsOtherLiability) == o' + [x];
        AmountLast(o', x, d);
      }
    }
  }

  lemma AmountLast(s: seq<Account>, x: Account, d: Date)
    ensures AmountOn(s + [x], d) == AmountOn(s, d) + HistoryAmountOn(x.history, d)
  {
    assert (s + [x])[..|s|] == s;
  }

  /** Every date of the credit-card series is also a date of the combined series. */
  lemma CardDatesInCombined(accounts: seq<Account>, cc: seq<Point>, all: seq<Point>)
    requires SummedByDate(cc, Filter(accounts, IsCreditCard)) && SummedByDate(all, accounts)
    ensures SeriesDates(cc) <= SeriesDates(all)
  {
    DatesOfFilter(accounts, IsCreditCard);
  }
}
