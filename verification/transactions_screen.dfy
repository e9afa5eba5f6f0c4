/**
 * The list logic of the transactions screen
 * (src/screens/earnings/TransactionsScreen.tsx): filtering the log by kind
 * and adding up what is shown.
 */
module TransactionsScreen {
  import opened Types
  import Lists
  import EarningsSlice

  /** The selected tab: everything, or one kind of entry. */
  datatype TransactionFilter = All | OnlyKind(kind: EarningKind)

  /** The tabs the screen offers; there is no penalty tab. */
  const FilterTabs: seq<TransactionFilter> := [All, OnlyKind(DeliveryFee), OnlyKind(Tip), OnlyKind(Bonus)]

  function IsKind(k: EarningKind): Earning -> bool {
    (e: Earning) => e.kind == k
  }

  /**
   * `filteredTransactions`: the whole log under "all"; otherwise the entries
   * of the selected kind, all of them and only them, in log order.
   */
  function FilteredTransactions(transactions: seq<Earning>, filter: TransactionFilter): (r: seq<Earning>)
    ensures filter == All ==> r == transactions
    ensures filter.OnlyKind? ==> forall i :: 0 <= i < |r| ==> r[i].kind == filter.kind
    ensures filter.OnlyKind? ==> forall i :: 0 <= i < |transactions| && transactions[i].kind == filter.kind ==>
                                   transactions[i] in r
    ensures filter.OnlyKind? ==> Lists.IsSubsequence(r, transactions)
    ensures filter.OnlyKind? ==> forall e: Earning :: e.kind == filter.kind ==> multiset(r)[e] == multiset(transactions)[e]
  {
    if filter == All then transactions
    else
      Lists.FilterIsSubsequence(transactions, IsKind(filter.kind));
      Lists.FilterCounts(transactions, IsKind(filter.kind));
      Lists.Filter(transactions, IsKind(filter.kind))
  }

  /** What the summary card shows: the total and the number of listed entries. */
  datatype Summary = Summary(totalAmount: int, count: nat)

  /**
   * The summary card: `totalAmount` adds up the amounts of the listed entries
   * (0 for none), and the count is the number of listed entries.
   */
  function SummaryOf(transactions: seq<Earning>, filter: TransactionFilter): (r: Summary)
    ensures r.count == |FilteredTransactions(transactions, filter)|
    ensures r.totalAmount == EarningsSlice.Total(FilteredTransactions(transactions, filter))
    ensures FilteredTransactions(transactions, filter) == [] ==> r.totalAmount == 0
  {
    var shown := FilteredTransactions(transactions, filter);
    Summary(EarningsSlice.Total(shown), |shown|)
  }

  /** Penalties are only ever listed, and counted, under "all". */
  lemma PenaltiesOnlyUnderAll(transactions: seq<Earning>, t: nat)
    requires t < |FilterTabs| && FilterTabs[t] != All
    ensures forall e :: e in FilteredTransactions(transactions, FilterTabs[t]) ==> e.kind != Penalty
  {
  }

  /** The total of a log is the sum of the totals of its four kinds. */
  lemma {:induction false} TotalSplitsByKind(transactions: seq<Earning>)
    ensures EarningsSlice.Total(transactions)
         == EarningsSlice.Total(Lists.Filter(transactions, IsKind(DeliveryFee)))
          + EarningsSlice.Total(Lists.Filter(transactions, IsKind(Tip)))
          + EarningsSlice.Total(Lists.Filter(transactions, IsKind(Bonus)))
          + EarningsSlice.Total(Lists.Filter(transactions, IsKind(Penalty)))
  {
    if transactions != [] {
      TotalSplitsByKind(transactions[1..]);
    }
  }

  /** The amounts with the signs the list displays: penalties are shown with a minus. */
  function SignedTotal(transactions: seq<Earning>): (r: int)
    ensures (forall i :: 0 <= i < |transactions| ==> transactions[i].kind != Penalty) ==>
              r == EarningsSlice.Total(transactions)
  {
    if transactions == [] then 0
    else (if transactions[0].kind == Penalty then -transactions[0].amount else transactions[0].amount)
         + SignedTotal(transactions[1..])
  }

  /**
   * The "all" total adds penalties with a plus sign although the list shows
   * them with a minus: it exceeds the displayed signed sum by twice the
   * penalties.
   */
  lemma {:induction false} AllTotalCountsPenaltiesPositively(transactions: seq<Earning>)
    ensures SummaryOf(transactions, All).totalAmount
         == SignedTotal(transactions) + 2 * EarningsSlice.Total(Lists.Filter(transactions, IsKind(Penalty)))
  {
    if transactions != [] {
      AllTotalCountsPenaltiesPositively(transactions[1..]);
    }
  }
}
