/**
 * The earnings slice of the store (src/store/slices/earningsSlice.ts): the
 * wallet, the transaction log (most recent first), and the reducers that
 * post earnings and apply backend responses.
 */
module EarningsSlice {
  import opened Wrappers
  import opened Types
  import Lists

  const EmptyWallet: Wallet := Wallet(0, 0, 0, 0)

  /** The wallet after posting one ledger entry, as `addEarning` does. */
  function Posted(w: Wallet, e: Earning): (r: Wallet)
    ensures r.totalEarnings == w.totalEarnings + e.amount
    ensures r.balance + r.cashInHand == w.balance + w.cashInHand + e.amount
    ensures r.pendingAmount == w.pendingAmount
    ensures e.paymentMethod == Cash ==> r.balance == w.balance
    ensures e.paymentMethod != Cash ==> r.cashInHand == w.cashInHand
  {
    var w' := w.(totalEarnings := w.totalEarnings + e.amount);
    if e.paymentMethod == Cash then w'.(cashInHand := w'.cashInHand + e.amount)
    else w'.(balance := w'.balance + e.amount)
  }

  /** The wallet after posting the entries in turn, first to last. */
  function PostedAll(w: Wallet, es: seq<Earning>): Wallet
    decreases |es|
  {
    if es == [] then w else PostedAll(Posted(w, es[0]), es[1..])
  }

  /** The sum of the amounts of a list of ledger entries. */
  function Total(es: seq<Earning>): int {
    if es == [] then 0 else es[0].amount + Total(es[1..])
  }

  predicate IsCash(e: Earning) {
    e.paymentMethod == Cash
  }

  predicate IsNotCash(e: Earning) {
    e.paymentMethod != Cash
  }

  /** Two postings commute on the wallet, whatever their kinds and payment methods. */
  lemma PostingCommutes(w: Wallet, a: Earning, b: Earning)
    ensures Posted(Posted(w, a), b) == Posted(Posted(w, b), a)
  {
  }

  /**
   * Every posting adds its amount to the total and to exactly one of cash in
   * hand and balance, so total minus (balance + cash in hand) never changes.
   */
  lemma PostingKeepsTotalSplit(w: Wallet, e: Earning)
    ensures Posted(w, e).totalEarnings - Posted(w, e).balance - Posted(w, e).cashInHand
         == w.totalEarnings - w.balance - w.cashInHand
    ensures Posted(w, e).pendingAmount == w.pendingAmount
  {
  }

  /**
   * After posting a list of entries the total has grown by their sum, cash in
   * hand by the sum of the cash entries, the balance by the sum of all other
   * entries, and the pending amount is untouched. Penalties are added like
   * every other amount and duplicates are not detected.
   */
  lemma {:induction false} PostedAllSums(w: Wallet, es: seq<Earning>)
    ensures PostedAll(w, es).totalEarnings == w.totalEarnings + Total(es)
    ensures PostedAll(w, es).cashInHand == w.cashInHand + Total(Lists.Filter(es, IsCash))
    ensures PostedAll(w, es).balance == w.balance + Total(Lists.Filter(es, IsNotCash))
    ensures PostedAll(w, es).pendingAmount == w.pendingAmount
    decreases |es|
  {
    if es != [] {
      PostedAllSums(Posted(w, es[0]), es[1..]);
    }
  }

  /** `requestPayout`'s response body. */
  datatype PayoutData = PayoutData(pendingAmount: Option<int>)

  class EarningsState {
    var wallet: Wallet
    var transactions: seq<Earning>
    var isLoading: bool
    var error: Option<string>

    /** `initialState`: an all-zero wallet, no transactions, idle, no error. */
    constructor ()
      ensures wallet == EmptyWallet && transactions == [] && !isLoading && error == None
    {
      wallet := EmptyWallet;
      transactions := [];
      isLoading := false;
      error := None;
    }

    /** `clearError`: forgets the error and nothing else. */
    method ClearError()
      modifies this
      ensures error == None
      ensures wallet == old(wallet) && transactions == old(transactions) && isLoading == old(isLoading)
    {
      error := None;
    }

    /**
     * `addEarning`: puts the entry at the head of the log, adds its amount to
     * the total, and routes it to cash in hand when paid in cash and to the
     * balance otherwise. The pending amount never changes.
     */
    method AddEarning(e: Earning)
      modifies this
      ensures transactions == [e] + old(transactions)
      ensures wallet.totalEarnings == old(wallet.totalEarnings) + e.amount
      ensures e.paymentMethod == Cash ==>
                wallet.cashInHand == old(wallet.cashInHand) + e.amount && wallet.balance == old(wallet.balance)
      ensures e.paymentMethod != Cash ==>
                wallet.balance == old(wallet.balance) + e.amount && wallet.cashInHand == old(wallet.cashInHand)
      ensures wallet.pendingAmount == old(wallet.pendingAmount)
      ensures wallet == Posted(old(wallet), e)
      ensures isLoading == old(isLoading) && error == old(error)
    {
      transactions := [e] + transactions;
      wallet := wallet.(totalEarnings := wallet.totalEarnings + e.amount);
      if e.paymentMethod == Cash {
        wallet := wallet.(cashInHand := wallet.cashInHand + e.amount);
      } else {
        wallet := wallet.(balance := wallet.balance + e.amount);
      }
    }

    /** `fetchWalletData.pending`. */
    method FetchWalletPending()
      modifies this
      ensures isLoading
      ensures wallet == old(wallet) && transactions == old(transactions) && error == old(error)
    {
      isLoading := true;
    }

    /**
     * `fetchWalletData.fulfilled`: stops loading; on success takes the
     * returned wallet, or keeps the old one when none came back.
     */
    method FetchWalletFulfilled(response: ApiResponse<Wallet>)
      modifies this
      ensures !isLoading
      ensures response.success && response.data.Some? ==> wallet == response.data.value
      ensures !response.success || response.data.None? ==> wallet == old(wallet)
      ensures transactions == old(transactions) && error == old(error)
    {
      isLoading := false;
      if response.success {
        wallet := response.data.GetOr(wallet);
      }
    }

    /** `fetchWalletData.rejected`: stops loading and records a non-empty error message. */
    method FetchWalletRejected(message: Option<string>)
      modifies this
      ensures !isLoading
      ensures error == Some(OrElse(message, "Failed to fetch wallet data")) && error.value != ""
      ensures wallet == old(wallet) && transactions == old(transactions)
    {
      isLoading := false;
      error := Some(OrElse(message, "Failed to fetch wallet data"));
    }

    /**
     * `fetchTransactions.fulfilled`: on success the log becomes the returned
     * list, or empty when none came back (unlike the wallet, the old list is
     * not kept). This thunk has no pending or rejected case.
     */
    method FetchTransactionsFulfilled(response: ApiResponse<seq<Earning>>)
      modifies this
      ensures response.success && response.data.Some? ==> transactions == response.data.value
      ensures response.success && response.data.None? ==> transactions == []
      ensures !response.success ==> transactions == old(transactions)
      ensures wallet == old(wallet) && isLoading == old(isLoading) && error == old(error)
    {
      if response.success {
        transactions := response.data.GetOr([]);
      }
    }

    /**
     * `requestPayout.fulfilled`: on success only the pending amount changes,
     * to the returned one when it is present and non-zero. The balance is not
     * reduced.
     */
    method RequestPayoutFulfilled(response: ApiResponse<PayoutData>)
      modifies this
      ensures (response.success && response.data.Some? && response.data.value.pendingAmount.Some?
               && response.data.value.pendingAmount.value != 0)
              ==> wallet == old(wallet).(pendingAmount := response.data.value.pendingAmount.value)
      ensures !(response.success && response.data.Some? && response.data.value.pendingAmount.Some?
                && response.data.value.pendingAmount.value != 0)
              ==> wallet == old(wallet)
      ensures transactions == old(transactions) && isLoading == old(isLoading) && error == old(error)
    {
      if response.success {
        var returned := if response.data.Some? then response.data.value.pendingAmount else None;
        if returned.Some? && returned.value != 0 {
          wallet := wallet.(pendingAmount := returned.value);
        }
      }
    }
  }
}
