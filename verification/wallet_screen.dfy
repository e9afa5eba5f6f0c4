/**
 * The payout logic of the wallet screen (src/screens/wallet/WalletScreen.tsx):
 * the guard chain run before a withdrawal is requested, and when the
 * withdraw button is enabled. Amounts are in paise.
 */
module WalletScreen {
  import opened Wrappers

  const PaisePerRupee: int := 100

  /** The smallest withdrawal, 100 rupees. */
  const MinimumPayout: int := 100 * PaisePerRupee

  /** The outcome of pressing "Request Payout": one alert, or the dispatch of `requestPayout`. */
  datatype PayoutOutcome = InvalidAmount | InsufficientBalance | MinimumAmount | Dispatch(amount: int)

  /**
   * `handleRequestPayout`'s guards, first failing guard wins: an amount that
   * did not parse (`None`, JavaScript's NaN), zero or negative is invalid;
   * then one above the balance is refused; then one below the minimum.
   */
  function CheckPayout(amount: Option<int>, balance: int): (r: PayoutOutcome)
    ensures r == InvalidAmount <==> amount.None? || amount.value <= 0
    ensures r == InsufficientBalance <==> amount.Some? && amount.value > 0 && amount.value > balance
    ensures r == MinimumAmount <==> amount.Some? && 0 < amount.value <= balance && amount.value < MinimumPayout
    ensures r.Dispatch? <==> amount.Some? && MinimumPayout <= amount.value <= balance
    ensures r.Dispatch? ==> r.amount == amount.value
  {
    if amount.None? || amount.value <= 0 then InvalidAmount
    else if amount.value > balance then InsufficientBalance
    else if amount.value < MinimumPayout then MinimumAmount
    else Dispatch(amount.value)
  }

  /**
   * The balance check comes before the minimum check: an amount under ₹100
   * that also exceeds the balance (₹50 against ₹20, say) is reported as
   * "insufficient", never as below the minimum.
   */
  lemma BalanceCheckedBeforeMinimum(amount: int, balance: int)
    requires 0 < amount < MinimumPayout && balance < amount
    ensures CheckPayout(Some(amount), balance) == InsufficientBalance
    ensures CheckPayout(Some(amount), balance) != MinimumAmount
  {
  }

  /** `disabled={wallet.balance < 100}` on the withdraw button. */
  function WithdrawDisabled(balance: int): (r: bool)
    ensures !r ==> CheckPayout(Some(balance), balance).Dispatch?
    ensures r ==> CheckPayout(Some(MinimumPayout), balance) == InsufficientBalance
  {
    balance < MinimumPayout
  }

  /** The button is disabled exactly when no amount could get through the guards. */
  lemma WithdrawDisabledIffNothingPasses(balance: int)
    ensures WithdrawDisabled(balance) <==> forall amount: Option<int> :: !CheckPayout(amount, balance).Dispatch?
  {
    if !WithdrawDisabled(balance) {
      assert CheckPayout(Some(balance), balance).Dispatch?;
    }
  }

  /** The screen's own state around a payout: whether the modal is open and the text typed in it. */
  datatype PayoutForm = PayoutForm(showModal: bool, input: string)

  /**
   * After the guards and the dispatch: only a dispatch whose thunk settled
   * without throwing closes the modal and clears the input (a response with
   * `success: false` does not throw). The screen writes no wallet field.
   */
  function PayoutFormAfter(form: PayoutForm, outcome: PayoutOutcome, thunkFulfilled: bool): PayoutForm {
    if outcome.Dispatch? && thunkFulfilled then form.(showModal := false, input := "") else form
  }

  /**
   * The form is closed and cleared only by an amount the guards accept
   * (₹100 up to the balance) whose request settled; any rejected amount,
   * and any request that threw, leaves the form as typed for another try.
   */
  lemma PayoutFormChangesOnlyOnAcceptedAmount(form: PayoutForm, amount: Option<int>, balance: int, thunkFulfilled: bool)
    ensures PayoutFormAfter(form, CheckPayout(amount, balance), thunkFulfilled) != form ==>
              thunkFulfilled && amount.Some? && MinimumPayout <= amount.value <= balance
    ensures thunkFulfilled && amount.Some? && MinimumPayout <= amount.value <= balance ==>
              PayoutFormAfter(form, CheckPayout(amount, balance), thunkFulfilled) == PayoutForm(false, "")
    ensures !(amount.Some? && MinimumPayout <= amount.value <= balance) ==>
              PayoutFormAfter(form, CheckPayout(amount, balance), thunkFulfilled) == form
  {
  }
}
