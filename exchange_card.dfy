/**
 * The exchange card (src/components/ExchangeCard.tsx): the two amount fields, the swap button and
 * `handleSwap`. Parsed amounts are reals; what the signer and the chain do with a transfer is a
 * scripted outcome; toasts, transfers and balance refreshes are kept as logs.
 */
module Exchange {
  import opened Types
  import opened JsString
  import TokenInput
  import Wallet

  /** The gas limit every swap transfer carries. */
  const SwapGasLimit: nat := 200000
  /** The ethers error code of a transaction the user declined to sign. */
  const ActionRejected: string := "ACTION_REJECTED"

  const ConnectFirstMessage: string := "Please connect your wallet and enter an amount"
  const InvalidAmountMessage: string := "Please enter a valid amount"
  const SubmittedMessage: string := "Transaction submitted. Waiting for confirmation..."
  const CompletedMessage: string := "Exchange completed successfully!"
  const FailedMessage: string := "Transaction failed. Please try again."
  const RejectedMessage: string := "Transaction was rejected by user"
  const SwapFallbackMessage: string := "Failed to complete exchange"

  function InsufficientBalanceMessage(currency: string): string
  {
    "Insufficient " + currency + " balance"
  }

  function GasMessage(currency: string): string
  {
    "Insufficient " + currency + " for transaction (including gas fees)"
  }

  /** The verdict of the guards of `handleSwap`. */
  datatype Check = Proceed | Reject(message: string)

  /**
   * The guards of `handleSwap`, first failure wins; `amount` and `balance` stand for `parseFloat` of the
   * typed amount and of the native balance text, `currency` for the network's currency symbol.
   */
  function ValidateSwap(wallet: WalletState, fromAmount: string, amount: real, balance: real, currency: string): (c: Check)
    ensures c.Proceed? <==> wallet.connected && wallet.signer.Some? && fromAmount != "" && 0.0 < amount <= balance
    ensures !(wallet.connected && wallet.signer.Some? && fromAmount != "") ==> c == Reject(ConnectFirstMessage)
    ensures wallet.connected && wallet.signer.Some? && fromAmount != "" && amount <= 0.0 ==>
              c == Reject(InvalidAmountMessage)
    ensures wallet.connected && wallet.signer.Some? && fromAmount != "" && 0.0 < amount && balance < amount ==>
              c == Reject(InsufficientBalanceMessage(currency))
  {
    if !wallet.connected || wallet.signer.None? || fromAmount == "" then Reject(ConnectFirstMessage)
    else if amount <= 0.0 then Reject(InvalidAmountMessage)
    else if amount > balance then Reject(InsufficientBalanceMessage(currency))
    else Proceed
  }

  /** The `catch` of `handleSwap`: a declined signature, then a gas shortfall named in the message, then the message itself. */
  function ClassifySwapError(e: ProviderError, currency: string): (message: string)
    ensures e.code == StringCode(ActionRejected) ==> message == RejectedMessage
    ensures e.code != StringCode(ActionRejected) && (exists i :: OccursAt(e.message, "insufficient funds", i)) ==>
              message == GasMessage(currency)
    ensures e.code != StringCode(ActionRejected) && !(exists i :: OccursAt(e.message, "insufficient funds", i)) ==>
              message == MessageOr(e, SwapFallbackMessage)
    ensures message != ""
  {
    IncludesIffOccurs(e.message, "insufficient funds");
    if e.code == StringCode(ActionRejected) then RejectedMessage
    else if e.message != "" && Includes(e.message, "insufficient funds") then GasMessage(currency)
    else MessageOr(e, SwapFallbackMessage)
  }

  datatype Toast = ErrorToast(text: string) | InfoToast(text: string) | SuccessToast(text: string)

  /** `ethers.utils.parseEther(text)`: the amount in wei, left symbolic. */
  datatype Wei = ParseEther(decimal: string)

  /** What `signer.sendTransaction` is given. */
  datatype TxRequest = TxRequest(to: string, value: Wei, gasLimit: nat)

  /** What happens to a transfer once the guards pass. */
  datatype SendOutcome =
    | NotSent(error: ProviderError)     // parseEther or sendTransaction threw: no transfer was submitted
    | Mined(status: int)                // tx.wait() resolved with a receipt of this status
    | WaitFailed(error: ProviderError)  // submitted, then tx.wait() threw

  /** What one press of the swap button leaves behind. */
  datatype SwapEffect = SwapEffect(toasts: seq<Toast>, transfers: seq<TxRequest>, refetched: seq<TokenInfo>, clearsInputs: bool)

  /** `handleSwap` as a function of its inputs; `target` stands for `SWAP_TARGET_CONTRACT_ADDRESS`. */
  function Swap(wallet: WalletState, fromAmount: string, amount: real, balance: real, outcome: SendOutcome,
                currency: string, target: string): (e: SwapEffect)
    ensures |e.transfers| > 0 ==>
              wallet.connected && wallet.signer.Some? && fromAmount != "" && 0.0 < amount <= balance
    ensures ValidateSwap(wallet, fromAmount, amount, balance, currency).Proceed? && !outcome.NotSent? ==>
              e.transfers == [TxRequest(target, ParseEther(fromAmount), SwapGasLimit)]
    ensures outcome.NotSent? ==> e.transfers == []
    ensures e.clearsInputs <==>
              ValidateSwap(wallet, fromAmount, amount, balance, currency).Proceed? && outcome == Mined(1)
    ensures e.refetched == (if e.clearsInputs then [Bnb, Saigo] else [])
    ensures |e.toasts| > 0 && !e.toasts[|e.toasts| - 1].InfoToast?
    ensures SuccessToast(CompletedMessage) in e.toasts <==> e.clearsInputs
    ensures ValidateSwap(wallet, fromAmount, amount, balance, currency).Reject? ==>
              e.toasts == [ErrorToast(ValidateSwap(wallet, fromAmount, amount, balance, currency).message)]
    ensures ValidateSwap(wallet, fromAmount, amount, balance, currency).Proceed? && outcome == Mined(1) ==>
              e.toasts == [InfoToast(SubmittedMessage), SuccessToast(CompletedMessage)]
    ensures ValidateSwap(wallet, fromAmount, amount, balance, currency).Proceed? && outcome.Mined? && outcome.status != 1 ==>
              e.toasts == [InfoToast(SubmittedMessage), ErrorToast(FailedMessage)]
    ensures ValidateSwap(wallet, fromAmount, amount, balance, currency).Proceed? && outcome.NotSent? ==>
              e.toasts == [ErrorToast(ClassifySwapError(outcome.error, currency))]
    ensures ValidateSwap(wallet, fromAmount, amount, balance, currency).Proceed? && outcome.WaitFailed? ==>
              e.toasts == [InfoToast(SubmittedMessage), ErrorToast(ClassifySwapError(outcome.error, currency))]
  {
    match ValidateSwap(wallet, fromAmount, amount, balance, currency)
    case Reject(m) => SwapEffect([ErrorToast(m)], [], [], false)
    case Proceed =>
      var tx := TxRequest(target, ParseEther(fromAmount), SwapGasLimit);
      match outcome
      case NotSent(err) => SwapEffect([ErrorToast(ClassifySwapError(err, currency))], [], [], false)
      case Mined(status) =>
        if status == 1 then SwapEffect([InfoToast(SubmittedMessage), SuccessToast(CompletedMessage)], [tx], [Bnb, Saigo], true)
        else SwapEffect([InfoToast(SubmittedMessage), ErrorToast(FailedMessage)], [tx], [], false)
      case WaitFailed(err) =>
        SwapEffect([InfoToast(SubmittedMessage), ErrorToast(ClassifySwapError(err, currency))], [tx], [], false)
  }

  /**
   * The effect on `fromAmount`: `toAmount` becomes `rendered`, the text of `parseFloat(fromAmount) * EXCHANGE_RATE`
   * (a JavaScript number's text is never empty), or empty for an empty amount.
   */
  function ToAmountFor(fromAmount: string, rendered: string): (toAmount: string)
    requires rendered != ""
    ensures toAmount == "" <==> fromAmount == ""
  {
    if fromAmount != "" then rendered else ""
  }

  /** The swap button's `disabled` prop. */
  function SwapButtonDisabled(connected: bool, isSwapping: bool, fromAmount: string): (disabled: bool)
    ensures !disabled ==> connected && fromAmount != ""
    ensures isSwapping ==> disabled
  {
    !connected || isSwapping || fromAmount == ""
  }

  function SwapActionLabel(currency: string): string
  {
    "Swap " + currency + " for SAIGO"
  }

  /** The swap button's label, first matching case wins. */
  function SwapButtonLabel(connected: bool, isSwapping: bool, fromAmount: string, currency: string): (caption: string)
    ensures isSwapping ==> caption == "Swapping..."
    ensures !isSwapping && !connected ==> caption == "Connect Wallet to Swap"
    ensures !isSwapping && connected && fromAmount == "" ==> caption == "Enter an amount"
    ensures !isSwapping && connected && fromAmount != "" ==> caption == SwapActionLabel(currency)
  {
    if isSwapping then "Swapping..."
    else if !connected then "Connect Wallet to Swap"
    else if fromAmount == "" then "Enter an amount"
    else SwapActionLabel(currency)
  }

  /** The button is enabled exactly when it offers the swap itself. */
  lemma EnabledExactlyWithSwapLabel(connected: bool, isSwapping: bool, fromAmount: string, currency: string)
    ensures !SwapButtonDisabled(connected, isSwapping, fromAmount) <==>
              SwapButtonLabel(connected, isSwapping, fromAmount, currency) == SwapActionLabel(currency)
  {
    var action := SwapActionLabel(currency);
    assert action[0] == 'S' && action[4] == ' ';
    assert "Swapping..."[4] == 'p';
  }

  /** A press on the enabled button with the hook's record passes the first guard: only the amount can be refused. */
  lemma EnabledButtonPassesFirstGuard(wallet: WalletState, isSwapping: bool, fromAmount: string,
                                      amount: real, balance: real, currency: string)
    requires Wallet.Settled(wallet)
    requires !SwapButtonDisabled(wallet.connected, isSwapping, fromAmount)
    ensures ValidateSwap(wallet, fromAmount, amount, balance, currency) in
              {Proceed, Reject(InvalidAmountMessage), Reject(InsufficientBalanceMessage(currency))}
  {
  }

  /** The card's state; `swapTarget` and `nativeCurrency` are constants of the network configuration. */
  class ExchangeCard {
    /** `SWAP_TARGET_CONTRACT_ADDRESS` */
    const swapTarget: string
    /** `getCurrentNetworkCurrency()` */
    const nativeCurrency: string

    var fromAmount: string
    var toAmount: string
    var isSwapping: bool
    /** Toasts shown, transfers submitted (accepted by `sendTransaction`), balances refreshed: in order. */
    var toasts: seq<Toast>
    var sent: seq<TxRequest>
    var refetched: seq<TokenInfo>

    /** The quoted amount is empty exactly when the typed amount is. */
    ghost predicate Valid()
      reads this
    {
      (toAmount == "") == (fromAmount == "")
    }

    constructor (swapTarget: string, nativeCurrency: string)
      ensures Valid()
      ensures this.swapTarget == swapTarget && this.nativeCurrency == nativeCurrency
      ensures fromAmount == "" && toAmount == "" && !isSwapping
      ensures toasts == [] && sent == [] && refetched == []
    {
      this.swapTarget := swapTarget;
      this.nativeCurrency := nativeCurrency;
      fromAmount := "";
      toAmount := "";
      isSwapping := false;
      toasts := [];
      sent := [];
      refetched := [];
    }

    /** Sets `fromAmount` and, when it changed, runs the effect that recomputes `toAmount`. */
    method SetFromAmount(value: string, rendered: string)
      requires Valid()
      requires rendered != ""
      modifies this
      ensures Valid()
      ensures fromAmount == value
      ensures toAmount == (if value != old(fromAmount) then ToAmountFor(value, rendered) else old(toAmount))
      ensures isSwapping == old(isSwapping) && toasts == old(toasts) && sent == old(sent) && refetched == old(refetched)
    {
      var changed := value != fromAmount;
      fromAmount := value;
      if changed {
        toAmount := ToAmountFor(value, rendered);
      }
    }

    /** An edit of the amount field: forwarded by the field's filter, or dropped with nothing changed. */
    method EditAmount(value: string, rendered: string)
      requires Valid()
      requires rendered != ""
      modifies this
      ensures Valid()
      ensures TokenInput.HandleChange(value).None? ==> unchanged(this)
      ensures TokenInput.HandleChange(value).Some? ==>
                && fromAmount == value
                && toAmount == (if value != old(fromAmount) then ToAmountFor(value, rendered) else old(toAmount))
                && isSwapping == old(isSwapping) && toasts == old(toasts) && sent == old(sent) && refetched == old(refetched)
    {
      var forwarded := TokenInput.HandleChange(value);
      if forwarded.Some? {
        SetFromAmount(forwarded.value, rendered);
      }
    }

    /** MAX on the amount field: the native balance text, unfiltered, when it is truthy. */
    method ClickMax(balance: Option<string>, rendered: string)
      requires Valid()
      requires rendered != ""
      modifies this
      ensures Valid()
      ensures !Truthy(balance) ==> unchanged(this)
      ensures Truthy(balance) ==>
                && fromAmount == balance.value
                && toAmount == (if balance.value != old(fromAmount) then ToAmountFor(balance.value, rendered) else old(toAmount))
                && isSwapping == old(isSwapping) && toasts == old(toasts) && sent == old(sent) && refetched == old(refetched)
    {
      var forwarded := TokenInput.HandleMaxClick(balance);
      if forwarded.Some? {
        SetFromAmount(forwarded.value, rendered);
      }
    }

    /**
     * `handleSwap`: the three guards, then the transfer and its outcome. `isSwapping` is raised only
     * once the guards pass and is down again whatever the outcome.
     */
    method HandleSwap(wallet: WalletState, amount: real, balance: real, outcome: SendOutcome)
      requires Valid()
      modifies this
      ensures Valid()
      ensures var e := Swap(wallet, old(fromAmount), amount, balance, outcome, nativeCurrency, swapTarget);
              && toasts == old(toasts) + e.toasts
              && sent == old(sent) + e.transfers
              && refetched == old(refetched) + e.refetched
              && fromAmount == (if e.clearsInputs then "" else old(fromAmount))
              && toAmount == (if e.clearsInputs then "" else old(toAmount))
      ensures isSwapping ==
                (if ValidateSwap(wallet, old(fromAmount), amount, balance, nativeCurrency).Proceed? then false
                 else old(isSwapping))
    {
      if !wallet.connected || wallet.signer.None? || fromAmount == "" {
        toasts := toasts + [ErrorToast(ConnectFirstMessage)];
        return;
      }
      if amount <= 0.0 {
        toasts := toasts + [ErrorToast(InvalidAmountMessage)];
        return;
      }
      if amount > balance {
        toasts := toasts + [ErrorToast(InsufficientBalanceMessage(nativeCurrency))];
        return;
      }
      isSwapping := true;
      var amountInWei := ParseEther(fromAmount);
      match outcome {
        case NotSent(err) =>
          toasts := toasts + [ErrorToast(ClassifySwapError(err, nativeCurrency))];
        case Mined(status) =>
          sent := sent + [TxRequest(swapTarget, amountInWei, SwapGasLimit)];
          toasts := toasts + [InfoToast(SubmittedMessage)];
          if status == 1 {
            toasts := toasts + [SuccessToast(CompletedMessage)];
            refetched := refetched + [Bnb];
            refetched := refetched + [Saigo];
            fromAmount := "";
            toAmount := "";
          } else {
            toasts := toasts + [ErrorToast(FailedMessage)];
          }
        case WaitFailed(err) =>
          sent := sent + [TxRequest(swapTarget, amountInWei, SwapGasLimit)];
          toasts := toasts + [InfoToast(SubmittedMessage)];
          toasts := toasts + [ErrorToast(ClassifySwapError(err, nativeCurrency))];
      }
      isSwapping := false;
    }
  }
}
