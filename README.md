# SAIGO token-sale widget: a Dafny model of its decision logic

The widget is a browser page. It connects to an injected wallet (MetaMask through `window.ethereum`,
or OKX Wallet through `window.okxwallet`) and lets the user send native currency to a sale address in
exchange for SAIGO tokens. Most of it passes calls through to the wallet and to `ethers`. This project
models the parts that make decisions:

- `wallet.dfy`, module `Wallet`: the `useWallet` hook. The class `WalletHook` holds the hook's state:
  the `WalletState` record, `isLoading`, `error`, and a log of the calls made on the injected provider.
  Its methods are the startup silent check, `connectWallet`, `connectOKXWallet`, `disconnectWallet`
  and the `accountsChanged` listener. The provider's replies are a script: the account list, the chain
  id, the switch-chain reply (or error code) and the add-chain reply. Pure functions give what a
  connect attempt, the silent check and an `accountsChanged` notification produce. Every method keeps
  the invariant `Settled`: the record is either the initial one, or connected with an address, a
  provider and that provider's signer. So `connected` holds exactly when `address` is non-null.
- `exchange_card.dfy`, module `Exchange`: the exchange card. The class `ExchangeCard` holds
  `fromAmount`, `toAmount`, `isSwapping`, and logs of the toasts shown, the transfers submitted
  and the balance refreshes. `HandleSwap` runs the three guards in order, then follows the
  transfer's scripted outcome. Beside it are pure functions: the guards (`ValidateSwap`), the error
  classifier, the effect that recomputes `toAmount`, and the swap button's `disabled` flag and label.
- `token_input.dfy`, module `TokenInput`: the amount field's filter. `/^[0-9]*[.,]?[0-9]*$/.test` is
  modelled as the two-state automaton that decides the pattern, and proved equal to the pattern's
  language. This file also holds the MAX pass-through and when the MAX button is offered.
- `wallet_button.dfy`, module `WalletButton`: `formatAddress`, with JavaScript `substring` clamping,
  and the choice between the disconnect button and the connect button.
- `js_string.dfy`, module `JsString`: `substring` and `includes` as JavaScript defines them.
- `types.dfy`, module `Types`: the `WalletState` shape, thrown errors, and the `TOKENS` entries.

Inputs the code reads from its environment are parameters. These are the presence of the two
injected objects, the user-agent tests `isMobileDevice()` and `isInOKXApp()`, `CURRENT_NETWORK_ID`,
`SWAP_TARGET_CONTRACT_ADDRESS` and the network's currency symbol. They become `const` fields set by
the constructors. `parseFloat` of the typed amount and of the balance are abstract `real` inputs.
`parseEther(fromAmount)` stays symbolic as `ParseEther(fromAmount)`. Provider and signer handles are
the values `Web3Provider(source)` and `SignerOf(provider)`.

Facts about the code that the model keeps as written:

- The code checks no sale window and no min/max contribution before a swap. It checks only:
  connected, signer present and amount non-empty; then amount > 0; then amount <= balance.
- A failed connection attempt sets `error` and leaves `walletState` as it was; it does not reset the
  record to disconnected.
- A non-empty `accountsChanged` while connected replaces the address and also the provider and the
  signer, with new ones built over the wallet that sent the notification. A notification from
  `okxwallet` therefore moves a session opened through `ethereum` onto OKX Wallet.
- A connected record is only guaranteed a non-null address, not a non-empty one. A wallet reporting
  an empty account name gives a connected record that the wallet button shows as disconnected
  (`WalletButton.HookRecordView`).

Also visible in the model: after a successful chain switch, `chainId` records the chain observed
before the switch, not the target chain (`Wallet.ConnectAttempt`).

## Model

| member | source | states |
|---|---|---|
| `Wallet.SettledIsConsistent` | src/hooks/useWallet.ts:6-12 | Every record the hook holds is connected exactly when its address is non-null. |
| `Wallet.ConnectAttempt` | src/hooks/useWallet.ts:94-143 | An attempt connects exactly when it gets a non-empty account list and a chain id, and the chain equals the target, or the switch succeeds, or the switch fails with code 4902 and the add-chain call succeeds. The stored record is `accounts[0]`, the chain id observed before any switch, a provider over the same wallet and its signer. A failure always carries a non-empty message. For an empty account list it is the "No accounts found" text. When `eth_requestAccounts`, `getNetwork`, a switch with a code other than 4902, or the add-chain call after a 4902 throws, it is that error's message, or the wallet's fallback text when the message is empty. The first call is `eth_requestAccounts`. Every call goes to the same wallet. A switch is requested exactly when the observed chain differs from the target. An add-chain is requested exactly when the switch failed with code 4902. |
| `Types.MessageOr` | src/hooks/useWallet.ts:140 | `err.message || fallback` (also at useWallet.ts line 215 and ExchangeCard.tsx line 119). The result is the thrown message or the fallback, and it is the fallback only when the message is empty or is the fallback itself. It is non-empty exactly when one of the two is. |
| `Wallet.SilentCheck` | src/hooks/useWallet.ts:38-52 | The startup check connects exactly when `eth_accounts` answers with a non-empty list. It connects to `accounts[0]` with a null chain id and a provider over the queried wallet. A thrown error connects nothing. |
| `Wallet.OnAccountsChanged` | src/hooks/useWallet.ts:230-244 | The notification keeps `Settled` and `connected == (address != null)`. An empty list gives the initial record whatever came before. A non-empty list while connected keeps the session connected, moves the address to `accounts[0]`, keeps the chain id, and replaces the provider with a new `Web3Provider` over the notifying wallet and the signer with that provider's signer. A non-empty list while disconnected changes nothing. |
| `Wallet.AccountsChangedIdempotent` | src/hooks/useWallet.ts:230-244 | Delivering the same notification twice leaves the same record as delivering it once. |
| `Wallet.WalletHook.constructor` | src/hooks/useWallet.ts:25-28 | The hook starts with the initial record, not loading, no error, and no calls made. |
| `Wallet.WalletHook.CheckProvider` | src/hooks/useWallet.ts:33-76 | At startup only `okxwallet` is queried when it is present, else `ethereum`, else nothing. The record changes only to the silent check's connection. `isLoading` and `error` are untouched. |
| `Wallet.WalletHook.RunAttempt` | src/hooks/useWallet.ts:91-143 | Once a provider is present: on success the record is the attempt's connection and `error` is cleared. On failure the record is unchanged and `error` is the attempt's message. `isLoading` is false afterwards either way. The calls made are appended to the log. |
| `Wallet.WalletHook.ConnectWallet` | src/hooks/useWallet.ts:80-144 | Without `window.ethereum`, only `error` changes, to the mobile or the desktop text. `walletState`, `isLoading` and the call log stay as they were. Otherwise this is a connect attempt through `ethereum`. |
| `Wallet.WalletHook.ConnectOkxWallet` | src/hooks/useWallet.ts:147-219 | Without `window.okxwallet`, a mobile browser outside the OKX app changes nothing in the hook. Elsewhere only `error` changes, to the not-installed text. Otherwise this is a connect attempt through `okxwallet`. |
| `Wallet.WalletHook.DisconnectWallet` | src/hooks/useWallet.ts:221-223 | The record becomes exactly the initial one. `isLoading`, `error` and the call log are untouched. |
| `Wallet.WalletHook.AccountsChanged` | src/hooks/useWallet.ts:226-263 | A notification from an injected wallet applies `OnAccountsChanged` to the current record. A wallet that is not injected has no listener, so nothing changes. |
| `JsString.IncludesIffOccurs` | src/components/ExchangeCard.tsx:116 | The left-to-right `includes` search succeeds exactly when the needle occurs at some index. |
| `TokenInput.IsAmountText` | src/components/TokenInput.tsx:22 | The pattern test holds exactly when the text contains only digits, `.` and `,`, with at most one separator. |
| `TokenInput.AmountTextMatchesPattern` | src/components/TokenInput.tsx:22 | The automaton accepts exactly the language of `^[0-9]*[.,]?[0-9]*$`: digits, then an optional `.` or `,`, then digits. |
| `TokenInput.AcceptedCharacters` | src/components/TokenInput.tsx:22 | The automaton accepts exactly the texts made only of digits, `.` and `,`, with at most one separator (none after the separator has been seen). |
| `TokenInput.AcceptedPrefix` | src/components/TokenInput.tsx:22 | Every prefix of an accepted text is accepted. |
| `TokenInput.HandleChange` | src/components/TokenInput.tsx:19-25 | An edit is forwarded exactly when it matches the pattern, and it is forwarded unaltered. A rejected edit forwards nothing. |
| `TokenInput.ForwardedCharacters` | src/components/TokenInput.tsx:22 | A text is forwarded exactly when it contains only digits, `.` and `,` with at most one separator. |
| `TokenInput.ClearingForwarded` | src/components/TokenInput.tsx:22 | The empty text is forwarded, so the field can always be cleared. |
| `TokenInput.ForwardedPrefix` | src/components/TokenInput.tsx:19-25 | Deleting trailing characters from a forwarded text gives a text that is forwarded too. |
| `TokenInput.HandleMaxClick` | src/components/TokenInput.tsx:27-31 | MAX forwards the balance text verbatim, and unfiltered, exactly when it is present and non-empty. Otherwise it does nothing. |
| `TokenInput.ShowsMaxButton` | src/components/TokenInput.tsx:44-56 | The MAX button is offered exactly when MAX would forward the balance and the field is editable. When offered, it forwards the balance. |
| `WalletButton.FormatAddress` | src/components/WalletButton.tsx:19-21 | The result is the first `min(6, n)` characters of the address, then `...`, then its last `min(4, n)` characters, where `n` is the address length. So its length is `min(6, n) + 3 + min(4, n)`, which is 13 when `n >= 10`. |
| `WalletButton.ShortAddressShownTwice` | src/components/WalletButton.tsx:20 | An address shorter than 4 characters is shown whole on both sides of `...`, because the negative start index is clamped to 0. |
| `WalletButton.FormatAddressKeepsEnds` | src/components/WalletButton.tsx:20 | Two addresses of at least 10 characters are shown alike exactly when their first 6 and last 4 characters agree. |
| `WalletButton.Render` | src/components/WalletButton.tsx:25-50 | The disconnect button appears exactly when `connected` holds and the address is non-null and non-empty, and it shows the shortened address. Otherwise the connect button appears. It is disabled exactly when loading, and then it reads "Connecting...". |
| `WalletButton.HookRecordView` | src/components/WalletButton.tsx:25-27 | Given a record the hook holds, the connect button shows exactly when the record is disconnected or its address is the empty string. |
| `Exchange.ValidateSwap` | src/components/ExchangeCard.tsx:64-77 | The swap proceeds exactly when the wallet is connected, a signer is present, the amount is non-empty and 0 < amount <= balance. Otherwise the first failing guard names the message: connect first, then invalid amount, then insufficient balance. |
| `Exchange.ClassifySwapError` | src/components/ExchangeCard.tsx:110-120 | The checks apply in priority order. Code `ACTION_REJECTED` gives the rejected message. Otherwise a message containing "insufficient funds" gives the gas message. Otherwise the result is the raw message, or the fallback when it is empty. The result is never empty. |
| `Exchange.Swap` | src/components/ExchangeCard.tsx:63-124 | A transfer is made only when every guard holds. It goes to the swap target with value `parseEther(fromAmount)` and gas limit 200000, and none is made when sending throws. Inputs are cleared, and both balances refetched, exactly when the guards pass and the receipt status is 1. A success toast appears exactly then. Every press ends with a verdict toast, not an info toast. A refused press shows only the guard's message. Once the guards pass: status 1 shows "submitted" then "completed"; any other status shows "submitted" then "Transaction failed"; an error from `parseEther` or `sendTransaction` shows only `ClassifySwapError` of it; an error from `tx.wait()` shows "submitted" then `ClassifySwapError` of it. |
| `Exchange.ToAmountFor` | src/components/ExchangeCard.tsx:46-53 | `toAmount` is empty exactly when `fromAmount` is empty. |
| `Exchange.SwapButtonDisabled` | src/components/ExchangeCard.tsx:167 | An enabled button implies a connected wallet and a non-empty amount. The button is disabled while a swap is running. |
| `Exchange.SwapButtonLabel` | src/components/ExchangeCard.tsx:169-180 | The label follows the priority order: "Swapping..." while swapping; else "Connect Wallet to Swap" when disconnected; else "Enter an amount" for an empty amount; else "Swap <currency> for SAIGO". |
| `Exchange.EnabledExactlyWithSwapLabel` | src/components/ExchangeCard.tsx:167-180 | The button is enabled (`connected`, not swapping, amount non-empty) exactly when its label is "Swap ... for SAIGO". The labels "Swapping...", "Connect Wallet to Swap" and "Enter an amount" go with a disabled button. |
| `Exchange.EnabledButtonPassesFirstGuard` | src/components/ExchangeCard.tsx:64-67 | A press on the enabled button, with a record the hook holds, passes the first guard: only the amount checks can refuse it. |
| `Exchange.ExchangeCard.constructor` | src/components/ExchangeCard.tsx:23-25 | The card starts with both amounts empty, not swapping, and nothing shown, sent or refetched. |
| `Exchange.ExchangeCard.SetFromAmount` | src/components/ExchangeCard.tsx:46-53 | Setting `fromAmount` recomputes `toAmount` when the value changed. This keeps `toAmount` empty exactly when `fromAmount` is. |
| `Exchange.ExchangeCard.EditAmount` | src/components/ExchangeCard.tsx:133-139 | An edit of the amount field that the filter rejects leaves the card unchanged. An accepted edit sets `fromAmount` to the edited text. |
| `Exchange.ExchangeCard.ClickMax` | src/components/ExchangeCard.tsx:133-139 | MAX sets `fromAmount` to the balance text when it is present and non-empty, and otherwise changes nothing. |
| `Exchange.ExchangeCard.HandleSwap` | src/components/ExchangeCard.tsx:63-124 | The toasts, transfers, refetches and cleared inputs are those `Swap` gives for the current amount. `isSwapping` is untouched when a guard refuses, and false after every outcome of a swap that proceeded. |

## Left out

- Provider and `ethers` I/O are not executed. `request`, `getNetwork`, `sendTransaction` and
  `tx.wait()` are scripted replies. The calls made are kept as logs. Constructing a `Web3Provider`
  is assumed never to throw.
- Handles are values, not objects. Two providers built over the same wallet are equal in the model,
  so object identity and aliasing of providers and signers are not captured.
- `parseEther`, `formatUnits` and `formatEther` are library conversions. They are symbolic, and the
  fetched balances are not modelled: `refetched` records only that a refresh was asked for.
- Exchange.ValidateSwap: amounts are exact reals, so it does not capture `parseFloat` quirks. The
  text `.` passes the field filter but parses to NaN, and NaN passes both comparisons. `1,5` parses
  as 1. In both cases `parseEther` then throws, which the model covers as the `NotSent` outcome.
- Exchange.ToAmountFor: the text of `parseFloat(fromAmount) * EXCHANGE_RATE` is an input, required
  non-empty, because floating-point arithmetic and number formatting are not modelled. The same goes
  for `toFixed(6)`, `toLocaleString` and the fundraising percentage.
- `NotSent` covers both a throwing `parseEther` and a throwing `sendTransaction`. In the second
  case the request did reach the signer, but `sent` logs only transfers `sendTransaction` accepted.
- Hook lifecycles are not modelled: effect registration and removal, the balance and progress
  polling timers, and the page reload on `chainChanged`. The OKX deep-link redirect and its
  `setTimeout` are navigation, so that branch is modelled as leaving the hook unchanged.
- Concurrency is not modelled. Each method runs to completion, so the moments when `isLoading` or
  `isSwapping` is true are not observable. Overlapping connect or swap clicks, and the stale
  `walletState` captured by the accounts listener, are not represented.
- `isMobileDevice()` and `isInOKXApp()` read `navigator`. They are constructor inputs.
- `useTokenBalance`, `useExchangeParams` and `useFundraisingProgress` are request/response wrappers
  and are not part of this model. The min/max bounds `useExchangeParams` fetches are never enforced.
- `App.tsx` and `FundraisingProgress.tsx` are presentation and are not part of this model. The
  definitions of `CURRENT_NETWORK_ID`, `NETWORK_CONFIG`, `SWAP_TARGET_CONTRACT_ADDRESS` and
  `getCurrentNetworkCurrency` are not part of this model either. They are constant parameters here,
  and the switch and add-chain calls carry only the target chain id.
