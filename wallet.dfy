/**
 * The wallet connection hook (src/hooks/useWallet.ts): the connection record, the silent check at
 * startup, the two connect flows, disconnect, and the reaction to an `accountsChanged` notification.
 * The injected provider is a script of replies; what the hook asks of it is kept in a request log.
 */
module Wallet {
  import opened Types

  /** `initialState`: not connected, every other field null. */
  const InitialState: WalletState := WalletState(false, None, None, None, None)

  /** The provider error code for "this chain is not known to the wallet" (EIP-3085 `wallet_addEthereumChain` fallback). */
  const UnrecognizedChainCode: int := 4902

  /** The record's own invariant: connected exactly when an address is held. */
  predicate Consistent(s: WalletState)
  {
    s.connected <==> s.address.Some?
  }

  /** The records the hook ever holds: the initial one, or a connection with an address, a provider and that provider's signer. */
  predicate Settled(s: WalletState)
  {
    || s == InitialState
    || (s.connected && s.address.Some? && s.provider.Some? && s.signer == Some(SignerOf(s.provider.value)))
  }

  lemma SettledIsConsistent(s: WalletState)
    requires Settled(s)
    ensures Consistent(s)
  {
  }

  /** The record a successful connection stores: a fresh provider over `src` and its signer. */
  function ConnectedState(src: Source, address: string, chainId: Option<int>): WalletState
  {
    WalletState(true, Some(address), chainId, Some(Web3Provider(src)), Some(SignerOf(Web3Provider(src))))
  }

  /** The calls the hook makes on an injected provider; the chain parameters are those of the configured target network. */
  datatype Rpc = EthAccounts | EthRequestAccounts | GetNetwork | SwitchChain(chainId: int) | AddChain(chainId: int)

  datatype Request = Request(to: Source, call: Rpc)

  /** A provider call either answers or throws. */
  datatype Reply<T> = Answer(value: T) | Throws(error: ProviderError)

  /** The replies a provider gives, in order, to one connect attempt; a reply the attempt never asks for is ignored. */
  datatype ConnectScript = ConnectScript(
    accounts: Reply<seq<string>>,  // eth_requestAccounts
    network: Reply<int>,           // provider.getNetwork(), its chainId
    switchChain: Reply<()>,        // wallet_switchEthereumChain
    addChain: Reply<()>)           // wallet_addEthereumChain

  datatype Outcome = Connected(state: WalletState) | Failed(message: string)

  /** How a connect attempt ends, and the calls it made, in order. */
  datatype Attempt = Attempt(outcome: Outcome, requests: seq<Request>)

  function NoAccountsMessage(src: Source): string
  {
    match src
    case Ethereum => "No accounts found. Please connect to MetaMask."
    case OkxWallet => "No accounts found. Please connect to OKX Wallet."
  }

  function FallbackMessage(src: Source): string
  {
    match src
    case Ethereum => "Failed to connect wallet"
    case OkxWallet => "Failed to connect OKX wallet"
  }

  const NoWalletMessage: string := "No wallet detected. Please install MetaMask or OKX Wallet."
  const MetaMaskMissingMessage: string := "MetaMask is not installed. Please install MetaMask to continue."
  const OkxMissingMessage: string := "OKX Wallet is not installed. Please install OKX Wallet to continue."

  /** When a connect attempt stores a connection: accounts granted, the network read, and the target chain reached or added. */
  predicate ConnectSucceeds(script: ConnectScript, target: int)
  {
    && script.accounts.Answer? && |script.accounts.value| > 0
    && script.network.Answer?
    && (|| script.network.value == target
        || script.switchChain.Answer?
        || (script.switchChain.error.code == NumCode(UnrecognizedChainCode) && script.addChain.Answer?))
  }

  /**
   * One connect attempt against the provider `src` after the presence check (the `try` block of
   * `connectWallet` and `connectOKXWallet`), with `target` the configured chain id.
   */
  function ConnectAttempt(src: Source, script: ConnectScript, target: int): (a: Attempt)
    ensures a.outcome.Connected? <==> ConnectSucceeds(script, target)
    ensures a.outcome.Connected? ==>
              a.outcome.state == ConnectedState(src, script.accounts.value[0], Some(script.network.value))
    ensures a.outcome.Failed? ==> a.outcome.message != ""
    ensures script.accounts == Answer([]) ==> a.outcome == Failed(NoAccountsMessage(src))
    ensures script.accounts.Throws? ==> a.outcome == Failed(MessageOr(script.accounts.error, FallbackMessage(src)))
    ensures script.accounts.Answer? && |script.accounts.value| > 0 && script.network.Throws? ==>
              a.outcome == Failed(MessageOr(script.network.error, FallbackMessage(src)))
    ensures && script.accounts.Answer? && |script.accounts.value| > 0
            && script.network.Answer? && script.network.value != target
            && script.switchChain.Throws? && script.switchChain.error.code != NumCode(UnrecognizedChainCode) ==>
              a.outcome == Failed(MessageOr(script.switchChain.error, FallbackMessage(src)))
    ensures && script.accounts.Answer? && |script.accounts.value| > 0
            && script.network.Answer? && script.network.value != target
            && script.switchChain.Throws? && script.switchChain.error.code == NumCode(UnrecognizedChainCode)
            && script.addChain.Throws? ==>
              a.outcome == Failed(MessageOr(script.addChain.error, FallbackMessage(src)))
    ensures |a.requests| > 0 && a.requests[0] == Request(src, EthRequestAccounts)
    ensures forall r :: r in a.requests ==> r.to == src
    ensures Request(src, SwitchChain(target)) in a.requests <==>
              && script.accounts.Answer? && |script.accounts.value| > 0
              && script.network.Answer? && script.network.value != target
    ensures Request(src, AddChain(target)) in a.requests <==>
              && Request(src, SwitchChain(target)) in a.requests
              && script.switchChain.Throws? && script.switchChain.error.code == NumCode(UnrecognizedChainCode)
  {
    var fallback := FallbackMessage(src);
    var ask := [Request(src, EthRequestAccounts)];
    match script.accounts
    case Throws(e) => Attempt(Failed(MessageOr(e, fallback)), ask)
    case Answer(accounts) =>
      if |accounts| == 0 then Attempt(Failed(NoAccountsMessage(src)), ask)
      else
        var asked := ask + [Request(src, GetNetwork)];
        match script.network
        case Throws(e) => Attempt(Failed(MessageOr(e, fallback)), asked)
        case Answer(chainId) =>
          var connected := Connected(ConnectedState(src, accounts[0], Some(chainId)));
          if chainId == target then Attempt(connected, asked)
          else
            var switched := asked + [Request(src, SwitchChain(target))];
            match script.switchChain
            case Answer(_) => Attempt(connected, switched)
            case Throws(e) =>
              if e.code == NumCode(UnrecognizedChainCode) then
                var added := switched + [Request(src, AddChain(target))];
                match script.addChain
                case Answer(_) => Attempt(connected, added)
                case Throws(e') => Attempt(Failed(MessageOr(e', fallback)), added)
              else Attempt(Failed(MessageOr(e, fallback)), switched)
  }

  /** The startup silent check against `src`: `eth_accounts` connects, without a chain id, when it lists an account. */
  function SilentCheck(src: Source, reply: Reply<seq<string>>): (found: Option<WalletState>)
    ensures found.Some? <==> reply.Answer? && |reply.value| > 0
    ensures found.Some? ==> Settled(found.value) && found.value.connected && found.value.chainId == None
    ensures found.Some? ==> found.value.address == Some(reply.value[0]) && found.value.provider == Some(Web3Provider(src))
  {
    match reply
    case Answer(accounts) => if |accounts| > 0 then Some(ConnectedState(src, accounts[0], None)) else None
    case Throws(_) => None
  }

  /**
   * `handleAccountsChanged` for a listener on `src`: an empty list disconnects; a non-empty one, while
   * connected, moves the connection to its first account over a new provider; otherwise nothing changes.
   */
  function OnAccountsChanged(s: WalletState, src: Source, accounts: seq<string>): (r: WalletState)
    ensures Settled(s) ==> Settled(r)
    ensures Consistent(s) ==> Consistent(r)
    ensures |accounts| == 0 ==> r == InitialState
    ensures |accounts| > 0 && s.connected ==>
              && r.connected && r.address == Some(accounts[0]) && r.chainId == s.chainId
              && r.provider == Some(Web3Provider(src)) && r.signer == Some(SignerOf(Web3Provider(src)))
    ensures |accounts| > 0 && !s.connected ==> r == s
  {
    if |accounts| == 0 then InitialState
    else if s.connected then
      s.(address := Some(accounts[0]), provider := Some(Web3Provider(src)), signer := Some(SignerOf(Web3Provider(src))))
    else s
  }

  /** Delivering the same notification twice leaves the record as one delivery does. */
  lemma AccountsChangedIdempotent(s: WalletState, src: Source, accounts: seq<string>)
    ensures OnAccountsChanged(OnAccountsChanged(s, src, accounts), src, accounts) == OnAccountsChanged(s, src, accounts)
  {
  }

  /** The hook's state: the connection record, the loading flag and the error text, over a fixed environment. */
  class WalletHook {
    /** `window.ethereum` and `window.okxwallet` are present. */
    const ethereumInjected: bool
    const okxInjected: bool
    /** The user-agent tests `isMobileDevice()` and `isInOKXApp()`. */
    const isMobile: bool
    const inOkxApp: bool
    /** `CURRENT_NETWORK_ID`, the chain the widget works on. */
    const targetChainId: int

    var state: WalletState
    var isLoading: bool
    var error: Option<string>
    /** Every call made on an injected provider so far, in order. */
    var requests: seq<Request>

    ghost predicate Valid()
      reads this
    {
      Settled(state)
    }

    predicate Injected(src: Source)
    {
      match src
      case Ethereum => ethereumInjected
      case OkxWallet => okxInjected
    }

    constructor (ethereumInjected: bool, okxInjected: bool, isMobile: bool, inOkxApp: bool, targetChainId: int)
      ensures Valid()
      ensures this.ethereumInjected == ethereumInjected && this.okxInjected == okxInjected
      ensures this.isMobile == isMobile && this.inOkxApp == inOkxApp && this.targetChainId == targetChainId
      ensures state == InitialState && !isLoading && error == None && requests == []
    {
      this.ethereumInjected := ethereumInjected;
      this.okxInjected := okxInjected;
      this.isMobile := isMobile;
      this.inOkxApp := inOkxApp;
      this.targetChainId := targetChainId;
      state := InitialState;
      isLoading := false;
      error := None;
      requests := [];
    }

    /** `checkProvider` at startup: only `okxwallet` is asked when it is present, else `ethereum`; failures are swallowed. */
    method CheckProvider(reply: Reply<seq<string>>)
      requires Valid()
      modifies this
      ensures Valid()
      ensures okxInjected ==> requests == old(requests) + [Request(OkxWallet, EthAccounts)]
      ensures !okxInjected && ethereumInjected ==> requests == old(requests) + [Request(Ethereum, EthAccounts)]
      ensures !okxInjected && !ethereumInjected ==> requests == old(requests)
      ensures var asked := if okxInjected then Some(OkxWallet) else if ethereumInjected then Some(Ethereum) else None;
              var found := if asked.Some? then SilentCheck(asked.value, reply) else None;
              state == (if found.Some? then found.value else old(state))
      ensures isLoading == old(isLoading) && error == old(error)
    {
      var src: Source;
      if okxInjected {
        src := OkxWallet;
      } else if ethereumInjected {
        src := Ethereum;
      } else {
        return;
      }
      requests := requests + [Request(src, EthAccounts)];
      if reply.Answer? && |reply.value| > 0 {
        state := ConnectedState(src, reply.value[0], None);
      }
    }

    /** The hook's fields after `a` ran: its connection stored or its message shown, and never left loading. */
    twostate predicate Applied(a: Attempt)
      reads this
    {
      && state == (if a.outcome.Connected? then a.outcome.state else old(state))
      && error == (if a.outcome.Connected? then None else Some(a.outcome.message))
      && !isLoading
      && requests == old(requests) + a.requests
    }

    /** The body shared by both connect flows once a provider is present: loading on, error cleared, then the calls. */
    method RunAttempt(src: Source, script: ConnectScript)
      requires Valid()
      modifies this
      ensures Valid()
      ensures Applied(ConnectAttempt(src, script, targetChainId))
    {
      isLoading := true;
      error := None;
      var fallback := FallbackMessage(src);
      var stored := state;
      var failure: Option<string> := None;
      var asked := [Request(src, EthRequestAccounts)];
      match script.accounts {
        case Throws(e) =>
          failure := Some(MessageOr(e, fallback));
        case Answer(accounts) =>
          if |accounts| == 0 {
            failure := Some(NoAccountsMessage(src));
          } else {
            asked := asked + [Request(src, GetNetwork)];
            match script.network {
              case Throws(e) =>
                failure := Some(MessageOr(e, fallback));
              case Answer(chainId) =>
                var connected := ConnectedState(src, accounts[0], Some(chainId));
                if chainId == targetChainId {
                  stored := connected;
                } else {
                  asked := asked + [Request(src, SwitchChain(targetChainId))];
                  match script.switchChain {
                    case Answer(_) =>
                      stored := connected;
                    case Throws(switchError) =>
                      if switchError.code != NumCode(UnrecognizedChainCode) {
                        failure := Some(MessageOr(switchError, fallback));
                      } else {
                        asked := asked + [Request(src, AddChain(targetChainId))];
                        match script.addChain {
                          case Answer(_) =>
                            stored := connected;
                          case Throws(addError) =>
                            failure := Some(MessageOr(addError, fallback));
                        }
                      }
                  }
                }
            }
          }
      }
      requests := requests + asked;
      state := stored;
      error := failure;
      isLoading := false;
    }

    /** `connectWallet`: through `window.ethereum`; without it only the error is set, worded for the device. */
    method ConnectWallet(script: ConnectScript)
      requires Valid()
      modifies this
      ensures Valid()
      ensures !ethereumInjected ==>
                && state == old(state) && isLoading == old(isLoading) && requests == old(requests)
                && error == Some(if isMobile then NoWalletMessage else MetaMaskMissingMessage)
      ensures ethereumInjected ==> Applied(ConnectAttempt(Ethereum, script, targetChainId))
    {
      if !ethereumInjected {
        if isMobile {
          error := Some(NoWalletMessage);
          return;
        }
        error := Some(MetaMaskMissingMessage);
        return;
      }
      RunAttempt(Ethereum, script);
    }

    /**
     * `connectOKXWallet`: through `window.okxwallet`. Without it, a mobile browser outside the OKX app is
     * sent to the app instead, which leaves the hook as it was; elsewhere only the error is set.
     */
    method ConnectOkxWallet(script: ConnectScript)
      requires Valid()
      modifies this
      ensures Valid()
      ensures !okxInjected && isMobile && !inOkxApp ==> unchanged(this)
      ensures !okxInjected && !(isMobile && !inOkxApp) ==>
                && state == old(state) && isLoading == old(isLoading) && requests == old(requests)
                && error == Some(OkxMissingMessage)
      ensures okxInjected ==> Applied(ConnectAttempt(OkxWallet, script, targetChainId))
    {
      if !okxInjected {
        if isMobile && !inOkxApp {
          return;
        }
        error := Some(OkxMissingMessage);
        return;
      }
      RunAttempt(OkxWallet, script);
    }

    /** `disconnectWallet`: back to the initial record; the loading flag and the error stay. */
    method DisconnectWallet()
      requires Valid()
      modifies this
      ensures Valid()
      ensures state == InitialState
      ensures isLoading == old(isLoading) && error == old(error) && requests == old(requests)
    {
      state := InitialState;
    }

    /** An `accountsChanged` notification from `src`; a provider that is not injected has no listener. */
    method AccountsChanged(src: Source, accounts: seq<string>)
      requires Valid()
      modifies this
      ensures Valid()
      ensures state == (if Injected(src) then OnAccountsChanged(old(state), src, accounts) else old(state))
      ensures isLoading == old(isLoading) && error == old(error) && requests == old(requests)
    {
      if Injected(src) {
        state := OnAccountsChanged(state, src, accounts);
      }
    }
  }
}
