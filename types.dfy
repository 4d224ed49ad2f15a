/** Records shared by the widget's hooks and components (src/types.ts, src/constants.ts). */
module Types {

  datatype Option<T> = None | Some(value: T)

  /** The injected object a wallet call goes to: `window.ethereum` or `window.okxwallet`. */
  datatype Source = Ethereum | OkxWallet

  /** An ethers `Web3Provider` wrapped around an injected object; opaque apart from what it wraps. */
  datatype Provider = Web3Provider(source: Source)

  /** The signer a provider hands out (`provider.getSigner()`). */
  datatype Signer = SignerOf(provider: Provider)

  /** The shape of `WalletState`; `null` is `None`. */
  datatype WalletState = WalletState(
    connected: bool,
    address: Option<string>,
    chainId: Option<int>,
    provider: Option<Provider>,
    signer: Option<Signer>)

  /** The `code` of a thrown error: absent, numeric (wallet-provider errors) or a string (ethers errors). */
  datatype ErrorCode = NoCode | NumCode(n: int) | StringCode(s: string)

  /** A thrown error; an absent `message` is the empty string, which JavaScript also treats as false. */
  datatype ProviderError = ProviderError(code: ErrorCode, message: string)

  /** JavaScript truthiness of an optional string: present and non-empty. */
  predicate Truthy(s: Option<string>)
  {
    s.Some? && s.value != ""
  }

  /** `err.message || fallback` */
  function MessageOr(e: ProviderError, fallback: string): (message: string)
    ensures message in {e.message, fallback}
    ensures message == fallback ==> e.message == "" || e.message == fallback
    ensures message != "" <==> e.message != "" || fallback != ""
  {
    if e.message != "" then e.message else fallback
  }

  /** A `TokenInfo` entry; `address` is absent for the chain's native currency. */
  datatype TokenInfo = TokenInfo(symbol: string, name: string, decimals: nat, address: Option<string>, logoUrl: string)

  const SaigoContractAddress: string := "0x1234567890123456789012345678901234567890"

  /** `TOKENS.BNB` */
  const Bnb: TokenInfo := TokenInfo("BNB", "BNB", 18, None, "https://cryptologos.cc/logos/bnb-bnb-logo.png")

  /** `TOKENS.SAIGO` */
  const Saigo: TokenInfo := TokenInfo(
    "SAIGO", "SAIGO Token", 18, Some(SaigoContractAddress),
    "https://images.unsplash.com/photo-1621416894569-0f39ed31d247?ixlib=rb-1.2.1&auto=format&fit=crop&w=100&q=80")
}
