/** The header's wallet button (src/components/WalletButton.tsx): the shortened address and which button shows. */
module WalletButton {
  import opened Types
  import opened JsString
  import Wallet

  /**
   * `formatAddress`: `address.substring(0, 6)`, then `...`, then `address.substring(address.length - 4)`.
   * A start index below zero is clamped to 0, so an address shorter than four characters is kept whole.
   */
  function FormatAddress(address: string): (shown: string)
    ensures var head, tail := Min(6, |address|), Min(4, |address|);
            && |shown| == head + 3 + tail
            && shown[..head] == address[..head]
            && shown[head..head + 3] == "..."
            && shown[head + 3..] == address[|address| - tail..]
    ensures |address| >= 10 ==> |shown| == 13
  {
    Substring(address, 0, 6) + "..." + SubstringFrom(address, |address| - 4)
  }

  /** An address shorter than four characters appears on both sides of the ellipsis. */
  lemma ShortAddressShownTwice(address: string)
    requires |address| < 4
    ensures FormatAddress(address) == address + "..." + address
  {
  }

  /** Two addresses of ten or more characters look alike exactly when their first six and last four characters agree. */
  lemma FormatAddressKeepsEnds(a: string, b: string)
    requires |a| >= 10 && |b| >= 10
    ensures FormatAddress(a) == FormatAddress(b) <==> a[..6] == b[..6] && a[|a| - 4..] == b[|b| - 4..]
  {
  }

  /** What the button area shows: the shortened address as a disconnect button, or the connect button. */
  datatype ButtonView = DisconnectButton(text: string) | ConnectButton(disabled: bool, text: string)

  /** The component's render choice on its props `connected`, `address` and `isLoading`. */
  function Render(connected: bool, address: Option<string>, isLoading: bool): (view: ButtonView)
    ensures view.DisconnectButton? <==> connected && Truthy(address)
    ensures view.DisconnectButton? ==> view.text == FormatAddress(address.value)
    ensures view.ConnectButton? ==> view.disabled == isLoading
    ensures view.ConnectButton? ==> (view.text == "Connecting..." <==> isLoading)
  {
    if connected && Truthy(address) then DisconnectButton(FormatAddress(address.value))
    else ConnectButton(isLoading, if isLoading then "Connecting..." else "Connect Wallet")
  }

  /** Fed the hook's record, the connect button shows exactly when disconnected or holding an empty account name. */
  lemma HookRecordView(s: WalletState, isLoading: bool)
    requires Wallet.Settled(s)
    ensures Render(s.connected, s.address, isLoading).ConnectButton? <==> !s.connected || s.address == Some("")
  {
  }
}
