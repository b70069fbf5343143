/**
  The wallet area of the header: a Connect Wallet button while no account is
  known, otherwise the connected account in abbreviated form.
 */
module ConnectWallet {
  import opened ContractUtils

  datatype WalletPanel = ConnectButton | Connected(abbreviation: string)

  /**
    The component's one conditional: an empty account (falsy) shows the
    button; any other account shows `account.substring(0, 6)`, "...", and
    `account.substring(account.length - 4)`.
   */
  function WalletView(account: string): (panel: WalletPanel)
    ensures panel == ConnectButton <==> account == []
    ensures panel.Connected? ==> |panel.abbreviation| > 0
  {
    if account == [] then ConnectButton
    else
      assert Substring(account, 0, 6) != [];
      Connected(Substring(account, 0, 6) + Ellipsis + SubstringFrom(account, |account| - 4))
  }

  /** The shown abbreviation is the one `formatAddress` produces. */
  lemma WalletViewUsesFormatAddress(account: string)
    requires account != []
    ensures WalletView(account) == Connected(FormatAddress(account))
  {
  }

  /**
    A standard 42-character address is shown as 13 characters: its first
    six, "...", its last four.
   */
  lemma WalletViewOfAddress(account: string)
    requires |account| == 42
    ensures WalletView(account).Connected?
    ensures WalletView(account).abbreviation == account[..6] + Ellipsis + account[38..]
    ensures |WalletView(account).abbreviation| == 13
  {
    WalletViewUsesFormatAddress(account);
    FormatAddressLong(account);
  }
}
