/**
 * The confirm-transfer page: the wallet and balance state it shows, the guard
 * chain that decides whether a transfer may be sent, the send button's
 * enable predicate, and the transaction record written after a send.
 */
module ConfirmTransfer {
  import opened Wrappers
  import opened Strings
  import opened Session

  /** What the wallet provider reports: connected, which account, and whether it is on Sepolia. */
  datatype WalletStatus = WalletStatus(isConnected: bool, account: Option<string>, isSepolia: bool)

  const Disconnected: WalletStatus := WalletStatus(false, None, false)

  /** The numeric values of the page's ETH and USDT balance texts. */
  datatype Balances = Balances(eth: real, usdt: real)

  const ZeroBalances: Balances := Balances(0.0, 0.0)

  /** Why handleTransfer refuses to send. */
  datatype Refusal = NotConnected | WrongNetwork | InsufficientUsdt | InsufficientEth

  /** The toast for each refusal (the balance toasts also quote both numbers, which this model does not render). */
  function RefusalMessage(r: Refusal): string
  {
    match r
    case NotConnected => "Please connect your wallet first"
    case WrongNetwork => "Please switch to Sepolia network"
    case InsufficientUsdt => "Insufficient USDT balance."
    case InsufficientEth => "Insufficient ETH balance."
  }

  /** The balance held in the asset being sent covers the amount; assets other than USDT and ETH are not checked. */
  predicate BalanceCovers(currency: string, cryptoAmount: real, balances: Balances)
  {
    (currency == "USDT" ==> balances.usdt >= cryptoAmount) &&
    (currency == "ETH" ==> balances.eth >= cryptoAmount)
  }

  /**
   * The guard chain at the start of handleTransfer, in its order: connected,
   * then on Sepolia, then enough balance of the chosen asset.
   */
  function TransferRefusal(wallet: WalletStatus, currency: string, cryptoAmount: real, balances: Balances)
    : (r: Option<Refusal>)
    ensures !wallet.isConnected ==> r == Some(NotConnected)
    ensures wallet.isConnected && !wallet.isSepolia ==> r == Some(WrongNetwork)
    ensures r == Some(InsufficientUsdt) <==>
              wallet.isConnected && wallet.isSepolia && currency == "USDT" && balances.usdt < cryptoAmount
    ensures r == Some(InsufficientEth) <==>
              wallet.isConnected && wallet.isSepolia && currency == "ETH" && balances.eth < cryptoAmount
    ensures r.None? <==> wallet.isConnected && wallet.isSepolia && BalanceCovers(currency, cryptoAmount, balances)
  {
    if !wallet.isConnected then Some(NotConnected)
    else if !wallet.isSepolia then Some(WrongNetwork)
    else if currency == "USDT" then
      (if balances.usdt < cryptoAmount then Some(InsufficientUsdt) else None)
    else if currency == "ETH" then
      (if balances.eth < cryptoAmount then Some(InsufficientEth) else None)
    else None
  }

  /**
   * The `disabled` expression of the send button. The button and the handler
   * agree: it is enabled exactly when no transfer is in flight and every guard
   * of handleTransfer passes, so an enabled button never leads to a refusal.
   */
  predicate SendDisabled(wallet: WalletStatus, isTransferring: bool, currency: string,
                         balances: Balances, convertedAmount: real)
    ensures SendDisabled(wallet, isTransferring, currency, balances, convertedAmount) <==>
              isTransferring || TransferRefusal(wallet, currency, convertedAmount, balances).Some?
  {
    !wallet.isConnected || !wallet.isSepolia || isTransferring ||
    (currency == "USDT" && balances.usdt < convertedAmount) ||
    (currency == "ETH" && balances.eth < convertedAmount)
  }

  /** An asset other than USDT or ETH skips the balance check whatever the balances. */
  lemma OtherCurrencySkipsBalance(wallet: WalletStatus, currency: string, cryptoAmount: real, balances: Balances)
    requires wallet.isConnected && wallet.isSepolia
    requires currency != "USDT" && currency != "ETH"
    ensures TransferRefusal(wallet, currency, cryptoAmount, balances).None?
  {
  }

  /**
   * formatAddress: empty stays empty, `show` keeps the address whole, and
   * otherwise the first six characters, "..." and the last four.
   */
  function FormatAddress(address: string, show: bool): (r: string)
    ensures address == "" ==> r == ""
    ensures address != "" && show ==> r == address
    ensures address != "" && !show ==>
              var head := if |address| < 6 then |address| else 6;
              var tail := if |address| < 4 then |address| else 4;
              |r| == head + 3 + tail &&
              r[..head] == address[..head] &&
              r[head..head + 3] == "..." &&
              r[head + 3..] == address[|address| - tail..]
  {
    if address == "" then ""
    else if show then address
    else SliceHead(address, 6) + "..." + SliceTail(address, 4)
  }

  /** What a successful send returns: the hash and the receipt fields the page copies. */
  datatype Receipt = Receipt(hash: string, gasUsed: nat, gasPrice: nat, confirmations: nat, blockNumber: nat)

  /** The record written to 'transactionData' after a successful send, stamped with `now`. */
  function SentRecord(account: Option<string>, data: TransferData, receipt: Receipt, now: string): (r: TransactionData)
    ensures r.status == "confirmed"
    ensures r.gasUsed != "" && forall i :: 0 <= i < |r.gasUsed| ==> IsDigit(r.gasUsed[i])
    ensures r.gasPrice != "" && forall i :: 0 <= i < |r.gasPrice| ==> IsDigit(r.gasPrice[i])
  {
    TransactionData(
      hash := receipt.hash,
      status := "confirmed",
      from := account,
      to := data.receiverAddress,
      amount := data.conversion.convertedAmount,
      currency := data.currency,
      gasUsed := NatToString(receipt.gasUsed),
      gasPrice := NatToString(receipt.gasPrice),
      timestamp := now,
      confirmations := receipt.confirmations,
      blockNumber := receipt.blockNumber)
  }

  /** Balances are read only when the wallet reports a connected, non-empty account. */
  predicate ReadsBalances(status: WalletStatus)
  {
    status.isConnected && status.account.Some? && status.account.value != ""
  }

  /** The transaction the wallet is asked to send: receiver, converted amount and currency. */
  datatype SendRequest = SendRequest(to: string, amount: real, currency: string)

  /** The confirm-transfer page state. */
  class ConfirmTransferPage {
    var transferData: Option<TransferData>
    var walletStatus: WalletStatus
    var isConnecting: bool
    var isTransferring: bool
    var balances: Balances
    var navigatedTo: Option<string>

    constructor ()
      ensures transferData == None && walletStatus == Disconnected && balances == ZeroBalances
      ensures !isConnecting && !isTransferring && navigatedTo == None
    {
      transferData, walletStatus, balances := None, Disconnected, ZeroBalances;
      isConnecting, isTransferring, navigatedTo := false, false, None;
    }

    /**
     * checkWalletConnection: adopt the provider's status and, for a connected
     * account, the balances read for it (`balanceRead` is None when reading failed,
     * which only logs).
     */
    method CheckWalletConnection(status: WalletStatus, balanceRead: Option<Balances>)
      modifies this
      ensures walletStatus == status
      ensures balances == if ReadsBalances(status) && balanceRead.Some? then balanceRead.value else old(balances)
      ensures transferData == old(transferData) && navigatedTo == old(navigatedTo)
      ensures isConnecting == old(isConnecting) && isTransferring == old(isTransferring)
    {
      walletStatus := status;
      if ReadsBalances(status) && balanceRead.Some? {
        balances := balanceRead.value;
      }
    }

    /**
     * The mount effect: without stored transfer data the page shows an error,
     * redirects to '/' and never asks the wallet; otherwise it adopts the data
     * and checks the wallet.
     */
    method Mount(store: SessionStore, status: WalletStatus, balanceRead: Option<Balances>)
      returns (toast: Option<string>)
      modifies this
      ensures store.transferData.None? ==>
                toast == Some("No transfer data found. Please start over.") &&
                navigatedTo == Some("/") && transferData == old(transferData) &&
                walletStatus == old(walletStatus) && balances == old(balances)
      ensures store.transferData.Some? ==>
                toast == None && navigatedTo == old(navigatedTo) && transferData == store.transferData && walletStatus == status &&
                balances == if ReadsBalances(status) && balanceRead.Some? then balanceRead.value else old(balances)
      ensures isConnecting == old(isConnecting) && isTransferring == old(isTransferring)
    {
      if store.transferData.None? {
        toast := Some("No transfer data found. Please start over.");
        navigatedTo := Some("/");
        return;
      }
      toast := None;
      transferData := store.transferData;
      CheckWalletConnection(status, balanceRead);
    }

    /**
     * connectWallet: `connectError` is None when connecting and switching to
     * Sepolia both succeed, after which the wallet is checked again.
     */
    method ConnectWallet(connectError: Option<string>, status: WalletStatus, balanceRead: Option<Balances>)
      returns (toast: string)
      modifies this
      ensures !isConnecting
      ensures connectError.None? ==>
                walletStatus == status && toast == "Wallet connected successfully!" &&
                balances == if ReadsBalances(status) && balanceRead.Some? then balanceRead.value else old(balances)
      ensures connectError.Some? ==>
                walletStatus == old(walletStatus) && balances == old(balances) &&
                toast == ErrorText(connectError.value, "Failed to connect wallet")
      ensures transferData == old(transferData) && navigatedTo == old(navigatedTo)
      ensures isTransferring == old(isTransferring)
    {
      isConnecting := true;
      if connectError.None? {
        CheckWalletConnection(status, balanceRead);
        toast := "Wallet connected successfully!";
      } else {
        toast := ErrorText(connectError.value, "Failed to connect wallet");
      }
      isConnecting := false;
    }

    /**
     * handleTransfer. The guards run first and a refusal changes nothing and asks
     * the wallet for nothing; after they pass, the wallet is asked to send the
     * converted amount to the receiver, and `send` is its answer: its receipt,
     * or the error message.
     * A successful send stores the hash and the record and goes to '/status'.
     */
    method HandleTransfer(store: SessionStore, send: Result<Receipt, string>, now: string)
      returns (request: Option<SendRequest>, toast: string)
      requires transferData.Some?
      modifies this, store
      ensures transferData == old(transferData) && walletStatus == old(walletStatus) && balances == old(balances)
      ensures var data := transferData.value;
              (request.Some? <==>
                 TransferRefusal(walletStatus, data.currency, data.conversion.convertedAmount, balances).None?) &&
              (request.Some? ==>
                 request.value == SendRequest(data.receiverAddress, data.conversion.convertedAmount, data.currency))
      ensures isConnecting == old(isConnecting)
      ensures store.transferData == old(store.transferData)
      ensures var data := transferData.value;
              var refusal := TransferRefusal(walletStatus, data.currency, data.conversion.convertedAmount, balances);
              (refusal.Some? ==>
                 toast == RefusalMessage(refusal.value) && isTransferring == old(isTransferring) &&
                 navigatedTo == old(navigatedTo) &&
                 store.transactionHash == old(store.transactionHash) &&
                 store.transactionData == old(store.transactionData)) &&
              (refusal.None? && send.Success? ==>
                 !isTransferring && navigatedTo == Some("/status") &&
                 store.transactionHash == Some(send.value.hash) &&
                 store.transactionData == Some(SentRecord(walletStatus.account, data, send.value, now)) &&
                 toast == data.currency + " transaction sent successfully! Check your MetaMask wallet.") &&
              (refusal.None? && send.Failure? ==>
                 !isTransferring && navigatedTo == old(navigatedTo) &&
                 store.transactionHash == old(store.transactionHash) &&
                 store.transactionData == old(store.transactionData) &&
                 toast == ErrorText(send.error, "Failed to send transaction"))
    {
      var data := transferData.value;
      var refusal := TransferRefusal(walletStatus, data.currency, data.conversion.convertedAmount, balances);
      if refusal.Some? {
        request := None;
        toast := RefusalMessage(refusal.value);
        return;
      }
      isTransferring := true;
      request := Some(SendRequest(data.receiverAddress, data.conversion.convertedAmount, data.currency));
      if send.Success? {
        store.transactionHash := Some(send.value.hash);
        store.transactionData := Some(SentRecord(walletStatus.account, data, send.value, now));
        toast := data.currency + " transaction sent successfully! Check your MetaMask wallet.";
        navigatedTo := Some("/status");
      } else {
        toast := ErrorText(send.error, "Failed to send transaction");
      }
      isTransferring := false;
    }
  }

  /**
   * The record a send stores: status 'confirmed', from the connected account,
   * to the receiver, the converted amount, in the chosen currency, under the
   * wallet's hash.
   */
  lemma SentRecordFields(account: Option<string>, data: TransferData, receipt: Receipt, now: string)
    ensures var r := SentRecord(account, data, receipt, now);
            r.status == "confirmed" && r.from == account && r.to == data.receiverAddress &&
            r.amount == data.conversion.convertedAmount && r.currency == data.currency &&
            r.hash == receipt.hash && r.timestamp == now &&
            r.confirmations == receipt.confirmations && r.blockNumber == receipt.blockNumber
  {
  }
}
