/**
 * The records the client pages hand to each other through the browser's
 * sessionStorage, and the storage itself as one typed slot per key.
 */
module Session {
  import opened Wrappers

  /** The part of a conversion quote that the pages act on; the rate and fee fields are only displayed. */
  datatype Conversion = Conversion(convertedAmount: real)

  /** What the send-money page stores under 'transferData': the form plus the conversion quote. */
  datatype TransferData = TransferData(
    amount: string,
    receiverAddress: string,
    currency: string,
    conversion: Conversion)

  /**
   * A transaction as the confirm page stores it under 'transactionData' and as
   * the status endpoint returns it in `response.transaction`.
   */
  datatype TransactionData = TransactionData(
    hash: string,
    status: string,
    from: Option<string>,
    to: string,
    amount: real,
    currency: string,
    gasUsed: string,
    gasPrice: string,
    timestamp: string,
    confirmations: nat,
    blockNumber: nat)

  /** sessionStorage, restricted to the three keys the transfer flow uses. */
  class SessionStore {
    var transferData: Option<TransferData>
    var transactionHash: Option<string>
    var transactionData: Option<TransactionData>

    constructor ()
      ensures transferData == None && transactionHash == None && transactionData == None
    {
      transferData, transactionHash, transactionData := None, None, None;
    }
  }
}
