/**
 * The transaction-status page: loading the stored transaction, the status
 * poller (one poll per 3-second tick, stopped by a 'confirmed' response or by
 * the two-minute budget), and the bank-withdrawal form.
 *
 * The poller is a discrete state machine: `Step` is one tick, `Run` a sequence
 * of ticks, and the page's `Tick` method is proved to perform `Step`.
 */
module TransactionStatus {
  import opened Wrappers
  import opened Session

  const PollIntervalMs: nat := 3000
  const PollBudgetMs: nat := 120000

  /** The number of ticks that fit in the budget: 40. */
  const MaxPolls: nat := PollBudgetMs / PollIntervalMs

  /** What one poll of the status endpoint yields. */
  datatype PollOutcome =
    | RequestFailed                                  // the request threw; the error is only logged
    | Responded(transaction: Option<TransactionData>) // `response.transaction`, possibly missing

  /** The poller: the displayed transaction, whether the interval is still running, and the polls made. */
  datatype PollState = PollState(data: Option<TransactionData>, active: bool, polls: nat)

  /** A running poller has budget left; no poller ever exceeds the budget. */
  predicate ValidPoll(p: PollState)
  {
    p.polls <= MaxPolls && (p.active ==> p.polls < MaxPolls)
  }

  /** The response that stops the interval: a transaction whose status is 'confirmed'. */
  predicate Confirms(o: PollOutcome)
  {
    o.Responded? && o.transaction.Some? && o.transaction.value.status == "confirmed"
  }

  /**
   * One tick. A stopped poller does nothing. A running one polls: a response
   * replaces the displayed data wholesale (a missing transaction included), a
   * failed request leaves it alone; a confirming response or the last tick of
   * the budget stops the interval.
   */
  function Step(p: PollState, o: PollOutcome): (q: PollState)
    requires ValidPoll(p)
    ensures ValidPoll(q)
    ensures !p.active ==> q == p
    ensures p.active ==> q.polls == p.polls + 1
    ensures p.active && o.Responded? ==> q.data == o.transaction
    ensures o.RequestFailed? ==> q.data == p.data
    ensures Confirms(o) ==> !q.active
    ensures q.active <==> p.active && !Confirms(o) && p.polls + 1 < MaxPolls
  {
    if !p.active then p
    else
      var data := if o.Responded? then o.transaction else p.data;
      PollState(data, !Confirms(o) && p.polls + 1 < MaxPolls, p.polls + 1)
  }

  /** A sequence of ticks, one outcome each. */
  function Run(p: PollState, os: seq<PollOutcome>): (q: PollState)
    requires ValidPoll(p)
    ensures ValidPoll(q)
    decreases |os|
  {
    if os == [] then p else Run(Step(p, os[0]), os[1..])
  }

  /** A stopped poller stays stopped and unchanged whatever the ticks bring. */
  lemma {:induction false} StoppedStaysStopped(p: PollState, os: seq<PollOutcome>)
    requires ValidPoll(p) && !p.active
    ensures Run(p, os) == p
    decreases |os|
  {
    if os != [] {
      StoppedStaysStopped(Step(p, os[0]), os[1..]);
    }
  }

  /** Every tick of a poller that is still running made a poll. */
  lemma {:induction false} RunningCountsEveryTick(p: PollState, os: seq<PollOutcome>)
    requires ValidPoll(p)
    ensures Run(p, os).active ==> Run(p, os).polls == p.polls + |os|
    ensures Run(p, os).polls <= p.polls + |os|
    ensures p.polls <= Run(p, os).polls
    decreases |os|
  {
    if os != [] {
      var q := Step(p, os[0]);
      RunningCountsEveryTick(q, os[1..]);
      if !q.active {
        StoppedStaysStopped(q, os[1..]);
      }
    }
  }

  /**
   * The budget: a poller started fresh makes at most 40 polls, and after 40
   * ticks it has stopped, whatever the responses were.
   */
  lemma PollingIsBounded(data: Option<TransactionData>, os: seq<PollOutcome>)
    ensures Run(PollState(data, true, 0), os).polls <= MaxPolls
    ensures |os| >= MaxPolls ==> !Run(PollState(data, true, 0), os).active
  {
    RunningCountsEveryTick(PollState(data, true, 0), os);
  }

  /** A confirming response stops polling for good: it stays displayed and no later tick polls. */
  lemma ConfirmedStopsPolling(p: PollState, t: TransactionData, rest: seq<PollOutcome>)
    requires ValidPoll(p) && p.active && t.status == "confirmed"
    ensures Run(p, [Responded(Some(t))] + rest) == PollState(Some(t), false, p.polls + 1)
  {
    var q := Step(p, Responded(Some(t)));
    assert ([Responded(Some(t))] + rest)[1..] == rest;
    StoppedStaysStopped(q, rest);
  }

  /** Responses that do not confirm ('pending', 'failed', ...) keep a poller with budget left running. */
  lemma UnconfirmedKeepsPolling(p: PollState, o: PollOutcome)
    requires ValidPoll(p) && p.active && !Confirms(o) && p.polls + 1 < MaxPolls
    ensures Step(p, o).active
  {
  }

  /** Failed polls are swallowed: a run of failed requests leaves the displayed data unchanged. */
  lemma {:induction false} FailuresKeepData(p: PollState, os: seq<PollOutcome>)
    requires ValidPoll(p)
    requires forall i :: 0 <= i < |os| ==> os[i].RequestFailed?
    ensures Run(p, os).data == p.data
    decreases |os|
  {
    if os != [] {
      FailuresKeepData(Step(p, os[0]), os[1..]);
    }
  }

  /**
   * The poller never invents a status: what it displays at the end is what it
   * displayed at the start or exactly what one of the responses carried. In
   * particular running out of budget does not turn a pending transaction into a
   * failed one.
   */
  lemma {:induction false} DataComesFromResponses(p: PollState, os: seq<PollOutcome>)
    requires ValidPoll(p)
    ensures Run(p, os).data == p.data ||
            exists i :: 0 <= i < |os| && os[i] == Responded(Run(p, os).data)
    decreases |os|
  {
    if os != [] {
      var q := Step(p, os[0]);
      DataComesFromResponses(q, os[1..]);
      var r := Run(p, os);
      if r.data != p.data {
        if r.data == q.data {
          assert os[0] == Responded(r.data);
        } else {
          var i :| 0 <= i < |os[1..]| && os[1..][i] == Responded(r.data);
          assert os[i + 1] == Responded(r.data);
        }
      }
    }
  }

  /** The three bank fields of the withdrawal form. */
  datatype BankDetails = BankDetails(accountNumber: string, ifscCode: string, accountHolder: string)

  const EmptyBankDetails: BankDetails := BankDetails("", "", "")

  datatype BankField = AccountNumber | IfscCode | AccountHolder

  function BankFieldValue(d: BankDetails, f: BankField): string
  {
    match f
    case AccountNumber => d.accountNumber
    case IfscCode => d.ifscCode
    case AccountHolder => d.accountHolder
  }

  /** The withdrawal precondition: every bank field is filled in. */
  predicate BankDetailsComplete(d: BankDetails)
  {
    d.accountNumber != "" && d.ifscCode != "" && d.accountHolder != ""
  }

  /** The request sent to the withdrawal endpoint. */
  datatype WithdrawalRequest = WithdrawalRequest(amount: real, bankDetails: BankDetails)

  /** A stored hash the page treats as absent: none at all, or the empty string. */
  predicate HashMissing(h: Option<string>)
  {
    h.None? || h.value == ""
  }

  /** The transaction-status page state. */
  class TransactionStatusPage {
    var transactionData: Option<TransactionData>
    var isLoading: bool
    var polling: bool
    var polls: nat
    var txHash: Option<string>
    var navigatedTo: Option<string>
    var showWithdrawal: bool
    var withdrawalData: BankDetails

    /** The poller part of the page state. */
    function Poller(): PollState
      reads this
    {
      PollState(transactionData, polling, polls)
    }

    predicate Valid()
      reads this
    {
      ValidPoll(Poller())
    }

    constructor ()
      ensures Valid()
      ensures transactionData == None && isLoading && !polling && polls == 0 && txHash == None
      ensures navigatedTo == None && !showWithdrawal && withdrawalData == EmptyBankDetails
    {
      transactionData, isLoading, polling, polls, txHash := None, true, false, 0, None;
      navigatedTo, showWithdrawal, withdrawalData := None, false, EmptyBankDetails;
    }

    /**
     * loadTransactionData: both the stored transaction and a non-empty hash are
     * needed (`!txHash` also rejects an empty one); without them the page shows
     * an error, redirects to '/' and starts no polling, otherwise it shows the
     * stored transaction and starts a fresh poller for the hash.
     */
    method LoadTransactionData(store: SessionStore) returns (toast: Option<string>)
      requires Valid()
      modifies this
      ensures Valid()
      ensures !isLoading
      ensures store.transactionData.None? || HashMissing(store.transactionHash) ==>
                toast == Some("No transaction data found") &&
                navigatedTo == Some("/") && Poller() == old(Poller()) && txHash == old(txHash)
      ensures store.transactionData.Some? && !HashMissing(store.transactionHash) ==>
                toast == None && navigatedTo == old(navigatedTo) &&
                Poller() == PollState(store.transactionData, true, 0) && txHash == store.transactionHash
      ensures showWithdrawal == old(showWithdrawal) && withdrawalData == old(withdrawalData)
    {
      if store.transactionData.None? || HashMissing(store.transactionHash) {
        toast := Some("No transaction data found");
        navigatedTo := Some("/");
      } else {
        toast := None;
        transactionData := store.transactionData;
        txHash := store.transactionHash;
        polling, polls := true, 0;
      }
      isLoading := false;
    }

    /**
     * One 3-second tick of the interval, with the outcome of its poll; a
     * confirming response also shows the success toast.
     */
    method Tick(outcome: PollOutcome) returns (toast: Option<string>)
      requires Valid()
      modifies this
      ensures Valid()
      ensures Poller() == Step(old(Poller()), outcome)
      ensures toast == if old(polling) && Confirms(outcome) then Some("Transaction confirmed successfully!") else None
      ensures isLoading == old(isLoading) && txHash == old(txHash) && navigatedTo == old(navigatedTo)
      ensures showWithdrawal == old(showWithdrawal) && withdrawalData == old(withdrawalData)
    {
      toast := None;
      if !polling {
        return;
      }
      polls := polls + 1;
      if outcome.Responded? {
        transactionData := outcome.transaction;
      }
      if Confirms(outcome) {
        toast := Some("Transaction confirmed successfully!");
      }
      if Confirms(outcome) || polls >= MaxPolls {
        polling := false;
      }
    }

    /** The "Withdraw to Bank" button shows the form. */
    method OpenWithdrawal()
      modifies this
      ensures showWithdrawal
      ensures Poller() == old(Poller()) && withdrawalData == old(withdrawalData)
      ensures isLoading == old(isLoading) && txHash == old(txHash) && navigatedTo == old(navigatedTo)
    {
      showWithdrawal := true;
    }

    /** A change in one bank field input updates that field only. */
    method UpdateWithdrawalField(field: BankField, value: string)
      modifies this
      ensures BankFieldValue(withdrawalData, field) == value
      ensures forall f :: f != field ==> BankFieldValue(withdrawalData, f) == BankFieldValue(old(withdrawalData), f)
      ensures Poller() == old(Poller()) && showWithdrawal == old(showWithdrawal)
      ensures isLoading == old(isLoading) && txHash == old(txHash) && navigatedTo == old(navigatedTo)
    {
      match field
      case AccountNumber => withdrawalData := withdrawalData.(accountNumber := value);
      case IfscCode => withdrawalData := withdrawalData.(ifscCode := value);
      case AccountHolder => withdrawalData := withdrawalData.(accountHolder := value);
    }

    /**
     * handleWithdrawal: refused unless all three bank fields are filled in.
     * Otherwise the request (the displayed amount and the bank details) is sent;
     * `accepted` is the endpoint's answer. Reading the amount of a missing
     * transaction throws, which the handler reports like a failed request.
     * A successful submission hides the form.
     */
    method HandleWithdrawal(accepted: bool) returns (request: Option<WithdrawalRequest>, toast: string)
      modifies this
      ensures request.Some? <==> BankDetailsComplete(withdrawalData) && transactionData.Some?
      ensures request.Some? ==> request.value == WithdrawalRequest(transactionData.value.amount, withdrawalData)
      ensures !BankDetailsComplete(withdrawalData) ==>
                toast == "Please fill in all bank details" && showWithdrawal == old(showWithdrawal)
      ensures BankDetailsComplete(withdrawalData) && request.Some? && accepted ==>
                toast == "Withdrawal request submitted successfully!" && !showWithdrawal
      ensures BankDetailsComplete(withdrawalData) && !(request.Some? && accepted) ==>
                toast == "Failed to process withdrawal request" && showWithdrawal == old(showWithdrawal)
      ensures Poller() == old(Poller()) && withdrawalData == old(withdrawalData)
      ensures isLoading == old(isLoading) && txHash == old(txHash) && navigatedTo == old(navigatedTo)
    {
      if !BankDetailsComplete(withdrawalData) {
        request, toast := None, "Please fill in all bank details";
        return;
      }
      if transactionData.None? {
        request, toast := None, "Failed to process withdrawal request";
        return;
      }
      request := Some(WithdrawalRequest(transactionData.value.amount, withdrawalData));
      if accepted {
        toast := "Withdrawal request submitted successfully!";
        showWithdrawal := false;
      } else {
        toast := "Failed to process withdrawal request";
      }
    }
  }
}
