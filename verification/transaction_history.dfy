/**
 * The transaction-history page: the search and status filter over the stored
 * list, address truncation, the CSV export of the filtered list, and the
 * status counts of the whole list.
 */
module TransactionHistory {
  import opened Wrappers
  import opened Strings
  import ConfirmTransfer

  /** A stored history entry; amounts and gas figures are kept as text. */
  datatype Transaction = Transaction(
    id: string,
    hash: string,
    from: string,
    to: string,
    amount: string,
    currency: string,
    status: string,
    timestamp: string,
    gasUsed: string,
    gasPrice: string,
    confirmations: nat,
    blockNumber: nat)

  /**
   * The search test: the term occurs, ignoring case, in the hash, sender,
   * receiver or currency, or occurs, respecting case, in the amount text.
   */
  predicate MatchesSearch(tx: Transaction, term: string)
    ensures term == "" ==> MatchesSearch(tx, term)
  {
    ContainsEmpty(tx.amount);
    var t := Lower(term);
    Contains(Lower(tx.hash), t) ||
    Contains(Lower(tx.from), t) ||
    Contains(Lower(tx.to), t) ||
    Contains(tx.amount, term) ||
    Contains(Lower(tx.currency), t)
  }

  /**
   * The search ignores the case of the hash, addresses and currency: an entry
   * with those fields lower-cased matches exactly the terms the original matches.
   */
  lemma SearchIgnoresFieldCase(tx: Transaction, term: string)
    ensures MatchesSearch(tx, term) <==>
            MatchesSearch(tx.(hash := Lower(tx.hash), from := Lower(tx.from), to := Lower(tx.to),
                              currency := Lower(tx.currency)), term)
  {
    LowerIdempotent(tx.hash);
    LowerIdempotent(tx.from);
    LowerIdempotent(tx.to);
    LowerIdempotent(tx.currency);
  }

  /** The two filters the page applies. */
  datatype Criterion = Search(term: string) | Status(status: string)

  predicate Accepts(c: Criterion, tx: Transaction)
  {
    match c
    case Search(term) => MatchesSearch(tx, term)
    case Status(status) => tx.status == status
  }

  /**
   * `txs.filter(...)` for one criterion: every occurrence of a passing entry
   * is kept and every occurrence of a failing one dropped.
   */
  function Filter(txs: seq<Transaction>, c: Criterion): (r: seq<Transaction>)
    ensures |r| <= |txs|
    ensures forall tx :: tx in r <==> tx in txs && Accepts(c, tx)
    ensures forall tx :: multiset(r)[tx] == if Accepts(c, tx) then multiset(txs)[tx] else 0
  {
    if txs == [] then []
    else
      assert txs == [txs[0]] + txs[1..];
      if Accepts(c, txs[0]) then [txs[0]] + Filter(txs[1..], c)
      else Filter(txs[1..], c)
  }

  /** `a` is `b` with some elements left out and the rest in their order. */
  predicate IsSubsequence(a: seq<Transaction>, b: seq<Transaction>)
    decreases |b|
  {
    if a == [] then true
    else if b == [] then false
    else (a[0] == b[0] && IsSubsequence(a[1..], b[1..])) || IsSubsequence(a, b[1..])
  }

  lemma {:induction false} SubsequenceReflexive(a: seq<Transaction>)
    ensures IsSubsequence(a, a)
    decreases |a|
  {
    if a != [] {
      SubsequenceReflexive(a[1..]);
    }
  }

  /** Filtering keeps an order-preserving subsequence. */
  lemma {:induction false} FilterSubsequence(txs: seq<Transaction>, c: Criterion)
    ensures IsSubsequence(Filter(txs, c), txs)
    decreases |txs|
  {
    if txs != [] {
      FilterSubsequence(txs[1..], c);
    }
  }

  /** Filtering twice, by two criteria, still keeps an order-preserving subsequence. */
  lemma {:induction false} FilterTwiceSubsequence(txs: seq<Transaction>, c1: Criterion, c2: Criterion)
    ensures IsSubsequence(Filter(Filter(txs, c1), c2), txs)
    decreases |txs|
  {
    if txs != [] {
      FilterTwiceSubsequence(txs[1..], c1, c2);
      var inner := Filter(txs[1..], c1);
      if Accepts(c1, txs[0]) {
        assert Filter(txs, c1) == [txs[0]] + inner;
        assert ([txs[0]] + inner)[1..] == inner;
      }
    }
  }

  /** A list whose every element already passes the criterion is left as it is. */
  lemma {:induction false} FilterKeepsAll(txs: seq<Transaction>, c: Criterion)
    requires forall tx :: tx in txs ==> Accepts(c, tx)
    ensures Filter(txs, c) == txs
    decreases |txs|
  {
    if txs != [] {
      FilterKeepsAll(txs[1..], c);
    }
  }

  /** The search is applied only to a non-empty term, the status filter only to a status other than 'all'. */
  predicate Kept(tx: Transaction, term: string, status: string)
  {
    (term == "" || MatchesSearch(tx, term)) && (status == "all" || tx.status == status)
  }

  /**
   * filterTransactions: an order-preserving subsequence of the list holding
   * every occurrence of the entries that pass the search and the status
   * filter, and nothing else.
   */
  function FilterTransactions(txs: seq<Transaction>, term: string, status: string): (r: seq<Transaction>)
    ensures IsSubsequence(r, txs)
    ensures forall tx :: tx in r <==> tx in txs && Kept(tx, term, status)
    ensures forall tx :: multiset(r)[tx] == if Kept(tx, term, status) then multiset(txs)[tx] else 0
    ensures status != "all" ==> forall tx :: tx in r ==> tx.status == status
    ensures term == "" && status == "all" ==> r == txs
  {
    var searched := if term != "" then Filter(txs, Search(term)) else txs;
    var filtered := if status != "all" then Filter(searched, Status(status)) else searched;
    if term != "" && status != "all" then
      FilterTwiceSubsequence(txs, Search(term), Status(status));
      filtered
    else if term != "" then
      FilterSubsequence(txs, Search(term));
      filtered
    else if status != "all" then
      FilterSubsequence(txs, Status(status));
      filtered
    else
      SubsequenceReflexive(txs);
      filtered
  }

  /** Filtering an already filtered list with the same term and status changes nothing. */
  lemma FilterIdempotent(txs: seq<Transaction>, term: string, status: string)
    ensures FilterTransactions(FilterTransactions(txs, term, status), term, status) ==
            FilterTransactions(txs, term, status)
  {
    var once := FilterTransactions(txs, term, status);
    if term != "" {
      FilterKeepsAll(once, Search(term));
    }
    if status != "all" {
      FilterKeepsAll(once, Status(status));
    }
  }

  /** formatAddress: empty stays empty, otherwise the first six characters, "..." and the last four. */
  function FormatAddress(address: string): (r: string)
    ensures address == "" ==> r == ""
    ensures address != "" ==>
              var head := if |address| < 6 then |address| else 6;
              var tail := if |address| < 4 then |address| else 4;
              |r| == head + 3 + tail &&
              r[..head] == address[..head] &&
              r[head..head + 3] == "..." &&
              r[head + 3..] == address[|address| - tail..]
  {
    if address == "" then "" else SliceHead(address, 6) + "..." + SliceTail(address, 4)
  }

  /** The history page truncates addresses exactly as the confirm page does when the full address is hidden. */
  lemma FormatAddressAgrees(address: string)
    ensures FormatAddress(address) == ConfirmTransfer.FormatAddress(address, false)
  {
  }

  /** The column names of the export. */
  const CsvHeader: seq<string> :=
    ["Hash", "From", "To", "Amount", "Currency", "Status", "Timestamp",
     "Gas Used", "Gas Price", "Confirmations", "Block Number"]

  /** The first line of the export: the column names joined by commas. */
  function HeaderLine(): string
  {
    Join(CsvHeader, ',')
  }

  /** One exported row; `formatDate` is the locale's rendering of a timestamp. */
  function CsvCells(tx: Transaction, formatDate: string -> string): (r: seq<string>)
    ensures |r| == |CsvHeader|
  {
    [tx.hash, tx.from, tx.to, tx.amount, tx.currency, tx.status, formatDate(tx.timestamp),
     tx.gasUsed, tx.gasPrice, NatToString(tx.confirmations), NatToString(tx.blockNumber)]
  }

  function CsvRow(tx: Transaction, formatDate: string -> string): string
  {
    Join(CsvCells(tx, formatDate), ',')
  }

  /** One row per transaction, in order. */
  function CsvRows(txs: seq<Transaction>, formatDate: string -> string): (r: seq<string>)
    ensures |r| == |txs|
    ensures forall i :: 0 <= i < |txs| ==> r[i] == CsvRow(txs[i], formatDate)
  {
    if txs == [] then [] else [CsvRow(txs[0], formatDate)] + CsvRows(txs[1..], formatDate)
  }

  /** The lines of the export: the header, then one row per transaction in order. */
  function CsvLines(txs: seq<Transaction>, formatDate: string -> string): seq<string>
  {
    [HeaderLine()] + CsvRows(txs, formatDate)
  }

  /** The text handleExport downloads: lines joined by '\n', no trailing newline, no quoting. */
  function CsvText(txs: seq<Transaction>, formatDate: string -> string): (r: string)
    ensures HeaderLine() <= r
    ensures txs != [] ==> |HeaderLine()| < |r| && r[|HeaderLine()|] == '\n'
  {
    Join(CsvLines(txs, formatDate), '\n')
  }

  /** An export of no transactions is the header line alone. */
  lemma CsvOfNothing(formatDate: string -> string)
    ensures CsvText([], formatDate) == HeaderLine()
  {
    assert CsvLines([], formatDate) == [HeaderLine()];
  }

  /** Each further transaction adds a newline and its row at the end. */
  lemma CsvAppend(txs: seq<Transaction>, tx: Transaction, formatDate: string -> string)
    ensures CsvText(txs + [tx], formatDate) == CsvText(txs, formatDate) + "\n" + CsvRow(tx, formatDate)
  {
    assert CsvLines(txs + [tx], formatDate) == CsvLines(txs, formatDate) + [CsvRow(tx, formatDate)];
    JoinAppend(CsvLines(txs, formatDate), CsvRow(tx, formatDate), '\n');
  }

  /** A text that neither splits a cell nor a line. */
  predicate CleanCell(s: string)
  {
    ',' !in s && '\n' !in s
  }

  /** The text fields of an entry, and its rendered timestamp, hold no comma and no newline. */
  predicate CleanEntry(tx: Transaction, formatDate: string -> string)
  {
    CleanCell(tx.hash) && CleanCell(tx.from) && CleanCell(tx.to) && CleanCell(tx.amount) &&
    CleanCell(tx.currency) && CleanCell(tx.status) && CleanCell(formatDate(tx.timestamp)) &&
    CleanCell(tx.gasUsed) && CleanCell(tx.gasPrice)
  }

  lemma DigitsClean(n: nat)
    ensures CleanCell(NatToString(n))
  {
    var s := NatToString(n);
    assert forall i :: 0 <= i < |s| ==> s[i] != ',' && s[i] != '\n';
  }

  lemma {:induction false} CellsClean(tx: Transaction, formatDate: string -> string)
    requires CleanEntry(tx, formatDate)
    ensures forall k :: 0 <= k < |CsvHeader| ==> CleanCell(CsvCells(tx, formatDate)[k])
  {
    DigitsClean(tx.confirmations);
    DigitsClean(tx.blockNumber);
  }

  lemma HeaderClean()
    ensures forall k :: 0 <= k < |CsvHeader| ==> ',' !in CsvHeader[k] && '\n' !in CsvHeader[k]
  {
  }

  /** The header line holds no newline and splits back into the column names. */
  lemma HeaderReadsBack()
    ensures '\n' !in HeaderLine()
    ensures Split(HeaderLine(), ',') == CsvHeader
  {
    HeaderClean();
    JoinExcludes(CsvHeader, ',', '\n');
    SplitJoin(CsvHeader, ',');
  }

  /** A clean entry's row holds no newline and splits back into its eleven cells. */
  lemma RowReadsBack(tx: Transaction, formatDate: string -> string)
    requires CleanEntry(tx, formatDate)
    ensures '\n' !in CsvRow(tx, formatDate)
    ensures Split(CsvRow(tx, formatDate), ',') == CsvCells(tx, formatDate)
  {
    CellsClean(tx, formatDate);
    JoinExcludes(CsvCells(tx, formatDate), ',', '\n');
    SplitJoin(CsvCells(tx, formatDate), ',');
  }

  /** When no cell holds a comma or a newline, no line of the export holds a newline. */
  lemma LinesHoldNoNewline(txs: seq<Transaction>, formatDate: string -> string)
    requires forall i :: 0 <= i < |txs| ==> CleanEntry(txs[i], formatDate)
    ensures forall j :: 0 <= j < |CsvLines(txs, formatDate)| ==> '\n' !in CsvLines(txs, formatDate)[j]
  {
    var lines := CsvLines(txs, formatDate);
    HeaderReadsBack();
    forall j | 0 <= j < |lines|
      ensures '\n' !in lines[j]
    {
      if j > 0 {
        RowReadsBack(txs[j - 1], formatDate);
      }
    }
  }

  /**
   * The export reads back: when no cell holds a comma or a newline, splitting
   * the text at newlines gives the header and one row per transaction in order,
   * and splitting a row at commas gives its eleven cells, one per column name.
   */
  lemma CsvReadsBack(txs: seq<Transaction>, formatDate: string -> string)
    requires forall i :: 0 <= i < |txs| ==> CleanEntry(txs[i], formatDate)
    ensures Split(CsvText(txs, formatDate), '\n') == CsvLines(txs, formatDate)
    ensures Split(CsvLines(txs, formatDate)[0], ',') == CsvHeader
    ensures forall i :: 0 <= i < |txs| ==>
              Split(CsvLines(txs, formatDate)[i + 1], ',') == CsvCells(txs[i], formatDate)
  {
    LinesHoldNoNewline(txs, formatDate);
    SplitJoin(CsvLines(txs, formatDate), '\n');
    HeaderReadsBack();
    forall i | 0 <= i < |txs|
      ensures Split(CsvLines(txs, formatDate)[i + 1], ',') == CsvCells(txs[i], formatDate)
    {
      RowReadsBack(txs[i], formatDate);
    }
  }

  /**
   * No quoting: a rendered timestamp that holds a comma (as many locales'
   * date-time texts do) splits its row into more cells than there are columns.
   */
  lemma CommaShiftsColumns(tx: Transaction, formatDate: string -> string)
    requires ',' in formatDate(tx.timestamp)
    ensures |Split(CsvRow(tx, formatDate), ',')| > |CsvHeader|
  {
    var cells := CsvCells(tx, formatDate);
    OccurrencesPositive(cells[6], ',');
    JoinOccurrences(cells, ',', 6);
    SplitCount(CsvRow(tx, formatDate), ',');
  }

  /** The summary cards. */
  datatype Summary = Summary(total: nat, completed: nat, pending: nat, failed: nat)

  /** The number of entries with the given status. */
  function CountStatus(txs: seq<Transaction>, status: string): nat
  {
    |Filter(txs, Status(status))|
  }

  /** Entries with three different statuses together are no more than all entries. */
  lemma {:induction false} DistinctCountsBounded(txs: seq<Transaction>, a: string, b: string, c: string)
    requires a != b && b != c && a != c
    ensures CountStatus(txs, a) + CountStatus(txs, b) + CountStatus(txs, c) <= |txs|
    decreases |txs|
  {
    if txs != [] {
      DistinctCountsBounded(txs[1..], a, b, c);
    }
  }

  /**
   * The summary, over the whole list regardless of search and filter: the
   * completed, pending and failed counts never add up to more than the total.
   */
  function Summarize(txs: seq<Transaction>): (r: Summary)
    ensures r.total == |txs|
    ensures r.completed + r.pending + r.failed <= r.total
    ensures r.completed == |FilterTransactions(txs, "", "completed")|
    ensures r.pending == |FilterTransactions(txs, "", "pending")|
    ensures r.failed == |FilterTransactions(txs, "", "failed")|
  {
    DistinctCountsBounded(txs, "completed", "pending", "failed");
    Summary(|txs|, CountStatus(txs, "completed"), CountStatus(txs, "pending"), CountStatus(txs, "failed"))
  }

  /** localStorage, restricted to the 'transactionHistory' key. */
  class HistoryStorage {
    var transactionHistory: Option<seq<Transaction>>

    constructor (stored: Option<seq<Transaction>>)
      ensures transactionHistory == stored
    {
      transactionHistory := stored;
    }
  }

  /**
   * The history page state. The filter effect reruns whenever the list, the
   * term or the status changes, so the shown list always equals the filter of
   * the current inputs.
   */
  class HistoryPage {
    var transactions: seq<Transaction>
    var filtered: seq<Transaction>
    var searchTerm: string
    var statusFilter: string
    var isLoading: bool

    predicate Valid()
      reads this
    {
      filtered == FilterTransactions(transactions, searchTerm, statusFilter)
    }

    constructor ()
      ensures Valid()
      ensures transactions == [] && filtered == [] && searchTerm == "" && statusFilter == "all" && isLoading
    {
      transactions, filtered, searchTerm, statusFilter, isLoading := [], [], "", "all", true;
    }

    /**
     * loadTransactions: the stored list when there is one; otherwise the demo
     * entries `seed`, which are also written to storage.
     */
    method LoadTransactions(storage: HistoryStorage, seed: seq<Transaction>)
      requires Valid()
      modifies this, storage
      ensures Valid()
      ensures !isLoading
      ensures old(storage.transactionHistory).Some? ==>
                transactions == old(storage.transactionHistory).value &&
                storage.transactionHistory == old(storage.transactionHistory)
      ensures old(storage.transactionHistory).None? ==>
                transactions == seed && storage.transactionHistory == Some(seed)
      ensures searchTerm == old(searchTerm) && statusFilter == old(statusFilter)
    {
      if storage.transactionHistory.Some? {
        transactions := storage.transactionHistory.value;
      } else {
        transactions := seed;
        storage.transactionHistory := Some(seed);
      }
      filtered := FilterTransactions(transactions, searchTerm, statusFilter);
      isLoading := false;
    }

    /** Typing in the search box. */
    method SetSearchTerm(term: string)
      modifies this
      ensures Valid()
      ensures searchTerm == term
      ensures transactions == old(transactions) && statusFilter == old(statusFilter) && isLoading == old(isLoading)
    {
      searchTerm := term;
      filtered := FilterTransactions(transactions, searchTerm, statusFilter);
    }

    /** Choosing a status in the filter drop-down. */
    method SetStatusFilter(status: string)
      modifies this
      ensures Valid()
      ensures statusFilter == status
      ensures transactions == old(transactions) && searchTerm == old(searchTerm) && isLoading == old(isLoading)
    {
      statusFilter := status;
      filtered := FilterTransactions(transactions, searchTerm, statusFilter);
    }

    /** handleExport: the CSV text of the shown (filtered) list. */
    method Export(formatDate: string -> string) returns (csv: string, toast: string)
      requires Valid()
      ensures csv == CsvText(FilterTransactions(transactions, searchTerm, statusFilter), formatDate)
      ensures toast == "Transaction history exported successfully!"
    {
      csv := CsvText(filtered, formatDate);
      toast := "Transaction history exported successfully!";
    }

    /** The summary cards count the whole list, not the filtered one. */
    function Stats(): (r: Summary)
      reads this
      ensures r.total == |transactions|
      ensures r.completed + r.pending + r.failed <= r.total
    {
      Summarize(transactions)
    }
  }
}
