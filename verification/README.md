# SwiftChain transfer flow — a Dafny model

SwiftChain is a demo app for sending rupees abroad as crypto. A user enters an INR amount, a
receiver wallet address and a target asset (USDT or ETH). The backend quotes a conversion. The
user's browser wallet then sends the converted amount on the Sepolia test network. A status
page follows the transaction, and a history page lists, filters and exports past transfers. The
backend also decides which browser origins may call it (CORS).

This project models the decision logic of those pages and of the server's CORS callback:

- `SendMoney` (`send_money.dfy`): the send form, its ordered validation (amount, receiver
  present, receiver format), single-field updates, and the hand-off of form plus quote to
  session storage.
- `ConfirmTransfer` (`confirm_transfer.dfy`): wallet and balance state, the ordered transfer
  guards (connected, on Sepolia, enough of the chosen asset), the send button's `disabled`
  expression, the record written after a send, and address truncation.
- `TransactionStatus` (`transaction_status.dfy`): loading the stored transaction. The status
  poller is a discrete machine over ticks. Each 3000 ms tick is one `Step`, and the
  120000 ms budget allows at most 40 polls. The file also holds the withdrawal form.
- `TransactionHistory` (`transaction_history.dfy`): the search and status filter, address
  truncation, the CSV export text and the status counts.
- `Cors` (`cors.dfy`): the allowed-origin list and the `origin` decision.
- Shared: `Wrappers` (Option, Result, and the `error.message || fallback` toast text), `Strings` (the JavaScript string operations used:
  `startsWith`, `includes`, `toLowerCase`, `slice`, `join`, `String(n)`, plus `Split` to state
  what `join` produced), and `Session`. `Session` holds the records that pass between pages and
  models sessionStorage as one typed slot per key.

React state becomes the fields of a page class. Each handler becomes a method whose `ensures`
gives the whole new state. Pure helpers become functions and lemmas.

The outside world enters as parameters:
- what the wallet provider reports and returns;
- what the conversion, status and withdrawal endpoints answer;
- `parseFloat` of a field, passed as a `real` next to the text;
- the current time (`now`);
- the locale's date rendering (`formatDate`);
- `NODE_ENV` and `FRONTEND_URL`.

Three behaviours of the code worth knowing. The model keeps the first and the third; the
second is listed under "Left out":
- The poller stops only on a response whose status is `'confirmed'`. There is no
  confirmation-count threshold.
- "Refresh Status" starts a second interval, and nothing cancels the first.
- The confirm page writes status `'confirmed'`, but the history page's filter options and
  counts use `'completed'`.

## Model

| member | source | states |
|---|---|---|
| `SendMoney.WithField` | client/src/pages/SendMoney.js:31-37 | the field named by the event takes the new value and every other field keeps its old value |
| `SendMoney.SendMoneyPage.HandleInputChange` | client/src/pages/SendMoney.js:31-37 | a change event updates exactly the named form field; loading flag and navigation are untouched |
| `SendMoney.ValidateForm` | client/src/pages/SendMoney.js:39-58 | the form is valid iff the amount is non-empty and at least 0.01 and the receiver matches `^0x[a-fA-F0-9]{40}$`; otherwise the first failing check, in the order amount, presence, format, decides the error |
| `SendMoney.AmountBoundary` | client/src/pages/SendMoney.js:40-43 | a non-empty amount of exactly 0.01 passes the amount check and 0.009999 is rejected as an invalid amount |
| `SendMoney.IsEthAddress` | client/src/pages/SendMoney.js:51-52 | the address regex; an accepted address is never empty, so it always passes the presence check, and holds no comma, space or newline |
| `SendMoney.EthAddressShape` | client/src/pages/SendMoney.js:50-55 | an address is accepted iff it has 42 characters, begins with lower-case "0x", and the remaining 40 are hex digits of either case |
| `SendMoney.PrefixedAddress` | client/src/pages/SendMoney.js:51-52 | "0x" followed by `h` is accepted iff `h` is exactly forty hex digits, so lengths 41 and 43 are rejected |
| `SendMoney.UpperPrefixRejected` | client/src/pages/SendMoney.js:51-52 | an address starting with upper-case "0X" is never accepted |
| `SendMoney.SendMoneyPage.HandleSubmit` | client/src/pages/SendMoney.js:60-85 | the conversion endpoint is asked, with `parseFloat(amount)` and the chosen currency, iff the form is valid; an invalid form shows its message and changes nothing; after a valid one, a quote stores amount, receiver and currency unchanged plus the quote and navigates to '/conversion', while a failed quote stores nothing and stays; loading ends false |
| `ConfirmTransfer.ConfirmTransferPage.Mount` | client/src/pages/ConfirmTransfer.js:23-34 | without stored transfer data the page shows 'No transfer data found. Please start over.', redirects to '/' and leaves the wallet status and balances alone; with it, it adopts the data and the wallet's status and shows no toast |
| `ConfirmTransfer.ConfirmTransferPage.CheckWalletConnection` | client/src/pages/ConfirmTransfer.js:36-56 | the wallet status is adopted; balances change only for a connected, non-empty account whose balance read succeeded, and a failed read leaves them as they were |
| `ConfirmTransfer.ConfirmTransferPage.ConnectWallet` | client/src/pages/ConfirmTransfer.js:58-71 | on success the wallet is re-checked and the success toast shown; on failure state is unchanged and the error's message (or the default) is shown; the connecting flag ends false |
| `ConfirmTransfer.TransferRefusal` | client/src/pages/ConfirmTransfer.js:73-98 | an unconnected wallet is refused first, then a wallet off Sepolia; for USDT or ETH the send is refused iff that balance is strictly below the amount (equal suffices); any other currency skips the balance check |
| `ConfirmTransfer.OtherCurrencySkipsBalance` | client/src/pages/ConfirmTransfer.js:88-98 | for a currency other than USDT and ETH a connected Sepolia wallet is never refused, whatever its balances |
| `ConfirmTransfer.ConfirmTransferPage.HandleTransfer` | client/src/pages/ConfirmTransfer.js:73-131 | the wallet is asked to send the converted amount in the chosen currency to the receiver iff every guard passes, so a refusal sends nothing and only shows its message; after the guards pass, a successful send stores the hash and the sent record and goes to '/status', a failed one stores nothing and shows the error; the transferring flag ends false |
| `ConfirmTransfer.SentRecord` | client/src/pages/ConfirmTransfer.js:106-118 | the record stored after a send has status 'confirmed', and its gas used and gas price are non-empty decimal digit strings (`toString()` of the receipt's numbers) |
| `ConfirmTransfer.SentRecordFields` | client/src/pages/ConfirmTransfer.js:106-118 | the stored record has status 'confirmed', from the connected account, to the receiver, the converted amount, the chosen currency, the wallet's hash, the send time and the receipt's confirmations and block |
| `ConfirmTransfer.SendDisabled` | client/src/pages/ConfirmTransfer.js:365-369 | the button's `disabled` expression; the send button is enabled iff no transfer is in flight and every guard of handleTransfer passes, so an enabled button never leads to a refusal |
| `ConfirmTransfer.FormatAddress` | client/src/pages/ConfirmTransfer.js:137-141 | an empty address gives '', `show` gives the address unchanged, otherwise the first six characters (or all, if shorter), "..." and the last four |
| `TransactionStatus.TransactionStatusPage.LoadTransactionData` | client/src/pages/TransactionStatus.js:18-40 | without the stored transaction, or with a hash that is absent or empty (`!txHash`), the page shows 'No transaction data found', redirects to '/' and the poller is unchanged (no polling starts); with both it shows the transaction and starts a fresh poller; loading ends false |
| `TransactionStatus.Step` | client/src/pages/TransactionStatus.js:46-65 | a stopped poller does nothing; a running one counts one poll; a response replaces the data wholesale and a failed request keeps it; a 'confirmed' response or the 40th poll stops polling, and nothing else does |
| `TransactionStatus.TransactionStatusPage.Tick` | client/src/pages/TransactionStatus.js:47-59 | one interval tick changes the page's poller state exactly as `Step` does, shows 'Transaction confirmed successfully!' exactly when a running poller receives a 'confirmed' transaction, and leaves every other field alone |
| `TransactionStatus.Run` | client/src/pages/TransactionStatus.js:46-65 | any sequence of ticks keeps the poller within its budget (at most 40 polls, and a running poller has budget left) |
| `TransactionStatus.PollingIsBounded` | client/src/pages/TransactionStatus.js:59-64 | a freshly started poller makes at most 40 polls and has stopped after 40 ticks, whatever the responses |
| `TransactionStatus.RunningCountsEveryTick` | client/src/pages/TransactionStatus.js:47-59 | while the poller keeps running every tick makes a poll, and no run makes more polls than it has ticks |
| `TransactionStatus.StoppedStaysStopped` | client/src/pages/TransactionStatus.js:52-53 | once the interval is cleared no later tick polls or changes anything |
| `TransactionStatus.ConfirmedStopsPolling` | client/src/pages/TransactionStatus.js:49-55 | after a 'confirmed' response the poller shows that transaction, has stopped, and stays so for any later ticks |
| `TransactionStatus.UnconfirmedKeepsPolling` | client/src/pages/TransactionStatus.js:52-53 | a 'pending' or 'failed' response, a missing transaction, or a failed request does not stop a poller with budget left |
| `TransactionStatus.FailuresKeepData` | client/src/pages/TransactionStatus.js:56-58 | failed polls are swallowed: any run of failed requests leaves the displayed transaction unchanged |
| `TransactionStatus.DataComesFromResponses` | client/src/pages/TransactionStatus.js:49-50 | the displayed transaction after any run is the initial one or exactly what some response carried; running out of budget never turns it into anything else |
| `TransactionStatus.TransactionStatusPage.OpenWithdrawal` | client/src/pages/TransactionStatus.js:316-317 | the withdraw button shows the form and changes nothing else |
| `TransactionStatus.TransactionStatusPage.UpdateWithdrawalField` | client/src/pages/TransactionStatus.js:330-366 | typing in one bank-detail input updates that field only |
| `TransactionStatus.TransactionStatusPage.HandleWithdrawal` | client/src/pages/TransactionStatus.js:72-90 | a request is sent iff account number, IFSC code and holder are all non-empty (and a transaction is shown), carrying its amount and the details; an accepted request hides the form; otherwise the form stays and the matching error is shown |
| `TransactionHistory.Filter` | client/src/pages/TransactionHistory.js:94-106 | `filter` keeps every occurrence of each entry that passes the criterion and no occurrence of one that fails (equal multisets of counts), so it never lengthens the list |
| `TransactionHistory.MatchesSearch` | client/src/pages/TransactionHistory.js:94-100 | the search test on one entry (hash, sender, receiver and currency ignoring case, amount respecting it); the empty term matches every entry |
| `TransactionHistory.SearchIgnoresFieldCase` | client/src/pages/TransactionHistory.js:93-101 | lower-casing an entry's hash, addresses and currency never changes whether a search term matches it |
| `TransactionHistory.FilterSubsequence` | client/src/pages/TransactionHistory.js:94-106 | one filter pass yields an order-preserving subsequence of its input |
| `TransactionHistory.FilterTwiceSubsequence` | client/src/pages/TransactionHistory.js:90-106 | the search pass followed by the status pass still yields an order-preserving subsequence of the original list |
| `TransactionHistory.FilterKeepsAll` | client/src/pages/TransactionHistory.js:94-106 | a list whose every entry passes the criterion comes back unchanged |
| `TransactionHistory.FilterTransactions` | client/src/pages/TransactionHistory.js:89-109 | the result is an order-preserving subsequence holding every occurrence of the entries matching the term (when non-empty) and the status (when not 'all'), and no other entry; with a status filter every result has that status; an empty term with 'all' returns the list unchanged |
| `TransactionHistory.FilterIdempotent` | client/src/pages/TransactionHistory.js:89-109 | filtering an already filtered list with the same term and status returns it unchanged |
| `TransactionHistory.FormatAddress` | client/src/pages/TransactionHistory.js:137-140 | an empty address gives '', otherwise the first six characters (or all, if shorter), "..." and the last four |
| `TransactionHistory.FormatAddressAgrees` | client/src/pages/TransactionHistory.js:137-140 | the history page truncates every address exactly as the confirm page does with the full address hidden |
| `TransactionHistory.CsvCells` | client/src/pages/TransactionHistory.js:154-166 | every exported row has one cell per column name (eleven) |
| `TransactionHistory.CsvRows` | client/src/pages/TransactionHistory.js:154-166 | the export has one row per filtered transaction, in the same order, row i being transaction i's cells joined by commas |
| `TransactionHistory.CsvText` | client/src/pages/TransactionHistory.js:152-167 | the exported text begins with the header line, and when there are transactions a newline follows it |
| `TransactionHistory.CsvOfNothing` | client/src/pages/TransactionHistory.js:152-167 | an empty list exports the header line alone, with no trailing newline |
| `TransactionHistory.CsvAppend` | client/src/pages/TransactionHistory.js:152-167 | one more transaction adds a newline and its row at the end of the text, so rows keep their order and no newline trails |
| `TransactionHistory.HeaderReadsBack` | client/src/pages/TransactionHistory.js:153 | the header line holds no newline and splits at commas into the eleven column names |
| `TransactionHistory.RowReadsBack` | client/src/pages/TransactionHistory.js:154-167 | a row whose cells hold no comma or newline has no newline and splits at commas into its eleven cells |
| `TransactionHistory.CsvReadsBack` | client/src/pages/TransactionHistory.js:152-167 | when no cell holds a comma or newline, the text splits at newlines into the header and the rows in order, and each row splits at commas into its cells |
| `TransactionHistory.CommaShiftsColumns` | client/src/pages/TransactionHistory.js:161-167 | nothing is quoted: a rendered timestamp containing a comma splits its row into more cells than there are column names |
| `TransactionHistory.DistinctCountsBounded` | client/src/pages/TransactionHistory.js:344-361 | entries with three different statuses together number no more than all entries |
| `TransactionHistory.Summarize` | client/src/pages/TransactionHistory.js:336-364 | the total is the length of the whole list; completed, pending and failed count that list's entries with each status (as the status filter alone would keep) and together never exceed the total |
| `TransactionHistory.HistoryPage.Stats` | client/src/pages/TransactionHistory.js:336-364 | the summary cards are taken over the full list, not the filtered one, and their three counts never exceed the total |
| `TransactionHistory.HistoryPage.LoadTransactions` | client/src/pages/TransactionHistory.js:22-87 | a stored list is loaded as is; without one the demo entries are loaded and written to storage; the shown list is refiltered and loading ends false |
| `TransactionHistory.HistoryPage.SetSearchTerm` | client/src/pages/TransactionHistory.js:18-20 | a new search term is kept and the shown list is the filter of the current list, term and status |
| `TransactionHistory.HistoryPage.SetStatusFilter` | client/src/pages/TransactionHistory.js:18-20 | a new status filter is kept and the shown list is the filter of the current list, term and status |
| `TransactionHistory.HistoryPage.Export` | client/src/pages/TransactionHistory.js:151-176 | the exported text is the CSV of the currently filtered list, and the export shows 'Transaction history exported successfully!' |
| `Wrappers.ErrorText` | client/src/pages/ConfirmTransfer.js:67 | `error.message \|\| fallback`: the message when it is non-empty, otherwise the fallback |
| `Cors.AllowedOrigins` | server/src/index.js:14-22 | the six fixed origins in order, followed by FRONTEND_URL exactly when it is set and non-empty; no entry is empty |
| `Cors.Decide` | server/src/index.js:27-59 | a missing or empty origin, a listed origin, a localhost origin on http or https, any origin containing ".vercel.app" or ".netlify.app", and every origin in development mode is allowed; a denial always carries "Not allowed by CORS" |
| `Cors.DeniedIffNoRuleMatches` | server/src/index.js:28-58 | an origin is denied exactly when it is present and non-empty, unlisted, not localhost, mentions no hosting domain, and the mode is not development |
| `Cors.DevelopmentWidens` | server/src/index.js:51-55 | whatever is allowed outside development mode is allowed in development mode |
| `Cors.ConfiguredOriginsAllowed` | server/src/index.js:14-34 | each fixed origin, and a configured FRONTEND_URL, is allowed in any mode |
| `Cors.SubstringNotSuffix` | server/src/index.js:36-44 | "https://swiftchain.vercel.app.example.com" is allowed outside development mode, since the hosting rule is a substring test, and so is "http://localhost:8080" |
| `Cors.UnknownOriginDenied` | server/src/index.js:56-58 | "https://example.com" in production mode is denied with "Not allowed by CORS" |

## Left out

- Conversion and fee arithmetic (rate lookup, platform and network fees, net amount, the bank
  fee comparison). It is computed in the server's routes module, which is not part of this
  model. The pages only display it, so `Conversion` carries just the converted amount they act on.
- The fee-comparison load on the send page (client/src/pages/SendMoney.js:17-29). It is display only.
- Wallet provider calls (connect, switch network, balance reads, sending). Their results enter as
  parameters (`WalletStatus`, `Option<Balances>`, `Result<Receipt, string>`).
- HTTP calls to the conversion, status and withdrawal endpoints. Their answers enter as parameters.
- Express, helmet, morgan and cors wiring, the routes, the health, error and 404 handlers, and
  `app.listen`. These are framework set-up.
- Logging: the `console.log` calls of the CORS callback (server/src/index.js:53,57) and the
  pages' `console.error` calls are not modelled.
- `Strings.NatToString` matches JavaScript's `String(n)` only below 1e21; above that JavaScript
  uses exponent notation. This affects the `confirmations` and `blockNumber` cells of the CSV
  and the gas fields of the stored record.
- Strings are sequences of Unicode scalar values. JavaScript's `length` and `slice` count UTF-16
  code units, so `FormatAddress` differs from the page on characters outside the Basic
  Multilingual Plane.
- Poll responses land atomically within their own tick. In the page, a slow response can arrive
  after a later tick or after `clearInterval`, so a late 'pending' can overwrite a 'confirmed'.
  The model does not capture that reordering.
- Timer concurrency: the `setInterval`/`setTimeout` race at the 120000 ms boundary (the model
  allows the 40th poll and stops after it), and the overlapping intervals that "Refresh Status"
  starts. `LoadTransactionData` restarts one poller instead. Intervals are never cleared on
  unmount in the source either.
- `parseFloat`: the numeric value of a field is passed beside its text, so `NaN` (for which
  `< 0.01` is false) is not modelled. `toFixed`, `toLocaleString` and `Date` are not modelled:
  the date rendering is the parameter `formatDate`, and the send time is the parameter `now`.
- `toLowerCase` is modelled for ASCII letters only. The search's case folding of other letters
  is not captured.
- JSON parsing of stored values and its failure paths. Storage holds typed values.
- Rendering: toasts are returned as texts only. Three toasts are not modelled: 'Copied to
  clipboard!' (client/src/pages/TransactionStatus.js:69), and the load-failure toasts of the
  JSON-parsing paths (client/src/pages/TransactionStatus.js:36 and
  client/src/pages/TransactionHistory.js:83). Every other toast of the four pages is returned. Status icons and colours, the
  copy-to-clipboard, back, cancel, show-full-address and home buttons, and the Blob/URL download
  are not modelled either.
- `ConfirmTransfer.ConfirmTransferPage.HandleTransfer`: the insufficient-balance toasts are
  modelled without the two amounts they quote, because JavaScript number printing is not modelled.
- Viewing a history entry (client/src/pages/TransactionHistory.js:146-149) is not modelled.
  It stores a history entry, whose amount is text, in the slot that holds the confirm page's
  record.
- The demo entries of the history page (client/src/pages/TransactionHistory.js:33-77). They
  enter as the `seed` parameter.
- client/src/App.js (route table) and client/src/pages/Conversion.js (display and redirect) are
  not part of this model.
