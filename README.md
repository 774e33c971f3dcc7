# bnAlphaChecker balance monitor — a Dafny model

bnAlphaChecker watches Binance accounts and OKX on-chain wallets. A checking round goes through
every configured account:

- It sums the spot and funding balances of the exchange account in USDT. Stable coins count 1:1.
  Other assets are priced from one ticker snapshot, directly or bridged through BTC.
- It asks the OKX wallet API for the wallet's total value, trying up to five times.
- It appends one ledger row per source it attempted, even when every request for that source failed.
- It sends each user a notification built by `format_user_assets_message`. A global gate keeps
  timeout reports at least an hour apart.

Three companion scripts work on what the monitor leaves behind:

- `query_balance_history.py` reads the ledger: the recent history and per-account summaries.
- `view_logs.py` selects and filters the daily log files.
- `test_okx_api.py` validates the OKX part of the configuration.

The model follows the program's structure, one module per component:

| module | file | models |
|---|---|---|
| `Pricing` | pricing.dfy | `convert_to_usdt`, `convert_funding_to_usdt` (loop methods, proved against `ToUsdt`) |
| `WalletFetch` | wallet_fetch.dfy | the retry loop of `get_okx_wallet_balance` |
| `Signing` | signing.dfy | the signed query strings and the OKX signing message |
| `Ledger` | ledger.dfy | `save_balance_to_db` as an append to a `BalanceLedger` object |
| `Aggregator` | aggregator.dfy | `check_binance_account_silent`, `check_okx_wallet_silent`, `check_user_assets`, `check_all_accounts` |
| `Report` | report.dfy | `format_user_assets_message`: main assets, chain names, masked address, the message lines |
| `Notify` | notify.dfy | the `sendtext_remote` timeout gate, as a `Notifier` object holding `sendtimeout` |
| `History` | history.dfy | `get_balance_history`, `get_account_summary`, the sort in `print_balance_chart` |
| `LogViewer` | log_viewer.dfy | `get_log_files`, `view_logs`, `list_log_files` |
| `OkxConfigCheck` | okx_config_check.dfy | `test_okx_config` and the wallet search of `test_okx_api_call` |
| `Text`, `Sorting`, `Seqs`, `Config`, `Assets`, `Clock`, `Wrappers` | | string helpers (`split`, `strip`, `join`, `replace`, ASCII `upper`/`lower`, code-point order), a comparator sort, filters, configuration shapes with Python truthiness, the result records, the day arithmetic, `Option` |

Everything outside the process is an input:

- the HTTP responses: an optional price snapshot, a sequence of wallet-request outcomes, optional
  account listings;
- the clock;
- the directory listing and file contents;
- `config.json`;
- the cryptographic primitives: SHA-256, HMAC-SHA256 and base64, passed as functions.

The loops of the source (the conversions, the retry loop, the aggregation, the SQL and log filters,
the message building) are methods with loop invariants. Each is proved against a function, and the
properties are proved about those functions.

## Model

| member | source | states |
|---|---|---|
| Pricing.ConvertToUsdt | main.py:244-295 | The spot total is `ToUsdt(balances, Spot, snapshot)`. The price list is fetched exactly when some holding with `free+locked > 0` is not USDT, BUSD or USDC. Without a fetch, or when the fetch fails, the total is the stable-coin sum. |
| Pricing.ConvertFundingToUsdt | main.py:197-242 | The same for the funding account, on `free` alone. |
| Pricing.SpotStablePass | main.py:246-264 | The first spot loop sums exactly the stable-coin part, and it collects a pair to price iff some positive holding is not a stable coin. |
| Pricing.SpotPricedPass | main.py:276-291 | The second spot loop adds exactly the priced part of every positive holding other than USDT and BUSD. |
| Pricing.FundingStablePass | main.py:199-213 | The first funding loop sums exactly the stable-coin part of `free`, and it collects a pair iff some positive holding is not a stable coin. |
| Pricing.FundingPricedPass | main.py:225-238 | The second funding loop adds exactly the priced part of every positive holding other than the three stable coins. |
| Pricing.NeedsPricesMeaning | main.py:203-215 | `symbols_needed` is non-empty iff some holding with a positive amount is not a stable coin. |
| Pricing.PassesAddUpFunding | main.py:203-238 | The stable-coin pass plus the priced pass equals the per-holding reference sum: `free` for a stable coin, else `free × p[X+"USDT"]`, else `free × p[X+"BTC"] × p["BTCUSDT"]`, else 0. |
| Pricing.PassesAddUpSpot | main.py:250-291 | Spot's two passes add up to its per-holding reference. USDC is in the first pass and is not excluded from the second. |
| Pricing.FundingPartsAddUp | main.py:207-238 | For one funding holding, the two passes together add its case-by-case value. |
| Pricing.SpotPartsAddUp | main.py:256-291 | For one spot holding, the two passes together add its value, with USDC counted at 1:1 and again at its price. |
| Pricing.FundingTotalPerHolding | main.py:197-242 | With a snapshot, the funding total is the per-holding reference sum. |
| Pricing.SpotTotalPerHolding | main.py:244-295 | When a fetch happens, the spot total is the per-holding reference sum. There, a USDC holding counts once at 1:1 and once more at its price. |
| Pricing.FundingPricedPassEmpty | main.py:225-238 | Without a non-stable positive holding, the priced pass adds nothing. |
| Pricing.FundingUnpricedIgnored | main.py:229-238 | A non-stable asset with neither a direct nor a BTC-bridged price leaves the funding total unchanged. |
| Pricing.ToUsdtNonNegative | main.py:197-295 | With non-negative prices, both totals are non-negative. |
| Pricing.TotalsNonNegative | main.py:197-295 | With non-negative prices, the stable pass and the priced pass are each non-negative. |
| Pricing.SpotExample | main.py:250-291 | 100 USDT plus 2 ETH at 3000 give 6100. |
| Pricing.SpotUsdcCountedTwice | main.py:261-285 | 10 USDC plus 1 ETH at 3000, with USDCUSDT at 1, give 3020: the USDC is counted twice. |
| Pricing.SpotUnpricedAssetChangesTotal | main.py:264-285 | Adding an unpriced asset triggers the fetch, and that doubles the USDC contribution: the total goes from 10 to 20. |
| WalletFetch.FirstSuccessFrom | main.py:318-364 | The first successful attempt among the remaining ones, and that no earlier one succeeded. |
| WalletFetch.GetOkxWalletBalance | main.py:309-392 | The result is `(value of the first success, True)`, or `(0.0, False)`. Every attempt before the last one failed. There are at most 5 attempts, and one sleep fewer than attempts. |
| WalletFetch.WalletBalanceMeaning | main.py:315-392 | Success iff one of the first five attempts gets status 200, `code == "0"`, non-empty `data` and a parsable `totalValue`. The value is that of the first such attempt. |
| WalletFetch.OnlyFiveAttemptsMatter | main.py:315-318 | Outcomes after the fifth never change the result. |
| Signing.QueryStringRoundTrip | main.py:332 | Joining `k=v` pairs with `&` and splitting again gives back the pairs, when no key or value holds `&` or `=`. |
| Signing.BinanceQueryText | main.py:149-151 | The Binance query is `timestamp=<ms>&recvWindow=60000`. |
| Signing.BinanceUrlQuery | main.py:149-158 | The URL's query is the signed string followed by `&signature=` and the HMAC of exactly that string. |
| Signing.SignedQueryFields | main.py:151-158 | The query reads back as the timestamp, the receive window and the signature. |
| Signing.BinanceRequestReadsBack | main.py:145-158 | The request sends the timestamp it signed, the signature of what it sends, and the `X-MBX-APIKEY` header. |
| Signing.OkxQueryText | main.py:324-332 | The OKX query is `address=..&chains=..&assetType=0&excludeRiskToken=true`. |
| Signing.OkxMessageText | main.py:297-345 | The signed message is `ts + "GET" + endpoint + "?" + query + ""`. |
| Signing.OkxUrlQuery | main.py:333 | The URL carries the same query that was signed. |
| Signing.OkxRequestSignsWhatItSends | main.py:324-354 | `OK-ACCESS-SIGN` is the base64 HMAC of the message built from the URL's own query, and `OK-ACCESS-TIMESTAMP` is the signed timestamp. |
| Ledger.HashPrefix | main.py:400 | The stored identifier is at most 16 characters and a prefix of the digest. |
| Ledger.StoredIdentifierIsDigestPrefix | main.py:400 | For a 64-digit SHA-256 hex digest, it is the first 16 digits. |
| Ledger.BalanceLedger.Append | main.py:394-412 | Exactly one row is added at the end, with the hashed identifier, and the earlier rows are kept. |
| Aggregator.Display | main.py:489-518 | Display entries all exceed 0.001 and carry the sub-account. |
| Aggregator.DisplayMembers | main.py:489-518 | An entry is listed iff some holding's amount exceeds 0.001 and the entry is built from that holding. Funding entries have `locked = 0`. |
| Aggregator.DisplayConcat | main.py:526 | Listing the spot holdings and then the funding holdings lists each part in order. |
| Aggregator.ListSpot | main.py:492-503 | The spot list is, in order, the entries of the holdings whose `free + locked` exceeds 0.001. |
| Aggregator.ListFunding | main.py:514-523 | The funding list is, in order, the entries of the holdings whose `free` exceeds 0.001. |
| Aggregator.SpotPart | main.py:482-503 | Without an account listing both the total and the list are empty; otherwise the total is the spot conversion and the list is the spot entries. |
| Aggregator.FundingPart | main.py:506-523 | The same for the funding listing, where an empty listing also counts as missing. |
| Aggregator.BinanceOutcome | main.py:469-549 | There is no result iff `api_key` or `api_secret` is empty. The total is spot plus funding, and the balances are the spot list followed by the funding list. |
| Aggregator.CheckBinanceAccountSilent | main.py:469-549 | Returns `BinanceOutcome`. It appends exactly one `binance` row when there is a result, and none otherwise. |
| Aggregator.WalletOutcome | main.py:551-598 | There is no result iff the address is missing or one of the four OKX settings is empty. `chains` defaults to `"1"`. A failed fetch reports 0. |
| Aggregator.CheckOkxWalletSilent | main.py:551-598 | Returns `WalletOutcome`. It appends exactly one `okx_wallet` row whenever there is a result, failed fetches included. |
| Aggregator.CheckUserAssets | main.py:429-467 | The user assets are `UserAssetsOf`, and the ledger grows by `UserRows`. There is one notification per `notify_users` entry when notifications are enabled, none otherwise. |
| Aggregator.CheckUserSources | main.py:437-457 | The user assets are the exchange result and the wallet result, the total adds the exchange total and the wallet value only when its fetch succeeded, and the ledger grows by one row per attempted source, written even when its requests failed. |
| Aggregator.CheckUserWallet | main.py:450-454 | The wallet is checked only when it is configured together with the OKX settings; a result appends exactly its row. |
| Aggregator.UserNotices | main.py:460-465 | One notification per `notify_users` entry, in order, each carrying the title, the note and the assets. |
| Aggregator.QueueNotices | main.py:460-465 | The queued notifications are `UserNotices`: none when notifications are disabled or nobody is listed. |
| Aggregator.CheckAllAccounts | main.py:414-427 | An unloadable configuration changes nothing. Otherwise the ledger grows by the rows of every account in order, and the notifications are those of every account in order. |
| Aggregator.RoundRowCount | main.py:414-427 | A round writes exactly one row per attempted source, whatever the services return. |
| Aggregator.OneRowPerAttemptedSource | main.py:469-598 | One row per attempted source: a `binance` row when both credentials are set, and an `okx_wallet` row when the wallet has an address and the OKX settings are complete. |
| Aggregator.DustCountedNotListed | main.py:489-500 | A USDT or BUSD spot holding, or any stable-coin funding holding, at or below 0.001 is counted in the sum but missing from the display list. |
| Aggregator.BinanceBalancesListed | main.py:489-521 | `balances` holds exactly the spot entries above the dust threshold and the funding entries whose `free` is above it. |
| Aggregator.ExchangeDownWalletUp | main.py:444-457 | If both exchange requests fail and the wallet fetch succeeds, the user total is the value of the first successful wallet attempt. |
| Aggregator.FailedWalletStillRecorded | main.py:575-585 | After five failed attempts the wallet adds nothing to the total. Its row is still written, with total 0, under `note + "-OKX钱包"`. |
| Aggregator.UserTotalNonNegative | main.py:444-457 | With non-negative prices and wallet values, the user total is non-negative. |
| Report.AboveOne | main.py:622 | The kept entries all exceed 1, and there are no more of them than the input. |
| Report.AboveOneMembers | main.py:622 | An entry is kept iff it is in the input and its total exceeds 1. |
| Report.TopAssetsChoice | main.py:619-622 | At most 8 main assets, each above 1, drawn from the balance list, largest first. An entry above 1 is left out only when 8 entries at least as large are shown. |
| Report.ChainNameFallback | main.py:635-645 | An id outside the table is shown as `"Chain-" + id`. |
| Report.ChainDisplayFieldCount | main.py:644-645 | There is one name per comma-separated field. |
| Report.ChainDisplayKnown | main.py:635-645 | `"1"` is shown as `Ethereum`. |
| Report.ChainDisplayTwo | main.py:644-645 | Two fields are shown as two names joined by `", "`. |
| Report.ChainDisplayStripped | main.py:644-645 | Fields are stripped before lookup: for ids without commas or spaces, `x + ", " + y` is shown as the name of `x`, `", "` and the name of `y`. |
| Report.ChainDisplayUnknown | main.py:645 | An unknown id is shown with the `Chain-` prefix. |
| Report.MaskAddress | main.py:651 | The address is shown as its first 6 characters, `...`, then its last 4, with Python's slice bounds for short addresses. |
| Report.MaskHidesMiddle | main.py:651 | Characters between the first 6 and the last 4 never reach the report. |
| Report.MaskAddressExample | main.py:651 | A long and a short address, masked. |
| Report.FormatUserAssetsMessage | main.py:600-655 | Builds the line sequence `Message`. |
| Report.AppendBinanceSection | main.py:608-629 | Adds exactly the exchange section: the totals and main assets of a result, or the "not configured" line. |
| Report.AppendExchangeResult | main.py:609-627 | Adds the account totals followed by the main-asset lines. |
| Report.AppendAccountTotals | main.py:610-616 | Adds the exchange total, then the spot and funding totals, each only when positive. |
| Report.AppendMainAssets | main.py:619-627 | Sorts largest first and lists the main assets under a header, if there are any. |
| Report.AppendAssetLines | main.py:625-627 | Adds one line per main asset, in order. |
| Report.AppendWalletSection | main.py:632-653 | Adds the wallet value or the failure mark, then the masked address, or the "not configured" line. |
| Report.MessageMeaning | main.py:600-655 | Header, user, time and total come first and the time comes last. The "not configured" exchange line appears iff there is no exchange result. Each sub-account total appears iff it is positive. The main-asset header appears iff there are main assets. The wallet value appears iff the fetch succeeded, the failure mark iff it failed, and the masked address iff a wallet was checked. |
| Report.BinanceSectionMeaning | main.py:608-629 | The same facts for the exchange section alone. |
| Report.AccountTotalLinesMeaning | main.py:610-616 | The totals block holds the exchange total, a spot line iff the spot total is positive and a funding line iff the funding total is positive, and nothing else. |
| Report.MainAssetLinesKinds | main.py:619-627 | The main-asset block holds only its header and asset lines, and the header iff there are main assets. |
| Report.MessageSections | main.py:600-653 | A line of an exchange kind is in the report iff it is in the exchange section, and a line of a wallet kind iff it is in the wallet section. |
| Report.WalletSectionMeaning | main.py:632-653 | The same facts for the wallet section alone. |
| Report.MessageAssetLines | main.py:619-627 | The asset lines are exactly the main assets. |
| Report.SectionAssetLines | main.py:619-627 | The asset lines of the exchange section are exactly those of the main assets. |
| Notify.Notifier.SendTextRemote | main.py:57-77 | A timeout report within an hour of the last one is dropped and leaves the state unchanged. Otherwise one payload is posted: the title line plus the content, or the raw content. Posting a timeout report restarts the hour. |
| Notify.TimeoutReportsSpaced | main.py:57-64 | Over any series of calls, every non-timeout notification goes out. Timeout reports that go out are at least 3600 s after the start and at least 3600 s apart. |
| Notify.OrdinaryNoticesSent | main.py:59-64 | Every notification that is not a timeout report goes out. |
| Notify.SentReportsAfterStart | main.py:59-63 | A timeout report goes out only an hour or more after the starting `sendtimeout`. |
| Notify.PairSpaced | main.py:59-63 | Two timeout reports that both go out are at least 3600 s apart. |
| Notify.SecondTimeoutWithinHourDropped | main.py:60-63 | Two timeout reports a minute apart: only the first goes out. |
| History.BuildHistoryQuery | query_balance_history.py:33-44 | The first condition is `timestamp >= ?` with the window start. The note condition and parameter are added iff the note is truthy. A row satisfies the conditions iff it is in the window (and carries the note), and the query ends with `ORDER BY timestamp DESC`. |
| History.WhereMembers | query_balance_history.py:33-42 | The WHERE clause keeps exactly the rows that satisfy it, each as often as it is stored. |
| History.SelectIsWhere | query_balance_history.py:33-47 | Running the built conditions with their parameters selects exactly the in-window rows, in storage order. |
| History.QueryReturnsHistory | query_balance_history.py:33-48 | The built query, executed and ordered newest first, returns the history rows. |
| History.RecordsOf | query_balance_history.py:50-59 | One record per fetched row, in order. `asset_details` is `[]` exactly when the stored value is empty. |
| History.HistoryRowsMeaning | query_balance_history.py:30-44 | History rows are the ledger rows at or after `now − days` (with the note when one is given), newest first. Each such row appears exactly as often as it is stored, and no other row appears. |
| History.GetBalanceHistory | query_balance_history.py:22-61 | The rows come from running the built query. One record per selected row, in order. `asset_details` is `[]` exactly when the stored value is empty. |
| History.Keys | query_balance_history.py:79 | The group keys are distinct. |
| History.KeysMembers | query_balance_history.py:79 | There is a group for every `(account_type, account_note)` present in the rows, and only for those. |
| History.GroupOfMembers | query_balance_history.py:79 | A group holds exactly the rows with its key. |
| History.UsdtExtremes | query_balance_history.py:76-77 | MIN and MAX of `total_usdt` bound every row of the group and are attained. |
| History.TimeExtremes | query_balance_history.py:73-74 | MIN and MAX of `timestamp` bound every row of the group and are attained. |
| History.SumBetween | query_balance_history.py:75 | The group sum lies between count × min and count × max. |
| History.SumAtLeast | query_balance_history.py:75-76 | The group sum is at least count × MIN. |
| History.SumAtMost | query_balance_history.py:75-77 | The group sum is at most count × MAX. |
| History.AverageOfGroup | query_balance_history.py:75-77 | AVG lies between MIN and MAX. |
| History.AggregateOfDescribes | query_balance_history.py:68-79 | An aggregate describes its group: COUNT is the number of rows with its key, AVG is their SUM over COUNT, and MIN/MAX of `timestamp` and of `total_usdt` bound every row with the key and are each attained by one. |
| History.GroupBounds | query_balance_history.py:73-77 | Every row with the key lies between the group's MIN and MAX, for both the timestamp and the total. |
| History.GroupAttainsUsdt | query_balance_history.py:76-77 | MIN and MAX of `total_usdt` are each the total of some row with the key. |
| History.GroupAttainsTime | query_balance_history.py:73-74 | `first_record` and `last_record` are each the timestamp of some row with the key. |
| History.AggregatesDescribe | query_balance_history.py:68-79 | Every aggregate of the summary describes its group: exact COUNT, AVG = SUM/COUNT, and attained MIN/MAX of timestamp and total. |
| History.SummaryRowsMeaning | query_balance_history.py:68-81 | One summary per distinct key, every key of the ledger covered, each describing its group (exact COUNT, AVG = SUM/COUNT, attained MIN/MAX of timestamp and total), ordered by `last_record` descending. |
| History.GetAccountSummary | query_balance_history.py:63-99 | One summary per aggregate, in order. Each average, min and max is rounded, or 0 when the aggregate is 0. |
| History.PrintBalanceChart | query_balance_history.py:101-116 | Nothing is shown for an empty history. The array is re-sorted in place oldest first, and the shown records are its new contents. |
| History.ChartOrder | query_balance_history.py:111 | The re-sorted history is a permutation ordered by ascending timestamp. |
| LogViewer.GetLogFiles | view_logs.py:18-41 | A missing directory gives `[]`. Otherwise the result is the kept paths, sorted. |
| LogViewer.LogFilesMeaning | view_logs.py:29-41 | A path is returned iff its entry is a `bnalpha_*.log` whose date field parses inside `[now − days, now]`. The result is in ascending order. |
| LogViewer.WindowPathsMembers | view_logs.py:29-37 | The kept paths are exactly the joined paths of the kept entries. |
| LogViewer.DailyLogKept | view_logs.py:30-37 | `bnalpha_<date>.log` is kept iff the date parses inside the window. |
| LogViewer.ErrorLogSkipped | view_logs.py:33-39 | `bnalpha_error_<date>.log` has `error` as its date field and is always skipped by any date parser that, like `strptime` with `%Y-%m-%d`, accepts no string starting with an ASCII lower-case letter (every string `%Y` accepts starts with a decimal digit). |
| LogViewer.FilterLines | view_logs.py:60-77 | The printed lines of one file are its stripped lines that pass the filters, in order. |
| LogViewer.PassesFilters | view_logs.py:62-73 | A stripped line passes iff it is non-empty, holds `"| LEVEL "` when a level is given, and holds the search term ignoring case when one is given. |
| LogViewer.ViewFile | view_logs.py:55-77 | The printed lines of one file are its shown lines; an unreadable file prints nothing. |
| LogViewer.CountsAt | view_logs.py:59-82 | Each file's count is the number of its printed lines. |
| LogViewer.CountsSum | view_logs.py:77-89 | The total count is the sum of the per-file counts, that is the number of lines printed. |
| LogViewer.ViewLogs | view_logs.py:43-89 | An empty list prints nothing. Otherwise it prints what passes the filters, file after file. Each file's count is the number of its printed lines (0 when unreadable), and the total is their sum and the number printed. |
| LogViewer.ShownLinesMembers | view_logs.py:61-75 | A stripped line is printed iff it is non-blank, contains `"| LEVEL "` when a level is given, and contains the search term ignoring case when one is given. |
| LogViewer.PrintedLinesPassFilters | view_logs.py:61-75 | Every printed line is non-blank, passes both filters and comes from one of the files. |
| LogViewer.ListLogFiles | view_logs.py:91-124 | A missing directory or no `.log` file gives nothing. Otherwise it gives the `.log` names, sorted. |
| LogViewer.ListedNamesMeaning | view_logs.py:100-121 | The listing shows exactly the `.log` names, in ascending order. |
| LogViewer.LogNamesMembers | view_logs.py:100-102 | A name is kept iff it is listed and ends in `.log`. |
| OkxConfigCheck.MissingKeysMeaning | test_okx_api.py:27-32 | A key is reported iff it is required and its setting is missing or empty. None is reported iff the settings are complete. |
| OkxConfigCheck.NothingConfiguredReportsAllKeys | test_okx_api.py:27-28 | With no settings, all four keys are reported, in checking order. |
| OkxConfigCheck.DefaultNoteNumbersFromOne | test_okx_api.py:44 | The default note is `用户` followed by the 1-based position. |
| OkxConfigCheck.CheckWallets | test_okx_api.py:37-56 | Fails at the first configured wallet without an address, naming its note. Otherwise passes with the number of configured wallets, which may be 0. |
| OkxConfigCheck.TestOkxConfig | test_okx_api.py:16-66 | An unreadable file fails. Then missing settings fail with the missing keys. Then the first wallet without an address fails. It passes iff the settings are complete and every configured wallet has an address. |
| OkxConfigCheck.FindTestWallet | test_okx_api.py:80-89 | Returns the first account whose wallet has an address, with its note (default `测试用户`). Returns nothing iff there is none. |
| OkxConfigCheck.TestOkxApiCallAsWritten | test_okx_api.py:68-114 | As written, it passes iff no account has an addressed wallet (see Findings). |
| OkxConfigCheck.TestOkxApiCall | test_okx_api.py:84-107 | Corrected: it passes iff no account has a wallet with an address, or one of the five attempts succeeds. |

## Left out

- HTTP is not modelled:
  - Every request (Binance account, funding, ticker, OKX wallet, notification post) is replaced by
    its outcome, given as an input.
  - JSON decoding of responses, and `float()` of amount strings other than `totalValue`, are not
    modelled.
- HMAC-SHA256, SHA-256 and base64 are function parameters; the model states only the strings given
  to them.
- Time and concurrency are not modelled:
  - `time.sleep` is counted, not performed.
  - `time.time()` and `datetime.now()` are parameters. Dates are integers of seconds, and
    `strptime` is a partial parser passed in.
  - `sendtext_remote_delay`, the thread of `sendtext_remote_async` and the endless `run_scheduler`
    loop are not modelled.
- Storage and logging are not modelled: SQLite connections, `init_database` and `load_config`
  file reading, `json.dumps`/`json.loads` of `asset_details`, loguru setup and every log line. A
  ledger row holds the decoded details, so an empty stored string is not distinguished from NULL.
- Floating point is not modelled: amounts are `real`, `round(x, 2)` is a parameter, and the `:.2f`
  and `:.4f` renderings are not modelled.
- Aggregator.CheckAllAccounts: every ledger row of one round carries the same `now`. The source
  calls `datetime.now()` inside each save (main.py:409), so rows of one round have distinct
  timestamps that grow in write order. The model therefore does not promise that
  `get_balance_history`'s `ORDER BY timestamp DESC` (query_balance_history.py:44) lists a user's
  later `okx_wallet` row before their `binance` row. It keeps such same-round rows in ledger order
  instead.
- Report.FormatUserAssetsMessage: lines are kept as structured values rather than text. The
  `chain_display` string (`Report.ChainDisplay`) is computed by the source but never put into the
  message, and the model leaves it out of the message too.
- History.GetBalanceHistory: timestamps are integers, while the source compares stored timestamp
  text. SQLite's order among equal timestamps is unspecified, and the model breaks such ties
  stably.
- History.GetAccountSummary: SQLite's order among groups with equal `last_record` is unspecified.
  The model keeps such groups in order of first appearance. Because every row of a round shares
  one `now`, such ties are common in the model.
- Report.TopAssetsChoice: the order among entries with equal totals is not stated (Python's sort
  keeps list order).
- Text.Upper and Text.Lower: only ASCII letters change case. `str.upper`/`str.lower` and full
  Unicode case mapping are not modelled.
- `list_log_files` size and modification-time strings (`os.stat`) are not modelled. Neither are
  the printing of `print_balance_chart` and `print_account_summaries`, nor the `main` entry
  points.
- Generic `except Exception` paths (a malformed config object, a file that cannot be decoded) are
  not modelled. An unreadable log file yields no lines.
- The superseded `check_binance_account`, `check_user_okx_wallet`, `format_balance_message` and
  `format_okx_balance_message` (main.py:657-839) duplicate the modelled functions and are not
  modelled.

## Findings

| source | as written | input that shows it | evidently intended | confidence | as-written member | corrected member |
|---|---|---|---|---|---|---|
| test_okx_api.py:100-107 | `balance >= 0` compares the `(total, success)` pair returned by `get_okx_wallet_balance` (main.py:309) with `0`. Python raises `TypeError`, which `except Exception` turns into `False`. | Any configuration with an addressed wallet and an API that answers at once (`WorkingWalletScenario`): the test fails. | Unpack the pair and report success when the fetch succeeded. | high, not executed | OkxConfigCheck.TestOkxApiCallAsWritten | OkxConfigCheck.TestOkxApiCall |
