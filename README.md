# Transactions test task: the Bitcoin rate pipeline, event log and store, in Dafny

This project models the logic of the Transactions iOS app in Dafny and proves
properties of the model. The model covers:

- the Bitcoin rate repository, a refresh timer plus an online/offline refresh with a cache fallback;
- the rate service, which handles the ticker response;
- the in-memory analytics event log with its retention cap, its newest-first reads and the name/date query;
- the analytics event types and their parameter merge;
- the CoreData manager's record, rate and balance logic, over an in-memory store;
- the main screen's pagination state and balance deltas, and the add-transaction rule;
- `PaginationInfo`;
- the per-day grouping of transactions;
- the network layer's URL creation, request building and response classification.

One Dafny module per Swift file:

| module | file | Swift source |
|---|---|---|
| `RateRepository` | `rate_repository.dfy` | `BitcoinRateServiceRepository` |
| `RateService` | `rate_service.dfy` | `BitcoinRateServiceImpl` |
| `AnalyticsStorage` | `analytics_storage.dfy` | `InMemoryAnalyticsStorage` |
| `AnalyticsService` | `analytics_service.dfy` | `AnalyticsServiceImpl` |
| `AnalyticsEvents` | `analytics_events.dfy` | `CoreDataErrorEvent`, `BitcoinRateEvent`, `BitcoinRateEventFactory` |
| `CoreData` | `core_data.dfy` | `CoreDataManager` |
| `MainScreen` | `main_screen_model.dfy` | `MainScreenModel` |
| `AddTransaction` | `add_transaction_model.dfy` | `AddTransactionScreenModel` |
| `Pagination` | `pagination.dfy` | `PaginationInfo` |
| `TransactionSections` | `transaction_section.dfy` | `TransactionSection`, `TransactionGrouper` |
| `NetworkService` | `network_service.dfy` | `NetworkService` |
| `NetworkProtocols` | `network_protocols.dfy` | `NetworkError`, `HTTPMethod`, `APIEndpoint` |

Three helper modules support them:

- `Wrappers`: `Option` and `Result`.
- `Text`: decimal rendering of integers, with a parse round trip.
- `Sequences`: a newest-first sort, proved to be a sorted permutation. It puts records with equal dates in one fixed order.

How the environment is represented:

- Objects whose fields the Swift code updates are Dafny classes whose methods
  modify those fields.
- The analytics service each component talks to is a sequence of the
  `EventRecord`s (name and parameters) handed to it.
- A subscriber callback is a sequence of the values it received.
- `Date()` is an integer clock field. `UUID()` is a counter.
- `Calendar.startOfDay` is a function parameter.
- Connectivity and the outcome of a fetch are inputs to each operation.
- A failing CoreData store is a `fault: Option<string>` field: while it is set,
  every fetch throws with that text.

The repository's fetch follows the synchronous rate service the tests use: the
subscriber hears the rate before the completion handler runs.

Where the code and its design notes disagree, the model follows the code. The
design notes say the online fetch refreshes the cached rate, but nothing in
`BitcoinRateServiceRepository` or `BitcoinRateServiceImpl` calls `saveRate`. The
model therefore never stores a fetched rate, and the cache fallback reads only
rates stored by other means.

`AnalyticsService.swift` declares only `trackEvent(name:parameters:)`,
`getEvents()` and `clearEvents()`. The structured `trackEvent(_:)` and the
`getEvents(name:fromDate:toDate:)` query are modelled from how
`TransactionsTestTaskTests/AnalyticsServiceTests.swift` uses them, and their
rows cite those tests.

## Model

The definitions without a contract of their own are covered by the lemma or method rows that cite the same lines:
- `NetworkService.Classify` and `IsSuccessStatus`: `ClassifyOutcomes`, `SuccessStatusBounds` and `Request`.
- `NetworkProtocols.ErrorDescription`: `ServerErrorDescriptionCarriesCode` and `ServerErrorDescriptionsDistinct`.
- `NetworkProtocols.ErrorText`: `ServerErrorTextCarriesCode` and `RefreshOutput`.
- `NetworkProtocols.RawValue` and `FromRawValue`: `RawValueRoundTrip` and `BuildRequest`.
- `MainScreen.MainScreenModel.HasMorePages`: `LoadNextPage`, `GetPaginationInfo` and `LoadedPagesArePrefix`.
- `MainScreen.MainScreenModel.Sections`: `GroupTransactions`.
- `MainScreen.Selected`: `RemoveTransaction`.
- `Pagination.PaginationInfo.IsFirstPage` and `IsLastPage`: `GetPaginationInfo`.
- `TransactionSections.TransactionSection.TotalAmount` and `Sum`: `SumAppend`.
- The eight `AnalyticsEvents` factory functions:
  - `FactoryNamesDistinct`;
  - `StartedParameters`, `OnlineSuccessParameters` and `OnlineFailureParameters`;
  - `StartShape`, `ForceShape` and `RefreshOutput`.

| member | source | states |
|---|---|---|
| RateRepository.CachedOutput | TransactionsTestTask/Services/BitcoinRateServiceRepository.swift:114-135 | exactly one event with `source` "cached": `offline_success` with `cached_date` and the cached value relayed iff a rate is stored, otherwise `offline_failure` with `error` "no_cached_rate_available" and nothing relayed |
| RateRepository.RefreshOutput | TransactionsTestTask/Services/BitcoinRateServiceRepository.swift:89-112 | online: `online_attempt` first; on success exactly [attempt, success] and the fetched value relayed; on failure `online_failure` with the error text second; a cache event occurs iff offline or the fetch failed, and then it is last; at most one value relayed; no timer events |
| RateRepository.RefreshNeverBothOffline | TransactionsTestTask/Services/BitcoinRateServiceRepository.swift:114-135 | no refresh reports both `offline_success` and `offline_failure` |
| RateRepository.StopEvents | TransactionsTestTask/Services/BitcoinRateServiceRepository.swift:60-67 | one `periodic_updates_stopped` event iff a timer was scheduled, none otherwise |
| RateRepository.StepCounts | TransactionsTestTask/Services/BitcoinRateServiceRepository.swift:47-80 | each call adds one started event iff it is a start, and one stopped event iff it is a start or stop that finds the timer running; the timer runs afterwards iff it was a start, or it ran and the call was not a stop |
| RateRepository.StartedEventPerStart | TransactionsTestTask/Services/BitcoinRateServiceRepository.swift:47-58 | over any sequence of calls, the started events added equal the number of start calls, repeated starts included |
| RateRepository.RunKeepsBalance | TransactionsTestTask/Services/BitcoinRateServiceRepository.swift:47-67 | started events outnumber stopped events by exactly one while the timer runs, and equal them otherwise; every call keeps this |
| RateRepository.StartShape | TransactionsTestTask/Services/BitcoinRateServiceRepository.swift:47-58 | start keeps the earlier events, stops a running timer first, then tracks the started event with `interval_seconds` "120.0", then one refresh; the timer runs afterwards |
| RateRepository.ForceShape | TransactionsTestTask/Services/BitcoinRateServiceRepository.swift:76-80 | force update tracks `force_update`, then exactly one refresh, and leaves the timer as it was |
| RateRepository.StopIdempotent | TransactionsTestTask/Services/BitcoinRateServiceRepository.swift:60-67 | a second stop changes nothing, and no timer runs after a stop |
| RateRepository.StartThenThreeStops | TransactionsTestTask/Services/BitcoinRateServiceRepository.swift:47-67 | from a fresh repository, start then three stops leave exactly one stopped event and no timer |
| RateRepository.BitcoinRateServiceRepository.StartPeriodicUpdates | TransactionsTestTask/Services/BitcoinRateServiceRepository.swift:47-58 | the new state is one start step of the old state |
| RateRepository.BitcoinRateServiceRepository.StopPeriodicUpdates | TransactionsTestTask/Services/BitcoinRateServiceRepository.swift:60-67 | the new state is one stop step of the old state |
| RateRepository.BitcoinRateServiceRepository.ForceUpdate | TransactionsTestTask/Services/BitcoinRateServiceRepository.swift:76-80 | the new state is one force step of the old state |
| RateRepository.BitcoinRateServiceRepository.TimerFired | TransactionsTestTask/Services/BitcoinRateServiceRepository.swift:55-57 | a tick of the scheduled timer is one refresh step |
| RateRepository.BitcoinRateServiceRepository.GetCurrentRate | TransactionsTestTask/Services/BitcoinRateServiceRepository.swift:69-74 | nil iff no rate is stored, otherwise the newest stored rate's value; changes nothing and, over a store that does not throw, tracks no event |
| RateRepository.BitcoinRateServiceRepository.GetCurrentRateFromAvailableSource | TransactionsTestTask/Services/BitcoinRateServiceRepository.swift:89-95 | appends the refresh's events and relayed values for the current connectivity |
| RateRepository.BitcoinRateServiceRepository.FetchRateFromInternet | TransactionsTestTask/Services/BitcoinRateServiceRepository.swift:97-112 | appends the online refresh's events; the service's `onRateUpdate` is relayed to the subscriber |
| RateRepository.BitcoinRateServiceRepository.UseCachedRate | TransactionsTestTask/Services/BitcoinRateServiceRepository.swift:114-135 | appends the cache fallback's single event and relayed value |
| RateService.UsdRate | TransactionsTestTask/Services/BitcoinRateService.swift:54 | present iff the map has "USD", and then it is `rates["USD"].last` |
| RateService.FetchEffects | TransactionsTestTask/Services/BitcoinRateService.swift:35-62 | completion is called exactly once, last; it succeeds iff the response arrived and has USD; a network failure is passed on unchanged; a missing USD gives `noData`; the subscriber hears v iff subscribed and USD is v; `bitcoin_rate_updated` with `rate` v is tracked iff USD is v |
| RateService.SuccessOrder | TransactionsTestTask/Services/BitcoinRateService.swift:59-61 | on success the order is subscriber, event, completion |
| RateService.BitcoinRateServiceImpl.GetBitcoinRate | TransactionsTestTask/Services/BitcoinRateService.swift:35-47 | appends exactly the effects of the network's answer |
| RateService.BitcoinRateServiceImpl.HandleBitcoinRateResponse | TransactionsTestTask/Services/BitcoinRateService.swift:50-62 | appends exactly the effects of a received response |
| AnalyticsStorage.Retain | TransactionsTestTask/Services/AnalyticsService/AnalyticsStorage.swift:39-42 | keeps min(cap, length) elements, and they are the last ones |
| AnalyticsStorage.SaveEvictsOldest | TransactionsTestTask/Services/AnalyticsService/AnalyticsStorage.swift:36-42 | below the cap the event is appended; at the cap exactly the oldest is dropped; the new event is last and the cap holds |
| AnalyticsStorage.RetainAppend | TransactionsTestTask/Services/AnalyticsService/AnalyticsStorage.swift:36-42 | capping after each insert equals capping once at the end |
| AnalyticsStorage.SaveAllKeepsNewest | TransactionsTestTask/Services/AnalyticsService/AnalyticsStorage.swift:32-44 | saving events one by one leaves exactly the newest `cap` of the whole history |
| AnalyticsStorage.InMemoryAnalyticsStorage.constructor | TransactionsTestTask/Services/AnalyticsService/AnalyticsStorage.swift:27-29 | an empty log with the given cap (default 10000) |
| AnalyticsStorage.InMemoryAnalyticsStorage.SaveEvent | TransactionsTestTask/Services/AnalyticsService/AnalyticsStorage.swift:32-44 | the log becomes the newest `max` of old log + [event]; the cap holds |
| AnalyticsStorage.InMemoryAnalyticsStorage.GetEvents | TransactionsTestTask/Services/AnalyticsService/AnalyticsStorage.swift:46-51 | a permutation of the log, sorted newest first; the log is unchanged |
| AnalyticsStorage.InMemoryAnalyticsStorage.ClearEvents | TransactionsTestTask/Services/AnalyticsService/AnalyticsStorage.swift:53-57 | the log is empty |
| AnalyticsStorage.InMemoryAnalyticsStorage.GetEventCount | TransactionsTestTask/Services/AnalyticsService/AnalyticsStorage.swift:59-63 | the number of stored events, with nothing changed |
| AnalyticsService.Matching | TransactionsTestTaskTests/AnalyticsServiceTests.swift:194-320 | an event is in the answer iff it is stored and matches: an exact name unless the name is nil or empty, inclusive bounds when present, all ANDed; a newest-first input gives a newest-first answer, and the answer is never longer than the input |
| AnalyticsService.MatchingIsFilter | TransactionsTestTaskTests/AnalyticsServiceTests.swift:194-320 | the answer holds each matching event exactly as often as the log does, and no other event |
| AnalyticsService.NoFilterKeepsAll | TransactionsTestTaskTests/AnalyticsServiceTests.swift:253-275 | a nil or empty name with no bounds returns every event |
| AnalyticsService.AnalyticsServiceImpl.TrackEvent | TransactionsTestTask/Services/AnalyticsService/AnalyticsService.swift:33-39 | stores one event with exactly this name and these parameters, stamped with a fresh id and the clock |
| AnalyticsService.AnalyticsServiceImpl.Track | TransactionsTestTaskTests/AnalyticsServiceTests.swift:84-107 | stores the structured event's name and parameters |
| AnalyticsService.AnalyticsServiceImpl.GetEvents | TransactionsTestTask/Services/AnalyticsService/AnalyticsService.swift:41-43 | the storage's newest-first permutation |
| AnalyticsService.AnalyticsServiceImpl.ClearEvents | TransactionsTestTask/Services/AnalyticsService/AnalyticsService.swift:45-49 | the log is empty, also when it already was |
| AnalyticsService.AnalyticsServiceImpl.GetFilteredEvents | TransactionsTestTaskTests/AnalyticsServiceTests.swift:194-320 | exactly the stored events matching the query, newest first |
| AnalyticsService.LaterTrackedListedFirst | TransactionsTestTaskTests/AnalyticsServiceTests.swift:62-80 | of two events tracked at increasing times, the later is listed first |
| AnalyticsEvents.Merge | TransactionsTestTask/Services/AnalyticsService/AnalyticsEventProtocol.swift:24-32 | the keys are the union; additional values win on a clash; other keys keep the base value |
| AnalyticsEvents.CoreDataErrorParameters | TransactionsTestTask/Services/AnalyticsService/AnalyticsEventProtocol.swift:17-40 | the name is "coredata_error"; the keys are {operation, error, timestamp} plus the additional keys; additional values win |
| AnalyticsEvents.BitcoinRateParameters | TransactionsTestTask/Services/AnalyticsService/AnalyticsEventProtocol.swift:43-61 | the keys are {timestamp} plus the additional keys; additional values win |
| AnalyticsEvents.FactoryNamesDistinct | TransactionsTestTask/Services/AnalyticsService/AnalyticsEventProtocol.swift:64-122 | the eight factory event names are pairwise distinct |
| AnalyticsEvents.IntervalText | TransactionsTestTask/Services/AnalyticsService/AnalyticsEventProtocol.swift:65-72 | an interval of 120 seconds renders as "120.0" |
| AnalyticsEvents.StartedParameters | TransactionsTestTask/Services/AnalyticsService/AnalyticsEventProtocol.swift:65-72 | `periodicUpdatesStarted(120)` has exactly `timestamp` and `interval_seconds` "120.0" |
| AnalyticsEvents.OnlineSuccessParameters | TransactionsTestTask/Services/AnalyticsService/AnalyticsEventProtocol.swift:86-93 | `onlineSuccess` has exactly `timestamp` and `source` "internet" |
| AnalyticsEvents.OnlineFailureParameters | TransactionsTestTask/Services/AnalyticsService/AnalyticsEventProtocol.swift:95-103 | `onlineFailure(error)` has exactly `timestamp`, `source` "internet" and `error` equal to the argument |
| Sequences.SortDesc | TransactionsTestTask/Storage/CoreDataManager.swift:66 | the result is sorted newest first and is a permutation of the input |
| Sequences.SortDescOfAscending | TransactionsTestTask/Services/AnalyticsService/AnalyticsStorage.swift:46-50 | when records arrive with strictly increasing dates, newest first is the reverse of arrival order |
| CoreData.Page | TransactionsTestTask/Storage/CoreDataManager.swift:88-92 | the slice of the sorted list starting at `offset`, with at most `limit` records; a limit of 0 means no limit; empty past the end |
| CoreData.PagesArePrefix | TransactionsTestTask/Storage/CoreDataManager.swift:88-92 | reading pages 0..n-1 in turn yields the first n*pageSize records, with none skipped or read twice |
| CoreData.RemoveKey | TransactionsTestTask/Storage/CoreDataManager.swift:130-139 | a record stays iff its id differs, with its multiplicity unchanged; records with the id are gone |
| CoreData.DeleteEach | TransactionsTestTask/Storage/CoreDataManager.swift:136-138 | the delete loop, one row at a time, leaves exactly the rows without the id |
| CoreData.LatestRate | TransactionsTestTask/Storage/CoreDataManager.swift:195-214 | nil iff no rates are stored; otherwise a stored rate with the maximal date |
| CoreData.CurrentRow | TransactionsTestTask/Storage/CoreDataManager.swift:263-281 | nil iff there is no balance row, otherwise a stored row |
| CoreData.BalanceAfterUpdate | TransactionsTestTask/Storage/CoreDataManager.swift:283-305 | the balance moves by exactly `amount` and is stamped with the clock: an existing row keeps its id, and otherwise a new row holds `amount` |
| CoreData.BalanceRowsAfterSave | TransactionsTestTask/Storage/CoreDataManager.swift:252-261 | as written: the new row replaces everything when the clear succeeds, and is added beside the old rows when it fails |
| CoreData.SaveBalanceUnderFaultKeepsTwoRows | TransactionsTestTask/Storage/CoreDataManager.swift:252-261 | a save while the store throws leaves two balance rows |
| CoreData.CheckedBalanceRowsAfterSave | TransactionsTestTask/Storage/CoreDataManager.swift:252-261 | corrected: exactly [b] on success, unchanged rows on failure, so the singleton keeps at most one row |
| CoreData.ErrorRecord | TransactionsTestTask/Storage/CoreDataManager.swift:107-114 | a "coredata_error" record whose keys are {operation, error, timestamp} plus the additional keys |
| CoreData.CoreDataManager.SaveTransaction | TransactionsTestTask/Storage/CoreDataManager.swift:54-62 | the transaction is appended to the stored rows |
| CoreData.CoreDataManager.FetchTransactions | TransactionsTestTask/Storage/CoreDataManager.swift:64-86 | all rows newest first as a permutation; on a fault, empty plus one "fetchTransactions()" error event |
| CoreData.CoreDataManager.FetchTransactionsPage | TransactionsTestTask/Storage/CoreDataManager.swift:88-116 | the page at `page*pageSize` of the newest-first list, at most `pageSize` long; on a fault, empty plus one "fetchTransactions_page" event with `page` |
| CoreData.CoreDataManager.GetTotalTransactionsCount | TransactionsTestTask/Storage/CoreDataManager.swift:118-128 | the number of rows; on a fault, 0 plus one error event |
| CoreData.CoreDataManager.DeleteTransaction | TransactionsTestTask/Storage/CoreDataManager.swift:130-147 | exactly the rows with the id are removed; on a fault, nothing is removed and one event with `transaction_id` is tracked |
| CoreData.CoreDataManager.ClearAllTransactions | TransactionsTestTask/Storage/CoreDataManager.swift:149-160 | no rows remain; on a fault, rows unchanged and one error event |
| CoreData.CoreDataManager.SaveRate | TransactionsTestTask/Storage/CoreDataManager.swift:166-173 | the rate is appended |
| CoreData.CoreDataManager.FetchRates | TransactionsTestTask/Storage/CoreDataManager.swift:175-193 | all rates newest first as a permutation; on a fault, empty plus one error event |
| CoreData.CoreDataManager.FetchLatestRate | TransactionsTestTask/Storage/CoreDataManager.swift:195-214 | the first of the newest-first list: nil iff no rates; on a fault, nil plus one error event |
| CoreData.CoreDataManager.DeleteRate | TransactionsTestTask/Storage/CoreDataManager.swift:216-233 | exactly the rates with the id are removed; on a fault, one event with `rate_id` |
| CoreData.CoreDataManager.ClearAllRates | TransactionsTestTask/Storage/CoreDataManager.swift:235-246 | no rates remain; on a fault, rates unchanged and one error event |
| CoreData.CoreDataManager.SaveCurrentBalance | TransactionsTestTask/Storage/CoreDataManager.swift:252-261 | as written: the rows become those of `BalanceRowsAfterSave`; exactly [b] when the store does not throw |
| CoreData.CoreDataManager.SaveCurrentBalanceChecked | TransactionsTestTask/Storage/CoreDataManager.swift:252-261 | corrected save: the rows become those of `CheckedBalanceRowsAfterSave`, and the singleton invariant is kept |
| CoreData.CoreDataManager.GetCurrentBalance | TransactionsTestTask/Storage/CoreDataManager.swift:263-281 | the first balance row, or nil; on a fault, nil plus one error event |
| CoreData.CoreDataManager.UpdateCurrentBalance | TransactionsTestTask/Storage/CoreDataManager.swift:283-305 | the balance moves by exactly `amount`, creating the row if needed, and the singleton is kept; on a fault, nothing changes and one event with `amount` is tracked |
| CoreData.CoreDataManager.ClearCurrentBalance | TransactionsTestTask/Storage/CoreDataManager.swift:307-320 | no balance row remains, so a later get returns nil; on a fault, rows unchanged and one error event |
| Pagination.TotalPages | TransactionsTestTask/Application/Screens/MainScreen/Models/PaginationInfo.swift:17-19 | the ceiling of totalItems/pageSize: (n-1)*pageSize < totalItems <= n*pageSize |
| Pagination.CeilDiv | TransactionsTestTask/Application/Screens/MainScreen/Models/PaginationInfo.swift:17-19 | `Int(ceil(a/b))` for b > 0, characterised by (n-1)*b < a <= n*b |
| Pagination.NegativeCeilDiv | TransactionsTestTask/Application/Screens/MainScreen/Models/PaginationInfo.swift:17-19 | `Int(ceil(a/b))` for b < 0 |
| Pagination.NoItemsNoPages | TransactionsTestTask/Application/Screens/MainScreen/Models/PaginationInfo.swift:17-19 | with items >= 0 and pageSize > 0: no pages iff no items, and never a negative count |
| TransactionSections.SumAppend | TransactionsTestTask/Application/Screens/MainScreen/Models/TransactionSection.swift:19-21 | the total of two lists one after the other is the sum of their totals |
| TransactionSections.LatestDay | TransactionsTestTask/Application/Screens/MainScreen/Models/TransactionSection.swift:29-31 | the day of some transaction, and no transaction is on a later day |
| TransactionSections.SplitDay | TransactionsTestTask/Application/Screens/MainScreen/Models/TransactionSection.swift:29-31 | the transactions on the day and the others, together a permutation of the input |
| TransactionSections.GroupTransactions | TransactionsTestTask/Application/Screens/MainScreen/Models/TransactionSection.swift:25-41 | the sections together hold exactly the input (as a multiset); no sections iff no input; no section is empty; each is sorted newest first; every member is from the input and on the section's day; section days strictly decrease |
| TransactionSections.ConsSection | TransactionsTestTask/Application/Screens/MainScreen/Models/TransactionSection.swift:29-38 | the newest day's sorted section in front of a grouping of the other days groups the whole input |
| MainScreen.LoadedPagesArePrefix | TransactionsTestTask/Application/Screens/MainScreen/Models/MainScreenModel.swift:46-58 | after pages 0..p of an unchanged list, the loaded list is its newest (p+1)*20 records, and more pages remain iff the list is longer |
| MainScreen.NextPage | TransactionsTestTask/Application/Screens/MainScreen/Models/MainScreenModel.swift:50-57 | appending page p to pages 0..p-1 gives pages 0..p |
| MainScreen.MainScreenModel.constructor | TransactionsTestTask/Application/Screens/MainScreen/Models/MainScreenModel.swift:20-23 | page 0, nothing loaded, not loading, the total read from the store |
| MainScreen.MainScreenModel.LoadFirstPage | TransactionsTestTask/Application/Screens/MainScreen/Models/MainScreenModel.swift:36-44 | while loading, nothing changes; otherwise page 0 replaces the list, the total is re-read, loading ends, and the loaded list is pages 0..0 |
| MainScreen.MainScreenModel.Reload | TransactionsTestTask/Application/Screens/MainScreen/Models/MainScreenModel.swift:36-44 | page 0, its records and the total, with the store's error events in call order |
| MainScreen.MainScreenModel.LoadNextPage | TransactionsTestTask/Application/Screens/MainScreen/Models/MainScreenModel.swift:46-58 | returns true iff it was not loading and more pages remained; otherwise changes nothing; on true, the page number goes up by one and that page is appended; the loaded list stays pages 0..currentPage |
| MainScreen.MainScreenModel.RefreshTransactions | TransactionsTestTask/Application/Screens/MainScreen/Models/MainScreenModel.swift:60-69 | the same reset as `loadFirstPage` |
| MainScreen.MainScreenModel.GetPaginationInfo | TransactionsTestTask/Application/Screens/MainScreen/Models/MainScreenModel.swift:71-79 | page size 20, the current page, the total and `hasMorePages`; first page iff page 0; last page iff everything is loaded; the page count bounds |
| MainScreen.MainScreenModel.AddTransaction | TransactionsTestTask/Application/Screens/MainScreen/Models/MainScreenModel.swift:81-85 | the transaction is stored, the total is re-read, and the list is refreshed unless a load is in progress |
| MainScreen.MainScreenModel.RemoveTransaction | TransactionsTestTask/Application/Screens/MainScreen/Models/MainScreenModel.swift:88-97 | out-of-range indices change nothing; otherwise the selected loaded transaction's id is deleted from the store, the total is re-read and the list refreshed |
| MainScreen.MainScreenModel.TopUpBalance | TransactionsTestTask/Application/Screens/MainScreen/Models/MainScreenModel.swift:107-109 | the balance rises by exactly `amount` |
| MainScreen.MainScreenModel.DeductFromBalance | TransactionsTestTask/Application/Screens/MainScreen/Models/MainScreenModel.swift:111-113 | the balance falls by exactly `amount` |
| AddTransaction.AddTransactionScreenModel.SaveTransaction | TransactionsTestTask/Application/Screens/AddTransactionScreen/Models/AddTransactionScreenModel.swift:25-28 | the balance falls by the amount and the transaction is stored once; the deduction's error event comes before those of the add |
| NetworkService.CreateURL | TransactionsTestTask/Network/Services/NetworkService.swift:64-67 | a URL iff `baseURL + path` parses, and then it is that string |
| NetworkService.BuildRequest | TransactionsTestTask/Network/Services/NetworkService.swift:37-55 | the method's raw value, every endpoint header, and a query iff there are parameters and the method is GET |
| NetworkService.ClassifyOutcomes | TransactionsTestTask/Network/Services/NetworkService.swift:76-127 | transport error gives `networkError`; a non-HTTP response gives `unknown`; a status outside 2xx gives `serverError(status)`; no data gives `noData`; a failed decode of 2xx data gives `decodingError` with the decoder's error; success iff every guard passes and decoding succeeds, with the decoded value |
| NetworkService.SuccessStatusBounds | TransactionsTestTask/Network/Services/NetworkService.swift:92 | 200 and 299 pass, 199 and 300 do not |
| NetworkService.Request | TransactionsTestTask/Network/Services/NetworkService.swift:23-61 | an invalid URL sends nothing and yields `invalidURL`; otherwise the built request is sent and its reply classified, with exactly one result |
| NetworkProtocols.ServerErrorDescriptionCarriesCode | TransactionsTestTask/Network/Protocols/NetworkProtocols.swift:29-30 | "Server error with code: " followed by the code, which reads back |
| NetworkProtocols.ServerErrorDescriptionsDistinct | TransactionsTestTask/Network/Protocols/NetworkProtocols.swift:29-30 | distinct codes are described differently |
| NetworkProtocols.ServerErrorTextCarriesCode | TransactionsTestTask/Services/BitcoinRateServiceRepository.swift:106-108 | the `"\(error)"` text logged for a server error is `serverError(<code>)`, and the code reads back from it |
| NetworkProtocols.RawValueRoundTrip | TransactionsTestTask/Network/Protocols/NetworkProtocols.swift:38-44 | each raw value parses back to its method, and only its own raw value does |

## Left out

- Concurrency: the dispatch queues, barriers and main-queue hops. Every call is atomic and sequential.
- `Timer` scheduling and `deinit`: the timer is a flag plus an explicit tick, and `TimerFired` requires a scheduled timer.
- `NWPathMonitor`: connectivity is an input.
- `URLSession`, `JSONDecoder` and the ticker's JSON shape: the server's reply and the decode result are inputs.
- CoreData itself: contexts, batch deletes, and the `fatalError` on a failed save. The store is sequences of rows plus a fault flag that makes every fetch throw.
- The category `compactMap` in the transaction fetches: every row comes from `saveTransaction` with a valid category, so it never drops a row here.
- `Date()`, `Calendar` and formatters: times are integer seconds and `startOfDay` is a parameter.
- Doubles:
  - Rates, amounts and balances are reals, with no rounding.
  - A Double rendered by `"\(x)"` or `String(x)` comes from an abstract `show` function, except for integral values, which render as digits plus ".0".
- Pagination.TotalPages: computed on integers, not through `Double` and `ceil`, so precision loss for huge counts is not modelled. A page size of 0, where `Int(ceil(...))` traps, is excluded by its precondition.
- TransactionSections.TotalAmount: summed as reals, without floating-point rounding.
- UUIDs are natural numbers from a counter. Their text in event parameters is their decimal rendering.
- Negative `page` or `pageSize` arguments are excluded by using natural numbers.
- Equal dates: the model's sort puts records with equal dates in one fixed order, and no lemma states which. Swift's `sorted` and CoreData's fetch may order records with equal dates either way, so the model picks one of the allowed orders.
- RateRepository.BitcoinRateServiceRepository.UseCachedRate: reads the newest stored rate directly. The `coredata_error` event that `fetchLatestRate` would track on a failing store is not in the repository's event list.
- RateRepository.BitcoinRateServiceRepository.GetCurrentRate: reads the newest stored rate directly, like `UseCachedRate`. The repository's stored rates cannot fail, so the failing-store path of `fetchLatestRate` is not modelled here: nil plus one `coredata_error` event with operation "fetchLatestRate()". That path is modelled in `CoreData.CoreDataManager.FetchLatestRate`.
- MainScreen.MainScreenModel.RemoveTransaction: the indices are natural numbers. In Swift a negative `sectionIndex` passes the `< sections.count` guard and then traps on the array access, and so does a negative `itemIndex`; that trap is not modelled.
- AnalyticsStorage.InMemoryAnalyticsStorage.constructor: the cap is a natural number. Swift's `init(maxEventsCount:)` accepts a negative `Int`, and the first save then traps in `removeFirst` with a count larger than the list; that trap is not modelled.
- `Transaction` in `Transaction.swift` declares no `id`, although `CoreDataManager.saveTransaction` and `removeTransaction` read `transaction.id`. The model gives every transaction an `id`, as the store needs.
- NetworkProtocols.ErrorText: a decoding or transport error carries one `cause` string. It is used both as `localizedDescription` in `ErrorDescription` and inside the `"\(error)"` rendering in `ErrorText`. Swift renders the underlying `Error` differently in the two places, so the `error` text of an `online_failure` event for a network or decoding error is not exactly what Swift logs. Server errors, `invalidURL`, `noData` and `unknown` are rendered exactly.
- `BitcoinRateEventFactory.offlineSuccess()` and `offlineFailure()` (with `source` "coredata") are defined in `AnalyticsEvents`, but nothing emits them: the repository builds its own cached events with `source` "cached", and so does the model.
- The `onRateUpdate` relay is set up in the repository's init; the model relays every received rate to the subscriber, as if one were always set.
- The repository's own `NetworkMonitor()` in its init is replaced by injected connectivity, as the tests and the assembly do.
- `AddTransactionScreenModel`'s unused `coreDataManager` field is left out.
- `MainScreenModel.getLatestRate` and `getCurrentBalance` only delegate to the store, so they are left out.
- UI, routing, assemblies, the design system and the singletons wiring the services together.

## Findings

| source | as written | input that shows it | evidently intended | confidence | as-written member | corrected member |
|---|---|---|---|---|---|---|
| TransactionsTestTask/Storage/CoreDataManager.swift:252-261 | `saveCurrentBalance` calls `clearCurrentBalance`, which catches a failed fetch, tracks an error and returns; the new row is then inserted anyway | one stored balance row and a store whose fetch throws: after the save there are two balance rows | the balance is a singleton: a save either replaces the row or, when the clear fails, leaves the store as it was | medium, not executed | CoreData.SaveBalanceUnderFaultKeepsTwoRows | CoreData.CoreDataManager.SaveCurrentBalanceChecked |
