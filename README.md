# Cash book sync: a Dafny model

A shared cash-book ledger for a small business. One laptop is the editor. Phones (Android, iPhone) are viewers. Devices talk over direct peer connections, with no server. This project models two parts of the app:

- the ledger logic of `App.tsx`: the totals reduction, the editor's state updaters, and the single-writer guard that applies them;
- the sync service of `services/syncService.ts`: peer identity, the live connection list, the key-value store, broadcast, and the reconnect decision.

Files:

- `wrappers.dfy`: `Option` and `Result`.
- `js_text.dfy`: the JavaScript string behaviour the code relies on. This is `trim`, `includes`, and the decimal rendering of a count.
- `ledger.dfy`: the records of `types.ts` as datatypes. It holds `CalculateTotals`, the updaters (add and update entries, day-end, rates merge) as pure functions, and lemmas about them.
- `sync.dfy`: class `SyncService`, with one method per event handler and public operation. Beside it are the specification functions its methods are proved against (`SendToOpen`, `Without`, `LoadFrom`, `ShouldReconnect`) and lemmas about them.
- `app.dfy`: class `AppContent`, with the role taken from the route, the rendered document, `UpdateState` and the handlers.

The main results:

- The final balance is cash in minus cash out. It also equals the opening balance, plus the main entries' net cash, plus the out-party CASH amounts, minus the main entries' CARD and PAYPAL takings. Non-cash out-party amounts cancel out.
- Adding an entry changes no total.
- With unique ids, an update rewrites exactly one entry.
- Day-end archives the ledger at the front of `history`. The next day opens at the archived balance. A history in which every archive holds its own ledger's balance, and each day opens at the previous day's close, stays that way under every edit.
- On a viewer, `UpdateState` changes nothing and sends nothing.
- A broadcast saves first. It then sends to exactly the open connections.
- A close removes exactly one connection and keeps the order of the rest.
- Save and then load gives back the saved document.
- The reconnect test is modelled with JavaScript's actual operator precedence. As a result, a phone schedules a reconnect even when no laptop id was ever stored.

Behaviours of the code as written that a reader might not expect:

- A stored value under the state key that is not empty and is not valid JSON makes `loadLocalState` throw. There is no fallback to the empty document. `LoadFrom` returns `Failure` in that case.
- Auto-reconnect does not require a stored laptop id on the `android` and `iphone` routes, because `&&` binds tighter than `||` (`PhoneRoutesReconnectUnpaired`). The captured `null` then reaches `connectToLaptop`, and `setItem` stores it as the text `"null"` (`ReconnectTimerFires`).
- A new incoming connection is sent the stored document, not the in-memory one, and is sent it at once, not on the connection's open event.
- `connectToLaptop` replaces the connection list without closing the previous connection.

## Model

| member | source | states |
|---|---|---|
| `Ledger.OutPartySplit` | App.tsx:228-247 | the CASH, CARD and PAYPAL out-party sums add up to the sum of all out-party amounts |
| `Ledger.CalculateTotals` | App.tsx:227-263 | each out-party sum is the sum of that method's amounts; card and PayPal totals add the main cash-in of that method; cash in = main cash in + all out-party amounts + opening; cash out = main cash out + card + PayPal totals; finalBalance = cash in - cash out = opening + main net cash + out-party CASH - main CARD and PAYPAL cash in |
| `Ledger.EmptyBookKeepsOpeningBalance` | App.tsx:227-263 | a ledger with no entries has all totals 0 except cash in and final balance, which equal the opening balance |
| `Ledger.AddOutParty` | App.tsx:67-83 | appends exactly one entry (given id, index = old length + 1, CASH, amount 0) after the unchanged old entries; main entries, date, opening balance, history and rates unchanged |
| `Ledger.AddMainEntry` | App.tsx:97-115 | appends exactly one entry (given id, empty room and description, CASH, cash in and out 0); everything else unchanged |
| `Ledger.UpdateOutPartyEntries` | App.tsx:90-92 | same length and order; entries with another id unchanged; a matching entry keeps id and index and takes the new amount and method |
| `Ledger.UpdateOutParty` | App.tsx:85-95 | the out-party list becomes `UpdateOutPartyEntries` of the old one (ids kept in order); everything else unchanged |
| `Ledger.ApplyPatch` | App.tsx:123 | each of the six fields is the patch's value when present and the entry's otherwise; an empty patch changes nothing |
| `Ledger.UpdateMainEntries` | App.tsx:122-124 | same length and order; entries with another id unchanged; matching entries are patched |
| `Ledger.UpdateMainEntry` | App.tsx:117-127 | the main list becomes `UpdateMainEntries` of the old one, with ids kept when the patch has none; everything else unchanged |
| `Ledger.DayEnd` | App.tsx:134-150 | history grows by one: the archive of the old ledger (its date, its data, the balance) at index 0, the old history as the tail; the new ledger is empty, dated today, opening at the balance; rates unchanged |
| `Ledger.MergeRates` | App.tsx:41-44 | the rates are replaced; ledger and history unchanged |
| `Ledger.DefaultState` | services/syncService.ts:92-101 | the default document: given date, empty entry lists, opening balance 0, empty history, rates (0, 0) |
| `Ledger.AddOutPartyKeepsTotals` | App.tsx:72-79 | adding an out-party entry leaves every total unchanged |
| `Ledger.AddMainEntryKeepsTotals` | App.tsx:102-112 | adding a main entry leaves every total unchanged |
| `Ledger.AddOutPartyKeepsIdsUnique` | App.tsx:75 | with an unused id, out-party and main ids stay unique |
| `Ledger.AddMainEntryKeepsIdsUnique` | App.tsx:105 | with an unused id, out-party and main ids stay unique |
| `Ledger.UpdateOutPartyTouchesOne` | App.tsx:90-92 | with unique ids, updating entry k equals replacing entry k alone (same id and index, new method and amount) |
| `Ledger.UpdateOutPartyUnknownIdIsNoOp` | App.tsx:90-92 | an id no entry has leaves the document unchanged |
| `Ledger.UpdateMainEntryTouchesOne` | App.tsx:122-124 | with unique ids and a patch without id, only entry k is patched and ids stay unique |
| `Ledger.DayEndKeepsHistoryConsistent` | App.tsx:129-150 | day-end with the closing ledger's final balance keeps every archive's balance equal to its ledger's and chains each day's opening balance to the previous close; the new empty day closes at that balance |
| `Ledger.EditsKeepHistoryConsistent` | App.tsx:67-127 | adding and updating entries and merging rates keep the history chain consistent |
| `Ledger.OneOfEachDocument` | App.tsx:67-127 | from the default document, add and set an out-party entry to 500 CASH, add a main entry with cash in 1000: the ledger holds exactly those two entries |
| `Ledger.OneOfEachScenario` | App.tsx:227-262 | that ledger gives outPartyCash 500, mainCashIn 1500, mainCashOut 0, finalBalance 1500 |
| `JsText.TrimStart` | App.tsx:61 | removes exactly the leading whitespace |
| `JsText.TrimEnd` | App.tsx:61 | removes exactly the trailing whitespace |
| `JsText.Trim` | App.tsx:61 | the result is a piece of the input with only whitespace around it, neither starts nor ends with whitespace, and is empty iff the input is all whitespace |
| `JsText.Contains` | services/syncService.ts:110 | `includes` holds iff some suffix of the string starts with the searched text |
| `JsText.Decimal` | services/syncService.ts:38 | a count renders as digits, with no leading zero except for 0, whose decimal value is the count |
| `Sync.GetText` | services/syncService.ts:109 | a text stored under the key is returned; an absent key reads as null |
| `Sync.JsString` | services/syncService.ts:111 | a null host value is passed on as the text "null" |
| `Sync.LoadFrom` | services/syncService.ts:89-102 | a stored document is returned; an absent or empty value gives the default document; any other text fails |
| `Sync.SaveThenLoad` | services/syncService.ts:85-91 | loading after saving a document gives that document |
| `Sync.ConnectedStatus` | services/syncService.ts:38 | the status reads "Connected (" then the decimal digits of n, without leading zero, then ")", and is never "Ready" |
| `Sync.StatusAfterClose` | services/syncService.ts:62 | "Ready" exactly when no connection is left; otherwise the connected status for the number left |
| `Sync.SendToOpen` | services/syncService.ts:78-82 | same connections in the same order; each open one has the document appended to what it was sent; closed ones unchanged |
| `Sync.Without` | services/syncService.ts:61 | no connection left in the result has the closed id, and the list never grows |
| `Sync.WithoutMembers` | services/syncService.ts:61 | the result holds exactly the connections whose id differs, and keeps ids distinct |
| `Sync.WithoutRemovesOne` | services/syncService.ts:60-61 | with distinct ids, closing connection k gives the list without position k, others in their original order |
| `Sync.WithoutAbsent` | services/syncService.ts:61 | closing a connection not in the list leaves it unchanged |
| `Sync.MarkOpen` | services/syncService.ts:79 | the transport's open event sets the flag of that connection only |
| `Sync.NoRouteLetterNoReconnect` | services/syncService.ts:110 | a hash with none of the letters m, n, i schedules no reconnect, whatever is stored |
| `Sync.LaptopRouteNeverReconnects` | services/syncService.ts:110 | on the laptop route no reconnect is scheduled, whatever is stored |
| `Sync.PhoneRoutesReconnectUnpaired` | services/syncService.ts:110 | on the android and iphone routes a reconnect is scheduled with no stored laptop id |
| `Sync.MobileRouteNeedsHost` | services/syncService.ts:110 | without the phone words, a reconnect is scheduled iff a laptop id is stored and the hash contains "mobile" |
| `Sync.SyncService.constructor` | services/syncService.ts:14-21 | a truthy stored pairing id is requested as this peer's id; no connections or listeners |
| `Sync.SyncService.Report` | services/syncService.ts:28 | a status reaches the listener only when one is registered |
| `Sync.SyncService.GetMyId` | services/syncService.ts:115-117 | the assigned id when truthy, else "Initializing..." |
| `Sync.SyncService.OnPeerOpen` | services/syncService.ts:23-32 | the id is stored only when none was saved, so a saved id is never overwritten; afterwards the stored pairing id and getMyId are the id; status "Ready" |
| `Sync.SyncService.OnConnection` | services/syncService.ts:34-43 | the new connection is appended, so the count grows by one; it is sent the loaded document; status "Connected (n)" |
| `Sync.SyncService.OnConnOpen` | services/syncService.ts:79 | the connection becomes open |
| `Sync.SyncService.OnData` | services/syncService.ts:52-58 | with a state listener the document is delivered and saved; without one the store is untouched |
| `Sync.SyncService.OnClose` | services/syncService.ts:60-63 | exactly that connection is removed; the status is the new count or "Ready" |
| `Sync.SyncService.OnPeerError` | services/syncService.ts:45-48 | the status becomes "Error: " followed by the error type |
| `Sync.SyncService.ConnectToLaptop` | services/syncService.ts:67-74 | without a peer nothing changes; otherwise the list becomes the one new connection, the id is stored as laptop host, and the status is "Connecting..." |
| `Sync.SyncService.BroadcastState` | services/syncService.ts:76-83 | the document is saved under the state key, then sent to every open connection and to no other |
| `Sync.SyncService.SaveLocalState` | services/syncService.ts:85-87 | the store maps the state key to the document, and loading then yields it |
| `Sync.SyncService.LoadLocalState` | services/syncService.ts:89-102 | the result of loading from the current store: the stored document, the default one when nothing is stored, a failure for unparsable text |
| `Sync.SyncService.Subscribe` | services/syncService.ts:104-113 | both listeners are registered; a reconnect carrying the stored host value is scheduled iff the precedence-as-written test holds |
| `Sync.SyncService.ReconnectTimerFires` | services/syncService.ts:111 | the oldest scheduled reconnect leaves the queue and calls connectToLaptop with its captured value: new connection list, stored host, "Connecting..."; listeners, peer and saved id unchanged |
| `App.DeviceTypeOf` | App.tsx:21-23 | the paths android and iphone are phones; every other path is the laptop |
| `App.PairTarget` | App.tsx:60-65 | the trimmed input is passed on iff it is not empty; an all-whitespace input gives no action |
| `App.AppContent.constructor` | App.tsx:19-25 | the role comes from the route; the editor is exactly the laptop; the document is the loaded one |
| `App.AppContent.Mount` | App.tsx:31-49 | subscribes: both listeners set, and a reconnect carrying the stored host value queued iff the as-written test holds; rates are fetched only on the editor |
| `App.AppContent.UpdateState` | App.tsx:51-58 | off the editor the document, the store and the connections are unchanged; on the editor the updater's result is saved and sent to the open connections |
| `App.AppContent.HandlePair` | App.tsx:60-65 | a blank input changes nothing; otherwise the dialog closes and it connects to the trimmed id: one new connection, stored host, "Connecting..." (nothing when there is no peer); peer, saved id, listeners and timers unchanged |
| `App.AppContent.HandleAddOutParty` | App.tsx:67-83 | the editor's document becomes `AddOutParty` of the old one, is saved, and is sent to the open connections; a viewer's document, store and connections are unchanged |
| `App.AppContent.HandleUpdateOutParty` | App.tsx:85-95 | the editor's document becomes `UpdateOutParty` of the old one, is saved, and is sent to the open connections; a viewer's document, store and connections are unchanged |
| `App.AppContent.HandleAddMainEntry` | App.tsx:97-115 | the editor's document becomes `AddMainEntry` of the old one, is saved, and is sent to the open connections; a viewer's document, store and connections are unchanged |
| `App.AppContent.HandleUpdateMainEntry` | App.tsx:117-127 | the editor's document becomes `UpdateMainEntry` of the old one, is saved, and is sent to the open connections; a viewer's document, store and connections are unchanged |
| `App.AppContent.HandleDayEnd` | App.tsx:129-151 | without confirmation, or off the editor, nothing changes; on the editor the document becomes day-end with the current ledger's final balance, is saved and sent to the open connections, and history consistency is kept |
| `App.AppContent.RatesArrived` | App.tsx:39-45 | the rates are merged, and the result is saved and sent to the open connections |
| `App.AppContent.DataReceived` | App.tsx:31-35 | once subscribed, a received document replaces the rendered one outright (no merge) and is saved; before that the document and the store are unchanged |

## Left out

- The PeerJS transport: how peers are found, how connections are made, and how messages travel are not modelled. A connection is a record whose `open` flag the transport sets (`OnConnOpen`). Its `sent` list records what the code handed to `conn.send`. Whether the transport drops a send on a connection that is not yet open is not modelled.
- Timing: `setTimeout` becomes a queue of scheduled reconnects (`timers`), fired by `ReconnectTimerFires`. The 2000 ms delay is the constant `ReconnectDelayMs` and plays no part in the proofs. Events are handled one at a time. Concurrency and reordering between devices are not modelled.
- React's state queue: `setState(prev => …)` runs the updater on the current document, and the model does the same. React batching, and a stale `state` read in `handleDayEnd`, are not modelled.
- `JSON.stringify`/`JSON.parse`: a stored document is the document itself (`Doc`), and `Raw` stands for text that does not parse as JSON, so any non-empty `Raw` under the state key is a parse failure. Valid JSON that is not a document (`{}`, `null`, `0`) is not represented: in the source it parses without throwing, `loadLocalState` returns that value and a new connection is sent it.
- `crypto.randomUUID`, `new Date().toLocaleDateString()`, `window.confirm` and the error's `err.type` are parameters. Uniqueness of fresh ids is a precondition of the lemmas that need it.
- Amounts are unbounded integers. Floating-point rounding is not modelled.
- The exchange-rate fetch (`services/gemini.ts`) is not modelled. Its result is an input to `RatesArrived`.
- Rendering is not modelled: `components/Dashboard.tsx`, `components/HistoryView.tsx`, `components/Header.tsx`, the pairing dialog's markup, and the `showHistory` toggle. Console logging is dropped.
- `App.AppContent.constructor` requires that loading the stored document does not fail. When it does fail, the first render of the source throws, and the model does not represent a crashed app.
- ReconnectTimerFires: for a `null` captured host the model gives the new connection the remote `"null"`. The source passes `null` itself to `peer.connect`; only `setItem` turns it into the text `"null"`. The transport is abstract, so only the stored value is exact.
- `Sync.SyncService.OnPeerOpen` requires a non-empty id, and requires the id that was asked for when one was. Both are promises of the transport that the source relies on.
