# Stellar data marketplace: the trading engine of its two components

The repository is a data marketplace on the Stellar test network. Two
React components embed the same small engine:

- `components/App.tsx` is the **secret-key component**. It acts for one
  fixed account. When that account's `DATA` trust line is missing, it
  creates the trust line itself. It signs and submits purchases, and it
  classifies Horizon's rejections in detail. It also watches the account's
  transaction stream and reads the order ID back out of each purchase memo.
- `app/page.tsx` is the **wallet page**. Its account is whatever key the
  wallet helper connects. A missing trust line is only reported. Purchases
  go through the helper's `sendPayment`, and connect and disconnect start
  and reset the session.

The model covers the parts of both that decide something:

- whether an account is ready to trade (the trust-line test);
- the order of the purchase guards;
- the transactions and payment requests that are built;
- how failures become status messages;
- how a streamed record's memo is normalised and its `BUY-` order ID taken.

Its modules follow that structure:

| module | contents |
|---|---|
| `Wrappers` | `Option` |
| `JsText` | the JavaScript string operations the code relies on (truthiness, `a \|\| b`, `startsWith`, `includes`, `substring(0, n)`, `join`) |
| `Boundary` | what crosses to Horizon, the SDK and the wallet helper, as values: accounts, balances, thrown errors and Horizon problem documents, the outcome of each external call, built transactions, stream records, and a `Call` log entry per external call |
| `Trustline` | the `DATA` asset and the trust-line test |
| `Memos` | the `BUY-` memo convention and stream memo normalisation |
| `Transactions` | the two transactions the secret-key component builds, as records of the fields it gives the transaction builder |
| `Effects` | effect records shared by both components |
| `KeyedApp` | `components/App.tsx` |
| `WalletApp` | `app/page.tsx` |

Each component is a `class`. Its fields are the React state the handlers
update:

- `marketStatus`, `isReady`, `lastTxHash` and `accountBalance`;
- `isWalletConnected`, `connectedPublicKey`, `isConnectingWallet` and the
  module-level `MASTER_PUBLIC_KEY` of the wallet page;
- whether the SDK, the server and the `DATA` asset are set.

Each handler is a method that performs the source's steps in order. It is
proved against a pure *effect* function of the state it reads and of the
outcomes of the external calls it makes (account load, submission, wallet
answer). The synchronous SDK work a handler does before a call (deriving
the keypair, building and signing a transaction, constructing an asset)
can throw; its outcome is a `StepOutcome` parameter, and a throw skips the
call and lands in the handler's `catch`. The effect function gives the statuses shown, the calls made and
the new field values. The properties the code promises are proved as the
effect functions' own `ensures`, and as lemmas about them.

Three ghost logs record what a run did:

- `statusHistory`: every status shown, in order;
- `calls`: every call made to Horizon or to the wallet helper (a step that
  threw before its call adds none);
- `deliveries`: every order whose delivery the stream handler simulates.

The status line is modelled as *which* message is shown: a `Status` value
per component. `StatusText` gives each message's exact text, with the
literals of the source. A status built from data (the purchase-failure
text, the load-failure text, the hash prefix) keeps that data in the
`Status` value.

## Model

| member | source | states |
|---|---|---|
| JsText.Prefix | components/App.tsx:248 | `substring(0, n)` keeps the first `n` characters, or all of a shorter string, and is a prefix of it |
| JsText.Includes | components/App.tsx:274-276 | `includes` holds exactly when the substring occurs at some index of the string |
| JsText.Join | components/App.tsx:269 | joining one part gives that part; with a non-empty separator the result is empty exactly when there are no parts or a single empty one |
| Trustline.HasTrustline | components/App.tsx:161-163 | the trust line is present exactly when some balance has asset code `DATA` |
| Trustline.TrustlineIgnoresIssuer | components/App.tsx:161-163 | two balance lists with the same asset codes in the same places get the same trust-line answer, whatever their issuers |
| Memos.OrderIdOf | components/App.tsx:401-405 | a memo names an order exactly when it starts with `BUY-`, and the order ID is what follows it, so `BUY-` + ID gives back the memo |
| Memos.OrderIdRoundTrip | components/App.tsx:401-405 | reading back the memo `BUY-` + ID gives that ID |
| Memos.StreamOrderId | components/App.tsx:398-406 | a record announces an order exactly when its normalised memo is text starting with `BUY-`, and the memo is then the purchase memo of that order ID |
| Memos.ExtractMemo | components/App.tsx:359-396 | memo normalisation takes the first matching shape: a Horizon text memo, a string memo, an SDK `_value` decoded by `atob` (raw when decoding throws), then `value`, then `text`, otherwise the empty memo; an object under `memo_type == 'text'` is the one case that is no string |
| Memos.NoMarkerNoOrder | components/App.tsx:401 | a record whose memo text does not start with `BUY-` announces no order |
| Memos.PurchaseMemoOnStream | components/App.tsx:359-406 | a purchase memo announces its order ID in every wire shape that carries it as text |
| Transactions.TrustlineTransaction | components/App.tsx:96-107 | the trust-line transaction is built from the loaded account with fee 100, the test-network passphrase and a 30 s timeout, has no memo, and is one `changeTrust` on the asset with limit 1000000000 |
| Transactions.PaymentTransaction | components/App.tsx:223-238 | the purchase transaction is built from the loaded account with the same fee, passphrase and timeout, carries the memo `BUY-` + listing ID, and is one native payment of the listing's price to its seller |
| Transactions.PaymentMemoRoundTrip | components/App.tsx:359-405 | a purchase transaction streamed back with its text memo makes the stream handler recover the listing's ID, whatever the record's hash, ID and decoder |
| KeyedApp.LoadFailureMessage | components/App.tsx:175-196 | a failed account load shows the fixed lead; then the not-found text for Horizon's 404, else Horizon's `detail`, else its `title`, else "Horizon API error."; for a transport error its message or the network hint |
| KeyedApp.TrustlineFailureMessage | components/App.tsx:120-137 | a failed trust-line step shows the fixed lead, then Horizon's `detail`, else its `title`, else "Horizon API error."; for a transport error its message, else "Unknown error occurred."; it always ends with the funding advice |
| KeyedApp.ClassifyPurchaseError | components/App.tsx:259-283 | each result code gives its own failure kind (`tx_insufficient_balance`, `tx_bad_seq`, `tx_failed` with the operation codes joined by ", ", or "Unknown operation error" when none); any other Horizon answer is a rejection with its `detail`, `title` or the generic text; a thrown message is tested for "insufficient" before "network", and any other message is shown as is; no response and no message is the unknown failure |
| KeyedApp.PurchaseFailureMessage | components/App.tsx:258-286 | every purchase-failure text starts with "Purchase failed! " |
| KeyedApp.StatusText | components/App.tsx:55-418 | the exact text of each status message, with the component's literals |
| KeyedApp.OnlyThirdListingIsOwn | components/App.tsx:23-45 | the mock listings are the three fixed IDs, and exactly the third is sold by the component's own account |
| KeyedApp.TrustlineStatus | components/App.tsx:116-138 | the trust-line step shows success exactly when building did not throw and the submission succeeded; otherwise the error of the step that failed |
| KeyedApp.PurchaseAttemptEffect | components/App.tsx:214-288 | the account load comes first; the payment is submitted, after the "Attempting" status, exactly when the load succeeded and building did not throw; otherwise only the error of the failed step is shown; a successful submission records the hash, shows it and schedules a reload; every failure clears the hash |
| KeyedApp.IsConnectionLoss | components/App.tsx:416 | an error is a lost connection exactly when its code is `ECONNREFUSED` or its message contains "connection" |
| KeyedApp.LoadAccountEffect | components/App.tsx:148-198 | a load announces the connection and loads the component's own account; a present trust line makes it ready with no submission; a missing one builds the trust-line transaction and submits it only when building did not throw, and readiness is then that submission's success; a failed load clears the balances and is not ready |
| KeyedApp.BuyDataEffect | components/App.tsx:204-289 | the not-ready guard comes first, then the self-trade guard, and each returns before any call; past them the account is loaded, and the payment built from it is submitted only when building and signing did not throw; only a submitted payment records its hash and schedules a reload; every failure clears `lastTxHash` and shows the error of the step that failed, with no "Attempting" status when the step before the submission threw |
| KeyedApp.OwnListingNeverBought | components/App.tsx:209-213 | the component's own listing never reaches Horizon |
| KeyedApp.StreamHash | components/App.tsx:348 | the shown hash is never empty, and is the record's hash whenever it has one |
| KeyedApp.StreamMessageEffect | components/App.tsx:344-410 | every record is announced; its hash is recorded unless it is the "unknown" placeholder; delivery is simulated exactly when the memo names an order, every time such a memo arrives |
| KeyedApp.App.constructor | components/App.tsx:52-69 | the component starts not ready, with no hash, no balances, no SDK, no server and no calls, after "Initializing..." and "Loading Stellar SDK..." |
| KeyedApp.App.SetStatus | components/App.tsx:55 | `setMarketStatus` shows the message and appends it to the history |
| KeyedApp.App.OnSdkAvailable | components/App.tsx:294-324 | once the SDK is present, the server and the DATA asset issued by the component's account are set, the two SDK statuses are shown, and the account is loaded as `LoadAccountEffect` says |
| KeyedApp.App.LoadAccountData | components/App.tsx:148-198 | without a server nothing changes; otherwise the statuses, calls, readiness and balances are those of `LoadAccountEffect` |
| KeyedApp.App.OnAccountLoaded | components/App.tsx:158-173 | with the account loaded, the balances are its balances; a present trust line shows Online and makes the component ready; a missing one is reported and created, and readiness is the submission's success |
| KeyedApp.App.CreateTrustline | components/App.tsx:84-139 | a trust-line submission exactly when building and signing did not throw; ready exactly when it is submitted; success or the failure text shown |
| KeyedApp.App.HandleBuyData | components/App.tsx:204-289 | the statuses, calls, `lastTxHash` and scheduled reloads are those of `BuyDataEffect` for the current readiness |
| KeyedApp.App.AttemptPurchase | components/App.tsx:214-288 | the `try` block and its `catch`: load, build and sign, submit, and the effects `PurchaseAttemptEffect` gives for their outcomes |
| KeyedApp.App.FireScheduledReload | components/App.tsx:252 | a due reload consumes one scheduled reload and runs `loadAccountData` |
| KeyedApp.App.HandleMessage | components/App.tsx:344-410 | one streamed record changes the status, `lastTxHash` and the deliveries as `StreamMessageEffect` says |
| KeyedApp.App.HandleStreamError | components/App.tsx:412-420 | an error that `IsConnectionLoss` accepts shows the lost-stream status; any other error changes nothing |
| WalletApp.GetMarketplaceData | app/page.tsx:32-57 | three listings with the fixed IDs and the two mock sellers; the third is sold by the given key; each requires some tokens |
| WalletApp.OnlyThirdListingIsOwn | app/page.tsx:32-57 | for a key that is not a mock seller, exactly the third listing is the user's own |
| WalletApp.StatusText | app/page.tsx:73-249 | the exact text of each status message, with the page's literals |
| WalletApp.LoadFailureMessage | app/page.tsx:153-162 | a 404 response gives exactly the Friendbot funding text; any other failure gives "Error: Could not load account. " followed by the message or the console hint, and never the funding text |
| WalletApp.LoadAccountEffect | app/page.tsx:129-163 | one load of the connected account and never a submission; ready exactly when the load succeeds with a DATA balance, which is exactly when Online is shown; a missing trust line is reported for the user's wallet; a failure clears the balances |
| WalletApp.PurchaseRequest | app/page.tsx:227-232 | the payment request goes from the connected key to the seller, for the listing's price, with a memo that reads back as the listing's ID |
| WalletApp.PaymentAttemptEffect | app/page.tsx:223-250 | "Preparing" is shown and exactly one payment request is made; only a successful answer records its hash, shows it and schedules a reload; an unsuccessful answer or a throw shows its failure text and leaves the hash alone |
| WalletApp.BuyDataEffect | app/page.tsx:212-251 | the connection guard comes first, then the self-trade guard, and each returns before the wallet is asked; past them exactly one payment request is made; only a successful payment records its hash and schedules a reload; a non-success or a thrown error shows its failure text and leaves `lastTxHash` alone |
| WalletApp.OwnListingNeverPaid | app/page.tsx:217-220 | the user's own listing never reaches the wallet, whatever the state |
| WalletApp.PurchaseRequestRoundTrip | app/page.tsx:227-232 | the memo of a wallet purchase, streamed as a text memo, is read back as the listing's ID by the secret-key component's stream reader (`Memos.StreamOrderId`); the wallet page itself has no stream |
| WalletApp.App.constructor | app/page.tsx:61-78 | the page starts disconnected, not ready, with no key, balances, hash, SDK, server or calls, and the placeholder `MASTER_PUBLIC_KEY`, after its first two statuses |
| WalletApp.App.SetStatus | app/page.tsx:73 | `setMarketStatus` shows the message and appends it to the history |
| WalletApp.App.OnSdkAvailable | app/page.tsx:167-199 | once the SDK is present the server is set; a connected session gets the DATA asset of its key and a load; otherwise the page asks for a wallet |
| WalletApp.App.HandleConnectWallet | app/page.tsx:81-116 | success makes the key the session's account, `MASTER_PUBLIC_KEY` and the DATA issuer, and loads when the server is up; a failed connection, or an asset construction that throws, leaves the session disconnected with no key and shows the failure text; `isConnectingWallet` ends false either way |
| WalletApp.App.AdoptWallet | app/page.tsx:85-99 | the `try` block after the wallet answered: the key is adopted; when the server is up the DATA asset is constructed and its account loaded, or the asset's throw is returned with no load |
| WalletApp.App.ConnectWithKey | app/page.tsx:85-112 | after the wallet's answer: adopted and loaded as `AdoptWallet` says, or, when the asset's construction throws, the `catch` that disconnects and shows the failure |
| WalletApp.App.FailConnection | app/page.tsx:108-112 | the `catch` of connecting: the failure text is shown, and the session is left not connected with no key |
| WalletApp.App.HandleDisconnectWallet | app/page.tsx:118-126 | one disconnect call; the session is reset (not connected, no key, placeholder `MASTER_PUBLIC_KEY`, no balances, not ready), after which no purchase passes the guard |
| WalletApp.App.LoadAccountData | app/page.tsx:129-163 | without a server or a connected key nothing changes; otherwise the effect `LoadAccountEffect` gives for the connected key |
| WalletApp.App.HandleBuyData | app/page.tsx:212-251 | the statuses, calls, `lastTxHash` and scheduled reloads are those of `BuyDataEffect` for the current guard and key |
| WalletApp.App.RequestPayment | app/page.tsx:223-250 | the `try` block and its `catch`: one payment request and the effects of its outcome |
| WalletApp.App.FireScheduledReload | app/page.tsx:241 | a due reload consumes one scheduled reload and runs `loadAccountData` |

## Left out

- Rendering, CSS, the clipboard and the balance display. The display formats amounts with `parseFloat(...).toFixed(2)`, which is floating point.
- The `setInterval` poll for `window.StellarSdk`. It is modelled as one call, `OnSdkAvailable`, at the moment the SDK appears.
- The `setTimeout` reloads after a purchase. Each is a count of scheduled reloads (`pendingReloads`), and `FireScheduledReload` runs one. There is no timing.
- The wallet page's 1000 ms connection retry reads the same absent `server` from its closure and so never loads. It is modelled as doing nothing.
- React's asynchronous `setState` and stale closures. Handlers read the current fields. In particular, the wallet page's `loadAccountData` is modelled reading the current `connectedPublicKey`, not the one of the render that created it.
- WalletApp.App.HandleConnectWallet and WalletApp.App.AdoptWallet: model the evidently intended load on connect. As written, the `loadAccountData` that `handleConnectWallet` calls comes from the render before the connection, where `connectedPublicKey` is `''`, so it returns at once (app/page.tsx:130). After a first connect the page then never loads the account and never becomes ready.
- Keypair derivation, signing and the XDR envelope. A built transaction is the record of the fields given to the builder. Whether that work throws is a `StepOutcome` parameter, not derived from the key or the fields.
- The SDK's own checks on memos (for example the 28-byte limit).
- Horizon and the wallet helper (`connectWallet`, `sendPayment`, `disconnect`). Their answers are parameters of the handlers, and the calls are entries of the `calls` log.
- Base64 decoding. `atob` is a parameter: a function whose `None` result stands for a throw.
- The branch of the memo decoding for an environment without `atob`.
- Opening and closing the transaction stream. Its handlers are modelled for one record or error at a time.
- `handleSimulateSale` in `app/page.tsx`. It only sets status texts and is not part of the purchase flow.
- `console` logging. The delivery log line is recorded as the `deliveries` ghost log.
- `HandleMessage` has no duplicate suppression. Every `BUY-` memo simulates a delivery again, as the code does.
- `ExtractMemo`: when decoding throws, the raw `_value` becomes the memo text, as the code does. No memo is not the result.
- The SDK set-up in the `setInterval` callbacks (`new sdk.Server`, and `new sdk.Asset` for the component's own key or an already connected key) runs outside any `try`. It is modelled as never throwing; an uncaught throw there would only stop the set-up.
