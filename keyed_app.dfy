/**
 * The secret-key marketplace component (components/App.tsx). It acts for
 * one fixed account, creates the DATA trust line itself when it is missing,
 * signs and submits purchases, and watches the account's transaction stream
 * for purchase memos.
 */
module KeyedApp {
  import opened Wrappers
  import opened JsText
  import opened Boundary
  import opened Trustline
  import opened Memos
  import opened Transactions
  import opened Effects

  /** The account the component acts for (a placeholder in the repository). */
  const MasterPublicKey: string := "G..."

  /** The three mock listings; the third is the user's own. */
  const MarketplaceData: seq<Listing> := [
    Listing("A1B2C3D4", "GA4P...R32Y", "Anonymized Q3 Web Traffic Trends", "50.00",
            "Aggregate demographic and referral data from 10,000 users over three months. GDPR-compliant.", None),
    Listing("E5F6G7H8", "GB5Q...S43Z", "Ethical Mobile App Usage Patterns (Last 7 Days)", "120.50",
            "Focus on productivity app interaction frequency (time series data).", None),
    Listing("I9J0K1L2", MasterPublicKey, "Personalized Health Tracker Sync Data", "5.00",
            "Single-user, anonymized daily step and sleep cycles (low-value, high-volume data).", None)
  ]

  // ---------------------------------------------------------------------
  // Fixed parts of the failure texts
  // ---------------------------------------------------------------------

  const LoadFailurePrefix: string := "Error: Could not connect to Stellar or load account. "
  const AccountNotFound: string := "Account not found. Ensure MASTER_PUBLIC_KEY is correct and funded."
  const TrustlineFailurePrefix: string := "Error creating trustline. "
  const TrustlineFailureAdvice: string := " Ensure account is funded and MASTER_SECRET_KEY is correct."

  // ---------------------------------------------------------------------
  // Failure messages
  // ---------------------------------------------------------------------

  /**
   * Status after a failed account load: a 404 in Horizon's problem document
   * gives the fixed not-found text; another Horizon answer gives its detail,
   * else its title; a transport error gives its message, else a network hint.
   */
  function LoadFailureMessage(e: JsError): (m: string)
    ensures StartsWith(m, LoadFailurePrefix)
    ensures e.response.Some? && ProblemOf(e).Some? && ProblemOf(e).value.status == Some(404) ==>
      m == LoadFailurePrefix + AccountNotFound
    ensures e.response.Some? && ProblemOf(e).Some? && ProblemOf(e).value.status != Some(404) && Truthy(ProblemOf(e).value.detail) ==>
      m == LoadFailurePrefix + ProblemOf(e).value.detail.value
    ensures e.response.Some? && !(ProblemOf(e).Some? && ProblemOf(e).value.status == Some(404)) &&
            ProblemOf(e).Some? && !Truthy(ProblemOf(e).value.detail) && Truthy(ProblemOf(e).value.title) ==>
      m == LoadFailurePrefix + ProblemOf(e).value.title.value
    ensures e.response.Some? && (ProblemOf(e).None? ||
              (ProblemOf(e).value.status != Some(404) &&
               !Truthy(ProblemOf(e).value.detail) && !Truthy(ProblemOf(e).value.title))) ==>
      m == LoadFailurePrefix + "Horizon API error."
    ensures e.response.None? ==> m == LoadFailurePrefix + OrElse(e.message, "Network error. Check your connection.")
  {
    var problem := ProblemOf(e);
    var reason :=
      if e.response.Some? then
        if problem.Some? && problem.value.status == Some(404) then AccountNotFound
        else DetailOrTitle(problem, "Horizon API error.")
      else OrElse(e.message, "Network error. Check your connection.");
    assert (LoadFailurePrefix + reason)[..|LoadFailurePrefix|] == LoadFailurePrefix;
    LoadFailurePrefix + reason
  }

  /**
   * Status after a failed trust-line submission: the fixed lead, Horizon's
   * detail, else title, else a generic Horizon text (or for a transport
   * error its message, else "Unknown error occurred."), then the fixed advice.
   */
  function TrustlineFailureMessage(e: JsError): (m: string)
    ensures StartsWith(m, TrustlineFailurePrefix)
    ensures |TrustlineFailureAdvice| <= |m| && m[|m| - |TrustlineFailureAdvice|..] == TrustlineFailureAdvice
    ensures e.response.Some? && ProblemOf(e).Some? && Truthy(ProblemOf(e).value.detail) ==>
      m == TrustlineFailurePrefix + ProblemOf(e).value.detail.value + TrustlineFailureAdvice
    ensures e.response.Some? && ProblemOf(e).Some? && !Truthy(ProblemOf(e).value.detail) && Truthy(ProblemOf(e).value.title) ==>
      m == TrustlineFailurePrefix + ProblemOf(e).value.title.value + TrustlineFailureAdvice
    ensures e.response.Some? &&
            (ProblemOf(e).None? || (!Truthy(ProblemOf(e).value.detail) && !Truthy(ProblemOf(e).value.title))) ==>
      m == TrustlineFailurePrefix + "Horizon API error." + TrustlineFailureAdvice
    ensures e.response.None? && Truthy(e.message) ==>
      m == TrustlineFailurePrefix + e.message.value + TrustlineFailureAdvice
    ensures e.response.None? && !Truthy(e.message) ==>
      m == TrustlineFailurePrefix + "Unknown error occurred." + TrustlineFailureAdvice
  {
    var reason :=
      if e.response.Some? then DetailOrTitle(ProblemOf(e), "Horizon API error.")
      else OrElse(e.message, "Unknown error occurred.");
    var m := TrustlineFailurePrefix + reason + TrustlineFailureAdvice;
    assert m[..|TrustlineFailurePrefix|] == TrustlineFailurePrefix;
    assert m[|m| - |TrustlineFailureAdvice|..] == TrustlineFailureAdvice;
    m
  }

  /** The kinds of purchase failure the component tells apart. */
  datatype PurchaseFailure =
    | InsufficientBalance                     // result code tx_insufficient_balance
    | BadSequence                             // result code tx_bad_seq
    | TransactionFailed(operationCodes: string) // result code tx_failed
    | SubmissionRejected(reason: string)      // any other Horizon answer
    | InsufficientFunds                       // a thrown message mentioning "insufficient"
    | NetworkFailure                          // a thrown message mentioning "network"
    | OtherFailure(message: string)           // any other thrown message
    | UnknownFailure                          // nothing to go on

  /**
   * Classification of a purchase failure. A Horizon answer is classified by
   * its transaction result code; a thrown error by its message, testing for
   * "insufficient" before "network".
   */
  function ClassifyPurchaseError(e: JsError): (f: PurchaseFailure)
    ensures f == InsufficientBalance <==>
      e.response.Some? && TxResultCode(ProblemOf(e)) == Some("tx_insufficient_balance")
    ensures f == BadSequence <==> e.response.Some? && TxResultCode(ProblemOf(e)) == Some("tx_bad_seq")
    ensures f.TransactionFailed? <==> e.response.Some? && TxResultCode(ProblemOf(e)) == Some("tx_failed")
    ensures f.TransactionFailed? && OpResultCodes(ProblemOf(e)).Some? && Join(OpResultCodes(ProblemOf(e)).value, ", ") != "" ==>
      f.operationCodes == Join(OpResultCodes(ProblemOf(e)).value, ", ")
    ensures f.TransactionFailed? && !(OpResultCodes(ProblemOf(e)).Some? && Join(OpResultCodes(ProblemOf(e)).value, ", ") != "") ==>
      f.operationCodes == "Unknown operation error"
    ensures f.SubmissionRejected? <==>
      e.response.Some? && TxResultCode(ProblemOf(e)) != Some("tx_insufficient_balance") &&
      TxResultCode(ProblemOf(e)) != Some("tx_bad_seq") && TxResultCode(ProblemOf(e)) != Some("tx_failed")
    ensures f.SubmissionRejected? ==> f.reason == DetailOrTitle(ProblemOf(e), "Transaction submission failed.")
    ensures f.OtherFailure? <==>
      e.response.None? && Truthy(e.message) && !Includes(e.message.value, "insufficient") &&
      !Includes(e.message.value, "network")
    ensures f.OtherFailure? ==> f.message == e.message.value
    ensures f == InsufficientFunds <==>
      e.response.None? && Truthy(e.message) && Includes(e.message.value, "insufficient")
    ensures f == NetworkFailure <==>
      e.response.None? && Truthy(e.message) && !Includes(e.message.value, "insufficient") &&
      Includes(e.message.value, "network")
    ensures f == UnknownFailure <==> e.response.None? && !Truthy(e.message)
  {
    if e.response.Some? then
      var problem := ProblemOf(e);
      var code := TxResultCode(problem);
      if code == Some("tx_insufficient_balance") then InsufficientBalance
      else if code == Some("tx_bad_seq") then BadSequence
      else if code == Some("tx_failed") then
        var ops := OpResultCodes(problem);
        TransactionFailed(if ops.Some? && Join(ops.value, ", ") != "" then Join(ops.value, ", ")
                          else "Unknown operation error")
      else SubmissionRejected(DetailOrTitle(problem, "Transaction submission failed."))
    else if Truthy(e.message) then
      if Includes(e.message.value, "insufficient") then InsufficientFunds
      else if Includes(e.message.value, "network") then NetworkFailure
      else OtherFailure(e.message.value)
    else UnknownFailure
  }

  /** The status text of each kind of purchase failure. */
  function PurchaseFailureMessage(f: PurchaseFailure): (m: string)
    ensures StartsWith(m, "Purchase failed! ")
  {
    var reason :=
      match f
      case InsufficientBalance => "Insufficient XLM balance to complete the purchase."
      case BadSequence => "Sequence number error. Please try again."
      case TransactionFailed(ops) => "Transaction failed: " + ops + "."
      case SubmissionRejected(r) => r
      case InsufficientFunds => "Insufficient XLM balance."
      case NetworkFailure => "Network error. Check your connection."
      case OtherFailure(msg) => msg
      case UnknownFailure => "Unknown error occurred. Check console for details.";
    assert ("Purchase failed! " + reason)[..17] == "Purchase failed! ";
    "Purchase failed! " + reason
  }

  // ---------------------------------------------------------------------
  // The status line
  // ---------------------------------------------------------------------

  /**
   * The messages the status line shows. The component keeps their text;
   * the model keeps which message is shown, and `StatusText` gives the text.
   */
  datatype Status =
    | Initializing
    | LoadingSdk
    | SdkLoaded
    | SdkInitialized
    | Connecting
    | TrustlineMissing
    | Online
    | TrustlineCreated
    | TrustlineError(error: JsError)
    | LoadError(error: JsError)
    | NotReady
    | SelfTrade
    | Attempting(item: Listing)
    | Purchased(hash: string)
    | PurchaseError(error: JsError)
    | Detected(txHash: string)
    | Delivered(orderId: string)
    | StreamLost

  /** The exact text the component shows for each message. */
  function StatusText(s: Status): string
  {
    match s
    case Initializing => "Initializing..."
    case LoadingSdk => "Loading Stellar SDK..."
    case SdkLoaded => "Stellar SDK loaded. Initializing Test Network..."
    case SdkInitialized => "Stellar SDK initialized. Loading account data..."
    case Connecting => "Connecting to Stellar Horizon..."
    case TrustlineMissing => "Account ready. Trustline for DATA token missing. Creating now..."
    case Online => "Marketplace is Online. Ready for Data Transactions."
    case TrustlineCreated => "Trustline created successfully! Marketplace is Online."
    case TrustlineError(e) => TrustlineFailureMessage(e)
    case LoadError(e) => LoadFailureMessage(e)
    case NotReady => "Marketplace not ready. Please wait for connection or check errors."
    case SelfTrade => "You can't buy data from yourself! This is a mock transaction."
    case Attempting(item) => "Attempting purchase of \"" + item.title + "\" for " + item.priceXLM + " XLM..."
    case Purchased(hash) => "Purchase successful! TX Hash: " + Prefix(hash, 10) + "... (Check console)"
    case PurchaseError(e) => PurchaseFailureMessage(ClassifyPurchaseError(e))
    case Detected(txHash) => "🔄 Real-time: New transaction detected! TX: " + Prefix(txHash, 12) + "..."
    case Delivered(orderId) => "✅ Purchase detected! Data delivery simulated for ID: " + orderId
    case StreamLost => "⚠️ Transaction stream connection lost. Attempting to reconnect..."
  }

  // ---------------------------------------------------------------------
  // Handler specifications
  // ---------------------------------------------------------------------

  /**
   * The status `createTrustline` leaves: created when the transaction is
   * built, signed and accepted; otherwise the error of the step that threw.
   */
  function TrustlineStatus(build: StepOutcome, submit: SubmitOutcome): (s: Status)
    ensures s == TrustlineCreated <==> build.Completed? && submit.Submitted?
    ensures build.Threw? ==> s == TrustlineError(build.error)
    ensures build.Completed? && submit.SubmitFailed? ==> s == TrustlineError(submit.error)
  {
    match build
    case Threw(e) => TrustlineError(e)
    case Completed =>
      match submit
      case Submitted(_) => TrustlineCreated
      case SubmitFailed(e) => TrustlineError(e)
  }

  /**
   * What `loadAccountData` does, given the account load's outcome and (used
   * only when the trust line is missing) the outcomes of building and of
   * submitting the trust-line transaction. It always announces the
   * connection and loads the component's own account first. A present trust
   * line makes the component ready with no submission; a missing one is
   * submitted unless building it throws, and readiness then follows the
   * submission; a failed load clears the balances and makes it not ready.
   */
  function LoadAccountEffect(load: LoadOutcome, build: StepOutcome, submit: SubmitOutcome): (e: LoadEffect<Status>)
    ensures |e.statuses| >= 2 && e.statuses[0] == Connecting
    ensures 1 <= |e.calls| <= 2 && e.calls[0] == LoadAccount(MasterPublicKey)
    ensures e.ready <==>
      load.Loaded? && (HasTrustline(load.account.balances) || (build.Completed? && submit.Submitted?))
    ensures e.balances == if load.Loaded? then load.account.balances else []
    ensures |e.calls| == 2 <==> load.Loaded? && !HasTrustline(load.account.balances) && build.Completed?
    ensures |e.calls| == 2 ==>
      e.calls[1] == SubmitTransaction(TrustlineTransaction(load.account, DataAsset(MasterPublicKey)))
    ensures load.Loaded? && !HasTrustline(load.account.balances) ==>
      e.statuses == [Connecting, TrustlineMissing, TrustlineStatus(build, submit)]
    ensures load.Loaded? && HasTrustline(load.account.balances) ==> e.statuses == [Connecting, Online]
    ensures Last(e.statuses) == Online <==> load.Loaded? && HasTrustline(load.account.balances)
    ensures load.LoadFailed? ==> e.statuses == [Connecting, LoadError(load.error)]
  {
    match load
    case LoadFailed(err) =>
      LoadEffect([Connecting, LoadError(err)], [LoadAccount(MasterPublicKey)], false, [])
    case Loaded(account) =>
      if HasTrustline(account.balances) then
        LoadEffect([Connecting, Online], [LoadAccount(MasterPublicKey)], true, account.balances)
      else
        LoadEffect([Connecting, TrustlineMissing, TrustlineStatus(build, submit)],
                   [LoadAccount(MasterPublicKey)] +
                   (if build.Completed?
                    then [SubmitTransaction(TrustlineTransaction(account, DataAsset(MasterPublicKey)))]
                    else []),
                   build.Completed? && submit.Submitted?, account.balances)
  }

  /**
   * The `try` block of `handleBuyData` and its `catch`: the account is
   * loaded, the payment built from it and signed (`build`), and only then
   * "Attempting" shown and the payment submitted. A throw at any step lands
   * in the catch, which shows that error and clears `lastTxHash`; success
   * records the hash and schedules a reload.
   */
  function PurchaseAttemptEffect(item: Listing, load: LoadOutcome, build: StepOutcome, submit: SubmitOutcome): (e: PurchaseEffect<Status>)
    ensures 1 <= |e.calls| <= 2 && 1 <= |e.statuses| <= 2
    ensures e.calls[0] == LoadAccount(MasterPublicKey)
    ensures |e.calls| == 2 <==> load.Loaded? && build.Completed?
    ensures |e.calls| == 2 ==>
      && e.calls[1] == SubmitTransaction(PaymentTransaction(load.account, item))
      && e.statuses[0] == Attempting(item)
    ensures |e.calls| == 1 ==>
      e.statuses == [PurchaseError(if load.LoadFailed? then load.error else build.error)]
    ensures e.reloadScheduled <==> |e.calls| == 2 && submit.Submitted?
    ensures e.reloadScheduled ==> e.hash == SetHash(Some(submit.hash)) && Last(e.statuses) == Purchased(submit.hash)
    ensures !e.reloadScheduled ==> e.hash == SetHash(None) && Last(e.statuses).PurchaseError?
    ensures |e.calls| == 2 && submit.SubmitFailed? ==> e.statuses == [Attempting(item), PurchaseError(submit.error)]
    ensures |e.calls| == 2 && submit.Submitted? ==> e.statuses == [Attempting(item), Purchased(submit.hash)]
  {
    match load
    case LoadFailed(err) =>
      PurchaseEffect([PurchaseError(err)], [LoadAccount(MasterPublicKey)], SetHash(None), false)
    case Loaded(source) =>
      match build
      case Threw(err) =>
        PurchaseEffect([PurchaseError(err)], [LoadAccount(MasterPublicKey)], SetHash(None), false)
      case Completed =>
        var calls := [LoadAccount(MasterPublicKey), SubmitTransaction(PaymentTransaction(source, item))];
        match submit
        case Submitted(hash) => PurchaseEffect([Attempting(item), Purchased(hash)], calls, SetHash(Some(hash)), true)
        case SubmitFailed(err) => PurchaseEffect([Attempting(item), PurchaseError(err)], calls, SetHash(None), false)
  }

  /**
   * What `handleBuyData` does. `ready` is the first guard (`isReady` and the
   * SDK, server and asset all present). The guards are checked in order and
   * a failing one returns before any call: nothing reaches Horizon unless the
   * market is ready and the listing is someone else's. The master account is
   * loaded first and the payment submitted from it unless building or
   * signing it throws; only a submitted payment schedules the reload, and
   * every failure clears the shown hash.
   */
  function BuyDataEffect(ready: bool, item: Listing, load: LoadOutcome, build: StepOutcome, submit: SubmitOutcome): (e: PurchaseEffect<Status>)
    ensures !ready ==> e == PurchaseEffect([NotReady], [], KeepHash, false)
    ensures ready && item.sellerPublicKey == MasterPublicKey ==> e == PurchaseEffect([SelfTrade], [], KeepHash, false)
    ensures |e.calls| <= 2
    ensures e.calls != [] <==> ready && item.sellerPublicKey != MasterPublicKey
    ensures e.calls != [] ==>
      && e.calls[0] == LoadAccount(MasterPublicKey)
      && (|e.calls| == 2 <==> load.Loaded? && build.Completed?)
      && (|e.calls| == 2 ==> e.calls[1] == SubmitTransaction(PaymentTransaction(load.account, item)))
    ensures e.reloadScheduled <==> e.calls != [] && load.Loaded? && build.Completed? && submit.Submitted?
    ensures e.reloadScheduled ==>
      e.hash == SetHash(Some(submit.hash)) && e.statuses == [Attempting(item), Purchased(submit.hash)]
    ensures e.calls != [] && load.LoadFailed? ==> e.hash == SetHash(None) && e.statuses == [PurchaseError(load.error)]
    ensures e.calls != [] && load.Loaded? && build.Threw? ==>
      e.hash == SetHash(None) && e.statuses == [PurchaseError(build.error)]
    ensures e.calls != [] && load.Loaded? && build.Completed? && submit.SubmitFailed? ==>
      e.hash == SetHash(None) && e.statuses == [Attempting(item), PurchaseError(submit.error)]
  {
    if !ready then PurchaseEffect([NotReady], [], KeepHash, false)
    else if item.sellerPublicKey == MasterPublicKey then PurchaseEffect([SelfTrade], [], KeepHash, false)
    else PurchaseAttemptEffect(item, load, build, submit)
  }

  /** Only the third mock listing is the component's own. */
  lemma OnlyThirdListingIsOwn()
    ensures |MarketplaceData| == 3
    ensures MarketplaceData[0].id == "A1B2C3D4" && MarketplaceData[1].id == "E5F6G7H8" && MarketplaceData[2].id == "I9J0K1L2"
    ensures forall i :: 0 <= i < |MarketplaceData| ==> (MarketplaceData[i].sellerPublicKey == MasterPublicKey <==> i == 2)
  {
    assert MarketplaceData[0].sellerPublicKey[1] != MasterPublicKey[1];
    assert MarketplaceData[1].sellerPublicKey[1] != MasterPublicKey[1];
  }

  /** The component's own listing never reaches Horizon, whatever the state and outcomes. */
  lemma OwnListingNeverBought(ready: bool, load: LoadOutcome, build: StepOutcome, submit: SubmitOutcome)
    ensures BuyDataEffect(ready, MarketplaceData[2], load, build, submit).calls == []
  {
  }

  /** `transaction.hash || transaction.id || 'unknown'`. */
  function StreamHash(rec: StreamRecord): (h: string)
    ensures h != ""
    ensures Truthy(rec.hash) ==> h == rec.hash.value
  {
    OrElse(rec.hash, OrElse(rec.id, "unknown"))
  }

  /** Effect of one stream message: statuses, `lastTxHash`, and the order whose delivery is simulated. */
  datatype MessageEffect = MessageEffect(statuses: seq<Status>, hash: HashUpdate, delivered: Option<string>)

  /**
   * What `handleMessage` does with one streamed record: it always announces
   * the record first, records its hash unless that is the 'unknown'
   * placeholder, and simulates delivery exactly when the memo names an
   * order, every time such a memo arrives.
   */
  function StreamMessageEffect(rec: StreamRecord, atob: string -> Option<string>): (e: MessageEffect)
    ensures e.delivered == StreamOrderId(rec, atob)
    ensures e.statuses == [Detected(StreamHash(rec))] + (if e.delivered.Some? then [Delivered(e.delivered.value)] else [])
    ensures e.hash == if StreamHash(rec) == "unknown" then KeepHash else SetHash(Some(StreamHash(rec)))
    ensures Truthy(rec.hash) && rec.hash != Some("unknown") ==> e.hash == SetHash(rec.hash)
  {
    var txHash := StreamHash(rec);
    var orderId := StreamOrderId(rec, atob);
    MessageEffect([Detected(txHash)] + (if orderId.Some? then [Delivered(orderId.value)] else []),
                  if txHash == "unknown" then KeepHash else SetHash(Some(txHash)),
                  orderId)
  }

  /**
   * `error.code === 'ECONNREFUSED' || error.message?.includes('connection')`:
   * the refused-connection code, or a message with "connection" somewhere in it.
   */
  predicate IsConnectionLoss(err: StreamError): (r: bool)
    ensures r <==>
      err.code == Some("ECONNREFUSED") || (err.message.Some? && exists i: nat :: OccursAt(err.message.value, "connection", i))
  {
    err.code == Some("ECONNREFUSED") || (err.message.Some? && Includes(err.message.value, "connection"))
  }

  // ---------------------------------------------------------------------
  // The component
  // ---------------------------------------------------------------------

  class App {
    /** The message on the status line; its text is `StatusText(marketStatus)`. */
    var marketStatus: Status
    var isReady: bool
    var lastTxHash: Option<string>
    var accountBalance: seq<Balance>
    /** `stellarSdk`, `server` and `dataAsset` being set. */
    var sdkLoaded: bool
    var serverReady: bool
    var dataAsset: Option<Asset>
    /** Reloads scheduled with `setTimeout` after a purchase and not yet run. */
    var pendingReloads: nat

    /** Every status shown, in order. */
    ghost var statusHistory: seq<Status>
    /** Every call made to Horizon, in order. */
    ghost var calls: seq<Call>
    /** The order IDs whose delivery the stream handler simulated, in order. */
    ghost var deliveries: seq<string>

    ghost predicate Valid()
      reads this
    {
      && statusHistory != []
      && marketStatus == Last(statusHistory)
      && (serverReady ==> sdkLoaded && dataAsset == Some(DataAsset(MasterPublicKey)))
    }

    /** The component as first rendered, after the mount effect's first status. */
    constructor ()
      ensures Valid()
      ensures statusHistory == [Initializing, LoadingSdk]
      ensures !isReady && lastTxHash == None && accountBalance == []
      ensures !sdkLoaded && !serverReady && dataAsset == None
      ensures pendingReloads == 0 && calls == [] && deliveries == []
    {
      marketStatus := LoadingSdk;
      statusHistory := [Initializing, LoadingSdk];
      isReady := false;
      lastTxHash := None;
      accountBalance := [];
      sdkLoaded, serverReady, dataAsset := false, false, None;
      pendingReloads := 0;
      calls, deliveries := [], [];
    }

    /** `setMarketStatus(s)`. */
    method SetStatus(s: Status)
      modifies this`marketStatus, this`statusHistory
      ensures marketStatus == s && statusHistory == old(statusHistory) + [s]
    {
      marketStatus := s;
      statusHistory := statusHistory + [s];
    }

    /**
     * The SDK poll's callback once `window.StellarSdk` is present: set up the
     * server and the DATA asset issued by the component's account, then load.
     */
    method OnSdkAvailable(load: LoadOutcome, build: StepOutcome, submit: SubmitOutcome)
      requires Valid()
      modifies this`marketStatus, this`statusHistory, this`sdkLoaded, this`serverReady, this`dataAsset,
               this`calls, this`isReady, this`accountBalance
      ensures Valid()
      ensures sdkLoaded && serverReady && dataAsset == Some(DataAsset(MasterPublicKey))
      ensures var e := LoadAccountEffect(load, build, submit);
        && statusHistory == old(statusHistory) + [SdkLoaded, SdkInitialized] + e.statuses
        && calls == old(calls) + e.calls
        && isReady == e.ready && accountBalance == e.balances
    {
      sdkLoaded := true;
      SetStatus(SdkLoaded);
      serverReady := true;
      dataAsset := Some(DataAsset(MasterPublicKey));
      SetStatus(SdkInitialized);
      AppendTwice(old(statusHistory), SdkLoaded, SdkInitialized);
      LoadAccountData(load, build, submit);
    }

    /**
     * `loadAccountData`: nothing without a server; otherwise the effect
     * `LoadAccountEffect` describes.
     */
    method LoadAccountData(load: LoadOutcome, build: StepOutcome, submit: SubmitOutcome)
      requires Valid()
      modifies this`marketStatus, this`statusHistory, this`calls, this`isReady, this`accountBalance
      ensures Valid()
      ensures !serverReady ==>
        statusHistory == old(statusHistory) && calls == old(calls) &&
        isReady == old(isReady) && accountBalance == old(accountBalance)
      ensures serverReady ==> var e := LoadAccountEffect(load, build, submit);
        && statusHistory == old(statusHistory) + e.statuses
        && calls == old(calls) + e.calls
        && isReady == e.ready && accountBalance == e.balances
    {
      if !serverReady {
        return;
      }
      SetStatus(Connecting);
      calls := calls + [LoadAccount(MasterPublicKey)];
      match load {
        case Loaded(account) =>
          OnAccountLoaded(account, build, submit);
        case LoadFailed(err) =>
          accountBalance := [];
          SetStatus(LoadError(err));
          isReady := false;
      }
    }

    /** The rest of `loadAccountData` once its own account has loaded. */
    method OnAccountLoaded(account: Account, build: StepOutcome, submit: SubmitOutcome)
      requires Valid() && serverReady
      modifies this`marketStatus, this`statusHistory, this`calls, this`isReady, this`accountBalance
      ensures Valid()
      ensures accountBalance == account.balances
      ensures HasTrustline(account.balances) ==>
        statusHistory == old(statusHistory) + [Online] && calls == old(calls) && isReady
      ensures !HasTrustline(account.balances) ==>
        && statusHistory == old(statusHistory) + [TrustlineMissing, TrustlineStatus(build, submit)]
        && calls == old(calls) +
             (if build.Completed?
              then [SubmitTransaction(TrustlineTransaction(account, DataAsset(MasterPublicKey)))]
              else [])
        && (isReady <==> build.Completed? && submit.Submitted?)
    {
      accountBalance := account.balances;
      if !HasTrustline(account.balances) {
        SetStatus(TrustlineMissing);
        CreateTrustline(account, dataAsset.value, build, submit);
        AppendTwice(old(statusHistory), TrustlineMissing, TrustlineStatus(build, submit));
      } else {
        SetStatus(Online);
        isReady := true;
      }
    }

    /**
     * `createTrustline`: derive the keypair and build and sign the
     * change-trust transaction from the loaded account (`build`), submit it,
     * and become ready exactly when that succeeds. A throw while building
     * lands in the catch before anything is submitted.
     */
    method CreateTrustline(account: Account, asset: Asset, build: StepOutcome, submit: SubmitOutcome)
      requires Valid()
      modifies this`marketStatus, this`statusHistory, this`calls, this`isReady
      ensures Valid()
      ensures calls == old(calls) + (if build.Completed? then [SubmitTransaction(TrustlineTransaction(account, asset))] else [])
      ensures isReady <==> build.Completed? && submit.Submitted?
      ensures statusHistory == old(statusHistory) + [TrustlineStatus(build, submit)]
    {
      match build {
        case Threw(err) =>
          SetStatus(TrustlineError(err));
          isReady := false;
        case Completed =>
          var transaction := TrustlineTransaction(account, asset);
          calls := calls + [SubmitTransaction(transaction)];
          match submit {
            case Submitted(_) =>
              SetStatus(TrustlineCreated);
              isReady := true;
            case SubmitFailed(err) =>
              SetStatus(TrustlineError(err));
              isReady := false;
          }
      }
    }

    /** `handleBuyData(item)`: the effect `BuyDataEffect` describes. */
    method HandleBuyData(item: Listing, load: LoadOutcome, build: StepOutcome, submit: SubmitOutcome)
      requires Valid()
      modifies this`marketStatus, this`statusHistory, this`calls, this`lastTxHash, this`pendingReloads
      ensures Valid()
      ensures var e := BuyDataEffect(isReady && sdkLoaded && serverReady && dataAsset.Some?, item, load, build, submit);
        && statusHistory == old(statusHistory) + e.statuses
        && calls == old(calls) + e.calls
        && lastTxHash == ApplyHash(old(lastTxHash), e.hash)
        && pendingReloads == old(pendingReloads) + (if e.reloadScheduled then 1 else 0)
    {
      if !isReady || !sdkLoaded || !serverReady || dataAsset.None? {
        SetStatus(NotReady);
        return;
      }
      if item.sellerPublicKey == MasterPublicKey {
        SetStatus(SelfTrade);
        return;
      }
      AttemptPurchase(item, load, build, submit);
    }

    /** The `try` block of `handleBuyData` and its `catch`. */
    method AttemptPurchase(item: Listing, load: LoadOutcome, build: StepOutcome, submit: SubmitOutcome)
      requires Valid()
      modifies this`marketStatus, this`statusHistory, this`calls, this`lastTxHash, this`pendingReloads
      ensures Valid()
      ensures var e := PurchaseAttemptEffect(item, load, build, submit);
        && statusHistory == old(statusHistory) + e.statuses
        && calls == old(calls) + e.calls
        && lastTxHash == ApplyHash(old(lastTxHash), e.hash)
        && pendingReloads == old(pendingReloads) + (if e.reloadScheduled then 1 else 0)
    {
      calls := calls + [LoadAccount(MasterPublicKey)];
      match load {
        case LoadFailed(err) =>
          SetStatus(PurchaseError(err));
          lastTxHash := None;
        case Loaded(sourceAccount) =>
          match build {
            case Threw(err) =>
              SetStatus(PurchaseError(err));
              lastTxHash := None;
            case Completed =>
              var transaction := PaymentTransaction(sourceAccount, item);
              SetStatus(Attempting(item));
              calls := calls + [SubmitTransaction(transaction)];
              AppendTwice(old(calls), LoadAccount(MasterPublicKey), SubmitTransaction(transaction));
              match submit {
                case Submitted(hash) =>
                  lastTxHash := Some(hash);
                  SetStatus(Purchased(hash));
                  pendingReloads := pendingReloads + 1;
                  AppendTwice(old(statusHistory), Attempting(item), Purchased(hash));
                case SubmitFailed(err) =>
                  SetStatus(PurchaseError(err));
                  lastTxHash := None;
                  AppendTwice(old(statusHistory), Attempting(item), PurchaseError(err));
              }
          }
      }
    }

    /** A reload scheduled by a purchase comes due: one `loadAccountData`. */
    method FireScheduledReload(load: LoadOutcome, build: StepOutcome, submit: SubmitOutcome)
      requires Valid() && pendingReloads > 0
      modifies this`pendingReloads, this`marketStatus, this`statusHistory, this`calls, this`isReady, this`accountBalance
      ensures Valid()
      ensures pendingReloads == old(pendingReloads) - 1
      ensures serverReady ==> var e := LoadAccountEffect(load, build, submit);
        && statusHistory == old(statusHistory) + e.statuses
        && calls == old(calls) + e.calls
        && isReady == e.ready && accountBalance == e.balances
      ensures !serverReady ==>
        statusHistory == old(statusHistory) && calls == old(calls) &&
        isReady == old(isReady) && accountBalance == old(accountBalance)
    {
      pendingReloads := pendingReloads - 1;
      LoadAccountData(load, build, submit);
    }

    /**
     * The stream's `handleMessage`. The one exception its body can raise
     * (`startsWith` on a memo object) is caught and ends the handler after
     * the announcement and the hash update.
     */
    method HandleMessage(rec: StreamRecord, atob: string -> Option<string>)
      requires Valid()
      modifies this`marketStatus, this`statusHistory, this`lastTxHash, this`deliveries
      ensures Valid()
      ensures var e := StreamMessageEffect(rec, atob);
        && statusHistory == old(statusHistory) + e.statuses
        && lastTxHash == ApplyHash(old(lastTxHash), e.hash)
        && deliveries == old(deliveries) + (if e.delivered.Some? then [e.delivered.value] else [])
    {
      var txHash := StreamHash(rec);
      SetStatus(Detected(txHash));
      if txHash != "" && txHash != "unknown" {
        lastTxHash := Some(txHash);
      }
      var memoText := ExtractMemo(rec, atob);
      match memoText {
        case NonStringMemo =>
          // `memoText.startsWith` throws here; the handler's catch only logs.
        case Text(text) =>
          var orderId := OrderIdOf(text);
          if orderId.Some? {
            deliveries := deliveries + [orderId.value];
            SetStatus(Delivered(orderId.value));
          }
      }
    }

    /** The stream's `handleError`: only a lost connection changes the status. */
    method HandleStreamError(err: StreamError)
      requires Valid()
      modifies this`marketStatus, this`statusHistory
      ensures Valid()
      ensures statusHistory == old(statusHistory) + (if IsConnectionLoss(err) then [StreamLost] else [])
    {
      if IsConnectionLoss(err) {
        SetStatus(StreamLost);
      }
    }
  }
}
