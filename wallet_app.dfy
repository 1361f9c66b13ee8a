/**
 * The wallet-connected marketplace page (app/page.tsx). The account is
 * whatever the wallet helper connects; a missing DATA trust line is only
 * reported (the user creates it with the wallet); purchases go through the
 * wallet helper's `sendPayment`.
 */
module WalletApp {
  import opened Wrappers
  import opened JsText
  import opened Boundary
  import opened Trustline
  import opened Memos
  import opened Effects

  /** The public-key placeholder used while no wallet is connected. */
  const PlaceholderKey: string := "G..."

  const SellerA: string := "GA4P...R32Y"
  const SellerB: string := "GB5Q...S43Z"

  const TrafficListing: Listing :=
    Listing("A1B2C3D4", SellerA, "Anonymized Q3 Web Traffic Trends", "50.00",
            "Aggregate demographic and referral data from 10,000 users over three months. GDPR-compliant.", Some("1"))
  const UsageListing: Listing :=
    Listing("E5F6G7H8", SellerB, "Ethical Mobile App Usage Patterns (Last 7 Days)", "120.50",
            "Focus on productivity app interaction frequency (time series data).", Some("3"))

  /** The health-tracker listing, sold by `seller`. */
  function HealthListing(seller: string): Listing {
    Listing("I9J0K1L2", seller, "Personalized Health Tracker Sync Data", "5.00",
            "Single-user, anonymized daily step and sleep cycles (low-value, high-volume data).", Some("0.1"))
  }

  /**
   * `getMarketplaceData(userPublicKey = 'G...')`: the three mock listings,
   * the third of which is sold by `userPublicKey` itself.
   */
  function GetMarketplaceData(userPublicKey: string := PlaceholderKey): (r: seq<Listing>)
    ensures |r| == 3
    ensures r[0].id == "A1B2C3D4" && r[1].id == "E5F6G7H8" && r[2].id == "I9J0K1L2"
    ensures r[0].sellerPublicKey == SellerA && r[1].sellerPublicKey == SellerB
    ensures r[2].sellerPublicKey == userPublicKey
    ensures forall i :: 0 <= i < 3 ==> r[i].tokensRequired.Some?
  {
    [TrafficListing, UsageListing, HealthListing(userPublicKey)]
  }

  /** For a key that is not one of the mock sellers, the third listing is exactly the user's own. */
  lemma OnlyThirdListingIsOwn(k: string)
    requires k != SellerA && k != SellerB
    ensures forall i :: 0 <= i < |GetMarketplaceData(k)| ==> (GetMarketplaceData(k)[i].sellerPublicKey == k <==> i == 2)
  {
  }

  // ---------------------------------------------------------------------
  // The status line
  // ---------------------------------------------------------------------

  /** The fixed parts of the account-load failure texts. */
  const FundingStatus: string := "Account not found. Please fund your account using the Stellar Friendbot."
  const LoadFailurePrefix: string := "Error: Could not load account. "

  /**
   * Status after a failed account load: a 404 response asks for Friendbot
   * funding; anything else reports the error's message, or a console hint.
   */
  function LoadFailureMessage(e: JsError): (m: string)
    ensures m == FundingStatus <==> e.response.Some? && e.response.value.status == Some(404)
    ensures StartsWith(m, LoadFailurePrefix) <==> !(e.response.Some? && e.response.value.status == Some(404))
    ensures StartsWith(m, LoadFailurePrefix) ==> m == LoadFailurePrefix + OrElse(e.message, "Check console for details.")
  {
    if e.response.Some? && e.response.value.status == Some(404) then
      assert FundingStatus[..|LoadFailurePrefix|] != LoadFailurePrefix by {
        assert FundingStatus[..|LoadFailurePrefix|][29] == FundingStatus[29] == 'd';
        assert LoadFailurePrefix[29] == '.';
      }
      FundingStatus
    else
      var m := LoadFailurePrefix + OrElse(e.message, "Check console for details.");
      assert m[..|LoadFailurePrefix|] == LoadFailurePrefix;
      assert m != FundingStatus by {
        assert m[29] == LoadFailurePrefix[29] == '.';
        assert FundingStatus[29] == 'd';
      }
      m
  }

  /**
   * The messages the status line shows. The page keeps their text; the
   * model keeps which message is shown, and `StatusText` gives the text.
   */
  datatype Status =
    | AwaitingWallet
    | LoadingSdk
    | SdkLoaded
    | SdkReady
    | WalletConnecting
    | WalletLinked
    | ConnectFailed(message: Option<string>)
    | Disconnected
    | Connecting
    | TrustlineMissing
    | Online
    | LoadError(error: JsError)
    | NotConnected
    | SelfTrade
    | Preparing(item: Listing)
    | Purchased(hash: string)
    | NotSuccessful
    | PaymentError(message: Option<string>)

  /** The exact text the page shows for each message. */
  function StatusText(s: Status): string
  {
    match s
    case AwaitingWallet => "Please connect your wallet to begin"
    case LoadingSdk => "Loading Stellar SDK..."
    case SdkLoaded => "Stellar SDK loaded. Please connect your wallet to begin."
    case SdkReady => "Stellar SDK ready. Please connect your wallet to begin."
    case WalletConnecting => "Connecting wallet..."
    case WalletLinked => "Wallet connected! Loading account data..."
    case ConnectFailed(message) => "Wallet connection failed: " + OrElse(message, "Please try again")
    case Disconnected => "Wallet disconnected. Please connect your wallet to begin."
    case Connecting => "Connecting to Stellar Horizon..."
    case TrustlineMissing =>
      "Account ready. Trustline for DATA token missing. Please create trustline using your wallet."
    case Online => "Marketplace is Online. Ready for Data Transactions."
    case LoadError(e) => LoadFailureMessage(e)
    case NotConnected => "Please connect your wallet first."
    case SelfTrade => "You can't buy data from yourself!"
    case Preparing(item) => "Preparing purchase of \"" + item.title + "\" for " + item.priceXLM + " XLM..."
    case Purchased(hash) => "Purchase successful! TX Hash: " + Prefix(hash, 10) + "..."
    case NotSuccessful => "Purchase failed! Transaction was not successful."
    case PaymentError(message) => "Purchase failed! " + OrElse(message, "See console for details.")
  }

  // ---------------------------------------------------------------------
  // Handler specifications
  // ---------------------------------------------------------------------

  /**
   * What `loadAccountData` does for the connected `address`: one account
   * load and never a submission. It is ready exactly when the load succeeds
   * with a DATA balance; a missing trust line is reported and left to the
   * user's wallet; a failure clears the balances.
   */
  function LoadAccountEffect(address: string, load: LoadOutcome): (e: LoadEffect<Status>)
    ensures e.calls == [LoadAccount(address)]
    ensures |e.statuses| == 2 && e.statuses[0] == Connecting
    ensures e.ready <==> load.Loaded? && HasTrustline(load.account.balances)
    ensures e.ready <==> e.statuses[1] == Online
    ensures e.balances == if load.Loaded? then load.account.balances else []
    ensures e.statuses[1] == TrustlineMissing <==> load.Loaded? && !HasTrustline(load.account.balances)
    ensures load.LoadFailed? ==> e.statuses[1] == LoadError(load.error)
  {
    match load
    case LoadFailed(err) =>
      LoadEffect([Connecting, LoadError(err)], [LoadAccount(address)], false, [])
    case Loaded(account) =>
      if !HasTrustline(account.balances) then
        LoadEffect([Connecting, TrustlineMissing], [LoadAccount(address)], false, account.balances)
      else
        LoadEffect([Connecting, Online], [LoadAccount(address)], true, account.balances)
  }

  /** The wallet helper's payment request for a purchase of `item` by `buyer`. */
  function PurchaseRequest(buyer: string, item: Listing): (r: PaymentRequest)
    ensures r.from == buyer && r.to == item.sellerPublicKey && r.amount == item.priceXLM
    ensures OrderIdOf(r.memo) == Some(item.id)
  {
    OrderIdRoundTrip(item.id);
    PaymentRequest(buyer, item.sellerPublicKey, item.priceXLM, PurchaseMemo(item.id))
  }

  /**
   * The `try` block of `handleBuyData` and its `catch`: one payment request
   * through the wallet helper. Only success records the hash and schedules
   * a reload.
   */
  function PaymentAttemptEffect(buyer: string, item: Listing, payment: PaymentOutcome): (e: PurchaseEffect<Status>)
    ensures e.calls == [SendPayment(PurchaseRequest(buyer, item))]
    ensures |e.statuses| == 2 && e.statuses[0] == Preparing(item)
    ensures e.reloadScheduled <==> payment.PaymentResult? && payment.success
    ensures e.reloadScheduled ==> e.hash == SetHash(Some(payment.hash)) && e.statuses[1] == Purchased(payment.hash)
    ensures !e.reloadScheduled ==> e.hash == KeepHash
    ensures payment.PaymentResult? && !payment.success ==> e.statuses[1] == NotSuccessful
    ensures payment.PaymentThrew? ==> e.statuses[1] == PaymentError(payment.message)
  {
    var calls := [SendPayment(PurchaseRequest(buyer, item))];
    match payment
    case PaymentResult(success, hash) =>
      if success then PurchaseEffect([Preparing(item), Purchased(hash)], calls, SetHash(Some(hash)), true)
      else PurchaseEffect([Preparing(item), NotSuccessful], calls, KeepHash, false)
    case PaymentThrew(message) =>
      PurchaseEffect([Preparing(item), PaymentError(message)], calls, KeepHash, false)
  }

  /**
   * What `handleBuyData` does. `gate` is the first guard (ready, connected,
   * a key, a server and an asset) and `buyer` the connected key. A failing
   * guard returns before the wallet is asked to pay; past them one payment
   * request is made. Only a successful payment records its hash and
   * schedules a reload; failures leave `lastTxHash` alone.
   */
  function BuyDataEffect(gate: bool, buyer: string, item: Listing, payment: PaymentOutcome): (e: PurchaseEffect<Status>)
    ensures !gate ==> e == PurchaseEffect([NotConnected], [], KeepHash, false)
    ensures gate && item.sellerPublicKey == buyer ==> e == PurchaseEffect([SelfTrade], [], KeepHash, false)
    ensures e.calls != [] <==> gate && item.sellerPublicKey != buyer
    ensures e.calls != [] ==>
      e.calls == [SendPayment(PurchaseRequest(buyer, item))] &&
      |e.statuses| == 2 && e.statuses[0] == Preparing(item)
    ensures e.reloadScheduled <==> e.calls != [] && payment.PaymentResult? && payment.success
    ensures e.reloadScheduled ==> e.hash == SetHash(Some(payment.hash)) && e.statuses[1] == Purchased(payment.hash)
    ensures !e.reloadScheduled ==> e.hash == KeepHash
    ensures e.calls != [] && payment.PaymentResult? && !payment.success ==> e.statuses[1] == NotSuccessful
    ensures e.calls != [] && payment.PaymentThrew? ==> e.statuses[1] == PaymentError(payment.message)
  {
    if !gate then PurchaseEffect([NotConnected], [], KeepHash, false)
    else if item.sellerPublicKey == buyer then PurchaseEffect([SelfTrade], [], KeepHash, false)
    else PaymentAttemptEffect(buyer, item, payment)
  }

  /** The user's own listing never reaches the wallet, whatever the state. */
  lemma OwnListingNeverPaid(gate: bool, key: string, payment: PaymentOutcome)
    ensures BuyDataEffect(gate, key, GetMarketplaceData(key)[2], payment).calls == []
  {
  }

  /**
   * The payment memo a wallet purchase sends round-trips through the stream
   * handler of the secret-key component to the listing's ID.
   */
  lemma PurchaseRequestRoundTrip(buyer: string, item: Listing, rec: StreamRecord, atob: string -> Option<string>)
    requires rec.memoType == Some("text") && rec.memo == StringMemo(PurchaseRequest(buyer, item).memo)
    ensures StreamOrderId(rec, atob) == Some(item.id)
  {
    PurchaseMemoOnStream(item.id, rec, atob);
  }

  // ---------------------------------------------------------------------
  // The component
  // ---------------------------------------------------------------------

  class App {
    /** The message on the status line; its text is `StatusText(marketStatus)`. */
    var marketStatus: Status
    var isReady: bool
    var isWalletConnected: bool
    var connectedPublicKey: string
    var isConnectingWallet: bool
    var accountBalance: seq<Balance>
    var lastTxHash: Option<string>
    /** `window.StellarSdk`/`stellarSdk`, `server` and `dataAsset` being set. */
    var sdkLoaded: bool
    var serverReady: bool
    var dataAsset: Option<Asset>
    /** The module-level `MASTER_PUBLIC_KEY`, which the page reassigns. */
    var masterPublicKey: string
    /** Reloads scheduled with `setTimeout` after a purchase and not yet run. */
    var pendingReloads: nat

    /** Every status shown, in order. */
    ghost var statusHistory: seq<Status>
    /** Every call made to Horizon or to the wallet helper, in order. */
    ghost var calls: seq<Call>

    ghost predicate Valid()
      reads this
    {
      && statusHistory != []
      && marketStatus == Last(statusHistory)
      && (serverReady ==> sdkLoaded)
      && (isWalletConnected ==> masterPublicKey == connectedPublicKey)
    }

    /** `handleBuyData`'s first guard. */
    predicate PurchaseGate()
      reads this
    {
      isReady && isWalletConnected && connectedPublicKey != "" && serverReady && dataAsset.Some?
    }

    /** The page as first rendered, after the mount effect's first status. */
    constructor ()
      ensures Valid()
      ensures statusHistory == [AwaitingWallet, LoadingSdk]
      ensures !isReady && !isWalletConnected && connectedPublicKey == "" && !isConnectingWallet
      ensures accountBalance == [] && lastTxHash == None
      ensures !sdkLoaded && !serverReady && dataAsset == None
      ensures masterPublicKey == PlaceholderKey && pendingReloads == 0 && calls == []
    {
      marketStatus := LoadingSdk;
      statusHistory := [AwaitingWallet, LoadingSdk];
      isReady, isWalletConnected, connectedPublicKey, isConnectingWallet := false, false, "", false;
      accountBalance, lastTxHash := [], None;
      sdkLoaded, serverReady, dataAsset := false, false, None;
      masterPublicKey, pendingReloads := PlaceholderKey, 0;
      calls := [];
    }

    /** `setMarketStatus(s)`. */
    method SetStatus(s: Status)
      modifies this`marketStatus, this`statusHistory
      ensures marketStatus == s && statusHistory == old(statusHistory) + [s]
    {
      marketStatus := s;
      statusHistory := statusHistory + [s];
    }

    /**
     * The SDK poll's callback once `window.StellarSdk` is present: set up the
     * server, then load only if a wallet is already connected.
     */
    method OnSdkAvailable(load: LoadOutcome)
      requires Valid()
      modifies this`marketStatus, this`statusHistory, this`sdkLoaded, this`serverReady, this`dataAsset,
               this`calls, this`isReady, this`accountBalance
      ensures Valid()
      ensures sdkLoaded && serverReady
      ensures var connected := isWalletConnected && connectedPublicKey != "";
        var e := LoadAccountEffect(connectedPublicKey, load);
        && dataAsset == (if connected then Some(DataAsset(connectedPublicKey)) else old(dataAsset))
        && statusHistory == old(statusHistory) + [SdkLoaded] +
             (if connected then e.statuses else [SdkReady])
        && calls == old(calls) + (if connected then e.calls else [])
        && isReady == (if connected then e.ready else old(isReady))
        && accountBalance == (if connected then e.balances else old(accountBalance))
    {
      sdkLoaded := true;
      SetStatus(SdkLoaded);
      serverReady := true;
      if isWalletConnected && connectedPublicKey != "" {
        dataAsset := Some(DataAsset(connectedPublicKey));
        LoadAccountData(load);
      } else {
        SetStatus(SdkReady);
      }
    }

    /**
     * `handleConnectWallet`: ask the wallet helper for a key. On success the
     * key becomes the session's account and, when the server is up, the DATA
     * asset's issuer, and the account is loaded. `asset` is the outcome of
     * constructing that asset, which throws for a key the SDK rejects. A
     * failed connection or a throw lands in the catch, which leaves the
     * session disconnected. `isConnectingWallet` is cleared either way.
     */
    method HandleConnectWallet(wallet: WalletOutcome, asset: StepOutcome, load: LoadOutcome)
      requires Valid()
      modifies this`isConnectingWallet, this`marketStatus, this`statusHistory, this`calls,
               this`connectedPublicKey, this`masterPublicKey, this`isWalletConnected, this`dataAsset,
               this`isReady, this`accountBalance
      ensures Valid()
      ensures !isConnectingWallet
      ensures wallet.WalletFailed? ==>
        && !isWalletConnected && connectedPublicKey == ""
        && statusHistory == old(statusHistory) + [WalletConnecting, ConnectFailed(wallet.message)]
        && calls == old(calls) + [ConnectWallet]
        && masterPublicKey == old(masterPublicKey) && dataAsset == old(dataAsset)
        && isReady == old(isReady) && accountBalance == old(accountBalance)
      ensures wallet.WalletConnected? && sdkLoaded && serverReady && asset.Threw? ==>
        && !isWalletConnected && connectedPublicKey == "" && masterPublicKey == wallet.publicKey
        && statusHistory == old(statusHistory) + [WalletConnecting, WalletLinked, ConnectFailed(asset.error.message)]
        && calls == old(calls) + [ConnectWallet]
        && dataAsset == old(dataAsset) && isReady == old(isReady) && accountBalance == old(accountBalance)
      ensures wallet.WalletConnected? && !(sdkLoaded && serverReady && asset.Threw?) ==>
        && isWalletConnected && connectedPublicKey == wallet.publicKey && masterPublicKey == wallet.publicKey
        && dataAsset == (if sdkLoaded && serverReady then Some(DataAsset(wallet.publicKey)) else old(dataAsset))
      ensures wallet.WalletConnected? && sdkLoaded && serverReady && asset.Completed? && wallet.publicKey != "" ==>
        var e := LoadAccountEffect(wallet.publicKey, load);
        && statusHistory == old(statusHistory) + [WalletConnecting, WalletLinked] + e.statuses
        && calls == old(calls) + [ConnectWallet] + e.calls
        && isReady == e.ready && accountBalance == e.balances
      ensures wallet.WalletConnected? && !(sdkLoaded && serverReady && (asset.Threw? || wallet.publicKey != "")) ==>
        && statusHistory == old(statusHistory) + [WalletConnecting, WalletLinked]
        && calls == old(calls) + [ConnectWallet]
        && isReady == old(isReady) && accountBalance == old(accountBalance)
    {
      isConnectingWallet := true;
      SetStatus(WalletConnecting);
      calls := calls + [ConnectWallet];
      match wallet {
        case WalletConnected(publicKey) =>
          AppendTwice(old(statusHistory), WalletConnecting, WalletLinked);
          ConnectWithKey(publicKey, asset, load);
        case WalletFailed(message) =>
          FailConnection(message);
      }
      isConnectingWallet := false;
    }

    /**
     * `handleConnectWallet` once the wallet answered with `publicKey`: the
     * rest of the `try` block, and the `catch` when the asset's construction
     * throws.
     */
    method ConnectWithKey(publicKey: string, asset: StepOutcome, load: LoadOutcome)
      requires Valid()
      modifies this`marketStatus, this`statusHistory, this`calls, this`connectedPublicKey, this`masterPublicKey,
               this`isWalletConnected, this`dataAsset, this`isReady, this`accountBalance
      ensures Valid()
      ensures masterPublicKey == publicKey
      ensures sdkLoaded && serverReady && asset.Threw? ==>
        && !isWalletConnected && connectedPublicKey == ""
        && statusHistory == old(statusHistory) + [WalletLinked, ConnectFailed(asset.error.message)]
        && calls == old(calls)
        && dataAsset == old(dataAsset) && isReady == old(isReady) && accountBalance == old(accountBalance)
      ensures !(sdkLoaded && serverReady && asset.Threw?) ==>
        && isWalletConnected && connectedPublicKey == publicKey
        && dataAsset == (if sdkLoaded && serverReady then Some(DataAsset(publicKey)) else old(dataAsset))
      ensures sdkLoaded && serverReady && asset.Completed? && publicKey != "" ==>
        var e := LoadAccountEffect(publicKey, load);
        && statusHistory == old(statusHistory) + [WalletLinked] + e.statuses
        && calls == old(calls) + e.calls
        && isReady == e.ready && accountBalance == e.balances
      ensures !(sdkLoaded && serverReady && (asset.Threw? || publicKey != "")) ==>
        && statusHistory == old(statusHistory) + [WalletLinked]
        && calls == old(calls)
        && isReady == old(isReady) && accountBalance == old(accountBalance)
    {
      var thrown := AdoptWallet(publicKey, asset, load);
      if thrown.Some? {
        AppendTwice(old(statusHistory), WalletLinked, ConnectFailed(thrown.value.message));
        FailConnection(thrown.value.message);
      }
    }

    /**
     * The `try` block of `handleConnectWallet` after the wallet answered with
     * a key: the key becomes the session's account, and when the server is
     * up the DATA asset of that key is constructed and its account loaded.
     * `thrown` is the error the asset's construction throws, if any.
     */
    method AdoptWallet(publicKey: string, asset: StepOutcome, load: LoadOutcome) returns (thrown: Option<JsError>)
      requires Valid()
      modifies this`marketStatus, this`statusHistory, this`calls, this`connectedPublicKey, this`masterPublicKey,
               this`isWalletConnected, this`dataAsset, this`isReady, this`accountBalance
      ensures Valid()
      ensures isWalletConnected && connectedPublicKey == publicKey && masterPublicKey == publicKey
      ensures thrown == if sdkLoaded && serverReady && asset.Threw? then Some(asset.error) else None
      ensures dataAsset ==
        if sdkLoaded && serverReady && asset.Completed? then Some(DataAsset(publicKey)) else old(dataAsset)
      ensures sdkLoaded && serverReady && asset.Completed? && publicKey != "" ==>
        var e := LoadAccountEffect(publicKey, load);
        && statusHistory == old(statusHistory) + [WalletLinked] + e.statuses
        && calls == old(calls) + e.calls
        && isReady == e.ready && accountBalance == e.balances
      ensures !(sdkLoaded && serverReady && asset.Completed? && publicKey != "") ==>
        && statusHistory == old(statusHistory) + [WalletLinked]
        && calls == old(calls)
        && isReady == old(isReady) && accountBalance == old(accountBalance)
    {
      thrown := None;
      connectedPublicKey := publicKey;
      masterPublicKey := publicKey;
      isWalletConnected := true;
      SetStatus(WalletLinked);
      if sdkLoaded && serverReady {
        match asset {
          case Threw(err) =>
            thrown := Some(err);
          case Completed =>
            dataAsset := Some(DataAsset(publicKey));
            LoadAccountData(load);
        }
      }
      // With the SDK loaded but no server, the page retries after 1000 ms
      // with the same absent `server`, so the retry never loads.
    }

    /**
     * The `catch` block of `handleConnectWallet`: report the error's message
     * and leave the session disconnected. `MASTER_PUBLIC_KEY` keeps whatever
     * the `try` block assigned.
     */
    method FailConnection(message: Option<string>)
      requires Valid()
      modifies this`marketStatus, this`statusHistory, this`isWalletConnected, this`connectedPublicKey
      ensures Valid()
      ensures statusHistory == old(statusHistory) + [ConnectFailed(message)]
      ensures !isWalletConnected && connectedPublicKey == ""
    {
      SetStatus(ConnectFailed(message));
      isWalletConnected := false;
      connectedPublicKey := "";
    }

    /** `handleDisconnectWallet`: reset the session. */
    method HandleDisconnectWallet()
      requires Valid()
      modifies this`calls, this`isWalletConnected, this`connectedPublicKey, this`masterPublicKey,
               this`accountBalance, this`isReady, this`marketStatus, this`statusHistory
      ensures Valid()
      ensures calls == old(calls) + [DisconnectWallet]
      ensures !isWalletConnected && connectedPublicKey == "" && masterPublicKey == PlaceholderKey
      ensures accountBalance == [] && !isReady
      ensures statusHistory == old(statusHistory) + [Disconnected]
      ensures !PurchaseGate()
    {
      calls := calls + [DisconnectWallet];
      isWalletConnected := false;
      connectedPublicKey := "";
      masterPublicKey := PlaceholderKey;
      accountBalance := [];
      isReady := false;
      SetStatus(Disconnected);
    }

    /**
     * `loadAccountData`: nothing without a server or a connected key;
     * otherwise the effect `LoadAccountEffect` describes for that key.
     */
    method LoadAccountData(load: LoadOutcome)
      requires Valid()
      modifies this`marketStatus, this`statusHistory, this`calls, this`isReady, this`accountBalance
      ensures Valid()
      ensures !serverReady || connectedPublicKey == "" ==>
        statusHistory == old(statusHistory) && calls == old(calls) &&
        isReady == old(isReady) && accountBalance == old(accountBalance)
      ensures serverReady && connectedPublicKey != "" ==> var e := LoadAccountEffect(connectedPublicKey, load);
        && statusHistory == old(statusHistory) + e.statuses
        && calls == old(calls) + e.calls
        && isReady == e.ready && accountBalance == e.balances
    {
      if !serverReady || connectedPublicKey == "" {
        return;
      }
      SetStatus(Connecting);
      calls := calls + [LoadAccount(connectedPublicKey)];
      match load {
        case Loaded(account) =>
          accountBalance := account.balances;
          if !HasTrustline(account.balances) {
            SetStatus(TrustlineMissing);
            isReady := false;
          } else {
            SetStatus(Online);
            isReady := true;
          }
        case LoadFailed(err) =>
          accountBalance := [];
          SetStatus(LoadError(err));
          isReady := false;
      }
    }

    /** `handleBuyData(item)`: the effect `BuyDataEffect` describes. */
    method HandleBuyData(item: Listing, payment: PaymentOutcome)
      requires Valid()
      modifies this`marketStatus, this`statusHistory, this`calls, this`lastTxHash, this`pendingReloads
      ensures Valid()
      ensures var e := BuyDataEffect(PurchaseGate(), connectedPublicKey, item, payment);
        && statusHistory == old(statusHistory) + e.statuses
        && calls == old(calls) + e.calls
        && lastTxHash == ApplyHash(old(lastTxHash), e.hash)
        && pendingReloads == old(pendingReloads) + (if e.reloadScheduled then 1 else 0)
    {
      if !isReady || !isWalletConnected || connectedPublicKey == "" || !serverReady || dataAsset.None? {
        SetStatus(NotConnected);
        return;
      }
      if item.sellerPublicKey == connectedPublicKey {
        SetStatus(SelfTrade);
        return;
      }
      RequestPayment(item, payment);
    }

    /** The `try` block of `handleBuyData` and its `catch`, once both guards have passed. */
    method RequestPayment(item: Listing, payment: PaymentOutcome)
      requires Valid() && PurchaseGate()
      modifies this`marketStatus, this`statusHistory, this`calls, this`lastTxHash, this`pendingReloads
      ensures Valid()
      ensures var e := PaymentAttemptEffect(connectedPublicKey, item, payment);
        && statusHistory == old(statusHistory) + e.statuses
        && calls == old(calls) + e.calls
        && lastTxHash == ApplyHash(old(lastTxHash), e.hash)
        && pendingReloads == old(pendingReloads) + (if e.reloadScheduled then 1 else 0)
    {
      SetStatus(Preparing(item));
      calls := calls + [SendPayment(PurchaseRequest(connectedPublicKey, item))];
      match payment {
        case PaymentResult(success, hash) =>
          if success {
            lastTxHash := Some(hash);
            SetStatus(Purchased(hash));
            AppendTwice(old(statusHistory), Preparing(item), Purchased(hash));
            if sdkLoaded && serverReady && dataAsset.Some? {
              pendingReloads := pendingReloads + 1;
            }
          } else {
            SetStatus(NotSuccessful);
            AppendTwice(old(statusHistory), Preparing(item), NotSuccessful);
          }
        case PaymentThrew(message) =>
          SetStatus(PaymentError(message));
          AppendTwice(old(statusHistory), Preparing(item), PaymentError(message));
      }
    }

    /** A reload scheduled by a purchase comes due: one `loadAccountData`. */
    method FireScheduledReload(load: LoadOutcome)
      requires Valid() && pendingReloads > 0
      modifies this`pendingReloads, this`marketStatus, this`statusHistory, this`calls, this`isReady, this`accountBalance
      ensures Valid()
      ensures pendingReloads == old(pendingReloads) - 1
      ensures !serverReady || connectedPublicKey == "" ==>
        statusHistory == old(statusHistory) && calls == old(calls) &&
        isReady == old(isReady) && accountBalance == old(accountBalance)
      ensures serverReady && connectedPublicKey != "" ==> var e := LoadAccountEffect(connectedPublicKey, load);
        && statusHistory == old(statusHistory) + e.statuses
        && calls == old(calls) + e.calls
        && isReady == e.ready && accountBalance == e.balances
    {
      pendingReloads := pendingReloads - 1;
      LoadAccountData(load);
    }
  }
}
