/**
 * What the two components exchange with the outside: Horizon (account load,
 * transaction submission, the transaction stream), the Stellar SDK's
 * transaction builder, and the wallet helper. Results of external calls are
 * inputs of the model; the calls themselves are recorded as `Call` values.
 */
module Boundary {
  import opened Wrappers
  import opened JsText

  /** One entry of Horizon's `balances` array. */
  datatype Balance = Balance(
    balance: string,
    assetType: string,
    assetCode: Option<string>,
    assetIssuer: Option<string>)

  /** An account as `server.loadAccount` resolves it. */
  datatype Account = Account(accountId: string, sequence: string, balances: seq<Balance>)

  /** `Asset.native()` or `new Asset(code, issuer)`. */
  datatype Asset = Native | Credit(code: string, issuer: string)

  // ---------------------------------------------------------------------
  // Thrown values. A rejected Horizon call throws an object whose
  // `response.data` is Horizon's problem document; a transport failure
  // throws an Error with only a `message`.
  // ---------------------------------------------------------------------

  /** `extras.result_codes` of a rejected submission. */
  datatype ResultCodes = ResultCodes(transaction: Option<string>, operations: Option<seq<string>>)

  /** `extras` of a problem document. */
  datatype Extras = Extras(resultCodes: Option<ResultCodes>)

  /** `error.response.data`: Horizon's problem document. */
  datatype Problem = Problem(status: Option<int>, title: Option<string>, detail: Option<string>, extras: Option<Extras>)

  /** `error.response`. */
  datatype Response = Response(status: Option<int>, data: Option<Problem>)

  /** A caught JavaScript error: its `response` and `message` properties. */
  datatype JsError = JsError(response: Option<Response>, message: Option<string>)

  /** `error.response?.data`. */
  function ProblemOf(e: JsError): Option<Problem> {
    if e.response.Some? then e.response.value.data else None
  }

  /** `horizonError?.detail || horizonError?.title || fallback`. */
  function DetailOrTitle(p: Option<Problem>, fallback: string): string {
    if p.None? then fallback
    else OrElse(p.value.detail, OrElse(p.value.title, fallback))
  }

  /** `horizonError?.extras?.result_codes`. */
  function ResultCodesOf(p: Option<Problem>): Option<ResultCodes> {
    if p.Some? && p.value.extras.Some? then p.value.extras.value.resultCodes else None
  }

  /** `horizonError?.extras?.result_codes?.transaction`. */
  function TxResultCode(p: Option<Problem>): Option<string> {
    var codes := ResultCodesOf(p);
    if codes.Some? then codes.value.transaction else None
  }

  /** `horizonError?.extras?.result_codes?.operations`. */
  function OpResultCodes(p: Option<Problem>): Option<seq<string>> {
    var codes := ResultCodesOf(p);
    if codes.Some? then codes.value.operations else None
  }

  /** Outcome of `server.loadAccount(address)`. */
  datatype LoadOutcome = Loaded(account: Account) | LoadFailed(error: JsError)

  /** Outcome of signing and `server.submitTransaction(tx)`. */
  datatype SubmitOutcome = Submitted(hash: string) | SubmitFailed(error: JsError)

  /**
   * Outcome of the synchronous SDK work a handler does before its external
   * call (deriving the keypair, building and signing a transaction,
   * constructing an asset): it completes, or it throws `error`.
   */
  datatype StepOutcome = Completed | Threw(error: JsError)

  // ---------------------------------------------------------------------
  // Transactions, as the record of the fields given to TransactionBuilder.
  // ---------------------------------------------------------------------

  datatype Operation =
    | ChangeTrust(asset: Asset, limit: string)
    | Payment(destination: string, asset: Asset, amount: string)

  datatype Transaction = Transaction(
    sourceAccount: string,
    sourceSequence: string,
    fee: string,
    networkPassphrase: string,
    memo: Option<string>,
    operations: seq<Operation>,
    timeoutSeconds: nat)

  // ---------------------------------------------------------------------
  // The transaction stream.
  // ---------------------------------------------------------------------

  /**
   * The `memo` property of a streamed record: absent, a plain string
   * (Horizon's JSON), or an SDK memo object with `_type`, `_value`,
   * `value` and `text` properties.
   */
  datatype MemoField =
    | NoMemo
    | StringMemo(content: string)
    | SdkMemo(typeTag: Option<string>, rawValue: Option<string>, value: Option<string>, text: Option<string>)

  /** A record delivered by the transaction stream. */
  datatype StreamRecord = StreamRecord(id: Option<string>, hash: Option<string>, memoType: Option<string>, memo: MemoField)

  /** An error event of the transaction stream. */
  datatype StreamError = StreamError(code: Option<string>, message: Option<string>)

  // ---------------------------------------------------------------------
  // The wallet helper (`@/lib/stellar-helper`), an opaque collaborator.
  // ---------------------------------------------------------------------

  /** The argument of `stellar.sendPayment`. */
  datatype PaymentRequest = PaymentRequest(from: string, to: string, amount: string, memo: string)

  /** Outcome of `stellar.connectWallet()`. */
  datatype WalletOutcome = WalletConnected(publicKey: string) | WalletFailed(message: Option<string>)

  /** Outcome of `stellar.sendPayment(...)`: a result object, or a thrown error. */
  datatype PaymentOutcome = PaymentResult(success: bool, hash: string) | PaymentThrew(message: Option<string>)

  // ---------------------------------------------------------------------

  /** A marketplace listing. Only the wallet variant's listings carry `tokensRequired`. */
  datatype Listing = Listing(
    id: string,
    sellerPublicKey: string,
    title: string,
    priceXLM: string,
    description: string,
    tokensRequired: Option<string>)

  /** Every call a component makes to Horizon or to the wallet helper. */
  datatype Call =
    | LoadAccount(address: string)
    | SubmitTransaction(tx: Transaction)
    | ConnectWallet
    | SendPayment(request: PaymentRequest)
    | DisconnectWallet
}
