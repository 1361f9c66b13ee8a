/**
 * The two transactions the secret-key component builds with the SDK's
 * TransactionBuilder, as records of the fields it sets. Signing and the
 * XDR envelope are the SDK's and are not modelled.
 */
module Transactions {
  import opened Wrappers
  import opened Boundary
  import opened Memos

  const NetworkPassphrase: string := "Test SDF Network ; September 2015"
  const BaseFee: string := "100"
  const TimeoutSeconds: nat := 30
  /** The trust-line limit: large but finite. */
  const TrustLimit: string := "1000000000"

  /** A transaction from `source` with the fixed fee, passphrase and 30 s timeout. */
  predicate BuiltFrom(tx: Transaction, source: Account) {
    && tx.sourceAccount == source.accountId
    && tx.sourceSequence == source.sequence
    && tx.fee == BaseFee
    && tx.networkPassphrase == NetworkPassphrase
    && tx.timeoutSeconds == TimeoutSeconds
  }

  /** `createTrustline`'s transaction: one `changeTrust` on `asset` with the fixed limit, no memo. */
  function TrustlineTransaction(source: Account, asset: Asset): (tx: Transaction)
    ensures BuiltFrom(tx, source)
    ensures tx.memo == None
    ensures tx.operations == [ChangeTrust(asset, TrustLimit)]
  {
    Transaction(source.accountId, source.sequence, BaseFee, NetworkPassphrase, None,
                [ChangeTrust(asset, TrustLimit)], TimeoutSeconds)
  }

  /**
   * `handleBuyData`'s transaction: one native payment of the listing's price
   * to its seller, tagged with the purchase memo of the listing's ID.
   */
  function PaymentTransaction(source: Account, item: Listing): (tx: Transaction)
    ensures BuiltFrom(tx, source)
    ensures tx.memo == Some(PurchaseMemo(item.id))
    ensures tx.operations == [Payment(item.sellerPublicKey, Native, item.priceXLM)]
  {
    Transaction(source.accountId, source.sequence, BaseFee, NetworkPassphrase, Some(PurchaseMemo(item.id)),
                [Payment(item.sellerPublicKey, Native, item.priceXLM)], TimeoutSeconds)
  }

  /**
   * The round trip between purchase and stream: when Horizon streams back a
   * purchase transaction with its text memo, the stream handler recovers the
   * listing's ID as order ID, whatever the hash, ID and decoder.
   */
  lemma PaymentMemoRoundTrip(source: Account, item: Listing, id: Option<string>, hash: Option<string>,
                             atob: string -> Option<string>)
    ensures
      var tx := PaymentTransaction(source, item);
      StreamOrderId(StreamRecord(id, hash, Some("text"), StringMemo(tx.memo.value)), atob) == Some(item.id)
  {
    var tx := PaymentTransaction(source, item);
    PurchaseMemoOnStream(item.id, StreamRecord(id, hash, Some("text"), StringMemo(tx.memo.value)), atob);
  }
}
