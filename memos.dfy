/**
 * The purchase-memo convention: a purchase carries the text memo
 * "BUY-" + order ID, and the transaction stream reads the order ID back out
 * of whatever memo shape a streamed record has.
 */
module Memos {
  import opened Wrappers
  import opened JsText
  import opened Boundary

  /** The marker that starts every purchase memo. */
  const Marker: string := "BUY-"

  /** The memo text a purchase of `orderId` carries: `BUY-${id}`. */
  function PurchaseMemo(orderId: string): string {
    Marker + orderId
  }

  /**
   * `memoText && memoText.startsWith('BUY-')`, then `memoText.substring(4)`:
   * the order ID a memo names, if it is a purchase memo.
   */
  function OrderIdOf(memoText: string): (r: Option<string>)
    ensures r.Some? <==> StartsWith(memoText, Marker)
    ensures r.Some? ==> PurchaseMemo(r.value) == memoText
  {
    if memoText != "" && StartsWith(memoText, Marker) then Some(memoText[|Marker|..]) else None
  }

  /** Reading back a purchase memo gives the order ID it was built from. */
  lemma OrderIdRoundTrip(orderId: string)
    ensures OrderIdOf(PurchaseMemo(orderId)) == Some(orderId)
  {
    assert PurchaseMemo(orderId)[..|Marker|] == Marker;
    assert PurchaseMemo(orderId)[|Marker|..] == orderId;
  }

  /**
   * The value the stream handler ends up holding in `memoText`: a string, or
   * (when a record says `memo_type: 'text'` but carries a memo object) an
   * object, on which the later `startsWith` call throws.
   */
  datatype MemoText = Text(text: string) | NonStringMemo

  /** Truthiness of a record's `memo` property. */
  predicate MemoPresent(m: MemoField) {
    match m
    case NoMemo => false
    case StringMemo(s) => s != ""
    case SdkMemo(_, _, _, _) => true
  }

  /** A record in the SDK's object format, which the Horizon-format test does not claim. */
  predicate SdkShaped(rec: StreamRecord) {
    rec.memoType != Some("text") && rec.memo.SdkMemo?
  }

  /**
   * Memo normalisation of the stream handler. The first matching shape wins:
   * Horizon's `memo_type == 'text'` with a memo; a string memo; an SDK object
   * with `_type == 'text'` and a `_value`, decoded by `atob` and taken raw
   * when decoding throws; its `value`; its `text`; otherwise the empty memo.
   * `atob` is the browser's base64 decoder, `None` standing for a throw.
   */
  function ExtractMemo(rec: StreamRecord, atob: string -> Option<string>): (r: MemoText)
    ensures rec.memo.NoMemo? ==> r == Text("")
    ensures rec.memo.StringMemo? ==> r == Text(rec.memo.content)
    ensures r == NonStringMemo <==> rec.memoType == Some("text") && rec.memo.SdkMemo?
    ensures SdkShaped(rec) && rec.memo.typeTag == Some("text") && Truthy(rec.memo.rawValue) ==>
      r == Text(atob(rec.memo.rawValue.value).GetOr(rec.memo.rawValue.value))
    ensures SdkShaped(rec) && !(rec.memo.typeTag == Some("text") && Truthy(rec.memo.rawValue)) ==>
      r == Text(OrElse(rec.memo.value, OrElse(rec.memo.text, "")))
  {
    if rec.memoType == Some("text") && MemoPresent(rec.memo) then
      if rec.memo.StringMemo? then Text(rec.memo.content) else NonStringMemo
    else if MemoPresent(rec.memo) then
      match rec.memo
      case StringMemo(s) => Text(s)
      case SdkMemo(typeTag, rawValue, value, text) =>
        if typeTag == Some("text") && Truthy(rawValue) then
          Text(atob(rawValue.value).GetOr(rawValue.value))
        else if Truthy(value) then Text(value.value)
        else if Truthy(text) then Text(text.value)
        else Text("")
    else
      Text("")
  }

  /** The order ID a streamed record announces; an object memo announces none. */
  function StreamOrderId(rec: StreamRecord, atob: string -> Option<string>): (r: Option<string>)
    ensures r.Some? <==> ExtractMemo(rec, atob).Text? && StartsWith(ExtractMemo(rec, atob).text, Marker)
    ensures r.Some? ==> ExtractMemo(rec, atob) == Text(PurchaseMemo(r.value))
  {
    match ExtractMemo(rec, atob)
    case Text(s) => OrderIdOf(s)
    case NonStringMemo => None
  }

  /** A record whose memo does not start with the marker announces no order. */
  lemma NoMarkerNoOrder(rec: StreamRecord, atob: string -> Option<string>)
    requires ExtractMemo(rec, atob).Text? ==> !StartsWith(ExtractMemo(rec, atob).text, Marker)
    ensures StreamOrderId(rec, atob) == None
  {
  }

  /**
   * A purchase memo announces its order ID in each wire shape that carries
   * it as text: Horizon's JSON, a plain string, an SDK object whose `_value`
   * decodes to it, and an SDK object holding it in `value` or `text`.
   */
  lemma PurchaseMemoOnStream(orderId: string, rec: StreamRecord, atob: string -> Option<string>)
    requires
      || rec.memo == StringMemo(PurchaseMemo(orderId))
      || (SdkShaped(rec) && rec.memo.typeTag == Some("text") && Truthy(rec.memo.rawValue)
          && atob(rec.memo.rawValue.value) == Some(PurchaseMemo(orderId)))
      || (SdkShaped(rec) && rec.memo.typeTag != Some("text") && rec.memo.value == Some(PurchaseMemo(orderId)))
      || (SdkShaped(rec) && rec.memo.typeTag != Some("text") && !Truthy(rec.memo.value)
          && rec.memo.text == Some(PurchaseMemo(orderId)))
    ensures StreamOrderId(rec, atob) == Some(orderId)
  {
    OrderIdRoundTrip(orderId);
  }
}
