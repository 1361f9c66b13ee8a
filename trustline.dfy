/** The custom DATA asset and the trust-line test both components share. */
module Trustline {
  import opened Wrappers
  import opened Boundary

  const DataAssetCode: string := "DATA"

  /** The DATA asset issued by `issuer`. */
  function DataAsset(issuer: string): Asset {
    Credit(DataAssetCode, issuer)
  }

  /**
   * `balances.some(b => b.asset_code === DATA_ASSET_CODE)`: some balance has
   * asset code DATA. Only the code is compared, never the issuer.
   */
  function HasTrustline(balances: seq<Balance>): (r: bool)
    ensures r <==> exists i :: 0 <= i < |balances| && balances[i].assetCode == Some(DataAssetCode)
  {
    if balances == [] then false
    else if balances[0].assetCode == Some(DataAssetCode) then true
    else
      var r := HasTrustline(balances[1..]);
      assert forall i :: 1 <= i < |balances| ==> balances[i] == balances[1..][i - 1];
      r
  }

  /**
   * Only the asset codes take part in the trust-line test: two balance lists
   * with the same codes in the same places, whatever their issuers (or any
   * other field), get the same answer.
   */
  lemma {:induction false} TrustlineIgnoresIssuer(balances: seq<Balance>, other: seq<Balance>)
    requires |other| == |balances|
    requires forall i :: 0 <= i < |balances| ==> other[i].assetCode == balances[i].assetCode
    ensures HasTrustline(balances) == HasTrustline(other)
  {
  }
}
