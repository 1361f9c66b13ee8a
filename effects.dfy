/**
 * What one handler call does to a component's state, as a value. Each
 * handler method is specified by a pure function returning one of these;
 * `S` is the component's own type of status messages.
 */
module Effects {
  import opened Wrappers
  import opened Boundary

  /** Effect of `loadAccountData`: statuses shown in order, calls made, new `isReady` and balances. */
  datatype LoadEffect<S> = LoadEffect(statuses: seq<S>, calls: seq<Call>, ready: bool, balances: seq<Balance>)

  /** What a handler does to `lastTxHash`. */
  datatype HashUpdate = KeepHash | SetHash(hash: Option<string>)

  function ApplyHash(current: Option<string>, u: HashUpdate): Option<string> {
    match u
    case KeepHash => current
    case SetHash(h) => h
  }

  /** Effect of `handleBuyData`: statuses, calls, `lastTxHash`, and whether a reload is scheduled. */
  datatype PurchaseEffect<S> = PurchaseEffect(statuses: seq<S>, calls: seq<Call>, hash: HashUpdate, reloadScheduled: bool)

  /** Two entries appended one at a time are the pair appended at once. */
  lemma AppendTwice<T>(s: seq<T>, a: T, b: T)
    ensures s + [a] + [b] == s + [a, b]
  {
  }

  /** Last element of a non-empty sequence. */
  function Last<T>(s: seq<T>): T
    requires s != []
  {
    s[|s| - 1]
  }
}
