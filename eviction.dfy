/** Reading a decoded `getmempoolentry` reply: a transaction counts as
    evicted when the node answers with a null `result` and an error whose
    message is exactly "Transaction not in mempool". The request itself,
    its transport and its credentials are not part of this model; the node
    is a function from txid to decoded reply. */
module Eviction {
  import opened Wrappers

  /** A property of a decoded JSON object: absent (`undefined`), `null`, or a value. */
  datatype Slot<+T> = Undefined | Null | Value(value: T)

  /** The `error` member of a reply; only its `message` is inspected. */
  datatype RpcError = RpcError(code: Slot<int>, message: Slot<string>)

  /** A decoded JSON-RPC reply. A non-null `result` is kept as its JSON text. */
  datatype Reply = Reply(result: Slot<string>, error: Slot<RpcError>)

  /** A node that answers `getmempoolentry` for a txid. */
  type MempoolQuery = string -> Reply

  const NotInMempool: string := "Transaction not in mempool"

  datatype EvictionError = ResultNotNull | WrongErrorMessage

  /** `reply.error?.message`: undefined when `error` is null or undefined. */
  function ErrorMessage(reply: Reply): (m: Slot<string>)
    ensures reply.error.Value? ==> m == reply.error.value.message
    ensures !reply.error.Value? ==> m == Undefined
  {
    match reply.error
    case Value(e) => e.message
    case _ => Undefined
  }

  /** The reply says the transaction is gone from the mempool. */
  predicate Evicted(reply: Reply) {
    && reply.result == Null
    && reply.error.Value?
    && reply.error.value.message == Value(NotInMempool)
  }

  /** The checks of 'should have evicted parent' and 'should have evicted
      child': `result` must be null, then `error?.message` must be exactly
      "Transaction not in mempool". */
  function CheckEvicted(reply: Reply): (r: Outcome<EvictionError>)
    ensures r.Pass? <==> Evicted(reply)
    ensures r == Fail(ResultNotNull) <==> reply.result != Null
    ensures r == Fail(WrongErrorMessage) <==> reply.result == Null && !Evicted(reply)
  {
    if reply.result != Null then Fail(ResultNotNull)
    else if ErrorMessage(reply) != Value(NotInMempool) then Fail(WrongErrorMessage)
    else Pass
  }

  /** A reply that still carries a mempool entry, or whose `result` is
      missing rather than null, never counts as eviction, whatever its error. */
  lemma PresentEntryIsNotEviction(reply: Reply)
    requires !reply.result.Null?
    ensures CheckEvicted(reply) == Fail(ResultNotNull)
  {
  }

  /** With a null result, the reply counts as eviction exactly when its
      error message is the not-in-mempool one: a missing error, a missing
      message or any other message fails. */
  lemma NullResultEvictedIffMessage(reply: Reply)
    requires reply.result == Null
    ensures CheckEvicted(reply).Pass? <==> ErrorMessage(reply) == Value(NotInMempool)
  {
  }

  /** The two eviction tests: the parent's txid is sent to the node in one
      and the child's in the other, and neither is in its mempool any more. */
  predicate PackageEvicted(query: MempoolQuery, parentTxid: string, childTxid: string)
    ensures PackageEvicted(query, parentTxid, childTxid) <==>
      Evicted(query(parentTxid)) && Evicted(query(childTxid))
  {
    CheckEvicted(query(parentTxid)).Pass? && CheckEvicted(query(childTxid)).Pass?
  }
}
