/** The `Transaction` record that the evaluation suite decodes from
    parent.json, child.json and parent-rbf.json, and the one lookup the
    suite performs on it: `output.find(o => o.amount === a)`. */
module Transactions {
  import opened Wrappers

  /** Length of a transaction id: 32 bytes written as 64 hex characters.
      Only the length is ever checked, never the alphabet. */
  const TxidLength: nat := 64

  /** A spent coin: the id of the transaction that created it and its index. */
  datatype Input = Input(txid: string, vout: int)

  /** A created coin: its locking script (hex text) and its amount in BTC. */
  datatype Output = Output(scriptpubkey: string, amount: real)

  /** Amounts and fees are exact decimals; weight is in weight units. */
  datatype Transaction = Transaction(
    txid: string,
    input: seq<Input>,
    output: seq<Output>,
    fee: real,
    weight: int)

  /** Some output carries exactly amount `a`. */
  predicate HasAmount(outs: seq<Output>, a: real) {
    exists i | 0 <= i < |outs| :: outs[i].amount == a
  }

  /** `i` is the first index at or after `k` whose output carries amount `a`. */
  predicate FirstWithAmountFrom(outs: seq<Output>, a: real, k: nat, i: nat) {
    && k <= i < |outs|
    && outs[i].amount == a
    && forall j | k <= j < i :: outs[j].amount != a
  }

  /** `i` is the first index whose output carries amount `a`. */
  predicate FirstWithAmount(outs: seq<Output>, a: real, i: nat) {
    FirstWithAmountFrom(outs, a, 0, i)
  }

  /** `find` started at index `k`: the first output at or after `k` with
      amount exactly `a`, or None (JavaScript's `undefined`). */
  function FindOutputFrom(outs: seq<Output>, a: real, k: nat): (r: Option<Output>)
    requires k <= |outs|
    ensures r.None? <==> forall j | k <= j < |outs| :: outs[j].amount != a
    ensures r.Some? ==> exists i: nat :: FirstWithAmountFrom(outs, a, k, i) && r.value == outs[i]
    decreases |outs| - k
  {
    if k == |outs| then None
    else if outs[k].amount == a then
      assert FirstWithAmountFrom(outs, a, k, k);
      Some(outs[k])
    else
      var r := FindOutputFrom(outs, a, k + 1);
      if r.Some? then
        var i: nat :| FirstWithAmountFrom(outs, a, k + 1, i) && r.value == outs[i];
        assert FirstWithAmountFrom(outs, a, k, i);
        r
      else r
  }

  /** `outs.find(o => o.amount === a)`. */
  function FindOutput(outs: seq<Output>, a: real): (r: Option<Output>)
    ensures r.None? <==> !HasAmount(outs, a)
    ensures r.Some? ==> r.value.amount == a && r.value in outs
    ensures r.Some? ==> exists i: nat :: FirstWithAmount(outs, a, i) && r.value == outs[i]
  {
    FindOutputFrom(outs, a, 0)
  }

  /** `find` returns exactly the first output with the amount, so two
      outputs that share an amount are never confused with each other. */
  lemma FindOutputIsFirst(outs: seq<Output>, a: real, i: nat)
    requires FirstWithAmount(outs, a, i)
    ensures FindOutput(outs, a) == Some(outs[i])
  {
  }
}
