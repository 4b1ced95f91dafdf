/** `sanityCheckOutput(tx, inputLen, outputLen)`: the structural checks run on
    each decoded transaction. Every `expect` throws when it fails, so the
    verdict is the first failing expectation in source order: txid, input
    count, each input (txid length, then vout), output count, each output's
    amount, fee, weight. */
module Sanity {
  import opened Wrappers
  import opened Transactions

  /** Which expectation of the sanity check failed first. */
  datatype SanityError =
    | BadTxidLength
    | WrongInputCount
    | BadInputTxidLength(index: nat)
    | NegativeVout(index: nat)
    | WrongOutputCount
    | NonPositiveAmount(index: nat)
    | NonPositiveFee
    | NonPositiveWeight

  predicate InputOk(i: Input) {
    |i.txid| == TxidLength && i.vout >= 0
  }

  predicate OutputOk(o: Output) {
    o.amount > 0.0
  }

  predicate InputsOkBetween(ins: seq<Input>, k: nat, i: nat)
    requires k <= i <= |ins|
  {
    forall j | k <= j < i :: InputOk(ins[j])
  }

  predicate OutputsOkBetween(outs: seq<Output>, k: nat, i: nat)
    requires k <= i <= |outs|
  {
    forall j | k <= j < i :: OutputOk(outs[j])
  }

  predicate InputsOk(tx: Transaction, inputLen: nat) {
    |tx.input| == inputLen && InputsOkBetween(tx.input, 0, |tx.input|)
  }

  predicate OutputsOk(tx: Transaction, outputLen: nat) {
    |tx.output| == outputLen && OutputsOkBetween(tx.output, 0, |tx.output|)
  }

  /** Every expectation of the sanity check holds. */
  predicate WellFormed(tx: Transaction, inputLen: nat, outputLen: nat) {
    && |tx.txid| == TxidLength
    && InputsOk(tx, inputLen)
    && OutputsOk(tx, outputLen)
    && tx.fee > 0.0
    && tx.weight > 0
  }

  /** `e` names the first input at or after `k` that fails, and why. */
  ghost predicate FirstBadInput(ins: seq<Input>, k: nat, e: SanityError) {
    match e
    case BadInputTxidLength(i) =>
      k <= i < |ins| && InputsOkBetween(ins, k, i) && |ins[i].txid| != TxidLength
    case NegativeVout(i) =>
      k <= i < |ins| && InputsOkBetween(ins, k, i) && |ins[i].txid| == TxidLength && ins[i].vout < 0
    case _ => false
  }

  /** `e` names the first output at or after `k` whose amount is not positive. */
  ghost predicate FirstBadOutput(outs: seq<Output>, k: nat, e: SanityError) {
    match e
    case NonPositiveAmount(i) =>
      k <= i < |outs| && OutputsOkBetween(outs, k, i) && !OutputOk(outs[i])
    case _ => false
  }

  /** `e` is a violated expectation, and every expectation before it holds. */
  ghost predicate FirstViolation(tx: Transaction, inputLen: nat, outputLen: nat, e: SanityError) {
    match e
    case BadTxidLength =>
      |tx.txid| != TxidLength
    case WrongInputCount =>
      |tx.txid| == TxidLength && |tx.input| != inputLen
    case BadInputTxidLength(_) =>
      |tx.txid| == TxidLength && |tx.input| == inputLen && FirstBadInput(tx.input, 0, e)
    case NegativeVout(_) =>
      |tx.txid| == TxidLength && |tx.input| == inputLen && FirstBadInput(tx.input, 0, e)
    case WrongOutputCount =>
      |tx.txid| == TxidLength && InputsOk(tx, inputLen) && |tx.output| != outputLen
    case NonPositiveAmount(_) =>
      |tx.txid| == TxidLength && InputsOk(tx, inputLen) && |tx.output| == outputLen
      && FirstBadOutput(tx.output, 0, e)
    case NonPositiveFee =>
      |tx.txid| == TxidLength && InputsOk(tx, inputLen) && OutputsOk(tx, outputLen)
      && tx.fee <= 0.0
    case NonPositiveWeight =>
      |tx.txid| == TxidLength && InputsOk(tx, inputLen) && OutputsOk(tx, outputLen)
      && tx.fee > 0.0 && tx.weight <= 0
  }

  /** The `tx.input.forEach` block, from input `k` on. */
  function CheckInputs(ins: seq<Input>, k: nat): (r: Outcome<SanityError>)
    requires k <= |ins|
    ensures r.Pass? <==> InputsOkBetween(ins, k, |ins|)
    ensures r.Fail? ==> FirstBadInput(ins, k, r.error)
    decreases |ins| - k
  {
    if k == |ins| then Pass
    else if |ins[k].txid| != TxidLength then Fail(BadInputTxidLength(k))
    else if ins[k].vout < 0 then Fail(NegativeVout(k))
    else CheckInputs(ins, k + 1)
  }

  /** The `tx.output.forEach` block, from output `k` on. */
  function CheckOutputs(outs: seq<Output>, k: nat): (r: Outcome<SanityError>)
    requires k <= |outs|
    ensures r.Pass? <==> OutputsOkBetween(outs, k, |outs|)
    ensures r.Fail? ==> FirstBadOutput(outs, k, r.error)
    decreases |outs| - k
  {
    if k == |outs| then Pass
    else if !(outs[k].amount > 0.0) then Fail(NonPositiveAmount(k))
    else CheckOutputs(outs, k + 1)
  }

  /** `sanityCheckOutput(tx, inputLen, outputLen)`: passes exactly on
      well-formed transactions and otherwise reports the first violation. */
  function SanityCheck(tx: Transaction, inputLen: nat, outputLen: nat): (r: Outcome<SanityError>)
    ensures r.Pass? <==> WellFormed(tx, inputLen, outputLen)
    ensures r.Fail? ==> FirstViolation(tx, inputLen, outputLen, r.error)
  {
    if |tx.txid| != TxidLength then Fail(BadTxidLength)
    else if |tx.input| != inputLen then Fail(WrongInputCount)
    else
      var inputs := CheckInputs(tx.input, 0);
      if inputs.Fail? then inputs
      else if |tx.output| != outputLen then Fail(WrongOutputCount)
      else
        var outputs := CheckOutputs(tx.output, 0);
        if outputs.Fail? then outputs
        else if !(tx.fee > 0.0) then Fail(NonPositiveFee)
        else if !(tx.weight > 0) then Fail(NonPositiveWeight)
        else Pass
  }

  /** At most one expectation can be the first violated one, so the error
      the sanity check reports is determined by the transaction alone. */
  lemma FirstViolationUnique(tx: Transaction, inputLen: nat, outputLen: nat, e1: SanityError, e2: SanityError)
    requires FirstViolation(tx, inputLen, outputLen, e1)
    requires FirstViolation(tx, inputLen, outputLen, e2)
    ensures e1 == e2
  {
  }

  /** The sanity check reports exactly the first violated expectation. */
  lemma SanityReportsFirstViolation(tx: Transaction, inputLen: nat, outputLen: nat, e: SanityError)
    requires FirstViolation(tx, inputLen, outputLen, e)
    ensures SanityCheck(tx, inputLen, outputLen) == Fail(e)
  {
  }

  /** A transaction that passes has the requested shape: 64-character
      txid, `inputLen` inputs each with a 64-character txid and a
      non-negative vout, `outputLen` outputs each with a positive amount,
      and a positive fee and weight. */
  lemma PassedFieldwise(tx: Transaction, inputLen: nat, outputLen: nat)
    requires SanityCheck(tx, inputLen, outputLen).Pass?
    ensures |tx.txid| == 64 && |tx.input| == inputLen && |tx.output| == outputLen
    ensures forall i | 0 <= i < |tx.input| :: |tx.input[i].txid| == 64 && tx.input[i].vout >= 0
    ensures forall i | 0 <= i < |tx.output| :: tx.output[i].amount > 0.0
    ensures tx.fee > 0.0 && tx.weight > 0
  {
  }
}
