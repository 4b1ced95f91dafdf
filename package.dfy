/** The three package tests: the parent, the child that spends it, and the
    replace-by-fee (RBF) replacement of the parent. Each test is a chain of
    `expect` calls, so its verdict is the first expectation that fails.
    The amounts and fees these tests compare against are fixed constants. */
module Package {
  import opened Wrappers
  import opened Transactions
  import opened Sanity

  /** The parent amount whose script any output of 70 in the replacement
      must carry; the replacement need not have such an output. */
  const PreservedAmount: real := 70.0
  /** The parent's change output; the replacement must pay less than this. */
  const ChangeAmount: real := 29.99999
  /** The child's only output: the change output minus the child's fee. */
  const ChildAmount: real := 29.99998
  /** Fee paid by the parent, and again by the child. */
  const PackageFee: real := 0.00001
  /** Smallest fee the replacement may pay. */
  const MinReplacementFee: real := 0.00011

  // ----- 'should validate parent' -----

  datatype ParentError = NoPreservedOutput | NoChangeOutput | ParentFeeMismatch

  predicate ParentOk(parent: Transaction) {
    && HasAmount(parent.output, PreservedAmount)
    && HasAmount(parent.output, ChangeAmount)
    && parent.fee == PackageFee
  }

  /** The parent test: an output of 70, an output of 29.99999, fee 0.00001. */
  function ValidateParent(parent: Transaction): (r: Outcome<ParentError>)
    ensures r.Pass? <==> ParentOk(parent)
    ensures r == Fail(NoPreservedOutput) <==> !HasAmount(parent.output, PreservedAmount)
    ensures r == Fail(NoChangeOutput) <==>
      HasAmount(parent.output, PreservedAmount) && !HasAmount(parent.output, ChangeAmount)
    ensures r == Fail(ParentFeeMismatch) <==>
      HasAmount(parent.output, PreservedAmount) && HasAmount(parent.output, ChangeAmount)
      && parent.fee != PackageFee
  {
    if FindOutput(parent.output, PreservedAmount).None? then Fail(NoPreservedOutput)
    else if FindOutput(parent.output, ChangeAmount).None? then Fail(NoChangeOutput)
    else if parent.fee != PackageFee then Fail(ParentFeeMismatch)
    else Pass
  }

  // ----- 'should validate child' -----

  /** `NoInputs` stands for the TypeError thrown by `childTx.input[0].txid`
      when the input list is empty. */
  datatype ChildError = NoChildOutput | ChildFeeMismatch | NoInputs | NotSpendingParent | VoutAboveOne

  predicate ChildOk(child: Transaction, parent: Transaction) {
    && HasAmount(child.output, ChildAmount)
    && child.fee == PackageFee
    && |child.input| > 0
    && child.input[0].txid == parent.txid
    && child.input[0].vout <= 1
  }

  /** The child test: an output of 29.99998, fee 0.00001, and a first input
      that spends the parent's txid at a vout of at most 1. */
  function ValidateChild(child: Transaction, parent: Transaction): (r: Outcome<ChildError>)
    ensures r.Pass? <==> ChildOk(child, parent)
    ensures r == Fail(NoChildOutput) <==> !HasAmount(child.output, ChildAmount)
    ensures r == Fail(ChildFeeMismatch) <==>
      HasAmount(child.output, ChildAmount) && child.fee != PackageFee
    ensures r == Fail(NoInputs) <==>
      HasAmount(child.output, ChildAmount) && child.fee == PackageFee && child.input == []
    ensures r == Fail(NotSpendingParent) <==>
      HasAmount(child.output, ChildAmount) && child.fee == PackageFee && child.input != []
      && child.input[0].txid != parent.txid
    ensures r == Fail(VoutAboveOne) <==>
      HasAmount(child.output, ChildAmount) && child.fee == PackageFee && child.input != []
      && child.input[0].txid == parent.txid && child.input[0].vout > 1
  {
    if FindOutput(child.output, ChildAmount).None? then Fail(NoChildOutput)
    else if child.fee != PackageFee then Fail(ChildFeeMismatch)
    else if |child.input| == 0 then Fail(NoInputs)
    else if child.input[0].txid != parent.txid then Fail(NotSpendingParent)
    else if child.input[0].vout > 1 then Fail(VoutAboveOne)
    else Pass
  }

  /** With the parent's two outputs (sanity-checked as (2, 2)) and the
      child's non-negative vout (sanity-checked as (1, 1)), an accepted
      child spends an output the parent really has. */
  lemma ChildSpendsParentOutput(parent: Transaction, child: Transaction)
    requires SanityCheck(parent, 2, 2).Pass?
    requires SanityCheck(child, 1, 1).Pass?
    requires ValidateChild(child, parent).Pass?
    ensures child.input[0].txid == parent.txid
    ensures 0 <= child.input[0].vout < |parent.output|
  {
  }

  // ----- 'should validate parent RBF' -----

  /** `MissingParentOutput` stands for the TypeError thrown by reading
      `.scriptpubkey` from the parent's `find(o => o.amount === 70)` when
      the parent has no output of 70 to read the script from. */
  datatype ReplacementError =
    | MissingParentOutput(index: nat)
    | ScriptChanged(index: nat)
    | AmountNotReduced(index: nat)
    | InputsDiffer
    | FeeTooLow

  /** The script of the parent's first output of 70 is `script`. */
  predicate IsPreservedScript(parentOuts: seq<Output>, script: string) {
    exists j: nat | j < |parentOuts| :: FirstWithAmount(parentOuts, PreservedAmount, j) && parentOuts[j].scriptpubkey == script
  }

  /** One replacement output is acceptable: an output of 70 keeps the
      script of the parent's first output of 70; any other output is
      strictly below the parent's change amount. */
  predicate OutputKept(o: Output, parentOuts: seq<Output>) {
    if o.amount == PreservedAmount then IsPreservedScript(parentOuts, o.scriptpubkey)
    else o.amount < ChangeAmount
  }

  predicate OutputsKeptBetween(outs: seq<Output>, parentOuts: seq<Output>, k: nat, i: nat)
    requires k <= i <= |outs|
  {
    forall j | k <= j < i :: OutputKept(outs[j], parentOuts)
  }

  /** Every expectation of the replacement test holds. */
  predicate ReplacementOk(replacement: Transaction, parent: Transaction) {
    && OutputsKeptBetween(replacement.output, parent.output, 0, |replacement.output|)
    && replacement.input == parent.input
    && replacement.fee >= MinReplacementFee
  }

  /** `e` names the first replacement output at or after `k` that is not
      acceptable, and why. */
  ghost predicate FirstBadReplacementOutput(outs: seq<Output>, parentOuts: seq<Output>, k: nat, e: ReplacementError) {
    match e
    case MissingParentOutput(i) =>
      && k <= i < |outs| && OutputsKeptBetween(outs, parentOuts, k, i)
      && outs[i].amount == PreservedAmount && !HasAmount(parentOuts, PreservedAmount)
    case ScriptChanged(i) =>
      && k <= i < |outs| && OutputsKeptBetween(outs, parentOuts, k, i)
      && outs[i].amount == PreservedAmount && HasAmount(parentOuts, PreservedAmount)
      && !IsPreservedScript(parentOuts, outs[i].scriptpubkey)
    case AmountNotReduced(i) =>
      && k <= i < |outs| && OutputsKeptBetween(outs, parentOuts, k, i)
      && outs[i].amount != PreservedAmount && outs[i].amount >= ChangeAmount
    case _ => false
  }

  /** The script of the parent's first output of 70, found with `find`,
      is the preserved script. */
  lemma FoundScriptIsPreserved(parentOuts: seq<Output>, script: string)
    requires HasAmount(parentOuts, PreservedAmount)
    ensures IsPreservedScript(parentOuts, script) <==>
      script == FindOutput(parentOuts, PreservedAmount).value.scriptpubkey
  {
  }

  /** The `for (const output of parentRbfTx.output)` loop, from output `k` on. */
  function CheckReplacementOutputs(outs: seq<Output>, parentOuts: seq<Output>, k: nat): (r: Outcome<ReplacementError>)
    requires k <= |outs|
    ensures r.Pass? <==> OutputsKeptBetween(outs, parentOuts, k, |outs|)
    ensures r.Fail? ==> FirstBadReplacementOutput(outs, parentOuts, k, r.error)
    decreases |outs| - k
  {
    if k == |outs| then Pass
    else if outs[k].amount == PreservedAmount then
      match FindOutput(parentOuts, PreservedAmount)
      case None => Fail(MissingParentOutput(k))
      case Some(o) =>
        FoundScriptIsPreserved(parentOuts, outs[k].scriptpubkey);
        if outs[k].scriptpubkey == o.scriptpubkey then CheckReplacementOutputs(outs, parentOuts, k + 1)
        else Fail(ScriptChanged(k))
    else if outs[k].amount < ChangeAmount then CheckReplacementOutputs(outs, parentOuts, k + 1)
    else Fail(AmountNotReduced(k))
  }

  /** The replacement test: any output of 70 carries the script of the
      parent's first output of 70 (the replacement need not have one), every
      other output is reduced, its inputs equal the parent's in order, and it
      pays at least 0.00011. */
  function ValidateReplacement(replacement: Transaction, parent: Transaction): (r: Outcome<ReplacementError>)
    ensures r.Pass? <==> ReplacementOk(replacement, parent)
    ensures r.Fail? && !r.error.InputsDiffer? && !r.error.FeeTooLow? ==>
      FirstBadReplacementOutput(replacement.output, parent.output, 0, r.error)
    ensures r == Fail(InputsDiffer) <==>
      OutputsKeptBetween(replacement.output, parent.output, 0, |replacement.output|)
      && replacement.input != parent.input
    ensures r == Fail(FeeTooLow) <==>
      OutputsKeptBetween(replacement.output, parent.output, 0, |replacement.output|)
      && replacement.input == parent.input && replacement.fee < MinReplacementFee
  {
    var outputs := CheckReplacementOutputs(replacement.output, parent.output, 0);
    if outputs.Fail? then outputs
    else if replacement.input != parent.input then Fail(InputsDiffer)
    else if replacement.fee < MinReplacementFee then Fail(FeeTooLow)
    else Pass
  }

  /** Every output of 70 in an accepted replacement carries the script of
      the parent's first output of 70, and that output exists. */
  lemma ReplacementPreservesScript(replacement: Transaction, parent: Transaction, i: nat)
    requires ValidateReplacement(replacement, parent).Pass?
    requires i < |replacement.output| && replacement.output[i].amount == PreservedAmount
    ensures FindOutput(parent.output, PreservedAmount).Some?
    ensures replacement.output[i].scriptpubkey == FindOutput(parent.output, PreservedAmount).value.scriptpubkey
  {
  }

  /** Every other output of an accepted replacement is strictly below 29.99999. */
  lemma ReplacementReducesOthers(replacement: Transaction, parent: Transaction, i: nat)
    requires ValidateReplacement(replacement, parent).Pass?
    requires i < |replacement.output| && replacement.output[i].amount != PreservedAmount
    ensures replacement.output[i].amount < ChangeAmount
  {
  }

  /** An accepted replacement spends exactly the parent's inputs, index by
      index: same count, same txid and vout at each position. */
  lemma ReplacementSpendsParentInputs(replacement: Transaction, parent: Transaction)
    requires ValidateReplacement(replacement, parent).Pass?
    ensures |replacement.input| == |parent.input|
    ensures forall i | 0 <= i < |parent.input| ::
      replacement.input[i].txid == parent.input[i].txid && replacement.input[i].vout == parent.input[i].vout
  {
  }

  /** Input equality is order-sensitive: the parent's two inputs in the
      other order are rejected, although they spend the same coins. */
  lemma SwappedInputsRejected(replacement: Transaction, parent: Transaction, a: Input, b: Input)
    requires a != b && parent.input == [a, b] && replacement.input == [b, a]
    ensures ValidateReplacement(replacement, parent).Fail?
  {
  }

  /** The fee threshold is inclusive: all else being acceptable, a fee of
      0.00011 passes and a fee of 0.00010 fails with `FeeTooLow`. */
  lemma FeeBoundary(replacement: Transaction, parent: Transaction)
    requires OutputsKeptBetween(replacement.output, parent.output, 0, |replacement.output|)
    requires replacement.input == parent.input
    ensures ValidateReplacement(replacement.(fee := 0.00011), parent) == Pass
    ensures ValidateReplacement(replacement.(fee := 0.00010), parent) == Fail(FeeTooLow)
  {
  }

  /** Raising the fee of an accepted replacement keeps it accepted. */
  lemma FeeMonotone(replacement: Transaction, parent: Transaction, fee: real)
    requires ValidateReplacement(replacement, parent).Pass?
    requires fee >= replacement.fee
    ensures ValidateReplacement(replacement.(fee := fee), parent).Pass?
  {
  }

  /** With parent and child accepted, an accepted replacement pays strictly
      more than both together, by at least 0.00009. */
  lemma ReplacementOutbidsPackage(parent: Transaction, child: Transaction, replacement: Transaction)
    requires ParentOk(parent) && ChildOk(child, parent) && ReplacementOk(replacement, parent)
    ensures replacement.fee > parent.fee + child.fee
    ensures replacement.fee - (parent.fee + child.fee) >= 0.00009
  {
  }
}
