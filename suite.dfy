/** The evaluation suite as a whole: the sanity test over the three decoded
    transactions, the parent, child and replacement tests, and the two
    eviction tests against the node. The suite passes when every test
    passes; Jest runs each test even when an earlier one failed. */
module Suite {
  import opened Wrappers
  import opened Transactions
  import opened Sanity
  import opened Package
  import opened Eviction

  datatype Role = ParentRole | ChildRole | ReplacementRole

  /** 'should read data from output files and perform sanity checks':
      sanity-check the parent as (2, 2), the child as (1, 1)
      and the replacement as (2, 2), stopping at the first failure. */
  function SanityTest(parent: Transaction, child: Transaction, replacement: Transaction): (r: Outcome<(Role, SanityError)>)
    ensures r.Pass? <==>
      WellFormed(parent, 2, 2) && WellFormed(child, 1, 1) && WellFormed(replacement, 2, 2)
    ensures r.Fail? && r.error.0 == ParentRole ==> FirstViolation(parent, 2, 2, r.error.1)
    ensures r.Fail? && r.error.0 == ChildRole ==>
      WellFormed(parent, 2, 2) && FirstViolation(child, 1, 1, r.error.1)
    ensures r.Fail? && r.error.0 == ReplacementRole ==>
      WellFormed(parent, 2, 2) && WellFormed(child, 1, 1) && FirstViolation(replacement, 2, 2, r.error.1)
  {
    match SanityCheck(parent, 2, 2)
    case Fail(e) => Fail((ParentRole, e))
    case Pass =>
      match SanityCheck(child, 1, 1)
      case Fail(e) => Fail((ChildRole, e))
      case Pass =>
        match SanityCheck(replacement, 2, 2)
        case Fail(e) => Fail((ReplacementRole, e))
        case Pass => Pass
  }

  /** Every test of the suite passes. */
  predicate SuitePasses(parent: Transaction, child: Transaction, replacement: Transaction, query: MempoolQuery)
    ensures SuitePasses(parent, child, replacement, query) <==>
      && WellFormed(parent, 2, 2) && WellFormed(child, 1, 1) && WellFormed(replacement, 2, 2)
      && ParentOk(parent) && ChildOk(child, parent) && ReplacementOk(replacement, parent)
      && Evicted(query(parent.txid)) && Evicted(query(child.txid))
  {
    && SanityTest(parent, child, replacement).Pass?
    && ValidateParent(parent).Pass?
    && ValidateChild(child, parent).Pass?
    && ValidateReplacement(replacement, parent).Pass?
    && PackageEvicted(query, parent.txid, child.txid)
  }

  /** What a passing suite establishes about the package: the child spends
      a real output of the parent; the replacement spends exactly the
      parent's inputs, gives any output of 70 the script of the parent's
      first output of 70 (it need not have one), lowers every other output
      below 29.99999 and outbids
      parent and child together; the node holds neither parent nor child. */
  lemma SuiteGuarantees(parent: Transaction, child: Transaction, replacement: Transaction, query: MempoolQuery)
    requires SuitePasses(parent, child, replacement, query)
    ensures child.input[0].txid == parent.txid && 0 <= child.input[0].vout < |parent.output|
    ensures replacement.input == parent.input
    ensures FindOutput(parent.output, PreservedAmount).Some?
    ensures forall i | 0 <= i < |replacement.output| ::
      if replacement.output[i].amount == PreservedAmount
      then replacement.output[i].scriptpubkey == FindOutput(parent.output, PreservedAmount).value.scriptpubkey
      else replacement.output[i].amount < ChangeAmount
    ensures replacement.fee > parent.fee + child.fee
    ensures Evicted(query(parent.txid)) && Evicted(query(child.txid))
  {
  }

  // ----- A package shaped like the one the suite is written for -----

  const ParentTxid: string := "e47125968b3b71049fbc4802d1e40a71ea1359decfabacf70b34588037d4ff0c"
  const ChildTxid: string := "ddc9e669194254cef019a29d3619a2c16592e5d52e1a81e98b01bd52319149a3"
  const ReplacementTxid: string := "01a0d0e53b2345784a5f47788c5187e466a5fba8310cd265267ad7ed5810bd51"
  const CoinA: string := "1f6b7dd0862b8373be0d7f8f63b631c37639793e7a09ff7ac7f1364f8d9e9c92"
  const CoinB: string := "2c5edaca03540191af61f124f7b73485f122f8c036047a182075c7d47b0040de"
  const PayeeScript: string := "0014aa"
  const ChangeScript: string := "0014bb"

  function ExampleParent(): Transaction {
    Transaction(ParentTxid, [Input(CoinA, 0), Input(CoinB, 1)],
      [Output(PayeeScript, 70.0), Output(ChangeScript, 29.99999)], 0.00001, 565)
  }

  function ExampleChild(): Transaction {
    Transaction(ChildTxid, [Input(ParentTxid, 1)], [Output(ChangeScript, 29.99998)], 0.00001, 437)
  }

  /** The replacement paying `fee`, taken out of its change output. */
  function ExampleReplacement(fee: real): Transaction {
    Transaction(ReplacementTxid, [Input(CoinA, 0), Input(CoinB, 1)],
      [Output(PayeeScript, 70.0), Output(ChangeScript, 30.0 - fee)], fee, 565)
  }

  /** A node that has dropped every transaction. */
  function EmptyMempool(): MempoolQuery {
    txid => Reply(Null, Value(RpcError(Value(-5), Value(NotInMempool))))
  }

  /** The example package with a replacement fee of 0.00011 passes every test. */
  lemma ExamplePackagePasses()
    ensures SuitePasses(ExampleParent(), ExampleChild(), ExampleReplacement(0.00011), EmptyMempool())
  {
  }

  /** The suite does not require the replacement to keep an output of 70:
      one that pays everything to two outputs of 10 passes every test. */
  lemma ReplacementMayDropPreservedOutput()
    ensures var replacement := Transaction(ReplacementTxid, [Input(CoinA, 0), Input(CoinB, 1)],
      [Output(ChangeScript, 10.0), Output(ChangeScript, 10.0)], 0.00011, 565);
      && SuitePasses(ExampleParent(), ExampleChild(), replacement, EmptyMempool())
      && !HasAmount(replacement.output, PreservedAmount)
  {
  }

  /** The same package with a replacement fee of 0.00010 fails the suite on
      the fee alone: the sanity, parent and child tests still pass, and the
      replacement test fails with `FeeTooLow`. */
  lemma ExampleLowFeeRejected()
    ensures SanityTest(ExampleParent(), ExampleChild(), ExampleReplacement(0.00010)).Pass?
    ensures ValidateParent(ExampleParent()).Pass?
    ensures ValidateChild(ExampleChild(), ExampleParent()).Pass?
    ensures ValidateReplacement(ExampleReplacement(0.00010), ExampleParent()) == Fail(FeeTooLow)
  {
  }
}
