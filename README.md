# Package and RBF checks of the LBTCL week-2 evaluation suite

The repository grades a Bitcoin exercise. A student builds a parent
transaction, a child that spends one of the parent's outputs, and a
replace-by-fee (RBF) replacement of the parent. The suite reads the three
transactions as decoded JSON records. It checks each record's structure,
then checks the fixed amounts and fees of the package and the links between
the three transactions. Last, it asks a Bitcoin node (`getmempoolentry`)
whether the parent and the child have been evicted from its mempool.

This project models that logic in Dafny and proves what each check
guarantees:

- `wrappers.dfy`: `Option` (the `undefined` of `find`) and `Outcome` (pass,
  or the first failing expectation).
- `transactions.dfy`: the `Transaction` record and `output.find(o => o.amount === a)`.
- `sanity.dfy`: `sanityCheckOutput`. It passes exactly on well-formed
  transactions. Otherwise it reports the first violated expectation in
  source order, and that expectation is unique.
- `package.dfy`: the parent, child and replacement tests, with their
  constants (70, 29.99999, 29.99998, 0.00001, 0.00011). The lemmas cover
  child linkage, the preserved script, the reduced outputs, ordered input
  equality, the inclusive fee threshold and the fee comparison with the
  parent and child.
- `eviction.dfy`: how a decoded `getmempoolentry` reply is read.
- `suite.dfy`: the whole suite, what passing it establishes, and an example
  package that passes. The same package fails when its replacement fee is
  0.00010.

Amounts and fees are exact `real`s: `29.99999` in Dafny is exactly that
decimal. Each `expect` that throws becomes a `Fail` naming the expectation.
A property access that throws a TypeError also becomes a `Fail`: reading
`input[0].txid` from an empty input list, and reading `.scriptpubkey` from a
`find` that found nothing.

The code's rules are narrower than a general RBF validator's; the model follows the code:

- The inputs of the replacement must equal the parent's as an ordered list
  (`toStrictEqual`), not as a set.
- The fee rule is a fixed minimum of 0.00011, not a sum of the evicted fees
  plus an increment.
- Only outputs of exactly 70 are matched to a parent script. Every other
  output must be below 29.99999.
- The input and output counts must equal the requested counts (2/2, 1/1,
  2/2), which is stricter than "non-empty".
- Only the length of a txid is checked, not its hex alphabet.
- The child check looks only at the first input and bounds its vout by 1.
- The node is queried once per transaction, with no retry or polling.

## Model

| member | source | states |
|---|---|---|
| `Transactions.FindOutputFrom` | test/test.spec.ts:57 | `find` from index k returns None exactly when no output at or after k has the amount; otherwise it returns the output at the first such index |
| `Transactions.FindOutput` | test/test.spec.ts:57-58 | `find` returns None exactly when no output has the amount; otherwise it returns the output at the first index carrying the amount |
| `Transactions.FindOutputIsFirst` | test/test.spec.ts:71 | when index i is the first output with amount a, `find` returns exactly that output |
| `Sanity.CheckInputs` | test/test.spec.ts:28-33 | the input loop passes iff every input from k on has a 64-character txid and vout >= 0; otherwise it names the first bad input, with the txid-length failure reported before the vout failure |
| `Sanity.CheckOutputs` | test/test.spec.ts:36-40 | the output loop passes iff every output from k on has amount > 0; otherwise it names the first output whose amount is not positive |
| `Sanity.SanityCheck` | test/test.spec.ts:22-45 | passes iff the txid has 64 characters, there are exactly inputLen inputs each with a 64-character txid and vout >= 0, there are exactly outputLen outputs each with amount > 0, fee > 0 and weight > 0; a failure is a violated expectation after all earlier ones held |
| `Sanity.FirstViolationUnique` | test/test.spec.ts:23-44 | at most one expectation can be the first violated one (txid, inputs, outputs, fee, weight, in order) |
| `Sanity.SanityReportsFirstViolation` | test/test.spec.ts:23-44 | whenever e is the first violated expectation, the sanity check fails with exactly e |
| `Sanity.PassedFieldwise` | test/test.spec.ts:25-44 | a passing transaction has a 64-character txid, the requested counts, 64-character input txids with vout >= 0, positive output amounts, and positive fee and weight |
| `Package.ValidateParent` | test/test.spec.ts:56-60 | passes iff the parent has an output of 70, an output of 29.99999 and fee 0.00001; each failure names the first of these that does not hold |
| `Package.ValidateChild` | test/test.spec.ts:62-67 | passes iff the child has an output of 29.99998, fee 0.00001, and a first input with the parent's txid and vout <= 1; an empty input list fails after the fee check; each failure names the first expectation that does not hold |
| `Package.ChildSpendsParentOutput` | test/test.spec.ts:65-66 | together with the sanity checks at lines 49 and 51, an accepted child's first input spends the parent's txid at a vout that indexes one of the parent's outputs (0 <= vout < 2) |
| `Package.FoundScriptIsPreserved` | test/test.spec.ts:71 | the script read from `find(o => o.amount === 70)` is exactly the script of the parent's first output of 70 |
| `Package.CheckReplacementOutputs` | test/test.spec.ts:70-73 | the output loop passes iff every output of 70 carries the script of the parent's first output of 70 and every other output is below 29.99999; otherwise it names the first bad output, and a missing parent output of 70 is its own failure |
| `Package.ValidateReplacement` | test/test.spec.ts:69-76 | passes iff the outputs are kept as above, the input list equals the parent's and the fee is >= 0.00011; failures come in that order |
| `Package.ReplacementPreservesScript` | test/test.spec.ts:70-71 | in an accepted replacement, the parent has an output of 70, and every output of 70 has that output's scriptpubkey |
| `Package.ReplacementReducesOthers` | test/test.spec.ts:72 | in an accepted replacement, every output whose amount is not 70 is strictly below 29.99999 |
| `Package.ReplacementSpendsParentInputs` | test/test.spec.ts:74 | an accepted replacement has as many inputs as the parent, with the same txid and vout at every index |
| `Package.SwappedInputsRejected` | test/test.spec.ts:74 | the parent's two distinct inputs in swapped order are rejected, so input equality depends on order |
| `Package.FeeBoundary` | test/test.spec.ts:75 | if everything else is acceptable, fee 0.00011 passes and fee 0.00010 fails with FeeTooLow |
| `Package.FeeMonotone` | test/test.spec.ts:75 | raising the fee of an accepted replacement keeps it accepted |
| `Package.ReplacementOutbidsPackage` | test/test.spec.ts:59-75 | if the parent, child and replacement are all accepted, the replacement's fee exceeds parent fee + child fee by at least 0.00009 |
| `Eviction.ErrorMessage` | test/test.spec.ts:101 | `error?.message` is exactly the error's message (present or not) when an error object is present, and undefined when the error is null or missing |
| `Eviction.CheckEvicted` | test/test.spec.ts:99-101 | passes iff `result` is null and the error message is exactly "Transaction not in mempool"; a non-null or missing result fails first, then any other message, a missing message or a missing error |
| `Eviction.PresentEntryIsNotEviction` | test/test.spec.ts:100 | a reply whose result is not null, present or missing, is never read as eviction, whatever its error |
| `Eviction.NullResultEvictedIffMessage` | test/test.spec.ts:125-126 | with a null result, a reply means eviction exactly when `error?.message` is "Transaction not in mempool" |
| `Suite.SanityTest` | test/test.spec.ts:47-54 | the sanity test passes iff the parent is well-formed for (2, 2), the child for (1, 1) and the replacement for (2, 2); a failure names the first transaction that fails, all earlier ones being well-formed, and its first violated expectation |
| `Eviction.PackageEvicted` | test/test.spec.ts:79-127 | the two eviction tests pass iff the node's reply for the parent's txid and its reply for the child's txid both mean eviction |
| `Suite.SuitePasses` | test/test.spec.ts:47-127 | the suite passes iff the parent is well-formed for (2, 2), the child for (1, 1) and the replacement for (2, 2), the parent, child and replacement expectations hold, and both parent and child are evicted |
| `Suite.ReplacementMayDropPreservedOutput` | test/test.spec.ts:70-73 | a replacement with no output of 70 at all (two outputs of 10, the parent's inputs, fee 0.00011) passes every test: the loop checks the script only of 70 outputs that exist |
| `Suite.SuiteGuarantees` | test/test.spec.ts:47-127 | a passing suite means the child spends a real parent output; the replacement spends the parent's inputs in order, any output of 70 it has carries the script of the parent's first 70 output (it need not have one), lowers its other outputs below 29.99999 and outbids parent plus child; the node holds neither parent nor child |
| `Suite.ExamplePackagePasses` | test/test.spec.ts:47-127 | an example package of the intended shape, with replacement fee 0.00011 and a node that no longer holds either transaction, passes every test |
| `Suite.ExampleLowFeeRejected` | test/test.spec.ts:47-75 | the same package with replacement fee 0.00010 still passes the sanity, parent and child tests, and fails the replacement test with FeeTooLow, so the suite fails on the fee alone |

## Left out

- Reading parent.json, child.json and parent-rbf.json and decoding them with
  `JSON.parse` (lines 48, 50, 52) is file I/O. The decoded transactions are
  parameters.
- The `toBeDefined` expectations (lines 23, 24, 26, 29, 31, 34, 37, 38, 41,
  43, 99, 124) are not modelled. In the typed record every field is present. A
  record with a missing field, or a reply body that is not a JSON object,
  is outside the model.
- The `fetch` call to the node, the hard-coded endpoint and credentials, and
  the Basic authorization header (lines 80-97, 105-122) are network I/O. The
  node is a function from txid to decoded reply (`Eviction.MempoolQuery`).
- IEEE-754 doubles are not modelled. Amounts and fees are exact decimals,
  so `=== 29.99999` means exact equality with that decimal.
- `vout` and `weight` are JavaScript numbers in the source. The model uses
  integers, as Bitcoin does, so a fractional vout is outside the model.
  `Package.ChildSpendsParentOutput` relies on vout being an integer.
- Txid lengths count Dafny characters, where JavaScript counts UTF-16 code
  units. The two agree on hex text.
- The Jest run order (`describe`/`it`, `async`/`await`, the suite-level
  `let` variables written in one test and read in later ones) is not
  modelled. `Suite.SuitePasses` is the conjunction of the tests' verdicts.
  Each test is judged separately, as Jest does. If the parent's sanity check
  throws, `childTx` and `parentRbfTx` are never assigned, and Jest's child
  and replacement tests then throw a TypeError, while `ValidateChild` and
  `ValidateReplacement` judge the values they are given; the suite fails
  either way.
- Package.ValidateReplacement: decoded input objects that carry members
  beyond the declared `txid` and `vout` (a `sequence` or a witness, say) are
  outside the model. `toStrictEqual` would compare those members too, so a
  replacement that differs from the parent only there fails the source's
  test but passes the model's.
