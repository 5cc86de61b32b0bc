# Insurance chaincode, modelled in Dafny

A Hyperledger Fabric chaincode (`repo/insurance/insurance-chaincode.go`)
keeps persons, policies and claims in the ledger's world state. It creates
them, looks them up, takes a claim from `open` to either `claimed` or
`rejected`, and lists everything that carries a given `personId`. This
project models that chaincode and proves what its handlers promise.

- `strconv.dfy`, module `Strconv`: `strconv.Atoi` as Go implements it on a
  64-bit platform. It accepts an optional sign and at least one digit. A
  non-digit is a syntax error and Atoi returns 0. A value beyond 64 bits is a
  range error and Atoi returns the clamped bound. The scan stops at the
  first digit that overflows, so any junk after it gives a range error, not
  a syntax error. `DecVal`, the positional value of a digit string, is the
  reference Atoi is proved against. `Itoa` is the inverse, and Atoi reads
  back all it writes.
- `records.dfy`, module `Records`: the `Person`, `Policy` and `Claim`
  structs, the `Record` union that is stored, and the world state as one
  flat `map<string, Record>`. Keys are not namespaced by kind. `AsClaim` is
  what `json.Unmarshal` leaves in a zero `Claim`. A stored person or policy
  therefore decodes to a claim whose status is empty.
- `chaincode.dfy`, module `Chaincode`: each handler as a function from the
  state and the argument list to an `Outcome`. An `Outcome` is the response
  plus the state the handler leaves behind. This module also holds the
  selector text, the JSON array that `queryByPersonId` builds, the `Invoke`
  dispatch, and `Commit`. `Commit` states Fabric's rule that a transaction
  answered with an error is not committed.
- `contract.dfy`, module `Contract`: class `SmartContract`. Its `ledger`
  field is the world state. Its methods are the handlers as the Go code runs
  them: get the value, change a local claim field by field, put it back.
  `QueryByPersonId` keeps the source's loop, with its buffer and its
  "member already written" flag. Each method is proved equal to its
  function in `Chaincode`.
- `properties.dfy`, module `Properties`: the lemmas. They cover error order,
  the fields written, "no other key changes", the claim state machine and
  its terminal states, the output shape of the query, and the worked example
  of three creations, one confirmation and one refused rejection.

Modelling choices:

- `createPolicy` is modelled as written. It puts the policy before it tests
  the parse error of `insuredAmt`, so the returned `Outcome` holds that write
  beside the error. `Commit` then shows that Fabric discards the write.
  `Properties.InvokeFrame` proves that this is the only handler that writes
  and then fails.
- The store holds decoded records. The JSON round trip of `encoding/json` is
  taken as given. The values a rich query returns are opaque text, written
  into the answer unchanged.
- The rich-query engine is a parameter: a function from a selector string
  to an answer. The answer is a failure, or the iterator's steps, and any
  step may be a `Next` error. `Properties.MatchingKeys` is what a faithful
  engine selects.
- A handler indexes `args` without checking its length, and Go would panic.
  Each handler therefore requires the argument count it indexes, and
  `Invoke` requires `Arity(fn)`.
- Three behaviours of the code are modelled as written:
  - `createPolicy` looks the person up before it parses the amount, and it
    writes before it reports the parse error.
  - `createClaim` keeps the int Atoi returns on a range error (the clamped
    bound), so an unparsable amount is not always 0.
  - confirmClaim's "not numeric" message names the claim id (`args[0]`),
    not the amount.

## Model

| member | source | states |
|---|---|---|
| `Strconv.Atoi` | repo/insurance/insurance-chaincode.go:116-119 | A successful parse lies in the 64-bit range. A range error carries the 64-bit bound of the input's sign: the minimum after a leading "-", the maximum otherwise. |
| `Strconv.ScanValue` | repo/insurance/insurance-chaincode.go:116 | Scanning a string of digits gives its positional decimal value, and a range error exactly when that value exceeds 2^64 - 1. |
| `Strconv.AtoiDecimal` | repo/insurance/insurance-chaincode.go:116-119 | On an optional sign followed by digits, Atoi gives the signed positional value when it fits in 64 bits, and otherwise a range error clamped to the bound of its sign. |
| `Strconv.ScanDigits` | repo/insurance/insurance-chaincode.go:116 | A completed scan of the digits lies within 2^64 - 1. |
| `Strconv.ParseUint` | repo/insurance/insurance-chaincode.go:116 | A successful unsigned parse needs at least one character and lies within 2^64 - 1. |
| `Strconv.Itoa` | repo/insurance/insurance-chaincode.go:116 | The rendering of any integer is decimal syntax Atoi accepts, and starts with "-" exactly when the integer is negative. |
| `Strconv.AtoiItoa` | repo/insurance/insurance-chaincode.go:116-119 | Atoi reads back every 64-bit integer its decimal rendering writes. |
| `Strconv.AtoiSyntax` | repo/insurance/insurance-chaincode.go:210 | Atoi succeeds only on a string that is an optional sign followed by digits. Such a string never gives a syntax error. |
| `Records.AsClaim` | repo/insurance/insurance-chaincode.go:113-115 | Decoding a stored claim returns it unchanged. Decoding a person or policy keeps its personId, leaves the status empty and leaves the approved amount 0. |
| `Chaincode.Invoke` | repo/insurance/insurance-chaincode.go:82-102 | Any name outside the nine operations fails with "Invalid Smart Contract function name." and leaves the state unchanged. |
| `Chaincode.CreatePerson` | repo/insurance/insurance-chaincode.go:191-200 | createPerson succeeds, stores the Person with the three given fields under args[0], and changes no other key. |
| `Chaincode.CreatePolicy` | repo/insurance/insurance-chaincode.go:205-219 | Only args[0] can change. Success needs the person args[4] and a parsable amount. A missing person writes nothing. With the person present a policy is written under args[0], success or not. |
| `Chaincode.NewClaim` | repo/insurance/insurance-chaincode.go:234-237 | The new claim is open, has approved amount 0 and key args[0], and its amount lies in the 64-bit range whatever text args[1] holds. |
| `Chaincode.CreateClaim` | repo/insurance/insurance-chaincode.go:224-243 | Only args[0] can change. An error writes nothing. Success holds exactly when policy and person both exist, and then args[0] holds the new claim. |
| `Chaincode.Lookup` | repo/insurance/insurance-chaincode.go:159-163 | A point query never changes the state. It succeeds exactly when the key is present, returning its record, and otherwise fails with the given message. |
| `Chaincode.QueryPerson` | repo/insurance/insurance-chaincode.go:158-164 | The state is unchanged, and queryPerson succeeds exactly when args[0] is present. |
| `Chaincode.QueryPolicy` | repo/insurance/insurance-chaincode.go:169-175 | The state is unchanged, and queryPolicy succeeds exactly when args[0] is present. |
| `Chaincode.QueryClaim` | repo/insurance/insurance-chaincode.go:180-186 | The state is unchanged, and queryClaim succeeds exactly when args[0] is present. |
| `Chaincode.ConfirmClaim` | repo/insurance/insurance-chaincode.go:108-130 | Only args[0] can change. Every error leaves the state unchanged. A success takes a claim that was open to status "claimed". |
| `Chaincode.RejectClaim` | repo/insurance/insurance-chaincode.go:135-152 | Only args[0] can change. Every error leaves the state unchanged. A success takes a claim that was open to status "rejected". |
| `Chaincode.Selector` | repo/insurance/insurance-chaincode.go:248 | The selector is 28 characters longer than the holder, and the holder appears verbatim at offset 25. |
| `Chaincode.Drain` | repo/insurance/insurance-chaincode.go:260-264 | Draining succeeds exactly when no call of Next fails, and then it gives one row per step. |
| `Chaincode.Entry` | repo/insurance/insurance-chaincode.go:269-277 | A member is an object 21 characters longer than its key and value, opening with "{" and closing with "}". |
| `Chaincode.Join` | repo/insurance/insurance-chaincode.go:265-268 | The joined members are empty exactly when there are no rows. |
| `Chaincode.JsonArray` | repo/insurance/insurance-chaincode.go:256-280 | The answer is bracketed by "[" and "]", and is exactly "[]" when there are no rows, and only then. |
| `Chaincode.QueryByPersonId` | repo/insurance/insurance-chaincode.go:245-285 | The query never changes the state. It succeeds exactly when the rich query runs and no call of Next fails, and a successful answer is JSON text opening with "[". |
| `Chaincode.Commit` | repo/insurance/insurance-chaincode.go:213-216 | The committed state is the old state whenever the response is an error, and the handler's state whenever it is a success. |
| `Contract.SmartContract.CreatePerson` | repo/insurance/insurance-chaincode.go:191-200 | The new state and response are those of `Chaincode.CreatePerson` on the old state. |
| `Contract.SmartContract.CreatePolicy` | repo/insurance/insurance-chaincode.go:205-219 | The new state and response are those of `Chaincode.CreatePolicy`, including the write made before the parse error is reported. |
| `Contract.SmartContract.CreateClaim` | repo/insurance/insurance-chaincode.go:224-243 | The new state and response are those of `Chaincode.CreateClaim`. |
| `Contract.SmartContract.QueryPerson` | repo/insurance/insurance-chaincode.go:158-164 | The response is the stored record, or "Could not find people". The state is unchanged. |
| `Contract.SmartContract.QueryPolicy` | repo/insurance/insurance-chaincode.go:169-175 | The response is the stored record, or "Could not locate policy". |
| `Contract.SmartContract.QueryClaim` | repo/insurance/insurance-chaincode.go:180-186 | The response is the stored record, or "Could not locate claim". |
| `Contract.SmartContract.ConfirmClaim` | repo/insurance/insurance-chaincode.go:108-130 | The field-by-field update of the decoded claim gives exactly the state and response of `Chaincode.ConfirmClaim`. |
| `Contract.SmartContract.RejectClaim` | repo/insurance/insurance-chaincode.go:135-152 | The field-by-field update gives exactly the state and response of `Chaincode.RejectClaim`. |
| `Contract.SmartContract.QueryByPersonId` | repo/insurance/insurance-chaincode.go:245-285 | The buffer loop with its first-member flag returns the query error or the first Next error. Otherwise it returns "[" + the members joined by "," + "]", one member per row in delivery order. |
| `Contract.SmartContract.Invoke` | repo/insurance/insurance-chaincode.go:77-103 | The method dispatch gives the same state and response as `Chaincode.Invoke`. |
| `Contract.DrainSnoc` | repo/insurance/insurance-chaincode.go:260-264 | Draining one more step keeps an earlier failure, ends at a new failure, or appends the new row. |
| `Contract.DrainAfterFailure` | repo/insurance/insurance-chaincode.go:261-264 | Steps after the first Next error do not affect the result. |
| `Contract.JoinSnoc` | repo/insurance/insurance-chaincode.go:265-268 | Appending a member writes a comma first exactly when a member has already been written. |
| `Properties.QueryAfterCreatePerson` | repo/insurance/insurance-chaincode.go:191-200 | After createPerson, queryPerson on the id returns a Person with exactly the three given fields. No other key changes. |
| `Properties.CreatePolicyNeedsPerson` | repo/insurance/insurance-chaincode.go:206-209 | If args[4] is not in the state, createPolicy fails with "Could not find person " and leaves the state unchanged. |
| `Properties.CreatePolicyWrites` | repo/insurance/insurance-chaincode.go:210-218 | With the person present, the policy sits under args[0] with the int Atoi returned, and nothing else changes. Success holds exactly when the amount parses. On failure the message is "Failed to record policy catch: " + args[0] and the committed state is the old one. |
| `Properties.CreateClaimChecksReferences` | repo/insurance/insurance-chaincode.go:225-232 | The policy args[4] is checked before the person args[3]. If either is missing, the matching message is returned and the state is unchanged. Success holds exactly when both exist. |
| `Properties.CreateClaimWrites` | repo/insurance/insurance-chaincode.go:234-242 | The claim under args[0] has status "open", approved amount 0 and remarks " ". Its amount is the parsed args[1], 0 on a syntax error, or the clamped 64-bit bound on a range error. Its references and time come from the arguments. Only args[0] changes. |
| `Properties.PointQueriesIgnoreKind` | repo/insurance/insurance-chaincode.go:158-186 | All three point queries return whatever record is under the key, whatever its kind. They differ only in the message for a missing key, and none changes the state. |
| `Properties.ConfirmClaimErrors` | repo/insurance/insurance-chaincode.go:109-122 | The errors come in this order: claim missing, amount not numeric, not open. None writes. Success holds exactly when the claim is open and the amount parses. |
| `Properties.ConfirmClaimOpen` | repo/insurance/insurance-chaincode.go:123-129 | On an open claim, claimedAmt becomes the parsed amount, status becomes "claimed" and remarks becomes args[2]. Every other field and key is unchanged. No bound against claimAmt or insuredAmt is required. |
| `Properties.RejectClaimErrors` | repo/insurance/insurance-chaincode.go:136-145 | Claim missing, then not open. None writes. Success holds exactly when the claim is open. |
| `Properties.RejectClaimOpen` | repo/insurance/insurance-chaincode.go:146-151 | On an open claim, status becomes "rejected" and remarks becomes args[1]. claimedAmt and every other field and key are unchanged. |
| `Properties.DecidedIsTerminal` | repo/insurance/insurance-chaincode.go:120-122 | Confirm and reject both fail, without writing, on a key whose decoded status is not "open". This includes keys holding a person or a policy, whose status is "". |
| `Properties.ConfirmThenAnyFails` | repo/insurance/insurance-chaincode.go:116-124 | After an open claim is confirmed, a later reject fails with "Claim already processed", and a later confirm fails without writing, with that message whenever its amount parses. |
| `Properties.RejectThenAnyFails` | repo/insurance/insurance-chaincode.go:143-149 | After an open claim is rejected, a later reject fails with "Claim already processed", and a later confirm fails without writing, with that message whenever its amount parses. |
| `Properties.RecreateReopens` | repo/insurance/insurance-chaincode.go:236-239 | createClaim under the key of a claimed or rejected claim replaces it with an open claim, because keys are not checked for duplicates. |
| `Properties.InvokeFrame` | repo/insurance/insurance-chaincode.go:77-103 | Every invocation changes at most key args[0]. Queries and unknown names change nothing. Only createPolicy can fail after writing. No failed invocation is committed. |
| `Properties.StatusTransitions` | repo/insurance/insurance-chaincode.go:123-127 | A value changes only at args[0], either through a create or through open → claimed by confirm or open → rejected by reject. |
| `Properties.SelectorInjective` | repo/insurance/insurance-chaincode.go:248 | The selector text determines the holder it was built for. |
| `Properties.DrainRows` | repo/insurance/insurance-chaincode.go:260-264 | An iterator without Next errors delivers every row in order. |
| `Properties.QueryByPersonIdFromStore` | repo/insurance/insurance-chaincode.go:248-251 | If the engine answers the selector with each matching record once, the response is the JSON array of those rows. It has one member per key whose record carries that personId, and it is "[]" exactly when no key matches. |
| `Properties.WorkedExample` | repo/insurance/insurance-chaincode.go:191-243 | Person P1, policy POL1 and claim C1 are created from an empty state. C1 is open with 0 approved. Confirming it with 3000 makes it claimed. A later reject fails. The selector for P1 matches exactly P1, POL1 and C1. |

## Left out

- A failed `PutState` is not modelled: every write of the model succeeds.
  Fabric's shim refuses an empty key, so with `args[0] == ""` the real
  `createPerson` takes its error branch "Failed to record tuna catch: "
  (repo/insurance/insurance-chaincode.go:195-197), while the model writes
  the person under key `""` and reports success. The other handlers discard
  the errors of `PutState` (and of `GetState`), so for them an empty key
  means a reported success with nothing written, where the model writes a
  record under `""`.
- Replication, endorsement and MVCC validation are left out: the ledger is
  an in-memory map. The check-then-act race between two concurrent
  decisions on one claim is left out too. The model assumes that the ledger
  serialises the invocations that touch a key.
- Byte-level `encoding/json` behaviour is left out: escaping, field order,
  and the unescaped key and holder spliced into the hand-built JSON
  (lines 248 and 271).
- `Init`, `main`, the `fmt.Printf` log (line 282) and the iterator's
  `Close` (line 253) are left out. They have no effect on the state or the
  response.
- `Contract.SmartContract.QueryByPersonId`: the rows come from the
  `RichQuery` parameter. That they are the records matching the selector is
  a precondition of `Properties.QueryByPersonIdFromStore`, not something the
  model enforces.
- `repo/insurance/web/routesInsurance.js` is left out. It only registers
  HTTP routes that delegate to a controller. That controller is not part of
  this model.
