# ERC-20 transfer tool: precheck and execute

A Dafny model of the ERC-20 transfer tool of the Vincent tool/policy starter
template (`vincent-packages/tools/erc20-transfer/src/lib/vincent-tool.ts`). The
tool has two stages:

- **precheck** (`PrecheckStage`, precheck.dfy): a pure chain of six checks run
  in a fixed order: recipient address, amount, token address, optional RPC URL,
  optional chain id, and a 1,000,000-token ceiling. The first failing check
  decides the failure message. If every check passes, the result carries three
  `true` flags. Precheck is a function, so it cannot call any collaborator.
- **execute** (`ExecuteStage`, execute.dfy): a method that checks the
  delegator's PKP public key, derives the caller address, scales the amount with
  a fixed precision of 6 decimals, and submits `transfer(to, amount)` on the
  token contract. After that it runs the policy commit coordinator. The
  coordinator looks up the send-limit policy by its fixed name and, when the
  policy's `commit` and `result` are both present, commits the four counters of
  the result. Every external call (the contract call and the commit) is recorded
  in a trace that the method returns. Submission errors become the failure
  result. Commit errors and a missing policy are swallowed.

`JsSemantics` (js.dfy) holds what the tool relies on from JavaScript:
dynamically typed values for the optional parameters, `typeof`, truthiness,
the comparisons `<= 0` and `> 1000000` (including NaN and the infinities), and
thrown values (an `Error` with a message, or anything else).

Collaborators whose code is not part of this model are parameters, given as
total functions from their inputs to what they return or throw. They are
`isValidAddress`, `isValidAmount`, `new URL`, `parseFloat`, `toEthAddress`,
`parseTokenAmount`, the chain layer's `contractCall` and the policy's `commit`.
`Date.now()` is the parameter `now`.

Where the design description and the code differ, the model follows the code:

- `execute` does not re-run the precheck checks.
  `ExecuteStage.ExecuteDoesNotRevalidate` exhibits a submission for a recipient
  that precheck rejects.
- The chain-id check lets through an absent id, `0`, `NaN`, and positive
  non-integers.
- Commit is attempted only when the policy context, its `commit` and its
  `result` are all present.
- An undefined `allowedPolicies` makes the lookup throw, and that error is
  swallowed by the same `catch` as commit errors.

## Model

| member | source | states |
|---|---|---|
| JsSemantics.TypeOfString | vincent-packages/tools/erc20-transfer/src/lib/vincent-tool.ts:78 | `typeof v === "string"` holds exactly for string values |
| JsSemantics.TypeOfNumber | vincent-packages/tools/erc20-transfer/src/lib/vincent-tool.ts:90 | `typeof v === "number"` holds exactly for number values |
| PrecheckStage.Precheck | vincent-packages/tools/erc20-transfer/src/lib/vincent-tool.ts:45-123 | a success has all three flags `true`; a failure carries the message of some check that fails |
| PrecheckStage.FirstFailure | vincent-packages/tools/erc20-transfer/src/lib/vincent-tool.ts:53-104 | reference order semantics: the result is the least index of a failing check, or None exactly when no check fails |
| PrecheckStage.MessageInjective | vincent-packages/tools/erc20-transfer/src/lib/vincent-tool.ts:55-103 | the six failure messages are pairwise distinct, so a message identifies its check |
| PrecheckStage.PrecheckReportsFirstFailure | vincent-packages/tools/erc20-transfer/src/lib/vincent-tool.ts:53-122 | precheck fails with the message of the first failing check in the order recipient, amount, token, RPC URL, chain id, ceiling, and otherwise succeeds with three `true` flags |
| PrecheckStage.PrecheckSucceedsIffAllPass | vincent-packages/tools/erc20-transfer/src/lib/vincent-tool.ts:106-122 | precheck succeeds if and only if no check fails, and a success is exactly `{true, true, true}` |
| PrecheckStage.PrecheckFailsWith | vincent-packages/tools/erc20-transfer/src/lib/vincent-tool.ts:53-104 | a check's message is reported if and only if that check fails and every earlier check passes |
| PrecheckStage.LaterChecksIrrelevant | vincent-packages/tools/erc20-transfer/src/lib/vincent-tool.ts:53-104 | once a check fails, inputs that agree on that check and the ones before it get the same result, whatever the later checks say |
| PrecheckStage.SingleViolationReported | vincent-packages/tools/erc20-transfer/src/lib/vincent-tool.ts:53-104 | parameters that violate exactly one check fail with that check's message |
| PrecheckStage.RpcUrlCheckOnlyForNonEmptyString | vincent-packages/tools/erc20-transfer/src/lib/vincent-tool.ts:78-87 | the RPC URL check fails exactly when `rpcUrl` is a non-empty string that does not parse as a URL |
| PrecheckStage.AbsentRpcUrlNeverRejected | vincent-packages/tools/erc20-transfer/src/lib/vincent-tool.ts:78-87 | an undefined, null or empty `rpcUrl` never yields the RPC URL error |
| PrecheckStage.ChainIdCheckFailsExactly | vincent-packages/tools/erc20-transfer/src/lib/vincent-tool.ts:90-95 | the chain-id check fails exactly for a negative number (or -Infinity) and for a truthy value that is not a number |
| PrecheckStage.ChainIdAcceptsZeroAndFractions | vincent-packages/tools/erc20-transfer/src/lib/vincent-tool.ts:90-95 | an absent chain id, NaN, zero and any non-negative number, integral or not, pass the chain-id check |
| PrecheckStage.CeilingIsStrict | vincent-packages/tools/erc20-transfer/src/lib/vincent-tool.ts:98-104 | the ceiling fails exactly when the parsed amount exceeds 1,000,000 (or is +Infinity); exactly 1,000,000 and NaN pass |
| ExecuteStage.CommitSendLimitPolicy | vincent-packages/tools/erc20-transfer/src/lib/vincent-tool.ts:231-292 | commit is called once, with exactly the four counters of the policy result, when the named context has both `commit` and `result`; otherwise nothing is called; no outcome escapes |
| ExecuteStage.Execute | vincent-packages/tools/erc20-transfer/src/lib/vincent-tool.ts:125-317 | a missing key fails with its message before any call; the single submitted call is `transfer(to, parseTokenAmount(amount, 6))` on `tokenAddress`; a submission error becomes the failure, carrying an `Error`'s message or "Unknown error occurred", and no commit follows; success carries the returned hash and the echoed `to`, `amount`, `tokenAddress`; commit happens at most once, only after a successful submission, exactly when the policy is ready |
| ExecuteStage.CommitErrorIsSwallowed | vincent-packages/tools/erc20-transfer/src/lib/vincent-tool.ts:286-300 | two runs that differ only in what the policy's `commit` does (return or throw) give the same result |
| ExecuteStage.ExecuteDoesNotRevalidate | vincent-packages/tools/erc20-transfer/src/lib/vincent-tool.ts:129-214 | execute submits a transfer for a recipient that precheck rejects: it does not re-validate |

## Left out

- The tool's SDK wiring (`createVincentTool`, `createVincentToolPolicy`, `supportedPoliciesForTool`, the schemas and the `to`/`amount` parameter mapping, lines 25-44): declarative configuration of a library that is not part of this model.
- `isValidAddress`, `isValidAmount`, `parseTokenAmount` and `ERC20_TRANSFER_ABI` from `./helpers`: that file is not part of this model. The three helpers are parameters; the ABI is not carried in the call descriptor.
- `new URL` and `parseFloat`: foreign calls, given as parameters. Floating point is abstracted to exact reals plus NaN and the infinities.
- `new ethers.providers.JsonRpcProvider(rpcUrl, chainId)` (line 147) is represented by the `rpcUrl` and `chainId` in the call descriptor. The model assumes its construction does not throw.
- `ethers.utils.formatUnits` (line 186) only feeds a log line. The model assumes it does not throw.
- `delegation.delegatorPkpInfo` is assumed to exist; only a missing or empty `publicKey` is modelled.
- `Date.now()`: the timestamp is the parameter `now`. Monotonicity of the clock across invocations is not modelled.
- All `console.log`/`console.error` logging, and the value `commit` returns (it is only logged).
- async/await: the flow is sequential and is modelled as a plain method.
