/** The `execute` stage of the ERC-20 transfer tool: it checks the delegated key,
    builds a `transfer` call on the token contract, submits it through the chain
    collaborator and then, best effort, commits the send-limit policy's bookkeeping.
    Every call to an outside party is recorded, in order, in a trace. */
module ExecuteStage {
  import opened JsSemantics
  import opened PrecheckStage

  /** Key under which the send-limit policy appears in `allowedPolicies`. */
  const SendLimitPolicyName := "@agentic-ai/vincent-policy-send-counter-limit"

  /** The fixed token precision used for every token (the USDC value). */
  const DefaultTokenDecimals: nat := 6

  const TransferFunctionName := "transfer"
  const MissingPkpKeyError := "PKP public key not available from delegation context"
  const UnknownError := "Unknown error occurred"

  /** The delegation context, reduced to the delegator's PKP public key (if any). */
  datatype Delegation = Delegation(pkpPublicKey: Option<string>)

  /** The contract-call descriptor handed to the chain collaborator. The provider is
      represented by the `rpcUrl` and `chainId` it is built from; `recipient` and
      `amountInUnits` are the two arguments of `transfer`. */
  datatype CallDescriptor = CallDescriptor(
    rpcUrl: JsValue,
    chainId: JsValue,
    pkpPublicKey: string,
    callerAddress: string,
    contractAddress: string,
    functionName: string,
    recipient: string,
    amountInUnits: int)

  /** The send-limit policy's evaluation result: the four counters the tool forwards,
      plus whatever else the policy reported. */
  datatype PolicyResult = PolicyResult(
    currentCount: JsValue,
    maxSends: JsValue,
    remainingSends: JsValue,
    timeWindowSeconds: JsValue,
    otherFields: map<string, JsValue>)

  /** The argument of the policy's `commit`. */
  datatype CommitParams = CommitParams(
    currentCount: JsValue,
    maxSends: JsValue,
    remainingSends: JsValue,
    timeWindowSeconds: JsValue)

  /** One policy's context: its `commit` operation and its evaluation `result`, each
      possibly missing. The commit operation is given by what it does when awaited. */
  datatype PolicyContext = PolicyContext(
    commit: Option<CommitParams -> Outcome<JsValue>>,
    result: Option<PolicyResult>)

  /** `policiesContext`; `allowedPolicies` itself may be undefined. */
  datatype PoliciesContext = PoliciesContext(allowedPolicies: Option<map<string, PolicyContext>>)

  /** The collaborators `execute` calls, each given by what it does when called:
      address derivation from the public key, amount scaling from the tool's
      helpers, and the chain layer's contract call returning a transaction hash. */
  datatype Collaborators = Collaborators(
    toEthAddress: string -> Outcome<string>,
    parseTokenAmount: (string, nat) -> Outcome<int>,
    contractCall: CallDescriptor -> Outcome<string>)

  /** An external call with a visible effect: a submitted contract call or a policy commit. */
  datatype ExternalCall = ContractCall(descriptor: CallDescriptor) | Commit(params: CommitParams)

  datatype ExecuteResult =
    | ExecuteSuccess(txHash: string, to: string, amount: string, tokenAddress: string, timestamp: int)
    | ExecuteFailure(error: string)

  /** `!pkpPublicKey` is false: the key is present and non-empty. */
  predicate KeyPresent(d: Delegation)
  {
    d.pkpPublicKey.Some? && d.pkpPublicKey.value != ""
  }

  /** The message the outer `catch` reports for a thrown value. */
  function ErrorMessage(t: Thrown): string
  {
    if t.ErrorInstance? then t.message else UnknownError
  }

  /** The condition under which the coordinator calls `commit`: the policy's context
      is found under its name, and both its `commit` and its `result` are present. */
  predicate CommitReady(policies: PoliciesContext)
  {
    policies.allowedPolicies.Some? &&
    SendLimitPolicyName in policies.allowedPolicies.value &&
    policies.allowedPolicies.value[SendLimitPolicyName].commit.Some? &&
    policies.allowedPolicies.value[SendLimitPolicyName].result.Some?
  }

  /** The counters of the send-limit policy's result, when commit is ready. */
  function ReadyResult(policies: PoliciesContext): PolicyResult
    requires CommitReady(policies)
  {
    policies.allowedPolicies.value[SendLimitPolicyName].result.value
  }

  /** Traces `execute` can produce: at most one contract call, first; at most one
      commit, and only right after the contract call. */
  predicate WellOrdered(trace: seq<ExternalCall>)
  {
    |trace| <= 2 &&
    (|trace| >= 1 ==> trace[0].ContractCall?) &&
    (|trace| == 2 ==> trace[1].Commit?)
  }

  /** The policy commit coordinator: looks the send-limit policy up by name and, when
      its `commit` and `result` are both present, commits exactly the four counters of
      the result. Missing context and errors thrown by `commit` (or by reading an
      undefined `allowedPolicies`) are swallowed. Returns the external calls it made. */
  method CommitSendLimitPolicy(policies: PoliciesContext) returns (calls: seq<ExternalCall>)
    ensures !CommitReady(policies) ==> calls == []
    ensures CommitReady(policies) ==> |calls| == 1 && calls[0].Commit?
    ensures CommitReady(policies) ==>
      var r := ReadyResult(policies);
      calls[0].params == CommitParams(r.currentCount, r.maxSends, r.remainingSends, r.timeWindowSeconds)
  {
    calls := [];
    if policies.allowedPolicies.None? {
      // indexing an undefined `allowedPolicies` throws a TypeError, which is caught here
      return;
    }
    var allowed := policies.allowedPolicies.value;
    if SendLimitPolicyName in allowed {
      var context := allowed[SendLimitPolicyName];
      if context.commit.Some? && context.result.Some? {
        var result := context.result.value;
        var commitParams := CommitParams(
          result.currentCount, result.maxSends, result.remainingSends, result.timeWindowSeconds);
        calls := calls + [Commit(commitParams)];
        var outcome := context.commit.value(commitParams);
        // a thrown outcome is caught and logged; it never reaches the caller
      }
    }
  }

  /** The execute stage. `now` is the value `Date.now()` returns. */
  method Execute(params: ToolParams, delegation: Delegation, policies: PoliciesContext,
                 env: Collaborators, now: int)
    returns (r: ExecuteResult, trace: seq<ExternalCall>)
    ensures WellOrdered(trace)
    // a missing key fails before any external call
    ensures !KeyPresent(delegation) ==> r == ExecuteFailure(MissingPkpKeyError) && trace == []
    // a failure in address derivation or amount scaling is reported, and nothing is submitted
    ensures KeyPresent(delegation) && env.toEthAddress(delegation.pkpPublicKey.value).Threw? ==>
      r == ExecuteFailure(ErrorMessage(env.toEthAddress(delegation.pkpPublicKey.value).thrown)) && trace == []
    ensures (KeyPresent(delegation) && env.toEthAddress(delegation.pkpPublicKey.value).Returned? &&
             env.parseTokenAmount(params.amount, DefaultTokenDecimals).Threw?) ==>
      r == ExecuteFailure(ErrorMessage(env.parseTokenAmount(params.amount, DefaultTokenDecimals).thrown)) &&
      trace == []
    // otherwise exactly one `transfer(to, amount scaled by 6 decimals)` call on the token is submitted
    ensures (KeyPresent(delegation) && env.toEthAddress(delegation.pkpPublicKey.value).Returned? &&
             env.parseTokenAmount(params.amount, DefaultTokenDecimals).Returned?) ==> |trace| >= 1
    ensures |trace| >= 1 ==>
      var d := trace[0].descriptor;
      KeyPresent(delegation) && d.pkpPublicKey == delegation.pkpPublicKey.value &&
      env.toEthAddress(d.pkpPublicKey) == Returned(d.callerAddress) &&
      env.parseTokenAmount(params.amount, DefaultTokenDecimals) == Returned(d.amountInUnits) &&
      d.contractAddress == params.tokenAddress && d.functionName == TransferFunctionName &&
      d.recipient == params.to && d.rpcUrl == params.rpcUrl && d.chainId == params.chainId
    // a submission error is reported as the failure, and commit is never attempted
    ensures |trace| >= 1 && env.contractCall(trace[0].descriptor).Threw? ==>
      r == ExecuteFailure(ErrorMessage(env.contractCall(trace[0].descriptor).thrown)) && |trace| == 1
    // success exactly when the submission returned a hash; the result carries it and the echoed fields
    ensures r.ExecuteSuccess? <==> |trace| >= 1 && env.contractCall(trace[0].descriptor).Returned?
    ensures r.ExecuteSuccess? ==>
      r == ExecuteSuccess(env.contractCall(trace[0].descriptor).value,
                          params.to, params.amount, params.tokenAddress, now)
    // commit happens at most once, only after a successful submission, and only when ready
    ensures |trace| == 2 <==> r.ExecuteSuccess? && CommitReady(policies)
    ensures |trace| == 2 ==>
      var res := ReadyResult(policies);
      trace[1].params == CommitParams(res.currentCount, res.maxSends, res.remainingSends, res.timeWindowSeconds)
  {
    trace := [];
    var caught: Option<Thrown> := None;
    var txHash := "";
    // try {
    var pkpPublicKey := delegation.pkpPublicKey;
    if pkpPublicKey.None? || pkpPublicKey.value == "" {
      caught := Some(ErrorInstance(MissingPkpKeyError));
    }
    var callerAddress := "";
    if caught.None? {
      match env.toEthAddress(pkpPublicKey.value)
      case Threw(e) => caught := Some(e);
      case Returned(a) => callerAddress := a;
    }
    var tokenDecimals := DefaultTokenDecimals;
    var tokenAmountInUnits := 0;
    if caught.None? {
      match env.parseTokenAmount(params.amount, tokenDecimals)
      case Threw(e) => caught := Some(e);
      case Returned(units) => tokenAmountInUnits := units;
    }
    if caught.None? {
      var callData := CallDescriptor(
        params.rpcUrl, params.chainId, pkpPublicKey.value, callerAddress,
        params.tokenAddress, TransferFunctionName, params.to, tokenAmountInUnits);
      trace := trace + [ContractCall(callData)];
      match env.contractCall(callData)
      case Threw(e) => caught := Some(e);
      case Returned(hash) => txHash := hash;
    }
    if caught.None? {
      var commitCalls := CommitSendLimitPolicy(policies);
      trace := trace + commitCalls;
      r := ExecuteSuccess(txHash, params.to, params.amount, params.tokenAddress, now);
    } else {
      // } catch (error) {
      var errorMessage := UnknownError;
      if caught.value.ErrorInstance? {
        errorMessage := caught.value.message;
      }
      r := ExecuteFailure(errorMessage);
    }
  }

  /** A commit error never reaches the caller: two runs that differ only in what the
      policy's `commit` does (say, one returns and one throws) give the same result. */
  method CommitErrorIsSwallowed(params: ToolParams, delegation: Delegation, env: Collaborators, now: int,
                                allowed: map<string, PolicyContext>,
                                result: Option<PolicyResult>,
                                commitA: CommitParams -> Outcome<JsValue>,
                                commitB: CommitParams -> Outcome<JsValue>)
    returns (ra: ExecuteResult, rb: ExecuteResult)
    ensures ra == rb
  {
    var policiesA := PoliciesContext(Some(allowed[SendLimitPolicyName := PolicyContext(Some(commitA), result)]));
    var policiesB := PoliciesContext(Some(allowed[SendLimitPolicyName := PolicyContext(Some(commitB), result)]));
    var traceA, traceB;
    ra, traceA := Execute(params, delegation, policiesA, env, now);
    rb, traceB := Execute(params, delegation, policiesB, env, now);
  }

  /** Execute does not re-run the precheck validation: with working collaborators it
      submits a transfer for parameters that precheck rejects (here, a recipient that
      is not an address). */
  method ExecuteDoesNotRevalidate() returns (check: PrecheckResult, trace: seq<ExternalCall>)
    ensures check == PrecheckFailure(InvalidRecipientError)
    ensures |trace| >= 1 && trace[0].ContractCall? && trace[0].descriptor.recipient == "not-an-address"
  {
    var params := ToolParams("not-an-address", "5", "0xToken", Undefined, Undefined);
    var validators := Validators(s => s != "not-an-address", s => true, s => true, s => Finite(5.0));
    check := Precheck(params, validators);
    var env := Collaborators(key => Returned("0xCaller"), (a, d) => Returned(5000000), call => Returned("0xHash"));
    var r;
    r, trace := Execute(params, Delegation(Some("0xKey")), PoliciesContext(None), env, 0);
  }
}
