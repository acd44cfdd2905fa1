/** The `precheck` stage of the ERC-20 transfer tool: a side-effect-free chain of six
    validation checks, evaluated in a fixed order, where the first failing check
    decides the failure message. */
module PrecheckStage {
  import opened JsSemantics

  /** The tool's parameters. `to`, `amount` and `tokenAddress` are required strings;
      `rpcUrl` and `chainId` are optional and are inspected dynamically, so they are
      kept as JavaScript values. */
  datatype ToolParams = ToolParams(
    to: string,
    amount: string,
    tokenAddress: string,
    rpcUrl: JsValue,
    chainId: JsValue)

  /** The predicates the validator calls whose definitions lie outside this model:
      `isValidAddress` and `isValidAmount` from the tool's helpers, whether `new URL(s)`
      succeeds, and the global `parseFloat`. */
  datatype Validators = Validators(
    isValidAddress: string -> bool,
    isValidAmount: string -> bool,
    urlParses: string -> bool,
    parseFloat: string -> JsNumber)

  datatype PrecheckResult =
    | PrecheckSuccess(addressValid: bool, amountValid: bool, tokenAddressValid: bool)
    | PrecheckFailure(error: string)

  /** Largest amount, in whole tokens before decimals, that one transfer may move. */
  const MaxAmount: real := 1000000.0

  const ErrorPrefix := "[@agentic-ai/vincent-tool-erc20-transfer/precheck] "
  const InvalidRecipientError := ErrorPrefix + "Invalid recipient address format"
  const InvalidAmountError := ErrorPrefix + "Invalid amount format or amount must be greater than 0"
  const InvalidTokenAddressError := ErrorPrefix + "Invalid token contract address format"
  const InvalidRpcUrlError := ErrorPrefix + "Invalid RPC URL format"
  const InvalidChainIdError := ErrorPrefix + "Invalid chain ID - must be a positive integer"
  const AmountTooLargeError := ErrorPrefix + "Amount too large (maximum 1,000,000 tokens per transaction)"

  /** The six checks, named after what each one guards. */
  datatype Check = RecipientAddress | Amount | TokenAddress | RpcUrl | ChainId | Ceiling

  /** The order in which `precheck` evaluates the checks. */
  const CheckOrder: seq<Check> := [RecipientAddress, Amount, TokenAddress, RpcUrl, ChainId, Ceiling]

  /** The failure condition of each check, with JavaScript's short-circuit `&&`/`||`,
      truthiness and `typeof` spelled out. */
  predicate Fails(c: Check, p: ToolParams, v: Validators)
  {
    match c
    case RecipientAddress => !v.isValidAddress(p.to)
    case Amount => !v.isValidAmount(p.amount)
    case TokenAddress => !v.isValidAddress(p.tokenAddress)
    // `p.rpcUrl.Str?` and `p.chainId.Num?` follow from the `typeof` tests; they make `.s` and `.n` well defined
    case RpcUrl =>
      Truthy(p.rpcUrl) && TypeOf(p.rpcUrl) == "string" && p.rpcUrl.Str? && !v.urlParses(p.rpcUrl.s)
    case ChainId =>
      Truthy(p.chainId) && (TypeOf(p.chainId) != "number" || (p.chainId.Num? && AtMost(p.chainId.n, 0.0)))
    case Ceiling => GreaterThan(v.parseFloat(p.amount), MaxAmount)
  }

  /** The failure message each check reports. */
  function Message(c: Check): string
  {
    match c
    case RecipientAddress => InvalidRecipientError
    case Amount => InvalidAmountError
    case TokenAddress => InvalidTokenAddressError
    case RpcUrl => InvalidRpcUrlError
    case ChainId => InvalidChainIdError
    case Ceiling => AmountTooLargeError
  }

  /** The precheck stage: an early-return chain over the checks, in source order. */
  function Precheck(p: ToolParams, v: Validators): (r: PrecheckResult)
    ensures r.PrecheckSuccess? ==> r.addressValid && r.amountValid && r.tokenAddressValid
    ensures r.PrecheckFailure? ==> exists c :: r.error == Message(c) && Fails(c, p, v)
  {
    if Fails(RecipientAddress, p, v) then PrecheckFailure(Message(RecipientAddress))
    else if Fails(Amount, p, v) then PrecheckFailure(Message(Amount))
    else if Fails(TokenAddress, p, v) then PrecheckFailure(Message(TokenAddress))
    else if Fails(RpcUrl, p, v) then PrecheckFailure(Message(RpcUrl))
    else if Fails(ChainId, p, v) then PrecheckFailure(Message(ChainId))
    else if Fails(Ceiling, p, v) then PrecheckFailure(Message(Ceiling))
    else PrecheckSuccess(true, true, true)
  }

  /** Reference definition of "the first failing check": the least index into
      `checks` whose check fails, or None when none does. */
  function FirstFailure(checks: seq<Check>, p: ToolParams, v: Validators): (r: Option<nat>)
    ensures r.Some? ==> r.value < |checks| && Fails(checks[r.value], p, v)
    ensures r.Some? ==> forall j :: 0 <= j < r.value ==> !Fails(checks[j], p, v)
    ensures r.None? <==> forall j :: 0 <= j < |checks| ==> !Fails(checks[j], p, v)
    decreases |checks|
  {
    if |checks| == 0 then None
    else if Fails(checks[0], p, v) then Some(0)
    else match FirstFailure(checks[1..], p, v)
      case None => None
      case Some(i) => Some(i + 1)
  }

  /** The messages of distinct checks are distinct, so a failure message names its check. */
  lemma MessageInjective(c: Check, d: Check)
    ensures Message(c) == Message(d) <==> c == d
  {
  }

  /** Precheck agrees with the reference: it fails with the message of the first
      failing check in `CheckOrder`, and succeeds with all three flags set when no
      check fails. */
  lemma PrecheckReportsFirstFailure(p: ToolParams, v: Validators)
    ensures match FirstFailure(CheckOrder, p, v)
      case Some(i) => Precheck(p, v) == PrecheckFailure(Message(CheckOrder[i]))
      case None => Precheck(p, v) == PrecheckSuccess(true, true, true)
  {
    var r := FirstFailure(CheckOrder, p, v);
    var before := if r.Some? then r.value else |CheckOrder|;
    assert forall j :: 0 <= j < before ==> !Fails(CheckOrder[j], p, v);
    assert before > 0 ==> !Fails(RecipientAddress, p, v);
    assert before > 1 ==> !Fails(Amount, p, v);
    assert before > 2 ==> !Fails(TokenAddress, p, v);
    assert before > 3 ==> !Fails(RpcUrl, p, v);
    assert before > 4 ==> !Fails(ChainId, p, v);
    assert before > 5 ==> !Fails(Ceiling, p, v);
  }

  /** Precheck succeeds exactly when every check passes, and then all three flags are set. */
  lemma PrecheckSucceedsIffAllPass(p: ToolParams, v: Validators)
    ensures Precheck(p, v).PrecheckSuccess? <==> forall c: Check :: !Fails(c, p, v)
    ensures Precheck(p, v).PrecheckSuccess? ==> Precheck(p, v) == PrecheckSuccess(true, true, true)
  {
    PrecheckReportsFirstFailure(p, v);
    var r := FirstFailure(CheckOrder, p, v);
    if r.None? {
      forall c: Check ensures !Fails(c, p, v) {
        assert c == CheckOrder[IndexOf(c)];
      }
    }
  }

  /** Position of a check in `CheckOrder`. */
  function IndexOf(c: Check): (i: nat)
    ensures i < |CheckOrder| && CheckOrder[i] == c
  {
    match c
    case RecipientAddress => 0
    case Amount => 1
    case TokenAddress => 2
    case RpcUrl => 3
    case ChainId => 4
    case Ceiling => 5
  }

  /** The failure message of check `c` is reported exactly when `c` fails and every
      check before it passes. */
  lemma PrecheckFailsWith(p: ToolParams, v: Validators, c: Check)
    ensures Precheck(p, v) == PrecheckFailure(Message(c))
        <==> Fails(c, p, v) && forall j :: 0 <= j < IndexOf(c) ==> !Fails(CheckOrder[j], p, v)
  {
    PrecheckReportsFirstFailure(p, v);
    var r := FirstFailure(CheckOrder, p, v);
    var k := IndexOf(c);
    if r.Some? {
      var i := r.value;
      MessageInjective(CheckOrder[i], c);
      if Fails(c, p, v) && forall j :: 0 <= j < k ==> !Fails(CheckOrder[j], p, v) {
        assert !(i < k) && !(k < i);
      }
    } else {
      assert !Fails(CheckOrder[k], p, v);
    }
  }

  /** Once check number `i` fails after all earlier checks pass, no later check affects
      the result: any parameters and validators that agree on the outcomes of the first
      `i + 1` checks get the same result. */
  lemma LaterChecksIrrelevant(p: ToolParams, v: Validators, q: ToolParams, w: Validators, i: nat)
    requires i < |CheckOrder| && Fails(CheckOrder[i], p, v)
    requires forall j :: 0 <= j <= i ==> (Fails(CheckOrder[j], p, v) <==> Fails(CheckOrder[j], q, w))
    ensures Precheck(p, v) == Precheck(q, w)
  {
    PrecheckReportsFirstFailure(p, v);
    PrecheckReportsFirstFailure(q, w);
    var rp := FirstFailure(CheckOrder, p, v);
    var rq := FirstFailure(CheckOrder, q, w);
    assert rp.Some? && rp.value <= i;
    assert rq.Some? && rq.value <= i;
    assert rp == rq;
  }

  /** A parameter set that violates exactly one check fails with that check's message. */
  lemma SingleViolationReported(p: ToolParams, v: Validators, c: Check)
    requires Fails(c, p, v)
    requires forall d: Check :: d != c ==> !Fails(d, p, v)
    ensures Precheck(p, v) == PrecheckFailure(Message(c))
  {
    PrecheckFailsWith(p, v, c);
    forall j | 0 <= j < IndexOf(c) ensures !Fails(CheckOrder[j], p, v) {
      assert CheckOrder[j] != c;
    }
  }

  /** The RPC URL check runs only for a non-empty string: it fails exactly when
      `rpcUrl` is a non-empty string that does not parse as a URL. */
  lemma RpcUrlCheckOnlyForNonEmptyString(p: ToolParams, v: Validators)
    ensures Fails(RpcUrl, p, v) <==> p.rpcUrl.Str? && p.rpcUrl.s != "" && !v.urlParses(p.rpcUrl.s)
  {
  }

  /** An absent, null or empty `rpcUrl` never makes precheck fail with the RPC URL error. */
  lemma AbsentRpcUrlNeverRejected(p: ToolParams, v: Validators)
    requires p.rpcUrl == Undefined || p.rpcUrl == Null || p.rpcUrl == Str("")
    ensures Precheck(p, v) != PrecheckFailure(InvalidRpcUrlError)
  {
  }

  /** The chain-id check fails exactly when `chainId` is a negative number (including
      -Infinity) or a truthy value that is not a number. */
  lemma ChainIdCheckFailsExactly(p: ToolParams, v: Validators)
    ensures Fails(ChainId, p, v) <==>
      match p.chainId
      case Num(n) => n == NegInfinity || (n.Finite? && n.x < 0.0)
      case Undefined => false
      case Null => false
      case Bool(b) => b
      case Str(s) => s != ""
      case Obj => true
  {
  }

  /** Absent chain ids, zero, NaN and every non-negative number, integral or not,
      pass the chain-id check. */
  lemma ChainIdAcceptsZeroAndFractions(p: ToolParams, v: Validators)
    requires p.chainId == Undefined || p.chainId == Num(NaN) ||
             (p.chainId.Num? && p.chainId.n.Finite? && p.chainId.n.x >= 0.0)
    ensures !Fails(ChainId, p, v)
  {
  }

  /** The ceiling check fails exactly when the parsed amount is strictly greater than
      1,000,000 (or +Infinity); exactly 1,000,000 and NaN pass. */
  lemma CeilingIsStrict(p: ToolParams, v: Validators)
    ensures Fails(Ceiling, p, v) <==>
      v.parseFloat(p.amount) == PosInfinity ||
      (v.parseFloat(p.amount).Finite? && v.parseFloat(p.amount).x > 1000000.0)
    ensures v.parseFloat(p.amount) == Finite(1000000.0) ==> !Fails(Ceiling, p, v)
    ensures v.parseFloat(p.amount) == NaN ==> !Fails(Ceiling, p, v)
  {
  }
}
