/** The token-transfer intent route (src/app/api/transfer-token-intent/route.ts):
    request checks, chain selection, call-data and user-operation assembly, the
    gas-price gate, signing, validation, submission, polling and the mapping of
    errors to HTTP statuses. */
module TransferIntent {
  import opened Common
  import opened InvokeExecute
  import OrderHistory

  /** The chain the route always uses (Base mainnet), whatever the body says. */
  const BaseChainId := "eip155:8453"
  /** The native asset: the route always sends "" as the token address. */
  const NativeToken := ""
  const FeePayerAddress := "0x5A2d9032605DA34A0a2a413143e111bcFA6Dd697"
  const BearerPrefix := "Bearer "

  /* ---------------------------------------------------------------- chains */

  /** A record of the chain registry; absent flags are `None`. */
  datatype ChainRecord = ChainRecord(caip_id: string, gsn_enabled: Option<bool>, sponsorship_enabled: Option<bool>)

  /** The chain the intent runs on, with its flags defaulted to false. */
  datatype SelectedChain = SelectedChain(caip_id: string, gsnEnabled: bool, sponsorshipEnabled: bool)

  /** Chain ids are compared after lower-casing both. */
  predicate SameChainId(a: string, b: string) {
    Lower(a) == Lower(b)
  }

  function ChainIds(chains: seq<ChainRecord>): (ids: seq<string>)
    ensures |ids| == |chains|
    ensures forall i :: 0 <= i < |chains| ==> ids[i] == chains[i].caip_id
  {
    seq(|chains|, i requires 0 <= i < |chains| => chains[i].caip_id)
  }

  // The two fixed parts of the message, each written as the concatenation of the
  // words the error mapping looks for, so that their occurrence follows from
  // `ContainsInfix` instead of from comparing characters of a literal.
  const ChainWord := "Chain" + " "
  const NotSupportedWords := " is " + "not supported" + ". Available chains: "

  function UnsupportedChainMessage(caip2Id: string, chains: seq<ChainRecord>): string {
    ChainWord + caip2Id + NotSupportedWords + Join(ChainIds(chains), ", ")
  }

  /** `chains.find(...)` on the lower-cased ids, then the `?? false` defaults; no
      match is an error naming the requested id and every id on offer. */
  function SelectChain(chains: seq<ChainRecord>, caip2Id: string): (r: Result<SelectedChain, Exception>)
    ensures r.Success? <==> exists i :: 0 <= i < |chains| && SameChainId(chains[i].caip_id, caip2Id)
    ensures r.Success? ==>
      exists i :: (0 <= i < |chains| && SameChainId(chains[i].caip_id, caip2Id) &&
        (forall j :: 0 <= j < i ==> !SameChainId(chains[j].caip_id, caip2Id)) &&
        r.value == SelectedChain(chains[i].caip_id, chains[i].gsn_enabled.GetOr(false),
                                 chains[i].sponsorship_enabled.GetOr(false)))
    ensures r.Failure? ==> r.error == Error(UnsupportedChainMessage(caip2Id, chains))
  {
    match FirstIndex(chains, (c: ChainRecord) => SameChainId(c.caip_id, caip2Id))
    case None => Failure(Error(UnsupportedChainMessage(caip2Id, chains)))
    case Some(i) =>
      Success(SelectedChain(chains[i].caip_id, chains[i].gsn_enabled.GetOr(false),
                            chains[i].sponsorship_enabled.GetOr(false)))
  }

  /** Selection ignores case: asking for the lower-cased id selects the same chain. */
  lemma SelectChainIgnoresCase(chains: seq<ChainRecord>, caip2Id: string)
    ensures SelectChain(chains, Lower(caip2Id)).Success? == SelectChain(chains, caip2Id).Success?
    ensures SelectChain(chains, caip2Id).Success? ==>
              SelectChain(chains, Lower(caip2Id)) == SelectChain(chains, caip2Id)
  {
    LowerIdempotent(caip2Id);
    assert forall c: ChainRecord :: SameChainId(c.caip_id, Lower(caip2Id)) == SameChainId(c.caip_id, caip2Id);
  }

  /** The unsupported-chain message names the requested id and every registry id,
      and carries the words the error mapping looks for. */
  lemma UnsupportedChainMessageNamesChains(caip2Id: string, chains: seq<ChainRecord>)
    ensures var m := UnsupportedChainMessage(caip2Id, chains);
      Contains(m, "Chain") && Contains(m, "not supported") && Contains(m, caip2Id) &&
      forall k :: 0 <= k < |chains| ==> Contains(m, chains[k].caip_id)
  {
    var ids := Join(ChainIds(chains), ", ");
    var m := UnsupportedChainMessage(caip2Id, chains);
    assert m == ChainWord + caip2Id + NotSupportedWords + ids;
    ContainsInfix("", "Chain", " ");
    assert "" + "Chain" + " " == ChainWord;
    ContainsExtend("", ChainWord, caip2Id + NotSupportedWords + ids, "Chain");
    assert "" + ChainWord + (caip2Id + NotSupportedWords + ids) == m;
    ContainsInfix(" is ", "not supported", ". Available chains: ");
    ContainsExtend(ChainWord + caip2Id, NotSupportedWords, ids, "not supported");
    ContainsInfix(ChainWord, caip2Id, NotSupportedWords + ids);
    assert ChainWord + caip2Id + (NotSupportedWords + ids) == m;
    forall k | 0 <= k < |chains|
      ensures Contains(m, chains[k].caip_id)
    {
      JoinContainsEach(ChainIds(chains), ", ", k);
      ContainsExtend(ChainWord + caip2Id + NotSupportedWords, ids, "", chains[k].caip_id);
      assert ChainWord + caip2Id + NotSupportedWords + ids + "" == m;
    }
  }

  /* ------------------------------------------------------------ user op */

  /** The helpers and constants the route imports that are not part of this model
      (Constants, INTENT_ABI, nonceToBigInt) and the viem encoders, as values. */
  datatype Constants = Constants(
    executeSelector: string, jobManagerAddress: string, userOpValue: nat, functionName: string,
    tokenTransferIntentType: string, paymasterAddress: string,
    callGasLimit: nat, verificationGasLimit: nat, preVerificationGas: nat,
    paymasterPostOpGasLimit: nat, paymasterVerificationGasLimit: nat, hoursInMs: nat)

  /** `nonceToBigInt`, viem's `toHex` (plain and with a byte size), and the ABI
      encoding of the whole execute call, which may throw (`BigInt` of an amount
      that does not scale to an integer raises a RangeError). */
  datatype Codec = Codec(
    nonceToBigInt: string -> nat,
    toHex: nat -> string,
    toHexSized: (nat, nat) -> string,
    encodeCallData: ExecuteCall -> Result<string, Exception>)

  /** `(string caip2Id, string recipientWalletAddress, string tokenAddress, uint amount)` */
  datatype JobParameters = JobParameters(caip2Id: string, recipientWalletAddress: string, tokenAddress: string, amount: real)

  /** `(bool isRequired, string[] requiredNetworks, JobParameters[] tokens)` */
  datatype GsnData = GsnData(isRequired: bool, requiredNetworks: seq<string>, tokens: seq<JobParameters>)

  /** Every value that goes into the call data, in encoding order: the outer
      `(bytes4, address, uint256, bytes)` and the intent function's arguments. */
  datatype ExecuteCall = ExecuteCall(
    selector: string, jobManager: string, value: nat, functionName: string,
    nonce: string, clientSWA: string, userSWA: string, feePayer: string,
    gsnEnabled: bool, sponsorshipEnabled: bool, gsnData: GsnData,
    jobParameters: JobParameters, intentType: string)

  /** The transfer as `transferTokenIntent` receives it. */
  datatype IntentData = IntentData(caip2Id: string, recipient: string, token: string, amount: real)

  /** `toHex(nonceToBigInt(nonce), { size: 32 })` */
  function NonceHex(nonceUuid: string, codec: Codec): string {
    codec.toHexSized(codec.nonceToBigInt(nonceUuid), 32)
  }

  /** The arguments the call data encodes. */
  function IntentCall(data: IntentData, config: SessionConfig, clientSWA: string, chain: SelectedChain,
                      nonceUuid: string, k: Constants, codec: Codec): ExecuteCall
  {
    ExecuteCall(
      k.executeSelector, k.jobManagerAddress, k.userOpValue, k.functionName,
      NonceHex(nonceUuid, codec), clientSWA, config.userSWA, FeePayerAddress,
      chain.gsnEnabled, chain.sponsorshipEnabled, GsnData(false, [], []),
      JobParameters(data.caip2Id, data.recipient, data.token, data.amount),
      k.tokenTransferIntentType)
  }

  /** The call data's arguments for a chain found in the registry: the flags of
      the first matching record, absent ones false; the nonce the op carries; the
      default fee payer; an empty GSN requirement; and the transfer exactly as
      requested. */
  lemma IntentCallArguments(data: IntentData, config: SessionConfig, clientSWA: string, chains: seq<ChainRecord>,
                            nonceUuid: string, k: Constants, codec: Codec)
    requires SelectChain(chains, data.caip2Id).Success?
    ensures var call := IntentCall(data, config, clientSWA, SelectChain(chains, data.caip2Id).value, nonceUuid, k, codec);
      && (exists i :: (0 <= i < |chains| && SameChainId(chains[i].caip_id, data.caip2Id) &&
            (forall j :: 0 <= j < i ==> !SameChainId(chains[j].caip_id, data.caip2Id)) &&
            call.gsnEnabled == chains[i].gsn_enabled.GetOr(false) &&
            call.sponsorshipEnabled == chains[i].sponsorship_enabled.GetOr(false)))
      && call.nonce == NonceHex(nonceUuid, codec)
      && call.clientSWA == clientSWA && call.userSWA == config.userSWA && call.feePayer == FeePayerAddress
      && call.gsnData == GsnData(false, [], [])
      && call.jobParameters == JobParameters(data.caip2Id, data.recipient, data.token, data.amount)
      && call.selector == k.executeSelector && call.jobManager == k.jobManagerAddress
      && call.value == k.userOpValue && call.functionName == k.functionName
      && call.intentType == k.tokenTransferIntentType
  {
  }

  /** The properties the `userOp` literal sets. */
  const UserOpFields: set<Field> := {
    Sender, Nonce, Paymaster, CallGasLimit, VerificationGasLimit, PreVerificationGas,
    MaxFeePerGas, MaxPriorityFeePerGas, PaymasterPostOpGasLimit, PaymasterVerificationGasLimit,
    CallData, PaymasterData}

  /** The `userOp` object literal. */
  function AssembleUserOp(config: SessionConfig, nonceUuid: string, gas: GasQuote, callData: string,
                          paymasterData: string, k: Constants, codec: Codec): (op: UserOp)
    ensures op.Keys == UserOpFields
  {
    map[
      Sender := config.userSWA,
      Nonce := NonceHex(nonceUuid, codec),
      Paymaster := k.paymasterAddress,
      CallGasLimit := codec.toHex(k.callGasLimit),
      VerificationGasLimit := codec.toHex(k.verificationGasLimit),
      PreVerificationGas := codec.toHex(k.preVerificationGas),
      MaxFeePerGas := gas.maxFeePerGas,
      MaxPriorityFeePerGas := gas.maxPriorityFeePerGas,
      PaymasterPostOpGasLimit := codec.toHex(k.paymasterPostOpGasLimit),
      PaymasterVerificationGasLimit := codec.toHex(k.paymasterVerificationGasLimit),
      CallData := callData,
      PaymasterData := paymasterData
    ]
  }

  /* ---------------------------------------------------------- validation */

  /** `requiredFields`, in declaration order. */
  const RequiredFields: seq<Field> := [Sender, Nonce, CallData, CallGasLimit, VerificationGasLimit,
                                       PreVerificationGas, MaxFeePerGas, MaxPriorityFeePerGas, Signature]

  /** `hexFields`, in declaration order. */
  const HexFields: seq<Field> := [Nonce, CallGasLimit, VerificationGasLimit, PreVerificationGas,
                                  MaxFeePerGas, MaxPriorityFeePerGas]

  /** `userOp[field]` is truthy. */
  predicate Truthy(op: UserOp, field: Field) {
    field in op && op[field] != ""
  }

  /** `userOp[field] && !userOp[field].startsWith('0x')` */
  predicate NotHex(op: UserOp, field: Field) {
    Truthy(op, field) && !StartsWith(op[field], "0x")
  }

  /** What `validateUserOp` accepts: every required field truthy and every hex
      field, when truthy, prefixed `0x`. */
  predicate WellFormedOp(op: UserOp) {
    (forall f :: f in RequiredFields ==> Truthy(op, f)) &&
    (forall f :: f in HexFields ==> !NotHex(op, f))
  }

  /** An op `validateUserOp` accepts carries every hex field, prefixed `0x`. */
  lemma WellFormedOpIsHex(op: UserOp)
    requires WellFormedOp(op)
    ensures forall f :: f in HexFields ==> f in op && StartsWith(op[f], "0x")
  {
  }

  function MissingFields(op: UserOp): seq<Field> {
    Filter(RequiredFields, (f: Field) => !Truthy(op, f))
  }

  function Names(fields: seq<Field>): (names: seq<string>)
    ensures |names| == |fields|
    ensures forall i :: 0 <= i < |fields| ==> names[i] == fields[i].Name()
  {
    seq(|fields|, i requires 0 <= i < |fields| => fields[i].Name())
  }

  const MissingFieldsPrefix := "Missing required UserOp fields: "

  function MissingFieldsMessage(missing: seq<Field>): string {
    MissingFieldsPrefix + Join(Names(missing), ", ")
  }

  function NotHexMessage(field: Field, value: string): string {
    "Field " + field.Name() + " must be hex encoded: " + value
  }

  /** `validateUserOp`: every required field truthy (all missing ones reported
      together, in declaration order), then every hex field prefixed `0x` (the
      first offender reported). It returns nothing and so changes nothing. */
  function ValidateUserOp(op: UserOp): (r: Outcome<Exception>)
    ensures r.Pass? <==> WellFormedOp(op)
    ensures (exists f :: f in RequiredFields && !Truthy(op, f)) ==>
              r == Fail(Error(MissingFieldsMessage(MissingFields(op))))
    ensures r.Fail? && (forall f :: f in RequiredFields ==> Truthy(op, f)) ==>
              exists i :: (0 <= i < |HexFields| && NotHex(op, HexFields[i]) &&
                (forall j :: 0 <= j < i ==> !NotHex(op, HexFields[j])) &&
                r == Fail(Error(NotHexMessage(HexFields[i], op[HexFields[i]]))))
  {
    var missing := MissingFields(op);
    if |missing| > 0 then
      assert missing[0] in missing;
      Fail(Error(MissingFieldsMessage(missing)))
    else
      match FirstIndex(HexFields, (f: Field) => NotHex(op, f))
      case Some(i) => Fail(Error(NotHexMessage(HexFields[i], op[HexFields[i]])))
      case None => Pass
  }

  /** The missing-fields message names each field of the list it reports. */
  lemma {:induction false} MessageNamesEach(missing: seq<Field>, k: nat)
    requires k < |missing|
    ensures Contains(MissingFieldsMessage(missing), missing[k].Name())
  {
    var names := Names(missing);
    JoinContainsEach(names, ", ", k);
    ContainsExtend(MissingFieldsPrefix, Join(names, ", "), "", names[k]);
    assert MissingFieldsPrefix + Join(names, ", ") + "" == MissingFieldsMessage(missing);
  }

  lemma MessageNamesMember(missing: seq<Field>, f: Field)
    requires f in missing
    ensures Contains(MissingFieldsMessage(missing), f.Name())
  {
    var k :| 0 <= k < |missing| && missing[k] == f;
    MessageNamesEach(missing, k);
  }

  /** The missing-fields message names each missing field, in the order the
      required list declares them. */
  lemma MissingFieldsReported(op: UserOp)
    ensures IsSubsequence(MissingFields(op), RequiredFields)
    ensures forall f :: f in RequiredFields && !Truthy(op, f) ==>
              Contains(MissingFieldsMessage(MissingFields(op)), f.Name())
  {
    var missing := MissingFields(op);
    forall f | f in RequiredFields && !Truthy(op, f)
      ensures Contains(MissingFieldsMessage(missing), f.Name())
    {
      MessageNamesMember(missing, f);
    }
  }

  /* ---------------------------------------------------------- the pipeline */

  /** The collaborators `transferTokenIntent` awaits, each a function of what it
      sends: the chain registry, the gas-values endpoint (its response body), the
      paymaster-data helper (given the nonce and the deadline in milliseconds;
      "" is a falsy result), and the gateway post. */
  datatype Services = Services(
    getChains: string -> Result<seq<ChainRecord>, Exception>,
    getGasValues: string -> Result<Option<GasValuesBody>, Exception>,
    paymasterData: (string, int) -> Result<string, Exception>,
    postRpc: RpcPost,
    orderObservations: string -> seq<OrderHistory.Observation>)

  /** Everything outside the request the route depends on: the hidden helpers, the
      collaborators, the two uuids it draws, the clock and `NEXT_PUBLIC_OKTO_SWA`. */
  datatype Runtime = Runtime(
    constants: Constants, codec: Codec, signing: Signing, services: Services,
    nonceUuid: string, requestId: string, now: int, clientSWA: string)

  /** The steps of the pipeline, in the order it reaches them. */
  datatype Step = FetchChains | EncodeCallData | FetchGasPrice | GeneratePaymasterData | SignOp | SubmitOp {
    function Rank(): nat {
      match this
      case FetchChains => 0
      case EncodeCallData => 1
      case FetchGasPrice => 2
      case GeneratePaymasterData => 3
      case SignOp => 4
      case SubmitOp => 5
    }
  }

  /** What `transferTokenIntent` comes to: the job id or the error it throws, the
      last step it reached (it reached every step before it, and none after), and
      the op it submitted, if it got that far. */
  datatype IntentOutcome = IntentOutcome(result: Result<string, Exception>, lastStep: Step, submitted: Option<UserOp>) {
    predicate Reached(step: Step) {
      step.Rank() <= lastStep.Rank()
    }
  }

  const GasPricesMessage := "Failed to get valid gas prices from Okto API"
  const PaymasterMessage := "Failed to generate paymaster data"
  /** The TypeError from reading `maxFeePerGas` of an undefined gas price. */
  const MissingGasPriceMessage := "Cannot read properties of undefined (reading 'maxFeePerGas')"

  /** Both gas prices are present and non-empty. */
  predicate GasPricesUsable(gas: Option<GasQuote>) {
    gas.Some? && gas.value.maxFeePerGas != "" && gas.value.maxPriorityFeePerGas != ""
  }

  /** The error the gas gate throws for a quote that is not usable. */
  function GasGateError(gas: Option<GasQuote>): Exception {
    if gas.None? then Error(MissingGasPriceMessage) else Error(GasPricesMessage)
  }

  /** The paymaster deadline: six hours from now. */
  function ValidUntil(rt: Runtime): int {
    rt.now + 6 * rt.constants.hoursInMs
  }

  /** The op the pipeline signs: the `userOp` literal for the call data, the gas
      quote and the paymaster data. */
  function UnsignedOp(config: SessionConfig, callData: string, gas: GasQuote, paymaster: string, rt: Runtime): UserOp {
    AssembleUserOp(config, rt.nonceUuid, gas, callData, paymaster, rt.constants, rt.codec)
  }

  /** The last stage: assemble, sign, validate, submit. An op that fails
      validation is never submitted and its error is the result; otherwise the
      result is the gateway's answer for exactly the op submitted. */
  function SignAndSubmit(config: SessionConfig, authToken: string, callData: string, gas: GasQuote,
                         paymaster: string, rt: Runtime): (r: IntentOutcome)
    ensures r.lastStep == SignOp || r.lastStep == SubmitOp
    ensures r.submitted.Some? <==> r.lastStep == SubmitOp
    ensures var op := Signed(UnsignedOp(config, callData, gas, paymaster, rt), config, rt.signing);
      && (!WellFormedOp(op) ==> r.result.Failure? && r.lastStep == SignOp && r.submitted.None?)
      && (WellFormedOp(op) ==> r.submitted == Some(op))
    ensures r.submitted.Some? ==> WellFormedOp(r.submitted.value)
    ensures r.submitted.Some? ==> r.result == ExecuteUserOp(r.submitted.value, authToken, rt.requestId, rt.services.postRpc)
  {
    var userOp := UnsignedOp(config, callData, gas, paymaster, rt);
    var signedUserOp := Signed(userOp, config, rt.signing);
    match ValidateUserOp(signedUserOp)
    case Fail(e) => IntentOutcome(Failure(e), SignOp, None)
    case Pass =>
      IntentOutcome(ExecuteUserOp(signedUserOp, authToken, rt.requestId, rt.services.postRpc),
                    SubmitOp, Some(signedUserOp))
  }

  /** A signed op that fails validation ends the pipeline with exactly the error
      `validateUserOp` throws for it. */
  lemma RejectedOpError(config: SessionConfig, authToken: string, callData: string, gas: GasQuote,
                        paymaster: string, rt: Runtime)
    requires !WellFormedOp(Signed(UnsignedOp(config, callData, gas, paymaster, rt), config, rt.signing))
    ensures var op := Signed(UnsignedOp(config, callData, gas, paymaster, rt), config, rt.signing);
      ValidateUserOp(op).Fail? &&
      SignAndSubmit(config, authToken, callData, gas, paymaster, rt) ==
        IntentOutcome(Failure(ValidateUserOp(op).error), SignOp, None)
  {
  }

  /** Signing comes after the paymaster step. */
  lemma SigningFollowsPaymaster(r: IntentOutcome)
    requires r.lastStep == SignOp || r.lastStep == SubmitOp
    ensures r.Reached(GeneratePaymasterData)
  {
  }

  /** Past the gas gate: ask for the paymaster data with a six-hour deadline,
      refuse an error or a falsy answer, and hand truthy data on to signing. */
  function PaymasterAndSign(config: SessionConfig, authToken: string, callData: string, gas: GasQuote,
                            rt: Runtime): (r: IntentOutcome)
    ensures r.Reached(GeneratePaymasterData)
    ensures r.submitted.Some? <==> r.lastStep == SubmitOp
    ensures r.submitted.Some? ==> WellFormedOp(r.submitted.value)
    ensures r.submitted.Some? ==> r.result == ExecuteUserOp(r.submitted.value, authToken, rt.requestId, rt.services.postRpc)
    ensures var pm := rt.services.paymasterData(rt.nonceUuid, ValidUntil(rt));
      && (pm.Failure? ==> r == IntentOutcome(Failure(pm.error), GeneratePaymasterData, None))
      && (pm.Success? && pm.value == "" ==> r == IntentOutcome(Failure(Error(PaymasterMessage)), GeneratePaymasterData, None))
      && (pm.Success? && pm.value != "" ==> r == SignAndSubmit(config, authToken, callData, gas, pm.value, rt))
  {
    match rt.services.paymasterData(rt.nonceUuid, ValidUntil(rt))
    case Failure(e) => IntentOutcome(Failure(e), GeneratePaymasterData, None)
    case Success(paymaster) =>
      if paymaster == "" then IntentOutcome(Failure(Error(PaymasterMessage)), GeneratePaymasterData, None)
      else
        var signed := SignAndSubmit(config, authToken, callData, gas, paymaster, rt);
        SigningFollowsPaymaster(signed);
        signed
  }

  /** The stages after the call data is encoded: the gas-price gate, then
      paymaster data. Each gate that fails ends the pipeline with its error. */
  function GasAndPaymaster(config: SessionConfig, authToken: string, callData: string, rt: Runtime): (r: IntentOutcome)
    ensures r.Reached(FetchGasPrice)
    ensures r.submitted.Some? <==> r.lastStep == SubmitOp
    ensures r.submitted.Some? ==> WellFormedOp(r.submitted.value)
    ensures r.submitted.Some? ==> r.result == ExecuteUserOp(r.submitted.value, authToken, rt.requestId, rt.services.postRpc)
    ensures var gasValues := rt.services.getGasValues(authToken);
      && (gasValues.Failure? ==> r == IntentOutcome(Failure(gasValues.error), FetchGasPrice, None))
      && (gasValues.Success? && !GasPricesUsable(GetUserOperationGasPrice(gasValues.value)) ==>
            r == IntentOutcome(Failure(GasGateError(GetUserOperationGasPrice(gasValues.value))), FetchGasPrice, None))
    ensures r.Reached(GeneratePaymasterData) ==>
              rt.services.getGasValues(authToken).Success? &&
              GasPricesUsable(GetUserOperationGasPrice(rt.services.getGasValues(authToken).value))
    ensures var pm := rt.services.paymasterData(rt.nonceUuid, ValidUntil(rt));
      r.Reached(GeneratePaymasterData) ==>
        && (pm.Failure? ==> r == IntentOutcome(Failure(pm.error), GeneratePaymasterData, None))
        && (pm.Success? && pm.value == "" ==> r == IntentOutcome(Failure(Error(PaymasterMessage)), GeneratePaymasterData, None))
        && (pm.Success? && pm.value != "" ==>
              r == SignAndSubmit(config, authToken, callData,
                                 GetUserOperationGasPrice(rt.services.getGasValues(authToken).value).value, pm.value, rt))
  {
    match rt.services.getGasValues(authToken)
    case Failure(e) => IntentOutcome(Failure(e), FetchGasPrice, None)
    case Success(body) =>
      var gasPrice := GetUserOperationGasPrice(body);
      if gasPrice.None? then
        IntentOutcome(Failure(Error(MissingGasPriceMessage)), FetchGasPrice, None)
      else if gasPrice.value.maxFeePerGas == "" || gasPrice.value.maxPriorityFeePerGas == "" then
        IntentOutcome(Failure(Error(GasPricesMessage)), FetchGasPrice, None)
      else PaymasterAndSign(config, authToken, callData, gasPrice.value, rt)
  }

  /** `transferTokenIntent`: select the chain, encode the call data, get the gas
      prices and refuse early when either is missing, get the paymaster data,
      assemble, sign, validate and submit the op. A failing registry or encoder
      ends it with that error; it submits only an op that passed validation, and
      its job id is the gateway's answer for that op. */
  function TransferTokenIntent(data: IntentData, config: SessionConfig, authToken: string, rt: Runtime): (r: IntentOutcome)
    ensures rt.services.getChains(authToken).Failure? ==>
              r == IntentOutcome(Failure(rt.services.getChains(authToken).error), FetchChains, None)
    ensures r.submitted.Some? <==> r.lastStep == SubmitOp
    ensures r.submitted.Some? ==> WellFormedOp(r.submitted.value)
    ensures r.submitted.Some? ==> r.result == ExecuteUserOp(r.submitted.value, authToken, rt.requestId, rt.services.postRpc)
    ensures r.Reached(EncodeCallData) ==>
              rt.services.getChains(authToken).Success? &&
              SelectChain(rt.services.getChains(authToken).value, data.caip2Id).Success?
    ensures r.Reached(EncodeCallData) ==>
              var call := IntentCall(data, config, rt.clientSWA,
                                     SelectChain(rt.services.getChains(authToken).value, data.caip2Id).value,
                                     rt.nonceUuid, rt.constants, rt.codec);
              && (rt.codec.encodeCallData(call).Failure? ==>
                    r == IntentOutcome(Failure(rt.codec.encodeCallData(call).error), EncodeCallData, None))
              && (rt.codec.encodeCallData(call).Success? ==>
                    r == GasAndPaymaster(config, authToken, rt.codec.encodeCallData(call).value, rt))
  {
    match rt.services.getChains(authToken)
    case Failure(e) => IntentOutcome(Failure(e), FetchChains, None)
    case Success(chains) =>
      match SelectChain(chains, data.caip2Id)
      case Failure(e) => IntentOutcome(Failure(e), FetchChains, None)
      case Success(chain) =>
        match rt.codec.encodeCallData(IntentCall(data, config, rt.clientSWA, chain, rt.nonceUuid, rt.constants, rt.codec))
        case Failure(e) => IntentOutcome(Failure(e), EncodeCallData, None)
        case Success(callData) => GasAndPaymaster(config, authToken, callData, rt)
  }

  /** A registry without the requested chain fails at once, before encoding or any
      gas, paymaster, signing or submission step, with the unsupported-chain error. */
  lemma UnsupportedChainStopsPipeline(data: IntentData, config: SessionConfig, authToken: string, rt: Runtime)
    requires rt.services.getChains(authToken).Success?
    requires SelectChain(rt.services.getChains(authToken).value, data.caip2Id).Failure?
    ensures var r := TransferTokenIntent(data, config, authToken, rt);
      r.lastStep == FetchChains && r.submitted.None? &&
      r.result == Failure(Error(UnsupportedChainMessage(data.caip2Id, rt.services.getChains(authToken).value)))
  {
  }

  /** The call data is encoded before the gas request: an encoder error is the
      result whatever the gas endpoint would have said. */
  lemma EncodingFailsBeforeGas(data: IntentData, config: SessionConfig, authToken: string, rt: Runtime,
                               getGasValues: string -> Result<Option<GasValuesBody>, Exception>)
    requires rt.services.getChains(authToken).Success?
    requires SelectChain(rt.services.getChains(authToken).value, data.caip2Id).Success?
    requires rt.codec.encodeCallData(IntentCall(data, config, rt.clientSWA,
                                                SelectChain(rt.services.getChains(authToken).value, data.caip2Id).value,
                                                rt.nonceUuid, rt.constants, rt.codec)).Failure?
    ensures var r := TransferTokenIntent(data, config, authToken, rt);
      && r.result.Failure? && r.lastStep == EncodeCallData && r.submitted.None?
      && r == TransferTokenIntent(data, config, authToken, rt.(services := rt.services.(getGasValues := getGasValues)))
  {
  }

  /** Without both gas prices the pipeline fails right after asking for them, with
      the gas error (the TypeError when there is no quote at all): the outcome is
      the same whatever the paymaster helper, the gateway and the signer do, so
      none of them is consulted. */
  lemma GasCheckFailsFast(data: IntentData, config: SessionConfig, authToken: string, rt: Runtime,
                          paymasterData: (string, int) -> Result<string, Exception>, postRpc: RpcPost, signing: Signing)
    requires rt.services.getChains(authToken).Success?
    requires SelectChain(rt.services.getChains(authToken).value, data.caip2Id).Success?
    requires rt.codec.encodeCallData(IntentCall(data, config, rt.clientSWA,
                                                SelectChain(rt.services.getChains(authToken).value, data.caip2Id).value,
                                                rt.nonceUuid, rt.constants, rt.codec)).Success?
    requires rt.services.getGasValues(authToken).Success?
    requires !GasPricesUsable(GetUserOperationGasPrice(rt.services.getGasValues(authToken).value))
    ensures var r := TransferTokenIntent(data, config, authToken, rt);
      && r.result == Failure(GasGateError(GetUserOperationGasPrice(rt.services.getGasValues(authToken).value)))
      && r.lastStep == FetchGasPrice && r.submitted.None?
      && r == TransferTokenIntent(data, config, authToken,
                                  rt.(signing := signing,
                                      services := rt.services.(paymasterData := paymasterData, postRpc := postRpc)))
  {
  }

  /** A run that submits got past chain selection and encoding. */
  lemma SubmittedPassedEncoding(data: IntentData, config: SessionConfig, authToken: string, rt: Runtime)
    requires TransferTokenIntent(data, config, authToken, rt).submitted.Some?
    ensures rt.services.getChains(authToken).Success?
    ensures SelectChain(rt.services.getChains(authToken).value, data.caip2Id).Success?
    ensures var call := IntentCall(data, config, rt.clientSWA,
                                   SelectChain(rt.services.getChains(authToken).value, data.caip2Id).value,
                                   rt.nonceUuid, rt.constants, rt.codec);
      && rt.codec.encodeCallData(call).Success?
      && TransferTokenIntent(data, config, authToken, rt) ==
           GasAndPaymaster(config, authToken, rt.codec.encodeCallData(call).value, rt)
  {
    assert TransferTokenIntent(data, config, authToken, rt).Reached(EncodeCallData);
  }

  /** A run that submits got past the gas gate and the paymaster step. */
  lemma SubmittedPassedGasAndPaymaster(config: SessionConfig, authToken: string, callData: string, rt: Runtime)
    requires GasAndPaymaster(config, authToken, callData, rt).submitted.Some?
    ensures rt.services.getGasValues(authToken).Success?
    ensures GasPricesUsable(GetUserOperationGasPrice(rt.services.getGasValues(authToken).value))
    ensures var pm := rt.services.paymasterData(rt.nonceUuid, ValidUntil(rt));
      && pm.Success? && pm.value != ""
      && GasAndPaymaster(config, authToken, callData, rt) ==
           SignAndSubmit(config, authToken, callData,
                         GetUserOperationGasPrice(rt.services.getGasValues(authToken).value).value, pm.value, rt)
  {
    match rt.services.getGasValues(authToken)
    case Failure(e) =>
    case Success(body) =>
      var gasPrice := GetUserOperationGasPrice(body);
      if GasPricesUsable(gasPrice) {
        match rt.services.paymasterData(rt.nonceUuid, ValidUntil(rt))
        case Failure(e) =>
        case Success(paymaster) =>
      }
  }

  /** The submitted op is the signed assembly of the encoded call data for the
      selected chain, the gas prices quoted and the paymaster data generated. */
  lemma SubmittedIsSignedAssembly(data: IntentData, config: SessionConfig, authToken: string, rt: Runtime)
    requires TransferTokenIntent(data, config, authToken, rt).submitted.Some?
    ensures rt.services.getChains(authToken).Success?
    ensures SelectChain(rt.services.getChains(authToken).value, data.caip2Id).Success?
    ensures var call := IntentCall(data, config, rt.clientSWA,
                                   SelectChain(rt.services.getChains(authToken).value, data.caip2Id).value,
                                   rt.nonceUuid, rt.constants, rt.codec);
      && rt.codec.encodeCallData(call).Success?
      && rt.services.getGasValues(authToken).Success?
      && GasPricesUsable(GetUserOperationGasPrice(rt.services.getGasValues(authToken).value))
      && rt.services.paymasterData(rt.nonceUuid, ValidUntil(rt)).Success?
      && TransferTokenIntent(data, config, authToken, rt).submitted.value ==
           Signed(UnsignedOp(config, rt.codec.encodeCallData(call).value,
                             GetUserOperationGasPrice(rt.services.getGasValues(authToken).value).value,
                             rt.services.paymasterData(rt.nonceUuid, ValidUntil(rt)).value, rt),
                  config, rt.signing)
  {
    SubmittedPassedEncoding(data, config, authToken, rt);
    var chain := SelectChain(rt.services.getChains(authToken).value, data.caip2Id).value;
    var call := IntentCall(data, config, rt.clientSWA, chain, rt.nonceUuid, rt.constants, rt.codec);
    var callData := rt.codec.encodeCallData(call).value;
    SubmittedPassedGasAndPaymaster(config, authToken, callData, rt);
  }

  /** A signed assembled op is sent from the user's account, carries the nonce the
      call data encodes, the call data, the gas prices as quoted and the paymaster
      data as generated, and is signed over the op without its signature. */
  lemma SignedAssembly(config: SessionConfig, callData: string, gas: GasQuote, paymaster: string, rt: Runtime)
    ensures var op := Signed(UnsignedOp(config, callData, gas, paymaster, rt), config, rt.signing);
      && op.Keys == UserOpFields + {Signature}
      && op[Sender] == config.userSWA
      && op[Nonce] == NonceHex(rt.nonceUuid, rt.codec)
      && op[CallData] == callData
      && op[MaxFeePerGas] == gas.maxFeePerGas
      && op[MaxPriorityFeePerGas] == gas.maxPriorityFeePerGas
      && op[PaymasterData] == paymaster
      && op[Paymaster] == rt.constants.paymasterAddress
      && op[CallGasLimit] == rt.codec.toHex(rt.constants.callGasLimit)
      && op[VerificationGasLimit] == rt.codec.toHex(rt.constants.verificationGasLimit)
      && op[PreVerificationGas] == rt.codec.toHex(rt.constants.preVerificationGas)
      && op[PaymasterPostOpGasLimit] == rt.codec.toHex(rt.constants.paymasterPostOpGasLimit)
      && op[PaymasterVerificationGasLimit] == rt.codec.toHex(rt.constants.paymasterVerificationGasLimit)
      && op[Signature] == UserOpSignature(op - {Signature}, config.sessionPrivKey, rt.signing)
  {
    var userOp := UnsignedOp(config, callData, gas, paymaster, rt);
    assert Signature !in userOp;
    assert userOp - {Signature} == userOp;
  }

  /** The op the pipeline submits is the signed assembly of the chain it selected,
      the gas prices it was quoted and the paymaster data it generated. */
  lemma SubmittedUserOp(data: IntentData, config: SessionConfig, authToken: string, rt: Runtime)
    requires TransferTokenIntent(data, config, authToken, rt).submitted.Some?
    ensures rt.services.getChains(authToken).Success?
    ensures SelectChain(rt.services.getChains(authToken).value, data.caip2Id).Success?
    ensures GasPricesUsable(GetUserOperationGasPrice(rt.services.getGasValues(authToken).value))
    ensures rt.services.paymasterData(rt.nonceUuid, ValidUntil(rt)).Success?
    ensures var op := TransferTokenIntent(data, config, authToken, rt).submitted.value;
      var chain := SelectChain(rt.services.getChains(authToken).value, data.caip2Id).value;
      var gas := GetUserOperationGasPrice(rt.services.getGasValues(authToken).value).value;
      var call := IntentCall(data, config, rt.clientSWA, chain, rt.nonceUuid, rt.constants, rt.codec);
      && op.Keys == UserOpFields + {Signature}
      && op[Sender] == config.userSWA
      && op[Nonce] == call.nonce
      && rt.codec.encodeCallData(call) == Success(op[CallData])
      && op[MaxFeePerGas] == gas.maxFeePerGas
      && op[MaxPriorityFeePerGas] == gas.maxPriorityFeePerGas
      && op[PaymasterData] == rt.services.paymasterData(rt.nonceUuid, ValidUntil(rt)).value
      && op[Paymaster] == rt.constants.paymasterAddress
      && op[CallGasLimit] == rt.codec.toHex(rt.constants.callGasLimit)
      && op[VerificationGasLimit] == rt.codec.toHex(rt.constants.verificationGasLimit)
      && op[PreVerificationGas] == rt.codec.toHex(rt.constants.preVerificationGas)
      && op[PaymasterPostOpGasLimit] == rt.codec.toHex(rt.constants.paymasterPostOpGasLimit)
      && op[PaymasterVerificationGasLimit] == rt.codec.toHex(rt.constants.paymasterVerificationGasLimit)
      && op[Signature] == UserOpSignature(op - {Signature}, config.sessionPrivKey, rt.signing)
  {
    SubmittedIsSignedAssembly(data, config, authToken, rt);
    var chain := SelectChain(rt.services.getChains(authToken).value, data.caip2Id).value;
    var call := IntentCall(data, config, rt.clientSWA, chain, rt.nonceUuid, rt.constants, rt.codec);
    var gas := GetUserOperationGasPrice(rt.services.getGasValues(authToken).value).value;
    var paymaster := rt.services.paymasterData(rt.nonceUuid, ValidUntil(rt)).value;
    SignedAssembly(config, rt.codec.encodeCallData(call).value, gas, paymaster, rt);
  }

  /** The job id the pipeline returns is the gateway's answer for the op it
      submitted, and any job id comes from a submission. */
  lemma JobIdFromGateway(data: IntentData, config: SessionConfig, authToken: string, rt: Runtime)
    ensures var r := TransferTokenIntent(data, config, authToken, rt);
      && (r.result.Success? ==> r.submitted.Some?)
      && (r.submitted.Some? ==> r.result == ExecuteUserOp(r.submitted.value, authToken, rt.requestId, rt.services.postRpc))
  {
  }

  /* ------------------------------------------------------------ the route */

  /** The JSON body of the request; `caip2Id` and `token` are read by nobody. */
  datatype TransferRequest = TransferRequest(
    caip2Id: string, recipient: string, token: string, amount: real, sessionConfig: Option<SessionConfig>)

  /** The route's responses: 200 with the job id and the terminal status, an error
      body with its status, the 500 catch-all (whose body also says
      `success: false`), or none yet while polling goes on. */
  datatype TransferResponse =
    | Accepted(jobId: string, txnDetails: string)
    | Rejected(status: int, error: string)
    | Crashed(error: string)
    | StillPolling

  const AuthRequiredMessage := "Authorization token required"
  const MissingSwaMessage := "Missing NEXT_PUBLIC_OKTO_SWA environment variable"
  const InvalidParametersMessage := "Invalid request parameters"
  const InsufficientFundsReply := "Insufficient funds for gas fees. Please ensure your wallet has enough ETH for transaction fees."
  const UnsupportedNetworkReply := "Unsupported blockchain network"
  const InvalidSessionReply := "Invalid session configuration"

  /** The bearer token of an `Authorization` header: the header without its first
      seven characters, when it starts with "Bearer ". */
  function BearerToken(authorization: Option<string>): (r: Option<string>)
    ensures r.Some? <==> authorization.Some? && StartsWith(authorization.value, BearerPrefix)
    ensures r.Some? ==> authorization.value == BearerPrefix + r.value
  {
    if authorization.Some? && authorization.value != "" && StartsWith(authorization.value, BearerPrefix)
    then Some(authorization.value[7..])
    else None
  }

  /** The `catch` of `POST`: the first of three message patterns decides a 400,
      anything else is a 500 carrying the message. */
  function MapError(e: Exception): (r: TransferResponse)
    ensures r.Rejected? || r == Crashed(e.message)
    ensures r.Rejected? <==> (Contains(e.message, "insufficient funds") ||
                              (Contains(e.message, "Chain") && Contains(e.message, "not supported")) ||
                              Contains(e.message, "Invalid session"))
    ensures r.Rejected? ==> r.status == 400
    ensures Contains(e.message, "insufficient funds") ==> r == Rejected(400, InsufficientFundsReply)
    ensures (!Contains(e.message, "insufficient funds") && Contains(e.message, "Chain") &&
             Contains(e.message, "not supported")) ==> r == Rejected(400, UnsupportedNetworkReply)
    ensures (!Contains(e.message, "insufficient funds") &&
             !(Contains(e.message, "Chain") && Contains(e.message, "not supported")) &&
             Contains(e.message, "Invalid session")) ==> r == Rejected(400, InvalidSessionReply)
  {
    var m := e.message;
    if Contains(m, "insufficient funds") then Rejected(400, InsufficientFundsReply)
    else if Contains(m, "Chain") && Contains(m, "not supported") then Rejected(400, UnsupportedNetworkReply)
    else if Contains(m, "Invalid session") then Rejected(400, InvalidSessionReply)
    else Crashed(m)
  }

  /** An unsupported chain always becomes a 400, and it is reported as an
      unsupported network unless some chain id contains "insufficient funds". */
  lemma UnsupportedChainIsBadRequest(caip2Id: string, chains: seq<ChainRecord>)
    ensures var m := UnsupportedChainMessage(caip2Id, chains);
      MapError(Error(m)).Rejected? && MapError(Error(m)).status == 400 &&
      (!Contains(m, "insufficient funds") ==> MapError(Error(m)) == Rejected(400, UnsupportedNetworkReply))
  {
    UnsupportedChainMessageNamesChains(caip2Id, chains);
  }

  /** What the checks before the pipeline decide. */
  datatype Admission =
    | Refuse(response: TransferResponse)
    | Admit(authToken: string, intent: IntentData, config: SessionConfig)

  /** The checks of `POST` before `transferTokenIntent`, in source order: bearer
      header, body parse, the `NEXT_PUBLIC_OKTO_SWA` variable, request fields. */
  function CheckRequest(authorization: Option<string>, body: Result<TransferRequest, Exception>, clientSWA: string): (a: Admission)
    ensures BearerToken(authorization).None? ==> a == Refuse(Rejected(401, AuthRequiredMessage))
    ensures a.Admit? ==> a.authToken == authorization.value[7..] && clientSWA != ""
    ensures a.Admit? ==> body.Success? && a.intent == IntentData(BaseChainId, body.value.recipient, NativeToken, body.value.amount)
    ensures a.Admit? ==> body.Success? && body.value.sessionConfig == Some(a.config)
    ensures BearerToken(authorization).Some? && body.Failure? ==> a == Refuse(MapError(body.error))
    ensures BearerToken(authorization).Some? && body.Success? && clientSWA == "" ==>
              a == Refuse(Rejected(500, MissingSwaMessage))
    ensures BearerToken(authorization).Some? && body.Success? && clientSWA != "" &&
            (body.value.recipient == "" || body.value.amount < 0.0 || body.value.sessionConfig.None?) ==>
              a == Refuse(Rejected(400, InvalidParametersMessage))
    ensures a.Admit? <==> BearerToken(authorization).Some? && body.Success? && clientSWA != "" &&
                          body.value.recipient != "" && body.value.amount >= 0.0 && body.value.sessionConfig.Some?
  {
    match BearerToken(authorization)
    case None => Refuse(Rejected(401, AuthRequiredMessage))
    case Some(token) =>
      match body
      case Failure(e) => Refuse(MapError(e))
      case Success(req) =>
        var caip2Id := BaseChainId;
        if clientSWA == "" then Refuse(Rejected(500, MissingSwaMessage))
        else if caip2Id == "" || req.recipient == "" || req.amount < 0.0 || req.sessionConfig.None? then
          Refuse(Rejected(400, InvalidParametersMessage))
        else
          Admit(token, IntentData(caip2Id, req.recipient, NativeToken, req.amount), req.sessionConfig.value)
  }

  /** `reply` is what the route answers once the job `jobId` has been polled
      through `obs`: 200 with the terminal status, the polling failure through
      `MapError`, or nothing yet while polling goes on. */
  predicate PollReply(obs: seq<OrderHistory.Observation>, jobId: string, reply: TransferResponse) {
    || (reply.Accepted? && reply.jobId == jobId && reply.txnDetails in OrderHistory.FinalStatuses &&
        exists q: nat :: q <= |obs| && OrderHistory.IsPollRun(obs, OrderHistory.Terminal(reply.txnDetails), q))
    || (reply == MapError(Error(OrderHistory.PollingFailedMessage)) &&
        exists q: nat :: q <= |obs| && OrderHistory.IsPollRun(obs, OrderHistory.PollingFailed, q))
    || (reply == StillPolling && OrderHistory.IsPollRun(obs, OrderHistory.StillPolling, |obs|))
  }

  /** A failed poll is a 500 carrying "Polling failed". */
  lemma PollingFailedIsServerError()
    ensures MapError(Error(OrderHistory.PollingFailedMessage)) == Crashed(OrderHistory.PollingFailedMessage)
  {
    PollingFailedLacksFunds();
    PollingFailedLacksSession();
    PollingFailedLacksChain();
    MapErrorOther(OrderHistory.PollingFailedMessage);
  }

  lemma PollingFailedLacksFunds()
    ensures !Contains(OrderHistory.PollingFailedMessage, "insufficient funds")
  {
    ContainsIsLonger(OrderHistory.PollingFailedMessage, "insufficient funds");
  }

  lemma PollingFailedLacksSession()
    ensures !Contains(OrderHistory.PollingFailedMessage, "Invalid session")
  {
    ContainsIsLonger(OrderHistory.PollingFailedMessage, "Invalid session");
  }

  lemma PollingFailedLacksChain()
    ensures !Contains(OrderHistory.PollingFailedMessage, "Chain")
  {
    var m := OrderHistory.PollingFailedMessage;
    assert forall i :: 0 <= i < |m| ==> m[i] != 'C';
    ContainsFirstChar(m, "Chain");
  }

  /** A message that matches none of the three patterns is a 500 carrying it. */
  lemma MapErrorOther(m: string)
    requires !Contains(m, "insufficient funds") && !Contains(m, "Chain") && !Contains(m, "Invalid session")
    ensures MapError(Error(m)) == Crashed(m)
  {
  }

  /** `POST`: the checks, the pipeline, then polling the job with the default
      interval; every failure goes through `MapError`. */
  method Post(authorization: Option<string>, body: Result<TransferRequest, Exception>, rt: Runtime)
    returns (reply: TransferResponse)
    ensures var a := CheckRequest(authorization, body, rt.clientSWA);
      && (a.Refuse? ==> reply == a.response)
      && (a.Admit? ==>
            var o := TransferTokenIntent(a.intent, a.config, a.authToken, rt);
            && (o.result.Failure? ==> reply == MapError(o.result.error))
            && (o.result.Success? ==>
                  PollReply(rt.services.orderObservations(o.result.value), o.result.value, reply)))
  {
    var a := CheckRequest(authorization, body, rt.clientSWA);
    if a.Refuse? {
      return a.response;
    }
    var o := TransferTokenIntent(a.intent, a.config, a.authToken, rt);
    if o.result.Failure? {
      return MapError(o.result.error);
    }
    var jobId := o.result.value;
    var obs := rt.services.orderObservations(jobId);
    var outcome, queries, _ := OrderHistory.GetOrderHistory(obs, OrderHistory.DefaultIntervalMs);
    match outcome
    case Terminal(status) =>
      reply := Accepted(jobId, status);
    case PollingFailed =>
      reply := MapError(Error(OrderHistory.PollingFailedMessage));
    case StillPolling =>
      reply := StillPolling;
  }
}
