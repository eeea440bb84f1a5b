/** Signing a user operation, submitting it to the execution gateway, and reading
    gas prices (src/utils/invokeExecuteUserOp.ts). */
module InvokeExecute {
  import opened Common

  /** The session descriptor a client supplies to every signing call, with the
      field names this file declares (`sessionPubkey`, lower-case k). */
  datatype SessionConfig = SessionConfig(sessionPrivKey: string, sessionPubkey: string, userSWA: string)

  /** The properties a user operation object can carry. */
  datatype Field =
    | Sender | Nonce | Paymaster | CallGasLimit | VerificationGasLimit | PreVerificationGas
    | MaxFeePerGas | MaxPriorityFeePerGas | PaymasterPostOpGasLimit | PaymasterVerificationGasLimit
    | CallData | PaymasterData | Signature
  {
    /** The JavaScript property name. */
    function Name(): string {
      match this
      case Sender => "sender"
      case Nonce => "nonce"
      case Paymaster => "paymaster"
      case CallGasLimit => "callGasLimit"
      case VerificationGasLimit => "verificationGasLimit"
      case PreVerificationGas => "preVerificationGas"
      case MaxFeePerGas => "maxFeePerGas"
      case MaxPriorityFeePerGas => "maxPriorityFeePerGas"
      case PaymasterPostOpGasLimit => "paymasterPostOpGasLimit"
      case PaymasterVerificationGasLimit => "paymasterVerificationGasLimit"
      case CallData => "callData"
      case PaymasterData => "paymasterData"
      case Signature => "signature"
    }
  }

  /** A user operation is a plain JavaScript object: property to value. */
  type UserOp = map<Field, string>

  /** The library steps signing is built from; they are not part of this model.
      `packUserOp` is generatePackedUserOp, `userOpHash` is generateUserOpHash, and
      `signMessage(hash, key)` signs the raw bytes of `hash` with `key`. */
  datatype Signing = Signing(
    packUserOp: UserOp -> string,
    userOpHash: string -> string,
    signMessage: (string, string) -> string)

  /** The signature `signUserOp` computes over an op: pack, hash, sign. */
  function UserOpSignature(op: UserOp, privKey: string, s: Signing): string {
    s.signMessage(s.userOpHash(s.packUserOp(op)), privKey)
  }

  /** The op `signUserOp` leaves behind: the same object with only its signature
      set, where the signature covers the op as it was before signing. */
  function Signed(op: UserOp, config: SessionConfig, s: Signing): (r: UserOp)
    ensures Signature in r
    ensures r[Signature] == UserOpSignature(op, config.sessionPrivKey, s)
    ensures r - {Signature} == op - {Signature}
  {
    op[Signature := UserOpSignature(op, config.sessionPrivKey, s)]
  }

  /** The JavaScript object a user operation lives in while it is signed. */
  class UserOpObject {
    var fields: UserOp

    constructor (fields: UserOp)
      ensures this.fields == fields
    {
      this.fields := fields;
    }
  }

  /** `signUserOp`: packs and hashes the op, signs the hash with the session
      private key, stores the signature on the op in place and returns that same
      object. */
  method SignUserOp(userop: UserOpObject, config: SessionConfig, s: Signing) returns (r: UserOpObject)
    modifies userop
    ensures r == userop
    ensures userop.fields == Signed(old(userop.fields), config, s)
  {
    var privateKey := config.sessionPrivKey;
    var packed := s.packUserOp(userop.fields);
    var hash := s.userOpHash(packed);
    var sig := s.signMessage(hash, privateKey);
    userop.fields := userop.fields[Signature := sig];
    r := userop;
  }

  /** The JSON-RPC request `executeUserOp` posts (`rpcMethod` is its `method` member). */
  datatype RpcRequest = RpcRequest(jsonrpc: string, rpcMethod: string, id: string, params: seq<UserOp>)

  /** The gateway's reply body: the `error` member as JSON text when it is truthy,
      and `result.jobId` when `result` is present. */
  datatype RpcReply = RpcReply(error: Option<string>, result: Option<string>)

  /** What posting the request comes to: a 2xx reply, or an error thrown by the
      HTTP client (which, for an error status, carries the response). */
  datatype PostOutcome = Responded(data: RpcReply) | Threw(error: Exception)

  /** The HTTP call itself, given the request body and the bearer token. */
  type RpcPost = (RpcRequest, string) -> PostOutcome

  function GatewayErrorMessage(payload: string): string {
    "Okto Gateway Error: " + payload
  }

  const BadRequestMessage := "Bad Request: Please check UserOp structure and parameters"
  const UnauthorizedMessage := "Unauthorized: Invalid or expired authentication token"

  /** The message of the TypeError raised by reading `jobId` of a missing `result`. */
  const MissingResultMessage := "Cannot read properties of undefined (reading 'jobId')"

  /** The `catch` of `executeUserOp`: an error payload in the response wins, then
      status 400, then status 401; any other error is rethrown as it is. */
  function ClassifyFailure(e: Exception): (r: Exception)
    ensures r == e || r.response.None?
    ensures e.response.None? ==> r == e
    ensures e.response.Some? && e.response.value.bodyError.Some? ==>
              r == Error(GatewayErrorMessage(e.response.value.bodyError.value))
    ensures e.response.Some? && e.response.value.bodyError.None? ==>
              r == (if e.response.value.status == 400 then Error(BadRequestMessage)
                    else if e.response.value.status == 401 then Error(UnauthorizedMessage)
                    else e)
  {
    match e.response
    case Some(resp) =>
      if resp.bodyError.Some? then Error(GatewayErrorMessage(resp.bodyError.value))
      else if resp.status == 400 then Error(BadRequestMessage)
      else if resp.status == 401 then Error(UnauthorizedMessage)
      else e
    case None => e
  }

  /** The `try` block of `executeUserOp`. */
  function TryExecute(userOp: UserOp, authToken: string, requestId: string, post: RpcPost): Result<string, Exception> {
    var requestBody := RpcRequest("2.0", "execute", requestId, [userOp]);
    match post(requestBody, authToken)
    case Threw(e) => Failure(e)
    case Responded(data) =>
      if data.error.Some? then Failure(Error(GatewayErrorMessage(data.error.value)))
      else if data.result.None? then Failure(Error(MissingResultMessage))
      else Success(data.result.value)
  }

  /** `executeUserOp`: posts `{jsonrpc: "2.0", method: "execute", id, params: [userOp]}`
      and returns `result.jobId`; every failure goes through the `catch`. */
  function ExecuteUserOp(userOp: UserOp, authToken: string, requestId: string, post: RpcPost): (r: Result<string, Exception>)
    ensures var out := post(RpcRequest("2.0", "execute", requestId, [userOp]), authToken);
      && (r.Success? <==> out.Responded? && out.data.error.None? && out.data.result.Some?)
      && (r.Success? ==> r.value == out.data.result.value)
      && (out.Responded? && out.data.error.Some? ==>
            r == Failure(Error(GatewayErrorMessage(out.data.error.value))))
      && (out.Responded? && out.data.error.None? && out.data.result.None? ==>
            r == Failure(Error(MissingResultMessage)))
      && (out.Threw? ==> r == Failure(ClassifyFailure(out.error)))
  {
    match TryExecute(userOp, authToken, requestId, post)
    case Success(jobId) => Success(jobId)
    case Failure(e) => Failure(ClassifyFailure(e))
  }

  /** The gas values an Okto response carries; "" stands for a missing field. */
  datatype GasQuote = GasQuote(maxFeePerGas: string, maxPriorityFeePerGas: string)

  /** The body of the gas-values response: its `data` member, when present. */
  datatype GasValuesBody = GasValuesBody(data: Option<GasQuote>)

  /** `getUserOperationGasPrice`: `response.data?.data`, unchecked. */
  function GetUserOperationGasPrice(body: Option<GasValuesBody>): (r: Option<GasQuote>)
    ensures r.Some? <==> body.Some? && body.value.data.Some?
    ensures r.Some? ==> r.value == body.value.data.value
  {
    match body
    case None => None
    case Some(b) => b.data
  }
}
