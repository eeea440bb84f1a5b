# okto-api-demo: token-transfer intents and Okto session authorization, in Dafny

This project models the server side of the okto-api-demo Next.js app. That is the
code that turns a browser request into an Okto user operation, and the code that
opens an Okto session.

- `transfer-token-intent` route (`transfer_intent.dfy`, module `TransferIntent`).
  - It checks the bearer header, the body, the `NEXT_PUBLIC_OKTO_SWA` variable and the request fields.
  - It selects the chain from the registry, comparing ids case-insensitively.
  - It encodes the call data and checks the gas quote before the paymaster, signing and submission steps.
  - It generates the paymaster data, assembles the user operation, signs it and validates it.
  - It submits the operation, polls for the job's status and maps errors to HTTP statuses.
- `invokeExecuteUserOp` (`invoke_execute.dfy`, module `InvokeExecute`).
  - Signing the operation in place.
  - The JSON-RPC `execute` call, and how its failures are classified.
  - The gas-price pass-through.
- `getOrderHistory` (`order_history.dfy`, module `OrderHistory`). The polling
  loop runs over a finite sequence of query observations.
- `okto-auth` route (`okto_auth.dfy`, module `OktoAuth`).
  - The three request body shapes.
  - The authenticate payload, built member by member in place.
  - The status handling and the `GET` refusal.
- `common.dfy` (module `Common`) holds the JavaScript built-ins the code relies on:
  `includes`, `startsWith`, `join`, `toLowerCase` on ASCII and `filter`, plus the first-match search behind `chains.find` and behind the first throw of `hexFields.forEach`.

Every collaborator the source awaits is a function-valued parameter: the chain
registry, the gas-values endpoint, the paymaster-data helper, the gateway post,
the order queries, `invokeAuthenticate` and `getAuthorizationToken`. So are the
cryptographic and encoding steps: packing, hashing, signing, keccak, ABI
encoding, `toHex` and `nonceToBigInt`. The uuids, the clock, the environment
variables and the key pair `SessionKey.create` makes (`AuthEnv.session`) are
plain parameters. A JavaScript value that is `undefined`, `null`
or empty is the empty string. Almost every place the code reads such a value it
only tests its truthiness. The one exception is a registry record without a
`caip_id`, listed under "## Left out".

The signing code declares `sessionPubkey` (lower-case k). The auth route builds
`sessionPubKey` (upper-case K). The model keeps both spellings as two datatypes,
`InvokeExecute.SessionConfig` and `OktoAuth.AuthSessionConfig`.
`OktoAuth.PubKeyMismatchDoesNotAffectSigning` shows that the mismatch never
reaches a signature.

## Model

| member | source | states |
|---|---|---|
| InvokeExecute.Signed | src/utils/invokeExecuteUserOp.ts:29-41 | the signed op has a signature over the pack-hash-sign of the op as it was; every other property is unchanged |
| InvokeExecute.SignUserOp | src/utils/invokeExecuteUserOp.ts:29-41 | signing sets only the `signature` of the same object, in place, and returns that object |
| InvokeExecute.ClassifyFailure | src/utils/invokeExecuteUserOp.ts:104-117 | precedence of the catch: a response error payload gives a gateway error; otherwise 400 gives Bad Request and 401 gives Unauthorized; any other error, and every error without a response, is rethrown unchanged |
| InvokeExecute.ExecuteUserOp | src/utils/invokeExecuteUserOp.ts:56-119 | posts `{jsonrpc "2.0", method "execute", id, params [op]}`; succeeds exactly when the reply has no error and has a result, and then returns the job id; an error payload becomes "Okto Gateway Error: …"; a thrown error goes through the classification |
| InvokeExecute.GetUserOperationGasPrice | src/utils/invokeExecuteUserOp.ts:121-135 | the quote is present exactly when the body and its `data` are, and it is returned unchecked |
| OrderHistory.ObservedStatus | src/utils/getOrderHistory.ts:32-33 | the observed status is exactly the first item's status when the list is present and non-empty, and absent otherwise |
| OrderHistory.GetOrderHistory | src/utils/getOrderHistory.ts:9-49 | the run stops at the first terminal status or the first failed query, with a status from `FINAL_STATUSES`; every earlier answer was non-terminal; it waits `intervalMs` after every non-terminal answer, never after a terminal answer or a failed query |
| OrderHistory.PollRunUnique | src/utils/getOrderHistory.ts:15-48 | the loop is deterministic: one sequence of answers admits one outcome and one query count |
| OrderHistory.MissingItemsKeepPolling | src/utils/getOrderHistory.ts:32-37 | an answer without items, or with an empty list, is not terminal |
| OrderHistory.ThreeQueryScenario | src/utils/getOrderHistory.ts:15-43 | PENDING, PENDING, BUNDLER_DISCARDED ends with BUNDLER_DISCARDED after exactly three queries |
| TransferIntent.SelectChain | src/app/api/transfer-token-intent/route.ts:161-167 | succeeds exactly when some chain id matches case-insensitively; the first match is taken, with its flags defaulted to false; no match is the unsupported-chain error naming every id on offer |
| TransferIntent.SelectChainIgnoresCase | src/app/api/transfer-token-intent/route.ts:161-163 | asking for the lower-cased id selects the same chain |
| TransferIntent.UnsupportedChainMessageNamesChains | src/app/api/transfer-token-intent/route.ts:166 | the error message contains "Chain", "not supported", the requested id and every registry id |
| TransferIntent.IntentCallArguments | src/app/api/transfer-token-intent/route.ts:184-226 | the call data's arguments: the first matching registry record's flags, absent ones false; the op's nonce; the client and user accounts; the fixed fee payer; an empty GSN requirement; the transfer as requested; the selector, job manager, value, function name and intent type from the constants |
| TransferIntent.AssembleUserOp | src/app/api/transfer-token-intent/route.ts:252-265 | the assembled op sets exactly the twelve properties of the literal, and no signature (their values, once signed, are stated by `SignedAssembly`) |
| TransferIntent.ValidateUserOp | src/app/api/transfer-token-intent/route.ts:293-313 | passes exactly when every required field is truthy and every truthy hex field starts with `0x`; missing fields are reported first, all together; otherwise the first non-hex field in declaration order is reported with its value |
| TransferIntent.WellFormedOpIsHex | src/app/api/transfer-token-intent/route.ts:305-310 | an op that passes validation carries every hex field, and each starts with `0x` |
| TransferIntent.MissingFieldsReported | src/app/api/transfer-token-intent/route.ts:294-302 | the missing-fields message names every missing required field, in declaration order |
| TransferIntent.SignAndSubmit | src/app/api/transfer-token-intent/route.ts:275-289 | the signed op that fails validation is never submitted and the run fails at signing; one that passes is submitted, and the result is the gateway's answer for exactly that op |
| TransferIntent.RejectedOpError | src/app/api/transfer-token-intent/route.ts:281-283 | a signed op that fails validation ends the run with exactly the error validation throws for it, at the signing step, with nothing submitted |
| TransferIntent.GasAndPaymaster | src/app/api/transfer-token-intent/route.ts:230-249 | a failed gas request gives its error; an absent quote gives the TypeError; an empty price gives "Failed to get valid gas prices"; only a usable quote leads to the paymaster request, whose error or falsy result ("Failed to generate paymaster data") ends the run; truthy paymaster data goes on to signing |
| TransferIntent.PaymasterAndSign | src/app/api/transfer-token-intent/route.ts:239-249 | past the gas gate, a failed paymaster request ends the run with its error and a falsy answer with "Failed to generate paymaster data", both at the paymaster step; truthy paymaster data goes on to signing with exactly that data |
| TransferIntent.TransferTokenIntent | src/app/api/transfer-token-intent/route.ts:136-290 | a failing registry gives its error; encoding happens only for a selected chain, and its error ends the run before the gas request; only a validated op is submitted; the result of a submission is the gateway's answer for that op |
| TransferIntent.UnsupportedChainStopsPipeline | src/app/api/transfer-token-intent/route.ts:161-167 | an unknown chain fails at once with the unsupported-chain error; nothing is encoded, requested, signed or submitted |
| TransferIntent.EncodingFailsBeforeGas | src/app/api/transfer-token-intent/route.ts:184-231 | an encoder error is the result whatever the gas endpoint would answer, since encoding comes first |
| TransferIntent.GasCheckFailsFast | src/app/api/transfer-token-intent/route.ts:231-237 | without both gas prices the result is the gas error, or the TypeError when there is no quote; the outcome does not change whatever the paymaster helper, the gateway and the signer would do |
| TransferIntent.JobIdFromGateway | src/app/api/transfer-token-intent/route.ts:283-289 | a job id comes only from a submission, and it is the gateway's answer for the submitted op |
| TransferIntent.SubmittedIsSignedAssembly | src/app/api/transfer-token-intent/route.ts:184-286 | the submitted op is the signed assembly of the encoded call data, the quoted gas prices and the generated paymaster data |
| TransferIntent.SignedAssembly | src/app/api/transfer-token-intent/route.ts:252-277 | a signed assembled op is sent from the user's account; it carries the encoded nonce, the call data, the gas prices as quoted and the paymaster data as generated; its paymaster is the sandbox paymaster address and its five gas limits are `toHex` of the preset limits; its signature covers the op without the signature |
| TransferIntent.SubmittedUserOp | src/app/api/transfer-token-intent/route.ts:184-286 | the op actually submitted has exactly the literal's properties plus a signature; its nonce is the call's nonce; its call data is the encoding of the call; its gas prices and paymaster data are the ones received; its paymaster address and gas limits are the preset ones; its signature is as above |
| TransferIntent.BearerToken | src/app/api/transfer-token-intent/route.ts:36-49 | a token exists exactly when the header starts with "Bearer "; the header is that prefix followed by the token |
| TransferIntent.MapError | src/app/api/transfer-token-intent/route.ts:101-133 | a 400 exactly when one of the three patterns matches; insufficient funds wins, then "Chain" with "not supported" gives the network reply, then "Invalid session" gives the session reply; every other error is a 500 carrying its message |
| TransferIntent.UnsupportedChainIsBadRequest | src/app/api/transfer-token-intent/route.ts:112-117 | an unsupported chain is always a 400; it is reported as an unsupported network unless its message also contains "insufficient funds" |
| TransferIntent.PollingFailedIsServerError | src/app/api/transfer-token-intent/route.ts:126-132 | a polling failure becomes a 500 with "Polling failed" |
| TransferIntent.CheckRequest | src/app/api/transfer-token-intent/route.ts:36-70 | the checks run in source order with their replies. A missing or non-bearer header is 401. An unreadable body goes through the error mapping. A missing client SWA is 500. An empty recipient, a negative amount or a missing session is 400. Otherwise the request is admitted with the body's session, the Base chain and the native token |
| TransferIntent.Post | src/app/api/transfer-token-intent/route.ts:34-134 | a refused request gets the check's reply; a pipeline failure goes through the error mapping; a job id is polled, and the reply is the terminal status, the polling failure, or nothing while polling goes on |
| OktoAuth.ExtractCredentials | src/app/api/okto-auth/route.ts:79-95 | `extra_params` wins; then `idToken` and `provider` when both are truthy; then `auth_token` with the provider defaulting to "okto"; no shape gives none; only `extra_params` can yield empty credentials |
| OktoAuth.ExtraParamsTakePrecedence | src/app/api/okto-auth/route.ts:80-82 | with `extra_params` present, the top-level members never matter |
| OktoAuth.AuthPayloadFor | src/app/api/okto-auth/route.ts:21-69 | the payload exists exactly when the paymaster data does; one nonce serves the session data and the paymaster data; `sessionPk` is the session public key; both fees are 0xBA43B7400; the client key and the session key sign the same digest of the session address |
| OktoAuth.GenerateAuthPayload | src/app/api/okto-auth/route.ts:21-69 | the payload built member by member in fresh objects equals that specification, or the method fails with its error |
| OktoAuth.ErrorText | src/app/api/okto-auth/route.ts:159-164 | the reported message is the error's own when it is non-empty, and otherwise "An error occurred while fetching the Okto token" |
| OktoAuth.Post | src/app/api/okto-auth/route.ts:71-166 | an unreadable body is 500; no shape is 400; empty credentials are 400; a thrown error is 500 with its message; status 200 returns the token and a session of the session key's private and public keys and the returned `userSWA`; any other status is refused with that status |
| OktoAuth.Get | src/app/api/okto-auth/route.ts:169-174 | GET is refused with 405 |
| OktoAuth.AsSigningConfig | src/app/api/okto-auth/route.ts:133-137 | read with the signing code's field names, the route's session has no `sessionPubkey` but keeps the private key and the account |
| OktoAuth.PubKeyMismatchDoesNotAffectSigning | src/utils/invokeExecuteUserOp.ts:29-41 | signing reads only the private key, so a missing public key changes no signature |

## Left out

- Cryptography and encoding are uninterpreted function parameters. This covers viem's signing, keccak, ABI and function-data encoding and `toHex`, and the helpers `generatePackedUserOp`, `generateUserOpHash`, `nonceToBigInt`, `generatePaymasterData`/`paymasterData`. The model therefore says which inputs each one gets, not what it outputs.
- HTTP, uuids, the clock and the environment are parameters. The model does not cover URLs, headers, timeouts or what the Okto services do.
- A collaborator is a function of its inputs. The model does not cover two identical requests that get different answers.
- `getChains`, `invokeAuthenticate` and `getAuthorizationToken` are not part of this model. Only their results are modelled.
- TransferIntent.Post: polling runs over a finite sequence of answers. When the answers run out, the reply is `StillPolling`; the source would keep polling indefinitely.
- OrderHistory.GetOrderHistory: `delay` is counted in `waitedMs` and does not actually wait.
- The amount is a real number. `BigInt(amount * 1e18)` and its floating-point rounding are inside the call-data encoder, whose failure is modelled but whose conditions are not. A missing or non-numeric `amount`, which `amount < 0` lets through, is not modelled.
- InvokeExecute.SignUserOp: signing never fails in the model. A session configuration whose private key is not a valid key makes the source's `signMessage` throw (a 500 from the route). The model signs any string.
- OktoAuth.AuthPayloadFor: the keccak, ABI encoding and signing steps never fail in the model; only the paymaster helper can.
- TransferIntent.SelectChain: a registry record without `caip_id` simply does not match. In the source, `toLowerCase` of `undefined` throws a TypeError, which becomes a 500.
- `toLowerCase` is modelled for ASCII letters only.
- The catch-all "Unknown error occurred" for thrown non-`Error` values is not modelled. Every failure in the model is an `Error`.
- A gateway `result` that is present but has no `jobId` is not modelled. The source would return `undefined` as the job id.
- An authenticate response without `data.data` is not modelled. Its `userSWA` is "" when absent.
- The texts of the TypeErrors raised by reading a property of `undefined` follow the V8 wording. Other engines word them differently.
- `undefined` and `null` are one absent value in the model. A gas body whose `data` is `null`, or a gateway reply whose `result` is `null`, makes the source throw "Cannot read properties of null (reading 'maxFeePerGas')" or "… (reading 'jobId')"; the model gives the `undefined` wording of `MissingGasPriceMessage` and `MissingResultMessage` instead, so the route's 500 carries a different text.
- `JSON.stringify` of the gateway's error payload is taken as given text.
- Console logging is not modelled.
- Other parts of the app are not part of this model: the `page.tsx` client, the Google and email-OTP auth routes, and `serializeJson`.
