# Balance-gated debit workflow of the Paga payment backend

This project models the decision logic of a small HTTP backend. The backend
forwards airtime, data and merchant payments to the Paga provider. It checks
a cached balance in a document store before each debit and records the
outcome. The model has three parts:

- **Request signing** (`Signing`, `Provider`). The `hash` header is the
  SHA-512 hex digest (FIPS 180-4, section 6.4) of the request fields,
  concatenated with no separator, followed by the shared key. Each provider
  operation has a fixed field list. The digest is a parameter `sha512`; the
  model states facts about the preimage.
- **The store and the two debit workflows** (`Ledger`, `PagaService`). The
  store holds the `userInfo` account documents and the transaction-log
  collections. `merchantPayment` and `airtimePurchase` run these steps in
  order: validate, look up the account, refuse a short balance, call the
  provider, then either settle (debit plus one `success` record) or decline
  (one `failed` record, balance unchanged). Each workflow is specified by a
  function from the store's value to a `Step`: the result, the new store
  value, and the request sent to the provider (None when no call was made).
  The `Store` methods run the same steps in place and are proved to produce
  that step. The lemmas state "no debit without code 0", "no provider call
  and no write when the user is unknown or the balance is short", and
  "exactly one record per reply".
- **Route guards and account creation** (`PagaRoute`,
  `CreateUserController`). The guards return 400, 403 or 500, or forward to
  the service. `createUser` rejects a duplicate `userID` with 409 and
  otherwise appends one account document. The proofs show it keeps user ids
  unique.

The provider, the identity provider and the token verifier are oracles. The
provider is a function from the request sent to a reply or a thrown error.
The identity provider is a function from the sign-up fields to a uid or an
error. The uid decoded from the access token is an input (None when
verification throws). The fresh reference number (`uuidv4()`) is also an
input.

Notes on the model:

- The `userInfo` collection is a sequence of documents. The query by
  `userID` returns the first match (`FindUser`). `createUser` never lets two
  documents share an id, and `FindUserUnique` shows that the first match is
  then the only one.
- Swapping two distinct fields of equal length changes the preimage
  (`SwapChangesPreimage`). Without a separator, though, the preimage does not
  determine the fields: `["x","xx"]` and `["xx","x"]` sign the same text
  (`SwapCanCollide`). So "swapping two fields changes the digest" does not
  hold in general.
- `airtimePurchase` and the three list lookups never check that the key is
  configured. JavaScript's `string + undefined` then signs with the literal
  text `undefined` (`KeyText`, `AirtimePreimage`). The other four lookups
  throw at once without a key, and the route answers 500. `merchantPayment`
  also throws at once, but its own `catch` turns that into the
  "Error processing merchant payment" result before any read or write
  (`Errored(MissingHashKey)`).
- In the two debit workflows a provider transport failure does not
  propagate: the `catch` blocks (src/controllers/pagaService.js:280-287,
  500-507) turn it into a `success: false` result with no record and no
  debit (`Errored`). The lookups rethrow it (src/controllers/pagaService.js:34,
  367, 539), and their routes answer 500 (`ServeLookup`).
- Every result carries a `message` text (`Message`). `MerchantPaymentMessages`
  and `AirtimePurchaseMessages` tie each text to the case that produces it.

## Model

| member | source | states |
|---|---|---|
| Common.DecimalRoundTrip | src/controllers/pagaService.js:240 | the amount text written to a record (`amount.toString()`) reads back as the amount |
| Common.DecimalInjective | src/controllers/pagaService.js:181-184 | distinct amounts give distinct amount fields in the preimage and the records |
| Signing.ConcatAppend | src/controllers/pagaService.js:13 | `join("")` of two lists one after the other is the join of the first followed by the join of the second |
| Signing.FieldAt | src/controllers/pagaService.js:11-16 | every field appears unchanged at its own offset in the preimage, in list order |
| Signing.KeyIsSuffix | src/controllers/pagaService.js:13 | the key follows the joined fields and closes the preimage |
| Signing.EmptyFieldsVanish | src/controllers/pagaService.js:13 | trailing empty fields add nothing to the preimage |
| Signing.SwapChangesPreimage | src/controllers/pagaService.js:11-16 | swapping two distinct equal-length fields changes the preimage |
| Signing.SwapCanCollide | src/controllers/pagaService.js:13 | with no separator, two different field orders can sign the same text |
| Signing.SamePreimageSameHash | src/controllers/pagaService.js:11-16 | equal preimages give equal digests, so signing is deterministic |
| Provider.CallLookup | src/controllers/pagaService.js:39-541 | the seven lookups (getMobileOperators, getMobileDataBundle, getBanks, getMerchants at 39-143; getMerchantServices, getMerchantAccountDetails at 291-369; transactionStatus at 511-541): a lookup fails with the missing-key error exactly when it checks the key and the key is unset or empty; otherwise the caller gets the provider's reply to the signed request unchanged, or the error it throws as `ProviderFailed` |
| Provider.PreimageStartsWithReference | src/controllers/pagaService.js:41-517 | every lookup's preimage begins with its reference number (the `generateHash` calls at 41, 70, 98, 123, 297, 335 and 517) |
| Provider.ListLookupsSignReference | src/controllers/pagaService.js:41 | operators, banks and merchants sign `[ref,"",""]`, a preimage of just `ref ++ key`, the same text transactionStatus signs |
| Provider.AccountDetailsMissingCode | src/controllers/pagaService.js:335-343 | a missing or empty product code is signed as an empty field |
| Provider.MerchantPaymentPreimage | src/controllers/pagaService.js:181-184 | merchant payment signs reference, amount, merchant account and merchant reference, then the key |
| Provider.AirtimePreimage | src/controllers/pagaService.js:414-418 | airtime signs reference, amount and phone, then the key, which becomes the text "undefined" when unset |
| Ledger.FindUser | src/controllers/pagaService.js:162-168 | the result is the first document with that userID, and None exactly when no document has it |
| Ledger.FindUserUnique | src/controllers/pagaService.js:163-168 | with unique ids the account found is the only one with that userID |
| Ledger.AddKeepsUnique | src/controllers/createUserController.js:40-50 | appending an account whose id is absent keeps ids unique |
| Ledger.Store.UpdateBalance | src/controllers/pagaService.js:219 | the account's balance field is overwritten; every other account and every log is unchanged |
| Ledger.Store.Add | src/controllers/pagaService.js:256 | one record is appended to the named collection; other collections and the accounts are unchanged |
| Ledger.Store.AddUser | src/controllers/createUserController.js:50 | one account document is appended; everything else is unchanged |
| PagaService.BillCollectionCases | src/controllers/pagaService.js:222-235 | sportybet, electricity and cable each get their own collection; any other tag, or none, gets genericTransactions; never failedTransactions |
| PagaService.AirtimeCollectionCases | src/controllers/pagaService.js:456-458 | data purchases go to buyDataNotifications and airtime purchases to buyAirtimeNotifications |
| PagaService.MerchantPayment | src/controllers/pagaService.js:145-288 | the result, the new store and the request sent are exactly the merchant payment step of the old store |
| PagaService.MerchantPaymentGate | src/controllers/pagaService.js:157-178 | the provider is called exactly when the key is set, the user exists and the balance covers the amount; otherwise nothing is written and the result is not a success; a missing key fails before the lookup, an unknown user gives UserNotFound, and a short balance gives InsufficientBalance |
| PagaService.MerchantPaymentNoDebitWithoutConfirmation | src/controllers/pagaService.js:206-287 | an account changes only after the provider replied with code 0; a thrown provider error gives a failure result and changes nothing |
| PagaService.MerchantPaymentSettles | src/controllers/pagaService.js:214-263 | on code 0: updatedBalance is balance minus amount and non-negative; only the caller's account changes; one success record goes to the bill type's collection, carrying merchantService exactly when it is truthy |
| PagaService.MerchantPaymentDeclines | src/controllers/pagaService.js:264-279 | on any other code: accounts unchanged; one failed record, without merchantService, goes to failedTransactions |
| PagaService.MerchantScenarioDeclined | src/controllers/pagaService.js:264-279 | code 7 for a cable payment: failure result, balance unchanged, one failed record in failedTransactions and none in cableTransactions |
| PagaService.MerchantPaymentMessages | src/controllers/pagaService.js:165-285 | each result's message names its case: user not found with the id, insufficient balance, failed, error processing; only a settled payment reads "Merchant payment successful." |
| PagaService.MerchantPaymentKeepsUserIds | src/controllers/pagaService.js:214-263 | a merchant payment changes no account's userID, so unique ids stay unique |
| PagaService.MerchantScenarioSettles | src/controllers/pagaService.js:214-263 | balance 1000, amount 300, code 0, bill type cable, service dstv: success with 700 left and exactly one success record in cableTransactions carrying amount "300", merchant reference, merchant account, reference, user id, reply and service in their own fields; nothing in failedTransactions |
| PagaService.MerchantRecordAmount | src/controllers/pagaService.js:240 | the record's amount reads back as the amount paid |
| PagaService.AirtimePurchase | src/controllers/pagaService.js:371-508 | the result, the new store and the request sent are exactly the airtime step of the old store |
| PagaService.AirtimePurchaseGate | src/controllers/pagaService.js:380-411 | a falsy reference, amount, phone, operator or user id gives the invalid-input result; the provider is called exactly when inputs, user and balance all pass; otherwise nothing is written and the result is not a success; an unknown user gives UserNotFound and a short balance InsufficientBalance |
| PagaService.AirtimePurchaseNoDebitWithoutConfirmation | src/controllers/pagaService.js:441-507 | an account changes only after a code-0 reply; a thrown provider error changes nothing |
| PagaService.AirtimePurchaseSettles | src/controllers/pagaService.js:449-477 | on code 0: balance minus amount, non-negative; only the caller's account changes; one success record in the data or airtime collection |
| PagaService.AirtimePurchaseDeclines | src/controllers/pagaService.js:478-499 | on any other code: accounts unchanged; one failed record in the same collection a success would use |
| PagaService.AirtimeRetryNotDeduplicated | src/controllers/pagaService.js:478-499 | repeating a declined purchase writes a second, identical failed record |
| PagaService.AirtimeScenarioSettles | src/controllers/pagaService.js:449-477 | balance 1000, amount 300, code 0: success with 700 left and one success record in buyAirtimeNotifications |
| PagaService.AirtimeScenarioInsufficient | src/controllers/pagaService.js:403-411 | balance 100, amount 300: insufficient balance, no provider call, no write |
| PagaService.AirtimePurchaseMessages | src/controllers/pagaService.js:387-505 | each result's message names its case, with data and airtime purchases told apart on success and on failure; only a settled purchase reads "… purchase successful." |
| PagaService.AirtimePurchaseKeepsUserIds | src/controllers/pagaService.js:449-477 | an airtime purchase changes no account's userID, so unique ids stay unique |
| PagaService.AirtimeRecordAmount | src/controllers/pagaService.js:462 | the record's amount reads back as the amount bought |
| PagaRoute.AirtimeRouteDecision | src/routes/pagaRoute.js:50-99 | 400 exactly when a required field is falsy; 500 when the token does not verify; 403 when its uid differs from userId; otherwise forwards the fresh reference and every caller field unchanged (operator id, amount, userId, isDataBundle, service id), with destinationNumber as the phone |
| PagaRoute.AirtimeForwardPassesServiceCheck | src/routes/pagaRoute.js:62-91 | with a non-empty generated reference, a forwarded request always passes the service's own input check |
| PagaRoute.AirtimePurchaseHandler | src/routes/pagaRoute.js:50-99 | a rejected request changes no state and calls no provider; a forwarded one answers with the airtime step's result |
| PagaRoute.MerchantRouteDecision | src/routes/pagaRoute.js:137-199 | with a generated reference, 400 exactly when one of the five caller fields is missing; 500 on a verification failure; 403 on a uid mismatch; otherwise the caller's fields are forwarded unchanged |
| PagaRoute.MerchantPaymentHandler | src/routes/pagaRoute.js:137-199 | a rejected request changes no state and calls no provider; a forwarded one answers with the merchant payment step's result |
| PagaRoute.AccountDetailsRouteDecision | src/routes/pagaRoute.js:202-237 | 400 exactly when merchantAccount or merchantReferenceNumber is missing; no token check; otherwise the lookup gets the caller's fields |
| PagaRoute.TransactionStatusRouteDecision | src/routes/pagaRoute.js:240-267 | 400 exactly without a caller reference; otherwise the reference reaches the provider unchanged, in the body and as the preimage's head |
| PagaRoute.AccountDetailsReply | src/routes/pagaRoute.js:202-237 | 500 exactly when the request passes the guard and the lookup fails, and then the text is "Failed to fetch merchant account details" |
| PagaRoute.TransactionStatusReply | src/routes/pagaRoute.js:240-267 | 500 exactly when the request passes the guard and the lookup fails, and then the text is "Failed to check transaction status" |
| PagaRoute.ServeLookupStatus | src/routes/pagaRoute.js:229-236 | any error the lookup throws becomes 500, including a missing key; otherwise the provider's reply itself is returned with 200 |
| CreateUserController.InitialBalance | src/controllers/createUserController.js:32 | the stored balance is the given initial balance, or 0 without one |
| CreateUserController.CreateUser | src/controllers/createUserController.js:9-64 | the reply, the new store and the identity user created are exactly the sign-up step of the old store |
| CreateUserController.CreateUserOutcomes | src/controllers/createUserController.js:9-64 | 400 exactly when email, password or displayName is missing, then no identity user and no write; 409 exactly for an existing uid, with the identity user already created and nothing written; 201 exactly when the fields are present and the identity uid has no account, appending one document carrying that uid and the initial balance; 500 exactly on an identity failure, writing nothing |
| CreateUserController.CreateUserKeepsIdsUnique | src/controllers/createUserController.js:39-50 | account creation keeps userIDs unique |
| CreateUserController.CreatedUserIsFound | src/controllers/createUserController.js:28-50 | after a 201 the debit workflows' lookup finds the new account, with the initial balance available |

## Left out

- The SHA-512 digest itself is a foreign call, so it is the parameter `sha512`. The model proves facts about the preimage only.
- The HTTP transport (`apiCall`, axios) is network I/O. The provider is an oracle from the request sent to a reply or an error.
- The `principal` and `credentials` values are configuration the model passes through; the fixed `Content-Type` header is not modelled.
- Firestore failures mid-workflow (a failed read, a failed balance update or a failed `add`) are not modelled. So the gap "provider succeeded, local write failed" is not modelled either. Store operations always succeed in the model.
- `serverTimestamp()` on records and `createdAt` on accounts are clock values and are left out.
- Firestore's ordering of query results is not modelled. The model takes the first matching document in insertion order. With unique ids there is only one.
- `admin.auth().verifyIdToken` and `admin.auth().createUser` are external services. They are an input uid and an oracle.
- `loginUser` forwards to the identity service's REST API and has no logic of its own.
- The handlers of `/mobile-operators`, `/banks`, `/merchants`, `/getdatabundle` and `/merchant-services` are not modelled. Their service functions are covered by `CallLookup`.
- src/app.js, src/routes/userRoutes.js and src/middlewares/errorHandler.js are framework wiring and log-file I/O.
- Concurrent debits against one account (the check-then-act race) are left out. The model runs one request at a time.
- JavaScript numeric coercion is not modelled. Amounts and balances are integers, and absent string fields are the empty string.
- Amounts and balances are unbounded integers. JavaScript numbers are doubles, so `userBalance - amount` (src/controllers/pagaService.js:216, 450) is exact only up to 2^53. `toString()` and `join` (182, 240, 416, 462) write exponent notation from 10^21 on (`"1e+21"`). Neither is modelled: `Decimal`, `DecimalRoundTrip` and the balance arithmetic match the source only below those bounds.
- `console.log` / `console.error` are logging only.
- The `error.message` detail in 500 bodies is left out.
- PagaService.MerchantPayment: the source compares `parseInt` of balance and amount, while airtime compares the raw values. Both are the same integer comparison here, so the model does not say what happens to fractional or non-numeric amounts.
