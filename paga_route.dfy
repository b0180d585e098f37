/**
 * The request guards of src/routes/pagaRoute.js for the two debit routes
 * (`/airtime-purchase`, `/merchantPayment`) and two lookup routes
 * (`/merchantAccountDetails`, `/transactionStatus`). A guard either answers
 * with an error status or forwards the arguments to the service. The
 * freshly generated reference number (`uuidv4()`) and the uid that the
 * identity provider decodes from the access token (None when verification
 * throws) are inputs.
 */
module PagaRoute {
  import opened Common
  import opened Provider
  import opened Ledger
  import opened PagaService

  datatype Guard<A> = Respond(status: int, error: string) | Forward(args: A)

  /** What the handler sends: the service's value as JSON (status 200) or an
      error status with its message. */
  datatype Response<T> = Json(payload: T) | Error(status: int, error: string) {
    function Status(): int {
      if Json? then 200 else status
    }
  }

  // ---------------------------------------------------------------------
  // /airtime-purchase
  // ---------------------------------------------------------------------

  datatype AirtimeRouteBody = AirtimeRouteBody(
    mobileOperatorPublicId: string, amount: int, destinationNumber: string, userId: string,
    accessToken: string, isDataBundle: bool, mobileOperatorServiceId: Option<string>)

  predicate AirtimeFieldsPresent(b: AirtimeRouteBody) {
    Truthy(b.accessToken) && Truthy(b.userId) && b.amount != 0
    && Truthy(b.mobileOperatorPublicId) && Truthy(b.destinationNumber)
  }

  function AirtimeRoute(b: AirtimeRouteBody, referenceNumber: string, verifiedUid: Option<string>): Guard<AirtimeArgs> {
    if !AirtimeFieldsPresent(b) then Respond(400, "Missing required fields.")
    else match verifiedUid
      case None => Respond(500, "Failed to purchase airtime")
      case Some(uid) =>
        if uid != b.userId then Respond(403, "Unauthorized: Token does not match userId.")
        else Forward(AirtimeArgs(referenceNumber, b.amount, b.destinationNumber, b.mobileOperatorPublicId,
                                 b.userId, b.isDataBundle, b.mobileOperatorServiceId))
  }

  /** 400 exactly when a required field is missing, 500 when the token does
      not verify, 403 when it belongs to another user, and otherwise the
      service gets the fresh reference and the caller's fields unchanged,
      with the destination number as the phone. */
  lemma AirtimeRouteDecision(b: AirtimeRouteBody, referenceNumber: string, verifiedUid: Option<string>)
    ensures var g := AirtimeRoute(b, referenceNumber, verifiedUid);
      && (g == Respond(400, "Missing required fields.") <==> !AirtimeFieldsPresent(b))
      && (g.Respond? && g.status == 500 <==> AirtimeFieldsPresent(b) && verifiedUid.None?)
      && (g.Respond? && g.status == 403 <==>
            AirtimeFieldsPresent(b) && verifiedUid.Some? && verifiedUid.value != b.userId)
      && (g.Forward? <==> AirtimeFieldsPresent(b) && verifiedUid == Some(b.userId))
      && (g.Forward? ==>
            && g.args == AirtimeArgs(referenceNumber, b.amount, b.destinationNumber, b.mobileOperatorPublicId,
                                     b.userId, b.isDataBundle, b.mobileOperatorServiceId)
            && g.args.userId == verifiedUid.value)
  {
  }

  /** What the guard forwards always passes the service's own input check,
      provided the generated reference is not empty. */
  lemma AirtimeForwardPassesServiceCheck(b: AirtimeRouteBody, referenceNumber: string, verifiedUid: Option<string>)
    requires Truthy(referenceNumber)
    requires AirtimeRoute(b, referenceNumber, verifiedUid).Forward?
    ensures AirtimeInputsPresent(AirtimeRoute(b, referenceNumber, verifiedUid).args)
  {
  }

  /** The handler: guard, then the purchase. A rejected request reaches
      neither the store nor the provider. */
  method AirtimePurchaseHandler(store: Store, b: AirtimeRouteBody, referenceNumber: string, verifiedUid: Option<string>,
                                cfg: Config, sha512: string -> string, provider: ProviderRequest -> ProviderOutcome)
    returns (reply: Response<Outcome>, sent: Option<ProviderRequest>)
    modifies store
    ensures var g := AirtimeRoute(b, referenceNumber, verifiedUid);
      match g
      case Respond(status, error) =>
        reply == Error(status, error) && sent.None? && store.State() == old(store.State())
      case Forward(args) =>
        var st := AirtimePurchaseStep(old(store.State()), args, cfg, sha512, provider);
        reply == Json(st.result) && sent == st.sent && store.State() == st.ledger
  {
    var g := AirtimeRoute(b, referenceNumber, verifiedUid);
    if g.Respond? {
      return Error(g.status, g.error), None;
    }
    var result;
    result, sent := AirtimePurchase(store, g.args, cfg, sha512, provider);
    reply := Json(result);
  }

  // ---------------------------------------------------------------------
  // /merchantPayment
  // ---------------------------------------------------------------------

  datatype MerchantRouteBody = MerchantRouteBody(
    merchantReferenceNumber: string, amount: int, merchantAccount: string, currency: Option<string>,
    merchantService: Option<string>, locale: Option<string>, accessToken: string, userId: string,
    billType: Option<string>)

  predicate MerchantFieldsPresent(b: MerchantRouteBody, referenceNumber: string) {
    Truthy(b.merchantReferenceNumber) && b.amount != 0 && Truthy(b.merchantAccount)
    && Truthy(referenceNumber) && Truthy(b.accessToken) && Truthy(b.userId)
  }

  function MerchantRoute(b: MerchantRouteBody, referenceNumber: string, verifiedUid: Option<string>): Guard<MerchantPaymentArgs> {
    if !MerchantFieldsPresent(b, referenceNumber) then
      Respond(400, "Missing required fields: merchantReferenceNumber, amount, merchantAccount, referenceNumber, accessToken, userId")
    else match verifiedUid
      case None => Respond(500, "Failed to process merchant payment")
      case Some(uid) =>
        if uid != b.userId then Respond(403, "Unauthorized: Token does not match userId.")
        else Forward(MerchantPaymentArgs(referenceNumber, b.amount, b.merchantAccount, b.merchantReferenceNumber,
                                         b.currency, b.merchantService, b.locale, b.userId, b.billType))
  }

  /** The reference is generated before the check, so with a non-empty
      reference the 400 answer depends only on the five caller fields; a
      token for another user gives 403, and otherwise the service gets the
      caller's fields unchanged. */
  lemma MerchantRouteDecision(b: MerchantRouteBody, referenceNumber: string, verifiedUid: Option<string>)
    requires Truthy(referenceNumber)
    ensures var g := MerchantRoute(b, referenceNumber, verifiedUid);
      && (g.Respond? && g.status == 400 <==>
            !Truthy(b.merchantReferenceNumber) || b.amount == 0 || !Truthy(b.merchantAccount)
            || !Truthy(b.accessToken) || !Truthy(b.userId))
      && (g.Respond? && g.status == 500 <==> MerchantFieldsPresent(b, referenceNumber) && verifiedUid.None?)
      && (g.Respond? && g.status == 403 <==>
            MerchantFieldsPresent(b, referenceNumber) && verifiedUid.Some? && verifiedUid.value != b.userId)
      && (g.Forward? <==> MerchantFieldsPresent(b, referenceNumber) && verifiedUid == Some(b.userId))
      && (g.Forward? ==>
            g.args == MerchantPaymentArgs(referenceNumber, b.amount, b.merchantAccount, b.merchantReferenceNumber,
                                          b.currency, b.merchantService, b.locale, b.userId, b.billType))
  {
  }

  method MerchantPaymentHandler(store: Store, b: MerchantRouteBody, referenceNumber: string, verifiedUid: Option<string>,
                                cfg: Config, sha512: string -> string, provider: ProviderRequest -> ProviderOutcome)
    returns (reply: Response<Outcome>, sent: Option<ProviderRequest>)
    modifies store
    ensures var g := MerchantRoute(b, referenceNumber, verifiedUid);
      match g
      case Respond(status, error) =>
        reply == Error(status, error) && sent.None? && store.State() == old(store.State())
      case Forward(args) =>
        var st := MerchantPaymentStep(old(store.State()), args, cfg, sha512, provider);
        reply == Json(st.result) && sent == st.sent && store.State() == st.ledger
  {
    var g := MerchantRoute(b, referenceNumber, verifiedUid);
    if g.Respond? {
      return Error(g.status, g.error), None;
    }
    var result;
    result, sent := MerchantPayment(store, g.args, cfg, sha512, provider);
    reply := Json(result);
  }

  // ---------------------------------------------------------------------
  // /merchantAccountDetails and /transactionStatus
  // ---------------------------------------------------------------------

  datatype AccountDetailsRouteBody = AccountDetailsRouteBody(
    merchantAccount: string, merchantReferenceNumber: string, merchantServiceProductCode: Option<string>)

  function AccountDetailsRoute(b: AccountDetailsRouteBody, referenceNumber: string): Guard<Lookup> {
    if !Truthy(referenceNumber) || !Truthy(b.merchantAccount) || !Truthy(b.merchantReferenceNumber) then
      Respond(400, "Missing required fields: referenceNumber, merchantAccount, merchantReferenceNumber")
    else Forward(MerchantAccountDetails(referenceNumber, b.merchantAccount, b.merchantReferenceNumber,
                                        b.merchantServiceProductCode))
  }

  datatype StatusRouteBody = StatusRouteBody(referenceNumber: string, locale: Option<string>)

  function TransactionStatusRoute(b: StatusRouteBody): Guard<Lookup> {
    if !Truthy(b.referenceNumber) then Respond(400, "Missing required field: referenceNumber")
    else Forward(TransactionStatus(b.referenceNumber, b.locale))
  }

  /** A forwarded lookup either answers with the provider's reply or, when
      the service throws, with 500. */
  function ServeLookup(g: Guard<Lookup>, failure: string, cfg: Config, sha512: string -> string,
                       provider: ProviderRequest -> ProviderOutcome): Response<ProviderResponse> {
    match g
    case Respond(status, error) => Error(status, error)
    case Forward(l) =>
      match CallLookup(l, cfg, sha512, provider)
      case Success(r) => Json(r)
      case Failure(_) => Error(500, failure)
  }

  /** `/merchantAccountDetails`: the guard, then the lookup, with its own
      500 text. */
  function AccountDetailsReply(b: AccountDetailsRouteBody, referenceNumber: string, cfg: Config,
                               sha512: string -> string, provider: ProviderRequest -> ProviderOutcome)
    : (r: Response<ProviderResponse>)
    ensures r.Status() == 500 <==>
      AccountDetailsRoute(b, referenceNumber).Forward?
      && CallLookup(AccountDetailsRoute(b, referenceNumber).args, cfg, sha512, provider).Failure?
    ensures r.Status() == 500 ==> r == Error(500, "Failed to fetch merchant account details")
  {
    ServeLookup(AccountDetailsRoute(b, referenceNumber), "Failed to fetch merchant account details",
                cfg, sha512, provider)
  }

  /** `/transactionStatus`: the guard, then the lookup, with its own 500
      text. */
  function TransactionStatusReply(b: StatusRouteBody, cfg: Config, sha512: string -> string,
                                  provider: ProviderRequest -> ProviderOutcome)
    : (r: Response<ProviderResponse>)
    ensures r.Status() == 500 <==>
      TransactionStatusRoute(b).Forward? && CallLookup(TransactionStatusRoute(b).args, cfg, sha512, provider).Failure?
    ensures r.Status() == 500 ==> r == Error(500, "Failed to check transaction status")
  {
    ServeLookup(TransactionStatusRoute(b), "Failed to check transaction status", cfg, sha512, provider)
  }

  /** Account details: 400 exactly when the merchant account or merchant
      reference is missing (the generated reference is never empty); no
      token is checked. */
  lemma AccountDetailsRouteDecision(b: AccountDetailsRouteBody, referenceNumber: string)
    requires Truthy(referenceNumber)
    ensures var g := AccountDetailsRoute(b, referenceNumber);
      && (g.Respond? <==> !Truthy(b.merchantAccount) || !Truthy(b.merchantReferenceNumber))
      && (g.Respond? ==> g.status == 400)
      && (g.Forward? ==> g.args == MerchantAccountDetails(referenceNumber, b.merchantAccount,
                                                          b.merchantReferenceNumber, b.merchantServiceProductCode))
  {
  }

  /** Transaction status: 400 exactly without a caller reference; otherwise
      the caller's reference reaches the provider unchanged, both in the body
      and at the head of the signed preimage. */
  lemma TransactionStatusRouteDecision(b: StatusRouteBody, key: string)
    ensures var g := TransactionStatusRoute(b);
      && (g == Respond(400, "Missing required field: referenceNumber") <==> !Truthy(b.referenceNumber))
      && (g.Forward? ==> g.args.referenceNumber == b.referenceNumber
                         && LookupBody(g.args) == LocaleQuery(b.referenceNumber, Some(b.locale.GetOr("en")))
                         && Signing.Preimage(LookupFields(g.args), key) == b.referenceNumber + key)
  {
    Signing.ConcatSmall(b.referenceNumber, "", "", "");
  }

  /** Any error the service throws becomes 500; a guard's answer passes
      through; otherwise the provider's reply is returned unchanged with 200. */
  lemma ServeLookupStatus(g: Guard<Lookup>, failure: string, cfg: Config, sha512: string -> string,
                          provider: ProviderRequest -> ProviderOutcome)
    ensures var r := ServeLookup(g, failure, cfg, sha512, provider);
      && (g.Respond? ==> r == Error(g.status, g.error))
      && (g.Forward? ==>
            && (r == Error(500, failure) <==> CallLookup(g.args, cfg, sha512, provider).Failure?)
            && (CallLookup(g.args, cfg, sha512, provider).Success? ==>
                  r == Json(CallLookup(g.args, cfg, sha512, provider).value) && r.Status() == 200))
      && (g.Forward? && ChecksKey(g.args) && !KeyConfigured(cfg) ==> r == Error(500, failure))
      && (g.Forward? && !(ChecksKey(g.args) && !KeyConfigured(cfg)) ==>
            && (provider(LookupRequest(g.args, cfg, sha512)).Replied? ==>
                  r == Json(provider(LookupRequest(g.args, cfg, sha512)).response))
            && (provider(LookupRequest(g.args, cfg, sha512)).Threw? ==> r.Status() == 500))
  {
  }
}
