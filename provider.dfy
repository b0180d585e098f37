/**
 * The provider side of src/controllers/pagaService.js: configuration, the
 * signed request each operation sends, the provider's reply, and the seven
 * passthrough lookups. The HTTP transport (`apiCall`, lines 19-36) is an
 * oracle: a function from the request sent to the outcome observed.
 */
module Provider {
  import opened Common
  import opened Signing

  /** The environment the service reads: the HMAC key (`PAGA_API_KEY_HMAC`,
      possibly unset), and the principal and credential identifiers. */
  datatype Config = Config(hashKey: Option<string>, principal: string, credentials: string)

  /** `if (!hashkey) throw ...`: the key is usable when set and not empty. */
  predicate KeyConfigured(cfg: Config) {
    TruthyOpt(cfg.hashKey)
  }

  /** The headers of every call; `Content-Type: application/json` is fixed. */
  datatype Headers = Headers(principal: string, credentials: string, hash: string)

  function SignedHeaders(cfg: Config, fields: seq<string>, sha512: string -> string): Headers {
    Headers(cfg.principal, cfg.credentials, GenerateHash(fields, cfg.hashKey, sha512))
  }

  /** The JSON body of each endpoint, field for field. */
  datatype Body =
    | LocaleQuery(referenceNumber: string, locale: Option<string>)
    | DataBundleQuery(referenceNumber: string, operatorPublicId: string)
    | MerchantServicesQuery(referenceNumber: string, merchantPublicId: string, locale: Option<string>)
    | AccountDetailsQuery(referenceNumber: string, merchantAccount: string, merchantReferenceNumber: string,
                          merchantServiceProductCode: Option<string>)
    | MerchantPaymentBody(merchantReferenceNumber: string, amount: int, merchantAccount: string,
                          referenceNumber: string, currency: Option<string>, merchantService: Option<string>,
                          locale: Option<string>)
    | AirtimePurchaseBody(referenceNumber: string, mobileOperatorPublicId: string, amount: int, currency: Option<string>,
                          destinationPhoneNumber: string, isSuppressRecipientMessages: bool, isDataBundle: bool,
                          mobileOperatorServiceId: Option<string>)

  datatype ProviderRequest = ProviderRequest(endpoint: string, headers: Headers, body: Body)

  /** The decoded reply. `responseCode` is None when the reply has no numeric
      code; the rest of the reply is opaque. */
  datatype ProviderResponse = ProviderResponse(responseCode: Option<int>, payload: string)

  /** `response.responseCode === 0`. */
  predicate Confirmed(r: ProviderResponse) {
    r.responseCode == Some(0)
  }

  /** A transport or non-2xx failure, with the upstream status when known. */
  datatype ProviderError = ProviderError(status: Option<int>, detail: string)

  datatype ProviderOutcome = Replied(response: ProviderResponse) | Threw(error: ProviderError)

  /** What a service function throws. */
  datatype CallError = MissingHashKey | ProviderFailed(cause: ProviderError)

  const SecuredPath := "/paga-webservices/business-rest/secured/"

  /** merchantPayment signs reference, amount, merchant account and merchant
      reference, in that order. */
  function MerchantPaymentFields(referenceNumber: string, amount: int, merchantAccount: string,
                                 merchantReferenceNumber: string): seq<string> {
    [referenceNumber, Decimal(amount), merchantAccount, merchantReferenceNumber]
  }

  /** airtimePurchase signs reference, amount and destination phone number. */
  function AirtimeFields(referenceNumber: string, amount: int, destinationPhoneNumber: string): seq<string> {
    [referenceNumber, Decimal(amount), destinationPhoneNumber]
  }

  /** The read-only provider operations. */
  datatype Lookup =
    | MobileOperators(referenceNumber: string, locale: Option<string>)
    | Banks(referenceNumber: string, locale: Option<string>)
    | Merchants(referenceNumber: string, locale: Option<string>)
    | MobileDataBundle(referenceNumber: string, operatorPublicId: string)
    | MerchantServices(referenceNumber: string, merchantPublicId: string)
    | MerchantAccountDetails(referenceNumber: string, merchantAccount: string, merchantReferenceNumber: string,
                             merchantServiceProductCode: Option<string>)
    | TransactionStatus(referenceNumber: string, locale: Option<string>)

  /** The fields each lookup signs. */
  function LookupFields(l: Lookup): seq<string> {
    match l
    case MobileOperators(r, _) => [r, "", ""]
    case Banks(r, _) => [r, "", ""]
    case Merchants(r, _) => [r, "", ""]
    case MobileDataBundle(r, op) => [r, op]
    case MerchantServices(r, m) => [r, m]
    case MerchantAccountDetails(r, acct, mref, code) =>
      [r, acct, mref, if TruthyOpt(code) then code.value else ""]
    case TransactionStatus(r, _) => [r]
  }

  /** The lookups that refuse to run without a configured key; the three list
      lookups sign with whatever the key is. */
  predicate ChecksKey(l: Lookup) {
    !(l.MobileOperators? || l.Banks? || l.Merchants?)
  }

  function LookupEndpoint(l: Lookup): string {
    SecuredPath +
    match l
    case MobileOperators(_, _) => "getMobileOperators"
    case Banks(_, _) => "getBanks"
    case Merchants(_, _) => "getMerchants"
    case MobileDataBundle(_, _) => "getDataBundleByOperator"
    case MerchantServices(_, _) => "getMerchantServices"
    case MerchantAccountDetails(_, _, _, _) => "getMerchantAccountDetails"
    case TransactionStatus(_, _) => "transactionStatus"
  }

  function LookupBody(l: Lookup): Body {
    match l
    case MobileOperators(r, loc) => LocaleQuery(r, loc)
    case Banks(r, loc) => LocaleQuery(r, loc)
    case Merchants(r, loc) => LocaleQuery(r, loc)
    case MobileDataBundle(r, op) => DataBundleQuery(r, op)
    case MerchantServices(r, m) => MerchantServicesQuery(r, m, Some("en"))
    case MerchantAccountDetails(r, acct, mref, code) => AccountDetailsQuery(r, acct, mref, code)
    case TransactionStatus(r, loc) => LocaleQuery(r, Some(loc.GetOr("en")))
  }

  /** The signed request a lookup sends. */
  function LookupRequest(l: Lookup, cfg: Config, sha512: string -> string): ProviderRequest {
    ProviderRequest(LookupEndpoint(l), SignedHeaders(cfg, LookupFields(l), sha512), LookupBody(l))
  }

  /** Runs one lookup against the provider: with the key check passed, the
      caller gets the provider's reply unchanged, or what it throws. */
  function CallLookup(l: Lookup, cfg: Config, sha512: string -> string,
                      provider: ProviderRequest -> ProviderOutcome): (r: Result<ProviderResponse, CallError>)
    ensures r == Failure(MissingHashKey) <==> ChecksKey(l) && !KeyConfigured(cfg)
    ensures !(ChecksKey(l) && !KeyConfigured(cfg)) ==>
      && (provider(LookupRequest(l, cfg, sha512)).Replied? ==>
            r == Success(provider(LookupRequest(l, cfg, sha512)).response))
      && (provider(LookupRequest(l, cfg, sha512)).Threw? ==>
            r == Failure(ProviderFailed(provider(LookupRequest(l, cfg, sha512)).error)))
  {
    if ChecksKey(l) && !KeyConfigured(cfg) then Failure(MissingHashKey)
    else
      match provider(LookupRequest(l, cfg, sha512))
      case Replied(resp) => Success(resp)
      case Threw(e) => Failure(ProviderFailed(e))
  }

  /** Every signed field list begins with the reference number, so every
      preimage begins with it. */
  lemma PreimageStartsWithReference(l: Lookup, key: string)
    ensures |l.referenceNumber| <= |Preimage(LookupFields(l), key)|
    ensures Preimage(LookupFields(l), key)[..|l.referenceNumber|] == l.referenceNumber
  {
    FieldAt(LookupFields(l), key, 0);
    assert LookupFields(l)[..0] == [];
  }

  /** The three list lookups sign `[ref, "", ""]`: the preimage is just the
      reference followed by the key, the same text transactionStatus signs. */
  lemma ListLookupsSignReference(l: Lookup, key: string)
    requires l.MobileOperators? || l.Banks? || l.Merchants?
    ensures Preimage(LookupFields(l), key) == l.referenceNumber + key
    ensures Preimage(LookupFields(l), key) == Preimage(LookupFields(TransactionStatus(l.referenceNumber, None)), key)
  {
    assert LookupFields(l) == [l.referenceNumber] + seq(2, _ => "");
    EmptyFieldsVanish([l.referenceNumber], 2);
    ConcatSmall(l.referenceNumber, "", "", "");
  }

  /** A missing (or empty) product code is signed as the empty field. */
  lemma AccountDetailsMissingCode(r: string, acct: string, mref: string, code: Option<string>, key: string)
    requires !TruthyOpt(code)
    ensures Preimage(LookupFields(MerchantAccountDetails(r, acct, mref, code)), key) == r + acct + mref + key
  {
    var fields := LookupFields(MerchantAccountDetails(r, acct, mref, code));
    assert fields == [r, acct, mref] + seq(1, _ => "");
    EmptyFieldsVanish([r, acct, mref], 1);
    ConcatSmall(r, acct, mref, "");
  }

  /** The merchant-payment preimage is reference, amount text, account and
      merchant reference, then the key. */
  lemma MerchantPaymentPreimage(r: string, amount: int, acct: string, mref: string, key: string)
    ensures Preimage(MerchantPaymentFields(r, amount, acct, mref), key) == r + Decimal(amount) + acct + mref + key
  {
    ConcatSmall(r, Decimal(amount), acct, mref);
  }

  /** The airtime preimage is reference, amount text and phone, then the key;
      with the key unset it ends in the text "undefined". */
  lemma AirtimePreimage(r: string, amount: int, phone: string, hashKey: Option<string>)
    ensures Preimage(AirtimeFields(r, amount, phone), KeyText(hashKey)) == r + Decimal(amount) + phone + KeyText(hashKey)
    ensures hashKey.None? ==> Preimage(AirtimeFields(r, amount, phone), KeyText(hashKey)) == r + Decimal(amount) + phone + "undefined"
  {
    ConcatSmall(r, Decimal(amount), phone, "");
  }
}
