/**
 * The two balance-gated debit workflows of src/controllers/pagaService.js,
 * `merchantPayment` (lines 145-288) and `airtimePurchase` (lines 371-508),
 * and the choice of the log collection each outcome is written to.
 *
 * Each workflow is specified by a function from the store's value before
 * the call to a `Step`: the result, the store's value after, and the
 * request sent to the provider (None when the provider was not called).
 * The methods run the same steps against a `Store` and are proved to
 * produce that step; the lemmas state what the source promises about it.
 */
module PagaService {
  import opened Common
  import opened Signing
  import opened Provider
  import opened Ledger

  // ---------------------------------------------------------------------
  // Collection selection
  // ---------------------------------------------------------------------

  const SportyBetCollection := "sportyBetTransactions"
  const ElectricityCollection := "buyElectricity"
  const CableCollection := "cableTransactions"
  const GenericCollection := "genericTransactions"
  const FailedCollection := "failedTransactions"
  const DataCollection := "buyDataNotifications"
  const BuyAirtimeCollection := "buyAirtimeNotifications"

  /** The `switch (billType)` of a successful merchant payment. */
  function BillCollection(billType: Option<string>): string {
    match billType
    case Some("sportybet") => SportyBetCollection
    case Some("electricity") => ElectricityCollection
    case Some("cable") => CableCollection
    case _ => GenericCollection
  }

  /** `isDataBundle ? "buyDataNotifications" : "buyAirtimeNotifications"`. */
  function AirtimeCollection(isDataBundle: bool): string {
    if isDataBundle then DataCollection else BuyAirtimeCollection
  }

  /** Every bill type lands in one of four collections, the fallback exactly
      for the unrecognised tags, and never in the failure log. */
  lemma BillCollectionCases(billType: Option<string>)
    ensures BillCollection(billType) in {SportyBetCollection, ElectricityCollection, CableCollection, GenericCollection}
    ensures BillCollection(billType) == GenericCollection <==>
              billType !in {Some("sportybet"), Some("electricity"), Some("cable")}
    ensures BillCollection(billType) == SportyBetCollection <==> billType == Some("sportybet")
    ensures BillCollection(billType) == ElectricityCollection <==> billType == Some("electricity")
    ensures BillCollection(billType) == CableCollection <==> billType == Some("cable")
    ensures BillCollection(billType) != FailedCollection
  {
  }

  /** Data and airtime purchases are logged apart, never in the failure log. */
  lemma AirtimeCollectionCases(isDataBundle: bool)
    ensures AirtimeCollection(isDataBundle) == DataCollection <==> isDataBundle
    ensures AirtimeCollection(isDataBundle) == BuyAirtimeCollection <==> !isDataBundle
    ensures AirtimeCollection(isDataBundle) != FailedCollection
    ensures AirtimeCollection(isDataBundle) !in {SportyBetCollection, ElectricityCollection, CableCollection, GenericCollection}
  {
  }

  // ---------------------------------------------------------------------
  // Arguments, results, records
  // ---------------------------------------------------------------------

  datatype MerchantPaymentArgs = MerchantPaymentArgs(
    referenceNumber: string, amount: int, merchantAccount: string, merchantReferenceNumber: string,
    currency: Option<string>, merchantService: Option<string>, locale: Option<string>,
    userId: string, billType: Option<string>)

  datatype AirtimeArgs = AirtimeArgs(
    referenceNumber: string, amount: int, destinationPhoneNumber: string, mobileOperatorPublicId: string,
    userId: string, isDataBundle: bool, mobileOperatorServiceId: Option<string>)

  /** The result object of a workflow, by case. */
  datatype Outcome =
    | InvalidInput
    | UserNotFound(userId: string)
    | InsufficientBalance
    | Settled(updatedBalance: int, transaction: ProviderResponse)
    | Declined(response: ProviderResponse)
    | Errored(error: CallError)
  {
    /** The `success` field of the result. */
    predicate Success() {
      Settled?
    }
  }

  datatype Operation = MerchantPaymentOp | AirtimeOp(isDataBundle: bool)

  /** The `message` field of the result. */
  function Message(op: Operation, o: Outcome): string {
    match o
    case InvalidInput => "Invalid input: All fields are required."
    case UserNotFound(uid) => "User with ID " + uid + " not found."
    case InsufficientBalance =>
      if op.MerchantPaymentOp? then "Insufficient balance to complete the payment."
      else "Insufficient balance to complete the airtime purchase."
    case Settled(_, _) =>
      (match op
       case MerchantPaymentOp => "Merchant payment successful."
       case AirtimeOp(data) => if data then "Data bundle purchase successful." else "Airtime purchase successful.")
    case Declined(_) =>
      (match op
       case MerchantPaymentOp => "Merchant payment failed."
       case AirtimeOp(data) => if data then "Data bundle purchase failed." else "Airtime purchase failed.")
    case Errored(_) =>
      if op.MerchantPaymentOp? then "Error processing merchant payment" else "Error processing airtime purchase"
  }

  datatype Step = Step(result: Outcome, ledger: StoreValue, sent: Option<ProviderRequest>)

  /** `after` is `before` with `record` appended to `collection` and nothing
      else written to any log. */
  ghost predicate OneRecordAdded(before: StoreValue, after: StoreValue, collection: string, record: Record) {
    && after.Log(collection) == before.Log(collection) + [record]
    && forall c :: c != collection ==> after.Log(c) == before.Log(c)
  }

  /** Account `i` now holds `balance` and every other account is as it was. */
  ghost predicate OnlyBalanceChanged(before: StoreValue, after: StoreValue, i: nat, balance: int) {
    && |after.userInfo| == |before.userInfo|
    && i < |before.userInfo|
    && after.userInfo[i] == before.userInfo[i].(balance := Some(balance))
    && forall k :: 0 <= k < |before.userInfo| && k != i ==> after.userInfo[k] == before.userInfo[k]
  }

  // ---------------------------------------------------------------------
  // Merchant payment
  // ---------------------------------------------------------------------

  function MerchantPaymentRequest(p: MerchantPaymentArgs, cfg: Config, sha512: string -> string): ProviderRequest {
    ProviderRequest(
      SecuredPath + "merchantPayment",
      SignedHeaders(cfg, MerchantPaymentFields(p.referenceNumber, p.amount, p.merchantAccount, p.merchantReferenceNumber), sha512),
      MerchantPaymentBody(p.merchantReferenceNumber, p.amount, p.merchantAccount, p.referenceNumber,
                          p.currency, p.merchantService, p.locale))
  }

  /** The log document of a merchant payment; `merchantService` is kept only
      on a success record and only when truthy. */
  function MerchantPaymentRecord(p: MerchantPaymentArgs, status: Status, response: ProviderResponse): Record {
    MerchantRecord(Decimal(p.amount), p.merchantReferenceNumber, p.merchantAccount, status,
                   p.referenceNumber, p.userId, response,
                   if status == Succeeded && TruthyOpt(p.merchantService) then p.merchantService else None)
  }

  function MerchantPaymentStep(s: StoreValue, p: MerchantPaymentArgs, cfg: Config, sha512: string -> string,
                               provider: ProviderRequest -> ProviderOutcome): Step {
    if !KeyConfigured(cfg) then Step(Errored(MissingHashKey), s, None)
    else match FindUser(s.userInfo, p.userId)
      case None => Step(UserNotFound(p.userId), s, None)
      case Some(i) =>
        var balance := AvailableBalance(s.userInfo[i]);
        if balance < p.amount then Step(InsufficientBalance, s, None)
        else
          var req := MerchantPaymentRequest(p, cfg, sha512);
          match provider(req)
          case Threw(e) => Step(Errored(ProviderFailed(e)), s, Some(req))
          case Replied(r) =>
            if Confirmed(r) then
              var updated := balance - p.amount;
              Step(Settled(updated, r),
                   s.WithBalance(i, updated).Add(BillCollection(p.billType), MerchantPaymentRecord(p, Succeeded, r)),
                   Some(req))
            else
              Step(Declined(r), s.Add(FailedCollection, MerchantPaymentRecord(p, Failed, r)), Some(req))
  }

  method MerchantPayment(store: Store, p: MerchantPaymentArgs, cfg: Config, sha512: string -> string,
                         provider: ProviderRequest -> ProviderOutcome)
    returns (result: Outcome, sent: Option<ProviderRequest>)
    modifies store
    ensures Step(result, store.State(), sent) == MerchantPaymentStep(old(store.State()), p, cfg, sha512, provider)
  {
    sent := None;
    if !KeyConfigured(cfg) {
      return Errored(MissingHashKey), None;
    }
    var found := FindUser(store.userInfo, p.userId);
    if found.None? {
      return UserNotFound(p.userId), None;
    }
    var i := found.value;
    var balance := AvailableBalance(store.userInfo[i]);
    if balance < p.amount {
      return InsufficientBalance, None;
    }
    var req := MerchantPaymentRequest(p, cfg, sha512);
    sent := Some(req);
    var outcome := provider(req);
    if outcome.Threw? {
      return Errored(ProviderFailed(outcome.error)), sent;
    }
    var r := outcome.response;
    if Confirmed(r) {
      var updated := balance - p.amount;
      store.UpdateBalance(i, updated);
      store.Add(BillCollection(p.billType), MerchantPaymentRecord(p, Succeeded, r));
      result := Settled(updated, r);
    } else {
      store.Add(FailedCollection, MerchantPaymentRecord(p, Failed, r));
      result := Declined(r);
    }
  }

  /** The provider is called exactly when the key is configured, the user is
      known and the balance covers the amount; when it is not called the
      store is untouched and the result names the first check that failed. */
  lemma MerchantPaymentGate(s: StoreValue, p: MerchantPaymentArgs, cfg: Config, sha512: string -> string,
                            provider: ProviderRequest -> ProviderOutcome)
    ensures var st := MerchantPaymentStep(s, p, cfg, sha512, provider);
      && (st.sent.Some? <==>
            KeyConfigured(cfg) && FindUser(s.userInfo, p.userId).Some?
            && AvailableBalance(s.userInfo[FindUser(s.userInfo, p.userId).value]) >= p.amount)
      && (st.sent.Some? ==> st.sent == Some(MerchantPaymentRequest(p, cfg, sha512)))
      && (st.sent.None? ==> st.ledger == s)
      && (!KeyConfigured(cfg) ==> st.result == Errored(MissingHashKey))
      && (KeyConfigured(cfg) && FindUser(s.userInfo, p.userId).None? ==> st.result == UserNotFound(p.userId))
      && (KeyConfigured(cfg) && FindUser(s.userInfo, p.userId).Some?
          && AvailableBalance(s.userInfo[FindUser(s.userInfo, p.userId).value]) < p.amount
          ==> st.result == InsufficientBalance)
      && (st.sent.None? ==> !st.result.Success())
  {
  }

  /** No debit without response code 0: whenever an account changes, the
      provider was called and confirmed the payment. A provider error changes
      nothing. */
  lemma MerchantPaymentNoDebitWithoutConfirmation(s: StoreValue, p: MerchantPaymentArgs, cfg: Config,
                                                  sha512: string -> string, provider: ProviderRequest -> ProviderOutcome)
    ensures var st := MerchantPaymentStep(s, p, cfg, sha512, provider);
      && (st.ledger.userInfo != s.userInfo ==>
            st.sent.Some? && provider(st.sent.value).Replied? && Confirmed(provider(st.sent.value).response))
      && (st.sent.Some? && provider(st.sent.value).Threw? ==>
            st.ledger == s && st.result == Errored(ProviderFailed(provider(st.sent.value).error))
            && !st.result.Success())
  {
  }

  /** On code 0 the balance drops by the amount and stays non-negative, no
      other account changes, and one success record goes to the bill type's
      collection, carrying `merchantService` exactly when it is truthy. */
  lemma MerchantPaymentSettles(s: StoreValue, p: MerchantPaymentArgs, cfg: Config, sha512: string -> string,
                               provider: ProviderRequest -> ProviderOutcome, i: nat, r: ProviderResponse)
    requires KeyConfigured(cfg) && FindUser(s.userInfo, p.userId) == Some(i)
    requires AvailableBalance(s.userInfo[i]) >= p.amount
    requires provider(MerchantPaymentRequest(p, cfg, sha512)) == Replied(r) && Confirmed(r)
    ensures var st := MerchantPaymentStep(s, p, cfg, sha512, provider);
      var updated := AvailableBalance(s.userInfo[i]) - p.amount;
      && st.result == Settled(updated, r) && st.result.Success()
      && updated >= 0
      && s.userInfo[i].userID == p.userId
      && OnlyBalanceChanged(s, st.ledger, i, updated)
      && OneRecordAdded(s, st.ledger, BillCollection(p.billType), MerchantPaymentRecord(p, Succeeded, r))
      && (MerchantPaymentRecord(p, Succeeded, r).merchantService.Some? <==> TruthyOpt(p.merchantService))
      && (TruthyOpt(p.merchantService) ==> MerchantPaymentRecord(p, Succeeded, r).merchantService == p.merchantService)
  {
  }

  /** On any other code the accounts are untouched and one failed record
      goes to `failedTransactions`. */
  lemma MerchantPaymentDeclines(s: StoreValue, p: MerchantPaymentArgs, cfg: Config, sha512: string -> string,
                                provider: ProviderRequest -> ProviderOutcome, r: ProviderResponse)
    requires KeyConfigured(cfg) && FindUser(s.userInfo, p.userId).Some?
    requires AvailableBalance(s.userInfo[FindUser(s.userInfo, p.userId).value]) >= p.amount
    requires provider(MerchantPaymentRequest(p, cfg, sha512)) == Replied(r) && !Confirmed(r)
    ensures var st := MerchantPaymentStep(s, p, cfg, sha512, provider);
      && st.result == Declined(r) && !st.result.Success()
      && st.ledger.userInfo == s.userInfo
      && OneRecordAdded(s, st.ledger, FailedCollection, MerchantPaymentRecord(p, Failed, r))
      && MerchantPaymentRecord(p, Failed, r).merchantService.None?
  {
  }

  /** The provider answers code 7: the payment fails, the balance stays, and
      one failed record goes to `failedTransactions`, whatever the bill type. */
  lemma MerchantScenarioDeclined(cfg: Config, sha512: string -> string, provider: ProviderRequest -> ProviderOutcome,
                                 r: ProviderResponse)
    requires KeyConfigured(cfg) && r.responseCode == Some(7)
    requires provider(MerchantPaymentRequest(
               MerchantPaymentArgs("ref-3", 300, "acct-9", "m-42", None, Some("dstv"), None, "u1", Some("cable")),
               cfg, sha512)) == Replied(r)
    ensures var s := StoreValue([UserInfo("u1", "Ada", "ada@example.com", Some(1000))], map[]);
      var p := MerchantPaymentArgs("ref-3", 300, "acct-9", "m-42", None, Some("dstv"), None, "u1", Some("cable"));
      var st := MerchantPaymentStep(s, p, cfg, sha512, provider);
      && st.result == Declined(r)
      && st.ledger.userInfo == s.userInfo
      && st.ledger.Log(FailedCollection) == [MerchantRecord(Decimal(300), "m-42", "acct-9", Failed, "ref-3", "u1", r, None)]
      && st.ledger.Log(CableCollection) == []
  {
  }

  /** The `message` of every merchant-payment result names what happened;
      only a settled payment reads "Merchant payment successful.". */
  lemma MerchantPaymentMessages(s: StoreValue, p: MerchantPaymentArgs, cfg: Config, sha512: string -> string,
                                provider: ProviderRequest -> ProviderOutcome)
    ensures var st := MerchantPaymentStep(s, p, cfg, sha512, provider);
      var m := Message(MerchantPaymentOp, st.result);
      && (m == "Merchant payment successful." <==> st.result.Success())
      && (!KeyConfigured(cfg) ==> m == "Error processing merchant payment")
      && (KeyConfigured(cfg) && FindUser(s.userInfo, p.userId).None? ==>
            m == "User with ID " + p.userId + " not found.")
      && (st.result == InsufficientBalance ==> m == "Insufficient balance to complete the payment.")
      && (st.sent.Some? && provider(st.sent.value).Replied? && !Confirmed(provider(st.sent.value).response) ==>
            m == "Merchant payment failed.")
      && (st.sent.Some? && provider(st.sent.value).Threw? ==> m == "Error processing merchant payment")
  {
    var st := MerchantPaymentStep(s, p, cfg, sha512, provider);
    if st.result.UserNotFound? {
      assert Message(MerchantPaymentOp, st.result)[0] == 'U';
    }
  }

  /** A merchant payment changes balances only: every account keeps its
      `userID`, so unique ids stay unique. */
  lemma MerchantPaymentKeepsUserIds(s: StoreValue, p: MerchantPaymentArgs, cfg: Config, sha512: string -> string,
                                    provider: ProviderRequest -> ProviderOutcome)
    ensures var st := MerchantPaymentStep(s, p, cfg, sha512, provider);
      && |st.ledger.userInfo| == |s.userInfo|
      && (forall k :: 0 <= k < |s.userInfo| ==> st.ledger.userInfo[k].userID == s.userInfo[k].userID)
      && (UniqueUserIds(s.userInfo) ==> UniqueUserIds(st.ledger.userInfo))
  {
  }

  /** balance 1000, amount 300, code 0 for a cable payment with service
      "dstv": 700 left, and one success record, carrying the service, in
      `cableTransactions`. */
  lemma MerchantScenarioSettles(cfg: Config, sha512: string -> string, provider: ProviderRequest -> ProviderOutcome,
                                r: ProviderResponse)
    requires KeyConfigured(cfg) && r.responseCode == Some(0)
    requires provider(MerchantPaymentRequest(
               MerchantPaymentArgs("ref-4", 300, "acct-9", "m-42", None, Some("dstv"), None, "u1", Some("cable")),
               cfg, sha512)) == Replied(r)
    ensures var s := StoreValue([UserInfo("u1", "Ada", "ada@example.com", Some(1000))], map[]);
      var p := MerchantPaymentArgs("ref-4", 300, "acct-9", "m-42", None, Some("dstv"), None, "u1", Some("cable"));
      var st := MerchantPaymentStep(s, p, cfg, sha512, provider);
      && st.result == Settled(700, r)
      && st.ledger.userInfo == [UserInfo("u1", "Ada", "ada@example.com", Some(700))]
      && st.ledger.Log(CableCollection) == [MerchantRecord("300", "m-42", "acct-9", Succeeded, "ref-4", "u1", r, Some("dstv"))]
      && st.ledger.Log(FailedCollection) == []
  {
    assert DigitChar(0) == '0' && DigitChar(3) == '3';
    assert NatDigits(300) == NatDigits(30) + [DigitChar(0)];
    assert NatDigits(30) == NatDigits(3) + [DigitChar(0)];
    assert Decimal(300) == "300";
    var s := StoreValue([UserInfo("u1", "Ada", "ada@example.com", Some(1000))], map[]);
    assert FindUser(s.userInfo, "u1") == Some(0);
  }

  /** The amount written to the log reads back as the amount paid. */
  lemma MerchantRecordAmount(p: MerchantPaymentArgs, status: Status, r: ProviderResponse)
    ensures ParseDecimal(MerchantPaymentRecord(p, status, r).amount) == Some(p.amount)
  {
    DecimalRoundTrip(p.amount);
  }

  // ---------------------------------------------------------------------
  // Airtime and data purchase
  // ---------------------------------------------------------------------

  /** The first check of `airtimePurchase`: every mandatory input is truthy
      (an amount of 0 is falsy). */
  predicate AirtimeInputsPresent(p: AirtimeArgs) {
    Truthy(p.referenceNumber) && p.amount != 0 && Truthy(p.destinationPhoneNumber)
    && Truthy(p.mobileOperatorPublicId) && Truthy(p.userId)
  }

  /** The airtime request is signed without checking the key. */
  function AirtimeRequest(p: AirtimeArgs, cfg: Config, sha512: string -> string): ProviderRequest {
    ProviderRequest(
      SecuredPath + "airtimePurchase",
      SignedHeaders(cfg, AirtimeFields(p.referenceNumber, p.amount, p.destinationPhoneNumber), sha512),
      AirtimePurchaseBody(p.referenceNumber, p.mobileOperatorPublicId, p.amount, Some("NGN"),
                          p.destinationPhoneNumber, false, p.isDataBundle, p.mobileOperatorServiceId))
  }

  function AirtimePurchaseRecord(p: AirtimeArgs, status: Status): Record {
    AirtimeRecord(Decimal(p.amount), p.destinationPhoneNumber, status, p.referenceNumber, p.userId)
  }

  function AirtimePurchaseStep(s: StoreValue, p: AirtimeArgs, cfg: Config, sha512: string -> string,
                               provider: ProviderRequest -> ProviderOutcome): Step {
    if !AirtimeInputsPresent(p) then Step(InvalidInput, s, None)
    else match FindUser(s.userInfo, p.userId)
      case None => Step(UserNotFound(p.userId), s, None)
      case Some(i) =>
        var balance := AvailableBalance(s.userInfo[i]);
        if balance < p.amount then Step(InsufficientBalance, s, None)
        else
          var req := AirtimeRequest(p, cfg, sha512);
          var collection := AirtimeCollection(p.isDataBundle);
          match provider(req)
          case Threw(e) => Step(Errored(ProviderFailed(e)), s, Some(req))
          case Replied(r) =>
            if Confirmed(r) then
              var updated := balance - p.amount;
              Step(Settled(updated, r),
                   s.WithBalance(i, updated).Add(collection, AirtimePurchaseRecord(p, Succeeded)),
                   Some(req))
            else
              Step(Declined(r), s.Add(collection, AirtimePurchaseRecord(p, Failed)), Some(req))
  }

  method AirtimePurchase(store: Store, p: AirtimeArgs, cfg: Config, sha512: string -> string,
                         provider: ProviderRequest -> ProviderOutcome)
    returns (result: Outcome, sent: Option<ProviderRequest>)
    modifies store
    ensures Step(result, store.State(), sent) == AirtimePurchaseStep(old(store.State()), p, cfg, sha512, provider)
  {
    sent := None;
    if !AirtimeInputsPresent(p) {
      return InvalidInput, None;
    }
    var found := FindUser(store.userInfo, p.userId);
    if found.None? {
      return UserNotFound(p.userId), None;
    }
    var i := found.value;
    var balance := AvailableBalance(store.userInfo[i]);
    if balance < p.amount {
      return InsufficientBalance, None;
    }
    var req := AirtimeRequest(p, cfg, sha512);
    sent := Some(req);
    var outcome := provider(req);
    if outcome.Threw? {
      return Errored(ProviderFailed(outcome.error)), sent;
    }
    var r := outcome.response;
    var collection := AirtimeCollection(p.isDataBundle);
    if Confirmed(r) {
      var updated := balance - p.amount;
      store.UpdateBalance(i, updated);
      store.Add(collection, AirtimePurchaseRecord(p, Succeeded));
      result := Settled(updated, r);
    } else {
      store.Add(collection, AirtimePurchaseRecord(p, Failed));
      result := Declined(r);
    }
  }

  /** A missing input, an unknown user or a short balance stop the purchase
      before the provider is called and before anything is written; the
      provider is called exactly when all three checks pass. */
  lemma AirtimePurchaseGate(s: StoreValue, p: AirtimeArgs, cfg: Config, sha512: string -> string,
                            provider: ProviderRequest -> ProviderOutcome)
    ensures var st := AirtimePurchaseStep(s, p, cfg, sha512, provider);
      && (st.sent.Some? <==>
            AirtimeInputsPresent(p) && FindUser(s.userInfo, p.userId).Some?
            && AvailableBalance(s.userInfo[FindUser(s.userInfo, p.userId).value]) >= p.amount)
      && (st.sent.Some? ==> st.sent == Some(AirtimeRequest(p, cfg, sha512)))
      && (st.sent.None? ==> st.ledger == s)
      && (!AirtimeInputsPresent(p) <==> st.result == InvalidInput)
      && (AirtimeInputsPresent(p) && FindUser(s.userInfo, p.userId).None? ==> st.result == UserNotFound(p.userId))
      && (AirtimeInputsPresent(p) && FindUser(s.userInfo, p.userId).Some?
          && AvailableBalance(s.userInfo[FindUser(s.userInfo, p.userId).value]) < p.amount
          ==> st.result == InsufficientBalance)
      && (st.sent.None? ==> !st.result.Success())
  {
  }

  lemma AirtimePurchaseNoDebitWithoutConfirmation(s: StoreValue, p: AirtimeArgs, cfg: Config,
                                                  sha512: string -> string, provider: ProviderRequest -> ProviderOutcome)
    ensures var st := AirtimePurchaseStep(s, p, cfg, sha512, provider);
      && (st.ledger.userInfo != s.userInfo ==>
            st.sent.Some? && provider(st.sent.value).Replied? && Confirmed(provider(st.sent.value).response))
      && (st.sent.Some? && provider(st.sent.value).Threw? ==>
            st.ledger == s && st.result == Errored(ProviderFailed(provider(st.sent.value).error))
            && !st.result.Success())
  {
  }

  /** On code 0 the balance drops by the amount and stays non-negative, no
      other account changes, and one success record goes to the data or
      airtime collection. */
  lemma AirtimePurchaseSettles(s: StoreValue, p: AirtimeArgs, cfg: Config, sha512: string -> string,
                               provider: ProviderRequest -> ProviderOutcome, i: nat, r: ProviderResponse)
    requires AirtimeInputsPresent(p) && FindUser(s.userInfo, p.userId) == Some(i)
    requires AvailableBalance(s.userInfo[i]) >= p.amount
    requires provider(AirtimeRequest(p, cfg, sha512)) == Replied(r) && Confirmed(r)
    ensures var st := AirtimePurchaseStep(s, p, cfg, sha512, provider);
      var updated := AvailableBalance(s.userInfo[i]) - p.amount;
      && st.result == Settled(updated, r) && st.result.Success()
      && updated >= 0
      && s.userInfo[i].userID == p.userId
      && OnlyBalanceChanged(s, st.ledger, i, updated)
      && OneRecordAdded(s, st.ledger, AirtimeCollection(p.isDataBundle), AirtimePurchaseRecord(p, Succeeded))
  {
  }

  /** On any other code the accounts are untouched and one failed record goes
      to the same collection a success would have used. */
  lemma AirtimePurchaseDeclines(s: StoreValue, p: AirtimeArgs, cfg: Config, sha512: string -> string,
                                provider: ProviderRequest -> ProviderOutcome, r: ProviderResponse)
    requires AirtimeInputsPresent(p) && FindUser(s.userInfo, p.userId).Some?
    requires AvailableBalance(s.userInfo[FindUser(s.userInfo, p.userId).value]) >= p.amount
    requires provider(AirtimeRequest(p, cfg, sha512)) == Replied(r) && !Confirmed(r)
    ensures var st := AirtimePurchaseStep(s, p, cfg, sha512, provider);
      && st.result == Declined(r) && !st.result.Success()
      && st.ledger.userInfo == s.userInfo
      && OneRecordAdded(s, st.ledger, AirtimeCollection(p.isDataBundle), AirtimePurchaseRecord(p, Failed))
  {
  }

  /** A retried purchase that the provider declines again is not
      deduplicated: two identical failed records are written. */
  lemma AirtimeRetryNotDeduplicated(s: StoreValue, p: AirtimeArgs, cfg: Config, sha512: string -> string,
                                    provider: ProviderRequest -> ProviderOutcome, r: ProviderResponse)
    requires AirtimeInputsPresent(p) && FindUser(s.userInfo, p.userId).Some?
    requires AvailableBalance(s.userInfo[FindUser(s.userInfo, p.userId).value]) >= p.amount
    requires provider(AirtimeRequest(p, cfg, sha512)) == Replied(r) && !Confirmed(r)
    ensures var first := AirtimePurchaseStep(s, p, cfg, sha512, provider);
      var second := AirtimePurchaseStep(first.ledger, p, cfg, sha512, provider);
      && second.ledger.userInfo == s.userInfo
      && second.ledger.Log(AirtimeCollection(p.isDataBundle))
         == s.Log(AirtimeCollection(p.isDataBundle)) + [AirtimePurchaseRecord(p, Failed), AirtimePurchaseRecord(p, Failed)]
  {
  }

  /** balance 1000, amount 300, code 0: the result is a success with 700
      left, and one success record is in `buyAirtimeNotifications`. */
  lemma AirtimeScenarioSettles(cfg: Config, sha512: string -> string, provider: ProviderRequest -> ProviderOutcome,
                               r: ProviderResponse)
    requires r.responseCode == Some(0)
    requires provider(AirtimeRequest(AirtimeArgs("ref-1", 300, "08030000000", "MTN", "u1", false, None), cfg, sha512)) == Replied(r)
    ensures var s := StoreValue([UserInfo("u1", "Ada", "ada@example.com", Some(1000))], map[]);
      var p := AirtimeArgs("ref-1", 300, "08030000000", "MTN", "u1", false, None);
      var st := AirtimePurchaseStep(s, p, cfg, sha512, provider);
      && st.result == Settled(700, r)
      && st.ledger.userInfo == [UserInfo("u1", "Ada", "ada@example.com", Some(700))]
      && st.ledger.Log(BuyAirtimeCollection) == [AirtimeRecord("300", "08030000000", Succeeded, "ref-1", "u1")]
  {
    assert DigitChar(0) == '0' && DigitChar(3) == '3';
    assert NatDigits(300) == NatDigits(30) + [DigitChar(0)];
    assert NatDigits(30) == NatDigits(3) + [DigitChar(0)];
    assert Decimal(300) == "300";
    var s := StoreValue([UserInfo("u1", "Ada", "ada@example.com", Some(1000))], map[]);
    assert FindUser(s.userInfo, "u1") == Some(0);
  }

  /** balance 100, amount 300: refused, and the provider is not called. */
  lemma AirtimeScenarioInsufficient(cfg: Config, sha512: string -> string, provider: ProviderRequest -> ProviderOutcome)
    ensures var s := StoreValue([UserInfo("u1", "Ada", "ada@example.com", Some(100))], map[]);
      var st := AirtimePurchaseStep(s, AirtimeArgs("ref-2", 300, "08030000000", "MTN", "u1", false, None), cfg, sha512, provider);
      st.result == InsufficientBalance && st.sent.None? && st.ledger == s
  {
  }

  /** The `message` of every airtime result names what happened, and a
      settled or declined data purchase is told apart from an airtime one. */
  lemma AirtimePurchaseMessages(s: StoreValue, p: AirtimeArgs, cfg: Config, sha512: string -> string,
                                provider: ProviderRequest -> ProviderOutcome)
    ensures var st := AirtimePurchaseStep(s, p, cfg, sha512, provider);
      var m := Message(AirtimeOp(p.isDataBundle), st.result);
      && (m == (if p.isDataBundle then "Data bundle purchase successful." else "Airtime purchase successful.")
          <==> st.result.Success())
      && (!AirtimeInputsPresent(p) ==> m == "Invalid input: All fields are required.")
      && (AirtimeInputsPresent(p) && FindUser(s.userInfo, p.userId).None? ==>
            m == "User with ID " + p.userId + " not found.")
      && (st.result == InsufficientBalance ==> m == "Insufficient balance to complete the airtime purchase.")
      && (st.sent.Some? && provider(st.sent.value).Replied? && !Confirmed(provider(st.sent.value).response) ==>
            m == (if p.isDataBundle then "Data bundle purchase failed." else "Airtime purchase failed."))
      && (st.sent.Some? && provider(st.sent.value).Threw? ==> m == "Error processing airtime purchase")
  {
    var st := AirtimePurchaseStep(s, p, cfg, sha512, provider);
    if st.result.UserNotFound? {
      assert Message(AirtimeOp(p.isDataBundle), st.result)[0] == 'U';
    }
  }

  /** An airtime purchase changes balances only: every account keeps its
      `userID`, so unique ids stay unique. */
  lemma AirtimePurchaseKeepsUserIds(s: StoreValue, p: AirtimeArgs, cfg: Config, sha512: string -> string,
                                    provider: ProviderRequest -> ProviderOutcome)
    ensures var st := AirtimePurchaseStep(s, p, cfg, sha512, provider);
      && |st.ledger.userInfo| == |s.userInfo|
      && (forall k :: 0 <= k < |s.userInfo| ==> st.ledger.userInfo[k].userID == s.userInfo[k].userID)
      && (UniqueUserIds(s.userInfo) ==> UniqueUserIds(st.ledger.userInfo))
  {
  }

  /** The amount written to the log reads back as the amount bought. */
  lemma AirtimeRecordAmount(p: AirtimeArgs, status: Status)
    ensures ParseDecimal(AirtimePurchaseRecord(p, status).amount) == Some(p.amount)
  {
    DecimalRoundTrip(p.amount);
  }
}
