/**
 * The store the service reads and writes: the `userInfo` collection of
 * account documents and the transaction-log collections, each an
 * append-only sequence of records. `StoreValue` is the store's value; `Store`
 * is the object the workflows update in place.
 */
module Ledger {
  import opened Common
  import opened Provider

  /** One `userInfo` document. `balance` is None when the field is absent. */
  datatype UserInfo = UserInfo(userID: string, displayName: string, email: string, balance: Option<int>)

  /** `userData.balance || 0`: an absent (or zero) balance reads as 0. */
  function AvailableBalance(u: UserInfo): int {
    match u.balance
    case Some(b) => b
    case None => 0
  }

  datatype Status = Succeeded | Failed

  /** One log document. The server timestamp is not modelled. */
  datatype Record =
    | MerchantRecord(amount: string, merchantReferenceNumber: string, merchantAccount: string, status: Status,
                     transactionId: string, userId: string, response: ProviderResponse,
                     merchantService: Option<string>)
    | AirtimeRecord(amount: string, phoneNumber: string, status: Status, transactionId: string, userId: string)

  /** The first document whose `userID` is `uid`, as `where("userID", "==", uid)`
      followed by `docs[0]`. */
  function FindUser(docs: seq<UserInfo>, uid: string): (r: Option<nat>)
    ensures r.None? <==> forall k :: 0 <= k < |docs| ==> docs[k].userID != uid
    ensures r.Some? ==> r.value < |docs| && docs[r.value].userID == uid
    ensures r.Some? ==> forall k :: 0 <= k < r.value ==> docs[k].userID != uid
    decreases |docs|
  {
    if docs == [] then None
    else if docs[0].userID == uid then Some(0)
    else match FindUser(docs[1..], uid)
      case None => None
      case Some(i) => Some(i + 1)
  }

  /** No two account documents share a `userID`. */
  predicate UniqueUserIds(docs: seq<UserInfo>) {
    forall i, j :: 0 <= i < j < |docs| ==> docs[i].userID != docs[j].userID
  }

  /** With unique ids the query has exactly one answer for a known user. */
  lemma FindUserUnique(docs: seq<UserInfo>, uid: string, k: nat)
    requires UniqueUserIds(docs)
    requires k < |docs| && docs[k].userID == uid
    ensures FindUser(docs, uid) == Some(k)
  {
  }

  /** Appending an account whose id is not yet present keeps ids unique. */
  lemma AddKeepsUnique(docs: seq<UserInfo>, u: UserInfo)
    requires UniqueUserIds(docs)
    requires FindUser(docs, u.userID).None?
    ensures UniqueUserIds(docs + [u])
  {
  }

  datatype StoreValue = StoreValue(userInfo: seq<UserInfo>, logs: map<string, seq<Record>>) {

    /** The records of one collection; a collection never written is empty. */
    function Log(collection: string): seq<Record> {
      if collection in logs then logs[collection] else []
    }

    /** `userRef.doc(id).update({ balance })`. */
    function WithBalance(i: nat, balance: int): (l: StoreValue)
      requires i < |userInfo|
      ensures |l.userInfo| == |userInfo| && l.logs == logs
      ensures l.userInfo[i] == userInfo[i].(balance := Some(balance))
      ensures forall k :: 0 <= k < |userInfo| && k != i ==> l.userInfo[k] == userInfo[k]
    {
      this.(userInfo := userInfo[i := userInfo[i].(balance := Some(balance))])
    }

    /** `db.collection(collection).add(record)`. */
    function Add(collection: string, record: Record): (l: StoreValue)
      ensures l.userInfo == userInfo
      ensures l.Log(collection) == Log(collection) + [record]
      ensures forall c :: c != collection ==> l.Log(c) == Log(c)
    {
      this.(logs := logs[collection := Log(collection) + [record]])
    }

    /** `db.collection("userInfo").add(user)`. */
    function AddUser(u: UserInfo): (l: StoreValue)
      ensures l.userInfo == userInfo + [u] && l.logs == logs
    {
      this.(userInfo := userInfo + [u])
    }
  }

  class Store {
    var userInfo: seq<UserInfo>
    var logs: map<string, seq<Record>>

    constructor ()
      ensures State() == StoreValue([], map[])
    {
      userInfo := [];
      logs := map[];
    }

    function State(): StoreValue
      reads this
    {
      StoreValue(userInfo, logs)
    }

    method UpdateBalance(i: nat, balance: int)
      requires i < |userInfo|
      modifies this
      ensures State() == old(State()).WithBalance(i, balance)
    {
      userInfo := userInfo[i := userInfo[i].(balance := Some(balance))];
    }

    method Add(collection: string, record: Record)
      modifies this
      ensures State() == old(State()).Add(collection, record)
    {
      logs := logs[collection := State().Log(collection) + [record]];
    }

    method AddUser(u: UserInfo)
      modifies this
      ensures State() == old(State()).AddUser(u)
    {
      userInfo := userInfo + [u];
    }
  }
}
