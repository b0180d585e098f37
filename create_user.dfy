/**
 * Account creation, `createUser` in src/controllers/createUserController.js
 * (lines 9-64). The identity provider is an oracle: given the email,
 * password and display name it registers a user and returns its uid, or
 * fails. The account document goes into the same `userInfo` collection the
 * debit workflows read.
 */
module CreateUserController {
  import opened Common
  import opened Ledger

  datatype CreateUserBody = CreateUserBody(email: string, password: string, displayName: string,
                                           initialBalance: Option<int>)

  datatype IdentityOutcome = Registered(uid: string) | IdentityFailed(message: string)

  datatype CreateUserReply =
    | MissingFields
    | AlreadyExists(uid: string)
    | Created(user: UserInfo)
    | CreateFailed(details: string)
  {
    function Status(): int {
      match this
      case MissingFields => 400
      case AlreadyExists(_) => 409
      case Created(_) => 201
      case CreateFailed(_) => 500
    }
  }

  /** The reply, the store's value afterwards, and the identity-provider user
      registered by the call (None when none was). */
  datatype Signup = Signup(reply: CreateUserReply, ledger: StoreValue, identityUser: Option<string>)

  /** `initialBalance || 0`. */
  function InitialBalance(initialBalance: Option<int>): (b: int)
    ensures initialBalance.Some? ==> b == initialBalance.value
    ensures initialBalance.None? ==> b == 0
  {
    initialBalance.GetOr(0)
  }

  predicate SignupFieldsPresent(b: CreateUserBody) {
    Truthy(b.email) && Truthy(b.password) && Truthy(b.displayName)
  }

  function NewUserInfo(b: CreateUserBody, uid: string): UserInfo {
    UserInfo(uid, b.displayName, b.email, Some(InitialBalance(b.initialBalance)))
  }

  function CreateUserStep(s: StoreValue, b: CreateUserBody, identity: (string, string, string) -> IdentityOutcome): Signup {
    if !SignupFieldsPresent(b) then Signup(MissingFields, s, None)
    else match identity(b.email, b.password, b.displayName)
      case IdentityFailed(m) => Signup(CreateFailed(m), s, None)
      case Registered(uid) =>
        if FindUser(s.userInfo, uid).Some? then Signup(AlreadyExists(uid), s, Some(uid))
        else Signup(Created(NewUserInfo(b, uid)), s.AddUser(NewUserInfo(b, uid)), Some(uid))
  }

  method CreateUser(store: Store, b: CreateUserBody, identity: (string, string, string) -> IdentityOutcome)
    returns (reply: CreateUserReply, identityUser: Option<string>)
    modifies store
    ensures Signup(reply, store.State(), identityUser) == CreateUserStep(old(store.State()), b, identity)
  {
    if !SignupFieldsPresent(b) {
      return MissingFields, None;
    }
    var registered := identity(b.email, b.password, b.displayName);
    if registered.IdentityFailed? {
      return CreateFailed(registered.message), None;
    }
    var uid := registered.uid;
    identityUser := Some(uid);
    var existing := FindUser(store.userInfo, uid);
    if existing.Some? {
      return AlreadyExists(uid), identityUser;
    }
    var user := NewUserInfo(b, uid);
    store.AddUser(user);
    reply := Created(user);
  }

  /** 400 without email, password or display name, and then no identity user
      and no write; 409 when the uid already has an account, after the
      identity user was created, and nothing is written; 201 exactly when the
      uid is new, appending one document that carries the identity uid and
      the initial balance; 500 exactly on an identity failure, with nothing
      written. */
  lemma CreateUserOutcomes(s: StoreValue, b: CreateUserBody, identity: (string, string, string) -> IdentityOutcome)
    ensures var st := CreateUserStep(s, b, identity);
      && (st.reply.Status() == 400 <==> !SignupFieldsPresent(b))
      && (st.reply.Status() == 400 ==> st.identityUser.None? && st.ledger == s)
      && (st.reply.Status() == 500 ==> st.identityUser.None? && st.ledger == s)
      && (st.reply.Status() == 409 <==>
            SignupFieldsPresent(b) && identity(b.email, b.password, b.displayName).Registered?
            && FindUser(s.userInfo, identity(b.email, b.password, b.displayName).uid).Some?)
      && (st.reply.Status() == 409 ==> st.ledger == s && st.identityUser.Some?)
      && (st.reply.Status() == 500 <==>
            SignupFieldsPresent(b) && identity(b.email, b.password, b.displayName).IdentityFailed?)
      && (st.reply.Status() == 201 <==>
            SignupFieldsPresent(b) && identity(b.email, b.password, b.displayName).Registered?
            && FindUser(s.userInfo, identity(b.email, b.password, b.displayName).uid).None?)
      && (st.reply.Status() == 201 ==>
            && st.identityUser.Some?
            && st.reply == Created(st.ledger.userInfo[|s.userInfo|])
            && st.ledger.userInfo == s.userInfo + [NewUserInfo(b, st.identityUser.value)]
            && st.ledger.logs == s.logs
            && st.reply.user.userID == identity(b.email, b.password, b.displayName).uid
            && AvailableBalance(st.reply.user) == InitialBalance(b.initialBalance))
  {
  }

  /** Account creation keeps user ids unique, so the debit workflows find at
      most one account per user. */
  lemma CreateUserKeepsIdsUnique(s: StoreValue, b: CreateUserBody, identity: (string, string, string) -> IdentityOutcome)
    requires UniqueUserIds(s.userInfo)
    ensures UniqueUserIds(CreateUserStep(s, b, identity).ledger.userInfo)
  {
  }

  /** After a 201 the new account is the one the debit workflows find for
      that uid, with the initial balance available. */
  lemma CreatedUserIsFound(s: StoreValue, b: CreateUserBody, identity: (string, string, string) -> IdentityOutcome)
    requires CreateUserStep(s, b, identity).reply.Created?
    ensures var st := CreateUserStep(s, b, identity);
      && FindUser(st.ledger.userInfo, st.reply.user.userID) == Some(|s.userInfo|)
      && AvailableBalance(st.ledger.userInfo[|s.userInfo|]) == InitialBalance(b.initialBalance)
  {
    var uid := identity(b.email, b.password, b.displayName).uid;
    var docs := s.userInfo + [NewUserInfo(b, uid)];
    assert FindUser(s.userInfo, uid).None?;
    assert forall k :: 0 <= k < |s.userInfo| ==> docs[k].userID != uid;
    assert docs[|s.userInfo|].userID == uid;
  }
}
