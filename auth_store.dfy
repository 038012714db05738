/** The session store of `app/auth/useAuthStore.js`: login by OTP, the two
    persisted keys `authToken` and `userData`, restoring a session at start-up,
    and logout. Network replies and storage faults are parameters; JSON text is
    produced and read by an abstract codec whose round trip is a requirement. */
module AuthStore {
  import opened JsCore

  const TokenKey := "authToken"
  const UserKey := "userData"

  const SendOtpFallback := "Failed to send OTP"
  const VerifyOtpFallback := "Failed to verify OTP"

  /** Device key/value storage: string keys to string values. Writes always succeed. */
  class DeviceStorage {
    var items: map<string, string>

    constructor (items: map<string, string>)
      ensures this.items == items
    {
      this.items := items;
    }

    method GetItem(key: string) returns (v: Option<string>)
      ensures v.Some? <==> key in items
      ensures v.Some? ==> v.value == items[key]
    {
      v := if key in items then Some(items[key]) else None;
    }

    method SetItem(key: string, value: string)
      modifies this
      ensures items == old(items)[key := value]
    {
      items := items[key := value];
    }

    method RemoveItem(key: string)
      modifies this
      ensures items == old(items) - {key}
    {
      items := items - {key};
    }
  }

  /** `JSON.stringify` and `JSON.parse` on flat records. `parse` gives `None` when
      the text does not parse to an object. */
  datatype Codec = Codec(stringify: Record -> string, parse: string -> Option<Record>)

  /** Parsing what was stringified gives the record back, and the JSON text of an
      object is never empty (it is at least `{}`). */
  ghost predicate RoundTrips(json: Codec) {
    forall r :: WellFormed(r) ==> json.stringify(r) != "" && json.parse(json.stringify(r)) == Some(r)
  }

  /** The token of a verify response: present only when it is a non-empty string. */
  function SessionToken(response: Record): (t: Option<string>)
    ensures t.Some? <==> Get(response, "token").Str? && Get(response, "token").s != ""
    ensures t.Some? ==> Truthy(Get(response, "token")) && Str(t.value) == Get(response, "token")
  {
    match Get(response, "token")
    case Str(s) => if s != "" then Some(s) else None
    case _ => None
  }

  /** The user record `{ customerId, mobileNumber, ...userData }` built from a
      verify response: the response with its token split off. */
  function UserRecord(response: Record): (user: Record)
    ensures "token" !in user
    ensures Get(user, "customerId") == Get(response, "customerId")
    ensures Get(user, "mobileNumber") == Get(response, "mobileNumber")
  {
    var userData := response - {"customerId", "mobileNumber", "token"};
    Put(Put(userData, "customerId", Get(response, "customerId")), "mobileNumber", Get(response, "mobileNumber"))
  }

  /** The user record keeps every property of the response except the token, and
      holds no `undefined` when the response holds none. */
  lemma UserRecordKeeps(response: Record)
    ensures forall k :: k != "token" ==> Get(UserRecord(response), k) == Get(response, k)
    ensures WellFormed(response) ==> WellFormed(UserRecord(response))
  {
  }

  /** The storage after a login: the token under `authToken`, the user record's JSON under `userData`. */
  function Persisted(items: map<string, string>, token: string, user: Record, json: Codec): (items': map<string, string>)
    ensures TokenKey in items' && items'[TokenKey] == token
    ensures UserKey in items' && items'[UserKey] == json.stringify(user)
    ensures forall k :: k != TokenKey && k != UserKey ==> (k in items' <==> k in items) && (k in items ==> items'[k] == items[k])
  {
    items[TokenKey := token][UserKey := json.stringify(user)]
  }

  /** The request bodies: `{ mobileNumber }` for login and `{ mobileNumber, otp }` for verify. */
  datatype LoginRequest = LoginRequest(mobileNumber: Value)
  datatype VerifyRequest = VerifyRequest(mobileNumber: Value, otp: string)

  /** What the stored keys allow `verifyToken` to restore. */
  datatype Restored = NoSession | Corrupt | Session(token: string, user: Record)

  /** `verifyToken`'s reading of storage: no session when either key is missing or
      empty, a corrupt one when the user data does not parse, else the session. */
  function Restore(items: map<string, string>, json: Codec): (r: Restored)
    ensures r == NoSession <==> (TokenKey !in items || items[TokenKey] == "" || UserKey !in items || items[UserKey] == "")
    ensures r.Session? ==> TokenKey in items && r.token == items[TokenKey] && r.token != ""
    ensures r.Session? ==> UserKey in items && json.parse(items[UserKey]) == Some(r.user)
    ensures r == Corrupt ==> UserKey in items && json.parse(items[UserKey]).None?
  {
    if TokenKey !in items || items[TokenKey] == "" || UserKey !in items || items[UserKey] == "" then NoSession
    else match json.parse(items[UserKey])
      case None => Corrupt
      case Some(user) => Session(items[TokenKey], user)
  }

  /** Persist then restore: a login's storage restores the same token and user, and
      the restored customerId and mobileNumber equal those of the response. */
  lemma PersistThenRestore(items: map<string, string>, response: Record, json: Codec)
    requires RoundTrips(json) && WellFormed(response)
    requires SessionToken(response).Some?
    ensures var restored := Restore(Persisted(items, SessionToken(response).value, UserRecord(response), json), json);
      && restored == Session(SessionToken(response).value, UserRecord(response))
      && Get(restored.user, "customerId") == Get(response, "customerId")
      && Get(restored.user, "mobileNumber") == Get(response, "mobileNumber")
      && "token" !in restored.user
  {
    var user := UserRecord(response);
    UserRecordKeeps(response);
    assert json.stringify(user) != "" && json.parse(json.stringify(user)) == Some(user);
  }

  /** After a logout nothing is restored. */
  lemma ClearedRestoresNothing(items: map<string, string>, json: Codec)
    ensures Restore(items - {TokenKey, UserKey}, json) == NoSession
  {
  }

  /** The store. `disk` is the device storage, `json` the codec. */
  class Store {
    const disk: DeviceStorage
    const json: Codec
    var mobileNumber: Value
    var otp: string
    var loading: bool
    var error: Option<string>
    var isOtpSent: bool
    var isAuthenticated: bool
    var customerId: Value
    var user: Option<Record>
    var token: Option<string>

    /** The authentication invariant: an authenticated store holds a non-empty token and a user. */
    ghost predicate Valid()
      reads this`isAuthenticated, this`token, this`user
    {
      && RoundTrips(json)
      && (isAuthenticated ==> token.Some? && token.value != "" && user.Some?)
    }

    constructor (disk: DeviceStorage, json: Codec)
      requires RoundTrips(json)
      ensures Valid() && this.disk == disk && this.json == json
      ensures mobileNumber == Str("") && otp == "" && !loading && error == None
      ensures !isOtpSent && !isAuthenticated && customerId == Null && user == None && token == None
    {
      this.disk := disk;
      this.json := json;
      mobileNumber, otp, loading, error := Str(""), "", false, None;
      isOtpSent, isAuthenticated := false, false;
      customerId, user, token := Null, None, None;
    }

    method SetMobileNumber(number: string)
      modifies this`mobileNumber
      ensures mobileNumber == Str(number)
    {
      mobileNumber := Str(number);
    }

    method SetOtp(code: string)
      modifies this`otp
      ensures otp == code
    {
      otp := code;
    }

    method SetLoading(value: bool)
      modifies this`loading
      ensures loading == value
    {
      loading := value;
    }

    method SetError(value: Option<string>)
      modifies this`error
      ensures error == value
    {
      error := value;
    }

    /** Saves a verify response: storage first, then the in-memory session. */
    method SetAuthData(response: Record)
      requires Valid() && WellFormed(response)
      requires SessionToken(response).Some?
      modifies disk, this`isAuthenticated, this`customerId, this`mobileNumber, this`token, this`user, this`error
      ensures Valid()
      ensures disk.items == Persisted(old(disk.items), SessionToken(response).value, UserRecord(response), json)
      ensures isAuthenticated && token == SessionToken(response) && user == Some(UserRecord(response))
      ensures customerId == Get(response, "customerId") && mobileNumber == Get(response, "mobileNumber")
      ensures error == None
    {
      var t := SessionToken(response).value;
      var u := UserRecord(response);
      ghost var stored := Persisted(disk.items, t, u, json);
      disk.SetItem(TokenKey, t);
      disk.SetItem(UserKey, json.stringify(u));
      assert disk.items == stored;
      isAuthenticated, customerId, mobileNumber, token := true, Get(response, "customerId"), Get(response, "mobileNumber"), Some(t);
      user, error := Some(u), None;
    }

    /** Removes both stored keys and resets the session; `loading` and `error` are kept. */
    method ClearAuthData()
      requires Valid()
      modifies disk, this`isAuthenticated, this`customerId, this`user, this`token, this`mobileNumber, this`otp, this`isOtpSent
      ensures Valid()
      ensures disk.items == old(disk.items) - {TokenKey, UserKey}
      ensures !isAuthenticated && customerId == Null && user == None && token == None
      ensures mobileNumber == Str("") && otp == "" && !isOtpSent
    {
      disk.RemoveItem(TokenKey);
      disk.RemoveItem(UserKey);
      isAuthenticated, customerId, user, token := false, Null, None, None;
      mobileNumber, otp, isOtpSent := Str(""), "", false;
    }

    /** Posts the mobile number to the login endpoint; `reply` is the server's answer.
        Returns the body posted and how the action settles. */
    method SendOtp(reply: Reply<Record>) returns (body: LoginRequest, result: Outcome<Record>)
      requires Valid()
      modifies this`loading, this`error, this`isOtpSent
      ensures Valid() && !loading
      ensures body == LoginRequest(old(mobileNumber))
      ensures reply.Ok? ==> result == Resolved(reply.data) && isOtpSent && error == None
      ensures reply.Failed? ==> var m := OrElse(reply.message, SendOtpFallback);
        result == Thrown(m) && error == Some(m) && isOtpSent == old(isOtpSent)
    {
      loading, error := true, None;
      body := LoginRequest(mobileNumber);
      match reply {
        case Ok(data) =>
          isOtpSent := true;
          result := Resolved(data);
        case Failed(message) =>
          var m := OrElse(message, SendOtpFallback);
          error := Some(m);
          result := Thrown(m);
      }
      loading := false;
    }

    /** Posts the mobile number and the OTP to the verify endpoint. A reply without a
        token is a failure; a reply with one is persisted and authenticates the store. */
    method VerifyOtp(reply: Reply<Record>) returns (body: VerifyRequest, result: Outcome<Record>)
      requires Valid()
      requires reply.Ok? ==> WellFormed(reply.data)
      modifies disk, this`loading, this`error, this`isAuthenticated, this`customerId, this`mobileNumber, this`token, this`user
      ensures Valid() && !loading
      ensures body == VerifyRequest(old(mobileNumber), old(otp))
      ensures otp == old(otp) && isOtpSent == old(isOtpSent)
      ensures reply.Ok? && SessionToken(reply.data).Some? ==>
        && result == Resolved(reply.data) && error == None
        && isAuthenticated && token == SessionToken(reply.data) && user == Some(UserRecord(reply.data))
        && customerId == Get(reply.data, "customerId") && mobileNumber == Get(reply.data, "mobileNumber")
        && disk.items == Persisted(old(disk.items), token.value, UserRecord(reply.data), json)
      ensures !(reply.Ok? && SessionToken(reply.data).Some?) ==>
        var m := OrElse(if reply.Failed? then reply.message else None, VerifyOtpFallback);
        && result == Thrown(m) && error == Some(m)
        && isAuthenticated == old(isAuthenticated) && token == old(token) && user == old(user)
        && customerId == old(customerId) && mobileNumber == old(mobileNumber)
        && disk.items == old(disk.items)
    {
      loading, error := true, None;
      body := VerifyRequest(mobileNumber, otp);
      if reply.Ok? && SessionToken(reply.data).Some? {
        SetAuthData(reply.data);
        result := Resolved(reply.data);
      } else {
        // a reply without a token throws a bare Error, which carries no server message
        var m := OrElse(if reply.Failed? then reply.message else None, VerifyOtpFallback);
        error := Some(m);
        result := Thrown(m);
      }
      loading := false;
    }

    /** Restores the session from storage. `readFault` says that reading storage throws.
        Any fault or unparsable user data clears the session and answers false. */
    method VerifyToken(readFault: bool) returns (ok: bool)
      requires Valid()
      modifies disk, this
      ensures Valid()
      ensures loading == old(loading) && error == old(error)
      ensures var r := Restore(old(disk.items), json);
        && (ok <==> !readFault && r.Session?)
        && (!readFault && r == NoSession ==> unchanged(this) && disk.items == old(disk.items))
        && (!readFault && r.Session? ==>
              && isAuthenticated && token == Some(r.token) && user == Some(r.user)
              && customerId == Get(r.user, "customerId") && mobileNumber == Get(r.user, "mobileNumber")
              && otp == old(otp) && isOtpSent == old(isOtpSent) && disk.items == old(disk.items))
        && (readFault || r == Corrupt ==>
              && !isAuthenticated && token == None && user == None && customerId == Null
              && mobileNumber == Str("") && otp == "" && !isOtpSent
              && disk.items == old(disk.items) - {TokenKey, UserKey})
    {
      if readFault {
        ClearAuthData();
        return false;
      }
      var storedToken := disk.GetItem(TokenKey);
      var userDataString := disk.GetItem(UserKey);
      if storedToken.None? || storedToken.value == "" || userDataString.None? || userDataString.value == "" {
        return false;
      }
      var userData := json.parse(userDataString.value);
      if userData.None? {
        ClearAuthData();
        return false;
      }
      isAuthenticated, customerId, mobileNumber := true, Get(userData.value, "customerId"), Get(userData.value, "mobileNumber");
      token, user := Some(storedToken.value), Some(userData.value);
      return true;
    }

    /** Client-side logout: clears storage and session (navigation is not modelled). */
    method Logout()
      requires Valid()
      modifies disk, this`isAuthenticated, this`customerId, this`user, this`token, this`mobileNumber, this`otp, this`isOtpSent
      ensures Valid()
      ensures disk.items == old(disk.items) - {TokenKey, UserKey}
      ensures !isAuthenticated && customerId == Null && user == None && token == None
      ensures mobileNumber == Str("") && otp == "" && !isOtpSent
      ensures Restore(disk.items, json) == NoSession
    {
      ClearAuthData();
      ClearedRestoresNothing(old(disk.items), json);
    }

    /** Start-up restore: the answer of `VerifyToken`. */
    method InitializeAuth(readFault: bool) returns (ok: bool)
      requires Valid()
      modifies disk, this
      ensures Valid()
      ensures loading == old(loading) && error == old(error)
      ensures var r := Restore(old(disk.items), json);
        && (ok <==> !readFault && r.Session?)
        && (!readFault && r == NoSession ==> unchanged(this) && disk.items == old(disk.items))
        && (!readFault && r.Session? ==>
              && isAuthenticated && token == Some(r.token) && user == Some(r.user)
              && customerId == Get(r.user, "customerId") && mobileNumber == Get(r.user, "mobileNumber")
              && otp == old(otp) && isOtpSent == old(isOtpSent) && disk.items == old(disk.items))
        && (readFault || r == Corrupt ==>
              && !isAuthenticated && token == None && user == None && customerId == Null
              && mobileNumber == Str("") && otp == "" && !isOtpSent
              && disk.items == old(disk.items) - {TokenKey, UserKey})
    {
      ok := VerifyToken(readFault);
    }
  }

  /** A login followed by a start-up restore on the same store: the restore succeeds
      and yields the same token and user, with customerId and mobileNumber re-read from the user record. */
  method LoginThenRestore(store: Store, response: Record) returns (ok: bool)
    requires store.Valid() && WellFormed(response) && SessionToken(response).Some?
    modifies store.disk, store
    ensures store.Valid() && ok && store.isAuthenticated
    ensures store.token == SessionToken(response) && store.user == Some(UserRecord(response))
    ensures store.customerId == Get(response, "customerId") && store.mobileNumber == Get(response, "mobileNumber")
  {
    store.SetAuthData(response);
    PersistThenRestore(old(store.disk.items), response, store.json);
    ok := store.VerifyToken(false);
  }
}
