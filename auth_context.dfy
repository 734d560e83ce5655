/**
 * The session: the signed-in user's stored session string, kept under the
 * `user` key of localStorage with `null` as the default, set by `login` and
 * cleared by `logout`.
 */
module AuthContext {
  import opened Api
  import Json
  import LocalStorage

  const UserKey := "user"
  const OutsideProvider := "useAuth must be used within an AuthProvider"

  /** JSON text round-trips every session value, so the storage hook's read-back applies to it. */
  lemma JsonRoundTrips()
    ensures LocalStorage.RoundTrips(Json.Encode, Json.Decode)
  {
    forall v: Option<string>
      ensures Json.Decode(Json.Encode(v)) == Some(v) && Json.Encode(v) != ""
    {
      Json.DecodeEncode(v);
    }
  }

  class AuthProvider {
    const session: LocalStorage.StoredValue<Option<string>>

    /** The provider's value is the storage hook on key `user`, coded as JSON. */
    ghost predicate Valid() {
      session.key == UserKey && session.encode == Json.Encode && session.decode == Json.Decode
    }

    /** Mounting the provider reads `user` from the store, with `null` as the default. */
    constructor (store: LocalStorage.Storage, readFails: bool)
      ensures Valid() && session.store == store
      ensures User() == LocalStorage.InitialValue(LocalStorage.ReadKey(store.items, UserKey, readFails), Json.Decode, None)
    {
      session := new LocalStorage.StoredValue(store, UserKey, None, Json.Encode, Json.Decode, readFails);
    }

    function User(): Option<string>
      reads session
    {
      session.value
    }

    /** `login(s)`: the user becomes exactly `s`, unchecked, and is written through to the store. */
    method Login(s: string, writeFails: bool)
      requires Valid()
      modifies session, session.store
      ensures User() == Some(s)
      ensures session.store.items ==
        if writeFails then old(session.store.items) else old(session.store.items)[UserKey := Json.Encode(Some(s))]
    {
      session.Set(Some(s), writeFails);
    }

    /** `logout()`: the user becomes `null`, written through to the store. */
    method Logout(writeFails: bool)
      requires Valid()
      modifies session, session.store
      ensures User() == None
      ensures session.store.items ==
        if writeFails then old(session.store.items) else old(session.store.items)[UserKey := Json.Encode(None)]
    {
      session.Set(None, writeFails);
    }
  }

  datatype Result<+T> = Success(value: T) | Failure(error: string)

  /** `useAuth`: the enclosing provider, or the error it raises when there is none. */
  function UseAuth(context: Option<AuthProvider>): (r: Result<AuthProvider>)
    ensures r.Failure? <==> context.None?
    ensures r.Success? ==> r.value == context.value
    ensures r.Failure? ==> r.error == OutsideProvider
  {
    if context.None? then Failure(OutsideProvider) else Success(context.value)
  }

  // ---------------------------------------------------------------------------
  // Sequences of session calls

  datatype SessionCall = LoginCall(session: string) | LogoutCall

  /** The user one call sets. */
  function Written(c: SessionCall): Option<string> {
    match c
    case LoginCall(s) => Some(s)
    case LogoutCall => None
  }

  /** The store after a sequence of calls that all write successfully. */
  function StoreAfter(items: map<string, string>, calls: seq<SessionCall>): map<string, string>
    decreases |calls|
  {
    if calls == [] then items else StoreAfter(items[UserKey := Json.Encode(Written(calls[0]))], calls[1..])
  }

  /** One more successful call writes its user over what the earlier ones left. */
  lemma {:induction false} StoreAfterAppend(items: map<string, string>, calls: seq<SessionCall>, c: SessionCall)
    ensures StoreAfter(items, calls + [c]) == StoreAfter(items, calls)[UserKey := Json.Encode(Written(c))]
    decreases |calls|
  {
    if calls == [] {
      assert calls + [c] == [c];
    } else {
      assert (calls + [c])[1..] == calls[1..] + [c];
      StoreAfterAppend(items[UserKey := Json.Encode(Written(calls[0]))], calls[1..], c);
    }
  }

  /** Calls that write successfully change no key of the store but `user`. */
  lemma {:induction false} StoreAfterTouchesOnlyUser(items: map<string, string>, calls: seq<SessionCall>, key: string)
    requires key != UserKey
    ensures key in StoreAfter(items, calls) <==> key in items
    ensures key in items ==> StoreAfter(items, calls)[key] == items[key]
    decreases |calls|
  {
    if calls != [] {
      StoreAfterTouchesOnlyUser(items[UserKey := Json.Encode(Written(calls[0]))], calls[1..], key);
    }
  }

  /**
   * A provider mounted after a sequence of successful writes starts at the
   * user of the last one: the session survives a reload.
   */
  lemma {:induction false} ReloadSeesLastWrite(items: map<string, string>, calls: seq<SessionCall>)
    requires calls != []
    ensures LocalStorage.InitialValue(LocalStorage.ReadKey(StoreAfter(items, calls), UserKey, false), Json.Decode, None)
         == Written(calls[|calls| - 1])
    decreases |calls|
  {
    if |calls| == 1 {
      JsonRoundTrips();
      LocalStorage.ReadBackAfterWrite(items, UserKey, Written(calls[0]), Json.Encode, Json.Decode, None);
    } else {
      ReloadSeesLastWrite(items[UserKey := Json.Encode(Written(calls[0]))], calls[1..]);
    }
  }

  /**
   * A sequence of `login` and `logout` calls on one provider, every write
   * succeeding. The last call decides the user (`login(s); logout()` ends
   * signed out, `logout(); login(s)` ends at `s`), the store holds what the
   * calls wrote, and a provider mounted afterwards on that store starts at the
   * same user.
   */
  method RunCalls(auth: AuthProvider, calls: seq<SessionCall>)
    requires auth.Valid()
    modifies auth.session, auth.session.store
    ensures calls == [] ==> auth.User() == old(auth.User())
    ensures calls != [] ==> auth.User() == Written(calls[|calls| - 1])
    ensures auth.session.store.items == StoreAfter(old(auth.session.store.items), calls)
    ensures calls != [] ==>
      LocalStorage.InitialValue(LocalStorage.ReadKey(auth.session.store.items, UserKey, false), Json.Decode, None)
      == auth.User()
  {
    var items0 := auth.session.store.items;
    var i := 0;
    while i < |calls|
      invariant 0 <= i <= |calls|
      invariant i == 0 ==> auth.User() == old(auth.User())
      invariant i > 0 ==> auth.User() == Written(calls[i - 1])
      invariant auth.session.store.items == StoreAfter(items0, calls[..i])
    {
      StoreAfterAppend(items0, calls[..i], calls[i]);
      assert calls[..i + 1] == calls[..i] + [calls[i]];
      match calls[i] {
        case LoginCall(s) => auth.Login(s, false);
        case LogoutCall => auth.Logout(false);
      }
      i := i + 1;
    }
    assert calls[..|calls|] == calls;
    if calls != [] {
      ReloadSeesLastWrite(items0, calls);
    }
  }
}
