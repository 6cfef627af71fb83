/**
 * The authentication context: the `user` state cell and the `progres_user`
 * entry of browser storage, which `login` and `logout` keep in step.
 * Storage is a map from keys to the stored text.
 */
module Session {
  import opened JsValues
  import opened UserCodec
  import Api

  const StorageKey := "progres_user"

  /**
   * The lazy initial value of `user`: the parsed `progres_user` entry when it
   * is truthy, else `null`. A malformed entry makes `JSON.parse` throw, which
   * nothing catches (the `Err` case).
   */
  function Restore(storage: map<string, string>): Result<Option<User>> {
    if StorageKey in storage && storage[StorageKey] != "" then Decode(storage[StorageKey]) else Ok(None)
  }

  /** The storage after a successful login. */
  function StoredAfterLogin(storage: map<string, string>, u: User): map<string, string> {
    storage[StorageKey := Encode(u)]
  }

  /** The storage after a logout. */
  function StoredAfterLogout(storage: map<string, string>): map<string, string> {
    storage - {StorageKey}
  }

  /** A reload after a login rebuilds exactly the user that logged in. */
  lemma ReloadAfterLogin(storage: map<string, string>, u: User)
    ensures Restore(StoredAfterLogin(storage, u)) == Ok(Some(u))
  {
    DecodeEncode(u);
    assert Encode(u)[0] == '{';
  }

  /** A reload after a logout finds no user. */
  lemma ReloadAfterLogout(storage: map<string, string>)
    ensures Restore(StoredAfterLogout(storage)) == Ok(None)
  {
  }

  /** Logging out twice leaves the same storage as logging out once. */
  lemma LogoutIdempotent(storage: map<string, string>)
    ensures StoredAfterLogout(StoredAfterLogout(storage)) == StoredAfterLogout(storage)
  {
  }

  /** Login and logout change no storage entry other than `progres_user`. */
  lemma OnlyOwnKeyWritten(storage: map<string, string>, u: User, k: string)
    requires k != StorageKey
    ensures k in StoredAfterLogin(storage, u) <==> k in storage
    ensures k in StoredAfterLogout(storage) <==> k in storage
    ensures k in storage ==> StoredAfterLogin(storage, u)[k] == storage[k] && StoredAfterLogout(storage)[k] == storage[k]
  {
  }

  /** The restored user depends on the `progres_user` entry alone. */
  lemma OnlyOwnKeyRead(s1: map<string, string>, s2: map<string, string>)
    requires StorageKey in s1 <==> StorageKey in s2
    requires StorageKey in s1 ==> s1[StorageKey] == s2[StorageKey]
    ensures Restore(s1) == Restore(s2)
  {
  }

  class AuthStore {
    var user: Option<User>
    var storage: map<string, string>

    /** The in-memory user is what a reload would restore from storage. */
    ghost predicate Consistent()
      reads this
    {
      Restore(storage) == Ok(user)
    }

    /** `AuthProvider` mounting over the persisted storage (it throws on a malformed entry). */
    constructor (persisted: map<string, string>)
      requires Restore(persisted).Ok?
      ensures storage == persisted && user == Restore(persisted).value
      ensures Consistent()
    {
      storage := persisted;
      user := Restore(persisted).value;
    }

    /**
     * `login`: the backend call is awaited before anything is written, so a
     * rejection leaves both cells as they were and is passed on.
     */
    method Login(username: string, password: string, send: Api.Request -> Api.HttpReply<User>) returns (r: Result<()>)
      requires Consistent()
      modifies this
      ensures Consistent()
      ensures var reply := Api.Login(send, username, password);
              && (r.Ok? <==> reply.Ok?)
              && (reply.Ok? ==> user == Some(reply.value) && storage == StoredAfterLogin(old(storage), reply.value))
              && (reply.Err? ==> r.error == reply.error && user == old(user) && storage == old(storage))
    {
      var reply := Api.Login(send, username, password);
      match reply
      case Err(e) =>
        r := Err(e);
      case Ok(data) =>
        user := Some(data);
        storage := StoredAfterLogin(storage, data);
        ReloadAfterLogin(old(storage), data);
        r := Ok(());
    }

    /** `logout`: no user and no `progres_user` entry. */
    method Logout()
      modifies this
      ensures user == None && storage == StoredAfterLogout(old(storage))
      ensures Consistent()
    {
      user := None;
      storage := StoredAfterLogout(storage);
    }
  }
}
