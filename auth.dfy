/**
 * The mock session store (src/context/AuthContext.tsx): anonymous (`None`)
 * or signed in as one user, kept in step with a storage slot.
 */
module Auth {
  import opened Wrappers
  import opened Persistence

  const StorageKey: string := "lovable_auth_user_v1"

  /** `{ id, email }`; the email is `string | null`. */
  datatype User = User(id: string, email: Option<string>)

  /** What the mount effect reads: the stored user (which may be a stored `null`),
      or anonymous when the slot is absent or unparsable. */
  function InitialUser(saved: map<string, Snapshot<Option<User>>>): (u: Option<User>)
    ensures StorageKey in saved && saved[StorageKey].Stored? ==> u == saved[StorageKey].value
    ensures StorageKey !in saved || saved[StorageKey].Corrupt? ==> u.None?
  {
    Load(saved, StorageKey).GetOr(None)
  }

  /** The storage half of `persist`: write a signed-in user, delete the slot for anonymous. */
  function PersistedStorage(storage: map<string, Snapshot<Option<User>>>, next: Option<User>)
    : (r: map<string, Snapshot<Option<User>>>)
    ensures next.Some? ==> StorageKey in r && r[StorageKey] == Stored(next)
    ensures next.None? ==> StorageKey !in r
    ensures r.Keys - {StorageKey} == storage.Keys - {StorageKey}
    ensures forall k :: k in storage && k != StorageKey ==> k in r && r[k] == storage[k]
  {
    if next.Some? then Save(storage, StorageKey, next) else Delete(storage, StorageKey)
  }

  /** After `persist(next)`, loading from scratch yields `next`: sign-in survives a
      reload and sign-out reloads as anonymous. */
  lemma PersistThenReload(storage: map<string, Snapshot<Option<User>>>, next: Option<User>)
    ensures InitialUser(PersistedStorage(storage, next)) == next
  {
  }

  class AuthStore {
    var user: Option<User>
    var loading: bool
    var storage: map<string, Snapshot<Option<User>>>

    /** Loading from the current storage reproduces the current user. */
    ghost predicate InStep()
      reads this
    {
      InitialUser(storage) == user
    }

    /** The first render: anonymous and still loading. */
    constructor (saved: map<string, Snapshot<Option<User>>>)
      ensures user == None && loading
      ensures storage == saved
    {
      user := None;
      loading := true;
      storage := saved;
    }

    /** The mount effect: read the slot, then stop loading whatever happened. */
    method Load()
      modifies this
      ensures user == InitialUser(old(storage))
      ensures !loading
      ensures storage == old(storage)
      ensures InStep()
    {
      user := InitialUser(storage);
      loading := false;
    }

    /** `persist(next)` */
    method Persist(next: Option<User>)
      modifies this
      ensures user == next
      ensures storage == PersistedStorage(old(storage), next)
      ensures loading == old(loading)
      ensures InStep()
    {
      user := next;
      storage := PersistedStorage(storage, next);
      PersistThenReload(old(storage), next);
    }

    /** `signIn(email, password)`: accepts any credentials and replaces any previous
        identity with a new one under `freshId`; the password is not looked at. */
    method SignIn(email: string, password: string, freshId: string) returns (error: Option<string>)
      requires user.None? || user.value.id != freshId
      modifies this
      ensures error.None?
      ensures user == Some(User(freshId, Some(email)))
      ensures old(user).Some? ==> user != old(user)
      ensures storage == PersistedStorage(old(storage), user)
      ensures loading == old(loading)
      ensures InStep()
    {
      Persist(Some(User(freshId, Some(email))));
      error := None;
    }

    /** `signUp(email, password)`: the same effect as `SignIn`. */
    method SignUp(email: string, password: string, freshId: string) returns (error: Option<string>)
      requires user.None? || user.value.id != freshId
      modifies this
      ensures error.None?
      ensures user == Some(User(freshId, Some(email)))
      ensures old(user).Some? ==> user != old(user)
      ensures storage == PersistedStorage(old(storage), user)
      ensures loading == old(loading)
      ensures InStep()
    {
      Persist(Some(User(freshId, Some(email))));
      error := None;
    }

    /** `signOut()`: anonymous, and the slot is gone. */
    method SignOut()
      modifies this
      ensures user.None?
      ensures StorageKey !in storage
      ensures storage == PersistedStorage(old(storage), None)
      ensures loading == old(loading)
      ensures InStep()
    {
      Persist(None);
    }
  }

  /** Sign in, sign out, and a reload from the resulting storage is anonymous. */
  method Scenario(saved: map<string, Snapshot<Option<User>>>)
  {
    var session := new AuthStore(saved);
    session.Load();
    var before := session.user;
    var id := if before.Some? then before.value.id + "-next" else "fresh";
    var err := session.SignIn("someone@example.com", "any password", id);
    assert err.None? && session.user.Some? && session.user.value.id == id;
    session.SignOut();
    var reloaded := new AuthStore(session.storage);
    reloaded.Load();
    assert reloaded.user.None? && !reloaded.loading;
  }
}
