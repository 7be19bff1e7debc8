/**
 * The authentication context (src/context/AuthContext.tsx): the clean-up that strips
 * Supabase's auth entries out of the browser's key/value stores before every sign-in,
 * sign-up and sign-out, and the `useAuth` guard.
 */
module AuthContext {
  import opened Common
  import opened Text

  const TokenKey := "supabase.auth.token"

  /** A key Supabase uses for auth state: prefixed `supabase.auth.` or containing `sb-`. */
  function IsAuthKey(key: string): (b: bool)
    ensures b <==> StartsWith(key, "supabase.auth.") || exists i :: OccursAt(key, "sb-", i)
  {
    ContainsIff(key, "sb-");
    StartsWith(key, "supabase.auth.") || Contains(key, "sb-")
  }

  /** The store with every auth key gone and every other entry as it was. */
  function WithoutAuthKeys(items: map<string, string>): (r: map<string, string>)
    ensures forall k :: k in r <==> k in items && !IsAuthKey(k)
    ensures forall k :: k in r ==> r[k] == items[k]
  {
    map k | k in items && !IsAuthKey(k) :: items[k]
  }

  /** The key removed by name is itself an auth key. */
  lemma TokenIsAuthKey()
    ensures IsAuthKey(TokenKey)
  {
    assert TokenKey[..|"supabase.auth."|] == "supabase.auth.";
  }

  /** Removing the token key first makes no difference to the result of the filter. */
  lemma TokenRemovalRedundant(items: map<string, string>)
    ensures WithoutAuthKeys(items - {TokenKey}) == WithoutAuthKeys(items)
  {
    TokenIsAuthKey();
  }

  /** Cleaning up twice is the same as cleaning up once. */
  lemma CleanupIdempotent(items: map<string, string>)
    ensures WithoutAuthKeys(WithoutAuthKeys(items)) == WithoutAuthKeys(items)
  {
  }

  /** One of the browser's `Storage` objects. */
  class Storage {
    var items: map<string, string>

    constructor (items: map<string, string>)
      ensures this.items == items
    {
      this.items := items;
    }

    /** `removeItem`: drops the key if present. */
    method RemoveItem(key: string)
      modifies this
      ensures items == old(items) - {key}
    {
      items := items - {key};
    }
  }

  /**
   * The `Object.keys(store).forEach(...)` loop: every key of a snapshot taken before the
   * loop is examined once, and the auth keys are removed from the store.
   */
  method RemoveAuthKeys(store: Storage)
    modifies store
    ensures store.items == WithoutAuthKeys(old(store.items))
  {
    ghost var original := store.items;
    var keys := store.items.Keys;
    while keys != {}
      invariant keys <= original.Keys
      invariant store.items == map k | k in original && (k in keys || !IsAuthKey(k)) :: original[k]
      decreases |keys|
    {
      var key :| key in keys;
      if IsAuthKey(key) {
        store.RemoveItem(key);
      }
      keys := keys - {key};
    }
  }

  /** `cleanupAuthState` over local and session storage, two distinct stores. */
  method CleanupAuthState(local: Storage, session: Storage)
    requires local != session
    modifies local, session
    ensures local.items == WithoutAuthKeys(old(local.items))
    ensures session.items == WithoutAuthKeys(old(session.items))
  {
    TokenRemovalRedundant(local.items);
    local.RemoveItem(TokenKey);
    RemoveAuthKeys(local);
    RemoveAuthKeys(session);
  }

  /** The outcome of `useAuth`: the context value, or the error it throws. */
  datatype Outcome<T> = Value(value: T) | Thrown(message: string)

  const OutsideProvider := "useAuth must be used within an AuthProvider"

  /** `useAuth`: the provided context, or an error when no provider is above the caller. */
  function UseAuth<T>(context: Option<T>): (r: Outcome<T>)
    ensures r.Value? <==> context.Some?
    ensures context.Some? ==> r.value == context.value
    ensures r.Thrown? ==> r.message == OutsideProvider
  {
    match context
    case Some(c) => Value(c)
    case None => Thrown(OutsideProvider)
  }
}
