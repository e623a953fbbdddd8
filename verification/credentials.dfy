/**
 * The browser's credential storage as the frontend uses it: a string-keyed
 * store (`localStorage`) holding the access token under "access" and the
 * refresh token under "refresh" (frontend/src/axios/index.ts), and the
 * `isLogged` predicate of frontend/src/context/AuthContext.ts.
 */
module Credentials {
  import opened Wrappers

  /** The key store: a missing key is `getItem` returning null. */
  type Storage = map<string, string>

  const AccessKey: string := "access"
  const RefreshKey: string := "refresh"

  /** `localStorage.getItem`. */
  function GetItem(st: Storage, key: string): (r: Option<string>)
    ensures r.Some? <==> key in st
    ensures r.Some? ==> st[key] == r.value
  {
    if key in st then Some(st[key]) else None
  }

  /** `isLogged`: both tokens are present; the store is only read. */
  function IsLogged(st: Storage): (r: bool)
    ensures r <==> AccessKey in st && RefreshKey in st
  {
    GetItem(st, AccessKey) != None && GetItem(st, RefreshKey) != None
  }

  /** Writing both tokens: the two keys hold the new values and every other key is kept. */
  function StoreTokens(st: Storage, access: string, refresh: string): (r: Storage)
    ensures GetItem(r, AccessKey) == Some(access) && GetItem(r, RefreshKey) == Some(refresh)
    ensures forall k :: k != AccessKey && k != RefreshKey ==> GetItem(r, k) == GetItem(st, k)
  {
    st[AccessKey := access][RefreshKey := refresh]
  }

  /** Removing both tokens (refresh failure, logout); every other key is kept. */
  function ClearTokens(st: Storage): (r: Storage)
    ensures GetItem(r, AccessKey).None? && GetItem(r, RefreshKey).None?
    ensures forall k :: k != AccessKey && k != RefreshKey ==> GetItem(r, k) == GetItem(st, k)
  {
    st - {AccessKey, RefreshKey}
  }

  /** Writing a fresh access token leaves the refresh token and everything else alone. */
  function StoreAccess(st: Storage, access: string): (r: Storage)
    ensures GetItem(r, AccessKey) == Some(access)
    ensures forall k :: k != AccessKey ==> GetItem(r, k) == GetItem(st, k)
  {
    st[AccessKey := access]
  }

  /** A session is logged in after both tokens are written and logged out after they are cleared. */
  lemma LoginLogout(st: Storage, access: string, refresh: string)
    ensures IsLogged(StoreTokens(st, access, refresh))
    ensures !IsLogged(ClearTokens(st))
  {
    assert AccessKey != RefreshKey;
  }

  /** With exactly one of the two tokens present the user is not logged in. */
  lemma OneTokenIsNotLogged(st: Storage)
    requires (AccessKey in st) != (RefreshKey in st)
    ensures !IsLogged(st)
  {
  }

  /** Refreshing the access token keeps a logged-in session logged in. */
  lemma StoreAccessKeepsLogin(st: Storage, access: string)
    ensures IsLogged(StoreAccess(st, access)) <==> RefreshKey in st
  {
    assert AccessKey != RefreshKey;
  }
}
