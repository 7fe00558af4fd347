/** The dashboard's token and tenant-id accessors
    (apps/dashboard/src/auth/storage.ts) over `localStorage`. */
module SessionStore {
  import opened Wrappers
  import opened Browser

  const TokenKey: string := "ragodesk_token"
  const TenantKey: string := "ragodesk_tenant_id"

  /** `getToken`: the stored token, or null. */
  function GetToken(store: LocalStorage): (r: Option<string>)
    reads store
    ensures r.Some? <==> TokenKey in store.items
  {
    store.GetItem(TokenKey)
  }

  /** `getTenantId`: the stored tenant id, or null. */
  function GetTenantId(store: LocalStorage): (r: Option<string>)
    reads store
    ensures r.Some? <==> TenantKey in store.items
  {
    store.GetItem(TenantKey)
  }

  /** `setToken`: reading it back gives `token`; the tenant id and every
      other entry are untouched. */
  method SetToken(store: LocalStorage, token: string)
    modifies store
    ensures GetToken(store) == Some(token)
    ensures GetTenantId(store) == old(GetTenantId(store))
    ensures forall k :: k != TokenKey ==> store.GetItem(k) == old(store.GetItem(k))
  {
    store.SetItem(TokenKey, token);
  }

  /** `clearToken`: reading it back gives null; nothing else changes. */
  method ClearToken(store: LocalStorage)
    modifies store
    ensures GetToken(store) == None
    ensures GetTenantId(store) == old(GetTenantId(store))
    ensures forall k :: k != TokenKey ==> store.GetItem(k) == old(store.GetItem(k))
  {
    store.RemoveItem(TokenKey);
  }

  /** `setTenantId`: the same round trip for the tenant id. */
  method SetTenantId(store: LocalStorage, tenantId: string)
    modifies store
    ensures GetTenantId(store) == Some(tenantId)
    ensures GetToken(store) == old(GetToken(store))
    ensures forall k :: k != TenantKey ==> store.GetItem(k) == old(store.GetItem(k))
  {
    store.SetItem(TenantKey, tenantId);
  }

  /** `clearTenantId` */
  method ClearTenantId(store: LocalStorage)
    modifies store
    ensures GetTenantId(store) == None
    ensures GetToken(store) == old(GetToken(store))
    ensures forall k :: k != TenantKey ==> store.GetItem(k) == old(store.GetItem(k))
  {
    store.RemoveItem(TenantKey);
  }
}
