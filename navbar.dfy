/** The navigation bar's logout button: the two session keys are removed
    and the page goes to the login screen. */
module Navbar {
  import opened Outcomes
  import opened Storage
  import RoleBasedAccess

  const LoginPath := "/login"

  /** Storage after logout: neither session key is left, and no other key
      is touched. */
  function ClearSession(items: Items): (r: Items)
    ensures TokenKey !in r && UserKey !in r
    ensures SessionConsistent(r)
    ensures r.Keys == items.Keys - {TokenKey, UserKey}
    ensures forall k :: k in r ==> r[k] == items[k]
  {
    items - {TokenKey, UserKey}
  }

  /** Logging out twice leaves storage as logging out once. */
  lemma ClearSessionIdempotent(items: Items)
    ensures ClearSession(ClearSession(items)) == ClearSession(items)
  {
  }

  /** After logout every role-gated region is hidden, whatever its roles,
      and none throws, even one without its roles prop. */
  lemma LogoutHidesGatedContent<C>(items: Items, codec: UserCodec, allowedRoles: Option<seq<string>>, children: C)
    ensures RoleBasedAccess.Render(ClearSession(items), codec, allowedRoles, children).Nothing?
  {
  }

  /** `handleLogout`: `removeItem('token')`, then `removeItem('user')`, then
      navigation to the login page. */
  method HandleLogout(store: LocalStorage) returns (navigation: string)
    modifies store
    ensures store.items == ClearSession(old(store.items))
    ensures navigation == LoginPath
  {
    store.RemoveItem(TokenKey);
    store.RemoveItem(UserKey);
    navigation := LoginPath;
  }
}
