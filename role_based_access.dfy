/** The role-gated wrapper: it shows its children only to a signed-in user
    whose stored role is one of the allowed roles. */
module RoleBasedAccess {
  import opened Outcomes
  import opened Storage

  /** What the component produces: nothing, exactly its children, the
      exception `JSON.parse` throws on a stored user that is not JSON, or the
      `TypeError` of calling `includes` on an absent `allowedRoles` prop. */
  datatype Rendered<C> = Nothing | Children(content: C) | ParseError | RolesMissing

  /** A non-empty user text is stored; `!userStr` rejects null and "". */
  predicate SignedIn(items: Items)
  {
    UserKey in items && items[UserKey] != ""
  }

  /** The component; `allowedRoles` is `None` when the prop is not given. */
  function Render<C>(items: Items, codec: UserCodec, allowedRoles: Option<seq<string>>, children: C): (r: Rendered<C>)
    ensures !SignedIn(items) ==> r.Nothing?
    ensures r.ParseError? <==> SignedIn(items) && codec.decode(items[UserKey]).None?
    ensures r.RolesMissing? <==>
      SignedIn(items) && codec.decode(items[UserKey]).Some? && allowedRoles.None?
    ensures r.Children? <==>
      SignedIn(items) && codec.decode(items[UserKey]).Some? && allowedRoles.Some? &&
      codec.decode(items[UserKey]).value.role in allowedRoles.value
    ensures r.Children? ==> r.content == children
  {
    if !SignedIn(items) then Nothing
    else
      match codec.decode(items[UserKey])
      case None => ParseError
      case Some(user) =>
        match allowedRoles
        case None => RolesMissing
        case Some(roles) => if user.role in roles then Children(children) else Nothing
  }

  /** An empty role list hides the children from every user: there is no
      "any signed-in role" default. */
  lemma EmptyRolesHide<C>(items: Items, codec: UserCodec, children: C)
    ensures !Render(items, codec, Some([]), children).Children?
  {
  }

  /** Only the stored user's role matters, not the other fields of the record
      nor the rest of the storage. */
  lemma OnlyRoleMatters<C>(items1: Items, items2: Items, codec: UserCodec,
                           allowedRoles: Option<seq<string>>, children: C)
    requires SignedIn(items1) && SignedIn(items2)
    requires codec.decode(items1[UserKey]).Some? && codec.decode(items2[UserKey]).Some?
    requires codec.decode(items1[UserKey]).value.role == codec.decode(items2[UserKey]).value.role
    ensures Render(items1, codec, allowedRoles, children) == Render(items2, codec, allowedRoles, children)
  {
  }

  /** With the user record written as JSON text, the component shows its
      children exactly when the record's role is allowed, and never throws. */
  lemma StoredUserDecides<C>(items: Items, codec: UserCodec, user: User,
                             allowedRoles: seq<string>, children: C)
    requires Faithful(codec)
    requires UserKey in items && items[UserKey] == codec.encode(user)
    ensures Render(items, codec, Some(allowedRoles), children) ==
      if user.role in allowedRoles then Children(children) else Nothing
    ensures Render(items, codec, None, children) == RolesMissing
  {
    assert codec.decode(codec.encode(user)) == Some(user) && codec.encode(user) != "";
  }
}
