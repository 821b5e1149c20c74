/**
 * Django `Q` objects as the permission views build them: a tree of field
 * lookups joined by `|`. `Q()` carries no condition; `filter(Q())` keeps
 * every row, and `|` with an empty operand returns the other operand
 * unchanged, which is how `Q.__or__` combines.
 */
module Query {
  import opened Store

  /** The field lookups the views use, each read on an asset row. */
  datatype Lookup =
    | PermissionUsers(user: UserId)         // granted_by_permissions__users=user
    | PermissionGroupUsers(user: UserId)    // granted_by_permissions__user_groups__users=user
    | NodeKeyStartsWith(prefix: Key)        // nodes__key__startswith=prefix
    | NodeKeyIs(key: Key)                   // nodes__key=key
    | NodeIdIs(id: NodeId)                  // nodes__id=id

  datatype Q = Empty | Leaf(lookup: Lookup) | Or(left: Q, right: Q)

  /** `granted_by_permissions__users=user` on a row whose permissions are `grantedBy`. */
  predicate HasPermissionUser(st: Store, grantedBy: set<PermId>, user: UserId) {
    exists p :: p in grantedBy && p in st.perms && user in st.perms[p].users
  }

  /** `granted_by_permissions__user_groups__users=user` on a row whose permissions are `grantedBy`. */
  predicate HasPermissionGroupUser(st: Store, grantedBy: set<PermId>, user: UserId) {
    exists p, g :: p in grantedBy && p in st.perms && g in st.perms[p].userGroups &&
                   g in st.groups && user in st.groups[g]
  }

  predicate Holds(st: Store, x: Asset, l: Lookup) {
    match l
    case PermissionUsers(u) => HasPermissionUser(st, x.grantedBy, u)
    case PermissionGroupUsers(u) => HasPermissionGroupUser(st, x.grantedBy, u)
    case NodeKeyStartsWith(s) => exists n :: n in x.nodes && n in st.nodes && s <= st.nodes[n].key
    case NodeKeyIs(k) => exists n :: n in x.nodes && n in st.nodes && st.nodes[n].key == k
    case NodeIdIs(id) => id in x.nodes && id in st.nodes
  }

  /** The SQL condition a `Q` compiles to, on one asset row; `Q()` is no condition. */
  predicate Matches(st: Store, x: Asset, q: Q) {
    match q
    case Empty => true
    case Leaf(l) => Holds(st, x, l)
    case Or(l, r) => Matches(st, x, l) || Matches(st, x, r)
  }

  /** `a | b`: an empty operand is dropped, so the result is empty only when both are. */
  function OrQ(a: Q, b: Q): (r: Q)
    ensures r.Empty? <==> a.Empty? && b.Empty?
    ensures forall st, x {:trigger Matches(st, x, r)} :: !r.Empty? ==>
      (Matches(st, x, r) <==> (!a.Empty? && Matches(st, x, a)) || (!b.Empty? && Matches(st, x, b)))
  {
    if b.Empty? then a else if a.Empty? then b else Or(a, b)
  }

  /** `Asset.objects.filter(q).distinct()`: the ids of the matching assets. */
  function Filter(st: Store, q: Q): (r: set<AssetId>)
    ensures r <= st.assets.Keys
    ensures forall a :: a in r <==> a in st.assets && Matches(st, st.assets[a], q)
  {
    set a | a in st.assets && Matches(st, st.assets[a], q)
  }

  /** `filter(Q())` is unrestricted: it keeps every asset in the store. */
  lemma FilterEmptyKeepsAll(st: Store)
    ensures Filter(st, Empty) == st.assets.Keys
  {
  }

  /** Or-ing `Q()` into a condition leaves it as it was. */
  lemma OrEmptyIsIdentity(q: Q)
    ensures OrQ(q, Empty) == q && OrQ(Empty, q) == q
  {
  }
}
