/**
 * The abstract data store the permission views read: users, user groups,
 * asset permissions, nodes of the asset tree, assets, the per-user
 * granted-mapping-node cache and favorite markers.
 *
 * Many-to-many relations are sets of ids on the owning side, as the ORM
 * exposes them (`asset.nodes`, `asset.granted_by_permissions`,
 * `node.granted_by_permissions`, `permission.users`,
 * `permission.user_groups`, `group.users`). An id that names no row takes
 * part in no join, so every predicate below checks that the row exists.
 *
 * The second half of the module gives the reference meaning of a grant,
 * written without the query machinery, against which the views are proved.
 */
module Store {
  import opened Wrappers

  type UserId = nat
  type GroupId = nat
  type PermId = nat
  type NodeId = nat
  type AssetId = nat

  /** A node's materialised path, colon-delimited from the root: "1:3:7". */
  type Key = string

  /** A node of the asset tree and the permissions that grant it. */
  datatype Node = Node(key: Key, grantedBy: set<PermId>)

  /** An asset, the nodes it belongs to and the permissions that grant it directly. */
  datatype Asset = Asset(nodes: set<NodeId>, grantedBy: set<PermId>)

  /** An asset permission: the users and user groups it is given to. */
  datatype Permission = Permission(users: set<UserId>, userGroups: set<GroupId>)

  /** A row of the per-user granted-mapping-node cache; only the dispatch reads it. */
  datatype MappingNode = MappingNode(key: Key, granted: bool)

  datatype Store = Store(
    users: set<UserId>,
    groups: map<GroupId, set<UserId>>,
    perms: map<PermId, Permission>,
    nodes: map<NodeId, Node>,
    assets: map<AssetId, Asset>,
    mappingNodes: map<(UserId, NodeId), MappingNode>,
    favorites: set<(UserId, AssetId)>)

  /** The lookup failures of `Model.objects.get`. */
  datatype Error = UserDoesNotExist | NodeDoesNotExist

  /** `User.objects.get(id=pk)`. */
  function GetUser(st: Store, pk: UserId): (r: Result<UserId, Error>)
    ensures r.Success? <==> pk in st.users
    ensures r.Success? ==> r.value == pk
    ensures r.Failure? ==> r.error == UserDoesNotExist
  {
    if pk in st.users then Success(pk) else Failure(UserDoesNotExist)
  }

  /** `Node.objects.get(id=node_id)`. */
  function GetNode(st: Store, id: NodeId): (r: Result<Node, Error>)
    ensures r.Success? <==> id in st.nodes
    ensures r.Success? ==> r.value == st.nodes[id]
    ensures r.Failure? ==> r.error == NodeDoesNotExist
  {
    if id in st.nodes then Success(st.nodes[id]) else Failure(NodeDoesNotExist)
  }

  /** `get_object_or_none(UserGrantedMappingNode, user=user, node_id=node_id)`. */
  function GetMappingNode(st: Store, user: UserId, id: NodeId): (r: Option<MappingNode>)
    ensures r.Some? <==> (user, id) in st.mappingNodes
    ensures r.Some? ==> r.value == st.mappingNodes[(user, id)]
  {
    if (user, id) in st.mappingNodes then Some(st.mappingNodes[(user, id)]) else None
  }

  /** `FavoriteAsset.objects.filter(user=user).values_list('asset', flat=True)`. */
  function FavoriteAssetIds(st: Store, user: UserId): (r: set<AssetId>)
    ensures forall a :: a in r <==> (user, a) in st.favorites
  {
    set f | f in st.favorites && f.0 == user :: f.1
  }

  // ----- What a grant means -----

  /** The user is a member of group `g`. */
  ghost predicate InGroup(st: Store, g: GroupId, user: UserId) {
    g in st.groups && user in st.groups[g]
  }

  /** Permission `p` is given to the user, by name or through one of the user's groups. */
  ghost predicate PermissionGivenTo(st: Store, p: PermId, user: UserId) {
    p in st.perms &&
    (user in st.perms[p].users || exists g :: g in st.perms[p].userGroups && InGroup(st, g, user))
  }

  /** Some permission among `grantedBy` is given to the user. */
  ghost predicate GrantedTo(st: Store, grantedBy: set<PermId>, user: UserId) {
    exists p :: p in grantedBy && PermissionGivenTo(st, p, user)
  }

  /** Node `n` exists and some permission granting it is given to the user. */
  ghost predicate NodeGrantedTo(st: Store, n: NodeId, user: UserId) {
    n in st.nodes && GrantedTo(st, st.nodes[n].grantedBy, user)
  }

  /**
   * `key` is `k` itself or a descendant of `k`: the delimiter must follow
   * the prefix, so "1" covers "1" and "1:2" but not "12".
   */
  ghost predicate SelfOrDescendant(key: Key, k: Key) {
    key == k || k + ":" <= key
  }

  /** The asset belongs to a node at or below the node with key `k`. */
  ghost predicate AssetUnder(st: Store, x: Asset, k: Key) {
    exists n :: n in x.nodes && n in st.nodes && SelfOrDescendant(st.nodes[n].key, k)
  }
}
