/**
 * The asset-listing views of the user-permission API: which assets a user
 * may reach through direct asset grants, through node grants (a node grant
 * covers the node and every node below it), the "ungrouped" and "favorite"
 * tree listings, and the assets of one node of the user's granted tree.
 *
 * Querysets are sets of asset ids (every query ends in `.distinct()`);
 * tree responses are sequences of entries.
 */
module UserPermissionAssets {
  import opened Wrappers
  import opened Store
  import opened Query

  /**
   * Whose grants a view lists: the admin views look the user up by the
   * primary key in the URL, the `My...` views use the requesting user.
   */
  datatype Requester = ByPk(user: UserId) | RequestUser(user: UserId)

  /** `get_user()`: only the primary-key lookup can fail. */
  function ResolveUser(st: Store, who: Requester): (r: Result<UserId, Error>)
    ensures r.Failure? <==> who.ByPk? && who.user !in st.users
    ensures r.Failure? ==> r.error == UserDoesNotExist
    ensures r.Success? ==> r.value == who.user
  {
    match who
    case ByPk(pk) => GetUser(st, pk)
    case RequestUser(u) => Success(u)
  }

  // ----- Direct grants -----

  /** The two-clause grant condition the views build on any granted row. */
  function DirectGrantQ(user: UserId): (q: Q)
    ensures !q.Empty?
    ensures forall st, x {:trigger Matches(st, x, q)} ::
      Matches(st, x, q) <==> GrantedTo(st, x.grantedBy, user)
  {
    GrantClausesMeanGranted(user);
    OrQ(Leaf(PermissionUsers(user)), Leaf(PermissionGroupUsers(user)))
  }

  /** The two lookups together say exactly that some permission granting the row is given to the user. */
  lemma GrantClausesMeanGranted(user: UserId)
    ensures forall st: Store, grantedBy: set<PermId> {:trigger GrantedTo(st, grantedBy, user)} ::
      HasPermissionUser(st, grantedBy, user) || HasPermissionGroupUser(st, grantedBy, user)
      <==> GrantedTo(st, grantedBy, user)
  {
  }

  /** The asset queryset of the direct-grant views. */
  function DirectGrantedAssets(st: Store, user: UserId): (r: set<AssetId>)
    ensures forall a :: a in r <==> a in st.assets && GrantedTo(st, st.assets[a].grantedBy, user)
  {
    Filter(st, DirectGrantQ(user))
  }

  /** `get_queryset` of the admin and self-service direct-grant views. */
  function UserGrantedAssets(st: Store, who: Requester): (r: Result<set<AssetId>, Error>)
    ensures r.Failure? <==> who.ByPk? && who.user !in st.users
    ensures r.Failure? ==> r.error == UserDoesNotExist
    ensures r.Success? ==>
      forall a :: a in r.value <==> a in st.assets && GrantedTo(st, st.assets[a].grantedBy, who.user)
  {
    match ResolveUser(st, who)
    case Failure(e) => Failure(e)
    case Success(user) => Success(DirectGrantedAssets(st, user))
  }

  // ----- Direct and node grants -----

  /** The distinct keys of the nodes granted to the user. */
  function GrantedNodeKeys(st: Store, user: UserId): (r: set<Key>)
    ensures forall k :: k in r <==> exists n :: NodeGrantedTo(st, n, user) && st.nodes[n].key == k
  {
    // A node row, read by the permission lookups, has the node's
    // permissions and no node memberships.
    var q := DirectGrantQ(user);
    set n | n in st.nodes && Matches(st, Asset({}, st.nodes[n].grantedBy), q) :: st.nodes[n].key
  }

  /**
   * Reference meaning of "all granted assets": granted directly, or
   * belonging to a granted node or to a node below one.
   */
  ghost function AllGranted(st: Store, user: UserId): set<AssetId> {
    set a | a in st.assets &&
      (GrantedTo(st, st.assets[a].grantedBy, user) ||
       exists n :: NodeGrantedTo(st, n, user) && AssetUnder(st, st.assets[a], st.nodes[n].key))
  }

  /** The two node-key lookups of one granted key cover exactly the node and its descendants. */
  lemma KeyClausesMeanUnder(st: Store, x: Asset, key: Key)
    ensures Holds(st, x, NodeKeyStartsWith(key + ":")) || Holds(st, x, NodeKeyIs(key))
            <==> AssetUnder(st, x, key)
  {
  }

  /**
   * `MyGrantedAllAssetsApi.get_queryset`: collect the granted node keys,
   * or together the two clauses of each key, and or the direct-grant
   * clause with the node clause when that is not empty.
   */
  method GrantedAllAssets(st: Store, user: UserId) returns (r: set<AssetId>)
    ensures r == AllGranted(st, user)
  {
    var grantedNodeKeys := GrantedNodeKeys(st, user);
    var grantedNodeQ := Empty;
    var todo := grantedNodeKeys;
    ghost var done: set<Key> := {};
    while todo != {}
      invariant todo + done == grantedNodeKeys && todo !! done
      invariant grantedNodeQ.Empty? <==> done == {}
      invariant forall x {:trigger Matches(st, x, grantedNodeQ)} :: !grantedNodeQ.Empty? ==>
        (Matches(st, x, grantedNodeQ) <==> exists k :: k in done && AssetUnder(st, x, k))
      decreases todo
    {
      var key :| key in todo;
      grantedNodeQ := OrQ(grantedNodeQ, Leaf(NodeKeyStartsWith(key + ":")));
      grantedNodeQ := OrQ(grantedNodeQ, Leaf(NodeKeyIs(key)));
      forall x ensures Holds(st, x, NodeKeyStartsWith(key + ":")) || Holds(st, x, NodeKeyIs(key))
                       <==> AssetUnder(st, x, key) {
        KeyClausesMeanUnder(st, x, key);
      }
      todo := todo - {key};
      done := done + {key};
    }
    var q := DirectGrantQ(user);
    if !grantedNodeQ.Empty? {
      q := OrQ(q, grantedNodeQ);
    }
    r := Filter(st, q);
    forall a | a in st.assets ensures a in r <==> a in AllGranted(st, user) {
      var x := st.assets[a];
      if exists k :: k in grantedNodeKeys && AssetUnder(st, x, k) {
        var k :| k in grantedNodeKeys && AssetUnder(st, x, k);
        var n :| NodeGrantedTo(st, n, user) && st.nodes[n].key == k;
      }
      if exists n :: NodeGrantedTo(st, n, user) && AssetUnder(st, x, st.nodes[n].key) {
        var n :| NodeGrantedTo(st, n, user) && AssetUnder(st, x, st.nodes[n].key);
        assert st.nodes[n].key in grantedNodeKeys;
      }
    }
  }

  /**
   * All granted assets are the direct-grant set united with the assets at
   * or below each granted node key.
   */
  lemma AllGrantedIsUnion(st: Store, user: UserId)
    ensures forall a :: a in AllGranted(st, user) <==>
      a in DirectGrantedAssets(st, user) ||
      (a in st.assets && exists k :: k in GrantedNodeKeys(st, user) && AssetUnder(st, st.assets[a], k))
  {
  }

  /** With no granted node keys the all-grants set is the direct-grant set. */
  lemma NoNodeKeysMeansDirectOnly(st: Store, user: UserId)
    requires GrantedNodeKeys(st, user) == {}
    ensures AllGranted(st, user) == DirectGrantedAssets(st, user)
  {
    AllGrantedIsUnion(st, user);
  }

  /** A descendant of a descendant of `k` is a descendant of `k`. */
  lemma DescendantTransitive(key: Key, mid: Key, k: Key)
    requires k + ":" <= mid
    requires SelfOrDescendant(key, mid)
    ensures k + ":" <= key
  {
  }

  /** A bare string prefix without the delimiter after it never counts as a descendant. */
  lemma BarePrefixIsNoDescendant(key: Key, k: Key)
    requires k <= key && |key| > |k| && key[|k|] != ':'
    ensures !SelfOrDescendant(key, k)
  {
  }

  // ----- The ungrouped and favorite tree listings -----

  /** An entry of a tree response: a synthetic folder, or one serialised asset. */
  datatype TreeEntry =
    | TreeNode(id: string, name: string, title: string, isParent: bool, open: bool)
    | AssetEntry(asset: AssetId)

  const UngroupedNode: TreeEntry := TreeNode("", "Ungrouped", "Ungrouped", true, false)
  const FavoriteNode: TreeEntry := TreeNode("", "Favorite", "Favorite", true, false)

  /** `filter_queryset`: the request's own filters, each asset kept or dropped by `keep`. */
  function FilterQueryset(qs: set<AssetId>, keep: AssetId -> bool): (r: set<AssetId>)
    ensures r <= qs
    ensures forall a :: a in qs ==> (a in r <==> keep(a))
  {
    set a | a in qs && keep(a)
  }

  /** `serialize_assets` lists every asset of the queryset once, and nothing else. */
  ghost predicate SerializesExactly(serialize: set<AssetId> -> seq<TreeEntry>) {
    forall s: set<AssetId> :: ListsExactly(serialize(s), s)
  }

  ghost predicate ListsExactly(entries: seq<TreeEntry>, s: set<AssetId>) {
    (forall i :: 0 <= i < |entries| ==> entries[i].AssetEntry? && entries[i].asset in s) &&
    (forall a :: a in s ==> AssetEntry(a) in entries) &&
    NoDuplicates(entries)
  }

  ghost predicate NoDuplicates(entries: seq<TreeEntry>) {
    forall i, j :: 0 <= i < j < |entries| ==> entries[i] != entries[j]
  }

  /**
   * A synthetic folder put in front of a serialised queryset: the asset
   * entries are exactly the queryset, each once, and the folder is the
   * only other entry.
   */
  lemma FolderInFront(folder: TreeEntry, entries: seq<TreeEntry>, s: set<AssetId>)
    requires folder.TreeNode?
    requires ListsExactly(entries, s)
    ensures forall a :: AssetEntry(a) in [folder] + entries <==> a in s
    ensures forall i :: 1 <= i < |[folder] + entries| ==> ([folder] + entries)[i].AssetEntry?
    ensures NoDuplicates([folder] + entries)
  {
  }

  /** `MyUngroupedAssetsAsTreeApi.get_queryset`: the direct grants, or nothing when the setting is off. */
  function UngroupedAssets(st: Store, user: UserId, singleAssetToUngroupNode: bool): (r: set<AssetId>)
    ensures !singleAssetToUngroupNode ==> r == {}
    ensures singleAssetToUngroupNode ==>
      forall a :: a in r <==> a in st.assets && GrantedTo(st, st.assets[a].grantedBy, user)
  {
    var queryset := DirectGrantedAssets(st, user);
    if !singleAssetToUngroupNode then {} else queryset
  }

  /** `MyUngroupedAssetsAsTreeApi.list`. */
  method UngroupedAssetsTree(st: Store, user: UserId, singleAssetToUngroupNode: bool,
                             keep: AssetId -> bool, serialize: set<AssetId> -> seq<TreeEntry>)
    returns (data: seq<TreeEntry>)
    ensures !singleAssetToUngroupNode ==> data == []
    ensures singleAssetToUngroupNode ==>
      |data| >= 1 && data[0] == UngroupedNode &&
      data[1..] == serialize(FilterQueryset(DirectGrantedAssets(st, user), keep))
    ensures singleAssetToUngroupNode && SerializesExactly(serialize) ==>
      (forall a :: AssetEntry(a) in data <==>
         a in st.assets && GrantedTo(st, st.assets[a].grantedBy, user) && keep(a)) &&
      NoDuplicates(data)
  {
    if !singleAssetToUngroupNode {
      return [];
    }
    var queryset := FilterQueryset(UngroupedAssets(st, user, singleAssetToUngroupNode), keep);
    data := serialize(queryset);
    data := [UngroupedNode] + data;
    if SerializesExactly(serialize) {
      FolderInFront(UngroupedNode, serialize(queryset), queryset);
    }
  }

  /** The favorite queryset: granted assets kept by the request filters and marked favorite. */
  ghost function FavoriteGranted(st: Store, user: UserId, keep: AssetId -> bool): set<AssetId> {
    set a | a in AllGranted(st, user) && keep(a) && (user, a) in st.favorites
  }

  /** `MyFavoriteAssetsAsTreeApi.list`. */
  method FavoriteAssetsTree(st: Store, user: UserId, keep: AssetId -> bool,
                            serialize: set<AssetId> -> seq<TreeEntry>)
    returns (data: seq<TreeEntry>)
    ensures |data| >= 1 && data[0] == FavoriteNode
    ensures data[1..] == serialize(FavoriteGranted(st, user, keep))
    ensures SerializesExactly(serialize) ==>
      (forall a :: AssetEntry(a) in data <==>
         a in AllGranted(st, user) && keep(a) && (user, a) in st.favorites) &&
      NoDuplicates(data)
  {
    var favoriteAssets := FavoriteAssetIds(st, user);
    var granted := GrantedAllAssets(st, user);
    var queryset := set a | a in FilterQueryset(granted, keep) && a in favoriteAssets;
    assert queryset == FavoriteGranted(st, user, keep);
    data := serialize(queryset);
    data := [FavoriteNode] + data;
    if SerializesExactly(serialize) {
      FolderInFront(FavoriteNode, serialize(queryset), queryset);
    }
  }

  /** A user given no permission at all reaches no asset through any listing. */
  lemma NoGrantsNoAssets(st: Store, user: UserId, singleAssetToUngroupNode: bool, keep: AssetId -> bool)
    requires forall p :: !PermissionGivenTo(st, p, user)
    ensures DirectGrantedAssets(st, user) == {}
    ensures AllGranted(st, user) == {}
    ensures UngroupedAssets(st, user, singleAssetToUngroupNode) == {}
    ensures FavoriteGranted(st, user, keep) == {}
  {
  }

  // ----- Assets of one node of the granted tree -----

  /** The asset belongs to node `id` itself or to a node below the key `key`. */
  ghost predicate InSubtree(st: Store, x: Asset, id: NodeId, key: Key) {
    (id in x.nodes && id in st.nodes) ||
    exists m :: m in x.nodes && m in st.nodes && key + ":" <= st.nodes[m].key
  }

  /** The queryset of `on_granted_node`: no grant filtering, only tree position. */
  function NodeSubtreeAssets(st: Store, id: NodeId, key: Key): (r: set<AssetId>)
    ensures forall a :: a in r <==> a in st.assets && InSubtree(st, st.assets[a], id, key)
  {
    Filter(st, OrQ(Leaf(NodeKeyStartsWith(key + ":")), Leaf(NodeIdIs(id))))
  }

  /** No two nodes of the store share a key. */
  ghost predicate UniqueKeys(st: Store) {
    forall m, n :: m in st.nodes && n in st.nodes && st.nodes[m].key == st.nodes[n].key ==> m == n
  }

  /** With unique keys, a node's subtree query is exactly "at or below its key". */
  lemma SubtreeIsUnderKey(st: Store, id: NodeId)
    requires id in st.nodes && UniqueKeys(st)
    ensures forall a :: a in NodeSubtreeAssets(st, id, st.nodes[id].key) <==>
      a in st.assets && AssetUnder(st, st.assets[a], st.nodes[id].key)
  {
  }

  /**
   * A granted node's subtree, or that of any node below a granted node,
   * lies within the user's granted assets.
   */
  lemma SubtreeOfGrantedIsGranted(st: Store, user: UserId, n: NodeId, m: NodeId)
    requires NodeGrantedTo(st, n, user)
    requires m in st.nodes && SelfOrDescendant(st.nodes[m].key, st.nodes[n].key)
    ensures NodeSubtreeAssets(st, m, st.nodes[m].key) <= AllGranted(st, user)
  {
  }

  /** What the view keeps in `self.node` for the paginator. */
  datatype ViewNode = GrantedNode(node: Node) | UngrantedNode(mapping: Option<MappingNode>)

  /** `UserGrantedNodeAssetsForAdminApi` and its self-service subclass. */
  class UserGrantedNodeAssetsView {
    var node: Option<ViewNode>

    constructor ()
      ensures node == None
    {
      node := None;
    }

    /** `on_granted_node`: every asset at or below the node, with no grant filtering. */
    method OnGrantedNode(st: Store, id: NodeId, n: Node) returns (r: set<AssetId>)
      modifies this
      ensures node == Some(GrantedNode(n))
      ensures r == NodeSubtreeAssets(st, id, n.key)
    {
      node := Some(GrantedNode(n));
      r := NodeSubtreeAssets(st, id, n.key);
    }

    /** `on_ungranted_node`: delegated to the full resolver, given here as a parameter. */
    method OnUngrantedNode(st: Store, user: UserId, mapping: Option<MappingNode>, n: Node,
                           nodeAllGrantedAssets: (Store, UserId, Key) -> set<AssetId>)
      returns (r: set<AssetId>)
      modifies this
      ensures node == Some(UngrantedNode(mapping))
      ensures r == nodeAllGrantedAssets(st, user, n.key)
    {
      node := Some(UngrantedNode(mapping));
      r := nodeAllGrantedAssets(st, user, n.key);
    }

    /**
     * `get_queryset`: resolve the user, read the mapping-node cache, fetch
     * the node, and let the dispatch choose the granted or ungranted branch.
     */
    method GetQueryset(st: Store, who: Requester, id: NodeId,
                       dispatchGranted: (Key, Option<MappingNode>, Node) -> bool,
                       nodeAllGrantedAssets: (Store, UserId, Key) -> set<AssetId>)
      returns (r: Result<set<AssetId>, Error>)
      modifies this
      ensures who.ByPk? && who.user !in st.users ==>
        r == Failure(UserDoesNotExist) && node == old(node)
      ensures (who.RequestUser? || who.user in st.users) && id !in st.nodes ==>
        r == Failure(NodeDoesNotExist) && node == old(node)
      ensures (who.RequestUser? || who.user in st.users) && id in st.nodes ==>
        var n := st.nodes[id];
        var mapping := GetMappingNode(st, who.user, id);
        if dispatchGranted(n.key, mapping, n) then
          r == Success(NodeSubtreeAssets(st, id, n.key)) && node == Some(GrantedNode(n))
        else
          r == Success(nodeAllGrantedAssets(st, who.user, n.key)) && node == Some(UngrantedNode(mapping))
    {
      var user := ResolveUser(st, who);
      if user.Failure? {
        return Failure(user.error);
      }
      var mapping := GetMappingNode(st, user.value, id);
      var found := GetNode(st, id);
      if found.Failure? {
        return Failure(found.error);
      }
      var n := found.value;
      var assets;
      if dispatchGranted(n.key, mapping, n) {
        assets := OnGrantedNode(st, id, n);
      } else {
        assets := OnUngrantedNode(st, user.value, mapping, n, nodeAllGrantedAssets);
      }
      r := Success(assets);
    }
  }
}
