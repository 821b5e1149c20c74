# Asset-permission sets of the user-permission API

This project models the asset-listing views of the user-permission API in
`apps/perms/api/user_permission/user_permission_assets.py`. Each view
decides which assets a user may reach. There are two grant mechanisms:

- a permission grants assets directly;
- a permission grants a node of the asset tree, which covers that node and
  every node below it.

A node's position is its materialised-path key, such as `"1:9"`. A node is
below key `k` when its key starts with `k + ":"`. A bare string prefix does
not count, so `"1"` does not cover `"12"`.

Modules:

- `Wrappers` (wrappers.dfy): `Option` and `Result`.
- `Store` (store.dfy): the entities (users, groups, permissions, nodes,
  assets, the mapping-node cache, favorites) as datatypes, sets and maps,
  the ORM lookups as error-or-value functions, and the reference meaning of
  a grant (`PermissionGivenTo`, `GrantedTo`, `NodeGrantedTo`,
  `SelfOrDescendant`, `AssetUnder`).
- `Query` (query.dfy): Django `Q` objects as a tagged tree. `Q()` is
  `Empty`, and `filter(Q())` keeps every asset. `|` drops an empty operand.
  `Filter` is `Asset.objects.filter(q).distinct()` as a set of asset ids.
- `UserPermissionAssets` (user_permission_assets.dfy): the views. Direct
  grants and the ungrouped queryset are functions.
  `MyGrantedAllAssetsApi.get_queryset` is a method, and its `for` loop over
  the granted node keys keeps the invariant that the node clause built so
  far matches exactly the assets at or below the keys already processed.
  The two tree `list` views are methods that put a synthetic folder in
  front of the serialised queryset. The granted-node view is a class whose
  methods set `self.node`.
- `Scenarios` (scenarios.dfy): a concrete store on which the listings are
  worked out, including the `"1"` / `"12"` key-collision case.

Collaborators that the source file calls but does not define are
parameters of the methods:

- the serialiser (`serialize_assets`);
- the request filters (`filter_queryset`), as a keep-or-drop test per
  asset;
- the granted/ungranted dispatch (`dispatch_node_process`);
- the ungranted-branch resolver (`get_node_all_granted_assets`).

No property is claimed about the last two. The serialiser is assumed only
where a contract says so, through `SerializesExactly`.

Two points about the code:

- The favorite listing intersects the favorites with
  `MyGrantedAllAssetsApi`'s queryset, which holds both direct and node
  grants.
- The node clause is only ever or-ed into the direct-grant clause, which
  is always there, so the final condition is never `Q()`. The guard
  `if granted_node_q:` changes nothing, because `|` drops an empty operand
  anyway (`Query.OrEmptyIsIdentity`). Without the direct clause,
  `filter(Q())` would return every asset (`Query.FilterEmptyKeepsAll`).

## Model

| member | source | states |
|---|---|---|
| Store.GetUser | apps/perms/api/user_permission/user_permission_assets.py:48-49 | the user lookup succeeds, with that id, exactly when the user exists; otherwise it fails with DoesNotExist |
| Store.GetNode | apps/perms/api/user_permission/user_permission_assets.py:206 | the node lookup succeeds, giving that node, exactly when the node id exists; otherwise it fails with DoesNotExist |
| Store.GetMappingNode | apps/perms/api/user_permission/user_permission_assets.py:204-205 | the mapping-node lookup gives that user and node's cache row when there is one, and nothing otherwise |
| Store.FavoriteAssetIds | apps/perms/api/user_permission/user_permission_assets.py:174 | an asset id is among the user's favorite ids exactly when a favorite marker pairs that user with that asset |
| Query.OrQ | apps/perms/api/user_permission/user_permission_assets.py:98-107 | `a \| b` is empty only when both operands are; otherwise it matches exactly what a non-empty operand matches |
| Query.Filter | apps/perms/api/user_permission/user_permission_assets.py:109 | a filtered queryset holds only assets of the store, and holds exactly those matching the condition |
| Query.FilterEmptyKeepsAll | apps/perms/api/user_permission/user_permission_assets.py:98 | filtering by the empty condition keeps every asset, which is why an empty node clause must not stand alone |
| Query.OrEmptyIsIdentity | apps/perms/api/user_permission/user_permission_assets.py:106-107 | or-ing the empty condition into a condition, on either side, leaves it unchanged |
| UserPermissionAssets.ResolveUser | apps/perms/api/user_permission/user_permission_assets.py:197-198 | `get_user` fails, with DoesNotExist, only on the admin path for an unknown id; otherwise it gives the requested user |
| UserPermissionAssets.DirectGrantQ | apps/perms/api/user_permission/user_permission_assets.py:54-56 | the two-clause condition is non-empty and matches a row exactly when some permission granting the row is given to the user, by name or through a group |
| UserPermissionAssets.GrantClausesMeanGranted | apps/perms/api/user_permission/user_permission_assets.py:55-56 | the user lookup or the group-user lookup holds on a row if and only if some permission of that row lists the user or lists a group containing the user |
| UserPermissionAssets.DirectGrantedAssets | apps/perms/api/user_permission/user_permission_assets.py:51-59 | an asset is in the direct-grant set iff some permission granting it is given to the user or to a group the user is in |
| UserPermissionAssets.UserGrantedAssets | apps/perms/api/user_permission/user_permission_assets.py:48-67 | fails exactly on an unknown admin-supplied user id; otherwise returns exactly the user's directly granted assets |
| UserPermissionAssets.GrantedNodeKeys | apps/perms/api/user_permission/user_permission_assets.py:93-96 | a key is collected iff it is the key of some node granted to the user or to one of the user's groups |
| UserPermissionAssets.KeyClausesMeanUnder | apps/perms/api/user_permission/user_permission_assets.py:100-101 | the `startswith(k + ":")` and `key == k` lookups together hold iff the asset belongs to the node with key k or to a node below it |
| UserPermissionAssets.GrantedAllAssets | apps/perms/api/user_permission/user_permission_assets.py:90-111 | the loop-built queryset is exactly the assets granted directly or belonging to a granted node or to a node below one |
| UserPermissionAssets.AllGrantedIsUnion | apps/perms/api/user_permission/user_permission_assets.py:93-109 | the all-grants set is the direct-grant set united with the assets at or below each collected granted node key |
| UserPermissionAssets.NoNodeKeysMeansDirectOnly | apps/perms/api/user_permission/user_permission_assets.py:98-107 | when no node key is granted, the all-grants set equals the direct-grant set |
| UserPermissionAssets.DescendantTransitive | apps/perms/api/user_permission/user_permission_assets.py:100 | a key at or below a descendant of k is itself below k |
| UserPermissionAssets.BarePrefixIsNoDescendant | apps/perms/api/user_permission/user_permission_assets.py:100-101 | a key that extends k without a ":" right after it is neither k nor below it ("12" is not under "1") |
| UserPermissionAssets.FilterQueryset | apps/perms/api/user_permission/user_permission_assets.py:147 | the request filters only narrow the queryset: an asset of it stays exactly when the filters accept it |
| UserPermissionAssets.FolderInFront | apps/perms/api/user_permission/user_permission_assets.py:156 | after the folder is inserted at index 0 of a faithful serialisation, the response's asset entries are exactly the queryset, each once, and every entry after index 0 is an asset |
| UserPermissionAssets.UngroupedAssets | apps/perms/api/user_permission/user_permission_assets.py:137-141 | with the setting off the ungrouped queryset is empty; with it on it is exactly the directly granted assets |
| UserPermissionAssets.UngroupedAssetsTree | apps/perms/api/user_permission/user_permission_assets.py:143-157 | with the setting off the response is empty; with it on it is the "Ungrouped" folder at index 0 followed by the serialised filtered direct grants, so its asset entries are exactly those assets, without duplicates |
| UserPermissionAssets.FavoriteAssetsTree | apps/perms/api/user_permission/user_permission_assets.py:172-185 | the response is the "Favorite" folder at index 0 followed by the serialised queryset; its asset entries are exactly the granted, filter-accepted favorite assets, without duplicates, and nothing else is added |
| UserPermissionAssets.NoGrantsNoAssets | apps/perms/api/user_permission/user_permission_assets.py:90-111 | a user given no permission gets no asset from the direct, all-grants, ungrouped or favorite querysets (never "all assets") |
| UserPermissionAssets.NodeSubtreeAssets | apps/perms/api/user_permission/user_permission_assets.py:211-214 | the granted-node queryset is exactly the assets belonging to the node by id or to a node whose key starts with the node's key and ":", with no grant filtering |
| UserPermissionAssets.SubtreeIsUnderKey | apps/perms/api/user_permission/user_permission_assets.py:211-214 | when node keys are unique, the granted-node queryset is exactly the assets at or below the node's key |
| UserPermissionAssets.SubtreeOfGrantedIsGranted | apps/perms/api/user_permission/user_permission_assets.py:209-214 | the subtree of a granted node, or of any node below one, lies within the user's all-grants set |
| UserPermissionAssets.UserGrantedNodeAssetsView.OnGrantedNode | apps/perms/api/user_permission/user_permission_assets.py:209-214 | sets `self.node` to the node and returns the node's subtree queryset |
| UserPermissionAssets.UserGrantedNodeAssetsView.OnUngrantedNode | apps/perms/api/user_permission/user_permission_assets.py:216-219 | sets `self.node` to the (possibly missing) mapping node and returns the full resolver's result for the node's key |
| UserPermissionAssets.UserGrantedNodeAssetsView.GetQueryset | apps/perms/api/user_permission/user_permission_assets.py:200-207 | an unknown user fails first, then an unknown node, with `self.node` untouched; otherwise the dispatch picks the granted branch (the node's subtree) or the ungranted branch |
| Scenarios.ExampleGrantedNodeKeys | apps/perms/api/user_permission/user_permission_assets.py:93-96 | in the example store, the only granted node key is "1", granted through a group |
| Scenarios.ExampleAllGranted | apps/perms/api/user_permission/user_permission_assets.py:93-109 | in the example store the user's granted assets are the direct grant, the asset of node "1" and the asset of node "1:9", and not the asset of node "12" |
| Scenarios.ExampleFavorites | apps/perms/api/user_permission/user_permission_assets.py:174-175 | of the favorites {3, 4}, only the granted asset 3 is in the favorite queryset |
| Scenarios.ExampleSubtrees | apps/perms/api/user_permission/user_permission_assets.py:211-214 | node "1" covers assets 2 and 3, node "1:9" only asset 3; node "12" falls under neither |

## Left out

- HTTP and DRF machinery: permission classes, responses, pagination, `.only(...)` projection, `filter_fields` and `search_fields`. The request filters are a keep-or-drop parameter per asset.
- `serialize_assets` is not part of this model. It is a parameter, and contracts that need its behaviour assume `SerializesExactly`: each asset of the queryset once, and nothing else.
- Organisation switching (`tmp_to_root_org`): the store is the organisation view each query reads. That is the root organisation for the decorated views, and the request's current organisation for `UserGrantedAssetsForAdminApi`, the one view without the decorator.
- `dispatch_node_process` and `get_node_all_granted_assets` are not part of this model. They are parameters of `GetQueryset` and `OnUngrantedNode`, and nothing is claimed about them.
- The translated labels `_('Ungrouped')` and `_('Favorite')` are the untranslated strings.
- Results are sets. The order a database would return and duplicate rows before `.distinct()` are not modelled.
- `UserGrantedAssetsAsTreeForAdminApi.list` and `MyGrantedAllAssetsAsTreeApi` are not modelled. They serialise a modelled queryset without adding a folder.
- `GetQueryset`: the dispatch is a total test that always hands its arguments to `OnGrantedNode` or `OnUngrantedNode`. That `dispatch_node_process` never raises or returns anything else is an assumption, because its body is not part of this model. For an existing user and node, the `Success` result depends on that assumption.
- `OnGrantedNode`: the source's `node=None` default is not modelled; the dispatch always passes the node.
- Referential integrity is not assumed. An id that names no row takes part in no join, so every lookup checks that the row exists.
