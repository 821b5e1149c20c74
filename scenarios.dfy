/**
 * A concrete store on which the listings are proved.
 *
 * User 1 is given permission 1 directly, which grants asset 1, and is in
 * group 7, which is given permission 2, which grants node 1 (key "1").
 * Node 2 (key "1:9") lies below node 1; node 3 (key "12") does not, though
 * "1" is a prefix of its key. Assets 2, 3 and 4 belong to nodes 1, 2 and 3.
 */
module Scenarios {
  import opened Store
  import opened Query
  import opened UserPermissionAssets

  const Example: Store := Store(
    users := {1},
    groups := map[7 := {1}],
    perms := map[1 := Permission({1}, {}), 2 := Permission({}, {7})],
    nodes := map[1 := Node("1", {2}), 2 := Node("1:9", {}), 3 := Node("12", {})],
    assets := map[1 := Asset({}, {1}), 2 := Asset({1}, {}), 3 := Asset({2}, {}), 4 := Asset({3}, {})],
    mappingNodes := map[],
    favorites := {(1, 3), (1, 4)})

  /** Only node 1 is granted, by way of group 7. */
  lemma ExampleGrantedNodeKeys()
    ensures GrantedNodeKeys(Example, 1) == {"1"}
  {
    assert PermissionGivenTo(Example, 2, 1) by { assert InGroup(Example, 7, 1); }
    assert NodeGrantedTo(Example, 1, 1);
    forall k | k in GrantedNodeKeys(Example, 1) ensures k == "1" {
      var n :| NodeGrantedTo(Example, n, 1) && Example.nodes[n].key == k;
      assert n == 1;
    }
  }

  /**
   * The direct grant, the granted node and the node below it give assets
   * 1, 2 and 3; asset 4, on key "12", is not covered by the grant of "1".
   */
  lemma ExampleAllGranted()
    ensures AllGranted(Example, 1) == {1, 2, 3}
  {
    var st := Example;
    assert PermissionGivenTo(st, 1, 1);
    assert PermissionGivenTo(st, 2, 1) by { assert InGroup(st, 7, 1); }
    assert NodeGrantedTo(st, 1, 1);
    assert 1 in AllGranted(st, 1) by { assert GrantedTo(st, st.assets[1].grantedBy, 1); }
    assert 2 in AllGranted(st, 1) by { assert AssetUnder(st, st.assets[2], "1"); }
    assert 3 in AllGranted(st, 1) by {
      assert SelfOrDescendant("1:9", "1");
      assert AssetUnder(st, st.assets[3], "1");
    }
    assert 4 !in AllGranted(st, 1) by {
      assert !GrantedTo(st, st.assets[4].grantedBy, 1);
      forall n | NodeGrantedTo(st, n, 1) ensures !AssetUnder(st, st.assets[4], st.nodes[n].key) {
        assert n == 1;
        BarePrefixIsNoDescendant("12", "1");
      }
    }
  }

  /** The favorite assets 3 and 4 leave only asset 3 once intersected with the granted set. */
  lemma ExampleFavorites()
    ensures FavoriteGranted(Example, 1, _ => true) == {3}
  {
    ExampleAllGranted();
  }

  /** The subtree of node 1 is assets 2 and 3, that of node 2 is asset 3 alone. */
  lemma ExampleSubtrees()
    ensures NodeSubtreeAssets(Example, 1, "1") == {2, 3}
    ensures NodeSubtreeAssets(Example, 2, "1:9") == {3}
  {
    var st := Example;
    assert InSubtree(st, st.assets[3], 1, "1") by { assert st.nodes[2].key != "1"; }
    assert !InSubtree(st, st.assets[4], 1, "1") by { BarePrefixIsNoDescendant("12", "1"); }
    assert !InSubtree(st, st.assets[2], 2, "1:9");
    assert !InSubtree(st, st.assets[4], 2, "1:9") by { assert !("1:9:" <= "12"); }
  }
}
