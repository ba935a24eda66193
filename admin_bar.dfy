/**
 * The admin bar component: `remove_admin_bar_items` takes nodes off the
 * host's admin bar according to the `adminbar` settings, and
 * `remove_site_submenus` takes off every direct child of `site-name`.
 *
 * The host's `WP_Admin_Bar` is the class `AdminBar` below: its nodes in
 * insertion order, each with its id and parent (`None` when the node has
 * none). `is_admin()` is the parameter `isAdmin`.
 */
module AdminBar {
  import opened Php

  datatype Node = Node(id: string, parent: Option<string>)

  /** No two nodes share an id, as in the host's id-keyed node table. */
  predicate UniqueIds(ns: seq<Node>) {
    forall i, j :: 0 <= i < j < |ns| ==> ns[i].id != ns[j].id
  }

  /** The nodes left after `remove_node( id )`. */
  function WithoutId(ns: seq<Node>, id: string): seq<Node> {
    if ns == [] then []
    else (if ns[0].id == id then [] else [ns[0]]) + WithoutId(ns[1..], id)
  }

  /** The nodes left after removing every direct child of `p`. */
  function WithoutChildrenOf(ns: seq<Node>, p: string): seq<Node> {
    if ns == [] then []
    else (if ns[0].parent == Some(p) then [] else [ns[0]]) + WithoutChildrenOf(ns[1..], p)
  }

  lemma {:induction false} WithoutIdMembers(ns: seq<Node>, id: string)
    ensures forall n :: n in WithoutId(ns, id) <==> n in ns && n.id != id
    ensures |WithoutId(ns, id)| <= |ns|
  {
    if ns != [] {
      WithoutIdMembers(ns[1..], id);
      assert ns == [ns[0]] + ns[1..];
    }
  }

  /** Removing every child of `p` keeps exactly the nodes whose parent is not `p`. */
  lemma {:induction false} WithoutChildrenMembers(ns: seq<Node>, p: string)
    ensures forall n :: n in WithoutChildrenOf(ns, p) <==> n in ns && n.parent != Some(p)
    ensures |WithoutChildrenOf(ns, p)| <= |ns|
  {
    if ns != [] {
      WithoutChildrenMembers(ns[1..], p);
      assert ns == [ns[0]] + ns[1..];
    }
  }

  lemma {:induction false} WithoutIdAppend(a: seq<Node>, b: seq<Node>, id: string)
    ensures WithoutId(a + b, id) == WithoutId(a, id) + WithoutId(b, id)
  {
    if a == [] {
      assert a + b == b;
    } else {
      assert (a + b)[1..] == a[1..] + b;
      WithoutIdAppend(a[1..], b, id);
    }
  }

  lemma {:induction false} WithoutChildrenAppend(a: seq<Node>, b: seq<Node>, p: string)
    ensures WithoutChildrenOf(a + b, p) == WithoutChildrenOf(a, p) + WithoutChildrenOf(b, p)
  {
    if a == [] {
      assert a + b == b;
    } else {
      assert (a + b)[1..] == a[1..] + b;
      WithoutChildrenAppend(a[1..], b, p);
    }
  }

  /** Removing an id no node has changes nothing. */
  lemma {:induction false} WithoutAbsentId(ns: seq<Node>, id: string)
    requires forall i :: 0 <= i < |ns| ==> ns[i].id != id
    ensures WithoutId(ns, id) == ns
  {
    if ns != [] {
      WithoutAbsentId(ns[1..], id);
      assert [ns[0]] + ns[1..] == ns;
    }
  }

  /** Removing the children of `p` a second time changes nothing. */
  lemma {:induction false} WithoutChildrenIdempotent(ns: seq<Node>, p: string)
    ensures WithoutChildrenOf(WithoutChildrenOf(ns, p), p) == WithoutChildrenOf(ns, p)
  {
    if ns != [] {
      WithoutChildrenIdempotent(ns[1..], p);
      var head := if ns[0].parent == Some(p) then [] else [ns[0]];
      WithoutChildrenAppend(head, WithoutChildrenOf(ns[1..], p), p);
      if head != [] {
        assert head[1..] == [];
      }
    }
  }

  /** The host's admin bar. */
  class AdminBar {
    var nodes: seq<Node>

    predicate Valid()
      reads this
    {
      UniqueIds(nodes)
    }

    /** `WP_Admin_Bar::remove_node`. */
    method RemoveNode(id: string)
      requires Valid()
      modifies this
      ensures nodes == WithoutId(old(nodes), id)
      ensures Valid()
    {
      WithoutIdUnique(nodes, id);
      nodes := WithoutId(nodes, id);
    }

    /**
     * `remove_site_submenus`: walks a copy of the node list (`get_nodes`)
     * and removes each node whose parent is `site-name`.
     */
    method RemoveSiteSubmenus()
      requires Valid()
      modifies this
      ensures nodes == WithoutChildrenOf(old(nodes), "site-name")
      ensures Valid()
    {
      var snapshot := nodes;
      if snapshot != [] {
        var i := 0;
        while i < |snapshot|
          invariant 0 <= i <= |snapshot|
          invariant nodes == WithoutChildrenOf(snapshot[..i], "site-name") + snapshot[i..]
          invariant Valid()
        {
          var node := snapshot[i];
          SiteSubmenusStep(snapshot, i);
          if node.parent == Some("site-name") {
            RemoveNode(node.id);
          }
          i := i + 1;
        }
        assert snapshot[..i] == snapshot && snapshot[i..] == [];
      }
    }
  }

  /** One turn of the `foreach`: removing node `i` by id touches no other node, ids being unique. */
  lemma SiteSubmenusStep(snapshot: seq<Node>, i: nat)
    requires UniqueIds(snapshot) && i < |snapshot|
    ensures var kept := WithoutChildrenOf(snapshot[..i], "site-name");
      var next := WithoutChildrenOf(snapshot[..i + 1], "site-name") + snapshot[i + 1..];
      (snapshot[i].parent == Some("site-name") ==> WithoutId(kept + snapshot[i..], snapshot[i].id) == next)
      && (snapshot[i].parent != Some("site-name") ==> kept + snapshot[i..] == next)
  {
    var n := snapshot[i];
    var kept := WithoutChildrenOf(snapshot[..i], "site-name");
    KeptGrows(snapshot, i);
    assert snapshot[i..] == [n] + snapshot[i + 1..];
    if n.parent == Some("site-name") {
      KeptIdsDiffer(snapshot, i);
      LaterIdsDiffer(snapshot, i);
      RemoveOnlyAt(kept, n, snapshot[i + 1..]);
    }
  }

  /** The kept prefix grows by node `i` unless it is a child of `site-name`. */
  lemma KeptGrows(snapshot: seq<Node>, i: nat)
    requires i < |snapshot|
    ensures WithoutChildrenOf(snapshot[..i + 1], "site-name")
      == WithoutChildrenOf(snapshot[..i], "site-name") + (if snapshot[i].parent == Some("site-name") then [] else [snapshot[i]])
  {
    var n := snapshot[i];
    assert snapshot[..i + 1] == snapshot[..i] + [n];
    WithoutChildrenAppend(snapshot[..i], [n], "site-name");
    assert [n][1..] == [];
  }

  /** No kept node before position `i` has the id of node `i`. */
  lemma KeptIdsDiffer(snapshot: seq<Node>, i: nat)
    requires UniqueIds(snapshot) && i < |snapshot|
    ensures var kept := WithoutChildrenOf(snapshot[..i], "site-name");
      forall j :: 0 <= j < |kept| ==> kept[j].id != snapshot[i].id
  {
    var kept := WithoutChildrenOf(snapshot[..i], "site-name");
    WithoutChildrenMembers(snapshot[..i], "site-name");
    forall j | 0 <= j < |kept|
      ensures kept[j].id != snapshot[i].id
    {
      assert kept[j] in snapshot[..i];
    }
  }

  /** No node after position `i` has the id of node `i`. */
  lemma LaterIdsDiffer(ns: seq<Node>, i: nat)
    requires UniqueIds(ns) && i < |ns|
    ensures var rest := ns[i + 1..]; forall j :: 0 <= j < |rest| ==> rest[j].id != ns[i].id
  {
    var rest := ns[i + 1..];
    forall j | 0 <= j < |rest|
      ensures rest[j].id != ns[i].id
    {
      assert rest[j] == ns[i + 1 + j];
    }
  }

  /** Removing the id of a node that appears nowhere else removes just that node. */
  lemma RemoveOnlyAt(kept: seq<Node>, n: Node, rest: seq<Node>)
    requires forall j :: 0 <= j < |kept| ==> kept[j].id != n.id
    requires forall j :: 0 <= j < |rest| ==> rest[j].id != n.id
    ensures WithoutId(kept + ([n] + rest), n.id) == kept + rest
  {
    WithoutAbsentId(rest, n.id);
    assert WithoutId([n] + rest, n.id) == rest by {
      assert ([n] + rest)[1..] == rest;
    }
    WithoutAbsentId(kept, n.id);
    WithoutIdAppend(kept, [n] + rest, n.id);
  }

  /* ---------------------------------------------------------------------- */
  /* remove_admin_bar_items                                                   */
  /* ---------------------------------------------------------------------- */

  /** `$wp_admin_bar->remove_node( id )` when `flag` is set. */
  function DropIf(ns: seq<Node>, bar: Value, flag: string, id: string): seq<Node> {
    if Flag(bar, flag) then WithoutId(ns, id) else ns
  }

  /** The admin bar after `remove_admin_bar_items`, step by step in the callback's order. */
  function AfterRemoval(ns: seq<Node>, bar: Value, isAdmin: bool): seq<Node> {
    var logo := DropIf(ns, bar, "remove_wp_logo", "wp-logo");
    var site := if Flag(bar, "remove_site_menu") then WithoutChildrenOf(logo, "site-name") else logo;
    var content := DropIf(site, bar, "remove_new_content", "new-content");
    var search := DropIf(content, bar, "remove_search", "search");
    if Flag(bar, "remove_howdy_frontend") && !isAdmin then WithoutId(search, "my-account") else search
  }

  /** Whether the callback takes node `n` off, as a single test on the node. */
  predicate Dropped(n: Node, bar: Value, isAdmin: bool) {
    (Flag(bar, "remove_wp_logo") && n.id == "wp-logo")
    || (Flag(bar, "remove_site_menu") && n.parent == Some("site-name"))
    || (Flag(bar, "remove_new_content") && n.id == "new-content")
    || (Flag(bar, "remove_search") && n.id == "search")
    || (Flag(bar, "remove_howdy_frontend") && !isAdmin && n.id == "my-account")
  }

  /** `remove_admin_bar_items`, with `options` the record it reads. */
  method RemoveAdminBarItems(wpAdminBar: AdminBar, options: map<Key, Value>, isAdmin: bool)
    requires wpAdminBar.Valid()
    modifies wpAdminBar
    ensures wpAdminBar.nodes == AfterRemoval(old(wpAdminBar.nodes), Section(options, "adminbar"), isAdmin)
    ensures wpAdminBar.Valid()
  {
    var bar := Section(options, "adminbar");
    if !Empty(Get(bar, "remove_wp_logo")) {
      wpAdminBar.RemoveNode("wp-logo");
    }
    if !Empty(Get(bar, "remove_site_menu")) {
      wpAdminBar.RemoveSiteSubmenus();
    }
    if !Empty(Get(bar, "remove_new_content")) {
      wpAdminBar.RemoveNode("new-content");
    }
    if !Empty(Get(bar, "remove_search")) {
      wpAdminBar.RemoveNode("search");
    }
    if !Empty(Get(bar, "remove_howdy_frontend")) && !isAdmin {
      wpAdminBar.RemoveNode("my-account");
    }
  }

  /** Removing a node keeps the ids unique. */
  lemma {:induction false} WithoutIdUnique(ns: seq<Node>, id: string)
    requires UniqueIds(ns)
    ensures UniqueIds(WithoutId(ns, id))
  {
    if ns != [] {
      var rest := ns[1..];
      UniqueTail(ns);
      WithoutIdUnique(rest, id);
      WithoutIdMembers(rest, id);
      if ns[0].id != id {
        UniqueCons(ns[0], WithoutId(rest, id));
      }
    }
  }

  /** Removing the children of a parent keeps the ids unique. */
  lemma {:induction false} WithoutChildrenUnique(ns: seq<Node>, p: string)
    requires UniqueIds(ns)
    ensures UniqueIds(WithoutChildrenOf(ns, p))
  {
    if ns != [] {
      var rest := ns[1..];
      UniqueTail(ns);
      WithoutChildrenUnique(rest, p);
      WithoutChildrenMembers(rest, p);
      if ns[0].parent != Some(p) {
        UniqueCons(ns[0], WithoutChildrenOf(rest, p));
      }
    }
  }

  /** The whole callback keeps the ids unique: the bar it leaves is a valid admin bar. */
  lemma AfterRemovalUnique(ns: seq<Node>, bar: Value, isAdmin: bool)
    requires UniqueIds(ns)
    ensures UniqueIds(AfterRemoval(ns, bar, isAdmin))
  {
    var logo := DropIf(ns, bar, "remove_wp_logo", "wp-logo");
    var site := if Flag(bar, "remove_site_menu") then WithoutChildrenOf(logo, "site-name") else logo;
    var content := DropIf(site, bar, "remove_new_content", "new-content");
    var search := DropIf(content, bar, "remove_search", "search");
    WithoutIdUnique(ns, "wp-logo");
    WithoutChildrenUnique(logo, "site-name");
    WithoutIdUnique(site, "new-content");
    WithoutIdUnique(content, "search");
    WithoutIdUnique(search, "my-account");
  }

  /** Dropping the first node keeps the ids unique, and no later node shares its id. */
  lemma UniqueTail(ns: seq<Node>)
    requires UniqueIds(ns) && ns != []
    ensures UniqueIds(ns[1..])
    ensures forall n :: n in ns[1..] ==> n.id != ns[0].id
  {
    var rest := ns[1..];
    forall i, j | 0 <= i < j < |rest|
      ensures rest[i].id != rest[j].id
    {
      assert rest[i] == ns[i + 1] && rest[j] == ns[j + 1];
    }
    forall n | n in rest
      ensures n.id != ns[0].id
    {
      var k :| 0 <= k < |rest| && rest[k] == n;
      assert rest[k] == ns[k + 1];
    }
  }

  /** A node put in front of nodes with unique ids, none of them sharing its id, keeps them unique. */
  lemma UniqueCons(n: Node, tail: seq<Node>)
    requires UniqueIds(tail)
    requires forall m :: m in tail ==> m.id != n.id
    ensures UniqueIds([n] + tail)
  {
    var r := [n] + tail;
    forall i, j | 0 <= i < j < |r|
      ensures r[i].id != r[j].id
    {
      assert r[j] == tail[j - 1];
      if i > 0 {
        assert r[i] == tail[i - 1];
      }
    }
  }

  /** A node survives the callback exactly when none of the five tests drops it. */
  lemma AfterRemovalMembers(ns: seq<Node>, bar: Value, isAdmin: bool, n: Node)
    ensures n in AfterRemoval(ns, bar, isAdmin) <==> n in ns && !Dropped(n, bar, isAdmin)
  {
    var logo := DropIf(ns, bar, "remove_wp_logo", "wp-logo");
    var site := if Flag(bar, "remove_site_menu") then WithoutChildrenOf(logo, "site-name") else logo;
    var content := DropIf(site, bar, "remove_new_content", "new-content");
    var search := DropIf(content, bar, "remove_search", "search");
    WithoutIdMembers(ns, "wp-logo");
    WithoutChildrenMembers(logo, "site-name");
    WithoutIdMembers(site, "new-content");
    WithoutIdMembers(content, "search");
    WithoutIdMembers(search, "my-account");
  }

  /** `my-account` goes only when `remove_howdy_frontend` is set and the request is not for an admin page. */
  lemma MyAccountOnlyOnFrontend(ns: seq<Node>, bar: Value, isAdmin: bool, n: Node)
    requires n in ns && n.id == "my-account" && n.parent != Some("site-name")
    ensures n !in AfterRemoval(ns, bar, isAdmin) <==> Flag(bar, "remove_howdy_frontend") && !isAdmin
  {
    AfterRemovalMembers(ns, bar, isAdmin, n);
  }

  /** `wp-logo`, `new-content` and `search` each go exactly when their own flag is set. */
  lemma TopLevelNodesByFlag(ns: seq<Node>, bar: Value, isAdmin: bool, n: Node)
    requires n in ns && n.parent != Some("site-name")
    ensures n.id == "wp-logo" ==> (n !in AfterRemoval(ns, bar, isAdmin) <==> Flag(bar, "remove_wp_logo"))
    ensures n.id == "new-content" ==> (n !in AfterRemoval(ns, bar, isAdmin) <==> Flag(bar, "remove_new_content"))
    ensures n.id == "search" ==> (n !in AfterRemoval(ns, bar, isAdmin) <==> Flag(bar, "remove_search"))
  {
    AfterRemovalMembers(ns, bar, isAdmin, n);
  }

  /**
   * `remove_site_submenus` takes off exactly the direct children of
   * `site-name`: the `site-name` node stays, and so does every node whose
   * parent is something else, grandchildren of `site-name` included.
   */
  lemma SiteSubmenusExactly(ns: seq<Node>, n: Node)
    ensures n in WithoutChildrenOf(ns, "site-name") <==> n in ns && n.parent != Some("site-name")
    ensures n in ns && n.id == "site-name" && n.parent == None ==> n in WithoutChildrenOf(ns, "site-name")
    ensures |WithoutChildrenOf(ns, "site-name")| <= |ns|
  {
    WithoutChildrenMembers(ns, "site-name");
  }
}
