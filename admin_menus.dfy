/**
 * Hiding top-level admin menu pages by role: the role rule, the gate the
 * component applies before it hooks `admin_menu`, and the pages
 * `remove_menu_items` takes away.
 *
 * `current_user_can( 'administrator' )` and `current_user_can( 'editor' )`
 * are the parameters `isAdmin` and `isEditor`; `remove_menu_page` is logged
 * on the host as a `RemoveMenuPage` removal.
 */
module AdminMenus {
  import opened Php
  import opened Hooks
  import AdminPage

  /** A menu key of the settings and the slug of the admin page it hides. */
  datatype MenuItem = MenuItem(key: string, slug: string)

  /** `$menu_slugs`, in its own order. */
  function MenuSlugs(): seq<MenuItem> {
    [ MenuItem("posts", "edit.php"),
      MenuItem("media", "upload.php"),
      MenuItem("pages", "edit.php?post_type=page"),
      MenuItem("appearance", "themes.php"),
      MenuItem("plugins", "plugins.php"),
      MenuItem("users", "users.php"),
      MenuItem("tools", "tools.php"),
      MenuItem("settings", "options-general.php") ]
  }

  /** The table's keys are the eight menu keys the settings screen writes. */
  lemma MenuSlugsKeys()
    ensures |MenuSlugs()| == |AdminPage.MenuKeys()|
    ensures forall i :: 0 <= i < |MenuSlugs()| ==> MenuSlugs()[i].key == AdminPage.MenuKeys()[i]
  {
  }

  /* ---------------------------------------------------------------------- */
  /* The role rule                                                            */
  /* ---------------------------------------------------------------------- */

  /**
   * `should_hide_for_current_user( $hide_for )`: an empty setting stands for
   * `non_admin`, and the `switch` compares loosely, so `true` enters the
   * first case.
   */
  predicate ShouldHide(hideFor: Value, isAdmin: bool, isEditor: bool) {
    var rule := if Empty(hideFor) then Str("non_admin") else hideFor;
    if SwitchMatches(rule, "all") then true
    else if SwitchMatches(rule, "non_admin") then !isAdmin
    else if SwitchMatches(rule, "non_editor") then !isAdmin && !isEditor
    else false
  }

  /** The three roles: everyone, everyone but administrators, everyone but administrators and editors. */
  lemma ShouldHideRoles(isAdmin: bool, isEditor: bool)
    ensures ShouldHide(Str("all"), isAdmin, isEditor)
    ensures ShouldHide(Str("non_admin"), isAdmin, isEditor) <==> !isAdmin
    ensures ShouldHide(Str("non_editor"), isAdmin, isEditor) <==> !isAdmin && !isEditor
  {
  }

  /** An empty setting (missing, `''`, `'0'`, `false`, `0`) behaves as `non_admin`. */
  lemma EmptySettingIsNonAdmin(hideFor: Value, isAdmin: bool, isEditor: bool)
    requires Empty(hideFor)
    ensures ShouldHide(hideFor, isAdmin, isEditor) <==> ShouldHide(Str("non_admin"), isAdmin, isEditor)
    ensures ShouldHide(hideFor, isAdmin, isEditor) <==> !isAdmin
  {
  }

  /** Any other string never hides. */
  lemma OtherSettingNeverHides(hideFor: string, isAdmin: bool, isEditor: bool)
    requires hideFor != "" && hideFor != "0"
    requires hideFor != "all" && hideFor != "non_admin" && hideFor != "non_editor"
    ensures !ShouldHide(Str(hideFor), isAdmin, isEditor)
  {
  }

  /** Under loose comparison `true` equals `'all'`, so a stored `true` hides from everyone. */
  lemma TrueHidesFromEveryone(isAdmin: bool, isEditor: bool)
    ensures ShouldHide(Bool(true), isAdmin, isEditor)
  {
  }

  /** `non_editor` is the narrower rule: whoever it hides from, `non_admin` hides from too, and `all` hides from everyone it does. */
  lemma RolesNest(isAdmin: bool, isEditor: bool)
    ensures ShouldHide(Str("non_editor"), isAdmin, isEditor) ==> ShouldHide(Str("non_admin"), isAdmin, isEditor)
    ensures ShouldHide(Str("non_admin"), isAdmin, isEditor) ==> ShouldHide(Str("all"), isAdmin, isEditor)
  {
    ShouldHideRoles(isAdmin, isEditor);
  }

  /** An administrator loses a page only to a rule that hides from everyone. */
  lemma AdminOnlyLosesToAll(hideFor: Value, isEditor: bool)
    requires ShouldHide(hideFor, true, isEditor)
    ensures hideFor == Str("all") || hideFor == Bool(true)
  {
  }

  /* ---------------------------------------------------------------------- */
  /* The constructor's gate                                                   */
  /* ---------------------------------------------------------------------- */

  /** Some item of `items` has its `remove_` flag set. */
  predicate AnyRemoveFlag(menus: Value, items: seq<MenuItem>) {
    exists i :: 0 <= i < |items| && Flag(menus, AdminPage.FlagName(items[i].key))
  }

  /** The constructor's `foreach` with `$has_menus_to_remove` and `break`. */
  method HasMenusToRemove(menus: Value) returns (has: bool)
    ensures has <==> AnyRemoveFlag(menus, MenuSlugs())
  {
    var items := MenuSlugs();
    has := false;
    var i := 0;
    while i < |items|
      invariant 0 <= i <= |items|
      invariant !has
      invariant forall j :: 0 <= j < i ==> !Flag(menus, AdminPage.FlagName(items[j].key))
    {
      if !Empty(Get(menus, AdminPage.FlagName(items[i].key))) {
        has := true;
        break;
      }
      i := i + 1;
    }
  }

  /** The registration the component makes. */
  function MenuHooks(options: map<Key, Value>): (r: seq<Registration>)
    ensures r != [] <==> AnyRemoveFlag(Section(options, "menus"), MenuSlugs())
    ensures forall x :: x in r ==> x == ActionAt("admin_menu", "remove_menu_items", 999)
  {
    if AnyRemoveFlag(Section(options, "menus"), MenuSlugs()) then [ActionAt("admin_menu", "remove_menu_items", 999)] else []
  }

  /** The constructor: hooks `remove_menu_items` at priority 999 when some page is to be removed. */
  method RegisterMenuHooks(host: Host, options: map<Key, Value>)
    modifies host
    ensures host.registrations == old(host.registrations) + MenuHooks(options)
    ensures host.removals == old(host.removals)
  {
    var has := HasMenusToRemove(Section(options, "menus"));
    if has {
      host.Add(ActionAt("admin_menu", "remove_menu_items", 999));
    }
  }

  /* ---------------------------------------------------------------------- */
  /* remove_menu_items                                                        */
  /* ---------------------------------------------------------------------- */

  /** The role setting of an item: `non_admin` when it is not set. */
  function HideFor(menus: Value, key: string): Value {
    if Isset(menus, AdminPage.RoleName(key)) then Get(menus, AdminPage.RoleName(key)) else Str("non_admin")
  }

  /** An item's page is removed for this user. */
  predicate Hidden(menus: Value, key: string, isAdmin: bool, isEditor: bool) {
    Flag(menus, AdminPage.FlagName(key)) && ShouldHide(HideFor(menus, key), isAdmin, isEditor)
  }

  /** The removals the loop makes over `items`, in order. */
  function MenuRemovals(menus: Value, items: seq<MenuItem>, isAdmin: bool, isEditor: bool): seq<Removal> {
    if items == [] then []
    else
      var item := items[|items| - 1];
      MenuRemovals(menus, items[..|items| - 1], isAdmin, isEditor)
        + (if Hidden(menus, item.key, isAdmin, isEditor) then [RemoveMenuPage(item.slug)] else [])
  }

  /** `remove_menu_items`, with `options` the record it reads. */
  method RemoveMenuItems(host: Host, options: map<Key, Value>, isAdmin: bool, isEditor: bool)
    modifies host
    ensures host.removals == old(host.removals) + MenuRemovals(Section(options, "menus"), MenuSlugs(), isAdmin, isEditor)
    ensures host.registrations == old(host.registrations)
  {
    var menus := Section(options, "menus");
    var items := MenuSlugs();
    var i := 0;
    while i < |items|
      invariant 0 <= i <= |items|
      invariant host.removals == old(host.removals) + MenuRemovals(menus, items[..i], isAdmin, isEditor)
      invariant host.registrations == old(host.registrations)
    {
      var key, slug := items[i].key, items[i].slug;
      MenuRemovalsStep(menus, items, i, isAdmin, isEditor);
      if !Empty(Get(menus, AdminPage.FlagName(key))) {
        var hideFor := if Isset(menus, AdminPage.RoleName(key)) then Get(menus, AdminPage.RoleName(key)) else Str("non_admin");
        if ShouldHide(hideFor, isAdmin, isEditor) {
          host.Remove(RemoveMenuPage(slug));
        }
      }
      i := i + 1;
    }
    assert items[..i] == items;
  }

  /** One more turn of the loop appends at most the removal of that item's page. */
  lemma MenuRemovalsStep(menus: Value, items: seq<MenuItem>, i: nat, isAdmin: bool, isEditor: bool)
    requires i < |items|
    ensures MenuRemovals(menus, items[..i + 1], isAdmin, isEditor)
      == MenuRemovals(menus, items[..i], isAdmin, isEditor)
         + (if Hidden(menus, items[i].key, isAdmin, isEditor) then [RemoveMenuPage(items[i].slug)] else [])
  {
    assert items[..i + 1][..i] == items[..i];
  }

  /** A page is removed exactly when some item with that slug is flagged and its rule hides it from this user. */
  lemma {:induction false} MenuRemovalsExactly(menus: Value, items: seq<MenuItem>, isAdmin: bool, isEditor: bool, r: Removal)
    ensures r in MenuRemovals(menus, items, isAdmin, isEditor) <==>
      r.RemoveMenuPage? && exists i :: 0 <= i < |items| && items[i].slug == r.slug && Hidden(menus, items[i].key, isAdmin, isEditor)
  {
    if items != [] {
      var init := items[..|items| - 1];
      MenuRemovalsExactly(menus, init, isAdmin, isEditor, r);
      if r.RemoveMenuPage? {
        if exists i :: 0 <= i < |items| && items[i].slug == r.slug && Hidden(menus, items[i].key, isAdmin, isEditor) {
          var i :| 0 <= i < |items| && items[i].slug == r.slug && Hidden(menus, items[i].key, isAdmin, isEditor);
          if i < |init| {
            assert init[i] == items[i];
          }
        }
        if exists i :: 0 <= i < |init| && init[i].slug == r.slug && Hidden(menus, init[i].key, isAdmin, isEditor) {
          var i :| 0 <= i < |init| && init[i].slug == r.slug && Hidden(menus, init[i].key, isAdmin, isEditor);
          assert items[i] == init[i];
        }
      }
    }
  }

  /** A flagged item without a role setting is hidden exactly from non-administrators. */
  lemma MissingRoleIsNonAdmin(menus: Value, key: string, isAdmin: bool, isEditor: bool)
    requires Get(menus, AdminPage.RoleName(key)) == Null
    ensures Hidden(menus, key, isAdmin, isEditor) <==> Flag(menus, AdminPage.FlagName(key)) && !isAdmin
  {
  }

  /** When the gate keeps the callback unhooked, the callback would have removed nothing anyway. */
  lemma {:induction false} GateCoversRemovals(menus: Value, items: seq<MenuItem>, isAdmin: bool, isEditor: bool)
    requires !AnyRemoveFlag(menus, items)
    ensures MenuRemovals(menus, items, isAdmin, isEditor) == []
  {
    if items != [] {
      var init := items[..|items| - 1];
      assert !Flag(menus, AdminPage.FlagName(items[|items| - 1].key));
      assert !AnyRemoveFlag(menus, init) by {
        forall i | 0 <= i < |init|
          ensures !Flag(menus, AdminPage.FlagName(init[i].key))
        {
          assert init[i] == items[i];
        }
      }
      GateCoversRemovals(menus, init, isAdmin, isEditor);
    }
  }
}
