/**
 * The third-party plugin component: for each supported plugin, a setting in
 * the `plugins` section hooks callbacks that hide that plugin's notices and
 * upsells, but only while the plugin itself is active. `is_plugin_active`
 * is the parameter `active`. The array filters among those callbacks are
 * functions from the array they receive to the array they return; the
 * notification clean-up, which loops over Yoast's notification centre and
 * changes it, is a method on a class.
 */
module PluginNotices {
  import opened Php
  import opened Hooks

  /* ---------------------------------------------------------------------- */
  /* The constructor's gates                                                  */
  /* ---------------------------------------------------------------------- */

  /** The plugins the component looks for, each known to the host by its file. */
  datatype Plugin =
    | PixelYourSite | PixelYourSitePro | Elementor | ComplianzFree | ComplianzPremium
    | Gtm4wp | WooCommerce | YoastSeo

  /** The `folder/file.php` each plugin is checked by. */
  function PluginFile(p: Plugin): string {
    match p
    case PixelYourSite => "pixelyoursite/facebook-pixel-master.php"
    case PixelYourSitePro => "pixelyoursite-pro/pixelyoursite-pro.php"
    case Elementor => "elementor/elementor.php"
    case ComplianzFree => "complianz-gdpr/complianz-gpdr.php"
    case ComplianzPremium => "complianz-gdpr-premium/complianz-gpdr-premium.php"
    case Gtm4wp => "duracelltomi-google-tag-manager/duracelltomi-google-tag-manager-for-wordpress.php"
    case WooCommerce => "woocommerce/woocommerce.php"
    case YoastSeo => "wordpress-seo/wp-seo.php"
  }

  const HidePixel: Registration := OnAction("admin_head", "hide_pixelyoursite_notices")
  const GoProLink: Registration := FilterAt("plugin_action_links_elementor/elementor.php", "remove_elementor_go_pro_link", 999)
  const ComplianzOutput: Registration := OnFilter("cmplz_cookie_blocker_output", "remove_complianz_comments")
  const GtmBuffer: Registration := OnAction("template_redirect", "start_gtm4wp_output_buffer")
  const WooBuffer: Registration := OnAction("template_redirect", "start_woocommerce_output_buffer")
  const YoastSubmenus: Registration := FilterAt("wpseo_submenu_pages", "filter_yoast_submenu_pages", 9999)
  const YoastDismiss: Registration := ActionAt("admin_init", "dismiss_yoast_promotional_notifications", 20)

  /** The PixelYourSite gate: the setting, the free plugin, and not the pro one. */
  predicate PixelGate(plugins: Value, active: Plugin -> bool) {
    Flag(plugins, "hide_pixelyoursite_notices") && active(PixelYourSite) && !active(PixelYourSitePro)
  }

  predicate ElementorGate(plugins: Value, active: Plugin -> bool) {
    Flag(plugins, "hide_elementor_notices") && active(Elementor)
  }

  /** Either edition of Complianz opens this gate. */
  predicate ComplianzGate(plugins: Value, active: Plugin -> bool) {
    Flag(plugins, "hide_complianz_comments") && (active(ComplianzFree) || active(ComplianzPremium))
  }

  predicate GtmGate(plugins: Value, active: Plugin -> bool) {
    Flag(plugins, "hide_gtm4wp_comments") && active(Gtm4wp)
  }

  predicate WooGate(plugins: Value, active: Plugin -> bool) {
    Flag(plugins, "hide_woocommerce_clutter") && active(WooCommerce)
  }

  predicate YoastGate(plugins: Value, active: Plugin -> bool) {
    Flag(plugins, "hide_yoast_notices") && active(YoastSeo)
  }

  /** The Elementor branch: its admin and editor callbacks, then its promotion and privacy filters. */
  function ElementorHooks(): seq<Registration> {
    ElementorAdminHooks() + ElementorPromotionHooks()
  }

  function ElementorAdminHooks(): seq<Registration> {
    [ ActionAt("wp_dashboard_setup", "remove_elementor_dashboard_widget", 40),
      OnAction("admin_head", "hide_elementor_admin_clutter"),
      ActionAt("admin_menu", "clean_elementor_admin_menu", 999),
      ActionAt("admin_enqueue_scripts", "override_elementor_sidebar_upgrade", 999),
      ActionAt("admin_init", "block_elementor_redirect", 1),
      OnAction("admin_init", "redirect_elementor_home_to_settings"),
      OnFilter("elementor/admin-top-bar/is-active", "__return_false"),
      OnAction("elementor/editor/after_enqueue_styles", "hide_elementor_editor_clutter"),
      ActionAt("elementor/editor/after_enqueue_scripts", "disable_elementor_ai", 999),
      ActionAt("elementor/editor/v2/scripts/enqueue", "disable_elementor_ai", 999) ]
  }

  /** The two closures are named by what they return. */
  function ElementorPromotionHooks(): seq<Registration> {
    [ OnFilter("elementor/editor/panel/get_pro_details", "__return_empty_array"),
      OnFilter("elementor/editor/panel/get_pro_details-sticky", "__return_empty_array"),
      OnFilter("pre_option_elementor_meta_generator_tag", "{closure returning '1'}"),
      OnFilter("pre_option_elementor_allow_tracking", "{closure returning 'no'}"),
      GoProLink,
      ActionAt("admin_enqueue_scripts", "disable_elementor_feedback", 999) ]
  }

  function ComplianzHooks(): seq<Registration> {
    [ ComplianzOutput, OnFilter("cmplz_banner_html", "remove_complianz_comments") ]
  }

  function WooHooks(): seq<Registration> {
    [ OnFilter("woocommerce_allow_tracking", "__return_false"), WooBuffer ]
  }

  /** The two `remove_filter` calls of the WooCommerce branch. */
  function WooRemovals(): seq<Removal> {
    [ Unhook("get_the_generator_html", "wc_generator_tag", 10),
      Unhook("get_the_generator_xhtml", "wc_generator_tag", 10) ]
  }

  /** The Yoast branch: its admin callbacks, then its filters and late actions. */
  function YoastHooks(): seq<Registration> {
    YoastAdminHooks() + YoastFilterHooks()
  }

  function YoastAdminHooks(): seq<Registration> {
    [ ActionAt("wp_dashboard_setup", "remove_yoast_dashboard_widget", 40),
      OnAction("admin_head", "hide_yoast_admin_clutter"),
      ActionAt("admin_menu", "clean_yoast_admin_menu", 999),
      ActionAt("admin_init", "block_yoast_redirect", 1),
      OnAction("wp_before_admin_bar_render", "remove_yoast_admin_bar") ]
  }

  function YoastFilterHooks(): seq<Registration> {
    [ OnFilter("wpseo_enable_tracking", "__return_false"),
      OnFilter("wpseo_debug_markers", "__return_false"),
      YoastSubmenus,
      OnFilter("wpseo_allowed_dismissable_alerts", "__return_empty_array"),
      ActionAt("admin_enqueue_scripts", "override_yoast_dashboard_data", 9999),
      YoastDismiss,
      OnAction("elementor/editor/after_enqueue_styles", "hide_yoast_elementor_upsells"),
      OnAction("admin_init", "remove_yoast_admin_columns_and_filters") ]
  }

  /** `rs` when the gate is open, nothing otherwise. */
  function When(gate: bool, rs: seq<Registration>): seq<Registration> {
    if gate then rs else []
  }

  /** What the PixelYourSite, Elementor and Complianz branches register. */
  function AdminBranches(plugins: Value, active: Plugin -> bool): seq<Registration> {
    When(PixelGate(plugins, active), [HidePixel])
      + When(ElementorGate(plugins, active), ElementorHooks())
      + When(ComplianzGate(plugins, active), ComplianzHooks())
  }

  /** What the GTM4WP, WooCommerce and Yoast branches register. */
  function LaterBranches(plugins: Value, active: Plugin -> bool): seq<Registration> {
    When(GtmGate(plugins, active), [GtmBuffer])
      + When(WooGate(plugins, active), WooHooks())
      + When(YoastGate(plugins, active), YoastHooks())
  }

  /** Everything the constructor registers, branch by branch. */
  function PluginNoticeHooks(options: map<Key, Value>, active: Plugin -> bool): seq<Registration> {
    var plugins := Section(options, "plugins");
    AdminBranches(plugins, active) + LaterBranches(plugins, active)
  }

  /** Everything the constructor unhooks: WooCommerce's generator tags, and only in that branch. */
  function PluginNoticeRemovals(options: map<Key, Value>, active: Plugin -> bool): seq<Removal> {
    if WooGate(Section(options, "plugins"), active) then WooRemovals() else []
  }

  /** The constructor. */
  method RegisterPluginNoticeHooks(host: Host, options: map<Key, Value>, active: Plugin -> bool)
    modifies host
    ensures host.registrations == old(host.registrations) + PluginNoticeHooks(options, active)
    ensures host.removals == old(host.removals) + PluginNoticeRemovals(options, active)
  {
    var plugins := Section(options, "plugins");
    RegisterAdminBranches(host, plugins, active);
    RegisterLaterBranches(host, plugins, active);
    RegistrationsAssociative(old(host.registrations), AdminBranches(plugins, active), LaterBranches(plugins, active));
  }

  /** The first three `if` blocks of the constructor. */
  method RegisterAdminBranches(host: Host, plugins: Value, active: Plugin -> bool)
    modifies host
    ensures host.registrations == old(host.registrations) + AdminBranches(plugins, active)
    ensures host.removals == old(host.removals)
  {
    AddWhen(host, PixelGate(plugins, active), [HidePixel]);
    ghost var done := When(PixelGate(plugins, active), [HidePixel]);
    AddWhen(host, ElementorGate(plugins, active), ElementorHooks());
    RegistrationsAssociative(old(host.registrations), done, When(ElementorGate(plugins, active), ElementorHooks()));
    done := done + When(ElementorGate(plugins, active), ElementorHooks());
    AddWhen(host, ComplianzGate(plugins, active), ComplianzHooks());
    RegistrationsAssociative(old(host.registrations), done, When(ComplianzGate(plugins, active), ComplianzHooks()));
  }

  /** The last three `if` blocks of the constructor. */
  method RegisterLaterBranches(host: Host, plugins: Value, active: Plugin -> bool)
    modifies host
    ensures host.registrations == old(host.registrations) + LaterBranches(plugins, active)
    ensures host.removals == old(host.removals) + (if WooGate(plugins, active) then WooRemovals() else [])
  {
    AddWhen(host, GtmGate(plugins, active), [GtmBuffer]);
    ghost var done := When(GtmGate(plugins, active), [GtmBuffer]);
    if WooGate(plugins, active) {
      host.Remove(Unhook("get_the_generator_html", "wc_generator_tag", 10));
      host.Remove(Unhook("get_the_generator_xhtml", "wc_generator_tag", 10));
    }
    AddWhen(host, WooGate(plugins, active), WooHooks());
    RegistrationsAssociative(old(host.registrations), done, When(WooGate(plugins, active), WooHooks()));
    done := done + When(WooGate(plugins, active), WooHooks());
    AddWhen(host, YoastGate(plugins, active), YoastHooks());
    RegistrationsAssociative(old(host.registrations), done, When(YoastGate(plugins, active), YoastHooks()));
  }

  /** `if ( gate ) { add_...( ... ); ... }`. */
  method AddWhen(host: Host, gate: bool, rs: seq<Registration>)
    modifies host
    ensures host.registrations == old(host.registrations) + When(gate, rs)
    ensures host.removals == old(host.removals)
  {
    if gate {
      host.AddAll(rs);
    }
  }

  /** A registration is there iff a branch listing it is open. */
  lemma BranchMembers(options: map<Key, Value>, active: Plugin -> bool, x: Registration)
    ensures var plugins := Section(options, "plugins");
      x in PluginNoticeHooks(options, active) <==>
        || (PixelGate(plugins, active) && x == HidePixel)
        || (ElementorGate(plugins, active) && x in ElementorHooks())
        || (ComplianzGate(plugins, active) && x in ComplianzHooks())
        || (GtmGate(plugins, active) && x == GtmBuffer)
        || (WooGate(plugins, active) && x in WooHooks())
        || (YoastGate(plugins, active) && x in YoastHooks())
  {
  }

  /** Which of the registrations the gates are stated by sit in each part of the Elementor list. */
  lemma ElementorListed()
    ensures GoProLink in ElementorHooks()
    ensures HidePixel !in ElementorHooks() && ComplianzOutput !in ElementorHooks() && GtmBuffer !in ElementorHooks()
    ensures YoastSubmenus !in ElementorHooks() && YoastDismiss !in ElementorHooks()
  {
    ElementorAdminListed();
    ElementorPromotionListed();
  }

  lemma ElementorAdminListed()
    ensures GoProLink !in ElementorAdminHooks() && HidePixel !in ElementorAdminHooks() && ComplianzOutput !in ElementorAdminHooks()
    ensures GtmBuffer !in ElementorAdminHooks() && YoastSubmenus !in ElementorAdminHooks() && YoastDismiss !in ElementorAdminHooks()
  {
    ElementorAdminUnlisted();
  }

  lemma ElementorAdminUnlisted()
    ensures GtmBuffer !in ElementorAdminHooks() && YoastSubmenus !in ElementorAdminHooks() && YoastDismiss !in ElementorAdminHooks()
  {
  }

  lemma ElementorPromotionListed()
    ensures GoProLink in ElementorPromotionHooks()
    ensures HidePixel !in ElementorPromotionHooks() && ComplianzOutput !in ElementorPromotionHooks() && GtmBuffer !in ElementorPromotionHooks()
    ensures YoastSubmenus !in ElementorPromotionHooks() && YoastDismiss !in ElementorPromotionHooks()
  {
  }

  /** Which of them sit in the Yoast list. */
  lemma YoastListed()
    ensures YoastSubmenus in YoastHooks() && YoastDismiss in YoastHooks()
    ensures HidePixel !in YoastHooks() && GoProLink !in YoastHooks() && ComplianzOutput !in YoastHooks() && GtmBuffer !in YoastHooks()
  {
    YoastAdminListed();
    YoastFilterListed();
  }

  lemma YoastAdminListed()
    ensures YoastSubmenus !in YoastAdminHooks() && YoastDismiss !in YoastAdminHooks() && HidePixel !in YoastAdminHooks()
    ensures GoProLink !in YoastAdminHooks() && ComplianzOutput !in YoastAdminHooks() && GtmBuffer !in YoastAdminHooks()
  {
  }

  lemma YoastFilterListed()
    ensures YoastSubmenus in YoastFilterHooks() && YoastDismiss in YoastFilterHooks()
    ensures HidePixel !in YoastFilterHooks() && GoProLink !in YoastFilterHooks() && ComplianzOutput !in YoastFilterHooks() && GtmBuffer !in YoastFilterHooks()
  {
  }

  /** Which of them sit in the short lists. */
  lemma ShortListsListed()
    ensures ComplianzOutput in ComplianzHooks()
    ensures HidePixel !in ComplianzHooks() && GoProLink !in ComplianzHooks() && GtmBuffer !in ComplianzHooks()
    ensures YoastSubmenus !in ComplianzHooks() && YoastDismiss !in ComplianzHooks()
    ensures HidePixel !in WooHooks() && GoProLink !in WooHooks() && ComplianzOutput !in WooHooks() && GtmBuffer !in WooHooks()
    ensures YoastSubmenus !in WooHooks() && YoastDismiss !in WooHooks()
  {
  }

  /** PixelYourSite's notices are hidden iff the setting is on, the free plugin is active and the pro plugin is not. */
  lemma PixelHiddenOnlyForFree(options: map<Key, Value>, active: Plugin -> bool)
    ensures HidePixel in PluginNoticeHooks(options, active)
      <==> Flag(Section(options, "plugins"), "hide_pixelyoursite_notices") && active(PixelYourSite) && !active(PixelYourSitePro)
  {
    BranchMembers(options, active, HidePixel);
    ElementorListed();
    YoastListed();
    ShortListsListed();
  }

  /** The "Get Elementor Pro" link filter is hooked iff the Elementor setting is on and Elementor is active. */
  lemma GoProFilterGate(options: map<Key, Value>, active: Plugin -> bool)
    ensures GoProLink in PluginNoticeHooks(options, active)
      <==> Flag(Section(options, "plugins"), "hide_elementor_notices") && active(Elementor)
  {
    BranchMembers(options, active, GoProLink);
    ElementorListed();
    YoastListed();
    ShortListsListed();
  }

  /** The Complianz comment filter is hooked iff its setting is on and either edition is active. */
  lemma ComplianzFilterGate(options: map<Key, Value>, active: Plugin -> bool)
    ensures ComplianzOutput in PluginNoticeHooks(options, active)
      <==> Flag(Section(options, "plugins"), "hide_complianz_comments") && (active(ComplianzFree) || active(ComplianzPremium))
  {
    BranchMembers(options, active, ComplianzOutput);
    ElementorListed();
    YoastListed();
    ShortListsListed();
  }

  /** The GTM4WP output buffer is started iff its setting is on and the plugin is active. */
  lemma GtmBufferGate(options: map<Key, Value>, active: Plugin -> bool)
    ensures GtmBuffer in PluginNoticeHooks(options, active)
      <==> Flag(Section(options, "plugins"), "hide_gtm4wp_comments") && active(Gtm4wp)
  {
    BranchMembers(options, active, GtmBuffer);
    ElementorListed();
    YoastListed();
    ShortListsListed();
  }

  /** WooCommerce's generator tags are unhooked iff its setting is on and WooCommerce is active. */
  lemma WooRemovalsGate(options: map<Key, Value>, active: Plugin -> bool)
    ensures PluginNoticeRemovals(options, active) != []
      <==> Flag(Section(options, "plugins"), "hide_woocommerce_clutter") && active(WooCommerce)
    ensures PluginNoticeRemovals(options, active) != [] ==> |PluginNoticeRemovals(options, active)| == 2
  {
  }

  /** Yoast's submenu filter and notification clean-up are hooked iff its setting is on and Yoast SEO is active. */
  lemma YoastFiltersGate(options: map<Key, Value>, active: Plugin -> bool)
    ensures YoastSubmenus in PluginNoticeHooks(options, active)
      <==> Flag(Section(options, "plugins"), "hide_yoast_notices") && active(YoastSeo)
    ensures YoastDismiss in PluginNoticeHooks(options, active)
      <==> Flag(Section(options, "plugins"), "hide_yoast_notices") && active(YoastSeo)
  {
    BranchMembers(options, active, YoastSubmenus);
    BranchMembers(options, active, YoastDismiss);
    ElementorListed();
    YoastListed();
    ShortListsListed();
  }

  /** No plugin active, nothing hooked and nothing unhooked, whatever the settings. */
  lemma NoActivePluginsNoHooks(options: map<Key, Value>, active: Plugin -> bool)
    requires forall p :: !active(p)
    ensures PluginNoticeHooks(options, active) == []
    ensures PluginNoticeRemovals(options, active) == []
  {
    var plugins := Section(options, "plugins");
    assert !active(PixelYourSite) && !active(Elementor) && !active(ComplianzFree) && !active(ComplianzPremium);
    assert !active(Gtm4wp) && !active(WooCommerce) && !active(YoastSeo);
    assert AdminBranches(plugins, active) == [];
    assert LaterBranches(plugins, active) == [];
  }

  /* ---------------------------------------------------------------------- */
  /* The array filters                                                        */
  /* ---------------------------------------------------------------------- */

  /** `remove_elementor_go_pro_link`: unsets `go_pro`. */
  function RemoveElementorGoProLink(links: map<Key, Value>): map<Key, Value> {
    Unset(links, StrKey("go_pro"))
  }

  /** After the filter no `go_pro` link is left, every other link keeps its value, and a second pass changes nothing. */
  lemma GoProLinkGone(links: map<Key, Value>, k: Key)
    ensures StrKey("go_pro") !in RemoveElementorGoProLink(links)
    ensures k != StrKey("go_pro") && k in links ==> k in RemoveElementorGoProLink(links) && RemoveElementorGoProLink(links)[k] == links[k]
    ensures RemoveElementorGoProLink(RemoveElementorGoProLink(links)) == RemoveElementorGoProLink(links)
  {
    UnsetIdempotent(links, StrKey("go_pro"));
  }

  /** The seven upsell slugs `filter_yoast_submenu_pages` drops. */
  function YoastPromoSlugs(): set<string> {
    { "wpseo_redirects", "wpseo_workouts", "wpseo_brand_insights", "wpseo_page_academy",
      "wpseo_licenses", "wpseo_page_support", "wpseo_upgrade_sidebar" }
  }

  /**
   * The `array_filter` callback: `! isset( $page[4] ) || ! in_array( $page[4], $remove_slugs, true )`.
   * The strict `in_array` matches only a string equal to a listed slug. On a
   * string `$page`, `$page[4]` is at most one character, which no slug is,
   * so reading it as null keeps the same entries.
   */
  predicate KeepSubmenuPage(page: Value) {
    var slug := GetKey(page, IntKey(4));
    slug == Null || !(slug.Str? && slug.s in YoastPromoSlugs())
  }

  /** `filter_yoast_submenu_pages`: `array_filter` keeps keys, so the result is a sub-map. */
  function FilterYoastSubmenuPages(pages: map<Key, Value>): map<Key, Value> {
    map k | k in pages && KeepSubmenuPage(pages[k]) :: pages[k]
  }

  /**
   * An entry stays iff it has no index 4 or its index-4 slug is not one of
   * the seven; a kept entry keeps its key and its value.
   */
  lemma SubmenuPagesKept(pages: map<Key, Value>, k: Key)
    ensures k in FilterYoastSubmenuPages(pages)
      <==> k in pages && (GetKey(pages[k], IntKey(4)) == Null || GetKey(pages[k], IntKey(4)) !in StrValues(YoastPromoSlugs()))
    ensures k in FilterYoastSubmenuPages(pages) ==> FilterYoastSubmenuPages(pages)[k] == pages[k]
  {
    if k in pages {
      StrValuesMembers(YoastPromoSlugs(), GetKey(pages[k], IntKey(4)));
    }
  }

  /** The strings of `slugs` as PHP values. */
  function StrValues(slugs: set<string>): set<Value> {
    set s | s in slugs :: Str(s)
  }

  lemma StrValuesMembers(slugs: set<string>, v: Value)
    ensures v in StrValues(slugs) <==> v.Str? && v.s in slugs
  {
    if v.Str? && v.s in slugs {
      assert Str(v.s) in StrValues(slugs);
    }
  }

  /** Filtering the submenu a second time drops nothing more. */
  lemma SubmenuFilterIdempotent(pages: map<Key, Value>)
    ensures FilterYoastSubmenuPages(FilterYoastSubmenuPages(pages)) == FilterYoastSubmenuPages(pages)
  {
    var r := FilterYoastSubmenuPages(pages);
    assert FilterYoastSubmenuPages(r).Keys == r.Keys;
  }

  /** The seven columns `remove_yoast_columns` unsets. */
  function YoastColumns(): set<Key> {
    { StrKey("wpseo-score"), StrKey("wpseo-score-readability"), StrKey("wpseo-title"),
      StrKey("wpseo-metadesc"), StrKey("wpseo-focuskw"), StrKey("wpseo-links"), StrKey("wpseo-linked") }
  }

  /** `remove_yoast_columns`: exactly the seven `wpseo-*` keys go; every other column keeps its title. */
  function RemoveYoastColumns(columns: map<Key, Value>): (r: map<Key, Value>)
    ensures forall k :: k in r <==> k in columns && k !in YoastColumns()
    ensures forall k :: k in r ==> r[k] == columns[k]
  {
    columns - YoastColumns()
  }

  /** The list names seven different columns. */
  lemma YoastColumnsAreSeven()
    ensures |YoastColumns()| == 7
  {
  }

  /* ---------------------------------------------------------------------- */
  /* The per-post-type column filters                                         */
  /* ---------------------------------------------------------------------- */

  /** The list-table column filter of one post type. */
  function ColumnsHook(postType: string): string {
    "manage_edit-" + postType + "_columns"
  }

  /** Different post types have different column filters. */
  lemma ColumnsHookInjective(p: string, q: string)
    ensures ColumnsHook(p) == ColumnsHook(q) ==> p == q
  {
    if ColumnsHook(p) == ColumnsHook(q) {
      assert |p| == |q|;
      assert p == ColumnsHook(p)[12..12 + |p|];
      assert q == ColumnsHook(q)[12..12 + |q|];
    }
  }

  /** One column filter per public post type, in the host's order. */
  function ColumnFilters(postTypes: seq<string>): seq<Registration> {
    if postTypes == [] then []
    else [FilterAt(ColumnsHook(postTypes[0]), "remove_yoast_columns", 99)] + ColumnFilters(postTypes[1..])
  }

  /**
   * `remove_yoast_admin_columns_and_filters`: a column filter for each
   * public post type (the host's list is the parameter), then the dropdown
   * clean-up on `load-edit.php`.
   */
  method RemoveYoastAdminColumnsAndFilters(host: Host, postTypes: seq<string>)
    modifies host
    ensures host.registrations == old(host.registrations) + ColumnFilters(postTypes) + [OnAction("load-edit.php", "remove_yoast_filter_dropdowns")]
    ensures host.removals == old(host.removals)
  {
    var i := 0;
    while i < |postTypes|
      invariant 0 <= i <= |postTypes|
      invariant host.registrations + ColumnFilters(postTypes[i..]) == old(host.registrations) + ColumnFilters(postTypes)
      invariant host.removals == old(host.removals)
    {
      assert postTypes[i..][1..] == postTypes[i + 1..];
      host.Add(FilterAt(ColumnsHook(postTypes[i]), "remove_yoast_columns", 99));
      i := i + 1;
    }
    host.Add(OnAction("load-edit.php", "remove_yoast_filter_dropdowns"));
  }

  /** Every public post type gets its own column filter, and nothing else is filtered. */
  lemma {:induction false} ColumnFiltersPerType(postTypes: seq<string>, x: Registration)
    ensures x in ColumnFilters(postTypes)
      <==> exists i :: 0 <= i < |postTypes| && x == FilterAt(ColumnsHook(postTypes[i]), "remove_yoast_columns", 99)
    ensures |ColumnFilters(postTypes)| == |postTypes|
  {
    if postTypes != [] {
      ColumnFiltersPerType(postTypes[1..], x);
      if x in ColumnFilters(postTypes[1..]) {
        var i :| 0 <= i < |postTypes[1..]| && x == FilterAt(ColumnsHook(postTypes[1..][i]), "remove_yoast_columns", 99);
        assert x == FilterAt(ColumnsHook(postTypes[i + 1]), "remove_yoast_columns", 99);
      }
      if exists i :: 0 <= i < |postTypes| && x == FilterAt(ColumnsHook(postTypes[i]), "remove_yoast_columns", 99) {
        var i :| 0 <= i < |postTypes| && x == FilterAt(ColumnsHook(postTypes[i]), "remove_yoast_columns", 99);
        if i > 0 {
          assert x == FilterAt(ColumnsHook(postTypes[1..][i - 1]), "remove_yoast_columns", 99);
        }
      }
    }
  }

  /* ---------------------------------------------------------------------- */
  /* Yoast's notification centre                                              */
  /* ---------------------------------------------------------------------- */

  /** A Yoast notification: its id and its type (`error`, `warning`, `info`, ...). */
  datatype Notification = Notification(id: string, kind: string)

  /** The entries of `ns` other than `n`. */
  function Without(ns: seq<Notification>, n: Notification): seq<Notification> {
    if ns == [] then []
    else (if ns[0] == n then [] else [ns[0]]) + Without(ns[1..], n)
  }

  /** The error notifications of `ns`, in order. */
  function OnlyErrors(ns: seq<Notification>): seq<Notification> {
    if ns == [] then []
    else (if ns[0].kind == "error" then [ns[0]] else []) + OnlyErrors(ns[1..])
  }

  /** The entries of `ns` still there once every non-error entry of `seen` is dismissed. */
  function Kept(ns: seq<Notification>, seen: seq<Notification>): seq<Notification> {
    if ns == [] then []
    else (if ns[0].kind == "error" || ns[0] !in seen then [ns[0]] else []) + Kept(ns[1..], seen)
  }

  /** Yoast's notification centre, reduced to its list of notifications. */
  class NotificationCenter {
    var notifications: seq<Notification>

    constructor (ns: seq<Notification>)
      ensures notifications == ns
    {
      notifications := ns;
    }

    /** `remove_notification`: the notification is no longer listed. */
    method RemoveNotification(n: Notification)
      modifies this
      ensures notifications == Without(old(notifications), n)
    {
      notifications := Without(notifications, n);
    }
  }

  /**
   * `dismiss_yoast_promotional_notifications`: when Yoast's notification
   * centre exists (`center != null`), every notification it lists whose type
   * is not `error` is removed; the others are skipped.
   */
  method DismissYoastPromotionalNotifications(center: NotificationCenter?)
    modifies center
    ensures center != null ==> center.notifications == OnlyErrors(old(center.notifications))
  {
    if center == null {
      return;
    }
    var all := center.notifications;
    KeptNone(all);
    var i := 0;
    while i < |all|
      invariant 0 <= i <= |all|
      invariant center.notifications == Kept(all, all[..i])
    {
      var notification := all[i];
      assert all[..i + 1] == all[..i] + [notification];
      if notification.kind == "error" {
        KeptError(all, all[..i], notification);
        i := i + 1;
        continue;
      }
      KeptDismiss(all, all[..i], notification);
      center.RemoveNotification(notification);
      i := i + 1;
    }
    assert all[..i] == all;
    KeptAll(all, all);
  }

  /** Nothing seen, nothing dismissed. */
  lemma {:induction false} KeptNone(ns: seq<Notification>)
    ensures Kept(ns, []) == ns
  {
    if ns != [] {
      KeptNone(ns[1..]);
      assert ns == [ns[0]] + ns[1..];
    }
  }

  /** Skipping an error notification changes nothing. */
  lemma {:induction false} KeptError(ns: seq<Notification>, seen: seq<Notification>, n: Notification)
    requires n.kind == "error"
    ensures Kept(ns, seen + [n]) == Kept(ns, seen)
  {
    if ns != [] {
      KeptError(ns[1..], seen, n);
    }
  }

  /** Dismissing a non-error notification removes it from what was kept. */
  lemma {:induction false} KeptDismiss(ns: seq<Notification>, seen: seq<Notification>, n: Notification)
    requires n.kind != "error"
    ensures Without(Kept(ns, seen), n) == Kept(ns, seen + [n])
  {
    if ns != [] {
      KeptDismiss(ns[1..], seen, n);
      var head := if ns[0].kind == "error" || ns[0] !in seen then [ns[0]] else [];
      WithoutAppend(head, Kept(ns[1..], seen), n);
    }
  }

  lemma {:induction false} WithoutAppend(a: seq<Notification>, b: seq<Notification>, n: Notification)
    ensures Without(a + b, n) == Without(a, n) + Without(b, n)
  {
    if a != [] {
      WithoutAppend(a[1..], b, n);
      assert (a + b)[1..] == a[1..] + b;
    } else {
      assert a + b == b;
    }
  }

  /** Once every entry has been seen, only the errors are kept. */
  lemma {:induction false} KeptAll(ns: seq<Notification>, seen: seq<Notification>)
    requires forall i :: 0 <= i < |ns| ==> ns[i] in seen
    ensures Kept(ns, seen) == OnlyErrors(ns)
  {
    if ns != [] {
      assert ns[0] in seen;
      KeptAll(ns[1..], seen);
    }
  }

  /**
   * After the clean-up only `error` notifications remain, and none of them
   * was removed: each keeps its number of copies, and the order is kept.
   */
  lemma {:induction false} OnlyErrorsExactly(ns: seq<Notification>)
    ensures forall n :: n in OnlyErrors(ns) ==> n.kind == "error"
    ensures forall n: Notification :: n.kind == "error" ==> multiset(OnlyErrors(ns))[n] == multiset(ns)[n]
  {
    if ns != [] {
      OnlyErrorsExactly(ns[1..]);
      assert ns == [ns[0]] + ns[1..];
    }
  }

  /** The surviving notifications appear in the same order as before. */
  lemma {:induction false} OnlyErrorsIsSubsequence(ns: seq<Notification>)
    ensures OnlyErrors(ns) == ns <==> forall i :: 0 <= i < |ns| ==> ns[i].kind == "error"
    ensures |OnlyErrors(ns)| <= |ns|
  {
    if ns != [] {
      OnlyErrorsIsSubsequence(ns[1..]);
      if OnlyErrors(ns) == ns {
        if ns[0].kind != "error" {
          assert false;
        }
        assert OnlyErrors(ns[1..]) == ns[1..];
      }
      if forall i :: 0 <= i < |ns| ==> ns[i].kind == "error" {
        assert ns[0].kind == "error";
        assert forall i :: 0 <= i < |ns[1..]| ==> ns[1..][i].kind == "error" by {
          forall i | 0 <= i < |ns[1..]| ensures ns[1..][i].kind == "error" {
            assert ns[1..][i] == ns[i + 1];
          }
        }
        assert ns == [ns[0]] + ns[1..];
      }
    }
  }
}
