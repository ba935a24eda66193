/**
 * The Site Health component: when the dashboard setting
 * `disable_site_health` is set it hooks a fixed list of callbacks, among
 * them a `rest_endpoints` filter that drops every Site Health route.
 */
module SiteHealth {
  import opened Php
  import opened Hooks

  /** What `disable_site_health()` registers, in its own order. */
  function DisableSiteHealthHooks(): seq<Registration> {
    [ ActionAt("admin_menu", "remove_site_health_menu", 999),
      ActionAt("wp_dashboard_setup", "remove_site_health_dashboard_widget", 999),
      FilterAt("site_status_tests", "__return_empty_array", 999),
      FilterAt("site_status_test_result", "__return_empty_array", 999),
      OnAction("wp_before_admin_bar_render", "remove_site_health_admin_bar"),
      OnAction("init", "disable_site_health_cron"),
      OnAction("admin_init", "redirect_site_health_pages"),
      OnFilter("rest_endpoints", "disable_site_health_rest_api"),
      OnFilter("wp_fatal_error_handler_enabled", "__return_false"),
      OnFilter("recovery_mode_email", "__return_empty_array"),
      OnAction("admin_head", "hide_site_health_notices"),
      ActionAt("admin_enqueue_scripts", "dequeue_site_health_scripts", 999),
      OnFilter("site_status_should_suggest_persistent_object_cache", "__return_false"),
      OnFilter("send_site_health_report_email", "__return_false") ]
  }

  /** Everything the constructor registers: all of the list, or nothing. */
  function SiteHealthHooks(options: map<Key, Value>): (r: seq<Registration>)
    ensures r != [] <==> Flag(Section(options, "dashboard"), "disable_site_health")
    ensures r != [] ==> |r| == 14
  {
    if Flag(Section(options, "dashboard"), "disable_site_health") then DisableSiteHealthHooks() else []
  }

  /** The constructor. */
  method RegisterSiteHealthHooks(host: Host, options: map<Key, Value>)
    modifies host
    ensures host.registrations == old(host.registrations) + SiteHealthHooks(options)
    ensures host.removals == old(host.removals)
  {
    if !Empty(Get(Section(options, "dashboard"), "disable_site_health")) {
      host.AddAll(DisableSiteHealthHooks());
    }
  }

  /** `strpos( $route, '/wp-site-health/' ) !== false`; an integer key's digits never contain it. */
  predicate SiteHealthRoute(route: Key) {
    route.StrKey? && Contains(route.s, "/wp-site-health/")
  }

  /** The routes left once every Site Health route is gone. */
  function WithoutSiteHealthRoutes(endpoints: map<Key, Value>): map<Key, Value> {
    map k | k in endpoints && !SiteHealthRoute(k) :: endpoints[k]
  }

  /**
   * `disable_site_health_rest_api`: the `foreach` visits every route of the
   * array it was given and unsets the Site Health ones. The host's order of
   * visit does not matter, so any order is taken here.
   */
  method DisableSiteHealthRestApi(endpoints: map<Key, Value>) returns (result: map<Key, Value>)
    ensures result == WithoutSiteHealthRoutes(endpoints)
  {
    result := endpoints;
    var remaining := endpoints.Keys;
    while remaining != {}
      invariant remaining <= endpoints.Keys
      invariant result.Keys <= endpoints.Keys
      invariant forall k :: k in result ==> result[k] == endpoints[k]
      invariant forall k :: k in endpoints ==> (k in result <==> k in remaining || !SiteHealthRoute(k))
      decreases remaining
    {
      var route :| route in remaining;
      if route.StrKey? && Contains(route.s, "/wp-site-health/") {
        result := result - {route};
      }
      remaining := remaining - {route};
    }
    assert result.Keys == WithoutSiteHealthRoutes(endpoints).Keys;
  }

  /** After the filter no route contains `/wp-site-health/`, and every other route keeps its handlers. */
  lemma SiteHealthRoutesGone(endpoints: map<Key, Value>, k: Key)
    ensures k in WithoutSiteHealthRoutes(endpoints) ==> !SiteHealthRoute(k)
    ensures k in endpoints && !SiteHealthRoute(k) ==> k in WithoutSiteHealthRoutes(endpoints) && WithoutSiteHealthRoutes(endpoints)[k] == endpoints[k]
    ensures WithoutSiteHealthRoutes(endpoints).Keys <= endpoints.Keys
  {
  }

  /** Filtering twice is filtering once. */
  lemma SiteHealthFilterIdempotent(endpoints: map<Key, Value>)
    ensures WithoutSiteHealthRoutes(WithoutSiteHealthRoutes(endpoints)) == WithoutSiteHealthRoutes(endpoints)
  {
    var r := WithoutSiteHealthRoutes(endpoints);
    assert WithoutSiteHealthRoutes(r).Keys == r.Keys;
  }
}
