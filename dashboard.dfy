/**
 * The dashboard component: it hooks its callback only when some dashboard
 * setting is on, and the callback takes away one widget per set flag.
 */
module Dashboard {
  import opened Php
  import opened Hooks

  /** Each flag `remove_dashboard_widgets` reads and the one call it makes for it. */
  function DashboardWidgets(): seq<Guarded> {
    [ Guarded("remove_welcome_panel", Unhook("welcome_panel", "wp_welcome_panel", DefaultPriority)),
      Guarded("remove_at_a_glance", RemoveMetaBox("dashboard_right_now", "dashboard", "normal")),
      Guarded("remove_activity", RemoveMetaBox("dashboard_activity", "dashboard", "normal")),
      Guarded("remove_quick_draft", RemoveMetaBox("dashboard_quick_press", "dashboard", "side")),
      Guarded("remove_wp_events", RemoveMetaBox("dashboard_primary", "dashboard", "side")),
      Guarded("remove_site_health", RemoveMetaBox("dashboard_site_health", "dashboard", "normal")) ]
  }

  /**
   * `! empty( array_filter( $dashboard_options ) )`: some entry of the
   * section, under any key, is truthy.
   */
  predicate AnySettingOn(section: Value) {
    section.Arr? && exists k :: k in section.m && Truthy(section.m[k])
  }

  /** The registration the component makes. */
  function DashboardHooks(options: map<Key, Value>): (r: seq<Registration>)
    ensures r != [] <==> AnySettingOn(Section(options, "dashboard"))
  {
    if AnySettingOn(Section(options, "dashboard")) then [ActionAt("wp_dashboard_setup", "remove_dashboard_widgets", 999)] else []
  }

  /** The constructor. */
  method RegisterDashboardHooks(host: Host, options: map<Key, Value>)
    modifies host
    ensures host.registrations == old(host.registrations) + DashboardHooks(options)
    ensures host.removals == old(host.removals)
  {
    var dashboard := Section(options, "dashboard");
    if AnySettingOn(dashboard) {
      host.Add(ActionAt("wp_dashboard_setup", "remove_dashboard_widgets", 999));
    }
  }

  /** The calls `remove_dashboard_widgets` makes, in its own order: one guarded call per row. */
  function DashboardRemovals(section: Value): seq<Removal> {
    var rows := DashboardWidgets();
    Guard(section, rows[0]) + Guard(section, rows[1]) + Guard(section, rows[2])
      + Guard(section, rows[3]) + Guard(section, rows[4]) + Guard(section, rows[5])
  }

  /** `remove_dashboard_widgets`, with `options` the record the component read. */
  method RemoveDashboardWidgets(host: Host, options: map<Key, Value>)
    modifies host
    ensures host.removals == old(host.removals) + DashboardRemovals(Section(options, "dashboard"))
    ensures host.registrations == old(host.registrations)
  {
    var dashboard := Section(options, "dashboard");
    ghost var rows := DashboardWidgets();
    ghost var before := host.removals;
    host.RemoveGuarded(dashboard, Guarded("remove_welcome_panel", Unhook("welcome_panel", "wp_welcome_panel", DefaultPriority)));
    ghost var done := Guard(dashboard, rows[0]);
    host.RemoveGuarded(dashboard, Guarded("remove_at_a_glance", RemoveMetaBox("dashboard_right_now", "dashboard", "normal")));
    AppendAssociative(before, done, Guard(dashboard, rows[1]));
    done := done + Guard(dashboard, rows[1]);
    host.RemoveGuarded(dashboard, Guarded("remove_activity", RemoveMetaBox("dashboard_activity", "dashboard", "normal")));
    AppendAssociative(before, done, Guard(dashboard, rows[2]));
    done := done + Guard(dashboard, rows[2]);
    host.RemoveGuarded(dashboard, Guarded("remove_quick_draft", RemoveMetaBox("dashboard_quick_press", "dashboard", "side")));
    AppendAssociative(before, done, Guard(dashboard, rows[3]));
    done := done + Guard(dashboard, rows[3]);
    host.RemoveGuarded(dashboard, Guarded("remove_wp_events", RemoveMetaBox("dashboard_primary", "dashboard", "side")));
    AppendAssociative(before, done, Guard(dashboard, rows[4]));
    done := done + Guard(dashboard, rows[4]);
    host.RemoveGuarded(dashboard, Guarded("remove_site_health", RemoveMetaBox("dashboard_site_health", "dashboard", "normal")));
    AppendAssociative(before, done, Guard(dashboard, rows[5]));
  }

  /** A widget call is made exactly when its own flag is set. */
  lemma DashboardRemovalsExactly(section: Value, r: Removal)
    ensures r in DashboardRemovals(section) <==>
      exists i :: 0 <= i < |DashboardWidgets()| && DashboardWidgets()[i].removal == r && Flag(section, DashboardWidgets()[i].flag)
  {
    SixGuardsExactly(section, DashboardWidgets(), r);
  }

  /** Six guarded calls in a row make a call exactly when one of the rows holds it and has its flag set. */
  lemma SixGuardsExactly(section: Value, rows: seq<Guarded>, r: Removal)
    requires |rows| == 6
    ensures r in Guard(section, rows[0]) + Guard(section, rows[1]) + Guard(section, rows[2])
        + Guard(section, rows[3]) + Guard(section, rows[4]) + Guard(section, rows[5])
      <==> exists i :: 0 <= i < 6 && rows[i].removal == r && Flag(section, rows[i].flag)
  {
    var g := Guard(section, rows[0]) + Guard(section, rows[1]) + Guard(section, rows[2])
      + Guard(section, rows[3]) + Guard(section, rows[4]) + Guard(section, rows[5]);
    assert r in g <==> exists i :: 0 <= i < 6 && r in Guard(section, rows[i]) by {
      if r in g {
        if r in Guard(section, rows[0]) {
        } else if r in Guard(section, rows[1]) {
        } else if r in Guard(section, rows[2]) {
        } else if r in Guard(section, rows[3]) {
        } else if r in Guard(section, rows[4]) {
        } else {
          assert r in Guard(section, rows[5]);
        }
      }
    }
    forall i | 0 <= i < 6
      ensures r in Guard(section, rows[i]) <==> rows[i].removal == r && Flag(section, rows[i].flag)
    {
    }
  }

  /** Each flag stands for a different widget, so no two set flags make the same call. */
  lemma WidgetsDistinct()
    ensures forall i, j :: 0 <= i < j < |DashboardWidgets()| ==> DashboardWidgets()[i].removal != DashboardWidgets()[j].removal
    ensures forall i, j :: 0 <= i < j < |DashboardWidgets()| ==> DashboardWidgets()[i].flag != DashboardWidgets()[j].flag
  {
  }

  /** With no widget flag set the callback removes nothing. */
  lemma UnsetFlagsRemoveNothing(section: Value)
    requires forall i :: 0 <= i < |DashboardWidgets()| ==> !Flag(section, DashboardWidgets()[i].flag)
    ensures DashboardRemovals(section) == []
  {
    var rows := DashboardWidgets();
    assert !Flag(section, rows[0].flag) && !Flag(section, rows[1].flag) && !Flag(section, rows[2].flag);
    assert !Flag(section, rows[3].flag) && !Flag(section, rows[4].flag) && !Flag(section, rows[5].flag);
  }

  /**
   * `disable_site_health` on its own hooks the callback, which then removes
   * nothing: that setting is read by the Site Health component.
   */
  lemma SiteHealthAloneRemovesNothing(options: map<Key, Value>)
    requires Section(options, "dashboard") == Arr(map[StrKey("disable_site_health") := Bool(true)])
    ensures DashboardHooks(options) != []
    ensures DashboardRemovals(Section(options, "dashboard")) == []
  {
    var section := Section(options, "dashboard");
    assert Truthy(section.m[StrKey("disable_site_health")]);
    var rows := DashboardWidgets();
    forall i | 0 <= i < |rows|
      ensures !Flag(section, rows[i].flag)
    {
      assert rows[i].flag != "disable_site_health";
    }
    UnsetFlagsRemoveNothing(section);
  }

  /** Whenever the callback would remove something, the gate has hooked it: a set flag is a truthy entry. */
  lemma GateCoversWidgets(options: map<Key, Value>)
    requires DashboardRemovals(Section(options, "dashboard")) != []
    ensures DashboardHooks(options) != []
  {
    var section := Section(options, "dashboard");
    var r := DashboardRemovals(section)[0];
    DashboardRemovalsExactly(section, r);
    var i :| 0 <= i < |DashboardWidgets()| && DashboardWidgets()[i].removal == r && Flag(section, DashboardWidgets()[i].flag);
    assert Truthy(section.m[StrKey(DashboardWidgets()[i].flag)]);
  }
}
