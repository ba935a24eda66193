/**
 * The updates component: the core auto-update policy and the flags that
 * switch off plugin and theme auto-updates, update e-mails and update nags,
 * each turned into the filters and actions it registers.
 */
module Updates {
  import opened Php
  import opened Hooks

  /** A filter with WordPress's `__return_false` / `__return_true`, which ignore what they are given. */
  function ReturnFalse(hook: string): Registration {
    OnFilter(hook, "__return_false")
  }

  function ReturnTrue(hook: string): Registration {
    OnFilter(hook, "__return_true")
  }

  /* ---------------------------------------------------------------------- */
  /* handle_core_updates                                                      */
  /* ---------------------------------------------------------------------- */

  /** The filters `handle_core_updates( $setting )` registers; its `switch` compares loosely. */
  function CoreUpdateFilters(setting: Value): seq<Registration> {
    if SwitchMatches(setting, "disable_all") then
      [ ReturnFalse("auto_update_core"), ReturnFalse("allow_dev_auto_core_updates"),
        ReturnFalse("allow_minor_auto_core_updates"), ReturnFalse("allow_major_auto_core_updates") ]
    else if SwitchMatches(setting, "security_only") then
      [ ReturnFalse("allow_dev_auto_core_updates"), ReturnTrue("allow_minor_auto_core_updates"),
        ReturnFalse("allow_major_auto_core_updates") ]
    else if SwitchMatches(setting, "minor_only") then
      [ ReturnFalse("allow_dev_auto_core_updates"), ReturnTrue("allow_minor_auto_core_updates"),
        ReturnFalse("allow_major_auto_core_updates") ]
    else if SwitchMatches(setting, "all_updates") then
      [ ReturnFalse("allow_dev_auto_core_updates"), ReturnTrue("allow_minor_auto_core_updates"),
        ReturnTrue("allow_major_auto_core_updates") ]
    else []
  }

  /** `handle_core_updates`. */
  method HandleCoreUpdates(host: Host, setting: Value)
    modifies host
    ensures host.registrations == old(host.registrations) + CoreUpdateFilters(setting)
    ensures host.removals == old(host.removals)
  {
    if setting == Str("disable_all") || setting == Bool(true) {
      host.AddAll([ ReturnFalse("auto_update_core"), ReturnFalse("allow_dev_auto_core_updates"),
                    ReturnFalse("allow_minor_auto_core_updates"), ReturnFalse("allow_major_auto_core_updates") ]);
    } else if setting == Str("security_only") {
      host.AddAll([ ReturnFalse("allow_dev_auto_core_updates"), ReturnTrue("allow_minor_auto_core_updates"),
                    ReturnFalse("allow_major_auto_core_updates") ]);
    } else if setting == Str("minor_only") {
      host.AddAll([ ReturnFalse("allow_dev_auto_core_updates"), ReturnTrue("allow_minor_auto_core_updates"),
                    ReturnFalse("allow_major_auto_core_updates") ]);
    } else if setting == Str("all_updates") {
      host.AddAll([ ReturnFalse("allow_dev_auto_core_updates"), ReturnTrue("allow_minor_auto_core_updates"),
                    ReturnTrue("allow_major_auto_core_updates") ]);
    }
  }

  /* ---------------------------------------------------------------------- */
  /* The constructor                                                          */
  /* ---------------------------------------------------------------------- */

  function PluginUpdateFilters(): seq<Registration> {
    [ReturnFalse("auto_update_plugin"), ReturnFalse("plugins_auto_update_enabled")]
  }

  function ThemeUpdateFilters(): seq<Registration> {
    [ReturnFalse("auto_update_theme"), ReturnFalse("themes_auto_update_enabled")]
  }

  function UpdateEmailFilters(): seq<Registration> {
    [ ReturnFalse("auto_core_update_send_email"), ReturnFalse("auto_plugin_update_send_email"),
      ReturnFalse("auto_theme_update_send_email"), ReturnFalse("send_core_update_notification_email") ]
  }

  function UpdateNagActions(): seq<Registration> {
    [OnAction("admin_init", "hide_update_nags")]
  }

  /** The core policy filters, registered only when `core_updates` is not empty. */
  function CoreHooks(updates: Value): seq<Registration> {
    if Flag(updates, "core_updates") then CoreUpdateFilters(Get(updates, "core_updates")) else []
  }

  /** Everything the constructor registers, in order. */
  function UpdateHooks(options: map<Key, Value>): seq<Registration> {
    var updates := Section(options, "updates");
    CoreHooks(updates)
      + Gated(updates, "disable_plugin_updates", PluginUpdateFilters())
      + Gated(updates, "disable_theme_updates", ThemeUpdateFilters())
      + Gated(updates, "disable_update_emails", UpdateEmailFilters())
      + Gated(updates, "hide_update_nags", UpdateNagActions())
  }

  /** The constructor. */
  method RegisterUpdateHooks(host: Host, options: map<Key, Value>)
    modifies host
    ensures host.registrations == old(host.registrations) + UpdateHooks(options)
    ensures host.removals == old(host.removals)
  {
    var updates := Section(options, "updates");
    ghost var before := host.registrations;
    if !Empty(Get(updates, "core_updates")) {
      HandleCoreUpdates(host, Get(updates, "core_updates"));
    }
    ghost var done := CoreHooks(updates);
    host.AddGuarded(updates, "disable_plugin_updates", PluginUpdateFilters());
    RegistrationsAssociative(before, done, Gated(updates, "disable_plugin_updates", PluginUpdateFilters()));
    done := done + Gated(updates, "disable_plugin_updates", PluginUpdateFilters());
    host.AddGuarded(updates, "disable_theme_updates", ThemeUpdateFilters());
    RegistrationsAssociative(before, done, Gated(updates, "disable_theme_updates", ThemeUpdateFilters()));
    done := done + Gated(updates, "disable_theme_updates", ThemeUpdateFilters());
    host.AddGuarded(updates, "disable_update_emails", UpdateEmailFilters());
    RegistrationsAssociative(before, done, Gated(updates, "disable_update_emails", UpdateEmailFilters()));
    done := done + Gated(updates, "disable_update_emails", UpdateEmailFilters());
    host.AddGuarded(updates, "hide_update_nags", UpdateNagActions());
    RegistrationsAssociative(before, done, Gated(updates, "hide_update_nags", UpdateNagActions()));
  }

  /** `hide_update_nags`: takes the core and maintenance nags off and hides the update counts. */
  method HideUpdateNags(host: Host)
    modifies host
    ensures host.removals == old(host.removals) + [ Unhook("admin_notices", "update_nag", 3),
                                                    Unhook("network_admin_notices", "update_nag", 3),
                                                    Unhook("admin_notices", "maintenance_nag", 10) ]
    ensures host.registrations == old(host.registrations) + [OnAction("admin_head", "hide_update_count_css")]
  {
    host.Remove(Unhook("admin_notices", "update_nag", 3));
    host.Remove(Unhook("network_admin_notices", "update_nag", 3));
    host.Remove(Unhook("admin_notices", "maintenance_nag", 10));
    host.Add(OnAction("admin_head", "hide_update_count_css"));
  }

  /* ---------------------------------------------------------------------- */
  /* What the registrations decide                                            */
  /* ---------------------------------------------------------------------- */

  /** The four hooks the core policy filters. */
  function CoreHookNames(): seq<string> {
    ["auto_update_core", "allow_dev_auto_core_updates", "allow_minor_auto_core_updates", "allow_major_auto_core_updates"]
  }

  /** A `core_updates` value that enters one of the four cases of the `switch`. */
  predicate KnownPolicy(setting: Value) {
    SwitchMatches(setting, "disable_all") || SwitchMatches(setting, "security_only")
      || SwitchMatches(setting, "minor_only") || SwitchMatches(setting, "all_updates")
  }

  /** What the registrations leave the host to decide about core auto-updates. */
  datatype CorePolicy = CorePolicy(core: Option<bool>, dev: Option<bool>, minor: Option<bool>, major: Option<bool>)

  function PolicyOf(regs: seq<Registration>): CorePolicy {
    var names := CoreHookNames();
    CorePolicy(FinalConstant(regs, names[0]), FinalConstant(regs, names[1]),
               FinalConstant(regs, names[2]), FinalConstant(regs, names[3]))
  }

  /** The core filters are registered exactly for the four known values, and only on the core hooks. */
  lemma CoreFiltersOnlyForKnownPolicy(setting: Value)
    ensures CoreUpdateFilters(setting) != [] <==> KnownPolicy(setting)
    ensures forall j :: 0 <= j < |CoreUpdateFilters(setting)| ==>
      CoreUpdateFilters(setting)[j].hook in CoreHookNames() && CoreUpdateFilters(setting)[j].kind == Filter
  {
  }

  /** The constructor's `! empty` guard changes nothing: an empty value enters no case of the `switch`. */
  lemma EmptySettingIsNoPolicy(setting: Value)
    requires Empty(setting)
    ensures !KnownPolicy(setting)
    ensures CoreUpdateFilters(setting) == []
  {
  }

  /** `default` and any string other than the four policies enter the `default:` case. */
  lemma DefaultSettingIsNoPolicy(s: string)
    requires s != "disable_all" && s != "security_only" && s != "minor_only" && s != "all_updates"
    ensures !KnownPolicy(Str(s))
  {
  }

  /** Taking the constructor's registrations hook by hook: each group contributes what it puts on that hook. */
  lemma UpdateHooksOn(options: map<Key, Value>, h: string)
    ensures var u := Section(options, "updates");
      OnHook(UpdateHooks(options), h)
        == OnHook(CoreHooks(u), h)
           + Gated(u, "disable_plugin_updates", OnHook(PluginUpdateFilters(), h))
           + Gated(u, "disable_theme_updates", OnHook(ThemeUpdateFilters(), h))
           + Gated(u, "disable_update_emails", OnHook(UpdateEmailFilters(), h))
           + Gated(u, "hide_update_nags", OnHook(UpdateNagActions(), h))
  {
    var u := Section(options, "updates");
    var a := CoreHooks(u);
    var b := Gated(u, "disable_plugin_updates", PluginUpdateFilters());
    var c := Gated(u, "disable_theme_updates", ThemeUpdateFilters());
    var d := Gated(u, "disable_update_emails", UpdateEmailFilters());
    var e := Gated(u, "hide_update_nags", UpdateNagActions());
    OnHookAppend(a + b + c + d, e, h);
    OnHookAppend(a + b + c, d, h);
    OnHookAppend(a + b, c, h);
    OnHookAppend(a, b, h);
  }

  /** Registrations none of which is on `h` put nothing on it. */
  lemma {:induction false} OnHookMissing(regs: seq<Registration>, h: string)
    requires forall j :: 0 <= j < |regs| ==> regs[j].hook != h
    ensures OnHook(regs, h) == []
  {
    if regs != [] {
      assert forall j :: 0 <= j < |regs| - 1 ==> regs[1..][j] == regs[j + 1];
      OnHookMissing(regs[1..], h);
    }
  }

  /** The flag groups register nothing on a core hook. */
  lemma FlagGroupsMiss(i: nat)
    requires i < |CoreHookNames()|
    ensures var h := CoreHookNames()[i];
      OnHook(PluginUpdateFilters(), h) == [] && OnHook(ThemeUpdateFilters(), h) == []
      && OnHook(UpdateEmailFilters(), h) == [] && OnHook(UpdateNagActions(), h) == []
  {
    var h := CoreHookNames()[i];
    OnHookMissing(PluginUpdateFilters(), h);
    OnHookMissing(ThemeUpdateFilters(), h);
    OnHookMissing(UpdateEmailFilters(), h);
    OnHookMissing(UpdateNagActions(), h);
  }

  /** A core hook is filtered only by the core policy: the flag groups never touch it. */
  lemma CoreHookOnlyFromPolicy(options: map<Key, Value>, i: nat)
    requires i < |CoreHookNames()|
    ensures OnHook(UpdateHooks(options), CoreHookNames()[i]) == OnHook(CoreHooks(Section(options, "updates")), CoreHookNames()[i])
  {
    UpdateHooksOn(options, CoreHookNames()[i]);
    FlagGroupsMiss(i);
  }

  /** The policy the constructor leaves is the one `handle_core_updates` alone makes. */
  lemma PolicyFromCoreOnly(options: map<Key, Value>)
    ensures PolicyOf(UpdateHooks(options)) == PolicyOf(CoreHooks(Section(options, "updates")))
  {
    CoreHookOnlyFromPolicy(options, 0);
    CoreHookOnlyFromPolicy(options, 1);
    CoreHookOnlyFromPolicy(options, 2);
    CoreHookOnlyFromPolicy(options, 3);
  }

  /**
   * The policy each `core_updates` value stands for, as the settings screen
   * describes the five choices: `disable_all` turns every core auto-update
   * off; `security_only` and `minor_only` allow minor releases only;
   * `all_updates` allows minor and major ones; anything else leaves the
   * host's defaults. Development updates are never allowed.
   */
  function SettingPolicy(setting: Value): CorePolicy {
    if SwitchMatches(setting, "disable_all") then CorePolicy(Some(false), Some(false), Some(false), Some(false))
    else if SwitchMatches(setting, "security_only") || SwitchMatches(setting, "minor_only") then
      CorePolicy(None, Some(false), Some(true), Some(false))
    else if SwitchMatches(setting, "all_updates") then CorePolicy(None, Some(false), Some(true), Some(true))
    else CorePolicy(None, None, None, None)
  }

  /** The four `disable_all` filters settle every core hook on `false`. */
  lemma DisableAllPolicy()
    ensures PolicyOf(CoreUpdateFilters(Str("disable_all"))) == CorePolicy(Some(false), Some(false), Some(false), Some(false))
  {
    var a, b, c, d := ReturnFalse("auto_update_core"), ReturnFalse("allow_dev_auto_core_updates"),
                      ReturnFalse("allow_minor_auto_core_updates"), ReturnFalse("allow_major_auto_core_updates");
    OnHookOfFour(a, b, c, d, "auto_update_core");
    OnHookOfFour(a, b, c, d, "allow_dev_auto_core_updates");
    OnHookOfFour(a, b, c, d, "allow_minor_auto_core_updates");
    OnHookOfFour(a, b, c, d, "allow_major_auto_core_updates");
  }

  /** Three filters, dev `false`, minor `true`, major `major`, leave `auto_update_core` alone. */
  lemma ThreeFilterPolicy(major: bool)
    ensures var m := if major then ReturnTrue("allow_major_auto_core_updates") else ReturnFalse("allow_major_auto_core_updates");
      PolicyOf([ReturnFalse("allow_dev_auto_core_updates"), ReturnTrue("allow_minor_auto_core_updates"), m])
        == CorePolicy(None, Some(false), Some(true), Some(major))
  {
    var a, b := ReturnFalse("allow_dev_auto_core_updates"), ReturnTrue("allow_minor_auto_core_updates");
    var m := if major then ReturnTrue("allow_major_auto_core_updates") else ReturnFalse("allow_major_auto_core_updates");
    OnHookOfThree(a, b, m, "auto_update_core");
    OnHookOfThree(a, b, m, "allow_dev_auto_core_updates");
    OnHookOfThree(a, b, m, "allow_minor_auto_core_updates");
    OnHookOfThree(a, b, m, "allow_major_auto_core_updates");
  }

  /** `handle_core_updates` makes exactly the policy its setting stands for. */
  lemma CoreFiltersMakePolicy(setting: Value)
    ensures PolicyOf(CoreUpdateFilters(setting)) == SettingPolicy(setting)
  {
    if SwitchMatches(setting, "disable_all") {
      assert CoreUpdateFilters(setting) == CoreUpdateFilters(Str("disable_all"));
      DisableAllPolicy();
    } else if SwitchMatches(setting, "security_only") || SwitchMatches(setting, "minor_only") {
      ThreeFilterPolicy(false);
    } else if SwitchMatches(setting, "all_updates") {
      ThreeFilterPolicy(true);
    }
  }

  /**
   * The whole constructor leaves the core policy its `core_updates` setting
   * stands for, whatever the other flags say.
   */
  lemma UpdateHooksMakePolicy(options: map<Key, Value>)
    ensures PolicyOf(UpdateHooks(options)) == SettingPolicy(Get(Section(options, "updates"), "core_updates"))
  {
    var u := Section(options, "updates");
    PolicyFromCoreOnly(options);
    CoreFiltersMakePolicy(Get(u, "core_updates"));
    if !Flag(u, "core_updates") {
      EmptySettingIsNoPolicy(Get(u, "core_updates"));
    }
  }

  /** No setting turns development auto-updates on. */
  lemma NeverDevUpdates(options: map<Key, Value>)
    ensures PolicyOf(UpdateHooks(options)).dev != Some(true)
  {
    UpdateHooksMakePolicy(options);
  }

  /** `security_only` and `minor_only` register the same filters. */
  lemma SecurityOnlyIsMinorOnly()
    ensures CoreUpdateFilters(Str("security_only")) == CoreUpdateFilters(Str("minor_only"))
  {
  }

  /** The core policy puts nothing on a hook outside the four core hooks. */
  lemma NotOnCoreHooks(updates: Value, h: string)
    requires h !in CoreHookNames()
    ensures OnHook(CoreHooks(updates), h) == []
  {
    CoreFiltersOnlyForKnownPolicy(Get(updates, "core_updates"));
    OnHookMissing(CoreHooks(updates), h);
  }

  /** A plugin auto-update hook is filtered once, by its own group, and is not a core hook. */
  lemma PluginHookOn(i: nat)
    requires i < |PluginUpdateFilters()|
    ensures var h := PluginUpdateFilters()[i].hook;
      h !in CoreHookNames() && OnHook(PluginUpdateFilters(), h) == [ReturnFalse(h)]
      && OnHook(ThemeUpdateFilters(), h) == [] && OnHook(UpdateEmailFilters(), h) == [] && OnHook(UpdateNagActions(), h) == []
  {
    var group := PluginUpdateFilters();
    var h := group[i].hook;
    OnHookOfTwo(group[0], group[1], h);
    PluginHookOffOthers(i);
  }

  /** No other group of the component registers on a plugin auto-update hook. */
  lemma PluginHookOffOthers(i: nat)
    requires i < |PluginUpdateFilters()|
    ensures var h := PluginUpdateFilters()[i].hook;
      OnHook(ThemeUpdateFilters(), h) == [] && OnHook(UpdateEmailFilters(), h) == [] && OnHook(UpdateNagActions(), h) == []
  {
    var h := PluginUpdateFilters()[i].hook;
    OnHookMissing(ThemeUpdateFilters(), h);
    OnHookMissing(UpdateEmailFilters(), h);
    OnHookMissing(UpdateNagActions(), h);
  }

  /** Each plugin auto-update hook is `false` exactly when `disable_plugin_updates` is set, whatever else is set. */
  lemma PluginFlagAlone(options: map<Key, Value>, i: nat)
    requires i < |PluginUpdateFilters()|
    ensures FinalConstant(UpdateHooks(options), PluginUpdateFilters()[i].hook)
      == if Flag(Section(options, "updates"), "disable_plugin_updates") then Some(false) else None
  {
    var h := PluginUpdateFilters()[i].hook;
    UpdateHooksOn(options, h);
    PluginHookOn(i);
    NotOnCoreHooks(Section(options, "updates"), h);
  }

  /** A theme auto-update hook is filtered once, by its own group, and is not a core hook. */
  lemma ThemeHookOn(i: nat)
    requires i < |ThemeUpdateFilters()|
    ensures var h := ThemeUpdateFilters()[i].hook;
      h !in CoreHookNames() && OnHook(ThemeUpdateFilters(), h) == [ReturnFalse(h)]
      && OnHook(PluginUpdateFilters(), h) == [] && OnHook(UpdateEmailFilters(), h) == [] && OnHook(UpdateNagActions(), h) == []
  {
    var group := ThemeUpdateFilters();
    var h := group[i].hook;
    OnHookOfTwo(group[0], group[1], h);
    ThemeHookOffOthers(i);
  }

  /** No other group of the component registers on a theme auto-update hook. */
  lemma ThemeHookOffOthers(i: nat)
    requires i < |ThemeUpdateFilters()|
    ensures var h := ThemeUpdateFilters()[i].hook;
      OnHook(PluginUpdateFilters(), h) == [] && OnHook(UpdateEmailFilters(), h) == [] && OnHook(UpdateNagActions(), h) == []
  {
    var h := ThemeUpdateFilters()[i].hook;
    OnHookMissing(PluginUpdateFilters(), h);
    OnHookMissing(UpdateEmailFilters(), h);
    OnHookMissing(UpdateNagActions(), h);
  }

  /** Each theme auto-update hook is `false` exactly when `disable_theme_updates` is set, whatever else is set. */
  lemma ThemeFlagAlone(options: map<Key, Value>, i: nat)
    requires i < |ThemeUpdateFilters()|
    ensures FinalConstant(UpdateHooks(options), ThemeUpdateFilters()[i].hook)
      == if Flag(Section(options, "updates"), "disable_theme_updates") then Some(false) else None
  {
    var h := ThemeUpdateFilters()[i].hook;
    UpdateHooksOn(options, h);
    ThemeHookOn(i);
    NotOnCoreHooks(Section(options, "updates"), h);
  }

  /** An update e-mail hook is filtered once, by its own group, and is not a core hook. */
  lemma EmailHookOn(i: nat)
    requires i < |UpdateEmailFilters()|
    ensures var h := UpdateEmailFilters()[i].hook;
      h !in CoreHookNames() && OnHook(UpdateEmailFilters(), h) == [ReturnFalse(h)]
      && OnHook(PluginUpdateFilters(), h) == [] && OnHook(ThemeUpdateFilters(), h) == [] && OnHook(UpdateNagActions(), h) == []
  {
    var group := UpdateEmailFilters();
    var h := group[i].hook;
    OnHookOfFour(group[0], group[1], group[2], group[3], h);
    EmailHookOffOthers(i);
  }

  /** No other group of the component registers on a update e-mail hook. */
  lemma EmailHookOffOthers(i: nat)
    requires i < |UpdateEmailFilters()|
    ensures var h := UpdateEmailFilters()[i].hook;
      OnHook(PluginUpdateFilters(), h) == [] && OnHook(ThemeUpdateFilters(), h) == [] && OnHook(UpdateNagActions(), h) == []
  {
    var h := UpdateEmailFilters()[i].hook;
    OnHookMissing(PluginUpdateFilters(), h);
    OnHookMissing(ThemeUpdateFilters(), h);
    OnHookMissing(UpdateNagActions(), h);
  }

  /** Each update e-mail hook is `false` exactly when `disable_update_emails` is set, whatever else is set. */
  lemma EmailFlagAlone(options: map<Key, Value>, i: nat)
    requires i < |UpdateEmailFilters()|
    ensures FinalConstant(UpdateHooks(options), UpdateEmailFilters()[i].hook)
      == if Flag(Section(options, "updates"), "disable_update_emails") then Some(false) else None
  {
    var h := UpdateEmailFilters()[i].hook;
    UpdateHooksOn(options, h);
    EmailHookOn(i);
    NotOnCoreHooks(Section(options, "updates"), h);
  }

  /** Only the nag group registers on `admin_init`, and `admin_init` is not a core hook. */
  lemma NagHookOn()
    ensures "admin_init" !in CoreHookNames() && OnHook(UpdateNagActions(), "admin_init") == UpdateNagActions()
    ensures OnHook(PluginUpdateFilters(), "admin_init") == [] && OnHook(ThemeUpdateFilters(), "admin_init") == []
    ensures OnHook(UpdateEmailFilters(), "admin_init") == []
  {
    NagHookOffOthers();
    OnHookCons(OnAction("admin_init", "hide_update_nags"), [], "admin_init");
  }

  /** No other group of the component registers on `admin_init`. */
  lemma NagHookOffOthers()
    ensures OnHook(PluginUpdateFilters(), "admin_init") == [] && OnHook(ThemeUpdateFilters(), "admin_init") == []
    ensures OnHook(UpdateEmailFilters(), "admin_init") == []
  {
    OnHookMissing(PluginUpdateFilters(), "admin_init");
    OnHookMissing(ThemeUpdateFilters(), "admin_init");
    OnHookMissing(UpdateEmailFilters(), "admin_init");
  }

  /** `admin_init` gets the nag callback exactly when `hide_update_nags` is set, and nothing else from this component. */
  lemma NagsFlagAlone(options: map<Key, Value>)
    ensures OnHook(UpdateHooks(options), "admin_init")
      == if Flag(Section(options, "updates"), "hide_update_nags") then [OnAction("admin_init", "hide_update_nags")] else []
  {
    UpdateHooksOn(options, "admin_init");
    NagHookOn();
    NotOnCoreHooks(Section(options, "updates"), "admin_init");
  }

  /** The constructor registers the core filters plus 2, 2, 4 and 1 for the four flags that are set. */
  lemma UpdateHooksCount(options: map<Key, Value>)
    ensures var u := Section(options, "updates");
      |UpdateHooks(options)| == |CoreHooks(u)|
        + (if Flag(u, "disable_plugin_updates") then 2 else 0) + (if Flag(u, "disable_theme_updates") then 2 else 0)
        + (if Flag(u, "disable_update_emails") then 4 else 0) + (if Flag(u, "hide_update_nags") then 1 else 0)
    ensures |CoreHooks(Section(options, "updates"))| <= 4
  {
  }
}
