/**
 * The footer component: for the footer text and for the version line,
 * removing wins over a custom text, and a custom text is used only when it
 * is not empty. `wp_kses_post` and `esc_html` are the parameters `kses` and
 * `escHtml`.
 */
module Footer {
  import opened Php
  import opened Hooks

  const BlankFooter: Registration := FilterAt("admin_footer_text", "__return_empty_string", 999)
  const CustomFooter: Registration := FilterAt("admin_footer_text", "custom_footer_text", 999)
  const BlankVersion: Registration := FilterAt("update_footer", "__return_empty_string", 999)
  const CustomVersion: Registration := FilterAt("update_footer", "custom_version_text", 999)

  /** The `if` / `elseif` for one line: `remove` first, then a non-empty `custom`. */
  function LineHooks(footer: Value, remove: string, custom: string, blank: Registration, own: Registration): seq<Registration> {
    if Flag(footer, remove) then [blank] else if Flag(footer, custom) then [own] else []
  }

  function FooterTextHooks(footer: Value): seq<Registration> {
    LineHooks(footer, "remove_footer_text", "custom_footer_text", BlankFooter, CustomFooter)
  }

  function VersionHooks(footer: Value): seq<Registration> {
    LineHooks(footer, "remove_version", "custom_version_text", BlankVersion, CustomVersion)
  }

  /** Everything the constructor registers, in order. */
  function FooterHooks(options: map<Key, Value>): seq<Registration> {
    var footer := Section(options, "footer");
    FooterTextHooks(footer) + VersionHooks(footer)
  }

  /** The constructor. */
  method RegisterFooterHooks(host: Host, options: map<Key, Value>)
    modifies host
    ensures host.registrations == old(host.registrations) + FooterHooks(options)
    ensures host.removals == old(host.removals)
  {
    var footer := Section(options, "footer");
    if !Empty(Get(footer, "remove_footer_text")) {
      host.Add(FilterAt("admin_footer_text", "__return_empty_string", 999));
    } else if !Empty(Get(footer, "custom_footer_text")) {
      host.Add(FilterAt("admin_footer_text", "custom_footer_text", 999));
    }
    if !Empty(Get(footer, "remove_version")) {
      host.Add(FilterAt("update_footer", "__return_empty_string", 999));
    } else if !Empty(Get(footer, "custom_version_text")) {
      host.Add(FilterAt("update_footer", "custom_version_text", 999));
    }
  }

  /** `custom_footer_text`: the stored text through `wp_kses_post`. */
  function CustomFooterText(options: map<Key, Value>, kses: Value -> string): string {
    kses(Get(Section(options, "footer"), "custom_footer_text"))
  }

  /** `custom_version_text`: the stored text through `esc_html`. */
  function CustomVersionText(options: map<Key, Value>, escHtml: Value -> string): string {
    escHtml(Get(Section(options, "footer"), "custom_version_text"))
  }

  /**
   * What a line shows once the host has run the plugin's filter on it:
   * `hostText` when the plugin registered nothing there, `''` after
   * `__return_empty_string`, and the custom callback's text otherwise.
   */
  function Shown(on: seq<Registration>, hostText: string, customText: string): string {
    if on == [] then hostText
    else if on[|on| - 1].callback == "__return_empty_string" then ""
    else customText
  }

  /** The footer text shown on admin pages. */
  function ShownFooterText(options: map<Key, Value>, hostText: string, kses: Value -> string): string {
    Shown(OnHook(FooterHooks(options), "admin_footer_text"), hostText, CustomFooterText(options, kses))
  }

  /** The version line shown on admin pages. */
  function ShownVersion(options: map<Key, Value>, hostText: string, escHtml: Value -> string): string {
    Shown(OnHook(FooterHooks(options), "update_footer"), hostText, CustomVersionText(options, escHtml))
  }

  /** Each line's registrations sit on that line's hook only. */
  lemma HooksByLine(options: map<Key, Value>)
    ensures var footer := Section(options, "footer");
      OnHook(FooterHooks(options), "admin_footer_text") == FooterTextHooks(footer)
      && OnHook(FooterHooks(options), "update_footer") == VersionHooks(footer)
  {
    var footer := Section(options, "footer");
    var a, b := FooterTextHooks(footer), VersionHooks(footer);
    OnHookAppend(a, b, "admin_footer_text");
    OnHookAppend(a, b, "update_footer");
    if a != [] {
      OnHookCons(a[0], [], "admin_footer_text");
      OnHookCons(a[0], [], "update_footer");
      assert [a[0]] + [] == a;
    }
    if b != [] {
      OnHookCons(b[0], [], "admin_footer_text");
      OnHookCons(b[0], [], "update_footer");
      assert [b[0]] + [] == b;
    }
  }

  /**
   * The footer text: blank whenever `remove_footer_text` is set, whatever the
   * custom text; the sanitised custom text when only that is set; the host's
   * own text when both are empty.
   */
  lemma FooterTextPrecedence(options: map<Key, Value>, hostText: string, kses: Value -> string)
    ensures var footer := Section(options, "footer");
      ShownFooterText(options, hostText, kses)
        == if Flag(footer, "remove_footer_text") then ""
           else if Flag(footer, "custom_footer_text") then kses(Get(footer, "custom_footer_text"))
           else hostText
    ensures var footer := Section(options, "footer");
      (OnHook(FooterHooks(options), "admin_footer_text") == [] <==> !Flag(footer, "remove_footer_text") && !Flag(footer, "custom_footer_text"))
      && (CustomFooter in FooterHooks(options) <==> !Flag(footer, "remove_footer_text") && Flag(footer, "custom_footer_text"))
  {
    HooksByLine(options);
    OnHookMembers(FooterHooks(options), "admin_footer_text");
  }

  /** The same precedence for the version line: `remove_version` over `custom_version_text` over the host's text. */
  lemma VersionPrecedence(options: map<Key, Value>, hostText: string, escHtml: Value -> string)
    ensures var footer := Section(options, "footer");
      ShownVersion(options, hostText, escHtml)
        == if Flag(footer, "remove_version") then ""
           else if Flag(footer, "custom_version_text") then escHtml(Get(footer, "custom_version_text"))
           else hostText
    ensures var footer := Section(options, "footer");
      (OnHook(FooterHooks(options), "update_footer") == [] <==> !Flag(footer, "remove_version") && !Flag(footer, "custom_version_text"))
      && (CustomVersion in FooterHooks(options) <==> !Flag(footer, "remove_version") && Flag(footer, "custom_version_text"))
  {
    HooksByLine(options);
    OnHookMembers(FooterHooks(options), "update_footer");
  }

  /**
   * The two lines are decided apart: what is registered on the footer-text
   * hook depends only on the two footer-text settings, and likewise for the
   * version hook.
   */
  lemma LinesIndependent(o1: map<Key, Value>, o2: map<Key, Value>)
    ensures var f1, f2 := Section(o1, "footer"), Section(o2, "footer");
      Get(f1, "remove_footer_text") == Get(f2, "remove_footer_text") && Get(f1, "custom_footer_text") == Get(f2, "custom_footer_text")
      ==> OnHook(FooterHooks(o1), "admin_footer_text") == OnHook(FooterHooks(o2), "admin_footer_text")
    ensures var f1, f2 := Section(o1, "footer"), Section(o2, "footer");
      Get(f1, "remove_version") == Get(f2, "remove_version") && Get(f1, "custom_version_text") == Get(f2, "custom_version_text")
      ==> OnHook(FooterHooks(o1), "update_footer") == OnHook(FooterHooks(o2), "update_footer")
  {
    HooksByLine(o1);
    HooksByLine(o2);
  }
}
