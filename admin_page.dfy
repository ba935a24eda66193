/**
 * The settings screen's server side: `sanitize_options`, the validator the
 * host runs on every submitted settings form, the list of tabs and the
 * fallback for the tab the page displays.
 *
 * The host's text filters are parameters: `sanitizeKey` (`sanitize_key`),
 * `kses` (`wp_kses_post`) and `sanitizeText` (`sanitize_text_field`).
 * `StandardSanitizeKey` is WordPress's own definition of `sanitize_key`,
 * used where a property depends on what that filter does.
 */
module AdminPage {
  import opened Php
  import PluginOptions

  /** The nine settings tabs; each edits the section of the record it is named after. */
  datatype Tab =
    | AdminBarTab | CommentsTab | DashboardTab | MenusTab | FooterTab
    | NoticesTab | MediaTab | PluginsTab | UpdatesTab

  function TabName(t: Tab): string {
    match t
    case AdminBarTab => "adminbar"
    case CommentsTab => "comments"
    case DashboardTab => "dashboard"
    case MenusTab => "menus"
    case FooterTab => "footer"
    case NoticesTab => "notices"
    case MediaTab => "media"
    case PluginsTab => "plugins"
    case UpdatesTab => "updates"
  }

  /** The tab a sanitised tab key selects: the one whose name it equals exactly, if any. */
  function ParseTab(s: string): (r: Option<Tab>)
    ensures r.Some? ==> TabName(r.value) == s
    ensures r.None? ==> forall t :: TabName(t) != s
  {
    if s == "adminbar" then Some(AdminBarTab)
    else if s == "comments" then Some(CommentsTab)
    else if s == "dashboard" then Some(DashboardTab)
    else if s == "menus" then Some(MenusTab)
    else if s == "footer" then Some(FooterTab)
    else if s == "notices" then Some(NoticesTab)
    else if s == "media" then Some(MediaTab)
    else if s == "plugins" then Some(PluginsTab)
    else if s == "updates" then Some(UpdatesTab)
    else None
  }

  /** Each tab's own name selects it. */
  lemma ParseTabName(t: Tab)
    ensures ParseTab(TabName(t)) == Some(t)
  {
  }

  predicate IsTab(s: string) {
    ParseTab(s).Some?
  }

  /* ---------------------------------------------------------------------- */
  /* sanitize_key                                                             */
  /* ---------------------------------------------------------------------- */

  predicate IsKeyChar(c: char) {
    IsAsciiLower(c) || IsAsciiDigit(c) || c == '_' || c == '-'
  }

  /** `preg_replace( '/[^a-z0-9_\-]/', '', $s )`. */
  function KeepKeyChars(s: string): (r: string)
    ensures |r| <= |s|
    ensures forall i :: 0 <= i < |r| ==> IsKeyChar(r[i])
    ensures (forall i :: 0 <= i < |s| ==> IsKeyChar(s[i])) ==> r == s
  {
    if s == [] then [] else (if IsKeyChar(s[0]) then [s[0]] else []) + KeepKeyChars(s[1..])
  }

  /**
   * WordPress's `sanitize_key`: a scalar is lower-cased (ASCII only) and
   * stripped of everything outside `[a-z0-9_-]`; anything else becomes `''`.
   */
  function StandardSanitizeKey(v: Value): (r: string)
    ensures forall i :: 0 <= i < |r| ==> IsKeyChar(r[i])
  {
    match v
    case Str(s) => KeepKeyChars(LowerAscii(s))
    case Int(i) => KeepKeyChars(if i < 0 then "-" + NatToString(-i) else NatToString(i))
    case Bool(b) => if b then "1" else ""
    case _ => ""
  }

  /** Stripping distributes over concatenation. */
  lemma {:induction false} KeepKeyCharsAppend(a: string, b: string)
    ensures KeepKeyChars(a + b) == KeepKeyChars(a) + KeepKeyChars(b)
  {
    if a == [] {
      assert a + b == b;
    } else {
      var head := if IsKeyChar(a[0]) then [a[0]] else [];
      assert (a + b)[0] == a[0] && (a + b)[1..] == a[1..] + b;
      KeepKeyCharsAppend(a[1..], b);
      assert KeepKeyChars(a + b) == head + (KeepKeyChars(a[1..]) + KeepKeyChars(b));
      assert head + (KeepKeyChars(a[1..]) + KeepKeyChars(b)) == (head + KeepKeyChars(a[1..])) + KeepKeyChars(b);
    }
  }

  /** `sanitize_key` ignores case: an upper-cased key sanitises like the original. */
  lemma SanitizeKeyIgnoresCase(s: string)
    ensures StandardSanitizeKey(Str(UpperAscii(s))) == StandardSanitizeKey(Str(s))
  {
    LowerAsciiOfUpper(s);
  }

  /** Stripping removes a non-key character wherever it stands. */
  lemma KeepKeyCharsDrop(x: string, d: char, y: string)
    requires !IsKeyChar(d)
    ensures KeepKeyChars(x + [d] + y) == KeepKeyChars(x + y)
  {
    var dy := [d] + y;
    assert x + [d] + y == x + dy;
    assert KeepKeyChars(dy) == KeepKeyChars(y) by {
      assert dy[0] == d && dy[1..] == y;
    }
    KeepKeyCharsAppend(x, dy);
    KeepKeyCharsAppend(x, y);
  }

  /** `sanitize_key` drops a character that is not a key character once lower-cased, wherever it stands. */
  lemma SanitizeKeyDropsMarkup(a: string, c: char, b: string)
    requires !IsKeyChar(ToLowerChar(c))
    ensures StandardSanitizeKey(Str(a + [c] + b)) == StandardSanitizeKey(Str(a + b))
  {
    var x, y := LowerAscii(a), LowerAscii(b);
    assert LowerAscii(a + [c] + b) == x + [ToLowerChar(c)] + y;
    LowerAsciiAppend(a, b);
    KeepKeyCharsDrop(x, ToLowerChar(c), y);
  }

  /** Every tab name is already a sanitised key. */
  lemma TabNameIsKey(t: Tab)
    ensures StandardSanitizeKey(Str(TabName(t))) == TabName(t)
  {
    var name := TabName(t);
    assert forall i :: 0 <= i < |name| ==> IsAsciiLower(name[i]);
  }

  /* ---------------------------------------------------------------------- */
  /* Field validators                                                         */
  /* ---------------------------------------------------------------------- */

  /** `isset( $input[name] ) && is_array( $input[name] ) ? $input[name] : []`. */
  function SectionInput(input: Value, name: string): (r: Value)
    ensures r.Arr?
  {
    Arr(AsArray(Get(input, name)))
  }

  /** One `! empty( $section[key] )` entry per listed key. */
  function Flags(section: Value, keys: seq<string>): map<Key, Value> {
    if keys == [] then map[]
    else Flags(section, keys[..|keys| - 1])[StrKey(keys[|keys| - 1]) := Bool(Flag(section, keys[|keys| - 1]))]
  }

  /** The flags hold exactly the listed keys. */
  lemma {:induction false} FlagsKeys(section: Value, keys: seq<string>, k: Key)
    ensures k in Flags(section, keys) <==> k.StrKey? && k.s in keys
  {
    if keys != [] {
      assert keys == keys[..|keys| - 1] + [keys[|keys| - 1]];
      FlagsKeys(section, keys[..|keys| - 1], k);
    }
  }

  /** Each listed key holds `! empty` of its submitted value. */
  lemma {:induction false} FlagsEntry(section: Value, keys: seq<string>, n: string)
    requires n in keys
    ensures StrKey(n) in Flags(section, keys) && Flags(section, keys)[StrKey(n)] == Bool(Flag(section, n))
  {
    var last := keys[|keys| - 1];
    if n != last {
      assert keys == keys[..|keys| - 1] + [last];
      FlagsEntry(section, keys[..|keys| - 1], n);
    }
  }

  /** The flags read only the listed keys of the submission. */
  lemma {:induction false} FlagsReadOnlyKeys(s1: Value, s2: Value, keys: seq<string>)
    requires forall n :: n in keys ==> Get(s1, n) == Get(s2, n)
    ensures Flags(s1, keys) == Flags(s2, keys)
  {
    if keys != [] {
      assert keys[|keys| - 1] in keys;
      FlagsReadOnlyKeys(s1, s2, keys[..|keys| - 1]);
    }
  }

  /**
   * `isset( $s[key] ) && in_array( $s[key], allowed, true ) ? $s[key] : fallback`:
   * always one of the allowed strings, and the submitted one whenever it is.
   */
  function Choice(section: Value, key: string, allowed: seq<string>, fallback: string): (r: Value)
    requires fallback in allowed
    ensures r.Str? && r.s in allowed
    ensures Get(section, key).Str? && Get(section, key).s in allowed ==> r == Get(section, key)
    ensures r != Get(section, key) ==> r == Str(fallback)
  {
    var v := Get(section, key);
    if v.Str? && v.s in allowed then v else Str(fallback)
  }

  /** The roles a hidden menu item can be hidden from. */
  function Roles(): seq<string> {
    ["all", "non_admin", "non_editor"]
  }

  /** The allowed `core_updates` policies. */
  function CorePolicies(): seq<string> {
    ["default", "disable_all", "security_only", "minor_only", "all_updates"]
  }

  /** The allowed `clean_filenames_types` values. */
  function CleanTypes(): seq<string> {
    ["all", "images"]
  }

  /* ---------------------------------------------------------------------- */
  /* The menus section                                                        */
  /* ---------------------------------------------------------------------- */

  /** The eight menu items the menus tab controls. */
  function MenuKeys(): seq<string> {
    ["posts", "media", "pages", "appearance", "plugins", "users", "tools", "settings"]
  }

  function FlagName(key: string): string {
    "remove_" + key
  }

  function RoleName(key: string): string {
    "remove_" + key + "_for"
  }

  /** `$role_value` validated against the three roles, `non_admin` when missing or not one of them. */
  function RoleField(menus: Value, key: string): Value {
    Choice(menus, RoleName(key), Roles(), "non_admin")
  }

  /** The menus section after the loop has handled `keys`: a flag and a role per item. */
  function MenuFields(menus: Value, keys: seq<string>): map<Key, Value> {
    if keys == [] then map[]
    else
      var key := keys[|keys| - 1];
      MenuFields(menus, keys[..|keys| - 1])
        [StrKey(FlagName(key)) := Bool(Flag(menus, FlagName(key)))]
        [StrKey(RoleName(key)) := RoleField(menus, key)]
  }

  /** The names of the fields the menus loop writes for `keys`. */
  function MenuFieldNames(keys: seq<string>): seq<string> {
    if keys == [] then [] else MenuFieldNames(keys[..|keys| - 1]) + [FlagName(keys[|keys| - 1]), RoleName(keys[|keys| - 1])]
  }

  /** The menus section holds exactly a flag and a role field per item. */
  lemma {:induction false} MenuFieldsKeys(menus: Value, keys: seq<string>, k: Key)
    ensures k in MenuFields(menus, keys) <==> k.StrKey? && k.s in MenuFieldNames(keys)
  {
    if keys != [] {
      MenuFieldsKeys(menus, keys[..|keys| - 1], k);
    }
  }

  /** No item's flag name is another item's role name. */
  predicate NoNameClash(keys: seq<string>) {
    forall a, b :: a in keys && b in keys ==> FlagName(a) != RoleName(b)
  }

  lemma MenuKeysNoNameClash()
    ensures NoNameClash(MenuKeys())
  {
    forall a, b | a in MenuKeys() && b in MenuKeys()
      ensures FlagName(a) != RoleName(b)
    {
      assert |FlagName(a)| == |a| + 7 && |RoleName(b)| == |b| + 11;
    }
  }

  /** Every menu item gets its flag and its validated role. */
  lemma {:induction false} MenuFieldsEntries(menus: Value, keys: seq<string>, key: string)
    requires NoNameClash(keys) && key in keys
    ensures StrKey(FlagName(key)) in MenuFields(menus, keys)
    ensures MenuFields(menus, keys)[StrKey(FlagName(key))] == Bool(Flag(menus, FlagName(key)))
    ensures StrKey(RoleName(key)) in MenuFields(menus, keys)
    ensures MenuFields(menus, keys)[StrKey(RoleName(key))] == RoleField(menus, key)
  {
    var last := keys[|keys| - 1];
    var init := keys[..|keys| - 1];
    assert keys == init + [last];
    assert FlagName(last) != RoleName(last);
    if key != last {
      assert key in init;
      assert NoNameClash(init);
      MenuFieldsEntries(menus, init, key);
      assert FlagName(key) != RoleName(last);
      assert FlagName(last) != RoleName(key);
    }
  }

  /** The menus section reads only the flag and role fields of the submission. */
  lemma {:induction false} MenuFieldsReadOnlyFields(s1: Value, s2: Value, keys: seq<string>)
    requires forall n :: n in MenuFieldNames(keys) ==> Get(s1, n) == Get(s2, n)
    ensures MenuFields(s1, keys) == MenuFields(s2, keys)
  {
    if keys != [] {
      var last := keys[|keys| - 1];
      assert FlagName(last) in MenuFieldNames(keys) && RoleName(last) in MenuFieldNames(keys);
      MenuFieldsReadOnlyFields(s1, s2, keys[..|keys| - 1]);
    }
  }

  /** The menus branch's `foreach` over the eight menu items. */
  method SanitizeMenus(menus: Value) returns (fields: map<Key, Value>)
    ensures fields == MenuFields(menus, MenuKeys())
  {
    var validRoles := Roles();
    var menuKeys := MenuKeys();
    fields := map[];
    var i := 0;
    while i < |menuKeys|
      invariant 0 <= i <= |menuKeys|
      invariant fields == MenuFields(menus, menuKeys[..i])
    {
      var key := menuKeys[i];
      fields := fields[StrKey(FlagName(key)) := Bool(!Empty(Get(menus, FlagName(key))))];
      var roleValue := if Isset(menus, RoleName(key)) then Get(menus, RoleName(key)) else Str("non_admin");
      var role := if roleValue.Str? && roleValue.s in validRoles then roleValue else Str("non_admin");
      assert role == RoleField(menus, key) by {
        assert "non_admin" == validRoles[1];
      }
      fields := fields[StrKey(RoleName(key)) := role];
      assert menuKeys[..i + 1][..i] == menuKeys[..i] && menuKeys[..i + 1][i] == key;
      i := i + 1;
    }
    assert menuKeys[..i] == menuKeys;
  }

  /* ---------------------------------------------------------------------- */
  /* Sections                                                                 */
  /* ---------------------------------------------------------------------- */

  /** The boolean fields of each tab other than menus. */
  function BoolFields(t: Tab): seq<string> {
    match t
    case AdminBarTab => ["remove_wp_logo", "remove_site_menu", "remove_new_content", "remove_search", "remove_howdy_frontend"]
    case CommentsTab => ["disable_comments"]
    case DashboardTab => ["remove_welcome_panel", "remove_at_a_glance", "remove_activity", "remove_quick_draft",
                          "remove_wp_events", "remove_site_health", "disable_site_health"]
    case MenusTab => []
    case FooterTab => ["remove_footer_text", "remove_version"]
    case NoticesTab => ["hide_update_notices", "hide_all_notices", "hide_screen_options", "hide_help_tab"]
    case MediaTab => ["clean_filenames"]
    case PluginsTab => ["hide_pixelyoursite_notices"]
    case UpdatesTab => ["disable_plugin_updates", "disable_theme_updates", "disable_update_emails", "hide_update_nags"]
  }

  /** The names of each tab's fields that are not plain booleans. */
  function OtherFieldNames(t: Tab): seq<string> {
    match t
    case FooterTab => ["custom_footer_text", "custom_version_text"]
    case MediaTab => ["clean_filenames_types"]
    case UpdatesTab => ["core_updates"]
    case _ => []
  }

  /** The fields of each tab that are not plain booleans. */
  function OtherFields(t: Tab, section: Value, kses: Value -> string, sanitizeText: Value -> string): map<Key, Value> {
    match t
    case FooterTab =>
      map[StrKey("custom_footer_text") :=
            Str(if Isset(section, "custom_footer_text") then kses(Get(section, "custom_footer_text")) else ""),
          StrKey("custom_version_text") :=
            Str(if Isset(section, "custom_version_text") then sanitizeText(Get(section, "custom_version_text")) else "")]
    case MediaTab => map[StrKey("clean_filenames_types") := Choice(section, "clean_filenames_types", CleanTypes(), "all")]
    case UpdatesTab => map[StrKey("core_updates") := Choice(section, "core_updates", CorePolicies(), "default")]
    case _ => map[]
  }

  /** The names of the fields a tab writes, which are also the only ones it reads. */
  function Fields(t: Tab): seq<string> {
    if t == MenusTab then MenuFieldNames(MenuKeys()) else BoolFields(t) + OtherFieldNames(t)
  }

  /** The section `sanitize_options` writes for a tab, built from that tab's part of the form. */
  function SanitizedSection(t: Tab, section: Value, kses: Value -> string, sanitizeText: Value -> string): map<Key, Value> {
    match t
    case MenusTab => MenuFields(section, MenuKeys())
    case FooterTab | MediaTab | UpdatesTab => Flags(section, BoolFields(t)) + OtherFields(t, section, kses, sanitizeText)
    case _ => Flags(section, BoolFields(t))
  }

  /** `$current_tab`: the sanitised `_current_tab` field, `''` when it is missing. */
  function CurrentTab(input: Value, sanitizeKey: Value -> string): string {
    if Isset(input, "_current_tab") then sanitizeKey(Get(input, "_current_tab")) else ""
  }

  /**
   * The record `sanitize_options` returns: the stored record (`[]` when it is
   * not an array) with the current tab's section replaced, if the tab key
   * names one of the nine tabs.
   */
  function SanitizeRecord(existing: Value, input: Value, sanitizeKey: Value -> string,
                          kses: Value -> string, sanitizeText: Value -> string): map<Key, Value>
  {
    var base := AsArray(existing);
    match ParseTab(CurrentTab(input, sanitizeKey))
    case None => base
    case Some(t) => base[StrKey(TabName(t)) := Arr(SanitizedSection(t, SectionInput(input, TabName(t)), kses, sanitizeText))]
  }

  /* ---------------------------------------------------------------------- */
  /* sanitize_options                                                         */
  /* ---------------------------------------------------------------------- */

  /**
   * `sanitize_options( $input )`, with `existing` the stored record as
   * `get_option` returns it: copies the record and overwrites the one
   * section the submitted tab names. The source's nine `'name' === $current_tab`
   * tests select at most one tab; here they are the `match` on `ParseTab`.
   * The tabs other than menus build their section as one array literal,
   * which is `SanitizedSection`; the menus tab runs the loop of `SanitizeMenus`.
   */
  method SanitizeOptions(existing: Value, input: Value, sanitizeKey: Value -> string,
                         kses: Value -> string, sanitizeText: Value -> string)
    returns (sanitized: map<Key, Value>)
    ensures sanitized == SanitizeRecord(existing, input, sanitizeKey, kses, sanitizeText)
  {
    sanitized := if existing.Arr? then existing.m else map[];
    var currentTab := if Isset(input, "_current_tab") then sanitizeKey(Get(input, "_current_tab")) else "";

    match ParseTab(currentTab) {
      case None =>
        SanitizeWithoutTab(existing, input, sanitizeKey, kses, sanitizeText);
      case Some(t) =>
        SanitizeWritesTab(existing, input, sanitizeKey, kses, sanitizeText, t);
        var section := SectionInput(input, TabName(t));
        var fields;
        if t == MenusTab {
          fields := SanitizeMenus(section);
        } else {
          fields := SanitizedSection(t, section, kses, sanitizeText);
        }
        sanitized := sanitized[StrKey(TabName(t)) := Arr(fields)];
    }
  }

  /* ---------------------------------------------------------------------- */
  /* Properties of the sanitised record                                       */
  /* ---------------------------------------------------------------------- */

  /**
   * Without a `_current_tab`, or with one that does not sanitise to a tab
   * name, the stored record comes back unchanged.
   */
  lemma SanitizeWithoutTab(existing: Value, input: Value, sanitizeKey: Value -> string,
                           kses: Value -> string, sanitizeText: Value -> string)
    requires !Isset(input, "_current_tab") || !IsTab(CurrentTab(input, sanitizeKey))
    ensures SanitizeRecord(existing, input, sanitizeKey, kses, sanitizeText) == AsArray(existing)
  {
  }

  /** Every section other than the current tab's is kept exactly as stored. */
  lemma SanitizeKeepsOtherSections(existing: Value, input: Value, sanitizeKey: Value -> string,
                                   kses: Value -> string, sanitizeText: Value -> string, k: Key)
    requires k != StrKey(CurrentTab(input, sanitizeKey))
    ensures var r := SanitizeRecord(existing, input, sanitizeKey, kses, sanitizeText);
      (k in r <==> k in AsArray(existing)) && (k in r ==> r[k] == AsArray(existing)[k])
  {
  }

  /** A recognised tab's section is replaced wholesale by one built from the submitted form alone. */
  lemma SanitizeWritesTab(existing: Value, input: Value, sanitizeKey: Value -> string,
                          kses: Value -> string, sanitizeText: Value -> string, t: Tab)
    requires CurrentTab(input, sanitizeKey) == TabName(t)
    ensures SanitizeRecord(existing, input, sanitizeKey, kses, sanitizeText)
      == AsArray(existing)[StrKey(TabName(t)) := Arr(SanitizedSection(t, SectionInput(input, TabName(t)), kses, sanitizeText))]
  {
    assert ParseTab(TabName(t)) == Some(t);
  }

  /** A tab's section holds exactly its fixed list of fields, whatever was stored or submitted. */
  lemma SanitizedSectionKeys(t: Tab, section: Value, kses: Value -> string, sanitizeText: Value -> string, k: Key)
    ensures k in SanitizedSection(t, section, kses, sanitizeText) <==> k.StrKey? && k.s in Fields(t)
  {
    if t == MenusTab {
      MenuFieldsKeys(section, MenuKeys(), k);
    } else {
      FlagsKeys(section, BoolFields(t), k);
      OtherFieldsKeys(t, section, kses, sanitizeText, k);
    }
  }

  lemma OtherFieldsKeys(t: Tab, section: Value, kses: Value -> string, sanitizeText: Value -> string, k: Key)
    ensures k in OtherFields(t, section, kses, sanitizeText) <==> k.StrKey? && k.s in OtherFieldNames(t)
  {
  }

  /**
   * Submitted fields outside the tab's list are ignored: two submissions that
   * agree on the listed fields produce the same section.
   */
  lemma SanitizedSectionReadsOnlyFields(t: Tab, s1: Value, s2: Value, kses: Value -> string, sanitizeText: Value -> string)
    requires forall n :: n in Fields(t) ==> Get(s1, n) == Get(s2, n)
    ensures SanitizedSection(t, s1, kses, sanitizeText) == SanitizedSection(t, s2, kses, sanitizeText)
  {
    if t == MenusTab {
      MenuFieldsReadOnlyFields(s1, s2, MenuKeys());
    } else {
      FlagsReadOnlyKeys(s1, s2, BoolFields(t));
      OtherFieldsReadOnlyFields(t, s1, s2, kses, sanitizeText);
    }
  }

  lemma OtherFieldsReadOnlyFields(t: Tab, s1: Value, s2: Value, kses: Value -> string, sanitizeText: Value -> string)
    requires forall n :: n in OtherFieldNames(t) ==> Get(s1, n) == Get(s2, n)
    ensures OtherFields(t, s1, kses, sanitizeText) == OtherFields(t, s2, kses, sanitizeText)
  {
    var names := OtherFieldNames(t);
    if t == FooterTab {
      assert names[0] == "custom_footer_text" && names[1] == "custom_version_text";
    } else if t == MediaTab || t == UpdatesTab {
      assert names[0] in names;
    }
  }

  /** A section submitted as something other than an array is read as an empty one. */
  lemma NonArraySectionReadsAsEmpty(input: Value, name: string)
    requires !Get(input, name).Arr?
    ensures forall n :: Get(SectionInput(input, name), n) == Null
  {
  }

  /** Every boolean field is `! empty` of its submitted value: missing, '', '0', 0, false and null give false. */
  lemma SanitizedBoolField(t: Tab, section: Value, kses: Value -> string, sanitizeText: Value -> string, n: string)
    requires n in BoolFields(t)
    ensures var m := SanitizedSection(t, section, kses, sanitizeText);
      StrKey(n) in m && m[StrKey(n)] == Bool(!Empty(Get(section, n)))
  {
    FlagsEntry(section, BoolFields(t), n);
    assert StrKey(n) !in OtherFields(t, section, kses, sanitizeText);
  }

  /** Each menu item's `remove_X` and `remove_X_for`, the latter always one of the three roles. */
  lemma SanitizedMenuField(section: Value, kses: Value -> string, sanitizeText: Value -> string, key: string)
    requires key in MenuKeys()
    ensures var m := SanitizedSection(MenusTab, section, kses, sanitizeText);
      var submitted := Get(section, RoleName(key));
      StrKey(FlagName(key)) in m && m[StrKey(FlagName(key))] == Bool(!Empty(Get(section, FlagName(key))))
      && StrKey(RoleName(key)) in m && m[StrKey(RoleName(key))].Str? && m[StrKey(RoleName(key))].s in Roles()
      && (submitted.Str? && submitted.s in Roles() ==> m[StrKey(RoleName(key))] == submitted)
      && (!(submitted.Str? && submitted.s in Roles()) ==> m[StrKey(RoleName(key))] == Str("non_admin"))
  {
    MenuKeysNoNameClash();
    MenuFieldsEntries(section, MenuKeys(), key);
  }

  /** `core_updates` is one of the five policies, `default` unless a valid one was submitted. */
  lemma SanitizedCoreUpdates(section: Value, kses: Value -> string, sanitizeText: Value -> string)
    ensures var m := SanitizedSection(UpdatesTab, section, kses, sanitizeText);
      var submitted := Get(section, "core_updates");
      StrKey("core_updates") in m && m[StrKey("core_updates")].Str? && m[StrKey("core_updates")].s in CorePolicies()
      && (submitted.Str? && submitted.s in CorePolicies() ==> m[StrKey("core_updates")] == submitted)
      && (!(submitted.Str? && submitted.s in CorePolicies()) ==> m[StrKey("core_updates")] == Str("default"))
  {
  }

  /** `clean_filenames_types` is `all` or `images`, `all` unless a valid one was submitted. */
  lemma SanitizedCleanTypes(section: Value, kses: Value -> string, sanitizeText: Value -> string)
    ensures var m := SanitizedSection(MediaTab, section, kses, sanitizeText);
      var submitted := Get(section, "clean_filenames_types");
      StrKey("clean_filenames_types") in m
      && (m[StrKey("clean_filenames_types")] == Str("all") || m[StrKey("clean_filenames_types")] == Str("images"))
      && (submitted == Str("all") || submitted == Str("images") ==> m[StrKey("clean_filenames_types")] == submitted)
      && (submitted != Str("all") && submitted != Str("images") ==> m[StrKey("clean_filenames_types")] == Str("all"))
  {
  }

  /**
   * With WordPress's `sanitize_key`, a tab key submitted in upper case
   * (`ADMINBAR`) still selects its tab.
   */
  lemma UpperCaseTabSelectsTab(existing: Value, input: Value, kses: Value -> string, sanitizeText: Value -> string, t: Tab)
    requires Get(input, "_current_tab") == Str(UpperAscii(TabName(t)))
    ensures var r := SanitizeRecord(existing, input, StandardSanitizeKey, kses, sanitizeText);
      StrKey(TabName(t)) in r && r[StrKey(TabName(t))] == Arr(SanitizedSection(t, SectionInput(input, TabName(t)), kses, sanitizeText))
  {
    SanitizeKeyIgnoresCase(TabName(t));
    TabNameIsKey(t);
    SanitizeWritesTab(existing, input, StandardSanitizeKey, kses, sanitizeText, t);
  }

  /**
   * With WordPress's `sanitize_key`, a tab key made only of characters
   * outside `[A-Za-z0-9_-]` (markup, punctuation) sanitises to `''` and
   * the stored record comes back unchanged.
   */
  lemma MarkupTabWritesNothing(existing: Value, input: Value, kses: Value -> string, sanitizeText: Value -> string, s: string)
    requires Get(input, "_current_tab") == Str(s)
    requires forall i :: 0 <= i < |s| ==> !IsKeyChar(ToLowerChar(s[i]))
    ensures SanitizeRecord(existing, input, StandardSanitizeKey, kses, sanitizeText) == AsArray(existing)
  {
    assert KeepKeyChars(LowerAscii(s)) == [] by {
      KeyCharsOfNone(LowerAscii(s));
    }
    SanitizeWithoutTab(existing, input, StandardSanitizeKey, kses, sanitizeText);
  }

  /**
   * The markup tab key `<script>alert(1)</script>` sanitises to
   * `scriptalert1script`, which names no tab, so nothing is written.
   */
  lemma ScriptTabWritesNothing(existing: Value, input: Value, kses: Value -> string, sanitizeText: Value -> string)
    requires Get(input, "_current_tab") == Str("<script>alert(1)</script>")
    ensures CurrentTab(input, StandardSanitizeKey) == "script" + ("alert" + ("1" + "script"))
    ensures SanitizeRecord(existing, input, StandardSanitizeKey, kses, sanitizeText) == AsArray(existing)
  {
    ScriptKey();
    TabNamesShort();
    SanitizeWithoutTab(existing, input, StandardSanitizeKey, kses, sanitizeText);
  }

  /** The character runs of `<script>alert(1)</script>`: markup is dropped, the words are kept. */
  lemma ScriptKey()
    ensures StandardSanitizeKey(Str("<script>alert(1)</script>")) == "script" + ("alert" + ("1" + "script"))
  {
    ScriptRuns();
    KeyRun("script");
    KeyRun("alert");
    KeyRun("1");
    MarkupRun("<");
    MarkupRun(">");
    MarkupRun("(");
    MarkupRun(")</");
    AlternatingRuns("<", "script", ">", "alert", "(", "1", ")</", "script", ">");
  }

  /** `<script>alert(1)</script>` has no upper-case letter and splits into its runs. */
  lemma ScriptRuns()
    ensures LowerAscii("<script>alert(1)</script>") == "<script>alert(1)</script>"
    ensures "<script>alert(1)</script>" == "<" + ("script" + (">" + ("alert" + ("(" + ("1" + (")</" + ("script" + ">")))))))
  {
  }

  /** Four runs of key characters, each after a run of other characters and the last before one, strip to the four runs. */
  lemma AlternatingRuns(a: string, b: string, c: string, d: string, e: string, f: string, g: string, h: string, i: string)
    requires forall j :: 0 <= j < |a| ==> !IsKeyChar(a[j])
    requires forall j :: 0 <= j < |c| ==> !IsKeyChar(c[j])
    requires forall j :: 0 <= j < |e| ==> !IsKeyChar(e[j])
    requires forall j :: 0 <= j < |g| ==> !IsKeyChar(g[j])
    requires forall j :: 0 <= j < |i| ==> !IsKeyChar(i[j])
    requires forall j :: 0 <= j < |b| ==> IsKeyChar(b[j])
    requires forall j :: 0 <= j < |d| ==> IsKeyChar(d[j])
    requires forall j :: 0 <= j < |f| ==> IsKeyChar(f[j])
    requires forall j :: 0 <= j < |h| ==> IsKeyChar(h[j])
    ensures KeepKeyChars(a + (b + (c + (d + (e + (f + (g + (h + i)))))))) == b + (d + (f + h))
  {
    StripPair(a, b, c + (d + (e + (f + (g + (h + i))))));
    StripPair(c, d, e + (f + (g + (h + i))));
    StripPair(e, f, g + (h + i));
    StripPair(g, h, i);
    KeyCharsOfNone(i);
    assert h + [] == h;
  }

  /** A run of non-key characters is dropped and the run of key characters after it kept. */
  lemma StripPair(x: string, y: string, rest: string)
    requires forall j :: 0 <= j < |x| ==> !IsKeyChar(x[j])
    requires forall j :: 0 <= j < |y| ==> IsKeyChar(y[j])
    ensures KeepKeyChars(x + (y + rest)) == y + KeepKeyChars(rest)
  {
    KeyCharsOfNone(x);
    KeepKeyCharsAppend(x, y + rest);
    KeepKeyCharsAppend(y, rest);
  }

  /** The lower-case letters of a word are key characters. */
  lemma KeyRun(w: string)
    requires w == "script" || w == "alert" || w == "1"
    ensures forall j :: 0 <= j < |w| ==> IsKeyChar(w[j])
  {
  }

  /** The markup around them is not. */
  lemma MarkupRun(w: string)
    requires w == "<" || w == ">" || w == "(" || w == ")</"
    ensures forall j :: 0 <= j < |w| ==> !IsKeyChar(w[j])
  {
  }

  /** No tab name is longer than nine characters. */
  lemma TabNamesShort()
    ensures forall t :: |TabName(t)| <= 9
  {
  }

  lemma {:induction false} KeyCharsOfNone(s: string)
    requires forall i :: 0 <= i < |s| ==> !IsKeyChar(s[i])
    ensures KeepKeyChars(s) == []
  {
    if s != [] {
      KeyCharsOfNone(s[1..]);
    }
  }

  /* ---------------------------------------------------------------------- */
  /* Tabs                                                                     */
  /* ---------------------------------------------------------------------- */

  /** The plugin file whose activity makes the plugins tab appear. */
  const PixelYourSitePlugin: string := "pixelyoursite/facebook-pixel-master.php"

  /** `get_installed_supported_plugins`: the supported plugins that are active. */
  function InstalledSupportedPlugins(isPluginActive: string -> bool): set<string> {
    if isPluginActive(PixelYourSitePlugin) then {"pixelyoursite"} else {}
  }

  /** `get_tabs`, reduced to the tab ids (every tab is `active`). */
  function Tabs(isPluginActive: string -> bool): set<string> {
    {"adminbar", "comments", "dashboard", "menus", "footer", "notices", "media", "updates"}
      + (if InstalledSupportedPlugins(isPluginActive) != {} then {"plugins"} else {})
  }

  /** The tab `render_settings_page` shows for the `tab` query parameter (`Null` when absent). */
  function DisplayTab(tabParam: Value, tabs: set<string>, sanitizeKey: Value -> string): (r: string)
    ensures r in tabs || r == "adminbar"
  {
    var requested := if tabParam != Null then sanitizeKey(tabParam) else "adminbar";
    if requested in tabs then requested else "adminbar"
  }

  /** Every listed tab is one the sanitiser knows, and the plugins tab is listed exactly when a supported plugin is active. */
  lemma TabsAreSections(isPluginActive: string -> bool)
    ensures forall t :: t in Tabs(isPluginActive) ==> IsTab(t)
    ensures "adminbar" in Tabs(isPluginActive)
    ensures "plugins" in Tabs(isPluginActive) <==> isPluginActive(PixelYourSitePlugin)
  {
  }

  /**
   * The displayed tab is always one of the listed tabs: the requested one
   * when it is listed, `adminbar` otherwise.
   */
  lemma DisplayTabFallsBack(tabParam: Value, isPluginActive: string -> bool, sanitizeKey: Value -> string)
    ensures var tabs := Tabs(isPluginActive);
      var r := DisplayTab(tabParam, tabs, sanitizeKey);
      r in tabs
      && (tabParam != Null && sanitizeKey(tabParam) in tabs ==> r == sanitizeKey(tabParam))
      && (tabParam != Null && sanitizeKey(tabParam) !in tabs ==> r == "adminbar")
  {
    TabsAreSections(isPluginActive);
  }
}
