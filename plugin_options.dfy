/**
 * The plugin's stored options record: the recursive defaults merge that
 * `get_options` applies to whatever is stored, the defaults tree itself and
 * the record the activation hook writes.
 */
module PluginOptions {
  import opened Php

  /* ---------------------------------------------------------------------- */
  /* parse_args_recursive                                                     */
  /* ---------------------------------------------------------------------- */

  /**
   * The entry the merge leaves under `k`: the recursive merge when both the
   * argument and the default are arrays, otherwise the argument, and the
   * default when the argument lacks the key.
   */
  function MergedEntry(args: map<Key, Value>, defaults: map<Key, Value>, k: Key): Value
    requires k in args || k in defaults
    decreases Arr(args), 0
  {
    if k in args then
      if args[k].Arr? && k in defaults && defaults[k].Arr? then Arr(Merge(args[k].m, defaults[k].m))
      else args[k]
    else defaults[k]
  }

  /** `parse_args_recursive` on two arrays: `defaults` overlaid key by key with `args`. */
  function Merge(args: map<Key, Value>, defaults: map<Key, Value>): (r: map<Key, Value>)
    ensures r.Keys == args.Keys + defaults.Keys
    decreases Arr(args), 1
  {
    map k | k in args.Keys + defaults.Keys :: MergedEntry(args, defaults, k)
  }

  /**
   * `parse_args_recursive` as the source runs it: both operands go through
   * the `(array)` cast, `$result` starts as a copy of the defaults and the
   * `foreach` over the arguments overwrites one key at a time, recursing
   * where both sides are arrays.
   */
  method ParseArgsRecursive(args: Value, defaults: Value) returns (result: map<Key, Value>)
    ensures result == Merge(Cast(args), Cast(defaults))
    decreases args
  {
    var argsArray := Cast(args);
    var defaultsArray := Cast(defaults);
    result := defaultsArray;
    var todo := argsArray.Keys;
    while todo != {}
      invariant todo <= argsArray.Keys
      invariant result.Keys == defaultsArray.Keys + (argsArray.Keys - todo)
      invariant forall k :: k in result ==>
        result[k] == if k in argsArray && k !in todo then MergedEntry(argsArray, defaultsArray, k) else defaultsArray[k]
      decreases todo
    {
      var key :| key in todo;
      var value := argsArray[key];
      if value.Arr? && key in result && result[key] != Null && result[key].Arr? {
        var nested := ParseArgsRecursive(value, result[key]);
        result := result[key := Arr(nested)];
      } else {
        result := result[key := value];
      }
      todo := todo - {key};
    }
  }

  /** Casting an array operand leaves the merge as it is. */
  lemma MergeOverArray(args: Value, defaults: map<Key, Value>)
    ensures Merge(Cast(args), Cast(Arr(defaults))) == Merge(Cast(args), defaults)
  {
    assert Cast(Arr(defaults)) == defaults;
  }

  /** Every default key survives the merge, and a key the arguments lack keeps its default. */
  lemma MergeKeepsDefaults(args: map<Key, Value>, defaults: map<Key, Value>, k: Key)
    requires k in defaults
    ensures k in Merge(args, defaults)
    ensures k !in args ==> Merge(args, defaults)[k] == defaults[k]
  {
  }

  /**
   * The argument wins whenever the two sides are not both arrays, even when
   * it is null, false, 0 or the empty string, or when it replaces a nested
   * default; when both are arrays the result is their merge.
   */
  lemma MergeArgumentWins(args: map<Key, Value>, defaults: map<Key, Value>, k: Key)
    requires k in args
    ensures !(args[k].Arr? && k in defaults && defaults[k].Arr?) ==> Merge(args, defaults)[k] == args[k]
    ensures args[k].Arr? && k in defaults && defaults[k].Arr? ==>
      Merge(args, defaults)[k] == Arr(Merge(args[k].m, defaults[k].m))
  {
  }

  /** Merging nothing into the defaults gives the defaults. */
  lemma MergeEmptyArgs(defaults: map<Key, Value>)
    ensures Merge(map[], defaults) == defaults
  {
  }

  /** Merging into no defaults gives the arguments. */
  lemma MergeEmptyDefaults(args: map<Key, Value>)
    ensures Merge(args, map[]) == args
  {
  }

  /** A tree merged with itself is unchanged. */
  lemma {:induction false} MergeSelf(m: map<Key, Value>)
    ensures Merge(m, m) == m
    decreases Arr(m)
  {
    forall k | k in m
      ensures MergedEntry(m, m, k) == m[k]
    {
      if m[k].Arr? {
        MergeSelf(m[k].m);
      }
    }
  }

  /** Merging the same defaults into an already merged record changes nothing. */
  lemma {:induction false} MergeIdempotent(args: map<Key, Value>, defaults: map<Key, Value>)
    ensures Merge(Merge(args, defaults), defaults) == Merge(args, defaults)
    decreases Arr(args)
  {
    var r := Merge(args, defaults);
    forall k | k in r
      ensures MergedEntry(r, defaults, k) == r[k]
    {
      assert r[k] == MergedEntry(args, defaults, k);
      if r[k].Arr? && k in defaults && defaults[k].Arr? {
        if k in args && args[k].Arr? {
          assert r[k].m == Merge(args[k].m, defaults[k].m);
          MergeIdempotent(args[k].m, defaults[k].m);
        } else if k !in args {
          assert r[k] == defaults[k];
          MergeSelf(defaults[k].m);
        }
      }
    }
  }

  /* ---------------------------------------------------------------------- */
  /* The defaults tree                                                        */
  /* ---------------------------------------------------------------------- */

  /** The nine sections of the record, in the order the defaults list them. */
  function SectionNames(): seq<string> {
    ["adminbar", "comments", "dashboard", "menus", "footer", "notices", "media", "plugins", "updates"]
  }

  function Off(name: string): (Key, Value) { (StrKey(name), Bool(false)) }

  function Text(name: string, value: string): (Key, Value) { (StrKey(name), Str(value)) }

  /** A map from a list of entries, later entries winning as in a PHP array literal. */
  function Entries(es: seq<(Key, Value)>): map<Key, Value>
  {
    if es == [] then map[] else Entries(es[..|es| - 1])[es[|es| - 1].0 := es[|es| - 1].1]
  }

  /** The default keys of one section; `[]` for a name that is not a section. */
  function SectionDefaults(name: string): map<Key, Value> {
    match name
    case "adminbar" => Entries([Off("remove_wp_logo"), Off("remove_site_menu"), Off("remove_new_content"),
                                Off("remove_search"), Off("remove_howdy_frontend")])
    case "comments" => Entries([Off("disable_comments")])
    case "dashboard" => Entries([Off("remove_welcome_panel"), Off("remove_at_a_glance"), Off("remove_activity"),
                                 Off("remove_quick_draft"), Off("remove_wp_events"), Off("remove_site_health"),
                                 Off("disable_site_health")])
    case "menus" => Entries([Off("remove_posts"), Text("remove_posts_for", "non_admin"),
                             Off("remove_media"), Text("remove_media_for", "non_admin"),
                             Off("remove_pages"), Text("remove_pages_for", "non_admin"),
                             Off("remove_appearance"), Text("remove_appearance_for", "non_admin"),
                             Off("remove_plugins"), Text("remove_plugins_for", "non_admin"),
                             Off("remove_users"), Text("remove_users_for", "non_admin"),
                             Off("remove_tools"), Text("remove_tools_for", "non_admin"),
                             Off("remove_settings"), Text("remove_settings_for", "non_admin")])
    case "footer" => Entries([Off("remove_footer_text"), Text("custom_footer_text", ""),
                              Off("remove_version"), Text("custom_version_text", "")])
    case "notices" => Entries([Off("hide_update_notices"), Off("hide_all_notices"), Off("hide_screen_options"),
                               Off("hide_help_tab")])
    case "media" => Entries([Off("clean_filenames"), Text("clean_filenames_types", "all")])
    case "plugins" => Entries([Off("hide_pixelyoursite_notices"), Off("hide_elementor_notices"),
                               Off("hide_yoast_notices"), Off("hide_complianz_comments")])
    case "updates" => Entries([Text("core_updates", "default"), Off("disable_plugin_updates"),
                               Off("disable_theme_updates"), Off("disable_update_emails"), Off("hide_update_nags")])
    case _ => map[]
  }

  /** The record of sections named in `names`, each holding its defaults. */
  function Tree(names: seq<string>): map<Key, Value> {
    if names == [] then map[]
    else Tree(names[1..])[StrKey(names[0]) := Arr(SectionDefaults(names[0]))]
  }

  /** Each listed name holds its own section's defaults in the tree. */
  lemma {:induction false} TreeHolds(names: seq<string>, i: nat)
    requires i < |names|
    ensures StrKey(names[i]) in Tree(names) && Tree(names)[StrKey(names[i])] == Arr(SectionDefaults(names[i]))
  {
    if i > 0 && names[i] != names[0] {
      TreeHolds(names[1..], i - 1);
    }
  }

  /** The `$defaults` tree of `get_options`. */
  function Defaults(): map<Key, Value> {
    Tree(SectionNames())
  }

  /**
   * `get_options`: the stored record (or `[]` when there is none) merged
   * over the defaults; the `(array)` cast leaves the defaults array as it is.
   */
  function GetOptions(stored: Option<Value>): (r: map<Key, Value>)
    ensures Defaults().Keys <= r.Keys
  {
    Merge(Cast(stored.GetOr(Arr(map[]))), Defaults())
  }

  /**
   * Whatever is stored, every section is present; a section that is stored
   * as an array or not stored at all holds every one of its default keys.
   */
  lemma GetOptionsHasSections(stored: Option<Value>, name: string)
    requires name in SectionNames()
    ensures StrKey(name) in GetOptions(stored)
    ensures var s := Cast(stored.GetOr(Arr(map[])));
      StrKey(name) !in s || s[StrKey(name)].Arr? ==>
        GetOptions(stored)[StrKey(name)].Arr? && SectionDefaults(name).Keys <= GetOptions(stored)[StrKey(name)].m.Keys
  {
    DefaultsHoldSection(name);
    var s := Cast(stored.GetOr(Arr(map[])));
    if StrKey(name) !in s || s[StrKey(name)].Arr? {
      MergeKeepsNestedKeys(s, Defaults(), StrKey(name));
    }
  }

  /** The defaults tree holds each section's defaults under the section's name. */
  lemma DefaultsHoldSection(name: string)
    requires name in SectionNames()
    ensures StrKey(name) in Defaults() && Defaults()[StrKey(name)] == Arr(SectionDefaults(name))
  {
    var i :| 0 <= i < |SectionNames()| && SectionNames()[i] == name;
    TreeHolds(SectionNames(), i);
  }

  /**
   * A nested default array keeps all of its keys through the merge unless
   * the argument replaces it with something that is not an array.
   */
  lemma MergeKeepsNestedKeys(args: map<Key, Value>, defaults: map<Key, Value>, k: Key)
    requires k in defaults && defaults[k].Arr?
    requires k !in args || args[k].Arr?
    ensures Merge(args, defaults)[k].Arr? && defaults[k].m.Keys <= Merge(args, defaults)[k].m.Keys
  {
  }

  /* ---------------------------------------------------------------------- */
  /* Activation                                                               */
  /* ---------------------------------------------------------------------- */

  /** The `wp_clean_up_options` row of the host's options table. */
  class OptionStore {
    var stored: Option<Value>

    constructor (stored: Option<Value>)
      ensures this.stored == stored
    {
      this.stored := stored;
    }

    /**
     * `get_options`: reads the row (`[]` when it does not exist) and merges
     * it over the defaults tree.
     */
    method Load() returns (r: map<Key, Value>)
      ensures r == GetOptions(stored)
    {
      var saved := if stored.Some? then stored.value else Arr(map[]);
      r := ParseArgsRecursive(saved, Arr(Defaults()));
      MergeOverArray(saved, Defaults());
    }

    /**
     * `wp_clean_up_activate`: writes the default record only when the option
     * does not exist yet; `add_option` never overwrites an existing row. The
     * record it writes is, literal for literal, the `get_options` defaults tree.
     */
    method Activate()
      modifies this
      ensures stored == if old(stored).None? then Some(Arr(Defaults())) else old(stored)
    {
      if stored.None? {
        stored := Some(Arr(Defaults()));
      }
    }
  }

  /** Right after a first activation, `get_options` returns exactly the defaults tree. */
  lemma ActivatedOptionsAreDefaults()
    ensures GetOptions(Some(Arr(Defaults()))) == Defaults()
  {
    MergeSelf(Defaults());
  }
}
