# Admin Clean Up, modelled in Dafny

Admin Clean Up is a WordPress plugin. It trims the admin screens, the admin
bar, comments, Site Health, update behaviour, upload filenames and the
notices of a few third-party plugins. Everything it does is steered by one
stored option, `wp_clean_up_options`, a nested PHP array with one section per
settings tab.

This project models the deterministic core of the plugin:

- the options record and the recursive defaults merge that keeps old
  records forward-compatible (`PluginOptions`);
- the settings sanitiser, which rewrites exactly one section of the record
  per form submission, and the choice of the displayed tab (`AdminPage`);
- the decision tables of the components:
  - menu hiding by role (`AdminMenus`);
  - the core auto-update policy and the update flags (`Updates`);
  - footer text precedence (`Footer`);
  - dashboard widget removal (`Dashboard`);
  - admin-bar node removal (`AdminBar`);
- the array filters that remove keys (`Comments`, `SiteHealth`,
  `PluginNotices`);
- the upload filename cleaner and the attachment title it restores
  (`CleanFilenames`).

Shared modules:

- `Php` models PHP values (`Null`, `Bool`, `Int`, `Str`, `Arr` over a
  map), the `empty` / `isset` reads, the `(array)` cast, loose `switch`
  comparison and ASCII case mapping.
- `Hooks` models the host's hook table as a `Host` object. It holds a log
  of `add_action` / `add_filter` registrations and a log of removals. Each
  component's constructor is a method that appends to these logs. A
  function states what the method appends, and the lemmas are about that
  function.

Host functions whose code is not part of this model are parameters:

- `remove_accents`, `sanitize_key`, `wp_kses_post`, `esc_html` and
  `sanitize_text_field`;
- `current_user_can` (as `isAdmin` / `isEditor`) and `is_admin`;
- `is_plugin_active` and `time()`;
- `get_post_types` and `class_exists( 'Yoast_Notification_Center' )` (as a
  possibly-null notification centre).

The host objects the callbacks change in place are classes:

- the admin bar's node list (`AdminBar.AdminBar`);
- the stored option row (`PluginOptions.OptionStore`);
- the upload transient and attachment titles (`CleanFilenames.MediaLibrary`);
- Yoast's notification centre (`PluginNotices.NotificationCenter`).

The arrays the filters receive are PHP values, so each filter is a function
from the array it receives to the array it returns. A filter that loops
with `foreach` and `unset` is a method whose result is tied to such a
function.

## Model

| member | source | states |
|---|---|---|
| PluginOptions.Merge | admin-clean-up.php:126-140 | The merge holds exactly the keys of the arguments and of the defaults together. |
| PluginOptions.ParseArgsRecursive | admin-clean-up.php:126-140 | The `(array)` casts, the copy of the defaults and the key-by-key overwriting loop with recursion compute exactly `Merge` of the cast operands. |
| PluginOptions.MergeOverArray | admin-clean-up.php:127-128 | Casting an array operand does not change the merge. |
| PluginOptions.MergeKeepsDefaults | admin-clean-up.php:129-139 | Every default key is present in the result, and a key the arguments lack keeps its default value. |
| PluginOptions.MergeArgumentWins | admin-clean-up.php:132-136 | When the argument and the default are not both arrays, the argument wins, even when it is null, false, 0 or `''`, or replaces a nested default; when both are arrays the entry is their recursive merge. |
| PluginOptions.MergeEmptyArgs | tests/Unit/ParseArgsRecursiveTest.php:44-54 | Merging empty arguments yields the defaults. |
| PluginOptions.MergeEmptyDefaults | tests/Unit/ParseArgsRecursiveTest.php:56-65 | Merging into empty defaults yields the arguments. |
| PluginOptions.MergeSelf | admin-clean-up.php:126-140 | A tree merged with itself is unchanged, at every depth. |
| PluginOptions.MergeIdempotent | admin-clean-up.php:126-140 | Merging the same defaults again into an already merged record changes nothing. |
| PluginOptions.MergeKeepsNestedKeys | admin-clean-up.php:132-133 | A nested default array keeps all of its keys through the merge unless the argument replaces it with a non-array. |
| PluginOptions.TreeHolds | admin-clean-up.php:146-213 | Each listed section name holds its own defaults in the defaults tree. |
| PluginOptions.DefaultsHoldSection | admin-clean-up.php:146-213 | Each of the nine sections holds its default keys and values in `get_options`' defaults tree. |
| PluginOptions.GetOptions | admin-clean-up.php:145-218 | Whatever is stored, the result holds every top-level key of the defaults tree. |
| PluginOptions.GetOptionsHasSections | admin-clean-up.php:146-217 | Every one of the nine sections is present whatever is stored; a section stored as an array, or not stored, holds all its default keys. |
| PluginOptions.OptionStore.constructor | admin-clean-up.php:215 | The option row starts as the given stored value, or absent. |
| PluginOptions.OptionStore.Load | admin-clean-up.php:145-218 | `get_options` returns the stored record merged over the defaults. |
| PluginOptions.OptionStore.Activate | admin-clean-up.php:234-306 | Activation writes the default record only when no option exists yet, and otherwise leaves the stored value alone. |
| PluginOptions.ActivatedOptionsAreDefaults | admin-clean-up.php:234-306 | The record activation writes is the `get_options` defaults tree, so right after a first activation `get_options` returns exactly the defaults. |
| AdminPage.ParseTab | includes/class-admin-page.php:82-178 | A tab key selects the tab whose name it equals, and selects none when no tab has that name. |
| AdminPage.ParseTabName | includes/class-admin-page.php:82-178 | Each tab's own name selects it. |
| AdminPage.KeepKeyChars | includes/class-admin-page.php:79 | The strip step of `sanitize_key` keeps only `[a-z0-9_-]` characters and leaves text made of them unchanged. |
| AdminPage.StandardSanitizeKey | includes/class-admin-page.php:79 | WordPress's `sanitize_key` yields only `[a-z0-9_-]` characters. |
| AdminPage.KeepKeyCharsAppend | includes/class-admin-page.php:79 | Stripping distributes over concatenation. |
| AdminPage.KeepKeyCharsDrop | includes/class-admin-page.php:79 | A non-key character is dropped wherever it stands. |
| AdminPage.ScriptTabWritesNothing | tests/Unit/SanitizeOptionsTest.php:233-244 | The tab key `<script>alert(1)</script>` sanitises to `scriptalert1script`, which names no tab, so the stored record comes back unchanged. |
| AdminPage.KeyCharsOfNone | includes/class-admin-page.php:79 | Text with no key character strips to `''`. |
| AdminPage.SanitizeKeyIgnoresCase | tests/Unit/SanitizeOptionsTest.php:219-231 | An upper-cased tab key sanitises like the lower-case one. |
| AdminPage.SanitizeKeyDropsMarkup | tests/Unit/SanitizeOptionsTest.php:233-244 | `sanitize_key` drops a character that is not a key character once lower-cased. |
| AdminPage.TabNameIsKey | includes/class-admin-page.php:79-82 | Every tab name is already a sanitised key. |
| AdminPage.SectionInput | includes/class-admin-page.php:83-84 | A tab's part of the form is always read as an array. |
| AdminPage.NonArraySectionReadsAsEmpty | includes/class-admin-page.php:83-84 | A section submitted as something other than an array is read as an empty one. |
| AdminPage.FlagsKeys | includes/class-admin-page.php:84-91 | The boolean fields hold exactly the listed keys. |
| AdminPage.FlagsEntry | includes/class-admin-page.php:84-91 | Each listed boolean field is `! empty` of its submitted value. |
| AdminPage.FlagsReadOnlyKeys | includes/class-admin-page.php:84-91 | The boolean fields read only the listed keys of the submission. |
| AdminPage.Choice | includes/class-admin-page.php:152-172 | A whitelisted field is always one of its allowed strings: the submitted one when it is allowed, the fallback otherwise. |
| AdminPage.MenuFieldsKeys | includes/class-admin-page.php:121-126 | The menus section holds exactly `remove_X` and `remove_X_for` for each of the eight menu keys. |
| AdminPage.MenuKeysNoNameClash | includes/class-admin-page.php:120 | No menu item's flag name is another item's role name. |
| AdminPage.MenuFieldsEntries | includes/class-admin-page.php:122-126 | Each menu item gets `! empty` of its flag and its role, validated against `all`, `non_admin` and `non_editor`, with `non_admin` as the fallback. |
| AdminPage.MenuFieldsReadOnlyFields | includes/class-admin-page.php:122-126 | The menus section reads only the flag and role fields of the submission. |
| AdminPage.SanitizeMenus | includes/class-admin-page.php:116-128 | The menus loop writes exactly the flag-and-role section of the eight items. |
| AdminPage.SanitizeOptions | includes/class-admin-page.php:73-181 | The method's result is `SanitizeRecord`: a copy of the stored record (`[]` when it is not an array) with the current tab's section replaced. |
| AdminPage.SanitizeWithoutTab | includes/class-admin-page.php:75-79 | A missing or unrecognised `_current_tab` returns the stored record unchanged. |
| AdminPage.SanitizeKeepsOtherSections | includes/class-admin-page.php:76-178 | Every section other than the current tab's is kept exactly as stored. |
| AdminPage.SanitizeWritesTab | includes/class-admin-page.php:82-178 | A recognised tab's section is replaced wholesale by one built from the submitted form alone, so previously stored keys outside the list are dropped. |
| AdminPage.SanitizedSectionKeys | includes/class-admin-page.php:82-178 | A tab's written section holds exactly its fixed list of fields, whatever was stored or submitted. |
| AdminPage.OtherFieldsKeys | includes/class-admin-page.php:130-178 | The non-boolean fields of a tab are exactly its listed text and choice fields. |
| AdminPage.SanitizedSectionReadsOnlyFields | includes/class-admin-page.php:83-90 | Extra submitted keys are ignored: two submissions that agree on the listed fields produce the same section. |
| AdminPage.OtherFieldsReadOnlyFields | includes/class-admin-page.php:130-178 | The text and choice fields read only their own submitted fields. |
| AdminPage.SanitizedBoolField | tests/Unit/SanitizeOptionsTest.php:251-299 | Every boolean field is `! empty` of its input: missing, `''`, `'0'`, `0`, `false` and `null` all give `false`. |
| AdminPage.SanitizedMenuField | includes/class-admin-page.php:118-126 | Each `remove_X_for` is one of the three roles, `non_admin` unless a valid one was submitted. |
| AdminPage.SanitizedCoreUpdates | includes/class-admin-page.php:169-172 | `core_updates` is one of its five allowed values, `default` unless a valid one was submitted. |
| AdminPage.SanitizedCleanTypes | includes/class-admin-page.php:152-157 | `clean_filenames_types` is `all` or `images`, `all` unless a valid one was submitted. |
| AdminPage.UpperCaseTabSelectsTab | tests/Unit/SanitizeOptionsTest.php:219-231 | With WordPress's `sanitize_key`, `ADMINBAR` still selects and writes the adminbar section. |
| AdminPage.MarkupTabWritesNothing | includes/class-admin-page.php:79-82 | A tab key made only of markup characters selects nothing, and the stored record comes back unchanged. |
| AdminPage.DisplayTab | includes/class-admin-page.php:284-289 | The displayed tab is always an active tab or `adminbar`. |
| AdminPage.TabsAreSections | includes/class-admin-page.php:186-271 | Every listed tab is one the sanitiser knows; `adminbar` is always listed; `plugins` is listed exactly when a supported plugin is active. |
| AdminPage.DisplayTabFallsBack | includes/class-admin-page.php:284-289 | A requested tab that is listed is shown; any other request falls back to `adminbar`. |
| AdminMenus.MenuSlugsKeys | includes/class-admin-menus.php:25-34 | The slug table's keys are the eight menu keys the settings screen writes, in the same order. |
| AdminMenus.ShouldHideRoles | includes/class-admin-menus.php:69-80 | `all` hides from everyone, `non_admin` from exactly the non-administrators, `non_editor` from exactly those who are neither administrator nor editor. |
| AdminMenus.EmptySettingIsNonAdmin | includes/class-admin-menus.php:64-67 | An empty setting behaves as `non_admin`. |
| AdminMenus.OtherSettingNeverHides | includes/class-admin-menus.php:82-83 | Any other non-empty string never hides. |
| AdminMenus.TrueHidesFromEveryone | includes/class-admin-menus.php:69-72 | Under loose `switch` comparison a stored `true` matches `all` and hides from everyone. |
| AdminMenus.RolesNest | includes/class-admin-menus.php:69-80 | Whoever `non_editor` hides from, `non_admin` also hides from, and `all` hides from whoever `non_admin` does. |
| AdminMenus.AdminOnlyLosesToAll | includes/class-admin-menus.php:69-84 | An administrator loses a page only to `all` (or a loosely equal `true`). |
| AdminMenus.HasMenusToRemove | includes/class-admin-menus.php:44-50 | The loop with `break` finds a flag exactly when some menu key's `remove_` flag is set. |
| AdminMenus.MenuHooks | includes/class-admin-menus.php:52-54 | The `admin_menu` callback is registered, once at priority 999, exactly when some `remove_` flag is set. |
| AdminMenus.RegisterMenuHooks | includes/class-admin-menus.php:39-55 | The constructor appends exactly `MenuHooks` to the hook table and removes nothing. |
| AdminMenus.RemoveMenuItems | includes/class-admin-menus.php:90-105 | The callback's loop appends the removals `MenuRemovals` lists, in table order, and registers nothing. |
| AdminMenus.MenuRemovalsStep | includes/class-admin-menus.php:93-104 | One more turn of the loop appends at most that item's page removal. |
| AdminMenus.MenuRemovalsExactly | includes/class-admin-menus.php:90-105 | A page is removed exactly when a table item with that slug has its flag set and its role rule hides it from the current user. |
| AdminMenus.MissingRoleIsNonAdmin | includes/class-admin-menus.php:97 | A flagged item without a role setting is hidden exactly from non-administrators. |
| AdminMenus.GateCoversRemovals | includes/class-admin-menus.php:44-54 | When the gate leaves the callback unhooked, the callback would have removed nothing. |
| Updates.HandleCoreUpdates | includes/class-updates.php:65-100 | `handle_core_updates` appends exactly the filters of its setting's case and removes nothing. |
| Updates.RegisterUpdateHooks | includes/class-updates.php:25-58 | The constructor appends exactly `UpdateHooks` in source order and removes nothing. |
| Updates.HideUpdateNags | includes/class-updates.php:105-115 | The nag callback removes the two `update_nag` actions and `maintenance_nag`, then hooks the CSS that hides update counts. |
| Updates.CoreFiltersOnlyForKnownPolicy | includes/class-updates.php:65-100 | Core filters are registered exactly for the four known policies, and only on the four core hooks. |
| Updates.EmptySettingIsNoPolicy | includes/class-updates.php:30-32 | An empty `core_updates` registers no core filter. |
| Updates.DefaultSettingIsNoPolicy | includes/class-updates.php:96-98 | `default` and every unknown string enter the `default:` case. |
| Updates.UpdateHooksOn | includes/class-updates.php:25-58 | On each hook, the constructor's registrations are the registrations each group puts on that hook, group by group. |
| Updates.OnHookMissing | includes/class-updates.php:25-58 | Registrations none of which is on a hook put nothing on it. |
| Updates.FlagGroupsMiss | includes/class-updates.php:35-57 | The flag groups register nothing on a core hook. |
| Updates.CoreHookOnlyFromPolicy | includes/class-updates.php:25-58 | A core hook is filtered only by the core policy, never by the flag groups. |
| Updates.PolicyFromCoreOnly | includes/class-updates.php:25-58 | The core policy the constructor leaves is the one `handle_core_updates` alone makes. |
| Updates.DisableAllPolicy | includes/class-updates.php:67-73 | `disable_all` forces `auto_update_core` and dev, minor and major auto-updates to `false`. |
| Updates.ThreeFilterPolicy | includes/class-updates.php:75-94 | The three-filter cases give dev `false`, minor `true` and major as chosen, and leave `auto_update_core` alone. |
| Updates.CoreFiltersMakePolicy | includes/class-updates.php:65-100 | Each `core_updates` value makes exactly the policy it stands for: everything off, minor only, minor and major, or the host's defaults. |
| Updates.UpdateHooksMakePolicy | includes/class-updates.php:25-58 | The whole constructor leaves the policy its `core_updates` setting stands for, whatever the other flags say. |
| Updates.NeverDevUpdates | includes/class-updates.php:65-100 | No setting ever enables development auto-updates. |
| Updates.SecurityOnlyIsMinorOnly | includes/class-updates.php:75-87 | `security_only` and `minor_only` register identical filters. |
| Updates.NotOnCoreHooks | includes/class-updates.php:65-100 | The core policy puts nothing on a hook outside the four core hooks. |
| Updates.PluginHookOn | includes/class-updates.php:35-38 | Each plugin auto-update hook is filtered once by its own group, and is not a core hook. |
| Updates.PluginHookOffOthers | includes/class-updates.php:41-57 | No other group registers on a plugin auto-update hook. |
| Updates.PluginFlagAlone | includes/class-updates.php:35-38 | Each plugin auto-update hook returns `false` exactly when `disable_plugin_updates` is set, whatever else is set. |
| Updates.ThemeHookOn | includes/class-updates.php:41-44 | Each theme auto-update hook is filtered once by its own group, and is not a core hook. |
| Updates.ThemeHookOffOthers | includes/class-updates.php:35-57 | No other group registers on a theme auto-update hook. |
| Updates.ThemeFlagAlone | includes/class-updates.php:41-44 | Each theme auto-update hook returns `false` exactly when `disable_theme_updates` is set. |
| Updates.EmailHookOn | includes/class-updates.php:47-52 | Each update e-mail hook is filtered once by its own group, and is not a core hook. |
| Updates.EmailHookOffOthers | includes/class-updates.php:35-57 | No other group registers on an update e-mail hook. |
| Updates.EmailFlagAlone | includes/class-updates.php:47-52 | Each update e-mail hook returns `false` exactly when `disable_update_emails` is set. |
| Updates.NagHookOn | includes/class-updates.php:55-57 | Only the nag group registers on `admin_init`, which is not a core hook. |
| Updates.NagHookOffOthers | includes/class-updates.php:35-52 | The other flag groups register nothing on `admin_init`. |
| Updates.NagsFlagAlone | includes/class-updates.php:55-57 | `admin_init` gets the nag callback exactly when `hide_update_nags` is set, and nothing else from this component. |
| Updates.UpdateHooksCount | includes/class-updates.php:25-58 | The constructor registers the core filters (at most four) plus 2, 2, 4 and 1 for each flag that is set. |
| Footer.RegisterFooterHooks | includes/class-footer.php:25-42 | The constructor appends exactly `FooterHooks`: one footer-text filter and one version filter at most, and removes nothing. |
| Footer.HooksByLine | includes/class-footer.php:29-41 | Each line's registrations sit on that line's hook only. |
| Footer.FooterTextPrecedence | includes/class-footer.php:30-34 | `remove_footer_text` blanks the footer whatever the custom text; the custom filter is installed only when removal is off and the text is non-empty; with both empty the hook is untouched and the host's text shows. |
| Footer.VersionPrecedence | includes/class-footer.php:37-41 | The same precedence for `remove_version` over `custom_version_text` over the host's version line. |
| Footer.LinesIndependent | includes/class-footer.php:29-41 | What sits on the footer-text hook depends only on the two footer-text settings, and likewise for the version hook. |
| Dashboard.DashboardHooks | includes/class-dashboard.php:29-31 | The removal callback is registered exactly when some entry of the dashboard section is truthy. |
| Dashboard.RegisterDashboardHooks | includes/class-dashboard.php:25-32 | The constructor appends exactly `DashboardHooks` and removes nothing. |
| Dashboard.RemoveDashboardWidgets | includes/class-dashboard.php:37-69 | The callback appends the guarded removals in source order and registers nothing. |
| Dashboard.SixGuardsExactly | includes/class-dashboard.php:41-68 | Six guarded calls in a row make a call exactly when some row holds it and has its flag set. |
| Dashboard.DashboardRemovalsExactly | includes/class-dashboard.php:41-68 | Each set flag removes exactly its own widget, with its fixed id and context, and nothing else is removed. |
| Dashboard.WidgetsDistinct | includes/class-dashboard.php:41-68 | The six flags are different and name six different removals. |
| Dashboard.UnsetFlagsRemoveNothing | includes/class-dashboard.php:37-69 | With no widget flag set the callback removes nothing. |
| Dashboard.SiteHealthAloneRemovesNothing | includes/class-dashboard.php:29-69 | `disable_site_health` alone hooks the callback, which then removes nothing. |
| Dashboard.GateCoversWidgets | includes/class-dashboard.php:29-31 | Whenever the callback would remove something, the gate has hooked it. |
| AdminBar.WithoutIdMembers | includes/class-admin-bar.php:40 | Removing a node by id keeps exactly the nodes with other ids. |
| AdminBar.WithoutChildrenMembers | includes/class-admin-bar.php:74-78 | Removing the children of a node keeps exactly the nodes with another parent. |
| AdminBar.WithoutIdAppend | includes/class-admin-bar.php:40 | Removal by id works piecewise over a split node list. |
| AdminBar.WithoutChildrenAppend | includes/class-admin-bar.php:74-78 | Removal of children works piecewise over a split node list. |
| AdminBar.WithoutAbsentId | includes/class-admin-bar.php:40 | Removing an id no node has changes nothing. |
| AdminBar.WithoutChildrenIdempotent | includes/class-admin-bar.php:69-80 | Removing the site submenus a second time changes nothing. |
| AdminBar.AdminBar.RemoveNode | includes/class-admin-bar.php:40 | `remove_node( id )` leaves the bar without the node of that id, and its ids still unique. |
| AdminBar.AdminBar.RemoveSiteSubmenus | includes/class-admin-bar.php:69-80 | The loop over a snapshot of the nodes leaves the bar without exactly the direct children of `site-name`, and its ids still unique. |
| AdminBar.SiteSubmenusStep | includes/class-admin-bar.php:74-78 | One turn of the loop removes only the visited node, ids being unique. |
| AdminBar.KeptGrows | includes/class-admin-bar.php:74-78 | The kept prefix grows by the visited node unless it is a child of `site-name`. |
| AdminBar.KeptIdsDiffer | includes/class-admin-bar.php:74-78 | No kept node before the visited one shares its id. |
| AdminBar.LaterIdsDiffer | includes/class-admin-bar.php:71-78 | No node after the visited one shares its id. |
| AdminBar.RemoveOnlyAt | includes/class-admin-bar.php:76 | Removing the id of a node that appears nowhere else removes just that node. |
| AdminBar.RemoveAdminBarItems | includes/class-admin-bar.php:32-62 | The callback leaves the bar as `AfterRemoval` describes, step by step in the source's order, and keeps the ids unique. |
| AdminBar.WithoutIdUnique | includes/class-admin-bar.php:40 | Removing a node keeps the ids unique. |
| AdminBar.WithoutChildrenUnique | includes/class-admin-bar.php:69-80 | Removing the children of a node keeps the ids unique. |
| AdminBar.AfterRemovalUnique | includes/class-admin-bar.php:32-62 | The bar the whole callback leaves has unique ids when the bar it was given had. |
| AdminBar.UniqueTail | includes/class-admin-bar.php:71-78 | Dropping the first node keeps the ids unique. |
| AdminBar.UniqueCons | includes/class-admin-bar.php:71-78 | A node with a fresh id in front of unique nodes keeps them unique. |
| AdminBar.AfterRemovalMembers | includes/class-admin-bar.php:32-62 | A node survives the callback exactly when none of the five flag tests drops it. |
| AdminBar.MyAccountOnlyOnFrontend | includes/class-admin-bar.php:59-61 | `my-account` is removed exactly when `remove_howdy_frontend` is set and the request is not an admin request. |
| AdminBar.TopLevelNodesByFlag | includes/class-admin-bar.php:39-56 | `wp-logo`, `new-content` and `search` are each removed exactly when their own flag is set. |
| AdminBar.SiteSubmenusExactly | includes/class-admin-bar.php:69-80 | Exactly the direct children of `site-name` go; the `site-name` node itself and nodes with any other parent, grandchildren included, stay. |
| Comments.CommentHooks | includes/class-comments.php:20-26 | Nothing is registered unless `disable_comments` is set, and then all 25 callbacks. |
| Comments.RegisterCommentHooks | includes/class-comments.php:20-102 | The constructor appends exactly `CommentHooks` and removes nothing. |
| Php.Unset | includes/class-comments.php:155-158 | `unset` as the array filters use it (`remove_pingback_header` here, `remove_comments_column`, `remove_elementor_go_pro_link`): only the named key is removed; every other key stays with its value. |
| Php.UnsetIdempotent | includes/class-comments.php:232-235 | Unsetting a key a second time changes nothing. |
| Comments.UnsetTwiceIsOnce | includes/class-comments.php:155-158 | Applying either of the two filters twice equals applying it once. |
| Comments.DisableXmlrpcComments | includes/class-comments.php:166-181 | Exactly the listed XML-RPC methods are removed; all others are unchanged. |
| Comments.XmlrpcListHasNine | includes/class-comments.php:168-178 | The list names nine different methods. |
| Comments.RestApiRemovesOnlyCommentRoutes | includes/class-comments.php:256-264 | Only the two comment routes go, and only when set (`isset`); every other route keeps its handlers. |
| Comments.RemoveCommentRewriteRules | includes/class-comments.php:325-332 | The `foreach`-and-`unset` loop returns exactly the rules that do not mention comments, trackbacks or pingbacks. |
| Comments.CommentRulesGone | includes/class-comments.php:325-332 | A rule is dropped exactly when its pattern matches; every other rule keeps its key and rewrite target. |
| Comments.RuleMatchIgnoresCase | includes/class-comments.php:327 | The match ignores ASCII case. |
| Comments.RewriteRulesIdempotent | includes/class-comments.php:325-332 | Filtering the rules a second time removes nothing more. |
| SiteHealth.SiteHealthHooks | includes/class-site-health.php:20-26 | Nothing is registered unless `dashboard.disable_site_health` is set, and then all 14 callbacks. |
| SiteHealth.RegisterSiteHealthHooks | includes/class-site-health.php:20-71 | The constructor appends exactly `SiteHealthHooks` and removes nothing. |
| SiteHealth.DisableSiteHealthRestApi | includes/class-site-health.php:137-146 | The loop returns exactly the routes that do not contain `/wp-site-health/`. |
| SiteHealth.SiteHealthRoutesGone | includes/class-site-health.php:137-146 | No remaining route contains `/wp-site-health/`; every other route is kept with its value; the output keys are a subset of the input keys. |
| SiteHealth.SiteHealthFilterIdempotent | includes/class-site-health.php:137-146 | Filtering twice is filtering once. |
| PluginNotices.RegisterPluginNoticeHooks | includes/class-plugin-notices.php:25-131 | The constructor appends exactly the registrations and removals of the open branches. |
| PluginNotices.RegisterAdminBranches | includes/class-plugin-notices.php:29-75 | The PixelYourSite, Elementor and Complianz blocks append their lists when their gates are open. |
| PluginNotices.RegisterLaterBranches | includes/class-plugin-notices.php:77-130 | The GTM4WP, WooCommerce and Yoast blocks append their lists when their gates are open; only the WooCommerce block removes filters. |
| PluginNotices.AddWhen | includes/class-plugin-notices.php:29-130 | A gated block appends its registrations exactly when its gate is open. |
| PluginNotices.BranchMembers | includes/class-plugin-notices.php:25-131 | A registration is present exactly when a branch listing it is open. |
| PluginNotices.ElementorListed | includes/class-plugin-notices.php:37-65 | The Go Pro link filter is in the Elementor list, and the other gated callbacks are not. |
| PluginNotices.ElementorAdminListed | includes/class-plugin-notices.php:39-48 | None of the gated callbacks is among Elementor's admin hooks. |
| PluginNotices.ElementorAdminUnlisted | includes/class-plugin-notices.php:39-48 | The GTM4WP buffer and the Yoast callbacks are not among Elementor's admin hooks. |
| PluginNotices.ElementorPromotionListed | includes/class-plugin-notices.php:51-64 | The Go Pro link filter is among Elementor's promotion filters, and the other gated callbacks are not. |
| PluginNotices.YoastListed | includes/class-plugin-notices.php:99-130 | The submenu filter and the notification clean-up are in the Yoast list, and the other gated callbacks are not. |
| PluginNotices.YoastAdminListed | includes/class-plugin-notices.php:101-105 | None of the gated callbacks is among Yoast's admin hooks. |
| PluginNotices.YoastFilterListed | includes/class-plugin-notices.php:108-129 | The submenu filter and the notification clean-up are among Yoast's later hooks, and the other gated callbacks are not. |
| PluginNotices.ShortListsListed | includes/class-plugin-notices.php:68-96 | The Complianz list holds its own output filter only; the WooCommerce list holds none of the gated callbacks. |
| PluginNotices.PixelHiddenOnlyForFree | includes/class-plugin-notices.php:30-34 | PixelYourSite's notices are hidden exactly when the flag is set, the free plugin is active and the pro plugin is not. |
| PluginNotices.GoProFilterGate | includes/class-plugin-notices.php:37-61 | The Go Pro link filter is hooked exactly when the Elementor setting is on and Elementor is active. |
| PluginNotices.ComplianzFilterGate | includes/class-plugin-notices.php:68-75 | The Complianz comment filter is hooked exactly when its setting is on and either edition is active. |
| PluginNotices.GtmBufferGate | includes/class-plugin-notices.php:78-82 | The GTM4WP output buffer is started exactly when its setting is on and the plugin is active. |
| PluginNotices.WooRemovalsGate | includes/class-plugin-notices.php:85-96 | WooCommerce's two generator tags are unhooked exactly when its setting is on and WooCommerce is active. |
| PluginNotices.YoastFiltersGate | includes/class-plugin-notices.php:99-130 | Yoast's submenu filter and notification clean-up are hooked exactly when its setting is on and Yoast SEO is active. |
| PluginNotices.NoActivePluginsNoHooks | includes/class-plugin-notices.php:25-131 | With no supported plugin active nothing is hooked or unhooked, whatever the settings. |
| PluginNotices.GoProLinkGone | includes/class-plugin-notices.php:393-396 | No `go_pro` link is left, every other link keeps its value, and filtering twice equals filtering once. |
| PluginNotices.SubmenuPagesKept | includes/class-plugin-notices.php:507-521 | An entry stays exactly when it has no index 4 or its index-4 slug is not one of the seven; a kept entry keeps its key and value, as `array_filter` does not reindex. |
| PluginNotices.StrValuesMembers | includes/class-plugin-notices.php:509-517 | The listed slugs, as PHP values, are exactly the strings among them. |
| PluginNotices.SubmenuFilterIdempotent | includes/class-plugin-notices.php:507-521 | Filtering the submenu a second time drops nothing more. |
| PluginNotices.RemoveYoastColumns | includes/class-plugin-notices.php:661-670 | Exactly the seven `wpseo-*` keys go; every other column keeps its title. |
| PluginNotices.YoastColumnsAreSeven | includes/class-plugin-notices.php:662-668 | The list names seven different columns. |
| PluginNotices.ColumnsHookInjective | includes/class-plugin-notices.php:637 | Different post types have different column filters. |
| PluginNotices.RemoveYoastAdminColumnsAndFilters | includes/class-plugin-notices.php:633-642 | One column filter per public post type, in the host's order, then the dropdown clean-up. |
| PluginNotices.ColumnFiltersPerType | includes/class-plugin-notices.php:636-638 | Every public post type gets its own column filter, and nothing else is filtered. |
| PluginNotices.NotificationCenter.constructor | includes/class-plugin-notices.php:545 | The centre starts with the given notifications. |
| PluginNotices.NotificationCenter.RemoveNotification | includes/class-plugin-notices.php:554 | Removing a notification drops its entries and keeps the rest in order. |
| PluginNotices.DismissYoastPromotionalNotifications | includes/class-plugin-notices.php:540-556 | With a centre present, exactly its error notifications remain, in order; without one nothing happens. |
| PluginNotices.KeptNone | includes/class-plugin-notices.php:547-555 | Before the loop nothing is dismissed. |
| PluginNotices.KeptError | includes/class-plugin-notices.php:549-551 | Skipping an error notification changes nothing. |
| PluginNotices.KeptDismiss | includes/class-plugin-notices.php:553-554 | Dismissing a non-error notification removes it from what was kept. |
| PluginNotices.WithoutAppend | includes/class-plugin-notices.php:554 | Removal works piecewise over a split list. |
| PluginNotices.KeptAll | includes/class-plugin-notices.php:547-555 | Once every entry has been visited, only the errors are kept. |
| PluginNotices.OnlyErrorsExactly | includes/class-plugin-notices.php:547-555 | Only `error` notifications remain, and none of them was removed: each keeps its number of copies. |
| PluginNotices.OnlyErrorsIsSubsequence | includes/class-plugin-notices.php:547-555 | The list is unchanged exactly when it holds only errors, and it never grows. |
| CleanFilenames.AsRow | includes/class-clean-filenames.php:97-218 | A single-character table entry becomes a row with a one-character key. |
| CleanFilenames.TableRow | includes/class-clean-filenames.php:97-218 | Every row has a non-empty key, every row but `%` and `%20` has a one-character key, and the letter and typographic rows have a key outside ASCII. |
| CleanFilenames.ReplaceAll | includes/class-clean-filenames.php:221 | A `str_replace` pass with an empty key, or a key whose first character is absent, changes nothing. |
| CleanFilenames.ReplaceAllChars | includes/class-clean-filenames.php:221 | A pass writes no character that was in neither the text nor the replacement. |
| CleanFilenames.ReplaceAllRemoves | includes/class-clean-filenames.php:221 | A pass with a one-character key removes that character unless the replacement holds it. |
| CleanFilenames.ApplyRowsSplit | includes/class-clean-filenames.php:221 | Applying a run of rows is applying its first part, then the rest, each pass over the previous result. |
| CleanFilenames.ApplyRowsUntouched | includes/class-clean-filenames.php:221 | Rows whose key cannot start anywhere in the text leave it alone. |
| CleanFilenames.ApplyRowsKeepsOut | includes/class-clean-filenames.php:97-221 | A character outside `[a-z0-9-]`, once absent, is never written back by the table. |
| CleanFilenames.SlugTextUntouchedByRows | includes/class-clean-filenames.php:97-221 | Text made of `[a-z0-9-]` is unchanged by any run of rows. |
| CleanFilenames.SlugTextUntouchedByTable | includes/class-clean-filenames.php:97-221 | Text made of `[a-z0-9-]` is unchanged by the whole table. |
| CleanFilenames.EncodedSpaceRowIsDead | includes/class-clean-filenames.php:168-217 | The `%20` row can never match: the `%` row before it removes every `%` and no row in between writes one back. |
| CleanFilenames.OneRow | includes/class-clean-filenames.php:168-217 | A run of one row is that row's pass; the `%` and `%20` rows sit where the table lists them. |
| CleanFilenames.ReplaceAllSkips | includes/class-clean-filenames.php:221 | A one-character key absent from a prefix leaves that prefix alone. |
| CleanFilenames.ReplaceAllLeadingKey | includes/class-clean-filenames.php:221 | A leading occurrence of the key is replaced, then the pass continues after it. |
| CleanFilenames.SlugTextAppend | includes/class-clean-filenames.php:230 | Slug text concatenated with slug text is slug text. |
| CleanFilenames.PercentPassOnEncodedSpace | includes/class-clean-filenames.php:168 | The `%` pass turns a `%20` between slug text into `20`. |
| CleanFilenames.EncodedSpaceShape | includes/class-clean-filenames.php:168 | How `a%20b` and `a20b` split around the percent sign. |
| CleanFilenames.EncodedSpaceKeepsDigits | tests/Unit/CleanFilenamesTest.php:226-230 | The whole table turns `a%20b` into `a20b` for slug text `a` and `b`, so `my%20file` becomes `my20file`. |
| CleanFilenames.EncodedSpaceUpToPercent | includes/class-clean-filenames.php:97-168 | The rows up to and including `%` turn `a%20b` into the slug text `a20b`. |
| CleanFilenames.SlugAroundDigits | includes/class-clean-filenames.php:230 | `a20b` is slug text when `a` and `b` are. |
| CleanFilenames.EncodedSpaceChars | includes/class-clean-filenames.php:168 | Every character of `a%20b` is `%` or a slug character. |
| CleanFilenames.RowsBeforePercentSkip | includes/class-clean-filenames.php:97-167 | The rows before `%` leave text made of slug characters and `%` alone. |
| CleanFilenames.KeepSlugChars | includes/class-clean-filenames.php:230 | The character filter yields only `[a-z0-9-]` and leaves such text unchanged. |
| CleanFilenames.KeepSlugCharsMembers | includes/class-clean-filenames.php:230 | The filter keeps exactly the slug characters of its input. |
| CleanFilenames.UndashedAppend | includes/class-clean-filenames.php:233-236 | The non-dash characters of a concatenation are those of each part. |
| CleanFilenames.CollapseDashes | includes/class-clean-filenames.php:233 | The result has no `--` and keeps the first and last characters. |
| CleanFilenames.CollapseDashesUndashed | includes/class-clean-filenames.php:233 | Collapsing only removes dashes: every other character stays, in order. |
| CleanFilenames.CollapseDashesKeepsSlugText | includes/class-clean-filenames.php:233 | Collapsing slug text gives slug text. |
| CleanFilenames.CollapseDashesIdentity | includes/class-clean-filenames.php:233 | Text without `--` is left as it is. |
| CleanFilenames.TrimLeadingDashes | includes/class-clean-filenames.php:236 | Leading dashes go, only dashes go, and text not starting with `-` is unchanged. |
| CleanFilenames.TrimTrailingDashes | includes/class-clean-filenames.php:236 | Trailing dashes go, only dashes go, and text not ending with `-` is unchanged. |
| CleanFilenames.TrimDashes | includes/class-clean-filenames.php:236 | `trim( $s, '-' )` leaves no dash at either end, removes only dashes, keeps slug text and the absence of `--`, and leaves text without edge dashes unchanged. |
| CleanFilenames.SliceKeeps | includes/class-clean-filenames.php:236 | A piece cut from the middle of the text keeps its character set and its lack of `--`. |
| CleanFilenames.CleanFilename | includes/class-clean-filenames.php:95-239 | Whatever the input and whatever `remove_accents` does, the output (possibly empty) holds only `[a-z0-9-]`, never `--`, and no dash at either end. |
| CleanFilenames.AfterTable | includes/class-clean-filenames.php:224-236 | The passes after the table always produce a slug. |
| CleanFilenames.SlugIsAscii | includes/class-clean-filenames.php:227-230 | Slug text is ASCII. |
| CleanFilenames.AfterTableKeepsSlugs | includes/class-clean-filenames.php:224-236 | The passes after the table leave a slug alone. |
| CleanFilenames.CleanFilenameKeepsSlugs | tests/Unit/CleanFilenamesTest.php:78-81 | A stem that is already a slug comes back unchanged. |
| CleanFilenames.CleanFilenameIdempotent | includes/class-clean-filenames.php:95-239 | Cleaning a cleaned stem changes nothing. |
| CleanFilenames.CleanFilenameEncodedSpace | tests/Unit/CleanFilenamesTest.php:226-230 | `a%20b` is cleaned to `a20b` whenever `a20b` is a slug. |
| CleanFilenames.SymbolKeys | includes/class-clean-filenames.php:164-193 | The symbol rows have printable ASCII keys that are not upper-case letters. |
| CleanFilenames.LastRowKeys | includes/class-clean-filenames.php:213-217 | The last five rows are keyed by tab, newline, carriage return, underscore and `%20`. |
| CleanFilenames.WideRowsSkip | includes/class-clean-filenames.php:97-209 | The letter and typographic rows leave text of ASCII letters, spaces, dashes and parentheses unchanged. |
| CleanFilenames.SymbolRowsSkip | includes/class-clean-filenames.php:164-193 | The symbol rows leave text of ASCII letters, spaces and dashes unchanged. |
| CleanFilenames.LastRowsSkip | includes/class-clean-filenames.php:213-217 | The last five rows leave text of ASCII letters and dashes unchanged. |
| CleanFilenames.ExampleAccentRows | includes/class-clean-filenames.php:99 | The first three rows turn the one `ä` of a plain text into `a` and change nothing else. |
| CleanFilenames.ExampleFirstRows | includes/class-clean-filenames.php:97-170 | The rows before `(` turn the `ä` into `a` and change nothing else. |
| CleanFilenames.ExampleOpenParenRow | includes/class-clean-filenames.php:171 | The `(` row removes the opening parenthesis. |
| CleanFilenames.ExampleCloseParenRow | includes/class-clean-filenames.php:172 | The `)` row removes the closing parenthesis. |
| CleanFilenames.ExampleSpaceRow | includes/class-clean-filenames.php:212 | The space row turns each space into a dash. |
| CleanFilenames.ExampleLastRows | includes/class-clean-filenames.php:173-217 | The rows after `(` and `)` turn the spaces into dashes and change nothing else. |
| CleanFilenames.TransliterateExample | includes/class-clean-filenames.php:97-221 | For any ASCII words, the table turns `w1äw2 w3 (w4)` into `w1aw2-w3-w4`. |
| CleanFilenames.CleanFilenameExample | tests/Integration/CleanFilenamesIntegrationTest.php:100-109 | With a `remove_accents` that leaves ASCII text alone, the stem `Säsongens Rapport (Final)` (of `Säsongens Rapport (Final).pdf`) is cleaned to `sasongens-rapport-final`. |
| CleanFilenames.LastIndexOf | includes/class-clean-filenames.php:64 | The index found holds the character, and no later position does; -1 when it is absent. |
| CleanFilenames.StripTrailingSlashes | includes/class-clean-filenames.php:64 | The result does not end with `/`. |
| CleanFilenames.Basename | includes/class-clean-filenames.php:64 | The basename holds no `/`. |
| CleanFilenames.PathStem | includes/class-clean-filenames.php:64-65 | The stem holds no `/`. |
| CleanFilenames.PathExtension | includes/class-clean-filenames.php:64-66 | An extension, when present, holds no `.` and no `/`. |
| CleanFilenames.PathInfoSplitsBasename | includes/class-clean-filenames.php:64-66 | The basename is stem, dot and extension when there is an extension, and the stem alone, without a dot, otherwise. |
| CleanFilenames.FallbackStemIsSlug | includes/class-clean-filenames.php:79-81 | `file-<time>` is a non-empty slug. |
| CleanFilenames.StemOrFallback | includes/class-clean-filenames.php:79-81 | The stem written is a non-empty slug, and the cleaned stem itself whenever that is not PHP-empty. |
| CleanFilenames.NonImagesUntouched | includes/class-clean-filenames.php:59-61 | In `images` mode a file whose MIME type is not one of the ten listed is returned completely unchanged. |
| CleanFilenames.EmptyStemUntouched | includes/class-clean-filenames.php:64-70 | A PHP-empty stem (`''` or `'0'`, as in `.pdf`) leaves the file unchanged. |
| CleanFilenames.CleanedUploadShape | includes/class-clean-filenames.php:76-86 | Otherwise only `name` changes: a non-empty slug stem (the cleaned stem, or `file-<time>`), a dot, and the lower-cased extension. |
| CleanFilenames.NoExtensionKeepsDot | includes/class-clean-filenames.php:66-84 | A name without a dot gets an empty extension after the dot: `report` becomes `report.`. |
| CleanFilenames.MediaLibrary.constructor | includes/class-clean-filenames.php:73 | The transient starts unset and no titles are stored. |
| CleanFilenames.CleanStem | includes/class-clean-filenames.php:76-81 | The method's stem is the cleaned stem, or the fallback when that is PHP-empty. |
| CleanFilenames.CleanFilenameOnUpload | includes/class-clean-filenames.php:53-87 | The returned upload is `CleanedUpload`, and the transient holds the raw stem exactly when the upload is cleaned. |
| CleanFilenames.Ucwords | includes/class-clean-filenames.php:252 | `ucwords` keeps the length and upper-cases exactly the characters that start a word. |
| CleanFilenames.DashesToSpaces | includes/class-clean-filenames.php:251 | Every `-` and `_` becomes a space and every other character stays. |
| CleanFilenames.DashesToSpacesIsStrReplace | includes/class-clean-filenames.php:251 | The character-wise replacement equals the two `str_replace` passes, `-` first. |
| CleanFilenames.ReplaceAllCharStep | includes/class-clean-filenames.php:251 | A one-character `str_replace` pass handles the first character, then the rest. |
| CleanFilenames.AttachmentTitle | includes/class-clean-filenames.php:251-252 | The title has the stem's length and holds no `-` or `_`. |
| CleanFilenames.AttachmentTitleCapitalises | includes/class-clean-filenames.php:251-252 | A letter that starts a word of the stem (at its start or after `-`, `_` or whitespace) is upper-cased; every other character but `-` and `_` is kept. |
| CleanFilenames.RestoreOriginalTitle | includes/class-clean-filenames.php:246-261 | A truthy transient becomes the attachment's title and is then deleted; otherwise nothing changes. |
| CleanFilenames.UploadHooks | includes/class-clean-filenames.php:40-44 | The two prefilters and the `add_attachment` action are registered exactly when `clean_filenames` is set. |
| CleanFilenames.RegisterUploadHooks | includes/class-clean-filenames.php:36-45 | The constructor appends exactly `UploadHooks` and removes nothing. |
| Hooks.Guard | includes/class-dashboard.php:41-43 | A guarded removal is made exactly when its setting is not empty. |
| Hooks.Gated | includes/class-updates.php:35-38 | A block guarded by `! empty` registers its whole list when the setting is set, and nothing otherwise. |
| Hooks.OnHookMembers | includes/class-updates.php:25-58 | Taking the registrations of one hook keeps exactly those on that hook. |
| Hooks.OnHookAppend | includes/class-updates.php:25-58 | Taking one hook's registrations works piecewise over consecutive blocks. |
| Hooks.Host.constructor | includes/class-updates.php:25 | The hook table and the removal log start empty. |
| Hooks.Host.Add | includes/class-updates.php:36 | `add_action` / `add_filter` appends one registration. |
| Hooks.Host.AddAll | includes/class-comments.php:31-102 | A run of registrations is appended in order. |
| Hooks.Host.AddGuarded | includes/class-updates.php:35-38 | A guarded block appends its registrations exactly when its setting is set. |
| Hooks.Host.RemoveGuarded | includes/class-dashboard.php:41-43 | A guarded removal is logged exactly when its setting is set. |
| Hooks.Host.Remove | includes/class-updates.php:107 | `remove_action` / `remove_filter` / `remove_meta_box` appends one removal. |

## Left out

- Rendering: the settings page, the admin components, the inline CSS and JavaScript the callbacks print, and `assets/js/admin.js`. These produce output and decide nothing.
- The callbacks that only act on the host are named, not modelled. This covers the Elementor, Yoast, comments and Site Health callbacks that redirect and `exit`, clear cron events, dequeue scripts, remove meta boxes or print CSS. Their registration, and its gating, is modelled.
- The HTML-comment strippers `remove_complianz_comments`, `filter_gtm4wp_comments` and `filter_woocommerce_comments`, and the output buffers around them (includes/class-plugin-notices.php:680-733). They are single PCRE replacements over page output.
- `includes/class-image-optimization.php`, `includes/class-login-logo.php`, `includes/class-frontend.php` and `includes/class-notices.php` are not part of this model. The first three are not loaded by the plugin's bootstrap (admin-clean-up.php:65-79). The last only prints CSS behind a flag.
- The GitHub update checker (network), `uninstall.php` (a single option delete) and the `get_instance` singleton are not part of this model.
- PHP arrays are maps, so insertion order is lost. Where a `foreach` visits keys (rewrite rules, REST routes), any order is taken; the result does not depend on it. Arrays of scalars read as lists (post types, notifications) are sequences.
- Strings are sequences of Unicode code points, not UTF-8 bytes. Every path through `clean_filename` ends in an ASCII-only filter, and the table's keys are whole characters, so nothing the model states depends on the encoding. Floats and PHP objects are not values of the model.
- The `add_action` / `add_filter` argument count (`accepted_args`) is not recorded. A registration is its hook, callback and priority.
- The two Elementor closures are named by the constants they return.
- `WP_Admin_Bar::remove_node` is modelled as removing the node with that id only. What the host does with that node's children is not modelled.
- Yoast's `remove_notification` is modelled as removing the entries equal to the given notification.
- `set_transient` expiry (60 seconds), `get_transient` after expiry and the `wp_update_post` call are reduced to the `MediaLibrary` fields they read and write.
- CleanFilenames.CleanFilenameOnUpload: the attachment titles staying unchanged is stated by the method's frame, which may change only the transient, and not by an `ensures`.
- PluginOptions.GetOptionsHasSections: states "every default key present" only for a section stored as an array or not stored. A section stored as a scalar replaces its nested defaults, because the argument wins when the two sides are not both arrays, so the promise does not hold there.
- Case mapping (`strtolower`, `strtoupper`, `ucwords`) is ASCII-only, as in PHP 8.2 and later or under the C locale. The locale-dependent mapping of earlier versions is not modelled.
- Dashboard.DashboardHooks: a `dashboard` section stored as something other than an array reads as "no setting on", so nothing is registered. That is PHP 7.4, the plugin's declared minimum (admin-clean-up.php:8): `array_filter` warns and returns `null`, and `empty( null )` is true. Under PHP 8 the same call throws a `TypeError` in the constructor (includes/class-dashboard.php:27-29); that error path is not modelled.
- CleanFilenames.CleanFilenameKeepsSlugs and CleanFilenames.CleanFilenameIdempotent: these assume the host's `remove_accents` returns ASCII text unchanged. Nothing else about `remove_accents` is assumed.
- The tests' own copies of the sanitiser and of the substitution table differ from the plugin's code: they add plugin keys, add a `frontend` tab and use a shorter table. The model follows includes/class-admin-page.php and includes/class-clean-filenames.php.
