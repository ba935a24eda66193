/**
 * The comments component. When `disable_comments` is set it hooks a fixed
 * list of callbacks; the ones modelled here are the array filters, each of
 * which takes an array from the host and hands it back with some keys
 * unset. PHP arrays are values, so each filter is a function from the
 * array it receives to the array it returns.
 */
module Comments {
  import opened Php
  import opened Hooks

  /* ---------------------------------------------------------------------- */
  /* The gate                                                                 */
  /* ---------------------------------------------------------------------- */

  /** What `disable_comments()` registers, in its own order. */
  function DisableCommentsHooks(): seq<Registration> {
    [ OnAction("admin_init", "disable_comments_post_types_support"),
      FilterAt("comments_open", "__return_false", 20),
      FilterAt("pings_open", "__return_false", 20),
      OnFilter("comments_array", "__return_empty_array"),
      OnFilter("get_comments_number", "__return_zero"),
      OnAction("admin_menu", "remove_comments_admin_menu"),
      OnAction("wp_before_admin_bar_render", "remove_comments_admin_bar"),
      OnFilter("feed_links_show_comments_feed", "__return_false"),
      OnAction("template_redirect", "disable_comment_feeds"),
      OnFilter("wp_headers", "remove_pingback_header"),
      OnFilter("xmlrpc_methods", "disable_xmlrpc_comments"),
      OnAction("admin_init", "redirect_comments_admin_pages"),
      OnAction("admin_init", "remove_dashboard_comments_metabox"),
      OnAction("admin_init", "remove_recent_comments_widget"),
      OnFilter("manage_posts_columns", "remove_comments_column"),
      OnFilter("manage_pages_columns", "remove_comments_column"),
      OnAction("admin_menu", "remove_discussion_meta_box"),
      ActionAt("admin_menu", "remove_discussion_menu", 999),
      OnFilter("rest_endpoints", "disable_comments_rest_api"),
      OnAction("wp_enqueue_scripts", "remove_comment_reply_script"),
      OnAction("admin_head", "hide_quick_edit_comments"),
      OnAction("enqueue_block_editor_assets", "disable_gutenberg_discussion_panel"),
      OnFilter("comments_template", "disable_comments_template"),
      OnFilter("rewrite_rules_array", "remove_comment_rewrite_rules"),
      ActionAt("admin_bar_menu", "remove_comments_from_new_menu", 999) ]
  }

  /** Everything the constructor registers. */
  function CommentHooks(options: map<Key, Value>): (r: seq<Registration>)
    ensures r != [] <==> Flag(Section(options, "comments"), "disable_comments")
    ensures r != [] ==> |r| == 25
  {
    if Flag(Section(options, "comments"), "disable_comments") then DisableCommentsHooks() else []
  }

  /** The constructor. */
  method RegisterCommentHooks(host: Host, options: map<Key, Value>)
    modifies host
    ensures host.registrations == old(host.registrations) + CommentHooks(options)
    ensures host.removals == old(host.removals)
  {
    if !Empty(Get(Section(options, "comments"), "disable_comments")) {
      host.AddAll(DisableCommentsHooks());
    }
  }

  /* ---------------------------------------------------------------------- */
  /* The array filters                                                        */
  /* ---------------------------------------------------------------------- */

  /** `remove_pingback_header`: unsets `X-Pingback`. */
  function RemovePingbackHeader(headers: map<Key, Value>): map<Key, Value> {
    Unset(headers, StrKey("X-Pingback"))
  }

  /** `remove_comments_column`: unsets `comments`. */
  function RemoveCommentsColumn(columns: map<Key, Value>): map<Key, Value> {
    Unset(columns, StrKey("comments"))
  }

  /** Unsetting a key twice is unsetting it once. */
  lemma UnsetTwiceIsOnce(headers: map<Key, Value>, columns: map<Key, Value>)
    ensures RemovePingbackHeader(RemovePingbackHeader(headers)) == RemovePingbackHeader(headers)
    ensures RemoveCommentsColumn(RemoveCommentsColumn(columns)) == RemoveCommentsColumn(columns)
  {
    UnsetIdempotent(headers, StrKey("X-Pingback"));
    UnsetIdempotent(columns, StrKey("comments"));
  }

  /** The nine XML-RPC methods `disable_xmlrpc_comments` unsets. */
  function XmlrpcCommentMethods(): set<Key> {
    { StrKey("pingback.ping"), StrKey("pingback.extensions.getPingbacks"),
      StrKey("wp.getCommentCount"), StrKey("wp.getComment"), StrKey("wp.getComments"),
      StrKey("wp.newComment"), StrKey("wp.editComment"), StrKey("wp.deleteComment"),
      StrKey("wp.getCommentStatusList") }
  }

  /** `disable_xmlrpc_comments`. */
  function DisableXmlrpcComments(methods: map<Key, Value>): (r: map<Key, Value>)
    ensures forall k :: k in r <==> k in methods && k !in XmlrpcCommentMethods()
    ensures forall k :: k in r ==> r[k] == methods[k]
  {
    methods - XmlrpcCommentMethods()
  }

  /** The list names nine different methods. */
  lemma XmlrpcListHasNine()
    ensures |XmlrpcCommentMethods()| == 9
  {
  }

  const CommentsRoute := "/wp/v2/comments"
  const CommentRoute := "/wp/v2/comments/(?P<id>[\\d]+)"

  /** `if ( isset( $endpoints[ route ] ) ) unset( $endpoints[ route ] );` */
  function UnsetIfSet(endpoints: map<Key, Value>, route: string): map<Key, Value> {
    if StrKey(route) in endpoints && endpoints[StrKey(route)] != Null then endpoints - {StrKey(route)} else endpoints
  }

  /** `disable_comments_rest_api`. */
  function DisableCommentsRestApi(endpoints: map<Key, Value>): map<Key, Value> {
    UnsetIfSet(UnsetIfSet(endpoints, CommentsRoute), CommentRoute)
  }

  /**
   * Only the two comment routes go, and only when set: every other route
   * keeps its handlers, and a comment route whose entry is `null` stays,
   * since `isset` reports it unset.
   */
  lemma RestApiRemovesOnlyCommentRoutes(endpoints: map<Key, Value>, k: Key)
    ensures k in DisableCommentsRestApi(endpoints)
      <==> k in endpoints && !((k == StrKey(CommentsRoute) || k == StrKey(CommentRoute)) && endpoints[k] != Null)
    ensures k in DisableCommentsRestApi(endpoints) ==> DisableCommentsRestApi(endpoints)[k] == endpoints[k]
  {
  }

  /** Whether `preg_match( '/comment|trackback|pingback/i', $rule )` matches: an ASCII case-insensitive search. Integer keys have no letters. */
  predicate MentionsComments(rule: Key) {
    rule.StrKey? &&
      var s := LowerAscii(rule.s);
      Contains(s, "comment") || Contains(s, "trackback") || Contains(s, "pingback")
  }

  /** The rules left once every rule mentioning comments, trackbacks or pingbacks is gone. */
  function WithoutCommentRules(rules: map<Key, Value>): map<Key, Value> {
    map k | k in rules && !MentionsComments(k) :: rules[k]
  }

  /**
   * `remove_comment_rewrite_rules`: the `foreach` visits every rule of the
   * array it was given and unsets the matching ones. The order of visit
   * does not matter, so any order is taken here.
   */
  method RemoveCommentRewriteRules(rules: map<Key, Value>) returns (result: map<Key, Value>)
    ensures result == WithoutCommentRules(rules)
  {
    result := rules;
    var remaining := rules.Keys;
    while remaining != {}
      invariant remaining <= rules.Keys
      invariant result.Keys <= rules.Keys
      invariant forall k :: k in result ==> result[k] == rules[k]
      invariant forall k :: k in rules ==> (k in result <==> k in remaining || !MentionsComments(k))
      decreases remaining
    {
      var rule :| rule in remaining;
      if MentionsComments(rule) {
        result := result - {rule};
      }
      remaining := remaining - {rule};
    }
    assert result.Keys == WithoutCommentRules(rules).Keys;
  }

  /** Matching rules go; every other rule keeps its key and rewrite target. */
  lemma CommentRulesGone(rules: map<Key, Value>, k: Key)
    ensures k in WithoutCommentRules(rules) <==> k in rules && !MentionsComments(k)
    ensures k in WithoutCommentRules(rules) ==> WithoutCommentRules(rules)[k] == rules[k]
  {
  }

  /** The match ignores ASCII case: `TRACKBACK/?$` goes like `trackback/?$`. */
  lemma RuleMatchIgnoresCase(s: string)
    ensures MentionsComments(StrKey(UpperAscii(s))) <==> MentionsComments(StrKey(s))
  {
    LowerAsciiOfUpper(s);
  }

  /** Filtering the rules a second time removes nothing more. */
  lemma RewriteRulesIdempotent(rules: map<Key, Value>)
    ensures WithoutCommentRules(WithoutCommentRules(rules)) == WithoutCommentRules(rules)
  {
    var r := WithoutCommentRules(rules);
    assert WithoutCommentRules(r).Keys == r.Keys;
  }
}
