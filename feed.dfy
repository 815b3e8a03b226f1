/**
 * The pure part of the activity feed (`GitHubActivityMonitor` in
 * app/static/script.js): how one log becomes one row of the feed.
 */
module Feed {
  import opened Wrappers
  import Text

  /** A log as the page receives it from `/api/logs`; timestamps already parsed. */
  datatype Log = Log(
    action: string,
    author: string,
    fromBranch: Option<string>,
    toBranch: string,
    timestamp: int)

  /** The three actions the page knows; any other string is `Other`. */
  datatype Action = Push | PullRequest | Merge | Other(name: string)

  /** The `switch (log.action)` of formatMessage and the keys of the icon table. */
  function Kind(action: string): (a: Action)
    ensures a == Push <==> action == "PUSH"
    ensures a == PullRequest <==> action == "PULL_REQUEST"
    ensures a == Merge <==> action == "MERGE"
  {
    if action == "PUSH" then Push
    else if action == "PULL_REQUEST" then PullRequest
    else if action == "MERGE" then Merge
    else Other(action)
  }

  const PushIcon: string := "\U{2B06}\U{FE0F}"   // up arrow
  const PullRequestIcon: string := "\U{1F504}"   // anticlockwise arrows
  const MergeIcon: string := "\U{1F500}"         // twisted arrows
  const DefaultIcon: string := "\U{1F4DD}"       // memo

  /**
   * `getActionIcon`: the glyph of a known action and the memo glyph for
   * every other string (the table's own keys only; see ## Findings).
   */
  function GetActionIcon(action: string): (icon: string)
    ensures action == "PUSH" ==> icon == PushIcon
    ensures action == "PULL_REQUEST" ==> icon == PullRequestIcon
    ensures action == "MERGE" ==> icon == MergeIcon
    ensures icon == DefaultIcon <==> Kind(action).Other?
  {
    match Kind(action)
    case Push => PushIcon
    case PullRequest => PullRequestIcon
    case Merge => MergeIcon
    case Other(_) => DefaultIcon
  }

  /** A JavaScript value the icon lookup can yield. */
  datatype JsValue = JsString(s: string) | JsFunction(name: string) | JsObject | Undefined

  /** The members every object literal inherits from `Object.prototype`. */
  const InheritedMembers: set<string> := {
    "constructor", "hasOwnProperty", "isPrototypeOf", "propertyIsEnumerable",
    "toLocaleString", "toString", "valueOf", "__defineGetter__",
    "__defineSetter__", "__lookupGetter__", "__lookupSetter__"}

  /**
   * `icons[action]` on the object literal of getActionIcon AS WRITTEN: an
   * own key gives its glyph, but an inherited name gives a function
   * (`__proto__` gives `Object.prototype`), and both are truthy.
   */
  function IconLookupAsWritten(action: string): (v: JsValue)
    ensures v.Undefined? <==>
      Kind(action).Other? && action !in InheritedMembers && action != "__proto__"
  {
    match Kind(action)
    case Push => JsString(PushIcon)
    case PullRequest => JsString(PullRequestIcon)
    case Merge => JsString(MergeIcon)
    case Other(name) =>
      if name in InheritedMembers then JsFunction(name)
      else if name == "__proto__" then JsObject
      else Undefined
  }

  /** JavaScript's `||` on the lookup: a truthy value is kept, else the memo glyph. */
  function IconAsWritten(action: string): JsValue {
    var v := IconLookupAsWritten(action);
    if v.Undefined? then JsString(DefaultIcon) else v
  }

  /**
   * The icon lookup as written does not give the memo glyph for an
   * unknown action named after an inherited member: "toString" yields the
   * function `toString` itself, which the row then prints as source text.
   */
  lemma InheritedNameIsNotAnIcon()
    ensures Kind("toString").Other?
    ensures IconAsWritten("toString") == JsFunction("toString")
    ensures IconAsWritten("toString") != JsString(GetActionIcon("toString"))
  {
    assert "toString" in InheritedMembers;
  }

  /**
   * The lookup as written agrees with getActionIcon's evident intent exactly
   * on the names that are not members of `Object.prototype`.
   */
  lemma IconAsWrittenAgrees(action: string)
    ensures IconAsWritten(action) == JsString(GetActionIcon(action)) <==>
      action !in InheritedMembers && action != "__proto__"
  {
    if action in InheritedMembers || action == "__proto__" {
      assert Kind(action).Other?;
    }
  }

  /** The icon's CSS class: `action.toLowerCase().replace("_", "-")`. */
  function ClassName(action: string): (c: string)
    ensures |c| == |action|
    ensures '_' !in action ==> c == Text.LowerCase(action)
    ensures '_' in action ==>
      c == Text.LowerCase(action)[Text.IndexOf(action, '_') := '-']
  {
    var lower := Text.LowerCase(action);
    LowerKeepsUnderscores(action);
    Text.ReplaceFirst(lower, '_', '-')
  }

  /** Lower-casing neither adds nor moves an underscore. */
  lemma LowerKeepsUnderscores(s: string)
    ensures ('_' in Text.LowerCase(s)) == ('_' in s)
    ensures '_' in s ==> Text.IndexOf(Text.LowerCase(s), '_') == Text.IndexOf(s, '_')
  {
    var l := Text.LowerCase(s);
    assert forall i :: 0 <= i < |s| ==> (l[i] == '_' <==> s[i] == '_');
    if '_' in s {
      var i := Text.IndexOf(s, '_');
      assert l[i] == '_';
    } else {
      assert forall i :: 0 <= i < |l| ==> l[i] != '_';
    }
  }

  /**
   * Only the first underscore becomes a hyphen: "PULL_REQUEST" gives
   * "pull-request", and any later underscore is left in the class name.
   */
  lemma {:induction false} ClassNameFirstUnderscoreOnly(action: string, j: nat)
    requires j < |action| && action[j] == '_'
    ensures ClassName(action)[j] == (if j == Text.IndexOf(action, '_') then '-' else '_')
  {
  }

  /**
   * For two words joined by `_` the class is both words lower-cased, joined
   * by `-`: "PULL_REQUEST" gives "pull-request".
   */
  lemma TwoWordClass(first: string, second: string)
    requires '_' !in first
    ensures ClassName(first + "_" + second) ==
      Text.LowerCase(first) + "-" + Text.LowerCase(second)
  {
    var a := first + "_" + second;
    FirstUnderscoreAt(a, |first|);
    LowerAround(first, second);
  }

  lemma FirstUnderscoreAt(a: string, i: nat)
    requires i < |a| && a[i] == '_'
    requires forall j :: 0 <= j < i ==> a[j] != '_'
    ensures ClassName(a) == Text.LowerCase(a)[i := '-']
  {
    assert Text.IndexOf(a, '_') == i;
  }

  lemma LowerAround(first: string, second: string)
    requires '_' !in first
    ensures var a := first + "_" + second;
      (forall j :: 0 <= j < |first| ==> a[j] != '_') &&
      Text.LowerCase(a)[|first| := '-'] == Text.LowerCase(first) + "-" + Text.LowerCase(second)
  {
    var a := first + "_" + second;
    var l := Text.LowerCase(a);
    var want := Text.LowerCase(first) + "-" + Text.LowerCase(second);
    forall k | 0 <= k < |a| && k != |first| ensures l[k] == want[k] {
      if k < |first| { assert a[k] == first[k]; } else { assert a[k] == second[k - |first| - 1]; }
    }
    assert forall j :: 0 <= j < |first| ==> a[j] == first[j];
  }

  /** The pull-request row's class: "PULL_REQUEST" gives "pull-request". */
  lemma PullRequestClass(action: string)
    requires action == "PULL_REQUEST"
    ensures ClassName(action) == "pull-request"
  {
    PullRequestWords(action);
    TwoWordClass("PULL", "REQUEST");
    PullRequestLowered();
  }

  lemma PullRequestWords(action: string)
    requires action == "PULL_REQUEST"
    ensures action == "PULL" + "_" + "REQUEST" && '_' !in "PULL"
  {
  }

  lemma PullRequestLowered()
    ensures Text.LowerCase("PULL") + "-" + Text.LowerCase("REQUEST") == "pull-request"
  {
    assert Text.LowerCase("PULL") == "pull";
    assert Text.LowerCase("REQUEST") == "request";
  }

  const AuthorOpen: string := "<span class=\"activity-author\">"
  const BranchOpen: string := "<span class=\"activity-branch\">"
  const SpanClose: string := "</span>"

  function AuthorSpan(author: string): string {
    AuthorOpen + author + SpanClose
  }

  function BranchSpan(branch: string): string {
    BranchOpen + branch + SpanClose
  }

  /** The source branch as printed: empty when `from_branch` is absent or "". */
  function FromBranchSpan(fromBranch: Option<string>): (s: string)
    ensures s == "" <==> fromBranch.None? || fromBranch.value == ""
    ensures fromBranch.Some? && fromBranch.value != "" ==> s == BranchSpan(fromBranch.value)
  {
    match fromBranch
    case Some(b) => if b != "" then BranchSpan(b) else ""
    case None => ""
  }

  /** `formatMessage`: the template of the log's action, with spans substituted. */
  function FormatMessage(log: Log): (m: string)
    ensures Kind(log.action) == Push ==>
      m == AuthorSpan(log.author) + " pushed to " + BranchSpan(log.toBranch)
    ensures Kind(log.action) == PullRequest ==>
      m == AuthorSpan(log.author) + " submitted a pull request from " +
        FromBranchSpan(log.fromBranch) + " to " + BranchSpan(log.toBranch)
    ensures Kind(log.action) == Merge ==>
      m == AuthorSpan(log.author) + " merged branch " +
        FromBranchSpan(log.fromBranch) + " to " + BranchSpan(log.toBranch)
    ensures Kind(log.action).Other? ==>
      m == AuthorSpan(log.author) + " performed " + log.action + " on " + BranchSpan(log.toBranch)
  {
    var author := AuthorSpan(log.author);
    var from := FromBranchSpan(log.fromBranch);
    var to := BranchSpan(log.toBranch);
    match Kind(log.action)
    case Push => author + " pushed to " + to
    case PullRequest => author + " submitted a pull request from " + from + " to " + to
    case Merge => author + " merged branch " + from + " to " + to
    case Other(_) => author + " performed " + log.action + " on " + to
  }

  /**
   * Every message opens with the author and closes with the target branch,
   * whatever the action and whether or not `from_branch` is present.
   */
  lemma MessageFrame(log: Log)
    ensures var m := FormatMessage(log);
      var a := AuthorSpan(log.author);
      var t := BranchSpan(log.toBranch);
      |a| + |t| <= |m| && m[..|a|] == a && m[|m| - |t|..] == t
  {
  }

  /** One row of the feed: the icon's class, the icon, the message, the time. */
  datatype Item = Item(iconClass: string, icon: string, message: string, timestamp: int)

  /** `createActivityItem` without its markup: the four things a row shows. */
  function CreateActivityItem(log: Log): (item: Item)
    ensures item.iconClass == "activity-icon " + ClassName(log.action)
    ensures item.icon == GetActionIcon(log.action)
    ensures item.message == FormatMessage(log)
    ensures item.timestamp == log.timestamp
    ensures log.action == "PULL_REQUEST" ==> item.iconClass == "activity-icon pull-request"
    ensures item.icon == DefaultIcon <==> Kind(log.action).Other?
    ensures var a := AuthorSpan(log.author);
      var t := BranchSpan(log.toBranch);
      var m := item.message;
      |a| + |t| <= |m| && m[..|a|] == a && m[|m| - |t|..] == t
  {
    MessageFrame(log);
    PullRequestIconClass(log.action);
    Item("activity-icon " + ClassName(log.action), GetActionIcon(log.action),
      FormatMessage(log), log.timestamp)
  }

  /** The pull-request row's icon class. */
  lemma PullRequestIconClass(action: string)
    ensures action == "PULL_REQUEST" ==>
      "activity-icon " + ClassName(action) == "activity-icon pull-request"
  {
    if action == "PULL_REQUEST" {
      PullRequestClass(action);
    }
  }

  /** The rows for a list of logs, one per log, in the same order. */
  function Items(logs: seq<Log>): (items: seq<Item>)
    ensures |items| == |logs|
    ensures forall k :: 0 <= k < |logs| ==> items[k] == CreateActivityItem(logs[k])
  {
    seq(|logs|, k requires 0 <= k < |logs| => CreateActivityItem(logs[k]))
  }

  /** Newest first: timestamps never increase along the list. */
  ghost predicate NewestFirst(logs: seq<Log>) {
    forall i, j :: 0 <= i < j < |logs| ==> logs[i].timestamp >= logs[j].timestamp
  }
}
