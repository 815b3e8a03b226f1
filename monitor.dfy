/**
 * The browser-side controller of the activity feed: `GitHubActivityMonitor`.
 * The page regions it writes (the feed, the empty-state panel, the status
 * dot and its caption, the "last updated" caption) are fields of the class;
 * the fetch of `/api/logs` is a parameter of `FetchLogs` (its outcome), and
 * the browser's interval timers are a small host object.
 */
module Monitor {
  import opened Wrappers
  import opened Feed

  /** The browser's interval timers: `setInterval` and `clearInterval`. */
  class Timers {
    var active: set<nat>
    var next: nat

    ghost predicate Valid()
      reads this
    {
      next >= 1 && forall id :: id in active ==> 1 <= id < next
    }

    constructor ()
      ensures Valid() && active == {}
    {
      active := {};
      next := 1;
    }

    /** A new, positive handle, distinct from every active one. */
    method SetInterval() returns (id: nat)
      requires Valid()
      modifies this
      ensures Valid()
      ensures id >= 1 && id !in old(active)
      ensures active == old(active) + {id}
    {
      id := next;
      active := active + {id};
      next := next + 1;
    }

    method ClearInterval(id: nat)
      requires Valid()
      modifies this
      ensures Valid()
      ensures active == old(active) - {id}
      ensures next == old(next)
    {
      active := active - {id};
    }
  }

  /** The status dot's modifier class. */
  datatype Status = Connecting | Connected | Error

  function StatusName(s: Status): (name: string)
    ensures s == Connecting <==> name == "connecting"
    ensures s == Connected <==> name == "connected"
    ensures s == Error <==> name == "error"
  {
    match s
    case Connecting => "connecting"
    case Connected => "connected"
    case Error => "error"
  }

  /** What the feed region holds: the page's own markup, rows, or the error placeholder. */
  datatype Content = PageMarkup | Rows(items: seq<Item>) | ErrorPlaceholder

  /**
   * The parsed body of a successful response: a falsy JSON value (`null`,
   * `false`, `0`, `""`), a list of logs, or any other truthy value.
   */
  datatype Body = Falsy | List(logs: array<Log>) | NotAList

  /** How one fetch ends: it failed (network, non-ok status, bad JSON) or a body arrived. */
  datatype Outcome = Failed | Received(body: Body)

  /** The array a fetch may reorder, if any. */
  function ArraysOf(o: Outcome): (s: set<array<Log>>)
    ensures s == {} <==> !(o.Received? && o.body.List?)
  {
    if o.Received? && o.body.List? then {o.body.logs} else {}
  }

  /* ---------- The display state machine, abstracted ---------- */

  /** What the feed region shows, abstracted from its rows. */
  datatype Screen = Initial | Listing | Blank | Banner

  /** The observable state a fetch changes. */
  datatype Display = Display(firstLoad: bool, status: Status, screen: Screen, emptyShown: bool)

  /** The shape of a fetch's outcome, which is all the state machine looks at. */
  datatype Shape = Failure | Nothing | Entries | Unsortable

  function ShapeOf(o: Outcome): (s: Shape)
    ensures s == Failure <==> o.Failed?
    ensures s == Unsortable <==> o == Received(NotAList)
    ensures s == Entries <==> o.Received? && o.body.List? && o.body.logs.Length > 0
  {
    match o
    case Failed => Failure
    case Received(Falsy) => Nothing
    case Received(List(a)) => if a.Length == 0 then Nothing else Entries
    case Received(NotAList) => Unsortable
  }

  /**
   * One fetch. A failure shows the error placeholder only while no response
   * has reached `displayLogs`; an empty response shows the empty state; a
   * list shows its rows; a truthy non-list clears the first-load flag and
   * then fails while sorting, so it ends in `error` without touching the feed.
   */
  function Step(v: Display, s: Shape): (w: Display)
    ensures w.firstLoad <==> v.firstLoad && s == Failure
    ensures w.status == Error <==> NoListing(s)
    ensures w.screen == Banner <==> (s == Failure && v.firstLoad) || (NoListing(s) && v.screen == Banner)
    ensures NoListing(s) ==> w.emptyShown == v.emptyShown
    ensures w.emptyShown <==> s == Nothing || (NoListing(s) && v.emptyShown)
  {
    match s
    case Failure => v.(status := Error, screen := if v.firstLoad then Banner else v.screen)
    case Nothing => Display(false, Connected, Blank, true)
    case Entries => Display(false, Connected, Listing, false)
    case Unsortable => v.(firstLoad := false, status := Error)
  }

  /** A run of fetches, oldest first. */
  function Run(v: Display, shapes: seq<Shape>): Display
    decreases |shapes|
  {
    if shapes == [] then v else Run(Step(v, shapes[0]), shapes[1..])
  }

  /** The first-load flag survives a run exactly when every fetch of it failed. */
  lemma {:induction false} FirstLoadSurvives(v: Display, shapes: seq<Shape>)
    ensures Run(v, shapes).firstLoad <==>
      v.firstLoad && forall k :: 0 <= k < |shapes| ==> shapes[k] == Failure
    decreases |shapes|
  {
    if shapes != [] {
      FirstLoadSurvives(Step(v, shapes[0]), shapes[1..]);
      assert forall k :: 1 <= k < |shapes| ==> shapes[k] == shapes[1..][k - 1];
    }
  }

  /** Once a response has been displayed, no later failure brings the placeholder up. */
  lemma {:induction false} NoBannerAfterFirstResponse(v: Display, shapes: seq<Shape>)
    requires !v.firstLoad && v.screen != Banner
    ensures Run(v, shapes).screen != Banner
    decreases |shapes|
  {
    if shapes != [] {
      NoBannerAfterFirstResponse(Step(v, shapes[0]), shapes[1..]);
    }
  }

  /** A failure-or-unsortable outcome. */
  predicate NoListing(s: Shape) {
    s == Failure || s == Unsortable
  }

  /**
   * From a fresh page, the placeholder is up after a run exactly when the
   * first fetch failed and no later fetch displayed anything.
   */
  lemma {:induction false} BannerExactly(v: Display, shapes: seq<Shape>)
    requires v.firstLoad && v.screen != Banner
    ensures Run(v, shapes).screen == Banner <==>
      |shapes| > 0 && shapes[0] == Failure &&
      forall k :: 0 <= k < |shapes| ==> NoListing(shapes[k])
    decreases |shapes|
  {
    if shapes != [] {
      var w := Step(v, shapes[0]);
      assert forall k :: 1 <= k < |shapes| ==> shapes[k] == shapes[1..][k - 1];
      match shapes[0]
      case Failure =>
        BannerKept(w, shapes[1..]);
      case Unsortable =>
        NoBannerAfterFirstResponse(w, shapes[1..]);
      case Nothing =>
        NoBannerAfterFirstResponse(w, shapes[1..]);
      case Entries =>
        NoBannerAfterFirstResponse(w, shapes[1..]);
    }
  }

  /** With the placeholder up, it stays up exactly while nothing is displayed. */
  lemma {:induction false} BannerKept(v: Display, shapes: seq<Shape>)
    requires v.screen == Banner
    ensures Run(v, shapes).screen == Banner <==>
      forall k :: 0 <= k < |shapes| ==> NoListing(shapes[k])
    decreases |shapes|
  {
    if shapes != [] {
      var w := Step(v, shapes[0]);
      assert forall k :: 1 <= k < |shapes| ==> shapes[k] == shapes[1..][k - 1];
      if NoListing(shapes[0]) {
        BannerKept(w, shapes[1..]);
      } else {
        NoBannerAfterFirstResponse(w, shapes[1..]);
      }
    }
  }

  /** The status a fetch of this shape ends in. */
  function FinalStatus(s: Shape): Status {
    if NoListing(s) then Error else Connected
  }

  /** After a non-empty run the status dot shows how the last fetch ended. */
  lemma {:induction false} StatusOfLastFetch(v: Display, shapes: seq<Shape>)
    requires |shapes| > 0
    ensures Run(v, shapes).status == FinalStatus(shapes[|shapes| - 1])
    decreases |shapes|
  {
    if |shapes| == 1 {
      assert Run(Step(v, shapes[0]), []) == Step(v, shapes[0]);
    } else {
      StatusOfLastFetch(Step(v, shapes[0]), shapes[1..]);
      assert shapes[1..][|shapes[1..]| - 1] == shapes[|shapes| - 1];
    }
  }

  /* ---------- The controller ---------- */

  /** An event in the order the page sees them; kept only for the proofs. */
  datatype Event = StatusSet(Status) | Rendered

  class GitHubActivityMonitor {
    var feed: Content
    var emptyStateShown: bool
    var status: Status
    var statusText: string
    /** The status dot's `className`. */
    var dotClass: string
    var lastUpdated: string
    var isFirstLoad: bool
    var pollInterval: Option<nat>
    const timers: Timers
    ghost var history: seq<Event>

    ghost predicate Valid()
      reads this, timers
    {
      timers.Valid() && (pollInterval.Some? ==> pollInterval.value >= 1)
    }

    function ScreenOf(c: Content): Screen {
      match c
      case PageMarkup => Initial
      case Rows(items) => if items == [] then Blank else Listing
      case ErrorPlaceholder => Banner
    }

    /** The part of the state the display state machine describes. */
    function View(): Display
      reads this
    {
      Display(isFirstLoad, status, ScreenOf(feed), emptyStateShown)
    }

    /**
     * Builds the controller over the page's regions and starts polling: the
     * first fetch (whose outcome is `first`) and the 15-second interval.
     */
    constructor (timers: Timers, emptyStateShown: bool, first: Outcome, now: string)
      requires timers.Valid()
      modifies timers, ArraysOf(first)
      ensures Valid() && this.timers == timers
      ensures View() == Step(Display(true, Connecting, Initial, emptyStateShown), ShapeOf(first))
      ensures status == Connected ==> history == [StatusSet(Connecting), Rendered, StatusSet(Connected)]
      ensures status == Error ==> history == [StatusSet(Connecting), StatusSet(Error)]
      ensures statusText == (if status == Connected then "Connected" else "Connection error")
      ensures dotClass == "status-dot " + StatusName(status)
      ensures lastUpdated == (if status == Connected then now else "")
      ensures first.Received? && first.body.List? && first.body.logs.Length > 0 ==>
        && NewestFirst(first.body.logs[..])
        && multiset(first.body.logs[..]) == multiset(old(first.body.logs[..]))
        && feed == Rows(Items(first.body.logs[..]))
      ensures first.Received? && (first.body == Falsy || (first.body.List? && first.body.logs.Length == 0)) ==>
        feed == Rows([])
      ensures first.Failed? ==> feed == ErrorPlaceholder
      ensures first == Received(NotAList) ==>
        feed == PageMarkup && this.emptyStateShown == emptyStateShown
      ensures pollInterval.Some? && pollInterval.value !in old(timers.active)
      ensures timers.active == old(timers.active) + {pollInterval.value}
    {
      this.timers := timers;
      feed := PageMarkup;
      this.emptyStateShown := emptyStateShown;
      status := Connecting;
      statusText := "";
      dotClass := "";
      lastUpdated := "";
      isFirstLoad := true;
      pollInterval := None;
      history := [];
      new;
      StartPolling(first, now);
    }

    method StartPolling(first: Outcome, now: string)
      requires Valid() && history == []
      modifies this, timers, ArraysOf(first)
      ensures Valid()
      ensures View() == Step(old(View()), ShapeOf(first))
      ensures status == Connected ==> history == [StatusSet(Connecting), Rendered, StatusSet(Connected)]
      ensures status == Error ==> history == [StatusSet(Connecting), StatusSet(Error)]
      ensures statusText == (if status == Connected then "Connected" else "Connection error")
      ensures dotClass == "status-dot " + StatusName(status)
      ensures lastUpdated == (if status == Connected then now else old(lastUpdated))
      ensures first.Received? && first.body.List? && first.body.logs.Length > 0 ==>
        && NewestFirst(first.body.logs[..])
        && multiset(first.body.logs[..]) == multiset(old(first.body.logs[..]))
        && feed == Rows(Items(first.body.logs[..]))
      ensures first.Received? && (first.body == Falsy || (first.body.List? && first.body.logs.Length == 0)) ==>
        feed == Rows([])
      ensures first.Failed? && old(isFirstLoad) ==> feed == ErrorPlaceholder
      ensures (first.Failed? && !old(isFirstLoad)) || first == Received(NotAList) ==>
        feed == old(feed) && emptyStateShown == old(emptyStateShown)
      ensures pollInterval.Some? && pollInterval.value !in old(timers.active)
      ensures timers.active == old(timers.active) + {pollInterval.value}
    {
      FetchLogs(first, now);
      var id := timers.SetInterval();
      pollInterval := Some(id);
    }

    /** `updateStatus`: the dot's class and its caption. */
    method UpdateStatus(s: Status, text: string)
      modifies this
      ensures status == s && statusText == text
      ensures dotClass == "status-dot " + StatusName(s)
      ensures history == old(history) + [StatusSet(s)]
      ensures feed == old(feed) && emptyStateShown == old(emptyStateShown)
      ensures isFirstLoad == old(isFirstLoad) && lastUpdated == old(lastUpdated)
      ensures pollInterval == old(pollInterval)
    {
      status := s;
      dotClass := "status-dot " + StatusName(s);
      statusText := text;
      history := history + [StatusSet(s)];
    }

    /** `showEmptyState`: the feed is cleared and the empty-state panel shown. */
    method ShowEmptyState()
      modifies this
      ensures feed == Rows([]) && emptyStateShown
      ensures status == old(status) && statusText == old(statusText) && dotClass == old(dotClass)
      ensures isFirstLoad == old(isFirstLoad) && lastUpdated == old(lastUpdated)
      ensures pollInterval == old(pollInterval) && history == old(history)
    {
      feed := Rows([]);
      emptyStateShown := true;
    }

    /** `showError`: the feed shows the placeholder; the empty-state panel is left as it is. */
    method ShowError()
      modifies this
      ensures feed == ErrorPlaceholder
      ensures emptyStateShown == old(emptyStateShown)
      ensures status == old(status) && statusText == old(statusText) && dotClass == old(dotClass)
      ensures isFirstLoad == old(isFirstLoad) && lastUpdated == old(lastUpdated)
      ensures pollInterval == old(pollInterval) && history == old(history)
    {
      feed := ErrorPlaceholder;
    }

    /**
     * `displayLogs`. Clears the first-load flag, then: a falsy or empty body
     * shows the empty state; a list is sorted newest first in place and
     * shown as one row per log, in that order; any other body throws (`thrown`)
     * when it is sorted, after the flag was cleared and before the feed changed.
     */
    method DisplayLogs(body: Body) returns (thrown: bool)
      modifies this, ArraysOf(Received(body))
      ensures !isFirstLoad
      ensures thrown <==> body == NotAList
      ensures body == NotAList ==> feed == old(feed) && emptyStateShown == old(emptyStateShown)
      ensures (body == Falsy || (body.List? && body.logs.Length == 0)) ==>
        feed == Rows([]) && emptyStateShown
      ensures body.List? && body.logs.Length > 0 ==>
        && NewestFirst(body.logs[..])
        && multiset(body.logs[..]) == multiset(old(body.logs[..]))
        && feed == Rows(Items(body.logs[..]))
        && !emptyStateShown
      ensures status == old(status) && statusText == old(statusText) && dotClass == old(dotClass)
      ensures lastUpdated == old(lastUpdated) && pollInterval == old(pollInterval)
      ensures history == old(history) + (if thrown then [] else [Rendered])
    {
      isFirstLoad := false;
      thrown := false;
      match body {
        case Falsy =>
          ShowEmptyState();
        case NotAList =>
          thrown := true;
        case List(a) =>
          if a.Length == 0 {
            ShowEmptyState();
          } else {
            SortNewestFirst(a);
            ShowRows(a);
          }
      }
      if !thrown {
        history := history + [Rendered];
      }
    }

    /** The feed cleared, the empty state hidden, and one row appended per log, in order. */
    method ShowRows(a: array<Log>)
      modifies this
      ensures feed == Rows(Items(a[..])) && !emptyStateShown
      ensures isFirstLoad == old(isFirstLoad) && status == old(status) && statusText == old(statusText) && dotClass == old(dotClass)
      ensures lastUpdated == old(lastUpdated) && pollInterval == old(pollInterval)
      ensures history == old(history)
    {
      feed := Rows([]);
      emptyStateShown := false;
      var i := 0;
      while i < a.Length
        invariant 0 <= i <= a.Length
        invariant feed == Rows(Items(a[..i])) && !emptyStateShown
        invariant isFirstLoad == old(isFirstLoad) && status == old(status) && statusText == old(statusText) && dotClass == old(dotClass)
        invariant lastUpdated == old(lastUpdated) && pollInterval == old(pollInterval)
        invariant history == old(history)
      {
        assert a[..i + 1] == a[..i] + [a[i]];
        ItemsAppend(a[..i], a[i]);
        feed := Rows(feed.items + [CreateActivityItem(a[i])]);
        i := i + 1;
      }
      assert a[..i] == a[..];
    }

    /**
     * `fetchLogs`: the status goes to `connecting` first; a displayed
     * response then sets `connected` and stamps `lastUpdated` with `now`;
     * a failed fetch or a throwing display sets `error`, and shows the
     * placeholder only while the first-load flag is still set.
     */
    method FetchLogs(outcome: Outcome, now: string)
      modifies this, ArraysOf(outcome)
      ensures View() == Step(old(View()), ShapeOf(outcome))
      ensures status == Connected ==>
        history == old(history) + [StatusSet(Connecting), Rendered, StatusSet(Connected)]
      ensures status == Error ==>
        history == old(history) + [StatusSet(Connecting), StatusSet(Error)]
      ensures statusText == (if status == Connected then "Connected" else "Connection error")
      ensures dotClass == "status-dot " + StatusName(status)
      ensures lastUpdated == (if status == Connected then now else old(lastUpdated))
      ensures outcome.Received? && outcome.body.List? && outcome.body.logs.Length > 0 ==>
        && NewestFirst(outcome.body.logs[..])
        && multiset(outcome.body.logs[..]) == multiset(old(outcome.body.logs[..]))
        && feed == Rows(Items(outcome.body.logs[..]))
      ensures outcome.Received? && (outcome.body == Falsy || (outcome.body.List? && outcome.body.logs.Length == 0)) ==>
        feed == Rows([])
      ensures outcome.Failed? && old(isFirstLoad) ==> feed == ErrorPlaceholder
      ensures (outcome.Failed? && !old(isFirstLoad)) || outcome == Received(NotAList) ==>
        feed == old(feed) && emptyStateShown == old(emptyStateShown)
      ensures pollInterval == old(pollInterval)
    {
      UpdateStatus(Connecting, "Fetching updates...");
      var failed := true;
      if outcome.Received? {
        var thrown := DisplayLogs(outcome.body);
        if !thrown {
          failed := false;
          UpdateStatus(Connected, "Connected");
          lastUpdated := now;
        }
      }
      if failed {
        UpdateStatus(Error, "Connection error");
        if isFirstLoad {
          ShowError();
        }
      }
    }

    /** `destroy`: stops the poll if one was started; the handle itself is kept. */
    method Destroy()
      requires Valid()
      modifies timers
      ensures Valid()
      ensures pollInterval.Some? ==> timers.active == old(timers.active) - {pollInterval.value}
      ensures pollInterval.None? ==> timers.active == old(timers.active)
    {
      if pollInterval.Some? {
        timers.ClearInterval(pollInterval.value);
      }
    }
  }

  /** Appending a log appends its row. */
  lemma ItemsAppend(logs: seq<Log>, log: Log)
    ensures Items(logs + [log]) == Items(logs) + [CreateActivityItem(log)]
  {
  }

  /**
   * The in-place sort of `displayLogs` (comparator `b.timestamp - a.timestamp`):
   * afterwards timestamps never increase, and the array holds the same logs.
   */
  method SortNewestFirst(a: array<Log>)
    modifies a
    ensures NewestFirst(a[..])
    ensures multiset(a[..]) == multiset(old(a[..]))
  {
    var i := 0;
    while i < a.Length
      invariant 0 <= i <= a.Length
      invariant NewestFirst(a[..i])
      invariant multiset(a[..]) == multiset(old(a[..]))
    {
      Insert(a, i);
      i := i + 1;
    }
    assert a[..i] == a[..];
  }

  /** Moves `a[i]` left past every older log, so that `a[..i + 1]` is newest first. */
  method Insert(a: array<Log>, i: nat)
    requires i < a.Length && NewestFirst(a[..i])
    modifies a
    ensures NewestFirst(a[..i + 1])
    ensures multiset(a[..]) == multiset(old(a[..]))
  {
    var j := i;
    while j > 0 && a[j - 1].timestamp < a[j].timestamp
      invariant 0 <= j <= i
      invariant NewestFirstBut(a[..i + 1], j)
      invariant multiset(a[..]) == multiset(old(a[..]))
    {
      Swap(a, j - 1, j);
      j := j - 1;
    }
  }

  /** Newest first, except that the log at `j` may be newer than those before it. */
  ghost predicate NewestFirstBut(logs: seq<Log>, j: nat) {
    forall p, q :: 0 <= p < q < |logs| && q != j ==> logs[p].timestamp >= logs[q].timestamp
  }

  method Swap(a: array<Log>, i: nat, j: nat)
    requires i < j < a.Length
    modifies a
    ensures a[..] == old(a[..])[i := old(a[j])][j := old(a[i])]
    ensures multiset(a[..]) == multiset(old(a[..]))
  {
    a[i], a[j] := a[j], a[i];
  }
}
