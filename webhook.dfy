/**
 * The GitHub webhook receiver: `POST /webhook/receiver` turns a push, an
 * opened pull request or a merged pull request into one stored entry.
 */
module Webhook {
  import opened Wrappers
  import opened Json
  import Text
  import Store

  /** The `ActionType` enum: the value stored in an entry's `action` field. */
  datatype ActionType = Push | PullRequest | Merge

  function ActionValue(a: ActionType): (s: string)
    ensures a == Push <==> s == "PUSH"
    ensures a == PullRequest <==> s == "PULL_REQUEST"
    ensures a == Merge <==> s == "MERGE"
  {
    match a
    case Push => "PUSH"
    case PullRequest => "PULL_REQUEST"
    case Merge => "MERGE"
  }

  /** Different actions are stored under different names. */
  lemma ActionValueInjective(a: ActionType, b: ActionType)
    requires ActionValue(a) == ActionValue(b)
    ensures a == b
  {
  }

  /** `EntrySchema`: one activity record, every field a string but the action. */
  datatype Entry = Entry(
    requestId: string,
    author: string,
    action: ActionType,
    fromBranch: string,
    toBranch: string,
    timestamp: string)

  const EntryKeys: set<string> :=
    {"request_id", "author", "action", "from_branch", "to_branch", "timestamp"}

  /**
   * `entry.model_dump()`: the six schema fields. `_id` is a private
   * attribute of the model (its name starts with `_`), so it is not dumped
   * and the database assigns one on insert.
   */
  function Dump(e: Entry): (d: Store.Document)
    ensures d.Keys == EntryKeys && "_id" !in d
    ensures forall k :: k in d ==> d[k].Str?
  {
    map[
      "request_id" := Store.Str(e.requestId),
      "author" := Store.Str(e.author),
      "action" := Store.Str(ActionValue(e.action)),
      "from_branch" := Store.Str(e.fromBranch),
      "to_branch" := Store.Str(e.toBranch),
      "timestamp" := Store.Str(e.timestamp)]
  }

  /** The stored document for `e` once the database has given it ObjectId `id`. */
  function Stored(e: Entry, id: nat): (d: Store.Document)
    ensures d.Keys == EntryKeys + {"_id"}
    ensures d["_id"] == Store.ObjectId(id)
  {
    Dump(e)["_id" := Store.ObjectId(id)]
  }

  /** Each field of the stored document, looked up by its key. */
  lemma StoredFields(e: Entry, id: nat)
    ensures var d := Stored(e, id);
      && d["_id"] == Store.ObjectId(id)
      && d["request_id"] == Store.Str(e.requestId)
      && d["author"] == Store.Str(e.author)
      && d["action"] == Store.Str(ActionValue(e.action))
      && d["from_branch"] == Store.Str(e.fromBranch)
      && d["to_branch"] == Store.Str(e.toBranch)
      && d["timestamp"] == Store.Str(e.timestamp)
  {
  }

  /** The branch name at the end of a `ref` such as "refs/heads/main". */
  function BranchOf(ref: string): string {
    Text.LastSegment(ref, '/')
  }

  /**
   * The entry `log_push_request` builds, or None when a key is missing, a
   * value has the wrong type, or `ref` is not a string (all raise).
   */
  function PushEntry(data: Json): (r: Option<Entry>)
    ensures r.Some? <==>
      Path(data, ["head_commit", "id"]).Some? &&
      AsString(Path(data, ["head_commit", "author", "username"])).Some? &&
      AsString(Path(data, ["ref"])).Some? &&
      AsString(Path(data, ["head_commit", "timestamp"])).Some?
    ensures r.Some? ==>
      r.value.action == Push &&
      r.value.requestId == PyStr(Path(data, ["head_commit", "id"]).value) &&
      r.value.author == Path(data, ["head_commit", "author", "username"]).value.s &&
      r.value.fromBranch == r.value.toBranch == BranchOf(Path(data, ["ref"]).value.s) &&
      r.value.timestamp == Path(data, ["head_commit", "timestamp"]).value.s
  {
    var id := Path(data, ["head_commit", "id"]);
    var author := AsString(Path(data, ["head_commit", "author", "username"]));
    var ref := AsString(Path(data, ["ref"]));
    var timestamp := AsString(Path(data, ["head_commit", "timestamp"]));
    if id.Some? && author.Some? && ref.Some? && timestamp.Some? then
      Some(Entry(PyStr(id.value), author.value, Push,
        BranchOf(ref.value), BranchOf(ref.value), timestamp.value))
    else None
  }

  /** The entry `log_pull_request` builds, or None when building it raises. */
  function PullRequestEntry(data: Json): (r: Option<Entry>)
    ensures r.Some? <==>
      Path(data, ["pull_request", "id"]).Some? &&
      AsString(Path(data, ["pull_request", "user", "login"])).Some? &&
      AsString(Path(data, ["pull_request", "head", "ref"])).Some? &&
      AsString(Path(data, ["pull_request", "base", "ref"])).Some? &&
      AsString(Path(data, ["pull_request", "created_at"])).Some?
    ensures r.Some? ==>
      r.value.action == PullRequest &&
      r.value.requestId == PyStr(Path(data, ["pull_request", "id"]).value) &&
      r.value.author == Path(data, ["pull_request", "user", "login"]).value.s &&
      r.value.fromBranch == Path(data, ["pull_request", "head", "ref"]).value.s &&
      r.value.toBranch == Path(data, ["pull_request", "base", "ref"]).value.s &&
      r.value.timestamp == Path(data, ["pull_request", "created_at"]).value.s
  {
    var id := Path(data, ["pull_request", "id"]);
    var author := AsString(Path(data, ["pull_request", "user", "login"]));
    var from := AsString(Path(data, ["pull_request", "head", "ref"]));
    var to := AsString(Path(data, ["pull_request", "base", "ref"]));
    var timestamp := AsString(Path(data, ["pull_request", "created_at"]));
    if id.Some? && author.Some? && from.Some? && to.Some? && timestamp.Some? then
      Some(Entry(PyStr(id.value), author.value, PullRequest, from.value, to.value, timestamp.value))
    else None
  }

  /**
   * The author of a merge: `merged_by.login` when `merged_by` is truthy, the
   * literal "unknown" otherwise; None when `pull_request` is not a dict or
   * `merged_by.login` is missing or not a string.
   */
  function MergeAuthor(data: Json): (r: Option<string>)
    ensures Path(data, ["pull_request"]).None? || !Path(data, ["pull_request"]).value.JObj? ==> r.None?
    ensures var pr := Path(data, ["pull_request"]);
      var mergedBy := Path(data, ["pull_request", "merged_by"]);
      pr.Some? && pr.value.JObj? && mergedBy.Some? && Truthy(mergedBy.value) ==>
        r == AsString(Path(data, ["pull_request", "merged_by", "login"]))
    ensures r.Some? && r.value != "unknown" ==>
      AsString(Path(data, ["pull_request", "merged_by", "login"])) == r
    ensures var mergedBy := Path(data, ["pull_request", "merged_by"]);
      (Path(data, ["pull_request"]).Some? && Path(data, ["pull_request"]).value.JObj? &&
       (mergedBy.None? || !Truthy(mergedBy.value))) ==> r == Some("unknown")
  {
    match Path(data, ["pull_request"])
    case None => None
    case Some(pr) =>
      match Get(pr, "merged_by")
      case None => None
      case Some(mergedBy) =>
        GetOnDict(pr, "merged_by");
        if Truthy(mergedBy) then AsString(Path(mergedBy, ["login"])) else Some("unknown")
  }

  /** The entry `log_merge_request` builds, or None when building it raises. */
  function MergeEntry(data: Json): (r: Option<Entry>)
    ensures r.Some? <==>
      Path(data, ["pull_request", "id"]).Some? &&
      MergeAuthor(data).Some? &&
      AsString(Path(data, ["pull_request", "head", "ref"])).Some? &&
      AsString(Path(data, ["pull_request", "base", "ref"])).Some? &&
      AsString(Path(data, ["pull_request", "closed_at"])).Some?
    ensures r.Some? ==>
      r.value.action == Merge &&
      r.value.requestId == PyStr(Path(data, ["pull_request", "id"]).value) &&
      r.value.author == MergeAuthor(data).value &&
      r.value.fromBranch == Path(data, ["pull_request", "head", "ref"]).value.s &&
      r.value.toBranch == Path(data, ["pull_request", "base", "ref"]).value.s &&
      r.value.timestamp == Path(data, ["pull_request", "closed_at"]).value.s
  {
    var id := Path(data, ["pull_request", "id"]);
    var author := MergeAuthor(data);
    var from := AsString(Path(data, ["pull_request", "head", "ref"]));
    var to := AsString(Path(data, ["pull_request", "base", "ref"]));
    var timestamp := AsString(Path(data, ["pull_request", "closed_at"]));
    if id.Some? && author.Some? && from.Some? && to.Some? && timestamp.Some? then
      Some(Entry(PyStr(id.value), author.value, Merge, from.value, to.value, timestamp.value))
    else None
  }

  /** The entry the handler for `action` builds from the payload. */
  function Build(action: ActionType, data: Json): Option<Entry> {
    match action
    case Push => PushEntry(data)
    case PullRequest => PullRequestEntry(data)
    case Merge => MergeEntry(data)
  }

  /**
   * The body of `log_push_request`, `log_pull_request` and
   * `log_merge_request` after the entry is built: insert it, and swallow
   * (only print) a failure to build or to store it.
   */
  method LogEntry(db: Store.Collection, entry: Option<Entry>)
    requires db.Valid()
    modifies db
    ensures db.Valid() && db.available == old(db.available)
    ensures entry.Some? && db.available ==>
      db.docs == old(db.docs) + [Stored(entry.value, old(db.nextId))]
    ensures entry.None? || !db.available ==> db.docs == old(db.docs)
  {
    if entry.Some? {
      var ok := db.InsertOne(Dump(entry.value));
    }
  }

  method LogPushRequest(db: Store.Collection, data: Json)
    requires db.Valid()
    modifies db
    ensures db.Valid() && db.available == old(db.available)
    ensures db.docs == old(db.docs) + Written(Push, data, old(db.nextId), db.available)
  {
    LogEntry(db, PushEntry(data));
  }

  method LogPullRequest(db: Store.Collection, data: Json)
    requires db.Valid()
    modifies db
    ensures db.Valid() && db.available == old(db.available)
    ensures db.docs == old(db.docs) + Written(PullRequest, data, old(db.nextId), db.available)
  {
    LogEntry(db, PullRequestEntry(data));
  }

  method LogMergeRequest(db: Store.Collection, data: Json)
    requires db.Valid()
    modifies db
    ensures db.Valid() && db.available == old(db.available)
    ensures db.docs == old(db.docs) + Written(Merge, data, old(db.nextId), db.available)
  {
    LogEntry(db, MergeEntry(data));
  }

  /** What handling `action` appends to a collection whose next ObjectId is `id`. */
  function Written(action: ActionType, data: Json, id: nat, available: bool): (docs: seq<Store.Document>)
    ensures |docs| <= 1
    ensures docs != [] <==> Build(action, data).Some? && available
    ensures docs != [] ==> docs == [Stored(Build(action, data).value, id)]
  {
    match Build(action, data)
    case Some(e) => if available then [Stored(e, id)] else []
    case None => []
  }

  datatype Body = EmptyObject | ErrorObject(error: string) | ErrorPage

  datatype Response = Response(status: nat, body: Body)

  /** Where `receiver` sends a request: an early reply, or a handler (or none) then 200. */
  datatype Route = Reply(response: Response) | Handle(action: Option<ActionType>)

  const MissingEvent := Response(400, ErrorObject("Missing X_GITHUB_EVENT header"))
  const UnhandledEvent := Response(400, ErrorObject("Unhandled event type"))
  /** Flask's reply to a body `get_json(force=True)` cannot parse. */
  const BadRequest := Response(400, ErrorPage)
  /** Flask's reply to an exception `receiver` does not catch. */
  const ServerError := Response(500, ErrorPage)
  const Accepted := Response(200, EmptyObject)

  /**
   * The dispatch of `receiver` on the `X_GITHUB_EVENT` header (None when
   * absent) and the parsed body (None when it is not JSON).
   */
  function Dispatch(event: Option<string>, body: Option<Json>): (r: Route)
    ensures body.None? ==> r == Reply(BadRequest)
    ensures body.Some? && event.None? ==> r == Reply(MissingEvent)
    ensures body.Some? && event.Some? && event.value != "push" && event.value != "pull_request" ==>
      r == Reply(UnhandledEvent)
    ensures r == Handle(Some(Push)) <==> body.Some? && event == Some("push")
    ensures r == Handle(Some(PullRequest)) <==>
      body.Some? && event == Some("pull_request") && Get(body.value, "action") == Some(JStr("opened"))
    ensures r == Handle(Some(Merge)) <==>
      body.Some? && event == Some("pull_request") && Get(body.value, "action") == Some(JStr("closed")) &&
      var merged := Get(Get(body.value, "pull_request").value, "merged");
      merged.Some? && Truthy(merged.value)
    ensures body.Some? && event == Some("pull_request") && r != Reply(ServerError) ==> r.Handle?
    ensures r == Reply(ServerError) <==>
      body.Some? && event == Some("pull_request") &&
      (!body.value.JObj? ||
       (Get(body.value, "action") == Some(JStr("closed")) &&
        Get(Get(body.value, "pull_request").value, "merged").None?))
  {
    match body
    case None => Reply(BadRequest)
    case Some(data) =>
      match event
      case None => Reply(MissingEvent)
      case Some(name) =>
        if name == "push" then Handle(Some(Push))
        else if name == "pull_request" then
          match Get(data, "action")
          case None => Reply(ServerError)
          case Some(action) =>
            if action == JStr("opened") then Handle(Some(PullRequest))
            else if action == JStr("closed") then
              match Get(Get(data, "pull_request").value, "merged")
              case None => Reply(ServerError)
              case Some(merged) => if Truthy(merged) then Handle(Some(Merge)) else Handle(None)
            else Handle(None)
        else Reply(UnhandledEvent)
  }

  /** The reply `receiver` sends for a route. */
  function ResponseOf(route: Route): Response {
    match route
    case Reply(response) => response
    case Handle(_) => Accepted
  }

  /**
   * `receiver`: dispatch, run the chosen handler, answer. Whatever the
   * handler does, a handled request is answered 200 `{}`.
   */
  method Receiver(db: Store.Collection, event: Option<string>, body: Option<Json>) returns (response: Response)
    requires db.Valid()
    modifies db
    ensures db.Valid() && db.available == old(db.available)
    ensures response == ResponseOf(Dispatch(event, body))
    ensures db.docs == old(db.docs) + Appended(event, body, old(db.nextId), db.available)
  {
    var route := Dispatch(event, body);
    match route {
      case Reply(r) =>
        response := r;
      case Handle(action) =>
        if action == Some(Push) {
          LogPushRequest(db, body.value);
        } else if action == Some(PullRequest) {
          LogPullRequest(db, body.value);
        } else if action == Some(Merge) {
          LogMergeRequest(db, body.value);
        }
        response := Accepted;
    }
  }

  /** What one request appends to the collection. */
  function Appended(event: Option<string>, body: Option<Json>, id: nat, available: bool): seq<Store.Document> {
    match Dispatch(event, body)
    case Handle(Some(action)) => Written(action, body.value, id, available)
    case _ => []
  }

  /**
   * A request stores at most one entry, and only one that is answered 200;
   * every rejected request leaves the collection as it was.
   */
  lemma AtMostOneEntry(event: Option<string>, body: Option<Json>, id: nat, available: bool)
    ensures |Appended(event, body, id, available)| <= 1
    ensures ResponseOf(Dispatch(event, body)).status != 200 ==> Appended(event, body, id, available) == []
    ensures ResponseOf(Dispatch(event, body)).status == 200 <==> Dispatch(event, body).Handle?
  {
  }
}
