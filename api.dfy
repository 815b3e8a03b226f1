/**
 * The logs endpoint `GET /api/logs`: every stored document projected onto
 * the seven fields the activity feed reads, or a 500 if any of them fails.
 */
module Api {
  import opened Wrappers
  import Store
  import Webhook

  /** A mapped log: a dict from field name to value. */
  type Record = map<string, Store.Value>

  /**
   * The fields `entry_mapper` copies unchanged from the document are the
   * six schema fields, Webhook.EntryKeys. The fields it reads (a missing
   * one raises a KeyError) are those and `_id`.
   */
  const RequiredKeys: set<string> := Webhook.EntryKeys + {"_id"}

  /** The fields of a mapped log. */
  const RecordKeys: set<string> := Webhook.EntryKeys + {"id"}

  /**
   * `entry_mapper`: exactly the keys of RecordKeys, `id` the string form of
   * `_id` and the rest copied; None when the document lacks a required key.
   */
  function EntryMapper(doc: Store.Document): (r: Option<Record>)
    ensures r.Some? <==> RequiredKeys <= doc.Keys
    ensures r.Some? ==> r.value.Keys == RecordKeys
    ensures r.Some? ==> r.value["id"] == Store.Str(Store.Show(doc["_id"]))
    ensures r.Some? ==> forall k :: k in Webhook.EntryKeys ==> r.value[k] == doc[k]
  {
    if RequiredKeys <= doc.Keys then
      Some(map[
        "id" := Store.Str(Store.Show(doc["_id"])),
        "request_id" := doc["request_id"],
        "author" := doc["author"],
        "action" := doc["action"],
        "from_branch" := doc["from_branch"],
        "to_branch" := doc["to_branch"],
        "timestamp" := doc["timestamp"]])
    else None
  }

  /**
   * `list(map(entry_mapper, logs))`: one record per document, in cursor
   * order, or None as soon as one document cannot be mapped.
   */
  function MapAll(docs: seq<Store.Document>): (r: Option<seq<Record>>)
    ensures r.Some? <==> forall k :: 0 <= k < |docs| ==> EntryMapper(docs[k]).Some?
    ensures r.Some? ==> |r.value| == |docs|
    ensures r.Some? ==> forall k :: 0 <= k < |docs| ==> Some(r.value[k]) == EntryMapper(docs[k])
  {
    if docs == [] then Some([])
    else
      match EntryMapper(docs[0])
      case None => None
      case Some(first) =>
        match MapAll(docs[1..])
        case None => None
        case Some(rest) => Some([first] + rest)
  }

  datatype Body = LogList(logs: seq<Record>) | ErrorObject(error: string)

  datatype Response = Response(status: nat, body: Body)

  /**
   * `get_logs` over the cursor `find()` yields (None when reading it
   * raises): 200 with every mapped record, or 500 with a fixed error when
   * anything raises, including one document that lacks a field.
   */
  function GetLogs(cursor: Option<seq<Store.Document>>): (r: Response)
    ensures r.status == 200 || r.status == 500
    ensures r.status == 200 <==>
      cursor.Some? && forall k :: 0 <= k < |cursor.value| ==> RequiredKeys <= cursor.value[k].Keys
    ensures r.status == 200 ==>
      r.body.LogList? && |r.body.logs| == |cursor.value| &&
      forall k :: 0 <= k < |cursor.value| ==> Some(r.body.logs[k]) == EntryMapper(cursor.value[k])
    ensures r.status == 500 ==> r.body == ErrorObject("Failed to fetch logs")
  {
    match cursor
    case None => Response(500, ErrorObject("Failed to fetch logs"))
    case Some(docs) =>
      match MapAll(docs)
      case Some(logs) => Response(200, LogList(logs))
      case None => Response(500, ErrorObject("Failed to fetch logs"))
  }

  /** The record the endpoint serves for an entry the receiver stored under ObjectId `id`. */
  function Listed(e: Webhook.Entry, id: nat): Record {
    map[
      "id" := Store.Str(Store.Show(Store.ObjectId(id))),
      "request_id" := Store.Str(e.requestId),
      "author" := Store.Str(e.author),
      "action" := Store.Str(Webhook.ActionValue(e.action)),
      "from_branch" := Store.Str(e.fromBranch),
      "to_branch" := Store.Str(e.toBranch),
      "timestamp" := Store.Str(e.timestamp)]
  }

  /**
   * What the receiver stores the endpoint serves back field for field, and
   * the entry can be read back from the record.
   */
  lemma StoredEntryIsListed(e: Webhook.Entry, id: nat)
    ensures EntryMapper(Webhook.Stored(e, id)) == Some(Listed(e, id))
    ensures Decode(Listed(e, id)) == Some(e)
  {
    MapsStored(e, id);
    DecodesListed(e, id);
  }

  lemma MapsStored(e: Webhook.Entry, id: nat)
    ensures EntryMapper(Webhook.Stored(e, id)) == Some(Listed(e, id))
  {
    var d := Webhook.Stored(e, id);
    Webhook.StoredFields(e, id);
    assert RequiredKeys <= d.Keys;
  }

  lemma DecodesListed(e: Webhook.Entry, id: nat)
    ensures Decode(Listed(e, id)) == Some(e)
  {
    ActionOfValue(e.action);
  }

  /** An action field read back into the ActionType enum. */
  function ActionOf(v: Store.Value): (r: Option<Webhook.ActionType>)
    ensures r.Some? ==> v == Store.Str(Webhook.ActionValue(r.value))
  {
    match v
    case Str("PUSH") => Some(Webhook.Push)
    case Str("PULL_REQUEST") => Some(Webhook.PullRequest)
    case Str("MERGE") => Some(Webhook.Merge)
    case _ => None
  }

  lemma ActionOfValue(a: Webhook.ActionType)
    ensures ActionOf(Store.Str(Webhook.ActionValue(a))) == Some(a)
  {
  }

  /** The entry a served record describes, when every field is well-typed. */
  function Decode(r: Record): (e: Option<Webhook.Entry>)
    ensures e.Some? ==> forall k :: k in Webhook.EntryKeys ==> k in r && r[k].Str?
  {
    if Webhook.EntryKeys <= r.Keys && (forall k :: k in Webhook.EntryKeys ==> r[k].Str?) && ActionOf(r["action"]).Some? then
      Some(Webhook.Entry(r["request_id"].s, r["author"].s, ActionOf(r["action"]).value,
        r["from_branch"].s, r["to_branch"].s, r["timestamp"].s))
    else None
  }

  /**
   * A collection written only by the receiver is always listable: entry k
   * stored under ObjectId ids[k] is served as Listed(entries[k], ids[k]).
   */
  lemma {:induction false} ReceiverCollectionIsListed(entries: seq<Webhook.Entry>, ids: seq<nat>)
    requires |entries| == |ids|
    ensures var docs := seq(|entries|, k requires 0 <= k < |entries| => Webhook.Stored(entries[k], ids[k]));
      var r := GetLogs(Some(docs));
      r.status == 200 && r.body == LogList(seq(|entries|, k requires 0 <= k < |entries| => Listed(entries[k], ids[k])))
  {
    var docs := seq(|entries|, k requires 0 <= k < |entries| => Webhook.Stored(entries[k], ids[k]));
    var want := seq(|entries|, k requires 0 <= k < |entries| => Listed(entries[k], ids[k]));
    forall k | 0 <= k < |docs| ensures EntryMapper(docs[k]) == Some(want[k]) {
      StoredEntryIsListed(entries[k], ids[k]);
    }
    var r := GetLogs(Some(docs));
    assert r.body.logs == want;
  }
}
