/** The webhook handler: turning a delivery (event-type header, decoded body, receipt time)
    into an event document, and storing the document when it names an action. */
module Webhook {
  import opened Wrappers
  import opened JsonValues
  import opened Segments
  import opened Timestamp

  /** The stored document. Fields copied from the payload keep whatever JSON value the payload
      held there; `action` is one of the handler's own literals. */
  datatype EventDoc = EventDoc(
    author: Json,
    action: string,
    fromBranch: Json,
    toBranch: Json,
    requestId: Json,
    timestamp: string)

  /** What one delivery comes to: a document to store, nothing to store, or an exception. */
  datatype Outcome = Produced(doc: EventDoc) | Ignored | Malformed(fault: Fault)

  /** The document every delivery starts from: empty fields and the receipt time. */
  function DefaultDoc(stamp: string): EventDoc {
    EventDoc(JStr(""), "", JStr(""), JStr(""), JStr(""), stamp)
  }

  /** `ref.split('/')[-1]`: only a string has a `split` method. */
  function RefBranch(ref: Json): Result<string, Fault> {
    match ref
    case JStr(s) => var parts := Split(s, '/'); Success(parts[|parts| - 1])
    case _ => Failure(AttributeError)
  }

  /** The fields every pull-request document takes from `pull_request`, in source order:
      `str(id)`, then `head.ref`, then `base.ref`. */
  function PullRequestFields(doc: EventDoc, data: Json): Result<EventDoc, Fault> {
    var id :- SubscriptPath(data, ["pull_request", "id"]);
    var idText :- PyStr(id);
    var head :- SubscriptPath(data, ["pull_request", "head", "ref"]);
    var base :- SubscriptPath(data, ["pull_request", "base", "ref"]);
    Success(doc.(requestId := JStr(idText), fromBranch := head, toBranch := base))
  }

  /** The push branch: PUSH by `pusher.name`, to the last segment of `ref`, at commit `after`. */
  function PushDoc(doc: EventDoc, data: Json): Result<EventDoc, Fault> {
    var name :- SubscriptPath(data, ["pusher", "name"]);
    var ref :- SubscriptPath(data, ["ref"]);
    var branch :- RefBranch(ref);
    var after :- SubscriptPath(data, ["after"]);
    Success(doc.(action := "PUSH", author := name, toBranch := JStr(branch), requestId := after))
  }

  /** The pull-request branch: MERGE by `merged_by.login` when the delivery is closed and
      `merged` is true (absent counts as false), PULL_REQUEST by `user.login` otherwise. */
  function PullRequestDoc(doc: EventDoc, data: Json): Result<EventDoc, Fault> {
    var pr :- SubscriptPath(data, ["pull_request"]);
    var isMerged :- Get(pr, "merged", JBool(false));
    // `data` is an object once `data['pull_request']` succeeded, so `data.get` cannot raise.
    var action := Get(data, "action", JNull).value;
    if action == JStr("closed") && Truthy(isMerged) then
      var login :- SubscriptPath(data, ["pull_request", "merged_by", "login"]);
      PullRequestFields(doc.(action := "MERGE", author := login), data)
    else
      var login :- SubscriptPath(data, ["pull_request", "user", "login"]);
      PullRequestFields(doc.(action := "PULL_REQUEST", author := login), data)
  }

  /** The document the handler has built when it reaches its store-or-ignore test, or the
      exception raised on the way there. */
  function EventDocOf(eventType: string, data: Json, stamp: string): Result<EventDoc, Fault> {
    var doc := DefaultDoc(stamp);
    if eventType == "push" then PushDoc(doc, data)
    else if eventType == "pull_request" then PullRequestDoc(doc, data)
    else Success(doc)
  }

  /** The handler's decision: a document with an action is stored, one without is ignored. */
  function Normalize(eventType: string, data: Json, stamp: string): Outcome {
    match EventDocOf(eventType, data, stamp)
    case Failure(f) => Malformed(f)
    case Success(doc) => if doc.action != "" then Produced(doc) else Ignored
  }

  /** The `status` the handler answers with; an exception leaves the handler instead. */
  function ReplyTo(o: Outcome): Result<string, Fault> {
    match o
    case Produced(_) => Success("success")
    case Ignored => Success("ignored")
    case Malformed(f) => Failure(f)
  }

  /** The documents a delivery adds to the collection. */
  function StoredBy(o: Outcome): seq<EventDoc> {
    if o.Produced? then [o.doc] else []
  }

  /** The event collection, seen as the sequence of documents inserted into it. */
  class EventCollection {
    var docs: seq<EventDoc>

    constructor ()
      ensures docs == []
    {
      docs := [];
    }

    method InsertOne(doc: EventDoc)
      modifies this
      ensures docs == old(docs) + [doc]
    {
      docs := docs + [doc];
    }
  }

  /** One webhook delivery: build the document field by field from the defaults, then store it
      if it names an action. The reply is the `status` text, or the exception that escapes. */
  method HandleWebhook(collection: EventCollection, eventType: string, data: Json, now: UtcTime)
    returns (reply: Result<string, Fault>)
    modifies collection
    ensures var o := Normalize(eventType, data, FormatTimestamp(now));
      reply == ReplyTo(o) && collection.docs == old(collection.docs) + StoredBy(o)
  {
    var doc := DefaultDoc(FormatTimestamp(now));
    if eventType == "push" {
      doc := doc.(action := "PUSH");
      var name :- SubscriptPath(data, ["pusher", "name"]);
      doc := doc.(author := name);
      var ref :- SubscriptPath(data, ["ref"]);
      var branch :- RefBranch(ref);
      doc := doc.(toBranch := JStr(branch));
      var after :- SubscriptPath(data, ["after"]);
      doc := doc.(requestId := after);
    } else if eventType == "pull_request" {
      var pr :- SubscriptPath(data, ["pull_request"]);
      var isMerged :- Get(pr, "merged", JBool(false));
      // `data` is an object once `data['pull_request']` succeeded, so `data.get` cannot raise.
      var action := Get(data, "action", JNull).value;
      if action == JStr("closed") && Truthy(isMerged) {
        doc := doc.(action := "MERGE");
        var login :- SubscriptPath(data, ["pull_request", "merged_by", "login"]);
        doc := doc.(author := login);
      } else {
        doc := doc.(action := "PULL_REQUEST");
        var login :- SubscriptPath(data, ["pull_request", "user", "login"]);
        doc := doc.(author := login);
      }
      var id :- SubscriptPath(data, ["pull_request", "id"]);
      var idText :- PyStr(id);
      doc := doc.(requestId := JStr(idText));
      var head :- SubscriptPath(data, ["pull_request", "head", "ref"]);
      doc := doc.(fromBranch := head);
      var base :- SubscriptPath(data, ["pull_request", "base", "ref"]);
      doc := doc.(toBranch := base);
    }
    if doc.action != "" {
      collection.InsertOne(doc);
      reply := Success("success");
    } else {
      reply := Success("ignored");
    }
  }
}
