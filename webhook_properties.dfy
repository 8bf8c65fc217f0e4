/** What the handler promises about the documents it produces, stated on the payload's
    contents as seen through `At`. */
module WebhookProperties {
  import opened Wrappers
  import opened Decimal
  import opened JsonValues
  import opened Segments
  import opened Webhook

  /** Whether `data['pull_request'].get('merged', False)` is true; an absent flag is false. */
  predicate MergedFlag(data: Json) {
    match At(data, ["pull_request", "merged"])
    case Some(m) => Truthy(m)
    case None => false
  }

  /** A pull-request delivery that reports a merge: closed, with a true merged flag. */
  predicate IsMerge(data: Json) {
    At(data, ["action"]) == Some(JStr("closed")) && MergedFlag(data)
  }

  /** The path to the author's login for a pull-request delivery. */
  function LoginPath(data: Json): seq<string> {
    if IsMerge(data) then ["pull_request", "merged_by", "login"] else ["pull_request", "user", "login"]
  }

  /** Every value a push document is built from is present, and `ref` is a string. */
  predicate PushWellFormed(data: Json) {
    At(data, ["pusher", "name"]).Some? && At(data, ["ref"]).Some? &&
    At(data, ["ref"]).value.JStr? && At(data, ["after"]).Some?
  }

  /** Every value a pull-request document is built from is present, and the id has a string form. */
  predicate PullRequestWellFormed(data: Json) {
    At(data, ["pull_request"]).Some? && At(data, ["pull_request"]).value.JObj? &&
    At(data, LoginPath(data)).Some? &&
    At(data, ["pull_request", "id"]).Some? && PyStr(At(data, ["pull_request", "id"]).value).Success? &&
    At(data, ["pull_request", "head", "ref"]).Some? && At(data, ["pull_request", "base", "ref"]).Some?
  }

  /** The first three reads of a pull-request delivery seen through `At`: `data['pull_request']`,
      its `.get('merged', False)` and `data.get('action')`. */
  lemma PullRequestSteps(data: Json)
    ensures SubscriptPath(data, ["pull_request"]).Success? <==> At(data, ["pull_request"]).Some?
    ensures At(data, ["pull_request"]).Some? ==>
              data.JObj? && SubscriptPath(data, ["pull_request"]).value == At(data, ["pull_request"]).value
    ensures At(data, ["pull_request"]).Some? && At(data, ["pull_request"]).value.JObj? ==>
              var isMerged := Get(At(data, ["pull_request"]).value, "merged", JBool(false));
              isMerged.Success? && Truthy(isMerged.value) == MergedFlag(data)
    ensures data.JObj? ==>
              (Get(data, "action", JNull).value == JStr("closed") <==> At(data, ["action"]) == Some(JStr("closed")))
  {
    SubscriptPathAt(data, ["pull_request"]);
    assert ["pull_request", "merged"][1..] == ["merged"];
    assert ["merged"][1..] == [] && ["action"][1..] == [];
    if At(data, ["pull_request"]).Some? && At(data, ["pull_request"]).value.JObj? {
      var pr := At(data, ["pull_request"]).value;
      assert At(data, ["pull_request", "merged"]) == At(pr, ["merged"]);
      if "merged" in pr.fields {
        assert At(pr, ["merged"]) == Some(pr.fields["merged"]);
      }
    }
  }

  /** The remaining reads of a pull-request delivery seen through `At`: the author's login, `id`,
      `head.ref` and `base.ref`. */
  lemma PullRequestTailSteps(data: Json, login: Json)
    requires At(data, LoginPath(data)) == Some(login)
    ensures SubscriptPath(data, LoginPath(data)) == Success(login)
    ensures SubscriptPath(data, ["pull_request", "id"]).Success? <==> At(data, ["pull_request", "id"]).Some?
    ensures SubscriptPath(data, ["pull_request", "head", "ref"]).Success? <==> At(data, ["pull_request", "head", "ref"]).Some?
    ensures SubscriptPath(data, ["pull_request", "base", "ref"]).Success? <==> At(data, ["pull_request", "base", "ref"]).Some?
    ensures At(data, ["pull_request", "id"]).Some? ==> SubscriptPath(data, ["pull_request", "id"]).value == At(data, ["pull_request", "id"]).value
    ensures At(data, ["pull_request", "head", "ref"]).Some? ==> SubscriptPath(data, ["pull_request", "head", "ref"]).value == At(data, ["pull_request", "head", "ref"]).value
    ensures At(data, ["pull_request", "base", "ref"]).Some? ==> SubscriptPath(data, ["pull_request", "base", "ref"]).value == At(data, ["pull_request", "base", "ref"]).value
  {
    SubscriptPathAt(data, LoginPath(data));
    SubscriptPathAt(data, ["pull_request", "id"]);
    SubscriptPathAt(data, ["pull_request", "head", "ref"]);
    SubscriptPathAt(data, ["pull_request", "base", "ref"]);
  }

  /** A complete push delivery yields a PUSH document: the pusher's name as author, the last
      segment of `ref` as target branch, `after` as request id, and no source branch. */
  lemma PushEvent(data: Json, stamp: string, name: Json, ref: string, after: Json)
    requires At(data, ["pusher", "name"]) == Some(name)
    requires At(data, ["ref"]) == Some(JStr(ref))
    requires At(data, ["after"]) == Some(after)
    ensures Normalize("push", data, stamp) ==
              Produced(EventDoc(name, "PUSH", JStr(""), JStr(LastSegment(ref, '/')), after, stamp))
  {
    SubscriptPathAt(data, ["pusher", "name"]);
    SubscriptPathAt(data, ["ref"]);
    SubscriptPathAt(data, ["after"]);
    RefBranchIsLastSegment(ref);
    var doc := EventDoc(name, "PUSH", JStr(""), JStr(LastSegment(ref, '/')), after, stamp);
    assert PushDoc(DefaultDoc(stamp), data) == Success(doc);
  }

  /** `ref.split('/')[-1]` on a string ref is its last segment. */
  lemma RefBranchIsLastSegment(ref: string)
    ensures RefBranch(JStr(ref)) == Success(LastSegment(ref, '/'))
  {
    SplitLastIsLastSegment(ref, '/');
  }

  /** A push to `refs/heads/X`, X without a slash, targets branch X and has no source branch. */
  lemma PushToHeadsRef(data: Json, stamp: string, x: string, doc: EventDoc)
    requires '/' !in x
    requires At(data, ["ref"]) == Some(JStr("refs/heads/" + x))
    requires Normalize("push", data, stamp) == Produced(doc)
    ensures doc.toBranch == JStr(x) && doc.fromBranch == JStr("")
  {
    PushMalformedIff(data, stamp);
    PushEvent(data, stamp, At(data, ["pusher", "name"]).value, "refs/heads/" + x, At(data, ["after"]).value);
    BranchOfHeadsRef(x);
  }

  /** A push delivery raises exactly when a value it reads is missing or `ref` is not a string;
      it is never ignored. */
  lemma PushMalformedIff(data: Json, stamp: string)
    ensures Normalize("push", data, stamp).Malformed? <==> !PushWellFormed(data)
    ensures !Normalize("push", data, stamp).Ignored?
  {
    SubscriptPathAt(data, ["pusher", "name"]);
    SubscriptPathAt(data, ["ref"]);
    SubscriptPathAt(data, ["after"]);
  }

  /** A complete pull-request delivery reporting a merge yields a MERGE document by the merger. */
  lemma PullRequestMerge(data: Json, stamp: string, login: Json, id: Json, idText: string, head: Json, base: Json)
    requires At(data, ["pull_request"]).Some? && At(data, ["pull_request"]).value.JObj?
    requires IsMerge(data)
    requires At(data, ["pull_request", "merged_by", "login"]) == Some(login)
    requires At(data, ["pull_request", "id"]) == Some(id) && PyStr(id) == Success(idText)
    requires At(data, ["pull_request", "head", "ref"]) == Some(head)
    requires At(data, ["pull_request", "base", "ref"]) == Some(base)
    ensures Normalize("pull_request", data, stamp) ==
              Produced(EventDoc(login, "MERGE", head, base, JStr(idText), stamp))
  {
    PullRequestSteps(data);
    PullRequestTailSteps(data, login);
  }

  /** A complete pull-request delivery not reporting a merge yields a PULL_REQUEST document by
      the pull request's opener. */
  lemma PullRequestOpened(data: Json, stamp: string, login: Json, id: Json, idText: string, head: Json, base: Json)
    requires At(data, ["pull_request"]).Some? && At(data, ["pull_request"]).value.JObj?
    requires !IsMerge(data)
    requires At(data, ["pull_request", "user", "login"]) == Some(login)
    requires At(data, ["pull_request", "id"]) == Some(id) && PyStr(id) == Success(idText)
    requires At(data, ["pull_request", "head", "ref"]) == Some(head)
    requires At(data, ["pull_request", "base", "ref"]) == Some(base)
    ensures Normalize("pull_request", data, stamp) ==
              Produced(EventDoc(login, "PULL_REQUEST", head, base, JStr(idText), stamp))
  {
    PullRequestSteps(data);
    PullRequestTailSteps(data, login);
  }

  /** Whatever the merge state, a pull-request document carries `str(pull_request.id)`, the head
      and base refs, MERGE exactly for merges, and the login from the matching path as author. */
  lemma PullRequestDocument(data: Json, stamp: string, doc: EventDoc)
    requires Normalize("pull_request", data, stamp) == Produced(doc)
    ensures PullRequestWellFormed(data)
    ensures doc.requestId.JStr? && PyStr(At(data, ["pull_request", "id"]).value) == Success(doc.requestId.str)
    ensures At(data, ["pull_request", "head", "ref"]) == Some(doc.fromBranch)
    ensures At(data, ["pull_request", "base", "ref"]) == Some(doc.toBranch)
    ensures doc.action == (if IsMerge(data) then "MERGE" else "PULL_REQUEST")
    ensures At(data, LoginPath(data)) == Some(doc.author)
    ensures doc.timestamp == stamp
  {
    PullRequestSteps(data);
    SubscriptPathAt(data, LoginPath(data));
    PullRequestTailSteps(data, At(data, LoginPath(data)).value);
  }

  /** A pull-request delivery raises exactly when a value it reads is missing or the id is an
      object or array; it is never ignored. */
  lemma PullRequestMalformedIff(data: Json, stamp: string)
    ensures Normalize("pull_request", data, stamp).Malformed? <==> !PullRequestWellFormed(data)
    ensures !Normalize("pull_request", data, stamp).Ignored?
  {
    PullRequestSteps(data);
    SubscriptPathAt(data, LoginPath(data));
    if At(data, LoginPath(data)).Some? {
      PullRequestTailSteps(data, At(data, LoginPath(data)).value);
    }
  }

  /** With no `merged` key the flag counts as false: the document is a PULL_REQUEST by the opener. */
  lemma AbsentMergedIsPullRequest(data: Json, stamp: string, fields: map<string, Json>)
    requires At(data, ["pull_request"]) == Some(JObj(fields)) && "merged" !in fields
    requires Normalize("pull_request", data, stamp).Produced?
    ensures Normalize("pull_request", data, stamp).doc.action == "PULL_REQUEST"
    ensures At(data, ["pull_request", "user", "login"]) == Some(Normalize("pull_request", data, stamp).doc.author)
  {
    assert At(data, ["pull_request", "merged"]) == At(JObj(fields), ["merged"]) == None;
    PullRequestDocument(data, stamp, Normalize("pull_request", data, stamp).doc);
  }

  /** A delivery is ignored exactly when its event type is neither push nor pull_request. */
  lemma IgnoredIffUnknownType(eventType: string, data: Json, stamp: string)
    ensures Normalize(eventType, data, stamp) == Ignored <==> eventType != "push" && eventType != "pull_request"
  {
    if eventType == "push" {
      PushMalformedIff(data, stamp);
    } else if eventType == "pull_request" {
      PullRequestMalformedIff(data, stamp);
    }
  }

  /** A document is stored exactly when its action is one of the three kinds, and its timestamp
      is the receipt time, not anything from the payload. */
  lemma ProducedIffKnownAction(eventType: string, data: Json, stamp: string)
    ensures Normalize(eventType, data, stamp).Produced? <==>
              EventDocOf(eventType, data, stamp).Success? &&
              EventDocOf(eventType, data, stamp).value.action in {"PUSH", "PULL_REQUEST", "MERGE"}
    ensures Normalize(eventType, data, stamp).Produced? ==> Normalize(eventType, data, stamp).doc.timestamp == stamp
  {
  }

  /** A push payload holding just `pusher.name`, a branch ref and `after`. */
  lemma PushPayload(stamp: string, name: string, branch: string, sha: string)
    requires '/' !in branch
    ensures var data := JObj(map["pusher" := JObj(map["name" := JStr(name)]),
                                 "ref" := JStr("refs/heads/" + branch), "after" := JStr(sha)]);
      Normalize("push", data, stamp) ==
        Produced(EventDoc(JStr(name), "PUSH", JStr(""), JStr(branch), JStr(sha), stamp))
  {
    var data := JObj(map["pusher" := JObj(map["name" := JStr(name)]),
                         "ref" := JStr("refs/heads/" + branch), "after" := JStr(sha)]);
    AtCons(data, "pusher", ["name"]);
    AtCons(data.fields["pusher"], "name", []);
    AtCons(data, "ref", []);
    AtCons(data, "after", []);
    PushEvent(data, stamp, JStr(name), "refs/heads/" + branch, JStr(sha));
    BranchOfHeadsRef(branch);
  }

  /** The sample push delivery: alice pushes commit abc123 to main. */
  lemma AlicePush(stamp: string)
    ensures var data := JObj(map["pusher" := JObj(map["name" := JStr("alice")]),
                                 "ref" := JStr("refs/heads/main"), "after" := JStr("abc123")]);
      Normalize("push", data, stamp) ==
        Produced(EventDoc(JStr("alice"), "PUSH", JStr(""), JStr("main"), JStr("abc123"), stamp))
  {
    PushPayload(stamp, "alice", "main", "abc123");
    assert "refs/heads/" + "main" == "refs/heads/main";
  }

  /** The sample merge delivery: pull request 42 from `feature` into `main`, closed and merged
      by bob. Any payload carrying these values, whatever else it holds, gives this document. */
  lemma BobMerge(data: Json, stamp: string)
    requires At(data, ["action"]) == Some(JStr("closed"))
    requires At(data, ["pull_request", "merged"]) == Some(JBool(true))
    requires At(data, ["pull_request", "merged_by", "login"]) == Some(JStr("bob"))
    requires At(data, ["pull_request", "id"]) == Some(JInt(42))
    requires At(data, ["pull_request", "head", "ref"]) == Some(JStr("feature"))
    requires At(data, ["pull_request", "base", "ref"]) == Some(JStr("main"))
    ensures Normalize("pull_request", data, stamp) ==
              Produced(EventDoc(JStr("bob"), "MERGE", JStr("feature"), JStr("main"), JStr("42"), stamp))
  {
    AtCons(data, "pull_request", ["id"]);
    assert DigitChar(4) == '4' && DigitChar(2) == '2';
    assert IntToDecimal(42) == NatToDecimal(4) + [DigitChar(2)] == "42";
    PullRequestMerge(data, stamp, JStr("bob"), JInt(42), "42", JStr("feature"), JStr("main"));
  }
}
