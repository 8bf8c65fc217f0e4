# Webhook event normaliser

A Dafny model of the webhook receiver in `app.py`. A source-control host posts an event
(an `X-GitHub-Event` tag and a JSON body); the handler turns a `push`, a `pull_request`
or a merged pull request into one six-field event document
(`author`, `action`, `from_branch`, `to_branch`, `request_id`, `timestamp`), stores it
when its `action` is non-empty, and answers `success` or `ignored`. The receipt time is
rendered as `"<day><suffix> <Month> <Year> - <hh>:<mm> <AM/PM> UTC"`.

Modules:

- `Wrappers` (`wrappers.dfy`): `Option` and `Result`.
- `Decimal` (`decimal.dfy`): Python's `str()` of an integer, the reading of a (signed)
  numeral back into a number, and the round trips between the two, for naturals and for
  negative integers alike.
- `Segments` (`segments.dfy`): `str.split(sep)`, `sep.join`, and the last segment of a string.
- `JsonValues` (`json_values.dfy`): the decoded body as a `Json` value, and the Python
  operations the handler uses on it: `j[key]` (`Subscript`, `SubscriptPath`), `.get`, truth
  testing, `str()`. Python's exceptions are the `Fault` values `KeyError(key)`, `TypeError`
  and `AttributeError`. `At` is the plain "value at this key path, if present" view that
  the properties are stated in.
- `Timestamp` (`timestamp.dfy`): the ordinal suffix rule and the day-and-suffix prefix of
  the rendered timestamp.
- `Webhook` (`webhook.dfy`): the document (`EventDoc`; the fields are `fromBranch`,
  `toBranch`, `requestId` in Dafny spelling), the pure specification `EventDocOf` (the
  document the handler has built by line 57, or the exception raised on the way) and
  `Normalize` (`Produced(doc)`, `Ignored`, `Malformed(fault)`), the event collection as an
  append-only sequence of documents, and `HandleWebhook`, which builds the document field
  by field as the handler does and inserts it, proved equal to `Normalize`.
- `WebhookProperties` (`webhook_properties.dfy`): what each kind of delivery produces.

Fields copied from the payload keep whatever JSON value the payload held (the handler does
not check that `pusher.name` or `head.ref` is a string); `to_branch` of a push is always a
string, because it comes from `split`, and `request_id` of a pull request is `str(id)`.

A recognised event whose payload lacks a value the handler subscripts is not ignored:
`data['pusher']['name']`, `data['ref']`, `data['after']`, `['merged_by']['login']`,
`['user']['login']`, `['id']`, `['head']['ref']` and `['base']['ref']` raise `KeyError`
(or `TypeError` on a non-object), and `.split` / `.get` on the wrong kind of value raise
`AttributeError`. The model follows the code and reports these as `Malformed`, not as
`Ignored`; only `merged` (default `False`) and the top-level `action` (`.get`) may be absent.
The first exception in evaluation order is the one reported.

## Model

| member | source | states |
|---|---|---|
| Timestamp.FormatTimestamp | app.py:16-20 | `format_timestamp`: day, suffix, space, then the `strftime` text; what it yields is stated by TimestampLayout, DayOfTimestamp and FormatExamples |
| Timestamp.Suffix | app.py:19 | the suffix is always one of "st", "nd", "rd", "th" |
| Timestamp.SuffixTable | app.py:19 | for days 1..31: "st" exactly on 1, 21, 31; "nd" exactly on 2, 22; "rd" exactly on 3, 23; "th" on every other day (11, 12, 13 included) |
| Timestamp.SuffixIsEnglishOrdinal | app.py:19 | for every day of a month the "11 to 13, else last digit" rule agrees with the English rule stated on the tens and units digits |
| Timestamp.SuffixExamples | app.py:19 | 1st, 2nd, 3rd, 4th, 11th, 12th, 13th, 21st, 22nd, 23rd, 31st |
| Timestamp.TimestampLayout | app.py:16-20 | the timestamp is the decimal day, immediately followed by its suffix and a space, then the `strftime` rendering of month, year and clock |
| Timestamp.DayOfTimestamp | app.py:20 | reading the leading digits of a rendered timestamp gives back its day |
| Timestamp.FormatExamples | app.py:17-20 | whatever `strftime` renders for the rest, day 1 starts "1st ", day 12 starts "12th ", day 22 starts "22nd " |
| Decimal.NatToDecimal | app.py:20 | `str()` of a non-negative integer is a non-empty string of digits with no leading zero, and "0" for zero |
| Decimal.IntToDecimal | app.py:54 | `str()` of an integer starts with '-' exactly when it is negative; after the sign comes the numeral of its magnitude (so `str(-42)` is "-42") |
| Decimal.IntRoundTrip | app.py:54 | `str(i)` is a signed numeral, and reading it back gives `i`, negative or not |
| Decimal.SignedDecimalCanonical | app.py:54 | every signed numeral without a superfluous leading zero or a "-0" is `str()` of its own value |
| Decimal.DecimalRoundTrip | app.py:54 | reading back a rendered number gives the number |
| Decimal.DecimalCanonical | app.py:54 | every digit string without a superfluous leading zero is the rendering of its own value |
| Decimal.IntToDecimalInjective | app.py:54 | distinct integer ids give distinct `request_id` strings (ids of different JSON types can collide: `str(42)` and `str("42")` are both "42") |
| Decimal.NatToDecimalInjective | app.py:20 | distinct days give distinct decimal day strings |
| Segments.Split | app.py:39 | `split('/')` returns at least one piece and no piece contains the separator |
| Segments.SplitJoin | app.py:39 | joining the pieces of `split` with the separator gives the string back |
| Segments.LastSegment | app.py:39 | the last segment contains no '/', is a suffix of the string, and is either the whole string or preceded by '/' |
| Segments.SplitLastIsLastSegment | app.py:39 | `s.split('/')[-1]` is the last segment of `s` |
| Segments.BranchOfHeadsRef | app.py:39 | `refs/heads/X` with no '/' in X gives branch X |
| Segments.NestedBranchKeepsLastSegment | app.py:39 | `refs/heads/feature/x` gives `x`, not `feature/x` |
| JsonValues.Subscript | app.py:38 | `j[key]`: the value under `key` of an object, KeyError when the key is absent, TypeError on a non-object; its chains are characterised by SubscriptPathAt |
| JsonValues.SubscriptPath | app.py:38-40 | `j[k1][k2]...` left to right, stopping at the first exception; SubscriptPathAt states that it succeeds exactly on present paths with the value found there |
| JsonValues.Get | app.py:43-44 | `j.get(key, default)`: the value under `key`, or the default when absent, AttributeError on a non-object; PullRequestDocument and AbsentMergedIsPullRequest state its effect on the merge test |
| JsonValues.Truthy | app.py:47 | Python truth testing of `is_merged`: null, false, 0, "" and empty containers are false; MergedFlag and PullRequestMerge/PullRequestOpened use it |
| JsonValues.PyStr | app.py:54 | `str()` of a scalar (integers through IntToDecimal, whose round trip IntRoundTrip proves); object and array give UnmodelledRepr, as PullRequestMalformedIff states |
| JsonValues.SubscriptPathAt | app.py:38-40 | a chain of subscripts succeeds exactly when every key is present in nested objects, yields the value found there, and otherwise raises KeyError or TypeError |
| Webhook.DefaultDoc | app.py:27-34 | the starting document: five empty strings and the receipt time; ProducedIffKnownAction states the time survives |
| Webhook.RefBranch | app.py:39 | `ref.split('/')[-1]`, AttributeError on a non-string; RefBranchIsLastSegment states a string ref gives its last segment |
| Webhook.PushDoc | app.py:36-40 | the push branch in source order; PushEvent and PushMalformedIff state its result and its exceptions |
| Webhook.PullRequestFields | app.py:54-56 | `str(id)`, `head.ref`, `base.ref` in source order; PullRequestDocument states the fields it sets |
| Webhook.PullRequestDoc | app.py:42-56 | the pull-request branch with the merge test; PullRequestMerge, PullRequestOpened, PullRequestDocument and PullRequestMalformedIff state its outcomes |
| Webhook.EventDocOf | app.py:27-57 | dispatch on the event type: push, pull request, or the untouched default document for any other type; IgnoredIffUnknownType states the last case |
| Webhook.Normalize | app.py:27-62 | the handler's outcome: stored when the action is non-empty, ignored otherwise, malformed on an exception; ProducedIffKnownAction and IgnoredIffUnknownType characterise it |
| Webhook.ReplyTo | app.py:58-62 | "success" for a stored document, "ignored" otherwise, the exception itself when one escapes; HandleWebhook's ensures relates it to the method |
| Webhook.StoredBy | app.py:58-59 | the one document stored on a produced outcome, none otherwise; HandleWebhook's ensures relates it to the collection |
| Webhook.HandleWebhook | app.py:22-62 | building the document field by field from the defaults gives `Normalize`'s outcome; the reply is "success" and the document is appended when produced, "ignored" and nothing appended when ignored, the exception and nothing appended when malformed |
| Webhook.EventCollection.InsertOne | app.py:59 | inserting appends exactly the document to the collection |
| WebhookProperties.RefBranchIsLastSegment | app.py:39 | `ref.split('/')[-1]` on a string ref succeeds and is the last segment of the ref |
| WebhookProperties.PushEvent | app.py:36-40 | a complete push yields action PUSH, the pusher's name as author, the last segment of `ref` as `to_branch`, `after` as `request_id`, an empty `from_branch` and the receipt time |
| WebhookProperties.PushToHeadsRef | app.py:39 | a produced push to `refs/heads/X`, X without '/', has `to_branch` X and an empty `from_branch` |
| WebhookProperties.PushMalformedIff | app.py:36-40 | a push raises exactly when `pusher.name`, `ref` or `after` is missing or `ref` is not a string, and is never ignored |
| WebhookProperties.PullRequestMerge | app.py:42-56 | a complete closed-and-merged pull request yields MERGE with `merged_by.login` as author, `str(id)`, head ref and base ref |
| WebhookProperties.PullRequestOpened | app.py:42-56 | a complete pull request that is not closed-and-merged yields PULL_REQUEST with `user.login` as author, `str(id)`, head ref and base ref |
| WebhookProperties.PullRequestDocument | app.py:42-56 | every produced pull-request document has `str(pull_request.id)` as `request_id`, `head.ref` and `base.ref` as branches whatever the merge state, MERGE exactly for closed-and-merged deliveries, and the login from the matching path |
| WebhookProperties.PullRequestMalformedIff | app.py:43-56 | a pull request raises exactly when a value it reads is missing, `pull_request` is not an object, or the id has no modelled string form; it is never ignored |
| WebhookProperties.AbsentMergedIsPullRequest | app.py:43-52 | with no `merged` key the flag counts as false and the document is a PULL_REQUEST by `user.login` |
| WebhookProperties.IgnoredIffUnknownType | app.py:27-62 | a delivery is ignored exactly when its event type is neither `push` nor `pull_request` |
| WebhookProperties.ProducedIffKnownAction | app.py:27-59 | a document is stored exactly when its action is PUSH, PULL_REQUEST or MERGE, and its timestamp is the receipt time, never a payload value |
| WebhookProperties.PushPayload | app.py:36-40 | a payload `{pusher: {name: N}, ref: "refs/heads/" + X, after: C}`, X without '/', yields exactly the document PUSH by N to X at C with an empty `from_branch` |
| WebhookProperties.AlicePush | app.py:36-40 | the sample push by alice to `refs/heads/main` at `abc123` yields PUSH, alice, `main`, `abc123`, empty `from_branch` |
| WebhookProperties.BobMerge | app.py:42-56 | any closed, merged pull-request payload with id 42, head `feature`, base `main` and `merged_by.login` bob yields MERGE, bob, "42", `feature`, `main` |

## Left out

- Flask routing, request parsing, header access and JSON responses (app.py:1, 9, 22-25, 60-62, 64-72): the event type and decoded body are parameters, and the reply is the `status` text or the escaping exception. A missing `X-GitHub-Event` header behaves like any other unrecognised tag. Flask's turning of an exception into an HTTP 500 is not modelled.
- JSON numbers with a fraction or exponent (Python floats) are not part of `Json`.
- JsonValues.PyStr: `str()` of an object or array `pull_request.id` is Python's repr, whose key order is insertion order, which a `map` does not keep; the model reports such a payload as the fault `UnmodelledRepr` instead of storing a document.
- `request_id` does not keep ids of different JSON types apart: `str()` gives "42" for both the integer 42 and the string "42", and "None" for both null and the string "None"; only distinct integer ids are proved to give distinct strings (IntToDecimalInjective).
- MongoDB (app.py:12-14, 59, 67-69): `insert_one` is modelled as appending to a sequence of documents; the `_id` it assigns, storage failures, and the `GET /api/actions` query (`find().sort("_id", -1).limit(10)` and the `_id` stringification) are database semantics outside this code.
- `.env` / `os.getenv` configuration (app.py:4-7, 12).
- `datetime.utcnow()` (app.py:33): the receipt time is the `UtcTime` parameter of `HandleWebhook`.
- Timestamp.TimestampLayout: the `%B %Y - %I:%M %p` part of `strftime` (month name, year, 12-hour clock, AM/PM) is taken as the given text `rest` of `UtcTime`, not computed.
