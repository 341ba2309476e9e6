/**
 * The document vocabulary the controllers share: JSON-like values, stored documents
 * as maps from field name to value, the decoded login token, HTTP replies, and the
 * two share-link decisions that controllers/rosters.js and controllers/shareLinks.js
 * both make.
 */
module Documents {
  import opened Wrappers
  import opened Chat

  /** A JSON value as the controllers see it (numbers are mathematical integers). */
  datatype Value = Null | Bool(b: bool) | Num(n: int) | Str(s: string) | Arr(items: seq<Value>)

  /** A stored or posted document: its own enumerable fields. */
  type Doc = map<string, Value>

  /** JavaScript truthiness of a value (arrays are always truthy). */
  predicate TruthyValue(v: Value) {
    match v
    case Null => false
    case Bool(b) => b
    case Num(n) => n != 0
    case Str(s) => s != ""
    case Arr(_) => true
  }

  /** The decoded login token: `username`, the optional `viewers` claim and `roles`. */
  datatype Token = Token(username: Option<string>, viewers: Option<Value>, roles: Option<seq<string>>)

  /** The user named by an optional token, when it names one. */
  function TokenUser(token: Option<Token>): (u: Option<string>)
    ensures u.Some? <==> token.Some? && Truthy(token.value.username)
    ensures u.Some? ==> u.value != "" && u == token.value.username
  {
    if token.Some? && Truthy(token.value.username) then token.value.username else None
  }

  /** `req.body.f || req.query.f || fallback`: the body's value wins over the query's, and
      an empty string counts as absent. With an empty fallback the result is empty iff
      neither source gives a value. */
  function Pick(body: Option<string>, query: Option<string>, fallback: string): (r: string)
    ensures Truthy(body) ==> r == body.value
    ensures !Truthy(body) && Truthy(query) ==> r == query.value
    ensures !Truthy(body) && !Truthy(query) ==> r == fallback
    ensures fallback == "" ==> (r == "" <==> !Truthy(body) && !Truthy(query))
  {
    if Truthy(body) then body.value else if Truthy(query) then query.value else fallback
  }

  /** What an `updateOne` did: it threw, or it reported how many documents it modified
      (`None` when the reported field is absent from the driver's result). */
  datatype WriteResult = WriteThrew | Wrote(modified: Option<int>)

  /** What an awaited database call did: it threw, or it resolved to `result`. */
  datatype CallResult<T> = CallThrew | Answered(result: T)

  /** An HTTP reply: status code, `message` and an optional payload. */
  datatype Response<T> = Response(status: nat, message: string, payload: Option<T>)

  /** How an accounts handler ends: the reply it sends, an error it passes to `next`, or no
      reply at all (a rejection outside any `try`, which nothing catches). */
  datatype Ending<T> = Replied(response: Response<T>) | PassedToNext | NoReply

  // ----------------------------------------------------------- share links

  const EDITOR_LINK: string := "editorLink"
  const VIEWER_LINK: string := "viewerLink"

  /** Whether a document's link field holds exactly `link` (`undefined === link` is false). */
  predicate LinkIs(doc: Doc, field: string, link: string) {
    field in doc && doc[field] == Str(link)
  }

  /** `.select(fields)`: the listed fields the document has, and nothing else. */
  function Project(doc: Doc, fields: set<string>): (p: Doc)
    ensures p.Keys == doc.Keys * fields
    ensures forall k :: k in p ==> p[k] == doc[k]
  {
    map k | k in doc.Keys * fields :: doc[k]
  }

  /**
   * The link-details view of a fetched document: `isEditor` and `isViewer` say whether
   * each link field equals the link; then both link fields are deleted. Every other
   * field is kept as it was.
   */
  function LinkView(doc: Doc, link: string): (view: Doc)
    ensures EDITOR_LINK !in view && VIEWER_LINK !in view
    ensures "isEditor" in view && view["isEditor"] == Bool(LinkIs(doc, EDITOR_LINK, link))
    ensures "isViewer" in view && view["isViewer"] == Bool(LinkIs(doc, VIEWER_LINK, link))
    ensures forall k :: k in doc && k !in {EDITOR_LINK, VIEWER_LINK, "isEditor", "isViewer"} ==>
              k in view && view[k] == doc[k]
    ensures forall k :: k in view ==> k in doc || k == "isEditor" || k == "isViewer"
  {
    var flagged := doc["isEditor" := Bool(LinkIs(doc, EDITOR_LINK, link))]
                      ["isViewer" := Bool(LinkIs(doc, VIEWER_LINK, link))];
    flagged - {EDITOR_LINK, VIEWER_LINK}
  }

  /** The membership an accepted link grants. */
  datatype Grant = AddEditor | AddViewer | NoGrant

  /** The editor link takes precedence; a link matching neither field grants nothing. */
  function AcceptGrant(doc: Doc, link: string): (g: Grant)
    ensures g == AddEditor <==> LinkIs(doc, EDITOR_LINK, link)
    ensures g == AddViewer <==> !LinkIs(doc, EDITOR_LINK, link) && LinkIs(doc, VIEWER_LINK, link)
  {
    if LinkIs(doc, EDITOR_LINK, link) then AddEditor
    else if LinkIs(doc, VIEWER_LINK, link) then AddViewer
    else NoGrant
  }

  /** The grant agrees with the flags the link-details view shows for the same link. */
  lemma GrantMatchesView(doc: Doc, link: string)
    ensures AcceptGrant(doc, link) == AddEditor <==> LinkView(doc, link)["isEditor"] == Bool(true)
    ensures AcceptGrant(doc, link) == AddViewer <==>
              LinkView(doc, link)["isEditor"] == Bool(false) && LinkView(doc, link)["isViewer"] == Bool(true)
  {
  }

  /** A document whose two links are equal grants editor rights through either. */
  lemma EditorPrecedence(doc: Doc, link: string)
    requires LinkIs(doc, EDITOR_LINK, link) && LinkIs(doc, VIEWER_LINK, link)
    ensures AcceptGrant(doc, link) == AddEditor
    ensures LinkView(doc, link)["isEditor"] == Bool(true) && LinkView(doc, link)["isViewer"] == Bool(true)
  {
  }
}
