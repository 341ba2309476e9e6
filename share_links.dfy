/**
 * controllers/shareLinks.js: the share-link endpoints common to every shareable
 * collection. Each handler's decision (which collection, which query, which update,
 * which reply) is a function of the request, the token and what the database answered.
 * The request fields are the strings already picked by `body.f || query.f || ""`
 * (`Documents.Pick` with an empty fallback).
 */
module ShareLinks {
  import opened Wrappers
  import opened Documents

  /** The keys of the `schemas` table. Note the singular `segment`. */
  const SCHEMAS: set<string> :=
    {"personas", "rosters", "workStreams", "artifacts", "categories", "documents", "knowledgeSets",
     "segment", "mappings", "tags"}

  /** Names every plain object inherits from `Object.prototype`: `schemas[name]` is truthy for
      them too, but what it yields is not a model. */
  const INHERITED: set<string> :=
    {"constructor", "hasOwnProperty", "isPrototypeOf", "propertyIsEnumerable", "toLocaleString",
     "toString", "valueOf", "__proto__", "__defineGetter__", "__defineSetter__", "__lookupGetter__",
     "__lookupSetter__"}

  /** What `schemas[name]` yields. */
  datatype Lookup = Model(collection: string) | NotAModel | Unknown

  function LookupSchema(name: string): (l: Lookup)
    ensures l.Model? <==> name in SCHEMAS
    ensures l.Model? ==> l.collection == name
    ensures l.Unknown? <==> name !in SCHEMAS && name !in INHERITED
  {
    if name in SCHEMAS then Model(name) else if name in INHERITED then NotAModel else Unknown
  }

  /** The guard `schemas[schemaName]`: truthy unless the name is unknown. */
  predicate Known(name: string) {
    !LookupSchema(name).Unknown?
  }

  /** How a handler ends: a 200 reply, an `ApiError.badRequest`, or an exception of another
      kind (a TypeError or a failed database call) passed on to the error middleware. */
  datatype Answer = Done(message: string) | BadRequest(message: string) | InternalError

  /** The filter of an update. */
  datatype Query =
    | EditableBy(uuid: string, username: string)   // `{uuid, $or: [{editors: u}, {owners: u}]}`
    | ByUuid(uuid: string)
    | ById(id: Option<Value>)

  /** The update document. */
  datatype Update =
    | SetLink(field: string, link: string)       // `{[field]: link}`
    | AddToSet(field: string, username: string)  // `{$addToSet: {[field]: username}}`
    | Pull(field: string, username: string)      // `{$pull: {[field]: username}}`
    | NoChange                                   // `{}`

  /** One `updateOne` call on a collection. */
  datatype Write = Write(collection: string, query: Query, update: Update)

  /** What a handler did: the write it issued, if any, and how it ended. */
  datatype Handled = Handled(write: Option<Write>, answer: Answer)

  /** The outcome of a checked write: refused when it reports 0 documents modified. */
  function AfterWrite(result: WriteResult, done: string, refused: string): (a: Answer)
    ensures result.WriteThrew? ==> a == InternalError
    ensures result == Wrote(Some(0)) ==> a == BadRequest(refused)
    ensures result.Wrote? && result.modified != Some(0) ==> a == Done(done)
  {
    if result.WriteThrew? then InternalError
    else if result.modified == Some(0) then BadRequest(refused)
    else Done(done)
  }

  // -------------------------------------------------------------- addLink

  const NO_PERMISSION: string := "Unable to update. Ensure you have the right permissions."

  /**
   * addLink: a user and a known schema are required; reading `roles` fails without roles;
   * the link type chooses the one field set; only then is the collection used, and a
   * reported count of 0 modified documents is refused.
   */
  function AddLink(token: Option<Token>, schema: string, uuid: string, link: string, linkType: string,
                   result: WriteResult): (h: Handled)
    ensures TokenUser(token).None? || !Known(schema) ==> h == Handled(None, BadRequest("Invalid request"))
    ensures h.write.Some? <==>
              && TokenUser(token).Some? && schema in SCHEMAS && token.value.roles.Some?
              && (linkType == EDITOR_LINK || linkType == VIEWER_LINK)
    ensures h.write.Some? ==>
              h.write.value == Write(schema, EditableBy(uuid, TokenUser(token).value), SetLink(linkType, link))
              && h.answer == AfterWrite(result, "Link Added", NO_PERMISSION)
    ensures TokenUser(token).Some? && Known(schema) && token.value.roles.Some?
            && linkType != EDITOR_LINK && linkType != VIEWER_LINK ==>
              h == Handled(None, BadRequest("Invalid linkType"))
    ensures TokenUser(token).Some? && Known(schema) && token.value.roles.None? ==> h == Handled(None, InternalError)
    ensures TokenUser(token).Some? && LookupSchema(schema).NotAModel? && token.value.roles.Some?
            && (linkType == EDITOR_LINK || linkType == VIEWER_LINK) ==>
              h == Handled(None, InternalError)
  {
    var user := TokenUser(token);
    if user.None? || !Known(schema) then Handled(None, BadRequest("Invalid request"))
    else if token.value.roles.None? then Handled(None, InternalError)
    else if linkType != EDITOR_LINK && linkType != VIEWER_LINK then Handled(None, BadRequest("Invalid linkType"))
    else if LookupSchema(schema).NotAModel? then Handled(None, InternalError)
    else
      var write := Write(schema, EditableBy(uuid, user.value), SetLink(linkType, link));
      Handled(Some(write), AfterWrite(result, "Link Added", NO_PERMISSION))
  }

  // ---------------------------------------------------------- linkDetails

  /** The fields `.select('name description url editorLink viewerLink')` keeps (with `_id`). */
  const DETAIL_FIELDS: set<string> := {"_id", "name", "description", "url", EDITOR_LINK, VIEWER_LINK}

  /** linkDetails: an unknown schema is refused; `found` is what the lookup by link did,
      and a lookup that throws goes to the error middleware. */
  function LinkDetails(schema: string, link: string, found: CallResult<Option<Doc>>): (r: (Answer, Option<Doc>))
    ensures !Known(schema) ==> r == (BadRequest("Invalid schema"), None)
    ensures LookupSchema(schema).NotAModel? ==> r == (InternalError, None)
    ensures schema in SCHEMAS && found.CallThrew? ==> r == (InternalError, None)
    ensures schema in SCHEMAS && found == Answered(None) ==> r == (BadRequest("Document not found"), None)
    ensures r.1.Some? <==> schema in SCHEMAS && found.Answered? && found.result.Some?
    ensures r.1.Some? ==>
              r == (Done("Here are the details"), Some(LinkView(Project(found.result.value, DETAIL_FIELDS), link)))
  {
    if !Known(schema) then (BadRequest("Invalid schema"), None)
    else if LookupSchema(schema).NotAModel? then (InternalError, None)
    else if found.CallThrew? then (InternalError, None)
    else if found.result.None? then (BadRequest("Document not found"), None)
    else (Done("Here are the details"), Some(LinkView(Project(found.result.value, DETAIL_FIELDS), link)))
  }

  /** The details view shows the document's name, description and url and nothing of its
      links beyond the two flags. */
  lemma DetailsHideLinks(schema: string, link: string, doc: Doc)
    requires schema in SCHEMAS
    ensures var view := LinkDetails(schema, link, Answered(Some(doc))).1.value;
            && view.Keys <= {"_id", "name", "description", "url", "isEditor", "isViewer"}
            && (forall k :: k in doc && k in {"_id", "name", "description", "url"} ==> k in view && view[k] == doc[k])
  {
  }

  // ----------------------------------------------------------- acceptLink

  /** The membership field a grant adds the user to. */
  function GrantUpdate(grant: Grant, username: string): (u: Update)
    ensures grant == AddEditor ==> u == AddToSet("editors", username)
    ensures grant == AddViewer ==> u == AddToSet("viewers", username)
    ensures grant == NoGrant ==> u == NoChange
  {
    match grant
    case AddEditor => AddToSet("editors", username)
    case AddViewer => AddToSet("viewers", username)
    case NoGrant => NoChange
  }

  /** acceptLink: a user and a known schema are required; `found` is what the lookup by link
      did, and `threw` whether the membership update threw. Either throw goes to the error
      middleware. */
  function AcceptLink(token: Option<Token>, schema: string, link: string, found: CallResult<Option<Doc>>,
                      threw: bool)
    : (h: Handled)
    ensures TokenUser(token).None? || !Known(schema) ==> h == Handled(None, BadRequest("Invalid request"))
    ensures TokenUser(token).Some? && LookupSchema(schema).NotAModel? ==> h == Handled(None, InternalError)
    ensures TokenUser(token).Some? && schema in SCHEMAS && found.CallThrew? ==> h == Handled(None, InternalError)
    ensures TokenUser(token).Some? && schema in SCHEMAS && found == Answered(None) ==>
              h == Handled(None, BadRequest("Document not found"))
    ensures h.write.Some? <==> TokenUser(token).Some? && schema in SCHEMAS && found.Answered? && found.result.Some?
    ensures h.write.Some? ==>
              var doc := found.result.value;
              && h.write.value.collection == schema
              && h.write.value.query == ById(if "_id" in doc then Some(doc["_id"]) else None)
              && h.write.value.update == GrantUpdate(AcceptGrant(doc, link), TokenUser(token).value)
              && h.answer == (if threw then InternalError else Done("Link accepted"))
  {
    var user := TokenUser(token);
    if user.None? || !Known(schema) then Handled(None, BadRequest("Invalid request"))
    else if LookupSchema(schema).NotAModel? then Handled(None, InternalError)
    else if found.CallThrew? then Handled(None, InternalError)
    else if found.result.None? then Handled(None, BadRequest("Document not found"))
    else
      var doc := found.result.value;
      var id := if "_id" in doc then Some(doc["_id"]) else None;
      var write := Write(schema, ById(id), GrantUpdate(AcceptGrant(doc, link), user.value));
      Handled(Some(write), if threw then InternalError else Done("Link accepted"))
  }

  // ----------------------------------------------------------- removeLink

  const NOT_IN_ROLE: string := "Unable to update. User may not be in the specified role."

  /** removeLink: a user and a known schema are required; the link type chooses the
      membership the user is pulled from; a reported count of 0 is refused. */
  function RemoveLink(token: Option<Token>, schema: string, uuid: string, linkType: string, result: WriteResult)
    : (h: Handled)
    ensures TokenUser(token).None? || !Known(schema) ==> h == Handled(None, BadRequest("Invalid request"))
    ensures TokenUser(token).Some? && Known(schema) && linkType != EDITOR_LINK && linkType != VIEWER_LINK ==>
              h == Handled(None, BadRequest("Invalid linkType"))
    ensures TokenUser(token).Some? && LookupSchema(schema).NotAModel?
            && (linkType == EDITOR_LINK || linkType == VIEWER_LINK) ==>
              h == Handled(None, InternalError)
    ensures h.write.Some? <==>
              TokenUser(token).Some? && schema in SCHEMAS && (linkType == EDITOR_LINK || linkType == VIEWER_LINK)
    ensures h.write.Some? ==>
              && h.write.value.collection == schema && h.write.value.query == ByUuid(uuid)
              && h.write.value.update == Pull(if linkType == EDITOR_LINK then "editors" else "viewers",
                                              TokenUser(token).value)
              && h.answer == AfterWrite(result, "Link removed", NOT_IN_ROLE)
  {
    var user := TokenUser(token);
    if user.None? || !Known(schema) then Handled(None, BadRequest("Invalid request"))
    else if linkType != EDITOR_LINK && linkType != VIEWER_LINK then Handled(None, BadRequest("Invalid linkType"))
    else if LookupSchema(schema).NotAModel? then Handled(None, InternalError)
    else
      var field := if linkType == EDITOR_LINK then "editors" else "viewers";
      Handled(Some(Write(schema, ByUuid(uuid), Pull(field, user.value))), AfterWrite(result, "Link removed", NOT_IN_ROLE))
  }

  // -------------------------------------------------- effect of the updates

  /** The members listed in an array field (none when it is absent or not an array). */
  function Members(doc: Doc, field: string): seq<Value> {
    if field in doc && doc[field].Arr? then doc[field].items else []
  }

  function Without(items: seq<Value>, v: Value): (r: seq<Value>)
    ensures v !in r
    ensures forall x :: x in r <==> x in items && x != v
  {
    if items == [] then []
    else (if items[0] == v then [] else [items[0]]) + Without(items[1..], v)
  }

  /** What an update does to a matched document whose membership fields are arrays or
      absent (Mongo refuses `$addToSet` and `$pull` on other values; the model leaves the
      document unchanged then). */
  function Apply(doc: Doc, u: Update): (d: Doc)
    ensures u.SetLink? ==> d == doc[u.field := Str(u.link)]
    ensures forall k :: k in doc && (u.NoChange? || k != u.field) ==> k in d && d[k] == doc[k]
  {
    match u
    case SetLink(field, link) => doc[field := Str(link)]
    case AddToSet(field, user) =>
      if field in doc && !doc[field].Arr? then doc
      else if Str(user) in Members(doc, field) then doc
      else doc[field := Arr(Members(doc, field) + [Str(user)])]
    case Pull(field, user) =>
      if field in doc && !doc[field].Arr? then doc
      else if field in doc then doc[field := Arr(Without(Members(doc, field), Str(user)))]
      else doc
    case NoChange => doc
  }

  /** Once addLink's update has been applied, accepting the same link grants the role its
      link type names, except that a viewer link equal to the editor link grants editing. */
  lemma AddThenAccept(token: Option<Token>, schema: string, uuid: string, link: string, linkType: string,
                      result: WriteResult, doc: Doc)
    requires AddLink(token, schema, uuid, link, linkType, result).write.Some?
    ensures var after := Apply(doc, AddLink(token, schema, uuid, link, linkType, result).write.value.update);
            && (linkType == EDITOR_LINK ==> AcceptGrant(after, link) == AddEditor)
            && (linkType == VIEWER_LINK && !LinkIs(doc, EDITOR_LINK, link) ==> AcceptGrant(after, link) == AddViewer)
  {
  }

  /** Accepting twice adds the user once: `$addToSet` is idempotent. */
  lemma AcceptIdempotent(doc: Doc, field: string, username: string)
    ensures Apply(Apply(doc, AddToSet(field, username)), AddToSet(field, username)) == Apply(doc, AddToSet(field, username))
    ensures !(field in doc && !doc[field].Arr?) ==> Str(username) in Members(Apply(doc, AddToSet(field, username)), field)
  {
  }

  /** removeLink undoes acceptLink: after the user is added to a role and then pulled from
      it, the user is no longer in it and every other member stays. */
  lemma {:induction false} AcceptThenRemove(doc: Doc, field: string, username: string)
    requires field !in doc || doc[field].Arr?
    ensures var after := Apply(Apply(doc, AddToSet(field, username)), Pull(field, username));
            && Str(username) !in Members(after, field)
            && forall v :: v in Members(doc, field) && v != Str(username) ==> v in Members(after, field)
  {
    var added := Apply(doc, AddToSet(field, username));
    assert field in added && added[field].Arr?;
    assert forall v :: v in Members(doc, field) ==> v in Members(added, field);
  }

  /** Only the ten listed names reach a collection; `segments` is refused as unknown. */
  lemma SchemaNames()
    ensures Known("segment") && !Known("segments") && !Known("")
    ensures !Known("Persona") && LookupSchema("personas") == Model("personas")
    ensures LookupSchema("constructor") == NotAModel
  {
  }
}
