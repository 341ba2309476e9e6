/**
 * controllers/rosters.js: the persona re-ordering of `getFromUuid`, the field stamping
 * of `create`, the update documents and null filtering of `update`, and the decisions of
 * `addLink`, `linkDetails` and `acceptLink`. Query and write results of the database are
 * parameters.
 */
module Rosters {
  import opened Wrappers
  import opened Chat
  import opened Documents

  // ------------------------------------------------------------ getFromUuid

  /** A persona joined to a roster; only its uuid matters to the re-ordering. */
  datatype Persona = Persona(uuid: string, fields: Doc)

  /** `personas.find(p => p.uuid === uuid)`: the first persona with that uuid. */
  function FindPersona(personas: seq<Persona>, uuid: string): (r: Option<Persona>)
    ensures r.None? <==> forall k :: 0 <= k < |personas| ==> personas[k].uuid != uuid
    ensures r.Some? ==> r.value in personas && r.value.uuid == uuid
  {
    if personas == [] then None
    else if personas[0].uuid == uuid then Some(personas[0])
    else FindPersona(personas[1..], uuid)
  }

  /** Whether some persona carries the uuid. */
  predicate HasPersona(personas: seq<Persona>, uuid: string) {
    exists k :: 0 <= k < |personas| && personas[k].uuid == uuid
  }

  /** The roster's personas in `personaUuids` order, uuids without a persona dropped. */
  function SortPersonas(personaUuids: seq<string>, personas: seq<Persona>): (r: seq<Persona>)
    ensures |r| <= |personaUuids|
    ensures forall p :: p in r ==> p in personas
  {
    if personaUuids == [] then []
    else
      var found := FindPersona(personas, personaUuids[|personaUuids| - 1]);
      SortPersonas(personaUuids[..|personaUuids| - 1], personas) + (if found.Some? then [found.value] else [])
  }

  /** The uuids of `personaUuids` that have a persona, in their order, duplicates kept. */
  function MatchedUuids(personaUuids: seq<string>, personas: seq<Persona>): seq<string> {
    if personaUuids == [] then []
    else
      var u := personaUuids[|personaUuids| - 1];
      MatchedUuids(personaUuids[..|personaUuids| - 1], personas) + (if HasPersona(personas, u) then [u] else [])
  }

  function Uuids(ps: seq<Persona>): (us: seq<string>)
    ensures |us| == |ps|
    ensures forall k :: 0 <= k < |ps| ==> us[k] == ps[k].uuid
  {
    seq(|ps|, k requires 0 <= k < |ps| => ps[k].uuid)
  }

  /** The re-ordered personas follow `personaUuids` exactly, skipping the unmatched ids. */
  lemma {:induction false} SortFollowsUuidOrder(personaUuids: seq<string>, personas: seq<Persona>)
    ensures Uuids(SortPersonas(personaUuids, personas)) == MatchedUuids(personaUuids, personas)
  {
    if personaUuids != [] {
      var init := personaUuids[..|personaUuids| - 1];
      var u := personaUuids[|personaUuids| - 1];
      SortFollowsUuidOrder(init, personas);
      var found := FindPersona(personas, u);
      assert found.Some? <==> HasPersona(personas, u);
      var tail := if found.Some? then [found.value] else [];
      assert Uuids(SortPersonas(init, personas) + tail) == Uuids(SortPersonas(init, personas)) + Uuids(tail);
    }
  }

  /** Every re-ordered persona is one of the roster's personas and is named in `personaUuids`;
      there are never more of them than uuids. */
  lemma {:induction false} SortMembers(personaUuids: seq<string>, personas: seq<Persona>)
    ensures |SortPersonas(personaUuids, personas)| <= |personaUuids|
    ensures forall p :: p in SortPersonas(personaUuids, personas) ==> p in personas && p.uuid in personaUuids
  {
    if personaUuids != [] {
      SortMembers(personaUuids[..|personaUuids| - 1], personas);
    }
  }

  /** Every uuid that has a persona is represented in the result. */
  lemma {:induction false} SortKeepsMatched(personaUuids: seq<string>, personas: seq<Persona>, u: string)
    requires u in personaUuids && HasPersona(personas, u)
    ensures exists p :: p in SortPersonas(personaUuids, personas) && p.uuid == u
  {
    var init := personaUuids[..|personaUuids| - 1];
    var last := personaUuids[|personaUuids| - 1];
    var found := FindPersona(personas, last);
    if u == last {
      assert found.Some?;
      assert found.value in SortPersonas(personaUuids, personas);
    } else {
      assert personaUuids == init + [last];
      SortKeepsMatched(init, personas, u);
      var p :| p in SortPersonas(init, personas) && p.uuid == u;
      assert p in SortPersonas(personaUuids, personas);
    }
  }

  /** A roster as the aggregation returns it. `personaUuids` may be missing. */
  datatype RosterRow = RosterRow(personaUuids: Option<seq<string>>, personas: seq<Persona>, fields: Doc)

  /** getFromUuid: 400 when the aggregation throws; 404 without a match; the first match
      with its personas re-ordered; and a missing `personaUuids` makes `.map` throw, which
      the handler also answers with 400. */
  function GetFromUuid(read: CallResult<seq<RosterRow>>): (r: Response<RosterRow>)
    ensures read.CallThrew? ==> r.status == 400 && r.payload.None?
    ensures read == Answered([]) ==> r == Response(404, "Roster not found", None)
    ensures read.Answered? && read.result != [] && read.result[0].personaUuids.None? ==>
              r.status == 400 && r.payload.None?
    ensures read.Answered? && read.result != [] && read.result[0].personaUuids.Some? ==>
              var roster := read.result[0];
              && r.status == 201 && r.payload.Some?
              && r.payload.value.personas == SortPersonas(roster.personaUuids.value, roster.personas)
              && r.payload.value.personaUuids == roster.personaUuids
              && r.payload.value.fields == roster.fields
  {
    if read.CallThrew? then Response(400, "Error", None)
    else if read.result == [] then Response(404, "Roster not found", None)
    else
      var roster := read.result[0];
      if roster.personaUuids.None? then Response(400, "TypeError", None)
      else
        Response(201, "Here is the roster requested",
                 Some(roster.(personas := SortPersonas(roster.personaUuids.value, roster.personas))))
  }

  // ----------------------------------------------------------------- create

  /** `[x]` of a possibly undefined string, as stored (undefined is stored as null). */
  function StoredString(s: Option<string>): Value {
    if s.Some? then Str(s.value) else Null
  }

  /** The fields `create` writes on one roster item. */
  function Stamp(item: Doc, token: Option<Token>): (r: Doc)
    ensures "active" in r && r["active"] == Bool(true)
    ensures token.Some? ==>
              var user := StoredString(token.value.username);
              && "owners" in r && r["owners"] == Arr([user])
              && "editors" in r && r["editors"] == Arr([user])
              && "createdBy" in r && r["createdBy"] == user
              && "viewers" in r
              && r["viewers"] == (if token.value.viewers.Some? && TruthyValue(token.value.viewers.value)
                                  then Arr([token.value.viewers.value]) else Arr([]))
    ensures forall k :: (k in item && (token.None? || k !in {"owners", "editors", "viewers", "createdBy"})
                         && k != "active") ==> k in r && r[k] == item[k]
    ensures r.Keys == item.Keys + {"active"} + (if token.Some? then {"owners", "editors", "viewers", "createdBy"} else {})
  {
    var stamped :=
      if token.Some? then
        var t := token.value;
        var user := StoredString(t.username);
        item["owners" := Arr([user])]
            ["viewers" := if t.viewers.Some? && TruthyValue(t.viewers.value) then Arr([t.viewers.value]) else Arr([])]
            ["editors" := Arr([user])]
            ["createdBy" := user]
      else item;
    stamped["active" := Bool(true)]
  }

  /** Stamping twice with the same token is stamping once. */
  lemma StampIdempotent(item: Doc, token: Option<Token>)
    ensures Stamp(Stamp(item, token), token) == Stamp(item, token)
  {
    var once := Stamp(item, token);
    var twice := Stamp(once, token);
    assert twice.Keys == once.Keys;
    forall k | k in once
      ensures twice[k] == once[k]
    {
    }
  }

  /** The items `create` inserts: the body's array, then the query's (non-arrays count as
      empty). The Set collapses only repeated references, which parsed JSON never has. */
  function CombineRosters(body: Option<seq<Doc>>, query: Option<seq<Doc>>): (items: seq<Doc>)
    ensures |items| == |body.GetOr([])| + |query.GetOr([])|
    ensures items[..|body.GetOr([])|] == body.GetOr([])
    ensures items[|body.GetOr([])|..] == query.GetOr([])
  {
    body.GetOr([]) + query.GetOr([])
  }

  /** The `forEach` of `create`, stamping each item in place. */
  method StampRosters(items: array<Doc>, token: Option<Token>)
    modifies items
    ensures forall k :: 0 <= k < items.Length ==> items[k] == Stamp(old(items[k]), token)
  {
    var i := 0;
    while i < items.Length
      invariant 0 <= i <= items.Length
      invariant forall k :: 0 <= k < i ==> items[k] == Stamp(old(items[k]), token)
      invariant forall k :: i <= k < items.Length ==> items[k] == old(items[k])
    {
      var item := items[i];
      if token.Some? {
        var user := StoredString(token.value.username);
        item := item["owners" := Arr([user])];
        item := item["viewers" := if token.value.viewers.Some? && TruthyValue(token.value.viewers.value)
                                  then Arr([token.value.viewers.value]) else Arr([])];
        item := item["editors" := Arr([user])];
        item := item["createdBy" := user];
      }
      item := item["active" := Bool(true)];
      items[i] := item;
      i := i + 1;
    }
  }

  // ----------------------------------------------------------------- update

  /** The `$set` document of one roster: everything but `_id`. */
  function SetDocument(roster: Doc): (fields: Doc)
    ensures "_id" !in fields
    ensures fields.Keys == roster.Keys - {"_id"}
    ensures forall k :: k in fields ==> fields[k] == roster[k]
  {
    roster - {"_id"}
  }

  /** One `findOneAndUpdate`: the roster's `_id` (undefined when absent), the user who must
      own or edit it, and the `$set` document. */
  datatype RosterUpdate = RosterUpdate(id: Option<Value>, member: Value, fields: Doc)

  /** The updates `update` issues, one per roster, in order, each restricted to a roster the
      token's user owns or edits. Without a token every callback throws, so the request
      fails as soon as there is a roster to update. */
  function UpdateOps(token: Option<Token>, rosters: seq<Doc>): (ops: Option<seq<RosterUpdate>>)
    ensures ops.None? <==> token.None? && rosters != []
    ensures ops.Some? ==> |ops.value| == |rosters|
    ensures ops.Some? ==> forall k :: 0 <= k < |rosters| ==>
              "_id" !in ops.value[k].fields && ops.value[k].fields == SetDocument(rosters[k])
              && ops.value[k].id == (if "_id" in rosters[k] then Some(rosters[k]["_id"]) else None)
    ensures ops.Some? && token.Some? ==> forall k :: 0 <= k < |rosters| ==>
              ops.value[k].member == StoredString(token.value.username)
  {
    if rosters == [] then Some([])
    else if token.None? then None
    else
      Some(seq(|rosters|, k requires 0 <= k < |rosters| =>
        RosterUpdate(if "_id" in rosters[k] then Some(rosters[k]["_id"]) else None,
                     StoredString(token.value.username), SetDocument(rosters[k]))))
  }

  /** `updated.filter(result => result !== null)`. */
  function Surviving(results: seq<Option<Doc>>): seq<Doc> {
    if results == [] then []
    else Surviving(results[..|results| - 1]) + (if results[|results| - 1].Some? then [results[|results| - 1].value] else [])
  }

  function CountSome(results: seq<Option<Doc>>): nat {
    if results == [] then 0 else CountSome(results[..|results| - 1]) + (if results[|results| - 1].Some? then 1 else 0)
  }

  /** The reply lists exactly the updates that matched: one per non-null result, each of
      them a result, in result order. The non-null result at `i` is the reply's entry at
      the number of non-null results before `i`. */
  lemma {:induction false} SurvivingSpec(results: seq<Option<Doc>>)
    ensures |Surviving(results)| == CountSome(results)
    ensures forall d :: d in Surviving(results) ==> Some(d) in results
    ensures CountSome(results) <= |results|
    ensures forall i :: 0 <= i < |results| && results[i].Some? ==>
              CountSome(results[..i]) < |Surviving(results)|
              && Surviving(results)[CountSome(results[..i])] == results[i].value
  {
    if results != [] {
      var init := results[..|results| - 1];
      SurvivingSpec(init);
      forall d | d in Surviving(results)
        ensures Some(d) in results
      {
        if d in Surviving(init) {
          assert Some(d) in init;
        }
      }
      forall i | 0 <= i < |results| && results[i].Some?
        ensures CountSome(results[..i]) < |Surviving(results)|
        ensures Surviving(results)[CountSome(results[..i])] == results[i].value
      {
        if i < |init| {
          assert results[..i] == init[..i];
          assert init[i] == results[i];
        } else {
          assert results[..i] == init;
        }
      }
    }
  }

  /** Null results are dropped and nothing else: order is kept across concatenation. */
  lemma {:induction false} SurvivingAppend(a: seq<Option<Doc>>, b: seq<Option<Doc>>)
    ensures Surviving(a + b) == Surviving(a) + Surviving(b)
  {
    if b != [] {
      assert (a + b)[..|a + b| - 1] == a + b[..|b| - 1];
      SurvivingAppend(a, b[..|b| - 1]);
    } else {
      assert a + b == a;
    }
  }

  // ------------------------------------------------------------------ links

  const LINK_TYPES: seq<string> := ["editorLink", "viewerLink"]

  /** The body of an addLink request. */
  datatype LinkRequest = LinkRequest(rosterUuid: Option<string>, rosterLink: Option<string>, linkType: Option<string>)

  /** addLink's checks, in order: a user, then a uuid, a link and a known link type. */
  function AddLinkCheck(username: Option<string>, req: LinkRequest): (r: Option<Response<string>>)
    ensures !Truthy(username) ==> r == Some(Response(400, "Username not found in token.", None))
    ensures Truthy(username) ==>
              (r.None? <==> Truthy(req.rosterUuid) && Truthy(req.rosterLink)
                            && req.linkType.Some? && req.linkType.value in LINK_TYPES)
    ensures Truthy(username) && r.Some? ==> r.value.status == 400
  {
    if !Truthy(username) then Some(Response(400, "Username not found in token.", None))
    else if !Truthy(req.rosterUuid) || !Truthy(req.rosterLink) || !(req.linkType.Some? && req.linkType.value in LINK_TYPES) then
      Some(Response(400, "Missing or invalid parameters.", None))
    else None
  }

  /** The update addLink issues: `{[linkType]: rosterLink}` on the roster with that uuid that
      the user edits or owns. It sets exactly one field. */
  datatype LinkUpdate = LinkUpdate(uuid: string, member: string, fields: Doc)

  function AddLinkUpdate(username: string, req: LinkRequest): (u: LinkUpdate)
    requires req.rosterUuid.Some? && req.rosterLink.Some? && req.linkType.Some?
    ensures u.fields == map[req.linkType.value := Str(req.rosterLink.value)]
    ensures |u.fields.Keys| == 1
    ensures u.uuid == req.rosterUuid.value && u.member == username
  {
    var fields := map[req.linkType.value := Str(req.rosterLink.value)];
    assert fields.Keys == {req.linkType.value};
    LinkUpdate(req.rosterUuid.value, username, fields)
  }

  /** addLink: the update it issues, if any, and its reply. The update is issued exactly when
      the checks pass. Only a reported `nModified` of 0 is refused with 403: a driver whose
      result has no `nModified` field lets every checked request through with 200. */
  function AddLink(username: Option<string>, req: LinkRequest, result: WriteResult)
    : (h: (Option<LinkUpdate>, Response<string>))
    ensures h.0.Some? <==> AddLinkCheck(username, req).None?
    ensures h.0.Some? ==> h.0 == Some(AddLinkUpdate(username.value, req))
    ensures AddLinkCheck(username, req).Some? ==> h.1 == AddLinkCheck(username, req).value
    ensures AddLinkCheck(username, req).None? ==>
              && (result.WriteThrew? ==> h.1.status == 500)
              && (result == Wrote(Some(0)) ==> h.1.status == 403)
              && (result.Wrote? && result.modified != Some(0) ==> h.1.status == 200)
  {
    var check := AddLinkCheck(username, req);
    if check.Some? then (None, check.value)
    else
      var update := Some(AddLinkUpdate(username.value, req));
      if result.WriteThrew? then (update, Response(500, "An error occurred while adding the link.", None))
      else if result.modified == Some(0) then (update, Response(403, "No permissions to update or roster not found.", None))
      else (update, Response(200, "Link added to roster successfully.", None))
  }

  /** A result without `nModified` is never refused. */
  lemma AddLinkWithoutCount(username: string, req: LinkRequest)
    requires AddLinkCheck(Some(username), req).None?
    ensures AddLink(Some(username), req, Wrote(None)).1.status == 200
  {
  }

  /** The fields `.select('name description editorLink viewerLink')` keeps (with `_id`). */
  const LINK_DETAIL_FIELDS: set<string> := {"_id", "name", "description", EDITOR_LINK, VIEWER_LINK}

  /** linkDetails: the link is `body.link || query.link || ""`; 400 when the lookup throws,
      404 without a roster, else the link view of the selected fields. */
  function LinkDetails(bodyLink: Option<string>, queryLink: Option<string>, found: CallResult<Option<Doc>>)
    : (r: Response<Doc>)
    ensures found.CallThrew? ==> r.status == 400 && r.payload.None?
    ensures found == Answered(None) ==> r == Response(404, "Roster not found", None)
    ensures found.Answered? && found.result.Some? ==>
              r.status == 200 && r.payload == Some(LinkView(Project(found.result.value, LINK_DETAIL_FIELDS), Pick(bodyLink, queryLink, "")))
  {
    var link := Pick(bodyLink, queryLink, "");
    if found.CallThrew? then Response(400, "Error", None)
    else if found.result.None? then Response(404, "Roster not found", None)
    else Response(200, "Here is the roster", Some(LinkView(Project(found.result.value, LINK_DETAIL_FIELDS), link)))
  }

  /** acceptLink: the link is `body.link || query.link || ""`. 400 without a user, 400 when
      the lookup throws, 404 without a roster; else the grant (editor first) is written,
      and the reply is 200, or 400 when that write throws. */
  function AcceptLink(bodyLink: Option<string>, queryLink: Option<string>, username: Option<string>,
                      found: CallResult<Option<Doc>>, updateThrew: bool): (r: Response<Grant>)
    ensures !Truthy(username) ==> r == Response(400, "Username not found in token", None)
    ensures Truthy(username) && found.CallThrew? ==> r.status == 400 && r.payload.None?
    ensures Truthy(username) && found == Answered(None) ==> r == Response(404, "Roster not found", None)
    ensures Truthy(username) && found.Answered? && found.result.Some? ==>
              if updateThrew then r.status == 400 && r.payload.None?
              else r.status == 200 && r.payload == Some(AcceptGrant(found.result.value, Pick(bodyLink, queryLink, "")))
  {
    var link := Pick(bodyLink, queryLink, "");
    if !Truthy(username) then Response(400, "Username not found in token", None)
    else if found.CallThrew? then Response(400, "Error", None)
    else if found.result.None? then Response(404, "Roster not found", None)
    else if updateThrew then Response(400, "Error", None)
    else Response(200, "Roster link accepted", Some(AcceptGrant(found.result.value, link)))
  }
}
