/**
 * controllers/accounts.js: e-mail and new-account validation, the own-account field merge,
 * delete counting, and the document rewriting of the data upload. Password hashing, tokens,
 * archives and the database are not modelled: their results are parameters.
 */
module Accounts {
  import opened Wrappers
  import opened Chat
  import opened Documents

  // ---------------------------------------------------------------- e-mail

  /** JavaScript's `\s`: the ECMAScript white space and line terminator characters. */
  predicate IsSpace(c: char) {
    var n := c as int;
    n == 0x20 || (0x09 <= n <= 0x0D) || n == 0xA0 || n == 0x1680 || (0x2000 <= n <= 0x200A)
    || n == 0x2028 || n == 0x2029 || n == 0x202F || n == 0x205F || n == 0x3000 || n == 0xFEFF
  }

  /** A character of the class `[^\s@]`. */
  predicate Plain(c: char) {
    !IsSpace(c) && c != '@'
  }

  predicate AllPlain(s: string) {
    forall k :: 0 <= k < |s| ==> Plain(s[k])
  }

  /** The input splits as plain local part, `@` at `i`, plain part, `.` at `j`, plain part,
      each part non-empty. */
  predicate EmailSplit(s: string, i: int, j: int) {
    0 < i && i + 1 < j && j + 1 < |s| && s[i] == '@' && s[j] == '.'
    && AllPlain(s[..i]) && AllPlain(s[i + 1..j]) && AllPlain(s[j + 1..])
  }

  /** What `/^[^\s@]+@[^\s@]+\.[^\s@]+$/` accepts (the middle and last parts may themselves
      contain dots, since `.` is plain). */
  ghost predicate MatchesEmailPattern(s: string) {
    exists i, j :: EmailSplit(s, i, j)
  }

  /** The first position at or after `from` whose character is not plain, or `|s|`. */
  function FirstNonPlain(s: string, from: nat): (r: nat)
    requires from <= |s|
    ensures from <= r <= |s|
    ensures forall k :: from <= k < r ==> Plain(s[k])
    ensures r < |s| ==> !Plain(s[r])
    decreases |s| - from
  {
    if from == |s| then from
    else if !Plain(s[from]) then from
    else FirstNonPlain(s, from + 1)
  }

  /** The regular expression, decided by scanning: one `@` after a non-empty plain prefix,
      nothing but plain characters after it, and a dot strictly inside the domain. */
  function CheckEmail(s: string): bool {
    var at := FirstNonPlain(s, 0);
    0 < at && at + 3 <= |s| && s[at] == '@' && FirstNonPlain(s, at + 1) == |s|
    && '.' in s[at + 2..|s| - 1]
  }

  lemma {:induction false} FirstNonPlainIs(s: string, from: nat, r: nat)
    requires from <= r <= |s|
    requires forall k :: from <= k < r ==> Plain(s[k])
    requires r < |s| ==> !Plain(s[r])
    ensures FirstNonPlain(s, from) == r
    decreases r - from
  {
    if from < r {
      FirstNonPlainIs(s, from + 1, r);
    }
  }

  /** The scan decides exactly the regular expression. */
  lemma CheckEmailCorrect(s: string)
    ensures CheckEmail(s) <==> MatchesEmailPattern(s)
  {
    if CheckEmail(s) {
      var at := FirstNonPlain(s, 0);
      var dots := s[at + 2..|s| - 1];
      var d :| 0 <= d < |dots| && dots[d] == '.';
      var j := at + 2 + d;
      assert s[j] == '.';
      assert AllPlain(s[..at]);
      assert AllPlain(s[at + 1..j]);
      assert AllPlain(s[j + 1..]);
      assert EmailSplit(s, at, j);
    }
    if MatchesEmailPattern(s) {
      var i, j :| EmailSplit(s, i, j);
      forall k | 0 <= k < i
        ensures Plain(s[k])
      {
        assert s[..i][k] == s[k];
      }
      FirstNonPlainIs(s, 0, i);
      forall k | i + 1 <= k < |s|
        ensures Plain(s[k])
      {
        if k < j {
          assert s[i + 1..j][k - i - 1] == s[k];
        } else if k > j {
          assert s[j + 1..][k - j - 1] == s[k];
        }
      }
      FirstNonPlainIs(s, i + 1, |s|);
      assert s[i + 2..|s| - 1][j - i - 2] == '.';
    }
  }

  function LowerChar(c: char): (l: char)
    ensures Plain(l) <==> Plain(c)
    ensures l == '@' <==> c == '@'
    ensures l == '.' <==> c == '.'
  {
    if 'A' <= c <= 'Z' then (c as int + 32) as char else c
  }

  /** `toLowerCase` on ASCII letters. */
  function Lower(s: string): (r: string)
    ensures |r| == |s|
    ensures forall k :: 0 <= k < |s| ==> r[k] == LowerChar(s[k])
  {
    seq(|s|, k requires 0 <= k < |s| => LowerChar(s[k]))
  }

  lemma LowerAllPlain(s: string, a: nat, b: nat)
    requires a <= b <= |s|
    ensures AllPlain(Lower(s)[a..b]) <==> AllPlain(s[a..b])
  {
    var l := Lower(s);
    assert forall k :: 0 <= k < b - a ==> l[a..b][k] == LowerChar(s[a..b][k]);
  }

  /** Lower-casing keeps every character's class, so it keeps each split. */
  lemma LowerKeepsSplit(s: string, i: int, j: int)
    ensures EmailSplit(Lower(s), i, j) <==> EmailSplit(s, i, j)
  {
    var l := Lower(s);
    if 0 < i && i + 1 < j && j + 1 < |s| {
      LowerAllPlain(s, 0, i);
      LowerAllPlain(s, i + 1, j);
      LowerAllPlain(s, j + 1, |s|);
      assert l[..i] == l[0..i] && s[..i] == s[0..i];
      assert l[j + 1..] == l[j + 1..|s|] && s[j + 1..] == s[j + 1..|s|];
    }
  }

  /** Lower-casing never changes the verdict. */
  lemma LowerKeepsVerdict(s: string)
    ensures MatchesEmailPattern(Lower(s)) <==> MatchesEmailPattern(s)
  {
    if MatchesEmailPattern(s) {
      var i, j :| EmailSplit(s, i, j);
      LowerKeepsSplit(s, i, j);
    }
    if MatchesEmailPattern(Lower(s)) {
      var i, j :| EmailSplit(Lower(s), i, j);
      LowerKeepsSplit(s, i, j);
    }
  }

  /** validateEmail: false for a falsy address; otherwise the pattern test of the
      lower-cased text, which comes to the pattern test of the text itself. */
  function ValidateEmail(email: Option<string>): (valid: bool)
    ensures valid <==> Truthy(email) && MatchesEmailPattern(email.value)
  {
    if !Truthy(email) then false
    else
      CheckEmailCorrect(Lower(email.value));
      LowerKeepsVerdict(email.value);
      CheckEmail(Lower(email.value))
  }

  /** Upper-case letters, a dotted domain and a dot in the local part are all accepted. */
  lemma EmailAccepted()
    ensures ValidateEmail(Some("A.n@Ex.org"))
  {
    var s := "A.n@Ex.org";
    assert EmailSplit(s, 3, 6);
  }

  /** Without a dot after the `@` the address is refused, whatever precedes it. */
  lemma {:induction false} EmailNeedsDot(name: string, domain: string)
    requires '.' !in domain
    ensures !ValidateEmail(Some(name + "@" + domain))
  {
    var s := name + "@" + domain;
    var at := |name|;
    assert s[at] == '@';
    if MatchesEmailPattern(s) {
      var i, j :| EmailSplit(s, i, j);
    }
  }

  /** joinMailingList: 400 for a missing or invalid address, else the save's outcome (the
      saved record that the 200 reply carries is not modelled). */
  function JoinMailingList(emailAddress: Option<string>, saved: bool): (r: Response<string>)
    ensures r.status == 400 <==> !ValidateEmail(emailAddress)
    ensures ValidateEmail(emailAddress) ==> (r.status == 200 <==> saved)
    ensures ValidateEmail(emailAddress) && !saved ==> r.status == 500
  {
    if !Truthy(emailAddress) || !ValidateEmail(emailAddress) then
      Response(400, "Invalid or No Email Address Provided", None)
    else if saved then Response(200, "success", None)
    else Response(500, "failure", None)
  }

  // ------------------------------------------------------- new accounts

  /** `req.body.f || req.query.f || req.params.f || null`. */
  function FirstOf(body: Option<string>, query: Option<string>, params: Option<string>): (r: Option<string>)
    ensures r.Some? ==> r.value != "" && (r == body || r == query || r == params)
    ensures r.None? <==> !Truthy(body) && !Truthy(query) && !Truthy(params)
    ensures Truthy(body) ==> r == body
    ensures !Truthy(body) && Truthy(query) ==> r == query
    ensures !Truthy(body) && !Truthy(query) ==> r == (if Truthy(params) then params else None)
  {
    if Truthy(body) then body else if Truthy(query) then query else if Truthy(params) then params else None
  }

  /** The account document assembled before any check. */
  datatype NewAccount = NewAccount(
    uuid: string, username: Option<string>, email: Option<string>, useCase: Option<string>,
    notes: Option<string>, preferredLng: string, roles: seq<string>, status: string, momentCreated: int)

  /** The submitted fields, each already picked from body, query or params. */
  datatype Signup = Signup(
    username: Option<string>, email: Option<string>, useCase: Option<string>, notes: Option<string>,
    preferredLng: Option<string>, password: Option<string>, password2: Option<string>)

  function NewAccountRecord(uuid: string, form: Signup, now: int): (a: NewAccount)
    ensures a.roles == ["user"] && a.status == "active"
    ensures a.preferredLng != ""
    ensures Truthy(form.preferredLng) ==> a.preferredLng == form.preferredLng.value
    ensures !Truthy(form.preferredLng) ==> a.preferredLng == "en"
    ensures a.username == form.username && a.uuid == uuid
  {
    NewAccount(uuid, form.username, form.email, form.useCase, form.notes,
               if Truthy(form.preferredLng) then form.preferredLng.value else "en",
               ["user"], "active", now)
  }

  /** The password rule: present, at least 8 characters, and equal to the confirmation. */
  predicate PasswordAcceptable(password: Option<string>, password2: Option<string>) {
    Truthy(password) && |password.value| >= 8 && password2 == password
  }

  /**
   * createNewAccount: the checks run in order (username, then uniqueness, then password),
   * and the first failing one decides the answer. `taken` is the uniqueness lookup, made
   * only for a present username; it is outside any `try`, so when it throws no reply is
   * sent. `saved` is the outcome of the save, whose errors `promiseHandler` turns into a
   * failure.
   */
  function CreateNewAccount(uuid: string, form: Signup, taken: CallResult<bool>, saved: bool, now: int)
    : (r: Ending<NewAccount>)
    ensures !Truthy(form.username) ==> r == Replied(Response(400, "noUsername", None))
    ensures r == NoReply <==> Truthy(form.username) && taken.CallThrew?
    ensures Truthy(form.username) && taken == Answered(true) ==> r == Replied(Response(400, "userExists", None))
    ensures Truthy(form.username) && taken == Answered(false) && !PasswordAcceptable(form.password, form.password2) ==>
              r == Replied(Response(400, "passwordsDontMatch", None))
    ensures r.Replied? && r.response.status == 200 <==>
              && Truthy(form.username) && taken == Answered(false)
              && PasswordAcceptable(form.password, form.password2) && saved
    ensures r.Replied? && r.response.status == 200 ==> r.response.payload == Some(NewAccountRecord(uuid, form, now))
    ensures r != PassedToNext
  {
    var account := NewAccountRecord(uuid, form, now);
    if !Truthy(form.username) then Replied(Response(400, "noUsername", None))
    else if taken.CallThrew? then NoReply
    else if taken.result then Replied(Response(400, "userExists", None))
    else if !Truthy(form.password) || |form.password.value| < 8 || form.password != form.password2 then
      Replied(Response(400, "passwordsDontMatch", None))
    else if saved then Replied(Response(200, "success", Some(account)))
    else Replied(Response(500, "failure", None))
  }

  // ------------------------------------------------------ own update

  /** The `for…in` loop of accountOwnUpdate: every submitted key except `username` whose
      value differs is copied onto the account; nothing else changes. */
  method MergeOwnUpdate(account: Doc, data: Doc) returns (updated: Doc)
    ensures updated.Keys == account.Keys + (data.Keys - {"username"})
    ensures forall k :: k in data && k != "username" ==> updated[k] == data[k]
    ensures forall k :: k in account && (k !in data || k == "username") ==> updated[k] == account[k]
  {
    updated := account;
    var keys := data.Keys;
    while keys != {}
      invariant keys <= data.Keys
      invariant updated.Keys == account.Keys + (data.Keys - keys - {"username"})
      invariant forall k :: k in data && k !in keys && k != "username" ==> updated[k] == data[k]
      invariant forall k :: k in account && (k !in data || k in keys || k == "username") ==> updated[k] == account[k]
      decreases keys
    {
      var key :| key in keys;
      if key != "username" && (key !in updated || updated[key] != data[key]) {
        updated := updated[key := data[key]];
      }
      keys := keys - {key};
    }
  }

  /** `accountData.username !== username`, with an absent field read as undefined. */
  predicate SameUser(data: Doc, tokenUsername: Option<string>)
    ensures "username" !in data ==> (SameUser(data, tokenUsername) <==> tokenUsername.None?)
    ensures "username" in data && data["username"].Str? ==>
              (SameUser(data, tokenUsername) <==> tokenUsername == Some(data["username"].s))
    ensures "username" in data && !data["username"].Str? ==> !SameUser(data, tokenUsername)
  {
    if tokenUsername.Some? then "username" in data && data["username"] == Str(tokenUsername.value)
    else "username" !in data
  }

  /** accountOwnUpdate: 403 for another user's name, 404 without an active account, else the
      merged account if the save resolves to a document. `account` is what the lookup did and
      `saved` what the save did; a lookup or save that throws goes to `next`. The username
      never changes. */
  method AccountOwnUpdate(tokenUsername: Option<string>, body: Option<Doc>, account: CallResult<Option<Doc>>,
                          saved: CallResult<bool>)
    returns (r: Ending<Doc>)
    ensures !SameUser(body.GetOr(map[]), tokenUsername) ==> r == Replied(Response(403, "Usernames do not match.", None))
    ensures r == PassedToNext <==>
              && SameUser(body.GetOr(map[]), tokenUsername)
              && (account.CallThrew? || (account.result.Some? && saved.CallThrew?))
    ensures SameUser(body.GetOr(map[]), tokenUsername) && account == Answered(None) ==>
              r == Replied(Response(404, "No active account found", None))
    ensures SameUser(body.GetOr(map[]), tokenUsername) && account.Answered? && account.result.Some?
            && saved == Answered(false) ==>
              r == Replied(Response(500, "Error updating account", None))
    ensures r.Replied? && r.response.status == 200 ==>
              && SameUser(body.GetOr(map[]), tokenUsername) && account.Answered? && account.result.Some?
              && saved == Answered(true)
              && var before := account.result.value;
              && var after := r.response.payload;
              && after.Some?
              && after.value.Keys == before.Keys + (body.GetOr(map[]).Keys - {"username"})
              && (forall k :: k in body.GetOr(map[]) && k != "username" ==> after.value[k] == body.GetOr(map[])[k])
              && (forall k :: k in before && k !in body.GetOr(map[]) ==> after.value[k] == before[k])
              && ("username" in before ==> after.value["username"] == before["username"])
    ensures SameUser(body.GetOr(map[]), tokenUsername) && account.Answered? && account.result.Some?
              && saved == Answered(true) ==>
              r.Replied? && r.response.status == 200
    ensures r != NoReply
  {
    var data := body.GetOr(map[]);
    if !SameUser(data, tokenUsername) {
      return Replied(Response(403, "Usernames do not match.", None));
    }
    if account.CallThrew? {
      return PassedToNext;
    }
    if account.result.None? {
      return Replied(Response(404, "No active account found", None));
    }
    var merged := MergeOwnUpdate(account.result.value, data);
    if saved.CallThrew? {
      r := PassedToNext;
    } else if saved.result {
      r := Replied(Response(200, "Account updated", Some(merged)));
    } else {
      r := Replied(Response(500, "Error updating account", None));
    }
  }

  // -------------------------------------------------------- deletions

  /** `req.body.usernames || []`, wrapped in an array when it is not one. */
  function UsernameList(usernames: Value): (names: seq<Value>)
    ensures !TruthyValue(usernames) ==> names == []
    ensures usernames.Arr? ==> names == usernames.items
    ensures TruthyValue(usernames) && !usernames.Arr? ==> names == [usernames]
  {
    if !TruthyValue(usernames) then [] else if usernames.Arr? then usernames.items else [usernames]
  }

  /** How many of the first `n` deletions removed something. */
  function Deleted(deletedCount: nat -> CallResult<int>, n: nat): nat {
    if n == 0 then 0
    else Deleted(deletedCount, n - 1) + (if deletedCount(n - 1) == Answered(0) then 0 else 1)
  }

  /** One of the first `n` deletions threw. */
  predicate AnyThrew(deletedCount: nat -> CallResult<int>, n: nat) {
    exists k :: 0 <= k < n && deletedCount(k).CallThrew?
  }

  /** When none of them threw, no deletion removed anything exactly when every reported
      count is 0. */
  lemma {:induction false} DeletedZero(deletedCount: nat -> CallResult<int>, n: nat)
    requires !AnyThrew(deletedCount, n)
    ensures Deleted(deletedCount, n) == 0 <==> forall k :: 0 <= k < n ==> deletedCount(k) == Answered(0)
    ensures Deleted(deletedCount, n) <= n
  {
    if n > 0 {
      assert !AnyThrew(deletedCount, n - 1);
      DeletedZero(deletedCount, n - 1);
    }
  }

  /**
   * deleteAccounts: one deletion per listed username, in order; `deletedCount(k)` is what
   * the k-th deletion did. A count of 0 is an error, anything else a deletion; the reply is
   * 404 when nothing was deleted. A deletion that throws ends the loop and goes to `next`,
   * and no counts are reported.
   */
  method DeleteAccounts(usernames: Value, deletedCount: nat -> CallResult<int>)
    returns (deleted: nat, errors: nat, r: Ending<(nat, nat)>)
    ensures r == PassedToNext <==> AnyThrew(deletedCount, |UsernameList(usernames)|)
    ensures r != NoReply
    ensures r.Replied? ==>
              && deleted + errors == |UsernameList(usernames)|
              && deleted == Deleted(deletedCount, |UsernameList(usernames)|)
              && (r.response.status == 404 <==> deleted == 0)
              && (deleted > 0 ==> r.response == Response(200, "Accounts deleted", Some((deleted, errors))))
  {
    var names := UsernameList(usernames);
    deleted, errors := 0, 0;
    var i := 0;
    while i < |names|
      invariant 0 <= i <= |names|
      invariant deleted + errors == i
      invariant deleted == Deleted(deletedCount, i)
      invariant !AnyThrew(deletedCount, i)
    {
      if deletedCount(i).CallThrew? {
        return deleted, errors, PassedToNext;
      }
      if deletedCount(i).result == 0 {
        errors := errors + 1;
      } else {
        deleted := deleted + 1;
      }
      i := i + 1;
    }
    if deleted > 0 {
      r := Replied(Response(200, "Accounts deleted", Some((deleted, errors))));
    } else {
      r := Replied(Response(404, "No active accounts found", None));
    }
  }

  // ---------------------------------------------------------- data upload

  /** The collections the upload looks for, in the order it looks. */
  const COLLECTIONS: seq<string> :=
    ["Artifact", "Category", "Document", "KnowledgeSet", "Mapping", "Segment", "Tag",
     "Account", "Persona", "Roster", "WorkStream", "Fact", "File"]

  /** The fields the upload overwrites on every imported document. */
  const IMPORT_FIELDS: set<string> :=
    {"uuid", "owners", "createdBy", "publishStatus", "publishedBy", "status", "momentCreated"}

  /** The ownership and status fields every imported document carries. */
  predicate OwnedImport(d: Doc, username: string) {
    && "_id" !in d
    && "owners" in d && d["owners"] == Arr([Str(username)])
    && "createdBy" in d && d["createdBy"] == Str(username)
    && "publishStatus" in d && d["publishStatus"] == Str("unpublished")
    && "publishedBy" in d && d["publishedBy"] == Null
    && "status" in d && d["status"] == Str("active")
  }

  /** An imported document: `_id` removed, a fresh uuid, owned and created by the uploader,
      unpublished, active, and created now. Its other fields are kept. */
  function Imported(doc: Doc, username: string, uuid: string, now: Value): (r: Doc)
    ensures OwnedImport(r, username)
    ensures "uuid" in r && r["uuid"] == Str(uuid)
    ensures "momentCreated" in r && r["momentCreated"] == now
    ensures r.Keys == (doc.Keys - {"_id"}) + IMPORT_FIELDS
    ensures forall k :: k in doc && k != "_id" && k !in IMPORT_FIELDS ==> k in r && r[k] == doc[k]
  {
    (doc - {"_id"})["uuid" := Str(uuid)]["owners" := Arr([Str(username)])]["createdBy" := Str(username)]
                   ["publishStatus" := Str("unpublished")]["publishedBy" := Null]["status" := Str("active")]
                   ["momentCreated" := now]
  }

  /** What happened to one expected collection or one document in it. */
  datatype Outcome =
    | Inserted(collection: string, document: Doc)
    | CreateFailed(collection: string, document: Doc)   // the rewritten document is reported
    | FileMissing(collection: string)

  predicate IsRejection(o: Outcome) {
    o.CreateFailed? || o.FileMissing?
  }

  /** One document's outcome: `uuid` is the one drawn for it and `accepts` says whether
      the create succeeds. */
  function DocOutcome(name: string, doc: Doc, username: string, uuid: string, now: Value,
                      accepts: (string, Doc) -> bool): (o: Outcome)
    ensures o.collection == name && !o.FileMissing?
    ensures OwnedImport(o.document, username)
    ensures o.Inserted? <==> accepts(name, o.document)
  {
    var d := Imported(doc, username, uuid, now);
    if accepts(name, d) then Inserted(name, d) else CreateFailed(name, d)
  }

  /** The outcomes of one collection's documents, in file order; `uuidFor(name, k)` is the
      uuid drawn for its k-th document. */
  function DocOutcomes(name: string, docs: seq<Doc>, username: string, uuidFor: (string, nat) -> string,
                       now: Value, accepts: (string, Doc) -> bool): (os: seq<Outcome>)
    ensures |os| == |docs|
    ensures forall k :: 0 <= k < |docs| ==> os[k] == DocOutcome(name, docs[k], username, uuidFor(name, k), now, accepts)
  {
    seq(|docs|, k requires 0 <= k < |docs| => DocOutcome(name, docs[k], username, uuidFor(name, k), now, accepts))
  }

  /** The outcomes for the given collection names, in order: the file's documents when the
      archive holds `<name>.json`, else one missing-file rejection. */
  function CollectionOutcomes(name: string, archive: map<string, seq<Doc>>, username: string,
                              uuidFor: (string, nat) -> string, now: Value, accepts: (string, Doc) -> bool)
    : seq<Outcome>
  {
    if name + ".json" in archive then DocOutcomes(name, archive[name + ".json"], username, uuidFor, now, accepts)
    else [FileMissing(name)]
  }

  function UploadOutcomes(names: seq<string>, archive: map<string, seq<Doc>>, username: string,
                          uuidFor: (string, nat) -> string, now: Value, accepts: (string, Doc) -> bool)
    : seq<Outcome>
  {
    if names == [] then []
    else
      UploadOutcomes(names[..|names| - 1], archive, username, uuidFor, now, accepts)
      + CollectionOutcomes(names[|names| - 1], archive, username, uuidFor, now, accepts)
  }

  function CountRejections(os: seq<Outcome>): nat {
    if os == [] then 0 else CountRejections(os[..|os| - 1]) + (if IsRejection(os[|os| - 1]) then 1 else 0)
  }

  lemma {:induction false} CountRejectionsAppend(xs: seq<Outcome>, ys: seq<Outcome>)
    ensures CountRejections(xs + ys) == CountRejections(xs) + CountRejections(ys)
    decreases |ys|
  {
    if ys != [] {
      var init := ys[..|ys| - 1];
      assert (xs + ys)[..|xs + ys| - 1] == xs + init;
      CountRejectionsAppend(xs, init);
    } else {
      assert xs + ys == xs;
    }
  }

  lemma CountRejectionsSnoc(os: seq<Outcome>, o: Outcome)
    ensures CountRejections(os + [o]) == CountRejections(os) + (if IsRejection(o) then 1 else 0)
  {
    assert (os + [o])[..|os|] == os;
  }

  lemma {:induction false} CountRejectionsZero(os: seq<Outcome>)
    ensures CountRejections(os) == 0 <==> forall k :: 0 <= k < |os| ==> !IsRejection(os[k])
  {
    if os != [] {
      var init := os[..|os| - 1];
      CountRejectionsZero(init);
      assert forall k :: 0 <= k < |init| ==> init[k] == os[k];
    }
  }

  /** An archive holding every expected file, whose creates all succeed, is imported
      without a single rejection. */
  lemma {:induction false} CompleteUploadHasNoRejections(names: seq<string>, archive: map<string, seq<Doc>>,
                                                         username: string, uuidFor: (string, nat) -> string,
                                                         now: Value, accepts: (string, Doc) -> bool)
    requires forall n :: n in names ==> n + ".json" in archive
    requires forall c, d :: accepts(c, d)
    ensures CountRejections(UploadOutcomes(names, archive, username, uuidFor, now, accepts)) == 0
  {
    if names != [] {
      var init := names[..|names| - 1];
      var last := names[|names| - 1];
      assert forall n :: n in init ==> n in names;
      CompleteUploadHasNoRejections(init, archive, username, uuidFor, now, accepts);
      var os := CollectionOutcomes(last, archive, username, uuidFor, now, accepts);
      assert last in names;
      CountRejectionsZero(os);
      CountRejectionsAppend(UploadOutcomes(init, archive, username, uuidFor, now, accepts), os);
    }
  }

  /** The inner loop: create one collection's documents in file order. */
  method ImportDocuments(name: string, docs: seq<Doc>, username: string, uuidFor: (string, nat) -> string,
                         now: Value, accepts: (string, Doc) -> bool)
    returns (os: seq<Outcome>)
    ensures os == DocOutcomes(name, docs, username, uuidFor, now, accepts)
  {
    ghost var all := DocOutcomes(name, docs, username, uuidFor, now, accepts);
    os := [];
    var j := 0;
    while j < |docs|
      invariant 0 <= j <= |docs|
      invariant os == all[..j]
    {
      var o := DocOutcome(name, docs[j], username, uuidFor(name, j), now, accepts);
      assert all[..j + 1] == all[..j] + [o];
      os := os + [o];
      j := j + 1;
    }
    assert all[..j] == all;
  }

  /** One expected collection: its file's documents, or one missing-file rejection. */
  method ImportCollection(name: string, archive: map<string, seq<Doc>>, username: string,
                          uuidFor: (string, nat) -> string, now: Value, accepts: (string, Doc) -> bool)
    returns (os: seq<Outcome>)
    ensures os == CollectionOutcomes(name, archive, username, uuidFor, now, accepts)
  {
    if name + ".json" in archive {
      os := ImportDocuments(name, archive[name + ".json"], username, uuidFor, now, accepts);
    } else {
      os := [FileMissing(name)];
    }
  }

  /** The outer loop over the expected collection names, in order. */
  method ImportCollections(names: seq<string>, archive: map<string, seq<Doc>>, username: string,
                           uuidFor: (string, nat) -> string, now: Value, accepts: (string, Doc) -> bool)
    returns (outcomes: seq<Outcome>)
    ensures outcomes == UploadOutcomes(names, archive, username, uuidFor, now, accepts)
  {
    outcomes := [];
    var i := 0;
    while i < |names|
      invariant 0 <= i <= |names|
      invariant outcomes == UploadOutcomes(names[..i], archive, username, uuidFor, now, accepts)
    {
      assert names[..i + 1][..i] == names[..i];
      var os := ImportCollection(names[i], archive, username, uuidFor, now, accepts);
      outcomes := outcomes + os;
      i := i + 1;
    }
    assert names[..i] == names;
  }

  /** accountOwnDataUpload: 400 without an uploaded archive; otherwise rewrite and create
      each document of each expected collection, and report how many of the outcomes are
      rejections (failed creates and missing files). */
  method UploadArchive(upload: Option<map<string, seq<Doc>>>, username: string, uuidFor: (string, nat) -> string,
                       now: Value, accepts: (string, Doc) -> bool)
    returns (status: nat, outcomes: seq<Outcome>, rejections: nat)
    ensures upload.None? ==> status == 400 && outcomes == [] && rejections == 0
    ensures upload.Some? ==> status == 200
    ensures upload.Some? ==> outcomes == UploadOutcomes(COLLECTIONS, upload.value, username, uuidFor, now, accepts)
    ensures rejections == CountRejections(outcomes)
  {
    if upload.None? {
      return 400, [], 0;
    }
    status := 200;
    outcomes := ImportCollections(COLLECTIONS, upload.value, username, uuidFor, now, accepts);
    rejections := CountRejections(outcomes);
  }

  /** A collection is reported missing exactly when its file is absent from the archive. */
  lemma {:induction false} MissingFileReported(names: seq<string>, archive: map<string, seq<Doc>>, username: string,
                                               uuidFor: (string, nat) -> string, now: Value,
                                               accepts: (string, Doc) -> bool, name: string)
    ensures FileMissing(name) in UploadOutcomes(names, archive, username, uuidFor, now, accepts)
            <==> name in names && name + ".json" !in archive
  {
    if names != [] {
      var init := names[..|names| - 1];
      var last := names[|names| - 1];
      MissingFileReported(init, archive, username, uuidFor, now, accepts, name);
      assert names == init + [last];
      var os := CollectionOutcomes(last, archive, username, uuidFor, now, accepts);
      if last + ".json" in archive {
        assert FileMissing(name) !in os;
      }
    }
  }

  /** Every imported document, inserted or rejected, is the uploader's, without the
      exported `_id`, and belongs to one of the expected collections. */
  lemma {:induction false} ImportsAreOwned(names: seq<string>, archive: map<string, seq<Doc>>, username: string,
                                           uuidFor: (string, nat) -> string, now: Value,
                                           accepts: (string, Doc) -> bool, o: Outcome)
    requires o in UploadOutcomes(names, archive, username, uuidFor, now, accepts)
    requires !o.FileMissing?
    ensures OwnedImport(o.document, username)
    ensures o.collection in names
  {
    var init := names[..|names| - 1];
    var last := names[|names| - 1];
    assert names == init + [last];
    if o in UploadOutcomes(init, archive, username, uuidFor, now, accepts) {
      ImportsAreOwned(init, archive, username, uuidFor, now, accepts, o);
    } else {
      var os := CollectionOutcomes(last, archive, username, uuidFor, now, accepts);
      var k :| 0 <= k < |os| && os[k] == o;
    }
  }

  /** Each expected collection contributes one outcome per document, or one rejection when
      its file is missing. */
  function ExpectedOutcomes(names: seq<string>, archive: map<string, seq<Doc>>): nat {
    if names == [] then 0
    else
      var name := names[|names| - 1];
      ExpectedOutcomes(names[..|names| - 1], archive)
      + (if name + ".json" in archive then |archive[name + ".json"]| else 1)
  }

  lemma {:induction false} EveryDocumentAccountedFor(names: seq<string>, archive: map<string, seq<Doc>>,
                                                     username: string, uuidFor: (string, nat) -> string,
                                                     now: Value, accepts: (string, Doc) -> bool)
    ensures |UploadOutcomes(names, archive, username, uuidFor, now, accepts)| == ExpectedOutcomes(names, archive)
  {
    if names != [] {
      EveryDocumentAccountedFor(names[..|names| - 1], archive, username, uuidFor, now, accepts);
    }
  }
}
