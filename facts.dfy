/**
 * controllers/facts.js: the JSONL training-set formatter, the query documents of
 * `findFacts` and `getFactsFromKnowledgeProfiles`, and the request guards around them.
 * The database is a parameter: a query's result is passed in, `None` when it threw.
 */
module Facts {
  import opened Wrappers
  import opened Chat
  import opened Documents
  import Seqs

  /** A fact as the formatter reads it: the fact text (possibly undefined) and its questions. */
  datatype Fact = Fact(fact: Option<string>, questions: seq<string>)

  // --------------------------------------------------------- JSON encoding

  function HexDigit(d: nat): char
    requires d < 16
  {
    if d < 10 then '0' + d as char else 'a' + (d - 10) as char
  }

  /** How JSON.stringify writes one character inside a string literal. */
  function EscapeChar(c: char): (r: string)
    ensures r == [c] <==> c != '"' && c != '\\' && c >= ' '
    ensures r != [c] ==> |r| >= 2 && r[0] == '\\'
  {
    if c == '"' then "\\\""
    else if c == '\\' then "\\\\"
    else if c as int == 8 then "\\b"
    else if c as int == 12 then "\\f"
    else if c == '\n' then "\\n"
    else if c == '\r' then "\\r"
    else if c == '\t' then "\\t"
    else if c < ' ' then "\\u00" + [HexDigit(c as nat / 16), HexDigit(c as nat % 16)]
    else [c]
  }

  function Escape(s: string): (r: string)
  {
    if s == [] then "" else Escape(s[..|s| - 1]) + EscapeChar(s[|s| - 1])
  }

  function Quote(s: string): (r: string)
  {
    "\"" + Escape(s) + "\""
  }

  function RoleName(r: Role): string {
    match r
    case System => "system"
    case User => "user"
    case Assistant => "assistant"
  }

  /** A message object; an undefined content is left out, as JSON.stringify does. */
  function EncodeMessage(m: Message): (r: string)
  {
    "{\"role\":" + Quote(RoleName(m.role))
    + (if m.content.Some? then ",\"content\":" + Quote(m.content.value) else "") + "}"
  }

  function EncodeMessages(ms: seq<Message>): (r: string)
  {
    if ms == [] then ""
    else if |ms| == 1 then EncodeMessage(ms[0])
    else EncodeMessage(ms[0]) + "," + EncodeMessages(ms[1..])
  }

  /** One JSONL line: `{"messages":[...]}`. */
  function EncodeLine(ms: seq<Message>): string
  {
    "{\"messages\":[" + EncodeMessages(ms) + "]}"
  }

  lemma EscapeCharNoNewline(c: char)
    ensures '\n' !in EscapeChar(c)
  {
    if c < ' ' && c != '\n' && c != '\r' && c != '\t' && c as int != 8 && c as int != 12 {
      assert HexDigit(c as nat / 16) != '\n' && HexDigit(c as nat % 16) != '\n';
    }
  }

  /** A newline inside a string is always written as the two characters `\n`. */
  lemma {:induction false} EscapeNoNewline(s: string)
    ensures '\n' !in Escape(s)
  {
    if s != [] {
      EscapeNoNewline(s[..|s| - 1]);
      EscapeCharNoNewline(s[|s| - 1]);
      NoNewlineConcat(Escape(s[..|s| - 1]), EscapeChar(s[|s| - 1]));
    }
  }

  lemma NoNewlineConcat(a: string, b: string)
    requires '\n' !in a && '\n' !in b
    ensures '\n' !in a + b
  {
  }

  lemma QuoteNoNewline(s: string)
    ensures '\n' !in Quote(s)
  {
    EscapeNoNewline(s);
    NoNewlineConcat("\"", Escape(s));
    NoNewlineConcat("\"" + Escape(s), "\"");
  }

  lemma EncodeMessageNoNewline(m: Message)
    ensures '\n' !in EncodeMessage(m)
  {
    QuoteNoNewline(RoleName(m.role));
    var head := "{\"role\":" + Quote(RoleName(m.role));
    NoNewlineConcat("{\"role\":", Quote(RoleName(m.role)));
    var tail := if m.content.Some? then ",\"content\":" + Quote(m.content.value) else "";
    if m.content.Some? {
      QuoteNoNewline(m.content.value);
      NoNewlineConcat(",\"content\":", Quote(m.content.value));
    }
    NoNewlineConcat(head, tail);
    NoNewlineConcat(head + tail, "}");
  }

  lemma {:induction false} EncodeMessagesNoNewline(ms: seq<Message>)
    ensures '\n' !in EncodeMessages(ms)
  {
    if ms != [] {
      EncodeMessageNoNewline(ms[0]);
      if |ms| > 1 {
        EncodeMessagesNoNewline(ms[1..]);
        NoNewlineConcat(EncodeMessage(ms[0]), ",");
        NoNewlineConcat(EncodeMessage(ms[0]) + ",", EncodeMessages(ms[1..]));
      }
    }
  }

  /** A JSONL line never contains a raw newline, whatever the texts it carries. */
  lemma EncodeLineNoNewline(ms: seq<Message>)
    ensures '\n' !in EncodeLine(ms)
  {
    EncodeMessagesNoNewline(ms);
    NoNewlineConcat("{\"messages\":[", EncodeMessages(ms));
    NoNewlineConcat("{\"messages\":[" + EncodeMessages(ms), "]}");
  }

  // ------------------------------------------------------- joining lines

  /** `Array.prototype.join(sep)` on strings. */
  function Join(lines: seq<string>, sep: char): string {
    if lines == [] then ""
    else if |lines| == 1 then lines[0]
    else lines[0] + [sep] + Join(lines[1..], sep)
  }

  /** The position of the first `c` in `s`, or `|s|`. */
  function FirstIndex(s: string, c: char): (i: nat)
    ensures i <= |s|
    ensures i < |s| ==> s[i] == c
    ensures c !in s[..i]
  {
    if s == [] then 0
    else if s[0] == c then 0
    else
      assert s[..1 + FirstIndex(s[1..], c)] == [s[0]] + s[1..][..FirstIndex(s[1..], c)];
      1 + FirstIndex(s[1..], c)
  }

  /** `String.prototype.split(sep)` for a one-character separator. */
  function Split(s: string, sep: char): seq<string>
    decreases |s|
  {
    var i := FirstIndex(s, sep);
    if i == |s| then [s] else [s[..i]] + Split(s[i + 1..], sep)
  }

  /** Lines without the separator are recovered by splitting their join. */
  lemma {:induction false} SplitJoin(lines: seq<string>, sep: char)
    requires |lines| > 0
    requires forall k :: 0 <= k < |lines| ==> sep !in lines[k]
    ensures Split(Join(lines, sep), sep) == lines
  {
    var s := Join(lines, sep);
    if |lines| == 1 {
      FirstIndexAbsent(s, sep);
    } else {
      var first, others := lines[0], lines[1..];
      var rest := Join(others, sep);
      assert s == first + ([sep] + rest);
      FirstIndexAfter(first, sep, rest);
      var i := |first|;
      assert s[..i] == first;
      assert s[i + 1..] == rest;
      assert Split(s, sep) == [first] + Split(rest, sep);
      assert forall k :: 0 <= k < |others| ==> others[k] == lines[k + 1];
      SplitJoin(others, sep);
      assert [first] + others == lines;
    }
  }

  lemma {:induction false} FirstIndexAbsent(s: string, c: char)
    requires c !in s
    ensures FirstIndex(s, c) == |s|
  {
    if s != [] {
      assert s[0] != c;
      assert c !in s[1..];
      FirstIndexAbsent(s[1..], c);
    }
  }

  lemma {:induction false} FirstIndexAfter(a: string, c: char, rest: string)
    requires c !in a
    ensures FirstIndex(a + ([c] + rest), c) == |a|
  {
    var s := a + ([c] + rest);
    if a == [] {
      assert s[0] == c;
    } else {
      assert a[0] != c;
      assert s[1..] == a[1..] + ([c] + rest);
      assert c !in a[1..];
      FirstIndexAfter(a[1..], c, rest);
    }
  }

  // ------------------------------------------------------ training lines

  /** The messages of one training line: the question as the user's turn, the fact as the
      assistant's, and the system prompt in front when one is given. */
  function TrainingMessages(question: string, fact: Option<string>, systemPrompt: Option<string>): (ms: seq<Message>)
    ensures |ms| == if Truthy(systemPrompt) then 3 else 2
    ensures ms[|ms| - 2] == Message(User, Some(question)) && ms[|ms| - 1] == Message(Assistant, fact)
    ensures Truthy(systemPrompt) ==> ms[0] == Message(System, systemPrompt)
  {
    var pair := [Message(User, Some(question)), Message(Assistant, fact)];
    if Truthy(systemPrompt) then [Message(System, systemPrompt)] + pair else pair
  }

  /** The JSONL line of one (question, fact) pair. */
  function TrainingLine(question: string, fact: Option<string>, systemPrompt: Option<string>): string {
    EncodeLine(TrainingMessages(question, fact, systemPrompt))
  }

  /** The lines of one fact: one per question, in question order. */
  function FactLines(f: Fact, systemPrompt: Option<string>): (ls: seq<string>)
    ensures |ls| == |f.questions|
    ensures forall j :: 0 <= j < |ls| ==> ls[j] == TrainingLine(f.questions[j], f.fact, systemPrompt)
  {
    seq(|f.questions|, j requires 0 <= j < |f.questions| =>
      TrainingLine(f.questions[j], f.fact, systemPrompt))
  }

  /** All lines, fact by fact. */
  function JsonlLines(facts: seq<Fact>, systemPrompt: Option<string>): seq<string> {
    if facts == [] then []
    else JsonlLines(facts[..|facts| - 1], systemPrompt) + FactLines(facts[|facts| - 1], systemPrompt)
  }

  /** The number of (fact, question) pairs. */
  function TotalQuestions(facts: seq<Fact>): nat {
    if facts == [] then 0 else TotalQuestions(facts[..|facts| - 1]) + |facts[|facts| - 1].questions|
  }

  /** The message array of one line, built as formatFactsToJsonl builds it: the question and
      the fact, with the system prompt put in front when it is truthy. */
  method BuildMessages(question: string, fact: Option<string>, systemPrompt: Option<string>)
    returns (messages: seq<Message>)
    ensures messages == TrainingMessages(question, fact, systemPrompt)
  {
    messages := [Message(User, Some(question)), Message(Assistant, fact)];
    if Truthy(systemPrompt) {
      messages := [Message(System, systemPrompt)] + messages;
    }
  }

  /** The inner loop of formatFactsToJsonl: push one line per question of `fact`. */
  method PushFactLines(lines: seq<string>, fact: Fact, systemPrompt: Option<string>) returns (pushed: seq<string>)
    ensures pushed == lines + FactLines(fact, systemPrompt)
  {
    ghost var all := FactLines(fact, systemPrompt);
    pushed := lines;
    var j := 0;
    while j < |fact.questions|
      invariant 0 <= j <= |fact.questions|
      invariant pushed == lines + all[..j]
    {
      var messages := BuildMessages(fact.questions[j], fact.fact, systemPrompt);
      var line := EncodeLine(messages);
      assert line == TrainingLine(fact.questions[j], fact.fact, systemPrompt) == all[j];
      Seqs.PrefixStep(all, j);
      pushed := pushed + [line];
      j := j + 1;
    }
    assert all[..j] == all;
  }

  /** formatFactsToJsonl: the nested loops push one line per (fact, question), then join. */
  method FormatFactsToJsonl(facts: seq<Fact>, systemPrompt: Option<string>) returns (jsonl: string)
    ensures jsonl == Join(JsonlLines(facts, systemPrompt), '\n')
  {
    var lines: seq<string> := [];
    var i := 0;
    while i < |facts|
      invariant 0 <= i <= |facts|
      invariant lines == JsonlLines(facts[..i], systemPrompt)
    {
      assert facts[..i + 1][..i] == facts[..i];
      lines := PushFactLines(lines, facts[i], systemPrompt);
      i := i + 1;
    }
    assert facts[..i] == facts;
    jsonl := Join(lines, '\n');
  }

  /** There is exactly one line per (fact, question) pair. */
  lemma {:induction false} JsonlLinesCount(facts: seq<Fact>, systemPrompt: Option<string>)
    ensures |JsonlLines(facts, systemPrompt)| == TotalQuestions(facts)
  {
    if facts != [] {
      JsonlLinesCount(facts[..|facts| - 1], systemPrompt);
    }
  }

  lemma LastFactLineAt(facts: seq<Fact>, systemPrompt: Option<string>, i: nat, j: nat)
    requires i == |facts| - 1 && j < |facts[i].questions|
    ensures TotalQuestions(facts[..i]) + j < |JsonlLines(facts, systemPrompt)|
    ensures JsonlLines(facts, systemPrompt)[TotalQuestions(facts[..i]) + j]
            == TrainingLine(facts[i].questions[j], facts[i].fact, systemPrompt)
  {
    JsonlLinesCount(facts[..i], systemPrompt);
  }

  lemma EarlierLineStays(facts: seq<Fact>, systemPrompt: Option<string>, p: nat)
    requires facts != [] && p < |JsonlLines(facts[..|facts| - 1], systemPrompt)|
    ensures p < |JsonlLines(facts, systemPrompt)|
    ensures JsonlLines(facts, systemPrompt)[p] == JsonlLines(facts[..|facts| - 1], systemPrompt)[p]
  {
  }

  /** Fact-major order: the line for question `j` of fact `i` sits after every line of the
      earlier facts, at offset `j` among its own fact's lines. */
  lemma {:induction false} JsonlLineAt(facts: seq<Fact>, systemPrompt: Option<string>, i: nat, j: nat)
    requires i < |facts| && j < |facts[i].questions|
    ensures TotalQuestions(facts[..i]) + j < |JsonlLines(facts, systemPrompt)|
    ensures JsonlLines(facts, systemPrompt)[TotalQuestions(facts[..i]) + j]
            == TrainingLine(facts[i].questions[j], facts[i].fact, systemPrompt)
  {
    if i == |facts| - 1 {
      LastFactLineAt(facts, systemPrompt, i, j);
    } else {
      var init := facts[..|facts| - 1];
      var p := TotalQuestions(facts[..i]) + j;
      JsonlLineAt(init, systemPrompt, i, j);
      assert init[..i] == facts[..i] && init[i] == facts[i];
      assert JsonlLines(init, systemPrompt)[p] == TrainingLine(facts[i].questions[j], facts[i].fact, systemPrompt);
      EarlierLineStays(facts, systemPrompt, p);
    }
  }

  /** Without a single question the output is the empty string. */
  lemma NoQuestionsNoOutput(facts: seq<Fact>, systemPrompt: Option<string>)
    requires TotalQuestions(facts) == 0
    ensures Join(JsonlLines(facts, systemPrompt), '\n') == ""
  {
    JsonlLinesCount(facts, systemPrompt);
  }

  /** Every line is one JSON document: splitting the output at newlines gives the lines back. */
  lemma JsonlSplitsIntoLines(facts: seq<Fact>, systemPrompt: Option<string>)
    requires TotalQuestions(facts) > 0
    ensures Split(Join(JsonlLines(facts, systemPrompt), '\n'), '\n') == JsonlLines(facts, systemPrompt)
  {
    JsonlLinesCount(facts, systemPrompt);
    NoNewlineInLines(facts, systemPrompt);
    SplitJoin(JsonlLines(facts, systemPrompt), '\n');
  }

  lemma {:induction false} NoNewlineInLines(facts: seq<Fact>, systemPrompt: Option<string>)
    ensures forall k :: 0 <= k < |JsonlLines(facts, systemPrompt)| ==> '\n' !in JsonlLines(facts, systemPrompt)[k]
  {
    if facts != [] {
      NoNewlineInLines(facts[..|facts| - 1], systemPrompt);
      var f := facts[|facts| - 1];
      forall j | 0 <= j < |f.questions|
        ensures '\n' !in FactLines(f, systemPrompt)[j]
      {
        EncodeLineNoNewline(TrainingMessages(f.questions[j], f.fact, systemPrompt));
      }
    }
  }

  lemma EscapeCharVerbatim(c: char)
    requires c != '"' && c != '\\' && c >= ' '
    ensures EscapeChar(c) == [c]
  {
  }

  /** Text without quotes, backslashes or control characters is written verbatim. */
  lemma {:induction false} EscapeVerbatim(s: string)
    requires forall k :: 0 <= k < |s| ==> s[k] != '"' && s[k] != '\\' && s[k] >= ' '
    ensures Escape(s) == s
  {
    if s != [] {
      var init, last := s[..|s| - 1], s[|s| - 1];
      assert forall k :: 0 <= k < |init| ==> init[k] == s[k];
      EscapeVerbatim(init);
      EscapeCharVerbatim(last);
      assert init + [last] == s;
    }
  }

  /** The layout of a training line's message array: the optional system message, then the
      question and the fact, comma-separated. */
  lemma EncodeLineLayout(question: string, fact: Option<string>, systemPrompt: Option<string>)
    ensures var pair := EncodeMessage(Message(User, Some(question))) + "," + EncodeMessage(Message(Assistant, fact));
            EncodeMessages(TrainingMessages(question, fact, systemPrompt))
            == if Truthy(systemPrompt) then EncodeMessage(Message(System, systemPrompt)) + "," + pair else pair
  {
    var ms := TrainingMessages(question, fact, systemPrompt);
    var u, a := Message(User, Some(question)), Message(Assistant, fact);
    assert EncodeMessages([u, a]) == EncodeMessage(u) + "," + EncodeMessages([a]) by {
      assert [u, a][1..] == [a];
    }
    if Truthy(systemPrompt) {
      assert ms == [Message(System, systemPrompt), u, a];
      assert ms[1..] == [u, a];
    } else {
      assert ms == [u, a];
    }
  }

  // ---------------------------------------------------------------- queries

  /** A fact as stored, as far as the queries below look at it. */
  datatype StoredFact = StoredFact(
    knowledgeProfileUuid: Value, status: string,
    owners: seq<string>, editors: seq<string>, viewers: seq<string>)

  /** The `findFacts` query: profile membership, status, and (for a user) a role in the fact. */
  datatype FactQuery = FactQuery(profileIn: seq<Value>, status: string, member: Option<string>)

  /** What a query document asks of a stored fact. */
  predicate Selects(q: FactQuery, f: StoredFact) {
    f.knowledgeProfileUuid in q.profileIn && f.status == q.status
    && (q.member.Some? ==> var u := q.member.value; u in f.owners || u in f.editors || u in f.viewers)
  }

  /** The uuid argument: an array is used as is, anything else is wrapped in one. */
  function UuidArray(arg: Value): (uuids: seq<Value>)
    ensures arg.Arr? ==> uuids == arg.items
    ensures !arg.Arr? ==> uuids == [arg]
  {
    if arg.Arr? then arg.items else [arg]
  }

  function FindFactsQuery(username: Option<string>, arg: Value): FactQuery {
    FactQuery(UuidArray(arg), "active", if Truthy(username) then username else None)
  }

  /** The query selects exactly the active facts of the listed profiles, and for a signed-in
      user only those the user owns, edits or views. */
  lemma FindFactsQuerySelects(username: Option<string>, arg: Value, f: StoredFact)
    ensures Selects(FindFactsQuery(username, arg), f) <==>
              f.knowledgeProfileUuid in UuidArray(arg) && f.status == "active"
              && (Truthy(username) ==>
                    username.value in f.owners || username.value in f.editors || username.value in f.viewers)
  {
  }

  /** A signed-in user never sees a fact that an anonymous caller would not. */
  lemma SignedInSeesLess(username: Option<string>, arg: Value, f: StoredFact)
    requires Selects(FindFactsQuery(username, arg), f)
    ensures Selects(FindFactsQuery(None, arg), f)
  {
  }

  /** The stored facts a query selects, in the order the store lists them. */
  function Matching(q: FactQuery, stored: seq<StoredFact>): (r: seq<StoredFact>)
    ensures |r| <= |stored|
    ensures forall f :: f in r <==> f in stored && Selects(q, f)
  {
    if stored == [] then []
    else
      var last := stored[|stored| - 1];
      Matching(q, stored[..|stored| - 1]) + (if Selects(q, last) then [last] else [])
  }

  /** findFacts: the facts of `stored` its query selects, or `[]` when the query threw. */
  function FindFacts(username: Option<string>, arg: Value, stored: seq<StoredFact>, threw: bool)
    : (r: seq<StoredFact>)
    ensures threw ==> r == []
    ensures !threw ==> forall f :: f in r <==> f in stored && Selects(FindFactsQuery(username, arg), f)
    ensures |r| <= |stored|
  {
    if threw then [] else Matching(FindFactsQuery(username, arg), stored)
  }

  /** The text-search query of getFactsFromKnowledgeProfiles. */
  datatype TextQuery = TextQuery(search: Value, profileIn: Option<seq<Value>>)

  /** The profile filter is added only for a non-empty array. */
  function TextSearchQuery(searchString: Value, knowledgeProfileUuids: Value): (q: TextQuery)
    ensures q.search == searchString
    ensures q.profileIn.Some? <==> knowledgeProfileUuids.Arr? && |knowledgeProfileUuids.items| > 0
    ensures q.profileIn.Some? ==> q.profileIn.value == knowledgeProfileUuids.items
  {
    if knowledgeProfileUuids.Arr? && |knowledgeProfileUuids.items| > 0 then
      TextQuery(searchString, Some(knowledgeProfileUuids.items))
    else TextQuery(searchString, None)
  }

  /** searchFacts: 400 without a search string; otherwise the search, 500 if it throws. */
  function SearchFacts(searchString: Value, knowledgeProfileUuids: Value, results: Option<seq<StoredFact>>)
    : (r: Response<seq<StoredFact>>)
    ensures !TruthyValue(searchString) ==> r == Response(400, "searchString parameter is required", None)
    ensures TruthyValue(searchString) && results.None? ==> r == Response(500, "Internal Server Error", None)
    ensures TruthyValue(searchString) && results.Some? ==> r == Response(200, "Search Results", results)
  {
    if !TruthyValue(searchString) then Response(400, "searchString parameter is required", None)
    else if results.None? then Response(500, "Internal Server Error", None)
    else Response(200, "Search Results", results)
  }

  // ------------------------------------------------ jsonl of profiles

  /** getFactsByKnowledgeProfileUuids as written: `findFacts` is not awaited, so `facts` is a
      promise whose `length` is undefined, and every request with uuids ends in 404. */
  function FactsByProfilesAsWritten(knowledgeProfileUuids: Value): (r: Response<string>)
    ensures !TruthyValue(knowledgeProfileUuids) ==> r.status == 400
    ensures TruthyValue(knowledgeProfileUuids) ==> r.status == 404
  {
    if !TruthyValue(knowledgeProfileUuids) then Response(400, "knowledgeProfileUuids parameter is required", None)
    else Response(404, "No active facts found", None)
  }

  /** The as-written handler never serves the JSONL, whatever the database holds. */
  lemma FactsByProfilesNeverServes(knowledgeProfileUuids: Value)
    ensures FactsByProfilesAsWritten(knowledgeProfileUuids).status != 200
  {
  }

  /** getFactsByKnowledgeProfileUuids with the result awaited: the JSONL of the facts found
      (formatted without a system prompt), or 404 when there are none. */
  function FactsByProfiles(knowledgeProfileUuids: Value, found: seq<Fact>): (r: Response<string>)
    ensures !TruthyValue(knowledgeProfileUuids) ==> r.status == 400 && r.payload.None?
    ensures TruthyValue(knowledgeProfileUuids) && found == [] ==> r.status == 404
    ensures TruthyValue(knowledgeProfileUuids) && found != [] ==>
              r.status == 200 && r.payload == Some(Join(JsonlLines(found, None), '\n'))
  {
    if !TruthyValue(knowledgeProfileUuids) then Response(400, "knowledgeProfileUuids parameter is required", None)
    else if |found| > 0 then Response(200, "Here is the jsonl of these knowledge profiles", Some(Join(JsonlLines(found, None), '\n')))
    else Response(404, "No active facts found", None)
  }

  /** The awaited handler's JSONL splits into exactly one training line per question. */
  lemma FactsByProfilesServesLines(knowledgeProfileUuids: Value, found: seq<Fact>)
    requires TruthyValue(knowledgeProfileUuids) && TotalQuestions(found) > 0
    ensures FactsByProfiles(knowledgeProfileUuids, found).status == 200
    ensures |Split(FactsByProfiles(knowledgeProfileUuids, found).payload.value, '\n')| == TotalQuestions(found)
  {
    assert found != [];
    JsonlSplitsIntoLines(found, None);
    JsonlLinesCount(found, None);
  }
}
