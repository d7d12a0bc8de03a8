/**
 * The AI diet-plan endpoints: cleaning the model's reply down to one JSON object, stamping the
 * seven weekdays with the next seven dates, storing the plan, and reading a stored plan back.
 */
module Diet {
  import opened Wrappers
  import opened Json
  import opened Text
  import opened Ids
  import opened Responses
  import opened Documents
  import opened Gemini

  const JsonFence: string := "```json"
  const Fence: string := "```"

  /** Three backticks at index i of s. */
  predicate TickRun(s: string, i: int)
  {
    0 <= i && i + 3 <= |s| && s[i] == '`' && s[i + 1] == '`' && s[i + 2] == '`'
  }

  /** s starts with "```json". */
  predicate JsonFenceAtStart(s: string)
  {
    TickRun(s, 0) && |s| >= 7 && s[3] == 'j' && s[4] == 's' && s[5] == 'o' && s[6] == 'n'
  }

  /**
   * `re.sub(r"```json\s*|```", "", text)`: scanning left to right, a "```json" together with the
   * whitespace after it, or else a bare "```", is removed; every other character is kept.
   */
  function StripFences(s: string): (r: string)
    ensures |r| <= |s|
    decreases |s|
  {
    if JsonFenceAtStart(s) then StripFences(TrimStart(s[7..]))
    else if TickRun(s, 0) then StripFences(s[3..])
    else if s == [] then []
    else [s[0]] + StripFences(s[1..])
  }

  /** A result that starts with a backtick comes from a text that starts with one, and likewise for two. */
  lemma {:induction false} StripFencesHead(s: string)
    ensures StripFences(s) != [] && StripFences(s)[0] == '`' ==> s != [] && s[0] == '`'
    ensures |StripFences(s)| >= 2 && StripFences(s)[0] == '`' && StripFences(s)[1] == '`' ==>
              |s| >= 2 && s[0] == '`' && s[1] == '`'
  {
    if !TickRun(s, 0) && s != [] {
      StripFencesHead(s[1..]);
    }
  }

  /** After the substitution no "```" is left anywhere: removals never join backticks into a new fence. */
  lemma {:induction false} NoFenceRemains(s: string)
    ensures forall i :: !TickRun(StripFences(s), i)
    decreases |s|
  {
    if JsonFenceAtStart(s) {
      NoFenceRemains(TrimStart(s[7..]));
    } else if TickRun(s, 0) {
      NoFenceRemains(s[3..]);
    } else if s != [] {
      var rest := StripFences(s[1..]);
      var r := StripFences(s);
      assert r == [s[0]] + rest;
      NoFenceRemains(s[1..]);
      StripFencesHead(s[1..]);
      forall i | TickRun(r, i)
        ensures false
      {
        if i > 0 {
          assert TickRun(rest, i - 1);
        }
      }
    }
  }

  /** Text without backticks passes through the substitution unchanged. */
  lemma {:induction false} StripFencesKeepsPlainText(s: string)
    requires '`' !in s
    ensures StripFences(s) == s
  {
    if s != [] {
      assert s[0] != '`';
      StripFencesKeepsPlainText(s[1..]);
    }
  }

  /** The substitution only deletes: every character it returns was in the text. */
  lemma {:induction false} StripFencesKeepsCharacters(s: string)
    ensures forall c :: c in StripFences(s) ==> c in s
    decreases |s|
  {
    if JsonFenceAtStart(s) {
      var t := TrimStart(s[7..]);
      StripFencesKeepsCharacters(t);
      assert forall c :: c in t ==> c in s[7..];
    } else if TickRun(s, 0) {
      StripFencesKeepsCharacters(s[3..]);
    } else if s != [] {
      StripFencesKeepsCharacters(s[1..]);
    }
  }

  /** A backtick-free prefix is copied through and the rest is processed on its own. */
  lemma {:induction false} StripFencesPlainPrefix(p: string, t: string)
    requires '`' !in p
    ensures StripFences(p + t) == p + StripFences(t)
  {
    if p != [] {
      var s := p + t;
      var tail := p[1..];
      assert s[0] == p[0];
      assert '`' !in tail by { assert forall c :: c in tail ==> c in p; }
      StripFencesPlainHead(s);
      assert s[1..] == tail + t;
      StripFencesPlainPrefix(tail, t);
      var rest := StripFences(t);
      assert StripFences(s) == [p[0]] + (tail + rest);
      assert p == [p[0]] + tail;
      assert [p[0]] + (tail + rest) == ([p[0]] + tail) + rest;
    } else {
      assert p + t == t;
    }
  }

  /** A text whose first character is not a backtick keeps that character. */
  lemma {:induction false} StripFencesPlainHead(s: string)
    requires s != [] && s[0] != '`'
    ensures StripFences(s) == [s[0]] + StripFences(s[1..])
  {
  }

  /** `re.sub(...).strip()`: the text the brace search runs on. */
  function CleanText(text: string): string
  {
    Trim(StripFences(text))
  }

  /** The index of the first c in s; |s| when there is none. */
  function IndexOf(s: string, c: char): (r: nat)
    ensures r <= |s| && (r < |s| ==> s[r] == c)
    ensures forall k :: 0 <= k < r ==> s[k] != c
  {
    if s == [] then 0 else if s[0] == c then 0 else 1 + IndexOf(s[1..], c)
  }

  /** The index of the last c in s; -1 when there is none. */
  function LastIndexOf(s: string, c: char): (r: int)
    ensures -1 <= r < |s| && (r >= 0 ==> s[r] == c)
    ensures forall k :: r < k < |s| ==> s[k] != c
  {
    if s == [] then -1
    else if s[|s| - 1] == c then |s| - 1
    else LastIndexOf(s[..|s| - 1], c)
  }

  /** A '{' at i with a '}' after it at j. */
  predicate BracePair(s: string, i: int, j: int)
  {
    0 <= i < j < |s| && s[i] == '{' && s[j] == '}'
  }

  /**
   * `re.search(r"\{.*\}", s, re.DOTALL)`: the match, when there is one, runs from the first '{'
   * to the last '}'; there is one exactly when some '{' comes before some '}'.
   */
  function JsonPayload(s: string): (r: Option<string>)
    ensures r.Some? <==> exists i, j :: BracePair(s, i, j)
    ensures r.Some? ==> var i, j := IndexOf(s, '{'), LastIndexOf(s, '}');
                        && BracePair(s, i, j) && r.value == s[i..j + 1]
                        && r.value[0] == '{' && r.value[|r.value| - 1] == '}'
  {
    var i := IndexOf(s, '{');
    var j := LastIndexOf(s, '}');
    if i < j then assert BracePair(s, i, j); Some(s[i..j + 1])
    else
      assert forall a, b :: BracePair(s, a, b) ==> i <= a && b <= j;
      None
  }

  const NoJsonMessage: string := "No valid JSON found in response"

  /**
   * `extract_json_from_text`: clean, cut out the brace-delimited payload and parse it. The
   * parser (`json.loads` applied to text that starts with '{') answers an object or an error text.
   */
  function ExtractJsonFromText(text: string,
                               parseObject: string -> Result<seq<(string, Json)>, string>)
    : (r: Result<seq<(string, Json)>, string>)
    ensures JsonPayload(CleanText(text)).None? ==> r == Err(NoJsonMessage)
    ensures JsonPayload(CleanText(text)).Some? ==> r == parseObject(JsonPayload(CleanText(text)).value)
  {
    match JsonPayload(CleanText(text))
    case None => Err(NoJsonMessage)
    case Some(payload) => parseObject(payload)
  }

  /**
   * A reply fenced as "```json", newline, payload, newline, "```" hands the payload itself to the
   * parser, for every backtick-free payload that starts with '{' and ends with '}'.
   */
  lemma {:induction false} FencedObjectRoundTrip(payload: string,
                              parseObject: string -> Result<seq<(string, Json)>, string>)
    requires '`' !in payload && |payload| >= 2 && payload[0] == '{' && payload[|payload| - 1] == '}'
    ensures ExtractJsonFromText(JsonFence + "\n" + payload + "\n" + Fence, parseObject) == parseObject(payload)
  {
    FencedStrip(payload);
    TrimObjectLine(payload);
    WholeObjectPayload(payload);
  }

  /** An object followed by a newline trims to the object. */
  lemma {:induction false} TrimObjectLine(payload: string)
    requires |payload| >= 2 && payload[0] == '{' && payload[|payload| - 1] == '}'
    ensures Trim(payload + "\n") == payload
  {
    var line := payload + "\n";
    assert line[0] == '{' && !IsSpace(line[0]);
    assert TrimStart(line) == line;
    assert line[|line| - 1] == '\n' && IsSpace(line[|line| - 1]);
    assert line[..|line| - 1] == payload;
    assert TrimEnd(line) == TrimEnd(payload);
    assert !IsSpace(payload[|payload| - 1]);
    assert TrimEnd(payload) == payload;
    assert Trim(line) == TrimEnd(TrimStart(line));
  }

  /** Text that starts with '{' and ends with '}' is its own payload. */
  lemma {:induction false} WholeObjectPayload(payload: string)
    requires |payload| >= 2 && payload[0] == '{' && payload[|payload| - 1] == '}'
    ensures JsonPayload(payload) == Some(payload)
  {
    assert BracePair(payload, 0, |payload| - 1);
    assert payload[0..|payload|] == payload;
  }

  /** The opening fence and the newline after it go, and so does the closing fence. */
  lemma {:induction false} FencedStrip(payload: string)
    requires '`' !in payload && payload != [] && payload[0] == '{'
    ensures StripFences(JsonFence + "\n" + payload + "\n" + Fence) == payload + "\n"
  {
    var line := payload + "\n";
    var body := line + Fence;
    assert JsonFence + "\n" + payload + "\n" + Fence == JsonFence + ("\n" + body);
    StripFencesJsonHead(JsonFence + ("\n" + body));
    NewlineBeforeBody(body);
    assert '`' !in line;
    PlainThenBareFence(line);
  }

  /** A leading "```json" goes, together with the whitespace that follows it. */
  lemma {:induction false} StripFencesJsonHead(s: string)
    requires |s| >= 7 && s[..7] == JsonFence
    ensures StripFences(s) == StripFences(TrimStart(s[7..]))
  {
    assert s[0] == s[..7][0] && s[1] == s[..7][1] && s[2] == s[..7][2] && s[3] == s[..7][3];
    assert s[4] == s[..7][4] && s[5] == s[..7][5] && s[6] == s[..7][6];
    assert JsonFenceAtStart(s);
  }

  lemma {:induction false} NewlineBeforeBody(body: string)
    requires body != [] && body[0] == '{'
    ensures TrimStart("\n" + body) == body
  {
    assert ("\n" + body)[1..] == body;
  }

  /** A backtick-free text followed by a bare fence comes out as the text alone. */
  lemma {:induction false} PlainThenBareFence(p: string)
    requires '`' !in p
    ensures StripFences(p + Fence) == p
  {
    StripFencesPlainPrefix(p, Fence);
    StripFencesBareFence();
    assert p + [] == p;
  }

  lemma {:induction false} StripFencesBareFence()
    ensures StripFences(Fence) == []
  {
    assert TickRun(Fence, 0) && !JsonFenceAtStart(Fence) && Fence[3..] == [];
  }

  /**
   * A reply with no '{' at all, such as a fenced JSON array, is rejected with "No valid JSON found
   * in response": the extractor only ever looks for an object.
   */
  lemma {:induction false} ReplyWithoutBraceIsRejected(text: string,
                                    parseObject: string -> Result<seq<(string, Json)>, string>)
    requires '{' !in text
    ensures ExtractJsonFromText(text, parseObject) == Err(NoJsonMessage)
  {
    var stripped := StripFences(text);
    StripFencesKeepsCharacters(text);
    assert '{' !in stripped;
    var clean := Trim(stripped);
    assert clean == CleanText(text);
    var k :| SpaceBounded(stripped, clean, k);
    forall a | 0 <= a < |clean|
      ensures clean[a] != '{'
    {
      assert clean[a] == stripped[k + a];
    }
    assert !exists i, j :: BracePair(clean, i, j);
    assert JsonPayload(clean).None?;
  }

  /** Either error text of the AI service is rejected: no plan is ever stored from one. */
  lemma {:induction false} ServiceErrorIsRejected(reply: string,
                                                  parseObject: string -> Result<seq<(string, Json)>, string>)
    requires IsErrorReply(reply)
    ensures ExtractJsonFromText(reply, parseObject) == Err(NoJsonMessage)
  {
    ErrorReplyHasNoBrace(reply);
    ReplyWithoutBraceIsRejected(reply, parseObject);
  }

  /** `get_next_seven_days_dates`: today and the six days after it, in order. */
  function NextSevenDays(today: Date): (r: seq<Date>)
    ensures |r| == 7 && r[0] == today && r[6] == today + 6
    ensures forall i :: 0 <= i < 6 ==> r[i + 1] == r[i] + 1
  {
    seq(7, i requires 0 <= i < 7 => today + i)
  }

  const WeekDays: seq<string> := ["monday", "tuesday", "wednesday", "thursday", "friday", "saturday", "sunday"]

  /**
   * `dated_plan`: exactly the seven weekday keys in order, each paired with its date and with the
   * AI's meals for that day, or an empty object when the reply has no such day; other keys of the
   * reply are dropped.
   */
  function DatedPlan(aiPlan: seq<(string, Json)>, dates: seq<Date>): (r: seq<(string, DayEntry)>)
    requires |dates| == 7
    ensures |r| == 7
    ensures forall i :: 0 <= i < 7 ==> r[i].0 == WeekDays[i] && r[i].1.date == dates[i]
    ensures forall i :: 0 <= i < 7 ==>
              r[i].1.meals == Some(if Lookup(aiPlan, WeekDays[i]).Some? then Lookup(aiPlan, WeekDays[i]).value else JObj([]))
  {
    seq(7, i requires 0 <= i < 7 => (WeekDays[i], DayEntry(dates[i], Some(GetOr(aiPlan, WeekDays[i], JObj([]))))))
  }

  /** The two bodies `generate_ai_diet_plan` returns, both with status 200. */
  datatype DietReply =
    | Saved(message: string, dietPlanId: string, aiGeneratedDietPlan: seq<(string, DayEntry)>)
    | ExtractionFailed(error: string, rawResponse: string, exception: string)

  /**
   * `generate_ai_diet_plan`. The reply of the text service is a parameter; the service never
   * raises, and its own error texts hold no object. A reply that does not yield an object gives
   * an error body carrying the raw text and stores nothing; otherwise one plan is stored for the
   * next seven days, unless `ObjectId(user_id)` raises on an invalid id.
   */
  method GenerateAiDietPlan(db: Collection<DietPlanDoc>, userId: string, request: DietRequest,
                            aiReply: string,
                            parseObject: string -> Result<seq<(string, Json)>, string>,
                            today: Date, newId: string)
    returns (resp: Response<DietReply>)
    modifies db
    ensures ExtractJsonFromText(aiReply, parseObject).Err? ==>
              db.docs == old(db.docs)
              && resp == Plain(ExtractionFailed("AI did not return valid JSON after cleanup", aiReply,
                                                ExtractJsonFromText(aiReply, parseObject).error))
    ensures IsErrorReply(aiReply) ==>
              db.docs == old(db.docs)
              && resp == Plain(ExtractionFailed("AI did not return valid JSON after cleanup", aiReply, NoJsonMessage))
    ensures ExtractJsonFromText(aiReply, parseObject).Ok? && !IsValidObjectId(userId) ==>
              resp == InternalError && db.docs == old(db.docs)
    ensures ExtractJsonFromText(aiReply, parseObject).Ok? && IsValidObjectId(userId) ==>
              var dates := NextSevenDays(today);
              var dated := DatedPlan(ExtractJsonFromText(aiReply, parseObject).value, dates);
              && db.docs == old(db.docs) + [DietPlanDoc(newId, ObjectIdKey(userId), request, dates[0], dates[6], dated)]
              && resp == Plain(Saved("Diet plan saved successfully.", newId, dated))
  {
    if IsErrorReply(aiReply) {
      ServiceErrorIsRejected(aiReply, parseObject);
    }
    var extracted := ExtractJsonFromText(aiReply, parseObject);
    if extracted.Err? {
      return Plain(ExtractionFailed("AI did not return valid JSON after cleanup", aiReply, extracted.error));
    }
    var weekDates := NextSevenDays(today);
    var datedPlan := DatedPlan(extracted.value, weekDates);
    if !IsValidObjectId(userId) {
      return InternalError;
    }
    db.InsertOne(DietPlanDoc(newId, ObjectIdKey(userId), request, weekDates[0], weekDates[6], datedPlan));
    resp := Plain(Saved("Diet plan saved successfully.", newId, datedPlan));
  }

  /** A stored plan as returned by `get_saved_diet_plan`: both ids rendered as strings. */
  datatype DietPlanView = DietPlanView(id: string, userId: string, userProfile: DietRequest,
                                       weekStartDate: Date, weekEndDate: Date, plan: seq<(string, DayEntry)>)

  /** `str()` of a stored `user_id`. */
  function KeyText(k: Key): string
  {
    match k
    case Oid(hex) => hex
    case Str(text) => text
  }

  /**
   * `get_saved_diet_plan`: an invalid id makes `ObjectId(plan_id)` raise; an unknown id is 404
   * "Plan not found"; otherwise the first plan with that id, its ids as strings.
   */
  function GetSavedDietPlan(docs: seq<DietPlanDoc>, planId: string): (r: Response<DietPlanView>)
    ensures !IsValidObjectId(planId) ==> r == InternalError
    ensures IsValidObjectId(planId) && (forall d :: d in docs ==> d.id != Canonical(planId)) ==>
              r == Detail(404, "Plan not found")
    ensures IsValidObjectId(planId) && (exists d :: d in docs && d.id == Canonical(planId)) ==> r.Plain?
    ensures r.Plain? ==> IsValidObjectId(planId)
                         && exists k :: 0 <= k < |docs| && docs[k].id == Canonical(planId)
                                        && r.payload.id == docs[k].id
                                        && r.payload.userId == KeyText(docs[k].userId)
                                        && r.payload.userProfile == docs[k].userProfile
                                        && r.payload.weekStartDate == docs[k].weekStartDate
                                        && r.payload.weekEndDate == docs[k].weekEndDate
                                        && r.payload.plan == docs[k].plan
                                        && (forall m :: 0 <= m < k ==> docs[m].id != Canonical(planId))
  {
    if !IsValidObjectId(planId) then InternalError
    else
      var id := Canonical(planId);
      var k := FindFirst(docs, (d: DietPlanDoc) => d.id == id);
      if k == |docs| then Detail(404, "Plan not found")
      else
        var d := docs[k];
        Plain(DietPlanView(d.id, KeyText(d.userId), d.userProfile, d.weekStartDate, d.weekEndDate, d.plan))
  }
}
