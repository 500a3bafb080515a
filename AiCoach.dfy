/** The essay-feedback request handler: input gate, derived overall score,
    snippet location, response assembly, optional persistence and the
    mapping of failures to HTTP statuses. The chat-completion call, the
    request-body parse and the database insert are effects whose outcomes
    are inputs of the model; the handler reports the effects it performs. */
module AiCoach {
  import opened Wrappers
  import opened JsString
  import opened Numbers

  const MinEssayLength := 100
  const TooShortMessage := "Essay text must be at least 100 characters long"
  const MissingKeyMessage := "OpenAI API key not configured"
  const UpstreamErrorPrefix := "OpenAI API error: "
  const DefaultErrorMessage := "An error occurred processing your request"

  datatype SuggestionType = Structure | Clarity | Mindset | Impact
  datatype Priority = High | Medium | Low
  datatype Suggestion = Suggestion(kind: SuggestionType, title: string, message: string, priority: Priority)

  /** An entry of the model's `highlightedIssues`, before positions are added. */
  datatype ReportedIssue = ReportedIssue(text: string, issue: string, suggestion: string)

  /** An entry of the response's `highlightedIssues`. */
  datatype HighlightedIssue =
    HighlightedIssue(text: string, issue: string, suggestion: string, startIndex: nat, endIndex: nat)

  /** The model's reply, already parsed into the shape the prompt asks for. */
  datatype Analysis = Analysis(
    structureScore: int, clarityScore: int, mindsetScore: int,
    strengths: seq<string>, weaknesses: seq<string>,
    suggestions: seq<Suggestion>, highlightedIssues: seq<ReportedIssue>)

  datatype CoachResponse = CoachResponse(
    structureScore: int, clarityScore: int, mindsetScore: int, overallScore: int,
    strengths: seq<string>, weaknesses: seq<string>,
    suggestions: seq<Suggestion>, highlightedIssues: seq<HighlightedIssue>)

  // ---------------------------------------------------------------------------
  // Overall score

  /** `Math.round(n / 3)`: floor(n/3 + 1/2), the integer nearest to n/3
      (a third never ends in a half, so there are no ties). */
  function RoundThird(n: int): (r: int)
    ensures 6 * r - 3 <= 2 * n < 6 * r + 3
  {
    (2 * n + 3) / 6
  }

  /** The rounded mean of the three scores. */
  function OverallScore(structure: int, clarity: int, mindset: int): (r: int)
    ensures r == (structure + clarity + mindset + 1) / 3
    ensures Min(structure, Min(clarity, mindset)) <= r <= Max(structure, Max(clarity, mindset))
  {
    RoundThird(structure + clarity + mindset)
  }

  /** Scores on the 0..100 scale the prompt asks for give an overall score on that scale. */
  lemma OverallScoreInScale(structure: int, clarity: int, mindset: int)
    requires 0 <= structure <= 100 && 0 <= clarity <= 100 && 0 <= mindset <= 100
    ensures 0 <= OverallScore(structure, clarity, mindset) <= 100
  {
  }

  // ---------------------------------------------------------------------------
  // Highlighted issues

  /** `h` is `reported` with its position added: the first occurrence of the
      snippet in the essay when there is one, and 0/0 when there is none. */
  ghost predicate Located(essay: string, reported: ReportedIssue, h: HighlightedIssue)
  {
    && h.text == reported.text && h.issue == reported.issue && h.suggestion == reported.suggestion
    && (Occurs(essay, reported.text) ==>
          && OccursAt(essay, reported.text, h.startIndex)
          && h.endIndex == h.startIndex + |reported.text|
          && forall j: nat :: j < h.startIndex ==> !OccursAt(essay, reported.text, j))
    && (!Occurs(essay, reported.text) ==> h.startIndex == 0 && h.endIndex == 0)
  }

  function Locate(essay: string, reported: ReportedIssue): (h: HighlightedIssue)
    ensures Located(essay, reported, h)
  {
    var start := IndexOf(essay, reported.text);
    HighlightedIssue(
      reported.text, reported.issue, reported.suggestion,
      if start != -1 then start else 0,
      if start != -1 then start + |reported.text| else 0)
  }

  /** The positions of every reported issue, in the order reported. */
  function LocateAll(essay: string, issues: seq<ReportedIssue>): (r: seq<HighlightedIssue>)
    ensures |r| == |issues|
    ensures forall i :: 0 <= i < |issues| ==> Located(essay, issues[i], r[i])
  {
    if issues == [] then [] else [Locate(essay, issues[0])] + LocateAll(essay, issues[1..])
  }

  /** The 0/0 fallback is told apart from a real match by the span's length,
      except for an empty snippet, which always sits at 0/0. */
  lemma LocateSpanShowsMatch(essay: string, reported: ReportedIssue)
    ensures reported.text != "" ==>
      (Occurs(essay, reported.text) <==>
        Locate(essay, reported).endIndex - Locate(essay, reported).startIndex == |reported.text|)
    ensures reported.text == "" ==> Locate(essay, reported).startIndex == 0 == Locate(essay, reported).endIndex
  {
    if reported.text == "" {
      assert OccursAt(essay, reported.text, 0);
    }
  }

  // ---------------------------------------------------------------------------
  // Response assembly

  /** The reply's fields, with the overall score and the located issues in place. */
  function BuildResponse(essay: string, a: Analysis): (r: CoachResponse)
    ensures r.structureScore == a.structureScore && r.clarityScore == a.clarityScore
    ensures r.mindsetScore == a.mindsetScore
    ensures r.strengths == a.strengths && r.weaknesses == a.weaknesses && r.suggestions == a.suggestions
    ensures 6 * r.overallScore - 3 <= 2 * (a.structureScore + a.clarityScore + a.mindsetScore) < 6 * r.overallScore + 3
    ensures |r.highlightedIssues| == |a.highlightedIssues|
    ensures forall i :: 0 <= i < |a.highlightedIssues| ==>
      Located(essay, a.highlightedIssues[i], r.highlightedIssues[i])
  {
    CoachResponse(
      a.structureScore, a.clarityScore, a.mindsetScore,
      OverallScore(a.structureScore, a.clarityScore, a.mindsetScore),
      a.strengths, a.weaknesses, a.suggestions,
      LocateAll(essay, a.highlightedIssues))
  }

  // ---------------------------------------------------------------------------
  // The request handler

  /** A thrown value: an `Error` instance with its message, or anything else. */
  datatype Thrown = ErrorInstance(message: string) | NonErrorValue

  /** The text of the 500 response for a thrown value. */
  function ErrorMessage(e: Thrown): (m: string)
    ensures e.ErrorInstance? ==> m == e.message
    ensures e.NonErrorValue? ==> m == DefaultErrorMessage
  {
    match e
    case ErrorInstance(message) => message
    case NonErrorValue => DefaultErrorMessage
  }

  datatype CoachRequest = CoachRequest(essayText: Option<string>, context: Option<string>, userId: Option<string>)

  /** The HTTP method and the outcome of reading the body as JSON. */
  datatype IncomingRequest = IncomingRequest(httpMethod: string, body: Result<CoachRequest, Thrown>)

  /** The outcome of the chat-completion call: the fetch rejects, the reply has
      a non-success status, or a reply whose content parses (or fails to). */
  datatype UpstreamReply =
    | FetchRejected(reason: Thrown)
    | NotOk(statusText: string)
    | Replied(content: Result<Analysis, Thrown>)

  /** The insert either settles (its result, error or not, is not inspected) or rejects. */
  datatype InsertOutcome = InsertSettled | InsertRejected(reason: Thrown)

  datatype AnalysisRow = AnalysisRow(userId: string, essayText: string, context: Option<string>, analysis: CoachResponse)

  datatype Effect =
    | ChatCompletion(apiKey: string, essayText: string, context: Option<string>)
    | InsertAnalysis(row: AnalysisRow)

  datatype Body = PlainText(text: string) | ErrorJson(error: string) | CoachJson(response: CoachResponse)

  datatype HttpResponse = HttpResponse(status: int, body: Body)

  /** The input gate: an essay is present and at least 100 characters long once trimmed. */
  predicate EssayAccepted(essay: Option<string>)
  {
    Truthy(essay) && |Trim(essay.value)| >= MinEssayLength
  }

  /** The emptiness test adds nothing to the length test; surrounding
      whitespace does not count towards the 100 characters, and an essay of
      100 characters or more that neither starts nor ends with whitespace passes. */
  lemma EssayAcceptedIff(essay: Option<string>)
    ensures EssayAccepted(essay) <==> essay.Some? && |Trim(essay.value)| >= MinEssayLength
    ensures EssayAccepted(essay) ==> |essay.value| >= MinEssayLength
    ensures (essay.Some? && |essay.value| >= MinEssayLength &&
             !IsWhitespace(essay.value[0]) && !IsWhitespace(essay.value[|essay.value| - 1]))
            ==> EssayAccepted(essay)
  {
    if essay.Some? && essay.value != [] && !IsWhitespace(essay.value[0]) &&
       !IsWhitespace(essay.value[|essay.value| - 1]) {
      TrimKeepsTrimmed(essay.value);
    }
  }

  /** The request reached the chat-completion step's prerequisites: not a
      preflight, the body was read and the essay passed the gate. */
  predicate Admitted(req: IncomingRequest)
  {
    req.httpMethod != "OPTIONS" && req.body.Success? && EssayAccepted(req.body.value.essayText)
  }

  /** The upstream was called and its reply parsed into an analysis. */
  predicate Analysed(req: IncomingRequest, apiKey: Option<string>, upstream: UpstreamReply)
  {
    Admitted(req) && Truthy(apiKey) && upstream.Replied? && upstream.content.Success?
  }

  /** Handles one request. `apiKey` is the configured credential, `upstream`
      and `insert` the outcomes the two effects would have. */
  method HandleRequest(req: IncomingRequest, apiKey: Option<string>, upstream: UpstreamReply, insert: InsertOutcome)
    returns (resp: HttpResponse, effects: seq<Effect>)
    // Preflight, answered before the body is read.
    ensures req.httpMethod == "OPTIONS" ==> resp == HttpResponse(200, PlainText("ok")) && effects == []
    ensures resp.body.PlainText? <==> req.httpMethod == "OPTIONS"
    // The body could not be read.
    ensures req.httpMethod != "OPTIONS" && req.body.Failure? ==>
      resp == HttpResponse(500, ErrorJson(ErrorMessage(req.body.error))) && effects == []
    // The input gate.
    ensures resp.status == 400 <==>
      req.httpMethod != "OPTIONS" && req.body.Success? && !EssayAccepted(req.body.value.essayText)
    ensures resp.status == 400 ==> resp.body == ErrorJson(TooShortMessage) && effects == []
    // The credential.
    ensures Admitted(req) && !Truthy(apiKey) ==> resp == HttpResponse(500, ErrorJson(MissingKeyMessage)) && effects == []
    // One chat-completion call, exactly when admitted and configured, and at most one insert after it.
    ensures |effects| <= 2
    ensures |effects| > 0 <==> Admitted(req) && Truthy(apiKey)
    ensures |effects| > 0 ==>
      effects[0] == ChatCompletion(apiKey.value, req.body.value.essayText.value, req.body.value.context)
    // Upstream failures.
    ensures Admitted(req) && Truthy(apiKey) && upstream.FetchRejected? ==>
      resp == HttpResponse(500, ErrorJson(ErrorMessage(upstream.reason))) && |effects| == 1
    ensures Admitted(req) && Truthy(apiKey) && upstream.NotOk? ==>
      resp == HttpResponse(500, ErrorJson(UpstreamErrorPrefix + upstream.statusText)) && |effects| == 1
    ensures Admitted(req) && Truthy(apiKey) && upstream.Replied? && upstream.content.Failure? ==>
      resp == HttpResponse(500, ErrorJson(ErrorMessage(upstream.content.error))) && |effects| == 1
    // Persistence: an insert exactly when the analysis succeeded and a user id is present.
    ensures |effects| == 2 <==> Analysed(req, apiKey, upstream) && Truthy(req.body.value.userId)
    ensures |effects| == 2 ==>
      var r := req.body.value;
      effects[1] == InsertAnalysis(AnalysisRow(r.userId.value, r.essayText.value, r.context,
                                               BuildResponse(r.essayText.value, upstream.content.value)))
    ensures Analysed(req, apiKey, upstream) && Truthy(req.body.value.userId) && insert.InsertRejected? ==>
      resp == HttpResponse(500, ErrorJson(ErrorMessage(insert.reason)))
    // Success.
    ensures resp.body.CoachJson? <==>
      Analysed(req, apiKey, upstream) && (!Truthy(req.body.value.userId) || insert.InsertSettled?)
    ensures resp.body.CoachJson? ==>
      resp.status == 200 &&
      resp.body.response == BuildResponse(req.body.value.essayText.value, upstream.content.value)
    ensures resp.body.CoachJson? && |effects| == 2 ==> effects[1].row.analysis == resp.body.response
    // Every other outcome is a 500 carrying an error message.
    ensures resp.status == 200 || resp.status == 400 || resp.status == 500
    ensures resp.status == 500 ==> resp.body.ErrorJson?
    ensures resp.body.ErrorJson? <==> resp.status != 200
  {
    effects := [];
    if req.httpMethod == "OPTIONS" {
      return HttpResponse(200, PlainText("ok")), effects;
    }
    if req.body.Failure? {
      return HttpResponse(500, ErrorJson(ErrorMessage(req.body.error))), effects;
    }
    var request := req.body.value;
    if !Truthy(request.essayText) || |Trim(request.essayText.value)| < MinEssayLength {
      return HttpResponse(400, ErrorJson(TooShortMessage)), effects;
    }
    var essay := request.essayText.value;
    if !Truthy(apiKey) {
      return HttpResponse(500, ErrorJson(MissingKeyMessage)), effects;
    }
    effects := effects + [ChatCompletion(apiKey.value, essay, request.context)];
    var analysis: Analysis;
    match upstream {
      case FetchRejected(reason) =>
        return HttpResponse(500, ErrorJson(ErrorMessage(reason))), effects;
      case NotOk(statusText) =>
        return HttpResponse(500, ErrorJson(UpstreamErrorPrefix + statusText)), effects;
      case Replied(content) =>
        if content.Failure? {
          return HttpResponse(500, ErrorJson(ErrorMessage(content.error))), effects;
        }
        analysis := content.value;
    }
    var response := BuildResponse(essay, analysis);
    if Truthy(request.userId) {
      effects := effects + [InsertAnalysis(AnalysisRow(request.userId.value, essay, request.context, response))];
      if insert.InsertRejected? {
        return HttpResponse(500, ErrorJson(ErrorMessage(insert.reason))), effects;
      }
    }
    return HttpResponse(200, CoachJson(response)), effects;
  }
}
