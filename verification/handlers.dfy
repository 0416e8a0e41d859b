/** The API routes (server/src/index.ts) as transitions of the session
    store.  Each handler validates its input, reads and writes the store and
    consults the language model once; the model is the `oracle` parameter
    and the random project id of `/api/init` is the `freshId` parameter.  A
    handler either responds or throws an application error, which the error
    handler then reports (see `Errors.HandleError`).  Each handler runs as
    one atomic step. */
module Handlers {
  import opened Wrappers
  import opened Json
  import opened Text
  import opened Types
  import opened State
  import Prompts
  import Validation
  import Errors
  import RateLimiter

  /** `getNextStep`: the reply of the language model to a state and the
      user's last message.  Transport and parse failures come back as a
      reply of type `error`, never as an exception. */
  type Oracle = (ProjectState, string) -> AIResponse

  datatype Payload =
    | Created(projectId: string, step: AIResponse)
    | NextStep(step: AIResponse)
    | Project(state: ProjectState)

  datatype Response =
    | Respond(status: nat, payload: Payload)
    | Throw(error: Errors.AppError)

  /** The store after a request, and what the request produced. */
  datatype Outcome = Outcome(store: Store, response: Response)

  /** The issue list sent as validation details. */
  function IssuesJson(issues: seq<Validation.Issue>): (v: Value)
    ensures v.Arr? && |v.items| == |issues|
  {
    Arr(seq(|issues|, i requires 0 <= i < |issues| =>
      Obj(map["path" := Arr([Str(issues[i].path)]), "message" := Str(issues[i].message)])))
  }

  /** `new ValidationError(message, { issues })`. */
  function Invalid(message: string, issues: seq<Validation.Issue>): (e: Errors.AppError)
    ensures e.statusCode == 400 && e.code == "VALIDATION_ERROR" && e.message == message
  {
    Errors.ValidationError(message, Some(map["issues" := Some(IssuesJson(issues))]))
  }

  /** `new AppError(502, 'AI service returned an error', 'AI_ERROR')`. */
  const AiError := Errors.NewAppError(502, "AI service returned an error", Some("AI_ERROR"), None)

  function ProjectNotFound(id: string): (e: Errors.AppError)
    ensures e.statusCode == 404 && e.code == "NOT_FOUND"
  {
    Errors.NotFoundError("Project", Some(id))
  }

  const InitialIdea := "INITIAL_IDEA"
  const AiQuestion := "AI_QUESTION"
  const UserRefinement := "USER_REFINEMENT"

  // ------------------------------------------------------------ /api/init

  /** The update init merges: the model's partial state, with `history`
      spread last. */
  function InitUpdates(step: AIResponse, current: ProjectState, idea: string): StateUpdates {
    Combine(step.projectStateUpdates.GetOr(NoUpdates), HistoryOnly(current.history + [HistoryEntry(InitialIdea, idea)]))
  }

  /** `POST /api/init`. */
  function Init(store: Store, body: Value, freshId: string, oracle: Oracle): (o: Outcome)
    ensures Validation.ParseInit(body).Err? ==> o.store == store && o.response.Throw?
    ensures Validation.ParseInit(body).Ok? ==> freshId in o.store && o.store.Keys == store.Keys + {freshId}
    ensures forall k :: k in store && k != freshId ==> k in o.store && o.store[k] == store[k]
  {
    match Validation.ParseInit(body)
    case Err(issues) => Outcome(store, Throw(Invalid("Invalid project idea", issues)))
    case Ok(input) => InitIdea(store, input.idea, freshId, oracle)
  }

  /** The init handler once the idea has passed validation: create the
      session, ask the model, store its updates. */
  function InitIdea(store: Store, idea: string, freshId: string, oracle: Oracle): (o: Outcome)
    ensures freshId in o.store && o.store.Keys == store.Keys + {freshId}
    ensures forall k :: k in store && k != freshId ==> k in o.store && o.store[k] == store[k]
  {
    var created := CreateSession(store, freshId, idea);
    var current := created[freshId];
    var step := oracle(current, "My idea is: " + idea);
    if step.kind == ErrorStep then Outcome(created, Throw(AiError))
    else
      var updated := UpdateSession(created, freshId, InitUpdates(step, current, idea));
      Outcome(updated.store, Respond(201, Created(freshId, step.(progress := Some(Progress(1, 10))))))
  }

  /** A successful init stores exactly one history entry, the idea, whatever
      history the model proposes; the model's other keys do overwrite the
      initial state; the reply is 201 with progress 1 of 10. */
  lemma InitSuccess(store: Store, body: Value, freshId: string, oracle: Oracle)
    requires Validation.ParseInit(body).Ok?
    requires oracle(InitialState(Validation.ParseInit(body).value.idea),
                    "My idea is: " + Validation.ParseInit(body).value.idea).kind != ErrorStep
    ensures var idea := Validation.ParseInit(body).value.idea;
      var step := oracle(InitialState(idea), "My idea is: " + idea);
      var u := step.projectStateUpdates.GetOr(NoUpdates);
      var o := Init(store, body, freshId, oracle);
      && o.store[freshId].history == [HistoryEntry(InitialIdea, idea)]
      && o.store[freshId].ideaSummary == u.ideaSummary.GetOr(Some(idea))
      && o.store[freshId].resolvedDecisions == u.resolvedDecisions.GetOr(map[])
      && o.response == Respond(201, Created(freshId, step.(progress := Some(Progress(1, 10)))))
  {
    var idea := Validation.ParseInit(body).value.idea;
    assert Init(store, body, freshId, oracle) == InitIdea(store, idea, freshId, oracle);
    InitIdeaSuccess(store, idea, freshId, oracle);
  }

  lemma InitIdeaSuccess(store: Store, idea: string, freshId: string, oracle: Oracle)
    requires oracle(InitialState(idea), "My idea is: " + idea).kind != ErrorStep
    ensures var step := oracle(InitialState(idea), "My idea is: " + idea);
      var u := step.projectStateUpdates.GetOr(NoUpdates);
      var o := InitIdea(store, idea, freshId, oracle);
      && o.store[freshId].history == [HistoryEntry(InitialIdea, idea)]
      && o.store[freshId].ideaSummary == u.ideaSummary.GetOr(Some(idea))
      && o.store[freshId].resolvedDecisions == u.resolvedDecisions.GetOr(map[])
      && o.response == Respond(201, Created(freshId, step.(progress := Some(Progress(1, 10)))))
  {
    var created := CreateSession(store, freshId, idea);
    var current := created[freshId];
    assert current == InitialState(idea);
    var step := oracle(current, "My idea is: " + idea);
    var u := step.projectStateUpdates.GetOr(NoUpdates);
    assert current.history + [HistoryEntry(InitialIdea, idea)] == [HistoryEntry(InitialIdea, idea)];
    var updated := UpdateSession(created, freshId, InitUpdates(step, current, idea));
    assert updated.store[freshId] == Merge(current, InitUpdates(step, current, idea));
    InitMerge(u, idea);
  }

  /** The fields a successful init stores: the idea as the only history
      entry, and the model's values over the initial ones elsewhere. */
  lemma InitMerge(u: StateUpdates, idea: string)
    ensures var m := Merge(InitialState(idea), Combine(u, HistoryOnly([HistoryEntry(InitialIdea, idea)])));
      && m.history == [HistoryEntry(InitialIdea, idea)]
      && m.ideaSummary == u.ideaSummary.GetOr(Some(idea))
      && m.resolvedDecisions == u.resolvedDecisions.GetOr(map[])
  {
  }

  /** When the model answers with an error, init throws 502 AI_ERROR but the
      session it created stays, with an empty history. */
  lemma InitAiErrorKeepsSession(store: Store, body: Value, freshId: string, oracle: Oracle)
    requires Validation.ParseInit(body).Ok?
    requires oracle(InitialState(Validation.ParseInit(body).value.idea),
                    "My idea is: " + Validation.ParseInit(body).value.idea).kind == ErrorStep
    ensures var o := Init(store, body, freshId, oracle);
      && o.response == Throw(AiError)
      && o.store == CreateSession(store, freshId, Validation.ParseInit(body).value.idea)
      && o.store[freshId].history == []
  {
    var created := CreateSession(store, freshId, Validation.ParseInit(body).value.idea);
    assert created[freshId] == InitialState(Validation.ParseInit(body).value.idea);
  }

  // ---------------------------------------------------------- /api/answer

  /** `(v || '').includes(',')` on a decision value: a substring test on a
      string, an element test on an array. */
  predicate IncludesComma(v: Value) {
    match v
    case Str(s) => ',' in s
    case Arr(a) => Str(",") in a
    case _ => false
  }

  /** The typed copy of the dynamic limit in the answer handler, read from
      the state itself rather than from its JSON form. */
  function ProgressLimit(s: ProjectState): (r: nat)
    ensures 5 <= r <= 10
  {
    var d := s.resolvedDecisions;
    var longIdea := |s.ideaSummary.GetOr("")| > 100;
    var roles := "user_roles" in d && Truthy(d["user_roles"]) && IncludesComma(d["user_roles"]);
    var integrations := "integrations" in d && Truthy(d["integrations"])
                        && Length(d["integrations"]).Some? && Length(d["integrations"]).value > 0;
    var limit := 5 + (if longIdea then 1 else 0) + (if roles then 2 else 0) + (if integrations then 2 else 0);
    if limit < 10 then limit else 10
  }

  /** The progress total of the answer handler is the limit the prompt
      announces to the model for the same state. */
  lemma ProgressLimitIsPromptLimit(s: ProjectState)
    ensures ProgressLimit(s) == Prompts.DynamicLimit(ToJson(s))
  {
    var parsed := ToJson(s);
    assert Prompts.Decisions(parsed) == Some(Obj(s.resolvedDecisions));
    assert Member(Some(parsed), "idea_summary") == Some(NullableStr(s.ideaSummary));
  }

  /** `POST /api/answer`. */
  function Answer(store: Store, body: Value, oracle: Oracle): (o: Outcome)
    ensures Validation.ParseAnswer(body).Err? ==> o.store == store && o.response.Throw?
    ensures o.store.Keys == store.Keys
    ensures Validation.ParseAnswer(body).Ok? ==>
      forall k :: k in store && k != Validation.ParseAnswer(body).value.projectId ==> o.store[k] == store[k]
  {
    match Validation.ParseAnswer(body)
    case Err(issues) => Outcome(store, Throw(Invalid("Invalid answer submission", issues)))
    case Ok(input) =>
      match GetSession(store, input.projectId)
      case None => Outcome(store, Throw(ProjectNotFound(input.projectId)))
      case Some(current) =>
        var appended := UpdateSession(store, input.projectId,
          HistoryOnly(current.history + [HistoryEntry(AiQuestion, input.answer)])).store;
        var withHistory := appended[input.projectId];
        var step := oracle(withHistory, input.answer);
        if step.kind == ErrorStep then Outcome(appended, Throw(AiError))
        else
          var merged := if step.projectStateUpdates.Some?
            then UpdateSession(appended, input.projectId, step.projectStateUpdates.value).store
            else appended;
          var finalHistory := merged[input.projectId].history;
          var progress := Progress(|finalHistory| + 1, ProgressLimit(withHistory));
          Outcome(merged, Respond(200, NextStep(step.(progress := Some(progress)))))
  }

  /** An answer for an unknown project is refused with NOT_FOUND and changes
      nothing. */
  lemma AnswerUnknownProject(store: Store, body: Value, oracle: Oracle)
    requires Validation.ParseAnswer(body).Ok? && Validation.ParseAnswer(body).value.projectId !in store
    ensures Answer(store, body, oracle) == Outcome(store, Throw(ProjectNotFound(Validation.ParseAnswer(body).value.projectId)))
  {
  }

  /** A well-formed refinement for a project the store does not hold is
      answered 404 and writes nothing. */
  lemma RefineUnknownProject(store: Store, body: Value, oracle: Oracle)
    requires Validation.ParseRefine(body).Ok? && Validation.ParseRefine(body).value.projectId !in store
    ensures Refine(store, body, oracle) == Outcome(store, Throw(ProjectNotFound(Validation.ParseRefine(body).value.projectId)))
  {
  }

  /** The state the model sees during an answer: the stored one with the
      answer appended. */
  function WithAnswer(s: ProjectState, answer: string): ProjectState {
    s.(history := s.history + [HistoryEntry(AiQuestion, answer)])
  }

  /** The answer is recorded before the model is consulted, so it stays in
      the history even when the model fails and 502 is thrown. */
  lemma AnswerKeptOnAiError(store: Store, body: Value, oracle: Oracle)
    requires Validation.ParseAnswer(body).Ok?
    requires var input := Validation.ParseAnswer(body).value;
      input.projectId in store && oracle(WithAnswer(store[input.projectId], input.answer), input.answer).kind == ErrorStep
    ensures var input := Validation.ParseAnswer(body).value;
      Answer(store, body, oracle) == Outcome(store[input.projectId := WithAnswer(store[input.projectId], input.answer)], Throw(AiError))
  {
    var input := Validation.ParseAnswer(body).value;
    var s := store[input.projectId];
    assert Merge(s, HistoryOnly(s.history + [HistoryEntry(AiQuestion, input.answer)])) == WithAnswer(s, input.answer);
  }

  /** On success the progress total is the prompt's limit for the state
      the model saw, between 5 and 10, and the current question is one past
      the history after the model's updates; when those leave the history
      alone, that is two past the history before the answer. */
  lemma AnswerProgress(store: Store, body: Value, oracle: Oracle)
    requires Validation.ParseAnswer(body).Ok?
    requires var input := Validation.ParseAnswer(body).value;
      input.projectId in store && oracle(WithAnswer(store[input.projectId], input.answer), input.answer).kind != ErrorStep
    ensures var input := Validation.ParseAnswer(body).value;
      var seen := WithAnswer(store[input.projectId], input.answer);
      var step := oracle(seen, input.answer);
      var o := Answer(store, body, oracle);
      && o.response.Respond? && o.response.status == 200 && o.response.payload.NextStep?
      && o.response.payload.step.progress.Some?
      && var p := o.response.payload.step.progress.value;
      && p.total == Prompts.DynamicLimit(ToJson(seen))
      && 5 <= p.total <= 10
      && p.current == |o.store[input.projectId].history| + 1
      && (step.projectStateUpdates.None? || step.projectStateUpdates.value.history.None? ==>
            p.current == |store[input.projectId].history| + 2)
  {
    var input := Validation.ParseAnswer(body).value;
    var s := store[input.projectId];
    var seen := WithAnswer(s, input.answer);
    assert Merge(s, HistoryOnly(s.history + [HistoryEntry(AiQuestion, input.answer)])) == seen;
    ProgressLimitIsPromptLimit(seen);
    var step := oracle(seen, input.answer);
    if step.projectStateUpdates.Some? {
      MergeIsShallow(seen, step.projectStateUpdates.value);
    }
  }

  // ---------------------------------------------------------- /api/refine

  /** `POST /api/refine`. */
  function Refine(store: Store, body: Value, oracle: Oracle): (o: Outcome)
    ensures Validation.ParseRefine(body).Err? ==> o.store == store && o.response.Throw?
    ensures o.response.Throw? ==> o.store == store
    ensures o.store.Keys == store.Keys
  {
    match Validation.ParseRefine(body)
    case Err(issues) => Outcome(store, Throw(Invalid("Invalid refinement request", issues)))
    case Ok(input) =>
      match GetSession(store, input.projectId)
      case None => Outcome(store, Throw(ProjectNotFound(input.projectId)))
      case Some(current) =>
        var withRefinement := current.(history := current.history + [HistoryEntry(UserRefinement, input.comments)]);
        var step := oracle(withRefinement, "GENERATE_REFINED_OUTPUT");
        if step.kind == ErrorStep then Outcome(store, Throw(AiError))
        else
          var updated := UpdateSession(store, input.projectId, HistoryOnly(withRefinement.history));
          Outcome(updated.store, Respond(200, NextStep(step)))
  }

  /** A refinement is recorded only when the model succeeds, and the
      model's state updates are never merged: the session changes by the
      one appended history entry and nothing else. */
  lemma RefineOnlyAppends(store: Store, body: Value, oracle: Oracle)
    requires Validation.ParseRefine(body).Ok? && Validation.ParseRefine(body).value.projectId in store
    ensures var input := Validation.ParseRefine(body).value;
      var s := store[input.projectId];
      var refined := s.(history := s.history + [HistoryEntry(UserRefinement, input.comments)]);
      var step := oracle(refined, "GENERATE_REFINED_OUTPUT");
      var o := Refine(store, body, oracle);
      && (step.kind == ErrorStep ==> o == Outcome(store, Throw(AiError)))
      && (step.kind != ErrorStep ==> o == Outcome(store[input.projectId := refined], Respond(200, NextStep(step))))
  {
    var input := Validation.ParseRefine(body).value;
    var s := store[input.projectId];
    var refined := s.(history := s.history + [HistoryEntry(UserRefinement, input.comments)]);
    assert Merge(s, HistoryOnly(refined.history)) == refined;
  }

  // ----------------------------------------------------- /api/project/:id

  /** `GET /api/project/:id`: never changes the store. */
  function GetProject(store: Store, id: string): (r: Response)
    ensures !Validation.IsUuid(id) ==> r.Throw? && r.error.code == "VALIDATION_ERROR"
    ensures Validation.IsUuid(id) && id !in store ==> r == Throw(ProjectNotFound(id))
    ensures Validation.IsUuid(id) && id in store ==> r == Respond(200, Project(store[id]))
  {
    match Validation.ParseProjectId(id)
    case Err(issues) => Throw(Invalid("Invalid project ID", issues))
    case Ok(valid) =>
      match GetSession(store, valid)
      case None => Throw(ProjectNotFound(valid))
      case Some(state) => Respond(200, Project(state))
  }

  /** After a successful init under a well-formed id, fetching the project
      returns the stored state, whose history is the idea alone. */
  lemma InitThenGet(store: Store, body: Value, freshId: string, oracle: Oracle)
    requires Validation.IsUuid(freshId)
    requires Init(store, body, freshId, oracle).response.Respond?
    ensures var o := Init(store, body, freshId, oracle);
      && GetProject(o.store, freshId) == Respond(200, Project(o.store[freshId]))
      && o.store[freshId].history == [HistoryEntry(InitialIdea, Validation.ParseInit(body).value.idea)]
  {
    InitSuccess(store, body, freshId, oracle);
  }

  /** The first answer after an init reports question 3, not 2: the
      history then holds the idea and the answer.  (The model's updates are
      assumed to leave the history alone.) */
  lemma FirstAnswerIsQuestionThree(store: Store, initBody: Value, freshId: string, initOracle: Oracle,
                                   answerBody: Value, oracle: Oracle)
    requires Init(store, initBody, freshId, initOracle).response.Respond?
    requires Validation.ParseAnswer(answerBody).Ok? && Validation.ParseAnswer(answerBody).value.projectId == freshId
    requires var s := Init(store, initBody, freshId, initOracle).store;
      var a := Validation.ParseAnswer(answerBody).value.answer;
      var step := oracle(WithAnswer(s[freshId], a), a);
      step.kind != ErrorStep && (step.projectStateUpdates.None? || step.projectStateUpdates.value.history.None?)
    ensures var s := Init(store, initBody, freshId, initOracle).store;
      var r := Answer(s, answerBody, oracle).response;
      r.Respond? && r.payload.NextStep? && r.payload.step.progress.Some?
      && r.payload.step.progress.value.current == 3
  {
    InitSuccess(store, initBody, freshId, initOracle);
    AnswerProgress(Init(store, initBody, freshId, initOracle).store, answerBody, oracle);
  }

  // ------------------------------------------------------------- routing

  /** A request to one of the four routes. */
  datatype Request =
    | InitRequest(body: Value)
    | AnswerRequest(body: Value)
    | RefineRequest(body: Value)
    | ProjectRequest(id: string)

  function PathOf(r: Request): string {
    match r
    case InitRequest(_) => "/api/init"
    case AnswerRequest(_) => "/api/answer"
    case RefineRequest(_) => "/api/refine"
    case ProjectRequest(id) => "/api/project/" + id
  }

  /** The three model-backed routes sit behind the AI limiter, the project
      lookup behind the standard one. */
  function LimiterFor(r: Request): (c: RateLimiter.Config)
    ensures r.ProjectRequest? ==> c == RateLimiter.StandardLimiter
    ensures !r.ProjectRequest? ==> c == RateLimiter.AiLimiter
  {
    if r.ProjectRequest? then RateLimiter.StandardLimiter else RateLimiter.AiLimiter
  }

  /** The whole server state: sessions and rate-limit counters. */
  datatype Server = Server(sessions: Store, limits: RateLimiter.Table)

  /** One request: the limiter first, then the route's handler.  `client`
      is the client part of the rate-limit key. */
  function Handle(server: Server, r: Request, client: string, now: int, freshId: string, oracle: Oracle): (result: (Server, Response))
    ensures result.0.limits == RateLimiter.Check(server.limits, client + ":" + PathOf(r), now, LimiterFor(r)).table
  {
    var check := RateLimiter.Check(server.limits, client + ":" + PathOf(r), now, LimiterFor(r));
    match check.decision
    case Rejected(retryAfter, _) => (Server(server.sessions, check.table), Throw(Errors.RateLimitError(retryAfter)))
    case Allowed(_) =>
      var o := match r
        case InitRequest(body) => Init(server.sessions, body, freshId, oracle)
        case AnswerRequest(body) => Answer(server.sessions, body, oracle)
        case RefineRequest(body) => Refine(server.sessions, body, oracle)
        case ProjectRequest(id) => Outcome(server.sessions, GetProject(server.sessions, id));
      (Server(o.store, check.table), o.response)
  }

  /** A rate-limited request is answered with 429 and touches no session;
      reading a project never touches one either. */
  lemma HandleLeavesSessions(server: Server, r: Request, client: string, now: int, freshId: string, oracle: Oracle)
    ensures var key := client + ":" + PathOf(r);
      var result := Handle(server, r, client, now, freshId, oracle);
      && (RateLimiter.Check(server.limits, key, now, LimiterFor(r)).decision.Rejected? ==>
            result.0.sessions == server.sessions && result.1.Throw? && result.1.error.statusCode == 429)
      && (r.ProjectRequest? ==> result.0.sessions == server.sessions)
  {
  }

  // -------------------------------------------------------------- /health

  /** `GET /health`: uptime in milliseconds, the package version or
      '1.0.0', and the heap figures in MB (their rounding is done by the
      caller). */
  function Health(uptime: int, now: Validation.Instant, packageVersion: Option<string>, usedMb: int, totalMb: int): (v: Value)
    requires Validation.IsDate(now)
    ensures v.Obj? && "status" in v.fields && "version" in v.fields
    ensures v.fields["status"] == Str("ok")
    ensures packageVersion.None? || packageVersion.value == "" ==> v.fields["version"] == Str("1.0.0")
  {
    Obj(map[
      "status" := Str("ok"),
      "timestamp" := Str(Validation.ToIsoString(now)),
      "version" := Str(if packageVersion.Some? && packageVersion.value != "" then packageVersion.value else "1.0.0"),
      "uptime" := Num(uptime),
      "memory" := Obj(map["used" := Num(usedMb), "total" := Num(totalMb)])])
  }

  /** What the health endpoint sends satisfies the health schema exactly
      while the clock reads a four-digit year; from the year 10000 on, the
      expanded-year timestamp fails the schema's datetime pattern. */
  lemma HealthMatchesSchema(uptime: int, now: Validation.Instant, packageVersion: Option<string>, usedMb: int, totalMb: int)
    requires Validation.IsDate(now)
    ensures Validation.HealthCheckValid(Health(uptime, now, packageVersion, usedMb, totalMb)) <==> now.year < 10000
  {
    Validation.IsoStringIsDateTime(now);
  }
}
