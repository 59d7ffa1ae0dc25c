/** The generation endpoints (routes/testplan.js): `POST /generate`
    answers with the whole plan, `GET /stream` sends it as events while it
    is produced. Both fetch the ticket, resolve the template, provider and
    model, generate, and store one row on success. */
module TestPlanRoutes {
  import opened Wrappers
  import opened Text
  import opened Store
  import opened StreamEvents
  import opened JiraClient
  import opened LlmProvider
  import PdfService

  const TicketRequiredMessage := "Ticket ID is required"

  /** The template used when none is chosen or the chosen one is not
      found: only a content text. */
  const DefaultTemplate := Template("", "", "", "Standard test plan structure", "", [])

  /** The request's fields; "" stands for a missing one. */
  datatype PlanRequest = PlanRequest(ticketId: string, templateId: string, provider: string, model: string)

  // ----------------------------------------------------------- resolution

  /** The provider: the request's, else the stored one, else Groq. */
  function ResolveProvider(requested: string, settings: map<string, string>): (p: string)
    ensures p != ""
    ensures requested != "" ==> p == requested
    ensures requested == "" ==> p == OrElse(Setting(settings, LlmProviderKey), "groq")
  {
    OrElse(OrElse(requested, Setting(settings, LlmProviderKey)), "groq")
  }

  /** The model: the request's, else the one stored for the provider, else
      that provider's default. Every provider other than Groq gets the
      Ollama choice. */
  function ResolveModel(requested: string, provider: string, settings: map<string, string>): (m: string)
    ensures m != ""
    ensures requested != "" ==> m == requested
    ensures requested == "" && provider == "groq" ==> m == OrElse(Setting(settings, GroqModelKey), GroqDefaultModel)
    ensures requested == "" && provider != "groq" ==> m == OrElse(Setting(settings, OllamaModelKey), OllamaDefaultModel)
  {
    if requested != "" then requested
    else if provider == "groq" then OrElse(Setting(settings, GroqModelKey), GroqDefaultModel)
    else OrElse(Setting(settings, OllamaModelKey), OllamaDefaultModel)
  }

  /** The template: the stored one with the requested id, else the
      default. */
  function ResolveTemplate(templateId: string, templates: map<string, Template>): (t: Template)
    ensures templateId != "" && templateId in templates ==> t == templates[templateId]
    ensures templateId == "" || templateId !in templates ==> t == DefaultTemplate
  {
    if templateId != "" && templateId in templates then templates[templateId] else DefaultTemplate
  }

  /** The route always passes a model, so the provider is asked for
      exactly the model the plan records. */
  lemma RouteModelIsSent(requested: string, provider: string, settings: map<string, string>, groqReady: bool)
    ensures var m := ResolveModel(requested, provider, settings);
      Dispatch(provider, m, groqReady).Success? ==> Dispatch(provider, m, groqReady).value == m
  {
  }

  lemma DefaultTemplateOneLine()
    ensures '\n' !in DefaultTemplate.content
  {
  }

  lemma DefaultTemplateLine()
    ensures LooseKind(DefaultTemplate.content) == PdfService.Body(DefaultTemplate.content)
  {
    assert DigitRun("Standard test plan structure") == 0;
    assert !IsCapsOrSpace("Standard test plan structure"[1]);
    KindOfTrimmed("Standard test plan structure");
  }

  /** A template without stored sections whose text is one line that is
      not a heading gets the default sections. */
  lemma OneBodyLineGivesDefaults(t: Template)
    requires |t.sections| == 0 && t.content != "" && '\n' !in t.content
    requires LooseKind(t.content) == PdfService.Body(t.content)
    ensures ResolveSections(t) == Parsed(DefaultParts)
  {
    var c := t.content;
    SplitWithoutSeparator(c, '\n');
    assert LooseClassify([c]) == [PdfService.Body(c)];
    assert PdfService.Headings([PdfService.Body(c)]) == [] by {
      assert [PdfService.Body(c)][..0] == [];
    }
    NoHeadingGivesDefaults([c]);
  }

  /** The default template has no heading line, so generation follows the
      seven default sections. */
  lemma DefaultTemplateSections()
    ensures ResolveSections(DefaultTemplate) == Parsed(DefaultParts)
  {
    DefaultTemplateOneLine();
    DefaultTemplateLine();
    OneBodyLineGivesDefaults(DefaultTemplate);
  }

  // -------------------------------------------------------------- generate

  /** The provider and model lookup both endpoints make. */
  method ChooseModel(db: Database, req: PlanRequest) returns (provider: string, model: string)
    ensures provider == ResolveProvider(req.provider, db.settings)
    ensures model == ResolveModel(req.model, provider, db.settings)
  {
    provider := OrElse(OrElse(req.provider, Setting(db.settings, LlmProviderKey)), "groq");
    model := req.model;
    if model == "" {
      if provider == "groq" {
        model := OrElse(Setting(db.settings, GroqModelKey), GroqDefaultModel);
      } else {
        model := OrElse(Setting(db.settings, OllamaModelKey), OllamaDefaultModel);
      }
    }
  }

  /** The template lookup both endpoints make. */
  method ChooseTemplate(db: Database, templateId: string) returns (t: Template)
    ensures t == ResolveTemplate(templateId, db.templates)
  {
    t := DefaultTemplate;
    if templateId != "" {
      var found := db.GetTemplate(templateId);
      if found.Some? {
        t := found.value;
      }
    }
  }

  /** The body of a successful reply. */
  datatype PlanData = PlanData(id: string, content: string, metadata: PlanMetadata)

  datatype GenerateReply = GenerateReply(status: nat, body: Result<PlanData, string>)

  /** `POST /generate` given the state it reads and the answers of the
      Jira library and the provider: the reply, and the row it stores. */
  function GenerateOutcome(req: PlanRequest, settings: map<string, string>, configured: bool, groqReady: bool,
                           response: IssueResponse, stream: ProviderStream, planId: string)
    : (GenerateReply, Option<PlanRow>)
  {
    if req.ticketId == "" then (GenerateReply(400, Failure(TicketRequiredMessage)), None)
    else
      match FetchOutcome(configured, req.ticketId, response)
      case Failure(e) => (GenerateReply(400, Failure(e)), None)
      case Success(ticket) =>
        var provider := ResolveProvider(req.provider, settings);
        GeneratedReply(ticket, req.templateId, provider, ResolveModel(req.model, provider, settings), groqReady, stream, planId)
  }

  /** The part of `POST /generate` after the ticket is found. */
  function GeneratedReply(ticket: Ticket, templateId: string, provider: string, model: string, groqReady: bool,
                          stream: ProviderStream, planId: string): (GenerateReply, Option<PlanRow>)
  {
    match Outcome(provider, model, groqReady, stream)
    case GenerationFailed(e) => (GenerateReply(500, Failure(e)), None)
    case Generated(c, md) =>
      (GenerateReply(200, Success(PlanData(planId, c, md))), Some(PlanRow(planId, ticket.id, templateId, c, md)))
  }

  /** The reply's status says what happened: 400 for a missing ticket id
      or a failed lookup, 500 for a failed generation, 200 exactly when a
      row is stored, and that row holds the content and metadata sent. */
  lemma GenerateStatus(req: PlanRequest, settings: map<string, string>, configured: bool, groqReady: bool,
                       response: IssueResponse, stream: ProviderStream, planId: string)
    ensures var (reply, row) := GenerateOutcome(req, settings, configured, groqReady, response, stream, planId);
      && (reply.status == 400 <==> req.ticketId == "" || FetchOutcome(configured, req.ticketId, response).Failure?)
      && (reply.status == 200 <==> row.Some?)
      && (reply.status in {200, 400, 500})
      && (row.Some? ==> reply.body == Success(PlanData(planId, row.value.content, row.value.metadata)))
      && (row.Some? ==> row.value.ticketId == FetchOutcome(configured, req.ticketId, response).value.id)
      && (row.Some? ==> row.value.templateId == req.templateId)
  {
    if req.ticketId != "" && FetchOutcome(configured, req.ticketId, response).Success? {
      var provider := ResolveProvider(req.provider, settings);
      GeneratedReplyStatus(FetchOutcome(configured, req.ticketId, response).value, req.templateId, provider,
                           ResolveModel(req.model, provider, settings), groqReady, stream, planId);
    }
  }

  lemma GeneratedReplyStatus(ticket: Ticket, templateId: string, provider: string, model: string, groqReady: bool,
                             stream: ProviderStream, planId: string)
    ensures var (reply, row) := GeneratedReply(ticket, templateId, provider, model, groqReady, stream, planId);
      && (reply.status == 200 <==> row.Some?)
      && (reply.status == 200 || reply.status == 500)
      && (row.Some? ==> reply.body == Success(PlanData(planId, row.value.content, row.value.metadata)))
      && (row.Some? ==> row.value.ticketId == ticket.id && row.value.templateId == templateId)
  {
  }

  /** A missing ticket id is refused before any lookup. */
  lemma MissingTicketRefused(settings: map<string, string>, configured: bool, groqReady: bool,
                             response: IssueResponse, stream: ProviderStream, planId: string, templateId: string,
                             provider: string, model: string)
    ensures GenerateOutcome(PlanRequest("", templateId, provider, model), settings, configured, groqReady,
                            response, stream, planId) ==
      (GenerateReply(400, Failure(TicketRequiredMessage)), None)
  {
  }

  /** `POST /generate`. `request` is what the provider was asked. */
  method Generate(db: Database, jira: JiraClientService, llm: LlmProviderService, req: PlanRequest,
                  response: IssueResponse, stream: ProviderStream, planId: string)
    returns (reply: GenerateReply, request: Option<ChatRequest>)
    modifies db
    ensures var (r, row) := GenerateOutcome(req, old(db.settings), jira.client.Some?, llm.groqKey.Some?,
                                            response, stream, planId);
      reply == r && db.testPlans == old(db.testPlans) + (if row.Some? then [row.value] else [])
    ensures db.settings == old(db.settings) && db.templates == old(db.templates)
    ensures request.Some? ==>
      && req.ticketId != ""
      && FetchOutcome(jira.client.Some?, req.ticketId, response).Success?
      && request.value.messages ==
         Messages(FetchOutcome(jira.client.Some?, req.ticketId, response).value, ResolveTemplate(req.templateId, db.templates))
  {
    if req.ticketId == "" {
      return GenerateReply(400, Failure(TicketRequiredMessage)), None;
    }
    var ticketResult, looked := jira.FetchTicket(req.ticketId, response);
    if ticketResult.Failure? {
      return GenerateReply(400, Failure(ticketResult.error)), None;
    }
    var template := ChooseTemplate(db, req.templateId);
    var provider, model := ChooseModel(db, req);
    reply, request := GenerateFor(db, llm, ticketResult.value, template, req.templateId, provider, model, stream, planId);
  }

  /** Generation and storage once the ticket, template, provider and model
      are known. */
  method GenerateFor(db: Database, llm: LlmProviderService, ticket: Ticket, template: Template, templateId: string,
                     provider: string, model: string, stream: ProviderStream, planId: string)
    returns (reply: GenerateReply, request: Option<ChatRequest>)
    modifies db
    ensures var (r, row) := GeneratedReply(ticket, templateId, provider, model, llm.groqKey.Some?, stream, planId);
      reply == r && db.testPlans == old(db.testPlans) + (if row.Some? then [row.value] else [])
    ensures db.settings == old(db.settings) && db.templates == old(db.templates)
    ensures request.Some? ==> request.value.messages == Messages(ticket, template)
  {
    var result;
    result, request := llm.GenerateTestPlan(ticket, template, provider, model, stream, null);
    if result.GenerationFailed? {
      return GenerateReply(500, Failure(result.error)), request;
    }
    db.InsertPlan(PlanRow(planId, ticket.id, templateId, result.content, result.metadata));
    reply := GenerateReply(200, Success(PlanData(planId, result.content, result.metadata)));
  }

  // ---------------------------------------------------------------- stream

  /** The reply of `GET /stream`: refused with 400 before the event stream
      starts, or the events sent. */
  datatype StreamReply = Refused(error: string) | EventsSent(events: seq<Event>)

  /** `GET /stream` given the same inputs: the reply, and the row stored. */
  function StreamOutcome(req: PlanRequest, settings: map<string, string>, configured: bool, groqReady: bool,
                         response: IssueResponse, stream: ProviderStream, planId: string)
    : (StreamReply, Option<PlanRow>)
  {
    if req.ticketId == "" then (Refused(TicketRequiredMessage), None)
    else
      match FetchOutcome(configured, req.ticketId, response)
      case Failure(e) => (EventsSent([ErrorEvent(e)]), None)
      case Success(ticket) =>
        var provider := ResolveProvider(req.provider, settings);
        StreamedReply(ticket, req.templateId, provider, ResolveModel(req.model, provider, settings), groqReady, stream, planId)
  }

  /** The part of `GET /stream` after the ticket is found: the chunks as
      they arrive, then one done or error event. */
  function StreamedReply(ticket: Ticket, templateId: string, provider: string, model: string, groqReady: bool,
                         stream: ProviderStream, planId: string): (StreamReply, Option<PlanRow>)
  {
    var sent := Delivered(provider, model, groqReady, stream);
    match Outcome(provider, model, groqReady, stream)
    case GenerationFailed(e) => (EventsSent(ChunkEvents(sent) + [ErrorEvent(e)]), None)
    case Generated(_, md) =>
      (EventsSent(ChunkEvents(sent) + [DoneEvent(planId, md)]),
       Some(PlanRow(planId, ticket.id, templateId, Concat(sent), md)))
  }

  /** Chunk events, then exactly one final event that is not a chunk. */
  predicate EndsOnce(es: seq<Event>) {
    |es| > 0 && !es[|es| - 1].ChunkEvent? && forall i :: 0 <= i < |es| - 1 ==> es[i].ChunkEvent?
  }

  /** Every stream that starts ends with exactly one done or error event;
      a failed lookup sends only its error; a stored row holds exactly the
      text the client was sent, and the done event names that row. */
  lemma StreamReplyShape(req: PlanRequest, settings: map<string, string>, configured: bool, groqReady: bool,
                     response: IssueResponse, stream: ProviderStream, planId: string)
    ensures var (reply, row) := StreamOutcome(req, settings, configured, groqReady, response, stream, planId);
      && (reply.Refused? <==> req.ticketId == "")
      && (reply.EventsSent? ==> EndsOnce(reply.events))
      && (req.ticketId != "" && FetchOutcome(configured, req.ticketId, response).Failure? ==>
            reply == EventsSent([ErrorEvent(FetchOutcome(configured, req.ticketId, response).error)]))
      && (row.Some? <==> reply.EventsSent? && reply.events[|reply.events| - 1].DoneEvent?)
      && (row.Some? ==> row.value.content == StreamedText(reply.events))
      && (row.Some? ==> reply.events[|reply.events| - 1] == DoneEvent(planId, row.value.metadata))
  {
    if req.ticketId != "" && FetchOutcome(configured, req.ticketId, response).Success? {
      var provider := ResolveProvider(req.provider, settings);
      StreamedReplyShape(FetchOutcome(configured, req.ticketId, response).value, req.templateId, provider,
                         ResolveModel(req.model, provider, settings), groqReady, stream, planId);
    }
  }

  lemma StreamedReplyShape(ticket: Ticket, templateId: string, provider: string, model: string, groqReady: bool,
                           stream: ProviderStream, planId: string)
    ensures var (reply, row) := StreamedReply(ticket, templateId, provider, model, groqReady, stream, planId);
      && reply.EventsSent?
      && EndsOnce(reply.events)
      && (row.Some? <==> reply.events[|reply.events| - 1].DoneEvent?)
      && (row.Some? ==> row.value.content == StreamedText(reply.events))
      && (row.Some? ==> reply.events[|reply.events| - 1] == DoneEvent(planId, row.value.metadata))
  {
    var (reply, row) := StreamedReply(ticket, templateId, provider, model, groqReady, stream, planId);
    var sent := Delivered(provider, model, groqReady, stream);
    var last := reply.events[|reply.events| - 1];
    assert reply.events == ChunkEvents(sent) + [last];
    StreamedChunks(sent);
    StreamedTextAppend(ChunkEvents(sent), last);
  }

  /** Streaming stores the same row as `POST /generate` would for the
      same inputs: the content gathered from the chunks is the generated
      content. */
  lemma StreamStoresAsGenerate(req: PlanRequest, settings: map<string, string>, configured: bool, groqReady: bool,
                               response: IssueResponse, stream: ProviderStream, planId: string)
    ensures StreamOutcome(req, settings, configured, groqReady, response, stream, planId).1 ==
            GenerateOutcome(req, settings, configured, groqReady, response, stream, planId).1
  {
    OutcomeFacts(ResolveProvider(req.provider, settings),
                 ResolveModel(req.model, ResolveProvider(req.provider, settings), settings), groqReady, stream);
  }

  /** `GET /stream`. The events are collected in a fresh stream state that
      the provider's chunks are passed to. */
  method Stream(db: Database, jira: JiraClientService, llm: LlmProviderService, req: PlanRequest,
                response: IssueResponse, stream: ProviderStream, planId: string)
    returns (reply: StreamReply)
    modifies db
    ensures var (r, row) := StreamOutcome(req, old(db.settings), jira.client.Some?, llm.groqKey.Some?,
                                          response, stream, planId);
      reply == r && db.testPlans == old(db.testPlans) + (if row.Some? then [row.value] else [])
    ensures db.settings == old(db.settings) && db.templates == old(db.templates)
  {
    if req.ticketId == "" {
      return Refused(TicketRequiredMessage);
    }
    var ticketResult, looked := jira.FetchTicket(req.ticketId, response);
    if ticketResult.Failure? {
      return EventsSent([ErrorEvent(ticketResult.error)]);
    }
    var template := ChooseTemplate(db, req.templateId);
    var provider, model := ChooseModel(db, req);
    reply := StreamFor(db, llm, ticketResult.value, template, req.templateId, provider, model, stream, planId);
  }

  /** Generation into a fresh event stream, and storage of what was
      streamed, once the ticket, template, provider and model are known. */
  method StreamFor(db: Database, llm: LlmProviderService, ticket: Ticket, template: Template, templateId: string,
                   provider: string, model: string, stream: ProviderStream, planId: string)
    returns (reply: StreamReply)
    modifies db
    ensures var (r, row) := StreamedReply(ticket, templateId, provider, model, llm.groqKey.Some?, stream, planId);
      reply == r && db.testPlans == old(db.testPlans) + (if row.Some? then [row.value] else [])
    ensures db.settings == old(db.settings) && db.templates == old(db.templates)
  {
    var sink := new EventStream();
    var result, request := llm.GenerateTestPlan(ticket, template, provider, model, stream, sink);
    ghost var sent := Delivered(provider, model, llm.groqKey.Some?, stream);
    assert sink.fullContent == Concat(sent) by {
      assert "" + Concat(sent) == Concat(sent);
    }
    assert sink.events == ChunkEvents(sent) by {
      assert [] + ChunkEvents(sent) == ChunkEvents(sent);
    }
    if result.Generated? {
      db.InsertPlan(PlanRow(planId, ticket.id, templateId, sink.fullContent, result.metadata));
      sink.Send(DoneEvent(planId, result.metadata));
    } else {
      sink.Send(ErrorEvent(result.error));
    }
    reply := EventsSent(sink.events);
  }
}
