/**
 * rest/webhook_service.go: `webhookServiceImpl`, a stateless facade that, for
 * every webhook operation, compiles one route, may serialise a body, and
 * makes at most one `Do` call on its REST client.
 *
 * Route compilation, body serialisation and `Do` belong to code outside this
 * file (the route package, the JSON layer, the HTTP transport). They are
 * modelled as methods of a `RecordingClient` whose answers come from a fixed
 * `Script` and which logs every call it receives. Each service method is
 * specified by a pure function of the script and the arguments (`WebhookRun`,
 * `DeleteRun`, `MessageRun`) that gives the calls made, in order, and what is
 * returned; the properties of the operations are proved about those functions.
 */
module WebhookService {

  import opened Wrappers

  type Snowflake = string

  /** The route templates this file compiles. */
  datatype Route =
    | GetWebhook | UpdateWebhook | DeleteWebhook
    | GetWebhookWithToken | UpdateWebhookWithToken | DeleteWebhookWithToken
    | CreateWebhookMessage | CreateWebhookMessageSlack | CreateWebhookMessageGitHub
    | UpdateWebhookMessage | DeleteWebhookMessage

  /** A query parameter value: the `wait` flag or a thread identifier. */
  datatype QueryValue = Flag(flag: bool) | Text(text: string)

  type QueryValues = map<string, QueryValue>

  /** A route with its query values and ordered path values filled in. */
  datatype CompiledRoute = CompiledRoute(route: Route, query: QueryValues, path: seq<string>)

  // Stand-ins for values this file only passes along.
  datatype Payload = Payload(content: string)
  datatype Webhook = Webhook(id: Snowflake, token: Option<string>)
  datatype Message = Message(id: Snowflake)

  /** What `Do` is given as the request body: a value it marshals itself, or a body `ToBody` prepared. */
  datatype RequestBody = Value(payload: Payload) | Prepared(form: string)

  /** The errors the collaborators report; this file passes each on unchanged. */
  datatype RestError =
    | RouteError(detail: string)
    | SerialisationError(detail: string)
    | TransportError(detail: string)
    | ApiError(status: int, payload: string)
    | DecodeError(detail: string)

  /** The destination `Do` decodes the response into: none, a webhook, or a message. */
  datatype Sink = NoSink | WebhookSink | MessageSink

  datatype Request = Request(route: CompiledRoute, body: Option<RequestBody>, sink: Sink)

  /** What the server side answers to a request: an error, and what it would decode into either destination. */
  datatype Reply = Reply(err: Option<RestError>, webhook: Option<Webhook>, message: Option<Message>)

  /** The behaviour of the collaborators: which compilations fail, what serialisation gives, what each request gets. */
  datatype Script = Script(
    compileError: (Route, QueryValues, seq<string>) -> Option<RestError>,
    toBody: Payload -> Result<RequestBody, RestError>,
    reply: Request -> Reply)

  /** One call received by the recording client. */
  datatype Event =
    | CompileCall(route: Route, query: QueryValues, path: seq<string>)
    | ToBodyCall(payload: Payload)
    | DoCall(request: Request)

  /** Compilation as the script decides it: the template filled in, or the script's error. */
  function CompileRoute(s: Script, route: Route, query: QueryValues, path: seq<string>): (r: Result<CompiledRoute, RestError>)
    ensures r.Success? <==> s.compileError(route, query, path).None?
    ensures r.Success? ==> r.value.route == route && r.value.query == query && r.value.path == path
    ensures r.Failure? ==> Some(r.error) == s.compileError(route, query, path)
  {
    match s.compileError(route, query, path)
    case Some(e) => Failure(e)
    case None => Success(CompiledRoute(route, query, path))
  }

  /** The answer `Do` gives for one request: the error, and the decoded value for the destination asked for. */
  function Answer(s: Script, request: Request): (r: Reply)
    ensures r.err == s.reply(request).err
    ensures r.webhook == (if request.sink == WebhookSink then s.reply(request).webhook else None)
    ensures r.message == (if request.sink == MessageSink then s.reply(request).message else None)
  {
    var reply := s.reply(request);
    reply.(webhook := if request.sink == WebhookSink then reply.webhook else None,
           message := if request.sink == MessageSink then reply.message else None)
  }

  /** No `Do` call among the events. */
  predicate NoDo(events: seq<Event>) {
    forall i :: 0 <= i < |events| ==> !events[i].DoCall?
  }

  /** The calls an operation makes, in order, what it returns and the error it returns. */
  datatype Run<+T> = Run(events: seq<Event>, value: T, err: Option<RestError>)

  // ---------------------------------------------------------------------
  // Query values
  // ---------------------------------------------------------------------

  /** The query keys a message creation sets. */
  function CreateMessageKeys(wait: bool, threadID: Snowflake): set<string> {
    (if wait then {"wait"} else {}) + (if threadID != "" then {"thread_id"} else {})
  }

  /** The query of a message creation: `wait` only when waiting, `thread_id` only for a thread, nothing else. */
  function CreateMessageQuery(wait: bool, threadID: Snowflake): (q: QueryValues)
    ensures "wait" in q <==> wait
    ensures "thread_id" in q <==> threadID != ""
    ensures forall k :: k in q ==> k == "wait" || k == "thread_id"
    ensures "wait" in q ==> q["wait"] == Flag(true)
    ensures "thread_id" in q ==> q["thread_id"] == Text(threadID)
  {
    map k | k in CreateMessageKeys(wait, threadID) :: if k == "wait" then Flag(true) else Text(threadID)
  }

  /** The query of a message update or deletion: `thread_id` only for a thread, nothing else. */
  function ThreadQuery(threadID: Snowflake): (q: QueryValues)
    ensures "thread_id" in q <==> threadID != ""
    ensures forall k :: k in q ==> k == "thread_id"
    ensures "thread_id" in q ==> q["thread_id"] == Text(threadID)
  {
    if threadID == "" then map[] else map["thread_id" := Text(threadID)]
  }

  // ---------------------------------------------------------------------
  // Specifications of the three request shapes
  // ---------------------------------------------------------------------

  /**
   * Get and update of a webhook: compile with no query, then one `Do` into a
   * webhook destination. The webhook is returned only when `Do` reports no
   * error; otherwise nil comes back beside the error.
   */
  function WebhookRun(s: Script, route: Route, path: seq<string>, body: Option<RequestBody>): (r: Run<Option<Webhook>>)
    ensures |r.events| >= 1 && r.events[0] == CompileCall(route, map[], path)
    ensures s.compileError(route, map[], path).Some? ==>
      r.events == [CompileCall(route, map[], path)] && r.err == s.compileError(route, map[], path) && r.value == None
    ensures s.compileError(route, map[], path).None? ==>
      var request := Request(CompiledRoute(route, map[], path), body, WebhookSink);
      && r.events == [CompileCall(route, map[], path), DoCall(request)]
      && r.err == s.reply(request).err
      && r.value == (if r.err.None? then s.reply(request).webhook else None)
    ensures r.err.Some? ==> r.value == None
  {
    var compiled := CompileRoute(s, route, map[], path);
    if compiled.Failure? then
      Run([CompileCall(route, map[], path)], None, Some(compiled.error))
    else
      var request := Request(compiled.value, body, WebhookSink);
      var answer := Answer(s, request);
      Run([CompileCall(route, map[], path), DoCall(request)], if answer.err.None? then answer.webhook else None, answer.err)
  }

  /** Deletion: compile, then one `Do` with no body and no destination, whose error is returned unchanged. */
  function DeleteRun(s: Script, route: Route, query: QueryValues, path: seq<string>): (r: Run<()>)
    ensures |r.events| >= 1 && r.events[0] == CompileCall(route, query, path)
    ensures s.compileError(route, query, path).Some? ==>
      r.events == [CompileCall(route, query, path)] && r.err == s.compileError(route, query, path)
    ensures s.compileError(route, query, path).None? ==>
      var request := Request(CompiledRoute(route, query, path), None, NoSink);
      r.events == [CompileCall(route, query, path), DoCall(request)] && r.err == s.reply(request).err
  {
    var compiled := CompileRoute(s, route, query, path);
    if compiled.Failure? then
      Run([CompileCall(route, query, path)], (), Some(compiled.error))
    else
      var request := Request(compiled.value, None, NoSink);
      Run([CompileCall(route, query, path), DoCall(request)], (), Answer(s, request).err)
  }

  /**
   * Message creation and update: compile, serialise the payload, then one
   * `Do` with the body; a failure of either earlier step is returned and no
   * `Do` is made. A message comes back only through a message destination,
   * and then whatever `Do` decoded, error or not.
   */
  function MessageRun(s: Script, route: Route, query: QueryValues, path: seq<string>, payload: Payload, sink: Sink)
    : (r: Run<Option<Message>>)
    requires sink != WebhookSink
    ensures |r.events| >= 1 && r.events[0] == CompileCall(route, query, path)
    ensures s.compileError(route, query, path).Some? ==>
      r.events == [CompileCall(route, query, path)] && r.err == s.compileError(route, query, path) && r.value == None
    ensures s.compileError(route, query, path).None? && s.toBody(payload).Failure? ==>
      && r.events == [CompileCall(route, query, path), ToBodyCall(payload)]
      && r.err == Some(s.toBody(payload).error) && r.value == None
    ensures s.compileError(route, query, path).None? && s.toBody(payload).Success? ==>
      var request := Request(CompiledRoute(route, query, path), Some(s.toBody(payload).value), sink);
      && r.events == [CompileCall(route, query, path), ToBodyCall(payload), DoCall(request)]
      && r.err == s.reply(request).err
      && r.value == (if sink == MessageSink then s.reply(request).message else None)
    ensures sink == NoSink ==> r.value == None
  {
    var compiled := CompileRoute(s, route, query, path);
    if compiled.Failure? then
      Run([CompileCall(route, query, path)], None, Some(compiled.error))
    else
      match s.toBody(payload)
      case Failure(e) => Run([CompileCall(route, query, path), ToBodyCall(payload)], None, Some(e))
      case Success(body) =>
        var request := Request(compiled.value, Some(body), sink);
        var answer := Answer(s, request);
        Run([CompileCall(route, query, path), ToBodyCall(payload), DoCall(request)], answer.message, answer.err)
  }

  /** The sink `createMessage` hands to `Do`: a message destination exactly when waiting. */
  function CreateMessageSink(wait: bool): (sink: Sink)
    ensures sink == MessageSink <==> wait
    ensures sink != WebhookSink
  {
    if wait then MessageSink else NoSink
  }

  // ---------------------------------------------------------------------
  // Properties across operations
  // ---------------------------------------------------------------------

  /** A route that does not compile ends every operation with that error and no `Do` call. */
  lemma CompileFailureStopsEveryOperation(s: Script, route: Route, query: QueryValues, path: seq<string>,
                                          body: Option<RequestBody>, payload: Payload, sink: Sink)
    requires s.compileError(route, query, path).Some?
    requires sink != WebhookSink
    ensures query == map[] ==> NoDo(WebhookRun(s, route, path, body).events)
    ensures query == map[] ==> WebhookRun(s, route, path, body).err == s.compileError(route, query, path)
    ensures NoDo(DeleteRun(s, route, query, path).events)
    ensures DeleteRun(s, route, query, path).err == s.compileError(route, query, path)
    ensures NoDo(MessageRun(s, route, query, path, payload, sink).events)
    ensures MessageRun(s, route, query, path, payload, sink).err == s.compileError(route, query, path)
  {
  }

  /** A payload that does not serialise ends message creation and update with that error and no `Do` call. */
  lemma SerialisationFailureStopsMessageOperations(s: Script, route: Route, query: QueryValues, path: seq<string>,
                                                   payload: Payload, sink: Sink)
    requires s.compileError(route, query, path).None? && s.toBody(payload).Failure?
    requires sink != WebhookSink
    ensures NoDo(MessageRun(s, route, query, path, payload, sink).events)
    ensures MessageRun(s, route, query, path, payload, sink).err == Some(s.toBody(payload).error)
  {
  }

  /** Every `Do` of a message creation carries exactly the query keys asked for and a destination only when waiting. */
  lemma CreateMessageRequestShape(s: Script, route: Route, webhookID: Snowflake, webhookToken: string,
                                  payload: Payload, wait: bool, threadID: Snowflake, i: nat)
    requires var r := MessageRun(s, route, CreateMessageQuery(wait, threadID), [webhookID, webhookToken], payload,
                                 CreateMessageSink(wait));
             i < |r.events| && r.events[i].DoCall?
    ensures var request := MessageRun(s, route, CreateMessageQuery(wait, threadID), [webhookID, webhookToken], payload,
                                      CreateMessageSink(wait)).events[i].request;
            && request.route.path == [webhookID, webhookToken]
            && ("wait" in request.route.query <==> wait)
            && ("thread_id" in request.route.query <==> threadID != "")
            && request.route.query.Keys <= {"wait", "thread_id"}
            && (request.sink == MessageSink <==> wait)
            && request.body.Some?
  {
  }

  // ---------------------------------------------------------------------
  // The recording client and the service
  // ---------------------------------------------------------------------

  /** A stand-in for the route package, the JSON layer and the REST client that logs every call it gets. */
  class RecordingClient {
    const script: Script
    var log: seq<Event>

    constructor (script: Script)
      ensures this.script == script && log == []
    {
      this.script := script;
      log := [];
    }

    method Compile(route: Route, query: QueryValues, path: seq<string>) returns (r: Result<CompiledRoute, RestError>)
      modifies this
      ensures log == old(log) + [CompileCall(route, query, path)]
      ensures r == CompileRoute(script, route, query, path)
    {
      log := log + [CompileCall(route, query, path)];
      r := CompileRoute(script, route, query, path);
    }

    method ToBody(payload: Payload) returns (r: Result<RequestBody, RestError>)
      modifies this
      ensures log == old(log) + [ToBodyCall(payload)]
      ensures r == script.toBody(payload)
    {
      log := log + [ToBodyCall(payload)];
      r := script.toBody(payload);
    }

    /** The error `Do` reports, and what it decoded into the destination it was given (nothing without one). */
    method Do(route: CompiledRoute, body: Option<RequestBody>, sink: Sink) returns (r: Reply)
      modifies this
      ensures log == old(log) + [DoCall(Request(route, body, sink))]
      ensures r == Answer(script, Request(route, body, sink))
    {
      log := log + [DoCall(Request(route, body, sink))];
      r := Answer(script, Request(route, body, sink));
    }
  }

  class WebhookServiceImpl {
    const restClient: RecordingClient

    constructor (restClient: RecordingClient)
      ensures this.restClient == restClient
    {
      this.restClient := restClient;
    }

    method GetWebhook(webhookID: Snowflake) returns (webhook: Option<Webhook>, err: Option<RestError>)
      modifies restClient
      ensures var r := WebhookRun(restClient.script, Route.GetWebhook, [webhookID], None);
              restClient.log == old(restClient.log) + r.events && webhook == r.value && err == r.err
    {
      webhook := None;
      var compiled := restClient.Compile(Route.GetWebhook, map[], [webhookID]);
      if compiled.Failure? {
        err := Some(compiled.error);
        return;
      }
      var reply := restClient.Do(compiled.value, None, WebhookSink);
      err := reply.err;
      if err.None? {
        webhook := reply.webhook;
      }
    }

    method UpdateWebhook(webhookID: Snowflake, webhookUpdate: Payload)
      returns (webhook: Option<Webhook>, err: Option<RestError>)
      modifies restClient
      ensures var r := WebhookRun(restClient.script, Route.UpdateWebhook, [webhookID], Some(Value(webhookUpdate)));
              restClient.log == old(restClient.log) + r.events && webhook == r.value && err == r.err
    {
      webhook := None;
      var compiled := restClient.Compile(Route.UpdateWebhook, map[], [webhookID]);
      if compiled.Failure? {
        err := Some(compiled.error);
        return;
      }
      var reply := restClient.Do(compiled.value, Some(Value(webhookUpdate)), WebhookSink);
      err := reply.err;
      if err.None? {
        webhook := reply.webhook;
      }
    }

    method DeleteWebhook(webhookID: Snowflake) returns (err: Option<RestError>)
      modifies restClient
      ensures var r := DeleteRun(restClient.script, Route.DeleteWebhook, map[], [webhookID]);
              restClient.log == old(restClient.log) + r.events && err == r.err
    {
      var compiled := restClient.Compile(Route.DeleteWebhook, map[], [webhookID]);
      if compiled.Failure? {
        err := Some(compiled.error);
        return;
      }
      var reply := restClient.Do(compiled.value, None, NoSink);
      err := reply.err;
    }

    method GetWebhookWithToken(webhookID: Snowflake, webhookToken: string)
      returns (webhook: Option<Webhook>, err: Option<RestError>)
      modifies restClient
      ensures var r := WebhookRun(restClient.script, Route.GetWebhookWithToken, [webhookID, webhookToken], None);
              restClient.log == old(restClient.log) + r.events && webhook == r.value && err == r.err
    {
      webhook := None;
      var compiled := restClient.Compile(Route.GetWebhookWithToken, map[], [webhookID, webhookToken]);
      if compiled.Failure? {
        err := Some(compiled.error);
        return;
      }
      var reply := restClient.Do(compiled.value, None, WebhookSink);
      err := reply.err;
      if err.None? {
        webhook := reply.webhook;
      }
    }

    method UpdateWebhookWithToken(webhookID: Snowflake, webhookToken: string, webhookUpdate: Payload)
      returns (webhook: Option<Webhook>, err: Option<RestError>)
      modifies restClient
      ensures var r := WebhookRun(restClient.script, Route.UpdateWebhookWithToken, [webhookID, webhookToken],
                                  Some(Value(webhookUpdate)));
              restClient.log == old(restClient.log) + r.events && webhook == r.value && err == r.err
    {
      webhook := None;
      var compiled := restClient.Compile(Route.UpdateWebhookWithToken, map[], [webhookID, webhookToken]);
      if compiled.Failure? {
        err := Some(compiled.error);
        return;
      }
      var reply := restClient.Do(compiled.value, Some(Value(webhookUpdate)), WebhookSink);
      err := reply.err;
      if err.None? {
        webhook := reply.webhook;
      }
    }

    method DeleteWebhookWithToken(webhookID: Snowflake, webhookToken: string) returns (err: Option<RestError>)
      modifies restClient
      ensures var r := DeleteRun(restClient.script, Route.DeleteWebhookWithToken, map[], [webhookID, webhookToken]);
              restClient.log == old(restClient.log) + r.events && err == r.err
    {
      var compiled := restClient.Compile(Route.DeleteWebhookWithToken, map[], [webhookID, webhookToken]);
      if compiled.Failure? {
        err := Some(compiled.error);
        return;
      }
      var reply := restClient.Do(compiled.value, None, NoSink);
      err := reply.err;
    }

    /**
     * The shared body of the three message-creation forms: builds the query
     * in place, compiles `apiRoute` with the webhook identifier and token,
     * serialises the payload and sends it, asking for the message back only
     * when `wait` is set.
     */
    method CreateMessageVia(webhookID: Snowflake, webhookToken: string, messageCreate: Payload, wait: bool,
                            threadID: Snowflake, apiRoute: Route)
      returns (message: Option<Message>, err: Option<RestError>)
      modifies restClient
      ensures var r := MessageRun(restClient.script, apiRoute, CreateMessageQuery(wait, threadID),
                                  [webhookID, webhookToken], messageCreate, CreateMessageSink(wait));
              restClient.log == old(restClient.log) + r.events && message == r.value && err == r.err
    {
      message := None;
      var params: QueryValues := map[];
      if wait {
        params := params["wait" := Flag(true)];
      }
      if threadID != "" {
        params := params["thread_id" := Text(threadID)];
      }
      assert params == CreateMessageQuery(wait, threadID);
      var compiled := restClient.Compile(apiRoute, params, [webhookID, webhookToken]);
      if compiled.Failure? {
        err := Some(compiled.error);
        return;
      }
      var body := restClient.ToBody(messageCreate);
      if body.Failure? {
        err := Some(body.error);
        return;
      }
      var reply;
      if wait {
        reply := restClient.Do(compiled.value, Some(body.value), MessageSink);
      } else {
        reply := restClient.Do(compiled.value, Some(body.value), NoSink);
      }
      message, err := reply.message, reply.err;
    }

    method CreateMessage(webhookID: Snowflake, webhookToken: string, messageCreate: Payload, wait: bool,
                         threadID: Snowflake)
      returns (message: Option<Message>, err: Option<RestError>)
      modifies restClient
      ensures var r := MessageRun(restClient.script, Route.CreateWebhookMessage, CreateMessageQuery(wait, threadID),
                                  [webhookID, webhookToken], messageCreate, CreateMessageSink(wait));
              restClient.log == old(restClient.log) + r.events && message == r.value && err == r.err
    {
      message, err := CreateMessageVia(webhookID, webhookToken, messageCreate, wait, threadID, Route.CreateWebhookMessage);
    }

    method CreateMessageSlack(webhookID: Snowflake, webhookToken: string, messageCreate: Payload, wait: bool,
                              threadID: Snowflake)
      returns (message: Option<Message>, err: Option<RestError>)
      modifies restClient
      ensures var r := MessageRun(restClient.script, Route.CreateWebhookMessageSlack, CreateMessageQuery(wait, threadID),
                                  [webhookID, webhookToken], messageCreate, CreateMessageSink(wait));
              restClient.log == old(restClient.log) + r.events && message == r.value && err == r.err
    {
      message, err := CreateMessageVia(webhookID, webhookToken, messageCreate, wait, threadID,
                                       Route.CreateWebhookMessageSlack);
    }

    method CreateMessageGitHub(webhookID: Snowflake, webhookToken: string, messageCreate: Payload, wait: bool,
                               threadID: Snowflake)
      returns (message: Option<Message>, err: Option<RestError>)
      modifies restClient
      ensures var r := MessageRun(restClient.script, Route.CreateWebhookMessageGitHub, CreateMessageQuery(wait, threadID),
                                  [webhookID, webhookToken], messageCreate, CreateMessageSink(wait));
              restClient.log == old(restClient.log) + r.events && message == r.value && err == r.err
    {
      message, err := CreateMessageVia(webhookID, webhookToken, messageCreate, wait, threadID,
                                       Route.CreateWebhookMessageGitHub);
    }

    method UpdateMessage(webhookID: Snowflake, webhookToken: string, messageID: Snowflake, messageUpdate: Payload,
                         threadID: Snowflake)
      returns (message: Option<Message>, err: Option<RestError>)
      modifies restClient
      ensures var r := MessageRun(restClient.script, Route.UpdateWebhookMessage, ThreadQuery(threadID),
                                  [webhookID, webhookToken, messageID], messageUpdate, MessageSink);
              restClient.log == old(restClient.log) + r.events && message == r.value && err == r.err
    {
      message := None;
      var params: QueryValues := map[];
      if threadID != "" {
        params := params["thread_id" := Text(threadID)];
      }
      assert params == ThreadQuery(threadID);
      var compiled := restClient.Compile(Route.UpdateWebhookMessage, params, [webhookID, webhookToken, messageID]);
      if compiled.Failure? {
        err := Some(compiled.error);
        return;
      }
      var body := restClient.ToBody(messageUpdate);
      if body.Failure? {
        err := Some(body.error);
        return;
      }
      var reply := restClient.Do(compiled.value, Some(body.value), MessageSink);
      message, err := reply.message, reply.err;
    }

    method DeleteMessage(webhookID: Snowflake, webhookToken: string, messageID: Snowflake, threadID: Snowflake)
      returns (err: Option<RestError>)
      modifies restClient
      ensures var r := DeleteRun(restClient.script, Route.DeleteWebhookMessage, ThreadQuery(threadID),
                                 [webhookID, webhookToken, messageID]);
              restClient.log == old(restClient.log) + r.events && err == r.err
    {
      var params: QueryValues := map[];
      if threadID != "" {
        params := params["thread_id" := Text(threadID)];
      }
      assert params == ThreadQuery(threadID);
      var compiled := restClient.Compile(Route.DeleteWebhookMessage, params, [webhookID, webhookToken, messageID]);
      if compiled.Failure? {
        err := Some(compiled.error);
        return;
      }
      var reply := restClient.Do(compiled.value, None, NoSink);
      err := reply.err;
    }
  }
}
