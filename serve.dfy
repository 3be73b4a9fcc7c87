/** Startup of the serving process (serve.rs): the command-line completion
    model overrides the configured one, local model paths are checked, the
    services are built in a fixed order, and the HTTP route table is put
    together from whichever of completion and chat resolved. */
module Serve {
  import opened Common
  import opened Routing
  import opened ModelServices

  /** The command line of the `serve` subcommand. */
  datatype ServeArgs = ServeArgs(model: Option<string>, host: string, port: U16, device: Device, parallelism: U8)

  /** The command line with every option left at its default. */
  function DefaultServeArgs(): ServeArgs {
    ServeArgs(None, "0.0.0.0", 8080, Cpu, 1)
  }

  // Handles of the services built during startup; their constructors are the
  // factories that build them, which are not part of this model.
  datatype EventLogger = EventLogger
  datatype IndexReaderProvider = IndexReaderProvider
  datatype DocSearch = DocSearch(embedding: Embedding, readers: IndexReaderProvider)
  datatype CodeSearch = CodeSearch(embedding: Embedding, readers: IndexReaderProvider)
  datatype CompletionService = CompletionService(
    settings: CompletionConfig, generation: CodeGeneration, search: CodeSearch, logger: EventLogger)

  /** What a route runs; `ListModels` carries the configuration its snapshot is made from. */
  datatype Handler =
    | LogEvent(logger: EventLogger)
    | ListModels(snapshot: Config)
    | Completions(service: CompletionService)
    | ChatCompletions(chat: ChatCompletionStream)
    | Respond(status: U16)
    | ServerSetting

  /** The middleware of the completion routes: a request timeout in seconds,
      and the allowed-repository extension, which loads its list itself. */
  datatype Middleware = Timeout(seconds: U64) | AllowedRepositories

  type ApiRouter = Router<Handler, Middleware>

  const NotImplemented: U16 := 501

  const EventsPath := "/v1/events"
  const ModelsPath := "/v1/models"
  const CompletionsPath := "/v1/completions"
  const ChatCompletionsPath := "/v1/chat/completions"
  const ServerSettingPath := "/v1beta/server_setting"

  // ---------------------------------------------------------------------------
  // Config override

  /** The configuration after the command-line override, as a value: a copy of
      `config` whose completion role is replaced when a model is given. */
  function MergedConfig(config: Config, args: ServeArgs): (merged: Config)
    ensures args.model.None? ==> merged == config
    ensures args.model.Some? ==>
      merged.model.completion == Some(ToLocalConfig(args.model.value, args.parallelism, args.device))
    ensures merged.model.chat == config.model.chat
    ensures merged.model.embedding == config.model.embedding
    ensures merged.server == config.server
    ensures merged.completion == config.completion
  {
    match args.model
    case None => config
    case Some(model) =>
      config.(model := config.model.(completion := Some(ToLocalConfig(model, args.parallelism, args.device))))
  }

  /** Clones the configuration and overwrites the completion role of the clone
      when a model is given on the command line; `warned` is the override warning. */
  method MergeArgs(config: Config, args: ServeArgs) returns (merged: Config, warned: bool)
    ensures merged == MergedConfig(config, args)
    ensures warned <==> args.model.Some? && config.model.completion.Some?
  {
    merged := config;
    warned := false;
    if args.model.Some? {
      if merged.model.completion.Some? {
        warned := true;
      }
      var completion := Some(ToLocalConfig(args.model.value, args.parallelism, args.device));
      merged := merged.(model := merged.model.(completion := completion));
    }
  }

  // ---------------------------------------------------------------------------
  // Startup stages

  /** What startup does, in order, as far as it is observable. */
  datatype Stage =
    | OverrideWarning
    | LocalPathCheck(path: string)
    | EmbeddingReady
    | EventLoggerReady
    | DocSearchReady
    | CodeSearchReady
    | CompletionAndChatReady
    | RouterReady
    | Serving(host: string, port: U16)
    | Aborted(message: string)

  /** The local-path checks requested before any model is loaded: one for a
      `Local` completion role, then one for a `Local` embedding role. */
  function PathChecks(config: Config): (checks: seq<Stage>)
    ensures |checks| == (if IsLocal(config.model.completion) then 1 else 0)
                      + (if config.model.embedding.Local? then 1 else 0)
    ensures IsLocal(config.model.completion) ==>
      checks[0] == LocalPathCheck(config.model.completion.value.local.modelId)
    ensures config.model.embedding.Local? ==>
      checks[|checks| - 1] == LocalPathCheck(config.model.embedding.local.modelId)
    ensures forall i :: 0 <= i < |checks| ==> checks[i].LocalPathCheck?
  {
    (if IsLocal(config.model.completion) then [LocalPathCheck(config.model.completion.value.local.modelId)] else [])
    + (if config.model.embedding.Local? then [LocalPathCheck(config.model.embedding.local.modelId)] else [])
  }

  /** Requests the checks one role at a time, completion first. */
  method LoadModel(config: Config) returns (checks: seq<Stage>)
    ensures checks == PathChecks(config)
    ensures |checks| == (if IsLocal(config.model.completion) then 1 else 0)
                      + (if config.model.embedding.Local? then 1 else 0)
    ensures IsLocal(config.model.completion) ==>
      checks[0] == LocalPathCheck(config.model.completion.value.local.modelId)
    ensures config.model.embedding.Local? ==>
      checks[|checks| - 1] == LocalPathCheck(config.model.embedding.local.modelId)
    ensures forall i :: 0 <= i < |checks| ==> checks[i].LocalPathCheck?
  {
    checks := [];
    if config.model.completion.Some? && config.model.completion.value.Local? {
      checks := checks + [LocalPathCheck(config.model.completion.value.local.modelId)];
    }
    if config.model.embedding.Local? {
      checks := checks + [LocalPathCheck(config.model.embedding.local.modelId)];
    }
  }

  // ---------------------------------------------------------------------------
  // Route table

  /** The routes registered under `/v1/completions`: with a completion service,
      its route (and the chat route when chat is present) behind the completion
      middleware; without one, a route that answers 501 Not Implemented. */
  function CompletionRoutes(config: Config, completionState: Option<CompletionService>,
                            chatState: Option<ChatCompletionStream>): ApiRouter
  {
    match completionState
    case Some(service) =>
      [Route(CompletionsPath, Post, Completions(service), [Timeout(config.server.completionTimeout), AllowedRepositories])]
      + (match chatState
         case Some(chat) => [Route(ChatCompletionsPath, Post, ChatCompletions(chat), [AllowedRepositories])]
         case None => [])
    case None => [Route(CompletionsPath, Post, Respond(NotImplemented), [])]
  }

  /** The route table for the given services, in registration order: events,
      models, the completion routes, then server settings. */
  function RouteTable(config: Config, logger: EventLogger,
                      completionState: Option<CompletionService>,
                      chatState: Option<ChatCompletionStream>): (table: ApiRouter)
    ensures DistinctEndpoints(table)
  {
    [Route(EventsPath, Post, LogEvent(logger), []), Route(ModelsPath, Get, ListModels(config), [])]
    + CompletionRoutes(config, completionState, chatState)
    + [Route(ServerSettingPath, Get, ServerSetting, [])]
  }

  /** Builds the sub-routers one by one, pushing each on a list, and merges
      the list into an empty router. The timeout layer is added before the
      chat route, so it wraps only the completions route; the allowed-repository
      layer is added after, so it wraps both. */
  method BuildApiRouter(args: ServeArgs, config: Config, logger: EventLogger, code: CodeSearch,
                        completionState: Option<CompletionService>,
                        chatState: Option<ChatCompletionStream>)
    returns (root: ApiRouter)
    ensures root == RouteTable(config, logger, completionState, chatState)
  {
    var eventsRouter := AddRoute([], EventsPath, Post, LogEvent(logger));
    var modelsRouter := AddRoute([], ModelsPath, Get, ListModels(config));

    var completionRouter := BuildCompletionRouter(config, completionState, chatState);
    assert eventsRouter == [Route(EventsPath, Post, LogEvent(logger), [])];
    assert modelsRouter == [Route(ModelsPath, Get, ListModels(config), [])];

    var serverSettingRouter := AddRoute([], ServerSettingPath, Get, ServerSetting);
    var routers: seq<ApiRouter> := [];
    routers := routers + [eventsRouter];
    routers := routers + [modelsRouter];
    routers := routers + [completionRouter];
    routers := routers + [serverSettingRouter];
    assert routers == [eventsRouter, modelsRouter, completionRouter, serverSettingRouter];
    assert serverSettingRouter == [Route(ServerSettingPath, Get, ServerSetting, [])];
    RouteTableMerged(config, logger, completionState, chatState);

    root := [];
    for i := 0 to |routers|
      invariant root == Concat(routers[..i])
    {
      ConcatStep(routers, i);
      root := Merge(root, routers[i]);
    }
    assert routers[..|routers|] == routers;
  }

  /** The sub-router under `/v1/completions`: with a completion service, the
      completions route, a timeout layer, the chat route when chat is present,
      then the allowed-repository layer; without one, the 501 placeholder. */
  method BuildCompletionRouter(config: Config, completionState: Option<CompletionService>,
                               chatState: Option<ChatCompletionStream>)
    returns (router: ApiRouter)
    ensures router == CompletionRoutes(config, completionState, chatState)
  {
    if completionState.Some? {
      CompletionRouterLayers(config, completionState.value, chatState);
      router := AddRoute([], CompletionsPath, Post, Completions(completionState.value));
      router := WithLayer(router, Timeout(config.server.completionTimeout));
      match chatState {
        case Some(chat) =>
          router := AddRoute(router, ChatCompletionsPath, Post, ChatCompletions(chat));
        case None =>
      }
      router := WithLayer(router, AllowedRepositories);
    } else {
      router := AddRoute([], CompletionsPath, Post, Respond(NotImplemented));
    }
  }

  /** The completions route under the timeout layer: the router the timeout
      is added to holds that route alone, so the chat route is not yet there. */
  lemma TimedCompletionRouter(config: Config, service: CompletionService)
    ensures var timeout := Timeout(config.server.completionTimeout);
      var timed := WithLayer(AddRoute([], CompletionsPath, Post, Completions(service)), timeout);
      && timed == [Route(CompletionsPath, Post, Completions(service), [timeout])]
      && !Registered(timed, ChatCompletionsPath, Post)
  {
    var timeout := Timeout(config.server.completionTimeout);
    var completion := Route(CompletionsPath, Post, Completions(service), []);
    assert AddRoute([], CompletionsPath, Post, Completions(service)) == [completion];
    WithLayerOne(completion, timeout);
    assert CompletionsPath != ChatCompletionsPath by {
      assert |CompletionsPath| != |ChatCompletionsPath|;
    }
  }

  /** The completion sub-router as the source builds it: the completions
      route, the timeout layer, the chat route when chat is present, then the
      allowed-repository layer. A layer wraps only the routes registered before
      it, so the timeout reaches the completions route alone. */
  lemma CompletionRouterLayers(config: Config, service: CompletionService, chatState: Option<ChatCompletionStream>)
    ensures var timed := WithLayer(AddRoute([], CompletionsPath, Post, Completions(service)),
                                   Timeout(config.server.completionTimeout));
      && !Registered(timed, ChatCompletionsPath, Post)
      && WithLayer(match chatState
                   case Some(chat) => AddRoute(timed, ChatCompletionsPath, Post, ChatCompletions(chat))
                   case None => timed,
                   AllowedRepositories)
         == CompletionRoutes(config, Some(service), chatState)
  {
    var timeout := Timeout(config.server.completionTimeout);
    TimedCompletionRouter(config, service);
    var timedRoute := Route(CompletionsPath, Post, Completions(service), [timeout]);
    var timed := [timedRoute];
    assert [timeout] + [AllowedRepositories] == [timeout, AllowedRepositories];
    match chatState {
      case Some(chat) =>
        var chatRoute := Route(ChatCompletionsPath, Post, ChatCompletions(chat), []);
        assert AddRoute(timed, ChatCompletionsPath, Post, ChatCompletions(chat)) == [timedRoute, chatRoute];
        WithLayerTwo(timedRoute, chatRoute, AllowedRepositories);
        assert CompletionRoutes(config, Some(service), chatState)
            == [timedRoute.(layers := [timeout, AllowedRepositories]), chatRoute.(layers := [AllowedRepositories])];
      case None =>
        WithLayerOne(timedRoute, AllowedRepositories);
        assert CompletionRoutes(config, Some(service), chatState)
            == [timedRoute.(layers := [timeout, AllowedRepositories])];
    }
  }

  /** The route table is the four sub-routers merged in order. */
  lemma RouteTableMerged(config: Config, logger: EventLogger,
                         completionState: Option<CompletionService>,
                         chatState: Option<ChatCompletionStream>)
    ensures var table := RouteTable(config, logger, completionState, chatState);
      && Concat([[Route(EventsPath, Post, LogEvent(logger), [])],
                 [Route(ModelsPath, Get, ListModels(config), [])],
                 CompletionRoutes(config, completionState, chatState),
                 [Route(ServerSettingPath, Get, ServerSetting, [])]]) == table
      && DistinctEndpoints(table)
  {
    var events := [Route(EventsPath, Post, LogEvent(logger), [])];
    var models := [Route(ModelsPath, Get, ListModels(config), [])];
    ConcatFour(events, models, CompletionRoutes(config, completionState, chatState),
               [Route(ServerSettingPath, Get, ServerSetting, [])]);
    assert events + models == [events[0], models[0]];
  }

  /** Merging four routers one after the other appends their routes in order. */
  lemma ConcatFour(a: ApiRouter, b: ApiRouter, c: ApiRouter, d: ApiRouter)
    ensures Concat([a, b, c, d]) == a + b + c + d
  {
    ConcatPush([a, b, c], d);
    ConcatPush([a, b], c);
    ConcatPush([a], b);
    ConcatPush([], a);
    assert [a, b, c, d] == [a, b, c] + [d];
    assert [a, b, c] == [a, b] + [c];
    assert [a, b] == [a] + [b];
    assert [a] == [] + [a];
  }

  // ---------------------------------------------------------------------------
  // The route table as a declaration

  /** What kind of handler a route runs, without the state bound to it. */
  datatype HandlerKind =
    | EventHandler
    | ModelsHandler
    | CompletionsHandler
    | ChatCompletionsHandler
    | StatusHandler(status: U16)
    | SettingHandler

  datatype MiddlewareKind = TimeoutLayer | AllowedRepositoriesLayer

  /** A route without the state and parameters bound to it. */
  datatype RouteShape = RouteShape(path: string, verb: Verb, handler: HandlerKind, middleware: seq<MiddlewareKind>)

  function KindOf(handler: Handler): HandlerKind {
    match handler
    case LogEvent(_) => EventHandler
    case ListModels(_) => ModelsHandler
    case Completions(_) => CompletionsHandler
    case ChatCompletions(_) => ChatCompletionsHandler
    case Respond(status) => StatusHandler(status)
    case ServerSetting => SettingHandler
  }

  function LayerKind(layer: Middleware): MiddlewareKind {
    match layer
    case Timeout(_) => TimeoutLayer
    case AllowedRepositories => AllowedRepositoriesLayer
  }

  function LayerKinds(layers: seq<Middleware>): seq<MiddlewareKind> {
    if layers == [] then [] else [LayerKind(layers[0])] + LayerKinds(layers[1..])
  }

  function ShapeOf(route: Route<Handler, Middleware>): RouteShape {
    RouteShape(route.path, route.verb, KindOf(route.handler), LayerKinds(route.layers))
  }

  function Shapes(router: ApiRouter): seq<RouteShape> {
    if router == [] then [] else [ShapeOf(router[0])] + Shapes(router[1..])
  }

  lemma {:induction false} ShapesAppend(a: ApiRouter, b: ApiRouter)
    ensures Shapes(a + b) == Shapes(a) + Shapes(b)
  {
    if a != [] {
      assert (a + b)[1..] == a[1..] + b;
      ShapesAppend(a[1..], b);
    } else {
      assert a + b == b;
    }
  }

  /** When a declared route is registered, in terms of which services are present. */
  datatype Guard = Always | WithCompletion | WithoutCompletion | WithCompletionAndChat

  predicate Admits(guard: Guard, hasCompletion: bool, hasChat: bool) {
    match guard
    case Always => true
    case WithCompletion => hasCompletion
    case WithoutCompletion => !hasCompletion
    case WithCompletionAndChat => hasCompletion && hasChat
  }

  /** Every route the server can expose, each with the condition under which it is registered. */
  const DeclaredRoutes: seq<(Guard, RouteShape)> := [
    (Always, RouteShape(EventsPath, Post, EventHandler, [])),
    (Always, RouteShape(ModelsPath, Get, ModelsHandler, [])),
    (WithCompletion, RouteShape(CompletionsPath, Post, CompletionsHandler, [TimeoutLayer, AllowedRepositoriesLayer])),
    (WithCompletionAndChat, RouteShape(ChatCompletionsPath, Post, ChatCompletionsHandler, [AllowedRepositoriesLayer])),
    (WithoutCompletion, RouteShape(CompletionsPath, Post, StatusHandler(NotImplemented), [])),
    (Always, RouteShape(ServerSettingPath, Get, SettingHandler, []))
  ]

  /** The declared routes whose guard holds, in declaration order. */
  function Admitted(entries: seq<(Guard, RouteShape)>, hasCompletion: bool, hasChat: bool): seq<RouteShape> {
    if entries == [] then []
    else
      (if Admits(entries[0].0, hasCompletion, hasChat) then [entries[0].1] else [])
      + Admitted(entries[1..], hasCompletion, hasChat)
  }

  /** The declaration admits events, models, the completion routes (the chat
      route only with chat) or the 501 placeholder, and server settings. */
  lemma {:induction false} AdmittedRoutes(hasCompletion: bool, hasChat: bool)
    ensures Admitted(DeclaredRoutes, hasCompletion, hasChat)
         == [DeclaredRoutes[0].1, DeclaredRoutes[1].1]
            + (if hasCompletion then [DeclaredRoutes[2].1] + (if hasChat then [DeclaredRoutes[3].1] else [])
               else [DeclaredRoutes[4].1])
            + [DeclaredRoutes[5].1]
  {
    var d, c, h := DeclaredRoutes, hasCompletion, hasChat;
    assert d[5..][1..] == [];
    assert Admitted(d[5..], c, h) == [d[5].1];
    assert d[4..][1..] == d[5..];
    assert Admitted(d[4..], c, h) == (if c then [] else [d[4].1]) + [d[5].1];
    assert d[3..][1..] == d[4..];
    assert Admitted(d[3..], c, h) == (if c && h then [d[3].1] else []) + Admitted(d[4..], c, h);
    assert d[2..][1..] == d[3..];
    assert Admitted(d[2..], c, h) == (if c then [d[2].1] else []) + Admitted(d[3..], c, h);
    assert d[1..][1..] == d[2..];
    assert Admitted(d[1..], c, h) == [d[1].1] + Admitted(d[2..], c, h);
    assert Admitted(d, c, h) == [d[0].1] + Admitted(d[1..], c, h);
  }

  /** The route table built for any services has exactly the shape the
      declaration admits for which of completion and chat are present. */
  lemma RouteTableFollowsDeclaration(config: Config, logger: EventLogger,
                                     completionState: Option<CompletionService>,
                                     chatState: Option<ChatCompletionStream>)
    ensures Shapes(RouteTable(config, logger, completionState, chatState))
         == Admitted(DeclaredRoutes, completionState.Some?, chatState.Some?)
  {
    var head := [Route(EventsPath, Post, LogEvent(logger), []), Route(ModelsPath, Get, ListModels(config), [])];
    var group := CompletionRoutes(config, completionState, chatState);
    var tail := [Route(ServerSettingPath, Get, ServerSetting, [])];
    ShapesAppend(head + group, tail);
    ShapesAppend(head, group);
    AdmittedRoutes(completionState.Some?, chatState.Some?);
    assert Shapes(head) == [DeclaredRoutes[0].1, DeclaredRoutes[1].1] by {
      assert head[1..][1..] == [];
    }
    assert Shapes(tail) == [DeclaredRoutes[5].1];
    match completionState {
      case None =>
        assert Shapes(group) == [DeclaredRoutes[4].1];
      case Some(service) =>
        var timeout := Timeout(config.server.completionTimeout);
        assert LayerKinds([timeout, AllowedRepositories]) == [TimeoutLayer, AllowedRepositoriesLayer] by {
          assert [timeout, AllowedRepositories][1..] == [AllowedRepositories];
          assert LayerKinds([AllowedRepositories]) == [AllowedRepositoriesLayer];
        }
        var completionRoute := Route(CompletionsPath, Post, Completions(service), [timeout, AllowedRepositories]);
        match chatState {
          case None =>
            assert group == [completionRoute];
            assert Shapes(group) == [DeclaredRoutes[2].1];
          case Some(chat) =>
            var chatRoute := Route(ChatCompletionsPath, Post, ChatCompletions(chat), [AllowedRepositories]);
            assert group == [completionRoute, chatRoute];
            assert group[1..] == [chatRoute];
            assert LayerKinds([AllowedRepositories]) == [AllowedRepositoriesLayer];
            assert Shapes([chatRoute]) == [DeclaredRoutes[3].1];
            assert Shapes(group) == [DeclaredRoutes[2].1, DeclaredRoutes[3].1];
        }
    }
  }

  /** The shape of the route table is a function of which of completion and
      chat are present, and of nothing else. */
  lemma RouteShapeDependsOnlyOnPresence(config1: Config, logger1: EventLogger,
                                        completion1: Option<CompletionService>, chat1: Option<ChatCompletionStream>,
                                        config2: Config, logger2: EventLogger,
                                        completion2: Option<CompletionService>, chat2: Option<ChatCompletionStream>)
    requires completion1.Some? == completion2.Some?
    requires completion1.Some? ==> chat1.Some? == chat2.Some?
    ensures Shapes(RouteTable(config1, logger1, completion1, chat1))
         == Shapes(RouteTable(config2, logger2, completion2, chat2))
  {
    RouteTableFollowsDeclaration(config1, logger1, completion1, chat1);
    RouteTableFollowsDeclaration(config2, logger2, completion2, chat2);
    AdmittedRoutes(completion1.Some?, chat1.Some?);
    AdmittedRoutes(completion2.Some?, chat2.Some?);
  }

  // ---------------------------------------------------------------------------
  // Properties of the route table

  /** The event, model-listing and server-setting routes are there whatever
      services are present, bound to the logger, the configuration and the
      settings handler, with no middleware. */
  lemma AlwaysPresentRoutes(config: Config, logger: EventLogger,
                            completionState: Option<CompletionService>,
                            chatState: Option<ChatCompletionStream>)
    ensures var table := RouteTable(config, logger, completionState, chatState);
      && Dispatch(table, EventsPath, Post) == Some(Route(EventsPath, Post, LogEvent(logger), []))
      && Dispatch(table, ModelsPath, Get) == Some(Route(ModelsPath, Get, ListModels(config), []))
      && Dispatch(table, ServerSettingPath, Get) == Some(Route(ServerSettingPath, Get, ServerSetting, []))
  {
    var table := RouteTable(config, logger, completionState, chatState);
    DispatchFindsRoute(table, 0);
    DispatchFindsRoute(table, 1);
    DispatchFindsRoute(table, |table| - 1);
  }

  /** A completion request never meets a missing route: it reaches the
      completion service behind the timeout and the allowed-repository
      extension when there is one, and a fixed 501 Not Implemented otherwise. */
  lemma CompletionsAlwaysAnswered(config: Config, logger: EventLogger,
                                  completionState: Option<CompletionService>,
                                  chatState: Option<ChatCompletionStream>)
    ensures Dispatch(RouteTable(config, logger, completionState, chatState), CompletionsPath, Post)
         == Some(match completionState
                 case Some(service) =>
                   Route(CompletionsPath, Post, Completions(service), [Timeout(config.server.completionTimeout), AllowedRepositories])
                 case None => Route(CompletionsPath, Post, Respond(NotImplemented), []))
  {
    DispatchFindsRoute(RouteTable(config, logger, completionState, chatState), 2);
  }

  /** The chat route is registered exactly when both completion and chat are
      present, and then reaches the chat backend behind the allowed-repository
      extension only. */
  lemma ChatRouteOnlyWithCompletionAndChat(config: Config, logger: EventLogger,
                                           completionState: Option<CompletionService>,
                                           chatState: Option<ChatCompletionStream>)
    ensures Registered(RouteTable(config, logger, completionState, chatState), ChatCompletionsPath, Post)
        <==> completionState.Some? && chatState.Some?
    ensures completionState.Some? && chatState.Some? ==>
      Dispatch(RouteTable(config, logger, completionState, chatState), ChatCompletionsPath, Post)
      == Some(Route(ChatCompletionsPath, Post, ChatCompletions(chatState.value), [AllowedRepositories]))
  {
    var table := RouteTable(config, logger, completionState, chatState);
    if completionState.Some? && chatState.Some? {
      DispatchFindsRoute(table, 3);
    } else {
      forall i | 0 <= i < |table| ensures table[i].path != ChatCompletionsPath {
        assert |ChatCompletionsPath| == 20;
      }
    }
  }

  /** The timeout layer wraps the completions route of a present completion
      service and no other route. */
  lemma TimeoutWrapsCompletionsOnly(config: Config, logger: EventLogger,
                                    completionState: Option<CompletionService>,
                                    chatState: Option<ChatCompletionStream>)
    ensures var table := RouteTable(config, logger, completionState, chatState);
      forall i :: 0 <= i < |table| ==>
        (Timeout(config.server.completionTimeout) in table[i].layers
         <==> completionState.Some? && table[i].path == CompletionsPath)
  {
  }

  /** The allowed-repository extension wraps the completions and chat routes
      of a present completion service and no other route. */
  lemma AllowedRepositoriesWrapCompletionRoutes(config: Config, logger: EventLogger,
                                                completionState: Option<CompletionService>,
                                                chatState: Option<ChatCompletionStream>)
    ensures var table := RouteTable(config, logger, completionState, chatState);
      forall i :: 0 <= i < |table| ==>
        (AllowedRepositories in table[i].layers
         <==> completionState.Some? && table[i].path in {CompletionsPath, ChatCompletionsPath})
  {
  }

  // ---------------------------------------------------------------------------
  // Startup

  /** The process is up: the route table handed to the server loop, and where it listens. */
  datatype Served = Served(api: ApiRouter, host: string, port: U16)

  /** Startup aborts when any role is configured with the `Local` variant. */
  predicate StartupAborts(config: Config) {
    config.model.embedding.Local? || IsLocal(config.model.completion) || IsLocal(config.model.chat)
  }

  /** The message of the first stage that aborts: embedding, then completion, then chat. */
  function AbortMessage(config: Config): string
    requires StartupAborts(config)
  {
    if config.model.embedding.Local? then LocalEmbeddingUnsupported
    else if IsLocal(config.model.completion) then LocalCompletionUnsupported
    else LocalChatUnsupported
  }

  /** Which stages a trace holds, when it is the override warning (if any),
      the path checks, and the later stages. */
  lemma TraceMembership(warned: bool, checks: seq<Stage>, stages: seq<Stage>)
    requires forall i :: 0 <= i < |checks| ==> checks[i].LocalPathCheck?
    requires OverrideWarning !in stages
    ensures var trace := (if warned then [OverrideWarning] else []) + checks + stages;
      && (OverrideWarning in trace <==> warned)
      && (warned ==> trace[0] == OverrideWarning && OverrideWarning !in trace[1..])
      && (EmbeddingReady in trace <==> EmbeddingReady in stages)
      && (RouterReady in trace <==> RouterReady in stages)
  {
  }

  /** The services startup builds once the configuration is merged. */
  datatype Services = Services(
    logger: EventLogger,
    code: CodeSearch,
    completion: Option<CompletionService>,
    chat: Option<ChatCompletionStream>)

  const ServiceStages := [EmbeddingReady, EventLoggerReady, DocSearchReady, CodeSearchReady]

  /** The services a startup that does not abort builds: the event logger,
      code search over the HTTP embedding and the index-reader provider, and
      the completion service and chat handle that model resolution yields. */
  function ServicesFor(config: Config): Services
    requires !StartupAborts(config)
  {
    var loaded := LoadCodeGenerationAndChat(config.model.completion, config.model.chat).value;
    var code := CodeSearch(HttpEmbedding(config.model.embedding.http), IndexReaderProvider);
    var completion := match loaded.code
      case Some(generation) => Some(CompletionService(config.completion, generation, code, EventLogger))
      case None => None;
    Services(EventLogger, code, completion, loaded.chat)
  }

  /** Builds the services in their fixed order: embedding, the event logger,
      document and code search over the embedding and one shared index-reader
      provider, then the completion service and chat. Resolution aborts on the
      first `Local` role; an unconfigured completion or chat role is absent. */
  method AssembleServices(config: Config) returns (stages: seq<Stage>, services: Outcome<Services>)
    ensures services.Fatal? <==> StartupAborts(config)
    ensures services.Fatal? ==>
      && services.message == AbortMessage(config)
      && stages == (if config.model.embedding.Local? then [] else ServiceStages) + [Aborted(services.message)]
    ensures services.Ok? ==>
      && stages == ServiceStages + [CompletionAndChatReady]
      && (services.value.completion.Some? <==> config.model.completion.Some?)
      && (services.value.chat.Some? <==> config.model.chat.Some?)
    ensures services.Ok? && services.value.completion.Some? ==>
      var service := services.value.completion.value;
      && service.settings == config.completion
      && service.search == services.value.code
      && service.logger == services.value.logger
      && service.generation.model == config.model.completion
      && service.search.embedding == HttpEmbedding(config.model.embedding.http)
    ensures services.Ok? ==> services.value == ServicesFor(config)
  {
    stages := [];
    var embedding := LoadEmbedding(config.model.embedding);
    if embedding.Fatal? {
      stages := stages + [Aborted(embedding.message)];
      services := Fatal(embedding.message);
      return;
    }
    stages := stages + [EmbeddingReady];

    var logger := EventLogger;
    stages := stages + [EventLoggerReady];

    var readers := IndexReaderProvider;
    var docsearch := DocSearch(embedding.value, readers);
    stages := stages + [DocSearchReady];
    var code := CodeSearch(embedding.value, readers);
    stages := stages + [CodeSearchReady];

    var loaded := LoadCodeGenerationAndChat(config.model.completion, config.model.chat);
    if loaded.Fatal? {
      stages := stages + [Aborted(loaded.message)];
      services := Fatal(loaded.message);
      return;
    }
    var completionService := match loaded.value.code
      case Some(generation) => Some(CompletionService(config.completion, generation, code, logger))
      case None => None;
    stages := stages + [CompletionAndChatReady];
    services := Ok(Services(logger, code, completionService, loaded.value.chat));
  }

  /** The serving process from the configuration file and the command line
      to the route table handed to the server loop, as a trace of stages. */
  method Start(config: Config, args: ServeArgs) returns (trace: seq<Stage>, served: Outcome<Served>)
    ensures trace == StartTrace(config, args)
    ensures served == StartOutcome(config, args)
    ensures (OverrideWarning in trace) <==> args.model.Some? && config.model.completion.Some?
    ensures OverrideWarning in trace ==> trace[0] == OverrideWarning && OverrideWarning !in trace[1..]
    ensures served.Fatal? <==> StartupAborts(MergedConfig(config, args))
    ensures served.Fatal? ==>
      && served.message == AbortMessage(MergedConfig(config, args))
      && |trace| > 0 && trace[|trace| - 1] == Aborted(served.message)
      && RouterReady !in trace
    ensures (EmbeddingReady in trace) <==> config.model.embedding.Http?
    ensures args.model.Some? && config.model.embedding.Http? ==> served == Fatal(LocalCompletionUnsupported)
    ensures served.Ok? ==>
      var merged := MergedConfig(config, args);
      && Shapes(served.value.api) == Admitted(DeclaredRoutes, merged.model.completion.Some?, merged.model.chat.Some?)
      && DistinctEndpoints(served.value.api)
      && served.value.host == args.host && served.value.port == args.port
      && |trace| >= 7
      && trace[|trace| - 7..] == ServiceStages + [CompletionAndChatReady, RouterReady, Serving(args.host, args.port)]
  {
    var merged, warned := MergeArgs(config, args);
    trace := if warned then [OverrideWarning] else [];

    var checks := LoadModel(merged);
    trace := trace + checks;

    var stages, services := AssembleServices(merged);
    if services.Fatal? {
      trace := trace + stages;
      served := Fatal(services.message);
    } else {
      var api := BuildApiRouter(args, merged, services.value.logger, services.value.code,
                                services.value.completion, services.value.chat);
      trace := trace + (stages + [RouterReady, Serving(args.host, args.port)]);
      assert stages + [RouterReady, Serving(args.host, args.port)]
          == ServiceStages + [CompletionAndChatReady, RouterReady, Serving(args.host, args.port)];
      served := Ok(Served(api, args.host, args.port));
    }
    StartConsequences(config, args, trace, served);
  }

  /** What follows from a trace and an outcome that are those of startup. */
  lemma StartConsequences(config: Config, args: ServeArgs, trace: seq<Stage>, served: Outcome<Served>)
    requires trace == StartTrace(config, args)
    requires served == StartOutcome(config, args)
    ensures (OverrideWarning in trace) <==> args.model.Some? && config.model.completion.Some?
    ensures OverrideWarning in trace ==> trace[0] == OverrideWarning && OverrideWarning !in trace[1..]
    ensures served.Fatal? <==> StartupAborts(MergedConfig(config, args))
    ensures served.Fatal? ==>
      && served.message == AbortMessage(MergedConfig(config, args))
      && |trace| > 0 && trace[|trace| - 1] == Aborted(served.message)
      && RouterReady !in trace
    ensures (EmbeddingReady in trace) <==> config.model.embedding.Http?
    ensures args.model.Some? && config.model.embedding.Http? ==> served == Fatal(LocalCompletionUnsupported)
    ensures served.Ok? ==>
      var merged := MergedConfig(config, args);
      && Shapes(served.value.api) == Admitted(DeclaredRoutes, merged.model.completion.Some?, merged.model.chat.Some?)
      && DistinctEndpoints(served.value.api)
      && served.value.host == args.host && served.value.port == args.port
      && |trace| >= 7
      && trace[|trace| - 7..] == ServiceStages + [CompletionAndChatReady, RouterReady, Serving(args.host, args.port)]
  {
    StartTraceOrder(config, args);
    StartOutcomeFacts(config, args);
  }

  /** How startup ends: the abort of the first stage that fails, or the
      route table of the services built, served on the given host and port. */
  function StartOutcome(config: Config, args: ServeArgs): Outcome<Served> {
    var merged := MergedConfig(config, args);
    if StartupAborts(merged) then Fatal(AbortMessage(merged))
    else Ok(Served(ServedRoutes(merged), args.host, args.port))
  }

  /** Startup aborts exactly when the merged configuration has a `Local`
      role; `--model` with an HTTP embedding always aborts on the local
      completion model; a successful startup serves a route table of the
      declared shape with no repeated endpoint. */
  lemma StartOutcomeFacts(config: Config, args: ServeArgs)
    ensures var served := StartOutcome(config, args);
      var merged := MergedConfig(config, args);
      && (served.Fatal? <==> StartupAborts(merged))
      && (args.model.Some? && config.model.embedding.Http? ==> served == Fatal(LocalCompletionUnsupported))
      && (served.Ok? ==>
            && Shapes(served.value.api) == Admitted(DeclaredRoutes, merged.model.completion.Some?, merged.model.chat.Some?)
            && DistinctEndpoints(served.value.api))
  {
    var merged := MergedConfig(config, args);
    if !StartupAborts(merged) {
      var services := ServicesFor(merged);
      RouteTableFollowsDeclaration(merged, services.logger, services.completion, services.chat);
    }
  }

  /** The route table a startup that does not abort hands to the server loop. */
  function ServedRoutes(config: Config): ApiRouter
    requires !StartupAborts(config)
  {
    var services := ServicesFor(config);
    RouteTable(config, services.logger, services.completion, services.chat)
  }

  /** The whole trace of startup: the override warning when `--model` replaces
      a configured completion model, the local-path checks of the merged
      configuration, then either the stages up to the first fatal one and the
      abort, or every service stage, the router and serving. */
  function StartTrace(config: Config, args: ServeArgs): seq<Stage> {
    var merged := MergedConfig(config, args);
    (if args.model.Some? && config.model.completion.Some? then [OverrideWarning] else [])
    + PathChecks(merged)
    + (if StartupAborts(merged)
       then (if merged.model.embedding.Local? then [] else ServiceStages) + [Aborted(AbortMessage(merged))]
       else ServiceStages + [CompletionAndChatReady, RouterReady, Serving(args.host, args.port)])
  }

  /** The order of the startup trace: the override warning comes first and
      only when due, an embedding is reported ready exactly when it is an HTTP
      one, an aborted startup ends with the abort and builds no router, and a
      successful one ends with the service stages, the router and serving. */
  lemma StartTraceOrder(config: Config, args: ServeArgs)
    ensures var trace := StartTrace(config, args);
      var merged := MergedConfig(config, args);
      && (OverrideWarning in trace <==> args.model.Some? && config.model.completion.Some?)
      && (OverrideWarning in trace ==> trace[0] == OverrideWarning && OverrideWarning !in trace[1..])
      && (EmbeddingReady in trace <==> config.model.embedding.Http?)
      && (StartupAborts(merged) ==>
            trace[|trace| - 1] == Aborted(AbortMessage(merged)) && RouterReady !in trace)
      && (!StartupAborts(merged) ==>
            && |trace| >= 7
            && trace[|trace| - 7..] == ServiceStages + [CompletionAndChatReady, RouterReady, Serving(args.host, args.port)])
  {
    var merged := MergedConfig(config, args);
    var warned := args.model.Some? && config.model.completion.Some?;
    var stages := if StartupAborts(merged)
      then (if merged.model.embedding.Local? then [] else ServiceStages) + [Aborted(AbortMessage(merged))]
      else ServiceStages + [CompletionAndChatReady, RouterReady, Serving(args.host, args.port)];
    TraceMembership(warned, PathChecks(merged), stages);
  }

  /** Once startup succeeds, the completion and chat routes are bound to the
      services built from the merged configuration: the completions route to
      a completion service over the HTTP completion engine, the shared code
      search and the event logger, and the chat route to the HTTP chat backend. */
  lemma ServedRoutesBindServices(config: Config)
    requires !StartupAborts(config)
    ensures config.model.completion.Some? ==>
      Dispatch(ServedRoutes(config), CompletionsPath, Post)
      == Some(Route(CompletionsPath, Post,
                    Completions(CompletionService(
                      config.completion,
                      CodeGeneration(HttpCompletion(config.model.completion.value.http), config.model.completion),
                      CodeSearch(HttpEmbedding(config.model.embedding.http), IndexReaderProvider),
                      EventLogger)),
                    [Timeout(config.server.completionTimeout), AllowedRepositories]))
    ensures config.model.completion.None? ==>
      Dispatch(ServedRoutes(config), CompletionsPath, Post)
      == Some(Route(CompletionsPath, Post, Respond(NotImplemented), []))
    ensures config.model.completion.Some? && config.model.chat.Some? ==>
      Dispatch(ServedRoutes(config), ChatCompletionsPath, Post)
      == Some(Route(ChatCompletionsPath, Post, ChatCompletions(HttpChat(config.model.chat.value.http)), [AllowedRepositories]))
    ensures Registered(ServedRoutes(config), ChatCompletionsPath, Post)
        <==> config.model.completion.Some? && config.model.chat.Some?
  {
    var services := ServicesFor(config);
    CompletionsAlwaysAnswered(config, services.logger, services.completion, services.chat);
    ChatRouteOnlyWithCompletionAndChat(config, services.logger, services.completion, services.chat);
  }

  /** With every command-line option at its default, the configuration is
      used as loaded, no override warning is raised, and a successful startup
      listens on 0.0.0.0 port 8080. */
  lemma DefaultServeArgsKeepConfig(config: Config)
    ensures MergedConfig(config, DefaultServeArgs()) == config
    ensures OverrideWarning !in StartTrace(config, DefaultServeArgs())
    ensures !StartupAborts(config) ==>
      var trace := StartTrace(config, DefaultServeArgs());
      |trace| > 0 && trace[|trace| - 1] == Serving("0.0.0.0", 8080)
  {
    StartTraceOrder(config, DefaultServeArgs());
  }
}
