# Startup composition of the Tabby serving process

A Dafny model of how the `serve` subcommand puts the server together. The model covers four steps:

- **Config override.** `merge_args` lets a `--model` given on the command line replace the configured completion model.
- **Local-path checks.** `load_model` requests a local-path check for each `Local` model.
- **Model resolution.** The completion, chat and embedding models are resolved to backend handles (`load_embedding`, `load_completion_and_chat`, `load_code_generation_and_chat` in `services/model/mod.rs`).
- **Route table.** `api_router` builds the HTTP route table from whichever of completion and chat resolved.

The model has four modules:

- `Common` (`common.dfy`) holds:
  - the configuration: `Config`, `ModelConfigGroup`, and `ModelConfig = Http | Local`;
  - `Option`;
  - `Outcome`, which is a value or a fatal condition;
  - the command line's fixed-width integers.
- `Routing` (`routing.dfy`) covers the part of the router library that the server uses. A router is the sequence of its routes, in registration order:
  - `AddRoute` registers one path and verb. The library refuses to register the same path and verb twice, and that refusal is its precondition.
  - `WithLayer` wraps only the routes registered so far.
  - `Merge` appends another router's routes, under the same precondition as `AddRoute`.
  - `Dispatch` finds the route a request reaches. `None` means that no route has that path and verb. The library then answers 404 for an unknown path, and 405 for a known path under another verb.
- `ModelServices` (`model_services.dfy`) holds the resolution functions of `services/model/mod.rs` and `PromptInfo`. Each `unimplemented!` becomes `Fatal("not implemented: …")`.
- `Serve` (`serve.dfy`) holds the startup code of `serve.rs`:
  - `MergeArgs` clones the configuration and overwrites one field of the clone.
  - `BuildApiRouter` pushes four sub-routers onto a list and merges them with a `for` loop. `BuildCompletionRouter` is the in-place rebuild of the completion sub-router.
  - `Start` is `main`, recorded as a trace of `Stage` events.

## How external code is represented

- Backend handles are constructor terms that name the factory and the configuration it was given. For example, `HttpEmbedding(h)` is what the HTTP binding returns for `h`, and `CodeGeneration(engine, model)` is what `CodeGeneration::new` returns.
- `to_local_config` and `build_completion_prompt` are not part of this model. Their stand-ins are `Common.ToLocalConfig` and `ModelServices.BuildCompletionPrompt`:
  - `ToLocalConfig` builds a `Local` model that records the id, the parallelism and the device.
  - `BuildCompletionPrompt` returns the two templates of the HTTP model.
- `embedding::create` and `create_completion_service_and_chat` are not part of this model. In their place, `Start` composes `LoadEmbedding` and `LoadCodeGenerationAndChat`, and then wraps the code generator in a `CompletionService` over the code search and the event logger.

A consequence: because `ToLocalConfig` yields a `Local` model, `--model` always ends startup with the "Local completion model is not supported" abort. `Serve.Start` states this.

## Model

| member | source | states |
|---|---|---|
| Serve.MergedConfig | crates/tabby/src/serve.rs:242-252 | Without `--model` the configuration comes back unchanged. With `--model m`, the completion role becomes `to_local_config(m, parallelism, device)` whatever it was before. Chat, embedding, server and completion settings are untouched. |
| Serve.MergeArgs | crates/tabby/src/serve.rs:242-252 | Cloning and assigning the completion field gives exactly `MergedConfig`. The override warning is raised iff a model is given and a completion model was already configured. |
| Serve.PathChecks | crates/tabby/src/serve.rs:146-154 | A local-path check is requested for the completion model iff it is `Some(Local)`, and then it comes first. One is requested for the embedding model iff it is `Local`, and then it comes last. Nothing else is checked. |
| Serve.LoadModel | crates/tabby/src/serve.rs:146-154 | Checking the completion role and then the embedding role requests exactly `PathChecks`: the completion check first, the embedding check last, and nothing else. |
| Serve.BuildCompletionRouter | crates/tabby/src/serve.rs:182-209 | The completion sub-router, rebuilt in place, equals `CompletionRoutes`. With a service, that is the completions route under timeout and allowed-repositories, plus the chat route under allowed-repositories only when chat is present. Without a service, it is the 501 placeholder. |
| Serve.TimedCompletionRouter | crates/tabby/src/serve.rs:183-191 | The router the timeout layer is added to holds the completions route alone, so the timeout wraps only that route and the chat route is not yet registered. |
| Serve.CompletionRouterLayers | crates/tabby/src/serve.rs:183-199 | The timeout layer is added before the chat route, so the chat route is not yet registered when the timeout wraps the router. The allowed-repository layer then wraps both routes. |
| Serve.BuildApiRouter | crates/tabby/src/serve.rs:156-221 | Pushing events, models, the completion group and server settings, then folding them into an empty router, yields `RouteTable` in that order. No merge ever repeats an endpoint. |
| Serve.RouteTable | crates/tabby/src/serve.rs:164-219 | The route table for any services has no path and verb registered twice. |
| Serve.RouteTableMerged | crates/tabby/src/serve.rs:216-219 | Merging the four sub-routers in order gives the route table, which repeats no endpoint. |
| Serve.AdmittedRoutes | crates/tabby/src/serve.rs:164-214 | The route declaration admits, in order: events, models, then either the completions route (and the chat route only with chat) or the 501 placeholder, then server settings. |
| Serve.RouteTableFollowsDeclaration | crates/tabby/src/serve.rs:164-219 | The routes built for any services have the shapes (path, verb, handler kind, middleware) that the declaration admits for the presence of completion and chat. |
| Serve.RouteShapeDependsOnlyOnPresence | crates/tabby/src/serve.rs:182-209 | Two route tables with the same presence of completion (and of chat, when completion is present) have the same shape. The configuration, logger and handles do not matter. |
| Serve.AlwaysPresentRoutes | crates/tabby/src/serve.rs:166-180 | For every combination of services, POST `/v1/events`, GET `/v1/models` and GET `/v1beta/server_setting` reach their handlers with no middleware. |
| Serve.CompletionsAlwaysAnswered | crates/tabby/src/serve.rs:182-209 | POST `/v1/completions` always reaches a route. With a service it reaches the completion handler behind the timeout and allowed-repository layers. Without one it reaches a fixed 501. |
| Serve.ChatRouteOnlyWithCompletionAndChat | crates/tabby/src/serve.rs:192-197 | POST `/v1/chat/completions` is registered iff both completion and chat are present. It then reaches the chat backend behind the allowed-repository layer only. |
| Serve.TimeoutWrapsCompletionsOnly | crates/tabby/src/serve.rs:183-190 | A route carries the timeout layer iff a completion service is present and the route is `/v1/completions`. |
| Serve.AllowedRepositoriesWrapCompletionRoutes | crates/tabby/src/serve.rs:199 | A route carries the allowed-repository layer iff a completion service is present and the route is `/v1/completions` or `/v1/chat/completions`. |
| Serve.TraceMembership | crates/tabby/src/serve.rs:94-101 | A proof helper for `StartTraceOrder`, about a trace made of the optional override warning, the path checks and the later stages. The trace holds the warning iff it was raised, and then only at the start. It holds the embedding and router stages iff the later stages do. |
| Serve.AssembleServices | crates/tabby/src/serve.rs:101-124 | The services are built in a fixed order: embedding, event logger, document search, code search, then completion and chat. Startup aborts iff some role is `Local`. The first abort in that order gives the message. An unconfigured completion or chat role gives an absent handle. The completion service is built over the configured settings, the shared code search and the logger. The services are exactly `ServicesFor`: the chat handle is the one `load_code_generation_and_chat` yields, and the completion service wraps its code generator. |
| Serve.Start | crates/tabby/src/serve.rs:94-144 | Running the stages in source order gives exactly `StartTrace` and `StartOutcome`. The trace is the override warning when due, the local-path checks of the merged configuration, then either the stages up to the first abort or all service stages, the router and serving. On success, `ServedRoutes` is served, which is the route table bound to the services built. The contract also states, directly, the consequences proved in `StartTraceOrder` and `StartOutcomeFacts`. |
| Serve.StartTraceOrder | crates/tabby/src/serve.rs:94-144 | In the startup trace, the override warning comes first and only when due. The embedding is reported ready iff it is an HTTP one. An aborted startup ends with the abort and builds no router. A successful one ends with the service stages, the router and serving on the given host and port. |
| Serve.StartOutcomeFacts | crates/tabby/src/serve.rs:94-144 | Startup aborts iff the merged configuration has a `Local` role. `--model` with an HTTP embedding always aborts on the local completion model. A successful startup serves a route table of the declared shape with no repeated endpoint. |
| Serve.ServedRoutesBindServices | crates/tabby/src/serve.rs:111-133 | After a successful startup, POST `/v1/completions` reaches a completion service. That service is built over the HTTP completion engine, the completion model, the code search over the HTTP embedding, and the event logger; without a completion model it reaches the 501. POST `/v1/chat/completions` is registered iff completion and chat are both configured, and then reaches the HTTP chat backend. |
| Serve.DefaultServeArgsKeepConfig | crates/tabby/src/serve.rs:72-92 | With every option at its default, the configuration is used as loaded and no override warning is raised. A successful startup ends serving on 0.0.0.0 port 8080. |
| ModelServices.LoadEmbedding | crates/tabby/src/services/model/mod.rs:13-18 | An HTTP embedding model resolves to the HTTP binding's handle. A local one is a fatal "not implemented". |
| ModelServices.LoadCompletionAndChat | crates/tabby/src/services/model/mod.rs:37-79 | Resolution succeeds iff neither role is `Local`. A local completion model aborts before chat is examined. An absent role gives an absent handle. `PromptInfo` is present iff the engine is, and carries exactly the two templates of `build_completion_prompt`. The chat handle is the HTTP chat binding of the chat model. |
| ModelServices.LoadCodeGenerationAndChat | crates/tabby/src/services/model/mod.rs:20-35 | This fails exactly when `load_completion_and_chat` fails, with the same message. Otherwise it passes the engine, chat and `PromptInfo` through unchanged. The code generator is present iff the engine is, and is built from that engine and the completion model. |
| ModelServices.ChatDependsOnlyOnChatRole | crates/tabby/src/services/model/mod.rs:67-76 | Once resolution succeeds, the chat handle is the same whatever the completion model is. |
| Routing.DispatchFindsRoute | crates/tabby/src/serve.rs:220 | Router library behaviour, for the router returned here: in a router that repeats no endpoint, a request for a registered route's path and verb reaches exactly that route. |
| Routing.WithLayer | crates/tabby/src/serve.rs:188-199 | Router library behaviour for `.layer`: the paths, verbs and handlers of the routes do not change, so neither does what is registered. The new layer becomes the outermost layer of every route already there, and only of those. |
| Routing.ConcatStep | crates/tabby/src/serve.rs:216-219 | Each step of the merge loop extends the routes merged so far by the next router. When the final result repeats no endpoint, no intermediate merge does either. |

## Left out

- `try_run_spinner` and the oneshot send that stops the spinner are not modelled. They are a spawned task and a channel behind a build feature, and they change no result.
- The Swagger UI router, `ApiDoc`, `SecurityAddon` and `run_app` (the HTTP server loop) are not modelled. `Start` ends with the `Serving` stage and the route table, host and port that would be handed to the server loop.
- `download_model_if_needed` probes the file system and only logs. It appears as a `LocalPathCheck(path)` stage event. `crates/tabby/src/download.rs` is not part of this model.
- Async execution and `Arc` sharing are not modelled; the code is modelled as sequential.
- The HTTP bindings, `embedding::create`, `create_completion_service_and_chat`, `create_code_search`, `structured_doc::create`, `IndexReaderProvider::default`, `create_event_logger`, `to_local_config` and `build_completion_prompt` are not part of this model. They appear as constructor terms or stand-ins, as described above.
- Serve.AssembleServices: the completion service is assembled from `LoadCodeGenerationAndChat` and the code search. The actual `create_completion_service_and_chat` is not part of this model, so its own behaviour is not captured.
- `AllowedCodeRepository::new_from_config` reads its own configuration. The layer it becomes carries no data here.
- The `/v1/models` handler's state is the clone of the configuration converted into the models response. The model keeps the configuration itself; the conversion is not part of this model.
- A failure to bind the host and port, and any request handling after startup, are not modelled.
- `crates/tabby-index/fixtures/test_file.rs` is an indexer test fixture and is not modelled.
- The `host` argument is a string rather than an IP address. Parsing the command line is not modelled.
