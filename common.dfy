/** Values shared by the serving process: optional values and fatal outcomes,
    the fixed-width integers of the command line, and the configuration that
    the serving process reads (the `Config` and `ModelConfig` types of the
    common configuration crate, reduced to the fields the serving core uses). */
module Common {

  datatype Option<+T> = None | Some(value: T)

  /** The result of a startup step: a value, or a fatal condition that aborts
      the process (a panic such as `unimplemented!`). It can be used with `:-`. */
  datatype Outcome<+T> = Ok(value: T) | Fatal(message: string) {

    predicate IsFailure() {
      Fatal?
    }

    function PropagateFailure<U>(): Outcome<U>
      requires Fatal?
    {
      Fatal(message)
    }

    function Extract(): T
      requires Ok?
    {
      value
    }
  }

  type U8 = x: int | 0 <= x < 0x100
  type U16 = x: int | 0 <= x < 0x1_0000
  type U64 = x: int | 0 <= x < 0x1_0000_0000_0000_0000

  /** The device a local model runs on; only the default, `Cpu`, matters here. */
  datatype Device = Cpu | Accelerator(name: string)

  /** A model reached over HTTP. */
  datatype HttpModelConfig = HttpModelConfig(
    kind: string,
    apiEndpoint: string,
    promptTemplate: Option<string>,
    chatTemplate: Option<string>)

  /** A model run in-process from a local path or registry id. */
  datatype LocalModelConfig = LocalModelConfig(modelId: string, parallelism: U8, device: Device)

  /** How to obtain the backend of one role: over HTTP, or locally. */
  datatype ModelConfig = Http(http: HttpModelConfig) | Local(local: LocalModelConfig)

  /** The three model roles: completion and chat are optional, embedding is always configured. */
  datatype ModelConfigGroup = ModelConfigGroup(
    completion: Option<ModelConfig>,
    chat: Option<ModelConfig>,
    embedding: ModelConfig)

  /** Server-level settings; `completionTimeout` is in seconds. */
  datatype ServerConfig = ServerConfig(completionTimeout: U64)

  /** Settings handed unchanged to the completion service; their fields are not part of this model. */
  datatype CompletionConfig = CompletionConfig(settings: seq<string>)

  datatype Config = Config(model: ModelConfigGroup, server: ServerConfig, completion: CompletionConfig)

  /** True when a role is configured with the `Local` variant. */
  predicate IsLocal(role: Option<ModelConfig>) {
    role.Some? && role.value.Local?
  }

  /** Stand-in for `to_local_config`, whose definition is not part of this model:
      the model it builds from a command-line model id is a `Local` one that
      records the id, the parallelism and the device it was given. */
  function ToLocalConfig(modelId: string, parallelism: U8, device: Device): ModelConfig {
    Local(LocalModelConfig(modelId, parallelism, device))
  }
}
