/** Resolution of the model roles (services/model/mod.rs): each configured
    role becomes a backend handle, an unconfigured completion or chat role
    becomes an absent handle, and a `Local` role of any kind is a fatal
    "not implemented" condition.

    The HTTP bindings are outside this model; the handle a binding returns is
    the constructor term naming the binding and the configuration it was given
    (`HttpEmbedding(h)` is what `create_embedding` returns for `h`). */
module ModelServices {
  import opened Common

  /** The templates a completion backend reports. */
  datatype PromptInfo = PromptInfo(promptTemplate: Option<string>, chatTemplate: Option<string>)

  datatype Embedding = HttpEmbedding(config: HttpModelConfig)
  datatype CompletionStream = HttpCompletion(config: HttpModelConfig)
  datatype ChatCompletionStream = HttpChat(config: HttpModelConfig)
  /** A code generator over a completion engine, built with the completion model it serves. */
  datatype CodeGeneration = CodeGeneration(engine: CompletionStream, model: Option<ModelConfig>)

  /** What `load_completion_and_chat` returns. */
  datatype CompletionAndChat = CompletionAndChat(
    completion: Option<CompletionStream>,
    prompt: Option<PromptInfo>,
    chat: Option<ChatCompletionStream>)

  /** What `load_code_generation_and_chat` returns. */
  datatype CodeGenerationAndChat = CodeGenerationAndChat(
    code: Option<CodeGeneration>,
    completion: Option<CompletionStream>,
    chat: Option<ChatCompletionStream>,
    prompt: Option<PromptInfo>)

  // The panic messages of `unimplemented!` for each role.
  const LocalEmbeddingUnsupported := "not implemented: Local embedding model is not supported"
  const LocalCompletionUnsupported := "not implemented: Local completion model is not supported"
  const LocalChatUnsupported := "not implemented: Local chat model is not supported"

  /** Stand-in for the binding's `build_completion_prompt`, which is not part
      of this model: the prompt template and chat template of the HTTP model. */
  function BuildCompletionPrompt(http: HttpModelConfig): (Option<string>, Option<string>) {
    (http.promptTemplate, http.chatTemplate)
  }

  function LoadEmbedding(config: ModelConfig): (r: Outcome<Embedding>)
    ensures r.Ok? <==> config.Http?
    ensures config.Http? ==> r.value == HttpEmbedding(config.http)
    ensures config.Local? ==> r.message == LocalEmbeddingUnsupported
  {
    match config
    case Http(http) => Ok(HttpEmbedding(http))
    case Local(_) => Fatal(LocalEmbeddingUnsupported)
  }

  /** Resolves the completion role, then the chat role; a `Local` completion
      role aborts before the chat role is looked at. */
  function LoadCompletionAndChat(completionModel: Option<ModelConfig>, chatModel: Option<ModelConfig>): (r: Outcome<CompletionAndChat>)
    ensures r.Ok? <==> !IsLocal(completionModel) && !IsLocal(chatModel)
    ensures r.Fatal? ==>
      r.message == if IsLocal(completionModel) then LocalCompletionUnsupported else LocalChatUnsupported
    ensures r.Ok? ==> (r.value.completion.Some? <==> completionModel.Some?)
    ensures r.Ok? ==> (r.value.prompt.Some? <==> r.value.completion.Some?)
    ensures r.Ok? ==> (r.value.chat.Some? <==> chatModel.Some?)
    ensures r.Ok? && completionModel.Some? ==>
      var templates := BuildCompletionPrompt(completionModel.value.http);
      && r.value.completion == Some(HttpCompletion(completionModel.value.http))
      && r.value.prompt == Some(PromptInfo(templates.0, templates.1))
    ensures r.Ok? && chatModel.Some? ==> r.value.chat == Some(HttpChat(chatModel.value.http))
  {
    var completionAndPrompt :- match completionModel
      case Some(Http(http)) =>
        var (promptTemplate, chatTemplate) := BuildCompletionPrompt(http);
        Ok((Some(HttpCompletion(http)), Some(PromptInfo(promptTemplate, chatTemplate))))
      case Some(Local(_)) => Fatal(LocalCompletionUnsupported)
      case None => Ok((None, None));
    var chat :- match chatModel
      case Some(Http(http)) => Ok(Some(HttpChat(http)))
      case Some(Local(_)) => Fatal(LocalChatUnsupported)
      case None => Ok(None);
    Ok(CompletionAndChat(completionAndPrompt.0, completionAndPrompt.1, chat))
  }

  /** Resolves completion and chat and wraps a present completion engine in a
      code generator; everything else passes through unchanged. */
  function LoadCodeGenerationAndChat(completionModel: Option<ModelConfig>, chatModel: Option<ModelConfig>): (r: Outcome<CodeGenerationAndChat>)
    ensures var loaded := LoadCompletionAndChat(completionModel, chatModel);
      && (r.Fatal? <==> loaded.Fatal?)
      && (r.Fatal? ==> r.message == loaded.message)
      && (r.Ok? ==>
            && r.value.completion == loaded.value.completion
            && r.value.chat == loaded.value.chat
            && r.value.prompt == loaded.value.prompt)
    ensures r.Ok? ==> (r.value.code.Some? <==> r.value.completion.Some?)
    ensures r.Ok? && r.value.code.Some? ==>
      r.value.code.value == CodeGeneration(r.value.completion.value, completionModel)
  {
    var loaded :- LoadCompletionAndChat(completionModel, chatModel);
    var code := match loaded.completion
      case Some(engine) => Some(CodeGeneration(engine, completionModel))
      case None => None;
    Ok(CodeGenerationAndChat(code, loaded.completion, loaded.chat, loaded.prompt))
  }

  /** The chat handle depends on the chat role alone: whatever the completion
      role is, once resolution succeeds the chat handles agree. */
  lemma ChatDependsOnlyOnChatRole(completion1: Option<ModelConfig>, completion2: Option<ModelConfig>, chatModel: Option<ModelConfig>)
    requires LoadCompletionAndChat(completion1, chatModel).Ok?
    requires LoadCompletionAndChat(completion2, chatModel).Ok?
    ensures LoadCompletionAndChat(completion1, chatModel).value.chat
         == LoadCompletionAndChat(completion2, chatModel).value.chat
  {
  }
}
