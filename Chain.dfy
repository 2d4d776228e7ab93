/**
 * The provider chain as data: what each remote completion call did, which
 * provider ends up answering, and how many errors one pass through the chain
 * records. Azure OpenAI is tried first, standard OpenAI second, and a fixed
 * "unavailable" reply closes the chain.
 */
module Chain {
  import opened Wrappers

  /** The outcome of one remote completion call: the reply text, or an exception. */
  datatype Reply = Completed(content: string) | Raised

  /** Which client handles were set up at start-up. They never change afterwards. */
  datatype Config = Config(azure: bool, openai: bool)

  /** The `provider` field of a response. */
  datatype ProviderId = AzureOpenAI | OpenAI | NoProvider | KnowledgeBase

  /** A JSON response body: its text, who produced it, the `error` key if present and
      the `cached` marker (false stands for the key being absent). */
  datatype Response = Response(content: string, provider: ProviderId, error: Option<string>, cached: bool)

  const UnavailableText: string := "I'm temporarily unable to process your request. Please try again later."
  const NoServiceError: string := "No AI service available"

  /** The Azure client exists and its call returned. */
  predicate AzureAnswers(cfg: Config, azure: Reply) {
    cfg.azure && azure.Completed?
  }

  /** OpenAI is reached (Azure absent or failed), exists, and its call returned. */
  predicate OpenAIAnswers(cfg: Config, azure: Reply, openai: Reply) {
    !AzureAnswers(cfg, azure) && cfg.openai && openai.Completed?
  }

  predicate SomeProviderAnswers(cfg: Config, azure: Reply, openai: Reply) {
    AzureAnswers(cfg, azure) || OpenAIAnswers(cfg, azure, openai)
  }

  /** The response one pass through the chain returns: the first provider that
      answers, else the fixed unavailability reply with an `error` key. */
  function ChainResponse(cfg: Config, azure: Reply, openai: Reply): (res: Response)
    ensures res.provider == AzureOpenAI <==> AzureAnswers(cfg, azure)
    ensures res.provider == OpenAI <==> OpenAIAnswers(cfg, azure, openai)
    ensures res.provider == NoProvider <==> !SomeProviderAnswers(cfg, azure, openai)
    ensures res.provider != KnowledgeBase && !res.cached
    ensures res.provider == AzureOpenAI ==> res.content == azure.content
    ensures res.provider == OpenAI ==> res.content == openai.content
    ensures res.error.Some? <==> res.provider == NoProvider
    ensures res.provider == NoProvider ==>
      res.content == UnavailableText && res.error == Some(NoServiceError)
  {
    if AzureAnswers(cfg, azure) then Response(azure.content, AzureOpenAI, None, false)
    else if cfg.openai && openai.Completed? then Response(openai.content, OpenAI, None, false)
    else Response(UnavailableText, NoProvider, Some(NoServiceError), false)
  }

  /** Configured providers that were tried and raised. OpenAI is only tried when Azure did not answer. */
  function FailedAttempts(cfg: Config, azure: Reply, openai: Reply): (n: nat)
    ensures n <= 2
  {
    (if cfg.azure && azure.Raised? then 1 else 0) +
    (if !AzureAnswers(cfg, azure) && cfg.openai && openai.Raised? then 1 else 0)
  }

  /** What one pass through the chain adds to the error counter: one per failed
      attempt, and one more when nobody answered. */
  function ErrorIncrement(cfg: Config, azure: Reply, openai: Reply): (n: nat)
    ensures n <= 3
    ensures n == 0 <==> SomeProviderAnswers(cfg, azure, openai) && !(cfg.azure && azure.Raised?)
  {
    FailedAttempts(cfg, azure, openai) + (if SomeProviderAnswers(cfg, azure, openai) then 0 else 1)
  }

  /** The six situations, with the increment each one produces. */
  lemma ErrorIncrementTable(cfg: Config, azure: Reply, openai: Reply)
    ensures AzureAnswers(cfg, azure) ==> ErrorIncrement(cfg, azure, openai) == 0
    ensures !cfg.azure && OpenAIAnswers(cfg, azure, openai) ==> ErrorIncrement(cfg, azure, openai) == 0
    ensures cfg.azure && azure.Raised? && OpenAIAnswers(cfg, azure, openai) ==>
      ErrorIncrement(cfg, azure, openai) == 1
    ensures !cfg.azure && !cfg.openai ==> ErrorIncrement(cfg, azure, openai) == 1
    ensures cfg.azure != cfg.openai && !SomeProviderAnswers(cfg, azure, openai) ==>
      ErrorIncrement(cfg, azure, openai) == 2
    ensures cfg.azure && cfg.openai && azure.Raised? && openai.Raised? ==>
      ErrorIncrement(cfg, azure, openai) == 3
  {
  }

  /** The error counter after a run of chain passes that started from zero. */
  function ErrorsOver(cfg: Config, calls: seq<(Reply, Reply)>): nat {
    if calls == [] then 0
    else
      var last := calls[|calls| - 1];
      ErrorsOver(cfg, calls[..|calls| - 1]) + ErrorIncrement(cfg, last.0, last.1)
  }

  /** At most three errors are recorded per chain pass, so the error rate never exceeds 3. */
  lemma {:induction false} ErrorsOverBound(cfg: Config, calls: seq<(Reply, Reply)>)
    ensures ErrorsOver(cfg, calls) <= 3 * |calls|
  {
    if calls != [] {
      ErrorsOverBound(cfg, calls[..|calls| - 1]);
    }
  }

  /** When every provider call fails, each pass records one error per configured provider plus one. */
  lemma {:induction false} ErrorsOverAllFailing(cfg: Config, calls: seq<(Reply, Reply)>)
    requires forall k :: 0 <= k < |calls| ==> calls[k] == (Raised, Raised)
    ensures ErrorsOver(cfg, calls) ==
      ((if cfg.azure then 1 else 0) + (if cfg.openai then 1 else 0) + 1) * |calls|
  {
    if calls != [] {
      ErrorsOverAllFailing(cfg, calls[..|calls| - 1]);
    }
  }
}
