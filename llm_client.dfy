/**
 * The LLM client's retry and error policy: bounded exponential-backoff retry,
 * the classification of provider errors, the prompt-token guard and response
 * budget, the Anthropic token estimate, the usage counters a client keeps,
 * and the factory's choice of provider, key and model.
 *
 * The provider's API is a function from the request and the attempt number
 * to a reply; the backoff sleeps are recorded as a list of delays.
 */
module LlmClient {
  import opened Wrappers
  import opened PyStr
  import ConfigManager

  // ---------------------------------------------------------------------
  // Providers, errors and outcomes

  datatype Provider = OpenAI | Anthropic

  /** The exception classes the client raises. */
  datatype ErrorKind = LLMError | RateLimitError | TokenLimitError | ValueError

  datatype Error = Error(kind: ErrorKind, message: string)

  /** What a call does: return a value or raise. */
  datatype Outcome<T> = Returned(value: T) | Raised(error: Error)

  /** The name the error messages give the provider. */
  function ProviderName(p: Provider): string {
    match p
    case OpenAI => "OpenAI"
    case Anthropic => "Anthropic"
  }

  // ---------------------------------------------------------------------
  // `_retry_with_backoff`

  /** `2 ** k`. */
  function Pow2(k: nat): (r: nat)
    ensures r >= 1
  {
    if k == 0 then 1 else 2 * Pow2(k - 1)
  }

  /** The sleep after failed attempt `k`: `retry_delay * (2 ** k)`. */
  function Backoff(delay: real, k: nat): real {
    delay * Pow2(k) as real
  }

  /** The first sleep is the configured delay and each later one doubles it. */
  lemma BackoffDoubles(delay: real, k: nat)
    ensures Backoff(delay, 0) == delay
    ensures Backoff(delay, k + 1) == 2.0 * Backoff(delay, k)
  {
    assert Pow2(k + 1) as real == 2.0 * Pow2(k) as real;
  }

  /** A run of the retry loop: its outcome, how many calls it made, the sleeps between them. */
  datatype Run<T> = Run(result: Outcome<T>, calls: nat, sleeps: seq<real>)

  const RetryFailed := "All retry attempts failed: "

  /**
   * The retry loop from attempt `k` on, with `call(k)` the outcome of the
   * `k`-th call. A failure before the last attempt sleeps `delay * 2^k` and
   * tries again; on the last attempt a rate-limit error is raised as it is and
   * any other error is wrapped. With no attempts at all nothing is called.
   */
  function RetryFrom<T>(call: nat -> Outcome<T>, attempts: int, delay: real, k: nat): Run<T>
    requires k == 0 || k < attempts
    decreases if attempts <= k then 0 else attempts - k
  {
    if attempts <= 0 then Run(Raised(Error(LLMError, RetryFailed + "None")), 0, [])
    else
      match call(k)
      case Returned(v) => Run(Returned(v), k + 1, [])
      case Raised(e) =>
        if k < attempts - 1 then
          var rest := RetryFrom(call, attempts, delay, k + 1);
          Run(rest.result, rest.calls, [Backoff(delay, k)] + rest.sleeps)
        else if e.kind == RateLimitError then Run(Raised(e), k + 1, [])
        else Run(Raised(Error(LLMError, RetryFailed + e.message)), k + 1, [])
  }

  function Retry<T>(call: nat -> Outcome<T>, attempts: int, delay: real): Run<T> {
    RetryFrom(call, attempts, delay, 0)
  }

  /** The error the last attempt ends with when it fails. */
  function FinalError(e: Error): Error {
    if e.kind == RateLimitError then e else Error(LLMError, RetryFailed + e.message)
  }

  /** A failure before the last attempt: one sleep, then the loop from the next attempt. */
  lemma RetryFromStep<T>(call: nat -> Outcome<T>, attempts: int, delay: real, k: nat)
    requires k < attempts - 1 && call(k).Raised?
    ensures var rest := RetryFrom(call, attempts, delay, k + 1);
            RetryFrom(call, attempts, delay, k) == Run(rest.result, rest.calls, [Backoff(delay, k)] + rest.sleeps)
  {
  }

  /**
   * From attempt `k` on: at most the remaining calls, each but the last a
   * failure, with one sleep between each two and the delay doubling.
   */
  lemma {:induction false} RetryFromShape<T>(call: nat -> Outcome<T>, attempts: int, delay: real, k: nat)
    requires k < attempts
    ensures var run := RetryFrom(call, attempts, delay, k);
            && k < run.calls <= attempts
            && |run.sleeps| == run.calls - 1 - k
            && (forall j :: 0 <= j < |run.sleeps| ==> run.sleeps[j] == Backoff(delay, k + j))
            && (forall j :: k <= j < run.calls - 1 ==> call(j).Raised?)
    decreases attempts - k
  {
    if call(k).Raised? && k < attempts - 1 {
      RetryFromStep(call, attempts, delay, k);
      RetryFromShape(call, attempts, delay, k + 1);
      var run := RetryFrom(call, attempts, delay, k);
      var rest := RetryFrom(call, attempts, delay, k + 1);
      forall j | 0 <= j < |run.sleeps|
        ensures run.sleeps[j] == Backoff(delay, k + j)
      {
        if j > 0 {
          assert run.sleeps[j] == rest.sleeps[j - 1];
        }
      }
    }
  }

  /**
   * From attempt `k` on: the loop returns iff some remaining attempt
   * returns, and then it returns the last call's value; a failure uses every
   * attempt and raises the last attempt's final error.
   */
  lemma {:induction false} RetryFromResult<T>(call: nat -> Outcome<T>, attempts: int, delay: real, k: nat)
    requires k < attempts
    ensures var run := RetryFrom(call, attempts, delay, k);
            && k < run.calls
            && (run.result.Returned? <==> exists j :: k <= j < attempts && call(j).Returned?)
            && (run.result.Returned? ==> run.result == call(run.calls - 1))
            && (run.result.Raised? ==> run.calls == attempts && run.result == Raised(FinalError(call(attempts - 1).error)))
    decreases attempts - k
  {
    if call(k).Returned? {
      assert k <= k < attempts && call(k).Returned?;
    } else if k < attempts - 1 {
      RetryFromStep(call, attempts, delay, k);
      RetryFromResult(call, attempts, delay, k + 1);
      var rest := RetryFrom(call, attempts, delay, k + 1);
      if rest.result.Returned? {
        var w :| k + 1 <= w < attempts && call(w).Returned?;
        assert k <= w < attempts && call(w).Returned?;
      } else {
        forall j | k <= j < attempts
          ensures call(j).Raised?
        {
          if j > k {
            assert k + 1 <= j < attempts;
          }
        }
      }
    }
  }

  /**
   * The loop as a whole: with at least one attempt it returns iff some
   * attempt returns, and then the first one; the calls never exceed the
   * attempts; the `j`-th sleep is `delay * 2^j`; a total failure makes every
   * call and sleeps one time fewer. With no attempts nothing is called.
   */
  lemma RetrySpec<T>(call: nat -> Outcome<T>, attempts: int, delay: real)
    ensures attempts <= 0 ==> Retry(call, attempts, delay) == Run(Raised(Error(LLMError, RetryFailed + "None")), 0, [])
    ensures attempts > 0 ==>
              var run := Retry(call, attempts, delay);
              && 1 <= run.calls <= attempts
              && |run.sleeps| == run.calls - 1
              && (forall j :: 0 <= j < |run.sleeps| ==> run.sleeps[j] == Backoff(delay, j))
              && (run.result.Returned? <==> exists j :: 0 <= j < attempts && call(j).Returned?)
              && (run.result.Returned? ==> run.result == call(run.calls - 1)
                                           && forall j :: 0 <= j < run.calls - 1 ==> call(j).Raised?)
              && (run.result.Raised? ==> run.calls == attempts
                                         && run.result == Raised(FinalError(call(attempts - 1).error)))
  {
    if attempts > 0 {
      RetryFromShape(call, attempts, delay, 0);
      RetryFromResult(call, attempts, delay, 0);
    }
  }

  /** One failure and then a success, with three attempts: exactly two calls and one sleep. */
  lemma RetryOnceThenSucceed<T>(call: nat -> Outcome<T>, delay: real)
    requires call(0).Raised? && call(1).Returned?
    ensures Retry(call, 3, delay) == Run(call(1), 2, [delay])
  {
    assert RetryFrom(call, 3, delay, 1) == Run(call(1), 2, []);
  }

  /** `_retry_with_backoff`: calls in turn, sleeping between failures, until one returns or the attempts run out. */
  method RetryWithBackoff<T>(call: nat -> Outcome<T>, attempts: int, delay: real)
    returns (result: Outcome<T>, calls: nat, sleeps: seq<real>)
    ensures Run(result, calls, sleeps) == Retry(call, attempts, delay)
  {
    var lastError: Option<Error> := None;
    sleeps := [];
    var attempt: nat := 0;
    while attempt < attempts
      invariant attempts > 0 ==> attempt < attempts
      invariant attempts <= 0 ==> attempt == 0
      invariant attempt == 0 ==> lastError == None && sleeps == []
      invariant var rest := RetryFrom(call, attempts, delay, attempt);
                Retry(call, attempts, delay) == Run(rest.result, rest.calls, sleeps + rest.sleeps)
      decreases attempts - attempt
    {
      var outcome := call(attempt);
      match outcome {
        case Returned(v) =>
          return Returned(v), attempt + 1, sleeps;
        case Raised(e) =>
          lastError := Some(e);
          if attempt < attempts - 1 {
            var wait := Backoff(delay, attempt);
            RetryFromStep(call, attempts, delay, attempt);
            ghost var rest := RetryFrom(call, attempts, delay, attempt + 1);
            assert sleeps + ([wait] + rest.sleeps) == (sleeps + [wait]) + rest.sleeps;
            sleeps := sleeps + [wait];
          } else if e.kind == RateLimitError {
            return Raised(e), attempt + 1, sleeps;
          } else {
            return Raised(Error(LLMError, RetryFailed + e.message)), attempt + 1, sleeps;
          }
      }
      attempt := attempt + 1;
    }
    var last := match lastError case None => "None" case Some(e) => e.message;
    result := Raised(Error(LLMError, RetryFailed + last));
    calls := attempt;
  }

  // ---------------------------------------------------------------------
  // One request

  /**
   * The provider's error as `generate` re-raises it: a rate limit when its
   * lower-cased text mentions `rate_limit`, otherwise an LLM error that
   * names a timeout or a plain API error.
   */
  function Classify(p: Provider, raised: string): (e: Error)
    ensures e.kind == RateLimitError <==> Contains(Lower(raised), "rate_limit")
    ensures e.kind != RateLimitError ==> e.kind == LLMError
    ensures |e.message| >= |raised| && e.message[|e.message| - |raised|..] == raised
    ensures ProviderName(p) <= e.message
  {
    var name := ProviderName(p);
    if Contains(Lower(raised), "rate_limit") then Error(RateLimitError, name + " rate limit exceeded: " + raised)
    else if Contains(Lower(raised), "timeout") then Error(LLMError, name + " request timeout: " + raised)
    else Error(LLMError, name + " API error: " + raised)
  }

  /** What a request sends besides the fixed system message. */
  datatype Request = Request(model: string, temperature: real, maxTokens: int, prompt: string)

  /** A successful reply: its text and the tokens the provider reports using. */
  datatype Answer = Answer(text: string, usage: nat)

  /** The provider's reply to one request, or the text of its error. */
  datatype Reply = Answered(answer: Answer) | Failed(raised: string)

  /** One attempt of `_make_request`: the answer, or the provider's error classified. */
  function Attempt(p: Provider, reply: Reply): (r: Outcome<Answer>)
    ensures r.Returned? <==> reply.Answered?
    ensures r.Returned? ==> r.value == reply.answer
    ensures r.Raised? ==> r.error == Classify(p, reply.raised)
  {
    match reply
    case Answered(answer) => Returned(answer)
    case Failed(raised) => Raised(Classify(p, raised))
  }

  /** The attempts of one `generate` call: the same request each time. */
  function Attempts(p: Provider, api: (Request, nat) -> Reply, request: Request): nat -> Outcome<Answer> {
    (k: nat) => Attempt(p, api(request, k))
  }

  /**
   * The guard: a prompt longer than four fifths of `max_tokens` is refused.
   * Python compares `tokens > max_tokens * 0.8`; on exact numbers that is
   * `5 * tokens > 4 * max_tokens`.
   */
  predicate TooLong(tokens: nat, maxTokens: int) {
    5 * tokens > 4 * maxTokens
  }

  /**
   * The Anthropic estimate `int(len(text) / 3.5)`: the whole part of the
   * length over three and a half.
   */
  function AnthropicTokens(text: string): (n: nat)
    ensures (n as real) <= (|text| as real) / 3.5 < (n + 1) as real
  {
    var len := |text|;
    var n := (2 * len) / 7;
    assert 7 * n <= 2 * len < 7 * n + 7;
    assert (len as real) / 3.5 == (2 * len) as real / 7.0;
    n
  }

  /** The OpenAI count: the tokenizer's, or a quarter of the length when it fails. */
  function OpenAiTokens(text: string, tokenizer: string -> Option<nat>): (n: nat)
    ensures tokenizer(text).Some? ==> n == tokenizer(text).value
    ensures tokenizer(text).None? ==> 4 * n <= |text| < 4 * n + 4
  {
    match tokenizer(text)
    case Some(count) => count
    case None => |text| / 4
  }

  /** `LLMConfig`. */
  datatype LlmConfig = LlmConfig(
    provider: Provider,
    model: string,
    apiKey: string,
    temperature: real,
    maxTokens: int,
    retryAttempts: int,
    retryDelay: real,
    timeout: real)

  /**
   * The request `generate` sends: the override temperature when given, and
   * a response budget of what the prompt leaves of `max_tokens`, which is at
   * least a fifth of it when the guard lets the prompt through.
   */
  function RequestFor(config: LlmConfig, prompt: string, temperature: Option<real>, tokens: nat): (r: Request)
    ensures r.prompt == prompt && r.model == config.model
    ensures temperature.Some? ==> r.temperature == temperature.value
    ensures temperature.None? ==> r.temperature == config.temperature
    ensures !TooLong(tokens, config.maxTokens) ==> 0 <= r.maxTokens && config.maxTokens <= 5 * r.maxTokens
    ensures r.maxTokens + tokens == config.maxTokens
  {
    var temp := if temperature.Some? then temperature.value else config.temperature;
    Request(config.model, temp, config.maxTokens - tokens, prompt)
  }

  /** The client: its configuration and the usage counters `generate` updates. */
  class Client {
    const config: LlmConfig
    var totalTokensUsed: nat
    var requestCount: nat

    constructor(config: LlmConfig)
      ensures this.config == config && totalTokensUsed == 0 && requestCount == 0
    {
      this.config := config;
      totalTokensUsed := 0;
      requestCount := 0;
    }

    /** `count_tokens` of the client's provider. */
    function CountTokens(text: string, tokenizer: string -> Option<nat>): (n: nat)
      ensures config.provider == Anthropic ==> n == AnthropicTokens(text)
      ensures config.provider == OpenAI ==> n == OpenAiTokens(text, tokenizer)
    {
      match config.provider
      case OpenAI => OpenAiTokens(text, tokenizer)
      case Anthropic => AnthropicTokens(text)
    }

    /**
     * `generate`: the guard first, raising a token-limit error with no call
     * and no retry; then the retry loop over the same request. Only the
     * attempt that returns counts a request and adds its usage.
     */
    method Generate(prompt: string, temperature: Option<real>, tokenizer: string -> Option<nat>,
                    api: (Request, nat) -> Reply)
      returns (r: Outcome<string>, calls: nat, sleeps: seq<real>)
      modifies this
      ensures var tokens := CountTokens(prompt, tokenizer);
              TooLong(tokens, config.maxTokens) ==>
                && r == Raised(Error(TokenLimitError, "Prompt too long: " + IntText(tokens) + " tokens"))
                && calls == 0 && sleeps == []
                && totalTokensUsed == old(totalTokensUsed) && requestCount == old(requestCount)
      ensures var tokens := CountTokens(prompt, tokenizer);
              var run := Retry(Attempts(config.provider, api, RequestFor(config, prompt, temperature, tokens)),
                               config.retryAttempts, config.retryDelay);
              !TooLong(tokens, config.maxTokens) ==>
                && calls == run.calls && sleeps == run.sleeps
                && (r.Returned? <==> run.result.Returned?)
                && (r.Returned? ==> r.value == run.result.value.text
                                    && requestCount == old(requestCount) + 1
                                    && totalTokensUsed == old(totalTokensUsed) + run.result.value.usage)
                && (r.Raised? ==> r.error == run.result.error
                                  && requestCount == old(requestCount) && totalTokensUsed == old(totalTokensUsed))
    {
      var tokens := CountTokens(prompt, tokenizer);
      if TooLong(tokens, config.maxTokens) {
        return Raised(Error(TokenLimitError, "Prompt too long: " + IntText(tokens) + " tokens")), 0, [];
      }
      var request := RequestFor(config, prompt, temperature, tokens);
      var result;
      result, calls, sleeps := RetryWithBackoff(Attempts(config.provider, api, request),
                                                config.retryAttempts, config.retryDelay);
      match result {
        case Returned(answer) =>
          // the counters move inside the one attempt that returns
          totalTokensUsed := totalTokensUsed + answer.usage;
          requestCount := requestCount + 1;
          r := Returned(answer.text);
        case Raised(e) =>
          r := Raised(e);
      }
    }
  }

  /**
   * A `generate` whose every attempt fails ends with a rate-limit error iff
   * the last provider error mentions `rate_limit`; any other last error is
   * wrapped as "All retry attempts failed: …" around its classified text.
   */
  lemma GenerateFailure(p: Provider, api: (Request, nat) -> Reply, request: Request, attempts: int, delay: real)
    requires attempts > 0
    requires forall j :: 0 <= j < attempts ==> api(request, j).Failed?
    ensures var run := Retry(Attempts(p, api, request), attempts, delay);
            var last := api(request, attempts - 1).raised;
            && run.calls == attempts && |run.sleeps| == attempts - 1
            && run.result.Raised?
            && (run.result.error.kind == RateLimitError <==> Contains(Lower(last), "rate_limit"))
            && (!Contains(Lower(last), "rate_limit") ==>
                  run.result.error == Error(LLMError, RetryFailed + Classify(p, last).message))
  {
    var call := Attempts(p, api, request);
    RetrySpec(call, attempts, delay);
  }

  // ---------------------------------------------------------------------
  // `create_llm_client`

  /** `LLMProvider(name.lower())`. */
  function ProviderOf(name: string): (r: Option<Provider>)
    ensures r == Some(OpenAI) <==> Lower(name) == "openai"
    ensures r == Some(Anthropic) <==> Lower(name) == "anthropic"
  {
    if Lower(name) == "openai" then Some(OpenAI)
    else if Lower(name) == "anthropic" then Some(Anthropic)
    else None
  }

  /** The keyword arguments the factory reads; `None` where one is not passed. */
  datatype Kwargs = Kwargs(
    apiKey: Option<string>,
    temperature: Option<real>,
    maxTokens: Option<int>,
    retryAttempts: Option<int>,
    retryDelay: Option<real>,
    timeout: Option<real>)

  const NoKwargs := Kwargs(None, None, None, None, None, None)

  function KeyVariable(p: Provider): string {
    match p
    case OpenAI => "OPENAI_API_KEY"
    case Anthropic => "ANTHROPIC_API_KEY"
  }

  function DefaultModel(p: Provider): string {
    match p
    case OpenAI => "gpt-4"
    case Anthropic => "claude-3-sonnet-20240229"
  }

  /** `kwargs.get('api_key') or os.getenv(...)`: a non-empty keyword key, else the variable. */
  function ChosenKey(p: Provider, kwargs: Kwargs, env: map<string, string>): (key: string)
    ensures kwargs.apiKey.Some? && kwargs.apiKey.value != "" ==> key == kwargs.apiKey.value
    ensures (kwargs.apiKey.None? || kwargs.apiKey.value == "") ==>
              key == (if KeyVariable(p) in env then env[KeyVariable(p)] else "")
  {
    if kwargs.apiKey.Some? && kwargs.apiKey.value != "" then kwargs.apiKey.value
    else if KeyVariable(p) in env then env[KeyVariable(p)]
    else ""
  }

  function OrElse<T>(o: Option<T>, default: T): T {
    if o.Some? then o.value else default
  }

  /**
   * The configuration `create_llm_client` builds: an unknown provider is a
   * value error; a provider without a key is an LLM error; otherwise the
   * chosen key, the given model or the provider's default, and the keyword
   * settings with their defaults.
   */
  function ClientConfig(provider: string, model: Option<string>, kwargs: Kwargs, env: map<string, string>)
    : (r: Outcome<LlmConfig>)
    ensures ProviderOf(provider).None? <==> r.Raised? && r.error.kind == ValueError
    ensures ProviderOf(provider).None? ==>
              r.error.message == Repr(Lower(provider)) + " is not a valid LLMProvider"
    ensures ProviderOf(provider).Some? ==>
              var p := ProviderOf(provider).value;
              && (r.Returned? <==> ChosenKey(p, kwargs, env) != "")
              && (r.Raised? ==> r.error == Error(LLMError, ProviderName(p) + " API key not found in environment or kwargs"))
              && (r.Returned? ==> r.value.provider == p && r.value.apiKey == ChosenKey(p, kwargs, env))
    ensures r.Returned? ==>
              r.value.model == if model.Some? && model.value != "" then model.value else DefaultModel(r.value.provider)
  {
    match ProviderOf(provider)
    case None => Raised(Error(ValueError, Repr(Lower(provider)) + " is not a valid LLMProvider"))
    case Some(p) =>
      var key := ChosenKey(p, kwargs, env);
      var chosenModel := if model.Some? && model.value != "" then model.value else DefaultModel(p);
      if key == "" then Raised(Error(LLMError, ProviderName(p) + " API key not found in environment or kwargs"))
      else
        Returned(LlmConfig(p, chosenModel, key,
                           OrElse(kwargs.temperature, 0.3), OrElse(kwargs.maxTokens, 2000),
                           OrElse(kwargs.retryAttempts, 3), OrElse(kwargs.retryDelay, 2.0),
                           OrElse(kwargs.timeout, 30.0)))
  }

  /** Without keyword settings the client gets `LLMConfig`'s defaults. */
  lemma DefaultSettings(provider: string, model: Option<string>, env: map<string, string>)
    requires ClientConfig(provider, model, NoKwargs, env).Returned?
    ensures var c := ClientConfig(provider, model, NoKwargs, env).value;
            c.temperature == 0.3 && c.maxTokens == 2000 && c.retryAttempts == 3
            && c.retryDelay == 2.0 && c.timeout == 30.0
  {
  }

  /** The provider's name is read regardless of case. */
  lemma ProviderIgnoresCase(provider: string, model: Option<string>, kwargs: Kwargs, env: map<string, string>)
    ensures ClientConfig(provider, model, kwargs, env) == ClientConfig(Lower(provider), model, kwargs, env)
  {
    LowerTwice(provider);
  }

  /**
   * Without a keyword key the factory uses the key the configuration manager
   * finds for the provider, and fails exactly when that one is missing or
   * empty.
   */
  lemma FactoryKeyAgreesWithConfig(provider: string, model: Option<string>, kwargs: Kwargs, env: map<string, string>)
    requires ProviderOf(provider).Some? && kwargs.apiKey.None?
    ensures var key := ConfigManager.ApiKey(provider, env);
            var r := ClientConfig(provider, model, kwargs, env);
            && (r.Returned? <==> key.Some? && key.value != "")
            && (r.Returned? ==> r.value.apiKey == key.value)
  {
  }

  /** `create_llm_client("invalid_provider")` raises a value error. */
  lemma InvalidProviderRefused(model: Option<string>, kwargs: Kwargs, env: map<string, string>)
    ensures ClientConfig("invalid_provider", model, kwargs, env).Raised?
    ensures ClientConfig("invalid_provider", model, kwargs, env).error.kind == ValueError
  {
    assert Lower("invalid_provider")[0] == 'i';
  }

  /** `create_llm_client`: the configured client for the provider, with fresh counters. */
  method CreateLlmClient(provider: string, model: Option<string>, kwargs: Kwargs, env: map<string, string>)
    returns (r: Outcome<Client>)
    ensures var made := ClientConfig(provider, model, kwargs, env);
            && (r.Returned? <==> made.Returned?)
            && (r.Raised? ==> r.error == made.error)
            && (r.Returned? ==> fresh(r.value) && r.value.config == made.value
                                && r.value.totalTokensUsed == 0 && r.value.requestCount == 0)
  {
    match ClientConfig(provider, model, kwargs, env) {
      case Raised(e) =>
        r := Raised(e);
      case Returned(config) =>
        var client := new Client(config);
        r := Returned(client);
    }
  }
}
