/**
 * The service's process-wide state and its request handling: the two
 * counters, the provider chain that updates them, and the query endpoint
 * that validates input and consults the knowledge base before the chain.
 */
module Service {
  import opened Wrappers
  import opened Text
  import opened Chain
  import opened QuickAnswer

  /** A JSON value in a request body: a string, or anything else. */
  datatype JsonValue = JString(s: string) | JOther

  /** The parsed request body: JSON `null`, or a JSON object. */
  datatype Body = JsonNull | JsonObject(fields: map<string, JsonValue>)

  /** What a reply carries: an `{'error': ...}` object with a fixed message, the
      500 reply whose message is an exception's text, or a response. */
  datatype Payload = ErrorMessage(message: string) | ServerError | Answer(response: Response)

  datatype HttpReply = HttpReply(status: nat, payload: Payload)

  /** The `/api/health` report, without its clock and environment fields. */
  datatype Health = Health(azureAvailable: bool, openaiAvailable: bool, requestsProcessed: nat, errorCount: nat)

  /** `not data or 'query' not in data`. */
  predicate QueryMissing(body: Body) {
    body.JsonNull? || body.fields == map[] || "query" !in body.fields
  }

  /** The body holds a `query` that is a string, so `.strip()` applies. */
  predicate HasStringQuery(body: Body) {
    !QueryMissing(body) && body.fields["query"].JString?
  }

  function RawQuery(body: Body): string
    requires HasStringQuery(body)
  {
    body.fields["query"].s
  }

  class Server {
    const config: Config
    var requestCount: nat
    var errorCount: nat
    /** Every pass through the provider chain so far, with what each remote call did. */
    ghost var passes: seq<(Reply, Reply)>

    ghost predicate Valid()
      reads this
    {
      requestCount == |passes| && errorCount == ErrorsOver(config, passes)
    }

    /** Start-up: the client handles are fixed and both counters are zero. */
    constructor (config: Config)
      ensures Valid() && this.config == config
      ensures requestCount == 0 && errorCount == 0 && passes == []
    {
      this.config := config;
      requestCount := 0;
      errorCount := 0;
      passes := [];
    }

    /** One pass through the provider chain, counting the request and every failure. */
    method GenerateResponse(azureReply: Reply, openaiReply: Reply) returns (res: Response)
      requires Valid()
      modifies this
      ensures Valid()
      ensures passes == old(passes) + [(azureReply, openaiReply)]
      ensures requestCount == old(requestCount) + 1
      ensures errorCount == old(errorCount) + ErrorIncrement(config, azureReply, openaiReply)
      ensures res == ChainResponse(config, azureReply, openaiReply)
    {
      ghost var before := passes;
      passes := passes + [(azureReply, openaiReply)];
      assert passes[..|passes| - 1] == before;
      requestCount := requestCount + 1;

      if config.azure {
        match azureReply
        case Completed(content) =>
          res := Response(content, AzureOpenAI, None, false);
          return;
        case Raised =>
          errorCount := errorCount + 1;
      }

      if config.openai {
        match openaiReply
        case Completed(content) =>
          res := Response(content, OpenAI, None, false);
          return;
        case Raised =>
          errorCount := errorCount + 1;
      }

      errorCount := errorCount + 1;
      res := Response(UnavailableText, NoProvider, Some(NoServiceError), false);
    }

    /** `POST /api/query`: validation, then the knowledge base, then the provider chain. */
    method Query(body: Body, azureReply: Reply, openaiReply: Reply) returns (reply: HttpReply)
      requires Valid()
      modifies this
      ensures Valid()
      ensures QueryMissing(body) ==>
        reply == HttpReply(400, ErrorMessage("No query provided")) && unchanged(this)
      ensures !QueryMissing(body) && !HasStringQuery(body) ==>
        reply == HttpReply(500, ServerError) && unchanged(this)
      ensures HasStringQuery(body) && Strip(RawQuery(body)) == [] ==>
        reply == HttpReply(400, ErrorMessage("Empty query")) && unchanged(this)
      ensures HasStringQuery(body) && Strip(RawQuery(body)) != [] &&
              GetQuickAnswer(Strip(RawQuery(body))).Some? ==>
        reply == HttpReply(200, Answer(Response(GetQuickAnswer(Strip(RawQuery(body))).value,
                                                KnowledgeBase, None, true)))
        && unchanged(this)
      ensures HasStringQuery(body) && Strip(RawQuery(body)) != [] &&
              GetQuickAnswer(Strip(RawQuery(body))).None? ==>
        reply == HttpReply(200, Answer(ChainResponse(config, azureReply, openaiReply)))
        && passes == old(passes) + [(azureReply, openaiReply)]
        && requestCount == old(requestCount) + 1
        && errorCount == old(errorCount) + ErrorIncrement(config, azureReply, openaiReply)
    {
      if body.JsonNull? || body.fields == map[] || "query" !in body.fields {
        return HttpReply(400, ErrorMessage("No query provided"));
      }
      var field := body.fields["query"];
      if !field.JString? {
        // `.strip()` on a value that is not a string raises; the handler answers 500.
        return HttpReply(500, ServerError);
      }
      var userQuery := Strip(field.s);
      if userQuery == [] {
        return HttpReply(400, ErrorMessage("Empty query"));
      }

      var quickAnswer := GetQuickAnswer(userQuery);
      if quickAnswer.Some? && quickAnswer.value != [] {
        return HttpReply(200, Answer(Response(quickAnswer.value, KnowledgeBase, None, true)));
      }

      var response := GenerateResponse(azureReply, openaiReply);
      reply := HttpReply(200, Answer(response));
    }

    /** `GET /api/health`: which clients exist and the two counters. */
    method CurrentHealth() returns (h: Health)
      ensures h.azureAvailable == config.azure && h.openaiAvailable == config.openai
      ensures h.requestsProcessed == requestCount && h.errorCount == errorCount
    {
      h := Health(config.azure, config.openai, requestCount, errorCount);
    }

    /** `GET /api/metrics`: the counters and the error rate as a fraction whose
        denominator is never zero and never less than a third of the numerator. */
    method Metrics() returns (requests: nat, errors: nat, rateDenominator: nat)
      requires Valid()
      ensures requests == requestCount && errors == errorCount
      ensures rateDenominator == if requestCount > 0 then requestCount else 1
      ensures errors <= 3 * rateDenominator
    {
      requests, errors := requestCount, errorCount;
      rateDenominator := if requestCount > 1 then requestCount else 1;
      ErrorsOverBound(config, passes);
    }
  }

  /** With both providers configured and every call failing, the service has
      recorded three errors per chain pass. */
  lemma FullyFailingServer(s: Server)
    requires s.Valid() && s.config == Config(true, true)
    requires forall k :: 0 <= k < |s.passes| ==> s.passes[k] == (Raised, Raised)
    ensures s.errorCount == 3 * s.requestCount
  {
    ErrorsOverAllFailing(s.config, s.passes);
  }
}
