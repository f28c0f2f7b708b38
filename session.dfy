/**
 * The conversation session of `cli.py`: the `ClaudeCLI` object, its
 * transcript, the request it builds for one exchange and the rule that the
 * transcript grows only when the exchange succeeds.
 *
 * The HTTP exchange, the environment lookup and the file reads and writes are
 * parameters: a `transport` function from request to `Outcome`, an optional
 * environment value, and `write`/`read` functions for the conversation file.
 */
module Session {
  import opened Wrappers
  import Config

  /** The `role` field of a turn: `"user"` or `"assistant"`. */
  datatype Role = User | Assistant

  /** One `{"role": ..., "content": ...}` entry of the transcript. */
  datatype Turn = Turn(role: Role, content: string)

  /** The JSON body of a request. `system` is absent unless a system prompt is given. */
  datatype Payload = Payload(model: string, maxTokens: int, messages: seq<Turn>, system: Option<string>)

  /** What is handed to the transport: endpoint, headers and body. */
  datatype Request = Request(url: string, headers: map<string, string>, body: Payload)

  /** The echoed `usage` block (`input_tokens`, `output_tokens`, ...). */
  type Usage = map<string, int>

  /**
   * What one exchange with the endpoint produces, as seen by `send_message`:
   * a well-shaped reply (the text of the first content item, with the
   * optional `usage` and `model` echoes), a `RequestException` from the
   * transport, or a `KeyError` because the response lacks a field.
   */
  datatype Outcome =
    | Ok(reply: string, usage: Option<Usage>, model: Option<string>)
    | RequestFailed(detail: string)
    | MissingField(detail: string)

  /** The dictionary `send_message` returns. */
  datatype SendResult =
    | Sent(message: string, usage: Usage, model: string)
    | Failed(error: string)
  {
    /** The `"success"` entry. */
    predicate Success() { Sent? }

    /** The `"message"` entry: the reply, or `None` on failure. */
    function Message(): Option<string>
    {
      match this
      case Sent(m, _, _) => Some(m)
      case Failed(_) => None
    }
  }

  /** The endpoint `ClaudeCLI` posts to. */
  const BaseUrl: string := "https://api.anthropic.com/v1/messages"

  /** The `ValueError` message raised when no credential is found. */
  const NoApiKeyMessage: string :=
    "API key required. Set ANTHROPIC_API_KEY environment variable or pass --api-key"

  const RequestFailedPrefix: string := "API request failed: "
  const ResponseFormatPrefix: string := "Unexpected API response format: "

  /** Python truthiness of an optional string: present and non-empty. */
  predicate Truthy(s: Option<string>)
  {
    s.Some? && s.value != ""
  }

  /**
   * `api_key or os.getenv('ANTHROPIC_API_KEY')`, then the emptiness check:
   * the explicit key wins when it is non-empty, the environment value is the
   * fallback, and when neither is a non-empty string construction fails.
   */
  function ResolveApiKey(explicitKey: Option<string>, envKey: Option<string>): (r: Result<string, string>)
    ensures r.Failure? <==> !Truthy(explicitKey) && !Truthy(envKey)
    ensures r.Failure? ==> r.error == NoApiKeyMessage
    ensures r.Success? ==> r.value != ""
    ensures r.Success? && Truthy(explicitKey) ==> r.value == explicitKey.value
    ensures r.Success? && !Truthy(explicitKey) ==> r.value == envKey.value
  {
    if Truthy(explicitKey) then Success(explicitKey.value)
    else if Truthy(envKey) then Success(envKey.value)
    else Failure(NoApiKeyMessage)
  }

  /**
   * The payload of one exchange: the whole transcript followed by exactly one
   * new user turn, the model and budget as given, and a `system` entry only
   * for a non-empty system prompt.
   */
  function BuildPayload(history: seq<Turn>, message: string, model: string, maxTokens: int,
                        systemPrompt: Option<string>): (p: Payload)
    ensures |p.messages| == |history| + 1
    ensures p.messages[..|history|] == history
    ensures p.messages[|history|] == Turn(User, message)
    ensures p.model == model && p.maxTokens == maxTokens
    ensures p.system.Some? <==> Truthy(systemPrompt)
    ensures p.system.Some? ==> p.system == systemPrompt
  {
    var payload := Payload(model, maxTokens, history + [Turn(User, message)], None);
    if Truthy(systemPrompt) then payload.(system := systemPrompt) else payload
  }

  /**
   * The dictionary returned for an outcome: on success the reply, the echoed
   * usage (or an empty one) and the echoed model (or the requested one); on
   * either handled failure `success` is false, `message` is `None` and the
   * error carries the prefix of its kind.
   */
  function ResultOf(o: Outcome, model: string): (r: SendResult)
    ensures r.Success() <==> o.Ok?
    ensures r.Message() == (if o.Ok? then Some(o.reply) else None)
    ensures o.Ok? ==> r.model == (if o.model.Some? then o.model.value else model)
    ensures o.Ok? ==> r.usage == (if o.usage.Some? then o.usage.value else map[])
    ensures o.RequestFailed? ==> r.error == RequestFailedPrefix + o.detail
    ensures o.MissingField? ==> r.error == ResponseFormatPrefix + o.detail
  {
    match o
    case Ok(reply, usage, echoed) =>
      Sent(reply,
           match usage case Some(u) => u case None => map[],
           match echoed case Some(m) => m case None => model)
    case RequestFailed(detail) => Failed(RequestFailedPrefix + detail)
    case MissingField(detail) => Failed(ResponseFormatPrefix + detail)
  }

  /**
   * The transcript after one exchange: on success the old transcript, then the
   * user turn, then the assistant turn; on failure the old transcript.
   */
  function AfterSend(history: seq<Turn>, message: string, o: Outcome): (h: seq<Turn>)
    ensures o.Ok? <==> |h| == |history| + 2
    ensures !o.Ok? ==> h == history
    ensures o.Ok? ==> h[..|history|] == history
                      && h[|history|] == Turn(User, message)
                      && h[|history| + 1] == Turn(Assistant, o.reply)
  {
    if o.Ok? then history + [Turn(User, message), Turn(Assistant, o.reply)] else history
  }

  /** The transcript after a load: the decoded content, or the old transcript when decoding failed. */
  function AfterLoad(history: seq<Turn>, decoded: Option<seq<Turn>>): (h: seq<Turn>)
    ensures decoded.Some? ==> h == decoded.value
    ensures decoded.None? ==> h == history
  {
    match decoded
    case Some(turns) => turns
    case None => history
  }

  /**
   * A transcript made of complete exchanges: user turn, assistant turn,
   * user turn, assistant turn, ...
   */
  predicate Alternating(h: seq<Turn>)
    decreases |h|
  {
    h == [] || (|h| >= 2 && h[0].role == User && h[1].role == Assistant && Alternating(h[2..]))
  }

  /** Alternation means even length with user turns at even and assistant turns at odd positions. */
  lemma {:induction false} AlternatingIffRoles(h: seq<Turn>)
    ensures Alternating(h) <==>
              |h| % 2 == 0 && forall i :: 0 <= i < |h| ==> h[i].role == (if i % 2 == 0 then User else Assistant)
  {
    if |h| >= 2 {
      AlternatingIffRoles(h[2..]);
      forall i | 2 <= i < |h|
        ensures h[i] == h[2..][i - 2] && (i % 2 == 0 <==> (i - 2) % 2 == 0)
      {
      }
    }
  }

  /** Appending one complete exchange keeps a transcript alternating. */
  lemma {:induction false} AppendExchangeAlternating(h: seq<Turn>, question: string, answer: string)
    requires Alternating(h)
    ensures Alternating(h + [Turn(User, question), Turn(Assistant, answer)])
  {
    var pair := [Turn(User, question), Turn(Assistant, answer)];
    if h == [] {
      assert h + pair == pair;
      assert pair[2..] == [];
    } else {
      AppendExchangeAlternating(h[2..], question, answer);
      assert (h + pair)[2..] == h[2..] + pair;
    }
  }

  /**
   * No exchange leaves an orphaned user turn: from an alternating transcript,
   * success or failure, the transcript stays alternating.
   */
  lemma SendPreservesAlternating(history: seq<Turn>, message: string, o: Outcome)
    requires Alternating(history)
    ensures Alternating(AfterSend(history, message, o))
  {
    if o.Ok? {
      AppendExchangeAlternating(history, message, o.reply);
    }
  }

  /**
   * Retrying a message after a failed exchange records it once: the failure
   * left nothing behind.
   */
  lemma RetryAfterFailure(history: seq<Turn>, message: string, failure: Outcome, o: Outcome)
    requires !failure.Ok?
    ensures AfterSend(AfterSend(history, message, failure), message, o) == AfterSend(history, message, o)
  {
  }

  /** `ClaudeCLI`: a credential, the request headers and the conversation history. */
  class ClaudeCli {
    const apiKey: string
    const baseUrl: string
    const headers: map<string, string>
    var history: seq<Turn>

    /** `__init__` once the key is resolved: the inline header map and an empty history. */
    constructor (apiKey: string)
      requires apiKey != ""
      ensures this.apiKey == apiKey && baseUrl == Config.ApiBaseUrl
      ensures headers == Config.GetApiHeaders(apiKey)
      ensures history == []
    {
      this.apiKey := apiKey;
      baseUrl := BaseUrl;
      headers := map["x-api-key" := apiKey,
                     "anthropic-version" := "2023-06-01",
                     "content-type" := "application/json"];
      history := [];
    }

    /**
     * `ClaudeCLI(api_key)`: resolves the credential from the explicit key and
     * the environment value, raising (here: `Failure`) when there is none.
     */
    static method Create(explicitKey: Option<string>, envKey: Option<string>) returns (r: Result<ClaudeCli, string>)
      ensures r.Failure? <==> !Truthy(explicitKey) && !Truthy(envKey)
      ensures r.Failure? ==> r.error == NoApiKeyMessage
      ensures r.Success? ==> fresh(r.value)
                             && r.value.apiKey == ResolveApiKey(explicitKey, envKey).value
                             && r.value.baseUrl == Config.ApiBaseUrl
                             && r.value.headers == Config.GetApiHeaders(r.value.apiKey)
                             && r.value.history == []
    {
      var key := ResolveApiKey(explicitKey, envKey);
      match key
      case Failure(e) =>
        r := Failure(e);
      case Success(k) =>
        var cli := new ClaudeCli(k);
        r := Success(cli);
    }

    /** The request `send_message` posts for `message` given the current history. */
    function RequestFor(message: string, model: string, maxTokens: int, systemPrompt: Option<string>): Request
      reads this
    {
      Request(baseUrl, headers, BuildPayload(history, message, model, maxTokens, systemPrompt))
    }

    /**
     * `send_message`: one exchange built from the history and the new
     * message; the history gains the user and the assistant turn only when
     * the exchange succeeds.
     */
    method SendMessage(message: string, model: string, maxTokens: int, systemPrompt: Option<string>,
                       transport: Request -> Outcome) returns (r: SendResult)
      modifies this
      ensures var o := transport(old(RequestFor(message, model, maxTokens, systemPrompt)));
              r == ResultOf(o, model) && history == AfterSend(old(history), message, o)
      ensures r.Success() ==> history == old(history) + [Turn(User, message), Turn(Assistant, r.message)]
      ensures !r.Success() ==> history == old(history) && r.Message() == None
    {
      var request := RequestFor(message, model, maxTokens, systemPrompt);
      var o := transport(request);
      r := ResultOf(o, model);
      if o.Ok? {
        history := history + [Turn(User, message)];
        history := history + [Turn(Assistant, o.reply)];
      }
    }

    /** `clear_conversation`: the history becomes empty, whatever it was. */
    method ClearConversation()
      modifies this
      ensures history == []
    {
      history := [];
    }

    /**
     * `save_conversation`: hands the history to the file writer and reports
     * whether writing succeeded. It modifies nothing.
     */
    method SaveConversation(filename: string, write: (string, seq<Turn>) -> bool) returns (ok: bool)
      ensures ok == write(filename, history)
    {
      ok := write(filename, history);
    }

    /**
     * `load_conversation`: when the file decodes, the history becomes exactly
     * its content and the result is true; otherwise the history is untouched
     * and the result is false.
     */
    method LoadConversation(filename: string, read: string -> Option<seq<Turn>>) returns (ok: bool)
      modifies this
      ensures ok <==> read(filename).Some?
      ensures history == AfterLoad(old(history), read(filename))
    {
      var decoded := read(filename);
      match decoded
      case Some(turns) =>
        history := turns;
        ok := true;
      case None =>
        ok := false;
    }
  }
}
