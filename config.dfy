/**
 * The constants and the header builder of `config.py`.
 */
module Config {

  /** `DEFAULT_MAX_TOKENS`: the response-length budget used when none is given. */
  const DefaultMaxTokens: int := 1000

  /** `API_BASE_URL`: the endpoint every exchange is posted to. */
  const ApiBaseUrl: string := "https://api.anthropic.com/v1/messages"

  /** `API_VERSION`: the protocol version sent in the `anthropic-version` header. */
  const ApiVersion: string := "2023-06-01"

  /** `INTERACTIVE_COMMANDS["quit"]`: the words that end an interactive session. */
  const QuitCommands: seq<string> := ["quit", "exit", "q"]

  /** `INTERACTIVE_COMMANDS["clear"]`: the words that empty the conversation. */
  const ClearCommands: seq<string> := ["clear"]

  /** The three header names every request carries. */
  const HeaderNames: set<string> := {"x-api-key", "anthropic-version", "content-type"}

  /**
   * `get_api_headers`: the credential header, the fixed protocol version and
   * the JSON content type, and nothing else.
   */
  function GetApiHeaders(apiKey: string): (h: map<string, string>)
    ensures h.Keys == HeaderNames
    ensures h["x-api-key"] == apiKey
    ensures h["anthropic-version"] == ApiVersion
    ensures h["content-type"] == "application/json"
  {
    map["x-api-key" := apiKey,
        "anthropic-version" := ApiVersion,
        "content-type" := "application/json"]
  }

  /** Two different credentials give header maps that differ only in `x-api-key`. */
  lemma HeadersDependOnlyOnKey(k1: string, k2: string)
    ensures GetApiHeaders(k1) == GetApiHeaders(k2) <==> k1 == k2
    ensures forall name :: name in HeaderNames && name != "x-api-key" ==>
              GetApiHeaders(k1)[name] == GetApiHeaders(k2)[name]
  {
    if GetApiHeaders(k1) == GetApiHeaders(k2) {
      assert GetApiHeaders(k1)["x-api-key"] == GetApiHeaders(k2)["x-api-key"];
    }
  }

  /** The default budget is a positive token count and there are exactly three quit words. */
  lemma ConstantsWellFormed()
    ensures DefaultMaxTokens > 0
    ensures |QuitCommands| == 3 && "q" in QuitCommands
  {
  }
}
