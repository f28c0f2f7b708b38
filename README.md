# Claude CLI conversation session, modelled in Dafny

This project models the core of a small command-line client for a hosted
chat API: the `ClaudeCLI` session object of `cli.py` and the helpers of
`config.py`. A session holds a credential, a fixed header map and a
conversation history, which is a list of `{role, content}` turns. Sending a
message builds a request from the history plus one new user turn. The
history gains the user turn and the assistant's reply only when the exchange
succeeds. Clearing empties the history. Loading replaces it only when the
file decodes. Saving never touches it. The model also covers how the
interactive loop classifies a typed line (`quit`, `clear`, `save <file>`,
`load <file>`, blank, or a message) and how `main` chooses its input mode.

Modules, one per component:

- `Wrappers` (`wrappers.dfy`): `Option` and `Result`.
- `Config` (`config.dfy`): the constants of `config.py` and `get_api_headers`.
- `Text` (`text.dfy`): Python's `str.strip()` and `str.lower()` as the loop uses them.
- `Session` (`session.dfy`): turns, payloads, outcomes, the `ClaudeCli` class
  and the rules for the history.
- `Commands` (`commands.dfy`): line classification and the body of the interactive loop.
- `Modes` (`modes.dfy`): the mode precedence in `main`.

The outside world enters as parameters. The HTTP exchange is a function
`transport: Request -> Outcome`, with `Outcome = Ok(reply, usage?, model?) |
RequestFailed(detail) | MissingField(detail)`. The first kind is a
well-shaped response; the other two are the `RequestException` and `KeyError`
that `send_message` catches. The environment variable is an `Option<string>`.
Writing a conversation file is a function `write: (string, seq<Turn>) -> bool`,
and reading one is `read: string -> Option<seq<Turn>>`, where `None` stands
for any error that `open` or `json.load` raises.

`load_conversation` assigns whatever `json.load` returns, with no check of
its shape, so the model replaces the history with the decoded content as it
is.

## Model

| member | source | states |
|---|---|---|
| `Config.GetApiHeaders` | config.py:36-46 | the header map has exactly the keys `x-api-key`, `anthropic-version` and `content-type`; `x-api-key` is the given key unchanged, `anthropic-version` is `API_VERSION` ("2023-06-01") and `content-type` is "application/json" |
| `Config.HeadersDependOnlyOnKey` | config.py:42-46 | two header maps are equal exactly when their keys are equal, and they always agree on every header but `x-api-key` |
| `Config.ConstantsWellFormed` | config.py:12-29 | `DEFAULT_MAX_TOKENS` is positive and there are exactly three quit words, `q` among them |
| `Text.Strip` | cli.py:108 | the stripped line is no longer than the input and has no whitespace at either end |
| `Text.TrimStartKeepsSuffix` | cli.py:108 | the left half of `strip()` keeps a suffix of the line, removes only whitespace and stops at the first other character |
| `Text.TrimEndKeepsPrefix` | cli.py:108 | the right half of `strip()` keeps a prefix, removes only whitespace and stops at the last other character |
| `Text.StripSplits` | cli.py:108 | the input is some whitespace, then the stripped line, then some whitespace: `strip()` removes only whitespace and keeps a contiguous part |
| `Text.StripIdempotent` | cli.py:108 | stripping an already stripped line changes nothing further, which is why re-stripping a typed line cannot change its classification |
| `Text.Lower` | cli.py:110 | lower-casing keeps the length and maps each character by itself (ASCII letters to lower case) |
| `Session.ResolveApiKey` | cli.py:16-18 | construction fails with the "API key required" message exactly when neither the explicit key nor the environment value is a non-empty string; otherwise the key is the explicit one when non-empty, else the environment one |
| `Session.ClaudeCli.Create` | cli.py:15-26 | `ClaudeCLI(api_key)` fails exactly when `ResolveApiKey` does; otherwise it yields a fresh session with that key, the base URL `https://api.anthropic.com/v1/messages`, the headers of `get_api_headers` and an empty history |
| `Session.ClaudeCli.constructor` | cli.py:20-26 | the inline header map equals `Config.GetApiHeaders(apiKey)`, the base URL is `API_BASE_URL` and the history starts empty |
| `Session.BuildPayload` | cli.py:32-40 | `messages` is the old history followed by exactly one `{user, message}` turn; model and budget are passed through; `system` is present exactly when the system prompt is non-empty |
| `Session.ResultOf` | cli.py:52-69 | `success` holds exactly for a successful exchange; on success `message` is the reply, `usage` the echoed usage or empty, `model` the echoed model or the requested one; on failure `message` is `None` and the error starts with "API request failed: " or "Unexpected API response format: " |
| `Session.AfterSend` | cli.py:49-50 | the history grows by two exactly when the exchange succeeds, keeping the old prefix, then `{user, message}`, then `{assistant, reply}`; on failure it is unchanged |
| `Session.AfterLoad` | cli.py:85-91 | after a load the history is the decoded content when decoding succeeded, else the old history |
| `Session.AlternatingIffRoles` | cli.py:49-50 | a history made of complete exchanges is exactly one of even length with user turns at even and assistant turns at odd positions |
| `Session.AppendExchangeAlternating` | cli.py:49-50 | appending a user turn then an assistant turn keeps a history made of complete exchanges |
| `Session.SendPreservesAlternating` | cli.py:41-69 | whatever the outcome, an exchange leaves no orphaned user turn: a history of complete exchanges stays one |
| `Session.RetryAfterFailure` | cli.py:58-69 | resending a message after a failed exchange gives the same history as sending it once |
| `Session.ClaudeCli.SendMessage` | cli.py:28-69 | the request is posted with the session's URL and headers and the payload of `BuildPayload` over the old history; the result is `ResultOf` the outcome; the history is `old(history) + [user, assistant]` on success and unchanged on either failure |
| `Session.ClaudeCli.ClearConversation` | cli.py:71-72 | the history is empty afterwards, whatever it was, so clearing twice leaves it empty too |
| `Session.ClaudeCli.SaveConversation` | cli.py:74-81 | the result is whether writing the current history succeeded; the method has no `modifies` clause, so the history is unchanged |
| `Session.ClaudeCli.LoadConversation` | cli.py:83-91 | returns true and sets the history to exactly the decoded content, or returns false and leaves the history unchanged |
| `Commands.ClassifyStripped` | cli.py:110-132 | for a stripped line: quit exactly when its lower-cased form is `quit`, `exit` or `q`; clear exactly when that form is `clear`; save (load) exactly when that form starts with `save ` (`load `), with the name being the line from its sixth character on, stripped, in the case typed; skip exactly when the line is empty; send the line itself exactly when it is non-empty and none of the keyword tests matched |
| `Commands.KeywordsMatchConfig` | cli.py:110-114 | the loop's quit words equal `INTERACTIVE_COMMANDS["quit"]` and its clear word is the one of `INTERACTIVE_COMMANDS["clear"]` |
| `Commands.ClassifyIgnoresSurroundingSpace` | cli.py:108-132 | a raw line (`Commands.Classify`) is classified by its stripped form: stripping it first gives the same command |
| `Commands.CommandNameNonEmpty` | cli.py:119-126 | a `save`/`load` command always carries a non-empty file name without whitespace at either end |
| `Commands.BareKeywordIsSent` | cli.py:119-135 | a bare `save` or `load` with no file name, in any case, is sent to the model as a message |
| `Commands.KeywordsIgnoreCase` | cli.py:110-125 | two stripped lines that agree after lower-casing are the same kind of command |
| `Commands.HandleLine` | cli.py:106-144 | one pass of the loop: it ends the loop exactly on a quit word; `clear` empties the history; `load` applies `AfterLoad`; a message applies `AfterSend` to the outcome of its request; every other line leaves the history alone; a history of complete exchanges stays one unless a file is loaded |
| `Modes.SelectMode` | cli.py:192-211 | `main` fails exactly when none of `--interactive`, `--message`, `--file` is truthy; otherwise interactive beats message, which beats file, and the chosen value is passed through |

## Left out

- The HTTP call (`requests.post`, `raise_for_status`, `response.json`) is the abstract `transport` parameter.
- Responses whose shape raises something other than `KeyError`, such as an empty `content` list (an `IndexError`) or a non-object body, propagate uncaught in the source. `Outcome.Ok` therefore stands only for well-shaped replies, and those paths are not modelled.
- JSON encoding and decoding and `open` are the `write` and `read` parameters. The on-disk round trip `load(save(h)) == h` depends on the JSON library and is not modelled.
- A loaded file may hold any JSON value, including roles other than `user`/`assistant`. The model decodes only to a sequence of `Turn`s.
- `Session.ClaudeCli.SaveConversation`: the error message it prints on failure is not modelled.
- `Text.Lower`: only ASCII letters are lowered. Python lowers all of Unicode, but only two non-ASCII characters lower to ASCII: the Kelvin sign becomes `k`, which no keyword contains, and U+0130 becomes `i` plus a combining mark, which makes the lowered line one character longer. Neither can make a line equal to `quit`, `exit`, `q` or `clear`, or start with `save ` or `load `. So the keyword tests get the same answers either way; only the lowered text itself differs.
- Printing, `input`, the `while True` loop itself, `KeyboardInterrupt`/`EOFError`, `sys.exit` codes and argparse are not modelled. Only the per-line classification and its effect on the session (`Commands.HandleLine`) are.
- `single_message_mode` and the rest of `main` are not modelled: loading before the run, reading and stripping the message file, saving afterwards, and exit codes. Only the mode choice is.
- `os.getenv` is the `envKey` parameter of `Session.ClaudeCli.Create`.
- The default arguments of `send_message` (model `claude-sonnet-4-20250514`, 1000 tokens, no system prompt) are not modelled; callers pass all three.
- `setup.py` is packaging metadata and is not part of this model.
