# James Hardie technical expert service — a Dafny model

The service answers questions about James Hardie building products. A query
first goes to a small in-memory knowledge base. A case-insensitive keyword match
there yields a canned answer: the numbered HardiePlank installation steps, the
HardiePlank tool list, a product description, or the general installation
guidelines. When no keyword matches, the query goes to a chain of hosted
completion providers: Azure OpenAI first, then standard OpenAI, then a fixed
"temporarily unable" reply. Two process-wide counters record how many requests
reached the chain and how many errors it met.

The model has six modules, one file each:

- `Wrappers` — `Option`.
- `Text` — the string operations the service uses, on ASCII text. They are
  `str.lower()`, the `in` substring test, `str.join`, `str.split` (used only to
  state results line by line), `str.strip()` and `str(n)`.
- `Knowledge` — the constant table `JAMES_HARDIE_KNOWLEDGE`, one constant per
  entry. Long texts are written as a concatenation of shorter literals. The
  string values are unchanged.
- `QuickAnswer` — `get_quick_answer` as a pure function, with one lemma per
  branch of its first-match-wins precedence.
- `Chain` — the provider chain as data. Each remote completion call becomes an
  input `Reply` (`Completed(text)` or `Raised`). Each provider is either
  configured or not (`Config`). Spec functions give the chain's response and the
  error increment of one pass.
- `Service` — class `Server`. Its fields are the two counters and a ghost
  history of chain passes. It has methods for `generate_response`, the
  `/api/query` handler, and the health and metrics reports.

A pass where both providers are configured and both fail adds 3 to the error
counter: one per failed provider and one for the final fallback (app.py:130,
155, 158). Over N such passes the counter grows by 3N
(`Chain.ErrorsOverAllFailing`, `Service.FullyFailingServer`).

## Model

| member | source | states |
|---|---|---|
| Text.Lower | app.py:201 | lowercasing keeps the length, leaves no capital letter, maps each capital to its small letter and keeps every other character |
| Text.LowerIdempotent | app.py:201 | lowercasing an already lowercased query changes nothing |
| Text.ContainsIffOccurs | app.py:203 | the `in` test is true exactly when the pattern occurs at some index of the string (both directions) |
| Text.ContainsLonger | app.py:216 | a string that contains `p + q` contains `p` |
| Text.Join | app.py:206 | joining one piece gives that piece; joining several starts with the first piece followed by the separator |
| Text.SplitJoin | app.py:206 | splitting a one-character join gives back exactly the pieces, when no piece contains the separator (the partner of `Join`) |
| Text.NatToString | app.py:206 | the rendered number is a non-empty run of decimal digits with no leading zero unless it is 0 |
| Text.ParseNatToString | app.py:206 | reading the rendered digits back gives the number (round trip) |
| Text.Strip | app.py:353 | the stripped query is the piece of the input that starts right after its leading whitespace and is followed in the input by whitespace only; it neither starts nor ends with whitespace |
| Text.StripIsInfix | app.py:353 | the stripped query is a contiguous piece of the raw query, starting after its leading whitespace |
| Text.StripEmptyIffBlank | app.py:353-355 | stripping leaves the empty string exactly when every character of the input is whitespace |
| Text.StripIdempotent | app.py:353 | stripping twice is stripping once |
| Knowledge.PlankStepsAreSingleLines | app.py:170-177 | no HardiePlank installation step contains a line break |
| Knowledge.GeneralStepsAreSingleLines | app.py:190-196 | no general installation guideline contains a line break |
| QuickAnswer.InstallationMentionsInstall | app.py:216 | a query containing "installation" contains "install", so the second keyword of the general branch adds nothing |
| QuickAnswer.GetQuickAnswer | app.py:199-220 | a present answer is never empty, so the truthiness test of the caller agrees with "is not None"; the answer is absent exactly when the lowercased query contains none of "hardieplank", "hardietrim", "install" |
| QuickAnswer.PlankInstallAnswer | app.py:203-206 | "hardieplank" with "install": line 1 is "HardiePlank installation key steps:", and line k+1 is "k. " followed by the k-th installation step, for k = 1..6 |
| QuickAnswer.PlankToolsAnswer | app.py:207-209 | "hardieplank" with "tool" and no "install": the fixed sentence, then the five tools in list order separated by ", " |
| QuickAnswer.PlankDescriptionAnswer | app.py:210-211 | "hardieplank" with neither "install" nor "tool": exactly the HardiePlank description |
| QuickAnswer.TrimAnswer | app.py:213-214 | "hardietrim" without "hardieplank": exactly the HardieTrim description, even when "install" also occurs |
| QuickAnswer.GeneralAnswer | app.py:216-218 | "install" with neither product name: line 1 is "General James Hardie installation guidelines:" and line k+1 is "• " followed by the k-th guideline, for k = 1..5 |
| QuickAnswer.GeneralAnswerExactly | app.py:203-218 | the answer opens with the general-guidelines header exactly when the query contains "install" and neither product name (both directions) |
| QuickAnswer.QuickAnswerIgnoresCase | app.py:201 | the answer for a query equals the answer for its lowercased form, so upper and lower case do not matter |
| Chain.ChainResponse | app.py:107-164 | Azure answers exactly when configured and its call returned. OpenAI answers exactly when Azure did not, OpenAI is configured and its call returned. Otherwise the provider is `none`, with the fixed unavailability text and the `error` key. The reply text is the answering provider's. The `error` key is present exactly for `none`. |
| Chain.FailedAttempts | app.py:108-155 | at most two provider attempts fail in one pass |
| Chain.ErrorIncrement | app.py:128-158 | one pass adds at most 3 errors, and adds none exactly when some provider answered and Azure did not raise |
| Chain.ErrorIncrementTable | app.py:128-158 | increment is 0 when Azure answers or when Azure is absent and OpenAI answers; 1 when Azure raised and OpenAI answers; 1 when nothing is configured; 2 when one provider is configured and it raised; 3 when both are configured and both raised |
| Chain.ErrorsOverBound | app.py:104-158 | after n passes the error counter is at most 3n |
| Chain.ErrorsOverAllFailing | app.py:128-158 | when every call raises, n passes add (number of configured providers + 1) × n errors: 3n with both, n with none |
| Service.Server.constructor | app.py:47-51 | the service starts with both counters at zero and the provider configuration fixed |
| Service.Server.GenerateResponse | app.py:100-164 | one pass adds exactly 1 to the request counter and `ErrorIncrement` to the error counter, records the pass, and returns `ChainResponse`; the counter invariant is kept |
| Service.Server.Query | app.py:345-395 | a null body, an empty object or a missing `query` key gives 400 "No query provided"; a non-string query gives 500; a blank query gives 400 "Empty query"; a knowledge-base hit gives 200 with provider `knowledge_base` and `cached`. None of these touch the counters. Otherwise it returns 200 with the chain's response, after exactly one chain pass. |
| Service.Server.CurrentHealth | app.py:320-331 | the health report gives the two configured flags and the two counters as they are |
| Service.Server.Metrics | app.py:333-343 | the metrics report gives the counters and the error-rate denominator, exactly `max(request_count, 1)`, which bounds the numerator by 3 times itself |
| Service.FullyFailingServer | app.py:128-158 | with both providers configured and every call failing, the error counter is exactly three times the request counter |

## Left out

- Flask routing, JSON encoding and decoding, CORS and the HTML/JS page (app.py:223-318) are framework and user interface. A request body is modelled as already parsed: JSON `null`, or a JSON object whose values are strings or something else.
- A missing or non-JSON body is not modelled: on current Flask `request.get_json()` (app.py:349) raises for it, and the `except Exception` handler (app.py:397-399) answers 500 with the exception's text.
- Bodies that are JSON but neither `null` nor an object (a list, a string, a number, a boolean) are not modelled.
- `initialize_ai_clients` (app.py:53-98) reads environment variables and builds SDK clients. The model keeps only whether each client exists (`Config`), fixed when the `Server` is constructed.
- The remote `chat.completions.create` calls are foreign network calls. Each becomes an input `Reply`: the reply text, or an exception. The model name, token usage, `max_tokens`, the temperature, and the system prompt and message list passed to the call are not modelled.
- `time.time()`, `response_time`, `datetime.now()`, the `environment` field and the uptime are clock and environment reads. The float `error_rate` is given as an integer numerator and denominator.
- Logging is not modelled.
- Concurrent, unsynchronised updates of the counters under a multi-threaded server are not modelled: the counters are updated sequentially.
- `test_endpoints` (app.py:401-445) is a diagnostic loop over fixed queries and adds nothing beyond the quick-answer resolver and the provider chain.
- `PlankFasteners` and `TrimInstallation` are in the table but the resolver never reads them.
- Text.Lower: models `str.lower()` on ASCII letters only; other characters are kept, whereas Python also lowercases non-ASCII capitals.
- Text.Strip: removes the whitespace characters below code point 128 (tab through carriage return, the four information separators, space); Python also strips non-ASCII whitespace.
- Service.Server.Query: the 500 reply for a non-string query carries no message text; Python returns the exception's text.
