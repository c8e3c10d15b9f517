# FinSight Telegram bot: a Dafny model of its core

FinSight is a Flask app that answers finance questions in Telegram. This
project models two parts of it and proves properties of the model.

- **`app.py`.** Telegram calls the `/webhook` route for each update:
  - an attachment is checked: a caption is required, and the file must be CSV, Excel or PDF;
  - the message becomes a query;
  - the query is routed by the chat's session state in `users_dict`: welcome, farewell, a request to `/start`, or the finance mediator;
  - the reply is posted by `send_message`, which cuts texts over 4096 characters into chunks at blank lines.
- **`apps/gemini_finance.py`.** `gemini_finance_response` makes two rounds with Gemini:
  - round 1 offers the tools `get_financial_info` and `get_stock_price` and forces a tool call;
  - the named tool runs against Yahoo Finance;
  - round 2 sends back the prompt, the model's call and the tool's result, and returns the model's text.

Files:

- `wrappers.dfy`: `Option` and `Result`.
- `python_str.dfy`: Python's `str.split('\n\n')` and `str.strip()`.
- `chunking.dfy`: `send_message`.
  - The spec function `ChunksOf` follows the loop's state.
  - The method `SendMessage` is the loop itself.
  - Lemmas tie both to the runs of paragraphs that each chunk holds.
- `gemini_finance.dfy`: the genai types, the tool declarations and both round configurations, dispatch on the tool name, and the two tool records.
  - The spec function `Exchange` returns the answer or the exception, plus the trace of calls made on the model and the market data.
  - The method `GeminiFinanceResponse` grows `contents` by appends.
- `app.dfy`: the attachment checks (`Query`), the session router (`Route`) and the whole hook (`Handle`).
  - The class `Bot` holds `users_dict` and an outbox of posted messages, and its `Webhook` method updates both in place.

External services are function-valued parameters:

- the Gemini model;
- Yahoo Finance: `info`, the statements already formatted as JSON, and the price history as JSON;
- downloading an attachment and reading its text.

The fixed texts of app.py (welcome, farewell and the three notices) and the round-2 system instruction are opaque. Some lemmas about the hook assume `NoticesFit`: each fixed text is at most 4096 characters long, as every one in app.py is.

Points of the code that the model keeps as written:

- **At most one tool call per query.** `gemini_finance_response` runs one tool only when round 1's first part names a declared tool with fitting arguments (apps/gemini_finance.py:116-123). Otherwise no tool runs, and the exchange raises:
  - an `AttributeError` when that part carries no function call (line 118);
  - a `TypeError` when the arguments do not match the tool (lines 119 and 122);
  - an `UnboundLocalError` when the name is unknown, since `result` is never assigned (line 128).
- **Required parameters.** Every declared parameter is required (apps/gemini_finance.py:22 and 46). Each tool is called with `**tool_call.args`, so the argument names must be exactly the parameter names.
- **Chunking.** `send_message` cuts a text over 4096 characters at blank lines itself (app.py:28-44). When the text is all whitespace, the final chunk is not posted (app.py:42). Then `response` is bound only if the loop posted an earlier chunk (app.py:33-35). So only an all-whitespace text over the limit can make `send_message` raise, and one with no `'\n\n'` in it always does (app.py:45).

## Model

| member | source | states |
|---|---|---|
| PythonStr.Split | app.py:29 | `text.split('\n\n')` has at least one piece; the first piece is a prefix of the text, followed by the separator when more pieces come |
| PythonStr.SplitJoin | app.py:29 | joining the pieces of `split('\n\n')` with `'\n\n'` gives back the text |
| PythonStr.SplitPieces | app.py:29 | no piece contains `'\n\n'`, and no piece but the last ends in `'\n'` (the split is leftmost) |
| PythonStr.StripLeadingCuts | app.py:34 | the leading-whitespace cut is blank; what is kept is a suffix that does not start with whitespace |
| PythonStr.StripTrailingCuts | app.py:34 | the trailing-whitespace cut is blank; what is kept is a prefix that does not end with whitespace |
| PythonStr.StripCuts | app.py:34 | `strip()` keeps a middle part of the text, cutting a blank prefix and a blank suffix |
| PythonStr.StripEmptyIffBlank | app.py:42 | `strip()` is empty exactly when the text is all whitespace; otherwise it neither starts nor ends with whitespace |
| Chunking.Group | app.py:32-40 | the runs the loop closes cover the pending run and the remaining paragraphs in order; no run is empty; each run fits when the pending one does |
| Chunking.Runs | app.py:29-40 | the runs of paragraphs cover all paragraphs in order; each is non-empty and within 4096 characters or a single paragraph |
| Chunking.GroupGreedy | app.py:32-40 | the loop closes a run only when the next paragraph would take it over 4096 characters |
| Chunking.RunsGreedy | app.py:32-40 | each sent run, with the next run's first paragraph and `'\n\n'` added, exceeds 4096 characters; with the coverage and fit facts this fixes the runs |
| Chunking.DrainPosts | app.py:33-37 | closing the runs one by one posts every run but the last, stripped and in order, and leaves the last run's text pending |
| Chunking.LoopGroup | app.py:30-40 | the loop over the paragraphs ends in the state that closing the runs of `Group` gives |
| Chunking.LongTextDrained | app.py:29-44 | for a text over the limit, the loop posts every run but the last, and the last run's text remains for the final post |
| Chunking.ShortTextSentWhole | app.py:25-27 | a text of at most 4096 characters is posted once, unchanged |
| Chunking.LongTextSentAsRuns | app.py:29-44 | a longer text is posted as the stripped runs of its paragraphs in order; the last run is posted exactly when it is not blank; each chunk is within 4096 characters unless its run is a single paragraph |
| Chunking.RunsCoverText | app.py:29-40 | the runs' paragraphs, each followed by `'\n\n'`, spell the whole text plus one `'\n\n'` |
| Chunking.ResponseUnboundOnlyForBlank | app.py:42-45 | `send_message` raises only for a text over 4096 characters that is all whitespace |
| Chunking.LongBlankParagraphRaises | app.py:42-45 | such a text with no blank line in it does raise (`response` is never assigned) |
| Chunking.SendMessage | app.py:21-45 | the loop posts exactly the chunks of `ChunksOf`, and fails exactly when it does |
| GeminiFinance.AllParametersRequired | apps/gemini_finance.py:11-48 | the parameters are `ticker` for `get_financial_info` and `ticker`, `period`, `interval` for `get_stock_price`, and all are required |
| GeminiFinance.ToolRecordDefaults | apps/gemini_finance.py:51-88 | `company_name` is `longName`, or the ticker when it is missing; `current_price` is `currentPrice`, or the text `'None'`; statements and history pass through as fetched |
| GeminiFinance.DispatchAcceptsDeclared | apps/gemini_finance.py:118-123 | dispatch succeeds exactly for a declared tool name whose arguments name exactly that tool's parameters; it reports an unknown tool exactly when the name is not declared |
| GeminiFinance.DispatchSelectsRetrieval | apps/gemini_finance.py:118-123 | the financial statements of ticker `t` are fetched exactly for the call `get_financial_info(ticker=t)`, and a price history exactly for `get_stock_price` with those three arguments |
| GeminiFinance.ExchangeProtocol | apps/gemini_finance.py:102-143 | round 1 goes out first with the prompt alone and the round-1 config; the exchange succeeds exactly when it makes three calls: the chosen retrieval, then round 2 with the three-turn conversation; the answer is round 2's text verbatim; on failure round 1 is the only call |
| GeminiFinance.AtMostOneRetrieval | apps/gemini_finance.py:108-141 | at most one retrieval and at most two model calls happen per exchange |
| GeminiFinance.UnknownToolStopsBeforeRound2 | apps/gemini_finance.py:118-129 | a tool name other than the two declared ones fails with `result` unassigned, before any retrieval and before round 2 |
| GeminiFinance.ConversationShape | apps/gemini_finance.py:102-133 | the round-2 conversation has exactly three turns: the user's prompt (round 1's conversation), the model echoing its call, and the user's response named after the tool and wrapping the result unmodified as `{"result": result}` |
| GeminiFinance.RoundConfigs | apps/gemini_finance.py:92-140 | round 1 offers both declarations, disables automatic function calling and sets mode `any`; round 2 has no tools and only the system instruction |
| GeminiFinance.GeminiFinanceResponse | apps/gemini_finance.py:7-143 | the imperative mediator makes the calls of `Exchange` and returns its result |
| App.QueryPrechecks | app.py:64-98 | a missing caption is refused first, then a type outside CSV, Excel and PDF; an accepted attachment's query is the file text, a blank line and the caption; a plain message's query is its text |
| App.RouteWelcome | app.py:100-115 | welcome happens exactly for `/start` or a chat with no entry, and sets the entry to no callback data and status `'start'` |
| App.RouteEnd | app.py:100-125 | `/end` from a known chat gives the farewell and sets only its status to `'end'`, keeping the entry; from an unknown chat it gives the welcome |
| App.RouteOtherQuery | app.py:127-133 | any other query from a known chat is forwarded unchanged when its status is `'start'`, else answered by a request to start; `users_dict` is unchanged |
| App.ForwardOnlyWhenStarted | app.py:100-133 | a query reaches the mediator exactly when it is not a command and the chat's session is started, and it reaches it unchanged |
| App.RouteFrame | app.py:100-118 | routing writes only the current chat's entry, never removes one, and changes nothing outside welcome and farewell |
| App.EndThenAskToStart | app.py:117-129 | after `/end`, the next ordinary query is answered by a request to start |
| App.RestartIdempotent | app.py:100-101 | a second `/start` leaves the same state as the first |
| App.SessionLifecycle | app.py:100-129 | a new chat, after any queries, has an entry with no callback data; its first query starts the session, and after that the last `/start` or `/end` decides the status (`'start'` when there is none); other chats are untouched |
| App.RefusedAttachmentLeavesUsers | app.py:67-75 | a refused attachment leaves `users_dict` as it was and posts only the matching notice |
| App.ForwardedQueryAnswered | app.py:131-133 | a forwarded query's answer is posted in the chunks `send_message` makes of it; `users_dict` is unchanged; a mediator failure posts nothing |
| App.NoticeReplies | app.py:100-129 | a welcome, farewell or request to start posts exactly one notice, unchanged, and replies with that action |
| App.Bot.constructor | app.py:18 | the bot starts with an empty `users_dict` and nothing posted |
| App.Bot.SendMessage | app.py:21-45 | posting appends the chunks of `ChunksOf` to the outbox, or raises and posts nothing; `users_dict` is untouched |
| App.Bot.Notify | app.py:71-72 | a notice is posted, then the action is returned, as `Notified` says |
| App.Bot.Webhook | app.py:54-135 | one request updates `users_dict` in place and appends to the outbox exactly as `Handle` says, and replies as it says |

## Left out

- **Flask plumbing.** The routes `index`, `setup_webhook`, `get_webhook_info` and `delete_webhook` are HTTP plumbing. Of `webhook()`, only the answer to GET is kept.
- **Network I/O.** The model does not include `requests.post`, `requests.get`, `time.sleep` or `response.json()`. `send_message` yields the texts it posts, and the hook records them in an outbox.
- **Attachments.** Downloading an attachment and reading it with pandas or pypdf is a function parameter, `extract`. It is assumed not to fail.
- **External services.** genai and yfinance are function parameters and are total. The model does not cover:
  - their network errors or invalid tickers;
  - the DataFrame formatting (`format_data`, `to_json`);
  - how the SDK derives `.text`: a missing text is not modelled, and the text is always a string.
- **Argument types.** Tool-call arguments are modelled as strings. Values of other JSON types are not modelled.
- **Prose.** The wording of the welcome, farewell and notice texts, the system instruction, and the tool and parameter descriptions is not modelled.
- **Concurrency.** Concurrent updates on `users_dict` are not modelled; updates are handled one at a time.
- **Logging.** `print` output is not modelled.
- **Round-1 snapshot.** `contents` is one Python list that is appended to after round 1. The trace records round 1's conversation as it was sent, not the later state of the list.
- **Update shape.** The model does not cover updates without `chat.id`, documents without `mime_type` or `file_id`, or a `message` that is not a dictionary. The model also does not distinguish an absent `text` or `caption` from an empty one.
