# Aurora-QA message aggregator and question handlers, modelled in Dafny

Aurora-QA is a small web front end. It takes a question, fetches every
member message from a paginated remote API, joins the messages into a text
context, and sends a fixed prompt built from the context and the question
to a language model. The answer comes back as an HTML page (`POST /ask`)
or as JSON (`POST /api/ask`).

This project models the logic of `app.py`, split into modules:

- `Messages` (messages.dfy): a message record (`user_name`, `message`), one
  API response (`status`, optional `items`), one request (`skip`, `limit`),
  and the remote API as a total function `Source` from `(skip, limit)` to a
  response.
- `Aggregator` (aggregator.dfy): `fetch_member_messages` as a method with a
  `while true` loop, an offset counter and an accumulator, proved against
  recursive functions: `Gathered` (the items of the first `count` pages in
  order) and `StopIndex` (the first page that stops the loop). The loop
  has no page cap. The method therefore takes a ghost witness `bound`, a
  page that is known to stop the loop. `StopIndexIndependent` shows that
  the result does not depend on which witness is given. `Serve` models a
  well-behaved API over a full message list.
- `Context` (context.dfy): the `"\n".join` of `user_name: message` lines.
  Its partner is Python's `split("\n")`. For one or more messages with no
  newline in any field, splitting undoes the join. The empty context splits
  into one empty piece.
- `Answer` (answer.dfy): the prompt template and the text `ask_gemini`
  returns for a model reply.
- `Handlers` (handlers.dfy): the form guard, the JSON guard and the two
  endpoint handlers. The JSON guard runs over a JSON value datatype with
  Python's truthiness, its `in` operator (key, element or substring, or a
  `TypeError`) and its subscript.

Each handler returns the list of requests it sent to the message API. This
is how the model states that a rejected question starts no fetch.

Parameters stand in for what the model leaves outside:

- the remote API is the `source` function;
- the language model is a function `model: string -> ModelReply`;
- Python's `str()` of a JSON question that is not a string is a function
  `show`.

The code has no exception handling around `requests.get` or `resp.json()`,
so a network error or a malformed payload propagates instead of ending the
loop quietly. The model follows the code: only a non-200 status and a
missing, null or empty `items` stop the loop.

## Model

| member | source | states |
|---|---|---|
| `Aggregator.Offset` | app.py:22 | Definition: the `skip` of the k-th request, 0 at first and `limit` more after each page. Its properties are in `OffsetIsMultiple` and `OffsetGrows`. |
| `Aggregator.Items` | app.py:28 | Definition: `data.get("items", [])`, the page's items, or none when the key is missing or null. Its properties are in `GatheredAt` and `GatheredFrom`. |
| `Aggregator.Stops` | app.py:25-30 | Definition: the two `break`s, a status other than 200 or no items. Its properties are in `StopIndex`, `FetchMemberMessages` and `FirstPageStops`. |
| `Aggregator.OffsetIsMultiple` | app.py:22-32 | The skip of the k-th request, which starts at 0 and grows by limit after each page, equals k * limit. |
| `Aggregator.OffsetGrows` | app.py:32 | Between request i and a later request j, skip grows by exactly (j - i) * limit. |
| `Aggregator.FetchMemberMessages` | app.py:20-33 | The k-th request is made with skip = Offset(k, limit), which is k * limit, and the same limit. Exactly one request is made beyond the last non-empty page: the first stopping response. The result is the in-order concatenation of the items of every page before that response. |
| `Aggregator.StopIndex` | app.py:23-30 | Given some page that stops the loop, finds the first page from k on that does: no page between k and it stops. |
| `Aggregator.FirstStopUnique` | app.py:23-30 | At most one page is the first to stop the loop. |
| `Aggregator.StopIndexIndependent` | app.py:23-32 | Any two termination witnesses lead to the same stopping page, and that page is the first to stop. |
| `Aggregator.GatheredAt` | app.py:31 | Item j of page k appears in the result at offset (items of pages before k) + j. Nothing is dropped or reordered. |
| `Aggregator.GatheredFrom` | app.py:31 | Every element of the result is item j of some earlier page k, at exactly that offset. Nothing is added or duplicated. |
| `Aggregator.GatheredLength` | app.py:31 | The result length is the sum of the lengths of the pages gathered. |
| `Aggregator.GatheredPrefix` | app.py:31-32 | The result after i pages is a prefix of the result after any later page count: pages are only appended. |
| `Aggregator.FirstPageStops` | app.py:25-30 | If the first response is non-200 or has no items, the loop stops after one request with an empty result. |
| `Aggregator.PartialFailure` | app.py:25-26 | A good first page followed by a non-200 response gives exactly the first page's items. No error is raised. |
| `Aggregator.ServeGathered` | app.py:22-32 | Against an API that serves windows of a list, k pages of size limit gather the first min(k * limit, N) messages of the list. |
| `Aggregator.ServeComplete` | app.py:22-33 | Against such an API holding N messages, the first stopping page is page ceil(N / limit). The gathered result is the whole list in order. |
| `Aggregator.FetchServed` | app.py:20-33 | Running the fetch against such an API makes ceil(N / limit) + 1 requests, at skip Offset(k, limit) (which is k * limit), and returns all N messages in order. |
| `Aggregator.EndlessNeverStops` | app.py:23-32 | Against an API that always answers 200 with the same non-empty page, no page stops the loop. With no page cap, the fetch never ends on such a source. |
| `Context.Line` | app.py:84 | Definition: the line `user_name + ": " + message` of one message. Its properties are in `ContextLines` and `ContextSmall`. |
| `Context.Lines` | app.py:84 | Definition: the list comprehension, one line per message, in order. Its properties are in `ContextLines` and `ContextAppend`. |
| `Context.Join` | app.py:84 | Definition: Python's `"\n".join`. Its properties are in `SplitJoin` and `JoinAppend`. |
| `Context.BuildContext` | app.py:84 | Definition: the context of both endpoints, also built at app.py:99. Its properties are in `ContextLines`, `ContextAppend`, `ContextSmall` and `ContextExample`. |
| `Context.SplitJoin` | app.py:84 | For one or more parts with no newline in any part, splitting their newline join on newlines gives back the parts. |
| `Context.ContextLines` | app.py:84 | For one or more messages with no newline in any field, line i of the context is exactly `user_name + ": " + message` of message i. |
| `Context.EmptyContextSplit` | app.py:84 | No messages give the empty context, which splits into one empty piece rather than into no lines. |
| `Context.JoinAppend` | app.py:84 | Joining adds one separator between parts and none at either end. |
| `Context.ContextAppend` | app.py:99 | Appending a message appends a newline and its line, or just its line when the context was empty. The context never ends with an added newline. |
| `Context.ContextSmall` | app.py:84 | No messages give the empty string. A single message gives its line with no newline. |
| `Context.ContextExample` | app.py:99 | The messages A/"hi" and B/"yo" give "A: hi\nB: yo". |
| `Answer.Prompt` | app.py:40 | The prompt is the preamble, the context, `"\n\nQuestion: "` and the question, each at its exact position. |
| `Answer.PromptInjective` | app.py:40 | For questions of equal length, equal prompts have equal questions and equal contexts. Without the question's length the template is ambiguous. |
| `Answer.PromptCollision` | app.py:40 | A context that contains `"\n\nQuestion: "` lets two different (question, context) pairs give the same prompt: ("z", "x\n\nQuestion: y") and ("y\n\nQuestion: z", "x"). |
| `Answer.AnswerText` | app.py:41-48 | The answer is the model's text. If the model call raised, it is `"Error: "` followed by the exception's details. |
| `Handlers.CheckForm` | app.py:78-80 | The form guard rejects exactly a missing or empty question. A question that passes is the non-empty field value. |
| `Handlers.Ask` | app.py:76-88 | A rejected question answers "Please enter a question!" and sends no request. Otherwise it answers the model's reply to the prompt built from every message fetched in pages of 100. |
| `Handlers.Truthy` | app.py:94 | Definition: Python's truth value used by `not data`. Its properties are in `CheckJson` and `GuardsOnEmptyQuestion`. |
| `Handlers.PyIn` | app.py:94 | Definition: `"question" not in data` on an object, array or string, or a TypeError. Its properties are in `CheckJson`. |
| `Handlers.PySubscript` | app.py:97 | Definition: `data["question"]`, or a TypeError when the body is not an object. Its properties are in `CheckJson`. |
| `Handlers.QuestionText` | app.py:40 | Definition: the text `{question}` makes of the value taken at app.py:97, the string itself or `str()` of another value. Its property is in `ApiAsk`. |
| `Handlers.CheckJson` | app.py:93-97 | The JSON guard goes on if and only if the body is an object with a "question" key, and then carries that key's value. A missing or falsy body (null, {}, "", [], 0, false) and an object without the key are rejected. A truthy non-object body raises exactly when Python's `in` test raises or passes: a number or boolean, an array holding "question", or a string containing it. |
| `Handlers.GuardsOnEmptyQuestion` | app.py:93-95 | An empty-string question is rejected by the form guard and accepted by the JSON guard. `{}` and a missing body are rejected. |
| `Handlers.ApiAsk` | app.py:91-101 | A rejected body gives 400 with "Please provide a question in JSON body" and sends no request. A raising body gives a server error and sends no request. Otherwise the reply is 200 with the model's answer to the prompt, built from every message fetched in pages of 100. |

## Left out

- HTTP: `requests.get` and `resp.json()` are replaced by the `source` function. Network errors and malformed payloads, which raise in the code, are not modelled.
- Payload shapes: a payload that is not an object, or whose `items` is truthy but not a list of message records, is not modelled. Items are always well-formed messages.
- Message records: the `KeyError` for a record without `user_name` or `message` is not modelled. Every record has both fields.
- `limit` of 0 or less: never checked by the code, and every caller passes 100. The aggregator requires `limit > 0`. The unused default of 500 is not modelled separately, because `limit` is a parameter.
- Aggregator.FetchMemberMessages: termination is assumed, through a ghost witness page that stops the loop. A source that never stops makes the code loop forever. The method does not describe that case, and `EndlessNeverStops` shows such a source.
- The language model: client construction and `generate_content` are foreign library calls. The model is a parameter, and its reply is either text or an exception's details. A reply whose `text` is `None` is not modelled.
- Handlers.ApiAsk: Python's `str()` of a non-string JSON question is the parameter `show`, not a definition.
- JSON numbers: they are integers here. In the guards a float counts as zero or non-zero according to whether it is 0, so `0.0` is falsy. The text of a float question (`str(2.0)` is `"2.0"`, `str(2.5)` is `"2.5"`) is not modelled.
- Flask: the cases where `get_json()` answers 400 or 415 itself (a malformed body, a wrong content type) are framework behaviour. The model's `None` body stands for `get_json()` returning `None`.
- The HTML template, `render_template_string`, `jsonify`, the `GET /` page and `app.run`: web framework and UI. The form handler's result is the answer text put into the page. That the template hides an empty answer is not modelled.
- The startup check for `GEMINI_API_KEY`: process configuration, not logic.
