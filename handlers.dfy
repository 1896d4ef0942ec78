/** The two question endpoints: their input guards and the pipeline
    fetch, build context, ask the model, reply. */
module Handlers {
  import opened Wrappers
  import opened Messages
  import opened Aggregator
  import opened Context
  import opened Answer

  /** Both endpoints fetch pages of 100 messages. */
  const AskPageSize: nat := 100
  const FormRejection: string := "Please enter a question!"
  const JsonRejection: string := "Please provide a question in JSON body"
  const QuestionKey: string := "question"

  // ----- The form endpoint `POST /ask` -----

  datatype FormGuard = FormReject | FormProceed(question: string)

  /** `if not question`: the form field is missing or empty. */
  function CheckForm(question: Option<string>): (g: FormGuard)
    ensures g.FormReject? <==> question == None || question == Some("")
    ensures g.FormProceed? ==> question == Some(g.question) && g.question != ""
  {
    match question
    case None => FormReject
    case Some(q) => if q == "" then FormReject else FormProceed(q)
  }

  /** `ask()`: a rejected question gives the fixed prompt text and sends no
      request; otherwise the answer to the prompt built from every message
      fetched in pages of 100. The model is a parameter. */
  method Ask(question: Option<string>, source: Source, ghost bound: nat, model: string -> ModelReply)
    returns (answer: string, requests: seq<Request>)
    requires CheckForm(question).FormProceed? ==> Stops(Page(source, AskPageSize, bound))
    ensures CheckForm(question).FormReject? ==> answer == FormRejection && requests == []
    ensures CheckForm(question).FormProceed? ==>
      var n := StopIndex(source, AskPageSize, 0, bound);
      && |requests| == n + 1
      && (forall k :: 0 <= k < |requests| ==> requests[k] == Request(Offset(k, AskPageSize), AskPageSize))
      && answer == AnswerText(model(Prompt(question.value, BuildContext(Gathered(source, AskPageSize, n)))))
  {
    var guard := CheckForm(question);
    if guard.FormReject? {
      return FormRejection, [];
    }
    var messages;
    messages, requests := FetchMemberMessages(source, AskPageSize, bound);
    var context := BuildContext(messages);
    answer := AnswerText(model(Prompt(guard.question, context)));
  }

  // ----- The JSON endpoint `POST /api/ask` -----

  /** A parsed JSON value. Numbers are integers: in the guards a float
      counts as zero or non-zero according to whether it is 0; the text of
      a float question is not modelled. The request body is an
      `Option<Json>`: `None` stands for `get_json()` giving no value, and
      `Some(JNull)` for a body that is the literal `null`. */
  datatype Json =
    | JNull
    | JBool(b: bool)
    | JNumber(n: int)
    | JString(s: string)
    | JArray(elems: seq<Json>)
    | JObject(fields: map<string, Json>)

  /** Python's truth value of the decoded value. */
  predicate Truthy(j: Json) {
    match j
    case JNull => false
    case JBool(b) => b
    case JNumber(n) => n != 0
    case JString(s) => s != ""
    case JArray(elems) => elems != []
    case JObject(fields) => fields != map[]
  }

  /** `t` occurs in `s` as a contiguous piece. */
  predicate HasSubstring(s: string, t: string)
    decreases |s|
  {
    t <= s || (s != [] && HasSubstring(s[1..], t))
  }

  /** Python's `key in data`: key lookup in an object, element search in an
      array, substring search in a string; `None` where Python raises a
      TypeError (null, booleans, numbers). */
  function PyIn(key: string, data: Json): Option<bool> {
    match data
    case JObject(fields) => Some(key in fields)
    case JArray(elems) => Some(JString(key) in elems)
    case JString(s) => Some(HasSubstring(s, key))
    case _ => None
  }

  /** Python's `data[key]` with a string key; `None` where Python raises. */
  function PySubscript(data: Json, key: string): Option<Json> {
    match data
    case JObject(fields) => if key in fields then Some(fields[key]) else None
    case _ => None
  }

  /** The outcome of `api_ask`'s guard: reject with 400, an uncaught exception
      (a truthy body that is not an object but passes or breaks the `in`
      test), or go on with the question's value. */
  datatype JsonGuard = JsonReject | JsonRaises | JsonProceed(question: Json)

  /** `if not data or "question" not in data`, then `data["question"]`. */
  function CheckJson(body: Option<Json>): (g: JsonGuard)
    ensures g.JsonProceed? <==> body.Some? && body.value.JObject? && QuestionKey in body.value.fields
    ensures g.JsonProceed? ==> g.question == body.value.fields[QuestionKey]
    ensures (body.None? || !Truthy(body.value)
             || (body.value.JObject? && QuestionKey !in body.value.fields)) ==> g.JsonReject?
    ensures g.JsonRaises? <==>
              body.Some? && Truthy(body.value)
              && (|| body.value.JBool? || body.value.JNumber?
                  || (body.value.JArray? && JString(QuestionKey) in body.value.elems)
                  || (body.value.JString? && HasSubstring(body.value.s, QuestionKey)))
  {
    match body
    case None => JsonReject
    case Some(data) =>
      if !Truthy(data) then JsonReject
      else
        match PyIn(QuestionKey, data)
        case None => JsonRaises
        case Some(found) =>
          if !found then JsonReject
          else
            match PySubscript(data, QuestionKey)
            case None => JsonRaises
            case Some(q) => JsonProceed(q)
  }

  /** The two guards differ on an empty question: the form rejects it, the
      JSON endpoint passes it on; an empty object or a missing body is
      rejected. */
  lemma GuardsOnEmptyQuestion()
    ensures CheckForm(Some("")) == FormReject
    ensures CheckJson(Some(JObject(map[QuestionKey := JString("")]))) == JsonProceed(JString(""))
    ensures CheckJson(Some(JObject(map[]))) == JsonReject
    ensures CheckJson(None) == JsonReject
  {
  }

  /** The text an f-string makes of the question: the string itself, or
      Python's `str()` of any other value, which is a parameter here. */
  function QuestionText(q: Json, show: Json -> string): string {
    match q
    case JString(s) => s
    case _ => show(q)
  }

  /** What `api_ask` sends back: a JSON object with one key and a status, or
      the server error of an uncaught exception. */
  datatype ApiReply = JsonReply(status: int, key: string, text: string) | ServerError

  /** `api_ask()`: a rejected body gives 400 and sends no request; a body that
      makes the guard raise gives a server error and sends no request;
      otherwise 200 and the answer to the prompt built from every message
      fetched in pages of 100. */
  method ApiAsk(body: Option<Json>, source: Source, ghost bound: nat,
                model: string -> ModelReply, show: Json -> string)
    returns (reply: ApiReply, requests: seq<Request>)
    requires CheckJson(body).JsonProceed? ==> Stops(Page(source, AskPageSize, bound))
    ensures CheckJson(body).JsonReject? ==> reply == JsonReply(400, "error", JsonRejection) && requests == []
    ensures CheckJson(body).JsonRaises? ==> reply == ServerError && requests == []
    ensures CheckJson(body).JsonProceed? ==>
      var n := StopIndex(source, AskPageSize, 0, bound);
      var question := QuestionText(CheckJson(body).question, show);
      && |requests| == n + 1
      && (forall k :: 0 <= k < |requests| ==> requests[k] == Request(Offset(k, AskPageSize), AskPageSize))
      && reply == JsonReply(200, "answer",
                            AnswerText(model(Prompt(question, BuildContext(Gathered(source, AskPageSize, n))))))
  {
    var guard := CheckJson(body);
    if guard.JsonReject? {
      return JsonReply(400, "error", JsonRejection), [];
    }
    if guard.JsonRaises? {
      return ServerError, [];
    }
    var question := QuestionText(guard.question, show);
    var messages;
    messages, requests := FetchMemberMessages(source, AskPageSize, bound);
    var context := BuildContext(messages);
    reply := JsonReply(200, "answer", AnswerText(model(Prompt(question, context))));
  }
}
