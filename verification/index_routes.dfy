/**
 The routes of index.js that touch the note list or the upstream services:
 `POST /remember`, `GET /memory`, `POST /generate-image` and `POST /chat`.
 Each route maps the note list and a request body to the new list and the
 response; the OpenAI SDK and DuckDuckGo are function parameters.
 */
module Routes {
  import opened Options
  import opened JsString
  import opened JsValue
  import opened Http
  import opened MemoryLog
  import opened Upstream
  import Texts

  /** The note list after a request, and the response sent. */
  datatype Step = Step(mem: seq<string>, response: Response)

  /** The response names a reply or an error as a string: the browser always has something to show. */
  predicate Answers(r: Response) {
    Get(r.body, "reply").Str? || Get(r.body, "error").Str?
  }

  /**
   `POST /remember`: 400 unless `text` is a non-empty string; otherwise the
   note goes through `addMemory` and the answer is `ok` with the new count,
   also when `addMemory` ignored a blank or repeated note.
   */
  function RememberRoute(mem: seq<string>, body: Value): (r: Step)
    ensures r.response.status == 400 <==> !IsNonEmptyStr(Get(body, "text"))
    ensures r.response.status == 400 ==> r.mem == mem && Answers(r.response)
    ensures r.response.status != 400 ==>
      && r.mem == AddMemory(mem, Get(body, "text"))
      && Get(r.response.body, "ok") == Bool(true)
      && Get(r.response.body, "memoryCount") == Num(|r.mem|)
  {
    var text := Get(body, "text");
    if !Truthy(text) || !text.Str? then Step(mem, BadRequest(Texts.RememberUsage))
    else
      var mem' := AddMemory(mem, text);
      Step(mem', Acknowledge(|mem'|))
  }

  /** `res.json({ ok: true, memoryCount })` */
  function Acknowledge(count: nat): (r: Response)
    ensures r.status == 200 && Get(r.body, "ok") == Bool(true) && Get(r.body, "memoryCount") == Num(count)
  {
    Json(200, map["ok" := Bool(true), "memoryCount" := Num(count)])
  }

  /** `GET /memory`: the newest `MaxMemories` notes; the list is left as it was. */
  function MemoryRoute(mem: seq<string>): (r: Step)
    ensures r.mem == mem && r.response.status == 200
    ensures Get(r.response.body, "memories") == Strings(SliceFrom(mem, -(MaxMemories as int)))
    ensures |mem| <= MaxMemories ==> Get(r.response.body, "memories") == Strings(mem)
  {
    Step(mem, Json(200, map["memories" := Strings(SliceFrom(mem, -(MaxMemories as int)))]))
  }

  /** A whitespace-only note is acknowledged with `ok` but not stored. */
  lemma BlankNoteAcknowledgedButDropped(mem: seq<string>, body: Value)
    requires Get(body, "text").Str? && Get(body, "text").s != "" && Blank(Get(body, "text").s)
    ensures RememberRoute(mem, body).response.status == 200
    ensures Get(RememberRoute(mem, body).response.body, "ok") == Bool(true)
    ensures RememberRoute(mem, body).mem == mem
  {
  }

  /**
   Remembering a note that is not blank and then listing the notes shows it
   as the newest one, and the list stays valid.
   */
  lemma RememberedNoteIsListed(mem: seq<string>, body: Value)
    requires Valid(mem)
    requires Get(body, "text").Str? && !Blank(Get(body, "text").s)
    ensures var after := RememberRoute(mem, body).mem;
      && Valid(after)
      && |after| > 0
      && after[|after| - 1] == Trim(Get(body, "text").s)
      && Get(MemoryRoute(after).response.body, "memories") == Strings(after)
  {
    var text := Get(body, "text");
    AddMemoryKeepsValid(mem, text);
  }

  /** `size = "512x512"`: the default applies only when the field is absent. */
  function ImageSize(body: Value): Value {
    var size := Get(body, "size");
    if size.Undefined? then Str("512x512") else size
  }

  /**
   `POST /generate-image`: 400 without a prompt, 500 without an OpenAI
   client, 500 when the SDK throws, otherwise the normalised image payload.
   */
  function GenerateImageRoute(body: Value, client: bool, generate: (Value, Value) -> Call): (r: Response)
    ensures !Truthy(Get(body, "prompt")) ==> r == BadRequest(Texts.PromptRequired)
    ensures Truthy(Get(body, "prompt")) && !client ==>
      r == Json(500, map["error" := Str(Texts.ImageClientMissing)])
    ensures Truthy(Get(body, "prompt")) && client ==>
      var call := generate(Get(body, "prompt"), ImageSize(body));
      && (call.Threw? ==> r == Json(500, map["error" := Str(Texts.ImageFailed)]))
      && (call.Returned? ==> r == NormalizeImage(call.payload))
    ensures r.status == 200 ==> Get(r.body, "imageUrl").Str?
  {
    var prompt := Get(body, "prompt");
    if !Truthy(prompt) then BadRequest(Texts.PromptRequired)
    else if !client then Json(500, map["error" := Str(Texts.ImageClientMissing)])
    else
      match generate(prompt, ImageSize(body))
      case Threw(_) => Json(500, map["error" := Str(Texts.ImageFailed)])
      case Returned(resp) => NormalizeImage(resp)
  }

  /** The web-mode answer: the chosen reply, or a 500 when the search or the payload throws. */
  function WebAnswer(call: Call, query: string): (r: Response)
    ensures call.Returned? && WebReply(call.payload, query).Some? ==>
      r == Reply(200, WebReply(call.payload, query).value)
    ensures call.Threw? || WebReply(call.payload, query).None? ==> r == Reply(500, Texts.WebFailed)
    ensures (r.status == 200 || r.status == 500) && Get(r.body, "reply").Str?
  {
    match call
    case Threw(_) => Reply(500, Texts.WebFailed)
    case Returned(dd) =>
      match WebReply(dd, query)
      case Some(text) => Reply(200, text)
      case None => Reply(500, Texts.WebFailed)
  }

  /** `mode === "web"` */
  predicate WebMode(body: Value) {
    Get(body, "mode") == Str("web")
  }

  /** The note list once the optional `remember` flag has been honoured. */
  function Remembered(mem: seq<string>, body: Value): seq<string> {
    if Truthy(Get(body, "remember")) then AddMemory(mem, Get(body, "message")) else mem
  }

  /**
   `POST /chat`: 400 unless `message` is a non-empty string; otherwise the
   message is first remembered when asked, then answered by web search in
   web mode, or by the chat completion with the newest notes in the prompt.
   */
  function ChatRoute(mem: seq<string>, body: Value, client: bool,
                     search: string -> Call, complete: seq<ChatMessage> -> Call): (r: Step)
    ensures r.response.status == 400 <==> !IsNonEmptyStr(Get(body, "message"))
    ensures r.response.status == 400 ==> r.mem == mem
    ensures IsNonEmptyStr(Get(body, "message")) ==> r.mem == Remembered(mem, body)
    ensures Answers(r.response)
    ensures IsNonEmptyStr(Get(body, "message")) && WebMode(body) ==>
      r.response == WebAnswer(search(Get(body, "message").s), Get(body, "message").s)
    ensures IsNonEmptyStr(Get(body, "message")) && !WebMode(body) && !client ==>
      r.response == Reply(500, Texts.ChatClientMissing)
    ensures IsNonEmptyStr(Get(body, "message")) && !WebMode(body) && client ==>
      r.response == CompletionResponse(complete(BuildMessages(r.mem, Get(body, "message").s)))
  {
    var message := Get(body, "message");
    if !Truthy(message) || !message.Str? then Step(mem, BadRequest(Texts.ChatUsage))
    else
      var mem' := Remembered(mem, body);
      if WebMode(body) then Step(mem', WebAnswer(search(message.s), message.s))
      else if !client then Step(mem', Reply(500, Texts.ChatClientMissing))
      else Step(mem', CompletionResponse(complete(BuildMessages(mem', message.s))))
  }

  /** In web mode the completion endpoint plays no part; in AI mode the search plays none. */
  lemma ChatUsesOneUpstream(mem: seq<string>, body: Value, client: bool,
                            s1: string -> Call, s2: string -> Call,
                            k1: seq<ChatMessage> -> Call, k2: seq<ChatMessage> -> Call)
    ensures WebMode(body) ==> ChatRoute(mem, body, client, s1, k1) == ChatRoute(mem, body, client, s1, k2)
    ensures !WebMode(body) ==> ChatRoute(mem, body, client, s1, k1) == ChatRoute(mem, body, client, s2, k1)
  {
  }

  /**
   A message sent with `remember` in AI mode reaches the model as the newest
   note of the prompt, so the model sees what was just remembered.
   */
  lemma RememberedMessageReachesPrompt(mem: seq<string>, body: Value)
    requires Valid(mem)
    requires IsNonEmptyStr(Get(body, "message")) && Truthy(Get(body, "remember"))
    requires Admits(mem, Get(body, "message"))
    ensures var msgs := BuildMessages(Remembered(mem, body), Get(body, "message").s);
      && |msgs| == 3
      && EndsWith(msgs[1].content, Bullet(Trim(Get(body, "message").s)))
      && msgs[2] == ChatMessage("user", Get(body, "message").s)
  {
  }
}
