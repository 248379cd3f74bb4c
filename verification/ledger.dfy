/**
 server.js: three in-memory append-only lists (`serverMemory`) behind the
 `/api/...` handlers. Every handler checks its required fields, then either
 answers 400 and changes nothing, or appends exactly the documented records.
 Printing a request value that cannot be printed throws: inside the chat
 handler's `try` that is a 500, in the search handler, which has no `try`,
 no response is ever sent. Timestamps (`new Date().toISOString()`) are
 parameters.
 */
module Ledger {
  import opened JsString
  import opened JsValue
  import opened Http
  import opened Options
  import Texts

  /** `{ role, content }`; `content` is the request's `message` as sent, which may be any truthy value. */
  datatype Turn = Turn(role: string, content: Value)

  /** `{ text, createdAt }` */
  datatype Note = Note(text: Value, createdAt: string)

  /** `{ when, title, createdAt }` */
  datatype Appointment = Appointment(when: Value, title: Value, createdAt: string)

  /** `serverMemory` */
  datatype State = State(conversation: seq<Turn>, remembered: seq<Note>, schedule: seq<Appointment>)

  /** The lists when the server starts. */
  const Initial: State := State([], [], [])

  /**
   The state after a request, and the response sent; or `Crashed` when the
   handler's promise rejects outside any `try`. Express 4 does not catch
   that rejection, and Node (15 and later, by default) ends the process on
   it: no response is sent and the three in-memory lists are gone.
   */
  datatype Outcome =
    | Outcome(state: State, response: Response)
    | Crashed

  function NoteValue(n: Note): Value {
    Obj(map["text" := n.text, "createdAt" := Str(n.createdAt)])
  }

  function AppointmentValue(a: Appointment): Value {
    Obj(map["when" := a.when, "title" := a.title, "createdAt" := Str(a.createdAt)])
  }

  /** The canned reply to `message`, which repeats it between quotes; building it throws when `message` cannot be printed. */
  function EchoReply(message: Value): (r: string)
    requires !PrintThrows(message)
    ensures StartsWith(r, Texts.EchoOpen)
    ensures Contains(r, "\"" + ToStr(message) + "\"")
  {
    var open := Texts.EchoOpen[..|Texts.EchoOpen| - 1];
    var rest := Texts.EchoClose[1..];
    var r := Texts.EchoOpen + ToStr(message) + Texts.EchoClose;
    assert Texts.EchoOpen == open + "\"";
    assert Texts.EchoClose == "\"" + rest;
    assert r == open + ("\"" + ToStr(message) + "\"") + rest;
    ContainsInfix(open, "\"" + ToStr(message) + "\"", rest);
    assert r[..|Texts.EchoOpen|] == Texts.EchoOpen;
    r
  }

  /**
   `POST /api/chat`: 400 without a truthy `message`; otherwise the user turn
   is appended; then the assistant's canned reply is appended and returned,
   unless printing the message throws, which the `catch` answers with a 500
   and the user turn alone stays.
   */
  function ApiChat(s: State, body: Value): (r: Outcome)
    ensures r.Outcome?
    ensures !Truthy(Get(body, "message")) ==> r == Outcome(s, BadRequest(Texts.NoMessage))
    ensures Truthy(Get(body, "message")) && PrintThrows(Get(body, "message")) ==>
      r == Outcome(s.(conversation := s.conversation + [Turn("user", Get(body, "message"))]),
                   Json(500, map["error" := Str(Texts.ChatServerError)]))
    ensures Truthy(Get(body, "message")) && !PrintThrows(Get(body, "message")) ==>
      var c := r.state.conversation; var n := |s.conversation|;
      && r.response.status == 200
      && |c| == n + 2 && c[..n] == s.conversation
      && c[n] == Turn("user", Get(body, "message"))
      && c[n + 1].role == "assistant"
      && Get(r.response.body, "reply") == c[n + 1].content
      && c[n + 1].content.Str? && Contains(c[n + 1].content.s, "\"" + ToStr(Get(body, "message")) + "\"")
      && r.state.remembered == s.remembered && r.state.schedule == s.schedule
  {
    var message := Get(body, "message");
    if !Truthy(message) then Outcome(s, BadRequest(Texts.NoMessage))
    else if PrintThrows(message) then
      Outcome(s.(conversation := s.conversation + [Turn("user", message)]),
              Json(500, map["error" := Str(Texts.ChatServerError)]))
    else
      var reply := EchoReply(message);
      var s' := s.(conversation := s.conversation + [Turn("user", message), Turn("assistant", Str(reply))]);
      Outcome(s', Json(200, map["reply" := Str(reply)]))
  }

  /**
   A message such as `{"toString": 1}` is stored as the user's turn, but
   printing it into the reply throws: the answer is a 500 and no assistant
   turn follows.
   */
  lemma UnprintableMessageStoredAlone(s: State)
    ensures var body := Obj(map["message" := Obj(map["toString" := Num(1)])]);
      var r := ApiChat(s, body);
      && r.response == Json(500, map["error" := Str(Texts.ChatServerError)])
      && r.state.conversation == s.conversation + [Turn("user", Get(body, "message"))]
  {
    var body := Obj(map["message" := Obj(map["toString" := Num(1)])]);
    assert PrintThrows(Get(body, "message"));
  }

  /** `POST /api/image`: 400 without a prompt, else always the placeholder image; no list changes. */
  function ApiImage(s: State, body: Value): (r: Outcome)
    ensures r.Outcome? && r.state == s
    ensures r.response.status == 400 <==> !Truthy(Get(body, "prompt"))
    ensures Truthy(Get(body, "prompt")) ==>
      r.response.status == 200 && Get(r.response.body, "imageUrl") == Str(Texts.PlaceholderUrl)
  {
    if !Truthy(Get(body, "prompt")) then Outcome(s, BadRequest(Texts.NoPrompt))
    else Outcome(s, Json(200, map["imageUrl" := Str(Texts.PlaceholderUrl)]))
  }

  /** The two canned results for a query; building them throws when `query` cannot be printed. */
  function PretendResults(query: Value): (r: seq<string>)
    requires !PrintThrows(query)
    ensures |r| == 2
    ensures forall i :: 0 <= i < 2 ==> Contains(r[i], ToStr(query))
  {
    var q := ToStr(query);
    ContainsInfix(Texts.PretendResult, q, "");
    ContainsInfix(Texts.AnotherResult, q, "");
    assert Texts.PretendResult + q + "" == Texts.PretendResult + q;
    assert Texts.AnotherResult + q + "" == Texts.AnotherResult + q;
    [Texts.PretendResult + q, Texts.AnotherResult + q]
  }

  /**
   `POST /api/search`: 400 without a query, else exactly two results, each
   naming the query; the process ends when the query cannot be printed,
   since nothing catches that throw. No list changes.
   */
  function ApiSearch(s: State, body: Value): (r: Outcome)
    ensures r.Outcome? ==> r.state == s
    ensures !Truthy(Get(body, "query")) ==> r == Outcome(s, BadRequest(Texts.NoQuery))
    ensures r.Crashed? <==> Truthy(Get(body, "query")) && PrintThrows(Get(body, "query"))
    ensures Truthy(Get(body, "query")) && !PrintThrows(Get(body, "query")) ==> r.Outcome?
    ensures Truthy(Get(body, "query")) && !PrintThrows(Get(body, "query")) ==>
      var results := Get(r.response.body, "results");
      && r.response.status == 200
      && results.Arr? && |results.elems| == 2
      && forall i :: 0 <= i < 2 ==>
           results.elems[i].Str? && Contains(results.elems[i].s, ToStr(Get(body, "query")))
  {
    var query := Get(body, "query");
    if !Truthy(query) then Outcome(s, BadRequest(Texts.NoQuery))
    else if PrintThrows(query) then Crashed
    else Outcome(s, Json(200, map["results" := Strings(PretendResults(query))]))
  }

  /**
   `POST /api/remember`: 400 without text; otherwise exactly one
   `{ text, createdAt: now }` is appended and returned as `item`.
   */
  function ApiRemember(s: State, body: Value, now: string): (r: Outcome)
    ensures r.Outcome?
    ensures !Truthy(Get(body, "text")) ==> r == Outcome(s, BadRequest(Texts.NoText))
    ensures Truthy(Get(body, "text")) ==>
      && r.response.status == 200
      && r.state.remembered == s.remembered + [Note(Get(body, "text"), now)]
      && Get(r.response.body, "ok") == Bool(true)
      && Get(r.response.body, "item") == NoteValue(Note(Get(body, "text"), now))
      && r.state.conversation == s.conversation && r.state.schedule == s.schedule
  {
    var text := Get(body, "text");
    if !Truthy(text) then Outcome(s, BadRequest(Texts.NoText))
    else
      var item := Note(text, now);
      Outcome(s.(remembered := s.remembered + [item]),
              Json(200, map["ok" := Bool(true), "item" := NoteValue(item)]))
  }

  /**
   `POST /api/schedule`: 400 unless both `when` and `title` are truthy;
   otherwise exactly one `{ when, title, createdAt: now }` is appended and returned.
   */
  function ApiSchedule(s: State, body: Value, now: string): (r: Outcome)
    ensures r.Outcome?
    ensures r.response.status == 400 <==> !Truthy(Get(body, "when")) || !Truthy(Get(body, "title"))
    ensures r.response.status == 400 ==> r == Outcome(s, BadRequest(Texts.MissingWhenOrTitle))
    ensures r.response.status != 400 ==>
      var item := Appointment(Get(body, "when"), Get(body, "title"), now);
      && r.response.status == 200
      && r.state.schedule == s.schedule + [item]
      && Get(r.response.body, "ok") == Bool(true)
      && Get(r.response.body, "item") == AppointmentValue(item)
      && r.state.conversation == s.conversation && r.state.remembered == s.remembered
  {
    var when := Get(body, "when");
    var title := Get(body, "title");
    if !Truthy(when) || !Truthy(title) then Outcome(s, BadRequest(Texts.MissingWhenOrTitle))
    else
      var item := Appointment(when, title, now);
      Outcome(s.(schedule := s.schedule + [item]),
              Json(200, map["ok" := Bool(true), "item" := AppointmentValue(item)]))
  }

  /** A request to one of the `/api/...` handlers, with the clock reading for those that stamp. */
  datatype Request =
    | ChatReq(body: Value)
    | ImageReq(body: Value)
    | SearchReq(body: Value)
    | RememberReq(body: Value, now: string)
    | ScheduleReq(body: Value, now: string)

  function Handle(s: State, req: Request): Outcome {
    match req
    case ChatReq(b) => ApiChat(s, b)
    case ImageReq(b) => ApiImage(s, b)
    case SearchReq(b) => ApiSearch(s, b)
    case RememberReq(b, now) => ApiRemember(s, b, now)
    case ScheduleReq(b, now) => ApiSchedule(s, b, now)
  }

  /** `req` ends the server process, whatever the lists hold. */
  predicate Crashes(req: Request) {
    req.SearchReq? && Truthy(Get(req.body, "query")) && PrintThrows(Get(req.body, "query"))
  }

  /** Only the search handler can end the process, and only on a query it cannot print. */
  lemma HandleCrashesExactly(s: State, req: Request)
    ensures Handle(s, req).Crashed? <==> Crashes(req)
  {
  }

  /**
   The lists after serving `reqs` in order, or `None` once a request has
   ended the process: no later request is served and the lists are lost.
   */
  function Run(s: State, reqs: seq<Request>): Option<State>
    decreases |reqs|
  {
    if |reqs| == 0 then Some(s)
    else
      match Handle(s, reqs[0])
      case Crashed => None
      case Outcome(t, _) => Run(t, reqs[1..])
  }

  /** A run is cut short exactly when one of its requests ends the process. */
  lemma {:induction false} RunStopsAtCrash(s: State, reqs: seq<Request>)
    ensures Run(s, reqs).None? <==> exists i :: 0 <= i < |reqs| && Crashes(reqs[i])
    decreases |reqs|
  {
    if |reqs| > 0 {
      HandleCrashesExactly(s, reqs[0]);
      if !Crashes(reqs[0]) {
        RunStopsAtCrash(Handle(s, reqs[0]).state, reqs[1..]);
        if exists i :: 0 <= i < |reqs| && Crashes(reqs[i]) {
          var i :| 0 <= i < |reqs| && Crashes(reqs[i]);
          assert Crashes(reqs[1..][i - 1]);
        }
        forall i | 0 <= i < |reqs| - 1 && Crashes(reqs[1..][i])
          ensures Crashes(reqs[i + 1])
        {
        }
      }
    }
  }

  /** `t` only added to the lists of `s`: every list of `s` is a prefix of the same list of `t`. */
  ghost predicate Extends(s: State, t: State) {
    && s.conversation <= t.conversation
    && s.remembered <= t.remembered
    && s.schedule <= t.schedule
  }

  /** Every handler only appends: no record is ever removed or edited. */
  lemma HandleExtends(s: State, req: Request)
    ensures Handle(s, req).Outcome? ==> Extends(s, Handle(s, req).state)
  {
  }

  /** Any sequence of requests the process survives only appends to the lists. */
  lemma {:induction false} RunExtends(s: State, reqs: seq<Request>)
    ensures Run(s, reqs).Some? ==> Extends(s, Run(s, reqs).value)
    decreases |reqs|
  {
    if |reqs| > 0 && Handle(s, reqs[0]).Outcome? {
      var s1 := Handle(s, reqs[0]).state;
      HandleExtends(s, reqs[0]);
      RunExtends(s1, reqs[1..]);
    }
  }

  /** The number of chat requests in `reqs` that carry a truthy message. */
  function AcceptedChats(reqs: seq<Request>): nat
    decreases |reqs|
  {
    if |reqs| == 0 then 0
    else (if reqs[0].ChatReq? && Truthy(Get(reqs[0].body, "message")) then 1 else 0) + AcceptedChats(reqs[1..])
  }

  /** The number of those accepted chats whose message cannot be printed. */
  function UnprintableChats(reqs: seq<Request>): (r: nat)
    ensures r <= AcceptedChats(reqs)
    decreases |reqs|
  {
    if |reqs| == 0 then 0
    else
      var m := if reqs[0].ChatReq? then Get(reqs[0].body, "message") else Undefined;
      (if Truthy(m) && PrintThrows(m) then 1 else 0) + UnprintableChats(reqs[1..])
  }

  /**
   While the process survives, the conversation grows by exactly two turns
   per accepted chat, less the reply turn of each chat whose message cannot
   be printed, and by nothing else.
   */
  lemma {:induction false} ConversationCountsChats(s: State, reqs: seq<Request>)
    ensures Run(s, reqs).Some? ==>
      |Run(s, reqs).value.conversation| == |s.conversation| + 2 * AcceptedChats(reqs) - UnprintableChats(reqs)
    decreases |reqs|
  {
    if |reqs| > 0 && Handle(s, reqs[0]).Outcome? {
      ConversationCountsChats(Handle(s, reqs[0]).state, reqs[1..]);
    }
  }
}
