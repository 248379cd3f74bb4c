/**
 The two browser scripts talking to the server.js handlers: each lemma
 takes a `fetch` that a handler answers, delivered over HTTP, and states
 what the user then sees and what the server then holds.
 */
module Wiring {
  import opened Options
  import opened JsString
  import opened JsValue
  import opened Http
  import Texts
  import Ledger
  import Widget
  import MiniClient

  /** `post` is answered by the server.js handler for `/api/chat` in state `s`. */
  ghost predicate ServesChat(s: Ledger.State, post: Value -> Fetched) {
    forall b :: post(b) == Deliver(Ledger.ApiChat(s, b).response)
  }

  /** `post` is answered by the handler for `/api/image`. */
  ghost predicate ServesImage(s: Ledger.State, post: Value -> Fetched) {
    forall b :: post(b) == Deliver(Ledger.ApiImage(s, b).response)
  }

  /** `post` is answered by the handler for `/api/search` whenever that handler answers at all. */
  ghost predicate ServesSearch(s: Ledger.State, post: Value -> Fetched) {
    forall b :: Ledger.ApiSearch(s, b).Outcome? ==> post(b) == Deliver(Ledger.ApiSearch(s, b).response)
  }

  /** `post` is answered by the handler for `/api/schedule`, whose clock reads `now`. */
  ghost predicate ServesSchedule(s: Ledger.State, now: string, post: Value -> Fetched) {
    forall b :: post(b) == Deliver(Ledger.ApiSchedule(s, b, now).response)
  }

  /** What the browser gets from the handler for `/api/chat` when it posts `b`. */
  function ChatFetch(s: Ledger.State, b: Value): Fetched {
    Deliver(Ledger.ApiChat(s, b).response)
  }

  function ImageFetch(s: Ledger.State, b: Value): Fetched {
    Deliver(Ledger.ApiImage(s, b).response)
  }

  /** A request that ends the server process is never answered, so `fetch` rejects. */
  function SearchFetch(s: Ledger.State, b: Value): Fetched {
    match Ledger.ApiSearch(s, b)
    case Outcome(_, r) => Deliver(r)
    case Crashed => Unreachable
  }

  function ScheduleFetch(s: Ledger.State, now: string, b: Value): Fetched {
    Deliver(Ledger.ApiSchedule(s, b, now).response)
  }

  /** Every handler, in every state, is such a `fetch`. */
  lemma ChatHandlerServes(s: Ledger.State)
    ensures ServesChat(s, b => ChatFetch(s, b))
  {
  }

  lemma ImageHandlerServes(s: Ledger.State)
    ensures ServesImage(s, b => ImageFetch(s, b))
  {
  }

  lemma SearchHandlerServes(s: Ledger.State)
    ensures ServesSearch(s, b => SearchFetch(s, b))
  {
  }

  lemma ScheduleHandlerServes(s: Ledger.State, now: string)
    ensures ServesSchedule(s, now, b => ScheduleFetch(s, now, b))
  {
  }

  // ---------- chat ----------

  /** The assistant turn the chat handler stores for an accepted message. */
  function StoredReply(s: Ledger.State, body: Value): Value
    requires Truthy(Get(body, "message")) && !PrintThrows(Get(body, "message"))
  {
    Ledger.ApiChat(s, body).state.conversation[|s.conversation| + 1].content
  }

  /** The chat handler answers an accepted message with the stored reply, which is text starting with "I". */
  lemma ChatAnswered(s: Ledger.State, body: Value, post: Value -> Fetched)
    requires Truthy(Get(body, "message")) && !PrintThrows(Get(body, "message")) && ServesChat(s, post)
    ensures post(body) == Answered(true, Some(Obj(map["reply" := StoredReply(s, body)])))
    ensures StoredReply(s, body).Str? && |StoredReply(s, body).s| > 0 && StoredReply(s, body).s[0] == 'I'
  {
    assert Texts.EchoOpen[0] == 'I';
  }

  /** The widget takes a non-empty `reply` string as the reply. */
  lemma ReplyFound(v: Value)
    requires v.Str? && v.s != ""
    ensures Widget.FoundReply(Answered(true, Some(Obj(map["reply" := v])))) == Some(v)
  {
    assert Widget.ReplyOf(Obj(map["reply" := v])) == v;
  }

  /** The small client shows a `reply` string that does not start with "h" as a text message. */
  lemma ReplyShownAsText(v: Value)
    requires v.Str? && |v.s| > 0 && v.s[0] != 'h'
    ensures MiniClient.Answer(Answered(true, Some(Obj(map["reply" := v])))) ==
      MiniClient.Message("bot", None, MiniClient.Text(v.s))
  {
    assert Get(Obj(map["reply" := v]), "error") == Undefined;
    MiniClient.PlainText(v.s, "bot");
  }

  /** Whatever `fetch` is, a found reply ends the widget's list with the user entry and that reply. */
  lemma WidgetStoresReply(p: Widget.Page, text: string, post: Value -> Fetched, reply: Value)
    requires !Blank(text)
    requires Widget.FoundReply(post(Widget.ChatRequest(text))) == Some(reply)
    ensures var r := Widget.SendMessage(p, text, post);
      && |r.memory| == |p.memory| + 2
      && r.memory[|p.memory|] == Widget.Entry("user", Str(text))
      && r.memory[|p.memory| + 1] == Widget.Entry("assistant", reply)
      && r.bubbles[|r.bubbles| - 1] == Widget.BotSays(ToStr(reply))
  {
    var r := Widget.SendMessage(p, text, post);
    assert r.memory[..|p.memory| + 1][|p.memory|] == r.memory[|p.memory|];
  }

  /** The widget's request is accepted, and the server stores the user turn and then its reply. */
  lemma WidgetRequestStored(s: Ledger.State, text: string)
    requires !Blank(text)
    ensures var body := Widget.ChatRequest(text);
      && Truthy(Get(body, "message"))
      && Ledger.ApiChat(s, body).state.conversation[|s.conversation|..] ==
           [Ledger.Turn("user", Str(text)), Ledger.Turn("assistant", StoredReply(s, body))]
  {
    var body := Widget.ChatRequest(text);
    assert Get(body, "message") == Str(text);
  }

  /**
   Public/script.js chatting with server.js: the widget's local list gains
   the same two turns, user then assistant, that the server appends to its
   conversation, and the last bubble is the server's reply.
   */
  lemma WidgetMirrorsServerConversation(s: Ledger.State, p: Widget.Page, text: string, post: Value -> Fetched)
    requires !Blank(text) && ServesChat(s, post)
    ensures var served := Ledger.ApiChat(s, Widget.ChatRequest(text));
      var r := Widget.SendMessage(p, text, post);
      var turns := served.state.conversation[|s.conversation|..];
      && |r.memory| == |p.memory| + 2 && |turns| == 2
      && r.memory[|p.memory|] == Widget.Entry(turns[0].role, turns[0].content)
      && r.memory[|p.memory| + 1] == Widget.Entry(turns[1].role, turns[1].content)
      && r.bubbles[|r.bubbles| - 1] == Widget.BotSays(ToStr(turns[1].content))
  {
    var body := Widget.ChatRequest(text);
    WidgetRequestStored(s, text);
    var reply := StoredReply(s, body);
    ChatAnswered(s, body, post);
    ReplyFound(reply);
    WidgetStoresReply(p, text, post, reply);
  }

  /**
   public/script.js chatting with server.js: the thinking indicator is
   replaced by one text message, the server's echo, which quotes the prompt.
   */
  lemma MiniChatWithServer(s: Ledger.State, c: MiniClient.Client, prompt: string, session: string,
                           post: Value -> Fetched)
    requires prompt != "" && ServesChat(s, post)
    requires !Contains(MiniClient.MessageText(MiniClient.UserMessage(prompt)), Texts.ThinkingWord)
    ensures var r := MiniClient.SendText(c, prompt, session, post);
      var last := r.messages[|r.messages| - 1].content;
      && |r.messages| == |c.messages| + 2
      && last.Text? && Contains(last.text, "\"" + prompt + "\"")
  {
    var body := MiniClient.ChatBody(prompt, session, c.rememberEnabled);
    assert Get(body, "message") == Str(prompt);
    MiniClient.SendTextAnswersOnce(c, prompt, session, post);
    ChatAnswered(s, body, post);
    ReplyShownAsText(StoredReply(s, body));
  }

  // ---------- search ----------

  /** The handler's response to a query, before delivery. */
  lemma SearchResponse(s: Ledger.State, query: string)
    requires query != ""
    ensures Ledger.ApiSearch(s, Obj(map["query" := Str(query)])).response ==
      Json(200, map["results" := Strings(Ledger.PretendResults(Str(query)))])
  {
    var body := Obj(map["query" := Str(query)]);
    assert Get(body, "query") == Str(query);
  }

  /** The widget reads an ok answer's `results` list as the results. */
  lemma ResultsRead(v: Value)
    requires v.Arr?
    ensures var f := Answered(true, Some(Obj(map["results" := v])));
      && f.Answered? && f.ok && f.body.Some? && Truthy(f.body.value)
      && Widget.ResultsOf(f.body.value) == v
  {
  }

  /** The link bubbles for the server's results. */
  lemma ResultsShown(s: Ledger.State, query: string, post: Value -> Fetched, stringify: Value -> string)
    requires query != "" && ServesSearch(s, post)
    ensures var ss := Ledger.PretendResults(Str(query));
      Widget.SearchBubbles(post(Obj(map["query" := Str(query)])), stringify) ==
        [Widget.BotSays(Texts.LinkMark + ss[0]), Widget.BotSays(Texts.LinkMark + ss[1])]
  {
    var ss := Ledger.PretendResults(Str(query));
    SearchResponse(s, query);
    ResultsRead(Strings(ss));
    Widget.StringResultsShownAsIs(post(Obj(map["query" := Str(query)])), ss, stringify);
  }

  /** A link line for a result naming the query names the query too. */
  lemma LinkLineNamesQuery(result: string, query: string)
    requires Contains(result, query)
    ensures StartsWith(Texts.LinkMark + result, Texts.LinkMark) && Contains(Texts.LinkMark + result, query)
  {
    assert (Texts.LinkMark + result)[..|Texts.LinkMark|] == Texts.LinkMark;
    ContainsAfter(Texts.LinkMark, result, query);
  }

  /** Whatever `fetch` is, two link bubbles for results naming the query end the page after the announcement. */
  lemma LinksShown(p: Widget.Page, query: string, post: Value -> Fetched, stringify: Value -> string, a: string, b: string)
    requires Contains(a, query) && Contains(b, query)
    requires Widget.SearchBubbles(post(Obj(map["query" := Str(query)])), stringify) ==
      [Widget.BotSays(Texts.LinkMark + a), Widget.BotSays(Texts.LinkMark + b)]
    ensures var r := Widget.SearchWeb(p, query, post, stringify);
      var shown := r.bubbles[|p.bubbles| + 1..];
      && |shown| == 2
      && StartsWith(shown[0].text, Texts.LinkMark) && Contains(shown[0].text, query)
      && StartsWith(shown[1].text, Texts.LinkMark) && Contains(shown[1].text, query)
  {
    LinkLineNamesQuery(a, query);
    LinkLineNamesQuery(b, query);
  }

  /**
   Public/script.js searching through server.js: the announcement, then
   exactly the two canned results as link lines, each naming the query.
   */
  lemma WidgetShowsBothServerResults(s: Ledger.State, p: Widget.Page, query: string,
                                     post: Value -> Fetched, stringify: Value -> string)
    requires query != "" && ServesSearch(s, post)
    ensures var r := Widget.SearchWeb(p, query, post, stringify);
      var shown := r.bubbles[|p.bubbles| + 1..];
      && |shown| == 2
      && StartsWith(shown[0].text, Texts.LinkMark) && Contains(shown[0].text, query)
      && StartsWith(shown[1].text, Texts.LinkMark) && Contains(shown[1].text, query)
  {
    var ss := Ledger.PretendResults(Str(query));
    ResultsShown(s, query, post, stringify);
    LinksShown(p, query, post, stringify, ss[0], ss[1]);
  }

  // ---------- image ----------

  /** The image handler answers any prompt with the placeholder URL. */
  lemma ImageAnswered(s: Ledger.State, body: Value, post: Value -> Fetched)
    requires Truthy(Get(body, "prompt")) && ServesImage(s, post)
    ensures post(body) == Answered(true, Some(Obj(map["imageUrl" := Str(Texts.PlaceholderUrl)])))
  {
  }

  /** The widget takes a truthy `imageUrl` as the image to show. */
  lemma UrlFound(v: Value)
    requires Truthy(v)
    ensures Widget.FoundImage(Answered(true, Some(Obj(map["imageUrl" := v])))) == Some(v)
  {
  }

  /**
   Public/script.js drawing through server.js: the last bubble carries the
   placeholder URL as its image source; rendered as written it shows
   nothing, rendered with the text set first it shows the placeholder.
   */
  lemma WidgetImageFromServer(s: Ledger.State, p: Widget.Page, prompt: string, post: Value -> Fetched)
    requires prompt != "" && ServesImage(s, post)
    ensures var r := Widget.GenerateImage(p, prompt, post);
      var last := r.bubbles[|r.bubbles| - 1];
      && last.imgSrc == Str(Texts.PlaceholderUrl)
      && Widget.RenderAsWritten(last) == Widget.Shown("bot", "", None)
      && Widget.Render(last) == Widget.Shown("bot", "", Some(Texts.PlaceholderUrl))
  {
    var body := Obj(map["prompt" := Str(prompt)]);
    assert Get(body, "prompt") == Str(prompt);
    ImageAnswered(s, body, post);
    UrlFound(Str(Texts.PlaceholderUrl));
    Widget.GeneratedImageLostAsWritten(p, prompt, post);
    Widget.GeneratedImageShown(p, prompt, post);
  }

  /** The small client shows an `imageUrl` that the image rule rejects as a line of text. */
  lemma UrlShownAsText(u: string)
    requires u != "" && !MiniClient.IsImageText(Str(u))
    ensures MiniClient.ImageAnswer(Obj(map["imageUrl" := Str(u)])).content == MiniClient.Text(u)
  {
  }

  /**
   public/script.js drawing through server.js: the placeholder URL is shown
   as a line of text, not as an image, because the image rule wants an
   extension at the very end.
   */
  lemma MiniImageFromServerIsText(s: Ledger.State, c: MiniClient.Client, prompt: string, session: string,
                                  post: Value -> Fetched)
    requires prompt != "" && ServesImage(s, post)
    ensures var r := MiniClient.ImageItem(c, Some(prompt), session, post);
      r.messages[|r.messages| - 1].content == MiniClient.Text(Texts.PlaceholderUrl)
  {
    var body := MiniClient.ImageBody(prompt, session);
    assert Get(body, "prompt") == Str(prompt);
    ImageAnswered(s, body, post);
    PlaceholderIsNotImageText();
    UrlShownAsText(Texts.PlaceholderUrl);
  }

  /** The placeholder URL ends in a query string, not in an image extension. */
  lemma PlaceholderIsNotImageText()
    ensures !MiniClient.IsImageText(Str(Texts.PlaceholderUrl))
  {
    var u := Texts.PlaceholderUrl;
    assert u[|u| - 1] == 'r';
    NoImageWithoutExtensionLetter(u);
  }

  /** Every listed extension ends in `g`, `f` or `p`, so text ending in another letter is no image. */
  lemma NoImageWithoutExtensionLetter(u: string)
    requires |u| > 0 && LowerChar(u[|u| - 1]) != 'g' && LowerChar(u[|u| - 1]) != 'f' && LowerChar(u[|u| - 1]) != 'p'
    ensures !MiniClient.HasImageExtension(u)
  {
  }

  // ---------- schedule ----------

  /** A body without a title is answered 400 and leaves the lists as they were. */
  lemma UntitledIsRefused(s: Ledger.State, now: string, body: Value)
    requires Get(body, "title") == Undefined
    ensures Ledger.ApiSchedule(s, body, now) == Ledger.Outcome(s, BadRequest(Texts.MissingWhenOrTitle))
  {
  }

  /** The untitled body reaches the browser as the 400 refusal. */
  lemma UntitledServed(s: Ledger.State, now: string, text: string, when: string, session: string,
                       post: Value -> Fetched)
    requires ServesSchedule(s, now, post)
    ensures post(MiniClient.ScheduleBodyAsWritten(session, text, when)) == Deliver(BadRequest(Texts.MissingWhenOrTitle))
  {
    UntitledIsRefused(s, now, MiniClient.ScheduleBodyAsWritten(session, text, when));
  }

  /** The last message of the schedule item as written reads the answer to the untitled body. */
  lemma ScheduleAnswerIsLast(c: MiniClient.Client, text: Option<string>, when: Option<string>, session: string,
                             post: Value -> Fetched)
    requires MiniClient.Given(text) && MiniClient.Given(when)
    ensures var r := MiniClient.ScheduleAsWritten(c, text, when, session, post);
      r.messages[|r.messages| - 1] ==
        MiniClient.ScheduleAnswer(post(MiniClient.ScheduleBodyAsWritten(session, text.value, when.value)), text.value, when.value)
  {
  }

  /** The schedule item as written ends with the reading of the refusal. */
  lemma RefusalIsLast(s: Ledger.State, now: string, c: MiniClient.Client,
                      text: Option<string>, when: Option<string>, session: string, post: Value -> Fetched)
    requires MiniClient.Given(text) && MiniClient.Given(when) && ServesSchedule(s, now, post)
    ensures var r := MiniClient.ScheduleAsWritten(c, text, when, session, post);
      r.messages[|r.messages| - 1] ==
        MiniClient.ScheduleAnswer(Deliver(BadRequest(Texts.MissingWhenOrTitle)), text.value, when.value)
  {
    ScheduleAnswerIsLast(c, text, when, session, post);
    UntitledServed(s, now, text.value, when.value, session, post);
  }

  /** The message shown for the 400 of `/api/schedule` quotes its error. */
  lemma RefusalReads(text: string, when: string)
    ensures MiniClient.ScheduleAnswer(Deliver(BadRequest(Texts.MissingWhenOrTitle)), text, when) ==
      MiniClient.BotText(Texts.CouldNotSchedule + Texts.MissingWhenOrTitle)
  {
    var j := Obj(map["error" := Str(Texts.MissingWhenOrTitle)]);
    assert Get(j, "error") == Str(Texts.MissingWhenOrTitle);
  }

  /**
   public/script.js scheduling as written against server.js: the body has
   no `title`, so every schedule request is refused with 400, nothing is
   stored, and the user always reads "Could not schedule".
   */
  lemma ScheduleAlwaysRefused(s: Ledger.State, now: string, c: MiniClient.Client,
                              text: Option<string>, when: Option<string>, session: string,
                              post: Value -> Fetched)
    requires MiniClient.Given(text) && MiniClient.Given(when) && ServesSchedule(s, now, post)
    ensures var body := MiniClient.ScheduleBodyAsWritten(session, text.value, when.value);
      Ledger.ApiSchedule(s, body, now).state == s
    ensures var r := MiniClient.ScheduleAsWritten(c, text, when, session, post);
      r.messages[|r.messages| - 1] ==
        MiniClient.BotText(Texts.CouldNotSchedule + Texts.MissingWhenOrTitle)
  {
    UntitledIsRefused(s, now, MiniClient.ScheduleBodyAsWritten(session, text.value, when.value));
    RefusalIsLast(s, now, c, text, when, session, post);
    RefusalReads(text.value, when.value);
  }

  /** A body with a truthy `when` and `title` gets `ok: true` and is stored as one appointment. */
  lemma TitledStored(s: Ledger.State, now: string, body: Value)
    requires Truthy(Get(body, "when")) && Truthy(Get(body, "title"))
    ensures var out := Ledger.ApiSchedule(s, body, now);
      && out.state.schedule == s.schedule + [Ledger.Appointment(Get(body, "when"), Get(body, "title"), now)]
      && out.response.body.Obj? && Get(out.response.body, "ok") == Bool(true)
  {
  }

  /** Any answer whose JSON says `ok: true` reads "Scheduled" with the title and time. */
  lemma AcceptanceReads(f: Fetched, text: string, when: string)
    requires f.Answered? && f.body.Some? && Get(f.body.value, "ok") == Bool(true)
    ensures MiniClient.ScheduleAnswer(f, text, when) ==
      MiniClient.BotText(Texts.Scheduled + text + Texts.ScheduledSep + when)
  {
  }

  /**
   With the typed text sent as the title, scheduling reaches the server:
   exactly one appointment is stored and the user reads "Scheduled".
   */
  lemma ScheduleWithTitleStored(s: Ledger.State, now: string, c: MiniClient.Client,
                                text: Option<string>, when: Option<string>, session: string,
                                post: Value -> Fetched)
    requires MiniClient.Given(text) && MiniClient.Given(when) && ServesSchedule(s, now, post)
    ensures var body := MiniClient.ScheduleBody(session, text.value, when.value);
      Ledger.ApiSchedule(s, body, now).state.schedule ==
        s.schedule + [Ledger.Appointment(Str(when.value), Str(text.value), now)]
    ensures var r := MiniClient.Schedule(c, text, when, session, post);
      r.messages[|r.messages| - 1] ==
        MiniClient.BotText(Texts.Scheduled + text.value + Texts.ScheduledSep + when.value)
  {
    var body := MiniClient.ScheduleBody(session, text.value, when.value);
    TitledStored(s, now, body);
    AcceptanceReads(post(body), text.value, when.value);
  }
}
