/**
 The small client of public/script.js: the message list it builds, the
 image-versus-text rule of `addMessage`, how `sendText` maps the answer of
 `/api/chat` to one message, the remember toggle, and the schedule, search
 and image items of the menu. `fetch` is a parameter from the request body
 to what comes back; the session id is a parameter.
 */
module MiniClient {
  import opened Options
  import opened JsString
  import opened JsValue
  import opened Http
  import Texts

  /** What a message shows below its caption: an image, or a text block. */
  datatype Content = Image(src: string) | Text(text: string)

  /** A `div.msg`: its class (`user` or `bot`), the optional caption, and the content. */
  datatype Message = Message(cls: string, caption: Option<string>, content: Content)

  /** The extensions the image pattern accepts, in lower case. */
  const ImageExtensions: seq<string> := ["jpeg", "jpg", "gif", "png", "webp"]

  /** `/\.(jpeg|jpg|gif|png|webp)$/i`: the text ends, in any ASCII case, with a dot and one of the alternatives. */
  predicate HasImageExtension(s: string) {
    exists e :: e in ImageExtensions && EndsWithIgnoreCase(s, "." + e)
  }

  /** `typeof text === 'string' && text.startsWith('http') && text.match(...)`: text that is shown as an image. */
  predicate IsImageText(v: Value) {
    v.Str? && StartsWith(v.s, "http") && HasImageExtension(v.s)
  }

  /** The image rule read character by character: a dot, then a listed extension once lower-cased, end the text. */
  ghost predicate EndsInListedExtension(s: string) {
    exists e :: e in ImageExtensions && |e| < |s| && s[|s| - |e| - 1] == '.' && AsciiLower(s[|s| - |e|..]) == e
  }

  /** The pattern match is exactly "a dot and a listed extension end the text". */
  lemma ImageExtensionMeansListed(s: string)
    ensures HasImageExtension(s) <==> EndsInListedExtension(s)
  {
    if HasImageExtension(s) {
      var e :| e in ImageExtensions && EndsWithIgnoreCase(s, "." + e);
      DotSuffix(s, e);
    }
    if EndsInListedExtension(s) {
      var e :| e in ImageExtensions && |e| < |s| && s[|s| - |e| - 1] == '.' && AsciiLower(s[|s| - |e|..]) == e;
      DotSuffix(s, e);
    }
  }

  /** Ending in `.e` ignoring case is ending in a dot followed by `e` ignoring case. */
  lemma DotSuffix(s: string, e: string)
    ensures EndsWithIgnoreCase(s, "." + e) <==> (|e| < |s| && s[|s| - |e| - 1] == '.' && AsciiLower(s[|s| - |e|..]) == e)
  {
    if |e| < |s| {
      var c := s[|s| - |e| - 1];
      var u := s[|s| - |e|..];
      var lt := AsciiLower(s[|s| - |e| - 1..]);
      assert lt[0] == LowerChar(c);
      assert lt[1..] == AsciiLower(u);
      assert "." + e == ['.'] + e;
      assert EndsWithIgnoreCase(s, "." + e) <==> lt == ['.'] + e;
      ConsEquals(lt, '.', e);
      assert LowerChar(c) == '.' <==> c == '.';
    } else {
      assert !EndsWithIgnoreCase(s, "." + e);
    }
  }

  /** A non-empty text equals `[x] + e` exactly when its head is `x` and its tail is `e`. */
  lemma ConsEquals(t: string, x: char, e: string)
    requires |t| > 0
    ensures t == [x] + e <==> t[0] == x && t[1..] == e
  {
    if t[0] == x && t[1..] == e {
      assert t == [t[0]] + t[1..];
    }
  }

  /** `textContent = v`: `null` and `undefined` give "", anything else `String(v)`. */
  function TextContent(v: Value): string {
    if IsNullish(v) then "" else ToStr(v)
  }

  /**
   `addMessage(text, who, caption)`: the class is `user` only for `user`; a
   caption element exists only for a non-empty caption; the text becomes an
   image exactly when it is an image URL, and a text block otherwise.
   */
  function AddMessage(text: Value, who: string, caption: string): (m: Message)
    ensures m.cls == "user" <==> who == "user"
    ensures m.cls == "user" || m.cls == "bot"
    ensures m.caption.Some? <==> caption != ""
    ensures m.caption.Some? ==> m.caption.value == caption
    ensures m.content.Image? <==> IsImageText(text)
    ensures m.content.Image? ==> m.content.src == text.s
    ensures m.content.Text? ==> m.content.text == TextContent(text)
  {
    Message(if who == "user" then "user" else "bot",
            if caption != "" then Some(caption) else None,
            if IsImageText(text) then Image(text.s) else Text(TextContent(text)))
  }

  /** A bot message showing `s`. */
  function BotText(s: string): Message {
    AddMessage(Str(s), "bot", "")
  }

  /** Text that does not begin with "h" is never taken for an image URL. */
  lemma PlainText(s: string, who: string)
    requires |s| > 0 && s[0] != 'h'
    ensures AddMessage(Str(s), who, "").content == Text(s)
  {
  }

  /** The message's `textContent`: the caption followed by the text block (an image adds nothing). */
  function MessageText(m: Message): string {
    m.caption.GetOr("") + (match m.content case Text(t) => t case Image(_) => "")
  }

  /** `if (last && last.textContent && last.textContent.includes(word)) last.remove()` */
  function DropLastIf(ms: seq<Message>, word: string): (r: seq<Message>)
    ensures r == ms || (|ms| > 0 && r == ms[..|ms| - 1] && Contains(MessageText(ms[|ms| - 1]), word))
    ensures |ms| > 0 && MessageText(ms[|ms| - 1]) != "" && Contains(MessageText(ms[|ms| - 1]), word) ==> r == ms[..|ms| - 1]
  {
    if |ms| > 0 && MessageText(ms[|ms| - 1]) != "" && Contains(MessageText(ms[|ms| - 1]), word) then ms[..|ms| - 1]
    else ms
  }

  /** The message list and the remember flag. */
  datatype Client = Client(messages: seq<Message>, rememberEnabled: bool)

  /** The page once loaded: the welcome message, and the flag read back from storage. */
  function Start(storedRemember: bool): Client {
    Client([BotText(Texts.Welcome)], storedRemember)
  }

  // ---------- sendText ----------

  /** The body `{ message, sessionId, memoryRequested }` posted to `/api/chat`. */
  function ChatBody(text: string, session: string, remember: bool): Value {
    Obj(map["message" := Str(text), "sessionId" := Str(session), "memoryRequested" := Bool(remember)])
  }

  /** The message that ends a `sendText`, in order of precedence. */
  function Verdict(ok: bool, data: Value): (m: Message)
    requires ok ==> !IsNullish(data)
    ensures !ok ==> m == BotText(Texts.OpenAiError)
    ensures ok && Truthy(Get(data, "error")) ==> m == BotText(Texts.WarnPrefix + ToStr(Get(data, "error")))
    ensures ok && !Truthy(Get(data, "error")) ==>
      m == AddMessage(if Truthy(Get(data, "reply")) then Get(data, "reply") else Str(Texts.NoReply), "bot", "")
  {
    if !ok then BotText(Texts.OpenAiError)
    else if Truthy(Get(data, "error")) then BotText(Texts.WarnPrefix + ToStr(Get(data, "error")))
    else AddMessage(Or(Get(data, "reply"), Str(Texts.NoReply)), "bot", "")
  }

  /** The `catch` path: the last message goes if it says "Thinking", then the unreachable notice. */
  function Caught(ms: seq<Message>): seq<Message> {
    DropLastIf(ms, Texts.ThinkingWord) + [BotText(Texts.ServerUnreachable)]
  }

  /** The user's message for a prompt, labelled "You:". */
  function UserMessage(text: string): Message {
    AddMessage(Str(text), "user", Texts.YouLabel)
  }

  /** A fetch of `/api/chat` ends in the `catch` block. */
  predicate Throws(f: Fetched) {
    f.Unreachable? || f.body.None? || (f.ok && IsNullish(f.body.value))
  }

  /** The one message a settled `/api/chat` leaves behind. */
  function Answer(f: Fetched): (m: Message)
    ensures Throws(f) ==> m == BotText(Texts.ServerUnreachable)
    ensures !Throws(f) ==> m == Verdict(f.ok, f.body.value)
  {
    match f
    case Unreachable => BotText(Texts.ServerUnreachable)
    case Answered(_, None) => BotText(Texts.ServerUnreachable)
    case Answered(ok, Some(data)) =>
      if ok && IsNullish(data) then BotText(Texts.ServerUnreachable) else Verdict(ok, data)
  }

  /**
   `sendText(promptText)`: nothing for an empty prompt; otherwise the user's
   message and the thinking indicator, then the answer. A failed fetch, a
   body that is not JSON, and a `null` body (reading `data.error` throws)
   take the `catch` path.
   */
  function SendText(c: Client, promptText: string, session: string, post: Value -> Fetched): (r: Client)
    ensures promptText == "" ==> r == c
    ensures r.rememberEnabled == c.rememberEnabled
  {
    if promptText == "" then c
    else
      var ms := c.messages + [UserMessage(promptText), BotText(Texts.Thinking)];
      c.(messages := Settle(ms, post(ChatBody(promptText, session, c.rememberEnabled))))
  }

  /**
   How the list `ms`, which ends with the user's message and the thinking
   indicator, settles once `/api/chat` answers `f`: the last message goes if
   it says "Thinking", the `catch` path of a `null` body tries once more, and
   then exactly one message is added. Nothing before those two is touched.
   */
  function Settle(ms: seq<Message>, f: Fetched): (r: seq<Message>)
    requires |ms| >= 2
    ensures |r| >= |ms| - 1 && r[..|ms| - 2] == ms[..|ms| - 2]
  {
    match f
    case Unreachable => Caught(ms)
    case Answered(ok, None) => Caught(ms)
    case Answered(ok, Some(data)) =>
      var shown := DropLastIf(ms, Texts.ThinkingWord);
      if ok && IsNullish(data) then
        DropKeepsPrefix(ms, Texts.ThinkingWord, |ms| - 2);
        DropKeepsPrefix(shown, Texts.ThinkingWord, |ms| - 2);
        Caught(shown)
      else shown + [Verdict(ok, data)]
  }

  /** `sendText` never touches the messages that were there before it. */
  lemma SendTextKeepsEarlier(c: Client, promptText: string, session: string, post: Value -> Fetched)
    ensures var r := SendText(c, promptText, session, post);
      |r.messages| >= |c.messages| && r.messages[..|c.messages|] == c.messages
  {
    if promptText != "" {
      var ms := c.messages + [UserMessage(promptText), BotText(Texts.Thinking)];
      assert ms[..|c.messages|] == c.messages;
    }
  }

  /** Removing the last message keeps every message before it. */
  lemma DropKeepsPrefix(ms: seq<Message>, word: string, k: nat)
    requires k < |ms|
    ensures |DropLastIf(ms, word)| >= k && DropLastIf(ms, word)[..k] == ms[..k]
  {
  }

  /**
   Unless the user's own message mentions "Thinking", `sendText` leaves the
   user's message followed by exactly one answer: the indicator is gone.
   */
  lemma SendTextAnswersOnce(c: Client, promptText: string, session: string, post: Value -> Fetched)
    requires promptText != "" && !Contains(MessageText(UserMessage(promptText)), Texts.ThinkingWord)
    ensures SendText(c, promptText, session, post).messages ==
      c.messages + [UserMessage(promptText), Answer(post(ChatBody(promptText, session, c.rememberEnabled)))]
  {
    ThinkingIsDropped(c.messages + [UserMessage(promptText)]);
  }

  /** The thinking indicator is always the message the first removal takes away. */
  lemma ThinkingIsDropped(ms: seq<Message>)
    ensures DropLastIf(ms + [BotText(Texts.Thinking)], Texts.ThinkingWord) == ms
  {
    DropsIndicator(ms, Texts.Thinking, Texts.ThinkingWord, 2);
  }

  /** A last bot message whose text holds `word` at offset `i` is the one removed. */
  lemma DropsIndicator(ms: seq<Message>, t: string, word: string, i: nat)
    requires |t| > 0 && t[0] != 'h'
    requires i + |word| <= |t| && t[i..i + |word|] == word
    ensures DropLastIf(ms + [BotText(t)], word) == ms
  {
    PlainText(t, "bot");
    ContainsAt(t, word, i);
    assert MessageText(BotText(t)) == t;
    assert (ms + [BotText(t)])[..|ms|] == ms;
  }

  /** A non-ok status shows the fixed OpenAI error whatever `error` and `reply` the body carries. */
  lemma StatusOutranksError(data: Value)
    requires !IsNullish(data)
    ensures Answer(Answered(false, Some(data))) == BotText(Texts.OpenAiError)
  {
  }

  /** An ok answer with both `error` and `reply` shows the error, not the reply. */
  lemma ErrorOutranksReply(data: Value)
    requires !IsNullish(data) && Truthy(Get(data, "error")) && Truthy(Get(data, "reply"))
    ensures Answer(Answered(true, Some(data))) == BotText(Texts.WarnPrefix + ToStr(Get(data, "error")))
  {
  }

  // ---------- menu: remember ----------

  function OnOff(b: bool): string {
    if b then Texts.OnWord else Texts.OffWord
  }

  /** The remember item flips the flag and reports the new setting as a user message. */
  function ToggleRemember(c: Client): (r: Client)
    ensures r.rememberEnabled == !c.rememberEnabled
    ensures r.messages == c.messages + [AddMessage(Str(Texts.SelectedRemember + OnOff(r.rememberEnabled)), "user", "")]
  {
    var on := !c.rememberEnabled;
    Client(c.messages + [AddMessage(Str(Texts.SelectedRemember + OnOff(on)), "user", "")], on)
  }

  /** Toggling twice restores the flag, and the two reports name both settings, the new one first. */
  lemma ToggleTwiceRestores(c: Client)
    ensures ToggleRemember(ToggleRemember(c)).rememberEnabled == c.rememberEnabled
    ensures var ms := ToggleRemember(ToggleRemember(c)).messages;
      && |ms| == |c.messages| + 2 && ms[..|c.messages|] == c.messages
      && ms[|c.messages|].content == Text(Texts.SelectedRemember + OnOff(!c.rememberEnabled))
      && ms[|c.messages| + 1].content == Text(Texts.SelectedRemember + OnOff(c.rememberEnabled))
  {
    var ms := ToggleRemember(ToggleRemember(c)).messages;
    assert ms[..|c.messages|] == c.messages;
    PlainText(Texts.SelectedRemember + OnOff(true), "user");
    PlainText(Texts.SelectedRemember + OnOff(false), "user");
  }

  // ---------- menu: schedule ----------

  /** A `prompt()` answer that is truthy: neither cancelled (`None`) nor empty. */
  predicate Given(answer: Option<string>) {
    answer.Some? && answer.value != ""
  }

  /** The body posted to `/api/schedule` as written: `{ sessionId, text, when }`, with no `title`. */
  function ScheduleBodyAsWritten(session: string, text: string, when: string): Value {
    Obj(map["sessionId" := Str(session), "text" := Str(text), "when" := Str(when)])
  }

  /** The body with the typed text also sent as the `title` the server requires. */
  function ScheduleBody(session: string, text: string, when: string): (v: Value)
    ensures Get(v, "title") == Str(text) && Get(v, "when") == Str(when)
  {
    Obj(map["sessionId" := Str(session), "text" := Str(text), "when" := Str(when), "title" := Str(text)])
  }

  /** How the answer of `/api/schedule` reads: `j.ok` wins, then `j.error`; a throw is the unreachable notice. */
  function ScheduleAnswer(f: Fetched, text: string, when: string): (m: Message)
    ensures f.Unreachable? || f.body.None? || IsNullish(f.body.value) ==> m == BotText(Texts.ScheduleFailed)
    ensures f.Answered? && f.body.Some? && !IsNullish(f.body.value) ==>
      var j := f.body.value;
      && (Truthy(Get(j, "ok")) ==> m == BotText(Texts.Scheduled + text + Texts.ScheduledSep + when))
      && (!Truthy(Get(j, "ok")) ==> m == BotText(Texts.CouldNotSchedule + ToStr(Or(Get(j, "error"), Str(Texts.UnknownReason)))))
  {
    match f
    case Answered(_, Some(j)) =>
      if IsNullish(j) then BotText(Texts.ScheduleFailed)
      else if Truthy(Get(j, "ok")) then BotText(Texts.Scheduled + text + Texts.ScheduledSep + when)
      else BotText(Texts.CouldNotSchedule + ToStr(Or(Get(j, "error"), Str(Texts.UnknownReason))))
    case _ => BotText(Texts.ScheduleFailed)
  }

  /** The schedule item, posting `body(text, when)`: both prompts must be answered before anything is shown. */
  function ScheduleWith(c: Client, text: Option<string>, when: Option<string>,
                        body: (string, string) -> Value, post: Value -> Fetched): (r: Client)
    ensures !Given(text) || !Given(when) ==> r == c
    ensures Given(text) && Given(when) ==>
      r == c.(messages := c.messages + [AddMessage(Str(Texts.SelectedSchedule), "user", ""),
                                        ScheduleAnswer(post(body(text.value, when.value)), text.value, when.value)])
  {
    if !Given(text) || !Given(when) then c
    else
      var f := post(body(text.value, when.value));
      c.(messages := c.messages + [AddMessage(Str(Texts.SelectedSchedule), "user", ""),
                                   ScheduleAnswer(f, text.value, when.value)])
  }

  /** The schedule item as written, which never sends a `title`. */
  function ScheduleAsWritten(c: Client, text: Option<string>, when: Option<string>, session: string,
                             post: Value -> Fetched): (r: Client)
    ensures !Given(text) || !Given(when) ==> r == c
    ensures Given(text) && Given(when) ==>
      Get(ScheduleBodyAsWritten(session, text.value, when.value), "title") == Undefined
  {
    ScheduleWith(c, text, when, (t, w) => ScheduleBodyAsWritten(session, t, w), post)
  }

  /** The schedule item sending the typed text as the title. */
  function Schedule(c: Client, text: Option<string>, when: Option<string>, session: string,
                    post: Value -> Fetched): (r: Client)
    ensures !Given(text) || !Given(when) ==> r == c
    ensures Given(text) && Given(when) ==>
      var j := post(ScheduleBody(session, text.value, when.value));
      && |r.messages| == |c.messages| + 2 && r.messages[..|c.messages|] == c.messages
      && r.messages[|c.messages| + 1] == ScheduleAnswer(j, text.value, when.value)
  {
    var r := ScheduleWith(c, text, when, (t, w) => ScheduleBody(session, t, w), post);
    assert Given(text) && Given(when) ==> r.messages[..|c.messages|] == c.messages;
    r
  }

  // ---------- menu: search ----------

  /** How the answer of `/api/search` reads: only the first result, or the fallback when there is none. */
  function SearchAnswer(f: Fetched): (m: Message)
    ensures f.Unreachable? || f.body.None? || IsNullish(f.body.value) ==> m == BotText(Texts.WebSearchFailed)
    ensures f.Answered? && f.body.Some? && !IsNullish(f.body.value) ==>
      var results := Get(f.body.value, "results");
      && (Truthy(results) && Truthy(Get(results, "length")) ==> m == BotText(Texts.AnswerMark + ToStr(At(results, 0))))
      && (!Truthy(results) || !Truthy(Get(results, "length")) ==> m == BotText(Texts.NoInstantAnswer))
  {
    match f
    case Answered(_, Some(j)) =>
      if IsNullish(j) then BotText(Texts.WebSearchFailed)
      else
        var results := Get(j, "results");
        if Truthy(And(results, Get(results, "length"))) then BotText(Texts.AnswerMark + ToStr(At(results, 0)))
        else BotText(Texts.NoInstantAnswer)
    case _ => BotText(Texts.WebSearchFailed)
  }

  /** The search item: a non-empty query is announced, then exactly one message answers it. */
  function Search(c: Client, q: Option<string>, post: Value -> Fetched): (r: Client)
    ensures !Given(q) ==> r == c
    ensures Given(q) ==>
      r == c.(messages := c.messages + [AddMessage(Str(Texts.SearchingWebOpen + q.value + Texts.SearchingWebClose), "user", ""),
                                        SearchAnswer(post(Obj(map["query" := Str(q.value)])))])
  {
    if !Given(q) then c
    else
      var f := post(Obj(map["query" := Str(q.value)]));
      c.(messages := c.messages + [AddMessage(Str(Texts.SearchingWebOpen + q.value + Texts.SearchingWebClose), "user", ""),
                                   SearchAnswer(f)])
  }

  /** An answer listing several results shows the first one only. */
  lemma SearchShowsFirstOnly(ss: seq<string>)
    requires |ss| > 0
    ensures SearchAnswer(Answered(true, Some(Obj(map["results" := Strings(ss)])))) == BotText(Texts.AnswerMark + ss[0])
  {
  }

  // ---------- menu: image ----------

  /** How the answer of `/api/image` reads: `imageUrl` outranks `error`, which outranks the generic failure. */
  function ImageAnswer(j: Value): (m: Message)
    ensures Truthy(j) && Truthy(Get(j, "imageUrl")) ==> m == AddMessage(Get(j, "imageUrl"), "bot", "")
    ensures Truthy(j) && !Truthy(Get(j, "imageUrl")) && Truthy(Get(j, "error")) ==>
      m == BotText(Texts.CouldNotGenerateImage + ToStr(Get(j, "error")))
    ensures !Truthy(Get(j, "imageUrl")) && !Truthy(Get(j, "error")) ==> m == BotText(Texts.ImageNotGenerated)
  {
    if Truthy(And(j, Get(j, "imageUrl"))) then AddMessage(Get(j, "imageUrl"), "bot", "")
    else if Truthy(And(j, Get(j, "error"))) then BotText(Texts.CouldNotGenerateImage + ToStr(Get(j, "error")))
    else BotText(Texts.ImageNotGenerated)
  }

  /** The body `{ prompt, sessionId }` posted to `/api/image`. */
  function ImageBody(prompt: string, session: string): Value {
    Obj(map["prompt" := Str(prompt), "sessionId" := Str(session)])
  }

  /**
   The image item: a non-empty prompt is announced with a "Generating image"
   indicator, which the answer replaces; a throw shows the unreachable notice.
   */
  function ImageItem(c: Client, promptText: Option<string>, session: string, post: Value -> Fetched): (r: Client)
    ensures !Given(promptText) ==> r == c
    ensures Given(promptText) ==>
      var f := post(ImageBody(promptText.value, session));
      var announced := c.messages + [AddMessage(Str(Texts.GeneratingImageFor + promptText.value), "user", "")];
      && (f.Answered? && f.body.Some? ==> r.messages == announced + [ImageAnswer(f.body.value)])
      && (f.Unreachable? || f.body.None? ==> r.messages == announced + [BotText(Texts.ImageUnreachable)])
  {
    if !Given(promptText) then c
    else
      var p := promptText.value;
      var announced := c.messages + [AddMessage(Str(Texts.GeneratingImageFor + p), "user", "")];
      var ms := announced + [BotText(Texts.GeneratingImage)];
      GeneratingIsDropped(announced);
      var f := post(ImageBody(p, session));
      var shown := DropLastIf(ms, Texts.GeneratingWord);
      c.(messages :=
        match f
        case Answered(_, Some(j)) => shown + [ImageAnswer(j)]
        case _ => shown + [BotText(Texts.ImageUnreachable)])
  }

  /** The "Generating image" indicator is always the message the removal takes away. */
  lemma GeneratingIsDropped(ms: seq<Message>)
    ensures DropLastIf(ms + [BotText(Texts.GeneratingImage)], Texts.GeneratingWord) == ms
  {
    assert Texts.GeneratingImage[2..2 + |Texts.GeneratingWord|] == Texts.GeneratingWord;
    DropsIndicator(ms, Texts.GeneratingImage, Texts.GeneratingWord, 2);
  }
}
