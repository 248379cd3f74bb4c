/**
 The chat widget of Public/script.js: how the answers of `/api/chat`,
 `/api/image` and `/api/search` turn into chat bubbles and into entries of
 the local conversation list, and which prompt answers start an action.
 The DOM is reduced to the sequence of bubble options appended to the chat
 area; `fetch` is a parameter from the request body to what comes back.
 */
module Widget {
  import opened Options
  import opened JsString
  import opened JsValue
  import opened Http
  import Texts

  /** The options a bubble is created with, `{ text, role, imgSrc }`; `text` defaults to "" and `imgSrc` to `null`. */
  datatype Bubble = Bubble(role: string, text: string, imgSrc: Value)

  function BotSays(text: string): Bubble {
    Bubble("bot", text, Null)
  }

  /** The indicator appended while `/api/chat` is pending. */
  const TypingBubble: Bubble := BotSays(Texts.Typing)

  /** An entry `{ role, content }` of the local conversation list. */
  datatype Entry = Entry(role: string, content: Value)

  /** The bubbles appended to the chat area, oldest first, and the local conversation list. */
  datatype Page = Page(bubbles: seq<Bubble>, memory: seq<Entry>)

  /** What `postJson` resolves to. */
  datatype Posted = Posted(ok: bool, data: Value)

  /** `postJson`: a body that is not JSON reads as `null`; a failed `fetch` throws (`None`). */
  function PostJson(f: Fetched): Option<Posted> {
    match f
    case Unreachable => None
    case Answered(ok, body) => Some(Posted(ok, body.GetOr(Null)))
  }

  /** The request was answered, but not ok or without data: the `!ok || !data` branch. */
  predicate Refused(f: Fetched) {
    f.Answered? && (!f.ok || !Truthy(f.body.GetOr(Null)))
  }

  /** `data && data.error ? data.error : 'server error'` */
  function ErrorDetail(data: Value): Value {
    if Truthy(And(data, Get(data, "error"))) then Get(data, "error") else Str(Texts.ServerError)
  }

  // ---------- sendMessage ----------

  function FirstChoice(data: Value): Value {
    At(Get(data, "choices"), 0)
  }

  /** `data.choices[0].message.content` */
  function ChoiceContent(data: Value): Value {
    Get(Get(FirstChoice(data), "message"), "content")
  }

  /** `data.choices[0].text` */
  function ChoiceText(data: Value): Value {
    Get(FirstChoice(data), "text")
  }

  /**
   `data.reply || (data.choices && data.choices[0] && (data.choices[0].message?.content || data.choices[0].text)) || null`:
   the reply field wins, then the first choice's message content, then its text.
   */
  function ReplyOf(data: Value): (r: Value)
    ensures Truthy(Get(data, "reply")) ==> r == Get(data, "reply")
    ensures !Truthy(Get(data, "reply")) && Truthy(ChoiceContent(data)) ==> r == ChoiceContent(data)
    ensures !Truthy(Get(data, "reply")) && !Truthy(ChoiceContent(data)) && Truthy(ChoiceText(data)) ==>
      r == ChoiceText(data)
    ensures Truthy(r) <==> Truthy(Get(data, "reply")) || Truthy(ChoiceContent(data)) || Truthy(ChoiceText(data))
  {
    var choices := Get(data, "choices");
    var first := At(choices, 0);
    assert Truthy(ChoiceContent(data)) || Truthy(ChoiceText(data)) ==> Truthy(choices) && Truthy(first);
    Or(Get(data, "reply"), Or(And(choices, And(first, Or(Get(Get(first, "message"), "content"), Get(first, "text")))), Null))
  }

  /**
   The reply `sendMessage` shows and stores: exactly an ok answer with data
   whose reply, read in order of precedence, is truthy carries one, and it
   is that reply.
   */
  function FoundReply(f: Fetched): (r: Option<Value>)
    ensures r.Some? ==> f.Answered? && !Refused(f) && Truthy(r.value)
    ensures f.Answered? && !Refused(f) && Truthy(ReplyOf(f.body.GetOr(Null))) ==>
      r == Some(ReplyOf(f.body.GetOr(Null)))
    ensures f.Unreachable? || Refused(f) || !Truthy(ReplyOf(f.body.GetOr(Null))) ==> r.None?
  {
    match PostJson(f)
    case Some(Posted(ok, data)) =>
      if ok && Truthy(data) && Truthy(ReplyOf(data)) then Some(ReplyOf(data)) else None
    case None => None
  }

  /** The bubbles appended once `/api/chat` settles. */
  function ChatBubbles(f: Fetched): (r: seq<Bubble>)
    ensures 1 <= |r| <= 2
    ensures forall i :: 0 <= i < |r| ==> r[i].role == "bot"
    ensures FoundReply(f).Some? ==> r == [BotSays(ToStr(FoundReply(f).value))]
    ensures Refused(f) ==> |r| == 1 && StartsWith(r[0].text, Texts.WarnMark)
    ensures f.Unreachable? ==> r == [BotSays(Texts.ContactError)]
    ensures f.Answered? && !Refused(f) && !Truthy(ReplyOf(f.body.GetOr(Null))) ==>
      var url := Get(f.body.GetOr(Null), "imageUrl");
      r == (if Truthy(url) then [BotSays(Texts.GeneratedImage), Bubble("bot", "", url)] else [BotSays(Texts.NoApiReply)])
  {
    match PostJson(f)
    case None => [BotSays(Texts.ContactError)]
    case Some(Posted(ok, data)) =>
      if !ok || !Truthy(data) then
        var msg := if Truthy(And(data, Get(data, "reply"))) then Get(data, "reply") else Str(Texts.NoServerReply);
        [BotSays(Texts.WarnMark + ToStr(msg))]
      else
        var reply := ReplyOf(data);
        if Truthy(reply) then [BotSays(ToStr(reply))]
        else if Truthy(Get(data, "imageUrl")) then
          [BotSays(Texts.GeneratedImage), Bubble("bot", "", Get(data, "imageUrl"))]
        else [BotSays(Texts.NoApiReply)]
  }

  /** The body `{ message: text, options: {} }` posted to `/api/chat`. */
  function ChatRequest(text: string): Value {
    Obj(map["message" := Str(text), "options" := Obj(map[])])
  }

  /** `sendMessage(text)`; `indicator` is what is left of the typing bubble once the request settles. */
  function SendWith(p: Page, text: string, post: Value -> Fetched, indicator: seq<Bubble>): (r: Page)
    ensures Blank(text) ==> r == p
    ensures !Blank(text) ==>
      var f := post(ChatRequest(text));
      var n := |p.bubbles|;
      var m := |p.memory|;
      && r.bubbles == p.bubbles + [Bubble("user", text, Null)] + indicator + ChatBubbles(f)
      && |r.memory| > m && r.memory[..m + 1] == p.memory + [Entry("user", Str(text))]
      && (FoundReply(f).None? ==> |r.memory| == m + 1)
      && (FoundReply(f).Some? ==> |r.memory| == m + 2 && r.memory[m + 1] == Entry("assistant", FoundReply(f).value))
  {
    if text == "" || Trim(text) == "" then p
    else
      var f := post(ChatRequest(text));
      var stored := match FoundReply(f) case Some(reply) => [Entry("assistant", reply)] case None => [];
      Page(p.bubbles + [Bubble("user", text, Null)] + indicator + ChatBubbles(f),
           p.memory + [Entry("user", Str(text))] + stored)
  }

  /**
   `sendMessage` as written: `appendBubble` returns nothing, so `showTyping`
   is `undefined` and the typing bubble is never removed; it stays right
   after the user's bubble whatever the server answers.
   */
  function SendMessageAsWritten(p: Page, text: string, post: Value -> Fetched): (r: Page)
    ensures Blank(text) ==> r == p
    ensures !Blank(text) ==>
      && |r.bubbles| >= |p.bubbles| + 3
      && r.bubbles[|p.bubbles| + 1] == TypingBubble
      && r.bubbles[|p.bubbles| + 2..] == ChatBubbles(post(ChatRequest(text)))
  {
    SendWith(p, text, post, [TypingBubble])
  }

  /**
   `sendMessage` with the typing bubble removed when the request settles:
   blank text does nothing; otherwise the user's entry is stored before the
   answer is looked at, and an assistant entry follows exactly when the
   answer carries a reply, which is then the last bubble.
   */
  function SendMessage(p: Page, text: string, post: Value -> Fetched): (r: Page)
    ensures Blank(text) ==> r == p
    ensures !Blank(text) ==>
      var f := post(ChatRequest(text));
      var n := |p.bubbles|;
      var m := |p.memory|;
      && |r.bubbles| > n + 1 && r.bubbles[..n + 1] == p.bubbles + [Bubble("user", text, Null)]
      && r.bubbles[n + 1..] == ChatBubbles(f)
      && |r.memory| > m && r.memory[..m + 1] == p.memory + [Entry("user", Str(text))]
      && (FoundReply(f).None? ==> |r.memory| == m + 1)
      && (FoundReply(f).Some? ==>
            && |r.memory| == m + 2 && r.memory[m + 1] == Entry("assistant", FoundReply(f).value)
            && r.bubbles[|r.bubbles| - 1] == BotSays(ToStr(FoundReply(f).value)))
      && (Refused(f) ==> |r.bubbles| == n + 2 && StartsWith(r.bubbles[n + 1].text, Texts.WarnMark))
  {
    SendWith(p, text, post, [])
  }

  /** No settled bubble reads like the typing indicator, unless it is the server's reply saying exactly that. */
  lemma SettledBubbleIsNotTyping(f: Fetched)
    ensures TypingBubble in ChatBubbles(f) ==> FoundReply(f).Some? && ToStr(FoundReply(f).value) == Texts.Typing
  {
    if Refused(f) {
      assert ChatBubbles(f)[0].text[1] == Texts.WarnMark[1] != Texts.Typing[1];
    }
  }

  /**
   Once the request settles, the typing bubble is gone: a bubble equal to it
   can only be the server's own reply reading exactly like the indicator.
   */
  lemma NoTypingLeftBehind(p: Page, text: string, post: Value -> Fetched)
    requires !Blank(text)
    ensures var r := SendMessage(p, text, post);
      TypingBubble in r.bubbles[|p.bubbles|..] ==>
        FoundReply(post(ChatRequest(text))).Some? && ToStr(FoundReply(post(ChatRequest(text))).value) == Texts.Typing
  {
    SettledBubbleIsNotTyping(post(ChatRequest(text)));
  }

  /** The send button: the input is trimmed, and nothing is sent when it is blank or missing. */
  function OnSendClicked(input: Option<string>): (r: Option<string>)
    ensures r.Some? <==> input.Some? && !Blank(input.value)
    ensures r.Some? ==> r.value == Trim(input.value) && !Blank(r.value)
  {
    match input
    case None => None
    case Some(v) => if v == "" || Trim(v) == "" then None else Some(Trim(v))
  }

  /** A send from the button always shows the user's bubble and stores the user's entry. */
  lemma ButtonSendIsNeverIgnored(p: Page, input: string, post: Value -> Fetched)
    requires OnSendClicked(Some(input)).Some?
    ensures var t := OnSendClicked(Some(input)).value;
      var r := SendMessage(p, t, post);
      && |r.bubbles| > |p.bubbles| && r.bubbles[|p.bubbles|] == Bubble("user", Trim(input), Null)
      && |r.memory| > |p.memory| && r.memory[|p.memory|] == Entry("user", Str(Trim(input)))
  {
    var t := OnSendClicked(Some(input)).value;
    var r := SendMessage(p, t, post);
    assert r.bubbles[..|p.bubbles| + 1][|p.bubbles|] == r.bubbles[|p.bubbles|];
    assert r.memory[..|p.memory| + 1][|p.memory|] == r.memory[|p.memory|];
  }

  // ---------- generateImage ----------

  /** `data.data[0].url` */
  function DataUrl(data: Value): Value {
    Get(At(Get(data, "data"), 0), "url")
  }

  /** `data.imageUrl || (data.data && data.data[0] && data.data[0].url)`: the top-level URL wins. */
  function ImageUrlOf(data: Value): (r: Value)
    ensures Truthy(Get(data, "imageUrl")) ==> r == Get(data, "imageUrl")
    ensures !Truthy(Get(data, "imageUrl")) ==> (Truthy(r) <==> Truthy(DataUrl(data)))
    ensures !Truthy(Get(data, "imageUrl")) && Truthy(r) ==> r == DataUrl(data)
  {
    var dd := Get(data, "data");
    assert Truthy(DataUrl(data)) ==> Truthy(dd) && Truthy(At(dd, 0));
    Or(Get(data, "imageUrl"), And(dd, And(At(dd, 0), Get(At(dd, 0), "url"))))
  }

  /** The image URL `generateImage` shows, if the answer is ok, has data and names one. */
  function FoundImage(f: Fetched): (r: Option<Value>)
    ensures r.Some? ==> f.Answered? && !Refused(f) && Truthy(r.value)
    ensures f.Answered? && !Refused(f) && Truthy(ImageUrlOf(f.body.GetOr(Null))) ==>
      r == Some(ImageUrlOf(f.body.GetOr(Null)))
    ensures f.Unreachable? || Refused(f) || !Truthy(ImageUrlOf(f.body.GetOr(Null))) ==> r.None?
  {
    match PostJson(f)
    case Some(Posted(ok, data)) =>
      if ok && Truthy(data) && Truthy(ImageUrlOf(data)) then Some(ImageUrlOf(data)) else None
    case None => None
  }

  /** The bubbles appended once `/api/image` settles. */
  function ImageBubbles(f: Fetched): (r: seq<Bubble>)
    ensures FoundImage(f).Some? ==> r == [BotSays(Texts.HereYouGo), Bubble("bot", "", FoundImage(f).value)]
    ensures FoundImage(f).None? ==> |r| == 1 && !Truthy(r[0].imgSrc)
    ensures Refused(f) ==> r == [BotSays(Texts.CouldNotGenerate + ToStr(ErrorDetail(f.body.GetOr(Null))))]
    ensures f.Unreachable? ==> r == [BotSays(Texts.ImageError)]
    ensures f.Answered? && !Refused(f) && FoundImage(f).None? ==> r == [BotSays(Texts.NoImageUrl)]
  {
    match PostJson(f)
    case None => [BotSays(Texts.ImageError)]
    case Some(Posted(ok, data)) =>
      if !ok || !Truthy(data) then [BotSays(Texts.CouldNotGenerate + ToStr(ErrorDetail(data)))]
      else
        var url := ImageUrlOf(data);
        if !Truthy(url) then [BotSays(Texts.NoImageUrl)]
        else [BotSays(Texts.HereYouGo), Bubble("bot", "", url)]
  }

  /**
   `generateImage(prompt)`: an announcement, then either the image bubble
   for the URL the answer names or exactly one message; the local
   conversation list is not touched.
   */
  function GenerateImage(p: Page, prompt: string, post: Value -> Fetched): (r: Page)
    ensures r.memory == p.memory
    ensures var n := |p.bubbles|;
      && |r.bubbles| > n + 1 && r.bubbles[..n + 1] == p.bubbles + [BotSays(Texts.GeneratingFor + prompt)]
      && r.bubbles[n + 1..] == ImageBubbles(post(Obj(map["prompt" := Str(prompt)])))
  {
    var f := post(Obj(map["prompt" := Str(prompt)]));
    Page(p.bubbles + [BotSays(Texts.GeneratingFor + prompt)] + ImageBubbles(f), p.memory)
  }

  // ---------- searchWeb ----------

  /** `data.results || (Array.isArray(data) ? data : null)` */
  function ResultsOf(data: Value): (r: Value)
    ensures Truthy(Get(data, "results")) ==> r == Get(data, "results")
    ensures !Truthy(Get(data, "results")) && data.Arr? ==> r == data
    ensures !Truthy(Get(data, "results")) && !data.Arr? ==> r == Null
  {
    Or(Get(data, "results"), if data.Arr? then data else Null)
  }

  function Min(a: int, b: int): int {
    if a < b then a else b
  }

  /**
   `results.slice(0, 5)` walked by `for ... of`: at most five array elements
   or characters; `None` when `results` has no `slice` method and the call throws.
   */
  function FirstFive(results: Value): (r: Option<seq<Value>>)
    ensures r.Some? <==> results.Arr? || results.Str?
    ensures results.Arr? ==> r == Some(results.elems[..Min(5, |results.elems|)])
    ensures results.Str? ==>
      && r.Some? && |r.value| == Min(5, |results.s|)
      && forall i :: 0 <= i < |r.value| ==> r.value[i] == Str([results.s[i]])
  {
    match results
    case Arr(a) => Some(a[..Min(5, |a|)])
    case Str(s) => Some(seq(Min(5, |s|), i requires 0 <= i < Min(5, |s|) => Str([s[i]])))
    case _ => None
  }

  /**
   How one result reads: a string as it is, an object with a title as
   `title — snippet` (the snippet defaulting to ""), anything else through
   `JSON.stringify`, which is a parameter.
   */
  function ResultLine(item: Value, stringify: Value -> string): string {
    if item.Str? then item.s
    else if Truthy(Get(item, "title")) then
      ToStr(Get(item, "title")) + Texts.TitleSnippetSep + ToStr(Or(Get(item, "snippet"), Str("")))
    else stringify(item)
  }

  function LinkBubble(item: Value, stringify: Value -> string): Bubble {
    BotSays(Texts.LinkMark + ResultLine(item, stringify))
  }

  /** `items[k]` is the first `null` or `undefined` item: reading its `title` throws. */
  ghost predicate FirstNullishAt(items: seq<Value>, k: int) {
    0 <= k < |items| && IsNullish(items[k]) && forall i :: 0 <= i < k ==> !IsNullish(items[i])
  }

  /**
   The loop over the picked results: one link bubble per item, until an
   item that is `null` or `undefined` throws and the error bubble ends the list.
   */
  function ResultBubbles(items: seq<Value>, stringify: Value -> string): (r: seq<Bubble>)
    ensures |r| <= |items| && (|items| > 0 ==> |r| > 0)
    ensures (forall i :: 0 <= i < |items| ==> !IsNullish(items[i])) ==>
      |r| == |items| && forall i :: 0 <= i < |r| ==> r[i] == LinkBubble(items[i], stringify)
    decreases |items|
  {
    if |items| == 0 then []
    else if IsNullish(items[0]) then [BotSays(Texts.SearchError)]
    else [LinkBubble(items[0], stringify)] + ResultBubbles(items[1..], stringify)
  }

  /** The first `null` or `undefined` item ends the list with the error bubble, after one link per earlier item. */
  lemma {:induction false} ResultBubblesStopAtNull(items: seq<Value>, stringify: Value -> string, k: int)
    requires FirstNullishAt(items, k)
    ensures var r := ResultBubbles(items, stringify);
      && |r| == k + 1 && r[k] == BotSays(Texts.SearchError)
      && forall i :: 0 <= i < k ==> r[i] == LinkBubble(items[i], stringify)
    decreases |items|
  {
    if k > 0 {
      assert FirstNullishAt(items[1..], k - 1);
      ResultBubblesStopAtNull(items[1..], stringify, k - 1);
    }
  }

  /** The bubbles appended once `/api/search` settles: never more than five. */
  function SearchBubbles(f: Fetched, stringify: Value -> string): (r: seq<Bubble>)
    ensures 1 <= |r| <= 5
    ensures f.Unreachable? ==> r == [BotSays(Texts.SearchError)]
    ensures Refused(f) ==> r == [BotSays(Texts.SearchFailed + ToStr(ErrorDetail(f.body.GetOr(Null))))]
    ensures f.Answered? && !Refused(f) ==>
      var results := ResultsOf(f.body.value);
      (!Truthy(results) || Get(results, "length") == Num(0)) ==> r == [BotSays(Texts.NothingFound)]
  {
    match PostJson(f)
    case None => [BotSays(Texts.SearchError)]
    case Some(Posted(ok, data)) =>
      if !ok || !Truthy(data) then [BotSays(Texts.SearchFailed + ToStr(ErrorDetail(data)))]
      else
        var results := ResultsOf(data);
        if !Truthy(results) || Get(results, "length") == Num(0) then [BotSays(Texts.NothingFound)]
        else
          match FirstFive(results)
          case None => [BotSays(Texts.SearchError)]
          case Some(items) =>
            ResultBubbles(items, stringify)
  }

  /** `searchWeb(query)`: an announcement, then at most five bubbles; the local conversation list is not touched. */
  function SearchWeb(p: Page, query: string, post: Value -> Fetched, stringify: Value -> string): (r: Page)
    ensures r.memory == p.memory
    ensures var n := |p.bubbles|;
      && n + 2 <= |r.bubbles| <= n + 6
      && r.bubbles[..n + 1] == p.bubbles + [BotSays(Texts.SearchingFor + query)]
      && r.bubbles[n + 1..] == SearchBubbles(post(Obj(map["query" := Str(query)])), stringify)
  {
    var f := post(Obj(map["query" := Str(query)]));
    Page(p.bubbles + [BotSays(Texts.SearchingFor + query)] + SearchBubbles(f, stringify), p.memory)
  }

  /**
   An ok answer whose results are a non-empty list of strings shows the
   first five of them, in order, each as a link line read as it is.
   */
  lemma StringResultsShownAsIs(f: Fetched, ss: seq<string>, stringify: Value -> string)
    requires f.Answered? && f.ok && f.body.Some? && Truthy(f.body.value)
    requires ResultsOf(f.body.value) == Strings(ss) && |ss| > 0
    ensures var r := SearchBubbles(f, stringify);
      && |r| == Min(5, |ss|)
      && forall i :: 0 <= i < |r| ==> r[i] == BotSays(Texts.LinkMark + ss[i])
  {
    var items := Strings(ss).elems[..Min(5, |ss|)];
    assert forall i :: 0 <= i < |items| ==> items[i] == Str(ss[i]) && !IsNullish(items[i]);
  }

  // ---------- prompts ----------

  /** What an item of the More menu sets off. */
  datatype Action =
    | Remember(text: string)
    | Schedule(when: string, title: string)
    | Search(query: string)
    | Image(prompt: string)

  /** A `prompt()` answer that is truthy: neither cancelled (`None`) nor empty. */
  predicate Given(answer: Option<string>) {
    answer.Some? && answer.value != ""
  }

  /** `openRememberPrompt`: a note that is not blank is remembered trimmed. */
  function OpenRememberPrompt(text: Option<string>): (r: Option<Action>)
    ensures r.Some? <==> text.Some? && !Blank(text.value)
    ensures r.Some? ==> r.value == Remember(Trim(text.value))
  {
    if Given(text) && Trim(text.value) != "" then Some(Remember(Trim(text.value))) else None
  }

  /** The prompt dialogs shown, and the action they lead to. */
  datatype Dialog = Dialog(prompts: nat, action: Option<Action>)

  /**
   `openSchedulePrompt`: the title is asked first and the time only after a
   title was given; the item is scheduled exactly when both were given.
   */
  function OpenSchedulePrompt(title: Option<string>, when: Option<string>): (r: Dialog)
    ensures r.prompts == (if Given(title) then 2 else 1)
    ensures r.action.Some? <==> Given(title) && Given(when)
    ensures r.action.Some? ==> r.action.value == Schedule(when.value, title.value)
  {
    if !Given(title) then Dialog(1, None)
    else if !Given(when) then Dialog(2, None)
    else Dialog(2, Some(Schedule(when.value, title.value)))
  }

  /** `openSearchPrompt`: any non-empty answer is searched as typed. */
  function OpenSearchPrompt(query: Option<string>): (r: Option<Action>)
    ensures r.Some? <==> Given(query)
    ensures r.Some? ==> r.value == Search(query.value)
  {
    if Given(query) then Some(Search(query.value)) else None
  }

  /** `openImagePrompt`: any non-empty answer is drawn as typed. */
  function OpenImagePrompt(prompt: Option<string>): (r: Option<Action>)
    ensures r.Some? <==> Given(prompt)
    ensures r.Some? ==> r.value == Image(prompt.value)
  {
    if Given(prompt) then Some(Image(prompt.value)) else None
  }

  // ---------- rendering ----------

  /** What a bubble shows on screen: its text and possibly an image. */
  datatype Shown = Shown(role: string, text: string, image: Option<string>)

  /**
   `createBubble` as written: the image is appended first and then
   `textContent = text` replaces every child of the bubble, the image included.
   */
  function RenderAsWritten(b: Bubble): (s: Shown)
    ensures s.role == b.role && s.text == b.text
    ensures s.image.None?
  {
    Shown(b.role, b.text, None)
  }

  /** `createBubble` with the text set before the image is appended: a truthy `imgSrc` is shown. */
  function Render(b: Bubble): (s: Shown)
    ensures s.role == b.role && s.text == b.text
    ensures s.image.Some? <==> Truthy(b.imgSrc)
    ensures s.image.Some? ==> s.image.value == ToStr(b.imgSrc)
  {
    Shown(b.role, b.text, if Truthy(b.imgSrc) then Some(ToStr(b.imgSrc)) else None)
  }

  /** As written, a generated image ends up as an empty bubble: no text and no image. */
  lemma GeneratedImageLostAsWritten(p: Page, prompt: string, post: Value -> Fetched)
    requires FoundImage(post(Obj(map["prompt" := Str(prompt)]))).Some?
    ensures var r := GenerateImage(p, prompt, post);
      RenderAsWritten(r.bubbles[|r.bubbles| - 1]) == Shown("bot", "", None)
  {
  }

  /** With the text set first, the last bubble shows the image the answer named. */
  lemma GeneratedImageShown(p: Page, prompt: string, post: Value -> Fetched)
    requires FoundImage(post(Obj(map["prompt" := Str(prompt)]))).Some?
    ensures var r := GenerateImage(p, prompt, post);
      var url := FoundImage(post(Obj(map["prompt" := Str(prompt)]))).value;
      Render(r.bubbles[|r.bubbles| - 1]) == Shown("bot", "", Some(ToStr(url)))
  {
  }
}
