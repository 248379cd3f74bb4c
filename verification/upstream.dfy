/**
 The normalisers of index.js: how the server turns what DuckDuckGo's Instant
 Answer API, the image endpoint and the chat-completion endpoint send back
 into the reply it gives the browser. The upstream payloads arrive as JSON
 values; a `None` result means that reading the payload throws a TypeError.
 */
module Upstream {
  import opened Options
  import opened JsString
  import opened JsValue
  import opened Http
  import opened MemoryLog
  import Texts

  /** The outcome of a call into the SDK or `fetch`: it threw `err`, or it returned a payload. */
  datatype Call = Threw(err: Value) | Returned(payload: Value)

  /** One entry of the `messages` array sent to the chat-completion endpoint. */
  datatype ChatMessage = ChatMessage(role: string, content: string)

  // ---------------------------------------------------------------------
  // Web mode: DuckDuckGo Instant Answer payload -> reply (index.js:158-172)
  // ---------------------------------------------------------------------

  /**
   `dd?.AbstractText?.trim()`: `Some(Undefined)` when the field is absent or
   null, the trimmed string when it is a string, `None` (TypeError) otherwise.
   */
  function Abstract(dd: Value): (r: Option<Value>)
    ensures var a := Get(dd, "AbstractText");
      && (IsNullish(a) ==> r == Some(Undefined))
      && (a.Str? ==> r == Some(Str(Trim(a.s))))
      && (r.None? <==> !IsNullish(a) && !a.Str?)
  {
    var a := Get(dd, "AbstractText");
    if IsNullish(a) then Some(Undefined)
    else if a.Str? then Some(Str(Trim(a.s)))
    else None
  }

  /**
   The `find` predicate `t.Text || (t.Topics && t.Topics[0]?.Text)`;
   `None` when `t` is null or undefined, where reading `t.Text` throws.
   */
  function TopicMatches(t: Value): Option<bool> {
    if IsNullish(t) then None
    else
      var topics := Get(t, "Topics");
      Some(Truthy(Get(t, "Text")) || (Truthy(topics) && Truthy(Get(At(topics, 0), "Text"))))
  }

  /** `i` is the first topic `find` accepts, every earlier one having been rejected without throwing. */
  ghost predicate FirstMatch(ts: seq<Value>, i: int) {
    && 0 <= i < |ts|
    && TopicMatches(ts[i]) == Some(true)
    && forall j :: 0 <= j < i ==> TopicMatches(ts[j]) == Some(false)
  }

  /** `i` is the first topic whose test throws, every earlier one having been rejected. */
  ghost predicate FirstNullish(ts: seq<Value>, i: int) {
    && 0 <= i < |ts|
    && TopicMatches(ts[i]).None?
    && forall j :: 0 <= j < i ==> TopicMatches(ts[j]) == Some(false)
  }

  /** Outcome of `find` over related topics. */
  datatype Search = ThrowsAt(i: nat) | NotFound | FoundAt(i: nat)

  /** `ts.find(...)` starting at index `from`. */
  function FindTopic(ts: seq<Value>, from: nat): (r: Search)
    requires from <= |ts|
    requires forall j :: 0 <= j < from ==> TopicMatches(ts[j]) == Some(false)
    ensures r.FoundAt? ==> FirstMatch(ts, r.i)
    ensures r.NotFound? ==> forall j :: 0 <= j < |ts| ==> TopicMatches(ts[j]) == Some(false)
    ensures r.ThrowsAt? ==>
      && r.i < |ts| && TopicMatches(ts[r.i]).None?
      && forall j :: 0 <= j < r.i ==> TopicMatches(ts[j]) == Some(false)
    decreases |ts| - from
  {
    if from == |ts| then NotFound
    else
      match TopicMatches(ts[from])
      case None => ThrowsAt(from)
      case Some(true) => FoundAt(from)
      case Some(false) => FindTopic(ts, from + 1)
  }

  /** `related.Text || related.Topics?.[0]?.Text || ""` */
  function TopicText(t: Value): Value {
    Or(Or(Get(t, "Text"), Get(At(Get(t, "Topics"), 0), "Text")), Str(""))
  }

  /** `related.FirstURL || related.Topics?.[0]?.FirstURL || ""` */
  function TopicUrl(t: Value): Value {
    Or(Or(Get(t, "FirstURL"), Get(At(Get(t, "Topics"), 0), "FirstURL")), Str(""))
  }

  /**
   The reply built from a related topic: its text, and its source only when
   there is a URL; `None` when the text, or a URL that is there, cannot be
   printed, so that building the reply throws.
   */
  function RelatedReply(t: Value): (r: Option<string>)
    ensures r.None? <==> PrintThrows(TopicText(t)) || (Truthy(TopicUrl(t)) && PrintThrows(TopicUrl(t)))
    ensures r.Some? && Truthy(TopicUrl(t)) ==>
      r.value == Texts.RelatedMark + ToStr(TopicText(t)) + Texts.SourceMark + ToStr(TopicUrl(t))
    ensures r.Some? && !Truthy(TopicUrl(t)) ==> r.value == Texts.RelatedMark + ToStr(TopicText(t))
  {
    var text := TopicText(t);
    var url := TopicUrl(t);
    if PrintThrows(text) || (Truthy(url) && PrintThrows(url)) then None
    else if Truthy(url) then Some(Texts.RelatedMark + ToStr(text) + Texts.SourceMark + ToStr(url))
    else Some(Texts.RelatedMark + ToStr(text))
  }

  /** The reply when DuckDuckGo has nothing concise: it quotes the query. */
  function NoAnswer(query: string): (r: string)
    ensures Contains(r, "\"" + query + "\"")
  {
    var r := Texts.NoAnswerOpen + query + Texts.NoAnswerClose;
    assert r == Texts.NoAnswerOpen[..|Texts.NoAnswerOpen| - 1] + ("\"" + query + "\"") + ".";
    ContainsInfix(Texts.NoAnswerOpen[..|Texts.NoAnswerOpen| - 1], "\"" + query + "\"", ".");
    r
  }

  /**
   The web-mode reply for payload `dd` and query `query`: the trimmed
   abstract if there is one, else the first related topic with text, else
   the no-answer message; `None` when reading the payload throws.
   */
  function WebReply(dd: Value, query: string): (r: Option<string>)
    ensures var a := Get(dd, "AbstractText");
      && (a.Str? && !Blank(a.s) ==> r == Some(Texts.AbstractMark + Trim(a.s)))
      && (!IsNullish(a) && !a.Str? ==> r == None)
    ensures var a := Get(dd, "AbstractText"); var topics := Get(dd, "RelatedTopics");
      IsNullish(a) || (a.Str? && Blank(a.s)) ==>
        && (IsNullish(topics) ==> r == Some(NoAnswer(query)))
        && (!IsNullish(topics) && !topics.Arr? ==> r == None)
        && (topics.Arr? ==>
              && (forall i :: FirstMatch(topics.elems, i) ==> r == RelatedReply(topics.elems[i]))
              && ((forall j :: 0 <= j < |topics.elems| ==> TopicMatches(topics.elems[j]) == Some(false))
                  ==> r == Some(NoAnswer(query)))
              && (r.None? <==>
                    || (exists j :: FirstNullish(topics.elems, j))
                    || (exists i :: FirstMatch(topics.elems, i) && RelatedReply(topics.elems[i]).None?)))
  {
    match Abstract(dd)
    case None => None
    case Some(answer) =>
      if Truthy(answer) then Some(Texts.AbstractMark + answer.s)
      else
        var topics := Get(dd, "RelatedTopics");
        if IsNullish(topics) then Some(NoAnswer(query))
        else if !topics.Arr? then None
        else
          var found := FindTopic(topics.elems, 0);
          FirstsAreExclusive(topics.elems);
          match found
          case ThrowsAt(k) => assert FirstNullish(topics.elems, k); None
          case NotFound => Some(NoAnswer(query))
          case FoundAt(i) => RelatedReply(topics.elems[i])
  }

  /** At most one index is the first match, and then no topic before it throws. */
  lemma FirstsAreExclusive(ts: seq<Value>)
    ensures forall i, k :: FirstMatch(ts, i) && FirstMatch(ts, k) ==> i == k
    ensures forall i, k :: FirstMatch(ts, i) ==> !FirstNullish(ts, k)
  {
  }

  // ---------------------------------------------------------------------
  // Image response -> imageUrl (index.js:114-126)
  // ---------------------------------------------------------------------

  /** `resp?.data?.[0]` */
  function FirstImage(resp: Value): Value {
    At(Get(resp, "data"), 0)
  }

  /** `resp?.data?.[0]?.b64_json || resp?.data?.[0]?.url || null`: the base64 field outranks the URL. */
  function ImageData(resp: Value): (r: Value)
    ensures var b := Get(FirstImage(resp), "b64_json"); var u := Get(FirstImage(resp), "url");
      && (Truthy(b) ==> r == b)
      && (!Truthy(b) && Truthy(u) ==> r == u)
      && (!Truthy(b) && !Truthy(u) ==> r == Null)
  {
    var d0 := FirstImage(resp);
    Or(Or(Get(d0, "b64_json"), Get(d0, "url")), Null)
  }

  /** `imageData.startsWith && imageData.startsWith("http")` for a value whose `startsWith` is callable. */
  predicate IsLink(d: Value) {
    d.Str? && StartsWith(d.s, "http")
  }

  /** `d.startsWith` exists but is not callable: only an object with a truthy `startsWith` field. */
  predicate StartsWithNotCallable(d: Value) {
    d.Obj? && Truthy(Get(d, "startsWith"))
  }

  /**
   Normalising an image-generation payload. With no image data the answer
   is the "unexpected response" 500, except for an `undefined` payload,
   where `JSON.stringify(resp)` is `undefined` and calling `slice` on it
   throws into the `catch`. A link is passed through; any other data is
   returned both as is and as a base64 PNG data URL, unless calling its
   `startsWith` or printing it throws, which the `catch` answers with 500.
   */
  function NormalizeImage(resp: Value): (r: Response)
    ensures var data := ImageData(resp);
      && (!Truthy(data) && !resp.Undefined? ==> r == Json(500, map["error" := Str(Texts.ImageUnexpected)]))
      && (!Truthy(data) && resp.Undefined? ==> r == Json(500, map["error" := Str(Texts.ImageFailed)]))
      && (Truthy(data) && IsLink(data) ==> r == Json(200, map["imageUrl" := data]))
      && (Truthy(data) && !IsLink(data) && (StartsWithNotCallable(data) || PrintThrows(data)) ==>
            r == Json(500, map["error" := Str(Texts.ImageFailed)]))
      && (Truthy(data) && !IsLink(data) && !StartsWithNotCallable(data) && !PrintThrows(data) ==>
            && r.status == 200
            && Get(r.body, "imageBase64") == data
            && Get(r.body, "imageUrl") == Str(Texts.DataUrlPrefix + ToStr(data)))
    ensures r.status == 200 <==> Get(r.body, "imageUrl").Str?
  {
    var data := ImageData(resp);
    if !Truthy(data) then
      if resp.Undefined? then Json(500, map["error" := Str(Texts.ImageFailed)])
      else Json(500, map["error" := Str(Texts.ImageUnexpected)])
    else if IsLink(data) then Json(200, map["imageUrl" := data])
    else if StartsWithNotCallable(data) || PrintThrows(data) then Json(500, map["error" := Str(Texts.ImageFailed)])
    else Json(200, map["imageBase64" := data, "imageUrl" := Str(Texts.DataUrlPrefix + ToStr(data))])
  }

  /**
   The browser can tell the two successful answers apart by the URL alone:
   a URL starting with "http" is the payload's own link, and any other is
   the data URL whose tail, after the PNG prefix, is the `imageBase64` sent
   with it, which is the payload's image data.
   */
  lemma ImageUrlDecodes(resp: Value)
    requires NormalizeImage(resp).status == 200
    ensures var body := NormalizeImage(resp).body; var url := Get(body, "imageUrl").s;
      && (StartsWith(url, "http") ==> Str(url) == ImageData(resp) && Get(body, "imageBase64") == Undefined)
      && (!StartsWith(url, "http") ==>
            && StartsWith(url, Texts.DataUrlPrefix)
            && Get(body, "imageBase64") == ImageData(resp)
            && url[|Texts.DataUrlPrefix|..] == ToStr(ImageData(resp)))
  {
    var data := ImageData(resp);
    if !IsLink(data) {
      var url := Texts.DataUrlPrefix + ToStr(data);
      assert url[..|Texts.DataUrlPrefix|] == Texts.DataUrlPrefix;
      assert url[|Texts.DataUrlPrefix|..] == ToStr(data);
      DataUrlIsNoLink(ToStr(data));
    }
  }

  /** A data URL never starts with "http". */
  lemma DataUrlIsNoLink(tail: string)
    ensures !StartsWith(Texts.DataUrlPrefix + tail, "http")
  {
    assert (Texts.DataUrlPrefix + tail)[0] == 'd';
  }

  // ---------------------------------------------------------------------
  // Chat completion -> reply, and error classification (index.js:188-237)
  // ---------------------------------------------------------------------

  /** `completion?.choices?.[0]?.message?.content || completion?.choices?.[0]?.text || null` */
  function CompletionText(c: Value): (r: Value)
    ensures var c0 := At(Get(c, "choices"), 0);
      var content := Get(Get(c0, "message"), "content");
      && (Truthy(content) ==> r == content)
      && (!Truthy(content) && Truthy(Get(c0, "text")) ==> r == Get(c0, "text"))
      && (Truthy(r) <==> Truthy(content) || Truthy(Get(c0, "text")))
  {
    var c0 := At(Get(c, "choices"), 0);
    Or(Or(Get(Get(c0, "message"), "content"), Get(c0, "text")), Null)
  }

  /** `String(err?.message || err || "unknown error")` */
  function ErrorMessage(err: Value): string {
    ToStr(Or(Or(Get(err, "message"), err), Str(Texts.UnknownError)))
  }

  /** The TypeError message V8 gives when the reply is truthy but has no `trim` method. */
  const TrimNotAFunction: string := "reply.trim is not a function"

  /**
   The TypeError message V8 gives when the payload is `undefined`: logging
   it calls `slice` on `JSON.stringify(undefined)`, which is `undefined`.
   */
  const SliceOfUndefined: string := "Cannot read " + "properties of undefined " + "(reading 'slice')"

  /**
   The reply for a failed completion: the key-problem text exactly when the
   lower-cased message mentions "api key" or "invalid".
   */
  function ClassifyError(m: string): (r: string)
    ensures r == Texts.KeyProblem <==>
      Contains(AsciiLower(m), "api key") || Contains(AsciiLower(m), "invalid")
    ensures r == Texts.KeyProblem || r == Texts.CallFailed
  {
    var lower := AsciiLower(m);
    if Contains(lower, "api key") || Contains(lower, "invalid") then Texts.KeyProblem
    else Texts.CallFailed
  }

  /** A message with neither a `k` nor a `v` in any case can name neither an API key nor anything invalid. */
  lemma NamesNoKeyProblem(m: string)
    requires 'k' !in m && 'K' !in m && 'v' !in m && 'V' !in m
    ensures ClassifyError(m) == Texts.CallFailed
  {
    var lower := AsciiLower(m);
    LowerMissing(m, 'k');
    MissingCharRulesOut(lower, "api key", 'k');
    LowerMissing(m, 'v');
    MissingCharRulesOut(lower, "invalid", 'v');
  }

  /**
   A truthy reply that is not a string fails `reply.trim()`; V8's message for
   that names neither an API key nor anything invalid, so it reads as the
   generic failure.
   */
  lemma TrimFailureIsGeneric()
    ensures ClassifyError(TrimNotAFunction) == Texts.CallFailed
  {
    NoKInTrimMessage();
    NoVInTrimMessage();
    NamesNoKeyProblem(TrimNotAFunction);
  }

  lemma NoKInTrimMessage()
    ensures 'k' !in TrimNotAFunction && 'K' !in TrimNotAFunction
  {
  }

  lemma NoVInTrimMessage()
    ensures 'v' !in TrimNotAFunction && 'V' !in TrimNotAFunction
  {
  }

  /** The failure to log an `undefined` completion reads as the generic failure too. */
  lemma SliceFailureIsGeneric()
    ensures ClassifyError(SliceOfUndefined) == Texts.CallFailed
  {
    NoKInSliceMessage();
    NoVInSliceMessage();
    NamesNoKeyProblem(SliceOfUndefined);
  }

  lemma NoKInSliceMessage()
    ensures 'k' !in SliceOfUndefined && 'K' !in SliceOfUndefined
  {
    assert 'k' !in "Cannot read " && 'K' !in "Cannot read ";
    assert 'k' !in "properties of undefined " && 'K' !in "properties of undefined ";
    assert 'k' !in "(reading 'slice')" && 'K' !in "(reading 'slice')";
  }

  lemma NoVInSliceMessage()
    ensures 'v' !in SliceOfUndefined && 'V' !in SliceOfUndefined
  {
    assert 'v' !in "Cannot read " && 'V' !in "Cannot read ";
    assert 'v' !in "properties of undefined " && 'V' !in "properties of undefined ";
    assert 'v' !in "(reading 'slice')" && 'V' !in "(reading 'slice')";
  }

  /** A `{ reply }` answer with the given status. */
  function Reply(status: nat, text: string): (r: Response)
    ensures r.status == status && Get(r.body, "reply") == Str(text)
  {
    Json(status, map["reply" := Str(text)])
  }

  /** The answer to a completion call: the trimmed reply text, or a 500 with an explanatory reply. */
  function CompletionResponse(call: Call): (r: Response)
    ensures call.Returned? && CompletionText(call.payload).Str? && Truthy(CompletionText(call.payload)) ==>
      r == Reply(200, Trim(CompletionText(call.payload).s))
    ensures call.Returned? && !Truthy(CompletionText(call.payload)) && !call.payload.Undefined? ==>
      r == Reply(500, Texts.NoCompletionReply)
    ensures call == Returned(Undefined) ==> r == Reply(500, Texts.CallFailed)
    ensures call.Returned? && Truthy(CompletionText(call.payload)) && !CompletionText(call.payload).Str? ==>
      r == Reply(500, Texts.CallFailed)
    ensures call.Threw? ==> r == Reply(500, ClassifyError(ErrorMessage(call.err)))
    ensures r.status == 200 || r.status == 500
    ensures Get(r.body, "reply").Str?
  {
    match call
    case Threw(err) => Reply(500, ClassifyError(ErrorMessage(err)))
    case Returned(c) =>
      var reply := CompletionText(c);
      if !Truthy(reply) then
        if c.Undefined? then Reply(500, Texts.CallFailed)  // ClassifyError(SliceOfUndefined), by SliceFailureIsGeneric
        else Reply(500, Texts.NoCompletionReply)
      else if reply.Str? then Reply(200, Trim(reply.s))
      else Reply(500, Texts.CallFailed)  // ClassifyError(TrimNotAFunction), by TrimFailureIsGeneric
  }

  /**
   The `messages` sent for a chat: the system prompt quoting the newest notes
   (or saying there are none), a second system message repeating them when
   there are any, then the user's message.
   */
  function BuildMessages(mem: seq<string>, message: string): (r: seq<ChatMessage>)
    ensures |r| == (if |mem| == 0 then 2 else 3)
    ensures r[0].role == "system" && StartsWith(r[0].content, Texts.SystemPromptHead)
    ensures r[|r| - 1] == ChatMessage("user", message)
    ensures |mem| == 0 ==> r[0].content == Texts.SystemPromptHead + Texts.NoMemoriesYet + "\n"
    ensures |mem| > 0 ==>
      && r[0].content == Texts.SystemPromptHead + MemoryContext(mem, PromptNotes) + "\n"
      && r[1] == ChatMessage("system", Texts.RecentMemoriesHead + MemoryContext(mem, PromptNotes))
      && EndsWith(r[1].content, Bullet(mem[|mem| - 1]))
  {
    var ctx := MemoryContext(mem, PromptNotes);
    var system := Texts.SystemPromptHead + (if ctx != "" then ctx else Texts.NoMemoriesYet) + "\n";
    assert system[..|Texts.SystemPromptHead|] == Texts.SystemPromptHead;
    if |mem| == 0 then
      [ChatMessage("system", system), ChatMessage("user", message)]
    else
      ContextEndsWithNewest(mem, PromptNotes);
      var recent := Texts.RecentMemoriesHead + ctx;
      assert recent[..|Texts.RecentMemoriesHead|] == Texts.RecentMemoriesHead;
      assert recent[|recent| - |Bullet(mem[|mem| - 1])|..] == ctx[|ctx| - |Bullet(mem[|mem| - 1])|..];
      [ChatMessage("system", system), ChatMessage("system", recent), ChatMessage("user", message)]
  }

  /**
   With notes stored, both system messages carry the bulleted newest notes,
   at most six of them, oldest first.
   */
  lemma PromptCarriesNewestNotes(mem: seq<string>, message: string)
    requires |mem| > 0
    ensures var r := BuildMessages(mem, message);
      var newest := Listing(mem[|mem| - (if PromptNotes < |mem| then PromptNotes else |mem|)..]);
      && r[0].content == Texts.SystemPromptHead + newest + "\n"
      && r[1].content == Texts.RecentMemoriesHead + newest
  {
    ContextListsNewest(mem, PromptNotes);
  }
}
