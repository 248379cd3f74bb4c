# Jabber, modelled in Dafny

Jabber is a browser chat widget with a small Node back end. The widget posts
user text to the server. The server either answers it itself or forwards it
to OpenAI (chat completions, image generation) or to DuckDuckGo's Instant
Answer API. The server also keeps in-memory lists of remembered notes and
scheduled items. This project models the parts of Jabber that decide what is
stored and what is shown:

- `index.js`: the note list with its cap, de-duplication and prompt context
  (`MemoryLog`); the normalisers that turn DuckDuckGo, image and
  chat-completion payloads into replies (`Upstream`); and the `/remember`,
  `/memory`, `/generate-image` and `/chat` routes (`Routes`).
- `server.js`: the `/api/chat`, `/api/image`, `/api/search`, `/api/remember`
  and `/api/schedule` handlers and their append-only lists (`Ledger`).
- `Public/script.js`: `sendMessage`, `generateImage`, `searchWeb`, the send
  button and the prompt guards of the More menu, and bubble rendering
  (`Widget`).
- `public/script.js`: `addMessage` with its image-versus-text rule,
  `sendText`, the remember toggle, and the schedule, search and image menu
  items (`MiniClient`).
- `Wiring` connects the clients to the `server.js` handlers. A `fetch` that is
  served by a handler is a function `post` with `post(b) == Deliver(handler(b))`
  for every body `b` the handler answers.
  Over such a `post`, the module proves what the browser ends up showing.

Support modules:

- `JsString` holds trimming, prefix/suffix/infix and joining.
- `JsValue` holds JavaScript values with truthiness, `||`, `&&`, property
  reads and `String(v)`.
- `Http` holds responses and what a `fetch` resolves to.
- `Texts` holds every literal the UI and the handlers use, copied from the
  source.

Everything is a pure function over immutable values. The clock, the session
id, `JSON.stringify`, the OpenAI SDK and DuckDuckGo are parameters.

Some behaviours of the code are worth stating plainly, because they are
easy to assume otherwise:

- `index.js` keeps one process-wide note list and ignores any `sessionId`.
  `server.js` keeps one global conversation.
- Every route checks required fields for truthiness only; `/remember` and
  `/chat` also check that the field is a string. A whitespace-only note is
  acknowledged with `ok` and then dropped by `addMemory`
  (`Routes.BlankNoteAcknowledgedButDropped`).
- `index.js` stores only the user's chat message, and only when `remember`
  is set; it never stores a reply. `server.js` stores both turns of its
  canned echo.
- `index.js` lists the notes at `GET /memory`, and its web mode answers with
  one `reply` string rather than a list of results.
- The `server.js` search always returns the same two canned results, whatever
  the query.
- `String(v)` throws for an object whose own `toString` is not a function,
  and JSON can carry one: `{"toString": 1}`. `server.js` prints the chat
  message and the search query, and `index.js` prints the related topic and
  the image data. The chat handler answers such a message with a 500 after
  storing the user's turn; the search handler, which has no `try`, leaves
  an unhandled promise rejection, and Node (15 and later, by default) ends
  the process on it: that request and every later one go unanswered and the
  three lists are lost (`JsValue.PrintThrows`, `Ledger.ApiChat`,
  `Ledger.ApiSearch`, `Ledger.Run`).

## Model

| member | source | states |
|---|---|---|
| MemoryLog.AddMemory | index.js:54-62 | a non-string, blank or repeated note leaves the list unchanged, and nothing else does; an admitted note is appended trimmed, and past 30 entries the oldest goes |
| MemoryLog.Push | index.js:60-61 | the note becomes the newest entry after the old entries, less the oldest one once the list would pass 30; the list always changes |
| MemoryLog.AddMemoryKeepsValid | index.js:50-62 | the list stays within 30 notes, every note trimmed and non-empty, never two equal notes in a row |
| MemoryLog.FullListEvictsOldest | index.js:60-61 | on a full list an admitted note evicts exactly the oldest entry |
| MemoryLog.SliceFrom | index.js:67 | `slice(start)` with a negative start keeps the last `-start` elements, a non-negative start drops `start`; the result is always a suffix |
| MemoryLog.ContextListsNewest | index.js:65-68 | the context lists the newest `min(n, count)` notes oldest first, one bullet line each; `n == 0` lists every note |
| MemoryLog.JoinedBulletsAreListing | index.js:67 | joining the bullets with newlines equals the line-by-line listing |
| MemoryLog.ContextEndsWithNewest | index.js:65-68 | with a note stored, the context is non-empty and ends with the newest note's bullet |
| MemoryLog.ContextSaturates | index.js:67 | asking for more notes than exist lists them all |
| Upstream.Abstract | index.js:160 | an absent abstract reads as undefined, a string abstract is trimmed, any other value throws |
| Upstream.FindTopic | index.js:165 | `find` returns the first accepted topic; it throws at the first null topic before any match; otherwise nothing matches |
| Upstream.FirstsAreExclusive | index.js:165 | the first match is unique and no topic before it throws |
| Upstream.RelatedReply | index.js:167-169 | the reply is the link mark and the topic's text, followed by `Source:` and the URL exactly when there is a URL; it throws exactly when the text, or a URL that is there, cannot be printed |
| Upstream.NoAnswer | index.js:172 | the fallback reply quotes the query |
| Upstream.WebReply | index.js:158-172 | a non-blank abstract wins; then the first related topic; then the no-answer text quoting the query; it throws exactly when the payload shape, a topic test or printing the chosen topic throws |
| Routes.WebAnswer | index.js:156-177 | web mode replies 200 with the chosen text, or 500 with the web-failure reply when the search or the payload throws |
| Upstream.ImageData | index.js:114 | `b64_json` outranks `url`, and with neither the data is `null` |
| Upstream.NormalizeImage | index.js:114-129 | with no data the answer is the "unexpected response" 500, except that an `undefined` payload throws while being logged and gets "Image generation failed"; an `http` string is passed through; other data is returned both as `imageBase64` and as a base64 PNG data URL, unless its `startsWith` is not callable or it cannot be printed, which gives "Image generation failed"; status 200 exactly when an `imageUrl` string is returned |
| Upstream.ImageUrlDecodes | index.js:122-126 | from a successful answer alone the image data is recovered: an `http` URL is the payload's own link, any other URL is the PNG data URL whose tail is the `imageBase64` sent with it |
| Routes.GenerateImageRoute | index.js:93-131 | 400 without a prompt; 500 without a client or when the SDK throws; otherwise the normalised payload; a 200 always carries an `imageUrl` string |
| Upstream.CompletionText | index.js:218 | the first choice's message content outranks its text |
| Upstream.ClassifyError | index.js:229-236 | the key-problem reply is chosen exactly when the lower-cased message mentions "api key" or "invalid" |
| Upstream.CompletionResponse | index.js:218-236 | a string reply is returned trimmed with 200; no reply gives 500 with the shape message; a truthy reply that is not a string gives 500 with the generic failure; an `undefined` completion throws while being logged and gives 500 with the generic failure; a throw gives 500 with the classified reply; there is always a `reply` string |
| Upstream.NamesNoKeyProblem | index.js:229-236 | a message with no `k` and no `v` in either case is classified as the generic failure |
| Upstream.SliceFailureIsGeneric | index.js:219-220 | the message thrown when `slice` is called on `JSON.stringify(undefined)` mentions neither "api key" nor "invalid", so it is classified as the generic failure |
| Upstream.TrimFailureIsGeneric | index.js:225-236 | the message thrown when `trim` is called on a non-string reply mentions neither "api key" nor "invalid", so it is classified as the generic failure |
| Upstream.BuildMessages | index.js:189-205 | a system prompt, then a second system message only when there are notes, then the user's message; with notes, both system messages carry exactly the six-note memory context, which ends with the newest note; without, the prompt says there are none |
| Upstream.PromptCarriesNewestNotes | index.js:189-203 | both system messages list the newest notes, at most six, oldest first, against the line-by-line reference listing |
| Routes.Acknowledge | index.js:86 | the answer is 200 with `ok: true` and the given `memoryCount` |
| Routes.RememberRoute | index.js:80-87 | 400 exactly when `text` is not a non-empty string, and then the list is unchanged; otherwise the note goes through `addMemory` and the answer is `ok` with the new count |
| Routes.MemoryRoute | index.js:88-90 | lists the newest 30 notes, which is every note of a valid list, and changes nothing |
| Routes.BlankNoteAcknowledgedButDropped | index.js:82-86 | a whitespace-only note gets `ok: true` and is not stored |
| Routes.RememberedNoteIsListed | index.js:80-90 | a remembered non-blank note is then listed by `/memory` as the newest entry, and the list stays valid |
| Routes.ChatRoute | index.js:145-238 | 400 exactly when `message` is not a non-empty string; the note is remembered first when asked; web mode goes to the search, AI mode without a client gives 500, else the completion with the notes in the prompt; every answer carries a reply or error string |
| Routes.ChatUsesOneUpstream | index.js:156-218 | web mode never consults the completion endpoint, and AI mode never consults the search |
| Routes.RememberedMessageReachesPrompt | index.js:153-205 | a message sent with `remember` in AI mode is the newest note the model sees, and the user's message comes last |
| Ledger.EchoReply | server.js:34 | the canned reply quotes the message, which must be printable, since the template literal throws otherwise |
| Ledger.ApiChat | server.js:24-43 | 400 without a truthy message and nothing changes; a message that cannot be printed leaves only the user turn appended and gets 500 "Server error"; otherwise the user turn then an assistant turn quoting it are appended, and that turn's content is the reply |
| Ledger.UnprintableMessageStoredAlone | server.js:30-41 | `{"message": {"toString": 1}}` appends the user turn alone and is answered with 500 "Server error" |
| Ledger.ApiImage | server.js:46-59 | no list changes; 400 exactly without a prompt, otherwise the placeholder URL |
| Ledger.PretendResults | server.js:66-71 | exactly two results, each naming the query, which must be printable |
| Ledger.ApiSearch | server.js:62-72 | no list changes; 400 exactly without a query; the process ends exactly when the query cannot be printed; otherwise two string results naming the query |
| Ledger.ApiRemember | server.js:75-81 | 400 without text and nothing changes; otherwise exactly one note stamped with the clock is appended and returned as `item` |
| Ledger.ApiSchedule | server.js:83-89 | 400 exactly when `when` or `title` is falsy, and nothing changes; otherwise exactly one appointment is appended and returned |
| Ledger.HandleExtends | server.js:16-89 | every handler that answers only appends to the three lists |
| Ledger.HandleCrashesExactly | server.js:62-72 | only the search handler ends the process, and only on a truthy query that cannot be printed |
| Ledger.RunStopsAtCrash | server.js:16-89 | a run of requests loses the lists exactly when one of its requests ends the process |
| Ledger.RunExtends | server.js:16-89 | any sequence of requests the process survives only appends to the lists |
| Ledger.ConversationCountsChats | server.js:24-41 | while the process survives, the conversation grows by exactly two turns per accepted chat request, less one for each whose message cannot be printed, and by nothing else |
| Widget.ReplyOf | Public/script.js:194 | `reply` outranks the first choice's message content, which outranks its text; the result is truthy exactly when one of them is |
| Widget.FoundReply | Public/script.js:186-200 | a reply is found exactly in an ok answer with data whose reply, read in order of precedence, is truthy, and it is that reply |
| Widget.ChatBubbles | Public/script.js:186-213 | one or two bot bubbles: the reply; the warning for a refused answer; for an ok answer with data but no reply, the notice and image bubble for a truthy `imageUrl`, else the no-reply notice; the contact error when the fetch fails |
| Widget.SendMessageAsWritten | Public/script.js:166-218 | as written, the typing bubble stays right after the user's bubble, before the answer's bubbles |
| Widget.SendMessage | Public/script.js:166-218 | corrected (typing bubble removed): blank text does nothing; the user entry is stored first; an assistant entry follows exactly when a reply is found, and the reply is then the last bubble; everything after the user's bubble is exactly the settled answer's bubbles; a refused answer leaves one warning bubble |
| Widget.NoTypingLeftBehind | Public/script.js:177-184 | with the indicator removed, no settled bubble is the typing bubble unless the server's own reply reads exactly like it |
| Widget.OnSendClicked | Public/script.js:444-451 | something is sent exactly when the input is present and not blank, and what is sent is the trimmed input |
| Widget.ButtonSendIsNeverIgnored | Public/script.js:444-451 | a send from the button always shows and stores the trimmed text as the user's |
| Widget.ImageUrlOf | Public/script.js:229 | a top-level `imageUrl` outranks `data[0].url` |
| Widget.FoundImage | Public/script.js:224-230 | an image URL is found exactly in an ok answer with data naming a truthy URL, and it is that URL |
| Widget.ImageBubbles | Public/script.js:225-238 | a found URL gives the announcement and the image bubble; a refused answer gives one bubble quoting the server's error; an ok answer with data but no URL gives the no-URL notice; a failed fetch gives the image error |
| Widget.GenerateImage | Public/script.js:221-240 | the announcement names the prompt; the answer's bubbles follow; the conversation list is not touched |
| Widget.ResultsOf | Public/script.js:251 | `results` outranks an array body; anything else is null |
| Widget.FirstFive | Public/script.js:257 | at most five array elements or characters are picked; other values have no `slice` and throw |
| Widget.ResultBubbles | Public/script.js:257-263 | at most one bubble per picked item and at least one when any was picked; without null items, exactly one link bubble per item, in order |
| Widget.ResultBubblesStopAtNull | Public/script.js:257-263 | the first null or undefined item throws: one link bubble per earlier item, then the error bubble ends the list |
| Widget.SearchBubbles | Public/script.js:246-263 | one to five bubbles; the failure, refusal and nothing-found cases give exactly one |
| Widget.SearchWeb | Public/script.js:243-265 | the announcement, then two to six bubbles in all; the conversation list is not touched |
| Widget.StringResultsShownAsIs | Public/script.js:251-259 | an ok list of strings shows its first five, in order, each as a link line |
| Widget.OpenRememberPrompt | Public/script.js:372-375 | a note is remembered exactly when it is not blank, and then trimmed |
| Widget.OpenSchedulePrompt | Public/script.js:377-386 | the time is asked only after a title; an item is scheduled exactly when both are given |
| Widget.OpenSearchPrompt | Public/script.js:388-392 | any non-empty answer is searched as typed, and nothing else is |
| Widget.OpenImagePrompt | Public/script.js:394-398 | any non-empty answer is drawn as typed, and nothing else is |
| Widget.RenderAsWritten | Public/script.js:110-122 | as written, setting the text after appending the image leaves no image |
| Widget.Render | Public/script.js:110-122 | with the text set first, an image is shown exactly when `imgSrc` is truthy |
| Widget.GeneratedImageLostAsWritten | Public/script.js:110-122 | as written, a generated image ends up as an empty bubble |
| Widget.GeneratedImageShown | Public/script.js:234-235 | corrected, the last bubble shows the URL the answer named |
| MiniClient.ImageExtensionMeansListed | public/script.js:32 | the pattern matches exactly when a dot and a listed extension, in any ASCII case, end the text |
| MiniClient.AddMessage | public/script.js:22-45 | the class is `user` only for `user`; a caption exists exactly when one is given; the content is an image exactly for an `http` text with an image extension, and text otherwise |
| MiniClient.Verdict | public/script.js:73-82 | a non-ok status outranks `error`, which outranks `reply`, which outranks "No reply" |
| MiniClient.Answer | public/script.js:68-87 | a failed fetch, a non-JSON body or a null body all give the unreachable notice; anything else gives the verdict |
| MiniClient.SendText | public/script.js:51-52 | an empty prompt changes nothing; the remember toggle is never changed |
| MiniClient.Settle | public/script.js:68-88 | once `/api/chat` settles, only the last two messages (the user's and the indicator) can go, and at most one is lost overall |
| MiniClient.SendTextKeepsEarlier | public/script.js:51-90 | every message shown before the prompt is still shown, unchanged and in place |
| MiniClient.SendTextAnswersOnce | public/script.js:51-90 | unless the prompt mentions "Thinking", the list gains exactly the user's message and one answer to the server's reply, the indicator having been replaced |
| MiniClient.ThinkingIsDropped | public/script.js:69-71 | the first removal always takes away the thinking indicator |
| MiniClient.StatusOutranksError | public/script.js:73-77 | a non-ok status shows the fixed OpenAI error whatever the body says |
| MiniClient.ErrorOutranksReply | public/script.js:78-82 | an ok answer carrying both `error` and `reply` shows the error |
| MiniClient.ToggleRemember | public/script.js:118-123 | the flag flips and the new setting is reported as a user message |
| MiniClient.ToggleTwiceRestores | public/script.js:118-123 | toggling twice restores the flag, and the two reports name the new setting first and then the old one |
| MiniClient.ScheduleBody | public/script.js:132 | the corrected body carries the typed text as `title`, together with `when` |
| MiniClient.ScheduleAnswer | public/script.js:133-141 | `ok` reads "Scheduled" with text and time, otherwise the error or "unknown"; a throw gives the unreachable notice |
| MiniClient.ScheduleAsWritten | public/script.js:125-142 | nothing happens unless both prompts are answered; the body sent has no `title` |
| MiniClient.Schedule | public/script.js:125-142 | nothing happens unless both prompts are answered; then two messages follow, the last reading the server's answer |
| MiniClient.SearchAnswer | public/script.js:148-158 | only the first result is shown; no results give the no-answer text; a throw gives the failure notice |
| MiniClient.Search | public/script.js:144-159 | a non-empty query is announced and then answered by exactly one message |
| MiniClient.SearchShowsFirstOnly | public/script.js:151-152 | a list of several results shows the first one only |
| MiniClient.ImageAnswer | public/script.js:173-179 | `imageUrl` outranks `error`, which outranks the generic failure |
| MiniClient.ImageItem | public/script.js:161-185 | a non-empty prompt is announced; the indicator is replaced by the answer, or by the unreachable notice when the fetch fails |
| MiniClient.GeneratingIsDropped | public/script.js:169-171 | the removal always takes away the "Generating image" indicator |
| Wiring.ChatAnswered | server.js:24-38 | the chat handler answers an accepted message with the stored reply, a string starting with "I" |
| Wiring.WidgetMirrorsServerConversation | Public/script.js:166-200 | the widget's local list gains the same two entries, with the same roles and contents, as the server's conversation, and the reply is the last bubble |
| Wiring.MiniChatWithServer | public/script.js:51-90 | against the chat handler, the small client ends with a text message quoting the prompt |
| Wiring.WidgetShowsBothServerResults | Public/script.js:243-260 | against the search handler, the widget shows exactly two link bubbles, each naming the query |
| Wiring.WidgetImageFromServer | Public/script.js:221-235 | against the image handler, the widget's last bubble has the placeholder URL; as written it renders empty, and corrected it shows that URL |
| Wiring.MiniImageFromServerIsText | public/script.js:173-174 | the small client shows the placeholder URL as text, not as an image |
| Wiring.PlaceholderIsNotImageText | server.js:53 | the placeholder URL ends in a query string, so the image rule rejects it |
| Wiring.ScheduleAlwaysRefused | public/script.js:125-141 | as written, every schedule attempt is refused by the handler, which changes nothing; the client shows "Could not schedule" with the handler's error |
| Wiring.ScheduleWithTitleStored | public/script.js:125-141 | corrected, the handler stores the appointment and the client reports it as scheduled |

## Left out

- `jabber.js` and the top-level `script.js` are other variants of the widget and are not part of this model.
- Express plumbing, static file serving, CORS, `dotenv` and the catch-all `GET *` route are framework wiring with no logic of their own.
- `GET /status` in `index.js` only reports configuration and the note count.
- The `catch` of `/api/image` in `server.js` is left out: that handler prints nothing and cannot throw once the body is parsed. The `catch` of `/api/chat` is modelled, for a message that cannot be printed.
- The OpenAI SDK and DuckDuckGo's API are function parameters that return a payload or throw. Model names, `max_tokens`, `temperature` and the query URL encoding are not modelled.
- `duckDuckGoInstant` is not modelled beyond its result. A missing `fetch` and a non-JSON answer are both a thrown call.
- `rememberItem` and `scheduleItem` in `Public/script.js` are left out because their fallbacks depend on `localStorage`. The local conversation list of `sendMessage` is modelled, but its saving to `localStorage` is not.
- Session ids (`genId`, `localStorage`), `new Date().toISOString()` and `JSON.stringify` are parameters.
- The `pending` flag of `Public/script.js` is left out. It only matters when two sends interleave, and asynchronous interleaving is not modelled.
- DOM styling, `scrollIntoView`, the greeting timers and dropdown positioning are left out. Menu dispatch and the outside-click hiding are left out as well. Only what the prompt guards lead to is modelled.
- `console.error` logging is left out, and so is the `detail` field, which only the 500 answers carry.
- `_jabber_clearMemory` in `public/script.js` is left out. It posts to a route that neither server defines.
- Numbers are integers: JSON fractions are not modelled, although `server.js` prints whatever number `message` or `query` is, so `{"message": 1.5}` is echoed as "1.5". `JsValue.IntToStr` prints every integer in plain decimal, while JavaScript prints integers from 1e21 up in exponent form ("1e+21"), and `JSON.parse` rounds integers above 2^53; neither is modelled.
- Strings are sequences of Unicode scalar values, not UTF-16 code units. `length`, indexing and `slice` can differ for characters outside the Basic Multilingual Plane.
- Case folding (`toLowerCase`, the `/i` flag) is modelled for ASCII letters only.
- `Ledger.Run`: an unhandled rejection is taken to end the process, the default of Node 15 and later; on an older runtime, or with an `unhandledRejection` handler installed, the request would instead hang and the server would go on serving. After the crash the model stops: a restart, which begins again from empty lists, is not modelled.
- `Widget.ChatBubbles`: `String(v)` of an error or reply object is modelled as JavaScript prints plain objects, `[object Object]`. That printing throws for an object with a `toString` field is not modelled in the browser code.
- `MiniClient.Verdict`: `'⚠️ ' + data.error` throws for an error object with a `toString` field, which would take the `catch` path; the model prints it as `[object Object]`. `MiniClient.AddMessage` likewise does not model that setting `textContent` to such a value throws.
- `Upstream.ErrorMessage`: the SDK is taken to throw errors whose `message` can be printed; an error object with an unprintable `message` would make the `catch` blocks of `/chat` and `/generate-image` themselves throw; that rejection is unhandled, so, as for the search handler of `server.js`, Node 15 and later would end the process.
- `Widget.SearchBubbles`: the ok case with results is stated through `Widget.ResultBubbles` and `Widget.StringResultsShownAsIs` rather than in its own contract.
- `MiniClient.SendText`: its own contract covers only the empty prompt and the toggle. `MiniClient.SendTextAnswersOnce` gives the exact list only when the user's own message does not contain "Thinking"; otherwise the removal can take the user's message too, and that case is stated only through `MiniClient.SendTextKeepsEarlier`.
- `MiniClient.ScheduleAsWritten`: its contract states the missing `title`. What the client then shows is stated by `Wiring.ScheduleAlwaysRefused`.

## Findings

| source | as written | input that shows it | evidently intended | confidence | as-written member | corrected member |
|---|---|---|---|---|---|---|
| public/script.js:132 | the schedule item posts `{ sessionId, text, when }`, but `server.js:85` refuses any body without a truthy `title` | any text and time, e.g. "Dentist" and "9am": the answer is 400 "Missing when or title" | the typed text is sent as the `title`, so the appointment is stored | high, not executed | Wiring.ScheduleAlwaysRefused | Wiring.ScheduleWithTitleStored |
| Public/script.js:177 | `appendBubble` returns nothing, so `showTyping` is `undefined` and the typing bubble is never removed | any non-blank message: the indicator stays on screen after the answer | the indicator is removed when the request settles | high, not executed | Widget.SendMessageAsWritten | Widget.NoTypingLeftBehind |
| Public/script.js:110-122 | `createBubble` appends the image and then sets `textContent`, which replaces every child, the image included | a generated image answer: `{ imgSrc: url }` renders as an empty bubble | the bubble shows the image | high, not executed | Widget.GeneratedImageLostAsWritten | Widget.GeneratedImageShown |
