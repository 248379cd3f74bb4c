/**
 The fixed texts of the Jabber server and widgets, copied character for
 character (including the mis-decoded emoji of Public/script.js, which the
 browser shows as written).
 */
module Texts {

  // index.js
  /** `/remember` without a string `text` (index.js:83) */
  const RememberUsage: string := "send { text: '...' } in body"
  /** `/generate-image` without a prompt (index.js:95) */
  const PromptRequired: string := "prompt required"
  /** `/generate-image` without an OpenAI client (index.js:99) */
  const ImageClientMissing: string := "OpenAI client not configured on server. Set OPENAI_API_KEY and install openai SDK."
  /** image response with neither `b64_json` nor `url` (index.js:118) */
  const ImageUnexpected: string := "Could not generate image (unexpected response)"
  /** prefix turning base64 data into an image URL (index.js:126) */
  const DataUrlPrefix: string := "data:image/png;base64,"
  /** image generation threw (index.js:129) */
  const ImageFailed: string := "Image generation failed"
  /** `/chat` without a string `message` (index.js:149) */
  const ChatUsage: string := "send { message: '...' } in body"
  /** prefix of an Instant Answer abstract (index.js:162) */
  const AbstractMark: string := "🔎 "
  /** prefix of a related-topic reply (index.js:169) */
  const RelatedMark: string := "🔗 "
  /** separator before a related-topic source URL (index.js:169) */
  const SourceMark: string := "\n\nSource: "
  /** web fallback, before the quoted query (index.js:172) */
  const NoAnswerOpen: string := "🤔 I searched the web but couldn't find a concise Instant Answer for \""
  /** web fallback, after the quoted query (index.js:172) */
  const NoAnswerClose: string := "\"."
  /** web search threw (index.js:175) */
  const WebFailed: string := "⚠️ Web search failed on server."
  /** `/chat` in AI mode without an OpenAI client (index.js:184) */
  const ChatClientMissing: string := "⚠️ Error calling OpenAI (server not configured). Set OPENAI_API_KEY in Render (or .env for local) and restart."
  /** system prompt text when no memory exists (index.js:197) */
  const NoMemoriesYet: string := "(no memories yet)"
  /** head of the extra system message listing memories (index.js:203) */
  const RecentMemoriesHead: string := "Recent memories:\n"
  /** completion without reply text (index.js:221) */
  const NoCompletionReply: string := "⚠️ Error: no reply from OpenAI (unexpected response shape)."
  /** completion error that looks like a key problem (index.js:232) */
  const KeyProblem: string := "⚠️ Error calling OpenAI (check server logs and OPENAI_API_KEY)."
  /** any other completion error (index.js:236) */
  const CallFailed: string := "⚠️ Error calling OpenAI (see server logs)"
  /** error message when the error carries none (index.js:229) */
  const UnknownError: string := "unknown error"

  // server.js
  /** `/api/chat` without a message (server.js:27) */
  const NoMessage: string := "No message provided"
  /** fallback chat reply, before the message (server.js:34) */
  const EchoOpen: string := "I heard you say \""
  /** fallback chat reply, after the message (server.js:34) */
  const EchoClose: string := "\"" + ". (This is a local fallback reply from the server.)"
  /** `/api/chat` when building the reply throws (server.js:41) */
  const ChatServerError: string := "Server error"
  /** `/api/image` without a prompt (server.js:49) */
  const NoPrompt: string := "No prompt provided"
  /** the image every `/api/image` call returns (server.js:53) */
  const PlaceholderUrl: string := "https://via.placeholder.com/512x512.png?text=Image+Placeholder"
  /** `/api/search` without a query (server.js:64) */
  const NoQuery: string := "No query provided"
  /** first canned search result, before the query (server.js:68) */
  const PretendResult: string := "Pretend search result for: "
  /** second canned search result, before the query (server.js:69) */
  const AnotherResult: string := "Another result for: "
  /** `/api/remember` without text (server.js:77) */
  const NoText: string := "No text to remember"
  /** `/api/schedule` without `when` or `title` (server.js:85) */
  const MissingWhenOrTitle: string := "Missing when or title"

  // Public/script.js
  /** typing indicator (Public/script.js:177) */
  const Typing: string := "â³ Jabber is typing..."
  /** failed chat without a reply (Public/script.js:188) */
  const NoServerReply: string := "âš\U{00A0}ï¸ No reply from server. (fallback)"
  /** warning prefix of a failed chat (Public/script.js:189) */
  const WarnMark: string := "âš\U{00A0}ï¸ "
  /** caption of an image answer to a chat (Public/script.js:203) */
  const GeneratedImage: string := "Generated image:"
  /** chat answer without reply or image (Public/script.js:206) */
  const NoApiReply: string := "âš\U{00A0}ï¸ No reply from API."
  /** chat request could not be sent (Public/script.js:213) */
  const ContactError: string := "âš\U{00A0}ï¸ Error contacting server. See console."
  /** first bubble of an image request (Public/script.js:222) */
  const GeneratingFor: string := "ðŸ–Œï¸ Generating image for: "
  /** failed image request (Public/script.js:226) */
  const CouldNotGenerate: string := "âš\U{00A0}ï¸ Could not generate image: "
  /** failure reason when the body has no error (Public/script.js:226) */
  const ServerError: string := "server error"
  /** image answer without a URL (Public/script.js:231) */
  const NoImageUrl: string := "âš\U{00A0}ï¸ No image URL returned."
  /** caption of a generated image (Public/script.js:234) */
  const HereYouGo: string := "Here you go â€” generated image:"
  /** image request could not be sent (Public/script.js:237) */
  const ImageError: string := "âš\U{00A0}ï¸ Error generating image."
  /** first bubble of a search (Public/script.js:244) */
  const SearchingFor: string := "ðŸ”Ž Searching the web for: "
  /** failed search (Public/script.js:248) */
  const SearchFailed: string := "âš\U{00A0}ï¸ Search failed: "
  /** search without results (Public/script.js:253) */
  const NothingFound: string := "ðŸ¤” I searched but couldn't find a clear Instant Answer."
  /** separator between a result title and snippet (Public/script.js:258) */
  const TitleSnippetSep: string := " â€” "
  /** prefix of each search result (Public/script.js:259) */
  const LinkMark: string := "ðŸ”— "
  /** search request could not be sent (Public/script.js:262) */
  const SearchError: string := "âš\U{00A0}ï¸ Error while searching."

  // public/script.js
  /** welcome message (public/script.js:48) */
  const Welcome: string := "Hello — I am Jabber. Ask me anything!"
  /** label of the user's own message (public/script.js:53) */
  const YouLabel: string := "You:"
  /** thinking indicator (public/script.js:55) */
  const Thinking: string := "⏳ Thinking..."
  /** word that marks the thinking indicator (public/script.js:71) */
  const ThinkingWord: string := "Thinking"
  /** chat answered with a non-2xx status (public/script.js:74) */
  const OpenAiError: string := "⚠️ Error calling OpenAI (check server logs and OPENAI_API_KEY)."
  /** prefix of a server-reported error (public/script.js:79) */
  const WarnPrefix: string := "⚠️ "
  /** chat answer without reply (public/script.js:82) */
  const NoReply: string := "No reply"
  /** chat request failed (public/script.js:87) */
  const ServerUnreachable: string := "⚠️ Could not reach server — placeholder reply shown."
  /** remember toggle message (public/script.js:122) */
  const SelectedRemember: string := "Selected: remember -> "
  /** remember state on (public/script.js:122) */
  const OnWord: string := "ON"
  /** remember state off (public/script.js:122) */
  const OffWord: string := "OFF"
  /** schedule action message (public/script.js:130) */
  const SelectedSchedule: string := "Selected: schedule"
  /** schedule accepted (public/script.js:135) */
  const Scheduled: string := "✅ Scheduled: "
  /** separator between what and when (public/script.js:135) */
  const ScheduledSep: string := " — "
  /** schedule refused (public/script.js:137) */
  const CouldNotSchedule: string := "⚠️ Could not schedule: "
  /** refusal without an error (public/script.js:137) */
  const UnknownReason: string := "unknown"
  /** schedule request failed (public/script.js:140) */
  const ScheduleFailed: string := "⚠️ Schedule failed (server unreachable)."
  /** search action message, before the query (public/script.js:147) */
  const SearchingWebOpen: string := "Searching web for: \""
  /** search action message, after the query (public/script.js:147) */
  const SearchingWebClose: string := "\""
  /** prefix of the first search result (public/script.js:152) */
  const AnswerMark: string := "🔎 "
  /** search without results (public/script.js:154) */
  const NoInstantAnswer: string := "🤔 I searched the web but couldn't find a clear Instant Answer."
  /** search request failed (public/script.js:157) */
  const WebSearchFailed: string := "⚠️ Web search failed (no server implementation)."
  /** image action message, before the prompt (public/script.js:164) */
  const GeneratingImageFor: string := "Generating image for: "
  /** image progress indicator (public/script.js:165) */
  const GeneratingImage: string := "⏳ Generating image..."
  /** words that mark the image progress indicator (public/script.js:171) */
  const GeneratingWord: string := "Generating image"
  /** image refused with an error (public/script.js:176) */
  const CouldNotGenerateImage: string := "⚠️ Could not generate image: "
  /** image refused without an error (public/script.js:178) */
  const ImageNotGenerated: string := "⚠️ Could not generate image."
  /** image request failed (public/script.js:183) */
  const ImageUnreachable: string := "⚠️ Could not generate image (server unreachable)."

  /** The system prompt up to the memory block (index.js:190-196). */
  const SystemPromptHead: string :=
    "You are \"Jabber\", a helpful assistant for the user. Be concise when possible.\n- Always be friendly.\n- If a clear factual answer is requested, answer directly.\n- If user asked to browse the web (mode web), use the web API instead.\n- When returning web-search results include an emoji 🔎 for the main text, and 🔗 for a source link.\n  \nMemory (latest):\n"
}
