# Trends agent front end: chat route and transcript display

A Dafny model of the two pieces of logic in the trends chat client that are
not UI or I/O:

- **The chat route** (`src/pages/api/chat.ts`). It takes the content of the
  newest transcript message as the query. It POSTs `{text}` to
  `AGENT_URL + "/trends"`, with `""` as the base when `AGENT_URL` is unset.
  It renders the agent's `platformTrends` as one Markdown text: each entry
  is `**platform**:`, four newlines, the entry's text, four newlines and
  `---`, and entries are separated by four newlines. The result is a
  `text/plain` 200 response. A timed-out call gives 504
  `{"error":"Request timed out"}`. A non-2xx status or any other failure
  gives 500 `{"error":"Failed to fetch from agent server"}`, with no retry.
  An empty transcript throws before the `try`, so the route produces no
  envelope of its own (`Uncaught`).
- **The transcript display** (`src/pages/index.tsx`). `chunkString` splits a
  message on `" "` exactly as JavaScript's `split(" ")` does: `""` gives `[""]`
  and consecutive spaces give empty words. It then emits word pairs, each
  followed by a space, and drops an odd final word. The page decides whether
  to animate the newest message (loading, and the newest message is not the
  user's). It then shows either the whole transcript, or all but the newest
  message plus that message's chunks.

Modules: `Optional` (Option), `Strings` (split, join, concatenation),
`Messages` (the transcript entry), `Chunking` (`chunkString`), `Home`
(display selection), `ChatApi` (the route).

A trend entry's parts are separated by four newlines, and so are the
entries. An odd final word of the newest message is not animated.

## Model

| member | source | states |
|---|---|---|
| Strings.Split | src/pages/index.tsx:9 | `split(" ")` gives one more word than there are spaces, and no word contains a space |
| Strings.Join | src/pages/api/chat.ts:43 | `join` of no parts is `""`, and a join of one or more parts starts with the first part |
| Strings.JoinSplit | src/pages/index.tsx:9 | joining the words of a split with `" "` gives back the original string |
| Strings.SplitJoin | src/pages/index.tsx:9 | splitting a `" "`-join of space-free words gives back exactly those words (split is the inverse of join) |
| Strings.JoinAppend | src/pages/api/chat.ts:41-43 | `join` of two non-empty lists is the two joins with one separator between them |
| Strings.JoinLength | src/pages/api/chat.ts:43 | a join of k ≥ 1 parts is as long as the parts plus k−1 separators |
| Chunking.ChunkString | src/pages/index.tsx:8-20 | the loop returns exactly the pair chunks of the split words: ⌊n/2⌋ of them, chunk j being word 2j, a space, word 2j+1, a space |
| Chunking.PairsLength | src/pages/index.tsx:12-16 | there are ⌊n/2⌋ chunks for n words, empty words included |
| Chunking.PairsAt | src/pages/index.tsx:12-15 | chunk j is built from words 2j and 2j+1, so chunk order is word order |
| Chunking.PairsConcat | src/pages/index.tsx:12-16 | the chunks written out are the words joined by spaces plus a trailing space (even n), or that join without its last word (odd n) |
| Chunking.ChunksOfEvenWordCount | src/pages/index.tsx:8-20 | with an even word count the chunks spell out `str + " "` |
| Chunking.ChunksOfOddWordCount | src/pages/index.tsx:8-20 | with an odd word count the chunks spell out `str` without its last word, which appears in no chunk |
| Chunking.NoChunksWithoutSpace | src/pages/index.tsx:9-14 | `""` and every one-word string give no chunks |
| Home.ShouldAnimateLastMessage | src/pages/index.tsx:25 | animating implies loading and a non-empty transcript; for a non-empty one it holds iff loading and the newest role is not `"user"` |
| Home.AnimationDependsOnNewestMessage | src/pages/index.tsx:25 | never animates an empty transcript; otherwise animates iff loading and the newest message's role is not `"user"` |
| Home.StaticMessages | src/pages/index.tsx:78 | statically shown messages are a prefix of the transcript: all of it, or all but the newest when animating |
| Home.AnimatedChunks | src/pages/index.tsx:87-90 | the animated block exists iff animating, and then holds the chunks of the newest message's content |
| Home.Render | src/pages/index.tsx:69-90 | placeholder iff the transcript is empty; the static messages followed by the animated message are exactly the transcript, each message once and in order |
| Home.AnimatedTextIsNewestContent | src/pages/index.tsx:87-90 | the animated text is the newest message plus a space (even word count) or that message without its last word (odd) |
| ChatApi.BaseUrl | src/pages/api/chat.ts:10 | an unset `AGENT_URL` gives the empty base; a set one is used as it is |
| ChatApi.Outbound | src/pages/api/chat.ts:9-26 | a request exists iff the transcript is non-empty; it is a JSON POST to base + `/trends` whose text is the newest message's content |
| ChatApi.RenderEntry | src/pages/api/chat.ts:42 | a rendered entry is 16 characters longer than its platform name and text together |
| ChatApi.RenderEntryLayout | src/pages/api/chat.ts:42 | an entry renders as `**platform**:`, four newlines, its text, four newlines, `---`, each piece at its fixed position |
| ChatApi.RenderAll | src/pages/api/chat.ts:41-42 | one rendering per trend entry, in input order |
| ChatApi.RenderAllAppend | src/pages/api/chat.ts:41-42 | rendering a concatenation of entry lists renders each list in turn |
| ChatApi.FormatTrends | src/pages/api/chat.ts:41-43 | the text is empty iff there are no entries, and otherwise starts with the first entry's rendering |
| ChatApi.IsOk | src/pages/api/chat.ts:33 | `response.ok` holds exactly for statuses in the 2xx class |
| ChatApi.Respond | src/pages/api/chat.ts:33-65 | status is 200, 500 or 504; 200 iff a 2xx readable response, then `text/plain` with the formatted trends; 504 iff aborted, with the timeout envelope; 500 otherwise, with the failure envelope |
| ChatApi.Handle | src/pages/api/chat.ts:4-67 | uncaught iff the transcript is empty; otherwise the one request sent is the outbound request and the response is decided by that one call |
| ChatApi.HandleForwardsNewestMessage | src/pages/api/chat.ts:9-34 | the agent gets exactly the newest content at `AGENT_URL/trends`, and the reply is 504 iff that call was aborted |
| ChatApi.SuccessBodyStart | src/pages/api/chat.ts:41-48 | every success body is empty or starts with `*` |
| ChatApi.TimeoutIsNeverSuccess | src/pages/api/chat.ts:55-60 | an abort gives 504 and a body that differs from every possible success body |
| ChatApi.MissingTrendsAreEmpty | src/pages/api/chat.ts:40-48 | a missing `platformTrends`, like an empty one, gives 200 `text/plain` with an empty body |
| ChatApi.FormatTrendsAppend | src/pages/api/chat.ts:41-43 | entries stay in input order: the text of `a + b` is the text of `a`, a separator, the text of `b` |
| ChatApi.FormatTrendsLength | src/pages/api/chat.ts:41-43 | k ≥ 1 entries produce exactly k−1 separators besides their renderings |
| ChatApi.TwoPlatformExample | src/pages/api/chat.ts:41-43 | entries X/A and Y/B format to `**X**:`, 4 newlines, `A`, 4 newlines, `---`, 4 newlines, `**Y**:`, 4 newlines, `B`, 4 newlines, `---` |

## Left out

- `fetch`, `AbortController` and the `setTimeout`/`clearTimeout` timer (src/pages/api/chat.ts:13-31, 51) are network I/O and timers. They appear only as the `fetch` parameter and its `Outcome`; the 25-second deadline shows up only as the `Aborted` outcome.
- JSON parsing of the request and of the agent's answer is not modelled (src/pages/api/chat.ts:6, 37). The agent's answer is the `Payload` datatype. A body that cannot be read or mapped is `Unreadable`, and a missing or falsy `platformTrends` is `Trends(None)`.
- ChatApi.Outbound: the outbound body is the structured `text` field, not its `JSON.stringify` text.
- ChatApi.RenderEntry: `platform` and `trendsResponse` are strings. The template literal's conversion of non-string values (such as `undefined`) is not modelled.
- Message contents are strings. Non-string `content` values in the request are not modelled.
- `console.log` and `console.error` are logging only (src/pages/api/chat.ts:38, 52).
- React rendering, animation, icons, `<Head>` metadata and analytics are UI only (src/pages/index.tsx:39-131). The view is reduced to the placeholder flag, the static messages and the animated chunks.
- The scroll-to-bottom effect is DOM mutation driven by the browser (src/pages/index.tsx:30-37).
- The `useChat` hook's state management is third-party code (src/pages/index.tsx:23). Its `messages` and `isLoading` are parameters.
- src/pages/_app.tsx configures the wallet SDK provider and has no logic of its own.
