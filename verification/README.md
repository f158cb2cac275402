# Chat assistant pipeline, access rules and chat endpoint

This project models the chat assistant of a club-scheduling web application, together with the
page access rules and the chat endpoint in front of it.

- **Chat service.** The service sends a conversation to a language model. It runs any tool calls
  the model asks for. These are `create_event`, `get_events` and `get_courts`, and each one is
  dispatched to a data store. The service streams what happens as server-sent event frames of
  the form `data: <json>\n\n`. The frame types are `text`, `tool_start`, `tool_end`, `done` and
  `error`.
- **Client hook.** The hook in the chat window reads those frames chunk by chunk. It cuts them
  at blank lines, keeps the unterminated rest in a buffer and folds each event into the message
  list and the tool status line.
- **Middleware.** It decides, from the path and the session, whether a page request goes on,
  is sent to sign in or is sent to the member's own profile.
- **Chat endpoint.** It checks the request body, then looks up the member, then opens the
  stream.

## Modules

| file | module | what it holds |
|---|---|---|
| `wrappers.dfy` | `Wrappers` | `Option` and `Result` |
| `json.dfy` | `Json` | JSON values; property lookup, and the `??` operator as `Coalesce` |
| `json_text.dfy` | `JsonText` | `JSON.stringify` and `JSON.parse` for flat objects of string members (the shape of every event frame), with their round trip |
| `stream_event.dfy` | `StreamEvents` | the event type, the `data: <json>\n\n` frame encoding, the frame round trip |
| `chat_model.dfy` | `ChatModel` | roles, messages, the three tool parameter records and how they are read from a tool input |
| `chat_tools.dfy` | `ChatTools` | the tool catalog as declared to the model, and how its schemas agree with the parameter records |
| `chat_service.dfy` | `ChatService` | `executeToolCall`; the tool-use loop as the method `ProcessChatStream`, specified by the function `Drive`; the stream's ordering properties |
| `use_chat.dfy` | `UseChat` | the client's frame splitting and event fold as functions; the hook's state as the class `ChatClient` |
| `middleware.dfy` | `Middleware` | the matcher and the access decision |
| `chat_route.dfy` | `ChatRoute` | the chat endpoint's checks and responses |
| `chat_pipeline.dfy` | `ChatPipeline` | the service's stream read by the client, end to end |

The language model is a function from the conversation so far and the number of calls still
allowed to its next reply. That number falls by one per call, so the model may answer the
same conversation differently each time it is asked. A reply carries a stop reason and content
blocks, or it marks that the call threw. The source's loop
has no iteration cap, so `Drive` takes a fuel bound. When the fuel runs out, the run ends with
outcome `Unfinished` and no terminal frame. The stores are functions from the store call to
its result (`Stores`), and any of them may throw.

## Model

| member | source | states |
|---|---|---|
| `ChatService.PlanToolCall` | src/domains/chat/chat.service.ts:58-130 | a tool name falls to the unknown-tool case exactly when it is none of the three dispatched names, and that case keeps the name |
| `ChatService.ExecuteToolCall` | src/domains/chat/chat.service.ts:127-128 | an unknown tool name never throws and yields the payload `{error: "알 수 없는 도구: <name>"}`; only a dispatched tool can fail |
| `ChatService.CatalogIsDispatched` | src/domains/chat/chat.service.ts:65-128 | a name is in the tool catalog exactly when `executeToolCall` has a dedicated case for it |
| `ChatService.CreateEventPlan` | src/domains/chat/chat.service.ts:65-76 | `create_event` always writes the caller's member seq as host, and maps an absent `location_name`, `location_url` or `description` to null |
| `ChatService.CreateEventFromParams` | src/domains/chat/chat.service.ts:65-76 | for an input built from a `CreateEventToolParams` record, the write carries exactly the record's fields, with null for each absent optional one |
| `ChatService.CreateEventOptionalsOrNull` | src/domains/chat/chat.service.ts:71-74 | `?? null` on each optional field of a record's input is that field, or null when it is absent |
| `ChatService.GetEventsPlan` | src/domains/chat/chat.service.ts:89-94 | `get_events` always asks for page 1 with limit 50, filtered by the input's year and month |
| `ChatService.GetEventsFromParams` | src/domains/chat/chat.service.ts:89-94 | for a `GetEventsToolParams` record, the query carries its year and month |
| `ChatService.GetCourtsPlan` | src/domains/chat/chat.service.ts:111-113 | `get_courts` uses the given page and limit, and 1 and 20 when a field is absent or null |
| `ChatService.GetCourtsFromParams` | src/domains/chat/chat.service.ts:111-113 | for a `GetCourtsToolParams` record, an absent page is 1 and an absent limit is 20 |
| `ChatService.CreatedPayloadReportsRecord` | src/domains/chat/chat.service.ts:77-85 | the `create_event` payload says `success: true` and carries the stored event's id and title |
| `ChatService.CreateEventReportsSuccess` | src/domains/chat/chat.service.ts:65-86 | whenever `create_event` does not throw, its payload reports `success: true` |
| `ChatService.ListPayloadsKeepRows` | src/domains/chat/chat.service.ts:95-124 | the `get_events` and `get_courts` payloads list every row the store returned, in order, one item per row |
| `ChatService.Seed` | src/domains/chat/chat.service.ts:152-157 | the model's history starts as the request's messages, one turn per message with the same role and content |
| `ChatService.WalkToolUseBlocks` | src/domains/chat/chat.service.ts:173-230 | the walk over a `tool_use` reply's blocks gives the frames, history and thrown flag of the specification `ToolUseBlocks` |
| `ChatService.StreamFinalTexts` | src/domains/chat/chat.service.ts:231-246 | the frames of a final reply are those of the specification `FinalTexts` |
| `ChatService.Respond` | src/domains/chat/chat.service.ts:163-247 | one model reply: the frames and history it adds and whether the run ends there, as `Drive` states for that reply |
| `ChatService.ProcessChatStream` | src/domains/chat/chat.service.ts:142-268 | the frames, the final history and the outcome of the loop are those of the specification `Drive` on the seeded history |
| `ChatService.DriveStep` | src/domains/chat/chat.service.ts:162-247 | one turn of the loop moves the run from the reply's frames to the rest of the conversation without changing its result |
| `ChatService.DriveWellFormed` | src/domains/chat/chat.service.ts:162-265 | every stream is completed `text` frames and `tool_start`/`tool_end` pairs of one name, then `done` on a finished run, or then at most one unpaired `tool_start` and one `error` on a failed run |
| `ChatService.DriveSingleTerminal` | src/domains/chat/chat.service.ts:250-264 | at most one terminal frame, always the last; `done` exactly when finished, `error` exactly when failed; every `error` frame carries only the generic message |
| `ChatService.StepShape` | src/domains/chat/chat.service.ts:186-212 | within one `tool_use` reply every tool block streams `tool_start` then `tool_end` of the same name, never overlapping; a throwing tool leaves only its `tool_start` last |
| `ChatService.StepTools` | src/domains/chat/chat.service.ts:171-212 | the tools started are a prefix of the reply's tool blocks, in block order, and all of them when nothing threw |
| `ChatService.StepHistory` | src/domains/chat/chat.service.ts:198-228 | the history only grows; each tool block that ran appends the assistant turn with the whole reply content and then a user turn with one result holding the executor's payload for that block; when no tool threw, every tool block ran |
| `ChatService.ToolBlockResultsIds` | src/domains/chat/chat.service.ts:219-227 | the tool results sent back carry the ids of the tool blocks, in block order |
| `ChatService.AppendsToolTurnsLength` | src/domains/chat/chat.service.ts:215-228 | k tool results add exactly 2k turns |
| `ChatService.StepTexts` | src/domains/chat/chat.service.ts:175-184 | in a `tool_use` reply only non-empty text blocks are streamed, all of them in order when nothing threw |
| `ChatService.FinalTextsKeepEveryText` | src/domains/chat/chat.service.ts:231-246 | a final reply streams every text block, empty ones included, in order, and nothing else |
| `ChatService.UnknownToolContinues` | src/domains/chat/chat.service.ts:198-228 | an unknown tool is still paired with `tool_end` and its error payload goes back to the model as the tool result |
| `ChatService.LoopExitsOnFinalReply` | src/domains/chat/chat.service.ts:171-253 | a reply whose stop reason is not `tool_use` ends the run with its texts and `done`; a `tool_use` reply that did not throw continues the loop on the grown history |
| `ChatService.EmptyToolUseAsksAgain` | src/domains/chat/chat.service.ts:162-230 | a `tool_use` reply without tool blocks streams nothing and the loop asks the model again about the same conversation |
| `ChatService.AskedAgainCanFinish` | src/domains/chat/chat.service.ts:162-253 | a model that first answers an empty `tool_use` reply and then a final reply ends the stream with `done` |
| `ChatService.DriveHistoryExtends` | src/domains/chat/chat.service.ts:162-247 | the loop only appends to the history |
| `UseChat.SplitJoin` | src/hooks/useChat.ts:62 | joining the pieces of `split('\n\n')` with the delimiter gives the text back |
| `UseChat.SplitPiecesHaveNoDelimiter` | src/hooks/useChat.ts:62 | no piece of the split holds the delimiter |
| `UseChat.LastPieceIsWhole` | src/hooks/useChat.ts:62-63 | the piece kept as the buffer never holds a complete frame |
| `UseChat.SplitAppend` | src/hooks/useChat.ts:60-63 | the cuts before the last piece do not depend on what is appended later |
| `UseChat.SplitFrames` | src/hooks/useChat.ts:62 | frames whose bodies hold no line feed split back into exactly those bodies |
| `UseChat.SplitEncoded` | src/hooks/useChat.ts:62 | the service's stream splits into one piece per event and an empty rest |
| `UseChat.ToolLabel` | src/hooks/useChat.ts:84-94 | the generic label is shown exactly for a tool that is none of the three catalog names |
| `UseChat.HandlePayloads` | src/hooks/useChat.ts:64-113 | handling the service's frames for a list of events folds exactly those events, in order |
| `UseChat.SkippedLines` | src/hooks/useChat.ts:66-117 | a segment without the `data: ` prefix, or whose JSON does not parse, leaves the state unchanged |
| `UseChat.ConsumeAll` | src/hooks/useChat.ts:56-119 | after any sequence of chunks, every complete frame of everything read so far has been handled in order, and the unterminated rest is the buffer |
| `UseChat.EncodedStreamAnyChunking` | src/hooks/useChat.ts:56-119 | the service's frames, cut into any chunks, are read as exactly its events, with an empty buffer at the end |
| `UseChat.TextEventAppends` | src/hooks/useChat.ts:73-82 | a `text` event appends to the last message when it is the assistant's and changes nothing otherwise |
| `UseChat.ErrorEventOverwrites` | src/hooks/useChat.ts:100-113 | an `error` event overwrites the last assistant message with its content; `done` changes nothing |
| `UseChat.ErrorWithoutContent` | src/hooks/useChat.ts:100-110 | an `error` event without content writes the default message |
| `UseChat.ToolEventsSetStatus` | src/hooks/useChat.ts:84-98 | `tool_start` shows the tool's label, one per catalog tool; `tool_end` clears the status |
| `UseChat.HandleLinesKeepsEarlier` | src/hooks/useChat.ts:64-117 | handling frames never changes the number of messages, nor any message but the last |
| `UseChat.ConsumeKeepsEarlier` | src/hooks/useChat.ts:56-119 | reading the stream never changes the number of messages, nor any message but the last |
| `UseChat.AfterReplyKeepsEarlier` | src/hooks/useChat.ts:46-131 | whatever the reply, only the last message can change, and an aborted request changes nothing |
| `UseChat.AfterReply` | src/hooks/useChat.ts:46-136 | an aborted fetch leaves the messages as they are; a failed fetch, a status that is not ok, a missing body or a read that throws replaces an assistant's last message with the apology and leaves every earlier one; when the last message is not the assistant's, nothing changes |
| `UseChat.ChatClient.constructor` | src/hooks/useChat.ts:18-21 | the hook starts with no messages, not loading, no tool status and no open request |
| `UseChat.ChatClient.ReceiveLine` | src/hooks/useChat.ts:64-117 | one segment changes the messages and the status as `HandleLine` says, and nothing else |
| `UseChat.ChatClient.ReadStream` | src/hooks/useChat.ts:50-119 | the read loop leaves the messages, the status and the buffer that `Consume` gives |
| `UseChat.ChatClient.SendMessage` | src/hooks/useChat.ts:25-136 | a blank message or a busy hook changes nothing; otherwise the request body is the old messages and the user message, without the placeholder; the messages end as the reply leaves them; loading and the status are cleared |
| `UseChat.ChatClient.ClearMessages` | src/hooks/useChat.ts:141-143 | the message list becomes empty and nothing else changes |
| `UseChat.ChatClient.CancelRequest` | src/hooks/useChat.ts:145-149 | loading stops and the status is cleared; the messages stay |
| `StreamEvents.FromFields` | src/hooks/useChat.ts:11-15 | an object read back as an event is exactly that event's object |
| `StreamEvents.Payload` | src/domains/chat/chat.service.ts:176-182 | a frame line starts with `data: ` and holds no line feed |
| `StreamEvents.EncodeFrame` | src/domains/chat/chat.service.ts:176-182 | a frame is `data: `, one line without a line feed, and the blank line that ends it |
| `StreamEvents.PayloadParses` | src/domains/chat/chat.service.ts:176-182 | the JSON after `data: ` parses back to the event's object |
| `StreamEvents.FrameRoundTrip` | src/domains/chat/chat.service.ts:176-182 | decoding a frame gives back the event it encodes |
| `JsonText.Stringify` | src/domains/chat/chat.service.ts:178 | the JSON text of an object holds no line feed |
| `JsonText.StringifyHasNoControl` | src/domains/chat/chat.service.ts:178 | the JSON text of an object holds no control character |
| `JsonText.ParseEscaped` | src/hooks/useChat.ts:70 | an escaped string followed by its closing quote parses back to the string, leaving the rest |
| `JsonText.StringifyRoundTrip` | src/hooks/useChat.ts:70 | `JSON.parse` of `JSON.stringify` of a flat object of strings gives the object back |
| `JsonText.ParseObject` | src/hooks/useChat.ts:70 | the parsed text is braced; it denotes the empty object exactly when it is `{}`, and a non-empty object starts with a quoted key |
| `Json.Lookup` | src/app/api/chat/route.ts:14 | reading a property finds nothing exactly when no member has that key, and otherwise finds the value of the last member with that key |
| `ChatModel.ParseRole` | src/domains/chat/chat.model.ts:1 | a role is exactly `user` or `assistant`, and it reads back to the same name |
| `ChatModel.CreateEventParamsRoundTrip` | src/domains/chat/chat.model.ts:12-20 | a `CreateEventToolParams` record, written as a tool input, reads back to itself |
| `ChatModel.GetEventsParamsRoundTrip` | src/domains/chat/chat.model.ts:22-25 | a `GetEventsToolParams` record reads back to itself |
| `ChatModel.GetCourtsParamsRoundTrip` | src/domains/chat/chat.model.ts:27-30 | a `GetCourtsToolParams` record, with either field absent, reads back to itself |
| `ChatTools.CatalogNames` | src/domains/chat/chat.tools.ts:3-88 | the catalog has exactly `create_event`, `get_events` and `get_courts`, in that order, with distinct names |
| `ChatTools.CreateEventSchema` | src/domains/chat/chat.tools.ts:4-48 | the `create_event` schema is well formed: distinct properties, every required name declared |
| `ChatTools.CreateEventOptionals` | src/domains/chat/chat.tools.ts:10-47 | the optional properties of `create_event` are `location_name`, `location_url` and `description` |
| `ChatTools.GetEventsSchema` | src/domains/chat/chat.tools.ts:50-67 | `get_events` requires exactly `year` and `month` |
| `ChatTools.GetCourtsSchema` | src/domains/chat/chat.tools.ts:69-86 | `get_courts` requires nothing; `page` and `limit` are optional |
| `ChatTools.CatalogWellFormed` | src/domains/chat/chat.tools.ts:3-88 | every tool in the catalog is well formed |
| `ChatTools.CreateEventSchemaMatchesParams` | src/domains/chat/chat.tools.ts:4-48 | an input reads as a `CreateEventToolParams` record exactly when it conforms to the tool's schema |
| `ChatTools.GetEventsSchemaMatchesParams` | src/domains/chat/chat.tools.ts:50-67 | an input reads as a `GetEventsToolParams` record exactly when it conforms to the schema |
| `ChatTools.GetCourtsSchemaMatchesParams` | src/domains/chat/chat.tools.ts:69-86 | an input reads as a `GetCourtsToolParams` record exactly when it conforms to the schema |
| `Middleware.SignedOut` | src/middleware.ts:20-58 | without a session, a path under a protected prefix goes to sign in with itself as the return path; any other path goes on |
| `Middleware.OtherProfileRedirects` | src/middleware.ts:32-39 | a non-admin member on a `/member` path not starting with their own profile path is sent to that profile |
| `Middleware.SignedInDecisions` | src/middleware.ts:26-60 | with a session, a request goes on exactly when it is not a `/member` path, or the user is an admin, or it starts with the own profile path; it is never sent to sign in |
| `Middleware.NoRedirectLoop` | src/middleware.ts:20-39 | following either redirect with the same session leads to a page that goes on |
| `Middleware.ProfilePrefixQuirk` | src/middleware.ts:34 | the own-profile test is a plain prefix test: member `1` is let into `/member/12` |
| `Middleware.MembersOutsideMatcher` | src/middleware.ts:6-26 | `/members` is outside the matcher and goes on unguarded, although the `/member` rule alone would send a signed-out visitor to sign in |
| `Middleware.MatchedPathsAreProtected` | src/middleware.ts:6-58 | every path the matcher accepts sends a signed-out visitor to sign in |
| `Middleware.Decide` | src/middleware.ts:15-61 | sign-in redirects happen only without a session, only on a protected path, and return to the same path; every signed-out request to a protected path gets one; a profile redirect happens only for a non-admin on a `/member` path outside their own profile, and goes to that profile |
| `Middleware.Route` | src/middleware.ts:6-13 | a path outside the matcher goes on; a redirect keeps the meaning it has in `Decide` |
| `ChatRoute.Post` | src/app/api/chat/route.ts:32-40 | a stream response carries the three event-stream headers and a non-empty message list |
| `ChatRoute.RejectedBeforeLookup` | src/app/api/chat/route.ts:13-22 | a body whose `messages` is missing, not an array or empty gets 400, whatever the member lookup would give |
| `ChatRoute.AcceptedOutcomes` | src/app/api/chat/route.ts:24-43 | for an accepted body: 404 when no member is found, the handled error when the lookup throws, and otherwise the stream of the body's messages with the member's seq as actor |
| `ChatRoute.StreamExactlyWhenAccepted` | src/app/api/chat/route.ts:13-40 | the stream is opened exactly for an accepted body and a found member |
| `ChatRoute.ThrownErrorsAreHandled` | src/app/api/chat/route.ts:11-43 | the shared error handler answers exactly when the body is not JSON or is null, or the lookup throws, and always with the chat fallback message |
| `ChatPipeline.UnitsShown` | src/hooks/useChat.ts:73-98 | reading text frames and completed tool pairs appends every text to the reply, in order, and leaves the status clear |
| `ChatPipeline.ReplyStaysLast` | src/hooks/useChat.ts:73-113 | whatever events arrive, the sent messages stay and the last message remains the assistant's |
| `ChatPipeline.WellFormedStreamShown` | src/hooks/useChat.ts:73-113 | after a whole well-formed stream, the reply is its texts in order, or the generic error when the run failed |
| `ChatPipeline.StreamRead` | src/hooks/useChat.ts:50-119 | a well-formed stream, in any chunking and read to its end, leaves the sent messages and one reply as above |
| `ChatPipeline.ConversationShown` | src/domains/chat/chat.service.ts:142-268 | end to end: what the service streams for a conversation, read in any chunking, shows the sent messages and one reply holding every streamed text in order, or the generic error of a failed run |

## Left out

- The model API call, its system prompt, model name and token limit are left out. The model is
  a function parameter from the history and the number of calls still allowed to a reply, and a
  call that throws is a reply of its own. The
  rules the system prompt sets for durations, capacity and titles are prompt text only and are
  not modelled.
- The loop has no iteration cap in the source. `Drive` and `ProcessChatStream` take a fuel
  bound, and a run that uses it all ends `Unfinished` without a terminal frame.
- The store calls (`writeEvent`, `getEventList`, `getCourtList`) and their SQL are left out.
  They are function parameters, and any of them may throw.
- A tool result goes back to the model as a JSON value rather than as the JSON text
  `executeToolCall` returns. The text itself is not modelled.
- Numbers are integers. Floating point is not modelled.
- UseChat.HandleLine: the client's `JSON.parse` is modelled only for compact flat objects whose
  members are all strings, with no whitespace between tokens and no surrogate `\u` escapes. The
  model skips any other frame. The hook would act on some of those that are still valid JSON,
  such as a frame with spaces after the colons or a numeric `content`. The service never sends
  such frames: every frame it writes is compact, with string members only.
- Byte encoding (`TextEncoder`, `TextDecoder`), `fetch`, `ReadableStream` and the abort signal
  are left out. Frames are strings, and a reply is modelled as a value: response status, body
  present, the chunks read, and how reading ended (end of stream, an abort, or a thrown error).
- React state updates are modelled as immediate assignments to the fields of `ChatClient`. The
  in-place change of the last message's content is an update of the last element of `messages`.
  Batching and re-rendering are not modelled.
- The endpoint passes the body's messages on without checking their elements. The model keeps
  them as JSON values, and the conversion to the service's messages is not modelled.
- The internals of `withAuth`, `getAuthSession`, `getMemberById` and `handleApiError`, and
  `console.error` logging, are left out. The lookup's result is a parameter, and the handler's
  answer is a value carrying the fallback message.
- The administrator role code lives in a constants file that is not part of this model. It is
  the parameter `adminRoleCode`.
- The chat window components, the header, navigation and providers are rendering only and are
  left out.
- Middleware.NoRedirectLoop: the profile redirect's target is modelled as the literal path
  `/member/` followed by the member id. `new URL` percent-encodes and normalises that path, and
  this is not modelled, so the lemma covers the ids that URL parsing leaves unchanged.
- ChatService.ProcessChatStream: its `ensures` ties the result to `Drive` only. The stream's
  shape is stated about `Drive` by `DriveWellFormed`, `DriveSingleTerminal` and the `Step*`
  lemmas.

## Behaviour worth noting

- A persistence failure in `create_event` is not caught by the tool executor. The exception
  reaches the stream's handler, so the run ends with one `error` frame and no tool payload
  reports `success: false`.
- An `error` frame is not followed by `done`. The handler sends `error` and closes the stream.
