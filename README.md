# Agent Dash: session store, chat endpoint and mock chart data

Agent Dash is a conversational HR-analytics dashboard builder. A React front
end keeps up to three chat sessions. Each user message is sent, with the
session's earlier messages, to a Flask back end. The back end renders the
conversation into one prompt, asks a language model for a JSON dashboard
description, extracts the JSON from the model's reply and returns it. The
front end draws each chart of the dashboard with mock data picked by
keywords in the chart title. A second endpoint serves mock series picked
by keywords in a chart configuration's field list.

This project models these parts in Dafny and proves properties of them:

- `ChatSessions`: the front end's state and its event handlers. These are
  creating a session, sending a message, deleting a session and selecting a
  session. They are written as a class whose methods update the fields
  `chats`, `activeChat`, `input`, `loading` and `showLanding`.
- `ChartClassifier`: the front end's keyword decision tree that picks mock
  chart data.
- `ChatEndpoint`: the back end's prompt construction (a loop), the extraction
  of the fenced JSON payload, the fallback when parsing fails, and the
  mapping onto the response.
- `ChartDataEndpoint`: the back end's mock-series decision tree.
- `Text` and `Json`: the string primitives of Python and JavaScript that the
  code relies on (`find`, `in`/`includes`, `lower`, `strip`/`trim`, slices)
  and the JSON-shaped values the two halves exchange.

Effects become parameters:

- The network round trip of the front end is an `Outcome`: success with the
  response text and dashboard, or failure.
- The model call of the back end is a function `generate`, where `None`
  means the call raised.
- `json.loads` is a function `parse`, where `None` means a decode error.
- `Date.now()` is the parameter `freshId`. `CreateNewChat` requires that no
  session already carries it, as a clock reading taken after the earlier
  sessions were created does not. With that, the session ids stay distinct,
  which the class invariant `Valid()` records next to the three-session cap.

In `createNewChat`, the message is sent by a closure that still sees the
session list from before the new session was added. `Send` therefore looks
the target session's log up in a `snapshot` argument, which is the list
before insertion. Since the fresh id occurs in no earlier session, the
history sent for a new session is empty.

The input bar calls `handleSendMessage` without a session id, so the default,
the active session, is the target (`SendInput`). When no session is active,
or the active one was deleted, the request still goes out but its exchange
is stored in no session (`UntargetedExchange`).

When the reply does not parse, `message` falls back to the extracted
payload, not to the model's raw reply. This is because the code reassigns
the same variable during extraction. The model follows the code.

## Model

| member | source | states |
|---|---|---|
| Text.Find | agent-dash/backend/main.py:200-201 | `str.find`: -1 exactly when there is no occurrence at or after `start`, otherwise the first such occurrence |
| Text.FindIffContains | agent-dash/backend/main.py:199-200 | `find` succeeds exactly when the `in` test does |
| Text.ToLower | agent-dash/frontend/src/components/DashboardAgent.jsx:24 | lower-casing keeps the length and lowers each character on its own |
| Text.ToLowerAppend | agent-dash/frontend/src/components/DashboardAgent.jsx:24 | lower-casing distributes over concatenation |
| Text.Trim | agent-dash/frontend/src/components/DashboardAgent.jsx:220 | the result is the input with a white-space prefix and a white-space suffix cut off, and nothing else removed; it is empty exactly when every character is white space, and otherwise both of its ends are not white space |
| Text.PyIndex | agent-dash/backend/main.py:202 | a slice bound in range is kept, a negative one counts from the end, one past the end gives the length and one before the start gives 0 |
| Text.PySlice | agent-dash/backend/main.py:202 | a slice with bounds in range is the plain slice, a negative end counts from the end, and bounds that cross give the empty string |
| Text.PyStrip | agent-dash/backend/main.py:202 | `strip()` cuts only a white-space prefix and suffix, and a non-empty result neither starts nor ends with white space |
| Text.JsTrim | agent-dash/frontend/src/components/DashboardAgent.jsx:220 | `trim()` cuts only a white-space prefix and suffix, is empty exactly when the text is all white space, and a non-empty result neither starts nor ends with white space |
| Text.Take | agent-dash/frontend/src/components/DashboardAgent.jsx:211 | `slice(0, n)` keeps the prefix of length n, or the whole sequence when it is shorter |
| Json.GetOr | agent-dash/backend/main.py:219 | `get(key, default)`: the default only for a missing key, `None` for a null value |
| Json.Get | agent-dash/backend/main.py:220-221 | `get(key)` has a value exactly when the key holds one |
| ChartClassifier.Points | agent-dash/frontend/src/components/DashboardAgent.jsx:27-192 | each canned dataset has its bucket count: 5 bands, organizations, locations, tenure buckets and categories; 6 job families; 3 worker types and genders; 2 collars; 12 months; 4 for the hours, quarterly and type lists; only the absent dataset is empty |
| ChartClassifier.Select | agent-dash/frontend/src/components/DashboardAgent.jsx:24-192 | the first-match-wins decision list on the lower-cased title: band data only for a band keyword, no data only for an unknown chart type, and never the per-location hours or the quarterly fallback |
| ChartClassifier.MockChartData | agent-dash/frontend/src/components/DashboardAgent.jsx:23-193 | the classifier returns at most twelve points, and the empty list only for an unknown chart type |
| ChartClassifier.SeniorityBandReport | agent-dash/frontend/src/components/DashboardAgent.jsx:27-35 | "Seniority Band Report" as a bar chart gives exactly the five bands I to V with counts 28, 22, 18, 20, 12 |
| ChartClassifier.BandTitleGivesBands | agent-dash/frontend/src/components/DashboardAgent.jsx:27-46 | a band or seniority title gives the band list for bar, pie and donut |
| ChartClassifier.BandRuleFallsThrough | agent-dash/frontend/src/components/DashboardAgent.jsx:27-46 | for any other chart type the later rules decide, and the band list is never returned |
| ChartClassifier.CaseInsensitive | agent-dash/frontend/src/components/DashboardAgent.jsx:24 | only the lower-cased title matters |
| ChartClassifier.BandBeatsHours | agent-dash/frontend/src/components/DashboardAgent.jsx:27-46 | the first matching rule wins: "Band Hours Report" gives band data, not hours data |
| ChartClassifier.LocationTitleNeverReachesHours | agent-dash/frontend/src/components/DashboardAgent.jsx:71-80 | a title containing "location" is always decided by one of the first four rules |
| ChartClassifier.HoursByLocationUnreachable | agent-dash/frontend/src/components/DashboardAgent.jsx:150-158 | the per-location hours dataset is returned for no input |
| ChartClassifier.LineChartNeverFallsBack | agent-dash/frontend/src/components/DashboardAgent.jsx:132-148 | a line chart that no topic rule catches gets the monthly series |
| ChartClassifier.QuarterlyUnreachable | agent-dash/frontend/src/components/DashboardAgent.jsx:176-182 | the Q1 to Q4 fallback is returned for no input |
| ChartClassifier.EmptyExactlyForUnknownType | agent-dash/frontend/src/components/DashboardAgent.jsx:168-192 | the empty list comes back exactly when the chart type is unknown and the title mentions none of the keywords of rules 2 to 10 (a band keyword alone still gives the empty list, since the band rule applies only to bar, pie and donut charts) |
| ChartClassifier.PieAndDonutAgree | agent-dash/frontend/src/components/DashboardAgent.jsx:36-183 | pie and donut charts always get the same data |
| ChartClassifier.JobFamilyImpliesFamily | agent-dash/frontend/src/components/DashboardAgent.jsx:59 | every title containing "job family" also contains "family" |
| ChartClassifier.LowerTitle | agent-dash/frontend/src/components/DashboardAgent.jsx:24 | a title without upper-case letters lowers to itself |
| ChartClassifier.BandsReachable | agent-dash/frontend/src/components/DashboardAgent.jsx:27-35 | a bar chart titled "band" gets the band list, so this branch is live |
| ChartClassifier.OrganizationsReachable | agent-dash/frontend/src/components/DashboardAgent.jsx:48-57 | a bar chart titled "organization" gets the supervisory-organization list, so this branch is live |
| ChartClassifier.JobFamiliesReachable | agent-dash/frontend/src/components/DashboardAgent.jsx:59-69 | a bar chart titled "family" gets the job-family list, so this branch is live |
| ChartClassifier.LocationsReachable | agent-dash/frontend/src/components/DashboardAgent.jsx:71-80 | a bar chart titled "city" gets the location list, so this branch is live |
| ChartClassifier.WorkerTypesReachable | agent-dash/frontend/src/components/DashboardAgent.jsx:82-96 | a bar chart titled "employment" gets the worker-type list, so this branch is live |
| ChartClassifier.CollarsReachable | agent-dash/frontend/src/components/DashboardAgent.jsx:98-110 | a bar chart titled "bc" gets the collar split, so this branch is live |
| ChartClassifier.GendersReachable | agent-dash/frontend/src/components/DashboardAgent.jsx:112-119 | a bar chart titled "gender" gets the gender split, so this branch is live |
| ChartClassifier.TenureBucketsReachable | agent-dash/frontend/src/components/DashboardAgent.jsx:121-130 | a bar chart titled "years" gets the tenure buckets, so this branch is live |
| ChartClassifier.MonthsReachable | agent-dash/frontend/src/components/DashboardAgent.jsx:132-148 | a bar chart titled "time" gets the monthly series, so this branch is live |
| ChartClassifier.WeeksReachable | agent-dash/frontend/src/components/DashboardAgent.jsx:150-165 | a bar chart titled "hours" gets the weekly hours, so this branch is live |
| ChartClassifier.FallbacksReachable | agent-dash/frontend/src/components/DashboardAgent.jsx:168-192 | with an empty title: bar gives the five categories, pie and donut the four types, line the monthly series, and an unknown type nothing |
| ChatSessions.ChatTitle | agent-dash/frontend/src/components/DashboardAgent.jsx:205 | a non-empty prompt's title is its first 30 characters, or the whole prompt when it is shorter, so the default title is never used for one |
| ChatSessions.IsBlank | agent-dash/frontend/src/components/DashboardAgent.jsx:220 | a message is blank exactly when every character of it is white space |
| ChatSessions.FindChat | agent-dash/frontend/src/components/DashboardAgent.jsx:223 | the lookup fails exactly when no session has the id; otherwise it returns the first session, in list order, with that id |
| ChatSessions.MessagesOf | agent-dash/frontend/src/components/DashboardAgent.jsx:223-226 | the log to append to is the log of the first matching session, and the empty log when no session matches |
| ChatSessions.SetMessages | agent-dash/frontend/src/components/DashboardAgent.jsx:228-232 | every session with the id gets the new log; every other session is unchanged |
| ChatSessions.SetConversation | agent-dash/frontend/src/components/DashboardAgent.jsx:253-257 | every session with the id gets the new log and dashboard; every other session is unchanged |
| ChatSessions.RemoveChat | agent-dash/frontend/src/components/DashboardAgent.jsx:276 | the survivors are exactly the sessions whose id differs from the deleted one |
| ChatSessions.Insert | agent-dash/frontend/src/components/DashboardAgent.jsx:211 | the new session comes first; the list grows by one below three sessions and stays at three otherwise, and it is a prefix of the new session followed by the old list |
| ChatSessions.NewChat | agent-dash/frontend/src/components/DashboardAgent.jsx:203-209 | a new session has the fresh id, an empty log, no dashboard, and for a non-empty prompt the prompt's first 30 characters as title |
| ChatSessions.Reply | agent-dash/frontend/src/components/DashboardAgent.jsx:247-267 | the assistant's message carries the response text and dashboard on success, and the fixed error text and no dashboard on failure |
| ChatSessions.AfterExchange | agent-dash/frontend/src/components/DashboardAgent.jsx:226-268 | only matching sessions change: they keep id and title, their log becomes the base log plus the user message and the reply, and their dashboard is replaced on success and kept on failure |
| ChatSessions.DashboardAgent.constructor | agent-dash/frontend/src/components/DashboardAgent.jsx:8-12 | the initial state: no sessions, none active, empty input, not loading, landing view shown |
| ChatSessions.DashboardAgent.ActiveChatData | agent-dash/frontend/src/components/DashboardAgent.jsx:283 | the displayed session is the first session whose id is the active id, and there is one whenever such a session exists |
| ChatSessions.DashboardAgent.CreateNewChat | agent-dash/frontend/src/components/DashboardAgent.jsx:195-217 | an empty prompt changes neither the list nor the input, clears the active session and hides the landing view; otherwise the new session is inserted and made active, the prompt is sent with an empty history, and the list ends as `StartedChats` describes; distinct ids and the three-session cap are kept |
| ChatSessions.DashboardAgent.StartChat | agent-dash/frontend/src/components/DashboardAgent.jsx:203-216 | the non-empty case: inserted, made active, landing view hidden, the prompt sent with an empty history because the closure looks it up in the list from before the insertion |
| ChatSessions.DashboardAgent.HandleSendMessage | agent-dash/frontend/src/components/DashboardAgent.jsx:219-273 | a blank message changes nothing; otherwise the request carries the target's old log as history, the log grows by the message and the reply, and input and loading are reset |
| ChatSessions.DashboardAgent.Send | agent-dash/frontend/src/components/DashboardAgent.jsx:219-273 | the same, with the target's log read from the list the closure captured |
| ChatSessions.DashboardAgent.Exchange | agent-dash/frontend/src/components/DashboardAgent.jsx:222-272 | a non-blank message: the list becomes the exchange applied to the old list, the history is the old log, input is empty and loading is off |
| ChatSessions.DashboardAgent.DeleteChat | agent-dash/frontend/src/components/DashboardAgent.jsx:275-281 | the list is filtered; the active session is cleared and the landing view shown exactly when the deleted id was active |
| ChatSessions.DashboardAgent.SelectChat | agent-dash/frontend/src/components/DashboardAgent.jsx:311 | the clicked session becomes active and the landing view is hidden; nothing else changes |
| ChatSessions.DashboardAgent.EditInput | agent-dash/frontend/src/components/DashboardAgent.jsx:619 | typing replaces the text of the input bar |
| ChatSessions.DashboardAgent.SendInput | agent-dash/frontend/src/components/DashboardAgent.jsx:620-630 | the input bar sends its text to the active session: a blank text changes nothing, otherwise the exchange is applied to the active id and input and loading are reset |
| ChatSessions.InsertKeepsNewest | agent-dash/frontend/src/components/DashboardAgent.jsx:211 | with fewer than three sessions nothing is dropped; with three, the oldest (last) one is evicted |
| ChatSessions.FindUnique | agent-dash/frontend/src/components/DashboardAgent.jsx:223 | with distinct ids the lookup by a session's id finds that session |
| ChatSessions.HistoryIsTargetLog | agent-dash/frontend/src/components/DashboardAgent.jsx:223-240 | with distinct ids the history sent is exactly the target session's log before the message |
| ChatSessions.ExchangeChangesOnlyTarget | agent-dash/frontend/src/components/DashboardAgent.jsx:226-268 | the target gets exactly the user message and the reply appended, its dashboard is replaced on success and kept on failure, and every other session is untouched |
| ChatSessions.FirstExchange | agent-dash/frontend/src/components/DashboardAgent.jsx:203-216 | a session started with a fresh id sends an empty history; it comes first with the prompt's title and, unless the prompt is blank, the prompt and the reply as its log; the others follow in order with the oldest evicted at three |
| ChatSessions.StartedTail | agent-dash/frontend/src/components/DashboardAgent.jsx:211-257 | the first exchange of a freshly inserted session leaves every other session as it was |
| ChatSessions.UntargetedExchange | agent-dash/frontend/src/components/DashboardAgent.jsx:219-268 | a message sent when no session matches the target (the neutral view, or a deleted session) goes out with an empty history and is stored in no session |
| ChatSessions.SetMessagesTwice | agent-dash/frontend/src/components/DashboardAgent.jsx:228-268 | the second log update overrides the first |
| ChatSessions.SetConversationAfterMessages | agent-dash/frontend/src/components/DashboardAgent.jsx:228-257 | the reply's update overrides the optimistic one |
| ChatSessions.RemoveChatAppend | agent-dash/frontend/src/components/DashboardAgent.jsx:276 | filtering distributes over concatenation, so the survivors keep their order |
| ChatSessions.RemoveAbsentChat | agent-dash/frontend/src/components/DashboardAgent.jsx:276 | deleting an id no session has leaves the list unchanged |
| ChatSessions.RemoveKeepsOthers | agent-dash/frontend/src/components/DashboardAgent.jsx:276-283 | deleting another session does not change what the lookup of the active one returns |
| ChatSessions.InsertKeepsIdsUnique | agent-dash/frontend/src/components/DashboardAgent.jsx:204-211 | inserting a session with a fresh id keeps the ids distinct |
| ChatSessions.RemoveKeepsIdsUnique | agent-dash/frontend/src/components/DashboardAgent.jsx:276 | deleting keeps the ids distinct |
| ChatSessions.ExchangeKeepsIdsUnique | agent-dash/frontend/src/components/DashboardAgent.jsx:228-268 | an exchange keeps the ids distinct |
| ChatEndpoint.RoleLabel | agent-dash/backend/main.py:177 | the label is "User" exactly for the role value `user`, and "Assistant" for every other value |
| ChatEndpoint.MessageText | agent-dash/backend/main.py:169 | a missing message is the empty string, a null one is formatted as `None`, and a present one is used as it is |
| ChatEndpoint.Turn | agent-dash/backend/main.py:177-178 | one rendered turn starts with `User` exactly for the role `user`, carries the content, and ends with a blank line |
| ChatEndpoint.HistoryText | agent-dash/backend/main.py:176-178 | the rendered history is empty exactly for an empty history and otherwise ends with a blank line |
| ChatEndpoint.Context | agent-dash/backend/main.py:173-181 | the prompt starts with the system prompt and a blank line and ends with the new message followed by the JSON trailer |
| ChatEndpoint.BuildContext | agent-dash/backend/main.py:173-181 | fails exactly when some history element lacks a key; otherwise the prompt is the system prompt, a blank line, the turns in order, the new user message and the trailer |
| ChatEndpoint.HistoryTextAppend | agent-dash/backend/main.py:176-178 | the rendering of a concatenated history is the concatenation of the renderings |
| ChatEndpoint.SingleTurn | agent-dash/backend/main.py:177-178 | one turn renders as its label, a colon, the content and a blank line |
| ChatEndpoint.ContextGrows | agent-dash/backend/main.py:173-181 | one more history turn inserts exactly that turn before the new message |
| ChatEndpoint.WireEntry | agent-dash/frontend/src/components/DashboardAgent.jsx:225-251 | a front-end message is sent with both keys, and its role is `user` exactly for the user's messages |
| ChatEndpoint.FrontEndHistoryRenders | agent-dash/backend/main.py:176-178 | a history sent by the front end is well formed, and each message is rendered with the label of its own role |
| ChatEndpoint.UnfencedReplyKept | agent-dash/backend/main.py:199-206 | a reply without "```" is passed on unchanged and unstripped |
| ChatEndpoint.Inside | agent-dash/backend/main.py:200-206 | the text right after the first opening fence, ending at the next "```" or, when there is none, one character short of the end of the reply; it holds no "```" itself |
| ChatEndpoint.Payload | agent-dash/backend/main.py:199-206 | an unfenced reply is kept as it is; a fenced one gives a shorter payload with no "```" in it and no white space at either end |
| ChatEndpoint.ClosedInside | agent-dash/backend/main.py:200-206 | the inside of a closed fence is exactly the text between it and the next "```", for any body in which no "```" starts |
| ChatEndpoint.UnclosedInside | agent-dash/backend/main.py:200-202 | with no closing "```" the end index is -1, so the inside loses its last character |
| ChatEndpoint.JsonFencePayload | agent-dash/backend/main.py:199-202 | the first "```json" fence is used even when plain fences come before it, and its stripped inside is the payload |
| ChatEndpoint.UnclosedJsonFencePayload | agent-dash/backend/main.py:199-202 | an unclosed "```json" fence yields the rest of the reply, stripped, without its last character |
| ChatEndpoint.PlainFencePayload | agent-dash/backend/main.py:203-206 | without "```json", the first plain fence is used in the same way |
| ChatEndpoint.Respond | agent-dash/backend/main.py:208-221 | a payload that does not parse becomes the message, with no dashboard or analysis type; an object gives its `message` (defaulting to the payload) and exactly its `dashboard` and `analysis_type` values, `None` when missing or null; any other JSON value fails the request |
| ChatEndpoint.UnparsedReplyEchoed | agent-dash/backend/main.py:209-219 | after a parse failure the response is the extracted payload and the dashboard is None |
| ChatEndpoint.Chat | agent-dash/backend/main.py:166-229 | a null history or one with a missing key fails the request; otherwise the model is asked with the rendered prompt, and its failure fails the request, or else the reply is extracted, parsed and mapped |
| ChartDataEndpoint.FieldsText | agent-dash/backend/main.py:289 | a given field list is matched through its text |
| ChartDataEndpoint.TopicOf | agent-dash/backend/main.py:292-348 | attrition data exactly when the text mentions attrition or termination; hours data exactly when it mentions neither but mentions hours or overtime; generic data otherwise |
| ChartDataEndpoint.ShapeOf | agent-dash/backend/main.py:293-349 | the line branch exactly for `line`, the round branch exactly for `pie` or `donut` |
| ChartDataEndpoint.TitleLabel | agent-dash/backend/main.py:360 | a null title gives a null label; a title gives itself |
| ChartDataEndpoint.ChartFor | agent-dash/backend/main.py:283-363 | a configuration's data always has labels, and each dataset has one value per label |
| ChartDataEndpoint.MockData | agent-dash/backend/main.py:292-363 | every branch has labels and datasets, each dataset has one value per label, only hours-as-line has two datasets, and round charts carry no dataset label |
| ChartDataEndpoint.GenerateChartData | agent-dash/backend/main.py:279-369 | for a request body that is an object, the request fails exactly for a null configuration; every answer has one value per label in each dataset |
| ChartDataEndpoint.AttritionBeforeHours | agent-dash/backend/main.py:292-317 | a field text mentioning attrition or termination gets attrition data, whatever else it mentions |
| ChartDataEndpoint.FieldsCaseInsensitive | agent-dash/backend/main.py:292-317 | field texts that lowercase to the same text select the same data |
| ChartDataEndpoint.DefaultTypeIsBar | agent-dash/backend/main.py:288-356 | a missing type, a null type and any unknown type give the same data as `bar` |
| ChartDataEndpoint.PieAndDonutAgree | agent-dash/backend/main.py:301-349 | pie and donut get the same data |
| ChartDataEndpoint.GenericSeriesNamedAfterTitle | agent-dash/backend/main.py:356-363 | with no topic and a non-round chart, one Q1 to Q4 series named after the title, or `Metric` when the title is missing |
| ChartDataEndpoint.DefaultFieldsAreGeneric | agent-dash/backend/main.py:289-317 | the default field list mentions no topic |
| ChartDataEndpoint.MissingConfigGivesQuarters | agent-dash/backend/main.py:283-363 | a request without `chart_config` is answered with the Q1 to Q4 `Metric` series |

## Left out

- Rendering and layout of the page, the chart components and the colour constants are not modelled. They do not change state.
- The HTTP transport is a parameter. This covers `fetch`, the status check, JSON decoding of the response, Flask routing, CORS and the `print` logging. The round trip is modelled as an `Outcome` on one side and as `generate` and `parse` on the other.
- The model call (Vertex AI with its generation settings) is the parameter `generate`. The trends-search endpoint and the health endpoint are not part of this model.
- `json.loads` is the parameter `parse`. Only the keys the endpoint reads are modelled: `message`, `dashboard` and `analysis_type`.
- The system prompt and the employee schema are the opaque parameter `system`.
- The `timestamp` keys of the responses and the `createdAt` field of a session are not modelled. They come from the clock and are never read.
- React's asynchronous scheduling is modelled as one sequential step. A deletion or another send while a reply is pending cannot be expressed. Neither can the Enter key sending while `loading` is set.
- The send button's `disabled` attribute (set for a blank input or while loading) is not modelled. A blank input is a no-op anyway, `loading` is false between the modelled events, and the Enter key does not consult the attribute; `SendInput` models both paths.
- ChatSessions.DashboardAgent.CreateNewChat: `slice(0, 30)` counts UTF-16 code units, but the model counts characters.
- Text.ToLower: lowers only the ASCII letters, while `toLowerCase` and `lower` also change other letters.
- ChatEndpoint.Chat: a history element's `role` and `content` are taken to be strings when present; a `null` or non-string `role`, which the source renders as `Assistant` without raising, is not modelled (a missing `role` is, as the error it raises). The request body is taken to be a JSON object. Python's `str` of other JSON values is not modelled.
- ChatSessions.DashboardAgent.HandleSendMessage: the reply's `response` is taken to be a string. A missing or null `response` is not modelled.
- ChartDataEndpoint.GenerateChartData: the field list is taken as the text `str(fields)`. Python's rendering of lists into that text is not modelled.
- ChartDataEndpoint.GenerateChartData: a `chart_config` that is present but not an object is not modelled.
- ChartDataEndpoint.GenerateChartData: the request body is taken to be a JSON object. A `null` or non-object body makes `data.get` raise and the request answer with status 500; that path is not modelled.
- ChartClassifier.MockChartData: the title is taken to be a string. A visualization without a `title` makes `toLowerCase` throw while the chart is rendered; that path is not modelled, and `Json.Visualization` has no missing-title case.
- Numbers are `real`. The integer-valued data is written as reals.
