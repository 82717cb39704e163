# ToxiqChatTester, modelled in Dafny

ToxiqChatTester is a WinForms diagnostic client for the Toxiq SignalR chat
server. A user pastes a JWT. The tester does five things with it:

- It reads the user id out of the token.
- It checks the token against the REST API.
- It connects a chat hub and a notification hub.
- It lists the user's conversations, joins one and shows its messages.
- It sends messages: first through the hub, then through two REST endpoints
  in turn.

A token report form shows what the token contains.

This project models the decision logic under that UI. The SignalR hub,
the HTTP server and the JWT reader are oracles given as functions:

- A hub server maps each `StartAsync` or `InvokeAsync` call to `Ok` or to
  the exception it throws.
- An HTTP server maps each request to a response or a network error.
- A token reader maps the token string to a parsed token, to "not a JWT",
  or to an exception.

The library objects the tester mutates are small classes.

- `SignalR.HubConnection` has a state, handlers and a log of calls.
- `Http.HttpClient` has an Authorization header and a log of requests.
- `SignalR.StatusSink` stands for the `Action<string>` status callback and
  the status label. It records every line that is posted to it.

Every contract is stated over these objects. Each one says, for a call:

- which hub calls and HTTP requests were made, and in what order;
- which status lines were shown;
- what the forms now hold.

Modules:

| module | contents |
|---|---|
| `Common` | optional values, exceptions (`Exn`), `Outcome`, LINQ-style `FindFirst`, `FilterSome` |
| `Strings` | `String.IsNullOrWhiteSpace`, `Trim`, `Split`, `Join`, and number formatting |
| `Guids` | `Guid` as 32 hex digits, its "D" `ToString`, and `Guid.TryParse` |
| `Jwt` | parsed tokens and the reader oracle |
| `Models` | the JSON records of `MainForm.cs`, with the `MessageType` numbering |
| `Http` | the `HttpClient` stand-in and the server oracle |
| `SignalR` | the `HubConnection` stand-in, the hub oracle and `StatusSink` |
| `ChatHub` | `ChatHubClient.cs` |
| `Auth` | `AuthenticationHelper.cs` |
| `Forms` | `MainForm.cs`: the main window, `LoginForm` and `NewConversationForm` |
| `TokenDebug` | `TokenDebugForm.cs` |

Where the intended design and the code differ, the model follows the code:

- `GetUserIdFromToken` takes the first matching claim in token order. There
  is no preference among the four user-id claim types.
- `CreateHubConnection` ignores its `hubUrl` argument and always connects to
  `{baseUrl}/hubs/chat`. So the "notification" connection is a second
  connection to the chat hub. Only the status lines name `hubs/notification`.
- When the user id is null or empty and join approaches 1 and 2 fail, the
  join ends with `false`. No third approach is made and no aggregate error
  is reported.
- `ShowLoginDialog` sets the Bearer header of the form's `HttpClient`
  whatever the token is. This differs from `AuthenticationHelper`, which
  sets it only for a non-empty token.
- When there is no chat client, `btnSend_Click` awaits
  `_chatHubClient?.ReconnectIfNeeded()`, which is a null task. That await
  throws a `NullReferenceException`. The catch block reports it, and nothing
  is sent.
- The REST send body is `SendMessageDto { Content = text, Type = Text }`,
  and its `ReplyToMessageId` is null.

## Model

| member | source | states |
|---|---|---|
| `ChatHub.EventStatus` | ToxiqChatTester/ChatHubClient.cs:25-72 | a ReceiveMessage produces no status line; every other hub or lifecycle event produces exactly one, with the prefixes and fallbacks of the handlers ("Connection lost", plain "Connection closed") |
| `ChatHub.StatusLineIdentifiesEvent` | ToxiqChatTester/ChatHubClient.cs:31-72 | every event's status line can be classified back to the event kind and its detail; no two handlers' lines can be confused |
| `ChatHub.JoinedLineNamesConversation` | ToxiqChatTester/ChatHubClient.cs:43-46 | the JoinedConversation line carries the conversation id in "D" form, and that id parses back to the same Guid |
| `ChatHub.JoinStrategies` | ToxiqChatTester/ChatHubClient.cs:94-124 | the approaches are JoinConversation invocations: two without a user id, three with one |
| `ChatHub.FailedStartInvokesNothing` | ToxiqChatTester/ChatHubClient.cs:87-91 | when the connection is not connected and the start fails, the only call is the start and the join returns false |
| `ChatHub.JoinTriesStrategiesInOrder` | ToxiqChatTester/ChatHubClient.cs:94-134 | after a start when one is needed, the approaches are invoked in order; each one only after the previous was rejected; the first accepted one ends the join with true |
| `ChatHub.FirstStrategyShortCircuits` | ToxiqChatTester/ChatHubClient.cs:96-99 | an accepted Guid invocation is the only call and the join returns true |
| `ChatHub.NoUserIdStopsAfterTwo` | ToxiqChatTester/ChatHubClient.cs:119-134 | with no user id and two rejections there are exactly two invocations and the result is false; the status lines are the attempt line and "Approach 1/2 failed", with no aggregate error |
| `ChatHub.AllStrategiesRejected` | ToxiqChatTester/ChatHubClient.cs:101-139 | with a user id and three rejections there are three invocations in order, then "Approach 1/2/3 failed" lines, then one "Error joining conversation" line naming the three causes; the result is false |
| `ChatHub.ThirdStrategyJoins` | ToxiqChatTester/ChatHubClient.cs:118-124 | two rejections followed by acceptance of the (userId, id) invocation join with exactly the three calls |
| `ChatHub.TryFromAccepted` | ToxiqChatTester/ChatHubClient.cs:94-124 | from approach k, when the first accepted approach is j, approaches k..j are invoked and the join succeeds |
| `ChatHub.TryFromRejected` | ToxiqChatTester/ChatHubClient.cs:101-134 | from approach k, when every later approach is rejected, all of them are invoked and the join fails |
| `ChatHub.AggregateOfThree` | ToxiqChatTester/ChatHubClient.cs:129 | the AggregateException message lists each inner message in parentheses, in order |
| `ChatHub.ChatHubClient.constructor` | ToxiqChatTester/ChatHubClient.cs:12-20 | stores the connection, user id and status callback; subscribes the seven handlers; no callback is set |
| `ChatHub.ChatHubClient.RegisterEventHandlers` | ToxiqChatTester/ChatHubClient.cs:22-73 | subscribes the four hub events and the three lifecycle events, in source order, without touching state or calls |
| `ChatHub.ChatHubClient.SetMessageCallback` | ToxiqChatTester/ChatHubClient.cs:75-78 | the new callback replaces the old one (the last registration wins) |
| `ChatHub.ChatHubClient.Handle` | ToxiqChatTester/ChatHubClient.cs:25-72 | a received message goes to the current callback and nowhere else, and nothing is invoked when none is set; every other event posts its EventStatus line; lifecycle events move the state |
| `ChatHub.ChatHubClient.JoinConversation` | ToxiqChatTester/ChatHubClient.cs:80-141 | the calls, the status lines and the result are exactly those of JoinPlan for the state on entry; the connection ends Connected when it was Connected or when the start succeeded |
| `ChatHub.ChatHubClient.TryApproach` | ToxiqChatTester/ChatHubClient.cs:101-132 | approach k and the approaches after it behave as TryFrom |
| `ChatHub.ChatHubClient.Attempt` | ToxiqChatTester/ChatHubClient.cs:97-103 | one invocation, then the success line or "Approach k failed: cause" |
| `ChatHub.ChatHubClient.SendMessage` | ToxiqChatTester/ChatHubClient.cs:143-156 | exactly one SendMessage invocation; true on acceptance; otherwise false and one "Error sending message" line, which is the library's not-active error when the connection is not Connected |
| `ChatHub.ChatHubClient.GetConnectionState` | ToxiqChatTester/ChatHubClient.cs:158-161 | the state the underlying connection reports, which btnSend_Click tests before reconnecting |
| `ChatHub.ChatHubClient.ReconnectIfNeeded` | ToxiqChatTester/ChatHubClient.cs:163-179 | when Connected: true and no call; otherwise one start, true on success, false and "Reconnection failed: cause" on failure |
| `Auth.UserIdOf` | ToxiqChatTester/AuthenticationHelper.cs:27-52 | a user id exactly when the token was read and has a claim of one of the four types; it is the value of the first such claim in token order; null when the token is not a JWT or reading throws |
| `Auth.FirstUserIdClaimWins` | ToxiqChatTester/AuthenticationHelper.cs:40-46 | the value of the first user-id claim is returned, whatever follows it |
| `Auth.HubOptionsFor` | ToxiqChatTester/AuthenticationHelper.cs:68-83 | the URL is the base URL followed by "/hubs/chat"; the token provider yields the raw token; the header is "Bearer " + token; automatic reconnect is on |
| `Auth.ConnectLinesShape` | ToxiqChatTester/AuthenticationHelper.cs:90-105 | "Creating…" and "Starting…", then "Connected to…" on success; on failure "Failed to connect to url: message", followed by "Inner exception: message" only when the exception has an inner exception |
| `Auth.AuthenticationHelper.constructor` | ToxiqChatTester/AuthenticationHelper.cs:13-25 | a fresh client on the base URL; the Bearer header is set exactly when the token is non-empty |
| `Auth.AuthenticationHelper.GetUserIdFromToken` | ToxiqChatTester/AuthenticationHelper.cs:27-52 | only delegates: it is UserIdOf applied to the helper's own token as the reader reads it, so UserIdOf's first-claim contract is the one that states the selection |
| `Auth.AuthenticationHelper.ValidateToken` | ToxiqChatTester/AuthenticationHelper.cs:54-66 | one GET of api/User/GetMe; true exactly when it answers with a success status; an exception gives false; no retry |
| `Auth.AuthenticationHelper.CreateHubConnection` | ToxiqChatTester/AuthenticationHelper.cs:68-83 | a fresh, unstarted connection with HubOptionsFor, whatever hubUrl is |
| `Auth.AuthenticationHelper.TryConnectToHub` | ToxiqChatTester/AuthenticationHelper.cs:86-108 | posts ConnectLines for the start's outcome; null exactly when the start throws; otherwise a fresh connection, Connected, whose only call is the start |
| `TokenDebug.AudienceText` | ToxiqChatTester/TokenDebugForm.cs:37 | the first audience, or "None" when there is none |
| `TokenDebug.ExpiryText` | ToxiqChatTester/TokenDebugForm.cs:40-42 | "EXPIRED" exactly when the expiry lies before now, "Valid" otherwise |
| `TokenDebug.ReportHeader` | ToxiqChatTester/TokenDebugForm.cs:35-46 | the report has one line per claim plus 11 others, and opens with the issuer, the audience, the expiry verdict and the issue time |
| `TokenDebug.ReportClaims` | ToxiqChatTester/TokenDebugForm.cs:49-53 | line 7 + i is "- type: value" of claim i: one line per claim, in token order |
| `TokenDebug.ReportChecks` | ToxiqChatTester/TokenDebugForm.cs:56-61 | the report ends with the NameIdentifier check and then the Name check |
| `TokenDebug.RequiredClaimsChecks` | ToxiqChatTester/TokenDebugForm.cs:56-57 | NameIdentifier is Present exactly when some claim is "nameid" or the NameIdentifier URI; Name is Present exactly when some claim is "unique_name" or the Name URI |
| `TokenDebug.NameIdCheckNarrowerThanUserId` | ToxiqChatTester/TokenDebugForm.cs:56 | for any token, whatever other claims it carries, that has a "sub" or "nameidentifier" claim and no other kind of user-id claim: its NameIdentifier line reads MISSING, yet the helper reads a user id from it |
| `TokenDebug.TokenDebugForm.constructor` | ToxiqChatTester/TokenDebugForm.cs:10-14 | stores the token; the text box starts empty |
| `TokenDebug.TokenDebugForm.Load` | ToxiqChatTester/TokenDebugForm.cs:16-67 | text for each case: "No token provided" for an empty token; "Invalid token format" for a non-JWT; "Error analyzing token: msg" when reading throws; otherwise the report lines, each ended by CR LF |
| `Guids.ToString` | ToxiqChatTester/ChatHubClient.cs:108 | 36 characters with hyphens at 8, 13, 18 and 23; the other characters are the 32 digits in lower-case hex, in order |
| `Guids.ParseToString` | ToxiqChatTester/MainForm.cs:625 | Guid.TryParse reads back what ToString wrote |
| `Guids.ToStringInjective` | ToxiqChatTester/ChatHubClient.cs:108 | different Guids have different string forms |
| `Strings.Trim` | ToxiqChatTester/MainForm.cs:625 | the result is empty or neither starts nor ends with white space |
| `Strings.TrimIsSlice` | ToxiqChatTester/MainForm.cs:654 | the trimmed string is a contiguous slice of the input |
| `Strings.TrimDropsWhiteSpace` | ToxiqChatTester/MainForm.cs:654 | what Trim removes, before and after, is white space only |
| `Strings.TrimEmptyIffWhiteSpace` | ToxiqChatTester/MainForm.cs:607-617 | Trim gives "" exactly when the string is null-or-white-space |
| `Strings.SplitJoin` | ToxiqChatTester/MainForm.cs:650 | splitting on ',' a join of comma-free pieces gives the pieces back |
| `Strings.JoinSplit` | ToxiqChatTester/MainForm.cs:650 | joining the pieces of a split on ',' gives the string back |
| `Models.MessageTypeValueRoundTrip` | ToxiqChatTester/MainForm.cs:894-904 | each MessageType member is sent as a number in 0..7 that names it and no other |
| `Models.TextMessageDto` | ToxiqChatTester/MainForm.cs:865-870 | the REST send body carries the text, type Text (value 2) and no reply id |
| `Http.HttpClient.SetBearer` | ToxiqChatTester/MainForm.cs:114 | the Authorization header becomes "Bearer " + token; nothing is sent |
| `Forms.FormatMessage` | ToxiqChatTester/MainForm.cs:330-345 | "[SYSTEM] content" + CR LF for a Guid.Empty sender; otherwise "[date] name: content" + CR LF |
| `Forms.SenderNameFirstMatch` | ToxiqChatTester/MainForm.cs:330-334 | the name is that of the first user with the sender's id across the conversations in order (the id string when that user has no name) |
| `Forms.SenderNameUnknown` | ToxiqChatTester/MainForm.cs:330-334 | a sender found in no conversation is shown by its Guid string |
| `Forms.AllUsersMembers` | ToxiqChatTester/MainForm.cs:331-332 | SelectMany over the conversations holds exactly the users of every conversation |
| `Forms.AllUsersAppend` | ToxiqChatTester/MainForm.cs:331-332 | SelectMany over two lists of conversations, one after the other, is the concatenation of the two |
| `Forms.ParticipantIdsRoundTrip` | ToxiqChatTester/MainForm.cs:648-659 | the participant ids typed as a comma-separated list of Guid strings are parsed back to the same ids, in order |
| `Forms.ParsedIdsOfStrings` | ToxiqChatTester/MainForm.cs:651-658 | pieces that are all Guid strings are all kept, in order |
| `Forms.ParsedIdsAppend` | ToxiqChatTester/MainForm.cs:651-658 | each piece contributes on its own: the ids of two lists one after the other are those of the first, then those of the second |
| `Forms.ParsedIdsDropsInvalid` | ToxiqChatTester/MainForm.cs:651-658 | a piece that does not parse, anywhere in a mixed list, is dropped silently; the pieces around it keep their ids and their order |
| `Forms.ParsedIdsKeepsValid` | ToxiqChatTester/MainForm.cs:651-658 | a Guid in "D" form, anywhere in a mixed list, is kept in its place |
| `Common.FilterSomeAppend` | ToxiqChatTester/MainForm.cs:651-658 | keeping the present values distributes over concatenation |
| `Forms.ParsedIdsNone` | ToxiqChatTester/MainForm.cs:651-658 | pieces none of which parses give no participants: invalid entries are dropped silently |
| `Forms.LoginForm.constructor` | ToxiqChatTester/MainForm.cs:494-497 | the token box is empty, there is no token yet and the dialog has no result |
| `Forms.LoginForm.BtnLoginClick` | ToxiqChatTester/MainForm.cs:499-510 | a blank token changes nothing; otherwise the token is taken as typed and the dialog closes with OK |
| `Forms.LoginForm.BtnCancelClick` | ToxiqChatTester/MainForm.cs:512-516 | the dialog closes with Cancel |
| `Forms.NewConversationForm.constructor` | ToxiqChatTester/MainForm.cs:599-603 | the dialog keeps the caller's HTTP client, opens with every box empty and in direct-message mode (the designer checks chkIsDirectMessage, MainForm.cs:729-730), and has no result |
| `Forms.NewConversationForm.CollectParticipants` | ToxiqChatTester/MainForm.cs:645-659 | the ids built by the loop are ParticipantIds of the text: each trimmed piece that parses, in order; none for blank text |
| `Forms.NewConversationForm.CreateRequest` | ToxiqChatTester/MainForm.cs:607-670 | for a direct message, a request exactly when the user id is not blank and parses, going to the direct path of that Guid with no body; for a group, a request exactly when the name is not blank, going to the group path with the trimmed name and ParticipantIds of the participants text as its body; always a POST with the client's header |
| `Forms.NewConversationForm.BtnCreateClick` | ToxiqChatTester/MainForm.cs:605-686 | sends CreateRequest if there is one and nothing otherwise; the dialog is OK exactly when that request got a success status |
| `Forms.DumpLines` | ToxiqChatTester/MainForm.cs:420-441 | a read token gives the count line, then one "  type: value" line per claim; a non-JWT gives nothing; an exception gives "Error parsing token: msg" |
| `Forms.MainForm.constructor` | ToxiqChatTester/MainForm.cs:107-128 | the form's client is on the base URL, with the Bearer header set unconditionally; the helper is built on the same URL and token; the user id is UserIdOf; the status lines are the claim dump and then "Extracted user ID from token: id"; no hub and no conversation yet |
| `Forms.OpenAfterLogin` | ToxiqChatTester/MainForm.cs:102-130 | the constructor's state followed by InitializeSignalRConnections: the lines are the claim dump, the user id line, then InitializeLines; only the helper's probe, then the conversations GET exactly when the token is valid and the chat hub started; a chat client exactly then; the notification connection null exactly when the token was rejected or its start failed |
| `Forms.MainForm.DumpTokenClaims` | ToxiqChatTester/MainForm.cs:420-441 | appends DumpLines of the token |
| `Forms.ChatFailureStillTriesNotifications` | ToxiqChatTester/MainForm.cs:154-169 | whatever the chat hub gave, the line after its verdict starts the notification hub attempt |
| `Forms.MainForm.InitializeSignalRConnections` | ToxiqChatTester/MainForm.cs:138-201 | one validation probe; a rejected token gives exactly the two lines and no hub, no client and no load; otherwise both hubs are tried in order and the conversations are loaded exactly when there is a chat client; the new chat client has AddMessageToChat as its callback, and the notification connection uses the chat hub's options and the two handlers |
| `Forms.MainForm.ConnectAndLoad` | ToxiqChatTester/MainForm.cs:154-194 | the same sequence, once the token is accepted |
| `Forms.MainForm.ConnectChatHub` | ToxiqChatTester/MainForm.cs:154-166 | TryConnectToHub's lines and the ready/failed line; a new client only on success, the old one kept otherwise |
| `Forms.MainForm.ConnectNotificationHub` | ToxiqChatTester/MainForm.cs:169-188 | TryConnectToHub's lines and the ready/failed line; the connection is null exactly on failure |
| `Forms.MainForm.LoadConversations` | ToxiqChatTester/MainForm.cs:205-232 | one GET; a readable success replaces the conversations, and the list shows their names in the same order (Valid); a non-success gives "Error loading conversations: status"; an exception leaves everything |
| `Forms.MainForm.SelectedIndexChanged` | ToxiqChatTester/MainForm.cs:234-270 | index -1 does nothing; otherwise the current id is that of the conversation at the same index; with no client, the reconnect line and then InitializeSignalRConnections; with a client, JoinPlan and, exactly when joined, LoadMessages |
| `Forms.MainForm.JoinAndLoad` | ToxiqChatTester/MainForm.cs:252-258 | the join's calls and lines, then the message load only when joined |
| `Forms.MessagesRequests` | ToxiqChatTester/MainForm.cs:277-294 | the primary GET, then the alternate GET exactly when the primary answered with a non-success status |
| `Forms.MessagesShown` | ToxiqChatTester/MainForm.cs:277-306 | the primary's messages when it succeeds readably; after a non-success primary exactly the alternate's, when that one succeeds readably; nothing when the primary threw or could not be read |
| `Forms.LoadMessagesFallback` | ToxiqChatTester/MainForm.cs:277-316 | a primary success replaces the chat text without a second GET; a primary that throws or cannot be read leaves the text and the status as they were; after a non-success primary both GETs are sent, a readable alternate success replaces the chat text and reports "Loaded n messages from alternative endpoint", any other alternate reply leaves the text, and a non-success alternate reports "Error loading messages: status"; a success of either GET whose message list is null leaves the chat cleared, reports nothing, and is not followed by another GET |
| `Forms.MainForm.LoadMessages` | ToxiqChatTester/MainForm.cs:273-318 | the requests of MessagesRequests; the status line of MessagesStatus; the chat text replaced by the shown messages, formatted in order, or cleared when the list read is null |
| `Forms.MainForm.ShowMessages` | ToxiqChatTester/MainForm.cs:283-287 | the chat text becomes the concatenation of the formatted messages, in order |
| `Forms.MainForm.AddMessageToChat` | ToxiqChatTester/MainForm.cs:321-349 | appends FormatMessage of the message |
| `Forms.MainForm.OnChatHubEvent` | ToxiqChatTester/MainForm.cs:157-158 | a received message reaches the chat text exactly when AddMessageToChat is the client's callback; other events post their status line |
| `Forms.MainForm.OnNotificationEvent` | ToxiqChatTester/MainForm.cs:173-181 | "Notification Hub: m" or "Notification: text" |
| `Forms.SendNeedsConversationAndText` | ToxiqChatTester/MainForm.cs:352-361 | with no conversation or blank text, Send does nothing |
| `Forms.NoClientNeverSends` | ToxiqChatTester/MainForm.cs:366-370 | a send with no chat client makes no hub call and no request, and ends with the exception's error line |
| `Forms.SentViaHub` | ToxiqChatTester/MainForm.cs:372-380 | an accepted hub send on a Connected client is the only call; there is no REST request and no status line, and the text is cleared |
| `Forms.RestOnlyAfterHubFailure` | ToxiqChatTester/MainForm.cs:374-380 | REST requests are made only after a hub send, and then they are the REST fallback's requests |
| `Forms.RestPlanRequests` | ToxiqChatTester/MainForm.cs:382-407 | one or two POSTs carrying the typed text as a Text message; the primary first; the alternate exactly after a non-success primary |
| `Forms.DeliveredIffAccepted` | ToxiqChatTester/MainForm.cs:372-411 | the text is cleared exactly when the hub accepted the message, or the primary endpoint did, or the alternate did after a non-success primary |
| `Forms.MainForm.BtnSendClick` | ToxiqChatTester/MainForm.cs:350-418 | the status lines, the hub calls and the requests are SendPlan's; the text is cleared exactly when the plan delivered |
| `Forms.MainForm.SendWithClient` | ToxiqChatTester/MainForm.cs:366-411 | when not Connected, the reconnect line and one start attempt first, then the send |
| `Forms.MainForm.SendAndFallBack` | ToxiqChatTester/MainForm.cs:372-411 | one hub send, and the REST fallback only when it failed |
| `Forms.MainForm.SendViaRest` | ToxiqChatTester/MainForm.cs:380-407 | the REST fallback's lines and requests; an exception ends it with "Error sending message: msg" |
| `Forms.MainForm.UpdateStatus` | ToxiqChatTester/MainForm.cs:444-453 | the status label shows the new line |

## Left out

- The WinForms designer code, the layout in `InitializeComponent`, MessageBox dialogs, focus and scrolling calls, and closing the dialogs are UI only. The `Close()` calls are represented by `dialogResult` alone.
- `Invoke`/`BeginInvoke` marshalling to the UI thread, `async void` and overlapping handlers are concurrency, not logic. Every handler runs to completion in the order it is called.
- `OnTestConnection`, `OnInspectToken`, `btnNewConversation_Click` and `MainForm_FormClosing` are not modelled. They open dialogs, test unassigned hub connections or dispose objects.
- The SignalR transport, connection ids, the automatic-reconnect backoff, and "Reconnecting"/"Closed" events on the notification connection belong to the library. Hub outcomes are an oracle of the call alone.
- Real HTTP, JSON (de)serialisation and the response body text in MessageBoxes are not modelled. Replies are already decoded, and a body that does not decode counts as unreadable.
- JWT decoding is an oracle, `Jwt.TokenReader`.
- `DateTime.Now` is a parameter `now`. `ToLocalTime` and the formatting of a DateTime are a parameter `show`.
- `Forms.MainForm.constructor`: the warning dialog for an empty user id and `Application.Exit()` on a cancelled login are not modelled. The constructor models only the OK path of the login dialog, and stops before the call to InitializeSignalRConnections that ends that path; `Forms.OpenAfterLogin` makes the two calls in sequence.
- `Forms.MainForm.InitializeSignalRConnections`: the outer catch ("Error initializing SignalR") is not modelled. None of the modelled calls inside it throws.
- `Forms.MainForm.SelectedIndexChanged`: two of the source's paths are not modelled. The catch ("Error selecting conversation") is left out because no modelled call inside it throws. The MessageBox after a failed join is UI only. The reconnection path states only the status lines, the requests, and whether a client now exists.
- `Forms.NewConversationForm`: `chkIsDirectMessage_CheckedChanged` only enables and disables text boxes. The model keeps the checkbox as `isDirectMessage` and lets every box hold text in either mode.
- `Forms.MainForm.ShowMessages`: a conversation whose JSON carries `"users": null` makes the SelectMany in AddMessageToChat throw partway through the loop, leaving the lines formatted so far. Conversations in the model always hold a user list, so this case is not captured.
- `Forms.MainForm.LoadConversations`: when the body decodes to JSON null, the source stores null as the conversation list and then throws. The model counts such a body as unreadable and keeps the old list.
- `Guids.TryParse`: the "X" hexadecimal-record layout of `Guid.TryParse` is not recognised.
