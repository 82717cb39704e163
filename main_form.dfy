/** MainForm.cs: the tester's main window (sign-in, hub set-up, the
    conversation list, the message view and the send chain), the login
    dialog and the new-conversation dialog. */
module Forms {
  import opened Common
  import opened Strings
  import opened Guids
  import opened Jwt
  import opened Models
  import opened Http
  import opened SignalR
  import opened Auth
  import opened ChatHub

  const BaseUrl := "https://api.toxiq.xyz"
  const ConversationsPath := "api/Chat/conversations"
  const GroupPath := "api/Chat/conversations/group"

  /** The Message of the NullReferenceException .NET throws on a null reference. */
  const NullReferenceMessage := "Object reference not set to an instance of an object."

  /** The message callback MainForm registers: `message => AddMessageToChat(message)`. */
  const AddMessageToChatCallback := Callback(0)

  /** The events MainForm subscribes to on the notification connection. */
  const NotificationEvents := ["Connected", "ReceiveNotification"]

  function MessagesPath(conversationId: Guid): string
  {
    "api/Chat/conversations/" + Guids.ToString(conversationId) + "/messages"
  }

  function AlternateMessagesPath(conversationId: Guid): string
  {
    "api/conversations/" + Guids.ToString(conversationId) + "/messages"
  }

  function DirectPath(userId: Guid): string
  {
    "api/Chat/conversations/direct/" + Guids.ToString(userId)
  }

  /** An interpolated string value that may be null: null prints as nothing. */
  function OrEmpty(s: Option<string>): string
  {
    if s.Some? then s.value else ""
  }

  // ---------------------------------------------------------------------
  // Sender names and chat lines (AddMessageToChat)
  // ---------------------------------------------------------------------

  /** `conversations.SelectMany(c => c.Users)`: every user of every conversation, in order. */
  function AllUsers(conversations: seq<Conversation>): seq<ConversationUser>
  {
    if |conversations| == 0 then []
    else AllUsers(conversations[..|conversations| - 1]) + conversations[|conversations| - 1].users
  }

  lemma {:induction false} AllUsersAppend(a: seq<Conversation>, b: seq<Conversation>)
    ensures AllUsers(a + b) == AllUsers(a) + AllUsers(b)
    decreases |b|
  {
    if |b| == 0 {
      assert a + b == a;
    } else {
      var n := |b| - 1;
      assert (a + b)[..|a + b| - 1] == a + b[..n];
      AllUsersAppend(a, b[..n]);
      AppendAssoc(AllUsers(a), AllUsers(b[..n]), b[n].users);
    }
  }

  /** The users of the conversations before `j`, then those of conversation `j`, then the rest. */
  lemma AllUsersSplit(conversations: seq<Conversation>, j: nat)
    requires j < |conversations|
    ensures AllUsers(conversations) ==
              AllUsers(conversations[..j]) + conversations[j].users + AllUsers(conversations[j + 1..])
  {
    var c := conversations;
    AllUsersPrefix(c, j);
    assert c == c[..j + 1] + c[j + 1..];
    AllUsersAppend(c[..j + 1], c[j + 1..]);
  }

  lemma AllUsersPrefix(conversations: seq<Conversation>, j: nat)
    requires j < |conversations|
    ensures AllUsers(conversations[..j + 1]) == AllUsers(conversations[..j]) + conversations[j].users
  {
    var p := conversations[..j + 1];
    assert p[..|p| - 1] == conversations[..j];
  }

  /** A user belongs to AllUsers exactly when some conversation lists it. */
  lemma {:induction false} AllUsersMembers(conversations: seq<Conversation>, u: ConversationUser)
    ensures u in AllUsers(conversations) <==> exists j :: 0 <= j < |conversations| && u in conversations[j].users
  {
    var c := conversations;
    if |c| > 0 {
      var n := |c| - 1;
      AllUsersMembers(c[..n], u);
      assert AllUsers(c) == AllUsers(c[..n]) + c[n].users;
      if u in AllUsers(c) {
        if u in AllUsers(c[..n]) {
          var j :| 0 <= j < n && u in c[..n][j].users;
          assert c[..n][j] == c[j];
        } else {
          assert u in c[n].users;
        }
      }
      if exists j :: 0 <= j < |c| && u in c[j].users {
        var j :| 0 <= j < |c| && u in c[j].users;
        if j < n {
          assert c[..n][j] == c[j];
        }
      }
    }
  }

  /** The name shown for a sender: "System" for Guid.Empty; otherwise the
      Name of the first user, across the conversations in order, whose
      UserId is the sender, or the sender's Guid when there is no such user
      or that user has no name. */
  function SenderName(senderId: Guid, conversations: seq<Conversation>): string
  {
    if senderId == Guids.Empty then "System"
    else NameOf(senderId, AllUsers(conversations), FirstUserWithId(senderId, AllUsers(conversations)))
  }

  /** `users.FirstOrDefault(u => u.UserId == senderId)`, as a position. */
  function FirstUserWithId(senderId: Guid, users: seq<ConversationUser>): (r: Option<nat>)
    ensures r.Some? ==> r.value < |users| && users[r.value].userId == senderId
    ensures r.Some? ==> forall j :: 0 <= j < r.value ==> users[j].userId != senderId
    ensures r.None? ==> forall j :: 0 <= j < |users| ==> users[j].userId != senderId
  {
    FindFirst(users, (u: ConversationUser) => u.userId == senderId)
  }

  /** `found?.Name ?? senderId.ToString()`. */
  function NameOf(senderId: Guid, users: seq<ConversationUser>, found: Option<nat>): string
  {
    if found.Some? && found.value < |users| && users[found.value].name.Some? then users[found.value].name.value
    else Guids.ToString(senderId)
  }

  /** The first matching user, in conversation order and then in user order, names the sender. */
  lemma SenderNameFirstMatch(senderId: Guid, conversations: seq<Conversation>, j: nat, k: nat)
    requires senderId != Guids.Empty
    requires j < |conversations| && k < |conversations[j].users| && conversations[j].users[k].userId == senderId
    requires forall j', u :: 0 <= j' < j && u in conversations[j'].users ==> u.userId != senderId
    requires forall k' :: 0 <= k' < k ==> conversations[j].users[k'].userId != senderId
    ensures var u := conversations[j].users[k];
            SenderName(senderId, conversations) == if u.name.Some? then u.name.value else Guids.ToString(senderId)
  {
    var users := AllUsers(conversations);
    var before := AllUsers(conversations[..j]);
    AllUsersSplit(conversations, j);
    forall i | 0 <= i < |before| ensures users[i].userId != senderId {
      assert users[i] == before[i];
      AllUsersMembers(conversations[..j], before[i]);
      var j' :| 0 <= j' < j && before[i] in conversations[..j][j'].users;
      assert conversations[..j][j'] == conversations[j'];
    }
    forall i | |before| <= i < |before| + k ensures users[i].userId != senderId {
      assert users[i] == conversations[j].users[i - |before|];
    }
    assert users[|before| + k] == conversations[j].users[k];
  }

  /** A sender no user matches is shown by its Guid. */
  lemma SenderNameUnknown(senderId: Guid, conversations: seq<Conversation>)
    requires senderId != Guids.Empty
    requires forall j, u :: 0 <= j < |conversations| && u in conversations[j].users ==> u.userId != senderId
    ensures SenderName(senderId, conversations) == Guids.ToString(senderId)
  {
    var users := AllUsers(conversations);
    var r := FirstUserWithId(senderId, users);
    if r.Some? {
      AllUsersMembers(conversations, users[r.value]);
    }
  }

  /** The chat line for a message: "[SYSTEM] content" for a message from
      Guid.Empty, "[date] sender: content" for any other, each ended by
      "\r\n"; `show` is how a DateTime is written. */
  function FormatMessage(m: Message, conversations: seq<Conversation>, show: int -> string): (r: string)
    ensures m.senderId == Guids.Empty ==> r == "[SYSTEM] " + m.content + "\r\n"
    ensures m.senderId != Guids.Empty ==>
              r == "[" + show(m.date) + "] " + SenderName(m.senderId, conversations) + ": " + m.content + "\r\n"
  {
    if m.senderId == Guids.Empty then "[SYSTEM] " + m.content + "\r\n"
    else "[" + show(m.date) + "] " + SenderName(m.senderId, conversations) + ": " + m.content + "\r\n"
  }

  /** The chat lines for a list of messages, in order. */
  function ChatLines(messages: seq<Message>, conversations: seq<Conversation>, show: int -> string): (r: seq<string>)
    ensures |r| == |messages|
    ensures forall i :: 0 <= i < |messages| ==> r[i] == FormatMessage(messages[i], conversations, show)
  {
    seq(|messages|, i requires 0 <= i < |messages| => FormatMessage(messages[i], conversations, show))
  }

  /** The lines of one more message are the lines so far and that message's line. */
  lemma ChatLinesStep(messages: seq<Message>, i: nat, conversations: seq<Conversation>, show: int -> string)
    requires i < |messages|
    ensures ChatLines(messages[..i + 1], conversations, show)
            == ChatLines(messages[..i], conversations, show) + [FormatMessage(messages[i], conversations, show)]
  {
  }

  // ---------------------------------------------------------------------
  // Participant lists (NewConversationForm)
  // ---------------------------------------------------------------------

  /** One piece, trimmed, read as a Guid if it is one. */
  function ParsePiece(piece: string): Option<Guid>
  {
    TryParse(Trim(piece))
  }

  /** Each piece, trimmed, read as a Guid if it is one. */
  function ParsedPieces(pieces: seq<string>): (r: seq<Option<Guid>>)
    ensures |r| == |pieces| && forall i :: 0 <= i < |pieces| ==> r[i] == TryParse(Trim(pieces[i]))
  {
    Map(ParsePiece, pieces)
  }

  /** The Guids among the pieces, each piece trimmed, in order; pieces that
      do not parse are dropped. */
  function ParsedIds(pieces: seq<string>): (r: seq<Guid>)
    ensures |r| <= |pieces|
  {
    FilterSome(ParsedPieces(pieces))
  }

  /** The participant ids of a comma-separated list: none for a blank list. */
  function ParticipantIds(text: string): seq<Guid>
  {
    if IsNullOrWhiteSpace(text) then [] else ParsedIds(Split(text, ','))
  }

  /** The "D" strings of a list of Guids. */
  function GuidStrings(ids: seq<Guid>): (r: seq<string>)
    ensures |r| == |ids| && forall i :: 0 <= i < |ids| ==> r[i] == Guids.ToString(ids[i])
  {
    seq(|ids|, i requires 0 <= i < |ids| => Guids.ToString(ids[i]))
  }

  lemma ParsedIdsOfStrings(ids: seq<Guid>)
    ensures ParsedIds(GuidStrings(ids)) == ids
  {
    var pieces := ParsedPieces(GuidStrings(ids));
    forall i | 0 <= i < |ids| ensures pieces[i] == Some(ids[i]) {
      ParseTrimmedToString(ids[i]);
    }
    FilterSomeAll(pieces, ids);
  }

  /** A list of Guids written in "D" form and joined with commas is read back as the same list. */
  lemma ParticipantIdsRoundTrip(ids: seq<Guid>)
    ensures ParticipantIds(Join(GuidStrings(ids), ',')) == ids
  {
    var s := GuidStrings(ids);
    if |ids| > 0 {
      forall i | 0 <= i < |s| ensures ',' !in s[i] {
        ToStringChars(ids[i]);
      }
      SplitJoin(s, ',');
      var text := Join(s, ',');
      assert text[0] == s[0][0] by {
        if |s| > 1 {
          assert text == s[0] + [','] + Join(s[1..], ',');
        }
      }
      assert s[0][0] == HexChar(ids[0][0]);
      assert !IsNullOrWhiteSpace(text);
      ParsedIdsOfStrings(ids);
    } else {
      assert Join(s, ',') == "";
    }
  }

  /** Each piece contributes on its own: the ids of two lists one after the
      other are the ids of the first, then those of the second. */
  lemma ParsedIdsAppend(p: seq<string>, q: seq<string>)
    ensures ParsedIds(p + q) == ParsedIds(p) + ParsedIds(q)
  {
    MapAppend(ParsePiece, p, q);
    FilterSomeAppend(ParsedPieces(p), ParsedPieces(q));
  }

  /** A malformed or blank piece anywhere in the list is dropped silently,
      and the pieces around it keep their ids and their order. */
  lemma ParsedIdsDropsInvalid(p: seq<string>, bad: string, q: seq<string>)
    requires TryParse(Trim(bad)).None?
    ensures ParsedIds(p + [bad] + q) == ParsedIds(p) + ParsedIds(q)
  {
    ParsedIdsNone([bad]);
    ParsedIdsAppend(p, [bad]);
    assert ParsedIds(p + [bad]) == ParsedIds(p);
    ParsedIdsAppend(p + [bad], q);
  }

  /** A Guid written in "D" form anywhere in the list is kept in its place. */
  lemma ParsedIdsKeepsValid(p: seq<string>, g: Guid, q: seq<string>)
    ensures ParsedIds(p + [Guids.ToString(g)] + q) == ParsedIds(p) + [g] + ParsedIds(q)
  {
    ParsedIdsAppend(p + [Guids.ToString(g)], q);
    ParsedIdsAppend(p, [Guids.ToString(g)]);
    ParseTrimmedToString(g);
    assert ParsedIds([Guids.ToString(g)]) == [g];
  }

  /** A list whose pieces are all blank or malformed gives no participants. */
  lemma ParsedIdsNone(pieces: seq<string>)
    requires forall i :: 0 <= i < |pieces| ==> TryParse(Trim(pieces[i])).None?
    ensures ParsedIds(pieces) == []
  {
    FilterSomeNone(ParsedPieces(pieces));
  }

  // ---------------------------------------------------------------------
  // Dialogs
  // ---------------------------------------------------------------------

  datatype DialogResult = NoResult | OK | Cancel

  class LoginForm {
    /** txtToken.Text. */
    var tokenText: string
    /** The JwtToken property, null until a login is accepted. */
    var jwtToken: Option<string>
    var dialogResult: DialogResult

    constructor()
      ensures tokenText == "" && jwtToken.None? && dialogResult == NoResult
    {
      tokenText := "";
      jwtToken := None;
      dialogResult := NoResult;
    }

    /** btnLogin_Click: a blank token is refused; any other is taken as it stands and closes the dialog with OK. */
    method BtnLoginClick()
      modifies this
      ensures tokenText == old(tokenText)
      ensures IsNullOrWhiteSpace(tokenText) ==> jwtToken == old(jwtToken) && dialogResult == old(dialogResult)
      ensures !IsNullOrWhiteSpace(tokenText) ==> jwtToken == Some(tokenText) && dialogResult == OK
    {
      if IsNullOrWhiteSpace(tokenText) {
        return;
      }
      jwtToken := Some(tokenText);
      dialogResult := OK;
    }

    method BtnCancelClick()
      modifies this
      ensures tokenText == old(tokenText) && jwtToken == old(jwtToken) && dialogResult == Cancel
    {
      dialogResult := Cancel;
    }
  }

  class NewConversationForm {
    const httpClient: HttpClient
    var userIdText: string
    var groupNameText: string
    var participantsText: string
    var isDirectMessage: bool
    var dialogResult: DialogResult

    constructor(httpClient: HttpClient)
      ensures this.httpClient == httpClient
      ensures userIdText == "" && groupNameText == "" && participantsText == ""
      ensures isDirectMessage && dialogResult == NoResult
    {
      this.httpClient := httpClient;
      userIdText, groupNameText, participantsText := "", "", "";
      isDirectMessage := true;
      dialogResult := NoResult;
    }

    /** The participant list typed in: each comma-separated piece trimmed and
        kept when it parses as a Guid, in order. */
    method CollectParticipants() returns (ids: seq<Guid>)
      ensures ids == ParticipantIds(participantsText)
    {
      ids := [];
      if !IsNullOrWhiteSpace(participantsText) {
        var pieces := Split(participantsText, ',');
        ghost var parsed := ParsedPieces(pieces);
        var i := 0;
        while i < |pieces|
          invariant 0 <= i <= |pieces|
          invariant ids == FilterSome(parsed[..i])
        {
          assert parsed[..i + 1][..i] == parsed[..i];
          var userId := TryParse(Trim(pieces[i]));
          assert parsed[i] == userId;
          assert FilterSome(parsed[..i + 1])
                 == FilterSome(parsed[..i]) + (if userId.Some? then [userId.value] else []);
          if userId.Some? {
            ids := ids + [userId.value];
          }
          i := i + 1;
        }
        assert parsed[..i] == parsed;
      }
    }

    /** The request btnCreate_Click sends, if any: none for a blank user id
        or group name or a user id that is not a Guid; a direct conversation
        with the parsed user, or a group with the trimmed name and the
        participants that parse. */
    function CreateRequest(): (r: Option<Request>)
      reads this, httpClient
      ensures isDirectMessage && r.Some? ==>
                TryParse(Trim(userIdText)).Some? && r.value.path == DirectPath(TryParse(Trim(userIdText)).value)
                && r.value.body.None?
      ensures isDirectMessage ==> (r.Some? <==> !IsNullOrWhiteSpace(userIdText) && TryParse(Trim(userIdText)).Some?)
      ensures !isDirectMessage ==> (r.Some? <==> !IsNullOrWhiteSpace(groupNameText))
      ensures !isDirectMessage && r.Some? ==>
                r.value.path == GroupPath
                && r.value.body == Some(CreateGroupBody(Trim(groupNameText), ParticipantIds(participantsText)))
      ensures r.Some? ==> r.value.verb == POST && r.value.authorization == httpClient.authorization
    {
      if isDirectMessage then
        if IsNullOrWhiteSpace(userIdText) then None
        else
          match TryParse(Trim(userIdText))
          case None => None
          case Some(g) => Some(Request(POST, DirectPath(g), httpClient.authorization, None))
      else if IsNullOrWhiteSpace(groupNameText) then None
      else
        Some(Request(POST, GroupPath, httpClient.authorization,
                     Some(CreateGroupBody(Trim(groupNameText), ParticipantIds(participantsText)))))
    }

    /** btnCreate_Click: validates the input, sends at most one request, and
        closes with OK when the server answers with a success status. */
    method BtnCreateClick(server: HttpServer)
      modifies this, httpClient
      ensures userIdText == old(userIdText) && groupNameText == old(groupNameText)
      ensures participantsText == old(participantsText) && isDirectMessage == old(isDirectMessage)
      ensures httpClient.authorization == old(httpClient.authorization)
      ensures var request := old(CreateRequest());
              && httpClient.sent == old(httpClient.sent) + (if request.Some? then [request.value] else [])
              && dialogResult == if request.Some? && IsSuccess(Serve(server, request.value)) then OK else old(dialogResult)
    {
      if IsNullOrWhiteSpace(userIdText) && isDirectMessage {
        return;
      }
      if IsNullOrWhiteSpace(groupNameText) && !isDirectMessage {
        return;
      }
      if isDirectMessage {
        var userId := TryParse(Trim(userIdText));
        if userId.None? {
          return;
        }
        var response := httpClient.PostAsync(DirectPath(userId.value), None, server);
        if IsSuccess(response) {
          dialogResult := OK;
        }
      } else {
        var participantIds := CollectParticipants();
        var body := CreateGroupBody(Trim(groupNameText), participantIds);
        var response := httpClient.PostAsync(GroupPath, Some(body), server);
        if IsSuccess(response) {
          dialogResult := OK;
        }
      }
    }
  }

  // ---------------------------------------------------------------------
  // The main window
  // ---------------------------------------------------------------------

  /** DumpTokenClaims' line for one claim. */
  function DumpLine(c: Claim): string
  {
    "  " + c.claimType + ": " + c.value
  }

  function DumpClaimLines(claims: seq<Claim>): (r: seq<string>)
    ensures |r| == |claims| && forall i :: 0 <= i < |claims| ==> r[i] == DumpLine(claims[i])
  {
    seq(|claims|, i requires 0 <= i < |claims| => DumpLine(claims[i]))
  }

  /** What DumpTokenClaims reports: the claim count and one line per claim
      for a JWT, nothing for a token that is not one, the error when
      reading throws. */
  function DumpLines(read: ReadResult): (r: seq<string>)
    ensures read.Read? ==> |r| == |read.token.claims| + 1
                           && r[0] == "Token contains " + NatToString(|read.token.claims|) + " claims:"
                           && r[1..] == DumpClaimLines(read.token.claims)
    ensures read.NotJwt? ==> r == []
    ensures read.Threw? ==> r == ["Error parsing token: " + read.error.message]
  {
    match read
    case Read(t) => ["Token contains " + NatToString(|t.claims|) + " claims:"] + DumpClaimLines(t.claims)
    case NotJwt => []
    case Threw(e) => ["Error parsing token: " + e.message]
  }

  function ChatHubReadyLine(connected: bool): string
  {
    if connected then "Chat hub connection initialized and ready" else "Failed to connect to chat hub"
  }

  function NotificationHubReadyLine(connected: bool): string
  {
    if connected then "Notification hub connection initialized and ready" else "Failed to connect to notification hub"
  }

  /** The conversations a reply carries, when LoadConversations takes them:
      a success whose body reads as a list. */
  function LoadedConversations(r: Http.Reply): Option<seq<Conversation>>
  {
    if IsSuccess(r) && r.payload.ConversationList? then Some(r.payload.conversations) else None
  }

  /** LoadConversations' status line: the load, or the status code of a
      non-success; an exception is shown in a message box only. */
  function ConversationsStatus(r: Http.Reply): seq<string>
  {
    if LoadedConversations(r).Some? then ["Conversations loaded"]
    else if r.Response? && !IsSuccess(r) then ["Error loading conversations: " + r.statusName]
    else []
  }

  /** The messages a reply carries, when LoadMessages takes them. */
  function LoadedMessages(r: Http.Reply): Option<seq<Message>>
  {
    if IsSuccess(r) && r.payload.MessagePage? && r.payload.page.messages.Some? then Some(r.payload.page.messages.value)
    else None
  }

  /** A success whose page has a null message list: LoadMessages clears the
      chat, then its foreach throws, and the catch shows a message box only. */
  predicate NullMessages(r: Http.Reply)
  {
    IsSuccess(r) && r.payload.MessagePage? && r.payload.page.messages.None?
  }

  /** Whether LoadMessages' two replies end in a cleared chat and an exception. */
  predicate ClearedByNull(primary: Http.Reply, alternate: Http.Reply)
  {
    NullMessages(primary) || (TriesAlternate(primary) && NullMessages(alternate))
  }

  /** Whether a fallback chain moves on to its alternate endpoint: only
      after a response that is not a success (an exception ends the chain). */
  predicate TriesAlternate(r: Http.Reply)
  {
    r.Response? && !IsSuccess(r)
  }

  /** The messages LoadMessages shows for its two replies, if it shows any. */
  function MessagesShown(primary: Http.Reply, alternate: Http.Reply): (r: Option<seq<Message>>)
    ensures LoadedMessages(primary).Some? ==> r == LoadedMessages(primary)
    ensures TriesAlternate(primary) ==> r == LoadedMessages(alternate)
    ensures LoadedMessages(primary).None? && !TriesAlternate(primary) ==> r.None?
    ensures r.Some? && LoadedMessages(primary).None? ==>
              TriesAlternate(primary) && r == LoadedMessages(alternate)
  {
    if LoadedMessages(primary).Some? then LoadedMessages(primary)
    else if TriesAlternate(primary) then LoadedMessages(alternate)
    else None
  }

  /** LoadMessages' status line for its two replies. */
  function MessagesStatus(primary: Http.Reply, alternate: Http.Reply): seq<string>
  {
    if LoadedMessages(primary).Some? then
      ["Loaded " + NatToString(|LoadedMessages(primary).value|) + " messages"]
    else if !TriesAlternate(primary) then []
    else if LoadedMessages(alternate).Some? then
      ["Loaded " + NatToString(|LoadedMessages(alternate).value|) + " messages from alternative endpoint"]
    else if TriesAlternate(alternate) then ["Error loading messages: " + alternate.statusName]
    else []
  }

  /** The body of the REST send: the typed text as a Text message. */
  function SendBody(text: string): Body
  {
    SendMessageBody(TextMessageDto(text))
  }

  /** Whether the REST fallback delivered the message. */
  predicate RestDelivered(primary: Http.Reply, alternate: Http.Reply)
  {
    IsSuccess(primary) || (TriesAlternate(primary) && IsSuccess(alternate))
  }

  /** The REST fallback's status line. */
  function RestStatus(primary: Http.Reply, alternate: Http.Reply): seq<string>
  {
    if IsSuccess(primary) then ["Message sent via REST API"]
    else if primary.NetworkError? then ["Error sending message: " + primary.error.message]
    else if IsSuccess(alternate) then []
    else if alternate.NetworkError? then ["Error sending message: " + alternate.error.message]
    else ["Error sending message: " + alternate.statusName]
  }


  const InitializingLine := "Initializing SignalR connections..."
  const TokenRejectedLine := "Token validation failed. Please check your JWT token."
  /** The hub names InitializeSignalRConnections hands to TryConnectToHub
      (which reports them but connects to the chat hub's URL for both). */
  const ChatHubName := "hubs/chat"
  const NotificationHubName := "hubs/notification"
  const HubNotConnectedLine := "Chat hub not connected. Reconnecting..."
  const ClientMissingLine := "Chat hub client not initialized. Reconnecting..."

  /** ValidateToken's probe. */
  function ProbeRequest(authorization: Option<string>): Request
  {
    Request(GET, GetMePath, authorization, None)
  }

  function ConversationsRequest(authorization: Option<string>): Request
  {
    Request(GET, ConversationsPath, authorization, None)
  }

  /** The conversations held after LoadConversations got reply r. */
  function ConversationsAfter(r: Http.Reply, before: seq<Conversation>): seq<Conversation>
  {
    if LoadedConversations(r).Some? then LoadedConversations(r).value else before
  }

  /** The chat hub's part of the connection sequence: TryConnectToHub's
      lines, then whether the client is ready. */
  function ChatHubLines(chatStart: Outcome): seq<string>
  {
    ConnectLines(ChatHubName, chatStart) + [ChatHubReadyLine(chatStart.Ok?)]
  }

  function NotificationHubLines(notificationStart: Outcome): seq<string>
  {
    ConnectLines(NotificationHubName, notificationStart) + [NotificationHubReadyLine(notificationStart.Ok?)]
  }

  /** The lines after an accepted token: both connection attempts, the
      second whatever the first gave, then the conversation load when
      `loading`. */
  function ConnectAndLoadLines(chatStart: Outcome, notificationStart: Outcome,
                               loading: bool, conversationsReply: Http.Reply): seq<string>
  {
    ChatHubLines(chatStart) + NotificationHubLines(notificationStart)
    + (if loading then ConversationsStatus(conversationsReply) else [])
  }

  /** The status lines of InitializeSignalRConnections: the opening line,
      then the rejection of the token or the connection sequence. */
  function InitializeLines(tokenValid: bool, chatStart: Outcome, notificationStart: Outcome,
                           loading: bool, conversationsReply: Http.Reply): seq<string>
  {
    [InitializingLine]
    + (if tokenValid then ConnectAndLoadLines(chatStart, notificationStart, loading, conversationsReply)
       else [TokenRejectedLine])
  }

  /** A failed chat hub does not stop the notification hub attempt: its
      "Creating connection" line comes right after the chat hub's verdict. */
  lemma ChatFailureStillTriesNotifications(chatStart: Outcome, notificationStart: Outcome, loading: bool, r: Http.Reply)
    ensures var lines, k := InitializeLines(true, chatStart, notificationStart, loading, r), 1 + |ConnectLines(ChatHubName, chatStart)|;
            && k + 1 < |lines|
            && lines[k] == ChatHubReadyLine(chatStart.Ok?)
            && lines[k + 1] == "Creating connection to " + NotificationHubName + "..."
  {
    var chat := ConnectLines(ChatHubName, chatStart);
    var notification := ConnectLines(NotificationHubName, notificationStart);
    var tail := (if loading then ConversationsStatus(r) else []);
    var lines := InitializeLines(true, chatStart, notificationStart, loading, r);
    assert lines == [InitializingLine] + (chat + [ChatHubReadyLine(chatStart.Ok?)]) + (notification
                    + [NotificationHubReadyLine(notificationStart.Ok?)]) + tail;
    assert lines[1 + |chat|] == ChatHubReadyLine(chatStart.Ok?);
    assert lines[2 + |chat|] == notification[0];
  }

  function MessagesRequest(conversationId: Guid, authorization: Option<string>): Request
  {
    Request(GET, MessagesPath(conversationId), authorization, None)
  }

  function AlternateMessagesRequest(conversationId: Guid, authorization: Option<string>): Request
  {
    Request(GET, AlternateMessagesPath(conversationId), authorization, None)
  }

  /** The GETs LoadMessages sends: the primary, then the alternate only
      when the primary answered with a status that is not a success. */
  function MessagesRequests(conversationId: Guid, authorization: Option<string>, server: HttpServer): (r: seq<Request>)
    ensures 1 <= |r| <= 2 && r[0] == MessagesRequest(conversationId, authorization)
    ensures |r| == 2 <==> TriesAlternate(Serve(server, MessagesRequest(conversationId, authorization)))
    ensures |r| == 2 ==> r[1] == AlternateMessagesRequest(conversationId, authorization)
  {
    [MessagesRequest(conversationId, authorization)]
    + (if TriesAlternate(Serve(server, MessagesRequest(conversationId, authorization)))
       then [AlternateMessagesRequest(conversationId, authorization)] else [])
  }

  /** The chat text after LoadMessages: the shown messages, formatted in
      order, replace it; a null message list leaves it cleared; otherwise it
      stays as it was. */
  function ChatAfterLoad(conversationId: Guid, authorization: Option<string>, server: HttpServer,
                         conversations: seq<Conversation>, show: int -> string, before: string): string
  {
    var shown := MessagesShown(Serve(server, MessagesRequest(conversationId, authorization)),
                               Serve(server, AlternateMessagesRequest(conversationId, authorization)));
    if shown.Some? then Concat(ChatLines(shown.value, conversations, show))
    else if ClearedByNull(Serve(server, MessagesRequest(conversationId, authorization)),
                          Serve(server, AlternateMessagesRequest(conversationId, authorization))) then ""
    else before
  }

  function LoadStatus(conversationId: Guid, authorization: Option<string>, server: HttpServer): seq<string>
  {
    MessagesStatus(Serve(server, MessagesRequest(conversationId, authorization)),
                   Serve(server, AlternateMessagesRequest(conversationId, authorization)))
  }

  /** A primary success is shown as is; a primary that throws or answers
      unreadably shows nothing and is not followed by the alternate; a
      primary that answers with a status that is not a success is followed
      by the alternate GET, whose readable success is shown and reported as
      coming from the alternative endpoint, and whose failure status is
      reported. A success of either GET whose message list is null leaves the
      chat cleared and reports nothing. */
  lemma LoadMessagesFallback(conversationId: Guid, authorization: Option<string>, server: HttpServer,
                             conversations: seq<Conversation>, show: int -> string, before: string)
    ensures var p := Serve(server, MessagesRequest(conversationId, authorization));
            && (LoadedMessages(p).Some? ==>
                  ChatAfterLoad(conversationId, authorization, server, conversations, show, before)
                    == Concat(ChatLines(LoadedMessages(p).value, conversations, show))
                  && MessagesRequests(conversationId, authorization, server) == [MessagesRequest(conversationId, authorization)])
            && (LoadedMessages(p).None? && !TriesAlternate(p) && !NullMessages(p) ==>
                  ChatAfterLoad(conversationId, authorization, server, conversations, show, before) == before)
            && (LoadedMessages(p).None? && !TriesAlternate(p) ==>
                  LoadStatus(conversationId, authorization, server) == []
                  && MessagesRequests(conversationId, authorization, server) == [MessagesRequest(conversationId, authorization)])
            && (NullMessages(p) ==>
                  ChatAfterLoad(conversationId, authorization, server, conversations, show, before) == "")
    ensures var p, a := Serve(server, MessagesRequest(conversationId, authorization)),
                        Serve(server, AlternateMessagesRequest(conversationId, authorization));
            TriesAlternate(p) ==>
              && MessagesRequests(conversationId, authorization, server)
                   == [MessagesRequest(conversationId, authorization), AlternateMessagesRequest(conversationId, authorization)]
              && (LoadedMessages(a).Some? ==>
                    && ChatAfterLoad(conversationId, authorization, server, conversations, show, before)
                         == Concat(ChatLines(LoadedMessages(a).value, conversations, show))
                    && LoadStatus(conversationId, authorization, server)
                         == ["Loaded " + NatToString(|LoadedMessages(a).value|) + " messages from alternative endpoint"])
              && (LoadedMessages(a).None? && !NullMessages(a) ==>
                    ChatAfterLoad(conversationId, authorization, server, conversations, show, before) == before)
              && (NullMessages(a) ==>
                    ChatAfterLoad(conversationId, authorization, server, conversations, show, before) == ""
                    && LoadStatus(conversationId, authorization, server) == [])
              && (TriesAlternate(a) ==>
                    LoadStatus(conversationId, authorization, server) == ["Error loading messages: " + a.statusName])
  {
  }

  function RestRequest(path: string, authorization: Option<string>, text: string): Request
  {
    Request(POST, path, authorization, Some(SendBody(text)))
  }

  /** What one click of Send did. */
  datatype SendOutcome = SendOutcome(lines: seq<string>, hubCalls: seq<HubCall>, requests: seq<Request>, delivered: bool)

  /** The REST fallback: the primary POST, then the alternate one only
      when the primary answered with a status that is not a success. */
  function RestPlan(id: Guid, text: string, authorization: Option<string>, server: HttpServer): SendOutcome
  {
    var primaryRequest := RestRequest(MessagesPath(id), authorization, text);
    var alternateRequest := RestRequest(AlternateMessagesPath(id), authorization, text);
    var primary, alternate := Serve(server, primaryRequest), Serve(server, alternateRequest);
    SendOutcome(RestStatus(primary, alternate), [],
                [primaryRequest] + (if TriesAlternate(primary) then [alternateRequest] else []),
                RestDelivered(primary, alternate))
  }

  /** btnSend_Click for the selected conversation, the typed text and the
      chat client's state (None for no client): nothing without a
      conversation or text; with no client, the null-conditional await
      throws; otherwise a start when not Connected, one hub send, and the
      REST fallback only when the hub send failed. */
  function SendPlan(id: Guid, text: string, client: Option<ConnectionState>, hub: HubServer,
                    authorization: Option<string>, server: HttpServer): SendOutcome
  {
    if id == Guids.Empty || IsNullOrWhiteSpace(text) then SendOutcome([], [], [], false)
    else if client.None? then
      SendOutcome([HubNotConnectedLine, "Error sending message: " + NullReferenceMessage], [], [], false)
    else ClientSendPlan(id, text, client.value, hub, authorization, server)
  }

  /** Send through an existing chat client in state `state`: a start
      attempt (ReconnectIfNeeded) when it is not Connected, then the rest. */
  function ClientSendPlan(id: Guid, text: string, state: ConnectionState, hub: HubServer,
                          authorization: Option<string>, server: HttpServer): SendOutcome
  {
    if state == Connected then HubSendPlan(id, text, true, hub, authorization, server)
    else
      var started := SignalR.Reply(hub, Start);
      var after := HubSendPlan(id, text, started.Ok?, hub, authorization, server);
      SendOutcome([HubNotConnectedLine] + (if started.Ok? then [] else ["Reconnection failed: " + started.error.message]) + after.lines,
                  [Start] + after.hubCalls, after.requests, after.delivered)
  }

  /** The hub send on a connection that is `live` (Connected) or not, and
      the REST fallback when it fails. */
  function HubSendPlan(id: Guid, text: string, live: bool, hub: HubServer,
                       authorization: Option<string>, server: HttpServer): SendOutcome
  {
    var sent := if live then SignalR.Reply(hub, SendCall(id, text)) else Fail(Exn(NotActiveMessage, None));
    if sent.Ok? then SendOutcome([], [SendCall(id, text)], [], true)
    else
      var rest := RestPlan(id, text, authorization, server);
      SendOutcome(["Error sending message: " + sent.error.message] + rest.lines, [SendCall(id, text)], rest.requests, rest.delivered)
  }

  /** No conversation selected or blank text: Send does nothing. */
  lemma SendNeedsConversationAndText(id: Guid, text: string, client: Option<ConnectionState>, hub: HubServer,
                                     authorization: Option<string>, server: HttpServer)
    requires id == Guids.Empty || IsNullOrWhiteSpace(text)
    ensures SendPlan(id, text, client, hub, authorization, server) == SendOutcome([], [], [], false)
  {
  }

  /** REST is used only after the hub send failed, and then it posts the
      typed text as a Text message, to the primary endpoint first and to
      the alternate one only after a non-success status. */
  lemma RestOnlyAfterHubFailure(id: Guid, text: string, client: Option<ConnectionState>, hub: HubServer,
                                 authorization: Option<string>, server: HttpServer)
    ensures var plan := SendPlan(id, text, client, hub, authorization, server);
            plan.requests != [] ==>
              && client.Some? && |plan.hubCalls| > 0 && plan.hubCalls[|plan.hubCalls| - 1] == SendCall(id, text)
              && (client.value == Connected ==> SignalR.Reply(hub, SendCall(id, text)).Fail?)
              && plan.requests == RestPlan(id, text, authorization, server).requests
  {
  }

  /** The REST fallback posts the typed text as a Text message, to the
      primary endpoint first and to the alternate one only after a
      non-success status. */
  lemma RestPlanRequests(id: Guid, text: string, authorization: Option<string>, server: HttpServer)
    ensures var requests := RestPlan(id, text, authorization, server).requests;
            && 1 <= |requests| <= 2
            && requests[0] == RestRequest(MessagesPath(id), authorization, text)
            && (|requests| == 2 <==> TriesAlternate(Serve(server, requests[0])))
            && (|requests| == 2 ==> requests[1] == RestRequest(AlternateMessagesPath(id), authorization, text))
            && (forall i :: 0 <= i < |requests| ==>
                  requests[i].verb == POST && requests[i].body == Some(SendMessageBody(SendMessageDto(text, Text, None))))
  {
  }

  /** A hub that accepts the send on a Connected client: one invocation,
      no status line, no REST request, and the text is cleared. */
  lemma SentViaHub(id: Guid, text: string, hub: HubServer, authorization: Option<string>, server: HttpServer)
    requires id != Guids.Empty && !IsNullOrWhiteSpace(text)
    requires SignalR.Reply(hub, SendCall(id, text)).Ok?
    ensures SendPlan(id, text, Some(Connected), hub, authorization, server) == SendOutcome([], [SendCall(id, text)], [], true)
  {
  }

  /** With no chat client the send never reaches the hub or REST. */
  lemma NoClientNeverSends(id: Guid, text: string, hub: HubServer, authorization: Option<string>, server: HttpServer)
    requires id != Guids.Empty && !IsNullOrWhiteSpace(text)
    ensures var plan := SendPlan(id, text, None, hub, authorization, server);
            plan.hubCalls == [] && plan.requests == [] && !plan.delivered
            && plan.lines[|plan.lines| - 1] == "Error sending message: " + NullReferenceMessage
  {
  }

  /** The message is delivered exactly when the hub or one of the two
      REST endpoints accepted it. */
  lemma DeliveredIffAccepted(id: Guid, text: string, state: ConnectionState, hub: HubServer,
                              authorization: Option<string>, server: HttpServer)
    requires id != Guids.Empty && !IsNullOrWhiteSpace(text)
    ensures var live := state == Connected || SignalR.Reply(hub, Start).Ok?;
            var primary := Serve(server, RestRequest(MessagesPath(id), authorization, text));
            var alternate := Serve(server, RestRequest(AlternateMessagesPath(id), authorization, text));
            SendPlan(id, text, Some(state), hub, authorization, server).delivered <==>
              (live && SignalR.Reply(hub, SendCall(id, text)).Ok?)
              || IsSuccess(primary)
              || (primary.Response? && IsSuccess(alternate))
  {
  }

  /** The notification hub's two handlers. */
  datatype NotificationEvent = NotificationConnected(message: string) | NotificationReceived(notification: Notification)

  function NotificationLine(e: NotificationEvent): string
  {
    match e
    case NotificationConnected(m) => "Notification Hub: " + m
    case NotificationReceived(n) => "Notification: " + n.text
  }

  /** A chat client as InitializeSignalRConnections leaves it after a
      successful start: connected once to the chat hub's URL, every handler
      subscribed, AddMessageToChat as its callback, nothing delivered yet. */
  predicate FreshChatClient(c: ChatHubClient?, token: string)
    reads c, if c != null then {c.connection} else {}
  {
    && c != null
    && c.connection.options == HubOptionsFor(BaseUrl, token)
    && c.connection.state == Connected
    && c.connection.calls == [Start]
    && c.connection.handlers == ChatHubEvents
    && c.messageCallback == Some(AddMessageToChatCallback)
    && c.delivered == []
  }

  /** The notification connection after a successful start: the same URL
      and options as the chat hub's, and the two notification handlers. */
  predicate FreshNotificationConnection(c: HubConnection?, token: string)
    reads c
  {
    && c != null
    && c.options == HubOptionsFor(BaseUrl, token)
    && c.state == Connected
    && c.calls == [Start]
    && c.handlers == NotificationEvents
  }

  /** The Authorization header of the helper's client: Bearer only for a non-empty token. */
  function HelperAuthorization(jwtToken: string): Option<string>
  {
    if jwtToken == "" then None else Some("Bearer " + jwtToken)
  }

  class MainForm {
    /** lblStatus, as the lines UpdateStatus has shown. */
    const sink: StatusSink
    const httpClient: HttpClient
    const authHelper: AuthenticationHelper
    const jwtToken: string
    const userId: Option<string>
    var chatHubClient: ChatHubClient?
    var notificationConnection: HubConnection?
    var conversations: seq<Conversation>
    /** lstConversations.Items. */
    var listItems: seq<string>
    var currentConversationId: Guid
    /** txtChat.Text. */
    var chatText: string
    /** txtMessage.Text. */
    var messageText: string

    /** The list box shows the conversations' names in order, the form's
        HTTP client is not the helper's, and the chat client reports to the
        status bar. */
    predicate Valid()
      reads this
    {
      && |listItems| == |conversations|
      && (forall i :: 0 <= i < |conversations| ==> listItems[i] == conversations[i].conversationName)
      && authHelper.httpClient != httpClient
      && authHelper.baseUrl == BaseUrl && authHelper.jwtToken == jwtToken
      && (chatHubClient != null ==> chatHubClient.sink == sink && chatHubClient.userId == userId)
    }

    /** `new MainForm()` followed by an accepted login: the form's HTTP
        client on the base URL with the token as Bearer, the token's claims
        dumped to the status bar, the helper built and the user id read. */
    constructor(jwtToken: string, reader: TokenReader)
      ensures Valid()
      ensures fresh(sink) && fresh(httpClient) && fresh(authHelper) && fresh(authHelper.httpClient)
      ensures this.jwtToken == jwtToken
      ensures httpClient.baseAddress == BaseUrl && httpClient.sent == []
      ensures httpClient.authorization == Some("Bearer " + jwtToken)
      ensures authHelper.baseUrl == BaseUrl && authHelper.jwtToken == jwtToken && authHelper.httpClient.sent == []
      ensures authHelper.httpClient.authorization == HelperAuthorization(jwtToken)
      ensures userId == UserIdOf(ReadToken(reader, jwtToken))
      ensures sink.lines == DumpLines(ReadToken(reader, jwtToken)) + ["Extracted user ID from token: " + OrEmpty(userId)]
      ensures chatHubClient == null && notificationConnection == null
      ensures conversations == [] && listItems == [] && currentConversationId == Guids.Empty
      ensures chatText == "" && messageText == ""
    {
      var status := new StatusSink();
      var client := new HttpClient(BaseUrl);
      client.SetBearer(jwtToken);
      var helper := new AuthenticationHelper(BaseUrl, jwtToken);
      sink, httpClient, authHelper := status, client, helper;
      this.jwtToken := jwtToken;
      userId := helper.GetUserIdFromToken(reader);
      chatHubClient, notificationConnection := null, null;
      conversations, listItems := [], [];
      currentConversationId := Guids.Empty;
      chatText, messageText := "", "";
      new;
      DumpTokenClaims(reader);
      sink.Post("Extracted user ID from token: " + OrEmpty(userId));
    }

    /** DumpTokenClaims: the claims of the token, one status line each. */
    method DumpTokenClaims(reader: TokenReader)
      modifies sink
      ensures sink.lines == old(sink.lines) + DumpLines(ReadToken(reader, jwtToken))
    {
      var read := ReadToken(reader, jwtToken);
      if read.Threw? {
        sink.Post("Error parsing token: " + read.error.message);
        return;
      }
      if read.NotJwt? {
        return;
      }
      var claims := read.token.claims;
      sink.Post("Token contains " + NatToString(|claims|) + " claims:");
      ghost var start := sink.lines;
      ghost var dump := DumpClaimLines(claims);
      var i := 0;
      while i < |claims|
        invariant 0 <= i <= |claims|
        invariant sink.lines == start + dump[..i]
      {
        assert dump[..i + 1] == dump[..i] + [DumpLine(claims[i])];
        AppendAssoc(start, dump[..i], [DumpLine(claims[i])]);
        sink.Post(DumpLine(claims[i]));
        i := i + 1;
      }
      assert dump[..i] == dump;
      AppendAssoc(old(sink.lines), ["Token contains " + NatToString(|claims|) + " claims:"], dump);
    }

    /** InitializeSignalRConnections: validates the token and stops when it
        is rejected; otherwise connects the chat hub (wrapping it in a
        ChatHubClient whose message callback is AddMessageToChat), then the
        notification hub whatever the chat hub gave, then loads the
        conversations when there is a chat client. */
    method InitializeSignalRConnections(server: HttpServer, chatHub: HubServer, notificationHub: HubServer)
      requires Valid()
      modifies this, sink, httpClient, authHelper.httpClient
      ensures Valid()
      ensures authHelper.httpClient.sent == old(authHelper.httpClient.sent) + [ProbeRequest(authHelper.httpClient.authorization)]
      ensures authHelper.httpClient.authorization == old(authHelper.httpClient.authorization)
      ensures httpClient.authorization == old(httpClient.authorization)
      ensures var tokenValid := IsSuccess(Serve(server, ProbeRequest(authHelper.httpClient.authorization)));
              var chatStart, notificationStart := SignalR.Reply(chatHub, Start), SignalR.Reply(notificationHub, Start);
              var loading := tokenValid && (chatStart.Ok? || old(chatHubClient) != null);
              var reply := Serve(server, ConversationsRequest(httpClient.authorization));
              && sink.lines == old(sink.lines) + InitializeLines(tokenValid, chatStart, notificationStart, loading, reply)
              && httpClient.sent == old(httpClient.sent) + (if loading then [ConversationsRequest(httpClient.authorization)] else [])
              && conversations == (if loading then ConversationsAfter(reply, old(conversations)) else old(conversations))
      ensures var tokenValid, chatStart := IsSuccess(Serve(server, ProbeRequest(authHelper.httpClient.authorization))), SignalR.Reply(chatHub, Start);
              && (tokenValid && chatStart.Ok? ==> FreshChatClient(chatHubClient, jwtToken) && fresh(chatHubClient) && fresh(chatHubClient.connection))
              && (!(tokenValid && chatStart.Ok?) ==> chatHubClient == old(chatHubClient))
      ensures var tokenValid, notificationStart := IsSuccess(Serve(server, ProbeRequest(authHelper.httpClient.authorization))), SignalR.Reply(notificationHub, Start);
              && (!tokenValid ==> notificationConnection == old(notificationConnection))
              && (tokenValid ==> (notificationConnection == null <==> notificationStart.Fail?))
              && (tokenValid && notificationStart.Ok? ==> FreshNotificationConnection(notificationConnection, jwtToken) && fresh(notificationConnection))
      ensures currentConversationId == old(currentConversationId)
      ensures chatText == old(chatText) && messageText == old(messageText)
    {
      sink.Post(InitializingLine);
      var tokenValid := authHelper.ValidateToken(server);
      if !tokenValid {
        sink.Post(TokenRejectedLine);
        return;
      }
      ghost var lines0 := sink.lines;
      ConnectAndLoad(server, chatHub, notificationHub);
      AppendAssoc(old(sink.lines), [InitializingLine], sink.lines[|lines0|..]);
    }

    /** InitializeSignalRConnections once the token is accepted: both hubs,
        then the conversations when there is a chat client. */
    method ConnectAndLoad(server: HttpServer, chatHub: HubServer, notificationHub: HubServer)
      requires Valid()
      modifies this, sink, httpClient
      ensures Valid()
      ensures httpClient.authorization == old(httpClient.authorization)
      ensures var chatStart, notificationStart := SignalR.Reply(chatHub, Start), SignalR.Reply(notificationHub, Start);
              var loading := chatStart.Ok? || old(chatHubClient) != null;
              var reply := Serve(server, ConversationsRequest(httpClient.authorization));
              && sink.lines == old(sink.lines) + ConnectAndLoadLines(chatStart, notificationStart, loading, reply)
              && httpClient.sent == old(httpClient.sent) + (if loading then [ConversationsRequest(httpClient.authorization)] else [])
              && conversations == (if loading then ConversationsAfter(reply, old(conversations)) else old(conversations))
      ensures SignalR.Reply(chatHub, Start).Ok? ==> FreshChatClient(chatHubClient, jwtToken) && fresh(chatHubClient) && fresh(chatHubClient.connection)
      ensures SignalR.Reply(chatHub, Start).Fail? ==> chatHubClient == old(chatHubClient)
      ensures notificationConnection == null <==> SignalR.Reply(notificationHub, Start).Fail?
      ensures SignalR.Reply(notificationHub, Start).Ok? ==> FreshNotificationConnection(notificationConnection, jwtToken) && fresh(notificationConnection)
      ensures currentConversationId == old(currentConversationId)
      ensures chatText == old(chatText) && messageText == old(messageText)
    {
      ConnectChatHub(chatHub);
      ConnectNotificationHub(notificationHub);
      ghost var hubs := ChatHubLines(SignalR.Reply(chatHub, Start)) + NotificationHubLines(SignalR.Reply(notificationHub, Start));
      AppendAssoc(old(sink.lines), ChatHubLines(SignalR.Reply(chatHub, Start)), NotificationHubLines(SignalR.Reply(notificationHub, Start)));
      assert sink.lines == old(sink.lines) + hubs;
      if chatHubClient != null {
        ghost var reply := Serve(server, ConversationsRequest(httpClient.authorization));
        LoadConversations(server);
        AppendAssoc(old(sink.lines), hubs, ConversationsStatus(reply));
      } else {
        assert hubs + [] == hubs;
      }
    }

    /** The chat hub part: TryConnectToHub, and on success a new
        ChatHubClient with AddMessageToChat as its message callback. */
    method ConnectChatHub(chatHub: HubServer)
      requires Valid()
      modifies this, sink
      ensures Valid()
      ensures var chatStart := SignalR.Reply(chatHub, Start);
              && sink.lines == old(sink.lines) + ChatHubLines(chatStart)
              && (chatStart.Ok? ==> FreshChatClient(chatHubClient, jwtToken) && fresh(chatHubClient) && fresh(chatHubClient.connection))
              && (chatStart.Fail? ==> chatHubClient == old(chatHubClient))
      ensures notificationConnection == old(notificationConnection)
      ensures conversations == old(conversations) && listItems == old(listItems) && chatText == old(chatText)
      ensures currentConversationId == old(currentConversationId) && messageText == old(messageText)
    {
      var chatConnection := authHelper.TryConnectToHub(ChatHubName, sink, chatHub);
      if chatConnection != null {
        var client := new ChatHubClient(chatConnection, userId, sink);
        client.SetMessageCallback(Some(AddMessageToChatCallback));
        chatHubClient := client;
        sink.Post(ChatHubReadyLine(true));
      } else {
        sink.Post(ChatHubReadyLine(false));
      }
    }

    /** The notification hub part: TryConnectToHub, and on success the
        "Connected" and "ReceiveNotification" handlers. */
    method ConnectNotificationHub(notificationHub: HubServer)
      requires Valid()
      modifies this, sink
      ensures Valid()
      ensures var notificationStart := SignalR.Reply(notificationHub, Start);
              && sink.lines == old(sink.lines) + NotificationHubLines(notificationStart)
              && (notificationConnection == null <==> notificationStart.Fail?)
              && (notificationStart.Ok? ==> FreshNotificationConnection(notificationConnection, jwtToken) && fresh(notificationConnection))
      ensures chatHubClient == old(chatHubClient)
      ensures conversations == old(conversations) && listItems == old(listItems) && chatText == old(chatText)
      ensures currentConversationId == old(currentConversationId) && messageText == old(messageText)
    {
      notificationConnection := authHelper.TryConnectToHub(NotificationHubName, sink, notificationHub);
      if notificationConnection != null {
        notificationConnection.On("Connected");
        notificationConnection.On("ReceiveNotification");
        sink.Post(NotificationHubReadyLine(true));
      } else {
        sink.Post(NotificationHubReadyLine(false));
      }
    }

    /** LoadConversations: a success replaces the conversations and the
        list items with their names, in order. */
    method LoadConversations(server: HttpServer)
      requires Valid()
      modifies this, sink, httpClient
      ensures Valid()
      ensures httpClient.authorization == old(httpClient.authorization)
      ensures var reply := Serve(server, ConversationsRequest(httpClient.authorization));
              && httpClient.sent == old(httpClient.sent) + [ConversationsRequest(httpClient.authorization)]
              && conversations == ConversationsAfter(reply, old(conversations))
              && sink.lines == old(sink.lines) + ConversationsStatus(reply)
      ensures chatHubClient == old(chatHubClient) && notificationConnection == old(notificationConnection)
      ensures currentConversationId == old(currentConversationId)
      ensures chatText == old(chatText) && messageText == old(messageText)
    {
      var response := httpClient.GetAsync(ConversationsPath, server);
      var loaded := LoadedConversations(response);
      if loaded.Some? {
        var items := [];
        var i := 0;
        while i < |loaded.value|
          invariant 0 <= i <= |loaded.value|
          invariant |items| == i && forall j :: 0 <= j < i ==> items[j] == loaded.value[j].conversationName
        {
          items := items + [loaded.value[i].conversationName];
          i := i + 1;
        }
        conversations, listItems := loaded.value, items;
        sink.Post("Conversations loaded");
      } else if response.Response? && !IsSuccess(response) {
        sink.Post("Error loading conversations: " + response.statusName);
      }
    }

    /** lstConversations_SelectedIndexChanged: the selected row names the
        conversation at the same index; without a chat client the form
        reconnects; otherwise it joins and, once joined, loads the messages. */
    method SelectedIndexChanged(index: int, server: HttpServer, chatHub: HubServer, notificationHub: HubServer,
                                show: int -> string)
      requires Valid() && -1 <= index < |listItems|
      modifies this, sink, httpClient, authHelper.httpClient, if chatHubClient != null then {chatHubClient.connection} else {}
      ensures Valid()
      ensures index == -1 ==>
                && sink.lines == old(sink.lines) && httpClient.sent == old(httpClient.sent)
                && currentConversationId == old(currentConversationId) && chatText == old(chatText)
      ensures index >= 0 ==> currentConversationId == old(conversations[index].id)
      ensures index >= 0 && old(chatHubClient) == null ==>
                var tokenValid := IsSuccess(Serve(server, ProbeRequest(authHelper.httpClient.authorization)));
                var chatStart, notificationStart := SignalR.Reply(chatHub, Start), SignalR.Reply(notificationHub, Start);
                var loading := tokenValid && chatStart.Ok?;
                var reply := Serve(server, ConversationsRequest(httpClient.authorization));
                && sink.lines == old(sink.lines) + [ClientMissingLine]
                                 + InitializeLines(tokenValid, chatStart, notificationStart, loading, reply)
                && httpClient.sent == old(httpClient.sent) + (if loading then [ConversationsRequest(httpClient.authorization)] else [])
                && (chatHubClient != null <==> loading)
      ensures index >= 0 && old(chatHubClient) != null ==>
                var id := old(conversations[index].id);
                var plan := JoinPlan(id, userId, old(chatHubClient.connection.state) == Connected, chatHub);
                && chatHubClient == old(chatHubClient)
                && chatHubClient.connection.calls == old(chatHubClient.connection.calls) + plan.calls
                && sink.lines == old(sink.lines) + plan.lines
                                 + (if plan.joined then LoadStatus(id, httpClient.authorization, server) else [])
                && httpClient.sent == old(httpClient.sent)
                                      + (if plan.joined then MessagesRequests(id, httpClient.authorization, server) else [])
                && chatText == (if plan.joined then ChatAfterLoad(id, httpClient.authorization, server, conversations, show, old(chatText))
                                else old(chatText))
                && conversations == old(conversations)
      ensures messageText == old(messageText)
    {
      if index < 0 {
        return;
      }
      currentConversationId := conversations[index].id;
      if chatHubClient == null {
        sink.Post(ClientMissingLine);
        InitializeSignalRConnections(server, chatHub, notificationHub);
        return;
      }
      JoinAndLoad(chatHub, server, show);
    }

    /** Joins the current conversation through the chat client and, once
        joined, loads its messages. */
    method JoinAndLoad(chatHub: HubServer, server: HttpServer, show: int -> string)
      requires Valid() && chatHubClient != null
      modifies this, sink, httpClient, chatHubClient.connection
      ensures Valid()
      ensures var id := currentConversationId;
              var plan := JoinPlan(id, userId, old(chatHubClient.connection.state) == Connected, chatHub);
              && chatHubClient == old(chatHubClient)
              && chatHubClient.connection.calls == old(chatHubClient.connection.calls) + plan.calls
              && sink.lines == old(sink.lines) + plan.lines
                               + (if plan.joined then LoadStatus(id, httpClient.authorization, server) else [])
              && httpClient.sent == old(httpClient.sent)
                                    + (if plan.joined then MessagesRequests(id, httpClient.authorization, server) else [])
              && chatText == (if plan.joined then ChatAfterLoad(id, httpClient.authorization, server, conversations, show, old(chatText))
                              else old(chatText))
      ensures conversations == old(conversations) && listItems == old(listItems)
      ensures notificationConnection == old(notificationConnection)
      ensures currentConversationId == old(currentConversationId) && messageText == old(messageText)
    {
      var joined := chatHubClient.JoinConversation(currentConversationId, chatHub);
      if joined {
        LoadMessages(currentConversationId, server, show);
      }
    }

    /** LoadMessages: the primary GET, the alternate one only after a
        non-success status, and the chat text replaced by the fetched
        messages, in order, when either succeeds (cleared when the list it
        reads is null). */
    method LoadMessages(conversationId: Guid, server: HttpServer, show: int -> string)
      requires Valid()
      modifies this, sink, httpClient
      ensures Valid()
      ensures httpClient.authorization == old(httpClient.authorization)
      ensures httpClient.sent == old(httpClient.sent) + MessagesRequests(conversationId, httpClient.authorization, server)
      ensures sink.lines == old(sink.lines) + LoadStatus(conversationId, httpClient.authorization, server)
      ensures chatText == ChatAfterLoad(conversationId, httpClient.authorization, server, conversations, show, old(chatText))
      ensures conversations == old(conversations) && listItems == old(listItems)
      ensures chatHubClient == old(chatHubClient) && notificationConnection == old(notificationConnection)
      ensures currentConversationId == old(currentConversationId) && messageText == old(messageText)
    {
      var response := httpClient.GetAsync(MessagesPath(conversationId), server);
      var loaded := LoadedMessages(response);
      if loaded.Some? {
        ShowMessages(loaded.value, show);
        sink.Post("Loaded " + NatToString(|loaded.value|) + " messages");
        return;
      }
      if NullMessages(response) {
        chatText := "";
        return;
      }
      if !TriesAlternate(response) {
        return;
      }
      var alternate := httpClient.GetAsync(AlternateMessagesPath(conversationId), server);
      loaded := LoadedMessages(alternate);
      if loaded.Some? {
        ShowMessages(loaded.value, show);
        sink.Post("Loaded " + NatToString(|loaded.value|) + " messages from alternative endpoint");
      } else if NullMessages(alternate) {
        chatText := "";
      } else if TriesAlternate(alternate) {
        sink.Post("Error loading messages: " + alternate.statusName);
      }
    }

    /** `txtChat.Clear()` and AddMessageToChat for each message in order. */
    method ShowMessages(messages: seq<Message>, show: int -> string)
      requires Valid()
      modifies this
      ensures Valid()
      ensures chatText == Concat(ChatLines(messages, conversations, show))
      ensures conversations == old(conversations) && listItems == old(listItems)
      ensures chatHubClient == old(chatHubClient) && notificationConnection == old(notificationConnection)
      ensures currentConversationId == old(currentConversationId) && messageText == old(messageText)
    {
      chatText := "";
      var i := 0;
      while i < |messages|
        invariant 0 <= i <= |messages|
        invariant Valid()
        invariant chatText == Concat(ChatLines(messages[..i], conversations, show))
        invariant conversations == old(conversations) && listItems == old(listItems)
        invariant chatHubClient == old(chatHubClient) && notificationConnection == old(notificationConnection)
        invariant currentConversationId == old(currentConversationId) && messageText == old(messageText)
      {
        ChatLinesStep(messages, i, conversations, show);
        ConcatAppend(ChatLines(messages[..i], conversations, show), [FormatMessage(messages[i], conversations, show)]);
        AddMessageToChat(messages[i], show);
        i := i + 1;
      }
      assert messages[..i] == messages;
    }

    /** AddMessageToChat: appends the formatted line to the chat text. */
    method AddMessageToChat(message: Message, show: int -> string)
      modifies this
      ensures chatText == old(chatText) + FormatMessage(message, conversations, show)
      ensures conversations == old(conversations) && listItems == old(listItems)
      ensures chatHubClient == old(chatHubClient) && notificationConnection == old(notificationConnection)
      ensures currentConversationId == old(currentConversationId) && messageText == old(messageText)
    {
      chatText := chatText + FormatMessage(message, conversations, show);
    }

    /** An event of the chat hub, handled by the chat client; a message
        handed to the callback InitializeSignalRConnections registered ends
        up in the chat text. */
    method OnChatHubEvent(e: HubEvent, show: int -> string)
      requires Valid() && chatHubClient != null
      modifies this, chatHubClient, chatHubClient.connection, sink
      ensures Valid()
      ensures sink.lines == old(sink.lines) + EventStatus(e)
      ensures chatText == old(chatText)
                + (if e.ReceiveMessage? && old(chatHubClient.messageCallback) == Some(AddMessageToChatCallback)
                   then FormatMessage(e.message, conversations, show) else "")
      ensures conversations == old(conversations) && listItems == old(listItems)
      ensures chatHubClient == old(chatHubClient) && notificationConnection == old(notificationConnection)
      ensures currentConversationId == old(currentConversationId) && messageText == old(messageText)
    {
      var invoked := chatHubClient.Handle(e);
      if invoked == Some(AddMessageToChatCallback) {
        AddMessageToChat(e.message, show);
      }
    }

    /** The notification hub's handlers: one status line per event. */
    method OnNotificationEvent(e: NotificationEvent)
      requires notificationConnection != null
      modifies sink
      ensures sink.lines == old(sink.lines) + [NotificationLine(e)]
    {
      sink.Post(NotificationLine(e));
    }

    /** btnSend_Click, as SendPlan states: the text is cleared exactly when
        the message was delivered. */
    method BtnSendClick(hub: HubServer, server: HttpServer)
      requires Valid()
      modifies this, sink, httpClient, if chatHubClient != null then {chatHubClient.connection} else {}
      ensures Valid()
      ensures var plan := SendPlan(currentConversationId, old(messageText),
                                   if old(chatHubClient) == null then None else Some(old(chatHubClient.connection.state)),
                                   hub, httpClient.authorization, server);
              && sink.lines == old(sink.lines) + plan.lines
              && httpClient.sent == old(httpClient.sent) + plan.requests
              && (old(chatHubClient) != null ==>
                    chatHubClient == old(chatHubClient)
                    && chatHubClient.connection.calls == old(chatHubClient.connection.calls) + plan.hubCalls)
              && messageText == if plan.delivered then "" else old(messageText)
      ensures httpClient.authorization == old(httpClient.authorization)
      ensures conversations == old(conversations) && listItems == old(listItems) && chatText == old(chatText)
      ensures chatHubClient == old(chatHubClient) && notificationConnection == old(notificationConnection)
      ensures currentConversationId == old(currentConversationId)
    {
      if currentConversationId == Guids.Empty || IsNullOrWhiteSpace(messageText) {
        return;
      }
      if chatHubClient == null {
        sink.Post(HubNotConnectedLine);
        sink.Post("Error sending message: " + NullReferenceMessage);
        return;
      }
      SendWithClient(hub, server);
    }

    /** btnSend_Click once there is a chat client, as ClientSendPlan states. */
    method SendWithClient(hub: HubServer, server: HttpServer)
      requires Valid() && chatHubClient != null
      modifies this, sink, httpClient, chatHubClient.connection
      ensures Valid()
      ensures var plan := ClientSendPlan(currentConversationId, old(messageText), old(chatHubClient.connection.state),
                                         hub, httpClient.authorization, server);
              && sink.lines == old(sink.lines) + plan.lines
              && httpClient.sent == old(httpClient.sent) + plan.requests
              && chatHubClient == old(chatHubClient)
              && chatHubClient.connection.calls == old(chatHubClient.connection.calls) + plan.hubCalls
              && messageText == if plan.delivered then "" else old(messageText)
      ensures httpClient.authorization == old(httpClient.authorization)
      ensures conversations == old(conversations) && listItems == old(listItems) && chatText == old(chatText)
      ensures chatHubClient == old(chatHubClient) && notificationConnection == old(notificationConnection)
      ensures currentConversationId == old(currentConversationId)
    {
      if chatHubClient.GetConnectionState() != Connected {
        sink.Post(HubNotConnectedLine);
        var _ := chatHubClient.ReconnectIfNeeded(hub);
        ghost var lines1, calls1 := sink.lines, chatHubClient.connection.calls;
        SendAndFallBack(hub, server);
        AppendAssoc(old(sink.lines), lines1[|old(sink.lines)|..], sink.lines[|lines1|..]);
        AppendAssoc(old(chatHubClient.connection.calls), [Start], chatHubClient.connection.calls[|calls1|..]);
      } else {
        SendAndFallBack(hub, server);
      }
    }

    /** The hub send and, when it fails, the REST fallback, as HubSendPlan
        states; the text is cleared once the message is delivered. */
    method SendAndFallBack(hub: HubServer, server: HttpServer)
      requires Valid() && chatHubClient != null
      modifies this, sink, httpClient, chatHubClient.connection
      ensures Valid()
      ensures var plan := HubSendPlan(currentConversationId, old(messageText), old(chatHubClient.connection.state) == Connected,
                                      hub, httpClient.authorization, server);
              && sink.lines == old(sink.lines) + plan.lines
              && httpClient.sent == old(httpClient.sent) + plan.requests
              && chatHubClient == old(chatHubClient)
              && chatHubClient.connection.calls == old(chatHubClient.connection.calls) + plan.hubCalls
              && chatHubClient.connection.state == old(chatHubClient.connection.state)
              && messageText == if plan.delivered then "" else old(messageText)
      ensures httpClient.authorization == old(httpClient.authorization)
      ensures conversations == old(conversations) && listItems == old(listItems) && chatText == old(chatText)
      ensures chatHubClient == old(chatHubClient) && notificationConnection == old(notificationConnection)
      ensures currentConversationId == old(currentConversationId)
    {
      var sentViaHub := chatHubClient.SendMessage(currentConversationId, messageText, hub);
      if !sentViaHub {
        var delivered := SendViaRest(messageText, server);
        if !delivered {
          return;
        }
      }
      messageText := "";
    }

    /** The REST half of btnSend_Click, as RestPlan states; an exception
        ends it like a non-success status of the alternate endpoint. */
    method SendViaRest(text: string, server: HttpServer) returns (delivered: bool)
      modifies httpClient, sink
      ensures var plan := RestPlan(currentConversationId, text, httpClient.authorization, server);
              && delivered == plan.delivered
              && sink.lines == old(sink.lines) + plan.lines
              && httpClient.sent == old(httpClient.sent) + plan.requests
      ensures httpClient.authorization == old(httpClient.authorization)
    {
      var body := Some(SendBody(text));
      var response := httpClient.PostAsync(MessagesPath(currentConversationId), body, server);
      if response.NetworkError? {
        sink.Post("Error sending message: " + response.error.message);
        return false;
      }
      if IsSuccess(response) {
        sink.Post("Message sent via REST API");
        return true;
      }
      response := httpClient.PostAsync(AlternateMessagesPath(currentConversationId), body, server);
      if response.NetworkError? {
        sink.Post("Error sending message: " + response.error.message);
        return false;
      }
      if !IsSuccess(response) {
        sink.Post("Error sending message: " + response.statusName);
        return false;
      }
      return true;
    }

    /** UpdateStatus. */
    method UpdateStatus(message: string)
      modifies sink
      ensures sink.lines == old(sink.lines) + [message]
    {
      sink.Post(message);
    }
  }

  /** MainForm_Load's login dialog, accepted with `jwtToken`: the form is set
      up from the token (MainForm's constructor), then the SignalR
      connections are initialised. Both HTTP clients start with an empty
      log, the form has no chat client and no conversations yet. */
  method OpenAfterLogin(jwtToken: string, reader: TokenReader, server: HttpServer,
                        chatHub: HubServer, notificationHub: HubServer) returns (form: MainForm)
    ensures fresh(form) && form.Valid()
    ensures form.jwtToken == jwtToken && form.userId == UserIdOf(ReadToken(reader, jwtToken))
    ensures form.httpClient.authorization == Some("Bearer " + jwtToken)
    ensures form.authHelper.httpClient.authorization == HelperAuthorization(jwtToken)
    ensures form.authHelper.httpClient.sent == [ProbeRequest(HelperAuthorization(jwtToken))]
    ensures var tokenValid := IsSuccess(Serve(server, ProbeRequest(HelperAuthorization(jwtToken))));
            var chatStart, notificationStart := SignalR.Reply(chatHub, Start), SignalR.Reply(notificationHub, Start);
            var loading := tokenValid && chatStart.Ok?;
            var reply := Serve(server, ConversationsRequest(Some("Bearer " + jwtToken)));
            && form.sink.lines == DumpLines(ReadToken(reader, jwtToken))
                                  + ["Extracted user ID from token: " + OrEmpty(form.userId)]
                                  + InitializeLines(tokenValid, chatStart, notificationStart, loading, reply)
            && form.httpClient.sent == (if loading then [ConversationsRequest(Some("Bearer " + jwtToken))] else [])
            && form.conversations == (if loading then ConversationsAfter(reply, []) else [])
            && (loading ==> FreshChatClient(form.chatHubClient, jwtToken))
            && (!loading ==> form.chatHubClient == null)
            && (!tokenValid ==> form.notificationConnection == null)
            && (tokenValid ==> (form.notificationConnection == null <==> notificationStart.Fail?))
            && (tokenValid && notificationStart.Ok? ==> FreshNotificationConnection(form.notificationConnection, jwtToken))
    ensures form.currentConversationId == Guids.Empty && form.chatText == "" && form.messageText == ""
  {
    form := new MainForm(jwtToken, reader);
    form.InitializeSignalRConnections(server, chatHub, notificationHub);
  }
}
