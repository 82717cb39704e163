/** The records that MainForm.cs declares to match the server's JSON. */
module Models {
  import opened Common
  import opened Guids

  datatype ConversationUser = ConversationUser(id: Guid, userId: Guid, name: Option<string>, joinedDate: int)

  datatype Conversation = Conversation(
    id: Guid,
    conversationName: string,
    chatStarted: int,
    users: seq<ConversationUser>,
    isGroup: bool)

  /** The message type tag; Value is the number it is sent as. */
  datatype MessageType = AdminAction | Sticker | Text | Image | Comment | Post | Audio | Video
  {
    function Value(): (v: int)
      ensures 0 <= v <= 7
    {
      match this
      case AdminAction => 0
      case Sticker => 1
      case Text => 2
      case Image => 3
      case Comment => 4
      case Post => 5
      case Audio => 6
      case Video => 7
    }
  }

  /** The enum member a number names, if any. */
  function MessageTypeOf(v: int): (r: Option<MessageType>)
    ensures r.Some? <==> 0 <= v <= 7
  {
    match v
    case 0 => Some(AdminAction)
    case 1 => Some(Sticker)
    case 2 => Some(Text)
    case 3 => Some(Image)
    case 4 => Some(Comment)
    case 5 => Some(Post)
    case 6 => Some(Audio)
    case 7 => Some(Video)
    case _ => None
  }

  /** Each member is sent as a number that names it and no other. */
  lemma MessageTypeValueRoundTrip(t: MessageType)
    ensures MessageTypeOf(t.Value()) == Some(t)
  {
  }

  datatype Message = Message(
    id: Guid,
    senderId: Guid,
    recipientId: Guid,
    date: int,
    replyTo: Option<Guid>,
    messageType: MessageType,
    content: string)

  /** The body of the REST send: `new SendMessageDto { Content = text, Type = MessageType.Text }`. */
  datatype SendMessageDto = SendMessageDto(content: string, messageType: MessageType, replyToMessageId: Option<Guid>)

  /** The DTO btnSend_Click posts, with the defaults the class declares. */
  function TextMessageDto(content: string): (d: SendMessageDto)
    ensures d.content == content && d.messageType.Value() == 2 && d.replyToMessageId.None?
  {
    SendMessageDto(content, Text, None)
  }

  /** A page of messages; `messages` is None when the JSON carries no list
      or a null one (the property has no default). */
  datatype MessageResponse = MessageResponse(
    messages: Option<seq<Message>>,
    totalPages: int,
    totalCount: int,
    currentPage: int,
    pageSize: int)

  datatype Notification = Notification(
    id: Guid,
    userId: Guid,
    text: string,
    caption: string,
    url: string,
    teleUrl: string,
    appUrl: string,
    notificationType: int,
    date: Option<int>)
}
