/** The constructors of helpers.go, which fill a config record from their
    arguments and leave every optional field at its zero value, and what
    the Bot methods then send for such a record. */
module Helpers {

  import opened Wrappers
  import opened Strconv
  import opened Values
  import opened Types
  import opened Methods
  import opened Updates

  function NewMessage(chatId: int, text: string): MessageConfig {
    MessageConfig(chatId, text, false, 0)
  }

  function NewForward(chatId: int, fromChatId: int, messageId: int): ForwardConfig {
    ForwardConfig(chatId, fromChatId, messageId)
  }

  /** Latitude and longitude are passed through untouched. */
  function NewLocation(chatId: int, latitude: real, longitude: real): LocationConfig {
    LocationConfig(chatId, latitude, longitude, 0, None)
  }

  function NewChatAction(chatId: int, action: string): ChatActionConfig {
    ChatActionConfig(chatId, action)
  }

  function NewUserProfilePhotos(userId: int): UserProfilePhotosConfig {
    UserProfilePhotosConfig(userId, 0, 0)
  }

  function NewUpdate(offset: int): UpdateConfig {
    UpdateConfig(offset, 0, 0)
  }

  /** A message made by NewMessage is sent with the three mandatory fields
      only, and the server reads back the chat and text it was made from,
      with link previews on and no reply. */
  lemma NewMessageRequest(chatId: int, text: string)
    ensures var v := SendMessageRequest(NewMessage(chatId, text)).values;
      && Keys(v) == ["chat_id", "text", "disable_web_page_preview"]
      && Get(v, "disable_web_page_preview") == Some("false")
      && DecodeMessageConfig(v) == Some(MessageConfig(chatId, text, false, 0))
  {
    SendMessageRoundTrip(NewMessage(chatId, text));
    GetFirst(SendMessageRequest(NewMessage(chatId, text)).values, "disable_web_page_preview", 2);
  }

  /** NewForward's arguments land in chat_id, from_chat_id and message_id in
      that order, and two forwards send the same form only when they were
      made from the same arguments. */
  lemma NewForwardRequest(chatId: int, fromChatId: int, messageId: int, chatId': int, fromChatId': int, messageId': int)
    ensures DecodeForwardConfig(ForwardMessageRequest(NewForward(chatId, fromChatId, messageId)).values)
            == Some(ForwardConfig(chatId, fromChatId, messageId))
    ensures ForwardMessageRequest(NewForward(chatId, fromChatId, messageId))
              == ForwardMessageRequest(NewForward(chatId', fromChatId', messageId'))
            <==> chatId == chatId' && fromChatId == fromChatId' && messageId == messageId'
  {
    ForwardMessageRoundTrip(NewForward(chatId, fromChatId, messageId));
    ForwardMessageRoundTrip(NewForward(chatId', fromChatId', messageId'));
  }

  /** A location made by NewLocation never fails to build and carries no
      reply fields: only the chat and the two coordinates. */
  lemma NewLocationRequest(chatId: int, latitude: real, longitude: real, formatFloat: real -> string)
    ensures SendLocationRequest(NewLocation(chatId, latitude, longitude), formatFloat).Success?
    ensures var v := SendLocationRequest(NewLocation(chatId, latitude, longitude), formatFloat).value.values;
      && Keys(v) == ["chat_id", "latitude", "longitude"]
      && IntField(v, "chat_id") == Some(chatId)
      && Get(v, "latitude") == Some(formatFloat(latitude))
      && Get(v, "longitude") == Some(formatFloat(longitude))
  {
    var v := SendLocationRequest(NewLocation(chatId, latitude, longitude), formatFloat).value.values;
    ItoaRoundTrip(chatId);
    GetFirst(v, "chat_id", 0);
    GetFirst(v, "latitude", 1);
    GetFirst(v, "longitude", 2);
  }

  /** The chat and the action of NewChatAction reach the server unchanged. */
  lemma NewChatActionRequest(chatId: int, action: string)
    ensures DecodeChatActionConfig(SendChatActionRequest(NewChatAction(chatId, action)).values)
            == Some(ChatActionConfig(chatId, action))
    ensures Get(SendChatActionRequest(NewChatAction(chatId, action)).values, "action") == Some(action)
  {
    SendChatActionRoundTrip(NewChatAction(chatId, action));
    GetFirst(SendChatActionRequest(NewChatAction(chatId, action)).values, "action", 1);
  }

  /** NewUserProfilePhotos asks for the user only: offset and limit are
      left to the server. */
  lemma NewUserProfilePhotosRequest(userId: int)
    ensures Keys(GetUserProfilePhotosRequest(NewUserProfilePhotos(userId)).values) == ["user_id"]
    ensures DecodeUserProfilePhotosConfig(GetUserProfilePhotosRequest(NewUserProfilePhotos(userId)).values)
            == Some(UserProfilePhotosConfig(userId, 0, 0))
  {
    GetUserProfilePhotosRoundTrip(NewUserProfilePhotos(userId));
  }

  /** The first getUpdates of a session made by NewUpdate carries the offset
      when it is positive and nothing at all otherwise. */
  lemma NewUpdateFirstRequest(offset: int)
    ensures var p := NewUpdate(offset);
      Keys(GetUpdatesValues(p.Offset, p.Limit, p.Timeout)) == if offset > 0 then ["offset"] else []
    ensures var p := NewUpdate(offset);
      DecodeUpdateConfig(GetUpdatesValues(p.Offset, p.Limit, p.Timeout)) == Some(UpdateConfig(Positive(offset), 0, 0))
  {
    GetUpdatesRoundTrip(offset, 0, 0);
  }
}
