/** The Bot methods of methods.go: each turns a config record into a request
    (an endpoint and its form fields), the request goes through MakeRequest or
    UploadFile, and the reply envelope decides between a result and an error. */
module Methods {

  import opened Wrappers
  import opened Strconv
  import opened Values
  import opened Types

  // The chat actions SendChatAction may report.
  const ChatTyping := "typing"
  const ChatUploadPhoto := "upload_photo"
  const ChatRecordVideo := "record_video"
  const ChatUploadVideo := "upload_video"
  const ChatRecordAudio := "record_audio"
  const ChatUploadAudio := "upload_audio"
  const ChatUploadDocument := "upload_document"
  const ChatFindLocation := "find_location"

  /** A ReplyMarkup value, seen through what json.Marshal makes of it. */
  datatype Markup = Encodable(json: string) | Unencodable(reason: string)

  datatype MessageConfig = MessageConfig(ChatId: int, Text: string, DisableWebPagePreview: bool, ReplyToMessageId: int)

  datatype ForwardConfig = ForwardConfig(ChatId: int, FromChatId: int, MessageId: int)

  datatype LocationConfig = LocationConfig(
    ChatId: int, Latitude: real, Longitude: real, ReplyToMessageId: int, ReplyMarkup: Option<Markup>)

  datatype AudioConfig = AudioConfig(
    ChatId: int, ReplyToMessageId: int, ReplyMarkup: Option<Markup>,
    UseExistingAudio: bool, FilePath: string, FileId: string)

  datatype PhotoConfig = PhotoConfig(
    ChatId: int, Caption: string, ReplyToMessageId: int, ReplyMarkup: Option<Markup>,
    UseExistingPhoto: bool, FilePath: string, FileId: string)

  datatype ChatActionConfig = ChatActionConfig(ChatId: int, Action: string)

  datatype UserProfilePhotosConfig = UserProfilePhotosConfig(UserId: int, Offset: int, Limit: int)

  /** What the network gives back for one request: the decoded envelope, or
      an error. For an upload the error is that of any step UploadFile takes
      (finding and opening the file, building the body, the HTTP call,
      reading the reply). For a posted form it is the error of reading the
      reply body; a failed http.PostForm does not return in MakeRequest but
      panics on the nil response, and is not one of these values. */
  datatype Transport = Delivered(body: ApiResponse) | TransportError(message: string)

  /** Go's `(ApiResponse, error)` pair. */
  datatype Reply = Reply(response: ApiResponse, err: Option<string>)

  /** A request as handed to the network: a url-encoded form posted to an
      endpoint, or a multipart upload of one file with string parameters. */
  datatype Request =
    | PostForm(endpoint: string, values: Values)
    | Upload(endpoint: string, params: map<string, string>, fieldName: string, fileName: string)

  /** MakeRequest: an envelope whose Ok flag is false becomes an error whose
      message is the envelope's Description; the envelope is still returned. */
  function MakeRequest(t: Transport): (r: Reply)
    ensures r.err.None? <==> t.Delivered? && t.body.Ok
    ensures t.Delivered? ==> r.response == t.body
    ensures t.Delivered? && !t.body.Ok ==> r.err == Some(t.body.Description)
    ensures t.TransportError? ==> r.response == ZeroResponse && r.err == Some(t.message)
  {
    match t
    case TransportError(m) => Reply(ZeroResponse, Some(m))
    case Delivered(body) => if !body.Ok then Reply(body, Some(body.Description)) else Reply(body, None)
  }

  /** UploadFile: only a failure to reach the server (or the file) is an
      error; the envelope's Ok flag is never looked at. */
  function UploadFile(t: Transport): (r: Reply)
    ensures r.err.None? <==> t.Delivered?
    ensures t.Delivered? ==> r.response == t.body
    ensures t.TransportError? ==> r.response == ZeroResponse && r.err == Some(t.message)
  {
    match t
    case TransportError(m) => Reply(ZeroResponse, Some(m))
    case Delivered(body) => Reply(body, None)
  }

  /** The same envelope is an error for a posted form exactly when it is not
      Ok, and never an error for an upload. */
  lemma EnvelopeCheckOnlyForForms(body: ApiResponse)
    ensures MakeRequest(Delivered(body)).err == (if body.Ok then None else Some(body.Description))
    ensures UploadFile(Delivered(body)).err == None
  {
  }

  /** Sends a request and returns what the Bot method returns: the raw result
      of the envelope, or the error. */
  function Perform(req: Request, t: Transport): (r: Result<RawResult>)
    ensures r.Success? <==> t.Delivered? && (req.PostForm? ==> t.body.Ok)
    ensures r.Success? ==> r.value == t.body.Result
    ensures t.TransportError? ==> r == Failure(t.message)
    ensures req.PostForm? && t.Delivered? && !t.body.Ok ==> r == Failure(t.body.Description)
  {
    var reply := if req.PostForm? then MakeRequest(t) else UploadFile(t);
    if reply.err.Some? then Failure(reply.err.value) else Success(reply.response.Result)
  }

  /** The field list of sendMessage. */
  function SendMessageRequest(config: MessageConfig): (r: Request)
    ensures r.PostForm? && r.endpoint == "sendMessage"
    ensures Keys(r.values) == ["chat_id", "text", "disable_web_page_preview"]
                              + (if config.ReplyToMessageId != 0 then ["reply_to_message_id"] else [])
  {
    var v := Add(Add(Add([], "chat_id", Itoa(config.ChatId)), "text", config.Text),
                 "disable_web_page_preview", FormatBool(config.DisableWebPagePreview));
    PostForm("sendMessage",
      if config.ReplyToMessageId != 0 then Add(v, "reply_to_message_id", Itoa(config.ReplyToMessageId)) else v)
  }

  /** The field list of forwardMessage. */
  function ForwardMessageRequest(config: ForwardConfig): (r: Request)
    ensures r.PostForm? && r.endpoint == "forwardMessage"
    ensures Keys(r.values) == ["chat_id", "from_chat_id", "message_id"]
  {
    PostForm("forwardMessage",
      Add(Add(Add([], "chat_id", Itoa(config.ChatId)), "from_chat_id", Itoa(config.FromChatId)),
          "message_id", Itoa(config.MessageId)))
  }

  /** The tail the form builders share: a reply markup, when there is one,
      goes through json.Marshal and is added last; a markup it refuses is the
      method's error, and nothing is sent. */
  function PostWithMarkup(endpoint: string, v: Values, markup: Option<Markup>): (r: Result<Request>)
    ensures r.Failure? <==> markup.Some? && markup.value.Unencodable?
    ensures r.Failure? ==> r.error == markup.value.reason
    ensures r.Success? ==> r.value.PostForm? && r.value.endpoint == endpoint
    ensures r.Success? ==> Keys(r.value.values) == Keys(v) + (if markup.Some? then ["reply_markup"] else [])
  {
    match markup
    case None => Success(PostForm(endpoint, v))
    case Some(Unencodable(reason)) => Failure(reason)
    case Some(Encodable(json)) =>
      KeysAdd(v, "reply_markup", json);
      Success(PostForm(endpoint, Add(v, "reply_markup", json)))
  }

  /** The markup is the only field PostWithMarkup adds: every other key reads
      back as it was, and reply_markup, when the form did not have it, reads
      back as the marshalled markup. */
  lemma PostWithMarkupGet(endpoint: string, v: Values, markup: Option<Markup>, k: string)
    requires PostWithMarkup(endpoint, v, markup).Success?
    ensures k != "reply_markup" ==> Get(PostWithMarkup(endpoint, v, markup).value.values, k) == Get(v, k)
    ensures k == "reply_markup" && k !in Keys(v) ==>
              Get(PostWithMarkup(endpoint, v, markup).value.values, k)
              == if markup.Some? then Some(markup.value.json) else None
  {
    if markup.Some? {
      GetAdd(v, "reply_markup", markup.value.json, k);
    }
    GetMeaning(v, k);
  }

  /** The same tail for an upload, where the markup is one more parameter. */
  function UploadWithMarkup(endpoint: string, params: map<string, string>, fieldName: string, fileName: string,
                            markup: Option<Markup>): (r: Result<Request>)
    ensures r.Failure? <==> markup.Some? && markup.value.Unencodable?
    ensures r.Failure? ==> r.error == markup.value.reason
    ensures r.Success? ==>
              && r.value.Upload? && r.value.endpoint == endpoint
              && r.value.fieldName == fieldName && r.value.fileName == fileName
              && r.value.params.Keys == params.Keys + (if markup.Some? then {"reply_markup"} else {})
              && (forall k :: k in params && k != "reply_markup" ==> r.value.params[k] == params[k])
              && (markup.Some? ==> r.value.params["reply_markup"] == markup.value.json)
  {
    match markup
    case None => Success(Upload(endpoint, params, fieldName, fileName))
    case Some(Unencodable(reason)) => Failure(reason)
    case Some(Encodable(json)) => Success(Upload(endpoint, params["reply_markup" := json], fieldName, fileName))
  }

  /** The fields of sendLocation before the markup. Coordinates are written
      by strconv.FormatFloat(x, 'f', 6, 64), which is given here as formatFloat. */
  function LocationValues(config: LocationConfig, formatFloat: real -> string): (v: Values)
    ensures Keys(v) == ["chat_id", "latitude", "longitude"]
                       + (if config.ReplyToMessageId != 0 then ["reply_to_message_id"] else [])
  {
    var v := Add(Add(Add([], "chat_id", Itoa(config.ChatId)),
                     "latitude", formatFloat(config.Latitude)),
                 "longitude", formatFloat(config.Longitude));
    if config.ReplyToMessageId != 0 then Add(v, "reply_to_message_id", Itoa(config.ReplyToMessageId)) else v
  }

  /** The request of sendLocation; a reply markup that json.Marshal refuses
      is an error before anything is sent. */
  function SendLocationRequest(config: LocationConfig, formatFloat: real -> string): (r: Result<Request>)
    ensures r.Failure? <==> config.ReplyMarkup.Some? && config.ReplyMarkup.value.Unencodable?
    ensures r.Failure? ==> r.error == config.ReplyMarkup.value.reason
    ensures r.Success? ==> r.value.PostForm? && r.value.endpoint == "sendLocation"
    ensures r.Success? ==>
              Keys(r.value.values) == ["chat_id", "latitude", "longitude"]
                + (if config.ReplyToMessageId != 0 then ["reply_to_message_id"] else [])
                + (if config.ReplyMarkup.Some? then ["reply_markup"] else [])
  {
    PostWithMarkup("sendLocation", LocationValues(config, formatFloat), config.ReplyMarkup)
  }

  /** The fields of sendAudio for an audio already on the server: it is
      named by its file id, and the reply_to_message_id field carries the
      CHAT id. */
  function AudioValues(config: AudioConfig): (v: Values)
    ensures Keys(v) == ["chat_id", "audio"] + (if config.ReplyToMessageId != 0 then ["reply_to_message_id"] else [])
  {
    var v := Add(Add([], "chat_id", Itoa(config.ChatId)), "audio", config.FileId);
    if config.ReplyToMessageId != 0 then Add(v, "reply_to_message_id", Itoa(config.ChatId)) else v
  }

  /** The parameters of a sendAudio upload, where reply_to_message_id
      carries the reply-to id. */
  function AudioParams(config: AudioConfig): (params: map<string, string>)
    ensures params.Keys == {"chat_id"} + (if config.ReplyToMessageId != 0 then {"reply_to_message_id"} else {})
  {
    var params := map["chat_id" := Itoa(config.ChatId)];
    if config.ReplyToMessageId != 0 then params["reply_to_message_id" := Itoa(config.ReplyToMessageId)] else params
  }

  /** The request of sendAudio: an audio already on the server is posted
      through MakeRequest, a new file is uploaded through UploadFile. */
  function SendAudioRequest(config: AudioConfig): (r: Result<Request>)
    ensures r.Failure? <==> config.ReplyMarkup.Some? && config.ReplyMarkup.value.Unencodable?
    ensures r.Failure? ==> r.error == config.ReplyMarkup.value.reason
    ensures r.Success? && config.UseExistingAudio ==>
              r.value.PostForm? && r.value.endpoint == "sendAudio"
              && Keys(r.value.values) == ["chat_id", "audio"]
                 + (if config.ReplyToMessageId != 0 then ["reply_to_message_id"] else [])
                 + (if config.ReplyMarkup.Some? then ["reply_markup"] else [])
    ensures r.Success? && !config.UseExistingAudio ==>
              r.value.Upload? && r.value.endpoint == "sendAudio"
              && r.value.fieldName == "audio" && r.value.fileName == config.FilePath
              && r.value.params.Keys == {"chat_id"}
                 + (if config.ReplyToMessageId != 0 then {"reply_to_message_id"} else {})
                 + (if config.ReplyMarkup.Some? then {"reply_markup"} else {})
  {
    if config.UseExistingAudio then PostWithMarkup("sendAudio", AudioValues(config), config.ReplyMarkup)
    else UploadWithMarkup("sendAudio", AudioParams(config), "audio", config.FilePath, config.ReplyMarkup)
  }

  /** The fields of sendPhoto for a photo already on the server: as for
      sendAudio, with a caption added whenever it is not empty. */
  function PhotoValues(config: PhotoConfig): (v: Values)
    ensures Keys(v) == ["chat_id", "photo"]
                       + (if config.Caption != "" then ["caption"] else [])
                       + (if config.ReplyToMessageId != 0 then ["reply_to_message_id"] else [])
  {
    var v := Add(Add([], "chat_id", Itoa(config.ChatId)), "photo", config.FileId);
    var v := if config.Caption != "" then Add(v, "caption", config.Caption) else v;
    if config.ReplyToMessageId != 0 then Add(v, "reply_to_message_id", Itoa(config.ChatId)) else v
  }

  /** The parameters of a sendPhoto upload. */
  function PhotoParams(config: PhotoConfig): (params: map<string, string>)
    ensures params.Keys == {"chat_id"}
                           + (if config.Caption != "" then {"caption"} else {})
                           + (if config.ReplyToMessageId != 0 then {"reply_to_message_id"} else {})
  {
    var params := map["chat_id" := Itoa(config.ChatId)];
    var params := if config.Caption != "" then params["caption" := config.Caption] else params;
    if config.ReplyToMessageId != 0 then params["reply_to_message_id" := Itoa(config.ReplyToMessageId)] else params
  }

  /** The request of sendPhoto. */
  function SendPhotoRequest(config: PhotoConfig): (r: Result<Request>)
    ensures r.Failure? <==> config.ReplyMarkup.Some? && config.ReplyMarkup.value.Unencodable?
    ensures r.Failure? ==> r.error == config.ReplyMarkup.value.reason
    ensures r.Success? && config.UseExistingPhoto ==>
              r.value.PostForm? && r.value.endpoint == "sendPhoto"
              && Keys(r.value.values) == ["chat_id", "photo"]
                 + (if config.Caption != "" then ["caption"] else [])
                 + (if config.ReplyToMessageId != 0 then ["reply_to_message_id"] else [])
                 + (if config.ReplyMarkup.Some? then ["reply_markup"] else [])
    ensures r.Success? && !config.UseExistingPhoto ==>
              r.value.Upload? && r.value.endpoint == "sendPhoto"
              && r.value.fieldName == "photo" && r.value.fileName == config.FilePath
              && r.value.params.Keys == {"chat_id"}
                 + (if config.Caption != "" then {"caption"} else {})
                 + (if config.ReplyToMessageId != 0 then {"reply_to_message_id"} else {})
                 + (if config.ReplyMarkup.Some? then {"reply_markup"} else {})
  {
    if config.UseExistingPhoto then PostWithMarkup("sendPhoto", PhotoValues(config), config.ReplyMarkup)
    else UploadWithMarkup("sendPhoto", PhotoParams(config), "photo", config.FilePath, config.ReplyMarkup)
  }

  /** The field list of sendChatAction. */
  function SendChatActionRequest(config: ChatActionConfig): (r: Request)
    ensures r.PostForm? && r.endpoint == "sendChatAction"
    ensures Keys(r.values) == ["chat_id", "action"]
  {
    PostForm("sendChatAction", Add(Add([], "chat_id", Itoa(config.ChatId)), "action", config.Action))
  }

  /** The field list of getUserProfilePhotos: offset and limit are sent
      whenever they are not zero, negative values included. */
  function GetUserProfilePhotosRequest(config: UserProfilePhotosConfig): (r: Request)
    ensures r.PostForm? && r.endpoint == "getUserProfilePhotos"
    ensures Keys(r.values) == ["user_id"]
              + (if config.Offset != 0 then ["offset"] else [])
              + (if config.Limit != 0 then ["limit"] else [])
  {
    var v := Add([], "user_id", Itoa(config.UserId));
    var v := if config.Offset != 0 then Add(v, "offset", Itoa(config.Offset)) else v;
    PostForm("getUserProfilePhotos", if config.Limit != 0 then Add(v, "limit", Itoa(config.Limit)) else v)
  }

  function GetMeRequest(): Request {
    PostForm("getMe", [])
  }

  function SetWebhookRequest(v: Values): Request {
    PostForm("setWebhook", v)
  }

  /** ClearWebhook is setWebhook with no fields at all. */
  function ClearWebhookRequest(): (r: Request)
    ensures r == SetWebhookRequest([]) && Keys(r.values) == []
  {
    PostForm("setWebhook", [])
  }

  // Reading a form back. These decoders are not part of the library: they
  // are what the server does with a form, and they show that each builder
  // puts every config field where it belongs.

  function IntField(v: Values, key: string): Option<int> {
    match Get(v, key)
    case None => None
    case Some(s) => ParseDecimal(s)
  }

  /** An integer field that its builder leaves out when it is zero. */
  function OptionalIntField(v: Values, key: string): Option<int> {
    match Get(v, key)
    case None => Some(0)
    case Some(s) => ParseDecimal(s)
  }

  function BoolField(v: Values, key: string): Option<bool> {
    match Get(v, key)
    case None => None
    case Some(s) => ParseBool(s)
  }

  function DecodeMessageConfig(v: Values): Option<MessageConfig> {
    match (IntField(v, "chat_id"), Get(v, "text"), BoolField(v, "disable_web_page_preview"),
           OptionalIntField(v, "reply_to_message_id"))
    case (Some(chat), Some(text), Some(preview), Some(reply)) => Some(MessageConfig(chat, text, preview, reply))
    case _ => None
  }

  function DecodeForwardConfig(v: Values): Option<ForwardConfig> {
    match (IntField(v, "chat_id"), IntField(v, "from_chat_id"), IntField(v, "message_id"))
    case (Some(chat), Some(from), Some(message)) => Some(ForwardConfig(chat, from, message))
    case _ => None
  }

  function DecodeChatActionConfig(v: Values): Option<ChatActionConfig> {
    match (IntField(v, "chat_id"), Get(v, "action"))
    case (Some(chat), Some(action)) => Some(ChatActionConfig(chat, action))
    case _ => None
  }

  function DecodeUserProfilePhotosConfig(v: Values): Option<UserProfilePhotosConfig> {
    match (IntField(v, "user_id"), OptionalIntField(v, "offset"), OptionalIntField(v, "limit"))
    case (Some(user), Some(offset), Some(limit)) => Some(UserProfilePhotosConfig(user, offset, limit))
    case _ => None
  }

  /** sendMessage's form holds the whole config: an absent reply_to_message_id
      is exactly a zero one. */
  lemma SendMessageRoundTrip(config: MessageConfig)
    ensures DecodeMessageConfig(SendMessageRequest(config).values) == Some(config)
  {
    var v := SendMessageRequest(config).values;
    ItoaRoundTrip(config.ChatId);
    FormatBoolRoundTrip(config.DisableWebPagePreview);
    GetFirst(v, "chat_id", 0);
    GetFirst(v, "text", 1);
    GetFirst(v, "disable_web_page_preview", 2);
    SendMessageReplyTo(config);
  }

  lemma SendMessageReplyTo(config: MessageConfig)
    ensures OptionalIntField(SendMessageRequest(config).values, "reply_to_message_id") == Some(config.ReplyToMessageId)
  {
    var v := SendMessageRequest(config).values;
    ItoaRoundTrip(config.ReplyToMessageId);
    if config.ReplyToMessageId != 0 {
      GetFirst(v, "reply_to_message_id", 3);
    } else {
      GetMeaning(v, "reply_to_message_id");
    }
  }

  lemma ForwardMessageRoundTrip(config: ForwardConfig)
    ensures DecodeForwardConfig(ForwardMessageRequest(config).values) == Some(config)
  {
    var v := ForwardMessageRequest(config).values;
    ItoaRoundTrip(config.ChatId);
    ItoaRoundTrip(config.FromChatId);
    ItoaRoundTrip(config.MessageId);
    GetFirst(v, "chat_id", 0);
    GetFirst(v, "from_chat_id", 1);
    GetFirst(v, "message_id", 2);
  }

  /** The action string reaches the server verbatim. */
  lemma SendChatActionRoundTrip(config: ChatActionConfig)
    ensures DecodeChatActionConfig(SendChatActionRequest(config).values) == Some(config)
  {
    var v := SendChatActionRequest(config).values;
    ItoaRoundTrip(config.ChatId);
    GetFirst(v, "chat_id", 0);
    GetFirst(v, "action", 1);
  }

  /** Offset and limit survive whatever their sign, because the builder
      tests them with != 0. */
  lemma GetUserProfilePhotosRoundTrip(config: UserProfilePhotosConfig)
    ensures DecodeUserProfilePhotosConfig(GetUserProfilePhotosRequest(config).values) == Some(config)
  {
    var v := GetUserProfilePhotosRequest(config).values;
    ItoaRoundTrip(config.UserId);
    GetFirst(v, "user_id", 0);
    ProfilePhotosOffset(config);
    ProfilePhotosLimit(config);
  }

  lemma ProfilePhotosOffset(config: UserProfilePhotosConfig)
    ensures OptionalIntField(GetUserProfilePhotosRequest(config).values, "offset") == Some(config.Offset)
  {
    var v := GetUserProfilePhotosRequest(config).values;
    ItoaRoundTrip(config.Offset);
    if config.Offset != 0 {
      GetFirst(v, "offset", 1);
    } else {
      GetMeaning(v, "offset");
    }
  }

  lemma ProfilePhotosLimit(config: UserProfilePhotosConfig)
    ensures OptionalIntField(GetUserProfilePhotosRequest(config).values, "limit") == Some(config.Limit)
  {
    var v := GetUserProfilePhotosRequest(config).values;
    ItoaRoundTrip(config.Limit);
    if config.Limit != 0 {
      GetFirst(v, "limit", |v| - 1);
    } else {
      GetMeaning(v, "limit");
    }
  }

  /** A form whose first field is chat_id, written by Itoa, reads back
      as that chat id. */
  lemma ChatIdFirst(v: Values, chatId: int)
    requires |v| >= 1 && v[0] == ("chat_id", Itoa(chatId))
    ensures IntField(v, "chat_id") == Some(chatId)
  {
    GetFirst(v, "chat_id", 0);
    ItoaRoundTrip(chatId);
  }

  /** sendLocation's fields: the coordinates as formatFloat writes them,
      the reply-to id when it is not zero, and the marshalled markup when
      there is one. */
  lemma SendLocationReplyFields(config: LocationConfig, formatFloat: real -> string)
    requires SendLocationRequest(config, formatFloat).Success?
    ensures var v := SendLocationRequest(config, formatFloat).value.values;
      && IntField(v, "chat_id") == Some(config.ChatId)
      && OptionalIntField(v, "reply_to_message_id") == Some(config.ReplyToMessageId)
      && Get(v, "reply_markup") == (if config.ReplyMarkup.Some? then Some(config.ReplyMarkup.value.json) else None)
      && Get(v, "latitude") == Some(formatFloat(config.Latitude))
      && Get(v, "longitude") == Some(formatFloat(config.Longitude))
  {
    var v := LocationValues(config, formatFloat);
    PostWithMarkupGet("sendLocation", v, config.ReplyMarkup, "chat_id");
    PostWithMarkupGet("sendLocation", v, config.ReplyMarkup, "latitude");
    PostWithMarkupGet("sendLocation", v, config.ReplyMarkup, "longitude");
    PostWithMarkupGet("sendLocation", v, config.ReplyMarkup, "reply_to_message_id");
    PostWithMarkupGet("sendLocation", v, config.ReplyMarkup, "reply_markup");
    LocationValuesFields(config, formatFloat);
  }

  lemma LocationValuesFields(config: LocationConfig, formatFloat: real -> string)
    ensures var v := LocationValues(config, formatFloat);
      && IntField(v, "chat_id") == Some(config.ChatId)
      && OptionalIntField(v, "reply_to_message_id") == Some(config.ReplyToMessageId)
      && "reply_markup" !in Keys(v)
      && Get(v, "latitude") == Some(formatFloat(config.Latitude))
      && Get(v, "longitude") == Some(formatFloat(config.Longitude))
  {
    var v := LocationValues(config, formatFloat);
    ChatIdFirst(v, config.ChatId);
    ItoaRoundTrip(config.ReplyToMessageId);
    GetFirst(v, "latitude", 1);
    GetFirst(v, "longitude", 2);
    if config.ReplyToMessageId != 0 {
      GetFirst(v, "reply_to_message_id", 3);
    } else {
      GetMeaning(v, "reply_to_message_id");
    }
  }

  /** Where sendPhoto's caption and reply-to id end up when the photo is
      already on the server. The caption is sent iff it is not empty. The
      reply-to field is sent iff the reply-to id is not zero, but it holds
      the chat id. */
  lemma SendPhotoExistingFields(config: PhotoConfig)
    requires config.UseExistingPhoto && SendPhotoRequest(config).Success?
    ensures var v := SendPhotoRequest(config).value.values;
      && IntField(v, "chat_id") == Some(config.ChatId)
      && Get(v, "reply_markup") == (if config.ReplyMarkup.Some? then Some(config.ReplyMarkup.value.json) else None)
      && Get(v, "photo") == Some(config.FileId)
      && Get(v, "caption") == (if config.Caption != "" then Some(config.Caption) else None)
      && IntField(v, "reply_to_message_id") == (if config.ReplyToMessageId != 0 then Some(config.ChatId) else None)
  {
    var v := PhotoValues(config);
    PostWithMarkupGet("sendPhoto", v, config.ReplyMarkup, "chat_id");
    PostWithMarkupGet("sendPhoto", v, config.ReplyMarkup, "reply_markup");
    PostWithMarkupGet("sendPhoto", v, config.ReplyMarkup, "photo");
    PostWithMarkupGet("sendPhoto", v, config.ReplyMarkup, "caption");
    PostWithMarkupGet("sendPhoto", v, config.ReplyMarkup, "reply_to_message_id");
    PhotoValuesFields(config);
  }

  lemma PhotoValuesFields(config: PhotoConfig)
    ensures var v := PhotoValues(config);
      && IntField(v, "chat_id") == Some(config.ChatId)
      && "reply_markup" !in Keys(v)
      && Get(v, "photo") == Some(config.FileId)
      && Get(v, "caption") == (if config.Caption != "" then Some(config.Caption) else None)
      && IntField(v, "reply_to_message_id") == (if config.ReplyToMessageId != 0 then Some(config.ChatId) else None)
  {
    var v := PhotoValues(config);
    assert IntField(v, "chat_id") == Some(config.ChatId) by { ChatIdFirst(v, config.ChatId); }
    assert Get(v, "photo") == Some(config.FileId) by { GetFirst(v, "photo", 1); }
    assert "reply_markup" !in Keys(v);
    PhotoValuesOptional(config);
  }

  lemma PhotoValuesOptional(config: PhotoConfig)
    ensures var v := PhotoValues(config);
      && Get(v, "caption") == (if config.Caption != "" then Some(config.Caption) else None)
      && IntField(v, "reply_to_message_id") == (if config.ReplyToMessageId != 0 then Some(config.ChatId) else None)
  {
    var v := PhotoValues(config);
    if config.Caption != "" {
      GetFirst(v, "caption", 2);
    } else {
      GetMeaning(v, "caption");
    }
    if config.ReplyToMessageId != 0 {
      ItoaRoundTrip(config.ChatId);
      GetFirst(v, "reply_to_message_id", |v| - 1);
    } else {
      GetMeaning(v, "reply_to_message_id");
    }
  }

  /** The same for an upload: the caption is sent iff it is not empty, and
      the reply-to field iff the reply-to id is not zero, holding that id. */
  lemma SendPhotoUploadFields(config: PhotoConfig)
    requires !config.UseExistingPhoto && SendPhotoRequest(config).Success?
    ensures var params := SendPhotoRequest(config).value.params;
      && "chat_id" in params && ParseDecimal(params["chat_id"]) == Some(config.ChatId)
      && ("reply_markup" in params <==> config.ReplyMarkup.Some?)
      && (config.ReplyMarkup.Some? ==> params["reply_markup"] == config.ReplyMarkup.value.json)
      && ("caption" in params <==> config.Caption != "")
      && (config.Caption != "" ==> params["caption"] == config.Caption)
      && ("reply_to_message_id" in params <==> config.ReplyToMessageId != 0)
      && (config.ReplyToMessageId != 0 ==> ParseDecimal(params["reply_to_message_id"]) == Some(config.ReplyToMessageId))
  {
    ItoaRoundTrip(config.ChatId);
    ItoaRoundTrip(config.ReplyToMessageId);
  }

  /** sendAudio for an audio already on the server: the file id is sent,
      and the reply-to field iff the reply-to id is not zero, holding the
      chat id. */
  lemma SendAudioExistingFields(config: AudioConfig)
    requires config.UseExistingAudio && SendAudioRequest(config).Success?
    ensures var v := SendAudioRequest(config).value.values;
      && IntField(v, "chat_id") == Some(config.ChatId)
      && Get(v, "reply_markup") == (if config.ReplyMarkup.Some? then Some(config.ReplyMarkup.value.json) else None)
      && Get(v, "audio") == Some(config.FileId)
      && IntField(v, "reply_to_message_id") == (if config.ReplyToMessageId != 0 then Some(config.ChatId) else None)
  {
    var v := AudioValues(config);
    PostWithMarkupGet("sendAudio", v, config.ReplyMarkup, "chat_id");
    PostWithMarkupGet("sendAudio", v, config.ReplyMarkup, "reply_markup");
    PostWithMarkupGet("sendAudio", v, config.ReplyMarkup, "audio");
    ChatIdFirst(v, config.ChatId);
    PostWithMarkupGet("sendAudio", v, config.ReplyMarkup, "reply_to_message_id");
    GetFirst(v, "audio", 1);
    if config.ReplyToMessageId != 0 {
      ItoaRoundTrip(config.ChatId);
      GetFirst(v, "reply_to_message_id", 2);
    } else {
      GetMeaning(v, "reply_to_message_id");
    }
  }

  /** A sendAudio upload carries the reply-to id itself, iff it is not zero. */
  lemma SendAudioUploadFields(config: AudioConfig)
    requires !config.UseExistingAudio && SendAudioRequest(config).Success?
    ensures var params := SendAudioRequest(config).value.params;
      && "chat_id" in params && ParseDecimal(params["chat_id"]) == Some(config.ChatId)
      && ("reply_markup" in params <==> config.ReplyMarkup.Some?)
      && (config.ReplyMarkup.Some? ==> params["reply_markup"] == config.ReplyMarkup.value.json)
      && ("reply_to_message_id" in params <==> config.ReplyToMessageId != 0)
      && (config.ReplyToMessageId != 0 ==> ParseDecimal(params["reply_to_message_id"]) == Some(config.ReplyToMessageId))
  {
    ItoaRoundTrip(config.ChatId);
    ItoaRoundTrip(config.ReplyToMessageId);
  }

  /** A photo already on the server is posted through MakeRequest, so an
      envelope that is not Ok fails the call; a new photo goes through
      UploadFile, so the same envelope is returned as a success. */
  lemma SendPhotoErrorReporting(config: PhotoConfig, body: ApiResponse)
    requires SendPhotoRequest(config).Success?
    ensures Perform(SendPhotoRequest(config).value, Delivered(body)).Failure? <==> config.UseExistingPhoto && !body.Ok
  {
  }
}
