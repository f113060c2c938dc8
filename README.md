# telegram-bot-api (Go) — a Dafny model of the polling loop and the request builders

This project models the two pieces of logic in the Go client of the Telegram
Bot API that are more than plumbing.

- **The update-polling loop of `GetUpdatesChan`** (`updates.go`). A goroutine
  keeps a cursor, `offset`. On each round it builds a `getUpdates` form and
  sends it through `MakeRequest`. On success it walks the returned batch in
  order. Whenever an update's id is at or past the cursor, the cursor moves
  to that id plus one. Every update is pushed onto the bot's channel, even one
  whose id is below the cursor. When `MakeRequest` returns an error (the
  reply body could not be read, or the envelope is not Ok) the round does
  nothing and the loop goes round again. A failed `http.PostForm` is not
  such an error: it panics (see "## Left out").
  The model is the class `Updates.Poller`. It has a mutable `offset`, constant
  `limit` and `timeout`, and a sequence `updates` that stands for the channel.
  `Step` is one round's handling of its outcome. It is proved against the
  closed form `NextOffset`: the least value at or past the old cursor that is
  above every id of the batch. `Poll` runs the loop for one round per network
  reply. It is proved against `CursorAfter` and `Published`, which fold
  `NextOffset` and concatenation over the rounds. Lemmas then show that the
  cursor never moves back and that every published id is below it.
- **The Bot methods of `methods.go` and the constructors of `helpers.go`.**
  Each `SendX`/`GetX` turns a config record into a request: an endpoint and a
  list of form fields. Some fields are added only under a condition (`!= 0`,
  `!= ""`, a reply markup being present). `MakeRequest` turns an envelope
  whose `Ok` flag is false into an error carrying its `Description`.
  `UploadFile` never does this. Each builder is a function. For sendMessage,
  forwardMessage, sendChatAction, getUserProfilePhotos and getUpdates, a
  decoder stands for what the server reads back from the form, and a
  round-trip lemma shows that every config field arrives where it belongs.
  For sendLocation, sendAudio and sendPhoto, field lemmas state what each
  field (`chat_id`, the file, the caption, the reply fields) holds in each
  branch.
  `strconv.Itoa` is modelled as a decimal writer, and a parser is proved to
  undo it. The `helpers.go` constructors are composed with the builders.

The existing-file branches of `SendPhoto` and `SendAudio` send the chat id
under `reply_to_message_id` (methods.go:285, methods.go:352). Their upload
branches send the reply-to id itself. The model keeps this behaviour as
written, and `SendPhotoExistingFields` / `SendAudioExistingFields` state it.

Forms are kept in the order `url.Values.Add` was called. On the wire,
`url.Values.Encode` sorts the fields by key, so the ordering claims are about
the sequence of `Add` calls. The upload branches build a Go
`map[string]string`, and the model uses a Dafny `map` for them, which has no order.

Files: `wrappers.dfy` (Option, Result), `strconv.dfy` (Itoa, FormatBool and
their parsers), `values.dfy` (url.Values), `types.dfy` (the records of
types.go that the polling loop and the Bot methods read; types.go itself is not part of this model),
`methods.dfy`, `helpers.dfy`, `updates.dfy`, `scenarios.dfy` (two polling
sessions worked out from the `Poller` contracts).

## Model

| member | source | states |
|---|---|---|
| `Strconv.ItoaRoundTrip` | updates.go:25 | the decimal text `strconv.Itoa` puts into a form field parses back to the same integer, negative ones included |
| `Strconv.ItoaInjective` | methods.go:226-228 | two integers have the same decimal form exactly when they are equal, so distinct ids never produce the same field value |
| `Strconv.FormatBoolRoundTrip` | methods.go:203 | the `true`/`false` text written for `disable_web_page_preview` reads back as the flag |
| `Methods.MakeRequest` | methods.go:87-111 | the reply has no error iff the transport delivered an envelope whose `Ok` is true; a delivered envelope that is not Ok is returned together with an error whose message is exactly its `Description`; a transport error gives the zero envelope and that error |
| `Methods.UploadFile` | methods.go:113-179 | only a transport (or file) failure is an error; a delivered envelope is returned without error whatever its `Ok` flag |
| `Methods.EnvelopeCheckOnlyForForms` | methods.go:106-110 | for the same envelope, MakeRequest errs with the Description iff `Ok` is false, while UploadFile never errs |
| `Methods.Perform` | methods.go:208-221 | a Bot method succeeds iff the transport delivered and (for a posted form) the envelope is Ok; it then returns the envelope's result, otherwise the transport error or the Description |
| `Methods.PostWithMarkup` | methods.go:254-261 | the reply-markup tail every form builder shares: a markup json.Marshal refuses is the method's error with its reason; otherwise the form is sent to the endpoint with `reply_markup` appended iff a markup is given |
| `Methods.PostWithMarkupGet` | methods.go:254-261 | that tail changes no other field, and `reply_markup` then reads back as the marshalled markup, or as absent without one |
| `Methods.UploadWithMarkup` | methods.go:318-328 | the same tail for an upload: a refused markup is the error, otherwise the parameters gain exactly `reply_markup`, holding the marshalled markup, and keep every other value, and the file goes under the given field name |
| `Methods.SendMessageRequest` | methods.go:199-206 | sendMessage always sends `chat_id`, `text`, `disable_web_page_preview` in that order, plus `reply_to_message_id` iff the reply-to id is not zero |
| `Methods.SendMessageRoundTrip` | methods.go:200-206 | the server reads back the whole MessageConfig from the form: chat id, text, preview flag, and the reply-to id (absent exactly when it is zero) |
| `Methods.ForwardMessageRequest` | methods.go:224-228 | forwardMessage sends exactly `chat_id`, `from_chat_id`, `message_id`, in that order |
| `Methods.ForwardMessageRoundTrip` | methods.go:225-228 | each of the three fields carries the matching config field |
| `Methods.SendLocationRequest` | methods.go:246-261 | a reply markup that json.Marshal rejects is an error with its reason and nothing is sent; otherwise the fields are `chat_id`, `latitude`, `longitude`, then `reply_to_message_id` iff the reply-to id is not zero, then `reply_markup` iff a markup is given |
| `Methods.SendLocationReplyFields` | methods.go:247-261 | `chat_id` reads back as the chat id, the coordinates are the formatted floats, `reply_to_message_id` reads back as the reply-to id (absent iff zero), `reply_markup` holds the marshalled markup |
| `Methods.SendAudioRequest` | methods.go:279-325 | an unmarshallable markup is an error in both branches; an existing audio is posted to sendAudio with `chat_id`, `audio` and the optional reply fields; a new one is uploaded as field `audio` from FilePath with parameters `chat_id` and the optional reply fields |
| `Methods.SendAudioExistingFields` | methods.go:281-294 | for an existing audio, `chat_id` reads back as the chat id, `audio` is the file id, `reply_markup` holds the marshalled markup (absent without one), and its `reply_to_message_id` is present iff the reply-to id is not zero but holds the chat id |
| `Methods.SendAudioUploadFields` | methods.go:312-325 | for an upload, `chat_id` reads back as the chat id, `reply_markup` is present iff a markup is given and holds it, and `reply_to_message_id` is present iff the reply-to id is not zero and holds the reply-to id |
| `Methods.SendPhotoRequest` | methods.go:343-394 | as sendAudio, with `caption` added iff the caption is not empty, in both branches |
| `Methods.SendPhotoExistingFields` | methods.go:345-361 | for an existing photo, `chat_id` reads back as the chat id, `photo` is the file id, `reply_markup` holds the marshalled markup (absent without one), `caption` is present iff the caption is not empty and holds it, and `reply_to_message_id` is present iff the reply-to id is not zero but holds the chat id |
| `Methods.SendPhotoUploadFields` | methods.go:379-394 | for an upload, `chat_id` reads back as the chat id, `reply_markup` is present iff a markup is given and holds it, `caption` is present iff the caption is not empty and holds it, and `reply_to_message_id` is present iff the reply-to id is not zero and holds the reply-to id |
| `Methods.SendPhotoErrorReporting` | methods.go:363-398 | for one and the same envelope, sendPhoto fails iff the photo is an existing one and the envelope is not Ok: the upload path never turns `Ok == false` into an error |
| `Methods.SendChatActionRequest` | methods.go:411-414 | sendChatAction sends exactly `chat_id` and `action` |
| `Methods.SendChatActionRoundTrip` | methods.go:412-414 | the chat id and the action string reach the server unchanged |
| `Methods.GetUserProfilePhotosRequest` | methods.go:424-432 | `user_id` always, then `offset` iff the offset is not zero and `limit` iff the limit is not zero (negative values are sent) |
| `Methods.GetUserProfilePhotosRoundTrip` | methods.go:425-432 | user id, offset and limit all read back, whatever their sign |
| `Methods.ClearWebhookRequest` | methods.go:456-457 | clearing the webhook is setWebhook with no fields |
| `Helpers.NewMessageRequest` | helpers.go:3-10 | a NewMessage config sends only the three mandatory fields, with preview flag `false`, and reads back as (chat, text, false, 0) |
| `Helpers.NewForwardRequest` | helpers.go:12-18 | NewForward's arguments land in `chat_id`, `from_chat_id`, `message_id` in order with no swapping, and two forwards send the same form iff they were made from the same arguments |
| `Helpers.NewLocationRequest` | helpers.go:20-28 | a NewLocation config never fails to build and sends only the chat id and the two coordinates, passed through |
| `Helpers.NewChatActionRequest` | helpers.go:30-35 | chat id and action of NewChatAction reach the server unchanged |
| `Helpers.NewUserProfilePhotosRequest` | helpers.go:37-43 | a NewUserProfilePhotos config sends exactly `[user_id]` and reads back with offset and limit 0 |
| `Helpers.NewUpdateFirstRequest` | helpers.go:45-51 | the first getUpdates of a NewUpdate session carries only `offset`, and only when it is positive; otherwise the form is empty |
| `Updates.FetchResultOf` | updates.go:34-37 | a round fails iff MakeRequest errs (transport error or envelope not Ok, with its Description); otherwise its batch is the decoded result list, empty when the result is not a list of updates |
| `Updates.GetUpdatesValues` | updates.go:23-32 | the getUpdates form holds `offset` iff offset > 0, `limit` iff limit > 0, `timeout` iff timeout > 0, in that order |
| `Updates.GetUpdatesRoundTrip` | updates.go:23-32 | each field holds the decimal value, and a value that is not positive is dropped, so the server reads it as 0 |
| `Updates.MaxId` | updates.go:43-46 | the highest id of a non-empty batch: no id is above it and some update has it |
| `Updates.NextOffset` | updates.go:43-47 | the cursor after a successful batch is at or past the old one, above every id of the batch, and either the old cursor or some id plus one (so it is the least such value); an empty batch leaves it unchanged |
| `Updates.NextOffsetSnoc` | updates.go:44-46 | the closed form agrees with the loop's step: appending one update moves the cursor to its id plus one iff that id is at or past the cursor so far |
| `Updates.MaxNotLast` | updates.go:44-45 | from cursor 0 both ids [7,5,6] and [5,6,7] leave the cursor at 8: it follows the maximum, not the last id |
| `Updates.CursorMonotone` | updates.go:34-46 | over any run of rounds, successes and failures mixed, the cursor after a prefix is never above the cursor after the whole run |
| `Updates.NoRedelivery` | updates.go:43-49 | every update published by a run has an id below the cursor that run ends with |
| `Updates.NextRequestSkipsPublished` | updates.go:22-49 | with the non-negative ids the server assigns, once anything was published the next getUpdates form carries the cursor as `offset`, and it is above every published id |
| `Updates.Poller.constructor` | updates.go:13-17 | the cursor, limit and timeout come from the config, and the channel starts empty |
| `Updates.Poller.Step` | updates.go:35-50 | on success the cursor becomes `NextOffset(old cursor, batch)` and the channel receives the whole batch in order, ids below the cursor included; on failure neither changes; limit and timeout are constants |
| `Updates.Poller.Poll` | updates.go:22-51 | running one round per reply sends one request per round, round i's being the getUpdates form built from the cursor after rounds 0..i-1; ends at the cursor `CursorAfter` of all the round results, and appends exactly `Published` of them to the channel |

## Left out

- The goroutine, the channel's capacity of 100 with its blocking send, and `defer close(bot.updates)` (updates.go:17-20): the channel is an unbounded sequence. The loop has no normal exit, so the close runs only while a panic (see the nil dereference below) unwinds the goroutine.
- `Updates.Poller.Poll`: models the first rounds of the endless `for` loop, one per reply given; it does not model the loop running forever.
- `Updates.NextOffset`: does not model Go's 64-bit wrap-around of `UpdateID + 1` at the largest int; integers are unbounded. The same holds for every `int` field, which `Strconv.Itoa` writes without bound.
- HTTP and the file system: `http.PostForm`, `client.Do`, `ioutil.ReadAll`, `os.Getwd`, `os.Open` and the multipart encoding of `UploadFile` are replaced by a `Transport` value (an envelope, or the error message).
- `Methods.MakeRequest`: a failed `http.PostForm` panics in the source instead of returning its error. `defer resp.Body.Close()` (methods.go:89) dereferences the nil response before the error check at methods.go:90. The model returns that failure as a `TransportError`, so the retry after a connection failure in `Updates.Poller.Step` and `Poll` is the model's, not the source's. In the source only a failed body read (methods.go:94-97) or an envelope that is not Ok reaches the loop as an error. `UploadFile` checks its errors before using the response (methods.go:159-166), so for uploads the `TransportError` case is faithful.
- `Methods.GetMeRequest` and `Methods.SetWebhookRequest` are modelled as plain builders (the endpoint with no fields, and the caller's fields unchanged). They carry no contract of their own, because there is nothing to state beyond the form itself. `Methods.ClearWebhookRequest` is stated in terms of `SetWebhookRequest`.
- JSON: envelopes arrive already decoded. A body that json.Unmarshal cannot read is the zero envelope, which `MakeRequest` reports as an error with an empty description. The Message, User and UserProfilePhotos results are returned undecoded by `Methods.Perform`. The update list is decoded as a whole (`Updates.DecodeUpdates`); a list that only partly decodes is not modelled.
- `json.Marshal` of `ReplyMarkup` is represented by the outcome it has for that value (`Markup`).
- `strconv.FormatFloat` for the coordinates of `SendLocation` is a parameter (`formatFloat`): floating point is not modelled.
- `NewBot`, the bot token in the request URL, debug logging and printing: they do not affect what is sent or returned.
- `GetMe` storing its result in `bot.self` (methods.go:194) only caches a network result.
- The order of the `for key, val := range params` loop of `UploadFile`: Go's map iteration order is unspecified, and the upload parameters are a `map`.
- echobot_test.go: it needs the network and calls `GetUpdates`, which the modelled files do not define.
