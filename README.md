# A Dafny model of disgo's channel facade, webhook service and icon text form

This project models three parts of the disgo Go client for the Discord API:

- **The channel facade** (`core/channel.go`). A single record, `channelImpl`, implements every channel capability interface: message, DM, guild, category, voice, text, news, store and stage. Module `Channel` models the record as a datatype and each method as a function.
  - Collaborators are the entity caches, the entity builder, the REST services and the audio controller. They are uninterpreted functions in an `Env` value.
  - Every use of a collaborator is logged as a `Call` in the returned `Trace`.
  - A REST service's reply is a pair of a pointer and an error, either of which may be nil. When both are nil, the facade panics on the dereference after the remote call.
  - A Go panic is an explicit `Panicked` outcome. It is either the capability panic (`Unsupported`, or `UnsupportedFor(type)` for the `unsupported` helper) or a nil-pointer dereference.
  - The single-type predicates are modelled as written, with `!=`. Each `IsX` holds for every type except X. The lemmas then show the consequences: every channel is a "message channel" and a "guild channel", and each type-gated accessor raises its capability panic on exactly the type it serves.
- **The webhook service** (`rest/webhook_service.go`). Module `WebhookService` has a class `WebhookServiceImpl` whose methods call a `RecordingClient`.
  - The client stands in for route compilation, body serialisation and the HTTP `Do` call. It logs every call it receives. Its answers come from a fixed `Script`.
  - The query map is built in place, as in the source.
  - Each method's new log and results are tied to a pure specification: `WebhookRun`, `DeleteRun` or `MessageRun`. What the source promises is proved about those: which query keys appear, that no `Do` follows a compile or serialisation failure, and that a message destination is passed only when `wait` is set.
- **The icon text form** (`discord/icon.go`). Module `Icon` gives the data-URI form of section 3 of RFC 2397 as pure string functions. A reader for that form, `ParseDataUri`, is the inverse partner of `String`. The round trip is proved for every non-empty icon whose MIME type has no comma, which includes the four named types. A MIME type such as `a,b` does not read back.

Module `ChannelIntended` holds the predicates as their names promise (`Type() == X`) and the type-gated accessors rebuilt on them. It is used only for the finding below.

The model follows the code where it departs from what its names and comments promise:

- The code's predicates are inverted, and the model keeps them inverted.
- `Guild` panics, rather than returning nothing, when the guild identifier is unset. The panic comes from `GuildID`.
- The message operations check no capability at all.
- `IsModerator` stays a placeholder that answers true.

## Model

| member | source | states |
|---|---|---|
| Channel.SingleTypePredicatesInverted | core/channel.go:128-154 | each of `IsDMChannel` … `IsStageChannel` holds exactly when the channel does not have that predicate's type |
| Channel.MessageChannelAlways | core/channel.go:120-122 | `IsMessageChannel` holds for every channel, since no channel is text, news and DM at once |
| Channel.GuildChannelAlways | core/channel.go:124-126 | `IsGuildChannel` holds for every channel, so the guards of `Permissions`, `ParentID` and `Position` never fire |
| Channel.Name | core/channel.go:112-114 | returns the stored name; panics with a nil dereference exactly when the name is absent |
| Channel.GuildID | core/channel.go:198-204 | panics with "unsupported operation" exactly when the guild identifier is absent, otherwise returns it unchanged |
| Channel.Permissions | core/channel.go:206-211 | never the capability panic; a nil dereference exactly when the interaction permissions are absent, otherwise their value |
| Channel.ParentID | core/channel.go:213-218 | returns the stored parent identifier (possibly nil) on every channel |
| Channel.Position | core/channel.go:227-233 | returns the stored position (possibly nil) on every channel |
| Channel.Parent | core/channel.go:220-225 | never panics; nil with no cache lookup when there is no parent identifier, else exactly one category-cache lookup of it, whose answer is returned |
| Channel.Guild | core/channel.go:100-102 | panics before any lookup when the guild identifier is absent, else one guild-cache lookup of it |
| Channel.Bitrate | core/channel.go:245-250 | the capability panic naming the type exactly on voice channels; elsewhere the stored bitrate, or a nil dereference when it is absent |
| Channel.NSFW | core/channel.go:254-259 | the capability panic naming the type exactly on text channels; elsewhere the stored flag, or a nil dereference when it is absent |
| Channel.IsModerator | core/channel.go:300-305 | panics exactly on stage channels and otherwise answers true for every member |
| Channel.StageInstance | core/channel.go:279-287 | panics with no call on stage channels; nil with no lookup without an instance identifier; else one stage-instance-cache lookup, whose answer is returned |
| Channel.CreateMessage | core/channel.go:166-173 | one service call for this channel; on an error that error unchanged and nothing built; on a reply with neither message nor error a nil-dereference panic after the call; otherwise exactly one message built with `NoWs` and returned |
| Channel.UpdateMessage | core/channel.go:175-182 | the same shape as `CreateMessage`, with the channel and message identifiers and the update |
| Channel.CrosspostMessage | core/channel.go:267-273 | the same shape as `CreateMessage`, for the crosspost call |
| Channel.DeleteMessage | core/channel.go:184-187 | exactly one delete call with the channel and message identifiers; its error returned unchanged |
| Channel.BulkDeleteMessages | core/channel.go:189-192 | exactly one remote call carrying all the given identifiers in order, however many; its error returned unchanged |
| Channel.CreateStageInstance | core/channel.go:289-298 | the capability panic with no call on stage channels; otherwise one service call, then the error unchanged with nothing built, a nil-dereference panic on a reply with neither instance nor error, or one stage instance built with `NoWs` |
| Channel.Connect | core/channel.go:238-243 | the capability panic on voice channels; a panic before `Connect` is called when the guild identifier is absent; else one connect with guild and channel identifiers, its error unchanged |
| Channel.PanicsBeforeAnyCall | core/channel.go:279-298 | a panicking `Guild`, `StageInstance` or `Connect` has made no collaborator call; `CreateStageInstance` panics after its remote call exactly when the panic is the nil dereference of an empty reply |
| Channel.GatesRejectOwnType | core/channel.go:238-305 | each type-gated operation raises its capability panic on exactly the type it serves, whatever fields the channel holds |
| ChannelIntended.CorrectedIsNegationOfWritten | core/channel.go:128-154 | each corrected predicate (`Type() == X`) is the negation of the written one |
| ChannelIntended.StageInstance | core/channel.go:279-287 | corrected gate: panics, with no call, exactly when the channel is not a stage channel |
| ChannelIntended.Bitrate | core/channel.go:245-250 | corrected gate: a value only on voice channels that hold a bitrate |
| ChannelIntended.NSFW | core/channel.go:254-259 | corrected gate: a value only on text channels that hold the flag |
| ChannelIntended.IsModerator | core/channel.go:300-305 | corrected gate: the capability panic exactly off stage channels; otherwise true |
| ChannelIntended.CreateStageInstance | core/channel.go:289-298 | corrected gate: the capability panic with no call exactly off stage channels; on stage channels the service call is made first and only the empty-reply dereference can panic |
| ChannelIntended.Connect | core/channel.go:238-243 | corrected gate: the capability panic exactly off voice channels; on a voice channel with a guild identifier, one connect with guild and channel identifiers |
| ChannelIntended.CorrectedGatesAdmitOwnType | core/channel.go:238-305 | on a stage channel the written `IsModerator` and `CreateStageInstance` panic while the corrected ones answer or call the service; on a voice channel with a guild the written `Connect` makes no call while the corrected one connects |
| ChannelIntended.WrittenStageGateRejectsStageChannel | core/channel.go:279-287 | on a stage channel with an instance identifier, the written `StageInstance` panics where the corrected one looks the instance up |
| WebhookService.CreateMessageQuery | rest/webhook_service.go:124-130 | `wait` is a key iff waiting, with value true; `thread_id` iff the thread identifier is non-empty, with that value; no other key |
| WebhookService.ThreadQuery | rest/webhook_service.go:163-166 | `thread_id` is a key iff the thread identifier is non-empty, with that value; no other key |
| WebhookService.CreateMessageSink | rest/webhook_service.go:142-146 | a message destination is handed to `Do` exactly when `wait` is set |
| WebhookService.WebhookRun | rest/webhook_service.go:43-56 | compile first with no query; on failure that error, nil webhook, no `Do`; else one `Do` into a webhook destination, the webhook returned only when `Do` reports no error |
| WebhookService.DeleteRun | rest/webhook_service.go:73-81 | compile first; on failure that error and no `Do`; else one `Do` with no body and no destination, its error unchanged |
| WebhookService.MessageRun | rest/webhook_service.go:123-148 | compile, serialise, send in that order; either failure is returned with no `Do`; nil message without a message destination |
| WebhookService.CompileFailureStopsEveryOperation | rest/webhook_service.go:44-48 | for every request shape, a compile failure is returned unchanged and no `Do` is made |
| WebhookService.SerialisationFailureStopsMessageOperations | rest/webhook_service.go:137-140 | a serialisation failure is returned unchanged and no `Do` is made |
| WebhookService.CreateMessageRequestShape | rest/webhook_service.go:124-146 | any `Do` of a message creation has path (webhook id, token), exactly the requested query keys, a body, and a destination iff waiting |
| WebhookService.WebhookServiceImpl.GetWebhook | rest/webhook_service.go:43-56 | the client's log grows by `WebhookRun`'s calls for the GetWebhook route with the webhook id and no body; results as `WebhookRun` gives |
| WebhookService.WebhookServiceImpl.UpdateWebhook | rest/webhook_service.go:58-71 | as `GetWebhook`, for the UpdateWebhook route with the update passed as the body |
| WebhookService.WebhookServiceImpl.DeleteWebhook | rest/webhook_service.go:73-81 | the client's log grows by `DeleteRun`'s calls for the DeleteWebhook route with no query |
| WebhookService.WebhookServiceImpl.GetWebhookWithToken | rest/webhook_service.go:83-96 | as `GetWebhook`, with path (webhook id, token) |
| WebhookService.WebhookServiceImpl.UpdateWebhookWithToken | rest/webhook_service.go:98-111 | as `UpdateWebhook`, with path (webhook id, token) |
| WebhookService.WebhookServiceImpl.DeleteWebhookWithToken | rest/webhook_service.go:113-121 | as `DeleteWebhook`, with path (webhook id, token) |
| WebhookService.WebhookServiceImpl.CreateMessageVia | rest/webhook_service.go:123-148 | builds the query in place and behaves as `MessageRun` with that query, path (webhook id, token) and the sink chosen by `wait` |
| WebhookService.WebhookServiceImpl.CreateMessage | rest/webhook_service.go:150-152 | `CreateMessageVia` with the CreateWebhookMessage route |
| WebhookService.WebhookServiceImpl.CreateMessageSlack | rest/webhook_service.go:154-156 | `CreateMessageVia` with the Slack route; nothing else differs |
| WebhookService.WebhookServiceImpl.CreateMessageGitHub | rest/webhook_service.go:158-160 | `CreateMessageVia` with the GitHub route; nothing else differs |
| WebhookService.WebhookServiceImpl.UpdateMessage | rest/webhook_service.go:162-181 | `MessageRun` with only `thread_id` (when non-empty), path (webhook id, token, message id) and a message destination |
| WebhookService.WebhookServiceImpl.DeleteMessage | rest/webhook_service.go:183-196 | `DeleteRun` with only `thread_id` (when non-empty) and path (webhook id, token, message id): no body, no destination |
| Icon.GetMIME | discord/icon.go:23-25 | the MIME string is the IconType's own value: converting it back gives the same IconType |
| Icon.GetHeader | discord/icon.go:27-29 | `"data:"`, then the MIME type, then `";base64"`; length is the MIME length plus 12 |
| Icon.String | discord/icon.go:59-64 | empty exactly when the data is empty; otherwise the header, a comma and the data, starting with `"data:"`, ending with the data, of length MIME + 13 + data |
| Icon.StringRoundTrip | discord/icon.go:59-64 | reading a non-empty icon's text form back as a data URI gives its MIME type, the base64 marker and its data, for a comma-free MIME type |
| Icon.StringInjective | discord/icon.go:59-64 | two non-empty icons with comma-free MIME types have the same text form only when they are equal |
| Icon.UnknownIsJPEG | discord/icon.go:15-21 | the unknown type is the JPEG value, so both give `"data:image/jpeg;base64"` |
| Icon.NamedTypesReadBack | discord/icon.go:16-19 | the four named types read back through the data-URI reader |
| Icon.NewIconRaw | discord/icon.go:44-48 | with an empty source, the icon keeps the given type, has no data, and its text form is `""` |

## Left out

- HTTP transport: `Do`'s network exchange, status handling, retries and the `opts ...RequestOpt` pass-through. `Do` is a recording stand-in whose error and decoded values come from a script.
- The route package: how a template compiles, how query values are encoded, and `Route()`'s URL text. Compilation is a scripted function that may fail. On success it returns the template with exactly the query and path values it was given.
- The JSON layer: `Icon.MarshalJSON` (discord/icon.go:55-57), what `ToBody` produces, and how `UnmarshalWebhook` picks a webhook variant. `ToBody` is scripted. The webhook a successful `Do` decodes is taken as given.
- Entities and request values such as messages, guilds, stage instances and payloads are stand-in datatypes carrying an identifier or a string. The caches, the entity builder and the REST services behind `Disgo()` are uninterpreted functions. No caching semantics are modelled.
- `Disgo`, `ID`, `Type`, `Topic`, `LastMessageID` and `LastPinTimestamp` (core/channel.go:104-118, 158-164, 261-263) only read a field. They are the record's fields, or the helpers `Channel.ID` and `Channel.Type`.
- The integer codes of the channel types are not modelled. `OtherType` stands for every type the facade does not name.
- `NewIcon` (discord/icon.go:35-41) reads all bytes from a reader. That is I/O, and it is left out.
- Icon.NewIconRaw: only an empty source is modelled. For a non-empty source the call goes into the standard library's base64 encoder, which writes into a nil slice. That encoder is not part of this model, so nothing is claimed about base64 output.
- rest/invite_service.go, rest/voice_service.go and core/invite.go compile one route and delegate, the same pattern as the webhook service. They are not part of this model.
- There is no concurrency in these files.

## Findings

| source | as written | input that shows it | evidently intended | confidence | as-written member | corrected member |
|---|---|---|---|---|---|---|
| core/channel.go:128-154 | each `IsX` is `Type() != X`, so each single-type gate (`StageInstance`, `CreateStageInstance`, `IsModerator`, `Bitrate`, `NSFW`, `Connect`) rejects the type it serves; `ChannelIntended` rebuilds all six on `Type() == X` | a stage channel holding a stage-instance identifier: `StageInstance` panics with "unsupported operation" instead of looking the instance up | `Type() == X` | high; not executed | ChannelIntended.WrittenStageGateRejectsStageChannel | ChannelIntended.StageInstance |
