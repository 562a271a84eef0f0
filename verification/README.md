# WhatsApp webhook handling and lead scoring, modelled in Dafny

This project models three pieces of decision logic of a Rails CRM/helpdesk:

- **Z-API webhooks** (`Whatsapp::IncomingMessageZapiService`). A blank event `type` is dropped. Any other type is first announced as a `PROVIDER_EVENT_RECEIVED` event carrying the whole parameter hash. It is then routed to one of four callback handlers, or logged as unsupported:
  - `MessageStatusCallback` maps the provider codes `SENT`, `DELIVERED`/`RECEIVED` and `READ`/`READ_BY_ME`/`PLAYED` to `sent`, `delivered` and `read`. It applies the result to every stored message in the `ids` batch and never moves a message backwards along `sent < delivered < read`. An unknown code changes nothing and logs `Unknown ZAPI status: <code>`.
  - `DeliveryCallback` marks one message `delivered`, or `failed` with the error text kept. It stores the millisecond `momment` as seconds.
  - `ConnectedCallback` opens the channel's provider connection when the reported phone is the channel's own number. Otherwise it closes the connection with the wrong-number error and disconnects the provider. A Brazilian mobile number written with the ninth digit counts as the same number as the one without it.
  - `DisconnectedCallback` closes the connection.
- **Baileys webhooks** (`Whatsapp::IncomingMessageBaileysService#perform`). The steps run in this order:
  1. A verify-token mismatch raises `InvalidWebhookVerifyToken`.
  2. A blank `event` or `data` returns.
  3. The event is dispatched.
  4. The handler method `process_<event with . and - replaced by _>` runs if the service responds to it. Otherwise `Baileys unsupported event: <event>` is logged.
- **Lead scoring** (`Conversations::LeadScoringService`). Nothing happens unless the account has an enabled OpenAI hook and the reply parses to a JSON object. When both hold:
  - the four `lead_*` keys are merged into `custom_attributes`;
  - the label `lead-qualificado` or `lead-nao-qualificado` is added to the conversation's labels without duplicates, and the account label is created if missing;
  - the score is banded into a priority (85/70/50/40);
  - a qualified lead gets a private note `Lead qualificado — Score: N. Motivos: r1, r2.`

Everything is modelled with immutable datatypes and total functions:

- Stored messages are a map from provider id to record.
- Channels are a map from channel id to record.
- Dispatches, log lines and the provider disconnect are returned as a list of effects.
- The clock, the configured verify token and the set of handler methods the Baileys service responds to are parameters.

The Z-API handler classes (`Whatsapp::ZapiHandlers::*`) are not part of this model. Their behaviour is taken from the RSpec examples that pin them, and the choices those examples leave open are listed under "Left out".

Files:

| file | contents |
|---|---|
| `base.dfy` | `Option` and Rails `blank?` |
| `text.dfy` | `Integer#to_s` and `join(', ')`, each with its parser and a round-trip lemma |
| `lists.dfy` | `Array#uniq` as a function and as a loop |
| `message_status.dfy` | the status code table, the no-downgrade rule, the batch update and the delivery update |
| `phone.dfy` | the `ConnectedCallback` phone comparison |
| `zapi.dfy` | Z-API routing, the handlers and the store |
| `baileys.dfy` | the Baileys entry point |
| `lead_scoring.dfy` | the lead-scoring service |

## Model

| member | source | states |
|---|---|---|
| `Text.IntToDecimal` | app/services/conversations/lead_scoring_service.rb:85 | the interpolated score is an optional minus sign and digits, with the sign present exactly for a negative score and no leading zero, so the string is fixed by its value |
| `Base.BlankOpt` | spec/services/whatsapp/incoming_message_zapi_service_spec.rb:10-25 | a missing value and the empty string are blank, and a value starting with a non-space character is not; the Baileys guard on `event` uses the same test |
| `Text.NatDecimalRoundTrip` | app/services/conversations/lead_scoring_service.rb:85 | reading the decimal digits of a natural number gives the number back |
| `Text.IntDecimalRoundTrip` | app/services/conversations/lead_scoring_service.rb:85 | reading the interpolated score gives the score back, for every integer |
| `Text.Join` | app/services/conversations/lead_scoring_service.rb:85 | joining no reasons gives the empty string, and joining one reason gives that reason |
| `Text.JoinAppend` | app/services/conversations/lead_scoring_service.rb:85 | joining two non-empty lists of reasons one after the other is joining each and putting one `", "` between them, whatever the reasons contain |
| `Text.SplitJoin` | app/services/conversations/lead_scoring_service.rb:85 | splitting the joined reasons at `", "` gives the reasons back, when there is at least one and none contains the separator |
| `Lists.Dedup` | app/services/conversations/lead_scoring_service.rb:54 | `uniq` keeps exactly the elements of its input, without repetitions, in the order of their first occurrences |
| `Lists.DedupOfDistinct` | app/services/conversations/lead_scoring_service.rb:54 | `uniq` of a list without repetitions is the list itself |
| `Lists.DedupAppend` | app/services/conversations/lead_scoring_service.rb:54 | on a list without repetitions, `(list + [x]).uniq` is the list when `x` is already in it, and the list with `x` at the end otherwise |
| `Lists.DedupIdempotent` | app/services/conversations/lead_scoring_service.rb:54 | `uniq` applied twice is `uniq` applied once |
| `Lists.Uniq` | app/services/conversations/lead_scoring_service.rb:54 | the loop with a seen-set computes `uniq` and returns a list without repetitions |
| `MessageStatus.FromZapiCode` | spec/services/whatsapp/zapi_handlers/message_status_callback_spec.rb:13-82 | a recognised code translates to a status on the path whose code set contains it; a code in no status's code set is rejected |
| `MessageStatus.FromZapiCodeComplete` | spec/services/whatsapp/zapi_handlers/message_status_callback_spec.rb:21-71 | `SENT` gives `sent`, `DELIVERED`/`RECEIVED` give `delivered`, and `READ`/`READ_BY_ME`/`PLAYED` give `read` |
| `MessageStatus.Advance` | spec/services/whatsapp/zapi_handlers/message_status_callback_spec.rb:84-141 | the new status is the current one or the reported one, whichever ranks higher on `sent < delivered < read`; the status never moves back |
| `MessageStatus.AdvanceRule` | spec/services/whatsapp/zapi_handlers/message_status_callback_spec.rb:84-141 | a strictly higher rank is applied; an equal or lower rank leaves the status unchanged |
| `MessageStatus.AdvanceIdempotent` | spec/services/whatsapp/zapi_handlers/message_status_callback_spec.rb:84-114 | delivering the same callback again changes nothing |
| `MessageStatus.AdvanceCommutes` | spec/services/whatsapp/zapi_handlers/message_status_callback_spec.rb:116-141 | two callbacks for one message give the same status in either order |
| `MessageStatus.Reconciled` | spec/services/whatsapp/zapi_handlers/message_status_callback_spec.rb:116-141 | a status callback changes only the status of a message, and changes it by the no-downgrade rule |
| `MessageStatus.ApplyToBatch` | spec/services/whatsapp/zapi_handlers/message_status_callback_spec.rb:143-152 | every stored message listed in `ids` is reconciled on its own, unlisted messages are unchanged, and no message is added or removed |
| `MessageStatus.BatchOrderIrrelevant` | spec/services/whatsapp/zapi_handlers/message_status_callback_spec.rb:143-152 | the order and the repetitions of the ids in a batch do not affect the result |
| `MessageStatus.ProcessStatusCallback` | spec/services/whatsapp/zapi_handlers/message_status_callback_spec.rb:73-82 | an unknown code leaves every message as it was and logs exactly `Unknown ZAPI status: <code>`; a known code logs nothing and advances every listed message |
| `MessageStatus.StatusCallbackMonotone` | spec/services/whatsapp/zapi_handlers/message_status_callback_spec.rb:84-114 | no status callback lowers the rank of any message |
| `MessageStatus.MixedBatchExample` | spec/services/whatsapp/zapi_handlers/message_status_callback_spec.rb:143-152 | with `DELIVERED`, a `sent` message becomes `delivered` and a `read` message stays `read` |
| `MessageStatus.MillisToSeconds` | spec/services/whatsapp/zapi_handlers/delivery_callback_spec.rb:16-24 | the result is the whole number of seconds in the millisecond count, rounded down |
| `MessageStatus.MillisToSecondsOfSeconds` | spec/services/whatsapp/zapi_handlers/delivery_callback_spec.rb:16-24 | a stamp built as seconds × 1000 converts back to those seconds |
| `MessageStatus.ProcessDeliveryCallback` | spec/services/whatsapp/zapi_handlers/delivery_callback_spec.rb:20-41 | an unknown id changes nothing. Otherwise only that message changes: it becomes `delivered`, or `failed` with the error stored verbatim when an error is present, and its moment is stored in seconds |
| `Phone.DeletePlus` | spec/services/whatsapp/zapi_handlers/connected_callback_spec.rb:14 | the result holds every character of the input except `+`, each as often as in the input, and no `+`; a string without `+` is returned unchanged |
| `Phone.DeletePlusOfPlusPrefix` | spec/services/whatsapp/zapi_handlers/connected_callback_spec.rb:14 | a number written as `+` followed by plus-free digits loses only that `+` |
| `Phone.DeletePlusConcat` | spec/services/whatsapp/zapi_handlers/connected_callback_spec.rb:14 | removing `+` from two concatenated strings removes it from each part |
| `Phone.DropNinthDigit` | spec/services/whatsapp/zapi_handlers/connected_callback_spec.rb:35-42 | dropping the ninth digit keeps the country and area code, removes one digit and keeps the eight that follow |
| `Phone.Canonical` | spec/services/whatsapp/zapi_handlers/connected_callback_spec.rb:35-42 | a ninth-digit mobile number loses its ninth digit, any other string is kept, and the result is never in ninth-digit form |
| `Phone.CanonicalIdempotent` | spec/services/whatsapp/zapi_handlers/connected_callback_spec.rb:35-42 | canonicalising twice is canonicalising once |
| `Phone.SameNumber` | spec/services/whatsapp/zapi_handlers/connected_callback_spec.rb:18-42 | the channel's number without `+` matches the reported number when the two are equal, and when one is the other with the ninth digit added |
| `Phone.SameNumberIff` | spec/services/whatsapp/zapi_handlers/connected_callback_spec.rb:18-42 | the phones match exactly when the reported number is the channel's number without `+`, or one of the two is the other with the ninth digit added |
| `Phone.SameNumberWithoutPlus` | spec/services/whatsapp/zapi_handlers/connected_callback_spec.rb:11-21 | the channel's own number sent back without `+` matches |
| `Phone.NinthDigitMatches` | spec/services/whatsapp/zapi_handlers/connected_callback_spec.rb:35-42 | `+55 AA 9XXXXXXXX` and `55 AA XXXXXXXX` match in both directions, of which `+5511987654321` against `551187654321` is one instance |
| `Zapi.Route` | spec/services/whatsapp/zapi_handlers/message_status_callback_spec.rb:10-15 | a routed type is exactly the event type of its handler, and a type that names no handler is not routed |
| `Zapi.RouteEventType` | spec/services/whatsapp/zapi_handlers/disconnected_callback_spec.rb:10-11 | every handler is reached by its own event type |
| `Zapi.RoutesToNamedMethods` | spec/services/whatsapp/zapi_handlers/message_status_callback_spec.rb:3-10 | `MessageStatusCallback`, `DeliveryCallback`, `ConnectedCallback` and `DisconnectedCallback` are handled by `process_message_status_callback`, `process_delivery_callback`, `process_connected_callback` and `process_disconnected_callback` |
| `Zapi.SetConnection` | spec/services/whatsapp/zapi_handlers/disconnected_callback_spec.rb:13-16 | only the given channel's provider connection is replaced; other channels and all messages are unchanged |
| `Zapi.ProcessConnected` | spec/services/whatsapp/zapi_handlers/connected_callback_spec.rb:18-33 | a matching phone gives an `open` connection and no other effect. A mismatch gives `close` with the wrong-number error and a disconnect of that channel. No other channel or message changes |
| `Zapi.ProcessDisconnected` | spec/services/whatsapp/zapi_handlers/disconnected_callback_spec.rb:13-16 | the inbox's channel ends with a `close` connection and no error, and keeps its phone number; no other channel and no message changes |
| `Zapi.RunHandler` | spec/services/whatsapp/zapi_handlers/delivery_callback_spec.rb:8-10 | connection handlers leave the messages alone, message handlers leave the channels alone, and only the inbox's own channel can change |
| `Zapi.Perform` | spec/services/whatsapp/incoming_message_zapi_service_spec.rb:10-51 | a blank or missing type does nothing at all. Any other type is first dispatched with the whole params as payload. An unsupported type then only logs `Z-API unsupported event: <type>`. No message is created, and no channel but the inbox's own changes |
| `Zapi.PerformRoutes` | spec/services/whatsapp/zapi_handlers/message_status_callback_spec.rb:8-22 | a routed type runs exactly its handler after the dispatch |
| `Zapi.UnknownStatusIsLoggedNoOp` | spec/services/whatsapp/zapi_handlers/message_status_callback_spec.rb:73-82 | a status callback with an unknown code leaves the store unchanged and logs exactly the unknown-status line |
| `Zapi.StatusCallbackPerMessage` | spec/services/whatsapp/zapi_handlers/message_status_callback_spec.rb:143-152 | through `perform`, every listed stored message is reconciled independently and every other message and all channels are unchanged |
| `Zapi.DeliveryForUnknownMessage` | spec/services/whatsapp/zapi_handlers/delivery_callback_spec.rb:36-41 | a delivery callback for an unknown id leaves the store unchanged and raises nothing |
| `Zapi.DisconnectedNeedsOnlyType` | spec/services/whatsapp/zapi_handlers/disconnected_callback_spec.rb:11-16 | the disconnect result depends on nothing but the type, closes the inbox's channel and leaves the messages alone |
| `Zapi.ConnectedDisconnectsOnlyOnMismatch` | spec/services/whatsapp/zapi_handlers/connected_callback_spec.rb:24-33 | the provider is disconnected exactly when the phone does not match |
| `Baileys.BlankData` | app/services/whatsapp/incoming_message_baileys_service.rb:11 | `data` is blank exactly when it is missing or the empty hash |
| `Baileys.NormalizeEvent` | app/services/whatsapp/incoming_message_baileys_service.rb:16 | the normalised name has the event's length; each `.` or `-` becomes `_` and every other character is kept in place |
| `Baileys.NormalizeEventClean` | app/services/whatsapp/incoming_message_baileys_service.rb:16 | a normalised event name contains no `.` or `-`, and normalising it again changes nothing |
| `Baileys.NormalizeEventMerges` | app/services/whatsapp/incoming_message_baileys_service.rb:16 | event names that differ only in where they use `.`, `-` or `_` normalise to the same name |
| `Baileys.HandlerMethod` | app/services/whatsapp/incoming_message_baileys_service.rb:16-17 | the method name is `process_` followed by the normalised event, of the same length as the event |
| `Baileys.HandlerMethodOfTwoWords` | app/services/whatsapp/incoming_message_baileys_service.rb:16-17 | `a.b` and `a-b` are handled by `process_a_b` |
| `Baileys.Perform` | app/services/whatsapp/incoming_message_baileys_service.rb:9-24 | the call raises exactly when the tokens differ. Blank event or data returns with no effect. Otherwise the event is dispatched with `data` as payload, and then either the handler runs, if the service responds to it, or the unsupported-event line is logged, never both |
| `Baileys.TokenCheckedFirst` | app/services/whatsapp/incoming_message_baileys_service.rb:10-11 | a wrong token raises even when the event or the data is missing |
| `Baileys.MissingTokenMatchesMissingToken` | app/services/whatsapp/incoming_message_baileys_service.rb:10 | a channel with no configured token accepts exactly the webhooks that carry no token |
| `Baileys.ConnectionUpdateHandled` | app/services/whatsapp/incoming_message_baileys_service.rb:3-18 | `connection.update` is handled by `process_connection_update` |
| `Baileys.MessagesUpsertHandled` | app/services/whatsapp/incoming_message_baileys_service.rb:4-18 | `messages.upsert` is handled by `process_messages_upsert` |
| `Baileys.MessagesUpdateHandled` | app/services/whatsapp/incoming_message_baileys_service.rb:5-18 | `messages.update` and `messages-update` are both handled by `process_messages_update` |
| `Baileys.IncludedEventsInvokeHandler` | app/services/whatsapp/incoming_message_baileys_service.rb:3-20 | with the three handler modules included, `connection.update`, `messages.upsert`, `messages.update` and `messages-update` are dispatched and then run their handler, with no unsupported-event line |
| `LeadScoring.ParseJson` | app/services/conversations/lead_scoring_service.rb:24-28 | a reply is accepted exactly when it parses to a JSON object, and then it is that object |
| `LeadScoring.DesiredPriority` | app/services/conversations/lead_scoring_service.rb:66-79 | there is no band exactly below 40, and a band's threshold never exceeds the score |
| `LeadScoring.DesiredPriorityThresholds` | app/services/conversations/lead_scoring_service.rb:67-77 | a score reaches a priority or better exactly when it is at least that priority's threshold: 85 urgent, 70 high, 50 medium, 40 low |
| `LeadScoring.DesiredPriorityMonotone` | app/services/conversations/lead_scoring_service.rb:67-77 | a higher score never yields a lower priority |
| `LeadScoring.ApplyPriority` | app/services/conversations/lead_scoring_service.rb:66-82 | below 40 the priority is untouched; from 40 it is set to exactly the band of the score; nothing else changes |
| `LeadScoring.MergeLeadAttributes` | app/services/conversations/lead_scoring_service.rb:35-41 | the four lead keys hold score, qualification, reasons and time. Every other key keeps its value, no key is lost, and missing attributes count as empty |
| `LeadScoring.MergeLeadAttributesOverwrites` | app/services/conversations/lead_scoring_service.rb:35-41 | scoring again replaces the earlier lead values and nothing else |
| `LeadScoring.StatusLabel` | app/services/conversations/lead_scoring_service.rb:49 | the label is `lead-qualificado` exactly when qualified and `lead-nao-qualificado` exactly when not |
| `LeadScoring.StatusColor` | app/services/conversations/lead_scoring_service.rb:51 | the label colour is `#22c55e` exactly for a qualified lead and `#ef4444` exactly for one that is not |
| `LeadScoring.UpdatedLabels` | app/services/conversations/lead_scoring_service.rb:53-55 | the new labels are the old labels plus the status label, without repetitions, with no old label lost and no other label added |
| `LeadScoring.UpdatedLabelsOfDistinct` | app/services/conversations/lead_scoring_service.rb:53-55 | on a list without repetitions the status label is appended when missing and the list is unchanged otherwise, so the opposite status label stays |
| `LeadScoring.UpdatedLabelsIdempotent` | app/services/conversations/lead_scoring_service.rb:53-55 | adding the same status label twice is adding it once |
| `LeadScoring.EnsureAccountLabel` | app/services/conversations/lead_scoring_service.rb:58-64 | the label exists afterwards. An existing colour and description are kept. `show_on_sidebar` is set only when nil. Other labels are untouched. The label is saved exactly when it is new or changed |
| `LeadScoring.EnsureAccountLabelStable` | app/services/conversations/lead_scoring_service.rb:58-64 | ensuring a label a second time changes nothing and saves nothing |
| `LeadScoring.NoteContent` | app/services/conversations/lead_scoring_service.rb:84-85 | the note starts with `Lead qualificado — Score: ` and ends with `.` |
| `LeadScoring.NoteRoundTrip` | app/services/conversations/lead_scoring_service.rb:85 | the score reads back out of the note, and so do the reasons when there is at least one and none contains `", "` |
| `LeadScoring.PersistResults` | app/services/conversations/lead_scoring_service.rb:30-46 | the result updates the attributes, the conversation's labels, the account's labels and the priority as above. A note is appended only for a qualified lead |
| `LeadScoring.Perform` | app/services/conversations/lead_scoring_service.rb:6-20 | nothing changes without an enabled hook or when the reply is not a JSON object; otherwise the result is persisted |
| `LeadScoring.NoteOnlyWhenQualified` | app/services/conversations/lead_scoring_service.rb:45 | exactly one note is added exactly when the lead is qualified, and its score reads back as the result's score |
| `LeadScoring.LabelsOnlyGrow` | app/services/conversations/lead_scoring_service.rb:53-55 | after scoring the conversation has a label list, keeps every label it had and carries the status label, also when it had no label list before |

## Left out

- Z-API handler code. It is not part of this model. The model follows the RSpec examples, and where they leave a choice open it fixes one:
  - a message that is already `failed` is not moved by a status callback;
  - `DeliveryCallback` writes `delivered`/`failed` without the no-downgrade rule;
  - `DeliveryCallback` stores the moment whenever it is given;
  - an error is "present" when it is given and not blank;
  - the dispatch comes before the handler;
  - the unsupported-event line is `Z-API unsupported event: <type>` (the examples only match the prefix);
  - a connection update replaces the whole `provider_connection` hash;
  - a blank or missing event `type` is a no-op: nothing is dispatched or logged;
  - a missing `ids` is an empty batch, and a missing `status` is the unknown code `""`;
  - `DeliveryCallback` writes `failed` whatever status the message had, with no guard for a message already `read`;
  - `MessageStatusCallback` ignores any `momment` or `error` the webhook carries: only `ids` and `status` are read, and a message's stored error and timestamp are kept;
  - `ConnectedCallback` compares the reported `phone` as sent; only the channel's own number has its `+` removed.
- `Phone.Canonical`: the ninth-digit rule is stated as an assumption beyond the single example. The rule is: 13 characters, starting with `55`, with `9` in the fifth place.
- Z-API event types other than the four callbacks (incoming messages, presence, and so on) are not routed by this model. Their handlers are not part of it.
- `Baileys.IncludedHandlers`: the method names `process_connection_update`, `process_messages_upsert` and `process_messages_update` are assumed from the names of the three included modules; those modules are not part of this model.
- Baileys handler bodies (`ConnectionUpdate`, `MessagesUpsert`, `MessagesUpdate`). They are not part of this model. `respond_to?`/`send` is membership in a set of method names passed as a parameter.
- `LeadScoring.EnsureAccountLabel`: a label the account does not have yet is taken to start with no colour, no description and no `show_on_sidebar`, so `||=` fills in the given colour and description. Column defaults of the labels table are not modelled, because the schema is not part of this model.
- The OpenAI call and the extraction of `message` from its response. `JSON.parse` and the `to_i`, `!!` and `to_s` coercions are also out. The reply is taken as already parsed and typed.
- `Time.current`/`Time.zone.now`, the event dispatcher, `Rails.logger` and I18n are replaced: the time is a parameter, dispatches and log lines are returned effects, and the wrong-number text is an opaque constant.
- ActiveRecord persistence, `reload`, save failures, `toggle_priority` (modelled as setting the priority), `update_labels` and `Messages::MessageBuilder` (modelled as appending a note record).
- `LeadScoringJob` and the campaign feature-flag script: queue plumbing and console output with no decision logic.
- Concurrency: the read-modify-write of a message status is modelled as one sequential update.
- `Base.Blank` covers ASCII whitespace only; Unicode spaces that Rails' `blank?` also accepts are not modelled.

