# Messenger ticket bot — a Dafny model

The bot is a Messenger webhook server that sells event tickets. The platform
POSTs batches of messaging events to `/webhook`. The server classifies each
event (optin, message, delivery, postback, read, account linking) and answers
through the Send API. The commands are "getstarted" (a welcome card),
"showevents" (a carousel of two events) and "buyevent1"/"buyevent2" (the
ticket tiers of one event, split over two button templates because a template
holds at most three buttons). A text or payload is normalised by removing all
whitespace and lower-casing it before it is matched. GET `/webhook` answers the
subscription handshake. GET `/options` serves the ticket webview with an
X-Frame-Options header chosen from the Referer. Every POST body is checked
against its `x-hub-signature` header.

The model has one module per concern:

- `Messages`: outbound messages and button templates. It also holds the
  outcome of a handler, `Outcome(sent, fault)`. `sent` lists the messages
  handed to the Send API, in order. `fault` is the exception that ended the
  handler, if any. Sends are fire-and-forget, so messages handed over before
  a throw stay sent.
- `Normalization`: the `\s` whitespace class, lower-casing and the key
  normalisation.
- `Strings`: `indexOf`, `split`, `join` and suffix helpers.
- `Edm`: the event cards.
- `TicketTypes`: the two ticket templates.
- `Dispatch`: the event classifier and the message and postback handlers.
  `DispatchProperties` holds the lemmas about them.
- `Webhook`: both `/webhook` routes. The POST batch walk is an imperative
  method proved against a specification function.
- `Options`: GET `/options`.
- `Signature`: the signature comparison.

The code has two slips, and the model keeps both behaviours apart with a
`Build` parameter. `AsWritten` is the code as it stands. `Repaired` is what it
evidently means (see Findings):

- `sendTextMessage` is called in four places but defined nowhere. As written,
  every text reply throws a ReferenceError.
- `showTicketsByEvent2` reads a `callbackURL` it never declares. As written,
  it throws before its message is built.

`receivedAuthentication` and `receivedAccountLink` are also called and never
defined. They throw in both builds, because no intended body is known.

The model follows the code where a plain reading of the bot's intent says
otherwise:

- A thrown exception leaves the POST handler before `res.sendStatus(200)`.
  The remaining events of the batch are not handled, and the platform gets no
  200 (`Webhook.PostAborted`). So the webhook does not "always answer 200 to
  a page batch" when some event throws.
- In `receivedMessage`, "showevents" has no `break`. It sends the event list
  and then falls through to the default reply. The model keeps the fall
  through.
- The `ticket` parameter of three ticket links names a different tier
  amount than the button's title and `price`: "VIP (10000)" on the VIP
  (80000) button, and "VVIP (10000)" and "Super VIP (10000)" on the last two.
  The model keeps these labels as written; `TicketTypes.IsTicketButton`
  checks the link's start and its `price`, not the `ticket` label.
- The text is normalised before the echo check. So a message without `text`
  throws even when it is an echo or a quick reply, or carries only
  attachments.

## Model

| member | source | states |
|---|---|---|
| Messages.ThenAssociative | app.js:127-153 | Running handlers one after another does not depend on how they are grouped |
| Messages.ThenUnit | app.js:127-153 | A step that sends nothing and does not throw changes nothing when it comes last |
| Messages.ChainAppend | app.js:127-153 | Handling two runs of events in sequence is handling the first, then the second unless the first threw |
| Messages.ChainWithoutFault | app.js:127-153 | When no handler throws, the batch completes and sends every handler's messages in order |
| Messages.ChainFirstFault | app.js:127-153 | When handler k is the first to throw, the batch sends the messages of the handlers before it and its own, then stops with its exception |
| Messages.ChainCompletes | app.js:127-160 | A run of handlers completes exactly when none of them throws, and then it sends all their messages in order |
| Messages.ChainSentPrefix | app.js:127-153 | What a batch sends is always a prefix of everything its handlers would send |
| Normalization.ToLowerChar | app.js:229 | Only upper-case ASCII letters change, each into a lower-case letter; whitespace stays whitespace; every other character is unchanged |
| Normalization.LowerCharTable | app.js:229 | An upper-case ASCII letter becomes the lower-case letter at the same place in the alphabet, read off the two alphabets |
| Normalization.StripWhitespace | app.js:229 | The result keeps only non-whitespace characters of the input, is no longer than it, and has no whitespace |
| Normalization.ToLowerCase | app.js:229 | Each character is lower-cased in place; the length is kept |
| Normalization.Normalize | app.js:229 | The key has no whitespace and no upper-case letter, and is no longer than the text |
| Normalization.StripWhitespaceKeeps | app.js:229 | A string without whitespace is left unchanged |
| Normalization.NormalizeKeepsNormal | app.js:229 | A string with no whitespace and no upper case is its own key |
| Normalization.NormalizeIdempotent | app.js:229 | Normalising a key again gives the same key |
| Normalization.NormalizeConcat | app.js:229 | The key of a concatenation is the concatenation of the keys |
| Normalization.NormalizePadded | app.js:229 | Whitespace around a word without whitespace is dropped and the word is lower-cased |
| Normalization.NormalizeIgnoresCase | app.js:229 | Raising every ASCII letter of a text to upper case does not change its key: matching is case-blind |
| Normalization.NormalizeEmptyIffBlank | app.js:229 | The key is empty exactly when the text is all whitespace |
| Strings.ContainsIffOccurs | app.js:71-73 | `indexOf(sub) >= 0` holds exactly when `sub` occurs at some position |
| Strings.AfterLast | ticket_types.js:26 | The result is the whole suffix after the last separator: it ends the string, holds no separator, and is either the whole string (when there is no separator) or preceded by the separator |
| Strings.Split | app.js:180 | `split` gives at least one field, and no field holds the separator |
| Strings.JoinSplit | app.js:180 | Joining the fields with the separator gives back the string |
| Strings.SplitJoin | app.js:180 | Splitting a join of separator-free fields gives back the fields |
| Strings.SplitWithout | app.js:180 | A string without the separator splits into itself alone |
| Strings.SplitPrefix | app.js:180 | A separator-free field followed by the separator splits off as the first field |
| Edm.GetEDMJSON | edm.js:1-32 | Exactly two cards, "EDM" and "Water Festival", each with one postback button posting back "buyevent1" and "buyevent2" respectively |
| Edm.IgnoresServerUrl | edm.js:1 | The cards do not depend on the server URL passed in |
| TicketTypes.FirstTiersMessage | ticket_types.js:1-53 | A button template for the recipient, titled for the event, with buttons GA (30000), PGA (50000) and VIP (80000), each a web_url with a height ratio |
| TicketTypes.LastTiersMessage | ticket_types.js:57-96 | A button template for the recipient, titled for the event, with buttons VVIP (90000) and Super VIP (520000), web_urls without a height ratio |
| TicketTypes.ShowTicketsByEvent | ticket_types.js:1-55 | The callback receives exactly one message, the first tiers |
| TicketTypes.ShowTicketsByEvent2 | ticket_types.js:57-98 | As written, reading `callbackURL` throws and nothing reaches the callback; repaired, the callback receives the last tiers |
| TicketTypes.FirstTiersLinks | ticket_types.js:18-48 | Every first-tier button links into the backend's options page for the event, and its `price` is the amount its title shows: 30000, 50000, 80000 |
| TicketTypes.LastTiersLinks | ticket_types.js:73-91 | Every last-tier button links into the options page for the event, and its `price` is the amount its title shows: 90000, 520000 |
| TicketTypes.TiersAcrossMessages | ticket_types.js:18-91 | Each template keeps the three-button cap; together they offer five tiers, no title twice |
| Dispatch.Classify | app.js:135-152 | The kind is the first present field in the order optin, message, delivery, postback, read, account_linking; unknown exactly when none is present |
| Dispatch.SendTextMessage | app.js:250-373 | At each of its four call sites: as written, the call throws and sends nothing; repaired, it sends the one text to the recipient |
| Dispatch.SendInitialQuestion | app.js:404-440 | One well-formed generic card for the recipient, whose buttons are exactly a postback "Inquiry about tickets?" carrying "showevents" and a phone_number "Call Phone Number" dialling +16505551234 |
| Dispatch.SendEventList | app.js:446-465 | A well-formed generic template for the recipient whose cards are the event cards |
| Dispatch.ReceivedMessage | app.js:209-275 | Every message sent goes to the sender and is well formed; a message without text throws before anything else |
| Dispatch.ReceivedPostback | app.js:311-376 | Every message sent goes to the sender and is well formed; a postback without payload throws |
| Dispatch.BuyTickets | app.js:338-367 | As written, the first tiers are sent and the second builder throws; repaired, both tier messages are sent in order |
| Dispatch.HandleEvent | app.js:135-152 | Each kind goes to its handler; delivery, read and unknown events send nothing; optin and account-linking events throw; all replies go to the sender |
| DispatchProperties.EchoAndQuickReplyFirst | app.js:233-252 | An echo is ignored and a quick reply is acknowledged, whatever the text says |
| DispatchProperties.MessageCommandsRepaired | app.js:255-274 | The key "getstarted" gives the welcome card; "showevents" gives the event list and then the fallback text; other non-empty keys give the fallback text; an empty key with attachments gives the attachment text; otherwise nothing |
| DispatchProperties.MessageCommandsAsWritten | app.js:255-274 | As written, only "getstarted" and ignorable messages complete; "showevents" sends the list and then throws; every other reply throws before sending |
| DispatchProperties.BlankTextIsNoCommand | app.js:255-274 | A text that is all whitespace (no echo, no quick reply) is answered exactly as an empty text: a sendTextMessage call with the attachment text when attachments are present, nothing otherwise |
| DispatchProperties.MessageDependsOnKey | app.js:229-274 | Two texts with the same key get the same reply |
| DispatchProperties.PostbackCommands | app.js:331-375 | Each command key runs its builder; "buyevent1"/"buyevent2" run both ticket builders for "Event 1"/"Event 2"; any other payload gets the apology quoting the raw payload |
| DispatchProperties.MessageIgnoresCase | app.js:229-274 | A message's text written in upper case gets the same reply as the text itself |
| DispatchProperties.PostbackIgnoresCase | app.js:331-367 | A command payload written in upper case runs the same command |
| DispatchProperties.PostbackDependsOnKey | app.js:331-367 | For a command, spacing and case of the payload make no difference |
| DispatchProperties.SpacedShowEvents | app.js:331-337 | The payload "  ShowEvents " brings exactly the event list |
| DispatchProperties.CommandKeys | app.js:331-354 | Every command key is its own normalisation, so the exact payloads match |
| DispatchProperties.InitialQuestionLeadsToEvents | app.js:331-337 | Tapping the welcome card's postback button brings the event list |
| DispatchProperties.EventCardsLeadToTickets | app.js:338-367 | Tapping card i of the event list (whose payloads are "buyevent1" and "buyevent2") runs both ticket builders for event i + 1 |
| DispatchProperties.AsWrittenSendsNoText | app.js:250-373 | As written, no handler ever delivers a text message |
| DispatchProperties.RepairedFaults | app.js:135-146 | Repaired, an event throws exactly when it is an optin or account-linking event, a message without text or a postback without payload |
| Webhook.GetWebhook | app.js:100-111 | The challenge is echoed exactly when the mode is "subscribe" and the token matches; otherwise 403 |
| Webhook.ReceiveWebhook | app.js:120-162 | The nested loop over entries and events sends and answers exactly what the batch specification says |
| Webhook.AllEventsAppend | app.js:127-132 | The events of two runs of entries are the events of each, in order |
| Webhook.RunEventsAppend | app.js:127-153 | Handling two runs of events is handling the first, then the second unless the first threw |
| Webhook.RunEventsAfterFault | app.js:127-153 | Events after one that throws change nothing: they are neither handled nor sent for |
| Webhook.RunEventsAbort | app.js:127-160 | Once an event throws, no later event of the batch is handled |
| Webhook.PostAcknowledged | app.js:124-160 | A page batch gets its 200 exactly when no event throws, and then every event's messages are sent in order |
| Webhook.PostAborted | app.js:124-160 | When event k is the first to throw, the batch sends what the earlier events sent and what k sent before throwing, and no 200 follows |
| Webhook.PostOnlyPages | app.js:124-161 | Only a page subscription is answered; nothing is sent for any other object |
| Webhook.PostRepliesToSenders | app.js:120-162 | Every message the batch sends goes to the sender of one of its events |
| Options.ServeOptions | app.js:66-78 | A missing or empty Referer gets no answer; otherwise the page is served, framed for messenger.com if the Referer mentions it, else for facebook.com if that is mentioned, else with no header |
| Options.MessengerReferer | app.js:71-72 | Any Referer containing www.messenger.com allows framing by Messenger |
| Options.FacebookReferer | app.js:73-74 | A Referer containing www.facebook.com but not www.messenger.com allows framing by Facebook |
| Signature.VerifyRequestSignature | app.js:172-193 | A missing or empty header is only noted; a request is accepted only if its header holds '=' followed by the expected digest |
| Signature.SignedHeader | app.js:180-191 | A header "scheme=digest" is accepted exactly when the digest is the expected one, whatever the scheme |
| Signature.NoSeparatorRejected | app.js:180-191 | A non-empty header without '=' is always rejected |

## Left out

- The Send API call (`callSendAPI`, app.js:494 onwards) is an HTTPS request. It is replaced by the list of messages handed to it. Its response handling and logging are not modelled.
- Send order is modelled as hand-over order. The asynchronous requests may complete in any order, so the order in which the user sees the messages is not modelled.
- All `console.log`/`console.error` output is left out.
- `receivedDeliveryConfirmation` and `receivedMessageRead` only log. They are modelled as sending nothing. A delivery or read event whose fields would make their property reads throw is not modelled.
- `/optionspostback` and `sendImageMessage` are left out. The first is browser glue that calls the Send API with the wrong arity. The second is never called.
- The Express, body-parser and config bootstrap is left out, including the exit on missing config values.
- Normalization.ToLowerChar: only ASCII letters are lower-cased, whereas JavaScript's `toLowerCase` covers all of Unicode. The only character outside ASCII whose lower case is ASCII is the Kelvin sign (U+212A → 'k'). No command word contains 'k', so which commands match is unchanged; only the key of a non-command text differs.
- Signature.VerifyRequestSignature: the expected digest (HMAC-SHA1 of the raw body under the app secret, computed by Node's crypto) is a parameter, not computed. What the body parser does after the throw is not modelled.
- POST /webhook: `data.entry` and `pageEntry.messaging` are taken to be arrays, and `data` an object. A malformed body that would make `forEach` throw is not modelled.
- The raw payload is assumed to be a string, as sent by the platform.
- Dispatch.ReceivedMessage: `quick_reply` and `attachments` are modelled by their truthiness only. The quick-reply payload and the attachment contents are only logged.

## Findings

| source | as written | input that shows it | evidently intended | confidence | as-written member | corrected member |
|---|---|---|---|---|---|---|
| app.js:250-373 | `sendTextMessage` is called (lines 250, 267, 273 and 370) but defined nowhere, so each call throws a ReferenceError and no text reply is ever sent | a message event with text "hello" (no echo, no quick reply) | a helper that sends the text to the recipient through the Send API | high (not executed) | DispatchProperties.MessageCommandsAsWritten | DispatchProperties.MessageCommandsRepaired |
| ticket_types.js:77-86 | `showTicketsByEvent2` reads `callbackURL`, which only `showTicketsByEvent` declares, so it throws and VVIP and Super VIP are never offered | the postback payload "buyevent1" | `callbackURL = backend_server + "/options"` declared as in `showTicketsByEvent`, so the last two tiers are sent | high (not executed) | TicketTypes.ShowTicketsByEvent2 | TicketTypes.LastTiersLinks |
